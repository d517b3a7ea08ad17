/** Counting pieces: the ceiling of a quotient. */
module Arith {
  function Min(a: nat, b: nat): nat { if a < b then a else b }

  /** The same for integers of either sign. */
  function Least(a: int, b: int): int { if a < b then a else b }

  /** The number of pieces of at most `size` that n falls into. */
  function Pieces(n: nat, size: nat): nat
    requires size > 0
  {
    if n == 0 then 0 else 1 + Pieces(n - Min(size, n), size)
  }

  lemma {:induction false} PiecesBounds(n: nat, size: nat)
    requires size > 0
    ensures n <= Pieces(n, size) * size < n + size
  {
    if n > 0 {
      var rest := n - Min(size, n);
      PiecesBounds(rest, size);
      assert (1 + Pieces(rest, size)) * size == size + Pieces(rest, size) * size;
      if rest == 0 {
        assert Pieces(rest, size) * size == 0;
      }
    }
  }

  lemma TimesMonotone(a: nat, c: nat, b: nat)
    ensures a <= c ==> a * b <= c * b
  {
    if a <= c {
      assert c * b == a * b + (c - a) * b;
    }
  }

  lemma Quotient(x: nat, b: nat, q: nat)
    requires b > 0 && q * b <= x < q * b + b
    ensures x / b == q
  {
    var p := x / b;
    assert p * b <= x < p * b + b;
    TimesMonotone(p + 1, q, b);
    TimesMonotone(q + 1, p, b);
  }

  lemma PiecesIsCeiling(n: nat, size: nat)
    requires size > 0
    ensures Pieces(n, size) == (n + size - 1) / size
  {
    PiecesBounds(n, size);
    var q, x := Pieces(n, size), n + size - 1;
    Quotient(x, size, q);
  }
}
