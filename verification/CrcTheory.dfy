/** What the checksum promises: it is the polynomial remainder of section 8 of RFC 1952,
    and it tells apart any two messages whose difference is one burst of at most 32 bits. */
module CrcTheory {
  import opened Wrappers
  import opened Crc32

  /** A message as a stream of bits, the least significant bit of each octet first. */
  function Bits(data: seq<Octet>): seq<bool> {
    if |data| == 0 then [] else data[0].Bits() + Bits(data[1..])
  }

  // ---- the register fed one message bit at a time

  function BitIn(c: Word, b: bool): Word { c[0 := c[0] != b] }

  function FeedBits(p: Word, c: Word, bits: seq<bool>): Word
    decreases |bits|
  {
    if |bits| == 0 then c else FeedBits(p, Step(p, BitIn(c, bits[0])), bits[1..])
  }

  function Pad(bits: seq<bool>): Word
    requires |bits| <= 32
  {
    bits + Repeat(false, 32 - |bits|)
  }

  /** Up to 32 bits can be mixed in at once and then shifted through. */
  lemma {:induction false} FeedAtOnce(p: Word, c: Word, bits: seq<bool>)
    requires |bits| <= 32
    ensures FeedBits(p, c, bits) == Steps(p, |bits|, Xor(c, Pad(bits)))
    decreases |bits|
  {
    if |bits| == 0 {
      assert Xor(c, Pad(bits)) == c;
    } else {
      var rest := Pad(bits[1..]);
      var later: Word := [false] + rest[..31];
      FeedAtOnce(p, Step(p, BitIn(c, bits[0])), bits[1..]);
      assert Xor(c, Pad(bits)) == Xor(BitIn(c, bits[0]), later);
      StepLinear(p, BitIn(c, bits[0]), later);
      assert Step(p, later) == rest;
    }
  }

  lemma {:induction false} FeedBitsAppend(p: Word, c: Word, a: seq<bool>, b: seq<bool>)
    ensures FeedBits(p, c, a + b) == FeedBits(p, FeedBits(p, c, a), b)
    decreases |a|
  {
    if |a| == 0 {
      assert a + b == b;
    } else {
      assert (a + b)[0] == a[0] && (a + b)[1..] == a[1..] + b;
      FeedBitsAppend(p, Step(p, BitIn(c, a[0])), a[1..], b);
    }
  }

  lemma OctetIsEightBits(p: Word, c: Word, b: Octet)
    ensures Update(p, c, b) == FeedBits(p, c, b.Bits())
  {
    FeedAtOnce(p, c, b.Bits());
  }

  /** The octet loop reads its message as a stream of bits, lowest bit of each octet first. */
  lemma {:induction false} FeedIsBitStream(p: Word, c: Word, data: seq<Octet>)
    ensures Feed(p, c, data) == FeedBits(p, c, Bits(data))
    decreases |data|
  {
    if |data| > 0 {
      OctetIsEightBits(p, c, data[0]);
      FeedIsBitStream(p, Update(p, c, data[0]), data[1..]);
      FeedBitsAppend(p, c, data[0].Bits(), Bits(data[1..]));
    }
  }

  lemma {:induction false} SameTailSameRegister(p: Word, c: Word, d: Word, tail: seq<bool>)
    requires p[31]
    ensures FeedBits(p, c, tail) == FeedBits(p, d, tail) <==> c == d
    decreases |tail|
  {
    if |tail| > 0 {
      var c', d' := BitIn(c, tail[0]), BitIn(d, tail[0]);
      SameTailSameRegister(p, Step(p, c'), Step(p, d'), tail[1..]);
      StepBijective(p, c');
      StepBijective(p, d');
      if c' == d' {
        assert c == BitIn(c', tail[0]) && d == BitIn(d', tail[0]);
      }
    }
  }

  // ---- bursts

  /** a and b agree outside the bits k .. k + w. */
  ghost predicate WithinWindow(a: seq<bool>, b: seq<bool>, k: nat, w: nat) {
    |a| == |b| && k + w <= |a| && a[..k] == b[..k] && a[k + w..] == b[k + w..]
  }

  lemma WindowOnly(p: Word, c: Word, a: seq<bool>, b: seq<bool>, k: nat, w: nat)
    requires p[31] && WithinWindow(a, b, k, w)
    ensures var s := FeedBits(p, c, a[..k]);
            FeedBits(p, c, a) == FeedBits(p, c, b) <==>
            FeedBits(p, s, a[k..k + w]) == FeedBits(p, s, b[k..k + w])
  {
    var s := FeedBits(p, c, a[..k]);
    var mid, mid' := a[k..k + w], b[k..k + w];
    assert a == a[..k] + mid + a[k + w..];
    assert b == a[..k] + mid' + a[k + w..];
    FeedBitsAppend(p, c, a[..k] + mid, a[k + w..]);
    FeedBitsAppend(p, c, a[..k] + mid', a[k + w..]);
    FeedBitsAppend(p, c, a[..k], mid);
    FeedBitsAppend(p, c, a[..k], mid');
    SameTailSameRegister(p, FeedBits(p, s, mid), FeedBits(p, s, mid'), a[k + w..]);
  }

  lemma XorCancels(c: Word, a: Word, b: Word)
    ensures Xor(c, a) == Xor(c, b) <==> a == b
    ensures Xor(Xor(c, a), a) == c
  {
    if Xor(c, a) == Xor(c, b) {
      forall i | 0 <= i < 32
        ensures a[i] == b[i]
      {
        assert Xor(c, a)[i] == Xor(c, b)[i];
      }
    }
  }

  lemma ShortWindowSeen(p: Word, c: Word, a: seq<bool>, b: seq<bool>, k: nat, w: nat)
    requires p[31] && WithinWindow(a, b, k, w) && w <= 32
    ensures FeedBits(p, c, a) == FeedBits(p, c, b) <==> a == b
  {
    var s := FeedBits(p, c, a[..k]);
    var mid, mid' := a[k..k + w], b[k..k + w];
    WindowOnly(p, c, a, b, k, w);
    FeedAtOnce(p, s, mid);
    FeedAtOnce(p, s, mid');
    StepsInjective(p, w, Xor(s, Pad(mid)), Xor(s, Pad(mid')));
    XorCancels(s, Pad(mid), Pad(mid'));
    if Pad(mid) == Pad(mid') {
      assert mid == Pad(mid)[..w] && mid' == Pad(mid')[..w];
      assert a == a[..k] + mid + a[k + w..];
      assert b == a[..k] + mid' + a[k + w..];
    }
  }

  lemma {:induction false} BitsLength(x: seq<Octet>)
    ensures |Bits(x)| == 8 * |x|
    decreases |x|
  {
    if |x| > 0 {
      BitsLength(x[1..]);
    }
  }

  lemma SameOctet(x: Octet, y: Octet)
    requires x.Bits() == y.Bits()
    ensures x == y
  {
    var a, b := x.Bits(), y.Bits();
    assert a[0] == b[0] && a[1] == b[1] && a[2] == b[2] && a[3] == b[3];
    assert a[4] == b[4] && a[5] == b[5] && a[6] == b[6] && a[7] == b[7];
  }

  lemma {:induction false} BitsInjective(x: seq<Octet>, y: seq<Octet>)
    requires |x| == |y| && Bits(x) == Bits(y)
    ensures x == y
    decreases |x|
  {
    if |x| > 0 {
      assert x[0].Bits() == Bits(x)[..8] && y[0].Bits() == Bits(y)[..8];
      assert forall i :: 0 <= i < 8 ==> x[0].Bits()[i] == y[0].Bits()[i];
      assert x[0] == y[0] by { SameOctet(x[0], y[0]); }
      assert Bits(x[1..]) == Bits(x)[8..] && Bits(y[1..]) == Bits(y)[8..];
      BitsInjective(x[1..], y[1..]);
      assert x == [x[0]] + x[1..] && y == [y[0]] + y[1..];
    }
  }

  /** y is x with at most one burst of 32 damaged bits. */
  ghost predicate OneBurst(x: seq<Octet>, y: seq<Octet>) {
    |x| == |y| && exists k: nat, w: nat :: w <= 32 && WithinWindow(Bits(x), Bits(y), k, w)
  }

  lemma CrcComparesRegisters(x: seq<Octet>, y: seq<Octet>, prev: Option<Word>)
    ensures Crc(x, prev) == Crc(y, prev) <==>
            FeedBits(POLY, Start(prev), Bits(x)) == FeedBits(POLY, Start(prev), Bits(y))
  {
    var c := Start(prev);
    FeedIsBitStream(POLY, c, x);
    FeedIsBitStream(POLY, c, y);
    NotInjective(Feed(POLY, c, x), Feed(POLY, c, y));
  }

  lemma NotInjective(a: Word, b: Word)
    ensures Not(a) == Not(b) <==> a == b
  {
    if Not(a) == Not(b) {
      forall i | 0 <= i < 32
        ensures a[i] == b[i]
      {
        assert Not(a)[i] == Not(b)[i];
      }
    }
  }

  /** Any message length, any starting value: a single burst of at most 32 bits always
      changes the checksum. */
  lemma BurstAlwaysDetected(x: seq<Octet>, y: seq<Octet>, prev: Option<Word>)
    requires OneBurst(x, y)
    ensures Crc(x, prev) == Crc(y, prev) <==> x == y
  {
    var k: nat, w: nat :| w <= 32 && WithinWindow(Bits(x), Bits(y), k, w);
    assert POLY[31];
    ShortWindowSeen(POLY, Start(prev), Bits(x), Bits(y), k, w);
    CrcComparesRegisters(x, y, prev);
    if Bits(x) == Bits(y) {
      BitsInjective(x, y);
    }
  }

  lemma WideWindow(p: Word, c: Word, a: seq<bool>, b: seq<bool>, k: nat)
    requires p[31] && WithinWindow(a, b, k, 33)
    ensures FeedBits(p, c, a) == FeedBits(p, c, b) <==>
            a == b || Xor(a[k..k + 33], b[k..k + 33]) == [true] + p
  {
    WindowOnly(p, c, a, b, k, 33);
    LongWindow(p, FeedBits(p, c, a[..k]), a[k..k + 33], b[k..k + 33]);
    assert a == a[..k] + a[k..k + 33] + a[k + 33..];
    assert b == a[..k] + b[k..k + 33] + a[k + 33..];
  }

  /** The bound 32 is exact: inside a window of 33 bits one damage pattern, and only that
      one, escapes; it is the generator polynomial itself. */
  lemma OnlyTheGeneratorEscapes(x: seq<Octet>, y: seq<Octet>, prev: Option<Word>, k: nat)
    requires |x| == |y| && WithinWindow(Bits(x), Bits(y), k, 33)
    ensures Crc(x, prev) == Crc(y, prev) <==>
            x == y || Xor(Bits(x)[k..k + 33], Bits(y)[k..k + 33]) == [true] + POLY
  {
    assert POLY[31];
    CrcComparesRegisters(x, y, prev);
    WideWindow(POLY, Start(prev), Bits(x), Bits(y), k);
    if Bits(x) == Bits(y) {
      BitsInjective(x, y);
    }
  }

  lemma LongWindow(p: Word, s: Word, a: seq<bool>, b: seq<bool>)
    requires p[31] && |a| == |b| == 33
    ensures FeedBits(p, s, a) == FeedBits(p, s, b) <==> a == b || Xor(a, b) == [true] + p
  {
    var u, v := Step(p, BitIn(s, a[0])), Step(p, BitIn(s, b[0]));
    var ta: Word, tb: Word := a[1..], b[1..];
    FeedAtOnce(p, u, ta);
    FeedAtOnce(p, v, tb);
    assert Pad(ta) == ta && Pad(tb) == tb;
    StepsInjective(p, 32, Xor(u, ta), Xor(v, tb));
    BalancedWhen(p, u, v, a[0] != b[0], ta, tb);
    assert Xor(a, b) == [a[0] != b[0]] + Xor(ta, tb);
    assert Xor(ta, tb) == ZERO <==> ta == tb by {
      if Xor(ta, tb) == ZERO {
        forall i | 0 <= i < 32 ensures ta[i] == tb[i] { assert !Xor(ta, tb)[i]; }
      }
    }
    assert a == [a[0]] + ta && b == [b[0]] + tb;
    if Xor(a, b) == [true] + p {
      assert Xor(a, b)[0] && Xor(ta, tb) == Xor(a, b)[1..];
    }
  }

  /** Registers that differ by p, or not at all, meet again exactly on tails that differ
      in the same way. */
  lemma BalancedWhen(p: Word, u: Word, v: Word, apart: bool, ta: Word, tb: Word)
    requires forall i :: 0 <= i < 32 ==> (u[i] != v[i]) == (apart && p[i])
    ensures Xor(u, ta) == Xor(v, tb) <==> Xor(ta, tb) == if apart then p else ZERO
  {
    var d: Word := if apart then p else ZERO;
    if Xor(u, ta) == Xor(v, tb) {
      forall i | 0 <= i < 32
        ensures Xor(ta, tb)[i] == d[i]
      {
        assert Xor(u, ta)[i] == Xor(v, tb)[i];
      }
    }
    if Xor(ta, tb) == d {
      forall i | 0 <= i < 32
        ensures Xor(u, ta)[i] == Xor(v, tb)[i]
      {
        assert Xor(ta, tb)[i] == d[i];
      }
    }
  }

  // ---- the polynomial remainder

  /** w added to the 32 leading coefficients. Polynomials are written highest power first. */
  function Lead(m: seq<bool>, w: Word): (r: seq<bool>)
    requires |m| >= 32
    ensures |r| == |m|
  {
    Xor(m[..32], w) + m[32..]
  }

  /** Schoolbook long division by x^32 + g: the remainder. */
  function Rem(g: Word, m: seq<bool>): Word
    requires |m| >= 32
    decreases |m|
  {
    if |m| == 32 then m
    else if m[0] then Rem(g, Lead(m[1..], g))
    else Rem(g, m[1..])
  }

  /** q * (x^32 + g) + r. */
  function MulAdd(g: Word, q: seq<bool>, r: Word): (m: seq<bool>)
    ensures |m| == |q| + 32
    decreases |q|
  {
    if |q| == 0 then r
    else if q[0] then [true] + Lead(MulAdd(g, q[1..], r), g)
    else [false] + MulAdd(g, q[1..], r)
  }

  lemma LeadTwice(m: seq<bool>, w: Word, v: Word)
    requires |m| >= 32
    ensures Lead(Lead(m, w), v) == Lead(m, Xor(w, v))
    ensures Lead(Lead(m, w), w) == m
  {
    assert forall i :: 0 <= i < 32 ==> Lead(m, w)[i] == (m[i] != w[i]);
    assert Lead(Lead(m, w), w) == m;
    assert Lead(Lead(m, w), v) == Lead(m, Xor(w, v));
  }

  lemma {:induction false} RemOfMulAdd(g: Word, q: seq<bool>, r: Word)
    ensures Rem(g, MulAdd(g, q, r)) == r
    decreases |q|
  {
    if |q| > 0 {
      var m := MulAdd(g, q, r);
      RemOfMulAdd(g, q[1..], r);
      LeadTwice(MulAdd(g, q[1..], r), g, g);
      assert m[1..] == if q[0] then Lead(MulAdd(g, q[1..], r), g) else MulAdd(g, q[1..], r);
    }
  }

  lemma {:induction false} DivisionExists(g: Word, m: seq<bool>) returns (q: seq<bool>)
    requires |m| >= 32
    ensures |q| == |m| - 32 && MulAdd(g, q, Rem(g, m)) == m
    decreases |m|
  {
    if |m| == 32 {
      q := [];
    } else {
      var q' := DivisionExists(g, if m[0] then Lead(m[1..], g) else m[1..]);
      q := [m[0]] + q';
      assert q[1..] == q';
      LeadTwice(m[1..], g, g);
      assert m == [m[0]] + m[1..];
    }
  }

  /** Rem is the remainder: the only r with m = q * (x^32 + g) + r for some quotient. */
  lemma RemainderCharacterised(g: Word, m: seq<bool>, r: Word)
    requires |m| >= 32
    ensures Rem(g, m) == r <==> exists q: seq<bool> :: MulAdd(g, q, r) == m
  {
    var q := DivisionExists(g, m);
    forall q': seq<bool> | MulAdd(g, q', r) == m
      ensures Rem(g, m) == r
    {
      RemOfMulAdd(g, q', r);
    }
  }

  lemma {:induction false} RegisterIsRemainder(p: Word, c: Word, bits: seq<bool>)
    ensures FeedBits(p, c, bits) == Rem(p, Lead(bits + ZERO, c))
    decreases |bits|
  {
    if |bits| == 0 {
      assert bits + ZERO == ZERO;
      assert Lead(ZERO, c) == c;
    } else {
      var r := bits[1..] + ZERO;
      var m := Lead(bits + ZERO, c);
      var c' := Step(p, BitIn(c, bits[0]));
      RegisterIsRemainder(p, c', bits[1..]);
      assert m[0] == (bits[0] != c[0]);
      assert forall i :: 0 <= i < 32 ==> m[1..][i] == Lead(r, ShiftRight(c))[i];
      assert m[1..] == Lead(r, ShiftRight(c));
      LeadTwice(r, ShiftRight(c), p);
      assert c' == if m[0] then Xor(ShiftRight(c), p) else ShiftRight(c);
    }
  }

  /** The generator of the standard, x^32 + x^26 + x^23 + x^22 + x^16 + x^12 + x^11 + x^10 + x^8
      + x^7 + x^5 + x^4 + x^2 + x + 1, with the coefficient of x^31 first; the first 32 bits
      are complemented with ones, and zeros are appended. */
  lemma GeneratorIs(i: int)
    requires 0 <= i < 32
    ensures POLY[31 - i] <==> i in {26, 23, 22, 16, 12, 11, 10, 8, 7, 5, 4, 2, 1, 0}
    ensures ONES[i] && !ZERO[i]
  {
  }

  /** Section 8 of RFC 1952: complement the first 32 message bits, append 32 zero bits,
      divide by the generator, complement the remainder. */
  lemma CrcIsPolynomialRemainder(data: seq<Octet>)
    ensures Crc(data, None) == Not(Rem(POLY, Lead(Bits(data) + ZERO, ONES)))
  {
    FeedIsBitStream(POLY, ONES, data);
    RegisterIsRemainder(POLY, ONES, Bits(data));
  }
}
