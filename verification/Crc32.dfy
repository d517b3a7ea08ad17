/** The CRC-32 of crc32.c. A machine word is the sequence of its bits, least significant
    first, so that the shift and the exclusive-or of the source are operations on
    sequences and the algebra of the checksum can be carried out bit by bit. */
module Crc32 {
  import opened Wrappers

  /** Eight bits, b0 the least significant. */
  datatype Octet = Octet(b0: bool, b1: bool, b2: bool, b3: bool, b4: bool, b5: bool, b6: bool, b7: bool) {
    function Bits(): (r: seq<bool>)
      ensures |r| == 8
    {
      [b0, b1, b2, b3, b4, b5, b6, b7]
    }
  }
  type Word = w: seq<bool> | |w| == 32 witness seq(32, i => false)

  function Repeat(b: bool, n: nat): (r: seq<bool>)
    ensures |r| == n
    ensures forall i :: 0 <= i < n ==> r[i] == b
  {
    seq(n, i => b)
  }

  /** 0xEDB88320, least significant bit first. */
  const POLY: Word := [
    false, false, false, false, false, true, false, false,
    true, true, false, false, false, false, false, true,
    false, false, false, true, true, true, false, true,
    true, false, true, true, false, true, true, true]
  const ONES: Word := Repeat(true, 32)
  const ZERO: Word := Repeat(false, 32)

  function Xor(a: seq<bool>, b: seq<bool>): (r: seq<bool>)
    requires |a| == |b|
    ensures |r| == |a|
  {
    seq(|a|, i requires 0 <= i < |a| => a[i] != b[i])
  }

  function And(a: Word, b: Word): Word {
    seq(32, i requires 0 <= i < 32 => a[i] && b[i])
  }

  function Not(a: Word): Word {
    seq(32, i requires 0 <= i < 32 => !a[i])
  }

  function ShiftRight(a: Word): Word { a[1..] + [false] }

  /** An octet widened to 32 bits. */
  function Widen(b: Octet): Word { b.Bits() + Repeat(false, 24) }

  /** One pass of the inner loop. */
  function Step(p: Word, c: Word): Word {
    Xor(ShiftRight(c), And(p, if c[0] then ONES else ZERO))
  }

  function Steps(p: Word, n: nat, c: Word): Word {
    if n == 0 then c else Steps(p, n - 1, Step(p, c))
  }

  /** The register after one more octet. */
  function Update(p: Word, c: Word, b: Octet): Word {
    Steps(p, 8, Xor(c, Widen(b)))
  }

  function Feed(p: Word, c: Word, data: seq<Octet>): Word
    decreases |data|
  {
    if |data| == 0 then c else Feed(p, Update(p, c, data[0]), data[1..])
  }

  function Start(prev: Option<Word>): Word {
    if prev.None? then ONES else Not(prev.value)
  }

  /** The value crc32_compute returns for a whole buffer. */
  function Crc(data: seq<Octet>, prev: Option<Word>): Word {
    Not(Feed(POLY, Start(prev), data))
  }

  lemma {:induction false} FeedAppend(p: Word, c: Word, a: seq<Octet>, b: seq<Octet>)
    ensures Feed(p, c, a + b) == Feed(p, Feed(p, c, a), b)
    decreases |a|
  {
    if |a| == 0 {
      assert a + b == b;
    } else {
      assert (a + b)[0] == a[0] && (a + b)[1..] == a[1..] + b;
      FeedAppend(p, Update(p, c, a[0]), a[1..], b);
    }
  }

  lemma {:induction false} StepsLast(p: Word, n: nat, c: Word)
    ensures Steps(p, n + 1, c) == Step(p, Steps(p, n, c))
    decreases n
  {
    if n > 0 {
      StepsLast(p, n - 1, Step(p, c));
    }
  }

  lemma FeedNothing(p: Word, c: Word)
    ensures Feed(p, c, []) == c
  {
  }

  lemma FeedPush(p: Word, c: Word, a: seq<Octet>, b: Octet)
    ensures Feed(p, c, a + [b]) == Update(p, Feed(p, c, a), b)
  {
    hide Update;
    FeedAppend(p, c, a, [b]);
    assert [b][1..] == [];
  }

  lemma StepsNothing(p: Word, c: Word)
    ensures Steps(p, 0, c) == c
  {
  }

  /** crc32_compute: the two nested loops over a buffer. */
  method Compute(data: seq<Octet>, size: nat, prev: Option<Word>) returns (crc: Word)
    requires size <= |data|
    ensures crc == Crc(data[..size], prev)
  {
    hide Feed, Steps, Xor, And, Not, ShiftRight, Widen;
    crc := if prev.None? then ONES else Not(prev.value);
    FeedNothing(POLY, Start(prev));
    var i := 0;
    while i < size
      invariant 0 <= i <= size
      invariant crc == Feed(POLY, Start(prev), data[..i])
    {
      FeedPush(POLY, Start(prev), data[..i], data[i]);
      assert data[..i + 1] == data[..i] + [data[i]];
      ghost var before := crc;
      crc := Xor(crc, Widen(data[i]));
      ghost var mixed := crc;
      StepsNothing(POLY, mixed);
      var j := 8;
      while j > 0
        invariant 0 <= j <= 8
        invariant crc == Steps(POLY, 8 - j, mixed)
      {
        StepsLast(POLY, 8 - j, mixed);
        crc := Xor(ShiftRight(crc), And(POLY, if crc[0] then ONES else ZERO));
        j := j - 1;
      }
      assert crc == Update(POLY, before, data[i]);
      i := i + 1;
    }
    assert data[..i] == data[..size];
    crc := Not(crc);
  }

  /** Feeding a message in two blocks, with the returned value passed on, is the same as
      one call over the whole message. */
  lemma BlocksCompose(a: seq<Octet>, b: seq<Octet>, prev: Option<Word>)
    ensures Crc(a + b, prev) == Crc(b, Some(Crc(a, prev)))
  {
    FeedAppend(POLY, Start(prev), a, b);
    var r := Feed(POLY, Start(prev), a);
    assert Not(Not(r)) == r;
  }

  function Concat<T>(blocks: seq<seq<T>>): seq<T> {
    if |blocks| == 0 then [] else blocks[0] + Concat(blocks[1..])
  }

  function CrcOfBlocks(blocks: seq<seq<Octet>>, prev: Option<Word>): Option<Word>
    decreases |blocks|
  {
    if |blocks| == 0 then prev else CrcOfBlocks(blocks[1..], Some(Crc(blocks[0], prev)))
  }

  /** The same for any split into blocks. */
  lemma {:induction false} AnySplit(blocks: seq<seq<Octet>>, prev: Option<Word>)
    requires |blocks| > 0
    ensures CrcOfBlocks(blocks, prev) == Some(Crc(Concat(blocks), prev))
    decreases |blocks|
  {
    var head := Some(Crc(blocks[0], prev));
    if |blocks| == 1 {
      assert Concat(blocks) == blocks[0];
    } else {
      AnySplit(blocks[1..], head);
      BlocksCompose(blocks[0], Concat(blocks[1..]), prev);
    }
  }

  // ---- linearity and bijectivity of the shift step

  lemma StepLinear(p: Word, a: Word, b: Word)
    ensures Step(p, Xor(a, b)) == Xor(Step(p, a), Step(p, b))
  {
  }

  function Unstep(p: Word, r: Word): Word {
    if r[31] then [true] + Xor(r, p)[..31] else [false] + r[..31]
  }

  lemma StepAt(p: Word, c: Word)
    ensures forall i :: 0 <= i < 31 ==> Step(p, c)[i] == (c[i + 1] != (p[i] && c[0]))
    ensures Step(p, c)[31] == (p[31] && c[0])
  {
    assert forall i :: 0 <= i < 32 ==> ShiftRight(c)[i] == if i < 31 then c[i + 1] else false;
  }

  lemma UnstepAt(p: Word, r: Word)
    ensures Unstep(p, r)[0] == r[31]
    ensures forall i :: 1 <= i < 32 ==> Unstep(p, r)[i] == (r[i - 1] != (p[i - 1] && r[31]))
  {
  }

  /** The shift step loses nothing: for a polynomial with its top bit set it has a
      two-sided inverse. */
  lemma StepBijective(p: Word, c: Word)
    requires p[31]
    ensures Unstep(p, Step(p, c)) == c && Step(p, Unstep(p, c)) == c
  {
    hide Step, Unstep;
    var s, u := Step(p, c), Unstep(p, c);
    StepAt(p, c);
    UnstepAt(p, s);
    UnstepAt(p, c);
    StepAt(p, u);
    assert s[31] == c[0] && u[0] == c[31];
    forall i | 0 <= i < 32
      ensures Unstep(p, s)[i] == c[i]
    {
      if i > 0 { assert s[i - 1] == (c[i] != (p[i - 1] && c[0])); }
    }
    forall i | 0 <= i < 32
      ensures Step(p, u)[i] == c[i]
    {
      if i < 31 { assert u[i + 1] == (c[i] != (p[i] && c[31])); }
    }
  }

  lemma {:induction false} StepsLinear(p: Word, n: nat, a: Word, b: Word)
    ensures Steps(p, n, Xor(a, b)) == Xor(Steps(p, n, a), Steps(p, n, b))
    decreases n
  {
    if n > 0 {
      StepLinear(p, a, b);
      StepsLinear(p, n - 1, Step(p, a), Step(p, b));
    }
  }

  lemma {:induction false} StepsInjective(p: Word, n: nat, a: Word, b: Word)
    requires p[31]
    ensures Steps(p, n, a) == Steps(p, n, b) <==> a == b
    decreases n
  {
    if n > 0 {
      StepsInjective(p, n - 1, Step(p, a), Step(p, b));
      StepBijective(p, a);
      StepBijective(p, b);
    }
  }
}
