/** The CRC in the 32-bit machine words of crc32.c: what C computes has, bit for bit, the value
    of the form on sequences. */
module CrcMachine {
  import opened Wrappers
  import opened Crc32

  /** The body of the inner loop. */
  function Shifted(crc: bv32): bv32 { (crc >> 1) ^ (0xEDB8_8320 & if crc & 1 != 0 then 0xFFFF_FFFF else 0) }

  function Times(n: nat, crc: bv32): bv32 { if n == 0 then crc else Times(n - 1, Shifted(crc)) }

  /** The outer loop. */
  function Fed(crc: bv32, data: seq<bv8>): bv32
    decreases |data|
  {
    if |data| == 0 then crc else Fed(Times(8, crc ^ (data[0] as bv32)), data[1..])
  }

  /** What crc32_compute returns. */
  function Returned(data: seq<bv8>, prev: Option<bv32>): bv32 {
    !Fed(if prev.None? then 0xFFFF_FFFF else !prev.value, data)
  }

  // ---- the bits of a machine word

  function Odd(x: bv32): bool { x & 1 != 0 }

  function Half(x: bv32): bv32 { x >> 1 }

  function Double(x: bv32): bv32 { x << 1 }

  function Mixed(a: bv32, b: bv32): bv32 { a ^ b }

  /** The lowest n bits, the lowest first. */
  function Low(x: bv32, n: nat): (r: seq<bool>)
    ensures |r| == n
  {
    if n == 0 then [] else [Odd(x)] + Low(Half(x), n - 1)
  }

  function WordOf(x: bv32): Word { Low(x, 32) }

  function OctetOf(x: bv8): Octet {
    Octet(x & 0x1 != 0, x & 0x2 != 0, x & 0x4 != 0, x & 0x8 != 0,
          x & 0x10 != 0, x & 0x20 != 0, x & 0x40 != 0, x & 0x80 != 0)
  }

  function OctetsOf(data: seq<bv8>): seq<Octet> { seq(|data|, i requires 0 <= i < |data| => OctetOf(data[i])) }

  function WordOption(x: Option<bv32>): Option<Word> { if x.None? then None else Some(WordOf(x.value)) }

  lemma {:induction false} LowMixed(a: bv32, b: bv32, n: nat)
    ensures Low(Mixed(a, b), n) == Xor(Low(a, n), Low(b, n))
    decreases n
  {
    hide Mixed, Odd, Half;
    if n > 0 {
      MixedParts(a, b);
      LowMixed(Half(a), Half(b), n - 1);
      XorCons(Odd(a), Low(Half(a), n - 1), Odd(b), Low(Half(b), n - 1));
    }
  }

  lemma MixedParts(a: bv32, b: bv32)
    ensures Half(Mixed(a, b)) == Mixed(Half(a), Half(b))
    ensures Odd(Mixed(a, b)) == (Odd(a) != Odd(b))
  {
  }

  lemma XorCons(x: bool, a: seq<bool>, y: bool, b: seq<bool>)
    requires |a| == |b|
    ensures Xor([x] + a, [y] + b) == [x != y] + Xor(a, b)
  {
  }

  lemma {:induction false} LowZero(n: nat)
    ensures Low(0, n) == Repeat(false, n)
    decreases n
  {
    if n > 0 {
      assert Half(0) == 0 && !Odd(0);
      LowZero(n - 1);
    }
  }

  function Nibble(x: bv32): seq<bool> { [x & 1 != 0, x & 2 != 0, x & 4 != 0, x & 8 != 0] }

  function Rest(x: bv32): bv32 { x >> 4 }

  lemma FourBits(x: bv32, n: nat)
    requires n >= 4
    ensures Low(x, n) == Nibble(x) + Low(Rest(x), n - 4)
  {
    FourHalves(x);
    TwoBits(x, n);
    TwoBits(Half(Half(x)), n - 2);
    hide Odd, Half, Rest, Nibble, Low;
  }

  lemma TwoBits(x: bv32, n: nat)
    requires n >= 2
    ensures Low(x, n) == [Odd(x), Odd(Half(x))] + Low(Half(Half(x)), n - 2)
  {
    hide Odd, Half;
    assert Low(x, n) == [Odd(x)] + Low(Half(x), n - 1);
  }

  lemma FourHalves(x: bv32)
    ensures Half(Half(Half(Half(x)))) == Rest(x)
    ensures Nibble(x) == [Odd(x), Odd(Half(x)), Odd(Half(Half(x))), Odd(Half(Half(Half(x))))]
  {
  }

  // ---- one step

  /** The bit above the lowest n. */
  function Next(x: bv32, n: nat): bool { if n == 0 then Odd(x) else Next(Half(x), n - 1) }

  lemma {:induction false} LowPush(x: bv32, n: nat)
    ensures Low(x, n + 1) == Low(x, n) + [Next(x, n)]
    decreases n
  {
    hide Odd, Half;
    if n > 0 { LowPush(Half(x), n - 1); }
  }

  /** 2 to the power of n. */
  function Power(n: nat): bv32 { if n == 0 then 1 else Double(Power(n - 1)) }

  predicate Below(x: bv32, p: bv32) { x < p }

  lemma {:induction false} NoNext(x: bv32, n: nat)
    requires Below(x, Power(n))
    ensures !Next(x, n)
    decreases n
  {
    hide Half, Double, Odd, Below;
    if n == 0 {
      NothingBelow(x);
    } else {
      Halves(x, Power(n - 1));
      NoNext(Half(x), n - 1);
    }
  }

  lemma NothingBelow(x: bv32)
    ensures Below(x, 1) ==> !Odd(x)
  {
  }

  lemma Halves(x: bv32, p: bv32)
    requires Below(x, Double(p))
    ensures Below(Half(x), p)
  {
  }

  function Sixteen(p: bv32): bv32 { p << 4 }

  lemma PowerFour(n: nat)
    requires n >= 4
    ensures Power(n) == Sixteen(Power(n - 4))
  {
    FourTimes(Power(n - 4));
    hide Double, Sixteen;
    assert Power(n - 2) == Double(Power(n - 3)) && Power(n - 3) == Double(Power(n - 4));
  }

  lemma FourTimes(p: bv32)
    ensures Double(Double(Double(Double(p)))) == Sixteen(p)
  {
  }

  lemma HighestPower()
    ensures Power(31) == 0x8000_0000
  {
    assert Power(3) == 8;
    hide Power;
    PowerFour(7);
    PowerFour(11);
    PowerFour(15);
    PowerFour(19);
    PowerFour(23);
    PowerFour(27);
    PowerFour(31);
  }

  lemma HalfIs(x: bv32)
    ensures WordOf(Half(x)) == ShiftRight(WordOf(x))
  {
    HighestPower();
    assert Below(Half(x), 0x8000_0000);
    hide Half, Odd, Power, Below;
    NoNext(Half(x), 31);
    LowPush(Half(x), 31);
  }

  lemma PolyIs()
    ensures WordOf(0xEDB8_8320) == POLY
  {
    LowerPoly();
    UpperPoly();
    hide Low;
  }

  lemma LowerPoly()
    ensures Low(0xEDB8_8320, 32) == [false, false, false, false, false, true, false, false,
                                     true, true, false, false, false, false, false, true] + Low(0xEDB8, 16)
  {
    LowerRests();
    LowerNibbles();
    hide Low, Rest, Nibble;
    FourBits(0xEDB8_8320, 32);
    FourBits(0xEDB_8832, 28);
    FourBits(0xED_B883, 24);
    FourBits(0xE_DB88, 20);
  }

  lemma LowerRests()
    ensures Rest(0xEDB8_8320) == 0xEDB_8832 && Rest(0xEDB_8832) == 0xED_B883
    ensures Rest(0xED_B883) == 0xE_DB88 && Rest(0xE_DB88) == 0xEDB8
  {
  }

  lemma LowerNibbles()
    ensures Nibble(0xEDB8_8320) == [false, false, false, false] && Nibble(0xEDB_8832) == [false, true, false, false]
    ensures Nibble(0xED_B883) == [true, true, false, false] && Nibble(0xE_DB88) == [false, false, false, true]
  {
  }

  lemma UpperPoly()
    ensures Low(0xEDB8, 16) == [false, false, false, true, true, true, false, true,
                                true, false, true, true, false, true, true, true]
  {
    UpperRests();
    UpperNibbles();
    NothingLow();
    hide Low, Rest, Nibble;
    FourBits(0xEDB8, 16);
    FourBits(0xEDB, 12);
    FourBits(0xED, 8);
    FourBits(0xE, 4);
  }

  lemma NothingLow()
    ensures Low(0, 0) == []
  {
  }

  lemma UpperRests()
    ensures Rest(0xEDB8) == 0xEDB && Rest(0xEDB) == 0xED && Rest(0xED) == 0xE && Rest(0xE) == 0
  {
  }

  lemma UpperNibbles()
    ensures Nibble(0xEDB8) == [false, false, false, true] && Nibble(0xEDB) == [true, true, false, true]
    ensures Nibble(0xED) == [true, false, true, true] && Nibble(0xE) == [false, true, true, true]
  {
  }

  lemma OnesAre()
    ensures WordOf(0xFFFF_FFFF) == ONES
  {
    OnesPush();
    hide Low;
  }

  lemma OnesPush()
    ensures Low(0xFFFF_FFFF, 32) == Repeat(true, 32)
  {
    OnesRests();
    hide Low, Rest, Nibble;
    FourBits(0xFFFF_FFFF, 32);
    FourBits(0xFFF_FFFF, 28);
    FourBits(0xFF_FFFF, 24);
    FourBits(0xF_FFFF, 20);
    FourBits(0xFFFF, 16);
    FourBits(0xFFF, 12);
    FourBits(0xFF, 8);
    FourBits(0xF, 4);
  }

  lemma OnesRests()
    ensures Rest(0xFFFF_FFFF) == 0xFFF_FFFF && Rest(0xFFF_FFFF) == 0xFF_FFFF && Rest(0xFF_FFFF) == 0xF_FFFF
    ensures Rest(0xF_FFFF) == 0xFFFF && Rest(0xFFFF) == 0xFFF && Rest(0xFFF) == 0xFF && Rest(0xFF) == 0xF
    ensures forall x :: x in [0xFFFF_FFFF, 0xFFF_FFFF, 0xFF_FFFF, 0xF_FFFF, 0xFFFF, 0xFFF, 0xFF, 0xF as bv32] ==>
              Nibble(x) == [true, true, true, true]
  {
  }

  lemma ShiftedIs(crc: bv32)
    ensures WordOf(Shifted(crc)) == Step(POLY, WordOf(crc))
  {
    ShiftedParts(crc);
    HalfIs(crc);
    PolyIs();
    LowZero(32);
    LowMixed(Half(crc), if Odd(crc) then 0xEDB8_8320 else 0, 32);
    assert WordOf(crc)[0] == Odd(crc);
    hide Low, Shifted, Odd, Half, Mixed;
    AndIs();
  }

  lemma ShiftedParts(crc: bv32)
    ensures Shifted(crc) == Mixed(Half(crc), if Odd(crc) then 0xEDB8_8320 else 0)
  {
  }

  lemma AndIs()
    ensures And(POLY, ONES) == POLY && And(POLY, ZERO) == ZERO
  {
  }

  lemma {:induction false} TimesIs(n: nat, crc: bv32)
    ensures WordOf(Times(n, crc)) == Steps(POLY, n, WordOf(crc))
    decreases n
  {
    hide Shifted, WordOf, Step;
    if n > 0 {
      ShiftedIs(crc);
      TimesIs(n - 1, Shifted(crc));
    }
  }

  lemma WidenIs(b: bv8)
    ensures WordOf(b as bv32) == Widen(OctetOf(b))
  {
    var x := b as bv32;
    OctetParts(b);
    LowZero(24);
    hide Rest, Nibble, OctetOf;
    FourBits(x, 32);
    FourBits(Rest(x), 28);
    hide Low;
  }

  lemma OctetParts(b: bv8)
    ensures var x := b as bv32;
            Rest(Rest(x)) == 0 && OctetOf(b).Bits() == Nibble(x) + Nibble(Rest(x))
  {
  }

  lemma NotIs(crc: bv32)
    ensures WordOf(!crc) == Not(WordOf(crc))
  {
    assert !crc == Mixed(crc, 0xFFFF_FFFF);
    OnesAre();
    LowMixed(crc, 0xFFFF_FFFF, 32);
    hide Low, Mixed;
    assert Xor(WordOf(crc), ONES) == Not(WordOf(crc));
  }

  // ---- whole buffers

  lemma {:induction false} FedIs(crc: bv32, data: seq<bv8>)
    ensures WordOf(Fed(crc, data)) == Feed(POLY, WordOf(crc), OctetsOf(data))
    decreases |data|
  {
    hide WordOf, Times, Widen, OctetOf, Steps, Mixed;
    if |data| > 0 {
      var b := data[0] as bv32;
      MixedIs(crc, data[0]);
      TimesIs(8, Mixed(crc, b));
      assert OctetsOf(data)[0] == OctetOf(data[0]) && OctetsOf(data)[1..] == OctetsOf(data[1..]);
      FedOne(crc, data);
      FedIs(Times(8, Mixed(crc, b)), data[1..]);
    }
  }

  lemma FedOne(crc: bv32, data: seq<bv8>)
    requires |data| > 0
    ensures Fed(crc, data) == Fed(Times(8, Mixed(crc, data[0] as bv32)), data[1..])
  {
  }

  lemma MixedIs(crc: bv32, b: bv8)
    ensures WordOf(Mixed(crc, b as bv32)) == Xor(WordOf(crc), Widen(OctetOf(b)))
  {
    LowMixed(crc, b as bv32, 32);
    WidenIs(b);
    hide Mixed, Low, Widen;
  }

  /** For every buffer, and started fresh or from any value that was returned before, the
      machine computes the word of the CRC. */
  lemma MachineComputesTheCrc(data: seq<bv8>, prev: Option<bv32>)
    ensures WordOf(Returned(data, prev)) == Crc(OctetsOf(data), WordOption(prev))
  {
    hide WordOf, Fed, Feed;
    var start := if prev.None? then 0xFFFF_FFFF else !prev.value;
    OnesAre();
    if prev.Some? { NotIs(prev.value); }
    FedIs(start, data);
    NotIs(Fed(start, data));
  }
}
