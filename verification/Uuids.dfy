/** UUIDs of two or sixteen octets and their little-endian form in attribute values. */
module Uuids {
  import opened Wrappers

  /** A short UUID is a number; a long one is its sixteen octets, the highest first. */
  datatype Uuid = Uuid16(value: int) | Uuid128(data: seq<int>)

  predicate IsOctet(x: int) { 0 <= x < 0x100 }

  predicate IsWord(x: int) { 0 <= x < 0x1_0000 }

  predicate IsUuid(u: Uuid) {
    match u
    case Uuid16(v) => IsWord(v)
    case Uuid128(d) => |d| == 16
  }

  const BASE: seq<int> := [0, 0, 0, 0, 0, 0, 0x10, 0, 0x80, 0, 0, 0x80, 0x5F, 0x9B, 0x34, 0xFB]

  /** bt_uuid_to_uuid128. */
  function Full(u: Uuid): seq<int> {
    match u
    case Uuid16(v) => BASE[..2] + [v / 0x100, v % 0x100] + BASE[4..]
    case Uuid128(d) => d
  }

  /** bt_uuid_cmp finds no difference. */
  predicate Same(a: Uuid, b: Uuid) { Full(a) == Full(b) }

  function Le16(v: int): seq<int> { [v % 0x100, v / 0x100] }

  function GetLe16(b: seq<int>): int
    requires |b| >= 2
  {
    b[0] + 0x100 * b[1]
  }

  function Reverse(s: seq<int>): (r: seq<int>)
    ensures |r| == |s|
  {
    seq(|s|, i requires 0 <= i < |s| => s[|s| - 1 - i])
  }

  function ToLe(u: Uuid): (r: seq<int>)
    ensures |r| == if u.Uuid16? then 2 else |u.data|
  {
    match u
    case Uuid16(v) => Le16(v)
    case Uuid128(d) => Reverse(d)
  }

  /** le_to_uuid for the two lengths in use. */
  function FromLe(b: seq<int>): Option<Uuid> {
    if |b| == 2 then Some(Uuid16(GetLe16(b)))
    else if |b| == 16 then Some(Uuid128(Reverse(b)))
    else None
  }

  /** The low octet first. */
  lemma Le16RoundTrip(v: int)
    ensures Le16(v) == [v % 0x100, v / 0x100] && GetLe16(Le16(v)) == v
    ensures IsWord(v) ==> IsOctet(Le16(v)[0]) && IsOctet(Le16(v)[1])
  {
  }

  lemma ReverseTwice(s: seq<int>)
    ensures Reverse(Reverse(s)) == s
  {
  }

  /** What is written with uuid_to_le is read back as it was, with its length. */
  lemma UuidRoundTrip(u: Uuid)
    requires IsUuid(u)
    ensures FromLe(ToLe(u)) == Some(u)
  {
    if u.Uuid128? { ReverseTwice(u.data); }
  }

  /** Two short UUIDs compare equal only if they are; a short one equals its long form. */
  lemma ShortUuids(a: int, b: int)
    ensures Same(Uuid16(a), Uuid16(b)) <==> a == b
    ensures Same(Uuid16(a), Uuid128(Full(Uuid16(a))))
  {
    if Same(Uuid16(a), Uuid16(b)) {
      assert Full(Uuid16(a))[2] == a / 0x100 && Full(Uuid16(b))[2] == b / 0x100;
      assert Full(Uuid16(a))[3] == a % 0x100 && Full(Uuid16(b))[3] == b % 0x100;
    }
  }

  /** The octets in an attribute value, the lowest first; and the long form of a short UUID,
      0000xxxx-0000-1000-8000-00805F9B34FB. */
  lemma OctetsAre(u: Uuid)
    requires IsUuid(u)
    ensures match u
            case Uuid16(v) =>
              && ToLe(u) == [v % 0x100, v / 0x100] && GetLe16([v % 0x100, v / 0x100]) == v
              && Full(u) == [0, 0, v / 0x100, v % 0x100, 0, 0, 0x10, 0, 0x80, 0, 0, 0x80, 0x5F, 0x9B, 0x34, 0xFB]
            case Uuid128(d) => |ToLe(u)| == 16 && (forall i :: 0 <= i < 16 ==> ToLe(u)[i] == d[15 - i]) && Full(u) == d
  {
  }
}
