/** A service of the server, with its attributes at any ascending handles, and what discovery
    can find of it. */
module Rebuild {
  import opened Uuids
  import opened Paging
  import opened GattDb
  import opened Primary
  import opened Discovery

  // ---- the server

  datatype Desc = Desc(handle: int, uuid: Uuid)

  /** A characteristic: its declaration, its value and its descriptors. */
  datatype Char = Char(decl: int, value: int, properties: int, uuid: Uuid, descs: seq<Desc>)

  /** A service: its range and its characteristics. */
  datatype Server = Server(start: int, end: int, chars: seq<Char>)

  function LastDesc(from: int, ds: seq<Desc>): int {
    if |ds| == 0 then from else ds[|ds| - 1].handle
  }

  /** The last handle of a characteristic, and of a list of them behind handle `from`. */
  function LastOf(ch: Char): int { LastDesc(ch.value, ch.descs) }

  function Last(from: int, chars: seq<Char>): int {
    if |chars| == 0 then from else LastOf(chars[|chars| - 1])
  }

  /** Handles ascend behind `from`. */
  predicate DescsAscend(from: int, ds: seq<Desc>)
    decreases |ds|
  {
    |ds| == 0 || (from < ds[0].handle && DescsAscend(ds[0].handle, ds[1..]))
  }

  predicate CharsAscend(from: int, chars: seq<Char>)
    decreases |chars|
  {
    |chars| == 0
    || (from < chars[0].decl < chars[0].value && DescsAscend(chars[0].value, chars[0].descs)
        && CharsAscend(LastOf(chars[0]), chars[1..]))
  }

  predicate ValidChar(ch: Char) {
    IsUuid(ch.uuid) && ch.value < MAX_HANDLE && forall i :: 0 <= i < |ch.descs| ==> IsUuid(ch.descs[i].uuid)
  }

  /** The handles ascend inside the range; no value has the last possible handle. */
  predicate ServerOk(v: Server) {
    && 1 <= v.start < v.end <= MAX_HANDLE
    && CharsAscend(v.start, v.chars) && Last(v.start, v.chars) <= v.end
    && forall i :: 0 <= i < |v.chars| ==> ValidChar(v.chars[i])
  }

  // ---- its attributes

  function DescAttrs(ds: seq<Desc>): seq<Attribute>
    decreases |ds|
  {
    if |ds| == 0 then [] else [Attribute(ds[0].handle, ds[0].uuid, [])] + DescAttrs(ds[1..])
  }

  function CharAttrs(ch: Char): seq<Attribute> {
    [Attribute(ch.decl, CHARACTERISTIC, CharacteristicValue(ch.properties, ch.value, ch.uuid)),
     Attribute(ch.value, ch.uuid, [])]
  }

  function Table(chars: seq<Char>): seq<Attribute>
    decreases |chars|
  {
    if |chars| == 0 then [] else CharAttrs(chars[0]) + DescAttrs(chars[0].descs) + Table(chars[1..])
  }

  // ---- what it lists

  /** What Read By Type finds for characteristic declarations. */
  function ChrcItem(ch: Char): Item { Item(ch.decl, ch.decl, ch.properties, ch.value, ch.uuid) }

  function ChrcItems(chars: seq<Char>): (r: seq<Item>)
    ensures |r| == |chars|
    decreases |chars|
  {
    if |chars| == 0 then [] else [ChrcItem(chars[0])] + ChrcItems(chars[1..])
  }

  function InfoItem(h: int, uuid: Uuid): Item { Item(h, h, 0, 0, uuid) }

  function DescItems(ds: seq<Desc>): (r: seq<Item>)
    ensures |r| == |ds|
    decreases |ds|
  {
    if |ds| == 0 then [] else [InfoItem(ds[0].handle, ds[0].uuid)] + DescItems(ds[1..])
  }

  function CharInfo(ch: Char): seq<Item> {
    [InfoItem(ch.decl, CHARACTERISTIC), InfoItem(ch.value, ch.uuid)] + DescItems(ch.descs)
  }

  /** What Find Information finds: every attribute with its type. */
  function InfoItems(chars: seq<Char>): seq<Item>
    decreases |chars|
  {
    if |chars| == 0 then [] else CharInfo(chars[0]) + InfoItems(chars[1..])
  }

  function Within(items: seq<Item>, from: int, to: int): seq<Item> {
    if |items| == 0 then []
    else if from <= items[0].handle <= to then [items[0]] + Within(items[1..], from, to)
    else Within(items[1..], from, to)
  }

  /** What the server may list in answer to the request in flight. */
  function Listing(v: Server, c: Client): seq<Item> {
    Within(if c.stage.FindingChrcs? then ChrcItems(v.chars) else InfoItems(v.chars), c.since, c.request.end)
  }

  ghost predicate ClientSession(v: Server, c: Client, replies: seq<Reply>)
    requires Ready(c)
    decreases |replies|
  {
    if |replies| == 0 then true
    else
      ClientStepReady(c, replies[0]);
      && !c.stage.Finished? && Answers(c.request, Listing(v, c), replies[0])
      && ClientSession(v, ClientStep(c, replies[0]), replies[1..])
  }

  // ---- the layouts that discovery can follow

  /** Descriptors directly behind `from`. */
  predicate InRow(from: int, ds: seq<Desc>)
    decreases |ds|
  {
    |ds| == 0 || (ds[0].handle == from + 1 && InRow(from + 1, ds[1..]))
  }

  /** Attributes without a gap behind `from`. */
  predicate Contiguous(from: int, chars: seq<Char>)
    decreases |chars|
  {
    |chars| == 0
    || (chars[0].decl == from + 1 && chars[0].value == from + 2 && InRow(from + 2, chars[0].descs)
        && Contiguous(LastOf(chars[0]), chars[1..]))
  }

  /** The end of a characteristic as the client sees it. */
  function EndOf(rest: seq<Char>, end: int): int { if |rest| == 0 then end else rest[0].decl - 1 }

  /** What becomes of the characteristics behind handle `from`: all are added, or the last
      ones are left out without an error, or discovery fails. */
  datatype Verdict = Rebuilt | Cut | Failed

  function VerdictOf(from: int, chars: seq<Char>, end: int): Verdict
    decreases |chars|, 0
  {
    if |chars| == 0 then Rebuilt
    else
      var ch, rest := chars[0], chars[1..];
      if ch.value != from + 2 then Failed
      else if ch.value + 1 > EndOf(rest, end) then VerdictOf(ch.value, rest, end)
      else VerdictInside(ch, rest, end)
  }

  /** The descriptors of ch are being looked for. */
  function VerdictInside(ch: Char, rest: seq<Char>, end: int): Verdict
    decreases |rest|, 1
  {
    if |ch.descs| == 0 then (if |rest| == 0 then Rebuilt else Cut)
    else if !InRow(ch.value, ch.descs) then Failed
    else VerdictOf(LastOf(ch), rest, end)
  }

  /** Discovery can rebuild exactly the layouts without a gap. */
  lemma {:induction false} RebuiltExactly(from: int, chars: seq<Char>, end: int)
    requires CharsAscend(from, chars) && Last(from, chars) <= end
    ensures VerdictOf(from, chars, end) == Rebuilt <==> Contiguous(from, chars)
    decreases |chars|
  {
    if |chars| > 0 {
      var ch, rest := chars[0], chars[1..];
      LastTail(from, chars);
      LastBehind(LastOf(ch), rest);
      DescsBehind(ch.value, ch.descs);
      RebuiltExactly(LastOf(ch), rest, end);
    }
  }

  lemma LastTail(from: int, chars: seq<Char>)
    requires |chars| > 0
    ensures Last(LastOf(chars[0]), chars[1..]) == Last(from, chars)
  {
  }

  lemma {:induction false} LastBehind(from: int, chars: seq<Char>)
    requires CharsAscend(from, chars)
    ensures from <= Last(from, chars) && (|chars| > 0 ==> from < chars[0].decl < chars[0].value <= Last(from, chars))
    decreases |chars|
  {
    if |chars| > 0 {
      LastTail(from, chars);
      DescsBehind(chars[0].value, chars[0].descs);
      LastBehind(LastOf(chars[0]), chars[1..]);
    }
  }

  lemma {:induction false} DescsBehind(from: int, ds: seq<Desc>)
    requires DescsAscend(from, ds)
    ensures from <= LastDesc(from, ds) && (|ds| > 0 ==> from < ds[0].handle)
    ensures forall i :: 0 <= i < |ds| ==> from < ds[i].handle <= LastDesc(from, ds)
    decreases |ds|
  {
    if |ds| > 0 {
      DescsBehind(ds[0].handle, ds[1..]);
      assert forall i :: 1 <= i < |ds| ==> ds[i] == ds[1..][i - 1];
    }
  }

  // ---- lists

  lemma {:induction false} TableAppend(a: seq<Char>, b: seq<Char>)
    ensures Table(a + b) == Table(a) + Table(b)
    decreases |a|
  {
    hide CharAttrs, DescAttrs;
    if |a| == 0 {
      assert a + b == b;
    } else {
      assert (a + b)[0] == a[0] && (a + b)[1..] == a[1..] + b;
      TableAppend(a[1..], b);
    }
  }

  lemma {:induction false} InfoAppend(a: seq<Char>, b: seq<Char>)
    ensures InfoItems(a + b) == InfoItems(a) + InfoItems(b)
    decreases |a|
  {
    hide CharInfo;
    if |a| == 0 {
      assert a + b == b;
    } else {
      assert (a + b)[0] == a[0] && (a + b)[1..] == a[1..] + b;
      InfoAppend(a[1..], b);
    }
  }

  lemma {:induction false} WithinAppend(a: seq<Item>, b: seq<Item>, from: int, to: int)
    ensures Within(a + b, from, to) == Within(a, from, to) + Within(b, from, to)
    decreases |a|
  {
    if |a| == 0 {
      assert a + b == b;
    } else {
      assert (a + b)[0] == a[0] && (a + b)[1..] == a[1..] + b;
      WithinAppend(a[1..], b, from, to);
    }
  }

  lemma {:induction false} WithinNone(items: seq<Item>, from: int, to: int)
    requires forall i :: 0 <= i < |items| ==> !(from <= items[i].handle <= to)
    ensures Within(items, from, to) == []
    decreases |items|
  {
    if |items| > 0 { WithinNone(items[1..], from, to); }
  }

  lemma {:induction false} WithinAll(items: seq<Item>, from: int, to: int)
    requires forall i :: 0 <= i < |items| ==> from <= items[i].handle <= to
    ensures Within(items, from, to) == items
    decreases |items|
  {
    if |items| > 0 { WithinAll(items[1..], from, to); }
  }

  lemma {:induction false} DescItemsAre(ds: seq<Desc>)
    ensures forall i :: 0 <= i < |ds| ==> DescItems(ds)[i] == InfoItem(ds[i].handle, ds[i].uuid)
    decreases |ds|
  {
    if |ds| > 0 { DescItemsAre(ds[1..]); }
  }

  lemma {:induction false} DescsDistinct(from: int, ds: seq<Desc>)
    requires DescsAscend(from, ds)
    ensures forall i, j :: 0 <= i < j < |ds| ==> ds[i].handle < ds[j].handle
    decreases |ds|
  {
    if |ds| > 0 {
      DescsDistinct(ds[0].handle, ds[1..]);
      DescsBehind(ds[0].handle, ds[1..]);
      assert forall i :: 1 <= i < |ds| ==> ds[i] == ds[1..][i - 1];
    }
  }

  lemma DescsListed(from: int, ds: seq<Desc>, end: int)
    requires 0 <= from && DescsAscend(from, ds) && LastDesc(from, ds) <= end <= MAX_HANDLE
    requires forall i :: 0 <= i < |ds| ==> IsUuid(ds[i].uuid)
    ensures Listed(Descriptors, DescItems(ds), end)
    ensures forall i :: 0 <= i < |ds| ==> from < DescItems(ds)[i].handle <= LastDesc(from, ds)
  {
    hide IsUuid;
    DescItemsAre(ds);
    DescsDistinct(from, ds);
    DescsBehind(from, ds);
  }

  lemma ListedCons(x: Item, rest: seq<Item>, end: int)
    requires Listed(Characteristics, rest, end) && 1 <= x.handle == x.last <= end && IsUuid(x.uuid)
    requires forall i :: 0 <= i < |rest| ==> x.handle < rest[i].handle
    ensures Listed(Characteristics, [x] + rest, end)
  {
    hide IsUuid;
  }

  lemma {:induction false} ChrcsListed(from: int, chars: seq<Char>, end: int)
    requires 0 <= from && CharsAscend(from, chars) && Last(from, chars) <= end <= MAX_HANDLE
    requires forall i :: 0 <= i < |chars| ==> ValidChar(chars[i])
    ensures var items := ChrcItems(chars);
            Listed(Characteristics, items, end) && forall i :: 0 <= i < |items| ==> from < items[i].handle <= end
    decreases |chars|
  {
    hide IsUuid, Listed, DescsAscend;
    if |chars| == 0 {
      NothingListed(end);
    } else {
      LastTail(from, chars);
      LastBehind(from, chars);
      DescsBehind(chars[0].value, chars[0].descs);
      ChrcsListed(LastOf(chars[0]), chars[1..], end);
      assert ValidChar(chars[0]);
      ListedCons(ChrcItem(chars[0]), ChrcItems(chars[1..]), end);
    }
  }

  lemma NothingListed(end: int)
    requires end <= MAX_HANDLE
    ensures Listed(Characteristics, [], end)
  {
  }

  /** All the attributes of the characteristics lie behind `from`, up to their last handle. */
  lemma RangeAppend(a: seq<Item>, b: seq<Item>, from: int, mid: int, to: int)
    requires from <= mid <= to
    requires forall i :: 0 <= i < |a| ==> from < a[i].handle <= mid
    requires forall i :: 0 <= i < |b| ==> mid < b[i].handle <= to
    ensures forall i :: 0 <= i < |a + b| ==> from < (a + b)[i].handle <= to
  {
  }

  lemma {:induction false} InfoRange(from: int, chars: seq<Char>)
    requires CharsAscend(from, chars)
    ensures forall i :: 0 <= i < |InfoItems(chars)| ==> from < InfoItems(chars)[i].handle <= Last(from, chars)
    decreases |chars|
  {
    hide Table, InfoItem, CharInfo, DescsAscend;
    if |chars| > 0 {
      var ch := chars[0];
      LastTail(from, chars);
      LastBehind(from, chars);
      LastBehind(LastOf(ch), chars[1..]);
      DescsBehind(ch.value, ch.descs);
      InfoRange(LastOf(ch), chars[1..]);
      CharRange(from, ch);
      RangeAppend(CharInfo(ch), InfoItems(chars[1..]), from, LastOf(ch), Last(from, chars));
    }
  }

  lemma CharRange(from: int, ch: Char)
    requires from < ch.decl < ch.value && DescsAscend(ch.value, ch.descs)
    ensures forall i :: 0 <= i < |CharInfo(ch)| ==> from < CharInfo(ch)[i].handle <= LastOf(ch)
  {
    DescItemsAre(ch.descs);
    DescsBehind(ch.value, ch.descs);
  }

  // ---- what the client reads

  function LongDescs(ds: seq<Desc>): (r: seq<Desc>)
    ensures |r| == |ds| && forall i :: 0 <= i < |ds| ==> r[i] == Desc(ds[i].handle, Primary.Long(ds[i].uuid))
  {
    if |ds| == 0 then [] else [Desc(ds[0].handle, Primary.Long(ds[0].uuid))] + LongDescs(ds[1..])
  }

  function LongChar(ch: Char): Char { ch.(uuid := Primary.Long(ch.uuid), descs := LongDescs(ch.descs)) }

  function LongChars(chars: seq<Char>): (r: seq<Char>)
    ensures |r| == |chars| && forall i :: 0 <= i < |chars| ==> r[i] == LongChar(chars[i])
  {
    if |chars| == 0 then [] else [LongChar(chars[0])] + LongChars(chars[1..])
  }

  /** The characteristics as the iterator reports them: each ends before the next. */
  function Pendings(chars: seq<Char>, end: int): (r: seq<Chrc>)
    ensures |r| == |chars|
    decreases |chars|
  {
    if |chars| == 0 then []
    else
      var ch := chars[0];
      [Chrc(ch.decl, EndOf(chars[1..], end), ch.value, ch.properties, Primary.Long(ch.uuid))]
      + Pendings(chars[1..], end)
  }

  lemma ChrcRoundTrip(x: Item)
    requires IsUuid(x.uuid)
    ensures var e := Encode(Characteristics, x);
            (|e| == 7 || |e| == 21) && GetLe16(e) == x.handle && e[2] == x.properties
            && GetLe16(e[3..]) == x.value && ConvertUuid(e[5..]) == Primary.Long(x.uuid)
  {
    var e := Encode(Characteristics, x);
    Le16RoundTrip(x.handle);
    Le16RoundTrip(x.value);
    ConvertedIsSame(x.uuid);
    assert e[3..][..2] == Le16(x.value) && e[5..] == ToLe(x.uuid);
  }

  lemma DescRoundTrip(x: Item)
    requires IsUuid(x.uuid)
    ensures var e := Encode(Descriptors, x);
            (|e| == 4 || |e| == 18) && GetLe16(e) == x.handle && ConvertUuid(e[2..]) == Primary.Long(x.uuid)
  {
    var e := Encode(Descriptors, x);
    Le16RoundTrip(x.handle);
    ConvertedIsSame(x.uuid);
    assert e[2..] == ToLe(x.uuid);
  }

  lemma {:induction false} ReadChrcsIs(from: int, chars: seq<Char>, end: int)
    requires 0 <= from && CharsAscend(from, chars) && Last(from, chars) <= MAX_HANDLE
    requires forall i :: 0 <= i < |chars| ==> ValidChar(chars[i])
    ensures var es := EncodeAll(Characteristics, ChrcItems(chars));
            LongEnough(Characteristics, es) && ReadChrcs(es, end) == Pendings(chars, end)
    decreases |chars|
  {
    hide Encode, IsUuid, ConvertUuid, GetLe16, DescsAscend;
    var es := EncodeAll(Characteristics, ChrcItems(chars));
    if |chars| > 0 {
      var ch, rest := chars[0], chars[1..];
      LastTail(from, chars);
      LastBehind(from, chars);
      LastBehind(LastOf(ch), rest);
      DescsBehind(ch.value, ch.descs);
      ReadChrcsIs(LastOf(ch), rest, end);
      assert ValidChar(ch);
      ChrcRoundTrip(ChrcItem(ch));
      assert es[1..] == EncodeAll(Characteristics, ChrcItems(rest)) && es[0] == Encode(Characteristics, ChrcItem(ch));
      assert forall i :: 1 <= i < |es| ==> es[i] == es[1..][i - 1];
      if |rest| > 0 {
        assert ValidChar(chars[1]) && rest[0] == chars[1];
        ChrcRoundTrip(ChrcItem(rest[0]));
        assert es[1] == Encode(Characteristics, ChrcItem(rest[0]));
        NextEnds(rest[0].decl);
      }
    }
  }

  lemma NextEnds(h: int)
    requires 1 <= h <= MAX_HANDLE
    ensures (h - 1) % 0x1_0000 == h - 1
  {
  }

  /** Adding the descriptors that were found: all of them exactly if they are in a row behind
      the last attribute of the table. */
  lemma {:induction false} AddDescsIs(svc: Service, ds: seq<Desc>)
    requires Tidy(svc) && forall i :: 0 <= i < |ds| ==> IsUuid(ds[i].uuid)
    requires var last := svc.start + |Filled(svc.slots)| - 1;
             DescsAscend(last, ds) && LastDesc(last, ds) <= End(svc)
    ensures var es := EncodeAll(Descriptors, DescItems(ds));
            LongEnough(Descriptors, es) && Tidy(AddDescs(svc, es).0)
            && AddDescs(svc, es).0.start == svc.start && AddDescs(svc, es).0.num == svc.num
    ensures var es := EncodeAll(Descriptors, DescItems(ds));
            AddDescs(svc, es).1 <==> InRow(svc.start + |Filled(svc.slots)| - 1, ds)
    ensures var es := EncodeAll(Descriptors, DescItems(ds));
            AddDescs(svc, es).1 ==> Filled(AddDescs(svc, es).0.slots) == Filled(svc.slots) + DescAttrs(LongDescs(ds))
    decreases |ds|
  {
    hide Encode, IsUuid, ConvertUuid, GetLe16, Filled, Tidy, AddDescriptor;
    var es := EncodeAll(Descriptors, DescItems(ds));
    if |ds| > 0 {
      var last := svc.start + |Filled(svc.slots)| - 1;
      DescRoundTrip(InfoItem(ds[0].handle, ds[0].uuid));
      DescsLongEnough(ds);
      var uuid := Primary.Long(ds[0].uuid);
      var s := AddDescriptor(svc, uuid);
      DescriptorAdded(svc, uuid);
      TidyUsed(svc);
      DescsBehind(last, ds);
      assert es[0] == Encode(Descriptors, InfoItem(ds[0].handle, ds[0].uuid));
      AddDescsTidy(svc, es);
      if ds[0].handle == last + 1 {
        AddDescsIs(s, ds[1..]);
        assert es[1..] == EncodeAll(Descriptors, DescItems(ds[1..]));
        assert LongDescs(ds)[1..] == LongDescs(ds[1..]);
        assert Filled(svc.slots) + [Attribute(ds[0].handle, uuid, [])] + DescAttrs(LongDescs(ds[1..]))
            == Filled(svc.slots) + DescAttrs(LongDescs(ds));
      }
    }
  }

  lemma {:induction false} DescsLongEnough(ds: seq<Desc>)
    requires forall i :: 0 <= i < |ds| ==> IsUuid(ds[i].uuid)
    ensures LongEnough(Descriptors, EncodeAll(Descriptors, DescItems(ds)))
    decreases |ds|
  {
    hide Encode, IsUuid;
    if |ds| > 0 {
      var es := EncodeAll(Descriptors, DescItems(ds));
      DescRoundTrip(InfoItem(ds[0].handle, ds[0].uuid));
      DescsLongEnough(ds[1..]);
      assert es[1..] == EncodeAll(Descriptors, DescItems(ds[1..]));
      assert forall i :: 1 <= i < |es| ==> es[i] == es[1..][i - 1];
    }
  }
}
