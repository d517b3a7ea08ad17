/** Every run of discovery of one service, against any layout of its attributes: it ends, and
    what it ends with is decided by the layout. */
module RebuildRuns {
  import opened Wrappers
  import opened Pdus
  import opened Uuids
  import opened Pages
  import opened Paging
  import opened GattDb
  import opened Primary
  import opened Discovery
  import opened Rebuild

  /** How far discovery has come: the characteristics that are complete, the one whose
      descriptors are looked for, those behind it, and the items the request has brought. */
  datatype Progress = Progress(pre: seq<Char>, current: Option<Char>, rest: seq<Char>, k: nat)

  function Bare(ch: Char): Char { ch.(descs := []) }

  /** d is the declaration of the service. */
  predicate Built(d: Attribute, svc: Service, chars: seq<Char>) {
    Filled(svc.slots) == [d] + Table(LongChars(chars))
  }

  predicate SameRangeAs(v: Server, svc: Service) { svc.start == v.start && svc.num == v.end - v.start + 1 }

  /** The handle of the last attribute in the table. */
  function LastFilled(svc: Service): int { svc.start + |Filled(svc.slots)| - 1 }

  /** What becomes of the service. Characteristics that an earlier service left pending are in
      the way of any it has itself. */
  function Outcome(v: Server, stale: seq<Chrc>): Verdict {
    if |v.chars| > 0 && |stale| > 0 then Failed else VerdictOf(v.start, v.chars, v.end)
  }

  predicate AllBelow(xs: seq<Chrc>, limit: int) { forall i :: 0 <= i < |xs| ==> xs[i].value < limit }

  ghost predicate LookingForDescs(v: Server, d: Attribute, c: Client, pre: seq<Char>, ch: Char, rest: seq<Char>,
                                  k: nat) {
    && v.chars == pre + [ch] + rest
    && Built(d, c.svc, pre + [Bare(ch)]) && LastFilled(c.svc) == ch.value
    && c.pending == Pendings(rest, v.end)
    && c.since == ch.value + 1 && c.request.end == EndOf(rest, v.end)
    && Got(c.request, DescItems(ch.descs), k)
    && VerdictOf(v.start, v.chars, v.end) == VerdictInside(ch, rest, v.end)
  }

  ghost predicate LookingForChrcs(v: Server, d: Attribute, c: Client, stale: seq<Chrc>, k: nat) {
    && c.pending == stale && Built(d, c.svc, [])
    && c.since == v.start && c.request.end == v.end
    && Got(c.request, ChrcItems(v.chars), k)
  }

  /** The end: all of the table, or not all of it and characteristics still pending, or an
      error. */
  predicate Ending(v: Server, d: Attribute, c: Client, stale: seq<Chrc>, ok: bool) {
    match Outcome(v, stale)
    case Rebuilt => ok && Built(d, c.svc, v.chars) && c.pending == stale
    case Cut => ok && |Filled(c.svc.slots)| < 1 + |Table(v.chars)| && |c.pending| > 0 && AllBelow(c.pending, v.end + 1)
    case Failed => !ok
  }

  ghost predicate Inv(v: Server, d: Attribute, c: Client, stale: seq<Chrc>, w: Progress) {
    && ServerOk(v) && Ready(c) && SameRangeAs(v, c.svc) && AllBelow(stale, v.start)
    && match c.stage
       case FindingChrcs => LookingForChrcs(v, d, c, stale, w.k)
       case FindingDescs =>
         |stale| == 0 && w.current.Some? && LookingForDescs(v, d, c, w.pre, w.current.value, w.rest, w.k)
       case Finished(ok) => Ending(v, d, c, stale, ok)
  }

  // ---- splitting the server's list

  lemma {:induction false} SplitFacts(v: Server, from: int, pre: seq<Char>, rest: seq<Char>)
    requires CharsAscend(from, pre + rest)
    ensures CharsAscend(from, pre) && CharsAscend(Last(from, pre), rest)
    ensures Last(from, pre + rest) == Last(Last(from, pre), rest)
    decreases |pre|
  {
    hide DescsAscend;
    if |pre| == 0 {
      assert pre + rest == rest;
    } else {
      var all := pre + rest;
      assert all[0] == pre[0] && all[1..] == pre[1..] + rest;
      SplitFacts(v, LastOf(pre[0]), pre[1..], rest);
      LastTail(from, pre);
      LastTail(from, all);
    }
  }

  lemma SplitValid(v: Server, pre: seq<Char>, rest: seq<Char>)
    requires ServerOk(v) && v.chars == pre + rest
    ensures CharsAscend(Last(v.start, pre), rest) && v.start <= Last(v.start, pre)
    ensures Last(v.start, pre) <= Last(Last(v.start, pre), rest) <= v.end
    ensures forall i :: 0 <= i < |rest| ==> ValidChar(rest[i])
  {
    hide ValidChar, CharsAscend;
    SplitFacts(v, v.start, pre, rest);
    LastBehind(v.start, pre);
    LastBehind(Last(v.start, pre), rest);
    assert forall i :: 0 <= i < |rest| ==> rest[i] == v.chars[|pre| + i];
  }

  lemma {:induction false} LongAppend(a: seq<Char>, b: seq<Char>)
    ensures LongChars(a + b) == LongChars(a) + LongChars(b)
  {
    hide LongChar;
  }

  lemma LastPush(from: int, pre: seq<Char>, ch: Char)
    ensures Last(from, pre + [ch]) == LastOf(ch)
  {
  }

  // ---- the table grows

  /** By the two attributes of a characteristic. */
  lemma BuiltBare(d: Attribute, svc: Service, r: Service, pre: seq<Char>, ch: Char)
    requires Built(d, svc, pre)
    requires Filled(r.slots) == Filled(svc.slots) + CharAttrs(LongChar(ch))
    ensures Built(d, r, pre + [Bare(ch)])
  {
    hide Filled, CharAttrs, Table, LongChars, LongChar;
    LongAppend(pre, [Bare(ch)]);
    TableAppend(LongChars(pre), LongChars([Bare(ch)]));
    OneBare(ch);
  }

  lemma OneBare(ch: Char)
    ensures Table(LongChars([Bare(ch)])) == CharAttrs(LongChar(ch))
  {
    var l := LongChars([Bare(ch)]);
    assert l[0].descs == [] && l[1..] == [];
    assert Table([]) == [] && DescAttrs([]) == [];
  }

  /** And then by its descriptors. */
  lemma BuiltDescs(d: Attribute, svc: Service, r: Service, pre: seq<Char>, ch: Char)
    requires Built(d, svc, pre + [Bare(ch)])
    requires Filled(r.slots) == Filled(svc.slots) + DescAttrs(LongDescs(ch.descs))
    ensures Built(d, r, pre + [ch])
  {
    hide Filled, CharAttrs, DescAttrs, Table, LongChars, LongChar;
    LongAppend(pre, [Bare(ch)]);
    LongAppend(pre, [ch]);
    TableAppend(LongChars(pre), LongChars([Bare(ch)]));
    TableAppend(LongChars(pre), LongChars([ch]));
    OneBare(ch);
    OneFull(ch);
  }

  lemma OneFull(ch: Char)
    ensures Table(LongChars([ch])) == CharAttrs(LongChar(ch)) + DescAttrs(LongDescs(ch.descs))
  {
    var l := LongChars([ch]);
    assert l[0] == LongChar(ch) && l[1..] == [];
    assert Table([]) == [];
  }

  lemma {:induction false} DescAttrsCount(ds: seq<Desc>)
    ensures |DescAttrs(ds)| == |ds|
    decreases |ds|
  {
    if |ds| > 0 { DescAttrsCount(ds[1..]); }
  }

  lemma {:induction false} TableLong(chars: seq<Char>)
    ensures |Table(LongChars(chars))| == |Table(chars)|
    decreases |chars|
  {
    hide DescAttrs, CharacteristicValue;
    if |chars| > 0 {
      assert LongChars(chars)[1..] == LongChars(chars[1..]) && LongChars(chars)[0] == LongChar(chars[0]);
      DescAttrsCount(chars[0].descs);
      DescAttrsCount(LongDescs(chars[0].descs));
      TableLong(chars[1..]);
    }
  }

  /** What is left out is missing. */
  lemma ShortTable(d: Attribute, svc: Service, pre: seq<Char>, rest: seq<Char>)
    requires Built(d, svc, pre) && |rest| > 0
    ensures |Filled(svc.slots)| < 1 + |Table(pre + rest)|
  {
    hide Filled;
    TableLong(pre);
    TableAppend(pre, rest);
  }

  // ---- adding characteristics

  predicate Descending(v: Server, d: Attribute, c: Client, pre: seq<Char>, rest: seq<Char>) {
    && ServerOk(v) && Tidy(c.svc) && SameRangeAs(v, c.svc)
    && v.chars == pre + rest && Built(d, c.svc, pre) && LastFilled(c.svc) == Last(v.start, pre)
    && c.pending == Pendings(rest, v.end)
    && VerdictOf(v.start, v.chars, v.end) == VerdictOf(Last(v.start, pre), rest, v.end)
  }

  /** A characteristic fits exactly if its value comes second behind the last attribute; then
      it goes in where the server has it. */
  lemma CharFits(v: Server, d: Attribute, c: Client, pre: seq<Char>, rest: seq<Char>)
    requires Descending(v, d, c, pre, rest) && |rest| > 0
    ensures var x, ch := c.pending[0], rest[0];
            var svc := AddCharacteristic(c.svc, x.uuid, x.properties);
            var free := FreeIndex(c.svc, 1);
            && x.value == ch.value && x.end == EndOf(rest[1..], v.end) && c.pending[1..] == Pendings(rest[1..], v.end)
            && Tidy(svc) && SameRangeAs(v, svc)
            && (free == 0 || (free + 1 < |svc.slots| && svc.slots[free + 1].Some?))
            && (free == 0 || svc.slots[free + 1].value.handle != x.value <==> ch.value != Last(v.start, pre) + 2)
    ensures var x, ch := c.pending[0], rest[0];
            var svc := AddCharacteristic(c.svc, x.uuid, x.properties);
            ch.value == Last(v.start, pre) + 2 ==> Built(d, svc, pre + [Bare(ch)]) && LastFilled(svc) == ch.value
  {
    hide Filled, Used, Tidy, AddCharacteristic, ValidChar, Built, CharacteristicValue, DescsAscend, Table;
    var ch := rest[0];
    var x := c.pending[0];
    SplitValid(v, pre, rest);
    LastBehind(Last(v.start, pre), rest);
    TidyUsed(c.svc);
    CharacteristicAdded(c.svc, x.uuid, x.properties);
    if ch.value == Last(v.start, pre) + 2 {
      TwoMore(c.svc, AddCharacteristic(c.svc, x.uuid, x.properties), ch, x);
      BuiltBare(d, c.svc, AddCharacteristic(c.svc, x.uuid, x.properties), pre, ch);
    }
  }

  lemma TwoMore(s: Service, r: Service, ch: Char, x: Chrc)
    requires x.uuid == Primary.Long(ch.uuid) && x.properties == ch.properties
    requires ch.value == LastFilled(s) + 2 && ch.decl == LastFilled(s) + 1 && r.start == s.start
    requires var n := |Filled(s.slots)|;
             Filled(r.slots) == Filled(s.slots)
               + [Attribute(s.start + n, CHARACTERISTIC, CharacteristicValue(x.properties, s.start + n + 1, x.uuid)),
                  Attribute(s.start + n + 1, x.uuid, [])]
    ensures Filled(r.slots) == Filled(s.slots) + CharAttrs(LongChar(ch)) && LastFilled(r) == ch.value
  {
    hide Filled, CharacteristicValue, LongDescs;
  }

  /** The verdict on what is left, one characteristic further. */
  lemma VerdictSteps(v: Server, pre: seq<Char>, rest: seq<Char>)
    requires ServerOk(v) && v.chars == pre + rest && |rest| > 0 && rest[0].value == Last(v.start, pre) + 2
    ensures var ch, tail := rest[0], rest[1..];
            && pre + [ch] + tail == pre + rest && 0 <= ch.value < MAX_HANDLE
            && (ch.value + 1 > EndOf(tail, v.end) ==>
                  && |ch.descs| == 0 && Bare(ch) == ch
                  && VerdictOf(Last(v.start, pre), rest, v.end) == VerdictOf(ch.value, tail, v.end))
            && (ch.value + 1 <= EndOf(tail, v.end) ==>
                  VerdictOf(Last(v.start, pre), rest, v.end) == VerdictInside(ch, tail, v.end))
  {
    hide Table, InRow;
    var ch, tail := rest[0], rest[1..];
    SplitValid(v, pre, rest);
    LastBehind(Last(v.start, pre), rest);
    LastTail(Last(v.start, pre), rest);
    DescsBehind(ch.value, ch.descs);
    LastBehind(LastOf(ch), tail);
    assert ValidChar(ch);
  }

  lemma SmallWord(x: int)
    requires 0 <= x <= MAX_HANDLE
    ensures x % 0x1_0000 == x
  {
  }

  lemma {:induction false} Descend(v: Server, d: Attribute, c: Client, pre: seq<Char>,
                                   rest: seq<Char>) returns (w: Progress)
    requires Descending(v, d, c, pre, rest)
    ensures Inv(v, d, DiscoverDescs(c, true), [], w)
    ensures Budget(v, DiscoverDescs(c, true), w) <= Later(rest)
    decreases |rest|
  {
    hide Filled, Used, Tidy, AddCharacteristic, Built, Pendings, Ready, FreeIndex, ServerOk, VerdictOf,
         VerdictInside, Table, Last;
    DiscoverDescsReady(c, true);
    LaterIsNat(rest);
    if |rest| == 0 {
      assert pre + rest == pre;
      AllRebuilt(v, d, c, pre);
      w := Progress(pre, None, [], 0);
    } else {
      var ch, tail := rest[0], rest[1..];
      var x := c.pending[0];
      CharFits(v, d, c, pre, rest);
      LaterIsNat(tail);
      var c1 := c.(svc := AddCharacteristic(c.svc, x.uuid, x.properties), pending := c.pending[1..]);
      if ch.value != Last(v.start, pre) + 2 {
        FirstFails(Last(v.start, pre), rest, v.end);
        w := Progress(pre, None, [], 0);
      } else {
        VerdictSteps(v, pre, rest);
        SmallWord(ch.value + 1);
        LastPush(v.start, pre, ch);
        if ch.value + 1 > x.end {
          w := Descend(v, d, c1, pre + [ch], tail);
        } else {
          StartGot(Descriptors, ch.value + 1, x.end, DescItems(ch.descs)) by { DescsStart(v, pre, rest); }
          w := Progress(pre, Some(ch), tail, 0);
        }
      }
    }
  }

  lemma FirstFails(from: int, rest: seq<Char>, end: int)
    requires |rest| > 0 && rest[0].value != from + 2
    ensures VerdictOf(from, rest, end) == Failed
  {
  }

  lemma DescsStart(v: Server, pre: seq<Char>, rest: seq<Char>)
    requires ServerOk(v) && v.chars == pre + rest && |rest| > 0
    ensures |DescItems(rest[0].descs)| > 0 ==> rest[0].value + 1 <= DescItems(rest[0].descs)[0].handle
  {
    SplitValid(v, pre, rest);
    DescItemsAre(rest[0].descs);
  }

  lemma AllRebuilt(v: Server, d: Attribute, c: Client, pre: seq<Char>)
    requires Descending(v, d, c, pre, []) && v.chars == pre
    ensures DiscoverDescs(c, true).stage == Finished(true)
    ensures Ending(v, d, DiscoverDescs(c, true), [], true) && SameRangeAs(v, DiscoverDescs(c, true).svc)
  {
    hide Filled, Tidy, Table, LongChars;
  }

  lemma BuiltActive(d: Attribute, svc: Service, chars: seq<Char>)
    requires Built(d, svc, chars)
    ensures Built(d, svc.(active := true), chars)
  {
  }

  // ---- how many replies may still come

  /** One answer for each descriptor and one more, for every characteristic. */
  function Later(chars: seq<Char>): int {
    if |chars| == 0 then 0 else |chars[0].descs| + 1 + Later(chars[1..])
  }

  lemma {:induction false} LaterIsNat(chars: seq<Char>)
    ensures Later(chars) >= 0
    decreases |chars|
  {
    if |chars| > 0 { LaterIsNat(chars[1..]); }
  }

  function Budget(v: Server, c: Client, w: Progress): int {
    match c.stage
    case FindingChrcs => |v.chars| - w.k + 1 + Later(v.chars)
    case FindingDescs => if w.current.Some? then |w.current.value.descs| - w.k + 1 + Later(w.rest) else 0
    case Finished(_) => 0
  }

  // ---- what the server lists

  lemma ChrcListing(v: Server, c: Client)
    requires ServerOk(v) && c.stage.FindingChrcs? && c.since == v.start && c.request.end == v.end
    ensures Listing(v, c) == ChrcItems(v.chars)
    ensures Listed(Characteristics, ChrcItems(v.chars), v.end)
  {
    hide IsUuid, ValidChar, CharsAscend, Listed;
    ChrcsListed(v.start, v.chars, v.end);
    WithinAll(ChrcItems(v.chars), v.start, v.end);
  }

  /** Between a value and the next declaration the server lists just the descriptors. */
  lemma DescListing(v: Server, pre: seq<Char>, ch: Char, rest: seq<Char>)
    requires ServerOk(v) && v.chars == pre + [ch] + rest
    ensures Within(InfoItems(v.chars), ch.value + 1, EndOf(rest, v.end)) == DescItems(ch.descs)
    ensures Listed(Descriptors, DescItems(ch.descs), EndOf(rest, v.end))
  {
    hide IsUuid, DescItems, InfoItems, Within, Listed, CharInfo, DescsAscend;
    var from, to := ch.value + 1, EndOf(rest, v.end);
    var a, m, b := InfoItems(pre), CharInfo(ch), InfoItems(rest);
    assert pre + [ch] + rest == pre + ([ch] + rest);
    assert ([ch] + rest)[0] == ch && ([ch] + rest)[1..] == rest;
    var mid := Last(v.start, pre);
    SplitFacts(v, v.start, pre, [ch] + rest);
    SplitValid(v, pre, [ch] + rest);
    InfoAppend(pre, [ch] + rest);
    OneInfo(ch, rest);
    WithinAppend(a, m + b, from, to);
    WithinAppend(m, b, from, to);
    InfoRange(v.start, pre);
    WithinNone(a, from, to);
    LastTail(mid, [ch] + rest);
    LastBehind(LastOf(ch), rest);
    InfoRange(LastOf(ch), rest);
    NoneBehind(rest, LastOf(ch), from, to);
    DescsBehind(ch.value, ch.descs);
    assert ValidChar(([ch] + rest)[0]);
    DescsListed(ch.value, ch.descs, to);
    MiddleListing(ch, to);
  }

  lemma OneInfo(ch: Char, rest: seq<Char>)
    ensures InfoItems([ch] + rest) == CharInfo(ch) + InfoItems(rest)
  {
    hide CharInfo;
    assert ([ch] + rest)[1..] == rest;
  }

  /** The attributes of the following characteristics come behind the range. */
  lemma NoneBehind(rest: seq<Char>, last: int, from: int, to: int)
    requires CharsAscend(last, rest) && (|rest| > 0 ==> to < rest[0].decl)
    ensures Within(InfoItems(rest), from, to) == []
  {
    hide DescsAscend, CharInfo;
    if |rest| > 0 {
      var again := rest;
      BehindDecl(last, rest);
      InfoRange(rest[0].decl - 1, rest);
      WithinNone(InfoItems(rest), from, to);
    }
  }

  lemma BehindDecl(last: int, rest: seq<Char>)
    requires CharsAscend(last, rest) && |rest| > 0
    ensures CharsAscend(rest[0].decl - 1, rest)
  {
  }

  lemma MiddleListing(ch: Char, to: int)
    requires ch.decl < ch.value
    requires forall i :: 0 <= i < |ch.descs| ==> ch.value < DescItems(ch.descs)[i].handle <= to
    ensures Within(CharInfo(ch), ch.value + 1, to) == DescItems(ch.descs)
  {
    var ds := DescItems(ch.descs);
    var pair := [InfoItem(ch.decl, CHARACTERISTIC), InfoItem(ch.value, ch.uuid)];
    WithinAppend(pair, ds, ch.value + 1, to);
    WithinNone(pair, ch.value + 1, to);
    WithinAll(ds, ch.value + 1, to);
  }

  // ---- one reply

  /** Characteristics left over from an earlier service come first, and the first one is out of
      place. */
  lemma StaleFails(c: Client, sent: bool)
    requires Tidy(c.svc) && |c.pending| > 0 && c.pending[0].value < c.svc.start
    ensures DiscoverDescs(c, sent).stage == Finished(false)
    ensures var r := DiscoverDescs(c, sent); r.svc.start == c.svc.start && r.svc.num == c.svc.num
  {
    hide Used, Tidy, AddCharacteristic, Filled;
    CharacteristicAdded(c.svc, c.pending[0].uuid, c.pending[0].properties);
    TidyUsed(c.svc);
  }

  lemma ChrcsDone(v: Server, d: Attribute, c: Client, stale: seq<Chrc>, r: Request) returns (w: Progress)
    requires ServerOk(v) && Ready(c) && SameRangeAs(v, c.svc) && AllBelow(stale, v.start) && c.stage.FindingChrcs?
    requires c.pending == stale && Built(d, c.svc, [])
    requires Got(r, ChrcItems(v.chars), |v.chars|) && r.phase.Done? && r.proc == Characteristics && r.end == v.end
    requires Stored(Characteristics, r.results)
    ensures var c' := OnChrcs(c.(request := r), true);
            Inv(v, d, c', stale, w) && Budget(v, c', w) <= Later(v.chars)
  {
    hide Tidy, Built, Filled, Elements, EncodeAll, ReadChrcs, Pendings, DiscoverDescs, AllFine, ValidChar, IsSize,
         Behind, Used, CharsAscend, VerdictOf, Last, Ready, Table;
    var items := ChrcItems(v.chars);
    assert items[..|v.chars|] == items;
    LaterIsNat(v.chars);
    w := Progress([], None, [], 0);
    if r.phase.success {
      ElementsLongEnough(Characteristics, r.results);
      LastBehind(v.start, v.chars);
      ReadChrcsIs(v.start, v.chars, v.end);
      var c1 := c.(request := r, pending := c.pending + ReadChrcs(Elements(r.results), r.end));
      ReadyTidy(c);
      DiscoverDescsReady(c1, true);
      assert c1.pending == stale + Pendings(v.chars, v.end);
      if |stale| > 0 {
        StaleFails(c1, true);
      } else {
        assert c1.pending == Pendings(v.chars, v.end) && [] + v.chars == v.chars && stale == [];
        FreshLast(d, c1.svc);
        w := Descend(v, d, c1, [], v.chars);
      }
    } else {
      assert v.chars == [];
      NothingToFind(v, d, c, stale, r);
    }
  }

  lemma ReadyTidy(c: Client)
    requires Ready(c)
    ensures Tidy(c.svc)
  {
    hide Tidy;
  }

  lemma FreshLast(d: Attribute, svc: Service)
    requires Built(d, svc, [])
    ensures LastFilled(svc) == svc.start == Last(svc.start, [])
  {
    hide Filled;
  }

  lemma NothingToFind(v: Server, d: Attribute, c: Client, stale: seq<Chrc>, r: Request)
    requires ServerOk(v) && Ready(c) && SameRangeAs(v, c.svc) && AllBelow(stale, v.start) && c.stage.FindingChrcs?
    requires c.pending == stale && Built(d, c.svc, []) && v.chars == []
    requires r.phase == Done(false, NOT_FOUND) && r.proc == Characteristics && Stored(Characteristics, r.results)
    ensures Inv(v, d, OnChrcs(c.(request := r), true), stale, Progress([], None, [], 0))
    ensures OnChrcs(c.(request := r), true).stage == Finished(true)
  {
    hide Tidy, Filled, IsSize, AllFine, ValidChar, Table;
    ActiveStaysTidy(c.svc);
    BuiltActive(d, c.svc, []);
  }

  lemma {:induction false} InRowLast(from: int, ds: seq<Desc>)
    requires InRow(from, ds)
    ensures LastDesc(from, ds) == from + |ds|
    decreases |ds|
  {
    if |ds| > 0 { InRowLast(from + 1, ds[1..]); }
  }

  lemma {:induction false} PendingsBelow(from: int, chars: seq<Char>, end: int)
    requires CharsAscend(from, chars) && Last(from, chars) <= end
    ensures AllBelow(Pendings(chars, end), end + 1)
    decreases |chars|
  {
    hide DescsAscend;
    if |chars| > 0 {
      LastBehind(from, chars);
      LastTail(from, chars);
      PendingsBelow(LastOf(chars[0]), chars[1..], end);
    }
  }

  /** The descriptors are in: the table is complete up to them, or they were not in a row. */
  lemma DescsIn(v: Server, d: Attribute, c: Client, r: Request, pre: seq<Char>, ch: Char,
                rest: seq<Char>) returns (w: Progress)
    requires ServerOk(v) && Ready(c) && SameRangeAs(v, c.svc) && c.stage.FindingDescs?
    requires v.chars == pre + [ch] + rest && Built(d, c.svc, pre + [Bare(ch)]) && LastFilled(c.svc) == ch.value
    requires c.pending == Pendings(rest, v.end) && |ch.descs| > 0
    requires VerdictOf(v.start, v.chars, v.end) == VerdictInside(ch, rest, v.end)
    requires r.phase.Done? && r.phase.success && |r.results| > 0 && Stored(Descriptors, r.results)
    requires Elements(r.results) == EncodeAll(Descriptors, DescItems(ch.descs))
    ensures var c' := OnDescs(c.(request := r), true);
            Inv(v, d, c', [], w) && Budget(v, c', w) <= Later(rest)
  {
    hide Tidy, Built, Filled, Elements, EncodeAll, AddDescs, Pendings, DiscoverDescs, AllFine, ValidChar, IsSize, Used,
         CharsAscend, VerdictOf, Last, Table, InRow, DescsAscend;
    var es := Elements(r.results);
    ElementsLongEnough(Descriptors, r.results);
    DescsFit(v, c.svc, pre, ch, rest);
    AddDescsIs(c.svc, ch.descs);
    LaterIsNat(rest);
    LastPush(v.start, pre, ch);
    assert pre + [ch] + rest == v.chars;
    var svc := AddDescs(c.svc, es).0;
    if InRow(ch.value, ch.descs) {
      BuiltDescs(d, c.svc, svc, pre, ch);
      InRowLast(ch.value, ch.descs);
      DescAttrsCount(LongDescs(ch.descs));
      w := Descend(v, d, c.(request := r, svc := svc), pre + [ch], rest);
    } else {
      w := Progress(pre, None, [], 0);
    }
  }

  lemma DescsFit(v: Server, svc: Service, pre: seq<Char>, ch: Char, rest: seq<Char>)
    requires ServerOk(v) && SameRangeAs(v, svc) && v.chars == pre + [ch] + rest && LastFilled(svc) == ch.value
    ensures DescsAscend(LastFilled(svc), ch.descs) && LastDesc(LastFilled(svc), ch.descs) <= End(svc)
    ensures forall i :: 0 <= i < |ch.descs| ==> IsUuid(ch.descs[i].uuid)
  {
    hide IsUuid, Filled;
    assert pre + [ch] + rest == pre + ([ch] + rest);
    assert ([ch] + rest)[0] == ch && ([ch] + rest)[1..] == rest;
    SplitValid(v, pre, [ch] + rest);
    LastTail(Last(v.start, pre), [ch] + rest);
    LastBehind(LastOf(ch), rest);
    assert ValidChar(([ch] + rest)[0]);
  }

  /** There are none: the service is done, and what is behind is left out. */
  lemma DescsMissing(v: Server, d: Attribute, c: Client, r: Request, pre: seq<Char>, ch: Char, rest: seq<Char>)
    requires ServerOk(v) && Ready(c) && SameRangeAs(v, c.svc) && c.stage.FindingDescs?
    requires v.chars == pre + [ch] + rest && Built(d, c.svc, pre + [Bare(ch)])
    requires c.pending == Pendings(rest, v.end) && |ch.descs| == 0
    requires VerdictOf(v.start, v.chars, v.end) == VerdictInside(ch, rest, v.end)
    requires r.phase == Done(false, NOT_FOUND) && Stored(Descriptors, r.results)
    ensures var c' := OnDescs(c.(request := r), true);
            Inv(v, d, c', [], Progress(pre, None, [], 0)) && c'.stage.Finished?
  {
    hide Tidy, Built, Filled, IsSize, AllFine, ValidChar, CharsAscend, VerdictOf, Table, Pendings;
    ActiveStaysTidy(c.svc);
    BuiltActive(d, c.svc, pre + [Bare(ch)]);
    assert Bare(ch) == ch;
    if |rest| == 0 {
      assert pre + [ch] + rest == pre + [ch];
    } else {
      ShortTable(d, c.svc, pre + [ch], rest);
      SplitValid(v, pre + [ch], rest);
      PendingsBelow(Last(v.start, pre + [ch]), rest, v.end);
    }
  }

  lemma GotEverything(r: Request, items: seq<Item>, k: nat)
    requires Got(r, items, k) && r.phase.Done?
    ensures k == |items| && items[..k] == items
    ensures r.phase.success ==> |items| > 0 && |r.results| > 0 && Elements(r.results) == EncodeAll(r.proc, items)
    ensures !r.phase.success ==> |items| == 0 && r.phase == Done(false, NOT_FOUND)
  {
    hide Elements, EncodeAll, AllFine;
    assert items[..|items|] == items;
  }

  lemma ChrcsReply(v: Server, d: Attribute, c: Client, stale: seq<Chrc>, w: Progress,
                   reply: Reply) returns (w': Progress)
    requires Inv(v, d, c, stale, w) && c.stage.FindingChrcs? && Answers(c.request, Listing(v, c), reply)
    ensures Inv(v, d, ClientStep(c, reply), stale, w') && Budget(v, ClientStep(c, reply), w') < Budget(v, c, w)
  {
    hide Tidy, Built, OnReply, OnChrcs, Listed, Listing, ChrcItems, Got, Stored, ServerOk, Behind, SameForm,
         PageReply, AllBelow;
    ChrcListing(v, c);
    var items := ChrcItems(v.chars);
    GotBound(c.request, items, w.k);
    var k := StepGot(c.request, items, w.k, reply);
    ClientStepReady(c, reply);
    OnReplyStores(c.request, reply);
    AnswersAreSent(c.request, items, reply);
    var r := OnReply(c.request, reply);
    GotBound(r, items, k);
    if r.phase.Waiting? {
      w' := Progress([], None, [], k);
    } else {
      GotEverything(r, items, k);
      w' := ChrcsDone(v, d, c, stale, r);
    }
  }

  lemma AnswersAreSent(r: Request, items: seq<Item>, reply: Reply)
    requires Answers(r, items, reply)
    ensures reply.sent
  {
    hide Behind, SameForm, EncodeAll, Join;
  }

  lemma DescsReply(v: Server, d: Attribute, c: Client, w: Progress, reply: Reply) returns (w': Progress)
    requires Inv(v, d, c, [], w) && c.stage.FindingDescs? && Answers(c.request, Listing(v, c), reply)
    ensures Inv(v, d, ClientStep(c, reply), [], w') && Budget(v, ClientStep(c, reply), w') < Budget(v, c, w)
  {
    hide Tidy, Built, OnReply, OnDescs, Answers, Listed, DescItems, InfoItems, Within, Got, Stored, ServerOk, Pendings,
         VerdictOf, VerdictInside, LastFilled, EndOf, Elements, EncodeAll;
    var ch := w.current.value;
    var items := DescItems(ch.descs);
    DescListing(v, w.pre, ch, w.rest);
    GotBound(c.request, items, w.k);
    var k := StepGot(c.request, items, w.k, reply);
    ClientStepReady(c, reply);
    OnReplyStores(c.request, reply);
    AnswersAreSent(c.request, items, reply);
    var r := OnReply(c.request, reply);
    GotBound(r, items, k);
    if r.phase.Waiting? {
      w' := w.(k := k);
    } else {
      GotEverything(r, items, k);
      LaterIsNat(w.rest);
      if r.phase.success {
        w' := DescsIn(v, d, c, r, w.pre, ch, w.rest);
      } else {
        DescsMissing(v, d, c, r, w.pre, ch, w.rest);
        w' := Progress(w.pre, None, [], 0);
      }
    }
  }

  lemma {:induction false} RunInv(v: Server, d: Attribute, c: Client, stale: seq<Chrc>, w: Progress,
                                  replies: seq<Reply>)
    returns (w': Progress)
    requires Inv(v, d, c, stale, w) && ClientSession(v, c, replies)
    ensures Inv(v, d, ClientRun(c, replies), stale, w')
    ensures 0 <= Budget(v, ClientRun(c, replies), w') <= Budget(v, c, w) - |replies|
    decreases |replies|
  {
    hide ClientStep, Answers, Listing, Budget;
    if |replies| == 0 {
      BudgetIsNat(v, d, c, stale, w);
      w' := w;
    } else {
      var w1: Progress;
      StageOf(v, d, c, stale, w);
      if c.stage.FindingChrcs? {
        w1 := ChrcsReply(v, d, c, stale, w, replies[0]);
      } else {
        w1 := DescsReply(v, d, c, w, replies[0]);
      }
      w' := RunInv(v, d, ClientStep(c, replies[0]), stale, w1, replies[1..]);
    }
  }

  lemma StageOf(v: Server, d: Attribute, c: Client, stale: seq<Chrc>, w: Progress)
    requires Inv(v, d, c, stale, w)
    ensures c.stage.FindingChrcs? || (c.stage.FindingDescs? && stale == []) || c.stage.Finished?
  {
  }

  lemma BudgetIsNat(v: Server, d: Attribute, c: Client, stale: seq<Chrc>, w: Progress)
    requires Inv(v, d, c, stale, w)
    ensures Budget(v, c, w) >= 0
    ensures !c.stage.Finished? ==> Budget(v, c, w) > 0
  {
    hide ServerOk, Ready, Built, Elements, EncodeAll, AllFine, Pendings, DescItems, ChrcItems, Ending, VerdictOf,
         VerdictInside;
    LaterIsNat(v.chars);
    LaterIsNat(w.rest);
  }

  // ---- every session

  function Beginning(v: Server, uuid: Uuid, stale: seq<Chrc>): (c: Client)
    requires ServerOk(v)
    ensures Ready(c)
  {
    NewServiceTidy(v.start, uuid, true, v.end - v.start + 1);
    NothingStored(Characteristics, v.start, v.end);
    Begin(NewService(v.start, uuid, true, v.end - v.start + 1), stale)
  }

  /** The declaration, then what the server has, with types in their long form. */
  predicate IsTableOf(v: Server, uuid: Uuid, svc: Service) { Built(Declaration(true, v.start, uuid), svc, v.chars) }

  /** For every layout, every cutting into pages and whatever an earlier service left pending:
      discovery of a service ends after at most one reply for every attribute that is listed
      and one for every request; the layout decides whether it reports success; and a success
      means that the client's table is the server's exactly if the verdict is Rebuilt. */
  lemma ServiceOutcome(v: Server, uuid: Uuid, stale: seq<Chrc>, replies: seq<Reply>)
    requires ServerOk(v) && AllBelow(stale, v.start) && ClientSession(v, Beginning(v, uuid, stale), replies)
    ensures var c := ClientRun(Beginning(v, uuid, stale), replies);
            && |replies| <= |v.chars| + 1 + Later(v.chars)
            && (|replies| == |v.chars| + 1 + Later(v.chars) ==> c.stage.Finished?)
            && (c.stage.Finished? ==> c.stage == Finished(!Outcome(v, stale).Failed?))
            && (c.stage == Finished(true) ==> (IsTableOf(v, uuid, c.svc) <==> Outcome(v, stale).Rebuilt?))
            && (c.stage == Finished(true) ==> if Outcome(v, stale).Rebuilt? then c.pending == stale
                else |c.pending| > 0)
  {
    hide Beginning, ClientRun, ClientSession, IsTableOf, Inv, Budget, ServerOk, Ready, Outcome, AllBelow;
    var d := Declaration(true, v.start, uuid);
    var w := Progress([], None, [], 0);
    StartInv(v, uuid, stale);
    var w' := RunInv(v, d, Beginning(v, uuid, stale), stale, w, replies);
    BudgetIsNat(v, d, ClientRun(Beginning(v, uuid, stale), replies), stale, w');
    InvMeans(v, uuid, ClientRun(Beginning(v, uuid, stale), replies), stale, w');
  }

  lemma InvMeans(v: Server, uuid: Uuid, c: Client, stale: seq<Chrc>, w: Progress)
    requires Inv(v, Declaration(true, v.start, uuid), c, stale, w)
    ensures c.stage.Finished? ==> c.stage == Finished(!Outcome(v, stale).Failed?)
    ensures c.stage == Finished(true) ==> (IsTableOf(v, uuid, c.svc) <==> Outcome(v, stale).Rebuilt?)
    ensures c.stage == Finished(true) ==> if Outcome(v, stale).Rebuilt? then c.pending == stale else |c.pending| > 0
    ensures c.stage == Finished(true) ==> AllBelow(c.pending, v.end + 1)
  {
    hide Filled, Table, LongChars, Tidy, ServerOk, Outcome;
    TableLong(v.chars);
    StartBeforeEnd(v, Declaration(true, v.start, uuid), c, stale, w);
  }

  lemma StartBeforeEnd(v: Server, d: Attribute, c: Client, stale: seq<Chrc>, w: Progress)
    requires Inv(v, d, c, stale, w)
    ensures v.start < v.end
  {
    hide Tidy, CharsAscend, ValidChar, LookingForChrcs, LookingForDescs, Ending;
  }

  lemma StartInv(v: Server, uuid: Uuid, stale: seq<Chrc>)
    requires ServerOk(v) && AllBelow(stale, v.start)
    ensures var w := Progress([], None, [], 0);
            Inv(v, Declaration(true, v.start, uuid), Beginning(v, uuid, stale), stale, w)
            && Budget(v, Beginning(v, uuid, stale), w) == |v.chars| + 1 + Later(v.chars)
  {
    hide ValidChar, ChrcItems, CharsAscend, Listed;
    var svc := NewService(v.start, uuid, true, v.end - v.start + 1);
    NewServiceTidy(v.start, uuid, true, v.end - v.start + 1);
    NothingStored(Characteristics, v.start, v.end);
    var items := ChrcItems(v.chars);
    ChrcsListed(v.start, v.chars, v.end);
    StartGot(Characteristics, v.start, v.end, items);
    assert Table(LongChars([])) == [];
  }

  /** In particular a service without gaps between its attributes is always rebuilt. */
  lemma ServiceIsRebuilt(v: Server, uuid: Uuid, replies: seq<Reply>)
    requires ServerOk(v) && Contiguous(v.start, v.chars) && ClientSession(v, Beginning(v, uuid, []), replies)
    ensures var c := ClientRun(Beginning(v, uuid, []), replies);
            && |replies| <= |v.chars| + 1 + Later(v.chars)
            && (|replies| == |v.chars| + 1 + Later(v.chars) ==> c.stage.Finished?)
            && (c.stage.Finished? ==> c.stage.ok && IsTableOf(v, uuid, c.svc) && c.pending == [])
  {
    hide ClientRun, ClientSession, IsTableOf, Contiguous, Beginning, ValidChar;
    RebuiltExactly(v.start, v.chars, v.end);
    ServiceOutcome(v, uuid, [], replies);
  }

  /** And if the layout has a gap, no session can end well with the server's table. */
  lemma GapIsNeverRebuilt(v: Server, uuid: Uuid, replies: seq<Reply>)
    requires ServerOk(v) && !Contiguous(v.start, v.chars) && ClientSession(v, Beginning(v, uuid, []), replies)
    ensures var c := ClientRun(Beginning(v, uuid, []), replies);
            c.stage == Finished(true) ==> !IsTableOf(v, uuid, c.svc) && |c.pending| > 0
  {
    hide ClientRun, ClientSession, IsTableOf, Contiguous, Beginning, ValidChar;
    RebuiltExactly(v.start, v.chars, v.end);
    ServiceOutcome(v, uuid, [], replies);
  }

  // ---- every verdict is reached

  lemma AnyAnswer(r: Request, items: seq<Item>) returns (reply: Reply)
    ensures Answers(r, items, reply)
  {
    hide EncodeAll, Join, Header;
    var rest := Behind(items, r.from);
    if |rest| == 0 {
      reply := Reply(ERROR_RSP, [0, 0, 0, NOT_FOUND], true);
    } else {
      assert SameForm(rest[..1]);
      reply := PageReply(r.proc, rest[..1]);
    }
  }

  /** A server has an answer to every request, and so a session that goes to the end. */
  lemma {:induction false} SessionFrom(v: Server, d: Attribute, c: Client, stale: seq<Chrc>, w: Progress)
    returns (replies: seq<Reply>)
    requires Inv(v, d, c, stale, w)
    ensures ClientSession(v, c, replies) && ClientRun(c, replies).stage.Finished?
    decreases Budget(v, c, w)
  {
    hide ClientStep, Answers, Listing, Budget;
    BudgetIsNat(v, d, c, stale, w);
    if c.stage.Finished? {
      replies := [];
    } else {
      StageOf(v, d, c, stale, w);
      var reply := AnyAnswer(c.request, Listing(v, c));
      var w1: Progress;
      if c.stage.FindingChrcs? {
        w1 := ChrcsReply(v, d, c, stale, w, reply);
      } else {
        w1 := DescsReply(v, d, c, w, reply);
      }
      BudgetIsNat(v, d, ClientStep(c, reply), stale, w1);
      var rest := SessionFrom(v, d, ClientStep(c, reply), stale, w1);
      replies := [reply] + rest;
      assert replies[1..] == rest;
    }
  }

  lemma SessionExists(v: Server, uuid: Uuid, stale: seq<Chrc>) returns (replies: seq<Reply>)
    requires ServerOk(v) && AllBelow(stale, v.start)
    ensures ClientSession(v, Beginning(v, uuid, stale), replies)
    ensures ClientRun(Beginning(v, uuid, stale), replies).stage.Finished?
  {
    hide Inv, ClientSession, ClientRun, Beginning, ServerOk;
    StartInv(v, uuid, stale);
    replies := SessionFrom(v, Declaration(true, v.start, uuid), Beginning(v, uuid, stale), stale,
                           Progress([], None, [], 0));
  }

  /** One unused handle between a value and the next declaration: there is a session that
      reports success without the second characteristic. */
  lemma OneGapCutsTheTable(a: int, b: int, uuid: Uuid) returns (replies: seq<Reply>)
    requires IsWord(a) && IsWord(b)
    ensures var v := Server(1, 7, [Char(2, 3, 0, Uuid16(a), []), Char(5, 6, 0, Uuid16(b), [])]);
            && ServerOk(v) && ClientSession(v, Beginning(v, uuid, []), replies)
            && var c := ClientRun(Beginning(v, uuid, []), replies);
               c.stage == Finished(true) && |c.pending| > 0 && !IsTableOf(v, uuid, c.svc)
  {
    hide ClientSession, ClientRun, Beginning, IsTableOf;
    var v := Server(1, 7, [Char(2, 3, 0, Uuid16(a), []), Char(5, 6, 0, Uuid16(b), [])]);
    assert v.chars[1..] == [v.chars[1]] && v.chars[1..][1..] == [];
    assert CharsAscend(6, []) && CharsAscend(3, v.chars[1..]) && CharsAscend(1, v.chars);
    assert ServerOk(v) && AllBelow([], 1);
    assert VerdictOf(1, v.chars, 7) == VerdictInside(v.chars[0], v.chars[1..], 7) == Cut;
    replies := SessionExists(v, uuid, []);
    ServiceOutcome(v, uuid, [], replies);
  }

  // ---- the client's table and the server's

  /** Handle, type and, for a declaration, properties, value handle and type of the value. */
  ghost predicate Corresponds(a: Attribute, b: Attribute) {
    && a.handle == b.handle && Same(a.uuid, b.uuid)
    && (b.uuid == CHARACTERISTIC && |b.value| > 0 ==>
          && |a.value| >= 5 && |b.value| >= 5
          && a.value[0] == b.value[0] && GetLe16(a.value[1..]) == GetLe16(b.value[1..])
          && FromLe(a.value[3..]).Some? && FromLe(b.value[3..]).Some?
          && Same(FromLe(a.value[3..]).value, FromLe(b.value[3..]).value))
  }

  lemma LongIsSame(u: Uuid)
    requires IsUuid(u)
    ensures IsUuid(Primary.Long(u)) && Same(Primary.Long(u), u)
  {
    ConvertedIsSame(u);
  }

  lemma DeclarationsCorrespond(ch: Char)
    requires ValidChar(ch)
    ensures |CharAttrs(ch)| == |CharAttrs(LongChar(ch))| == 2
    ensures Corresponds(CharAttrs(LongChar(ch))[0], CharAttrs(ch)[0])
    ensures Corresponds(CharAttrs(LongChar(ch))[1], CharAttrs(ch)[1])
  {
    hide IsUuid, FromLe, CharacteristicValue, Full;
    LongIsSame(ch.uuid);
    DeclarationReads(ch.properties, ch.value, ch.uuid);
    DeclarationReads(ch.properties, ch.value, Primary.Long(ch.uuid));
  }

  lemma {:induction false} DescsCorrespond(ds: seq<Desc>)
    requires forall i :: 0 <= i < |ds| ==> IsUuid(ds[i].uuid)
    ensures |DescAttrs(LongDescs(ds))| == |DescAttrs(ds)|
    ensures forall i :: 0 <= i < |DescAttrs(ds)| ==> Corresponds(DescAttrs(LongDescs(ds))[i], DescAttrs(ds)[i])
    decreases |ds|
  {
    hide IsUuid, Full;
    if |ds| > 0 {
      LongIsSame(ds[0].uuid);
      assert LongDescs(ds)[1..] == LongDescs(ds[1..]);
      DescsCorrespond(ds[1..]);
    }
  }

  lemma LongCharDescs(ch: Char)
    ensures LongChar(ch).descs == LongDescs(ch.descs)
  {
  }

  lemma CorrespondAppend(a: seq<Attribute>, b: seq<Attribute>, c: seq<Attribute>, d: seq<Attribute>)
    requires |a| == |b| && |c| == |d|
    requires forall i :: 0 <= i < |b| ==> Corresponds(a[i], b[i])
    requires forall i :: 0 <= i < |d| ==> Corresponds(c[i], d[i])
    ensures forall i :: 0 <= i < |b + d| ==> Corresponds((a + c)[i], (b + d)[i])
  {
    hide Corresponds;
  }

  /** The table that discovery builds corresponds to the server's, attribute by attribute. */
  lemma {:induction false} TablesCorrespond(chars: seq<Char>)
    requires forall i :: 0 <= i < |chars| ==> ValidChar(chars[i])
    ensures |Table(LongChars(chars))| == |Table(chars)|
    ensures forall i :: 0 <= i < |Table(chars)| ==> Corresponds(Table(LongChars(chars))[i], Table(chars)[i])
    decreases |chars|
  {
    hide Corresponds, DescAttrs, CharAttrs, LongChar;
    if |chars| > 0 {
      var ch, rest := chars[0], chars[1..];
      assert ValidChar(ch);
      LongCharDescs(ch);
      assert LongChars(chars)[0] == LongChar(ch) && LongChars(chars)[1..] == LongChars(rest);
      DeclarationsCorrespond(ch);
      DescsCorrespond(ch.descs);
      TablesCorrespond(rest);
      CorrespondAppend(CharAttrs(LongChar(ch)), CharAttrs(ch), DescAttrs(LongDescs(ch.descs)), DescAttrs(ch.descs));
      CorrespondAppend(CharAttrs(LongChar(ch)) + DescAttrs(LongDescs(ch.descs)), CharAttrs(ch) + DescAttrs(ch.descs),
                       Table(LongChars(rest)), Table(rest));
    }
  }

  // ---- where the client gives up

  /** Pending characteristic j has its value where the table will have grown to by then. */
  predicate InPlace(c: Client, j: int)
    requires 0 <= j < |c.pending|
  {
    var n := Used(c.svc.slots) + 2 * j;
    c.pending[j].value == c.svc.start + n + 1 && n + 2 <= c.svc.num
  }

  /** There may be descriptors behind its value. */
  predicate Searches(c: Client, j: int)
    requires 0 <= j < |c.pending|
  {
    (c.pending[j].value + 1) % 0x1_0000 <= c.pending[j].end
  }

  /** All before k go in without a search. */
  predicate Reached(c: Client, k: int) {
    0 <= k < |c.pending| && forall j :: 0 <= j < k ==> InPlace(c, j) && !Searches(c, j)
  }

  /** discover_descs fails exactly if it reaches a characteristic that is out of place or has
      no room, or a search that cannot be sent. */
  lemma {:induction false} OutOfPlaceFails(c: Client, sent: bool)
    requires Tidy(c.svc)
    ensures DiscoverDescs(c, sent).stage == Finished(false)
            <==> exists k :: Reached(c, k) && (!InPlace(c, k) || (Searches(c, k) && !sent))
    decreases |c.pending|
  {
    hide Used, Tidy, AddCharacteristic, Filled, FreeIndex;
    if |c.pending| > 0 {
      var x := c.pending[0];
      var svc := AddCharacteristic(c.svc, x.uuid, x.properties);
      CharacteristicAdded(c.svc, x.uuid, x.properties);
      TidyUsed(c.svc);
      FirstReached(c);
      if InPlace(c, 0) && !Searches(c, 0) {
        var c1 := c.(svc := svc, pending := c.pending[1..]);
        TidyUsed(svc);
        OutOfPlaceFails(c1, sent);
        NextReached(c, c1, sent);
      }
    }
  }

  lemma FirstReached(c: Client)
    requires |c.pending| > 0
    ensures Reached(c, 0)
    ensures !InPlace(c, 0) || Searches(c, 0) ==> forall k :: Reached(c, k) ==> k == 0
  {
    hide Used;
  }

  lemma NextReached(c: Client, c1: Client, sent: bool)
    requires |c.pending| > 0 && c1.pending == c.pending[1..] && InPlace(c, 0) && !Searches(c, 0)
    requires c1.svc.start == c.svc.start && c1.svc.num == c.svc.num && Used(c1.svc.slots) == Used(c.svc.slots) + 2
    ensures (exists k :: Reached(c, k) && (!InPlace(c, k) || (Searches(c, k) && !sent)))
            <==> (exists k :: Reached(c1, k) && (!InPlace(c1, k) || (Searches(c1, k) && !sent)))
  {
    hide Used;
    assert forall j :: 0 <= j < |c1.pending| ==>
             InPlace(c1, j) == InPlace(c, j + 1) && Searches(c1, j) == Searches(c, j + 1);
    forall k | Reached(c1, k)
      ensures Reached(c, k + 1)
    {
      forall j | 0 <= j < k + 1
        ensures InPlace(c, j) && !Searches(c, j)
      {
        if j > 0 { assert InPlace(c1, j - 1) && !Searches(c1, j - 1); }
      }
    }
    forall k | Reached(c, k) && k > 0
      ensures Reached(c1, k - 1) && InPlace(c1, k - 1) == InPlace(c, k) && Searches(c1, k - 1) == Searches(c, k)
    {
      forall j | 0 <= j < k - 1
        ensures InPlace(c1, j) && !Searches(c1, j)
      {
        assert InPlace(c, j + 1) && !Searches(c, j + 1);
      }
    }
  }

  /** discover_descs ends well only with nothing pending. */
  lemma {:induction false} EndsEmpty(c: Client, sent: bool)
    requires Tidy(c.svc)
    ensures var r := DiscoverDescs(c, sent); r.stage == Finished(true) ==> |r.pending| == 0
    decreases |c.pending|
  {
    hide Used, Tidy, AddCharacteristic, Filled, FreeIndex;
    if |c.pending| > 0 {
      var x := c.pending[0];
      CharacteristicAdded(c.svc, x.uuid, x.properties);
      EndsEmpty(c.(svc := AddCharacteristic(c.svc, x.uuid, x.properties), pending := c.pending[1..]), sent);
    }
  }

  /** The first answer to a search says that there are no descriptors. */
  predicate Skips(c: Client, reply: Reply) {
    c.stage.FindingDescs? && |c.pending| > 0 && |c.request.results| == 0 && IsNotFound(reply)
  }

  /** Discovery of a service reports success with characteristics never added exactly if this
      answer comes while some are pending. */
  lemma NotFoundSkipsPending(c: Client, reply: Reply)
    requires Ready(c) && c.stage.FindingDescs?
    ensures var r := ClientStep(c, reply);
            && (r.stage == Finished(true) && |r.pending| > 0 <==> Skips(c, reply))
            && (Skips(c, reply) ==> r.pending == c.pending && r.svc.slots == c.svc.slots)
  {
    hide Tidy, Stored, Store, AddDescs, DiscoverDescs, LongEnough, SizeFrom;
    OnReplyStores(c.request, reply);
    SameRange(c.request, reply);
    var r := OnReply(c.request, reply);
    ErrorMeans(c.request, reply);
    if r.phase.Done? && r.phase.success && |r.results| > 0 {
      StoredElements(r);
      AddDescsTidy(c.svc, Elements(r.results));
      EndsEmpty(c.(request := r, svc := AddDescs(c.svc, Elements(r.results)).0), reply.sent);
    }
  }

  lemma StoredElements(r: Request)
    requires Stored(r.proc, r.results)
    ensures AllFine(r.results) && LongEnough(r.proc, Elements(r.results))
  {
    hide IsSize, AllFine, LongEnough;
    ElementsLongEnough(r.proc, r.results);
  }

  lemma ErrorMeans(r: Request, reply: Reply)
    requires r.phase.Waiting?
    ensures OnReply(r, reply).phase == Done(false, NOT_FOUND) <==> |r.results| == 0 && IsNotFound(reply)
  {
    hide LastHandle, PatchEnd, SizeFrom;
  }

  predicate EverSkips(c: Client, replies: seq<Reply>)
    requires Ready(c)
    decreases |replies|
  {
    if |replies| == 0 then false
    else
      ClientStepReady(c, replies[0]);
      Skips(c, replies[0]) || EverSkips(ClientStep(c, replies[0]), replies[1..])
  }

  /** Nothing is left over while characteristics are still being listed. */
  predicate Clean(c: Client) { c.stage.FindingChrcs? ==> |c.pending| == 0 }

  lemma StepSkips(c: Client, reply: Reply)
    requires Ready(c) && Clean(c) && !c.stage.Finished?
    ensures var r := ClientStep(c, reply);
            Clean(r) && (r.stage == Finished(true) && |r.pending| > 0 <==> Skips(c, reply))
  {
    hide Tidy, Stored, OnReply, DiscoverDescs, ReadChrcs, LongEnough, AddDescs;
    if c.stage.FindingDescs? {
      NotFoundSkipsPending(c, reply);
      StagesAfterDescs(c, reply);
    } else {
      OnReplyStores(c.request, reply);
      SameRange(c.request, reply);
      var r := OnReply(c.request, reply);
      if r.phase.Done? && r.phase.success && |r.results| > 0 {
        StoredElements(r);
        var c1 := c.(request := r, pending := c.pending + ReadChrcs(Elements(r.results), r.end));
        EndsEmpty(c1, reply.sent);
        StagesAfter(c1, reply.sent);
      }
    }
  }

  lemma {:induction false} StagesAfter(c: Client, sent: bool)
    requires Tidy(c.svc)
    ensures !DiscoverDescs(c, sent).stage.FindingChrcs?
    decreases |c.pending|
  {
    hide Used, Tidy, AddCharacteristic, Filled, FreeIndex;
    if |c.pending| > 0 {
      var x := c.pending[0];
      CharacteristicAdded(c.svc, x.uuid, x.properties);
      StagesAfter(c.(svc := AddCharacteristic(c.svc, x.uuid, x.properties), pending := c.pending[1..]), sent);
    }
  }

  lemma StagesAfterDescs(c: Client, reply: Reply)
    requires Ready(c) && c.stage.FindingDescs?
    ensures !ClientStep(c, reply).stage.FindingChrcs?
  {
    hide Tidy, Stored, OnReply, DiscoverDescs, LongEnough, AddDescs;
    OnReplyStores(c.request, reply);
    SameRange(c.request, reply);
    var r := OnReply(c.request, reply);
    if r.phase.Done? && r.phase.success && |r.results| > 0 {
      StoredElements(r);
      AddDescsTidy(c.svc, Elements(r.results));
      StagesAfter(c.(request := r, svc := AddDescs(c.svc, Elements(r.results)).0), reply.sent);
    }
  }

  /** Over whole sessions, with any server: a success leaves characteristics pending exactly if
      such an answer came. */
  lemma {:induction false} RunSkips(c: Client, replies: seq<Reply>)
    requires Ready(c) && Clean(c)
    requires c.stage == Finished(true) ==> |c.pending| == 0
    requires |replies| > 0 ==> !c.stage.Finished?
    requires NoneAfterTheEnd(c, replies)
    ensures var r := ClientRun(c, replies); r.stage == Finished(true) && |r.pending| > 0 <==> EverSkips(c, replies)
    decreases |replies|
  {
    hide Ready, Clean, ClientStep, Skips;
    if |replies| > 0 {
      ClientStepReady(c, replies[0]);
      StepSkips(c, replies[0]);
      var c1 := ClientStep(c, replies[0]);
      if |replies| == 1 {
        assert replies[1..] == [];
      } else {
        SkipEnds(c, replies[0]);
        RunSkips(c1, replies[1..]);
      }
    }
  }

  lemma SkipEnds(c: Client, reply: Reply)
    requires Ready(c)
    ensures Skips(c, reply) ==> ClientStep(c, reply).stage.Finished?
  {
    hide Tidy, Stored;
    if c.stage.FindingDescs? {
      NotFoundSkipsPending(c, reply);
    }
  }

  /** Replies only come while discovery is going on. */
  predicate NoneAfterTheEnd(c: Client, replies: seq<Reply>)
    requires Ready(c)
    decreases |replies|
  {
    if |replies| == 0 then true
    else
      ClientStepReady(c, replies[0]);
      !c.stage.Finished? && NoneAfterTheEnd(ClientStep(c, replies[0]), replies[1..])
  }

  lemma {:induction false} SessionsStop(v: Server, c: Client, replies: seq<Reply>)
    requires Ready(c) && ClientSession(v, c, replies)
    ensures NoneAfterTheEnd(c, replies)
    decreases |replies|
  {
    hide Ready, ClientStep, Answers;
    if |replies| > 0 {
      ClientStepReady(c, replies[0]);
      SessionsStop(v, ClientStep(c, replies[0]), replies[1..]);
    }
  }

  /** A reported success means that the client has the server's table if and only if no search
      was answered by Not Found while characteristics were pending. */
  lemma SuccessMeansTheTable(v: Server, uuid: Uuid, replies: seq<Reply>)
    requires ServerOk(v) && ClientSession(v, Beginning(v, uuid, []), replies)
    requires ClientRun(Beginning(v, uuid, []), replies).stage == Finished(true)
    ensures IsTableOf(v, uuid, ClientRun(Beginning(v, uuid, []), replies).svc)
            <==> !EverSkips(Beginning(v, uuid, []), replies)
  {
    hide ClientRun, ClientSession, IsTableOf, ServerOk, EverSkips, Ready, NoneAfterTheEnd, Outcome;
    ServiceOutcome(v, uuid, [], replies);
    SessionsStop(v, Beginning(v, uuid, []), replies);
    RunSkips(Beginning(v, uuid, []), replies);
  }

  /** A value at the last handle has no room for descriptors, but the 16-bit successor of its
      handle is 0: they are looked for from there. With any other value in place the search
      starts behind it or is left out. */
  lemma ValueAtTheTopWraps(c: Client)
    requires Tidy(c.svc) && |c.pending| == 1 && 0 <= c.pending[0].end <= MAX_HANDLE
             && 0 <= c.pending[0].value <= MAX_HANDLE
    requires c.pending[0].value == c.svc.start + Used(c.svc.slots) + 1 && Used(c.svc.slots) + 2 <= c.svc.num
    ensures var x := c.pending[0];
            var r := DiscoverDescs(c, true);
            && (x.value == MAX_HANDLE <==> r.stage.FindingDescs? && r.request.from <= x.value)
            && (x.value < MAX_HANDLE ==> if x.value < x.end then r.request.from == x.value + 1
                else r.stage == Finished(true))
  {
    hide Used, Tidy, AddCharacteristic, Filled;
    TidyUsed(c.svc);
    CharacteristicAdded(c.svc, c.pending[0].uuid, c.pending[0].properties);
  }

  /** An unused handle in front of the first declaration: every session that ends fails, and
      there is one. */
  lemma GapInFrontFails(a: int, uuid: Uuid) returns (replies: seq<Reply>)
    requires IsWord(a)
    ensures var v := Server(1, 4, [Char(3, 4, 0, Uuid16(a), [])]);
            && ServerOk(v) && ClientSession(v, Beginning(v, uuid, []), replies)
            && ClientRun(Beginning(v, uuid, []), replies).stage == Finished(false)
  {
    hide ClientSession, ClientRun, Beginning, IsTableOf;
    var v := Server(1, 4, [Char(3, 4, 0, Uuid16(a), [])]);
    assert v.chars[1..] == [];
    assert CharsAscend(4, []) && CharsAscend(1, v.chars);
    assert ServerOk(v) && AllBelow([], 1);
    replies := SessionExists(v, uuid, []);
    ServiceOutcome(v, uuid, [], replies);
  }

  /** A service at the end of the handles, whose characteristic has its value at 0xffff. */
  lemma SearchesFromZero(a: Uuid, uuid: Uuid)
    ensures var svc := NewService(0xFFFD, uuid, true, 3);
            var c := Begin(svc, [Chrc(0xFFFE, 0xFFFF, 0xFFFF, 0, a)]);
            Tidy(svc) && DiscoverDescs(c, true).stage == FindingDescs && DiscoverDescs(c, true).request.from == 0
  {
    hide Tidy, AddCharacteristic, NewService;
    NewServiceTidy(0xFFFD, uuid, true, 3);
    var svc := NewService(0xFFFD, uuid, true, 3);
    TidyUsed(svc);
    NewServiceRange(0xFFFD, uuid, true, 3);
    CharacteristicAdded(svc, a, 0);
  }
}
