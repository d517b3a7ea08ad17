/** The range scans of bluez/gatt-db.c leave loops early; on a well-kept database they still
    return exactly a filter of the flat attribute table. */
module GattScans {
  import opened Wrappers
  import opened Queue
  import opened Uuids
  import opened GattDb
  import opened GattRuns

  function OfType(uuid: Uuid): Attribute -> bool { (a: Attribute) => Same(uuid, a.uuid) }

  function Any(): Attribute -> bool { (a: Attribute) => true }

  /** The loop over one service: it stops at the first handle past the range. */
  function ScanSlots(slots: seq<Option<Attribute>>, start: int, end: int, wanted: Attribute -> bool): seq<Attribute> {
    if |slots| == 0 then []
    else if slots[0].None? || slots[0].value.handle < start then ScanSlots(slots[1..], start, end, wanted)
    else if slots[0].value.handle > end then []
    else if wanted(slots[0].value) then [slots[0].value] + ScanSlots(slots[1..], start, end, wanted)
    else ScanSlots(slots[1..], start, end, wanted)
  }

  /** read_by_type on every service. */
  function ReadByType(ss: seq<Service>, start: int, end: int, uuid: Uuid): seq<Attribute> {
    if |ss| == 0 then []
    else if !ss[0].active then ReadByType(ss[1..], start, end, uuid)
    else ScanSlots(ss[0].slots, start, end, OfType(uuid)) + ReadByType(ss[1..], start, end, uuid)
  }

  /** find_information on every service; it skips a service that ends before the range. */
  function FindInformation(ss: seq<Service>, start: int, end: int): seq<Attribute> {
    if |ss| == 0 then []
    else if !ss[0].active || End(ss[0]) < start then FindInformation(ss[1..], start, end)
    else ScanSlots(ss[0].slots, start, end, Any()) + FindInformation(ss[1..], start, end)
  }

  /** The flat table of the active services. */
  function ActiveFlat(ss: seq<Service>): seq<Attribute> {
    if |ss| == 0 then []
    else if ss[0].active then Filled(ss[0].slots) + ActiveFlat(ss[1..])
    else ActiveFlat(ss[1..])
  }

  function Selection(start: int, end: int, wanted: Attribute -> bool): Attribute -> bool {
    (a: Attribute) => start <= a.handle <= end && wanted(a)
  }

  predicate SlotsAscend(slots: seq<Option<Attribute>>) {
    forall i, j :: 0 <= i < j < |slots| && slots[i].Some? && slots[j].Some?
           ==> slots[i].value.handle < slots[j].value.handle
  }

  lemma FilterCons(a: Attribute, rest: seq<Attribute>, p: Attribute -> bool)
    ensures Filter([a] + rest, p) == if p(a) then [a] + Filter(rest, p) else Filter(rest, p)
  {
    assert ([a] + rest)[1..] == rest;
  }

  /** Nothing past the range is selected. */
  lemma {:induction false} FilterPast(slots: seq<Option<Attribute>>, start: int, end: int, wanted: Attribute -> bool)
    requires forall i :: 0 <= i < |slots| && slots[i].Some? ==> slots[i].value.handle > end
    ensures Filter(Filled(slots), Selection(start, end, wanted)) == []
    decreases |slots|
  {
    if |slots| > 0 {
      FilterPast(slots[1..], start, end, wanted);
      if slots[0].Some? {
        FilterCons(slots[0].value, Filled(slots[1..]), Selection(start, end, wanted));
      }
    }
  }

  lemma {:induction false} ScanIsFilter(slots: seq<Option<Attribute>>, start: int, end: int, wanted: Attribute -> bool)
    requires SlotsAscend(slots)
    ensures ScanSlots(slots, start, end, wanted) == Filter(Filled(slots), Selection(start, end, wanted))
    decreases |slots|
  {
    hide Filter;
    if |slots| == 0 {
      FilterPast(slots, start, end, wanted);
    } else {
      ScanIsFilter(slots[1..], start, end, wanted);
      if slots[0].Some? {
        FilterCons(slots[0].value, Filled(slots[1..]), Selection(start, end, wanted));
        if slots[0].value.handle > end {
          FilterPast(slots, start, end, wanted);
        }
      }
    }
  }

  lemma TidyAscends(s: Service)
    requires Tidy(s)
    ensures SlotsAscend(s.slots)
  {
  }

  lemma FilterEmpty(p: Attribute -> bool)
    ensures Filter([], p) == []
  {
  }

  /** Reading by type is a filter of the active attributes by handle and type, in handle order. */
  lemma {:induction false} ReadByTypeIsFilter(ss: seq<Service>, start: int, end: int, uuid: Uuid)
    requires AllTidy(ss)
    ensures ReadByType(ss, start, end, uuid) == Filter(ActiveFlat(ss), Selection(start, end, OfType(uuid)))
    decreases |ss|
  {
    hide Same, Filled, Tidy, ScanSlots, Filter, OfType, Selection;
    var p := Selection(start, end, OfType(uuid));
    if |ss| == 0 {
      FilterEmpty(p);
    } else {
      ReadByTypeIsFilter(ss[1..], start, end, uuid);
      TidyAscends(ss[0]);
      ScanIsFilter(ss[0].slots, start, end, OfType(uuid));
      FilterAppend(Filled(ss[0].slots), ActiveFlat(ss[1..]), p);
    }
  }

  /** Finding information is a filter of the active attributes by handle. */
  lemma {:induction false} FindInformationIsFilter(ss: seq<Service>, start: int, end: int)
    requires AllTidy(ss)
    ensures FindInformation(ss, start, end) == Filter(ActiveFlat(ss), Selection(start, end, Any()))
    decreases |ss|
  {
    hide Filled, Tidy, ScanSlots, Filter, Any, Selection;
    var p := Selection(start, end, Any());
    if |ss| == 0 {
      FilterEmpty(p);
    } else {
      FindInformationIsFilter(ss[1..], start, end);
      TidyAscends(ss[0]);
      ScanIsFilter(ss[0].slots, start, end, Any());
      SkippedHasNothing(ss[0], start, end, Any());
      FilterAppend(Filled(ss[0].slots), ActiveFlat(ss[1..]), p);
    }
  }

  /** A service that ends before the range holds nothing in it. */
  lemma SkippedHasNothing(s: Service, start: int, end: int, wanted: Attribute -> bool)
    requires Tidy(s)
    ensures End(s) < start ==> Filter(Filled(s.slots), Selection(start, end, wanted)) == []
  {
    hide Filter, Filled, Tidy;
    if End(s) < start {
      forall a | a in Filled(s.slots)
        ensures !Selection(start, end, wanted)(a)
      {
        HandlesInService(s, a);
      }
      FilterNone(Filled(s.slots), Selection(start, end, wanted));
    }
  }

  /** What the scans return comes in ascending handle order. */
  lemma {:induction false} FilterAscends(t: seq<Attribute>, p: Attribute -> bool)
    requires Ascending(t)
    ensures Ascending(Filter(t, p)) && forall a :: a in Filter(t, p) ==> a in t && p(a)
    decreases |t|
  {
    if |t| > 0 {
      var rest := t[1..];
      FilterAscends(rest, p);
      var f := Filter(rest, p);
      forall a | a in f
        ensures t[0].handle < a.handle
      {
        var i :| 0 <= i < |rest| && rest[i] == a;
      }
      if p(t[0]) { AscendingCons(t[0], f); }
    }
  }

  lemma AscendingCons(a: Attribute, f: seq<Attribute>)
    requires Ascending(f) && forall b :: b in f ==> a.handle < b.handle
    ensures Ascending([a] + f)
  {
  }

  /** The active table is ascending, because the services are. */
  lemma {:induction false} ActiveFlatAscends(ss: seq<Service>)
    requires Good(ss)
    ensures Ascending(ActiveFlat(ss))
    ensures forall i :: 0 <= i < |ActiveFlat(ss)| ==> ss != [] && ss[0].start <= ActiveFlat(ss)[i].handle
    decreases |ss|
  {
    hide Filled, Tidy, Ascending;
    if |ss| > 0 {
      var rest := ss[1..];
      ActiveFlatAscends(rest);
      ServiceAscends(ss[0]);
      assert |rest| > 0 ==> rest[0] == ss[1];
      AscendingAppend(Filled(ss[0].slots), ActiveFlat(rest), End(ss[0]));
    } else {
      NothingAscends();
    }
  }

  /** The two scans answer in ascending handle order. */
  lemma ScansAscend(ss: seq<Service>, start: int, end: int, uuid: Uuid)
    requires Good(ss)
    ensures Ascending(ReadByType(ss, start, end, uuid)) && Ascending(FindInformation(ss, start, end))
  {
    ActiveFlatAscends(ss);
    ReadByTypeIsFilter(ss, start, end, uuid);
    FindInformationIsFilter(ss, start, end);
    FilterAscends(ActiveFlat(ss), Selection(start, end, OfType(uuid)));
    FilterAscends(ActiveFlat(ss), Selection(start, end, Any()));
  }

  // ---- groups

  /** The declaration of a service. */
  function Head(s: Service): Attribute
    requires Tidy(s)
  {
    s.slots[0].value
  }

  predicate GroupWanted(s: Service, start: int, end: int, kind: Uuid)
    requires Tidy(s)
  {
    s.active && Same(kind, Head(s).uuid) && start <= Head(s).handle <= end
  }

  /** gatt_db_read_by_group_type: size is the value length of the first group, or 0. */
  function ReadByGroup(ss: seq<Service>, start: int, end: int, kind: Uuid, size: int): seq<Attribute>
    requires AllTidy(ss)
  {
    if |ss| == 0 then []
    else
      var rest := ss[1..];
      assert forall i :: 0 <= i < |rest| ==> rest[i] == ss[i + 1];
      if !GroupWanted(ss[0], start, end, kind) then ReadByGroup(rest, start, end, kind, size)
      else
        var length := |Head(ss[0]).value|;
        if size != 0 && size != length then []
        else [Head(ss[0])] + ReadByGroup(rest, start, end, kind, length)
  }

  function Groups(ss: seq<Service>, start: int, end: int, kind: Uuid): seq<Attribute>
    requires AllTidy(ss)
  {
    if |ss| == 0 then []
    else
      var rest := ss[1..];
      assert forall i :: 0 <= i < |rest| ==> rest[i] == ss[i + 1];
      if GroupWanted(ss[0], start, end, kind) then [Head(ss[0])] + Groups(rest, start, end, kind)
      else Groups(rest, start, end, kind)
  }

  /** The longest prefix of which every value has this length. */
  predicate LongestPrefix(r: seq<Attribute>, all: seq<Attribute>, size: int) {
    && |r| <= |all| && r == all[..|r|]
    && (forall i :: 0 <= i < |r| ==> |r[i].value| == size)
    && (|r| < |all| ==> |all[|r|].value| != size)
  }

  predicate Declared(ss: seq<Service>)
    requires AllTidy(ss)
  {
    forall i :: 0 <= i < |ss| ==> |Head(ss[i]).value| > 0
  }

  lemma LongestCons(a: Attribute, r: seq<Attribute>, all: seq<Attribute>, size: int)
    requires LongestPrefix(r, all, size) && |a.value| == size
    ensures LongestPrefix([a] + r, [a] + all, size)
  {
    var r', all' := [a] + r, [a] + all;
    assert all'[..|r'|] == [a] + all[..|r|];
  }

  function SizeOr(size: int, all: seq<Attribute>): int {
    if size != 0 then size else if |all| > 0 then |all[0].value| else 0
  }

  /** Reading by group type returns the longest prefix with one UUID size of all the groups in
      the range. */
  lemma {:induction false} ReadByGroupIsLongestPrefix(ss: seq<Service>, start: int, end: int, kind: Uuid, size: int)
    requires AllTidy(ss) && Declared(ss) && 0 <= size
    ensures var all := Groups(ss, start, end, kind);
            LongestPrefix(ReadByGroup(ss, start, end, kind, size), all, SizeOr(size, all))
    decreases |ss|
  {
    hide GroupWanted, Tidy, LongestPrefix;
    if |ss| == 0 {
      NoPrefix(SizeOr(size, []));
    } else {
      var rest := ss[1..];
      assert forall i :: 0 <= i < |rest| ==> rest[i] == ss[i + 1];
      if GroupWanted(ss[0], start, end, kind) {
        var length := |Head(ss[0]).value|;
        var all := Groups(rest, start, end, kind);
        ReadByGroupIsLongestPrefix(rest, start, end, kind, length);
        if size == 0 || size == length {
          LongestCons(Head(ss[0]), ReadByGroup(rest, start, end, kind, length), all, length);
        } else {
          OtherSize(Head(ss[0]), all, size);
        }
      } else {
        ReadByGroupIsLongestPrefix(rest, start, end, kind, size);
      }
    }
  }

  lemma NoPrefix(size: int)
    ensures LongestPrefix([], [], size)
  {
  }

  lemma OtherSize(a: Attribute, all: seq<Attribute>, size: int)
    requires |a.value| != size
    ensures LongestPrefix([], [a] + all, size)
  {
  }

  // ---- of every database a run can reach

  /** The UUIDs a run inserts services with have two or sixteen octets. */
  predicate Typed(r: Action) {
    match r
    case InsertService(_, uuid, _, _) => IsUuid(uuid)
    case AddService(uuid, _, _) => IsUuid(uuid)
    case _ => true
  }

  /** The declaration carries a UUID. */
  predicate Declares(s: Service) {
    |s.slots| > 0 && s.slots[0].Some? && |s.slots[0].value.value| in {2, 16}
  }

  predicate AllDeclare(ss: seq<Service>) { forall i :: 0 <= i < |ss| ==> Declares(ss[i]) }

  lemma InsertDeclares(db: Db, handle: int, uuid: Uuid, primary: bool, num: int)
    requires AllDeclare(db.services) && IsUuid(uuid)
    ensures AllDeclare(Insert(db, handle, uuid, primary, num).services)
  {
    hide FindLoc, Declares;
    if Inserts(db, handle, num) {
      NewDeclares(handle, uuid, primary, num);
    }
  }

  lemma NewDeclares(handle: int, uuid: Uuid, primary: bool, num: int)
    requires num >= 1 && IsUuid(uuid)
    ensures Declares(NewService(handle, uuid, primary, num))
  {
  }

  /** Attributes are added behind the declaration. */
  lemma AddKeepsHead(s: Service, other: Service, uuid: Uuid, properties: int)
    requires Tidy(s) && Declares(s)
    ensures Declares(AddCharacteristic(s, uuid, properties)) && Declares(AddDescriptor(s, uuid))
    ensures Tidy(other) ==> Declares(AddIncluded(s, other))
  {
    hide CharacteristicValue, IncludedValue, Used;
  }

  lemma ReplaceDeclares(db: Db, i: int, s: Service)
    requires Names(db, i) && AllDeclare(db.services) && Declares(s)
    ensures AllDeclare(Replace(db, i, s).services)
  {
    hide Declares;
  }

  lemma RemoveDeclares(ss: seq<Service>, i: nat)
    requires i < |ss| && AllDeclare(ss)
    ensures AllDeclare(RemoveAt(ss, i))
  {
    hide Declares;
  }

  lemma FilterDeclares(ss: seq<Service>, p: Service -> bool)
    requires AllDeclare(ss)
    ensures AllDeclare(Filter(ss, p))
  {
    hide Declares, Filter;
    FilterIsSubsequence(ss, p);
    forall i | 0 <= i < |Filter(ss, p)|
      ensures Declares(Filter(ss, p)[i])
    {
      assert Filter(ss, p)[i] in Filter(ss, p);
    }
  }

  lemma StepDeclares(db: Db, r: Action)
    requires AllTidy(db.services) && AllDeclare(db.services) && Typed(r)
    ensures AllDeclare(Step(db, r).services)
  {
    hide AllTidy, AllDeclare, Insert, RemoveAt, Filter, AddCharacteristic, AddDescriptor, AddIncluded, Tidy,
         Declares, Replace, IsUuid;
    match r
    case InsertService(handle, uuid, primary, num) => InsertDeclares(db, handle, uuid, primary, num);
    case AddService(uuid, primary, num) => InsertDeclares(db, db.next, uuid, primary, num);
    case RemoveService(i) => if Names(db, i) { RemoveDeclares(db.services, i); }
    case Clear => NoneDeclare();
    case ClearHandles(start, end) => FilterDeclares(db.services, (s: Service) => !Overlaps(s, start, end));
    case Characteristic(i, _, _) => if Names(db, i) { TableDeclares(db, r, i); }
    case Descriptor(i, _) => if Names(db, i) { TableDeclares(db, r, i); }
    case Included(i, _) => if Names(db, i) { TableDeclares(db, r, i); }
    case SetActive(i, _) => if Names(db, i) { TableDeclares(db, r, i); }
  }

  lemma NoneDeclare()
    ensures AllDeclare([])
  {
  }

  lemma DeclaresAt(db: Db, i: int)
    requires AllDeclare(db.services) && Names(db, i)
    ensures Declares(db.services[i])
  {
    hide Declares;
  }

  lemma TableDeclares(db: Db, r: Action, i: int)
    requires AllTidy(db.services) && AllDeclare(db.services) && Names(db, i) && AboutTable(r, i)
    ensures AllDeclare(Step(db, r).services)
  {
    hide AllTidy, AllDeclare, AddCharacteristic, AddDescriptor, AddIncluded, Tidy, Declares, Replace;
    var s := db.services[i];
    TidyAt(db, i);
    DeclaresAt(db, i);
    match r
    case Characteristic(_, uuid, properties) =>
      AddKeepsHead(s, s, uuid, properties);
      ReplaceDeclares(db, i, AddCharacteristic(s, uuid, properties));
    case Descriptor(_, uuid) =>
      AddKeepsHead(s, s, uuid, 0);
      ReplaceDeclares(db, i, AddDescriptor(s, uuid));
    case Included(_, j) =>
      if Names(db, j) {
        TidyAt(db, j);
        AddKeepsHead(s, db.services[j], PRIMARY, 0);
        ReplaceDeclares(db, i, AddIncluded(s, db.services[j]));
      }
    case SetActive(_, active) =>
      ActiveDeclares(s, active);
      ReplaceDeclares(db, i, s.(active := active));
  }

  lemma ActiveDeclares(s: Service, active: bool)
    requires Declares(s)
    ensures Declares(s.(active := active))
  {
  }

  lemma {:induction false} RunDeclares(db: Db, rs: seq<Action>)
    requires AllTidy(db.services) && AllDeclare(db.services) && forall i :: 0 <= i < |rs| ==> Typed(rs[i])
    ensures AllTidy(Run(db, rs).services) && AllDeclare(Run(db, rs).services)
    decreases |rs|
  {
    hide AllTidy, AllDeclare, Step, Typed;
    if |rs| > 0 {
      StepTidy(db, rs[0]);
      StepDeclares(db, rs[0]);
      RunDeclares(Step(db, rs[0]), rs[1..]);
    }
  }

  /** Whatever run led to the database, in order or not: a Read By Group Type answers with the
      longest prefix of the groups in the range whose UUIDs are as long as the first one's. */
  lemma ReachableGroups(rs: seq<Action>, start: int, end: int, kind: Uuid)
    requires forall i :: 0 <= i < |rs| ==> Typed(rs[i])
    ensures AllTidy(Run(NEW, rs).services)
    ensures var all := Groups(Run(NEW, rs).services, start, end, kind);
            var found := ReadByGroup(Run(NEW, rs).services, start, end, kind, 0);
            && LongestPrefix(found, all, if |all| > 0 then |all[0].value| else 0)
            && (|found| == 0 <==> |all| == 0)
  {
    hide Run, Typed, AllTidy, Groups, ReadByGroup;
    NoneDeclare();
    assert AllTidy(NEW.services) by { NoneTidy(); }
    RunDeclares(NEW, rs);
    var ss := Run(NEW, rs).services;
    DeclaredIs(ss);
    ReadByGroupIsLongestPrefix(ss, start, end, kind, 0);
  }

  lemma DeclaredIs(ss: seq<Service>)
    requires AllTidy(ss) && AllDeclare(ss)
    ensures Declared(ss)
  {
  }
}
