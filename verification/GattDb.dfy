/** The attribute database of bluez/gatt-db.c: an ordered list of services, each a range of
    handles with a table of attributes that is filled from the front. */
module GattDb {
  import opened Wrappers
  import opened Queue
  import opened Uuids

  const MAX_HANDLE := 0xFFFF
  const PRIMARY := Uuid16(0x2800)
  const SECONDARY := Uuid16(0x2801)
  const INCLUDE := Uuid16(0x2802)
  const CHARACTERISTIC := Uuid16(0x2803)

  datatype Attribute = Attribute(handle: int, uuid: Uuid, value: seq<int>)

  /** start is the handle of the declaration in the first slot. */
  datatype Service = Service(start: int, num: int, active: bool, slots: seq<Option<Attribute>>)

  datatype Db = Db(services: seq<Service>, next: int)

  const NEW := Db([], 1)

  function End(s: Service): int { s.start + s.num - 1 }

  predicate Covers(s: Service, handle: int) { s.start <= handle <= End(s) }

  // ---- order

  predicate Proper(s: Service) { 1 <= s.start && 1 <= s.num && End(s) <= MAX_HANDLE }

  predicate Sorted(ss: seq<Service>) {
    && (forall i :: 0 <= i < |ss| ==> Proper(ss[i]))
    && (forall i, j :: 0 <= i < j < |ss| ==> End(ss[i]) < ss[j].start)
  }

  // ---- insertion

  datatype Place = Refused | At(index: int)

  /** find_insert_loc: how many services come before the new one. */
  function FindLoc(ss: seq<Service>, start: int, end: int): (p: Place)
    ensures p.At? ==> 0 <= p.index <= |ss|
    decreases |ss|
  {
    if |ss| == 0 then At(0)
    else if Covers(ss[0], start) || Covers(ss[0], end) then Refused
    else if end < ss[0].start then At(0)
    else
      match FindLoc(ss[1..], start, end)
      case Refused => Refused
      case At(k) => At(k + 1)
  }

  function Declaration(primary: bool, handle: int, uuid: Uuid): Attribute {
    Attribute(handle, if primary then PRIMARY else SECONDARY, ToLe(uuid))
  }

  function NewService(handle: int, uuid: Uuid, primary: bool, num: int): Service
    requires num >= 1
  {
    Service(handle, num, false,
            seq(num, i => if i == 0 then Some(Declaration(primary, handle, uuid)) else None))
  }

  /** The check that gatt_db_insert_service makes before it looks for a place. */
  predicate InRange(handle: int, num: int) { 1 <= handle && 1 <= num && handle + num - 1 <= MAX_HANDLE }

  function Max(a: int, b: int): int { if a > b then a else b }

  /** next_handle is an unsigned 16-bit number. */
  function Insert(db: Db, handle: int, uuid: Uuid, primary: bool, num: int): Db {
    if !InRange(handle, num) then db
    else
      match FindLoc(db.services, handle, handle + num - 1)
      case Refused => db
      case At(k) =>
        Db(InsertAt(db.services, k, NewService(handle, uuid, primary, num)),
           Max(handle + num, db.next) % 0x1_0000)
  }

  predicate Inserts(db: Db, handle: int, num: int) {
    InRange(handle, num) && FindLoc(db.services, handle, handle + num - 1).At?
  }

  predicate Touches(s: Service, start: int, end: int) { Covers(s, start) || Covers(s, end) }

  predicate Encloses(start: int, end: int, s: Service) { start < s.start && End(s) < end }

  predicate Overlaps(s: Service, start: int, end: int) { s.start <= end && End(s) >= start }

  /** A range that meets a service has an end point in it or encloses it. */
  lemma OverlapIs(s: Service, start: int, end: int)
    requires start <= end && Proper(s)
    ensures Overlaps(s, start, end) <==> Touches(s, start, end) || Encloses(start, end, s)
  {
  }

  /** In a sorted list the scan, although it stops early, refuses exactly the ranges that
      have an end point in some service. */
  lemma {:induction false} RefusedExactly(ss: seq<Service>, start: int, end: int)
    requires Sorted(ss) && start <= end
    ensures FindLoc(ss, start, end).Refused? <==> exists i :: 0 <= i < |ss| && Touches(ss[i], start, end)
    decreases |ss|
  {
    if |ss| > 0 && !Touches(ss[0], start, end) && !(end < ss[0].start) {
      var rest := ss[1..];
      RefusedExactly(rest, start, end);
      if FindLoc(rest, start, end).Refused? {
        var i :| 0 <= i < |rest| && Touches(rest[i], start, end);
        assert Touches(ss[i + 1], start, end);
      }
      forall i | 0 <= i < |ss| && Touches(ss[i], start, end)
        ensures FindLoc(rest, start, end).Refused?
      {
        assert rest[i - 1] == ss[i];
      }
    } else if |ss| > 0 && Touches(ss[0], start, end) {
      assert Touches(ss[0], start, end);
    }
  }

  /** Where the new service goes: all before it start before its end, all after it start
      after its end. */
  lemma {:induction false} PlaceSplits(ss: seq<Service>, start: int, end: int)
    requires Sorted(ss) && start <= end && FindLoc(ss, start, end).At?
    ensures var k := FindLoc(ss, start, end).index;
            && (forall i :: 0 <= i < k ==> End(ss[i]) < end && (End(ss[i]) < start || Encloses(start, end, ss[i])))
            && (forall i :: k <= i < |ss| ==> end < ss[i].start)
    decreases |ss|
  {
    if |ss| > 0 && !(end < ss[0].start) {
      var rest := ss[1..];
      PlaceSplits(rest, start, end);
      var k := FindLoc(ss, start, end).index;
      forall i | 0 <= i < k
        ensures End(ss[i]) < end && (End(ss[i]) < start || Encloses(start, end, ss[i]))
      {
        if i > 0 { assert ss[i] == rest[i - 1]; }
      }
      forall i | k <= i < |ss|
        ensures end < ss[i].start
      {
        assert ss[i] == rest[i - 1];
      }
    }
  }

  predicate EnclosesSome(ss: seq<Service>, start: int, end: int) {
    exists i :: 0 <= i < |ss| && Encloses(start, end, ss[i])
  }

  lemma NewServiceRange(handle: int, uuid: Uuid, primary: bool, num: int)
    requires InRange(handle, num)
    ensures var s := NewService(handle, uuid, primary, num);
            s.start == handle && End(s) == handle + num - 1 && Proper(s)
  {
  }

  /** An accepted insertion keeps the services sorted and disjoint exactly when the new range
      encloses no service. */
  lemma InsertKeepsSorted(db: Db, handle: int, uuid: Uuid, primary: bool, num: int)
    requires Sorted(db.services) && Inserts(db, handle, num)
    ensures Sorted(Insert(db, handle, uuid, primary, num).services)
            <==> !EnclosesSome(db.services, handle, handle + num - 1)
  {
    var ss, end := db.services, handle + num - 1;
    var k := FindLoc(ss, handle, end).index;
    var svc := NewService(handle, uuid, primary, num);
    hide Sorted, FindLoc, NewService, InsertAt, Encloses, End, Proper;
    NewServiceRange(handle, uuid, primary, num);
    PlaceSplits(ss, handle, end);
    if EnclosesSome(ss, handle, end) {
      var i :| 0 <= i < |ss| && Encloses(handle, end, ss[i]);
      EnclosesMeans(handle, end, ss[i]);
      EnclosingBreaks(ss, k, svc, i);
    } else {
      assert forall i :: 0 <= i < |ss| ==> !Encloses(handle, end, ss[i]);
      SortedInsert(ss, k, svc);
    }
  }

  lemma EnclosesMeans(start: int, end: int, s: Service)
    ensures Encloses(start, end, s) ==> start < s.start && End(s) < end
  {
  }

  lemma SortedInsert(ss: seq<Service>, k: int, s: Service)
    requires Sorted(ss) && Proper(s) && 0 <= k <= |ss|
    requires forall i :: 0 <= i < k ==> End(ss[i]) < s.start
    requires forall i :: k <= i < |ss| ==> End(s) < ss[i].start
    ensures Sorted(InsertAt(ss, k, s))
  {
    var r := InsertAt(ss, k, s);
    forall i, j | 0 <= i < j < |r|
      ensures End(r[i]) < r[j].start
    {
      assert r[i] == if i < k then ss[i] else if i == k then s else ss[i - 1];
      assert r[j] == if j < k then ss[j] else if j == k then s else ss[j - 1];
    }
  }

  lemma EnclosingBreaks(ss: seq<Service>, k: int, s: Service, i: int)
    requires Sorted(ss) && 0 <= k <= |ss| && 0 <= i < |ss|
    requires s.start < ss[i].start && End(ss[i]) < End(s)
    ensures !Sorted(InsertAt(ss, k, s))
  {
    var r := InsertAt(ss, k, s);
    assert r[k] == s && (if i < k then r[i] == ss[i] else r[i + 1] == ss[i]);
  }

  /** A range that encloses a service is taken. */
  lemma EnclosingIsAccepted(uuid: Uuid)
    ensures var db := Insert(NEW, 10, uuid, true, 2);
            Inserts(db, 5, 10) && !Sorted(Insert(db, 5, uuid, true, 10).services)
  {
    var db := Insert(NEW, 10, uuid, true, 2);
    var first := NewService(10, uuid, true, 2);
    assert db.services == [first];
    assert [first][1..] == [];
    assert Encloses(5, 14, db.services[0]);
    assert FindLoc(db.services, 5, 14) == At(1) && End(first) == 11;
    InsertKeepsSorted(db, 5, uuid, true, 10);
  }

  // ---- removal

  /** gatt_db_clear_range: every service that meets the range goes, the others stay in order. */
  function ClearRange(db: Db, start: int, end: int): Db {
    if start > end then db else db.(services := Filter(db.services, (s: Service) => !Overlaps(s, start, end)))
  }

  lemma {:induction false} FilterIsSubsequence(ss: seq<Service>, p: Service -> bool)
    ensures forall s :: s in Filter(ss, p) <==> s in ss && p(s)
    decreases |ss|
  {
    if |ss| > 0 {
      assert ss == [ss[0]] + ss[1..];
      FilterIsSubsequence(ss[1..], p);
    }
  }

  lemma {:induction false} FilterKeepsSorted(ss: seq<Service>, p: Service -> bool)
    requires Sorted(ss)
    ensures Sorted(Filter(ss, p))
    decreases |ss|
  {
    if |ss| > 0 {
      var rest := ss[1..];
      FilterKeepsSorted(rest, p);
      FilterIsSubsequence(rest, p);
      var f := Filter(rest, p);
      forall j | 0 <= j < |f|
        ensures End(ss[0]) < f[j].start
      {
        assert f[j] in rest;
      }
      if p(ss[0]) {
        SortedInsert(f, 0, ss[0]);
        assert InsertAt(f, 0, ss[0]) == [ss[0]] + f;
      }
    }
  }

  /** Exactly the services that meet the range are removed. */
  lemma ClearRangeExact(db: Db, start: int, end: int, s: Service)
    requires start <= end
    ensures s in ClearRange(db, start, end).services <==> s in db.services && !Overlaps(s, start, end)
    ensures Sorted(db.services) ==> Sorted(ClearRange(db, start, end).services)
  {
    var p := (s: Service) => !Overlaps(s, start, end);
    FilterIsSubsequence(db.services, p);
    if Sorted(db.services) { FilterKeepsSorted(db.services, p); }
  }

  // ---- the table of one service

  /** How many slots are filled before the first empty one. */
  function Used(slots: seq<Option<Attribute>>): (n: nat)
    ensures n <= |slots|
  {
    FirstIndex(slots, (o: Option<Attribute>) => o.None?)
  }

  /** Filled slots are a prefix, and the handles count up from the declaration. */
  predicate Tidy(s: Service) {
    && |s.slots| == s.num
    && 1 <= Used(s.slots)
    && (forall i :: 0 <= i < s.num ==> (s.slots[i].Some? <==> i < Used(s.slots)))
    && (forall i :: 0 <= i < Used(s.slots) ==> s.slots[i].value.handle == s.start + i)
  }

  /** get_attribute_index: the first free slot, if `offset` more follow it; 0 if there is none. */
  function FreeIndex(s: Service, offset: int): int {
    if Used(s.slots) < s.num - offset then Used(s.slots) else 0
  }

  function CharacteristicValue(properties: int, valueHandle: int, uuid: Uuid): seq<int> {
    [properties] + Le16(valueHandle) + ToLe(uuid)
  }

  function AddCharacteristic(s: Service, uuid: Uuid, properties: int): Service
    requires Tidy(s)
  {
    var i := FreeIndex(s, 1);
    if i == 0 then s
    else
      var h := s.slots[i - 1].value.handle;
      s.(slots := s.slots[i := Some(Attribute(h + 1, CHARACTERISTIC, CharacteristicValue(properties, h + 2, uuid)))]
                         [i + 1 := Some(Attribute(h + 2, uuid, []))])
  }

  function AddDescriptor(s: Service, uuid: Uuid): Service
    requires Tidy(s)
  {
    var i := FreeIndex(s, 0);
    if i == 0 then s else s.(slots := s.slots[i := Some(Attribute(s.slots[i - 1].value.handle + 1, uuid, []))])
  }

  function IncludedValue(included: Service): seq<int>
    requires Tidy(included)
  {
    var uuid := included.slots[0].value.value;
    Le16(included.start) + Le16(End(included)) + if |uuid| == 2 then uuid else []
  }

  function AddIncluded(s: Service, included: Service): Service
    requires Tidy(s) && Tidy(included)
  {
    var i := FreeIndex(s, 0);
    if i == 0 then s
    else s.(slots := s.slots[i := Some(Attribute(s.slots[i - 1].value.handle + 1, INCLUDE, IncludedValue(included)))])
  }

  /** The attributes of a service in slot order. */
  function Filled(slots: seq<Option<Attribute>>): seq<Attribute> {
    if |slots| == 0 then []
    else if slots[0].Some? then [slots[0].value] + Filled(slots[1..])
    else Filled(slots[1..])
  }

  lemma {:induction false} FilledNone(slots: seq<Option<Attribute>>)
    requires forall i :: 0 <= i < |slots| ==> slots[i].None?
    ensures Filled(slots) == []
    decreases |slots|
  {
    if |slots| > 0 { FilledNone(slots[1..]); }
  }

  /** With the filled slots in front, slot n is attribute n. */
  lemma {:induction false} FilledIs(slots: seq<Option<Attribute>>, n: nat)
    requires n <= |slots| && forall i :: 0 <= i < |slots| ==> (slots[i].Some? <==> i < n)
    ensures |Filled(slots)| == n && forall i :: 0 <= i < n ==> Filled(slots)[i] == slots[i].value
    decreases |slots|
  {
    if n == 0 {
      FilledNone(slots);
    } else {
      FilledIs(slots[1..], n - 1);
    }
  }

  lemma UsedIs(slots: seq<Option<Attribute>>, n: nat)
    requires n <= |slots| && forall i :: 0 <= i < |slots| ==> (slots[i].Some? <==> i < n)
    ensures Used(slots) == n
  {
    FirstIndexIs(slots, (o: Option<Attribute>) => o.None?, n);
  }

  /** Attributes can be appended to the table of a tidy service. */
  lemma Appended(s: Service, a: Attribute, r: Service)
    requires Tidy(s) && Used(s.slots) < s.num && a.handle == s.start + Used(s.slots)
    requires r == s.(slots := s.slots[Used(s.slots) := Some(a)])
    ensures Tidy(r) && Used(r.slots) == Used(s.slots) + 1 && Filled(r.slots) == Filled(s.slots) + [a]
  {
    var n := Used(s.slots);
    UsedIs(r.slots, n + 1);
    FilledIs(s.slots, n);
    FilledIs(r.slots, n + 1);
  }

  /** The declaration can be read back. */
  lemma DeclarationReads(properties: int, handle: int, uuid: Uuid)
    requires IsUuid(uuid)
    ensures var v := CharacteristicValue(properties, handle, uuid);
            |v| >= 5 && v[0] == properties && GetLe16(v[1..]) == handle && FromLe(v[3..]) == Some(uuid)
  {
    var v := CharacteristicValue(properties, handle, uuid);
    Le16RoundTrip(handle);
    UuidRoundTrip(uuid);
    assert v[1..] == Le16(handle) + ToLe(uuid) && v[3..] == ToLe(uuid);
  }

  lemma CharacteristicAdded(s: Service, uuid: Uuid, properties: int)
    requires Tidy(s)
    ensures var r := AddCharacteristic(s, uuid, properties);
            var n := Used(s.slots);
            && Tidy(r) && r.start == s.start && r.num == s.num
            && FreeIndex(s, 1) == (if n + 1 < s.num then n else 0)
            && (n + 1 < s.num ==> |r.slots| == s.num && r.slots[n + 1] == Some(Attribute(s.start + n + 1, uuid, [])))
    ensures var r := AddCharacteristic(s, uuid, properties);
            var n := Used(s.slots);
            n + 1 < s.num ==>
              Filled(r.slots) == Filled(s.slots)
              + [Attribute(s.start + n, CHARACTERISTIC, CharacteristicValue(properties, s.start + n + 1, uuid)),
                 Attribute(s.start + n + 1, uuid, [])]
  {
    hide ToLe, Filled, Used, Tidy, CharacteristicValue;
    var n := Used(s.slots);
    TidyUsed(s);
    var h := s.start + n;
    if n + 1 < s.num {
      var decl := Attribute(h, CHARACTERISTIC, CharacteristicValue(properties, h + 1, uuid));
      var value := Attribute(h + 1, uuid, []);
      var r1 := s.(slots := s.slots[n := Some(decl)]);
      Appended(s, decl, r1);
      TidyUsed(r1);
      Appended(r1, value, r1.(slots := r1.slots[n + 1 := Some(value)]));
      assert Filled(s.slots) + [decl] + [value] == Filled(s.slots) + [decl, value];
    }
  }

  lemma TidyUsed(s: Service)
    requires Tidy(s)
    ensures 1 <= Used(s.slots) <= |s.slots| == s.num && |Filled(s.slots)| == Used(s.slots)
    ensures s.slots[Used(s.slots) - 1].Some? && s.slots[Used(s.slots) - 1].value.handle == s.start + Used(s.slots) - 1
  {
    FilledIs(s.slots, Used(s.slots));
  }

  /** A characteristic is added exactly when two slots are free; it appends a declaration that
      names the properties, the handle of the value and the type, and then the value. */
  lemma AddCharacteristicAppends(s: Service, uuid: Uuid, properties: int)
    requires Tidy(s) && IsUuid(uuid)
    ensures var r, n := AddCharacteristic(s, uuid, properties), |Filled(s.slots)|;
            if n + 2 > s.num then r == s
            else
              var decl, value := Attribute(s.start + n, CHARACTERISTIC,
                                           CharacteristicValue(properties, s.start + n + 1, uuid)),
                               Attribute(s.start + n + 1, uuid, []);
              && Filled(r.slots) == Filled(s.slots) + [decl, value]
              && GetLe16(decl.value[1..]) == value.handle && FromLe(decl.value[3..]) == Some(uuid)
  {
    hide ToLe, FromLe, Filled, Used, IsUuid, Tidy, CharacteristicValue;
    TidyUsed(s);
    CharacteristicAdded(s, uuid, properties);
    DeclarationReads(properties, s.start + |Filled(s.slots)| + 1, uuid);
  }

  lemma DescriptorAdded(s: Service, uuid: Uuid)
    requires Tidy(s)
    ensures var r := AddDescriptor(s, uuid);
            var n := Used(s.slots);
            && Tidy(r) && r.start == s.start && r.num == s.num
            && FreeIndex(s, 0) == (if n < s.num then n else 0)
            && (n < s.num ==> |r.slots| == s.num && r.slots[n] == Some(Attribute(s.start + n, uuid, []))
                              && Filled(r.slots) == Filled(s.slots) + [Attribute(s.start + n, uuid, [])])
  {
    hide Filled, Used, Tidy;
    TidyUsed(s);
    if Used(s.slots) < s.num {
      Appended(s, Attribute(s.start + Used(s.slots), uuid, []), AddDescriptor(s, uuid));
    }
  }

  lemma AddIncludedAppends(s: Service, included: Service)
    requires Tidy(s) && Tidy(included)
    ensures var r := AddIncluded(s, included);
            Tidy(r) && r.start == s.start && r.num == s.num
    ensures var r, n := AddIncluded(s, included), |Filled(s.slots)|;
            if n == s.num then r == s
            else Filled(r.slots) == Filled(s.slots) + [Attribute(s.start + n, INCLUDE, IncludedValue(included))]
  {
    var n := Used(s.slots);
    FilledIs(s.slots, n);
    if n < s.num {
      Appended(s, Attribute(s.start + n, INCLUDE, IncludedValue(included)), AddIncluded(s, included));
    }
  }

  lemma NewServiceTidy(handle: int, uuid: Uuid, primary: bool, num: int)
    requires num >= 1
    ensures var s := NewService(handle, uuid, primary, num);
            Tidy(s) && Filled(s.slots) == [Declaration(primary, handle, uuid)]
  {
    var s := NewService(handle, uuid, primary, num);
    UsedIs(s.slots, 1);
    FilledIs(s.slots, 1);
  }

  // ---- the flat view

  function Flat(ss: seq<Service>): seq<Attribute> {
    if |ss| == 0 then [] else Filled(ss[0].slots) + Flat(ss[1..])
  }

  predicate AllTidy(ss: seq<Service>) { forall i :: 0 <= i < |ss| ==> Tidy(ss[i]) }

  predicate Good(ss: seq<Service>) { Sorted(ss) && AllTidy(ss) }

  function Holder(ss: seq<Service>, handle: int): (i: nat)
    ensures i <= |ss|
  {
    FirstIndex(ss, (s: Service) => Covers(s, handle))
  }

  /** gatt_db_get_attribute: the first service that covers the handle, then its slot. */
  function GetAttribute(db: Db, handle: int): Option<Attribute>
    requires AllTidy(db.services)
  {
    var i := Holder(db.services, handle);
    if handle == 0 || i == |db.services| then None
    else db.services[i].slots[handle - db.services[i].start]
  }

  lemma HandlesInService(s: Service, a: Attribute)
    requires Tidy(s)
    ensures a in Filled(s.slots) <==> Covers(s, a.handle) && s.slots[a.handle - s.start] == Some(a)
  {
    var n := Used(s.slots);
    FilledIs(s.slots, n);
    if a in Filled(s.slots) {
      var i :| 0 <= i < n && Filled(s.slots)[i] == a;
    }
    if Covers(s, a.handle) && s.slots[a.handle - s.start] == Some(a) {
      assert Filled(s.slots)[a.handle - s.start] == a;
    }
  }

  lemma {:induction false} FlatMember(ss: seq<Service>, a: Attribute)
    ensures a in Flat(ss) <==> exists i :: 0 <= i < |ss| && a in Filled(ss[i].slots)
    decreases |ss|
  {
    if |ss| > 0 {
      var rest := ss[1..];
      FlatMember(rest, a);
      if a in Flat(rest) {
        var i :| 0 <= i < |rest| && a in Filled(rest[i].slots);
        assert a in Filled(ss[i + 1].slots);
      }
      forall i | 0 < i < |ss| && a in Filled(ss[i].slots)
        ensures a in Flat(rest)
      {
        assert rest[i - 1] == ss[i];
      }
    }
  }

  /** Looking up a handle is looking it up in the flat table. */
  lemma GetAttributeAgrees(db: Db, a: Attribute)
    requires Good(db.services)
    ensures GetAttribute(db, a.handle) == Some(a) <==> a in Flat(db.services)
  {
    var ss := db.services;
    var k := Holder(ss, a.handle);
    FlatMember(ss, a);
    if a in Flat(ss) {
      var i :| 0 <= i < |ss| && a in Filled(ss[i].slots);
      HandlesInService(ss[i], a);
      assert k == i;
    } else if k < |ss| {
      HandlesInService(ss[k], a);
    }
  }

  lemma NoAttributeElsewhere(db: Db, handle: int)
    requires Good(db.services)
    ensures GetAttribute(db, handle).Some?
            ==> GetAttribute(db, handle).value in Flat(db.services) && GetAttribute(db, handle).value.handle == handle
  {
    var k := Holder(db.services, handle);
    if GetAttribute(db, handle).Some? {
      GetAttributeAgrees(db, GetAttribute(db, handle).value);
    }
  }

  predicate Ascending(t: seq<Attribute>) { forall i, j :: 0 <= i < j < |t| ==> t[i].handle < t[j].handle }

  /** A table behind another. */
  lemma AscendingAppend(a: seq<Attribute>, b: seq<Attribute>, limit: int)
    requires Ascending(a) && Ascending(b)
    requires forall i :: 0 <= i < |a| ==> a[i].handle <= limit
    requires forall j :: 0 <= j < |b| ==> limit < b[j].handle
    ensures Ascending(a + b)
  {
  }

  lemma ServiceAscends(s: Service)
    requires Tidy(s)
    ensures var f := Filled(s.slots);
            Ascending(f) && forall i :: 0 <= i < |f| ==> s.start <= f[i].handle <= End(s)
  {
    hide Filled;
    FilledIs(s.slots, Used(s.slots));
  }

  lemma {:induction false} FlatAscends(ss: seq<Service>)
    requires Good(ss)
    ensures Ascending(Flat(ss))
    ensures forall i :: 0 <= i < |Flat(ss)| ==> ss != [] && ss[0].start <= Flat(ss)[i].handle
    decreases |ss|
  {
    hide Filled, Tidy, Ascending;
    if |ss| > 0 {
      var rest := ss[1..];
      FlatAscends(rest);
      ServiceAscends(ss[0]);
      assert |rest| > 0 ==> rest[0] == ss[1];
      AscendingAppend(Filled(ss[0].slots), Flat(rest), End(ss[0]));
    } else {
      NothingAscends();
    }
  }

  lemma NothingAscends()
    ensures Ascending([])
  {
  }
}
