/** What each operation of the database leaves in it, octet by octet, and who is found by the
    scans. */
module GattContents {
  import opened Wrappers
  import opened Queue
  import opened Uuids
  import opened GattDb
  import opened GattRuns
  import opened GattScans

  // ---- services

  /** It begins with its declaration, is not active, and has room for num - 1 attributes. */
  ghost predicate IsNew(s: Service, handle: int, uuid: Uuid, primary: bool, num: int) {
    && s.start == handle && s.num == num && !s.active && Tidy(s)
    && Filled(s.slots) == [Attribute(handle, Uuid16(if primary then 0x2800 else 0x2801), ToLe(uuid))]
  }

  ghost predicate IsPut(before: seq<Service>, after: seq<Service>, s: Service, k: nat) {
    && k <= |before| && after == before[..k] + [s] + before[k..]
    && (forall i :: 0 <= i < k ==> before[i].start <= End(s))
       && (forall i :: k <= i < |before| ==> End(s) < before[i].start)
  }

  predicate Holds(s: Service, handle: int) { s.start <= handle < s.start + s.num }

  /** A service goes in if and only if its handles exist and neither its first nor its last is
      taken: behind all that begin before its end, and nothing else changes but next_handle. */
  lemma InsertedExactly(db: Db, handle: int, uuid: Uuid, primary: bool, num: int)
    requires Sorted(db.services)
    ensures var db' := Insert(db, handle, uuid, primary, num);
            var end := handle + num - 1;
            if 1 <= handle <= end <= 0xFFFF
               && (forall i :: 0 <= i < |db.services| ==> !Holds(db.services[i], handle) && !Holds(db.services[i], end))
            then
              && (exists s, k :: IsNew(s, handle, uuid, primary, num) && IsPut(db.services, db'.services, s, k))
              && db'.next == (if end < db.next then db.next else end + 1) % 0x1_0000
            else db' == db
  {
    hide Sorted, FindLoc, Tidy, InsertAt;
    var end := handle + num - 1;
    if InRange(handle, num) {
      RefusedExactly(db.services, handle, end);
      if Inserts(db, handle, num) {
        var k := FindLoc(db.services, handle, end).index;
        var s := NewService(handle, uuid, primary, num);
        PlaceSplits(db.services, handle, end);
        NewServiceTidy(handle, uuid, primary, num);
        Slices(db.services, k, s);
        assert IsNew(s, handle, uuid, primary, num);
        assert IsPut(db.services, Insert(db, handle, uuid, primary, num).services, s, k) by {
          StartsBelow(db.services, k, handle, end);
        }
        assert forall i :: 0 <= i < |db.services| ==> !Touches(db.services[i], handle, end);
      } else {
        var i :| 0 <= i < |db.services| && Touches(db.services[i], handle, end);
        assert Holds(db.services[i], handle) || Holds(db.services[i], end);
      }
    }
  }

  lemma StartsBelow(ss: seq<Service>, k: int, handle: int, end: int)
    requires Sorted(ss) && 0 <= k <= |ss|
    requires forall i :: 0 <= i < k ==> End(ss[i]) < end && (End(ss[i]) < handle || Encloses(handle, end, ss[i]))
    ensures forall i :: 0 <= i < k ==> ss[i].start <= end
  {
  }

  // ---- attributes

  /** A characteristic is two attributes, if there is room for both: the declaration with the
      properties, the handle of the value and the type, and the value. */
  lemma CharacteristicOctets(s: Service, uuid: Uuid, properties: int)
    requires Tidy(s)
    ensures var r, n := AddCharacteristic(s, uuid, properties), s.start + |Filled(s.slots)|;
            if |Filled(s.slots)| + 2 > s.num then r == s
            else
              && r == s.(slots := r.slots) && Tidy(r)
              && Filled(r.slots)
                 == Filled(s.slots) + [Attribute(n, Uuid16(0x2803), [properties] + Le16(n + 1) + ToLe(uuid)),
                                       Attribute(n + 1, uuid, [])]
  {
    hide ToLe, Filled, Used, Tidy;
    TidyUsed(s);
    CharacteristicAdded(s, uuid, properties);
  }

  /** A descriptor is one attribute without a value of its own. */
  lemma DescriptorOctets(s: Service, uuid: Uuid)
    requires Tidy(s)
    ensures var r, n := AddDescriptor(s, uuid), s.start + |Filled(s.slots)|;
            if |Filled(s.slots)| == s.num then r == s
            else r == s.(slots := r.slots) && Tidy(r) && Filled(r.slots) == Filled(s.slots) + [Attribute(n, uuid, [])]
  {
    hide Filled, Used, Tidy;
    TidyUsed(s);
    DescriptorAdded(s, uuid);
  }

  /** An include names the range of the other service, and its UUID if that has two octets. */
  lemma IncludedOctets(s: Service, other: Service)
    requires Tidy(s) && Tidy(other)
    ensures var r, n := AddIncluded(s, other), s.start + |Filled(s.slots)|;
            var uuid := other.slots[0].value.value;
            if |Filled(s.slots)| == s.num then r == s
            else
              && r == s.(slots := r.slots) && Tidy(r)
              && Filled(r.slots)
                 == Filled(s.slots)
                    + [Attribute(n, Uuid16(0x2802),
                                 Le16(other.start) + Le16(other.start + other.num - 1) + if |uuid| == 2 then uuid
                                     else [])]
  {
    hide Filled, Used, Tidy;
    TidyUsed(s);
    AddIncludedAppends(s, other);
  }

  // ---- one operation

  ghost predicate OnlyAt(db: Db, db': Db, i: int) {
    && |db'.services| == |db.services| && db'.next == db.next
    && forall j :: 0 <= j < |db.services| && j != i ==> db'.services[j] == db.services[j]
  }

  /** An operation on a service touches no other service, and a name of no service nothing. */
  lemma OneServiceChanges(db: Db, r: Action, i: int)
    requires AllTidy(db.services)
    requires (r.Characteristic? || r.Descriptor? || r.Included? || r.SetActive?) && r.index == i
    ensures var db' := Step(db, r);
            if !Names(db, i) || (r.Included? && !Names(db, r.other)) then db' == db
            else
              && OnlyAt(db, db', i)
              && (match r
                  case Characteristic(_, uuid, properties) =>
                    db'.services[i] == AddCharacteristic(db.services[i], uuid, properties)
                  case Descriptor(_, uuid) => db'.services[i] == AddDescriptor(db.services[i], uuid)
                  case Included(_, j) => db'.services[i] == AddIncluded(db.services[i], db.services[j])
                  case SetActive(_, active) =>
                    var s, s' := db.services[i], db'.services[i];
                    s'.active == active && s'.start == s.start && s'.num == s.num && s'.slots == s.slots
                  case _ => true)
  {
    hide Tidy, AddCharacteristic, AddDescriptor, AddIncluded;
  }

  /** Removing takes out one service, clearing all; only clearing all touches next_handle. */
  lemma RemovalTakesOut(db: Db, i: int, start: int, end: int)
    requires AllTidy(db.services)
    ensures Step(db, RemoveService(i))
            == if 0 <= i < |db.services| then Db(db.services[..i] + db.services[i + 1..], db.next) else db
    ensures Step(db, ClearHandles(start, end)).next == db.next
    ensures start > end ==> Step(db, ClearHandles(start, end)) == db
    ensures Step(db, Clear).services == []
  {
    hide AllTidy, Filter;
    if 0 <= i < |db.services| { Slices(db.services, i, db.services[i]); }
  }

  // ---- who is found

  lemma {:induction false} ActiveMember(ss: seq<Service>, a: Attribute)
    ensures a in ActiveFlat(ss) <==> exists i :: 0 <= i < |ss| && ss[i].active && a in Filled(ss[i].slots)
    decreases |ss|
  {
    hide Filled;
    if |ss| > 0 {
      var rest := ss[1..];
      ActiveMember(rest, a);
      if a in ActiveFlat(rest) {
        var i :| 0 <= i < |rest| && rest[i].active && a in Filled(rest[i].slots);
        assert ss[i + 1].active && a in Filled(ss[i + 1].slots);
      }
      forall i | 0 < i < |ss| && ss[i].active && a in Filled(ss[i].slots)
        ensures a in ActiveFlat(rest)
      {
        assert rest[i - 1] == ss[i];
      }
    }
  }

  lemma {:induction false} InFilter(t: seq<Attribute>, p: Attribute -> bool, a: Attribute)
    ensures a in Filter(t, p) <==> a in t && p(a)
    decreases |t|
  {
    if |t| > 0 { InFilter(t[1..], p, a); }
  }

  /** Found by type is just every attribute of an active service with a handle in the range and
      this type, in whichever form; found by Find Information is every one in the range. */
  lemma FoundExactly(ss: seq<Service>, start: int, end: int, uuid: Uuid, a: Attribute)
    requires AllTidy(ss)
    ensures a in ReadByType(ss, start, end, uuid) <==>
            start <= a.handle <= end && IsSame(uuid, a.uuid)
            && exists i :: 0 <= i < |ss| && ss[i].active && a in Filled(ss[i].slots)
    ensures a in FindInformation(ss, start, end) <==>
            start <= a.handle <= end
            && exists i :: 0 <= i < |ss| && ss[i].active && a in Filled(ss[i].slots)
  {
    hide AllTidy, ReadByType, FindInformation, ActiveFlat, Filter, Same, Filled, IsSame;
    ReadByTypeIsFilter(ss, start, end, uuid);
    FindInformationIsFilter(ss, start, end);
    InFilter(ActiveFlat(ss), Selection(start, end, OfType(uuid)), a);
    InFilter(ActiveFlat(ss), Selection(start, end, Any()), a);
    ActiveMember(ss, a);
    SameIs(uuid, a.uuid);
  }

  /** Octets of the long form of a short UUID. */
  function LongForm(v: int): seq<int> {
    [0, 0, v / 0x100, v % 0x100, 0, 0, 0x10, 0, 0x80, 0, 0, 0x80, 0x5F, 0x9B, 0x34, 0xFB]
  }

  predicate IsSame(a: Uuid, b: Uuid) {
    match (a, b)
    case (Uuid16(v), Uuid16(w)) => v == w
    case (Uuid16(v), Uuid128(d)) => d == LongForm(v)
    case (Uuid128(d), Uuid16(w)) => d == LongForm(w)
    case (Uuid128(d), Uuid128(e)) => d == e
  }

  lemma SameIs(a: Uuid, b: Uuid)
    ensures Same(a, b) <==> IsSame(a, b)
  {
    forall v: int
      ensures Full(Uuid16(v)) == LongForm(v)
    {
    }
    if a.Uuid16? && b.Uuid16? { ShortUuids(a.value, b.value); }
  }

  /** A group is the declaration of an active service of this type that starts in the range. */
  lemma {:induction false} GroupsExactly(ss: seq<Service>, start: int, end: int, kind: Uuid, a: Attribute)
    requires AllTidy(ss)
    ensures a in Groups(ss, start, end, kind) <==>
            exists i :: 0 <= i < |ss| && IsGroup(ss[i], start, end, kind, a)
    decreases |ss|
  {
    hide Tidy, Same, IsGroup;
    if |ss| > 0 {
      var rest := ss[1..];
      assert forall i :: 0 <= i < |rest| ==> rest[i] == ss[i + 1];
      GroupsExactly(rest, start, end, kind, a);
      HeadIsGroup(ss[0], start, end, kind, a);
      if a in Groups(rest, start, end, kind) {
        var i :| 0 <= i < |rest| && IsGroup(rest[i], start, end, kind, a);
        assert IsGroup(ss[i + 1], start, end, kind, a);
      }
      forall i | 0 < i < |ss| && IsGroup(ss[i], start, end, kind, a)
        ensures a in Groups(rest, start, end, kind)
      {
        assert IsGroup(rest[i - 1], start, end, kind, a);
      }
    }
  }

  predicate IsGroup(s: Service, start: int, end: int, kind: Uuid, a: Attribute) {
    s.active && start <= s.start <= end && |s.slots| > 0 && s.slots[0] == Some(a) && IsSame(kind, a.uuid)
  }

  lemma HeadIsGroup(s: Service, start: int, end: int, kind: Uuid, a: Attribute)
    requires Tidy(s)
    ensures IsGroup(s, start, end, kind, a) <==> GroupWanted(s, start, end, kind) && a == Head(s)
  {
    hide Same, IsSame;
    SameIs(kind, a.uuid);
  }
}
