/** Every run of database operations: which of them keep the table of services in order. */
module GattRuns {
  import opened Wrappers
  import opened Queue
  import opened Uuids
  import opened GattDb

  datatype Action =
    | InsertService(handle: int, uuid: Uuid, primary: bool, num: int)
    | AddService(uuid: Uuid, primary: bool, num: int)   // at next_handle
    | RemoveService(index: int)
    | Clear
    | ClearHandles(start: int, end: int)
    | Characteristic(index: int, uuid: Uuid, properties: int)
    | Descriptor(index: int, uuid: Uuid)
    | Included(index: int, other: int)
    | SetActive(index: int, active: bool)

  /** The service an operation is about, if there is one. */
  predicate Names(db: Db, index: int) { 0 <= index < |db.services| }

  function Replace(db: Db, index: int, s: Service): Db
    requires Names(db, index)
  {
    db.(services := db.services[index := s])
  }

  function Step(db: Db, r: Action): Db
    requires AllTidy(db.services)
  {
    match r
    case InsertService(handle, uuid, primary, num) => Insert(db, handle, uuid, primary, num)
    case AddService(uuid, primary, num) => Insert(db, db.next, uuid, primary, num)
    case RemoveService(i) => if Names(db, i) then db.(services := RemoveAt(db.services, i)) else db
    case Clear => Db([], 0)
    case ClearHandles(start, end) => ClearRange(db, start, end)
    case Characteristic(i, uuid, properties) =>
      if Names(db, i) then Replace(db, i, AddCharacteristic(db.services[i], uuid, properties)) else db
    case Descriptor(i, uuid) =>
      if Names(db, i) then Replace(db, i, AddDescriptor(db.services[i], uuid)) else db
    case Included(i, j) =>
      if Names(db, i) && Names(db, j) then Replace(db, i, AddIncluded(db.services[i], db.services[j])) else db
    case SetActive(i, active) =>
      if Names(db, i) then Replace(db, i, db.services[i].(active := active)) else db
  }

  /** The one operation that breaks the order: an insertion around an existing service. */
  predicate Encloser(db: Db, r: Action) {
    match r
    case InsertService(handle, _, _, num) =>
      Inserts(db, handle, num) && EnclosesSome(db.services, handle, handle + num - 1)
    case AddService(_, _, num) => Inserts(db, db.next, num) && EnclosesSome(db.services, db.next, db.next + num - 1)
    case _ => false
  }

  lemma InsertAllTidy(ss: seq<Service>, k: int, s: Service)
    requires AllTidy(ss) && Tidy(s) && 0 <= k <= |ss|
    ensures AllTidy(InsertAt(ss, k, s))
  {
    hide Tidy;
  }

  lemma InsertTidy(db: Db, handle: int, uuid: Uuid, primary: bool, num: int)
    requires AllTidy(db.services)
    ensures AllTidy(Insert(db, handle, uuid, primary, num).services)
  {
    hide Tidy, NewService, AllTidy, InsertAt;
    if Inserts(db, handle, num) {
      NewServiceTidy(handle, uuid, primary, num);
      InsertAllTidy(db.services, FindLoc(db.services, handle, handle + num - 1).index,
                    NewService(handle, uuid, primary, num));
    }
  }

  lemma ReplaceTidy(db: Db, i: int, s: Service)
    requires AllTidy(db.services) && Names(db, i) && Tidy(s)
    ensures AllTidy(Replace(db, i, s).services)
  {
    hide Tidy;
  }

  /** Replacing a service by one with the same range changes nothing for the order. */
  lemma ReplaceSorted(db: Db, i: int, s: Service)
    requires Names(db, i) && s.start == db.services[i].start && s.num == db.services[i].num
    ensures Sorted(Replace(db, i, s).services) <==> Sorted(db.services)
  {
    var ss, r := db.services, Replace(db, i, s).services;
    assert forall k :: 0 <= k < |ss| ==> r[k].start == ss[k].start && r[k].num == ss[k].num;
  }

  lemma RemoveKeeps(ss: seq<Service>, i: nat)
    requires i < |ss|
    ensures AllTidy(ss) ==> AllTidy(RemoveAt(ss, i))
    ensures Sorted(ss) ==> Sorted(RemoveAt(ss, i))
  {
    hide Tidy, Proper, End;
    var r := RemoveAt(ss, i);
    assert forall k :: 0 <= k < |r| ==> r[k] == ss[if k < i then k else k + 1];
  }

  lemma FilterTidy(ss: seq<Service>, p: Service -> bool)
    requires AllTidy(ss)
    ensures AllTidy(Filter(ss, p))
  {
    hide Tidy, Filter;
    FilterIsSubsequence(ss, p);
    forall i | 0 <= i < |Filter(ss, p)|
      ensures Tidy(Filter(ss, p)[i])
    {
      assert Filter(ss, p)[i] in Filter(ss, p);
    }
  }

  lemma StepTidy(db: Db, r: Action)
    requires AllTidy(db.services)
    ensures AllTidy(Step(db, r).services)
  {
    hide AllTidy, Insert, RemoveAt, Filter, AddCharacteristic, AddDescriptor, AddIncluded, Tidy, Replace;
    match r
    case InsertService(handle, uuid, primary, num) => InsertTidy(db, handle, uuid, primary, num);
    case AddService(uuid, primary, num) => InsertTidy(db, db.next, uuid, primary, num);
    case RemoveService(i) => if Names(db, i) { RemoveKeeps(db.services, i); }
    case Clear => NoneTidy();
    case ClearHandles(start, end) => FilterTidy(db.services, (s: Service) => !Overlaps(s, start, end));
    case Characteristic(i, uuid, properties) => TableStep(db, r, i);
    case Descriptor(i, uuid) => TableStep(db, r, i);
    case Included(i, j) => TableStep(db, r, i);
    case SetActive(i, active) => TableStep(db, r, i);
  }

  lemma NoneTidy()
    ensures AllTidy([])
  {
  }

  lemma TidyAt(db: Db, i: int)
    requires AllTidy(db.services) && Names(db, i)
    ensures Tidy(db.services[i])
  {
    hide Tidy;
  }

  predicate AboutTable(r: Action, i: int) {
    match r
    case Characteristic(k, _, _) => k == i
    case Descriptor(k, _) => k == i
    case Included(k, _) => k == i
    case SetActive(k, _) => k == i
    case _ => false
  }

  /** Filling a table or switching a service on or off touches that service alone. */
  lemma TableStep(db: Db, r: Action, i: int)
    requires AllTidy(db.services) && AboutTable(r, i)
    ensures AllTidy(Step(db, r).services)
    ensures Sorted(db.services) ==> Sorted(Step(db, r).services)
  {
    hide AllTidy, Sorted, AddCharacteristic, AddDescriptor, AddIncluded, Tidy, Replace;
    if Names(db, i) {
      var s := db.services[i];
      TidyAt(db, i);
      match r
      case Characteristic(_, uuid, properties) =>
        CharacteristicAdded(s, uuid, properties);
        ReplaceKeeps(db, i, AddCharacteristic(s, uuid, properties));
      case Descriptor(_, uuid) =>
        DescriptorAdded(s, uuid);
        ReplaceKeeps(db, i, AddDescriptor(s, uuid));
      case Included(_, j) =>
        if Names(db, j) {
          TidyAt(db, j);
          AddIncludedAppends(s, db.services[j]);
          ReplaceKeeps(db, i, AddIncluded(s, db.services[j]));
        }
      case SetActive(_, active) =>
        ActiveTidy(s, active);
        ReplaceKeeps(db, i, s.(active := active));
    }
  }

  lemma ActiveTidy(s: Service, active: bool)
    requires Tidy(s)
    ensures Tidy(s.(active := active))
  {
  }

  lemma ReplaceKeeps(db: Db, i: int, s: Service)
    requires AllTidy(db.services) && Names(db, i) && Tidy(s)
    requires s.start == db.services[i].start && s.num == db.services[i].num
    ensures AllTidy(Replace(db, i, s).services)
    ensures Sorted(db.services) ==> Sorted(Replace(db, i, s).services)
  {
    hide Tidy, Sorted;
    ReplaceTidy(db, i, s);
    ReplaceSorted(db, i, s);
  }

  /** From a database in order, a step leads out of order exactly if it encloses a service. */
  lemma StepSorted(db: Db, r: Action)
    requires Good(db.services)
    ensures Sorted(Step(db, r).services) <==> !Encloser(db, r)
  {
    hide AllTidy, Sorted, Insert, RemoveAt, Filter, Tidy, Inserts, EnclosesSome;
    match r
    case InsertService(handle, uuid, primary, num) => InsertSorted(db, handle, uuid, primary, num);
    case AddService(uuid, primary, num) => InsertSorted(db, db.next, uuid, primary, num);
    case RemoveService(i) => if Names(db, i) { RemoveKeeps(db.services, i); }
    case Clear => NoneSorted();
    case ClearHandles(start, end) => FilterKeepsSorted(db.services, (s: Service) => !Overlaps(s, start, end));
    case Characteristic(i, uuid, properties) => TableStep(db, r, i);
    case Descriptor(i, uuid) => TableStep(db, r, i);
    case Included(i, j) => TableStep(db, r, i);
    case SetActive(i, active) => TableStep(db, r, i);
  }

  lemma NoneSorted()
    ensures Sorted([])
  {
  }

  lemma InsertSorted(db: Db, handle: int, uuid: Uuid, primary: bool, num: int)
    requires Sorted(db.services)
    ensures Sorted(Insert(db, handle, uuid, primary, num).services)
            <==> !(Inserts(db, handle, num) && EnclosesSome(db.services, handle, handle + num - 1))
  {
    hide Sorted, EnclosesSome, InsertAt;
    if Inserts(db, handle, num) {
      InsertKeepsSorted(db, handle, uuid, primary, num);
    }
  }

  // ---- runs

  function Run(db: Db, rs: seq<Action>): Db
    requires AllTidy(db.services)
    decreases |rs|
  {
    if |rs| == 0 then db
    else
      StepTidy(db, rs[0]);
      Run(Step(db, rs[0]), rs[1..])
  }

  /** No step of the run encloses a service. */
  predicate NeverEncloses(db: Db, rs: seq<Action>)
    requires AllTidy(db.services)
    decreases |rs|
  {
    if |rs| == 0 then true
    else
      StepTidy(db, rs[0]);
      !Encloser(db, rs[0]) && NeverEncloses(Step(db, rs[0]), rs[1..])
  }

  lemma {:induction false} RunKeeps(db: Db, rs: seq<Action>)
    requires Good(db.services) && NeverEncloses(db, rs)
    ensures Good(Run(db, rs).services)
    decreases |rs|
  {
    hide AllTidy, Sorted, Step, Encloser;
    if |rs| > 0 {
      StepTidy(db, rs[0]);
      StepSorted(db, rs[0]);
      RunKeeps(Step(db, rs[0]), rs[1..]);
    }
  }

  /** From an empty database, after any run that encloses no service: the services are sorted
      and disjoint, every table is a prefix with consecutive handles, and looking up a handle
      agrees with the flat table, which is ascending. */
  lemma DatabaseInOrder(rs: seq<Action>, handle: int)
    requires NeverEncloses(NEW, rs)
    ensures var db := Run(NEW, rs);
            && Good(db.services) && Ascending(Flat(db.services))
            && (forall a :: a in Flat(db.services) ==> GetAttribute(db, a.handle) == Some(a))
            && (forall a :: GetAttribute(db, handle) == Some(a) ==> a in Flat(db.services) && a.handle == handle)
  {
    hide Sorted, AllTidy, GetAttribute, Flat, Ascending, Run, NeverEncloses;
    EmptyGood();
    RunKeeps(NEW, rs);
    var db := Run(NEW, rs);
    FlatAscends(db.services);
    NoAttributeElsewhere(db, handle);
    forall a | a in Flat(db.services)
      ensures GetAttribute(db, a.handle) == Some(a)
    {
      GetAttributeAgrees(db, a);
    }
  }

  lemma EmptyGood()
    ensures Good(NEW.services)
  {
  }

  // ---- the next free handle

  /** All services end before next_handle. */
  predicate NextIsFree(db: Db) { forall i :: 0 <= i < |db.services| ==> End(db.services[i]) < db.next }

  lemma LastPlace(ss: seq<Service>, k: int, handle: int, end: int)
    requires Sorted(ss) && 0 <= k <= |ss| && handle <= end
    requires forall i :: 0 <= i < |ss| ==> End(ss[i]) < handle
    requires forall i :: k <= i < |ss| ==> end < ss[i].start
    ensures k == |ss|
  {
    var start := if k < |ss| then ss[k].start else 0;
    assert forall i :: 0 <= i < |ss| ==> ss[i].start <= End(ss[i]);
  }

  /** A service behind all others goes to the end of the list. */
  lemma InsertBehind(db: Db, handle: int, uuid: Uuid, primary: bool, num: int)
    requires Sorted(db.services) && InRange(handle, num)
    requires forall i :: 0 <= i < |db.services| ==> End(db.services[i]) < handle
    ensures Inserts(db, handle, num)
    ensures Insert(db, handle, uuid, primary, num).services == db.services + [NewService(handle, uuid, primary, num)]
  {
    var ss, end := db.services, handle + num - 1;
    RefusedExactly(ss, handle, end);
    PlaceSplits(ss, handle, end);
    var k := FindLoc(ss, handle, end).index;
    LastPlace(ss, k, handle, end);
    assert InsertAt(ss, k, NewService(handle, uuid, primary, num)) == ss + [NewService(handle, uuid, primary, num)];
  }

  /** Adding at next_handle goes to the end of the list whenever it fits below 0x10000. */
  lemma AddServiceAppends(db: Db, uuid: Uuid, primary: bool, num: int)
    requires Sorted(db.services) && NextIsFree(db) && 1 <= db.next && 1 <= num
    ensures Insert(db, db.next, uuid, primary, num).services
            == if db.next + num - 1 > MAX_HANDLE then db.services
               else db.services + [NewService(db.next, uuid, primary, num)]
  {
    if db.next + num - 1 <= MAX_HANDLE {
      InsertBehind(db, db.next, uuid, primary, num);
    }
  }

  /** An insertion keeps next_handle past every service unless the new service ends at the
      last handle, where the 16-bit counter starts again at 0. */
  lemma NextStaysFree(db: Db, handle: int, uuid: Uuid, primary: bool, num: int)
    requires Sorted(db.services) && NextIsFree(db) && 0 <= db.next <= MAX_HANDLE && Inserts(db, handle, num)
    ensures NextIsFree(Insert(db, handle, uuid, primary, num)) <==> handle + num - 1 != MAX_HANDLE
  {
    hide Sorted, FindLoc, NewService;
    var k := FindLoc(db.services, handle, handle + num - 1).index;
    var r := Insert(db, handle, uuid, primary, num);
    var svc := NewService(handle, uuid, primary, num);
    NewServiceRange(handle, uuid, primary, num);
    assert r.services[k] == svc;
    if handle + num - 1 != MAX_HANDLE {
      forall i | 0 <= i < |r.services|
        ensures End(r.services[i]) < r.next
      {
        assert r.services[i] == if i < k then db.services[i] else if i == k then svc else db.services[i - 1];
      }
    }
  }

  /** After gatt_db_clear the counter is 0, not 1 as in a new database: nothing can be added
      at next_handle until a service was inserted at a handle of its own. */
  lemma {:induction false} AddAfterClearFails(db: Db, adds: seq<Action>)
    requires AllTidy(db.services) && forall i :: 0 <= i < |adds| ==> adds[i].AddService?
    ensures Run(Step(db, Clear), adds) == Db([], 0)
    decreases |adds|
  {
    if |adds| > 0 {
      assert Step(Step(db, Clear), adds[0]) == Db([], 0);
      AddAfterClearFails(db, adds[1..]);
    }
  }

  /** Adding at next_handle works exactly if the counter is not 0 and the service fits. */
  lemma AddFitsExactly(db: Db, num: int)
    requires Sorted(db.services) && (NextIsFree(db) || db.next == 0) && 0 <= db.next && 1 <= num
    ensures Inserts(db, db.next, num) <==> 1 <= db.next && db.next + num - 1 <= MAX_HANDLE
  {
    if 1 <= db.next && db.next + num - 1 <= MAX_HANDLE {
      InsertBehind(db, db.next, PRIMARY, true, num);
    }
  }

  /** A service is inserted at a handle of its own and does not end at the last handle. */
  predicate Lifts(db: Db, r: Action) {
    r.InsertService? && Inserts(db, r.handle, r.num) && r.handle + r.num - 1 != MAX_HANDLE
  }

  lemma LiftsExactly(db: Db, r: Action)
    requires AllTidy(db.services) && db.next == 0
    ensures Step(db, r).next == 0 <==> !Lifts(db, r)
  {
    hide FindLoc, NewService, Tidy, Filter, AddCharacteristic, AddDescriptor, AddIncluded;
  }

  predicate StaysZero(db: Db, rs: seq<Action>)
    requires AllTidy(db.services)
    decreases |rs|
  {
    && db.next == 0
    && if |rs| == 0 then true
       else
         StepTidy(db, rs[0]);
         StaysZero(Step(db, rs[0]), rs[1..])
  }

  predicate NeverLifts(db: Db, rs: seq<Action>)
    requires AllTidy(db.services)
    decreases |rs|
  {
    if |rs| == 0 then true
    else
      StepTidy(db, rs[0]);
      !Lifts(db, rs[0]) && NeverLifts(Step(db, rs[0]), rs[1..])
  }

  /** After gatt_db_clear the counter stays 0, and nothing can be added at it, exactly until
      such an insertion. */
  lemma {:induction false} ZeroUntilLifted(db: Db, rs: seq<Action>)
    requires AllTidy(db.services) && db.next == 0
    ensures StaysZero(db, rs) <==> NeverLifts(db, rs)
    decreases |rs|
  {
    hide AllTidy, Step, Lifts;
    if |rs| > 0 {
      StepTidy(db, rs[0]);
      LiftsExactly(db, rs[0]);
      if !Lifts(db, rs[0]) { ZeroUntilLifted(Step(db, rs[0]), rs[1..]); }
    }
  }

  /** A service at the last handle leaves the counter at 0. */
  lemma LastHandleLeavesZero(uuid: Uuid)
    ensures var db := Insert(NEW, MAX_HANDLE, uuid, true, 1); db.next == 0 && |db.services| == 1 && !NextIsFree(db)
  {
    var s := NewService(MAX_HANDLE, uuid, true, 1);
    assert Insert(NEW, MAX_HANDLE, uuid, true, 1).services == [s];
    assert Insert(NEW, MAX_HANDLE, uuid, true, 1).services[0] == s && End(s) == MAX_HANDLE;
  }
}
