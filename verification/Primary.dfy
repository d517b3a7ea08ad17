/** Primary service discovery as gatt-client.c uses it: the result pages are walked with the
    iterator and every service is inserted in the database. */
module Primary {
  import opened Wrappers
  import opened Uuids
  import opened Pages
  import opened Paging
  import opened GattDb
  import opened GattRuns

  /** convert_uuid_le: sixteen octets as they are, two in the Bluetooth base UUID. */
  function ConvertUuid(b: seq<int>): Uuid
    requires |b| == 2 || |b| == 16
  {
    if |b| == 16 then Uuid128(Reverse(b)) else Uuid128(BASE[..2] + [b[1], b[0]] + BASE[4..])
  }

  function Long(u: Uuid): Uuid { Uuid128(Full(u)) }

  /** What is discovered compares equal to what the server has. */
  lemma ConvertedIsSame(u: Uuid)
    requires IsUuid(u)
    ensures ConvertUuid(ToLe(u)) == Long(u) && IsUuid(Long(u)) && Same(Long(u), u)
  {
    if u.Uuid128? { ReverseTwice(u.data); }
  }

  datatype Group = Group(start: int, end: int, uuid: Uuid)

  /** bt_gatt_iter_next_service on one element. */
  function ReadGroup(e: seq<int>): Group
    requires |e| == 6 || |e| == 20
  {
    Group(GetLe16(e), GetLe16(e[2..]), ConvertUuid(e[4..]))
  }

  function ReadGroups(es: seq<seq<int>>): (r: seq<Group>)
    requires LongEnough(Groups, es)
    ensures |r| == |es|
  {
    seq(|es|, i requires 0 <= i < |es| => ReadGroup(es[i]))
  }

  function Wanted(x: Item): Group { Group(x.handle, x.last, Long(x.uuid)) }

  lemma GroupRoundTrip(x: Item)
    requires IsUuid(x.uuid)
    ensures var e := Encode(Groups, x);
            (|e| == 6 || |e| == 20) && ReadGroup(e) == Wanted(x)
  {
    var e := Encode(Groups, x);
    Le16RoundTrip(x.handle);
    Le16RoundTrip(x.last);
    ConvertedIsSame(x.uuid);
    assert e[2..][..2] == Le16(x.last) && e[4..] == ToLe(x.uuid);
  }

  // ---- insertion

  /** The number of handles is a 16-bit number. */
  function Handles(g: Group): int { (g.end - g.start + 1) % 0x1_0000 }

  /** The loop of discover_primary_cb; None when the database refuses a service. */
  function StoreAll(db: Db, groups: seq<Group>): Option<Db>
    decreases |groups|
  {
    if |groups| == 0 then Some(db)
    else
      var g := groups[0];
      if !Inserts(db, g.start, Handles(g)) then None
      else StoreAll(Insert(db, g.start, g.uuid, true, Handles(g)), groups[1..])
  }

  function Services(items: seq<Item>): (r: seq<Service>)
    requires forall i :: 0 <= i < |items| ==> items[i].handle <= items[i].last
    ensures |r| == |items|
  {
    seq(|items|, i requires 0 <= i < |items| =>
      NewService(items[i].handle, Long(items[i].uuid), true, items[i].last - items[i].handle + 1))
  }

  lemma SortedPush(ss: seq<Service>, s: Service)
    requires Sorted(ss) && Proper(s) && forall i :: 0 <= i < |ss| ==> End(ss[i]) < s.start
    ensures Sorted(ss + [s])
  {
  }

  /** Groups in ascending order go one behind the other. */
  lemma {:induction false} StoreAllAppends(db: Db, items: seq<Item>, end: int)
    requires Sorted(db.services) && Listed(Groups, items, end)
    requires |items| > 0 ==> forall i :: 0 <= i < |db.services| ==> End(db.services[i]) < items[0].handle
    requires forall i :: 0 <= i < |items| ==> items[i].handle <= items[i].last
    ensures var r := StoreAll(db, seq(|items|, i requires 0 <= i < |items| => Wanted(items[i])));
            r.Some? && r.value.services == db.services + Services(items) && Sorted(r.value.services)
    decreases |items|
  {
    hide NewService, FindLoc, Sorted, IsUuid, Full, Insert, Inserts;
    var groups := seq(|items|, i requires 0 <= i < |items| => Wanted(items[i]));
    if |items| > 0 {
      var x := items[0];
      var g := Wanted(x);
      assert groups[0] == g;
      assert Handles(g) == x.last - x.handle + 1;
      var s := NewService(g.start, g.uuid, true, Handles(g));
      NewServiceRange(g.start, g.uuid, true, Handles(g));
      InsertBehind(db, g.start, g.uuid, true, Handles(g));
      SortedPush(db.services, s);
      var db1 := Insert(db, g.start, g.uuid, true, Handles(g));
      ListedTail(Groups, items, end);
      assert forall i :: 0 <= i < |db1.services| ==> End(db1.services[i]) <= x.last;
      StoreAllAppends(db1, items[1..], end);
      assert groups[1..] == seq(|items[1..]|, i requires 0 <= i < |items[1..]| => Wanted(items[1..][i]));
      assert Services(items) == [s] + Services(items[1..]);
    }
  }

  /** discover_primary_cb for a request that ended. */
  function OnPrimary(db: Db, r: Request): Option<Db>
    requires r.proc == Groups && Stored(Groups, r.results)
  {
    if r.phase.Waiting? || !r.phase.success || |r.results| == 0 then Some(db)
    else
      ElementsLongEnough(Groups, r.results);
      StoreAll(db, ReadGroups(Elements(r.results)))
  }

  lemma {:induction false} ServeStores(r: Request, replies: seq<Reply>)
    requires Stored(r.proc, r.results)
    ensures Stored(r.proc, Serve(r, replies).results) && Serve(r, replies).proc == r.proc
    decreases |replies|
  {
    hide Stored, OnReply;
    if |replies| > 0 {
      OnReplyStores(r, replies[0]);
      SameRange(r, replies[0]);
      ServeStores(OnReply(r, replies[0]), replies[1..]);
    }
  }

  /** Whatever pages the server cuts its list of primary services into: when discovery has
      ended, the empty database holds exactly the server's services, in order, each with its
      first handle, its number of handles and a UUID that compares equal. */
  lemma PrimaryDiscovery(start: int, end: int, items: seq<Item>, replies: seq<Reply>)
    requires Listed(Groups, items, end) && (|items| > 0 ==> start <= items[0].handle)
    requires forall i :: 0 <= i < |items| ==> items[i].handle <= items[i].last
    requires Session(Start(Groups, start, end), items, replies)
    requires Serve(Start(Groups, start, end), replies).phase.Done?
    ensures var r := Serve(Start(Groups, start, end), replies);
            && r.proc == Groups && Stored(Groups, r.results)
            && var db := OnPrimary(NEW, r);
               db.Some? && db.value.services == Services(items) && Sorted(db.value.services)
    ensures |replies| <= |items| + 1
  {
    hide Serve, Session, Listed, Stored, StoreAll, Elements, AllFine, Sorted;
    var r := Serve(Start(Groups, start, end), replies);
    NothingStored(Groups, start, end);
    ServeStores(Start(Groups, start, end), replies);
    PagedDiscovery(Groups, start, end, items, replies);
    NewSorted();
    if r.phase.success {
      var es := Elements(r.results);
      ElementsLongEnough(Groups, r.results);
      GroupsRead(items, es, end);
      StoreAllAppends(NEW, items, end);
      assert [] + Services(items) == Services(items);
      ResultsExist(r, items);
    } else {
      assert Services(items) == [];
    }
  }

  lemma NewSorted()
    ensures Sorted(NEW.services)
  {
  }

  lemma NothingStored(proc: Procedure, start: int, end: int)
    ensures Stored(proc, Start(proc, start, end).results)
  {
  }

  lemma ResultsExist(r: Request, items: seq<Item>)
    requires AllFine(r.results) && Elements(r.results) == EncodeAll(r.proc, items) && |items| > 0
    ensures |r.results| > 0
  {
  }

  lemma GroupsRead(items: seq<Item>, es: seq<seq<int>>, end: int)
    requires es == EncodeAll(Groups, items) && LongEnough(Groups, es) && Listed(Groups, items, end)
    ensures ReadGroups(es) == seq(|items|, i requires 0 <= i < |items| => Wanted(items[i]))
  {
    hide Encode, IsUuid, ReadGroup, Wanted;
    forall i | 0 <= i < |items|
      ensures ReadGroups(es)[i] == Wanted(items[i])
    {
      GroupRoundTrip(items[i]);
    }
  }
}
