/** The discovery callbacks as they are written: a request that collects result pages, an
    iterator that moves through them, and the client operation that fills the service. */
module DiscoveryProgram {
  import opened Wrappers
  import opened Pdus
  import opened Uuids
  import opened Pages
  import opened Paging
  import opened GattDb
  import opened GattProgram
  import opened Primary
  import opened Discovery

  // ---- bt_gatt_request

  class GattRequest {
    const proc: Procedure
    const end: int
    var from: int            // start of the range that was asked for last
    var results: seq<Page>
    var phase: Phase

    ghost function View(): Request
      reads this
    {
      Request(proc, from, end, results, phase)
    }

    ghost predicate Valid()
      reads this
    {
      Stored(proc, results)
    }

    constructor (proc: Procedure, start: int, end: int)
      ensures Valid() && View() == Start(proc, start, end) && this.proc == proc && this.end == end
    {
      this.proc, this.end, from, results, phase := proc, end, start, [], Waiting;
      new;
      NothingStored(proc, start, end);
    }

    method ResultAppend(page: Page)
      modifies this`results
      ensures results == old(results) + [page]
    {
      results := results + [page];
    }

    method Complete(success: bool, ecode: int)
      modifies this`phase
      ensures phase == Done(success, ecode)
    {
      phase := Done(success, ecode);
    }

    /** read_by_grp_type_cb, discover_chrcs_cb and discover_descs_cb of gatt-helpers.c. */
    method Callback(opcode: int, pdu: seq<int>, sent: bool)
      requires Valid() && phase.Waiting?
      modifies this
      ensures Valid() && View() == OnReply(old(View()), Reply(opcode, pdu, sent))
    {
      hide Stored, LastHandle, GoesOn, PatchEnd, Fine;
      OnReplyStores(View(), Reply(opcode, pdu, sent));
      if opcode == ERROR_RSP {
        var ecode := if |pdu| != 4 then 0 else pdu[3];
        if ecode == NOT_FOUND && |results| > 0 {
          Complete(true, ecode);
        } else {
          Complete(false, ecode);
        }
        return;
      }
      if opcode != ResponseOpcode(proc) || |pdu| < MinLength(proc) {
        Complete(false, 0);
        return;
      }
      var size := SizeFrom(proc, pdu[0]);
      if size == None {
        Complete(false, 0);
        return;
      }
      if (|pdu| - 1) % size.value != 0 {
        Complete(false, 0);
        return;
      }
      AtLeastOne(|pdu| - 1, size.value);
      SizesKnown(proc, pdu[0]);
      Continue(Page(pdu[1..], size.value), sent);
    }

    /** The page is stored; either the next range is asked for or the procedure is complete. */
    method Continue(page: Page, sent: bool)
      requires phase.Waiting? && page.size >= 4 && |page.payload| >= page.size
      modifies this
      ensures View() == Store(old(View()), page, sent)
    {
      hide LastHandle, PatchEnd;
      var last := LastHandle(proc, page.payload[|page.payload| - page.size..]);
      var goesOn := if proc == Groups then last < end else last != end;
      if goesOn {
        ResultAppend(page);
        if sent {
          from := (last + 1) % 0x1_0000;
        } else {
          Complete(false, 0);
        }
        return;
      }
      if proc == Groups && last == 0xFFFF && last != end {
        ResultAppend(PatchEnd(page, end));
      } else {
        ResultAppend(page);
      }
      Complete(true, 0);
    }
  }

  // ---- bt_gatt_iter

  class Iterator {
    var pages: seq<Page>
    var pos: int

    ghost function View(): Iter
      reads this
    {
      Iter(pages, pos)
    }

    constructor (pages: seq<Page>)
      requires AllFine(pages)
      ensures View() == Iter(pages, 0) && Placed(View()) && Remaining(View()) == Elements(pages)
    {
      this.pages, pos := pages, 0;
      new;
      StartPlaced(pages);
    }

    /** The part that all bt_gatt_iter_next functions share. */
    method Next() returns (element: Option<seq<int>>)
      requires Placed(View())
      modifies this
      ensures Placed(View())
      ensures if element.None? then |old(Remaining(View()))| == 0
              else old(Remaining(View())) == [element.value] + Remaining(View())
      ensures element.None? <==> |old(pages)| == 0
      ensures element.None? ==> View() == old(View())
    {
      hide Split, Elements, Whole;
      if |pages| == 0 {
        NothingRemains(View());
        return None;
      }
      AdvanceTakesOne(View());
      var page := pages[0];
      element := Some(page.payload[pos..][..page.size]);
      pos := pos + page.size;
      if pos == |page.payload| {
        pages := pages[1..];
        pos := 0;
      }
    }

    method NextService() returns (g: Option<Group>)
      requires Placed(View()) && LongEnough(Groups, Remaining(View()))
      modifies this
      ensures Placed(View()) && LongEnough(Groups, Remaining(View()))
      ensures if g.None? then |old(ReadGroups(Remaining(View())))| == 0
              else old(ReadGroups(Remaining(View()))) == [g.value] + ReadGroups(Remaining(View()))
    {
      hide Placed, Remaining, ReadGroup;
      ghost var was := Remaining(View());
      var e := Next();
      if e == None {
        return None;
      }
      assert was[0] == e.value && was[1..] == Remaining(View());
      assert forall i :: 0 <= i < |Remaining(View())| ==> Remaining(View())[i] == was[i + 1];
      return Some(ReadGroup(e.value));
    }

    /** The end handle is taken from the element the iterator has moved to, if there is one. */
    method NextCharacteristic(end: int) returns (x: Option<Chrc>)
      requires Placed(View()) && LongEnough(Characteristics, Remaining(View()))
      modifies this
      ensures Placed(View()) && LongEnough(Characteristics, Remaining(View()))
      ensures if x.None? then old(ReadChrcs(Remaining(View()), end)) == []
              else old(ReadChrcs(Remaining(View()), end)) == [x.value] + ReadChrcs(Remaining(View()), end)
    {
      hide Placed, Remaining, ConvertUuid, GetLe16;
      ghost var was := Remaining(View());
      var e := Next();
      if e == None {
        return None;
      }
      assert was[0] == e.value && was[1..] == Remaining(View());
      assert forall i :: 0 <= i < |Remaining(View())| ==> Remaining(View())[i] == was[i + 1];
      var last := end;
      HeadRemains(View());
      if |pages| > 0 {
        HeadHandle(View());
        last := (GetLe16(pages[0].payload[pos..]) - 1) % 0x1_0000;
      }
      return Some(Chrc(GetLe16(e.value), last, GetLe16(e.value[3..]), e.value[2], ConvertUuid(e.value[5..])));
    }
  }

  // ---- the client's operation

  class DiscoveryOp {
    const svc: ServiceTable
    var pending: seq<Chrc>
    var request: GattRequest
    var since: int
    var stage: Stage

    ghost function View(): Client
      reads this, svc, svc.attributes, request
    {
      Client(svc.View(), pending, request.View(), since, stage)
    }

    ghost predicate Valid()
      reads this, svc, svc.attributes, request
    {
      svc.Valid() && request.Valid()
    }

    constructor (svc: ServiceTable, pending: seq<Chrc>)
      requires svc.Valid()
      ensures this.svc == svc && Valid() && View() == Begin(svc.View(), pending) && fresh(request)
    {
      this.svc, this.pending, stage, since := svc, pending, FindingChrcs, svc.start;
      request := new GattRequest(Characteristics, svc.start, svc.start + svc.num - 1);
    }

    /** discover_descs. */
    method DiscoverDescriptors(sent: bool)
      requires Valid()
      modifies this, svc, svc.attributes
      ensures Valid() && View() == DiscoverDescs(old(View()), sent)
      ensures request == old(request) || fresh(request)
    {
      hide Tidy, Used, AddCharacteristic, FreeIndex, Stored, DiscoverDescs;
      while |pending| > 0
        invariant Valid() && request == old(request)
        invariant DiscoverDescs(View(), sent) == DiscoverDescs(old(View()), sent)
        decreases |pending|
      {
        Unfolds(View(), sent);
        var x := pending[0];
        pending := pending[1..];
        var attr := svc.AddCharacteristicTo(x.uuid, x.properties);
        if attr == None {
          stage := Finished(false);
          return;
        }
        if attr.value.handle != x.value {
          stage := Finished(false);
          return;
        }
        var from := (x.value + 1) % 0x1_0000;
        if from > x.end {
          continue;
        }
        if !sent {
          stage := Finished(false);
          return;
        }
        request := new GattRequest(Descriptors, from, x.end);
        since, stage := from, FindingDescs;
        return;
      }
      Unfolds(View(), sent);
      ActiveStaysTidy(svc.View());
      svc.SetActive(true);
      stage := Finished(true);
    }

    /** The loop of discover_descs_cb over the descriptors that were found. */
    method AddDescriptors(it: Iterator) returns (ok: bool)
      requires Valid() && Placed(it.View()) && LongEnough(Descriptors, Remaining(it.View()))
      modifies svc.attributes, it
      ensures Valid() && ok == old(AddDescs(svc.View(), Remaining(it.View()))).1
      ensures svc.View() == old(AddDescs(svc.View(), Remaining(it.View()))).0
    {
      hide Tidy, Used, AddDescriptor, FreeIndex, Stored, AddDescs, Placed, Remaining, ConvertUuid, GetLe16;
      ghost var es := Remaining(it.View());
      ghost var was := AddDescs(svc.View(), es);
      var e := it.Next();
      while e != None
        invariant Valid() && Placed(it.View())
        invariant es == (if e.None? then [] else [e.value] + Remaining(it.View())) && LongEnough(Descriptors, es)
        invariant AddDescs(svc.View(), es) == was
        decreases |es|
      {
        AddDescsUnfolds(svc.View(), es);
        assert es[1..] == Remaining(it.View());
        assert |es[0]| >= 4;
        var attr := svc.AddDescriptorTo(ConvertUuid(e.value[2..]));
        if attr == None {
          return false;
        }
        if attr.value.handle != GetLe16(e.value) {
          return false;
        }
        es := es[1..];
        e := it.Next();
      }
      AddDescsUnfolds(svc.View(), es);
      return true;
    }

    /** The loop of discover_chrcs_cb. */
    method PushChrcs(it: Iterator, end: int)
      requires Placed(it.View()) && LongEnough(Characteristics, Remaining(it.View()))
      modifies this`pending, it
      ensures pending == old(pending) + old(ReadChrcs(Remaining(it.View()), end))
    {
      hide Placed, Remaining, ReadChrcs, LongEnough;
      ghost var left := ReadChrcs(Remaining(it.View()), end);
      ghost var want := pending + left;
      var x := it.NextCharacteristic(end);
      while x != None
        invariant Placed(it.View()) && LongEnough(Characteristics, Remaining(it.View()))
        invariant left == if x.None? then [] else [x.value] + ReadChrcs(Remaining(it.View()), end)
        invariant pending + left == want
        decreases |left|
      {
        MoveOne(pending, left);
        assert left[1..] == ReadChrcs(Remaining(it.View()), end);
        pending := pending + [x.value];
        left := left[1..];
        x := it.NextCharacteristic(end);
      }
    }

    /** discover_chrcs_cb. */
    method ChrcsCallback(sent: bool)
      requires Valid() && request.proc == Characteristics && request.phase.Done?
      modifies this, svc, svc.attributes
      ensures Valid() && View() == OnChrcs(old(View()), sent)
      ensures request == old(request) || fresh(request)
    {
      hide Tidy, Elements, ReadChrcs, DiscoverDescs, IsSize, AllFine, LongEnough, Placed, Remaining;
      var ecode := request.phase.ecode;
      if !request.phase.success {
        if ecode == NOT_FOUND {
          ActiveStaysTidy(svc.View());
          svc.SetActive(true);
          stage := Finished(true);
        } else {
          stage := Finished(false);
        }
        return;
      }
      if |request.results| == 0 {
        stage := Finished(false);
        return;
      }
      ElementsLongEnough(Characteristics, request.results);
      var it := new Iterator(request.results);
      PushChrcs(it, request.end);
      DiscoverDescriptors(sent);
    }

    /** discover_descs_cb. */
    method DescsCallback(sent: bool)
      requires Valid() && request.proc == Descriptors && request.phase.Done?
      modifies this, svc, svc.attributes
      ensures Valid() && View() == OnDescs(old(View()), sent)
      ensures request == old(request) || fresh(request)
    {
      hide Tidy, Elements, AddDescs, DiscoverDescs, IsSize, AllFine, LongEnough, Placed, Remaining;
      var ecode := request.phase.ecode;
      if !request.phase.success {
        if ecode == NOT_FOUND {
          ActiveStaysTidy(svc.View());
          svc.SetActive(true);
          stage := Finished(true);
        } else {
          stage := Finished(false);
        }
        return;
      }
      if |request.results| == 0 {
        stage := Finished(false);
        return;
      }
      ElementsLongEnough(Descriptors, request.results);
      var it := new Iterator(request.results);
      var ok := AddDescriptors(it);
      if !ok {
        stage := Finished(false);
        return;
      }
      DiscoverDescriptors(sent);
    }

    /** A response arrives: the request takes it, and calls back when it is complete. */
    method Receive(opcode: int, pdu: seq<int>, sent: bool)
      requires Valid() && Ready(View()) && !stage.Finished?
      modifies this, svc, svc.attributes, request
      ensures Valid() && View() == ClientStep(old(View()), Reply(opcode, pdu, sent))
    {
      hide Tidy, Stored, OnReply, OnChrcs, OnDescs;
      request.Callback(opcode, pdu, sent);
      if request.phase.Waiting? {
        return;
      }
      if stage.FindingChrcs? {
        ChrcsCallback(sent);
      } else {
        DescsCallback(sent);
      }
    }
  }

  /** The loop of discover_primary_cb; it stops when the database refuses a service. */
  method StorePrimaries(db: Database, it: Iterator) returns (ok: bool)
    requires db.Valid() && Placed(it.View()) && LongEnough(Groups, Remaining(it.View()))
    modifies db, it
    ensures db.Valid() && ok == old(StoreAll(db.View(), ReadGroups(Remaining(it.View())))).Some?
    ensures ok ==> db.View() == old(StoreAll(db.View(), ReadGroups(Remaining(it.View())))).value
  {
    hide Placed, Remaining, ReadGroups, LongEnough, StoreAll, Insert, Inserts, Database.Valid;
    ghost var left := ReadGroups(Remaining(it.View()));
    ghost var want := StoreAll(db.View(), left);
    var g := it.NextService();
    while g != None
      invariant db.Valid() && Placed(it.View()) && LongEnough(Groups, Remaining(it.View()))
      invariant left == if g.None? then [] else [g.value] + ReadGroups(Remaining(it.View()))
      invariant want == StoreAll(db.View(), left)
      decreases |left|
    {
      StoreAllUnfolds(db.View(), left);
      ok := StorePrimary(db, g.value);
      if !ok {
        return;
      }
      left := left[1..];
      g := it.NextService();
    }
    StoreAllEnds(db.View());
    return true;
  }

  method StorePrimary(db: Database, g: Group) returns (ok: bool)
    requires db.Valid()
    modifies db
    ensures db.Valid() && ok == Inserts(old(db.View()), g.start, Handles(g))
    ensures db.View() == Insert(old(db.View()), g.start, g.uuid, true, Handles(g))
  {
    hide Insert, Inserts, Database.Valid;
    var service := db.InsertService(g.start, g.uuid, true, (g.end - g.start + 1) % 0x1_0000);
    return service != null;
  }

  lemma StoreAllEnds(db: Db)
    ensures StoreAll(db, []) == Some(db)
  {
  }

  lemma StoreAllUnfolds(db: Db, groups: seq<Group>)
    requires |groups| > 0
    ensures var g := groups[0];
            StoreAll(db, groups)
            == if !Inserts(db, g.start, Handles(g)) then None
               else StoreAll(Insert(db, g.start, g.uuid, true, Handles(g)), groups[1..])
  {
    hide Insert, Inserts;
  }

  lemma MoveOne(a: seq<Chrc>, b: seq<Chrc>)
    requires |b| > 0
    ensures a + b == a + [b[0]] + b[1..]
  {
  }

  lemma Unfolds(c: Client, sent: bool)
    requires Tidy(c.svc)
    ensures DiscoverDescs(c, sent)
            == if |c.pending| == 0 then c.(svc := c.svc.(active := true), stage := Finished(true))
               else
                 var x, rest, n := c.pending[0], c.pending[1..], Used(c.svc.slots);
                 var svc := AddCharacteristic(c.svc, x.uuid, x.properties);
                 var from := (x.value + 1) % 0x1_0000;
                 if n + 2 > c.svc.num || c.svc.start + n + 1 != x.value then
                   c.(svc := svc, pending := rest, stage := Finished(false))
                 else if from > x.end then Again(c.(svc := svc, pending := rest), sent)
                 else if !sent then c.(svc := svc, pending := rest, stage := Finished(false))
                 else Client(svc, rest, Paging.Start(Descriptors, from, x.end), from, FindingDescs)
    ensures |c.pending| > 0 ==> Tidy(AddCharacteristic(c.svc, c.pending[0].uuid, c.pending[0].properties))
  {
    hide Tidy, Used, AddCharacteristic, Filled, FreeIndex, Start, CharacteristicValue;
    if |c.pending| > 0 {
      TidyUsed(c.svc);
      CharacteristicAdded(c.svc, c.pending[0].uuid, c.pending[0].properties);
    }
  }

  function Again(c: Client, sent: bool): Client { if Tidy(c.svc) then DiscoverDescs(c, sent) else c }

  lemma AddDescsUnfolds(svc: Service, es: seq<seq<int>>)
    requires Tidy(svc) && LongEnough(Descriptors, es)
    ensures |es| == 0 ==> AddDescs(svc, es) == (svc, true)
    ensures |es| > 0 ==>
              var s := AddDescriptor(svc, ConvertUuid(es[0][2..]));
              && Tidy(s) && LongEnough(Descriptors, es[1..])
              && AddDescs(svc, es)
                 == if Used(svc.slots) == svc.num || svc.start + Used(svc.slots) != GetLe16(es[0]) then (s, false)
                    else AddDescs(s, es[1..])
  {
    hide Tidy, Used, AddDescriptor, Filled, FreeIndex, ConvertUuid, GetLe16;
    if |es| > 0 {
      DescriptorAdded(svc, ConvertUuid(es[0][2..]));
      TidyUsed(svc);
      var rest := es[1..];
      assert forall i :: 0 <= i < |rest| ==> rest[i] == es[i + 1];
    }
  }

  lemma HeadRemains(it: Iter)
    requires Placed(it)
    ensures |it.pages| == 0 <==> |Remaining(it)| == 0
  {
    hide Split;
    if |it.pages| > 0 { AdvanceTakesOne(it); } else { NothingRemains(it); }
  }

  /** The handle at the iterator's position is the handle of the next element. */
  lemma HeadHandle(it: Iter)
    requires Placed(it) && |it.pages| > 0 && LongEnough(Characteristics, Remaining(it))
    ensures |it.pages[0].payload| >= it.pos + 2 && it.pos >= 0
    ensures |Remaining(it)| > 0 && GetLe16(it.pages[0].payload[it.pos..]) == GetLe16(Remaining(it)[0])
  {
    hide Split, Elements;
    AdvanceTakesOne(it);
    assert Current(it) == Remaining(it)[0];
  }
}
