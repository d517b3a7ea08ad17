/** How the discovery of services ends for every sequence of replies, also when the server
    refuses, answers nonsense, or a request does not go out. */
module DiscoveryEnds {
  import opened Pages
  import opened Paging
  import PagingReplies
  import opened GattDb
  import opened Primary
  import opened Discovery
  import S = Services

  // ---- the services

  /** The groups inserted one after the other. */
  function Inserted(db: Db, groups: seq<Group>): Db
    decreases |groups|
  {
    if |groups| == 0 then db
    else Inserted(Insert(db, groups[0].start, groups[0].uuid, true, Handles(groups[0])), groups[1..])
  }

  predicate RefusedAt(db: Db, groups: seq<Group>, k: nat)
    requires k < |groups|
  {
    !Inserts(Inserted(db, groups[..k]), groups[k].start, Handles(groups[k]))
  }

  lemma {:induction false} InsertedFirst(db: Db, groups: seq<Group>, k: nat)
    requires |groups| > 0 && k < |groups[1..]|
    ensures RefusedAt(Insert(db, groups[0].start, groups[0].uuid, true, Handles(groups[0])), groups[1..], k)
            <==> RefusedAt(db, groups, k + 1)
  {
    hide Insert, Inserts;
    assert groups[..k + 1][0] == groups[0] && groups[..k + 1][1..] == groups[1..][..k];
  }

  /** Storing the groups that were found fails if and only if the database refuses one at its
      turn; otherwise all are in it. */
  lemma {:induction false} StoredUnlessRefused(db: Db, groups: seq<Group>)
    ensures StoreAll(db, groups).None? <==> exists k: nat :: k < |groups| && RefusedAt(db, groups, k)
    ensures StoreAll(db, groups).Some? ==> StoreAll(db, groups).value == Inserted(db, groups)
    decreases |groups|
  {
    hide Insert, Inserts, RefusedAt;
    if |groups| > 0 {
      var g := groups[0];
      var next, rest := Insert(db, g.start, g.uuid, true, Handles(g)), groups[1..];
      StoredUnlessRefused(next, rest);
      assert RefusedAt(db, groups, 0) <==> !Inserts(db, g.start, Handles(g)) by { RefusedFirst(db, groups); }
      forall k: nat | k < |rest|
        ensures RefusedAt(next, rest, k) <==> RefusedAt(db, groups, k + 1)
      {
        InsertedFirst(db, groups, k);
      }
      forall k: nat | k < |groups| && RefusedAt(db, groups, k) && k > 0
        ensures RefusedAt(next, rest, k - 1)
      {
      }
    }
  }

  lemma RefusedFirst(db: Db, groups: seq<Group>)
    requires |groups| > 0
    ensures RefusedAt(db, groups, 0) <==> !Inserts(db, groups[0].start, Handles(groups[0]))
  {
    assert groups[..0] == [];
  }

  // ---- one service

  /** The service is marked active if and only if its discovery has ended well. */
  predicate ActiveWhenDone(c: Client) { c.svc.active <==> c.stage == Finished(true) }

  lemma {:induction false} DiscoverDescsActive(c: Client, sent: bool)
    requires Tidy(c.svc) && !c.svc.active
    ensures ActiveWhenDone(DiscoverDescs(c, sent))
    decreases |c.pending|
  {
    hide Tidy;
    if |c.pending| > 0 {
      var x, rest := c.pending[0], c.pending[1..];
      var svc := AddCharacteristic(c.svc, x.uuid, x.properties);
      CharacteristicAdded(c.svc, x.uuid, x.properties);
      DiscoverDescsActive(c.(svc := svc, pending := rest), sent);
    }
  }

  lemma {:induction false} AddDescsActive(svc: Service, es: seq<seq<int>>)
    requires Tidy(svc) && LongEnough(Descriptors, es)
    ensures AddDescs(svc, es).0.active == svc.active
    decreases |es|
  {
    hide Tidy, ConvertUuid;
    if |es| > 0 {
      DescriptorAdded(svc, ConvertUuid(es[0][2..]));
      AddDescsActive(AddDescriptor(svc, ConvertUuid(es[0][2..])), es[1..]);
    }
  }

  lemma StepActive(c: Client, reply: Reply)
    requires Ready(c) && ActiveWhenDone(c)
    ensures ActiveWhenDone(ClientStep(c, reply))
  {
    hide Tidy, OnReply, DiscoverDescs, AddDescs, ReadChrcs, Elements, LongEnough, AllFine, IsSize;
    if !c.stage.Finished? {
      OnReplyStores(c.request, reply);
      SameRange(c.request, reply);
      var r := OnReply(c.request, reply);
      if r.phase.Done? && r.phase.success && |r.results| > 0 {
        ElementsLongEnough(r.proc, r.results);
        if c.stage.FindingChrcs? {
          DiscoverDescsActive(c.(request := r, pending := c.pending + ReadChrcs(Elements(r.results), r.end)),
                              reply.sent);
        } else {
          var es := Elements(r.results);
          AddDescsTidy(c.svc, es);
          AddDescsActive(c.svc, es);
          DiscoverDescsActive(c.(request := r, svc := AddDescs(c.svc, es).0), reply.sent);
        }
      }
    }
  }

  /** Over any replies: a service becomes active if and only if its discovery ends well. */
  lemma {:induction false} ActiveExactlyWhenDone(c: Client, replies: seq<Reply>)
    requires Ready(c) && ActiveWhenDone(c)
    ensures ActiveWhenDone(ClientRun(c, replies))
    decreases |replies|
  {
    hide Ready, ClientStep, ActiveWhenDone;
    if |replies| > 0 {
      ClientStepReady(c, replies[0]);
      StepActive(c, replies[0]);
      ActiveExactlyWhenDone(ClientStep(c, replies[0]), replies[1..]);
    }
  }

  /** A reply that is not understood ends the discovery of the service, and it ends well only
      for Not Found in place of the first page; what was found stays as it is. After a page,
      Not Found ends the request, and the pages are used. */
  lemma OtherRepliesEndIt(c: Client, reply: Reply)
    requires Ready(c) && !c.stage.Finished? && !PagingReplies.Understood(c.request.proc, reply)
    ensures var code := if reply.opcode == 0x01 && |reply.pdu| == 4 then reply.pdu[3] else 0;
            var c' := ClientStep(c, reply);
            code != 0x0A || c.request.results == [] ==>
              && c'.stage == Finished(code == 0x0A) && c'.pending == c.pending
              && c'.svc == (if code == 0x0A then c.svc.(active := true) else c.svc)
  {
    hide Tidy, OnReply, Stored, DiscoverDescs, AddDescs, PagingReplies.Understood;
    PagingReplies.OtherRepliesEnd(c.request, reply);
    OnReplyStores(c.request, reply);
    SameRange(c.request, reply);
  }

  /** A page after which the next request does not go out ends it without success. */
  lemma RefusedPageEndsIt(c: Client, reply: Reply)
    requires Ready(c) && !c.stage.Finished? && PagingReplies.Understood(c.request.proc, reply) && !reply.sent
    requires c.request.proc != Groups
    ensures var size := PagingReplies.SizeOf(c.request.proc, reply);
            var c' := ClientStep(c, reply);
            && 4 <= size < |reply.pdu|
            && (PagingReplies.EndOf(c.request.proc, reply.pdu[1..], size) != c.request.end ==>
                  c'.stage == Finished(false) && c'.svc == c.svc && c'.pending == c.pending)
  {
    hide Tidy, OnReply, Stored, DiscoverDescs, AddDescs, PagingReplies.EndOf, PagingReplies.SizeOf;
    PagingReplies.UnderstoodIsStored(c.request, reply);
    OnReplyStores(c.request, reply);
    SameRange(c.request, reply);
  }

  // ---- one after the other

  predicate AllSingle(services: seq<Service>) {
    forall i :: 0 <= i < |services| ==> services[i].start == End(services[i])
  }

  /** When the first request for the next service does not go out, discovery is over, and well
      only if no service with more than one handle is left. */
  lemma {:induction false} RefusedStartEndsIt(done: seq<Service>, pending: seq<Chrc>, waiting: seq<Service>)
    ensures S.Next(done, pending, waiting, false) == S.Over(done + waiting, AllSingle(waiting))
    decreases |waiting|
  {
    if |waiting| > 0 {
      if waiting[0].start == End(waiting[0]) {
        RefusedStartEndsIt(done + [waiting[0]], pending, waiting[1..]);
        assert done + [waiting[0]] + waiting[1..] == done + waiting;
        assert AllSingle(waiting) <==> AllSingle(waiting[1..]) by {
          forall i | 0 < i < |waiting|
            ensures waiting[i] == waiting[1..][i - 1]
          {
          }
        }
      }
    } else {
      assert done + waiting == done;
    }
  }

  /** A service that fails ends all; one that ends well is followed by the next that has more
      than one handle, which begins with what is pending. */
  lemma ServiceEnds(x: S.Discoverer, reply: Reply)
    requires S.Fit(x) && x.Going? && ClientStep(x.client, reply).stage.Finished?
    ensures var c := ClientStep(x.client, reply);
            var x' := S.Step(x, reply);
            && (!c.stage.ok ==> x' == S.Over(x.done + [c.svc] + x.waiting, false))
            && (c.stage.ok && x.waiting == [] ==> x' == S.Over(x.done + [c.svc], true))
            && (c.stage.ok && x.waiting != [] && reply.sent && x.waiting[0].num != 1 ==>
                  x' == S.Going(x.done + [c.svc],
                                Client(x.waiting[0], c.pending,
                                       Request(Characteristics, x.waiting[0].start, End(x.waiting[0]), [], Waiting),
                                       x.waiting[0].start, FindingChrcs),
                                x.waiting[1..]))
  {
    hide ClientStep, Tidy;
  }
}
