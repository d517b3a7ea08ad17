/** The operation that walks over all services as it is written: done, at work, and still in
    pending_svcs. */
module ServicesProgram {
  import opened Paging
  import opened GattDb
  import opened GattProgram
  import opened Discovery
  import opened DiscoveryProgram
  import opened Services

  class ServiceDiscovery {
    var done: seq<ServiceTable>
    var op: DiscoveryOp
    var pendingSvcs: seq<ServiceTable>
    var finished: bool
    var success: bool

    ghost function View(): Discoverer
      reads this, done, set s | s in done :: s.attributes
      reads op, op.svc, op.svc.attributes, op.request
      reads pendingSvcs, set s | s in pendingSvcs :: s.attributes
    {
      if finished then Over(Views(done), success) else Going(Views(done), op.View(), Views(pendingSvcs))
    }

    ghost predicate Apart()
      reads this, op
    {
      && (forall s :: s in done ==> s != op.svc && s.attributes != op.svc.attributes)
      && (forall s :: s in pendingSvcs ==> s != op.svc && s.attributes != op.svc.attributes)
      && Distinct(pendingSvcs)
    }

    ghost predicate Valid()
      reads this, done, set s | s in done :: s.attributes
      reads op, op.svc, op.svc.attributes, op.request
      reads pendingSvcs, set s | s in pendingSvcs :: s.attributes
    {
      && op.Valid() && (forall s :: s in pendingSvcs ==> s.Valid())
      && (forall s, t :: s in done && t in pendingSvcs ==> s != t && s.attributes != t.attributes)
      && Apart()
    }

    constructor (svc: ServiceTable, waiting: seq<ServiceTable>)
      requires svc.Valid() && Distinct([svc] + waiting) && forall s :: s in waiting ==> s.Valid()
      ensures Valid() && !finished && fresh(op) && fresh(op.request)
      ensures View() == Going([], Begin(svc.View(), []), Views(waiting))
    {
      op := new DiscoveryOp(svc, []);
      done, pendingSvcs, finished, success := [], waiting, false, false;
      new;
      DistinctTail([svc] + waiting);
    }

    /** Services of a single handle are passed over. */
    method PassOver(ghost pending: seq<Chrc>, ghost sent: bool)
      requires Distinct(pendingSvcs)
      requires forall s, t :: s in done && t in pendingSvcs ==> s != t && s.attributes != t.attributes
      modifies this`done, this`pendingSvcs
      ensures |pendingSvcs| > 0 ==> pendingSvcs[0].start != pendingSvcs[0].start + pendingSvcs[0].num - 1
      ensures Next(Views(done), pending, Views(pendingSvcs), sent)
              == old(Next(Views(done), pending, Views(pendingSvcs), sent))
      ensures Distinct(pendingSvcs) && forall s :: s in pendingSvcs ==> s in old(pendingSvcs)
      ensures forall s, t :: s in done && t in pendingSvcs ==> s != t && s.attributes != t.attributes
    {
      hide Views, Tidy, Distinct, Next;
      while |pendingSvcs| > 0 && pendingSvcs[0].start == pendingSvcs[0].start + pendingSvcs[0].num - 1
        invariant Distinct(pendingSvcs) && forall s :: s in pendingSvcs ==> s in old(pendingSvcs)
        invariant forall s, t :: s in done && t in pendingSvcs ==> s != t && s.attributes != t.attributes
        invariant Next(Views(done), pending, Views(pendingSvcs), sent)
                  == old(Next(Views(done), pending, Views(pendingSvcs), sent))
        decreases |pendingSvcs|
      {
        NextUnfolds(Views(done), pending, Views(pendingSvcs), sent);
        ViewsTail(pendingSvcs);
        ViewsPush(done, pendingSvcs[0]);
        DistinctTail(pendingSvcs);
        done := done + [pendingSvcs[0]];
        pendingSvcs := pendingSvcs[1..];
      }
    }

    /** The first service in pending_svcs begins with whatever is still pending. */
    method BeginFirst(pending: seq<Chrc>, sent: bool)
      requires |pendingSvcs| > 0 && pendingSvcs[0].start != pendingSvcs[0].start + pendingSvcs[0].num - 1
      requires Distinct(pendingSvcs) && (forall s :: s in pendingSvcs ==> s.Valid()) && !finished
      requires forall s, t :: s in done && t in pendingSvcs ==> s != t && s.attributes != t.attributes
      modifies this
      ensures View() == old(Next(Views(done), pending, Views(pendingSvcs), sent))
      ensures !finished ==> Valid() && !op.stage.Finished? && fresh(op) && fresh(op.request)
    {
      hide Views, Tidy, Distinct, Stored, Next;
      NextUnfolds(Views(done), pending, Views(pendingSvcs), sent);
      ViewsTail(pendingSvcs);
      DistinctTail(pendingSvcs);
      if !sent {
        ViewsConcat(done, pendingSvcs);
        done := done + pendingSvcs;
        finished, success := true, false;
        return;
      }
      op := new DiscoveryOp(pendingSvcs[0], pending);
      pendingSvcs := pendingSvcs[1..];
    }

    /** The label `next`. */
    method NextService(sent: bool)
      requires Valid() && !finished
      modifies this
      ensures View() == Next(old(Views(done) + [op.svc.View()]), old(op.pending), old(Views(pendingSvcs)), sent)
      ensures !finished ==> Valid() && !op.stage.Finished? && fresh(op) && fresh(op.request)
    {
      hide Views, Tidy, Distinct, Stored, Next, Begin;
      var pending := op.pending;
      ViewsPush(done, op.svc);
      done := done + [op.svc];
      PassOver(pending, sent);
      if |pendingSvcs| == 0 {
        NextUnfolds(Views(done), pending, [], sent);
        finished, success := true, true;
        return;
      }
      BeginFirst(pending, sent);
    }

    /** A response arrives. When the service at work is done, the next one is begun; a failure
        ends the operation. */
    method Receive(opcode: int, pdu: seq<int>, sent: bool)
      requires Valid() && !finished && Fit(View()) && !op.stage.Finished?
      modifies this, op, op.svc, op.svc.attributes, op.request
      ensures View() == Step(old(View()), Reply(opcode, pdu, sent))
      ensures !finished ==> Valid() && !op.stage.Finished?
    {
      hide Views, Tidy, Ready, ClientStep, Next, Stored, Distinct;
      op.Receive(opcode, pdu, sent);
      match op.stage
      case Finished(true) =>
        NextService(sent);
      case Finished(false) =>
        ViewsPush(done, op.svc);
        ViewsConcat(done + [op.svc], pendingSvcs);
        done := done + [op.svc] + pendingSvcs;
        finished, success := true, false;
      case _ =>
    }
  }

  lemma NextUnfolds(done: seq<Service>, pending: seq<Chrc>, waiting: seq<Service>, sent: bool)
    ensures Next(done, pending, waiting, sent)
            == if |waiting| == 0 then Over(done, true)
               else if waiting[0].start == End(waiting[0]) then Next(done + [waiting[0]], pending, waiting[1..], sent)
               else if !sent then Over(done + waiting, false)
               else Going(done, Begin(waiting[0], pending), waiting[1..])
  {
  }

  lemma ViewsTail(ss: seq<ServiceTable>)
    requires |ss| > 0
    ensures Views(ss)[0] == ss[0].View() && Views(ss)[1..] == Views(ss[1..])
  {
    hide Views;
  }

  lemma ViewsConcat(a: seq<ServiceTable>, b: seq<ServiceTable>)
    ensures Views(a + b) == Views(a) + Views(b)
  {
    hide Views;
  }

  lemma DistinctTail(ss: seq<ServiceTable>)
    requires Distinct(ss) && |ss| > 0
    ensures Distinct(ss[1..]) && forall s :: s in ss[1..] ==> s in ss && s != ss[0] && s.attributes != ss[0].attributes
  {
  }
}
