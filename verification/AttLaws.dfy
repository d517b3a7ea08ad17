/** Conservation of operations on the bearer: every operation that bt_att_send takes is in
    exactly one place until it is freed, its destroy handler runs exactly once, and its
    response callback runs at most once and never after a cancel or a destroy. All of it is
    bookkeeping for one id at a time. */
module AttLaws {
  import opened Wrappers
  import opened Queue
  import opened Att

  // ---- the books kept about one id

  function IdOf(e: Event): int {
    match e
    case Accepted(op) => op.id
    case Wire(op) => op.id
    case Called(id, _, _, _) => id
    case Cancelled(id) => id
    case TimedOut(id) => id
    case Destroyed(id) => id
    case Freed(id) => id
    case _ => 0
  }

  /** After one of these the response callback must not run any more. */
  predicate IsEnd(e: Event) { e.Cancelled? || e.TimedOut? || e.Destroyed? || e.Freed? }

  /** How often the id was accepted, accepted with a destroy handler, accepted with a
      callback, called, given up, destroyed, freed, ended; and whether it was never called after
      that. Cancelling it and letting it time out is giving it up. */
  datatype Books = Books(accepted: int, owed: int, awaited: int, called: int, dropped: int, destroyed: int, freed: int,
                         ended: int, orderly: bool)

  function One(b: bool): int { if b then 1 else 0 }

  function Enter(b: Books, e: Event, id: int): Books {
    if IdOf(e) != id then b
    else
      Books(b.accepted + One(e.Accepted?),
            b.owed + One(e.Accepted? && e.op.destroy),
            b.awaited + One(e.Accepted? && e.op.callback),
            b.called + One(e.Called?),
            b.dropped + One(e.Cancelled? || e.TimedOut?),
            b.destroyed + One(e.Destroyed?),
            b.freed + One(e.Freed?),
            b.ended + One(IsEnd(e)),
            b.orderly && (e.Called? ==> b.ended == 0))
  }

  function BooksOf(log: seq<Event>, id: int): (b: Books)
    ensures 0 <= b.ended
    decreases |log|
  {
    if |log| == 0 then Books(0, 0, 0, 0, 0, 0, 0, 0, true)
    else Enter(BooksOf(log[..|log| - 1], id), log[|log| - 1], id)
  }

  lemma BooksPush(log: seq<Event>, e: Event, id: int)
    ensures BooksOf(log + [e], id) == Enter(BooksOf(log, id), e, id)
  {
    assert (log + [e])[..|log|] == log;
  }

  /** The books' last column means what it says. */
  lemma {:induction false} OrderlyMeans(log: seq<Event>, id: int, i: nat, j: nat)
    requires BooksOf(log, id).orderly && i < j < |log|
    requires IsEnd(log[i]) && IdOf(log[i]) == id
    ensures !(log[j].Called? && log[j].id == id)
    decreases |log|
  {
    if j < |log| - 1 {
      OrderlyMeans(log[..|log| - 1], id, i, j);
    } else {
      EndedCounted(log[..|log| - 1], id, i);
    }
  }

  lemma {:induction false} EndedCounted(log: seq<Event>, id: int, i: nat)
    requires i < |log| && IsEnd(log[i]) && IdOf(log[i]) == id
    ensures BooksOf(log, id).ended > 0
    decreases |log|
  {
    if i < |log| - 1 {
      EndedCounted(log[..|log| - 1], id, i);
    }
  }

  // ---- what operations still stand for, as far as one id is concerned

  /** How many operations, destroy handlers and response callbacks with this id there are. */
  datatype Stock = Stock(ids: int, owed: int, due: int)

  function Nothing(): Stock { Stock(0, 0, 0) }

  function Weigh(op: Op, id: int): Stock {
    Stock(One(op.id == id), One(op.id == id && op.destroy), One(op.id == id && op.callback))
  }

  /** rest and op together. */
  function With(rest: Stock, op: Op, id: int): Stock {
    Stock(rest.ids + One(op.id == id), rest.owed + One(op.id == id && op.destroy),
          rest.due + One(op.id == id && op.callback))
  }

  lemma WithIs(rest: Stock, op: Op, id: int)
    ensures With(rest, op, id) == Plus(rest, Weigh(op, id))
  {
  }

  predicate Same(a: Stock, b: Stock) { a.ids == b.ids && a.owed == b.owed && a.due == b.due }

  predicate Sane(st: Stock) { 0 <= st.due <= st.ids && 0 <= st.owed }

  function Plus(a: Stock, b: Stock): Stock {
    Stock(a.ids + b.ids, a.owed + b.owed, a.due + b.due)
  }

  function Sum(ops: seq<Op>, id: int): (st: Stock)
    ensures Sane(st)
    decreases |ops|
  {
    if |ops| == 0 then Nothing() else Plus(Weigh(ops[0], id), Sum(ops[1..], id))
  }

  function Slot(op: Option<Op>, id: int): Stock { if op.None? then Nothing() else Weigh(op.value, id) }

  lemma {:induction false} SumAppend(a: seq<Op>, b: seq<Op>, id: int)
    ensures Sum(a + b, id) == Plus(Sum(a, id), Sum(b, id))
    decreases |a|
  {
    if |a| == 0 {
      assert a + b == b;
    } else {
      assert (a + b)[0] == a[0] && (a + b)[1..] == a[1..] + b;
      SumAppend(a[1..], b, id);
    }
  }

  lemma SumOne(op: Op, id: int)
    ensures Sum([op], id) == Weigh(op, id)
  {
    var l := [op];
    assert l[1..] == [];
  }

  lemma SumPush(a: seq<Op>, op: Op, id: int)
    ensures Sum(a + [op], id) == Plus(Sum(a, id), Weigh(op, id))
  {
    SumAppend(a, [op], id);
    SumOne(op, id);
  }

  lemma SumRemove(a: seq<Op>, i: nat, id: int)
    requires i < |a|
    ensures Sum(a, id) == Plus(Sum(RemoveAt(a, i), id), Weigh(a[i], id))
  {
    Slices(a, i, a[i]);
    assert a == (a[..i] + [a[i]]) + a[i + 1..];
    SumAppend(a[..i] + [a[i]], a[i + 1..], id);
    SumPush(a[..i], a[i], id);
    SumAppend(a[..i], a[i + 1..], id);
  }

  function Queued(q: Queues, id: int): Stock {
    Plus(Sum(q.reqs, id), Plus(Sum(q.inds, id), Sum(q.writes, id)))
  }

  function Pending(s: Bearer, id: int): Stock { Plus(Slot(s.pendingReq, id), Slot(s.pendingInd, id)) }

  function StockOf(s: Bearer, id: int): Stock { Plus(Pending(s, id), Queued(s.q, id)) }

  // ---- the laws

  /** An operation is accepted once, is held or freed, owes a destroy or has had it, and is
      called at most once, while it has not ended. */
  ghost predicate Laws(b: Books, st: Stock, nextId: int, id: int) {
    && b.accepted == st.ids + b.freed
    && b.owed == st.owed + b.destroyed
    && b.called + st.due <= b.awaited <= b.called + st.due + b.dropped
    && b.owed <= b.accepted && b.awaited <= b.accepted <= One(1 <= id < nextId)
    && 0 <= b.called && 0 <= b.dropped && 0 <= b.freed && 0 <= b.destroyed && 0 <= b.ended
    && (st.due > 0 ==> b.ended == 0)
    && (b.ended > 0 ==> 1 <= id < nextId)
    && b.orderly
  }

  lemma LawNeutral(b: Books, st: Stock, nextId: int, e: Event, id: int)
    requires Laws(b, st, nextId, id) && (e.Wire? || e.Received? || e.Notified? || e.LinkLost? || e.Shutdown?)
    ensures Laws(Enter(b, e, id), st, nextId, id)
  {
  }

  lemma LawAccept(b: Books, st: Stock, nextId: int, op: Op, id: int)
    requires Laws(b, st, nextId, id) && op.id == (if nextId < 1 then 1 else nextId)
    ensures Laws(Enter(b, Accepted(op), id), With(st, op, id), op.id + 1, id)
  {
  }

  /** The callback of op runs; from then on op stands for no callback. */
  lemma LawCall(b: Books, rest: Stock, op: Op, nextId: int, e: Event, id: int)
    requires Laws(b, With(rest, op, id), nextId, id) && op.callback && e.Called? && e.id == op.id && Sane(rest)
    ensures Laws(Enter(b, e, id), With(rest, op.(callback := false), id), nextId, id)
  {
  }

  lemma LawCancel(b: Books, rest: Stock, op: Op, nextId: int, id: int)
    requires Laws(b, With(rest, op, id), nextId, id) && Sane(rest)
    ensures Laws(Enter(b, Cancelled(op.id), id), With(rest, op.(callback := false), id), nextId, id)
  {
  }

  lemma LawTimedOut(b: Books, rest: Stock, op: Op, nextId: int, id: int)
    requires Laws(b, With(rest, op, id), nextId, id) && Sane(rest)
    ensures Laws(Enter(b, TimedOut(op.id), id), With(rest, op.(callback := false), id), nextId, id)
  {
  }

  lemma LawDestroy(b: Books, rest: Stock, op: Op, nextId: int, id: int)
    requires Laws(b, With(rest, op, id), nextId, id) && op.destroy && !op.callback && Sane(rest)
    ensures Laws(Enter(b, Destroyed(op.id), id), With(rest, Detached(op), id), nextId, id)
  {
  }

  lemma LawFreed(b: Books, rest: Stock, op: Op, nextId: int, id: int)
    requires Laws(b, With(rest, op, id), nextId, id) && !op.destroy && !op.callback && Sane(rest)
    ensures Laws(Enter(b, Freed(op.id), id), rest, nextId, id)
  {
  }

  // ---- every step of a transition keeps the books

  /** The books on this log about id are right if st is what is held. */
  ghost predicate Booked(log: seq<Event>, nextId: int, st: Stock, id: int) {
    Sane(st) && Laws(BooksOf(log, id), st, nextId, id)
  }

  lemma NoteBooked(log: seq<Event>, n: int, e: Event, st: Stock, id: int)
    requires Booked(log, n, st, id) && (e.Wire? || e.Received? || e.Notified? || e.LinkLost? || e.Shutdown?)
    ensures Booked(log + [e], n, st, id)
  {
    BooksPush(log, e, id);
    LawNeutral(BooksOf(log, id), st, n, e, id);
  }

  lemma AcceptBooked(log: seq<Event>, n: int, op: Op, st: Stock, id: int)
    requires Booked(log, n, st, id) && op.id == (if n < 1 then 1 else n)
    ensures Booked(log + [Accepted(op)], op.id + 1, With(st, op, id), id)
  {
    BooksPush(log, Accepted(op), id);
    LawAccept(BooksOf(log, id), st, n, op, id);
  }

  lemma CallBooked(log: seq<Event>, n: int, op: Op, rsp: int, body: seq<int>, st: Stock, id: int)
    requires Booked(log, n, With(st, op, id), id) && Sane(st) && op.callback
    ensures Booked(log + [Called(op.id, op.opcode, rsp, body)], n, With(st, op.(callback := false), id), id)
  {
    var e := Called(op.id, op.opcode, rsp, body);
    BooksPush(log, e, id);
    LawCall(BooksOf(log, id), st, op, n, e, id);
  }

  lemma CancelBooked(log: seq<Event>, n: int, op: Op, st: Stock, id: int)
    requires Booked(log, n, With(st, op, id), id) && Sane(st)
    ensures Booked(log + [Cancelled(op.id)], n, With(st, op.(callback := false), id), id)
  {
    BooksPush(log, Cancelled(op.id), id);
    LawCancel(BooksOf(log, id), st, op, n, id);
  }

  lemma TimedOutBooked(log: seq<Event>, n: int, op: Op, st: Stock, id: int)
    requires Booked(log, n, With(st, op, id), id) && Sane(st)
    ensures Booked(log + [TimedOut(op.id)], n, With(st, op.(callback := false), id), id)
  {
    BooksPush(log, TimedOut(op.id), id);
    LawTimedOut(BooksOf(log, id), st, op, n, id);
  }

  lemma DestroyBooked(log: seq<Event>, n: int, op: Op, st: Stock, id: int)
    requires Booked(log, n, With(st, op, id), id) && Sane(st) && !op.callback
    ensures Booked(if op.destroy then log + [Destroyed(op.id)] else log, n, With(st, op.(destroy := false), id), id)
  {
    if op.destroy {
      BooksPush(log, Destroyed(op.id), id);
      LawDestroy(BooksOf(log, id), st, op, n, id);
    }
  }

  lemma FreeBooked(log: seq<Event>, n: int, op: Op, st: Stock, id: int)
    requires Booked(log, n, With(st, op, id), id) && Sane(st) && !op.callback
    ensures Booked(Free(log, op), n, st, id)
  {
    var log1 := if op.destroy then log + [Destroyed(op.id)] else log;
    var op1 := op.(destroy := false);
    DestroyBooked(log, n, op, st, id);
    BooksPush(log1, Freed(op.id), id);
    LawFreed(BooksOf(log1, id), st, op1, n, id);
  }

  lemma CancelQueuedBooked(log: seq<Event>, n: int, op: Op, st: Stock, id: int)
    requires Booked(log, n, With(st, op, id), id) && Sane(st)
    ensures Booked(CancelQueued(log, op), n, st, id)
  {
    CancelBooked(log, n, op, st, id);
    FreeBooked(log + [Cancelled(op.id)], n, op.(callback := false), st, id);
  }

  lemma CancelPendingBooked(log: seq<Event>, n: int, op: Op, st: Stock, id: int)
    requires Booked(log, n, With(st, op, id), id) && Sane(st)
    ensures Booked(CancelPending(log, op), n, With(st, Detached(op), id), id)
  {
    CancelBooked(log, n, op, st, id);
    DestroyBooked(log + [Cancelled(op.id)], n, op.(callback := false), st, id);
  }

  lemma TakeFirst(ops: seq<Op>, st: Stock, id: int)
    requires |ops| > 0
    ensures Plus(st, Sum(ops, id)) == With(Plus(st, Sum(ops[1..], id)), ops[0], id)
  {
  }

  lemma {:induction false} CancelEachBooked(log: seq<Event>, n: int, ops: seq<Op>, st: Stock, id: int)
    requires Booked(log, n, Plus(st, Sum(ops, id)), id) && Sane(st)
    ensures Booked(CancelEach(log, ops), n, st, id)
    decreases |ops|
  {
    hide Booked, Sum, With, CancelQueued;
    if |ops| > 0 {
      TakeFirst(ops, st, id);
      CancelQueuedBooked(log, n, ops[0], Plus(st, Sum(ops[1..], id)), id);
      CancelEachBooked(CancelQueued(log, ops[0]), n, ops[1..], st, id);
    } else {
      NothingLeft(st, id);
    }
  }

  lemma NothingLeft(st: Stock, id: int)
    ensures Plus(st, Sum([], id)) == st
  {
  }

  // ---- what is in the queues

  lemma EnqueueWeighs(q: Queues, op: Op, id: int)
    ensures Queued(Enqueue(q, op), id) == Plus(Queued(q, id), Weigh(op, id))
  {
    if op.kind == Req {
      SumPush(q.reqs, op, id);
    } else if op.kind == Ind {
      SumPush(q.inds, op, id);
    } else {
      SumPush(q.writes, op, id);
    }
  }

  lemma PickWeighs(s: Bearer, id: int)
    requires CanPick(s)
    ensures var (op, q) := Pick(s);
            Same(Queued(s.q, id), Plus(Queued(q, id), Weigh(op, id)))
  {
    var q := s.q;
    if |q.writes| > 0 {
      assert Sum(q.writes, id) == Plus(Weigh(q.writes[0], id), Sum(q.writes[1..], id));
    } else if s.pendingReq.None? && |q.reqs| > 0 {
      assert Sum(q.reqs, id) == Plus(Weigh(q.reqs[0], id), Sum(q.reqs[1..], id));
    } else {
      assert Sum(q.inds, id) == Plus(Weigh(q.inds[0], id), Sum(q.inds[1..], id));
    }
  }

  lemma TakeOutWeighs(q: Queues, target: int, id: int)
    ensures match TakeOut(q, target)
            case None => true
            case Some((op, q')) => Same(Queued(q, id), Plus(Queued(q', id), Weigh(op, id)))
  {
    var i, j, k := IndexOf(q.reqs, target), IndexOf(q.inds, target), IndexOf(q.writes, target);
    if i < |q.reqs| {
      SumRemove(q.reqs, i, id);
    } else if j < |q.inds| {
      SumRemove(q.inds, j, id);
    } else if k < |q.writes| {
      SumRemove(q.writes, k, id);
    }
  }
}
