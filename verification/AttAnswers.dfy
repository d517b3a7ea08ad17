/** What a received PDU leads to, told from the log alone: which operation is outstanding, and
    that its response reaches the callback it is for. */
module AttAnswers {
  import opened Wrappers
  import opened Pdus
  import opened Att
  import opened AttLaws
  import opened AttShape
  import opened AttLedger

  // ---- the opcodes by their numbers

  /** Requests have even numbers from 0x02 to 0x12, and 0x16 and 0x18. */
  predicate IsRequest(opcode: int) { opcode % 2 == 0 && (0x02 <= opcode <= 0x12 || 0x16 <= opcode <= 0x18) }

  /** The response to a request has the next number; and there is the error response. */
  predicate IsResponse(opcode: int) { opcode == 0x01 || IsRequest(opcode - 1) }

  /** The table of opcodes and types, by formula. */
  function EntryAt(k: int): (int, Kind) {
    if k < 19 then (k + 1, if k % 2 == 1 then Req else Rsp)
    else if k < 21 then (if k == 19 then 0x52 else 0xD2, Cmd)
    else if k < 25 then (k + 1, if k % 2 == 1 then Req else Rsp)
    else if k == 25 then (0x1B, Not)
    else if k == 26 then (0x1D, Ind)
    else (0x1E, Conf)
  }

  function PlaceOf(opcode: int): int {
    if 0x01 <= opcode <= 0x13 || 0x16 <= opcode <= 0x19 then opcode - 1
    else if opcode == 0x52 then 19
    else if opcode == 0xD2 then 20
    else if opcode == 0x1B then 25
    else if opcode == 0x1D then 26
    else if opcode == 0x1E then 27
    else -1
  }

  lemma TableIs(k: int)
    requires 0 <= k < 28
    ensures |OPCODES| == 28 && OPCODES[k] == EntryAt(k)
  {
  }

  lemma {:induction false} KindFrom(table: seq<(int, Kind)>, opcode: int, k: int)
    requires |table| == 28 && 0 <= k <= 28 && forall j :: 0 <= j < 28 ==> table[j] == EntryAt(j)
    ensures FindKind(table[k..], opcode) == if PlaceOf(opcode) >= k then EntryAt(PlaceOf(opcode)).1 else Unknown
    decreases 28 - k
  {
    if k < 28 {
      assert table[k..][0] == table[k] && table[k..][1..] == table[k + 1..];
      KindFrom(table, opcode, k + 1);
      hide FindKind;
      FindOne(table[k..], opcode);
    }
  }

  lemma FindOne(table: seq<(int, Kind)>, opcode: int)
    requires |table| > 0
    ensures FindKind(table, opcode) == if table[0].0 == opcode then table[0].1 else FindKind(table[1..], opcode)
  {
  }

  lemma EntryOf(opcode: int)
    ensures PlaceOf(opcode) >= 0 ==>
              EntryAt(PlaceOf(opcode)).1 == if IsRequest(opcode) then Req
                                            else if IsResponse(opcode) then Rsp
                                            else if opcode == 0x52 || opcode == 0xD2 then Cmd
                                            else if opcode == 0x1B then Not
                                            else if opcode == 0x1D then Ind
                                            else Conf
  {
  }

  /** The table holds just these, the two write commands, notification, indication and
      confirmation. */
  lemma KindsAre(opcode: int)
    ensures KindOf(opcode) == if IsRequest(opcode) then Req
                              else if IsResponse(opcode) then Rsp
                              else if opcode == 0x52 || opcode == 0xD2 then Cmd
                              else if opcode == 0x1B then Not
                              else if opcode == 0x1D then Ind
                              else if opcode == 0x1E then Conf
                              else Unknown
  {
    hide FindKind, EntryAt;
    forall k | 0 <= k < 28
      ensures OPCODES[k] == EntryAt(k)
    {
      TableIs(k);
    }
    KindFrom(OPCODES, opcode, 0);
    assert OPCODES[0..] == OPCODES;
    EntryOf(opcode);
  }

  function PairAt(k: int): (int, int) {
    var request := if k < 9 then 2 * k + 2 else 2 * k + 4; (request, request + 1)
  }

  function RequestPlace(rsp: int): int {
    if !IsRequest(rsp - 1) then -1 else if rsp <= 0x13 then rsp / 2 - 1 else rsp / 2 - 2
  }

  lemma PairsAre(k: int)
    requires 0 <= k < 11
    ensures |RESPONSES| == 11 && RESPONSES[k] == PairAt(k)
  {
  }

  lemma {:induction false} RequestFrom(rsp: int, k: int)
    requires 0 <= k <= 11
    ensures FindRequest(RESPONSES[k..], rsp) == if RequestPlace(rsp) >= k then rsp - 1 else 0
    decreases 11 - k
  {
    assert |RESPONSES| == 11;
    if k < 11 {
      PairsAre(k);
      assert RESPONSES[k..][0] == RESPONSES[k] && RESPONSES[k..][1..] == RESPONSES[k + 1..];
      RequestFrom(rsp, k + 1);
      hide FindRequest;
      RequestOne(RESPONSES[k..], rsp);
    }
  }

  lemma RequestOne(table: seq<(int, int)>, rsp: int)
    requires |table| > 0
    ensures FindRequest(table, rsp) == if table[0].1 == rsp then table[0].0 else FindRequest(table[1..], rsp)
  {
  }

  /** The response with the next number answers a request; no other opcode answers one. */
  lemma RequestsAre(rsp: int)
    ensures RequestOf(rsp) == if IsRequest(rsp - 1) then rsp - 1 else 0
  {
    hide FindRequest;
    RequestFrom(rsp, 0);
    assert RESPONSES[0..] == RESPONSES;
  }

  // ---- what is outstanding, told from the log

  /** The request and the indication that are outstanding, and whether a request from the other
      side waits for its response. */
  datatype Out = Out(req: Option<Op>, ind: Option<Op>, owing: bool)

  function Bare(op: Option<Op>, id: int): Option<Op> {
    if op.Some? && op.value.id == id then Some(op.value.(callback := false, destroy := false)) else op
  }

  function Gone(op: Option<Op>, id: int): Option<Op> { if op.Some? && op.value.id == id then None else op }

  /** A request, an indication or a response goes out; a response, a request or an empty
      confirmation comes in; the operation is cancelled, and stays without its handlers; or it times out. */
  function See(o: Out, e: Event): Out {
    match e
    case Wire(op) =>
      if op.kind == Req then o.(req := Some(op))
      else if op.kind == Ind then o.(ind := Some(op))
      else if op.kind == Rsp then o.(owing := false)
      else o
    case Received(opcode, body) =>
      if IsResponse(opcode) then o.(req := None)
      else if IsRequest(opcode) then o.(owing := true)
      else if opcode == 0x1E && body == [] then o.(ind := None)
      else o
    case Cancelled(id) => o.(req := Bare(o.req, id), ind := Bare(o.ind, id))
    case TimedOut(id) => o.(req := Gone(o.req, id), ind := Gone(o.ind, id))
    case _ => o
  }

  function OutOf(log: seq<Event>): Out
    decreases |log|
  {
    if |log| == 0 then Out(None, None, false) else See(OutOf(log[..|log| - 1]), log[|log| - 1])
  }

  lemma OutPush(log: seq<Event>, e: Event)
    ensures OutOf(log + [e]) == See(OutOf(log), e)
  {
    assert (log + [e])[..|log|] == log;
  }

  // ---- events that change nothing

  lemma FreeOut(log: seq<Event>, op: Op)
    ensures OutOf(Free(log, op)) == OutOf(log)
  {
    hide OutOf;
    OutPush(log, Destroyed(op.id));
    OutPush(log, Freed(op.id));
    OutPush(log + [Destroyed(op.id)], Freed(op.id));
  }

  lemma SendOut(s: Bearer, a: SendArgs)
    ensures OutOf(SendOp(s, a).log) == OutOf(s.log)
  {
    hide OutOf, Encodes, Overruns, Enqueue, KindOf;
    OutPush(s.log, Accepted(OpFor(s, a)));
  }

  lemma {:induction false} SendAllOut(s: Bearer, sends: seq<SendArgs>)
    ensures OutOf(SendAll(s, sends).log) == OutOf(s.log)
    decreases |sends|
  {
    hide OutOf, SendOp;
    if |sends| > 0 {
      SendOut(s, sends[0]);
      SendAllOut(SendOp(s, sends[0]), sends[1..]);
    }
  }

  lemma CallOut(s: Bearer, op: Op, rsp: int, body: seq<int>, sends: seq<SendArgs>)
    ensures OutOf(Call(s, op, rsp, body, sends).log) == OutOf(s.log)
  {
    hide OutOf, SendAll;
    var s1 := Log(s, Called(op.id, op.opcode, rsp, body));
    OutPush(s.log, Called(op.id, op.opcode, rsp, body));
    SendAllOut(s1, sends);
  }

  lemma NotifyOneOut(s: Bearer, h: Handler, opcode: int, pdu: seq<int>, sends: seq<SendArgs>)
    ensures var t := NotifyOne(s, h, opcode, pdu, sends);
            OutOf(t.log) == OutOf(s.log) && t.pendingReq == s.pendingReq && t.pendingInd == s.pendingInd
            && t.inReq == s.inReq && t.alive == s.alive
  {
    hide OutOf, SendAll, HandlerMatches;
    var s1 := Log(s, Notified(h.id, opcode, pdu));
    OutPush(s.log, Notified(h.id, opcode, pdu));
    SendAllOut(s1, sends);
    SendAllFrame(s1, sends);
    SendAllAlive(s1, sends);
  }

  lemma {:induction false} SendAllAlive(s: Bearer, sends: seq<SendArgs>)
    ensures SendAll(s, sends).alive == s.alive
    decreases |sends|
  {
    hide Encodes, Overruns, Enqueue, KindOf;
    if |sends| > 0 { SendAllAlive(SendOp(s, sends[0]), sends[1..]); }
  }

  lemma {:induction false} NotifyFromOut(s: Bearer, hs: seq<Handler>, i: nat, opcode: int, pdu: seq<int>,
                                         sends: seq<seq<SendArgs>>)
    ensures var t := NotifyFrom(s, hs, i, opcode, pdu, sends);
            OutOf(t.log) == OutOf(s.log) && t.pendingReq == s.pendingReq && t.pendingInd == s.pendingInd
            && t.inReq == s.inReq && t.alive == s.alive
    decreases |hs| - i
  {
    hide OutOf, NotifyOne;
    if i < |hs| {
      NotifyOneOut(s, hs[i], opcode, pdu, SentBy(sends, i));
      NotifyFromOut(NotifyOne(s, hs[i], opcode, pdu, SentBy(sends, i)), hs, i + 1, opcode, pdu, sends);
    }
  }

  lemma NotifyOut(s: Bearer, opcode: int, pdu: seq<int>, sends: seq<seq<SendArgs>>)
    ensures var t := Notify(s, opcode, pdu, sends);
            OutOf(t.log) == OutOf(s.log) && t.pendingReq == s.pendingReq && t.pendingInd == s.pendingInd
            && t.inReq == s.inReq
  {
    hide OutOf, NotifyFrom, SendOp, Handled, KindOf;
    var s1 := NotifyFrom(s, s.handlers, 0, opcode, pdu, sends);
    var a := SendArgs(ERROR_RSP, [opcode, 0, 0, REQUEST_NOT_SUPPORTED], false, false);
    NotifyFromOut(s, s.handlers, 0, opcode, pdu, sends);
    SendOut(s1, a);
    SendAllFrame(s1, [a]);
    SendAllOne(s1, a);
  }

  // ---- every step keeps it

  /** What the log tells is what the slots hold. */
  predicate Told(s: Bearer) { OutOf(s.log) == Out(s.pendingReq, s.pendingInd, s.inReq) }

  /** Nothing that waits has the id of what is outstanding. */
  predicate Apart(ops: seq<Op>, s: Bearer) {
    forall i :: 0 <= i < |ops| ==>
      && (s.pendingReq.Some? ==> ops[i].id != s.pendingReq.value.id)
      && (s.pendingInd.Some? ==> ops[i].id != s.pendingInd.value.id)
  }

  lemma {:induction false} SumHas(ops: seq<Op>, i: nat)
    requires i < |ops|
    ensures Sum(ops, ops[i].id).ids >= 1
    decreases i
  {
    if i > 0 { SumHas(ops[1..], i - 1); }
  }

  lemma HeldOnce(s: Bearer, id: int)
    requires Owes(s, Nothing(), id)
    ensures StockOf(s, id).ids <= 1
  {
    hide BooksOf, Sum, Weigh, Slot, Queued, Pending;
  }

  lemma ApartIs(s: Bearer, ops: seq<Op>)
    requires ops == s.q.reqs || ops == s.q.inds || ops == s.q.writes
    requires forall id :: Owes(s, Nothing(), id)
    ensures Apart(ops, s)
  {
    hide Owes;
    forall i | 0 <= i < |ops|
      ensures s.pendingReq.Some? ==> ops[i].id != s.pendingReq.value.id
      ensures s.pendingInd.Some? ==> ops[i].id != s.pendingInd.value.id
    {
      SumHas(ops, i);
      HeldOnce(s, ops[i].id);
      hide Sum;
      SaneSums(s.q, ops[i].id);
      hide Weigh;
      OneOf(s.pendingReq, ops[i].id);
      OneOf(s.pendingInd, ops[i].id);
    }
  }

  lemma SaneSums(q: Queues, id: int)
    ensures Sum(q.reqs, id).ids >= 0 && Sum(q.inds, id).ids >= 0 && Sum(q.writes, id).ids >= 0
  {
  }

  lemma OneOf(op: Option<Op>, id: int)
    ensures Slot(op, id).ids == if op.Some? && op.value.id == id then 1 else 0
  {
  }

  lemma WriteReadyTold(s: Bearer, ok: bool, sends: seq<SendArgs>)
    requires Told(s) && Shape(s)
    ensures Told(WriteReady(s, ok, sends))
  {
    hide OutOf, Call, Free, Fits, Pick;
    if s.writer && s.io && CanPick(s) {
      var (op, q) := Pick(s);
      var s1 := s.(q := q);
      PickFits(s);
      CallOut(s1, op, ERROR_RSP, [], sends);
      CallFrame(s1, op, ERROR_RSP, [], sends);
      FreeOut(Call(s1, op, ERROR_RSP, [], sends).log, op);
      OutPush(s.log, Wire(op));
      FreeOut(s.log + [Wire(op)], op);
    }
  }

  lemma ShutDownOut(s: Bearer)
    ensures OutOf(ShutDown(s).log) == OutOf(s.log)
  {
    hide OutOf;
    OutPush(s.log, Shutdown);
  }

  lemma HandleRspTold(s: Bearer, opcode: int, pdu: seq<int>, sends: seq<SendArgs>)
    requires OutOf(s.log) == Out(None, s.pendingInd, s.inReq)
    ensures Told(HandleRsp(s, opcode, pdu, sends))
  {
    hide OutOf, Call, Free, Matches;
    if s.pendingReq.None? {
      ShutDownOut(s);
    } else {
      var op := s.pendingReq.value;
      if Matches(op, opcode, pdu) {
        CallOut(s, op, opcode, pdu, sends);
        CallFrame(s, op, opcode, pdu, sends);
        FreeOut(Call(s, op, opcode, pdu, sends).log, op);
      } else {
        CallOut(s, op, ERROR_RSP, [], sends);
        CallFrame(s, op, ERROR_RSP, [], sends);
        FreeOut(Call(s, op, ERROR_RSP, [], sends).log, op);
      }
    }
  }

  lemma HandleConfTold(s: Bearer, pdu: seq<int>, sends: seq<SendArgs>)
    requires OutOf(s.log) == Out(s.pendingReq, if pdu == [] then None else s.pendingInd, s.inReq)
    ensures Told(HandleConf(s, pdu, sends))
  {
    hide OutOf, Call, Free;
    if s.pendingInd.None? || |pdu| > 0 {
      ShutDownOut(s);
    } else {
      var op := s.pendingInd.value;
      CallOut(s, op, HANDLE_VAL_CONF, [], sends);
      CallFrame(s, op, HANDLE_VAL_CONF, [], sends);
      FreeOut(Call(s, op, HANDLE_VAL_CONF, [], sends).log, op);
    }
  }

  lemma ReceiveTold(s: Bearer, opcode: int, pdu: seq<int>, sends: seq<seq<SendArgs>>)
    requires Told(s)
    ensures Told(Receive(s, opcode, pdu, sends))
  {
    hide OutOf, HandleRsp, HandleConf, Notify, KindOf;
    var s1 := Log(s, Received(opcode, pdu));
    OutPush(s.log, Received(opcode, pdu));
    KindsAre(opcode);
    if KindOf(opcode) == Rsp {
      HandleRspTold(s1, opcode, pdu, SentBy(sends, 0));
    } else if KindOf(opcode) == Conf {
      HandleConfTold(s1, pdu, SentBy(sends, 0));
    } else {
      ShutDownOut(s1);
      NotifyOut(s1, opcode, pdu, sends);
      NotifyOut(s1.(inReq := true), opcode, pdu, sends);
    }
  }

  lemma ExpireTold(s: Bearer, op: Op, sends: seq<SendArgs>)
    requires See(OutOf(s.log), TimedOut(op.id)) == Out(s.pendingReq, s.pendingInd, s.inReq)
    ensures Told(Expire(s, op, sends))
  {
    hide OutOf, SendAll, Free;
    var s1 := Log(s, TimedOut(op.id));
    OutPush(s.log, TimedOut(op.id));
    SendAllOut(s1, sends);
    SendAllFrame(s1, sends);
    FreeOut(SendAll(s1, sends).log, op);
    ShutDownOut(Freeing(SendAll(s1, sends), op));
  }

  /** The two slots do not hold the same id. */
  predicate SlotsApart(s: Bearer) {
    s.pendingReq.Some? && s.pendingInd.Some? ==> s.pendingReq.value.id != s.pendingInd.value.id
  }

  lemma SlotsApartIs(s: Bearer)
    requires forall id :: Owes(s, Nothing(), id)
    ensures SlotsApart(s)
  {
    hide Owes;
    if s.pendingReq.Some? && s.pendingInd.Some? {
      var id := s.pendingReq.value.id;
      HeldOnce(s, id);
      SaneSums(s.q, id);
      hide Sum, Weigh;
      OneOf(s.pendingReq, id);
      OneOf(s.pendingInd, id);
    }
  }

  lemma TimeoutTold(s: Bearer, id: int, sends: seq<SendArgs>)
    requires Told(s) && SlotsApart(s)
    ensures Told(Timeout(s, id, sends))
  {
    hide OutOf, Expire;
    if s.pendingReq.Some? && s.pendingReq.value.id == id {
      ExpireTold(s.(pendingReq := None), s.pendingReq.value, sends);
    } else if s.pendingInd.Some? && s.pendingInd.value.id == id {
      ExpireTold(s.(pendingInd := None), s.pendingInd.value, sends);
    }
  }

  lemma CancelPendingOut(log: seq<Event>, op: Op)
    ensures OutOf(CancelPending(log, op)) == See(OutOf(log), Cancelled(op.id))
  {
    hide OutOf;
    OutPush(log, Cancelled(op.id));
    OutPush(log + [Cancelled(op.id)], Destroyed(op.id));
  }

  /** Cancelling what still waits. */
  lemma CancelQueuedOut(log: seq<Event>, op: Op)
    ensures OutOf(CancelQueued(log, op)) == See(OutOf(log), Cancelled(op.id))
  {
    hide OutOf, Free;
    OutPush(log, Cancelled(op.id));
    FreeOut(log + [Cancelled(op.id)], op);
  }

  lemma {:induction false} CancelEachOut(log: seq<Event>, ops: seq<Op>, s: Bearer)
    requires OutOf(log) == Out(s.pendingReq, s.pendingInd, s.inReq) && Apart(ops, s)
    ensures OutOf(CancelEach(log, ops)) == OutOf(log)
    decreases |ops|
  {
    hide OutOf, CancelQueued;
    if |ops| > 0 {
      CancelQueuedOut(log, ops[0]);
      assert Apart(ops[1..], s) by { assert forall i :: 0 <= i < |ops[1..]| ==> ops[1..][i] == ops[i + 1]; }
      CancelEachOut(CancelQueued(log, ops[0]), ops[1..], s);
    }
  }

  lemma TakenApart(s: Bearer, id: int)
    requires Apart(s.q.reqs, s) && Apart(s.q.inds, s) && Apart(s.q.writes, s)
    ensures TakeOut(s.q, id).Some? ==> Apart([TakeOut(s.q, id).value.0], s) && TakeOut(s.q, id).value.0.id == id
  {
  }

  lemma CancelTold(s: Bearer, id: int)
    requires Told(s) && SlotsApart(s) && Apart(s.q.reqs, s) && Apart(s.q.inds, s) && Apart(s.q.writes, s)
    ensures Told(Cancel(s, id))
  {
    TakenApart(s, id);
    hide OutOf, TakeOut, CancelPending, CancelQueued, Wakeup, Apart, Told;
    if s.pendingReq.Some? && s.pendingReq.value.id == id {
      CancelReqTold(s);
    } else if s.pendingInd.Some? && s.pendingInd.value.id == id {
      CancelIndTold(s);
    } else if id != 0 && TakeOut(s.q, id).Some? {
      CancelWaitingTold(s, TakeOut(s.q, id).value.0, TakeOut(s.q, id).value.1);
    }
  }

  lemma CancelReqTold(s: Bearer)
    requires Told(s) && SlotsApart(s) && s.pendingReq.Some?
    ensures var op := s.pendingReq.value;
            Told(s.(log := CancelPending(s.log, op), pendingReq := Some(Detached(op))))
  {
    hide OutOf, CancelPending;
    CancelPendingOut(s.log, s.pendingReq.value);
  }

  lemma CancelIndTold(s: Bearer)
    requires Told(s) && SlotsApart(s) && s.pendingInd.Some?
    ensures var op := s.pendingInd.value;
            Told(s.(log := CancelPending(s.log, op), pendingInd := Some(Detached(op))))
  {
    hide OutOf, CancelPending;
    CancelPendingOut(s.log, s.pendingInd.value);
  }

  lemma CancelWaitingTold(s: Bearer, op: Op, q: Queues)
    requires Told(s) && Apart([op], s)
    ensures Told(Wakeup(s.(q := q, log := CancelQueued(s.log, op))))
  {
    hide OutOf, CancelQueued;
    assert [op][0] == op;
    CancelQueuedOut(s.log, op);
  }

  lemma WakeupFrame()
    ensures forall t: Bearer :: Wakeup(t).log == t.log && Wakeup(t).pendingReq == t.pendingReq
                                && Wakeup(t).pendingInd == t.pendingInd
  {
  }

  lemma CancelSlotOut(log: seq<Event>, op: Option<Op>)
    ensures OutOf(CancelSlot(log, op)) == if op.Some? then See(OutOf(log), Cancelled(op.value.id)) else OutOf(log)
  {
    hide OutOf, CancelPending;
    if op.Some? { CancelPendingOut(log, op.value); }
  }

  lemma CancelAllTold(s: Bearer)
    requires Told(s) && SlotsApart(s) && Apart(s.q.reqs, s) && Apart(s.q.inds, s) && Apart(s.q.writes, s)
    ensures Told(CancelAll(s))
  {
    hide OutOf, CancelEach, CancelSlot, Apart;
    var log1 := CancelEach(s.log, s.q.reqs);
    var log2 := CancelEach(log1, s.q.inds);
    var log3 := CancelEach(log2, s.q.writes);
    CancelEachOut(s.log, s.q.reqs, s);
    CancelEachOut(log1, s.q.inds, s);
    CancelEachOut(log2, s.q.writes, s);
    CancelSlotOut(log3, s.pendingReq);
    CancelSlotOut(CancelSlot(log3, s.pendingReq), s.pendingInd);
  }

  lemma {:induction false} CallLostOut(log: seq<Event>, ids: seq<int>)
    ensures OutOf(CallLost(log, ids)) == OutOf(log)
    decreases |ids|
  {
    hide OutOf;
    if |ids| > 0 {
      OutPush(log, LinkLost(ids[0]));
      CallLostOut(log + [LinkLost(ids[0])], ids[1..]);
    }
  }

  lemma DisconnectTold(s: Bearer)
    requires Told(s) && SlotsApart(s) && Apart(s.q.reqs, s) && Apart(s.q.inds, s) && Apart(s.q.writes, s)
    ensures Told(Disconnect(s))
  {
    hide OutOf, CancelAll, CallLost;
    if s.io {
      var s1 := s.(io := false, writer := false, reading := false);
      assert Apart(s1.q.reqs, s1) && Apart(s1.q.inds, s1) && Apart(s1.q.writes, s1);
      hide Apart;
      CancelAllTold(s1);
      CallLostOut(CancelAll(s1).log, CancelAll(s1).disconnects);
    }
  }

  predicate OverOrTold(s: Bearer) { s.alive ==> Told(s) }

  lemma StepTold(s: Bearer, i: Input)
    requires Shape(s) && OverOrTold(s) && forall id :: Owes(s, Nothing(), id)
    ensures OverOrTold(Step(s, i))
  {
    ApartIs(s, s.q.reqs);
    ApartIs(s, s.q.inds);
    ApartIs(s, s.q.writes);
    SlotsApartIs(s);
    hide OutOf, Owes, Shape, Apart, SlotsApart, SendOp, Cancel, CancelAll, SetMtu, WriteReady, Receive, Timeout,
         Disconnect, Unref;
    if s.alive && !s.broken {
      match i
      case DoSend(args) =>
        SendOut(s, args);
        SendAllFrame(s, [args]);
        SendAllOne(s, args);
      case DoCancel(id) => CancelTold(s, id);
      case DoCancelAll => CancelAllTold(s);
      case DoRegister(_) =>
      case DoRegisterDisconnect =>
      case DoSetMtu(mtu) => SetMtuTold(s, mtu);
      case Writable(ok, sends) => WriteReadyTold(s, ok, sends);
      case Arrives(opcode, pdu, sends) => ReceiveTold(s, opcode, pdu, sends);
      case Expires(id, sends) => TimeoutTold(s, id, sends);
      case LinkDown => DisconnectTold(s);
      case DoUnref => UnrefEnds(s);
    }
  }

  lemma SetMtuTold(s: Bearer, mtu: int)
    requires Told(s)
    ensures Told(SetMtu(s, mtu))
  {
    hide OutOf;
  }

  lemma UnrefEnds(s: Bearer)
    ensures !Unref(s).alive
  {
    hide CancelAll, FreeSlot;
  }

  lemma {:induction false} RunTold(s: Bearer, inputs: seq<Input>)
    requires Shape(s) && OverOrTold(s) && forall id :: Owes(s, Nothing(), id)
    ensures var t := Run(s, inputs); Shape(t) && OverOrTold(t)
    decreases |inputs|
  {
    hide OverOrTold, Owes, Shape, Step;
    if |inputs| > 0 {
      StepTold(s, inputs[0]);
      StepShapes(s, inputs[0]);
      forall id
        ensures Owes(Step(s, inputs[0]), Nothing(), id)
      {
        StepOwes(s, inputs[0], id);
      }
      RunTold(Step(s, inputs[0]), inputs[1..]);
    }
  }

  /** In every run the log tells what is outstanding. */
  lemma OutstandingIs(inputs: seq<Input>)
    requires Run(NEW, inputs).alive
    ensures var s := Run(NEW, inputs); OutOf(s.log) == Out(s.pendingReq, s.pendingInd, s.inReq)
  {
    hide Run, OutOf, Owes;
    forall id
      ensures Owes(NEW, Nothing(), id)
    {
      NewOwes(id);
    }
    assert OverOrTold(NEW) by { NewTold(); }
    RunTold(NEW, inputs);
  }

  lemma NewTold()
    ensures OverOrTold(NEW)
  {
  }

  // ---- the next event

  lemma {:induction false} SendAllLog(s: Bearer, sends: seq<SendArgs>)
    ensures s.log <= SendAll(s, sends).log
    decreases |sends|
  {
    hide Encodes, Overruns, Enqueue, KindOf;
    if |sends| > 0 { SendAllLog(SendOp(s, sends[0]), sends[1..]); }
  }

  lemma CallLogs(s: Bearer, op: Op, rsp: int, body: seq<int>, sends: seq<SendArgs>)
    ensures var t := Call(s, op, rsp, body, sends);
            if op.callback then s.log + [Called(op.id, op.opcode, rsp, body)] <= t.log else t == s
  {
    hide SendAll;
    SendAllLog(Log(s, Called(op.id, op.opcode, rsp, body)), sends);
  }

  /** The response with the next number, or an error response of four octets that names it. */
  predicate IsAnswer(request: int, opcode: int, body: seq<int>) {
    (opcode != 0x01 && opcode == request + 1) || (opcode == 0x01 && |body| == 4 && body[0] == request)
  }

  /** A bearer that still reads. */
  predicate Reads(s: Bearer) { s.alive && !s.broken && s.io && s.reading }

  /** In every run, when a response comes in: with nothing outstanding the bearer is shut down;
      otherwise the very next event is that the callback of the outstanding request runs, if it
      was not cancelled, with the response if that answers it and with an error and no
      parameters if not. After that, nothing is outstanding. */
  lemma ResponseReachesCallback(inputs: seq<Input>, opcode: int, body: seq<int>, sends: seq<seq<SendArgs>>)
    requires var s := Run(NEW, inputs);
             Reads(s) && IsResponse(opcode)
    ensures var s := Run(NEW, inputs);
            var t := Step(s, Arrives(opcode, body, sends));
            var heard := s.log + [Received(opcode, body)];
            match OutOf(s.log).req
            case None => t.log == heard + [Shutdown] && t.shut
            case Some(op) =>
              && IsRequest(op.opcode) && t.pendingReq.None?
              && (if !op.callback then t.log == Free(heard, op)
                  else if IsAnswer(op.opcode, opcode, body) then
                    heard + [Called(op.id, op.opcode, opcode, body)] <= t.log
                  else heard + [Called(op.id, op.opcode, 0x01, [])] <= t.log)
  {
    hide Run, OutOf, KindOf, Shape, IsAnswer;
    OutstandingIs(inputs);
    RunShapes(NEW, inputs) by { NewShape(); }
    ResponseStep(Run(NEW, inputs), opcode, body, sends);
  }

  lemma MatchesIs(op: Op, opcode: int, body: seq<int>)
    requires op.kind == Req == KindOf(op.opcode) && IsResponse(opcode)
    ensures IsRequest(op.opcode) && (Matches(op, opcode, body) <==> IsAnswer(op.opcode, opcode, body))
  {
    hide KindOf, RequestOf;
    KindsAre(op.opcode);
    RequestsAre(opcode);
  }

  lemma ResponseStep(s: Bearer, opcode: int, body: seq<int>, sends: seq<seq<SendArgs>>)
    requires Reads(s) && Shape(s) && IsResponse(opcode)
    ensures var t := Step(s, Arrives(opcode, body, sends));
            var heard := s.log + [Received(opcode, body)];
            match s.pendingReq
            case None => t.log == heard + [Shutdown] && t.shut
            case Some(op) =>
              && IsRequest(op.opcode) && t.pendingReq.None?
              && (if !op.callback then t.log == Free(heard, op)
                  else if IsAnswer(op.opcode, opcode, body) then
                    heard + [Called(op.id, op.opcode, opcode, body)] <= t.log
                  else heard + [Called(op.id, op.opcode, 0x01, [])] <= t.log)
  {
    hide KindOf, IsAnswer, Call, Free, Wakeup, Fits, IsResponse, Matches;
    KindsAre(opcode);
    assert IsResponse(opcode) ==> KindOf(opcode) == Rsp by { ResponseIs(opcode); }
    var s1 := Log(s, Received(opcode, body));
    if s.pendingReq.Some? {
      var op := s.pendingReq.value;
      MatchesIs(op, opcode, body);
      var good := IsAnswer(op.opcode, opcode, body);
      AnsweredLog(s1, op, if good then opcode else 0x01, if good then body else [], SentBy(sends, 0));
    }
  }

  lemma ResponseIs(opcode: int)
    requires IsResponse(opcode)
    ensures KindOf(opcode) == Rsp
  {
    hide KindOf;
    KindsAre(opcode);
  }

  /** The end of the two handlers of answers. */
  lemma AnsweredLog(s: Bearer, op: Op, rsp: int, body: seq<int>, sends: seq<SendArgs>)
    ensures var freed := Freeing(Call(s, op, rsp, body, sends), op);
            && Wakeup(freed.(pendingReq := None)).log == Wakeup(freed.(pendingInd := None)).log == freed.log
            && Wakeup(freed.(pendingReq := None)).pendingReq == None
               && Wakeup(freed.(pendingInd := None)).pendingInd == None
            && (if op.callback then s.log + [Called(op.id, op.opcode, rsp, body)] <= freed.log
                else freed.log == Free(s.log, op))
  {
    hide Call, Free;
    CallLogs(s, op, rsp, body, sends);
    FreeGrows(Call(s, op, rsp, body, sends).log, op);
  }

  lemma NewShape()
    ensures Shape(NEW)
  {
  }

  lemma FreeGrows(log: seq<Event>, op: Op)
    ensures log <= Free(log, op)
  {
  }

  /** The same for confirmations of indications; one with parameters is not accepted. */
  lemma ConfirmationReachesCallback(inputs: seq<Input>, body: seq<int>, sends: seq<seq<SendArgs>>)
    requires Reads(Run(NEW, inputs))
    ensures var s := Run(NEW, inputs);
            var t := Step(s, Arrives(0x1E, body, sends));
            var heard := s.log + [Received(0x1E, body)];
            match OutOf(s.log).ind
            case None => t.log == heard + [Shutdown] && t.shut
            case Some(op) =>
              if body != [] then t.log == heard + [Shutdown] && t.shut && t.pendingInd == Some(op)
              else
                && t.pendingInd.None?
                && (if !op.callback then t.log == Free(heard, op)
                    else heard + [Called(op.id, op.opcode, 0x1E, [])] <= t.log)
  {
    hide Run, OutOf, KindOf, Call, Free, Wakeup;
    OutstandingIs(inputs);
    KindsAre(0x1E);
    var s := Run(NEW, inputs);
    if s.pendingInd.Some? && body == [] {
      AnsweredLog(Log(s, Received(0x1E, body)), s.pendingInd.value, 0x1E, [], SentBy(sends, 0));
    }
  }

  // ---- what is taken, and what goes out

  /** A send is taken exactly on a live link, with an opcode that is known, with a callback if
      and only if an answer will come, and if the opcode and the parameters fit the MTU. */
  lemma TakenExactly(s: Bearer, a: SendArgs)
    requires |a.pdu| < 0xFFFF
    ensures var taken := s.io && KindOf(a.opcode) != Unknown
            && (a.callback <==> IsRequest(a.opcode) || a.opcode == 0x1D)
                         && |a.pdu| + 1 <= s.mtu;
            var id := if s.nextId < 1 then 1 else s.nextId;
            if taken then SendOp(s, a).log
            == s.log + [Accepted(Op(id, KindOf(a.opcode), a.opcode, a.pdu, a.callback, a.destroy))]
            else SendOp(s, a) == s
  {
    hide KindOf, Enqueue;
    KindsAre(a.opcode);
  }

  /** What may go out now: first what needs no answer, then a request if none is outstanding,
      then an indication if none is. */
  function Next(s: Bearer): Option<Op> {
    if s.q.writes != [] then Some(s.q.writes[0])
    else if s.q.reqs != [] && s.pendingReq.None? then Some(s.q.reqs[0])
    else if s.q.inds != [] && s.pendingInd.None? then Some(s.q.inds[0])
    else None
  }

  /** When the link can be written to, just that goes out; if the write fails, its callback
      runs with an error instead and it is gone. */
  lemma GoesOut(s: Bearer, ok: bool, sends: seq<SendArgs>)
    requires s.alive && !s.broken && s.writer && s.io
    ensures var t := Step(s, Writable(ok, sends));
            match Next(s)
            case None => t == s.(writer := false)
            case Some(op) =>
              if ok && !s.shut then
                if op.kind == Req then t.log == s.log + [Wire(op)] && t.pendingReq == Some(op)
                else if op.kind == Ind then t.log == s.log + [Wire(op)] && t.pendingInd == Some(op)
                else t.log == Free(s.log + [Wire(op)], op)
              else if op.callback then s.log + [Called(op.id, op.opcode, 0x01, [])] <= t.log
              else t.log == Free(s.log, op)
  {
    hide Call, Free;
    if Next(s).Some? {
      var (op, q) := Pick(s);
      assert op == Next(s).value;
      CallLogs(s.(q := q), op, 0x01, [], sends);
      FreeGrows(Call(s.(q := q), op, 0x01, [], sends).log, op);
    }
  }

  /** bt_att_set_mtu takes everything from 23 on, the MTU of a new bearer. */
  lemma MtuTaken(s: Bearer, mtu: int)
    requires s.alive && !s.broken
    ensures NEW.mtu == 23 && Step(s, DoSetMtu(mtu)) == s.(mtu := if mtu < 23 then s.mtu else mtu)
  {
  }

  /** On a live link a handler is registered behind the others, with an id that no other
      registration on this bearer has: both kinds count on from one another, from 1. */
  lemma RegistersExactly(s: Bearer, opcode: int)
    requires s.alive && !s.broken && s.io && 0 <= s.nextRegId
    ensures var id := if s.nextRegId == 0 then 1 else s.nextRegId;
            var r, t := Step(s, DoRegister(opcode)), Step(s, DoRegisterDisconnect);
            && NEW.nextRegId == 0 && r.nextRegId == t.nextRegId == id + 1
            && r.handlers == s.handlers + [Handler(id, opcode)] && r.disconnects == s.disconnects
            && t.disconnects == s.disconnects + [id] && t.handlers == s.handlers
            && r.log == t.log == s.log
  {
  }

  // ---- timeouts and cancels

  /** A timeout is noted, and the end of it is the shutdown; an operation that is not
      outstanding has no timer. */
  lemma TimesOut(s: Bearer, id: int, sends: seq<SendArgs>)
    requires s.alive && !s.broken
    ensures var t := Step(s, Expires(id, sends));
            if (s.pendingReq.Some? && s.pendingReq.value.id == id)
            || (s.pendingInd.Some? && s.pendingInd.value.id == id) then
              && s.log + [TimedOut(id)] <= t.log && t.log[|t.log| - 1] == Shutdown && t.shut
              && (s.pendingReq.Some? && s.pendingReq.value.id == id ==> t.pendingReq.None?)
              && ((s.pendingReq.Some? ==> s.pendingReq.value.id != id) ==> t.pendingInd.None?)
            else t == s
  {
    hide Expire;
    if s.pendingReq.Some? && s.pendingReq.value.id == id {
      ExpireIs(s.(pendingReq := None), s.pendingReq.value, sends);
    } else if s.pendingInd.Some? && s.pendingInd.value.id == id {
      ExpireIs(s.(pendingInd := None), s.pendingInd.value, sends);
    }
  }

  lemma ExpireIs(s: Bearer, op: Op, sends: seq<SendArgs>)
    ensures var t := Expire(s, op, sends);
            && s.log + [TimedOut(op.id)] <= t.log && |t.log| > 0 && t.log[|t.log| - 1] == Shutdown && t.shut
            && t.pendingReq == s.pendingReq && t.pendingInd == s.pendingInd
  {
    hide SendAll, Free;
    var s1 := Log(s, TimedOut(op.id));
    SendAllLog(s1, sends);
    SendAllFrame(s1, sends);
    FreeGrows(SendAll(s1, sends).log, op);
  }

  predicate Has(ops: seq<Op>, id: int) { exists i :: 0 <= i < |ops| && ops[i].id == id }

  predicate Outstanding(s: Bearer, id: int) {
    (s.pendingReq.Some? && s.pendingReq.value.id == id) || (s.pendingInd.Some? && s.pendingInd.value.id == id)
  }

  predicate Waits(s: Bearer, id: int) { Has(s.q.reqs, id) || Has(s.q.inds, id) || Has(s.q.writes, id) }

  /** bt_att_cancel finds just the operations that are outstanding or wait. What is outstanding
      stays, without handlers; of what waits one operation with this id goes, and the others
      stay in order; nothing else is touched. */
  lemma CancelExactly(s: Bearer, id: int)
    requires id != 0
    ensures var t := Cancel(s, id);
            if Outstanding(s, id) then s.log + [Cancelled(id)] <= t.log && t.q == s.q
            else if Waits(s, id) then
              && s.log + [Cancelled(id)] <= t.log && LosesOne(s.q, t.q, id)
              && t.pendingReq == s.pendingReq && t.pendingInd == s.pendingInd
            else t == s
  {
    hide Cancel, Has, LosesOne;
    if Outstanding(s, id) { CancelOutstanding(s, id); } else { CancelWaiting(s, id); }
  }

  lemma CancelOutstanding(s: Bearer, id: int)
    requires id != 0 && Outstanding(s, id)
    ensures var t := Cancel(s, id); s.log + [Cancelled(id)] <= t.log && t.q == s.q
  {
    hide CancelPending, TakeOut, Detached;
    if s.pendingReq.Some? { CancelledFirst(s.log, s.pendingReq.value); }
    if s.pendingInd.Some? { CancelledFirst(s.log, s.pendingInd.value); }
  }

  lemma CancelWaiting(s: Bearer, id: int)
    requires id != 0 && !Outstanding(s, id)
    ensures var t := Cancel(s, id);
            if Waits(s, id) then
              && s.log + [Cancelled(id)] <= t.log && LosesOne(s.q, t.q, id)
              && t.pendingReq == s.pendingReq && t.pendingInd == s.pendingInd
            else t == s
  {
    hide CancelPending, CancelQueued, TakeOut, Has, LosesOne, Wakeup;
    TakesOut(s.q, id);
    if TakeOut(s.q, id).Some? {
      var (op, q) := TakeOut(s.q, id).value;
      CancelledFirst(s.log, op);
      WakeupKeeps(s.(q := q, log := CancelQueued(s.log, op)));
    }
  }

  lemma WakeupKeeps(s: Bearer)
    ensures var t := Wakeup(s);
            t.q == s.q && t.log == s.log && t.pendingReq == s.pendingReq && t.pendingInd == s.pendingInd
  {
  }

  lemma TakesOut(q: Queues, id: int)
    ensures match TakeOut(q, id)
            case None => !Has(q.reqs, id) && !Has(q.inds, id) && !Has(q.writes, id)
            case Some((op, r)) =>
              op.id == id && (Has(q.reqs, id) || Has(q.inds, id) || Has(q.writes, id)) && LosesOne(q, r, id)
  {
    hide IndexOf, Has, Queue.RemoveAt, Lacks;
    IndexIs(q.reqs, id);
    IndexIs(q.inds, id);
    IndexIs(q.writes, id);
  }

  /** One operation with this id is gone from one of the queues. */
  ghost predicate LosesOne(q: Queues, r: Queues, id: int) {
    || (Lacks(q.reqs, r.reqs, id) && r.inds == q.inds && r.writes == q.writes)
    || (Lacks(q.inds, r.inds, id) && r.reqs == q.reqs && r.writes == q.writes)
    || (Lacks(q.writes, r.writes, id) && r.reqs == q.reqs && r.inds == q.inds)
  }

  /** One operation with this id is gone from the list, and nothing else. */
  ghost predicate Lacks(before: seq<Op>, after: seq<Op>, id: int) {
    exists i :: 0 <= i < |before| && before[i].id == id && after == Cut(before, i)
  }

  function Cut(ops: seq<Op>, i: int): seq<Op>
    requires 0 <= i < |ops|
  {
    ops[..i] + ops[i + 1..]
  }

  lemma IndexIs(ops: seq<Op>, id: int)
    ensures var i := IndexOf(ops, id);
            && (i < |ops| <==> Has(ops, id))
            && (i < |ops| ==> ops[i].id == id && Lacks(ops, Queue.RemoveAt(ops, i), id))
  {
    var i := IndexOf(ops, id);
    if i < |ops| { assert Queue.RemoveAt(ops, i) == Cut(ops, i); }
  }

  lemma CancelledFirst(log: seq<Event>, op: Op)
    ensures log + [Cancelled(op.id)] <= CancelPending(log, op)
    ensures log + [Cancelled(op.id)] <= CancelQueued(log, op)
  {
  }

  // ---- requests from the other side

  /** In every run, when a request comes in while the response to the last one has not gone
      out, the bearer is shut down and reads no more; otherwise each handler for it is called,
      or, if there is none, the response that it is not supported is accepted. */
  lemma SecondRequestShutsDown(inputs: seq<Input>, opcode: int, body: seq<int>, sends: seq<seq<SendArgs>>)
    requires Reads(Run(NEW, inputs)) && IsRequest(opcode)
    ensures var s := Run(NEW, inputs);
            var t := Step(s, Arrives(opcode, body, sends));
            var heard := s.log + [Received(opcode, body)];
            if OutOf(s.log).owing then t.log == heard + [Shutdown] && t.shut && !t.reading
            else
              && heard <= t.log && t.shut == s.shut
              && (s.handlers == [] && 5 <= s.mtu ==>
                    exists id :: t.log == heard + [Accepted(Op(id, Rsp, 0x01, [opcode, 0, 0, 0x06], false, false))])
  {
    hide Run, OutOf, KindOf, Notify;
    OutstandingIs(inputs);
    KindsAre(opcode);
    var s := Run(NEW, inputs);
    NotifyRequest(Log(s, Received(opcode, body)).(inReq := true), opcode, body, sends);
  }

  lemma NotifyRequest(s: Bearer, opcode: int, body: seq<int>, sends: seq<seq<SendArgs>>)
    requires s.io && IsRequest(opcode)
    ensures var t := Notify(s, opcode, body, sends);
            && s.log <= t.log && t.shut == s.shut
            && (s.handlers == [] && 5 <= s.mtu ==>
                  exists id :: t.log == s.log + [Accepted(Op(id, Rsp, 0x01, [opcode, 0, 0, 0x06], false, false))])
  {
    hide NotifyFrom, SendOp, KindOf;
    KindsAre(opcode);
    KindsAre(0x01);
    NotifyFromLog(s, s.handlers, 0, opcode, body, sends);
    var s1 := NotifyFrom(s, s.handlers, 0, opcode, body, sends);
    var a := SendArgs(ERROR_RSP, [opcode, 0, 0, REQUEST_NOT_SUPPORTED], false, false);
    SendAllLog(s1, [a]);
    SendAllFrame(s1, [a]);
    SendAllOne(s1, a);
    TakenExactly(s1, a);
  }

  lemma {:induction false} NotifyFromLog(s: Bearer, hs: seq<Handler>, i: nat, opcode: int, pdu: seq<int>,
                                         sends: seq<seq<SendArgs>>)
    ensures var t := NotifyFrom(s, hs, i, opcode, pdu, sends);
            s.log <= t.log && t.shut == s.shut && (i >= |hs| ==> t == s)
    decreases |hs| - i
  {
    hide SendAll, HandlerMatches;
    if i < |hs| {
      var s1 := Log(s, Notified(hs[i].id, opcode, pdu));
      SendAllLog(s1, SentBy(sends, i));
      SendAllFrame(s1, SentBy(sends, i));
      NotifyFromLog(NotifyOne(s, hs[i], opcode, pdu, SentBy(sends, i)), hs, i + 1, opcode, pdu, sends);
    }
  }

  // ---- who hears of it

  /** For an opcode, or with 0 for every request and command. */
  predicate Wants(handler: int, opcode: int) {
    handler == opcode || (handler == 0 && (IsRequest(opcode) || opcode == 0x52 || opcode == 0xD2))
  }

  /** A handler that is registered now is called with what comes in next, after those that
      were registered before it; a signed PDU is heard by nobody. */
  lemma RegisteredIsCalled(s: Bearer, handler: int, opcode: int, body: seq<int>, sends: seq<seq<SendArgs>>)
    requires Reads(s) && 0 <= opcode < 0x100
    requires !IsResponse(opcode) && opcode != 0x1E && (IsRequest(opcode) ==> !s.inReq)
    ensures var r := Step(s, DoRegister(handler));
            var t := Step(r, Arrives(opcode, body, sends));
            var id := if s.nextRegId < 1 then 1 else s.nextRegId;
            Notifications(t.log)
            == Notifications(s.log)
               + if opcode >= 0x80 then []
                 else Matching(s.handlers, 0, opcode, body)
                      + if Wants(handler, opcode) then [Notified(id, opcode, body)] else []
  {
    hide KindOf, Notify, Notifications, Matching, HandlerMatches;
    KindsAre(opcode);
    CalledPush(s.log, Received(opcode, body));
    var r := Log(Register(s, handler), Received(opcode, body));
    assert HandlerMatches(handler, opcode) <==> Wants(handler, opcode) by { WhoMatches(handler, opcode); }
    MatchingPush(s.handlers, Handler(FreshRegId(s), handler), 0, opcode, body);
    if opcode < 0x80 {
      EveryHandlerIsCalled(r, opcode, body, sends);
      EveryHandlerIsCalled(r.(inReq := true), opcode, body, sends);
    } else {
      SignedIsDropped(r, opcode, body, sends);
      SignedIsDropped(r.(inReq := true), opcode, body, sends);
    }
  }

  lemma SignedIsDropped(s: Bearer, opcode: int, body: seq<int>, sends: seq<seq<SendArgs>>)
    requires 0x80 <= opcode < 0x100
    ensures Notify(s, opcode, body, sends) == s
  {
  }

  lemma WhoMatches(handler: int, opcode: int)
    ensures HandlerMatches(handler, opcode) <==> Wants(handler, opcode)
  {
    hide KindOf;
    KindsAre(opcode);
  }

  lemma {:induction false} MatchingPush(hs: seq<Handler>, h: Handler, i: nat, opcode: int, pdu: seq<int>)
    requires i <= |hs|
    ensures Matching(hs + [h], i, opcode, pdu)
            == Matching(hs, i, opcode, pdu) + if HandlerMatches(h.opcode, opcode) then [Notified(h.id, opcode, pdu)]
            else []
    decreases |hs| - i
  {
    hide HandlerMatches;
    if i < |hs| {
      MatchingPush(hs, h, i + 1, opcode, pdu);
    } else {
      assert Matching(hs + [h], i + 1, opcode, pdu) == [];
    }
  }

  // ---- what callbacks send

  /** Sending these now, one after the other. */
  function Asked(sends: seq<SendArgs>): seq<Input> { seq(|sends|, i requires 0 <= i < |sends| => DoSend(sends[i])) }

  lemma {:induction false} BrokenStays(s: Bearer, sends: seq<SendArgs>)
    ensures s.broken ==> SendAll(s, sends).broken
    decreases |sends|
  {
    hide Encodes, Overruns, Enqueue, KindOf;
    if |sends| > 0 { BrokenStays(SendOp(s, sends[0]), sends[1..]); }
  }

  lemma {:induction false} SendsAreAsked(s: Bearer, sends: seq<SendArgs>)
    requires s.alive && !SendAll(s, sends).broken
    ensures SendAll(s, sends) == Run(s, Asked(sends))
    decreases |sends|
  {
    hide SendOp;
    BrokenStays(s, sends);
    if |sends| > 0 {
      assert Asked(sends)[0] == DoSend(sends[0]) && Asked(sends)[1..] == Asked(sends[1..]);
      SendAllAlive(s, [sends[0]]);
      SendAllOne(s, sends[0]);
      SendsAreAsked(SendOp(s, sends[0]), sends[1..]);
    } else {
      assert Asked(sends) == [];
    }
  }

  /** So is what a notification handler sends; one that is not for this opcode sends nothing. */
  lemma HandlerSends(s: Bearer, h: Handler, opcode: int, body: seq<int>, sends: seq<SendArgs>)
    requires s.alive
    ensures var t := NotifyOne(s, h, opcode, body, sends);
            !t.broken ==>
              t == if Wants(h.opcode, opcode) then Run(s.(log := s.log + [Notified(h.id, opcode, body)]), Asked(sends))
                   else s
  {
    hide Wants, HandlerMatches, SendAll, Run;
    WhoMatches(h.opcode, opcode);
    var called := s.(log := s.log + [Notified(h.id, opcode, body)]);
    if !SendAll(called, sends).broken { SendsAreAsked(called, sends); }
  }

  /** What the callback of a response sends is sent as if asked for just after it was called,
      with the request still outstanding; then the request is destroyed. */
  lemma CallbackSends(s: Bearer, opcode: int, body: seq<int>, sends: seq<SendArgs>)
    requires Reads(s) && Shape(s) && s.pendingReq.Some? && s.pendingReq.value.callback
    requires IsResponse(opcode) && IsAnswer(s.pendingReq.value.opcode, opcode, body)
    ensures var op := s.pendingReq.value;
            var called := s.(log := s.log + [Received(opcode, body)] + [Called(op.id, op.opcode, opcode, body)]);
            var t := Step(s, Arrives(opcode, body, [sends]));
            !t.broken ==> t.log == Free(Run(called, Asked(sends)).log, op)
  {
    hide KindOf, IsAnswer, SendAll, Free, IsResponse, Matches, Run;
    ResponseIs(opcode);
    MatchesIs(s.pendingReq.value, opcode, body);
    var op := s.pendingReq.value;
    var called := s.(log := s.log + [Received(opcode, body)] + [Called(op.id, op.opcode, opcode, body)]);
    if !SendAll(called, sends).broken { SendsAreAsked(called, sends); }
  }

  // ---- the link goes down

  /** bt_att_cancel_all: all that waits is cancelled and gone, and what is outstanding loses
      its handlers; nothing else happens. */
  lemma CancelAllTellsAll(s: Bearer)
    requires s.alive && !s.broken
    ensures var t := Step(s, DoCancelAll);
            && t.log == s.log + AllDropped(s.q.reqs) + AllDropped(s.q.inds) + AllDropped(s.q.writes)
                        + LetGo(s.pendingReq) + LetGo(s.pendingInd)
            && t.q == Queues([], [], []) && t.handlers == s.handlers && t.disconnects == s.disconnects
            && (t.pendingReq.Some? <==> s.pendingReq.Some?) && (t.pendingInd.Some? <==> s.pendingInd.Some?)
            && (t.pendingReq.Some? ==> !t.pendingReq.value.callback)
               && (t.pendingInd.Some? ==> !t.pendingInd.value.callback)
  {
    hide CancelEach, CancelSlot, AllDropped, LetGo;
    var log1 := CancelEach(s.log, s.q.reqs);
    var log2 := CancelEach(log1, s.q.inds);
    var log3 := CancelEach(log2, s.q.writes);
    CancelEachIs(s.log, s.q.reqs);
    CancelEachIs(log1, s.q.inds);
    CancelEachIs(log2, s.q.writes);
    CancelSlotIs(log3, s.pendingReq);
    CancelSlotIs(CancelSlot(log3, s.pendingReq), s.pendingInd);
  }

  /** What is told when this operation is cancelled while it waits. */
  function Dropped(op: Op): seq<Event> {
    if op.destroy then [Cancelled(op.id), Destroyed(op.id), Freed(op.id)] else [Cancelled(op.id), Freed(op.id)]
  }

  function AllDropped(ops: seq<Op>): seq<Event> {
    if |ops| == 0 then [] else Dropped(ops[0]) + AllDropped(ops[1..])
  }

  /** What is told when this operation loses its handlers while it is outstanding. */
  function LetGo(op: Option<Op>): seq<Event> {
    if op.None? then []
    else if op.value.destroy then [Cancelled(op.value.id), Destroyed(op.value.id)]
    else [Cancelled(op.value.id)]
  }

  function Losses(ids: seq<int>): seq<Event> { seq(|ids|, i requires 0 <= i < |ids| => LinkLost(ids[i])) }

  /** When the link goes down, all that waits is cancelled and gone, request, indications and
      the rest in order; what is outstanding loses its handlers; then each disconnect handler
      runs once, in the order of registration. After that nothing is sent, read or taken. */
  lemma LinkDownTellsAll(s: Bearer, a: SendArgs, opcode: int)
    requires s.alive && !s.broken && s.io
    ensures var t := Step(s, LinkDown);
            && t.log == s.log + AllDropped(s.q.reqs) + AllDropped(s.q.inds) + AllDropped(s.q.writes)
                        + LetGo(s.pendingReq) + LetGo(s.pendingInd) + Losses(s.disconnects)
            && t.q == Queues([], [], []) && t.handlers == [] && t.disconnects == []
            && !t.writer && !t.reading
            && Step(t, DoSend(a)) == t && Step(t, DoRegister(opcode)) == t && Step(t, LinkDown) == t
  {
    hide CancelEach, CancelSlot, CallLost, AllDropped, Losses, LetGo;
    var log1 := CancelEach(s.log, s.q.reqs);
    var log2 := CancelEach(log1, s.q.inds);
    var log3 := CancelEach(log2, s.q.writes);
    CancelEachIs(s.log, s.q.reqs);
    CancelEachIs(log1, s.q.inds);
    CancelEachIs(log2, s.q.writes);
    CancelSlotIs(log3, s.pendingReq);
    CancelSlotIs(CancelSlot(log3, s.pendingReq), s.pendingInd);
    CallLostIs(CancelSlot(CancelSlot(log3, s.pendingReq), s.pendingInd), s.disconnects);
  }

  lemma {:induction false} CancelEachIs(log: seq<Event>, ops: seq<Op>)
    ensures CancelEach(log, ops) == log + AllDropped(ops)
    decreases |ops|
  {
    if |ops| > 0 {
      CancelEachIs(CancelQueued(log, ops[0]), ops[1..]);
      assert CancelQueued(log, ops[0]) == log + Dropped(ops[0]);
    }
  }

  lemma CancelSlotIs(log: seq<Event>, op: Option<Op>)
    ensures CancelSlot(log, op) == log + LetGo(op)
  {
  }

  lemma {:induction false} CallLostIs(log: seq<Event>, ids: seq<int>)
    ensures CallLost(log, ids) == log + Losses(ids)
    decreases |ids|
  {
    if |ids| > 0 {
      CallLostIs(log + [LinkLost(ids[0])], ids[1..]);
      assert Losses(ids) == [LinkLost(ids[0])] + Losses(ids[1..]);
    }
  }
}
