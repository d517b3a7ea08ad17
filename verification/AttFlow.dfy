/** The sequential protocol over whole runs, checked by an observer that reads only the log. */
module AttFlow {
  import opened Wrappers
  import opened Pdus
  import opened Queue
  import opened Att
  import opened AttShape

  // ---- the observer

  /** One class of outgoing PDUs: the operation that waits for an answer (0 for none) and the
      last one that went out. */
  datatype Lane = Lane(out: int, last: int)

  /** What was accepted, what was heard last, which operation it may answer, and whether
      everything so far was in order. */
  datatype Flow = Flow(ok: bool, closed: bool, req: Lane, ind: Lane, rest: Lane,
                       taken: set<Op>, heard: int, body: seq<int>, answers: int)

  function Start(): Flow { Flow(true, false, Lane(0, 0), Lane(0, 0), Lane(0, 0), {}, 0, [], 0) }

  function LaneOf(f: Flow, kind: Kind): Lane {
    if kind == Req then f.req else if kind == Ind then f.ind else f.rest
  }

  /** A PDU may go out before shutdown, if it was accepted, after everything of its class that
      went out before was accepted earlier, and when nothing of its class is outstanding. */
  predicate MayGoOut(f: Flow, op: Op) {
    var lane := LaneOf(f, op.kind);
    !f.closed && op in f.taken && lane.out == 0 && lane.last < op.id
  }

  /** A callback gets an error, or the very PDU just heard: one that answers this request. */
  predicate MayBeCalled(f: Flow, id: int, request: int, rsp: int, body: seq<int>) {
    rsp == ERROR_RSP
    || (rsp == f.heard && body == f.body && id == f.answers
        && (RequestOf(rsp) == request || (rsp == HANDLE_VAL_CONF && KindOf(request) == Ind)))
  }

  function GoneOut(f: Flow, op: Op): Flow {
    f.(ok := f.ok && MayGoOut(f, op),
       req := if op.kind == Req then Lane(op.id, op.id) else f.req,
       ind := if op.kind == Ind then Lane(op.id, op.id) else f.ind,
       rest := if op.kind != Req && op.kind != Ind then Lane(0, op.id) else f.rest)
  }

  /** A response settles the request, an empty confirmation the indication. */
  function Hear(f: Flow, opcode: int, body: seq<int>): Flow {
    var kind := KindOf(opcode);
    var conf := kind == Conf && |body| == 0;
    f.(heard := opcode, body := body,
       answers := if kind == Rsp then f.req.out else if conf then f.ind.out else 0,
       req := if kind == Rsp then f.req.(out := 0) else f.req,
       ind := if conf then f.ind.(out := 0) else f.ind)
  }

  function Watch(f: Flow, e: Event): Flow {
    match e
    case Accepted(op) => f.(taken := f.taken + {op})
    case Wire(op) => GoneOut(f, op)
    case Called(id, request, rsp, body) => f.(ok := f.ok && MayBeCalled(f, id, request, rsp, body))
    case Received(opcode, body) => Hear(f, opcode, body)
    case Shutdown => f.(closed := true)
    case _ => f
  }

  function FlowOf(log: seq<Event>): Flow
    decreases |log|
  {
    if |log| == 0 then Start() else Watch(FlowOf(log[..|log| - 1]), log[|log| - 1])
  }

  lemma FlowPush(log: seq<Event>, e: Event)
    ensures FlowOf(log + [e]) == Watch(FlowOf(log), e)
  {
    assert (log + [e])[..|log|] == log;
  }

  // ---- the invariant

  /** In order of acceptance, after lo and before hi. */
  predicate Ordered(ops: seq<Op>, lo: int, hi: int) {
    && (forall i :: 0 <= i < |ops| ==> lo < ops[i].id < hi)
    && (forall i, j :: 0 <= i < j < |ops| ==> ops[i].id < ops[j].id)
  }

  predicate Known(ops: seq<Op>, taken: set<Op>) {
    forall i :: 0 <= i < |ops| ==> ops[i] in taken
  }

  predicate Lined(ops: seq<Op>, lane: Lane, taken: set<Op>, next: int) {
    0 <= lane.last < next && Ordered(ops, lane.last, next) && Known(ops, taken)
  }

  predicate AllLined(q: Queues, f: Flow, next: int) {
    Lined(q.reqs, f.req, f.taken, next) && Lined(q.inds, f.ind, f.taken, next) && Lined(q.writes, f.rest, f.taken, next)
  }

  predicate SlotFlows(op: Option<Op>, lane: Lane, shut: bool) {
    if op.Some? then lane.out == op.value.id && KindOf(op.value.opcode) == op.value.kind
    else lane.out == 0 || shut
  }

  predicate Typed(f: Flow) { forall op :: op in f.taken ==> KindOf(op.opcode) == op.kind }

  predicate Core(s: Bearer, f: Flow) {
    && f.ok && (f.closed ==> s.shut)
    && f.rest.out == 0
    && AllLined(s.q, f, FreshId(s))
    && Typed(f)
  }

  predicate Flows(s: Bearer, f: Flow) {
    && Core(s, f)
    && SlotFlows(s.pendingReq, f.req, s.shut)
    && SlotFlows(s.pendingInd, f.ind, s.shut)
  }

  predicate InOrder(s: Bearer) { Flows(s, FlowOf(s.log)) }

  // ---- events that mean nothing to the observer

  lemma FreeUnseen(log: seq<Event>, op: Op)
    ensures FlowOf(Free(log, op)) == FlowOf(log)
  {
    hide FlowOf;
    FlowPush(log, Destroyed(op.id));
    FlowPush(log, Freed(op.id));
    FlowPush(log + [Destroyed(op.id)], Freed(op.id));
  }

  lemma CancelQueuedUnseen(log: seq<Event>, op: Op)
    ensures FlowOf(CancelQueued(log, op)) == FlowOf(log)
  {
    hide FlowOf, Free;
    FlowPush(log, Cancelled(op.id));
    FreeUnseen(log + [Cancelled(op.id)], op);
  }

  lemma CancelPendingUnseen(log: seq<Event>, op: Op)
    ensures FlowOf(CancelPending(log, op)) == FlowOf(log)
  {
    hide FlowOf;
    FlowPush(log, Cancelled(op.id));
    FlowPush(log + [Cancelled(op.id)], Destroyed(op.id));
  }

  lemma {:induction false} CancelEachUnseen(log: seq<Event>, ops: seq<Op>)
    ensures FlowOf(CancelEach(log, ops)) == FlowOf(log)
    decreases |ops|
  {
    hide FlowOf, CancelQueued;
    if |ops| > 0 {
      CancelQueuedUnseen(log, ops[0]);
      CancelEachUnseen(CancelQueued(log, ops[0]), ops[1..]);
    }
  }

  // ---- sending

  predicate SameLanes(f: Flow, g: Flow) { g.req == f.req && g.ind == f.ind && g.closed == f.closed }

  lemma LinedMore(ops: seq<Op>, lane: Lane, taken: set<Op>, next: int, op: Op)
    requires Lined(ops, lane, taken, next) && op.id == next
    ensures Lined(ops, lane, taken + {op}, next + 1) && Lined(ops + [op], lane, taken + {op}, next + 1)
  {
  }

  lemma EnqueueLined(q: Queues, f: Flow, op: Op)
    requires AllLined(q, f, op.id)
    ensures AllLined(Enqueue(q, op), f.(taken := f.taken + {op}), op.id + 1)
  {
    hide Lined;
    LinedMore(q.reqs, f.req, f.taken, op.id, op);
    LinedMore(q.inds, f.ind, f.taken, op.id, op);
    LinedMore(q.writes, f.rest, f.taken, op.id, op);
  }

  lemma TypedMore(f: Flow, op: Op)
    requires Typed(f) && KindOf(op.opcode) == op.kind
    ensures Typed(f.(taken := f.taken + {op}))
  {
    hide KindOf;
  }

  lemma SendFlows(s: Bearer, a: SendArgs)
    requires Core(s, FlowOf(s.log))
    ensures var r := SendOp(s, a);
            Core(r, FlowOf(r.log)) && SameLanes(FlowOf(s.log), FlowOf(r.log)) && r.shut == s.shut
  {
    hide FlowOf, KindOf, Typed, AllLined, Enqueue, Encodes, Overruns;
    if s.io && Encodes(s.mtu, a) {
      var op := OpFor(s, a);
      FlowPush(s.log, Accepted(op));
      EnqueueLined(s.q, FlowOf(s.log), op);
      TypedMore(FlowOf(s.log), op);
      AllLinedNext(Enqueue(s.q, op), FlowOf(s.log + [Accepted(op)]), op.id + 1);
    }
  }

  lemma AllLinedNext(q: Queues, f: Flow, next: int)
    requires AllLined(q, f, next)
    ensures 1 <= next
  {
  }

  lemma {:induction false} SendAllFlows(s: Bearer, sends: seq<SendArgs>)
    requires Core(s, FlowOf(s.log))
    ensures var r := SendAll(s, sends);
            Core(r, FlowOf(r.log)) && SameLanes(FlowOf(s.log), FlowOf(r.log)) && r.shut == s.shut
    decreases |sends|
  {
    hide FlowOf, Core, SendOp;
    if |sends| > 0 {
      SendFlows(s, sends[0]);
      SendAllFlows(SendOp(s, sends[0]), sends[1..]);
    }
  }

  lemma CallFlows(s: Bearer, op: Op, rsp: int, body: seq<int>, sends: seq<SendArgs>)
    requires Core(s, FlowOf(s.log)) && MayBeCalled(FlowOf(s.log), op.id, op.opcode, rsp, body)
    ensures var r := Call(s, op, rsp, body, sends);
            Core(r, FlowOf(r.log)) && SameLanes(FlowOf(s.log), FlowOf(r.log)) && r.shut == s.shut
  {
    hide FlowOf, SendAll, MayBeCalled, AllLined, Typed;
    var e := Called(op.id, op.opcode, rsp, body);
    FlowPush(s.log, e);
    if op.callback {
      SendAllFlows(Log(s, e), sends);
    }
  }

  // ---- the writer

  lemma LinedTail(ops: seq<Op>, lane: Lane, taken: set<Op>, next: int, out: int)
    requires |ops| > 0 && Lined(ops, lane, taken, next)
    ensures Lined(ops[1..], Lane(out, ops[0].id), taken, next) && Lined(ops[1..], lane, taken, next)
    ensures ops[0] in taken && lane.last < ops[0].id
  {
  }

  lemma PickLined(s: Bearer, f: Flow, next: int)
    requires CanPick(s) && AllLined(s.q, f, next) && Fits(s.q)
    ensures var (op, q) := Pick(s);
            && AllLined(q, f, next) && AllLined(q, GoneOut(f, op), next)
            && op in f.taken && LaneOf(f, op.kind).last < op.id
  {
    hide Lined, MayGoOut;
    if |s.q.writes| > 0 {
      LinedTail(s.q.writes, f.rest, f.taken, next, 0);
    } else if s.pendingReq.None? && |s.q.reqs| > 0 {
      LinedTail(s.q.reqs, f.req, f.taken, next, s.q.reqs[0].id);
    } else {
      LinedTail(s.q.inds, f.ind, f.taken, next, s.q.inds[0].id);
    }
  }

  lemma WriteReadyFlows(s: Bearer, ok: bool, sends: seq<SendArgs>)
    requires InOrder(s) && Shape(s)
    ensures InOrder(WriteReady(s, ok, sends))
  {
    hide FlowOf, AllLined, Typed, Pick, CanPick, Fits, GoneOut, Call, Free, KindOf, Awake;
    if s.writer && s.io && CanPick(s) {
      if !ok || s.shut {
        DroppedFlows(s, sends);
        DroppedIs(s, ok, sends);
      } else {
        WrittenFlows(s, sends);
      }
    }
  }

  lemma DroppedIs(s: Bearer, ok: bool, sends: seq<SendArgs>)
    requires s.writer && s.io && CanPick(s) && (!ok || s.shut)
    ensures WriteReady(s, ok, sends) == WriteReady(s, false, sends)
  {
    hide CanPick, Pick, Call;
  }

  lemma DroppedFlows(s: Bearer, sends: seq<SendArgs>)
    requires InOrder(s) && Fits(s.q) && s.writer && s.io && CanPick(s)
    ensures InOrder(WriteReady(s, false, sends))
  {
    hide FlowOf, AllLined, Typed, Pick, CanPick, Fits, GoneOut, Call, Free, KindOf;
    var (op, q) := Pick(s);
    var s1 := s.(q := q);
    PickLined(s, FlowOf(s.log), FreshId(s));
    CallFlows(s1, op, ERROR_RSP, [], sends);
    CallFrame(s1, op, ERROR_RSP, [], sends);
    FreeUnseen(Call(s1, op, ERROR_RSP, [], sends).log, op);
  }

  lemma WrittenFlows(s: Bearer, sends: seq<SendArgs>)
    requires InOrder(s) && Fits(s.q) && s.writer && s.io && CanPick(s) && !s.shut
    ensures InOrder(WriteReady(s, true, sends))
  {
    hide FlowOf, AllLined, Typed, Pick, CanPick, Fits, Free, KindOf;
    var f := FlowOf(s.log);
    var (op, q) := Pick(s);
    PickLined(s, f, FreshId(s));
    PickFits(s);
    FlowPush(s.log, Wire(op));
    FreeUnseen(s.log + [Wire(op)], op);
    TypedOf(f, op);
    TypedSame(f, GoneOut(f, op));
  }

  lemma TypedOf(f: Flow, op: Op)
    requires Typed(f) && op in f.taken
    ensures KindOf(op.opcode) == op.kind
  {
    hide KindOf;
  }

  lemma TypedSame(f: Flow, g: Flow)
    requires Typed(f) && g.taken == f.taken
    ensures Typed(g)
  {
    hide KindOf;
  }

  // ---- the reader

  lemma HearLined(q: Queues, f: Flow, opcode: int, body: seq<int>, next: int)
    requires AllLined(q, f, next)
    ensures AllLined(q, Hear(f, opcode, body), next)
  {
    hide KindOf, Ordered, Known;
  }

  lemma WakeupFlows(s: Bearer)
    ensures Flows(Wakeup(s), FlowOf(Wakeup(s).log)) == Flows(s, FlowOf(s.log))
  {
    hide FlowOf, AllLined, Typed, KindOf;
  }

  lemma ShutDownFlows(s: Bearer)
    requires InOrder(s)
    ensures InOrder(ShutDown(s))
  {
    hide FlowOf, AllLined, Typed, KindOf;
    FlowPush(s.log, Shutdown);
    ClosedKeeps(s.q, FlowOf(s.log), FreshId(s));
  }

  lemma ClosedKeeps(q: Queues, f: Flow, next: int)
    ensures AllLined(q, f.(closed := true), next) == AllLined(q, f, next)
    ensures Typed(f.(closed := true)) == Typed(f)
  {
    hide Lined, KindOf;
  }

  /** The response to the request that was outstanding when it was heard. */
  lemma ReqAnsweredFlows(s: Bearer, rsp: int, body: seq<int>, sends: seq<SendArgs>)
    requires Core(s, FlowOf(s.log)) && s.pendingReq.Some? && SlotFlows(s.pendingInd, FlowOf(s.log).ind, s.shut)
    requires FlowOf(s.log).req.out == 0
    requires MayBeCalled(FlowOf(s.log), s.pendingReq.value.id, s.pendingReq.value.opcode, rsp, body)
    ensures var op := s.pendingReq.value;
            InOrder(Wakeup(Freeing(Call(s, op, rsp, body, sends), op).(pendingReq := None)))
  {
    hide FlowOf, AllLined, Typed, KindOf, Call, Free, MayBeCalled, Wakeup;
    var op := s.pendingReq.value;
    CallFlows(s, op, rsp, body, sends);
    CallFrame(s, op, rsp, body, sends);
    var r := Call(s, op, rsp, body, sends);
    FreeUnseen(r.log, op);
    WakeupFlows(Freeing(r, op).(pendingReq := None));
  }

  lemma IndAnsweredFlows(s: Bearer, rsp: int, body: seq<int>, sends: seq<SendArgs>)
    requires Core(s, FlowOf(s.log)) && s.pendingInd.Some? && SlotFlows(s.pendingReq, FlowOf(s.log).req, s.shut)
    requires FlowOf(s.log).ind.out == 0
    requires MayBeCalled(FlowOf(s.log), s.pendingInd.value.id, s.pendingInd.value.opcode, rsp, body)
    ensures var op := s.pendingInd.value;
            InOrder(Wakeup(Freeing(Call(s, op, rsp, body, sends), op).(pendingInd := None)))
  {
    hide FlowOf, AllLined, Typed, KindOf, Call, Free, MayBeCalled, Wakeup;
    var op := s.pendingInd.value;
    CallFlows(s, op, rsp, body, sends);
    CallFrame(s, op, rsp, body, sends);
    var r := Call(s, op, rsp, body, sends);
    FreeUnseen(r.log, op);
    WakeupFlows(Freeing(r, op).(pendingInd := None));
  }

  lemma HeardFlows(s: Bearer, opcode: int, pdu: seq<int>)
    requires InOrder(s)
    ensures var r := Log(s, Received(opcode, pdu));
            Core(r, FlowOf(r.log)) && FlowOf(r.log) == Hear(FlowOf(s.log), opcode, pdu)
  {
    hide FlowOf, AllLined, Typed, KindOf;
    FlowPush(s.log, Received(opcode, pdu));
    HearLined(s.q, FlowOf(s.log), opcode, pdu, FreshId(s));
    TypedSame(FlowOf(s.log), Hear(FlowOf(s.log), opcode, pdu));
  }

  lemma RspFlows(s: Bearer, opcode: int, pdu: seq<int>, sends: seq<SendArgs>)
    requires InOrder(s) && KindOf(opcode) == Rsp
    ensures InOrder(HandleRsp(Log(s, Received(opcode, pdu)), opcode, pdu, sends))
  {
    hide FlowOf, AllLined, Typed, KindOf, Core, Call, Freeing, Wakeup, ShutDown, RequestOf;
    var r := Log(s, Received(opcode, pdu));
    HeardFlows(s, opcode, pdu);
    if s.pendingReq.None? {
      ShutDownFlows(r);
    } else {
      var op := s.pendingReq.value;
      if Matches(op, opcode, pdu) {
        ReqAnsweredFlows(r, opcode, pdu, sends);
      } else {
        ReqAnsweredFlows(r, ERROR_RSP, [], sends);
      }
    }
  }

  lemma ConfFlows(s: Bearer, opcode: int, pdu: seq<int>, sends: seq<SendArgs>)
    requires InOrder(s) && SlotsFit(s) && KindOf(opcode) == Conf
    ensures InOrder(HandleConf(Log(s, Received(opcode, pdu)), pdu, sends))
  {
    hide FlowOf, AllLined, Typed, KindOf, Core, Call, Freeing, Wakeup, ShutDown, RequestOf;
    var r := Log(s, Received(opcode, pdu));
    HeardFlows(s, opcode, pdu);
    if s.pendingInd.None? || |pdu| > 0 {
      ShutDownFlows(r);
    } else {
      OnlyConf(opcode);
      IndAnsweredFlows(r, HANDLE_VAL_CONF, [], sends);
    }
  }

  lemma OnlyConf(opcode: int)
    requires KindOf(opcode) == Conf
    ensures opcode == HANDLE_VAL_CONF
  {
    assert forall i :: 0 <= i < |OPCODES| && OPCODES[i].1 == Conf ==> OPCODES[i].0 == HANDLE_VAL_CONF;
    FindMeans(OPCODES, opcode);
  }

  lemma {:induction false} FindMeans(table: seq<(int, Kind)>, opcode: int)
    requires FindKind(table, opcode) != Unknown
    ensures exists i :: 0 <= i < |table| && table[i].0 == opcode && table[i].1 == FindKind(table, opcode)
    decreases |table|
  {
    if table[0].0 != opcode {
      FindMeans(table[1..], opcode);
      var i :| 0 <= i < |table[1..]| && table[1..][i].0 == opcode && table[1..][i].1 == FindKind(table[1..], opcode);
      assert table[i + 1] == table[1..][i];
    }
  }

  lemma SendKeepsOrder(s: Bearer, sends: seq<SendArgs>)
    requires InOrder(s)
    ensures InOrder(SendAll(s, sends))
  {
    hide FlowOf, Core, KindOf, SendAll;
    SendAllFlows(s, sends);
    SendAllFrame(s, sends);
  }

  lemma NotifyOneFlows(s: Bearer, h: Handler, opcode: int, pdu: seq<int>, sends: seq<SendArgs>)
    requires InOrder(s)
    ensures InOrder(NotifyOne(s, h, opcode, pdu, sends))
  {
    hide FlowOf, Core, KindOf, SendAll, HandlerMatches, SlotFlows;
    var e := Notified(h.id, opcode, pdu);
    FlowPush(s.log, e);
    CoreLog(s, Log(s, e), FlowOf(s.log));
    SendKeepsOrder(Log(s, e), sends) by {
      assert FlowOf(s.log + [e]) == FlowOf(s.log);
    }
  }

  lemma {:induction false} NotifyFromFlows(s: Bearer, hs: seq<Handler>, i: nat, opcode: int, pdu: seq<int>,
                                           sends: seq<seq<SendArgs>>)
    requires InOrder(s)
    ensures InOrder(NotifyFrom(s, hs, i, opcode, pdu, sends))
    decreases |hs| - i
  {
    hide InOrder, NotifyOne;
    if i < |hs| {
      NotifyOneFlows(s, hs[i], opcode, pdu, SentBy(sends, i));
      NotifyFromFlows(NotifyOne(s, hs[i], opcode, pdu, SentBy(sends, i)), hs, i + 1, opcode, pdu, sends);
    }
  }

  lemma NotifyFlows(s: Bearer, opcode: int, pdu: seq<int>, sends: seq<seq<SendArgs>>)
    requires InOrder(s)
    ensures InOrder(Notify(s, opcode, pdu, sends))
  {
    hide InOrder, KindOf, NotifyFrom, SendOp, Handled;
    NotifyFromFlows(s, s.handlers, 0, opcode, pdu, sends);
    SendOneKeepsOrder(NotifyFrom(s, s.handlers, 0, opcode, pdu, sends),
                      SendArgs(ERROR_RSP, [opcode, 0, 0, REQUEST_NOT_SUPPORTED], false, false));
  }

  lemma CoreLog(s: Bearer, r: Bearer, f: Flow)
    requires r.q == s.q && r.nextId == s.nextId && r.shut == s.shut
    ensures Core(s, f) == Core(r, f)
  {
    hide AllLined, Typed;
  }

  lemma SendOneKeepsOrder(s: Bearer, a: SendArgs)
    requires InOrder(s)
    ensures InOrder(SendOp(s, a))
  {
    hide FlowOf, Core, KindOf, Enqueue, Encodes, Overruns;
    SendFlows(s, a);
  }

  lemma ReceiveFlows(s: Bearer, opcode: int, pdu: seq<int>, sends: seq<seq<SendArgs>>)
    requires InOrder(s) && SlotsFit(s)
    ensures InOrder(Receive(s, opcode, pdu, sends))
  {
    hide InOrder, KindOf, HandleRsp, HandleConf, Notify, ShutDown, SlotsFit;
    var s1 := Log(s, Received(opcode, pdu));
    if KindOf(opcode) == Rsp {
      RspFlows(s, opcode, pdu, SentBy(sends, 0));
    } else if KindOf(opcode) == Conf {
      ConfFlows(s, opcode, pdu, SentBy(sends, 0));
    } else {
      OtherHeard(s, opcode, pdu);
      ShutDownFlows(s1);
      FlagFlows(ShutDown(s1), ShutDown(s1).(reading := false));
      FlagFlows(s1, s1.(inReq := true));
      NotifyFlows(s1, opcode, pdu, sends);
      NotifyFlows(s1.(inReq := true), opcode, pdu, sends);
    }
  }

  lemma OtherHeard(s: Bearer, opcode: int, pdu: seq<int>)
    requires InOrder(s) && KindOf(opcode) != Rsp && KindOf(opcode) != Conf
    ensures InOrder(Log(s, Received(opcode, pdu)))
  {
    hide FlowOf, Core, KindOf;
    HeardFlows(s, opcode, pdu);
  }

  lemma FlagFlows(s: Bearer, r: Bearer)
    requires InOrder(s)
    requires r.log == s.log && r.nextId == s.nextId && r.q == s.q && r.shut == s.shut
    requires r.pendingReq == s.pendingReq && r.pendingInd == s.pendingInd
    ensures InOrder(r)
  {
    hide FlowOf, AllLined, Typed, SlotFlows;
  }

  // ---- timeout, cancellation, the end

  /** Whatever is still lined up may be dropped. */
  lemma LinedLess(ops: seq<Op>, lane: Lane, taken: set<Op>, next: int, i: nat)
    requires Lined(ops, lane, taken, next) && i < |ops|
    ensures Lined(RemoveAt(ops, i), lane, taken, next)
  {
    var r := RemoveAt(ops, i);
    assert forall k :: 0 <= k < |r| ==> r[k] == ops[if k < i then k else k + 1];
  }

  lemma TakeOutLined(q: Queues, id: int, f: Flow, next: int)
    requires AllLined(q, f, next)
    ensures TakeOut(q, id).Some? ==> AllLined(TakeOut(q, id).value.1, f, next)
  {
    hide IndexOf, Lined, RemoveAt;
    var i, j, k := IndexOf(q.reqs, id), IndexOf(q.inds, id), IndexOf(q.writes, id);
    if i < |q.reqs| { LinedLess(q.reqs, f.req, f.taken, next, i); }
    if j < |q.inds| { LinedLess(q.inds, f.ind, f.taken, next, j); }
    if k < |q.writes| { LinedLess(q.writes, f.rest, f.taken, next, k); }
  }

  lemma DetachedFlows(op: Option<Op>, lane: Lane, shut: bool)
    ensures SlotFlows(DetachedSlot(op), lane, shut) == SlotFlows(op, lane, shut)
  {
    hide KindOf;
  }

  lemma CancelSlotsFlows(s: Bearer)
    requires InOrder(s)
    ensures s.pendingReq.Some? ==> InOrder(s.(log := CancelPending(s.log, s.pendingReq.value),
                                              pendingReq := DetachedSlot(s.pendingReq)))
    ensures s.pendingInd.Some? ==> InOrder(s.(log := CancelPending(s.log, s.pendingInd.value),
                                              pendingInd := DetachedSlot(s.pendingInd)))
  {
    hide FlowOf, AllLined, Typed, SlotFlows, DetachedSlot, CancelPending;
    if s.pendingReq.Some? { CancelPendingUnseen(s.log, s.pendingReq.value); }
    if s.pendingInd.Some? { CancelPendingUnseen(s.log, s.pendingInd.value); }
    DetachedFlows(s.pendingReq, FlowOf(s.log).req, s.shut);
    DetachedFlows(s.pendingInd, FlowOf(s.log).ind, s.shut);
  }

  lemma CancelQueuedFlows(s: Bearer, op: Op, q: Queues)
    requires InOrder(s) && AllLined(q, FlowOf(s.log), FreshId(s))
    ensures InOrder(Wakeup(s.(q := q, log := CancelQueued(s.log, op))))
  {
    hide FlowOf, AllLined, Typed, SlotFlows, CancelQueued, Wakeup;
    CancelQueuedUnseen(s.log, op);
    WakeupFlows(s.(q := q, log := CancelQueued(s.log, op)));
  }

  lemma CancelFlows(s: Bearer, id: int)
    requires InOrder(s)
    ensures InOrder(Cancel(s, id))
  {
    hide InOrder, FlowOf, AllLined, TakeOut, CancelPending, CancelQueued, Wakeup;
    CancelSlotsFlows(s);
    LinedOf(s);
    TakeOutLined(s.q, id, FlowOf(s.log), FreshId(s));
    if TakeOut(s.q, id).Some? {
      var (op, q) := TakeOut(s.q, id).value;
      CancelQueuedFlows(s, op, q);
    }
  }

  lemma LinedOf(s: Bearer)
    requires InOrder(s)
    ensures AllLined(s.q, FlowOf(s.log), FreshId(s))
  {
  }

  lemma CancelSlotUnseen(log: seq<Event>, op: Option<Op>)
    ensures FlowOf(CancelSlot(log, op)) == FlowOf(log)
  {
    hide FlowOf, CancelPending;
    if op.Some? { CancelPendingUnseen(log, op.value); }
  }

  lemma FreeSlotUnseen(log: seq<Event>, op: Option<Op>)
    ensures FlowOf(FreeSlot(log, op)) == FlowOf(log)
  {
    hide FlowOf, Free;
    if op.Some? { FreeUnseen(log, op.value); }
  }

  lemma EmptyLined(q: Queues, f: Flow, next: int)
    requires AllLined(q, f, next)
    ensures AllLined(Queues([], [], []), f, next)
  {
  }

  lemma CancelAllFlows(s: Bearer)
    requires InOrder(s)
    ensures InOrder(CancelAll(s)) && FlowOf(CancelAll(s).log) == FlowOf(s.log)
  {
    hide FlowOf, AllLined, Typed, KindOf, CancelEach, CancelSlot;
    var log1 := CancelEach(s.log, s.q.reqs);
    var log2 := CancelEach(log1, s.q.inds);
    var log3 := CancelEach(log2, s.q.writes);
    CancelEachUnseen(s.log, s.q.reqs);
    CancelEachUnseen(log1, s.q.inds);
    CancelEachUnseen(log2, s.q.writes);
    CancelSlotUnseen(log3, s.pendingReq);
    CancelSlotUnseen(CancelSlot(log3, s.pendingReq), s.pendingInd);
    EmptyLined(s.q, FlowOf(s.log), FreshId(s));
  }

  lemma {:induction false} CallLostUnseen(log: seq<Event>, ids: seq<int>)
    ensures FlowOf(CallLost(log, ids)) == FlowOf(log)
    decreases |ids|
  {
    hide FlowOf;
    if |ids| > 0 {
      FlowPush(log, LinkLost(ids[0]));
      CallLostUnseen(log + [LinkLost(ids[0])], ids[1..]);
    }
  }

  lemma DisconnectFlows(s: Bearer)
    requires InOrder(s)
    ensures InOrder(Disconnect(s))
  {
    hide InOrder, CancelAll, CallLost;
    var s1 := s.(io := false, writer := false, reading := false);
    FlagFlows(s, s1);
    CancelAllFlows(s1);
    var c := CancelAll(s1);
    FlagFlows(c, c.(handlers := [], disconnects := []));
    CallLostUnseen(c.log, c.disconnects);
    UnseenFlows(c.(handlers := [], disconnects := []), CallLost(c.log, c.disconnects));
  }

  lemma UnseenFlows(s: Bearer, log: seq<Event>)
    requires InOrder(s) && FlowOf(log) == FlowOf(s.log)
    ensures InOrder(s.(log := log))
  {
    hide FlowOf, AllLined, Typed, SlotFlows;
  }

  /** From the last unref on, nothing goes out: what is outstanding no longer matters. */
  predicate OverOrInOrder(s: Bearer) { if s.alive then InOrder(s) else FlowOf(s.log).ok }

  lemma UnrefFlows(s: Bearer)
    requires InOrder(s)
    ensures FlowOf(Unref(s).log).ok && !Unref(s).alive
  {
    hide FlowOf, AllLined, Typed, KindOf, CancelAll, FreeSlot;
    CancelAllFlows(s);
    var c := CancelAll(s);
    FreeSlotUnseen(c.log, c.pendingReq);
    FreeSlotUnseen(FreeSlot(c.log, c.pendingReq), c.pendingInd);
  }

  lemma ExpireFlows(s: Bearer, op: Op, sends: seq<SendArgs>)
    requires Core(s, FlowOf(s.log))
    requires s.pendingReq.Some? ==> SlotFlows(s.pendingReq, FlowOf(s.log).req, true)
    requires s.pendingInd.Some? ==> SlotFlows(s.pendingInd, FlowOf(s.log).ind, true)
    ensures InOrder(Expire(s, op, sends))
  {
    hide FlowOf, AllLined, Typed, KindOf, SendAll, Free;
    var s1 := Log(s, TimedOut(op.id));
    FlowPush(s.log, TimedOut(op.id));
    SendAllFlows(s1, sends);
    SendAllFrame(s1, sends);
    var r := SendAll(s1, sends);
    FreeUnseen(r.log, op);
    FlowPush(Free(r.log, op), Shutdown);
    ClosedKeeps(r.q, FlowOf(r.log), FreshId(r));
  }

  lemma TimeoutFlows(s: Bearer, id: int, sends: seq<SendArgs>)
    requires InOrder(s)
    ensures InOrder(Timeout(s, id, sends))
  {
    hide FlowOf, AllLined, Typed, KindOf, Expire;
    if s.pendingReq.Some? && s.pendingReq.value.id == id {
      ExpireFlows(s.(pendingReq := None), s.pendingReq.value, sends);
    } else if s.pendingInd.Some? && s.pendingInd.value.id == id {
      ExpireFlows(s.(pendingInd := None), s.pendingInd.value, sends);
    }
  }

  // ---- every run

  lemma StepFlows(s: Bearer, i: Input)
    requires Shape(s) && s.alive && InOrder(s)
    ensures OverOrInOrder(Step(s, i))
  {
    hide InOrder, FlowOf, SendOp, Cancel, CancelAll, SetMtu, WriteReady, Receive, Timeout, Disconnect, Unref;
    ImpliesOver(Step(s, i));
    match i
    case DoSend(args) => SendOneKeepsOrder(s, args);
    case DoCancel(id) => CancelFlows(s, id);
    case DoCancelAll => CancelAllFlows(s);
    case DoRegister(opcode) => FlagFlows(s, Register(s, opcode));
    case DoRegisterDisconnect => FlagFlows(s, RegisterDisconnect(s));
    case DoSetMtu(mtu) => SetMtuFlows(s, mtu);
    case Writable(ok, sends) => WriteReadyFlows(s, ok, sends);
    case Arrives(opcode, pdu, sends) => ReceiveFlows(s, opcode, pdu, sends);
    case Expires(id, sends) => TimeoutFlows(s, id, sends);
    case LinkDown => DisconnectFlows(s);
    case DoUnref => UnrefFlows(s);
  }

  lemma SetMtuFlows(s: Bearer, mtu: int)
    requires InOrder(s)
    ensures InOrder(SetMtu(s, mtu))
  {
    FlagFlows(s, SetMtu(s, mtu));
  }

  lemma ImpliesOver(s: Bearer)
    ensures InOrder(s) ==> OverOrInOrder(s)
  {
  }

  lemma {:induction false} RunFlows(s: Bearer, inputs: seq<Input>)
    requires Shape(s) && OverOrInOrder(s)
    ensures OverOrInOrder(Run(s, inputs)) && FlowOf(Run(s, inputs).log).ok
    decreases |inputs|
  {
    hide InOrder, FlowOf, Step;
    if |inputs| > 0 {
      OneStepFlows(s, inputs[0]);
      StepShapes(s, inputs[0]);
      RunFlows(Step(s, inputs[0]), inputs[1..]);
    } else {
      OrderIsOk(s);
    }
  }

  lemma OrderIsOk(s: Bearer)
    requires OverOrInOrder(s)
    ensures FlowOf(s.log).ok
  {
  }

  lemma OneStepFlows(s: Bearer, i: Input)
    requires Shape(s) && OverOrInOrder(s)
    ensures OverOrInOrder(Step(s, i))
  {
    hide InOrder, FlowOf, Shape;
    if s.alive { StepFlows(s, i); }
  }

  lemma NewFlows()
    ensures OverOrInOrder(NEW)
  {
    assert FlowOf([]) == Start();
  }

  /** Whatever is sent, received, cancelled or timed out, the observer finds the whole run in
      order. */
  lemma SequentialProtocol(inputs: seq<Input>)
    ensures FlowOf(Run(NEW, inputs).log).ok
  {
    hide FlowOf, Run;
    NewFlows();
    RunFlows(NEW, inputs);
  }

  // ---- what it means that the observer is content

  predicate IsWire(e: Event, kind: Kind) { e.Wire? && e.op.kind == kind }

  /** A response settles the outstanding request, an empty confirmation the indication. */
  predicate Settles(e: Event, kind: Kind) {
    e.Received? && if kind == Req then KindOf(e.opcode) == Rsp else KindOf(e.opcode) == Conf && |e.body| == 0
  }

  lemma {:induction false} OkPrefix(log: seq<Event>, n: nat)
    requires n <= |log| && FlowOf(log).ok
    ensures FlowOf(log[..n]).ok
    decreases |log|
  {
    if n == |log| {
      assert log[..n] == log;
    } else {
      assert log[..|log| - 1][..n] == log[..n];
      OkPrefix(log[..|log| - 1], n);
    }
  }

  /** Between two requests on the wire a response was heard, between two indications a
      confirmation, and they go out in the order in which bt_att_send took them. */
  lemma {:induction false} OneAtATime(log: seq<Event>, i: nat, j: nat, kind: Kind)
    requires FlowOf(log).ok && kind in {Req, Ind}
    requires i < j < |log| && IsWire(log[i], kind) && IsWire(log[j], kind)
    ensures log[i].op.id < log[j].op.id
    ensures exists k :: i < k < j && Settles(log[k], kind)
  {
    hide FlowOf, Settles;
    OkPrefix(log, j + 1);
    var upto := log[..j];
    assert log[..j + 1] == upto + [log[j]];
    FlowPush(upto, log[j]);
    LaneAfter(upto, i, kind);
    assert exists k :: i < k < j && Settles(upto[k], kind);
    var k :| i < k < j && Settles(upto[k], kind);
    assert upto[k] == log[k];
  }

  lemma {:induction false} IdsArePositive(log: seq<Event>, kind: Kind)
    requires FlowOf(log).ok
    ensures 0 <= LaneOf(FlowOf(log), kind).last
    decreases |log|
  {
    hide KindOf;
    if |log| > 0 {
      IdsArePositive(log[..|log| - 1], kind);
    }
  }

  /** One event and the lane of one kind. */
  lemma WatchLane(f: Flow, e: Event, kind: Kind)
    requires Watch(f, e).ok && kind in {Req, Ind} && 0 <= LaneOf(f, kind).last
    ensures f.ok && LaneOf(f, kind).last <= LaneOf(Watch(f, e), kind).last
    ensures IsWire(e, kind) ==>
              0 < e.op.id == LaneOf(Watch(f, e), kind).last && LaneOf(Watch(f, e), kind).out == e.op.id
    ensures LaneOf(f, kind).out > 0 && !Settles(e, kind) ==> LaneOf(Watch(f, e), kind).out > 0
  {
    hide KindOf;
  }

  /** After i went out it, or something later, is outstanding unless an answer was heard. */
  lemma {:induction false} LaneAfter(log: seq<Event>, i: nat, kind: Kind)
    requires i < |log| && FlowOf(log).ok && kind in {Req, Ind} && IsWire(log[i], kind)
    ensures 0 < log[i].op.id <= LaneOf(FlowOf(log), kind).last
    ensures (exists k :: i < k < |log| && Settles(log[k], kind)) || LaneOf(FlowOf(log), kind).out > 0
    decreases |log|
  {
    hide Watch, Settles, LaneOf, IsWire;
    var n := |log| - 1;
    OkPrefix(log, n);
    IdsArePositive(log[..n], kind);
    WatchLane(FlowOf(log[..n]), log[n], kind);
    if i < n {
      LaneAfter(log[..n], i, kind);
      assert forall k :: 0 <= k < n ==> log[..n][k] == log[k];
    }
  }

  /** What goes out was accepted before, with this opcode and these parameters. */
  lemma {:induction false} WiredWasAccepted(log: seq<Event>, j: nat)
    requires FlowOf(log).ok && j < |log| && log[j].Wire?
    ensures exists i :: 0 <= i < j && log[i] == Accepted(log[j].op)
  {
    hide FlowOf;
    OkPrefix(log, j + 1);
    var upto := log[..j];
    assert log[..j + 1] == upto + [log[j]];
    FlowPush(upto, log[j]);
    TakenWasAccepted(upto, log[j].op);
    var i :| 0 <= i < j && upto[i] == Accepted(log[j].op);
    assert upto[i] == log[i];
  }

  lemma {:induction false} TakenWasAccepted(log: seq<Event>, op: Op)
    requires op in FlowOf(log).taken
    ensures exists i :: 0 <= i < |log| && log[i] == Accepted(op)
    decreases |log|
  {
    hide KindOf;
    if |log| > 0 {
      var n := |log| - 1;
      if op in FlowOf(log[..n]).taken {
        TakenWasAccepted(log[..n], op);
        var i :| 0 <= i < n && log[..n][i] == Accepted(op);
        assert log[i] == Accepted(op);
      } else {
        assert log[n] == Accepted(op);
      }
    }
  }
}
