/** Operations wait in the queue of their kind, and the writer is never left asleep while
    there is something it could send. */
module AttShape {
  import opened Wrappers
  import opened Pdus
  import opened Att

  /** What is pending does not change when something is sent. */
  lemma {:induction false} SendAllFrame(s: Bearer, sends: seq<SendArgs>)
    ensures var r := SendAll(s, sends);
            r.pendingReq == s.pendingReq && r.pendingInd == s.pendingInd && r.io == s.io && r.shut == s.shut
            && r.inReq == s.inReq
    decreases |sends|
  {
    hide Encodes, Overruns, Enqueue, KindOf;
    if |sends| > 0 {
      SendAllFrame(SendOp(s, sends[0]), sends[1..]);
    }
  }

  lemma CallFrame(s: Bearer, op: Op, rsp: int, body: seq<int>, sends: seq<SendArgs>)
    ensures var r := Call(s, op, rsp, body, sends);
            r.pendingReq == s.pendingReq && r.pendingInd == s.pendingInd && r.io == s.io && r.shut == s.shut
            && r.inReq == s.inReq
  {
    hide SendAll;
    SendAllFrame(Log(s, Called(op.id, op.opcode, rsp, body)), sends);
  }

  predicate AllOf(ops: seq<Op>, kind: Kind) {
    forall i :: 0 <= i < |ops| ==> ops[i].kind == kind == KindOf(ops[i].opcode)
  }

  predicate Unanswered(ops: seq<Op>) {
    forall i :: 0 <= i < |ops| ==>
      ops[i].kind != Req && ops[i].kind != Ind && ops[i].kind == KindOf(ops[i].opcode) && !ops[i].callback
  }

  predicate Fits(q: Queues) { AllOf(q.reqs, Req) && AllOf(q.inds, Ind) && Unanswered(q.writes) }

  predicate SlotFits(op: Option<Op>, kind: Kind) { op.Some? ==> op.value.kind == kind == KindOf(op.value.opcode) }

  predicate SlotsFit(s: Bearer) { SlotFits(s.pendingReq, Req) && SlotFits(s.pendingInd, Ind) }

  /** No wakeup is lost: on a live link a write handler is installed or there is nothing to pick. */
  predicate Awake(s: Bearer) { s.alive && s.io && !s.shut ==> s.writer || !CanPick(s) }

  /** A writer only exists on a live link. */
  predicate Grounded(s: Bearer) { (s.writer ==> s.io) && (s.reading ==> s.io) && (s.io ==> s.alive) }

  predicate Shape(s: Bearer) { Fits(s.q) && SlotsFit(s) && Awake(s) && Grounded(s) }

  /** wakeup_writer asks exactly whether pick_next_send_op would find something. */
  lemma WakeupTestsCanPick(s: Bearer)
    ensures Wakeup(s) == s.(writer := s.writer || (CanPick(s) && s.io))
  {
  }

  lemma WakeupShapes(s: Bearer)
    requires Fits(s.q) && SlotsFit(s) && Grounded(s)
    ensures Shape(Wakeup(s))
  {
    hide Fits;
  }

  lemma EnqueueFits(q: Queues, op: Op)
    requires Fits(q) && op.kind == KindOf(op.opcode) && (op.callback ==> op.kind == Req || op.kind == Ind)
    ensures Fits(Enqueue(q, op))
  {
  }

  lemma EncodedCallback(mtu: int, a: SendArgs)
    requires Encodes(mtu, a)
    ensures a.callback ==> KindOf(a.opcode) == Req || KindOf(a.opcode) == Ind
  {
    hide KindOf;
  }

  lemma SendShapes(s: Bearer, a: SendArgs)
    requires Shape(s)
    ensures Shape(SendOp(s, a))
  {
    hide Fits, Wakeup, Enqueue, Encodes, Overruns, KindOf;
    if s.io && Encodes(s.mtu, a) {
      var op := OpFor(s, a);
      EncodedCallback(s.mtu, a);
      EnqueueFits(s.q, op);
      WakeupShapes(s.(nextId := op.id + 1, log := s.log + [Accepted(op)], q := Enqueue(s.q, op)));
    }
  }

  lemma {:induction false} SendAllShapes(s: Bearer, sends: seq<SendArgs>)
    requires Shape(s)
    ensures Shape(SendAll(s, sends))
    decreases |sends|
  {
    hide Shape, SendOp;
    if |sends| > 0 {
      SendShapes(s, sends[0]);
      SendAllShapes(SendOp(s, sends[0]), sends[1..]);
    }
  }

  lemma CallShapes(s: Bearer, op: Op, rsp: int, body: seq<int>, sends: seq<SendArgs>)
    requires Shape(s)
    ensures Shape(Call(s, op, rsp, body, sends))
  {
    hide SendAll, Fits;
    var s1 := Log(s, Called(op.id, op.opcode, rsp, body));
    assert Shape(s1);
    SendAllShapes(s1, sends);
  }

  lemma PickFits(s: Bearer)
    requires CanPick(s) && Fits(s.q)
    ensures var (op, q) := Pick(s);
            Fits(q)
            && (op.kind == Req ==> s.pendingReq.None?)
            && (op.kind == Ind ==> s.pendingInd.None?)
            && op.kind == KindOf(op.opcode) && (op.kind != Req && op.kind != Ind ==> !op.callback)
  {
  }

  lemma WriteReadyShapes(s: Bearer, ok: bool, sends: seq<SendArgs>)
    requires Shape(s)
    ensures Shape(WriteReady(s, ok, sends))
  {
    hide Fits, Call, Pick;
    if s.writer && s.io && CanPick(s) {
      PickFits(s);
      var (op, q) := Pick(s);
      var s1 := s.(q := q);
      assert Shape(s1);
      CallShapes(s1, op, ERROR_RSP, [], sends);
    }
  }

  lemma HandleRspShapes(s: Bearer, opcode: int, pdu: seq<int>, sends: seq<SendArgs>)
    requires Shape(s)
    ensures Shape(HandleRsp(s, opcode, pdu, sends))
  {
    hide Fits, Call, Wakeup, Matches, Free;
    if s.pendingReq.Some? {
      var op := s.pendingReq.value;
      if Matches(op, opcode, pdu) {
        CallShapes(s, op, opcode, pdu, sends);
        WakeupShapes(Freeing(Call(s, op, opcode, pdu, sends), op).(pendingReq := None));
      } else {
        CallShapes(s, op, ERROR_RSP, [], sends);
        WakeupShapes(Freeing(Call(s, op, ERROR_RSP, [], sends), op).(pendingReq := None));
      }
    }
  }

  lemma HandleConfShapes(s: Bearer, pdu: seq<int>, sends: seq<SendArgs>)
    requires Shape(s)
    ensures Shape(HandleConf(s, pdu, sends))
  {
    hide Fits, Call, Wakeup, Free;
    if s.pendingInd.Some? && |pdu| == 0 {
      var op := s.pendingInd.value;
      CallShapes(s, op, HANDLE_VAL_CONF, [], sends);
      WakeupShapes(Freeing(Call(s, op, HANDLE_VAL_CONF, [], sends), op).(pendingInd := None));
    }
  }

  lemma NotifyOneShapes(s: Bearer, h: Handler, opcode: int, pdu: seq<int>, sends: seq<SendArgs>)
    requires Shape(s)
    ensures Shape(NotifyOne(s, h, opcode, pdu, sends))
  {
    hide Fits, HandlerMatches, SendAll;
    assert Shape(Log(s, Notified(h.id, opcode, pdu)));
    SendAllShapes(Log(s, Notified(h.id, opcode, pdu)), sends);
  }

  lemma {:induction false} NotifyFromShapes(s: Bearer, hs: seq<Handler>, i: nat, opcode: int, pdu: seq<int>,
                                            sends: seq<seq<SendArgs>>)
    requires Shape(s)
    ensures Shape(NotifyFrom(s, hs, i, opcode, pdu, sends))
    decreases |hs| - i
  {
    hide Shape, NotifyOne;
    if i < |hs| {
      NotifyOneShapes(s, hs[i], opcode, pdu, SentBy(sends, i));
      NotifyFromShapes(NotifyOne(s, hs[i], opcode, pdu, SentBy(sends, i)), hs, i + 1, opcode, pdu, sends);
    }
  }

  lemma NotifyShapes(s: Bearer, opcode: int, pdu: seq<int>, sends: seq<seq<SendArgs>>)
    requires Shape(s)
    ensures Shape(Notify(s, opcode, pdu, sends))
  {
    hide Shape, Handled, KindOf, NotifyFrom, SendOp;
    NotifyFromShapes(s, s.handlers, 0, opcode, pdu, sends);
    SendShapes(NotifyFrom(s, s.handlers, 0, opcode, pdu, sends),
               SendArgs(ERROR_RSP, [opcode, 0, 0, REQUEST_NOT_SUPPORTED], false, false));
  }

  // ---- who is notified

  /** The handlers that were called, in order, each with what it was given. */
  function Notifications(log: seq<Event>): seq<Event>
    decreases |log|
  {
    if |log| == 0 then []
    else
      var e := log[|log| - 1];
      Notifications(log[..|log| - 1]) + if e.Notified? then [e] else []
  }

  /** The calls of the handlers from the i-th on that are registered for this opcode. */
  function Matching(hs: seq<Handler>, i: nat, opcode: int, pdu: seq<int>): seq<Event>
    decreases |hs| - i
  {
    if i >= |hs| then []
    else if HandlerMatches(hs[i].opcode, opcode) then
      [Notified(hs[i].id, opcode, pdu)] + Matching(hs, i + 1, opcode, pdu)
    else Matching(hs, i + 1, opcode, pdu)
  }

  lemma CalledPush(log: seq<Event>, e: Event)
    ensures Notifications(log + [e]) == Notifications(log) + if e.Notified? then [e] else []
  {
    assert (log + [e])[..|log|] == log;
  }

  lemma {:induction false} SendAllCallsNone(s: Bearer, sends: seq<SendArgs>)
    ensures Notifications(SendAll(s, sends).log) == Notifications(s.log)
    decreases |sends|
  {
    hide Encodes, Overruns, Enqueue, KindOf, Notifications;
    if |sends| > 0 {
      CalledPush(s.log, Accepted(OpFor(s, sends[0])));
      SendAllCallsNone(SendOp(s, sends[0]), sends[1..]);
    }
  }

  lemma NotifyOneCalls(s: Bearer, h: Handler, opcode: int, pdu: seq<int>, sends: seq<SendArgs>)
    ensures Notifications(NotifyOne(s, h, opcode, pdu, sends).log)
            == Notifications(s.log) + if HandlerMatches(h.opcode, opcode) then [Notified(h.id, opcode, pdu)] else []
  {
    hide HandlerMatches, Notifications, SendAll;
    CalledPush(s.log, Notified(h.id, opcode, pdu));
    SendAllCallsNone(Log(s, Notified(h.id, opcode, pdu)), sends);
  }

  lemma {:induction false} NotifyFromCalls(s: Bearer, hs: seq<Handler>, i: nat, opcode: int, pdu: seq<int>,
                                           sends: seq<seq<SendArgs>>)
    ensures Notifications(NotifyFrom(s, hs, i, opcode, pdu, sends).log)
            == Notifications(s.log) + Matching(hs, i, opcode, pdu)
    decreases |hs| - i
  {
    hide HandlerMatches, Notifications, NotifyOne;
    if i < |hs| {
      NotifyOneCalls(s, hs[i], opcode, pdu, SentBy(sends, i));
      NotifyFromCalls(NotifyOne(s, hs[i], opcode, pdu, SentBy(sends, i)), hs, i + 1, opcode, pdu, sends);
    }
  }

  /** Every handler registered for the opcode is called once, in the order of registration,
      whatever the callbacks send; a request that nobody is registered for is answered. */
  lemma EveryHandlerIsCalled(s: Bearer, opcode: int, pdu: seq<int>, sends: seq<seq<SendArgs>>)
    requires opcode / 0x80 % 2 == 0
    ensures Notifications(Notify(s, opcode, pdu, sends).log)
            == Notifications(s.log) + Matching(s.handlers, 0, opcode, pdu)
    ensures Matching(s.handlers, 0, opcode, pdu) == [] && KindOf(opcode) == Req ==>
              Notify(s, opcode, pdu, sends)
              == SendOp(s, SendArgs(ERROR_RSP, [opcode, 0, 0, REQUEST_NOT_SUPPORTED], false, false))
  {
    hide HandlerMatches, Notifications, NotifyFrom, KindOf, Matching;
    NotifyFromCalls(s, s.handlers, 0, opcode, pdu, sends);
    var s1 := NotifyFrom(s, s.handlers, 0, opcode, pdu, sends);
    var a := SendArgs(ERROR_RSP, [opcode, 0, 0, REQUEST_NOT_SUPPORTED], false, false);
    SendAllCallsNone(s1, [a]);
    assert SendAll(s1, [a]) == SendOp(s1, a) by { SendAllOne(s1, a); }
    HandledMatch(s.handlers, 0, opcode, pdu);
    if !Handled(s.handlers, opcode) { NobodyNotified(s, s.handlers, 0, opcode, pdu, sends); }
  }

  lemma SendAllOne(s: Bearer, a: SendArgs)
    ensures SendAll(s, [a]) == SendOp(s, a)
  {
    hide SendOp;
    var l := [a];
    assert l[1..] == [];
  }

  lemma {:induction false} HandledMatch(hs: seq<Handler>, i: nat, opcode: int, pdu: seq<int>)
    ensures Matching(hs, i, opcode, pdu) == [] <==> forall k :: i <= k < |hs| ==> !HandlerMatches(hs[k].opcode, opcode)
    decreases |hs| - i
  {
    hide HandlerMatches;
    if i < |hs| { HandledMatch(hs, i + 1, opcode, pdu); }
  }

  lemma {:induction false} NobodyNotified(s: Bearer, hs: seq<Handler>, i: nat, opcode: int, pdu: seq<int>,
                                          sends: seq<seq<SendArgs>>)
    requires forall k :: i <= k < |hs| ==> !HandlerMatches(hs[k].opcode, opcode)
    ensures NotifyFrom(s, hs, i, opcode, pdu, sends) == s
    decreases |hs| - i
  {
    hide HandlerMatches, SendAll;
    if i < |hs| { NobodyNotified(s, hs, i + 1, opcode, pdu, sends); }
  }

  lemma ReceiveShapes(s: Bearer, opcode: int, pdu: seq<int>, sends: seq<seq<SendArgs>>)
    requires Shape(s)
    ensures Shape(Receive(s, opcode, pdu, sends))
  {
    hide Fits, KindOf, HandleRsp, HandleConf, Notify;
    var s1 := Log(s, Received(opcode, pdu));
    assert Shape(s1) && Shape(s1.(inReq := true));
    HandleRspShapes(s1, opcode, pdu, SentBy(sends, 0));
    HandleConfShapes(s1, pdu, SentBy(sends, 0));
    NotifyShapes(s1, opcode, pdu, sends);
    NotifyShapes(s1.(inReq := true), opcode, pdu, sends);
  }

  lemma ExpireShapes(s: Bearer, op: Op, sends: seq<SendArgs>)
    requires Fits(s.q) && SlotsFit(s) && Grounded(s)
    ensures Shape(Expire(s, op, sends))
  {
    hide Fits, SendAll, Free;
    SendAllFits(Log(s, TimedOut(op.id)), sends);
  }

  lemma SendFits(s: Bearer, a: SendArgs)
    requires Fits(s.q) && SlotsFit(s) && Grounded(s)
    ensures var r := SendOp(s, a); Fits(r.q) && SlotsFit(r) && Grounded(r)
  {
    hide Fits, Enqueue, Encodes, Overruns, KindOf;
    if s.io && Encodes(s.mtu, a) {
      EncodedCallback(s.mtu, a);
      EnqueueFits(s.q, OpFor(s, a));
    }
  }

  lemma {:induction false} SendAllFits(s: Bearer, sends: seq<SendArgs>)
    requires Fits(s.q) && SlotsFit(s) && Grounded(s)
    ensures var r := SendAll(s, sends); Fits(r.q) && SlotsFit(r) && Grounded(r)
    decreases |sends|
  {
    hide Fits, SendOp;
    if |sends| > 0 {
      SendFits(s, sends[0]);
      SendAllFits(SendOp(s, sends[0]), sends[1..]);
    }
  }

  lemma TimeoutShapes(s: Bearer, id: int, sends: seq<SendArgs>)
    requires Shape(s)
    ensures Shape(Timeout(s, id, sends))
  {
    hide Fits, Expire;
    if s.pendingReq.Some? && s.pendingReq.value.id == id {
      ExpireShapes(s.(pendingReq := None), s.pendingReq.value, sends);
    } else if s.pendingInd.Some? && s.pendingInd.value.id == id {
      ExpireShapes(s.(pendingInd := None), s.pendingInd.value, sends);
    }
  }

  lemma TakeOutFits(q: Queues, id: int)
    requires Fits(q)
    ensures TakeOut(q, id).Some? ==> Fits(TakeOut(q, id).value.1)
  {
    hide IndexOf;
  }

  lemma CancelShapes(s: Bearer, id: int)
    requires Shape(s)
    ensures Shape(Cancel(s, id))
  {
    hide Fits, TakeOut, Wakeup, CancelQueued, CancelPending;
    TakeOutFits(s.q, id);
    if TakeOut(s.q, id).Some? {
      var (op, q) := TakeOut(s.q, id).value;
      WakeupShapes(s.(q := q, log := CancelQueued(s.log, op)));
    }
  }

  lemma CancelAllShapes(s: Bearer)
    requires SlotsFit(s) && Grounded(s)
    ensures Shape(CancelAll(s))
  {
    hide CancelEach, CancelSlot;
  }

  lemma UnrefShapes(s: Bearer)
    requires Shape(s)
    ensures Shape(Unref(s))
  {
    hide CancelEach, CancelSlot, FreeSlot;
  }

  lemma DisconnectShapes(s: Bearer)
    requires Shape(s)
    ensures Shape(Disconnect(s))
  {
    hide CancelEach, CancelSlot, CallLost;
  }

  lemma StepShapes(s: Bearer, i: Input)
    requires Shape(s)
    ensures Shape(Step(s, i))
  {
    hide Fits, SendOp, Cancel, CancelAll, SetMtu, WriteReady, Receive, Timeout, Disconnect, Unref;
    match i
    case DoSend(args) => SendShapes(s, args);
    case DoCancel(id) => CancelShapes(s, id);
    case DoCancelAll => CancelAllShapes(s);
    case DoRegister(_) =>
    case DoRegisterDisconnect =>
    case DoSetMtu(mtu) => SetMtuShapes(s, mtu);
    case Writable(ok, sends) => WriteReadyShapes(s, ok, sends);
    case Arrives(opcode, pdu, sends) => ReceiveShapes(s, opcode, pdu, sends);
    case Expires(id, sends) => TimeoutShapes(s, id, sends);
    case LinkDown => DisconnectShapes(s);
    case DoUnref => UnrefShapes(s);
  }

  lemma SetMtuShapes(s: Bearer, mtu: int)
    requires Shape(s)
    ensures Shape(SetMtu(s, mtu))
  {
  }

  lemma {:induction false} RunShapes(s: Bearer, inputs: seq<Input>)
    requires Shape(s)
    ensures Shape(Run(s, inputs))
    decreases |inputs|
  {
    hide Shape, Step;
    if |inputs| > 0 {
      StepShapes(s, inputs[0]);
      RunShapes(Step(s, inputs[0]), inputs[1..]);
    }
  }

  /** In every state a run can reach, the bearer is awake. */
  lemma NoLostWakeup(inputs: seq<Input>)
    ensures var s := Run(NEW, inputs);
            s.alive && s.io && !s.shut && CanPick(s) ==> s.writer
  {
    hide Run;
    RunShapes(NEW, inputs);
  }

  // ---- the longest PDU

  /** A send is undefined exactly for parameters of 65535 octets on a live link: with the opcode
      their length is 0 in 16 bits, which fits every MTU, and no memory is left for them. */
  lemma OverrunsExactly(s: Bearer, a: SendArgs)
    requires !s.broken && 0 <= s.mtu
    ensures SendOp(s, a).broken <==> s.io && Proper(a) && |a.pdu| == 0xFFFF
    ensures SendOp(s, a).broken ==> SendOp(s, a) == s.(broken := true)
  {
    hide KindOf, Enqueue;
  }

  lemma LongestPduOverruns(pdu: Pdu)
    requires |pdu| == 0xFFFF
    ensures SendOp(NEW, SendArgs(ERROR_RSP, pdu, false, false)).broken
  {
    assert KindOf(ERROR_RSP) == Rsp;
  }
}
