/** bluez/att.c as it is written: an object whose entry points change queues, slots and flags
    in place. Every entry point does to the state exactly what the step of Att says. */
module AttProgram {
  import opened Wrappers
  import opened Pdus
  import opened Queue
  import opened Att

  /** get_op_type walks the table. */
  method GetOpType(opcode: int) returns (kind: Kind)
    ensures kind == KindOf(opcode)
  {
    var i := 0;
    while i < |OPCODES|
      invariant 0 <= i <= |OPCODES|
      invariant KindOf(opcode) == FindKind(OPCODES[i..], opcode)
    {
      if OPCODES[i].0 == opcode {
        return OPCODES[i].1;
      }
      assert OPCODES[i..][1..] == OPCODES[i + 1..];
      i := i + 1;
    }
    return Unknown;
  }

  /** get_req_opcode walks the other one. */
  method GetReqOpcode(rsp: int) returns (request: int)
    ensures request == RequestOf(rsp)
  {
    var i := 0;
    while i < |RESPONSES|
      invariant 0 <= i <= |RESPONSES|
      invariant RequestOf(rsp) == FindRequest(RESPONSES[i..], rsp)
    {
      if RESPONSES[i].1 == rsp {
        return RESPONSES[i].0;
      }
      assert RESPONSES[i..][1..] == RESPONSES[i + 1..];
      i := i + 1;
    }
    return 0;
  }

  /** queue_remove_if with match_op_id. */
  method RemoveIf(queue: seq<Op>, id: int) returns (op: Option<Op>, rest: seq<Op>)
    ensures var i := IndexOf(queue, id);
            if i < |queue| then op == Some(queue[i]) && rest == RemoveAt(queue, i) else op == None && rest == queue
  {
    hide RemoveAt;
    var i := 0;
    while i < |queue| && queue[i].id != id
      invariant 0 <= i <= |queue|
      invariant forall k :: 0 <= k < i ==> queue[k].id != id
    {
      i := i + 1;
    }
    FirstIndexIs(queue, (o: Op) => o.id == id, i);
    if i == |queue| {
      return None, queue;
    }
    Slices(queue, i, queue[i]);
    return Some(queue[i]), queue[..i] + queue[i + 1..];
  }

  class Attachment {
    var reqQueue: seq<Op>
    var indQueue: seq<Op>
    var writeQueue: seq<Op>
    var pendingReq: Option<Op>
    var pendingInd: Option<Op>
    var writerActive: bool
    var reading: bool
    var inReq: bool
    var io: bool
    var shut: bool
    var alive: bool
    var mtu: int
    var nextSendId: int
    var notifyList: seq<Handler>
    var disconnList: seq<int>
    var nextRegId: int
    ghost var broken: bool
    ghost var log: seq<Event>

    ghost function State(): Bearer
      reads this
    {
      Bearer(Queues(reqQueue, indQueue, writeQueue), pendingReq, pendingInd, writerActive, reading, inReq,
             io, shut, alive, mtu, nextSendId, notifyList, disconnList, nextRegId,
             broken, log)
    }

    constructor ()
      ensures State() == NEW
    {
      reqQueue, indQueue, writeQueue := [], [], [];
      pendingReq, pendingInd := None, None;
      writerActive, reading, inReq, io, shut, alive := false, true, false, true, false, true;
      mtu, nextSendId, notifyList, disconnList, nextRegId := DEFAULT_MTU, 0, [], [], 0;
      broken, log := false, [];
    }

    method Note(ghost e: Event)
      modifies this`log
      ensures log == old(log) + [e]
    {
      log := log + [e];
    }

    method DestroySendOp(op: Op)
      modifies this`log
      ensures log == Free(old(log), op)
    {
      if op.destroy {
        Note(Destroyed(op.id));
      }
      Note(Freed(op.id));
    }

    /** cancel_att_send_op: the handlers go, the operation stays. */
    method CancelSendOp(op: Op) returns (detached: Op)
      modifies this`log
      ensures log == CancelPending(old(log), op) && detached == Detached(op)
    {
      Note(Cancelled(op.id));
      if op.destroy {
        Note(Destroyed(op.id));
      }
      return op.(callback := false, destroy := false);
    }

    // ---- sending

    method WakeupWriter()
      modifies this`writerActive
      ensures State() == Wakeup(old(State()))
    {
      if writerActive {
        return;
      }
      if |writeQueue| == 0 {
        if (pendingReq.Some? || |reqQueue| == 0) && (pendingInd.Some? || |indQueue| == 0) {
          return;
        }
      }
      if !io {
        return;
      }
      writerActive := true;
    }

    /** create_att_send_op with encode_pdu, whose length has 16 bits. */
    method CreateSendOp(a: SendArgs) returns (op: Option<Op>)
      modifies this`broken
      ensures broken == (old(broken) || Overruns(mtu, a))
      ensures op == if Encodes(mtu, a) then Some(Op(0, KindOf(a.opcode), a.opcode, a.pdu, a.callback, a.destroy))
              else None
    {
      var kind := GetOpType(a.opcode);
      if kind == Unknown {
        return None;
      }
      if a.callback && kind != Req && kind != Ind {
        return None;
      }
      if !a.callback && (kind == Req || kind == Ind) {
        return None;
      }
      var length := 1;
      if |a.pdu| > 0 {
        length := (length + |a.pdu|) % 0x1_0000;
      }
      if length > mtu {
        return None;
      }
      if length == 0 {
        broken := true;
        return None;
      }
      return Some(Op(0, kind, a.opcode, a.pdu, a.callback, a.destroy));
    }

    /** bt_att_send; 0 says that it refused. */
    method Send(a: SendArgs) returns (id: int)
      modifies this
      ensures State() == SendOp(old(State()), a)
      ensures id == if old(io) && Encodes(old(mtu), a) then FreshId(old(State())) else 0
    {
      NotBoth(mtu, a);
      hide Encodes, Overruns, KindOf, Enqueue, Wakeup;
      if !io {
        return 0;
      }
      var created := CreateSendOp(a);
      if created == None {
        return 0;
      }
      if nextSendId < 1 {
        nextSendId := 1;
      }
      var op := created.value.(id := nextSendId);
      nextSendId := nextSendId + 1;
      Accept(op);
      return op.id;
    }

    method Accept(op: Op)
      modifies this
      ensures State() == Wakeup(old(State().(log := log + [Accepted(op)], q := Enqueue(State().q, op))))
    {
      hide Enqueue, Wakeup;
      Note(Accepted(op));
      PushTail(op);
      WakeupWriter();
    }

    /** The operation goes to the end of the queue of its kind. */
    method PushTail(op: Op)
      modifies this`reqQueue, this`indQueue, this`writeQueue
      ensures Queues(reqQueue, indQueue, writeQueue) == Enqueue(old(State()).q, op)
    {
      match op.kind {
        case Req => reqQueue := reqQueue + [op];
        case Ind => indQueue := indQueue + [op];
        case _ => writeQueue := writeQueue + [op];
      }
    }

    /** What a callback sends while it runs. */
    method SendEach(sends: seq<SendArgs>)
      modifies this
      ensures State() == SendAll(old(State()), sends)
    {
      hide SendOp;
      var i := 0;
      while i < |sends|
        invariant 0 <= i <= |sends|
        invariant SendAll(old(State()), sends) == SendAll(State(), sends[i..])
      {
        assert sends[i..][1..] == sends[i + 1..];
        var _ := Send(sends[i]);
        i := i + 1;
      }
    }

    method Callback(op: Op, rsp: int, body: seq<int>, sends: seq<SendArgs>)
      modifies this
      ensures State() == Call(old(State()), op, rsp, body, sends)
    {
      hide SendAll;
      if op.callback {
        Note(Called(op.id, op.opcode, rsp, body));
        SendEach(sends);
      }
    }

    // ---- the writer

    method PickNextSendOp() returns (op: Option<Op>)
      modifies this`reqQueue, this`indQueue, this`writeQueue
      ensures op.Some? == CanPick(old(State()))
      ensures State() == if op.Some? then old(State()).(q := Pick(old(State())).1) else old(State())
      ensures op.Some? ==> op.value == Pick(old(State())).0
    {
      if |writeQueue| > 0 {
        op, writeQueue := Some(writeQueue[0]), writeQueue[1..];
        return;
      }
      if pendingReq.None? && |reqQueue| > 0 {
        op, reqQueue := Some(reqQueue[0]), reqQueue[1..];
        return;
      }
      if pendingInd.None? && |indQueue| > 0 {
        op, indQueue := Some(indQueue[0]), indQueue[1..];
        return;
      }
      return None;
    }

    /** can_write_data behind its write handler; ok is the outcome of io_send. */
    method CanWriteData(ok: bool, sends: seq<SendArgs>)
      modifies this
      ensures State() == WriteReady(old(State()), ok, sends)
    {
      hide CanPick, Pick, Call, Free;
      if !writerActive || !io {
        return;
      }
      var picked := PickNextSendOp();
      if picked == None {
        writerActive := false;
        return;
      }
      var op := picked.value;
      if !ok || shut {
        WriteFailed(op, sends);
        return;
      }
      WentOut(op);
    }

    method WentOut(op: Op)
      modifies this
      ensures State() == old(State()).(
                log := if op.kind == Req || op.kind == Ind then old(log) + [Wire(op)]
                       else Free(old(log) + [Wire(op)], op),
                pendingReq := if op.kind == Req then Some(op) else old(pendingReq),
                pendingInd := if op.kind == Ind then Some(op) else old(pendingInd),
                inReq := old(inReq) && op.kind != Rsp)
    {
      hide Free;
      Note(Wire(op));
      KeepOrDestroy(op);
    }

    method WriteFailed(op: Op, sends: seq<SendArgs>)
      modifies this
      ensures State() == Freeing(Call(old(State()), op, ERROR_RSP, [], sends), op)
    {
      hide Call, Free;
      Callback(op, ERROR_RSP, [], sends);
      DestroySendOp(op);
    }

    /** What needs an answer becomes pending; the rest is done with. */
    method KeepOrDestroy(op: Op)
      modifies this`pendingReq, this`pendingInd, this`inReq, this`log
      ensures log == if op.kind == Req || op.kind == Ind then old(log) else Free(old(log), op)
      ensures pendingReq == if op.kind == Req then Some(op) else old(pendingReq)
      ensures pendingInd == if op.kind == Ind then Some(op) else old(pendingInd)
      ensures inReq == (old(inReq) && op.kind != Rsp)
    {
      hide Free;
      match op.kind {
        case Req => pendingReq := Some(op);
        case Ind => pendingInd := Some(op);
        case Rsp => inReq := false; DestroySendOp(op);
        case _ => DestroySendOp(op);
      }
    }

    // ---- the reader

    method IoShutdown()
      modifies this`shut, this`log
      ensures State() == ShutDown(old(State()))
    {
      shut := true;
      Note(Shutdown);
    }

    method HandleResponse(opcode: int, pdu: seq<int>, sends: seq<SendArgs>)
      modifies this
      ensures State() == HandleRsp(old(State()), opcode, pdu, sends)
    {
      hide Call, Free, Wakeup, RequestOf;
      if pendingReq == None {
        IoShutdown();
        return;
      }
      var op := pendingReq.value;
      var fail := false;
      var request := 0;
      if opcode == ERROR_RSP {
        if |pdu| != 4 {
          fail := true;
        } else {
          request := pdu[0];
        }
      } else {
        request := GetReqOpcode(opcode);
        fail := request == 0;
      }
      if fail || request != op.opcode {
        Callback(op, ERROR_RSP, [], sends);
      } else {
        Callback(op, opcode, pdu, sends);
      }
      DestroySendOp(op);
      pendingReq := None;
      WakeupWriter();
    }

    method HandleConfirmation(pdu: seq<int>, sends: seq<SendArgs>)
      modifies this
      ensures State() == HandleConf(old(State()), pdu, sends)
    {
      hide Call, Free, Wakeup;
      if pendingInd == None || |pdu| != 0 {
        IoShutdown();
        return;
      }
      var op := pendingInd.value;
      Callback(op, HANDLE_VAL_CONF, [], sends);
      DestroySendOp(op);
      pendingInd := None;
      WakeupWriter();
    }

    method OpcodeMatch(handler: int, opcode: int) returns (matches: bool)
      ensures matches == HandlerMatches(handler, opcode)
    {
      hide KindOf;
      var kind := GetOpType(opcode);
      if handler == ALL_REQUESTS && (kind == Req || kind == Cmd) {
        return true;
      }
      return handler == opcode;
    }

    method HandleNotify(opcode: int, pdu: seq<int>, sends: seq<seq<SendArgs>>)
      modifies this
      ensures State() == Notify(old(State()), opcode, pdu, sends)
    {
      hide HandlerMatches, KindOf, SendOp, NotifyFrom;
      if opcode / 0x80 % 2 == 1 {
        return;
      }
      var found := CallHandlers(opcode, pdu, sends);
      if found {
        return;
      }
      var kind := GetOpType(opcode);
      if kind == Req {
        RespondNotSupported(opcode);
      }
    }

    /** The loop over notify_list. */
    method CallHandlers(opcode: int, pdu: seq<int>, sends: seq<seq<SendArgs>>) returns (found: bool)
      modifies this
      ensures State() == NotifyFrom(old(State()), old(notifyList), 0, opcode, pdu, sends)
      ensures found == Handled(old(notifyList), opcode)
    {
      hide HandlerMatches, SendAll, NotifyFrom;
      ghost var before := State();
      var entries := notifyList;
      found := false;
      var i := 0;
      while i < |entries|
        invariant 0 <= i <= |entries|
        invariant NotifyFrom(before, entries, 0, opcode, pdu, sends)
                  == NotifyFrom(State(), entries, i, opcode, pdu, sends)
        invariant found <==> Handled(entries[..i], opcode)
      {
        NotifyUnfolds(State(), entries, i, opcode, pdu, sends);
        HandledPush(entries[..i], entries[i], opcode);
        assert entries[..i + 1] == entries[..i] + [entries[i]];
        var matches := OpcodeMatch(entries[i].opcode, opcode);
        if matches {
          found := true;
          Note(Notified(entries[i].id, opcode, pdu));
          SendEach(SentBy(sends, i));
        }
        i := i + 1;
      }
      assert entries[..i] == entries;
      NotifyEnds(State(), entries, i, opcode, pdu, sends);
    }

    method RespondNotSupported(opcode: int)
      modifies this
      ensures State() == SendOp(old(State()), SendArgs(ERROR_RSP, [opcode, 0, 0, REQUEST_NOT_SUPPORTED], false, false))
    {
      hide SendOp;
      var pdu := [opcode, 0, 0, REQUEST_NOT_SUPPORTED];
      var _ := Send(SendArgs(ERROR_RSP, pdu, false, false));
    }

    method CanReadData(opcode: int, pdu: seq<int>, sends: seq<seq<SendArgs>>)
      modifies this
      ensures State() == Receive(old(State()), opcode, pdu, sends)
    {
      hide KindOf, HandleRsp, HandleConf, Notify;
      if !reading || !io {
        return;
      }
      Note(Received(opcode, pdu));
      var kind := GetOpType(opcode);
      match kind {
        case Rsp => HandleResponse(opcode, pdu, SentBy(sends, 0));
        case Conf => HandleConfirmation(pdu, SentBy(sends, 0));
        case Req =>
          if inReq {
            IoShutdown();
            reading := false;
            return;
          }
          inReq := true;
          HandleNotify(opcode, pdu, sends);
        case _ => HandleNotify(opcode, pdu, sends);
      }
    }

    // ---- timeout, cancellation, the end

    method TimeoutCb(id: int, sends: seq<SendArgs>)
      modifies this
      ensures State() == Timeout(old(State()), id, sends)
    {
      hide Expire;
      var op: Option<Op> := None;
      if pendingReq.Some? && pendingReq.value.id == id {
        op, pendingReq := pendingReq, None;
      } else if pendingInd.Some? && pendingInd.value.id == id {
        op, pendingInd := pendingInd, None;
      }
      if op == None {
        return;
      }
      Expired(op.value, sends);
    }

    /** The timeout handler runs, the operation is destroyed and the bearer shut down. */
    method Expired(op: Op, sends: seq<SendArgs>)
      modifies this
      ensures State() == Expire(old(State()), op, sends)
    {
      hide SendAll, Free;
      Note(TimedOut(op.id));
      SendEach(sends);
      DestroySendOp(op);
      IoShutdown();
    }

    /** The operation with this id is outstanding. */
    predicate Holds(id: int)
      reads this
    {
      (pendingReq.Some? && pendingReq.value.id == id) || (pendingInd.Some? && pendingInd.value.id == id)
    }

    method CancelSend(id: int) returns (done: bool)
      modifies this
      ensures State() == Cancel(old(State()), id)
      ensures done <==> id != 0 && (old(Holds(id)) || TakeOut(old(State()).q, id).Some?)
    {
      hide Wakeup, TakeOut, CancelPending, CancelQueued, Detached;
      if id == 0 {
        return false;
      }
      if pendingReq.Some? && pendingReq.value.id == id {
        CancelPendingReq();
        return true;
      }
      if pendingInd.Some? && pendingInd.value.id == id {
        CancelPendingInd();
        return true;
      }
      done := CancelWaiting(id);
    }

    method CancelWaiting(id: int) returns (done: bool)
      modifies this
      ensures State() == match TakeOut(old(State()).q, id)
                         case None => old(State())
                         case Some((op, q)) => Wakeup(old(State()).(q := q, log := CancelQueued(old(log), op)))
      ensures done <==> TakeOut(old(State()).q, id).Some?
    {
      hide Wakeup, TakeOut, CancelQueued;
      done := RemoveQueued(id);
      if done {
        WakeupWriter();
      }
    }

    method CancelPendingReq()
      requires pendingReq.Some?
      modifies this`pendingReq, this`log
      ensures State() == old(State().(log := CancelPending(log, pendingReq.value),
                                      pendingReq := Some(Detached(pendingReq.value))))
    {
      hide CancelPending;
      var detached := CancelSendOp(pendingReq.value);
      pendingReq := Some(detached);
    }

    method CancelPendingInd()
      requires pendingInd.Some?
      modifies this`pendingInd, this`log
      ensures State() == old(State().(log := CancelPending(log, pendingInd.value),
                                      pendingInd := Some(Detached(pendingInd.value))))
    {
      hide CancelPending;
      var detached := CancelSendOp(pendingInd.value);
      pendingInd := Some(detached);
    }

    /** The operation is taken out of its queue and destroyed. */
    method RemoveQueued(id: int) returns (done: bool)
      modifies this
      ensures done == TakeOut(old(State()).q, id).Some?
      ensures State() == match TakeOut(old(State()).q, id)
                         case None => old(State())
                         case Some((op, q)) => old(State()).(q := q, log := CancelQueued(old(log), op))
    {
      hide CancelQueued, TakeOut;
      var op := RemoveWaiting(id);
      if op == None {
        return false;
      }
      CancelAndDestroy(op.value);
      return true;
    }

    /** One queue after the other is searched. */
    method RemoveWaiting(id: int) returns (op: Option<Op>)
      modifies this`reqQueue, this`indQueue, this`writeQueue
      ensures match TakeOut(old(State()).q, id)
              case None => op == None && State() == old(State())
              case Some((o, q)) => op == Some(o) && State() == old(State()).(q := q)
    {
      hide RemoveAt, IndexOf;
      op, reqQueue := RemoveIf(reqQueue, id);
      if op == None {
        op, indQueue := RemoveIf(indQueue, id);
      }
      if op == None {
        op, writeQueue := RemoveIf(writeQueue, id);
      }
    }

    method CancelAndDestroy(op: Op)
      modifies this`log
      ensures log == CancelQueued(old(log), op)
    {
      Note(Cancelled(op.id));
      DestroySendOp(op);
    }

    method DestroyEach(ops: seq<Op>)
      modifies this`log
      ensures log == CancelEach(old(log), ops)
    {
      hide CancelQueued;
      var i := 0;
      while i < |ops|
        invariant 0 <= i <= |ops|
        invariant CancelEach(old(log), ops) == CancelEach(log, ops[i..])
      {
        assert ops[i..][1..] == ops[i + 1..];
        CancelAndDestroy(ops[i]);
        i := i + 1;
      }
    }

    method EmptyQueues()
      modifies this`reqQueue, this`indQueue, this`writeQueue, this`log
      ensures reqQueue == [] && indQueue == [] && writeQueue == []
      ensures log == CancelEach(CancelEach(CancelEach(old(log), old(reqQueue)), old(indQueue)), old(writeQueue))
    {
      hide CancelEach;
      DestroyEach(reqQueue);
      reqQueue := [];
      DestroyEach(indQueue);
      indQueue := [];
      DestroyEach(writeQueue);
      writeQueue := [];
    }

    method CancelAllSends()
      modifies this
      ensures State() == CancelAll(old(State()))
    {
      hide CancelEach, CancelPending, Detached;
      EmptyQueues();
      if pendingReq.Some? {
        CancelPendingReq();
      }
      if pendingInd.Some? {
        CancelPendingInd();
      }
    }

    method DisconnectCb()
      modifies this
      ensures State() == Disconnect(old(State()))
    {
      hide CancelAll, CallLost;
      if !io {
        return;
      }
      io, writerActive, reading := false, false, false;
      CancelAllSends();
      DropHandlers();
    }

    /** The disconnect handlers are called, and all handlers unregistered. */
    method DropHandlers()
      modifies this`log, this`notifyList, this`disconnList
      ensures State() == old(State()).(log := CallLost(old(log), old(disconnList)), handlers := [], disconnects := [])
    {
      hide CallLost;
      CallDisconnected();
      UnregisterAll();
    }

    /** queue_foreach over disconn_list. */
    method CallDisconnected()
      modifies this`log
      ensures log == CallLost(old(log), disconnList)
    {
      var i := 0;
      while i < |disconnList|
        invariant 0 <= i <= |disconnList|
        invariant CallLost(old(log), disconnList) == CallLost(log, disconnList[i..])
      {
        assert disconnList[i..][1..] == disconnList[i + 1..];
        Note(LinkLost(disconnList[i]));
        i := i + 1;
      }
    }

    method UnregisterAll()
      modifies this`notifyList, this`disconnList
      ensures notifyList == [] && disconnList == []
    {
      notifyList, disconnList := [], [];
    }

    /** bt_att_register; 0 says that it refused. */
    method RegisterHandler(opcode: int) returns (id: int)
      modifies this
      ensures State() == Register(old(State()), opcode)
      ensures id == if old(io) then FreshRegId(old(State())) else 0
    {
      if !io {
        return 0;
      }
      id := NextRegId();
      notifyList := notifyList + [Handler(id, opcode)];
    }

    /** bt_att_register_disconnect. */
    method RegisterDisconnectHandler() returns (id: int)
      modifies this
      ensures State() == RegisterDisconnect(old(State()))
      ensures id == if old(io) then FreshRegId(old(State())) else 0
    {
      if !io {
        return 0;
      }
      id := NextRegId();
      disconnList := disconnList + [id];
    }

    method NextRegId() returns (id: int)
      modifies this`nextRegId
      ensures id == old(FreshRegId(State())) && nextRegId == id + 1
    {
      if nextRegId < 1 {
        nextRegId := 1;
      }
      id := nextRegId;
      nextRegId := nextRegId + 1;
    }

    /** bt_att_unref of the last reference, with bt_att_free. */
    method UnrefLast()
      modifies this
      ensures State() == Unref(old(State()))
    {
      hide CancelAll, FreeSlot;
      CancelAllSends();
      UnregisterAll();
      FreePending();
      alive, io, writerActive, reading := false, false, false, false;
    }

    /** bt_att_free destroys what is still pending. */
    method FreePending()
      modifies this`pendingReq, this`pendingInd, this`log
      ensures pendingReq == None && pendingInd == None
      ensures log == FreeSlot(FreeSlot(old(log), old(pendingReq)), old(pendingInd))
    {
      hide Free;
      if pendingReq.Some? {
        DestroySendOp(pendingReq.value);
        pendingReq := None;
      }
      if pendingInd.Some? {
        DestroySendOp(pendingInd.value);
        pendingInd := None;
      }
    }

    method SetMtuTo(value: int) returns (ok: bool)
      modifies this
      ensures State() == SetMtu(old(State()), value) && ok == (value >= DEFAULT_MTU)
    {
      if value < DEFAULT_MTU {
        return false;
      }
      mtu := value;
      return true;
    }
  }

  lemma NotifyUnfolds(s: Bearer, hs: seq<Handler>, i: nat, opcode: int, pdu: seq<int>, sends: seq<seq<SendArgs>>)
    requires i < |hs|
    ensures NotifyFrom(s, hs, i, opcode, pdu, sends)
            == NotifyFrom(NotifyOne(s, hs[i], opcode, pdu, SentBy(sends, i)), hs, i + 1, opcode, pdu, sends)
  {
    hide NotifyOne;
  }

  lemma NotifyEnds(s: Bearer, hs: seq<Handler>, i: nat, opcode: int, pdu: seq<int>, sends: seq<seq<SendArgs>>)
    requires i >= |hs|
    ensures NotifyFrom(s, hs, i, opcode, pdu, sends) == s
  {
  }

  lemma HandledPush(handlers: seq<Handler>, handler: Handler, opcode: int)
    ensures Handled(handlers + [handler], opcode)
            <==> Handled(handlers, opcode) || HandlerMatches(handler.opcode, opcode)
  {
    hide HandlerMatches;
    var all := handlers + [handler];
    if Handled(handlers, opcode) {
      var i :| 0 <= i < |handlers| && HandlerMatches(handlers[i].opcode, opcode);
      assert all[i] == handlers[i];
    }
    assert all[|handlers|] == handler;
  }
}
