/** The ATT bearer of bluez/att.c as a state machine: three queues, one slot for the request
    and one for the indication that is outstanding, and a flag that says whether a write
    handler is installed. Callbacks may send; what they send is part of the input. */
module Att {
  import opened Wrappers
  import opened Pdus
  import opened Queue

  const DEFAULT_MTU := 23

  const WRITE_REQ := 0x12
  const HANDLE_VAL_IND := 0x1D
  const HANDLE_VAL_CONF := 0x1E
  const ALL_REQUESTS := 0x00
  const REQUEST_NOT_SUPPORTED := 0x06

  datatype Kind = Req | Rsp | Cmd | Ind | Not | Conf | Unknown

  const OPCODES: seq<(int, Kind)> := [
    (0x01, Rsp), (0x02, Req), (0x03, Rsp), (0x04, Req), (0x05, Rsp), (0x06, Req), (0x07, Rsp),
    (0x08, Req), (0x09, Rsp), (0x0A, Req), (0x0B, Rsp), (0x0C, Req), (0x0D, Rsp), (0x0E, Req),
    (0x0F, Rsp), (0x10, Req), (0x11, Rsp), (0x12, Req), (0x13, Rsp), (0x52, Cmd), (0xD2, Cmd),
    (0x16, Req), (0x17, Rsp), (0x18, Req), (0x19, Rsp), (0x1B, Not), (0x1D, Ind), (0x1E, Conf)]

  /** Requests and their responses. */
  const RESPONSES: seq<(int, int)> := [
    (0x02, 0x03), (0x04, 0x05), (0x06, 0x07), (0x08, 0x09), (0x0A, 0x0B), (0x0C, 0x0D),
    (0x0E, 0x0F), (0x10, 0x11), (0x12, 0x13), (0x16, 0x17), (0x18, 0x19)]

  function FindKind(table: seq<(int, Kind)>, opcode: int): Kind {
    if |table| == 0 then Unknown
    else if table[0].0 == opcode then table[0].1
    else FindKind(table[1..], opcode)
  }

  function FindRequest(table: seq<(int, int)>, rsp: int): int {
    if |table| == 0 then 0
    else if table[0].1 == rsp then table[0].0
    else FindRequest(table[1..], rsp)
  }

  function KindOf(opcode: int): Kind { FindKind(OPCODES, opcode) }

  /** The request a response answers, or 0. */
  function RequestOf(rsp: int): int { FindRequest(RESPONSES, rsp) }

  /** callback and destroy say whether such a handler is attached. */
  datatype Op = Op(id: int, kind: Kind, opcode: int, pdu: seq<int>, callback: bool, destroy: bool)

  /** Its length has 16 bits. */
  type Pdu = p: seq<int> | |p| <= 0xFFFF

  datatype SendArgs = SendArgs(opcode: int, pdu: Pdu, callback: bool, destroy: bool)

  datatype Event =
    | Accepted(op: Op)                                        // bt_att_send took it
    | Wire(op: Op)                                            // it went out
    | Called(id: int, request: int, rsp: int, body: seq<int>) // its response callback ran
    | Cancelled(id: int)                                      // it was cancelled
    | TimedOut(id: int)                                       // no answer came, the timeout handler ran
    | Destroyed(id: int)                                      // its destroy handler ran
    | Freed(id: int)                                          // it is gone
    | Received(opcode: int, body: seq<int>)                   // a PDU was read
    | Notified(handler: int, opcode: int, body: seq<int>) // this notification handler ran
    | LinkLost(handler: int)                  // this disconnect handler ran
    | Shutdown

  /** A notification handler; the opcode ALL_REQUESTS stands for all requests and commands. */
  datatype Handler = Handler(id: int, opcode: int)

  /** What waits to be sent: requests, indications, and everything that needs no response. */
  datatype Queues = Queues(reqs: seq<Op>, inds: seq<Op>, writes: seq<Op>)

  datatype Bearer = Bearer(
    q: Queues,
    pendingReq: Option<Op>,
    pendingInd: Option<Op>,
    writer: bool,        // a write handler is installed
    reading: bool,       // a read handler is installed
    inReq: bool,         // an incoming request has not been answered
    io: bool,            // the link has not been reported down
    shut: bool,          // io_shutdown was called
    alive: bool,         // the last reference is not gone
    mtu: int,
    nextId: int,
    handlers: seq<Handler>,  // notify_list
    disconnects: seq<int>,   // disconn_list
    nextRegId: int,
    broken: bool,            // the behaviour is no longer defined
    log: seq<Event>)

  const NEW := Bearer(Queues([], [], []), None, None, false, true, false, true, false, true, DEFAULT_MTU, 0, [], [],
                      0, false, [])

  function Log(s: Bearer, e: Event): Bearer { s.(log := s.log + [e]) }

  // ---- sending

  /** encode_pdu and create_att_send_op, without a signing key. */
  predicate Encodes(mtu: int, a: SendArgs) {
    Proper(a) && |a.pdu| < 0xFFFF && 1 + |a.pdu| <= mtu
  }

  /** The opcode is known, and there is a callback if and only if there will be an answer. */
  predicate Proper(a: SendArgs) {
    var kind := KindOf(a.opcode); kind != Unknown && (a.callback <==> kind == Req || kind == Ind)
  }

  /** With the opcode the length is 0 in 16 bits: encode_pdu writes into no memory. */
  predicate Overruns(mtu: int, a: SendArgs) { Proper(a) && |a.pdu| == 0xFFFF && 0 <= mtu }

  lemma NotBoth(mtu: int, a: SendArgs)
    ensures Overruns(mtu, a) ==> !Encodes(mtu, a)
  {
    hide KindOf;
  }

  /** pick_next_send_op would find something. */
  predicate CanPick(s: Bearer) {
    |s.q.writes| > 0 || (s.pendingReq.None? && |s.q.reqs| > 0) || (s.pendingInd.None? && |s.q.inds| > 0)
  }

  function Wakeup(s: Bearer): Bearer {
    s.(writer :=
      if s.writer then true
      else if |s.q.writes| == 0 && (s.pendingReq.Some? || |s.q.reqs| == 0)
              && (s.pendingInd.Some? || |s.q.inds| == 0)
      then false
      else s.io)
  }

  function FreshId(s: Bearer): int { if s.nextId < 1 then 1 else s.nextId }

  function OpFor(s: Bearer, a: SendArgs): Op {
    Op(FreshId(s), KindOf(a.opcode), a.opcode, a.pdu, a.callback, a.destroy)
  }

  function Enqueue(q: Queues, op: Op): Queues {
    if op.kind == Req then q.(reqs := q.reqs + [op])
    else if op.kind == Ind then q.(inds := q.inds + [op])
    else q.(writes := q.writes + [op])
  }

  function SendOp(s: Bearer, a: SendArgs): Bearer {
    if !s.io then s
    else if Overruns(s.mtu, a) then s.(broken := true)
    else if !Encodes(s.mtu, a) then s
    else
      var op := OpFor(s, a);
      Wakeup(s.(nextId := op.id + 1, log := s.log + [Accepted(op)], q := Enqueue(s.q, op)))
  }

  function SendAll(s: Bearer, sends: seq<SendArgs>): Bearer
    decreases |sends|
  {
    if |sends| == 0 then s else SendAll(SendOp(s, sends[0]), sends[1..])
  }

  // ---- the life of an operation

  /** destroy_att_send_op. */
  function Free(log: seq<Event>, op: Op): seq<Event> {
    (if op.destroy then log + [Destroyed(op.id)] else log) + [Freed(op.id)]
  }

  function Detached(op: Op): Op { op.(callback := false, destroy := false) }

  /** Cancelling an operation that is still queued. */
  function CancelQueued(log: seq<Event>, op: Op): seq<Event> {
    Free(log + [Cancelled(op.id)], op)
  }

  /** cancel_att_send_op: the operation stays, without handlers. */
  function CancelPending(log: seq<Event>, op: Op): seq<Event> {
    if op.destroy then log + [Cancelled(op.id)] + [Destroyed(op.id)] else log + [Cancelled(op.id)]
  }

  /** The response callback, if it is still attached, and what it sends. */
  function Call(s: Bearer, op: Op, rsp: int, body: seq<int>, sends: seq<SendArgs>): Bearer {
    if op.callback then SendAll(Log(s, Called(op.id, op.opcode, rsp, body)), sends) else s
  }

  function Freeing(s: Bearer, op: Op): Bearer { s.(log := Free(s.log, op)) }

  // ---- the writer

  /** pick_next_send_op: the operation and the queues without it. */
  function Pick(s: Bearer): (r: (Op, Queues))
    requires CanPick(s)
  {
    var q := s.q;
    if |q.writes| > 0 then (q.writes[0], q.(writes := q.writes[1..]))
    else if s.pendingReq.None? && |q.reqs| > 0 then (q.reqs[0], q.(reqs := q.reqs[1..]))
    else (q.inds[0], q.(inds := q.inds[1..]))
  }

  /** can_write_data; nothing can be written to a link that was shut down. */
  function WriteReady(s: Bearer, ok: bool, sends: seq<SendArgs>): Bearer {
    if !s.writer || !s.io then s
    else if !CanPick(s) then s.(writer := false)
    else
      var (op, q) := Pick(s);
      var s1 := s.(q := q);
      if !ok || s.shut then Freeing(Call(s1, op, ERROR_RSP, [], sends), op)
      else
        var log := s1.log + [Wire(op)];
        var stays := op.kind == Req || op.kind == Ind;
        s1.(log := if stays then log else Free(log, op),
            pendingReq := if op.kind == Req then Some(op) else s1.pendingReq,
            pendingInd := if op.kind == Ind then Some(op) else s1.pendingInd,
            inReq := s1.inReq && op.kind != Rsp)
  }

  // ---- the reader

  function ShutDown(s: Bearer): Bearer { Log(s.(shut := true), Shutdown) }

  /** The response is one to the pending request. */
  predicate Matches(op: Op, opcode: int, pdu: seq<int>) {
    if opcode == ERROR_RSP then |pdu| == 4 && pdu[0] == op.opcode
    else RequestOf(opcode) != 0 && RequestOf(opcode) == op.opcode
  }

  function HandleRsp(s: Bearer, opcode: int, pdu: seq<int>, sends: seq<SendArgs>): Bearer {
    if s.pendingReq.None? then ShutDown(s)
    else
      var op := s.pendingReq.value;
      var s1 := if Matches(op, opcode, pdu) then Call(s, op, opcode, pdu, sends)
                else Call(s, op, ERROR_RSP, [], sends);
      Wakeup(Freeing(s1, op).(pendingReq := None))
  }

  function HandleConf(s: Bearer, pdu: seq<int>, sends: seq<SendArgs>): Bearer {
    if s.pendingInd.None? || |pdu| > 0 then ShutDown(s)
    else
      var op := s.pendingInd.value;
      Wakeup(Freeing(Call(s, op, HANDLE_VAL_CONF, [], sends), op).(pendingInd := None))
  }

  predicate HandlerMatches(handler: int, opcode: int) {
    handler == opcode || (handler == ALL_REQUESTS && (KindOf(opcode) == Req || KindOf(opcode) == Cmd))
  }

  predicate Handled(handlers: seq<Handler>, opcode: int)
  {
    exists i :: 0 <= i < |handlers| && HandlerMatches(handlers[i].opcode, opcode)
  }

  /** What callback number i sends. */
  function SentBy(sends: seq<seq<SendArgs>>, i: nat): seq<SendArgs> { if i < |sends| then sends[i] else [] }

  /** One handler of the list: if it matches it is called, and sends. */
  function NotifyOne(s: Bearer, h: Handler, opcode: int, pdu: seq<int>, sends: seq<SendArgs>): Bearer {
    if HandlerMatches(h.opcode, opcode) then SendAll(Log(s, Notified(h.id, opcode, pdu)), sends) else s
  }

  /** The loop of handle_notify, from the i-th handler on. */
  function NotifyFrom(s: Bearer, handlers: seq<Handler>, i: nat, opcode: int, pdu: seq<int>,
                      sends: seq<seq<SendArgs>>): Bearer
    decreases |handlers| - i
  {
    if i >= |handlers| then s
    else NotifyFrom(NotifyOne(s, handlers[i], opcode, pdu, SentBy(sends, i)), handlers, i + 1, opcode, pdu, sends)
  }

  /** handle_notify; without a key a signed PDU is dropped. */
  function Notify(s: Bearer, opcode: int, pdu: seq<int>, sends: seq<seq<SendArgs>>): Bearer {
    if opcode / 0x80 % 2 == 1 then s
    else
      var s1 := NotifyFrom(s, s.handlers, 0, opcode, pdu, sends);
      if !Handled(s.handlers, opcode) && KindOf(opcode) == Req then
        SendOp(s1, SendArgs(ERROR_RSP, [opcode, 0, 0, REQUEST_NOT_SUPPORTED], false, false))
      else s1
  }

  /** can_read_data for a PDU of at least one octet; sends is what each callback sends. */
  function Receive(s: Bearer, opcode: int, pdu: seq<int>, sends: seq<seq<SendArgs>>): Bearer {
    if !s.reading || !s.io then s
    else
      var s1 := Log(s, Received(opcode, pdu));
      match KindOf(opcode)
      case Rsp => HandleRsp(s1, opcode, pdu, SentBy(sends, 0))
      case Conf => HandleConf(s1, pdu, SentBy(sends, 0))
      case Req =>
        if s.inReq then ShutDown(s1).(reading := false)
        else Notify(s1.(inReq := true), opcode, pdu, sends)
      case _ => Notify(s1, opcode, pdu, sends)
  }

  // ---- timeout, cancellation, the end

  function Expire(s: Bearer, op: Op, sends: seq<SendArgs>): Bearer {
    ShutDown(Freeing(SendAll(Log(s, TimedOut(op.id)), sends), op))
  }

  /** timeout_cb for the timer of this id; `sends` is what the timeout handler sends. */
  function Timeout(s: Bearer, id: int, sends: seq<SendArgs>): Bearer {
    if s.pendingReq.Some? && s.pendingReq.value.id == id then
      Expire(s.(pendingReq := None), s.pendingReq.value, sends)
    else if s.pendingInd.Some? && s.pendingInd.value.id == id then
      Expire(s.(pendingInd := None), s.pendingInd.value, sends)
    else s
  }

  function IndexOf(q: seq<Op>, id: int): nat { FirstIndex(q, (o: Op) => o.id == id) }

  /** The queued operation with this id, looked for queue by queue, and the queues without it. */
  function TakeOut(q: Queues, id: int): Option<(Op, Queues)> {
    var i, j, k := IndexOf(q.reqs, id), IndexOf(q.inds, id), IndexOf(q.writes, id);
    if i < |q.reqs| then Some((q.reqs[i], q.(reqs := RemoveAt(q.reqs, i))))
    else if j < |q.inds| then Some((q.inds[j], q.(inds := RemoveAt(q.inds, j))))
    else if k < |q.writes| then Some((q.writes[k], q.(writes := RemoveAt(q.writes, k))))
    else None
  }

  function Cancel(s: Bearer, id: int): Bearer {
    if id == 0 then s
    else if s.pendingReq.Some? && s.pendingReq.value.id == id then
      s.(log := CancelPending(s.log, s.pendingReq.value), pendingReq := Some(Detached(s.pendingReq.value)))
    else if s.pendingInd.Some? && s.pendingInd.value.id == id then
      s.(log := CancelPending(s.log, s.pendingInd.value), pendingInd := Some(Detached(s.pendingInd.value)))
    else
      match TakeOut(s.q, id)
      case None => s
      case Some((op, q)) => Wakeup(s.(q := q, log := CancelQueued(s.log, op)))
  }

  function CancelEach(log: seq<Event>, ops: seq<Op>): seq<Event>
    decreases |ops|
  {
    if |ops| == 0 then log else CancelEach(CancelQueued(log, ops[0]), ops[1..])
  }

  function CancelSlot(log: seq<Event>, op: Option<Op>): seq<Event> {
    if op.None? then log else CancelPending(log, op.value)
  }

  function DetachedSlot(op: Option<Op>): Option<Op> { if op.None? then None else Some(Detached(op.value)) }

  function CancelAll(s: Bearer): Bearer {
    var log := CancelEach(CancelEach(CancelEach(s.log, s.q.reqs), s.q.inds), s.q.writes);
    s.(q := Queues([], [], []),
       log := CancelSlot(CancelSlot(log, s.pendingReq), s.pendingInd),
       pendingReq := DetachedSlot(s.pendingReq), pendingInd := DetachedSlot(s.pendingInd))
  }

  /** The disconnect handlers run one after the other. */
  function CallLost(log: seq<Event>, ids: seq<int>): seq<Event>
    decreases |ids|
  {
    if |ids| == 0 then log else CallLost(log + [LinkLost(ids[0])], ids[1..])
  }

  /** disconnect_cb. Disconnect handlers find no link to send on. */
  function Disconnect(s: Bearer): Bearer {
    if !s.io then s
    else
      var c := CancelAll(s.(io := false, writer := false, reading := false));
      c.(log := CallLost(c.log, c.disconnects), handlers := [], disconnects := [])
  }

  function FreeSlot(log: seq<Event>, op: Option<Op>): seq<Event> {
    if op.None? then log else Free(log, op.value)
  }

  /** The last bt_att_unref: bt_att_free destroys what is still pending. */
  function Unref(s: Bearer): Bearer {
    var c := CancelAll(s);
    c.(log := FreeSlot(FreeSlot(c.log, c.pendingReq), c.pendingInd), pendingReq := None, pendingInd := None,
       handlers := [], disconnects := [], alive := false, io := false, writer := false, reading := false)
  }

  function SetMtu(s: Bearer, mtu: int): Bearer {
    if mtu < DEFAULT_MTU then s else s.(mtu := mtu)
  }

  function FreshRegId(s: Bearer): int { if s.nextRegId < 1 then 1 else s.nextRegId }

  /** bt_att_register. */
  function Register(s: Bearer, opcode: int): Bearer {
    if !s.io then s
    else s.(handlers := s.handlers + [Handler(FreshRegId(s), opcode)], nextRegId := FreshRegId(s) + 1)
  }

  /** bt_att_register_disconnect. */
  function RegisterDisconnect(s: Bearer): Bearer {
    if !s.io then s
    else s.(disconnects := s.disconnects + [FreshRegId(s)], nextRegId := FreshRegId(s) + 1)
  }

  datatype Input =
    | DoSend(args: SendArgs)
    | DoCancel(id: int)
    | DoCancelAll
    | DoRegister(opcode: int)
    | DoRegisterDisconnect
    | DoSetMtu(mtu: int)
    | Writable(ok: bool, sends: seq<SendArgs>)
    | Arrives(opcode: int, pdu: seq<int>, sent: seq<seq<SendArgs>>)
    | Expires(id: int, sends: seq<SendArgs>)
    | LinkDown
    | DoUnref

  function Step(s: Bearer, i: Input): Bearer {
    if !s.alive || s.broken then s
    else
      match i
      case DoSend(args) => SendOp(s, args)
      case DoCancel(id) => Cancel(s, id)
      case DoCancelAll => CancelAll(s)
      case DoRegister(opcode) => Register(s, opcode)
      case DoRegisterDisconnect => RegisterDisconnect(s)
      case DoSetMtu(mtu) => SetMtu(s, mtu)
      case Writable(ok, sends) => WriteReady(s, ok, sends)
      case Arrives(opcode, pdu, sends) => Receive(s, opcode, pdu, sends)
      case Expires(id, sends) => Timeout(s, id, sends)
      case LinkDown => Disconnect(s)
      case DoUnref => Unref(s)
  }

  function Run(s: Bearer, inputs: seq<Input>): Bearer
    decreases |inputs|
  {
    if |inputs| == 0 then s else Run(Step(s, inputs[0]), inputs[1..])
  }
}
