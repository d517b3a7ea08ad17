/** Long writes of bluez/gatt-client.c: a value is prepared chunk by chunk at the server and
    then executed; other long writes wait in a queue meanwhile. */
module LongWrite {
  import opened Wrappers
  import opened Pdus
  import opened Uuids
  import opened Arith

  const PREP_WRITE_RSP := 0x17
  const EXEC_WRITE_RSP := 0x19
  const MIN_MTU := 23

  /** Its chunk in flight is value[index..index + cur]. */
  datatype LongOp = LongOp(id: int, reliable: bool, handle: int, value: seq<int>, offset: int, index: int, cur: int,
                           success: bool, ecode: int, reliableError: bool)

  /** What the server keeps for one Prepare Write. */
  datatype Piece = Piece(handle: int, offset: int, bytes: seq<int>)

  datatype Flight = Idle | Preparing | Executing(write: bool)

  datatype Event =
    | Accepted(id: int)
    | Executed(op: LongOp, queue: seq<Piece>, mtu: int)  // Execute Write with flag 0x01 was sent
    | Called(id: int, success: bool, reliableError: bool, ecode: int)  // the callback of a long write

  datatype State = State(
    mtu: int,
    up: bool,            // the bearer still takes what is sent
    attached: bool,      // att of the client is not null
    broken: bool,        // the behaviour is no longer defined
    current: Option<LongOp>,
    flight: Flight,
    waiting: seq<LongOp>,
    inLongWrite: bool,
    server: seq<Piece>,
    nextId: int,
    log: seq<Event>)

  function New(mtu: int): State { State(mtu, true, true, false, None, Idle, [], false, [], 1, []) }

  datatype WriteArgs = WriteArgs(reliable: bool, handle: int, offset: int, value: seq<int>)

  predicate Allowed(a: WriteArgs) { |a.value| + a.offset <= 0xFFFF && |a.value| > 0 && a.offset >= 0 }

  /** bt_att_get_mtu, which is 0 without a bearer. */
  function MtuOf(s: State): int { if s.attached then s.mtu else 0 }

  /** cur_length has 16 bits. */
  function NewOp(mtu: int, id: int, a: WriteArgs): LongOp {
    LongOp(id, a.reliable, a.handle, a.value, a.offset, 0, Least(|a.value|, mtu - 5) % 0x1_0000, false, 0, false)
  }

  /** What becomes of those who wait when the bearer refuses everything: one after the other
      cannot be prepared, cannot be cancelled either, and is called back. */
  function Drain(s: State): State
    decreases |s.waiting|
  {
    if |s.waiting| == 0 then s.(inLongWrite := false, current := None, flight := Idle)
    else Drain(s.(waiting := s.waiting[1..], log := s.log + [Called(s.waiting[0].id, false, false, 0)]))
  }

  /** complete_write_long_op: Execute Write, with 0x01 to write and 0x00 to cancel. When it is
      refused the callback runs at once and the next long write is tried. */
  function Complete(s: State, op: LongOp, success: bool, ecode: int, reliableError: bool): State {
    var done := op.(success := success, ecode := ecode, reliableError := reliableError);
    if !s.up then Drain(s.(log := s.log + [Called(op.id, false, reliableError, ecode)]))
    else
      s.(current := Some(done), flight := Executing(success),
         log := if success then s.log + [Executed(done, s.server, s.mtu)] else s.log)
  }

  /** handle_next_prep_write; encode_pdu refuses a PDU that does not fit. */
  function SendPrep(s: State, op: LongOp): State {
    if !s.up || op.cur + 5 > s.mtu then Complete(s, op, false, 0, false)
    else s.(current := Some(op), flight := Preparing)
  }

  function StartNext(s: State): State {
    if |s.waiting| == 0 then s.(inLongWrite := false, current := None, flight := Idle)
    else SendPrep(s.(waiting := s.waiting[1..]), s.waiting[0])
  }

  /** bt_gatt_client_write_long_value; the first chunk is copied before it is sent. */
  function Write(s: State, a: WriteArgs): State {
    if !Allowed(a) then s
    else
      var op := NewOp(MtuOf(s), s.nextId, a);
      var s1 := s.(nextId := s.nextId + 1, log := s.log + [Accepted(op.id)]);
      if s.inLongWrite then s1.(waiting := s1.waiting + [op])
      else if op.cur > |a.value| then s.(nextId := s.nextId + 1, broken := true)
      else if !s.up then s.(nextId := s.nextId + 1)
      else s1.(current := Some(op), flight := Preparing, inLongWrite := true)
  }

  function WriteAll(s: State, writes: seq<WriteArgs>): State
    decreases |writes|
  {
    if |writes| == 0 then s else WriteAll(Write(s, writes[0]), writes[1..])
  }

  predicate OpOk(op: LongOp) {
    0 <= op.index && 0 < op.cur && op.index + op.cur <= |op.value| && 0 <= op.offset && op.offset + |op.value| <= 0xFFFF
  }

  function ChunkOf(op: LongOp): Piece
    requires OpOk(op)
  {
    Piece(op.handle, op.offset + op.index, op.value[op.index..op.index + op.cur])
  }

  /** The parameters of Prepare Write, which the response repeats. */
  function Encode(p: Piece): seq<int> { Le16(p.handle) + Le16(p.offset) + p.bytes }

  /** What prepare_write_cb accepts as an answer. */
  predicate Acknowledges(op: LongOp, opcode: int, pdu: seq<int>)
    requires OpOk(op)
  {
    opcode == PREP_WRITE_RSP && (op.reliable ==> pdu == Encode(ChunkOf(op)))
  }

  /** The error code and the reliable flag of an answer that is none. */
  function Refusal(opcode: int, pdu: seq<int>): (int, bool) {
    (if opcode == ERROR_RSP then ProcessError(pdu) else 0, opcode == PREP_WRITE_RSP)
  }

  /** prepare_write_cb. */
  function OnPrepared(s: State, op: LongOp, opcode: int, pdu: seq<int>): State
    requires OpOk(op)
  {
    if !Acknowledges(op, opcode, pdu) then
      var (ecode, reliableError) := Refusal(opcode, pdu);
      Complete(s, op, false, ecode, reliableError)
    else
      var next := op.index + op.cur;
      if next == |op.value| then Complete(s, op, true, 0, false)
      else if op.cur >= s.mtu - 5 then
        SendPrep(s, op.(index := next, cur := Least(|op.value| - next, s.mtu - 5)))
      else Complete(s, op, true, 0, false)
  }

  function Report(op: LongOp, opcode: int, pdu: seq<int>): Event {
    Called(op.id, op.success && opcode == EXEC_WRITE_RSP && |pdu| == 0, op.reliableError,
           if opcode == ERROR_RSP then ProcessError(pdu) else op.ecode)
  }

  /** execute_write_cb; the callback may ask for more long writes. */
  function OnExecuted(s: State, op: LongOp, opcode: int, pdu: seq<int>, writes: seq<WriteArgs>): State {
    StartNext(WriteAll(s.(log := s.log + [Report(op, opcode, pdu)]), writes))
  }

  /** An answer has come, and the server has this queue; or the link turns out to be gone, and
      with it what the server had prepared. */
  function Answered(s: State, server: seq<Piece>, up: bool): State {
    if up then s.(server := server) else s.(up := false, server := [])
  }

  /** Answers come from the server: it keeps a piece that it acknowledges, may have kept one
      that it does not, and forgets everything when it executes or cancels; `up` says whether
      the bearer takes what the callback sends. The chunk in flight is always a proper one
      (Flying in LongWriteLaws), so an answer is never ignored for that. After the link was
      lost and att_disconnect_cb has run, nothing is answered any more. */
  datatype Input =
    | DoWrite(args: WriteArgs)
    | Answer(kept: bool, opcode: int, pdu: seq<int>, writes: seq<WriteArgs>, up: bool)
    | SetMtu(mtu: int)
    | LinkLost

  function Step(s: State, i: Input): State {
    if s.broken then s
    else
    match i
    case DoWrite(args) => Write(s, args)
    case SetMtu(mtu) => if mtu < MIN_MTU then s else s.(mtu := mtu)
    case LinkLost => s.(up := false, attached := false, server := [])
    case Answer(kept, opcode, pdu, writes, up) =>
      if !s.up || s.current.None? || !OpOk(s.current.value) then s
      else
        var op := s.current.value;
        if s.flight.Preparing? then
          var keeps := kept || opcode == PREP_WRITE_RSP;
          OnPrepared(Answered(s, if keeps then s.server + [ChunkOf(op)] else s.server, up), op, opcode, pdu)
        else if s.flight.Executing? then OnExecuted(Answered(s, [], up), op, opcode, pdu, writes)
        else s
  }

  function Run(s: State, inputs: seq<Input>): State
    decreases |inputs|
  {
    if |inputs| == 0 then s else Run(Step(s, inputs[0]), inputs[1..])
  }

  // ---- the server's queue

  /** Contiguous pieces of value[..upto], in order. */
  predicate Tiles(queue: seq<Piece>, handle: int, offset: int, value: seq<int>, upto: int)
    decreases |queue|
  {
    if |queue| == 0 then upto == 0
    else
      var p := queue[|queue| - 1];
      var from := upto - |p.bytes|;
      && |p.bytes| > 0 && 0 <= from && upto <= |value|
      && p == Piece(handle, offset + from, value[from..upto])
      && Tiles(queue[..|queue| - 1], handle, offset, value, from)
  }

  predicate TilesOp(queue: seq<Piece>, op: LongOp, upto: int) { Tiles(queue, op.handle, op.offset, op.value, upto) }

  lemma TilesPush(queue: seq<Piece>, op: LongOp)
    requires OpOk(op) && TilesOp(queue, op, op.index)
    ensures TilesOp(queue + [ChunkOf(op)], op, op.index + op.cur)
  {
    var all := queue + [ChunkOf(op)];
    assert all[..|all| - 1] == queue;
  }

  /** Writing octets into an attribute value at an offset inside it. */
  function Put(c: seq<int>, offset: int, bytes: seq<int>): seq<int>
    requires 0 <= offset <= |c|
  {
    c[..offset] + bytes + if offset + |bytes| <= |c| then c[offset + |bytes|..] else []
  }

  /** What executing the queue does to the value of the attribute. */
  function PutAll(c: seq<int>, queue: seq<Piece>): seq<int>
    decreases |queue|
  {
    if |queue| == 0 then c
    else
      var before, p := PutAll(c, queue[..|queue| - 1]), queue[|queue| - 1];
      if 0 <= p.offset <= |before| then Put(before, p.offset, p.bytes) else before
  }

  /** What is left of c from here on. */
  function Behind(c: seq<int>, at: int): seq<int>
    requires 0 <= at
  {
    if at <= |c| then c[at..] else []
  }

  lemma PutIs(c: seq<int>, offset: int, bytes: seq<int>)
    requires 0 <= offset <= |c|
    ensures Put(c, offset, bytes) == c[..offset] + bytes + Behind(c, offset + |bytes|)
  {
  }

  lemma FrontOf(a: seq<int>, b: seq<int>)
    ensures (a + b)[..|a|] == a
  {
  }

  lemma BehindPut(c: seq<int>, offset: int, a: seq<int>, b: seq<int>)
    requires 0 <= offset <= |c|
    ensures Behind(c[..offset] + a + Behind(c, offset + |a|), offset + |a| + |b|) == Behind(c, offset + |a| + |b|)
  {
  }

  lemma PutTwice(c: seq<int>, offset: int, a: seq<int>, b: seq<int>)
    requires 0 <= offset <= |c|
    ensures offset + |a| <= |Put(c, offset, a)|
    ensures Put(Put(c, offset, a), offset + |a|, b) == Put(c, offset, a + b)
  {
    var d := Put(c, offset, a);
    var at := offset + |a|;
    assert d == c[..offset] + a + Behind(c, at);
    hide Put, Behind;
    FrontOf(c[..offset] + a, Behind(c, at));
    BehindPut(c, offset, a, b);
    PutIs(d, at, b);
    PutIs(c, offset, a + b);
  }

  /** Executing contiguous pieces writes the value at its offset. */
  lemma {:induction false} TilesWriteTheValue(c: seq<int>, queue: seq<Piece>, handle: int, offset: int,
                                              value: seq<int>, upto: int)
    requires Tiles(queue, handle, offset, value, upto) && 0 <= offset <= |c| && 0 <= upto <= |value|
    ensures PutAll(c, queue) == Put(c, offset, value[..upto])
    decreases |queue|
  {
    if |queue| == 0 {
      assert value[..0] == [] && Put(c, offset, []) == c;
    } else {
      var p := queue[|queue| - 1];
      var from := upto - |p.bytes|;
      TilesWriteTheValue(c, queue[..|queue| - 1], handle, offset, value, from);
      PutTwice(c, offset, value[..from], value[from..upto]);
      assert value[..from] + value[from..upto] == value[..upto];
    }
  }
}
