/** What every run of long writes keeps: whenever Execute Write with 0x01 goes out, the
    server's queue holds pieces of one value only, in order and without gaps, and callbacks
    come in the order of the calls. */
module LongWriteLaws {
  import opened Wrappers
  import opened Arith
  import opened LongWrite

  predicate AllFresh(ops: seq<LongOp>) { forall i :: 0 <= i < |ops| ==> OpOk(ops[i]) && ops[i].index == 0 }

  /** An Execute Write carries all of the value, unless the MTU has grown so much that the
      last chunk looks like the end of the value. */
  predicate Sound(e: Event) {
    e.Executed? ==>
      && OpOk(e.op) && TilesOp(e.queue, e.op, e.op.index + e.op.cur)
      && (e.op.index + e.op.cur == |e.op.value| || e.op.cur < e.mtu - 5)
  }

  predicate AllSound(log: seq<Event>) { forall i :: 0 <= i < |log| ==> Sound(log[i]) }

  predicate Flying(s: State) {
    match s.flight
    case Idle => s.current.None? && |s.server| == 0 && |s.waiting| == 0
    case Preparing =>
      && s.current.Some? && OpOk(s.current.value)
      && (s.up ==> TilesOp(s.server, s.current.value, s.current.value.index))
    case Executing(write) => s.current.Some? && OpOk(s.current.value) && s.current.value.success == write
  }

  predicate Inv(s: State) {
    && s.mtu >= MIN_MTU && (s.inLongWrite <==> !s.flight.Idle?)
    && (s.attached ==> AllFresh(s.waiting)) && (s.up ==> s.attached)
    && Flying(s) && AllSound(s.log) && (!s.up ==> |s.server| == 0)
  }

  lemma SoundPush(log: seq<Event>, e: Event)
    requires AllSound(log) && Sound(e)
    ensures AllSound(log + [e])
  {
    hide Sound;
  }

  lemma NewOpOk(s: State, a: WriteArgs)
    requires Allowed(a) && s.mtu >= MIN_MTU && s.attached
    ensures OpOk(NewOp(MtuOf(s), s.nextId, a)) && NewOp(MtuOf(s), s.nextId, a).index == 0
    ensures NewOp(MtuOf(s), s.nextId, a).cur == Least(|a.value|, s.mtu - 5)
  {
  }

  lemma FreshPush(ops: seq<LongOp>, op: LongOp)
    requires AllFresh(ops) && OpOk(op) && op.index == 0
    ensures AllFresh(ops + [op])
  {
    hide OpOk;
  }

  lemma WriteKeeps(s: State, a: WriteArgs)
    requires Inv(s)
    ensures Inv(Write(s, a)) && Write(s, a).server == s.server && Write(s, a).attached == s.attached
    ensures s.inLongWrite ==> Write(s, a).inLongWrite
  {
    hide AllFresh, AllSound, OpOk, Allowed;
    if Allowed(a) {
      var op := NewOp(MtuOf(s), s.nextId, a);
      if s.attached {
        NewOpOk(s, a);
        FreshPush(s.waiting, op);
      }
      SoundPush(s.log, Accepted(op.id));
    }
  }

  lemma {:induction false} WriteAllKeeps(s: State, writes: seq<WriteArgs>)
    requires Inv(s)
    ensures Inv(WriteAll(s, writes)) && WriteAll(s, writes).server == s.server
    ensures WriteAll(s, writes).attached == s.attached
    ensures s.inLongWrite ==> WriteAll(s, writes).inLongWrite
    decreases |writes|
  {
    hide Inv, Write;
    if |writes| > 0 {
      WriteKeeps(s, writes[0]);
      WriteAllKeeps(Write(s, writes[0]), writes[1..]);
    }
  }

  /** While a long write is going on: what holds apart from the one that is in flight. */
  predicate Busy(s: State) {
    && s.mtu >= MIN_MTU && s.inLongWrite && s.attached && AllFresh(s.waiting) && AllSound(s.log)
    && (!s.up ==> |s.server| == 0)
  }

  lemma {:induction false} DrainKeeps(s: State)
    requires Busy(s) && !s.up
    ensures Inv(Drain(s))
    decreases |s.waiting|
  {
    hide AllSound, OpOk;
    if |s.waiting| > 0 {
      var e := Called(s.waiting[0].id, false, false, 0);
      SoundPush(s.log, e);
      DrainKeeps(s.(waiting := s.waiting[1..], log := s.log + [e]));
    }
  }

  lemma RefusedKeeps(s: State, op: LongOp, success: bool, ecode: int, reliableError: bool)
    requires Busy(s) && !s.up
    ensures Inv(Complete(s, op, success, ecode, reliableError))
  {
    hide AllFresh, AllSound, Drain, Inv;
    SoundPush(s.log, Called(op.id, false, reliableError, ecode));
    DrainKeeps(s.(log := s.log + [Called(op.id, false, reliableError, ecode)]));
  }

  lemma CancelKeeps(s: State, op: LongOp, ecode: int, reliableError: bool)
    requires Busy(s) && OpOk(op)
    ensures Inv(Complete(s, op, false, ecode, reliableError))
  {
    hide AllFresh, AllSound, Drain;
    if !s.up { RefusedKeeps(s, op, false, ecode, reliableError); }
  }

  lemma CommitKeeps(s: State, op: LongOp)
    requires Busy(s) && OpOk(op) && (s.up ==> TilesOp(s.server, op, op.index + op.cur))
    requires op.index + op.cur == |op.value| || op.cur < s.mtu - 5
    ensures Inv(Complete(s, op, true, 0, false))
  {
    hide AllFresh, AllSound, Tiles, Drain;
    if s.up {
      SoundPush(s.log, Executed(op.(success := true, ecode := 0, reliableError := false), s.server, s.mtu));
    } else {
      RefusedKeeps(s, op, true, 0, false);
    }
  }

  lemma SendPrepKeeps(s: State, op: LongOp)
    requires Busy(s) && OpOk(op) && (s.up ==> TilesOp(s.server, op, op.index))
    ensures Inv(SendPrep(s, op))
  {
    hide AllFresh, AllSound, Tiles, OpOk, Complete;
    if !s.up || op.cur + 5 > s.mtu { CancelKeeps(s, op, 0, false); }
  }

  lemma StartNextKeeps(s: State)
    requires Busy(s) && |s.server| == 0
    ensures Inv(StartNext(s))
  {
    hide AllSound, OpOk, SendPrep;
    if |s.waiting| > 0 {
      SendPrepKeeps(s.(waiting := s.waiting[1..]), s.waiting[0]);
    }
  }

  /** The op goes on with the next chunk. */
  lemma NextChunkOk(op: LongOp, mtu: int)
    requires OpOk(op) && op.index + op.cur < |op.value| && mtu >= MIN_MTU
    ensures OpOk(op.(index := op.index + op.cur, cur := Least(|op.value| - (op.index + op.cur), mtu - 5)))
  {
  }

  /** The state in which prepare_write_cb runs. */
  function AtPrepared(s: State, keeps: bool, up: bool): State
    requires s.current.Some? && OpOk(s.current.value)
  {
    Answered(s, if keeps then s.server + [ChunkOf(s.current.value)] else s.server, up)
  }

  lemma PreparedKeeps(s: State, keeps: bool, opcode: int, pdu: seq<int>, up: bool)
    requires Inv(s) && s.up && s.flight.Preparing? && (opcode == PREP_WRITE_RSP ==> keeps)
    ensures Inv(OnPrepared(AtPrepared(s, keeps, up), s.current.value, opcode, pdu))
  {
    hide AllFresh, AllSound, Tiles, SendPrep, Complete, Inv, Encode;
    InvParts(s);
    var op := s.current.value;
    var s1 := AtPrepared(s, keeps, up);
    TilesPush(s.server, op);
    CancelKeeps(s1, op, Refusal(opcode, pdu).0, Refusal(opcode, pdu).1);
    if Acknowledges(op, opcode, pdu) {
      if op.index + op.cur == |op.value| || op.cur < s.mtu - 5 {
        CommitKeeps(s1, op);
      } else {
        NextChunkOk(op, s.mtu);
        SendPrepKeeps(s1, op.(index := op.index + op.cur, cur := Least(|op.value| - (op.index + op.cur), s.mtu - 5)));
      }
    }
  }

  lemma InvParts(s: State)
    requires Inv(s) && s.up && s.flight.Preparing?
    ensures Busy(s) && s.current.Some? && OpOk(s.current.value)
    ensures s.up ==> TilesOp(s.server, s.current.value, s.current.value.index)
  {
    hide AllFresh, AllSound, Tiles;
  }

  lemma ExecutedKeeps(s: State, opcode: int, pdu: seq<int>, writes: seq<WriteArgs>, up: bool)
    requires Inv(s) && s.up && s.flight.Executing?
    ensures Inv(OnExecuted(Answered(s, [], up), s.current.value, opcode, pdu, writes))
  {
    hide AllFresh, AllSound, StartNext, WriteAll, OpOk, Report;
    var e := Report(s.current.value, opcode, pdu);
    var s1 := Answered(s, [], up);
    var s2 := s1.(log := s1.log + [e]);
    assert e.Called? by { ReportIsCall(s.current.value, opcode, pdu); }
    SoundPush(s.log, e);
    WriteAllKeeps(s2, writes);
    StartNextKeeps(WriteAll(s2, writes));
  }

  lemma ReportIsCall(op: LongOp, opcode: int, pdu: seq<int>)
    ensures var e := Report(op, opcode, pdu); e.Called? && e.id == op.id && (e.success ==> op.success)
  {
  }

  lemma StepKeeps(s: State, i: Input)
    requires Inv(s)
    ensures Inv(Step(s, i))
  {
    hide Tiles, AllFresh, AllSound, OnPrepared, OnExecuted, Write, OpOk;
    match i
    case DoWrite(args) => WriteKeeps(s, args);
    case SetMtu(_) =>
    case LinkLost =>
    case Answer(kept, opcode, pdu, writes, up) =>
      if s.up && s.flight.Preparing? {
        PreparedKeeps(s, kept || opcode == PREP_WRITE_RSP, opcode, pdu, up);
      } else if s.up && s.flight.Executing? {
        ExecutedKeeps(s, opcode, pdu, writes, up);
      }
  }

  lemma {:induction false} RunKeeps(s: State, inputs: seq<Input>)
    requires Inv(s)
    ensures Inv(Run(s, inputs))
    decreases |inputs|
  {
    hide Inv, Step;
    if |inputs| > 0 {
      StepKeeps(s, inputs[0]);
      RunKeeps(Step(s, inputs[0]), inputs[1..]);
    }
  }

  /** In every run, whenever Execute Write with 0x01 is sent: the server's queue is made of
      pieces of this one value, in order and without gaps from its offset, and executing it
      writes what was prepared there. */
  lemma ExecutesOneValue(mtu: int, inputs: seq<Input>, i: nat, c: seq<int>)
    requires mtu >= MIN_MTU
    requires var log := Run(New(mtu), inputs).log; i < |log| && log[i].Executed?
    ensures var e := Run(New(mtu), inputs).log[i];
            var upto := e.op.index + e.op.cur;
            && 0 < upto <= |e.op.value| && TilesOp(e.queue, e.op, upto)
            && (0 <= e.op.offset <= |c| ==> PutAll(c, e.queue) == Put(c, e.op.offset, e.op.value[..upto]))
            && (upto < |e.op.value| ==> e.op.cur < e.mtu - 5)
  {
    hide Run, Tiles, Put, PutAll;
    assert Inv(New(mtu));
    RunKeeps(New(mtu), inputs);
    var e := Run(New(mtu), inputs).log[i];
    assert Sound(e);
    if 0 <= e.op.offset <= |c| {
      TilesWriteTheValue(c, e.queue, e.op.handle, e.op.offset, e.op.value, e.op.index + e.op.cur);
    }
  }

  /** The value is cut short exactly if an acknowledged chunk that is not the last is shorter
      than the present MTU allows. */
  lemma CutShortExactly(s: State, opcode: int, pdu: seq<int>)
    requires Inv(s) && s.up && s.flight.Preparing? && Acknowledges(s.current.value, opcode, pdu)
    ensures var op := s.current.value;
            var r := OnPrepared(s, op, opcode, pdu);
            var cut := op.index + op.cur < |op.value| && op.cur < s.mtu - 5;
            && (cut <==> r.flight == Executing(true) && op.index + op.cur < |op.value|)
            && (r.flight == Executing(true) && !cut ==> op.index + op.cur == |op.value|)
  {
    hide Tiles, AllFresh, AllSound, Encode;
  }

  function FortyOctets(value: seq<int>): State {
    New(23).(current := Some(LongOp(1, false, 3, value, 0, 0, 18, false, 0, false)), flight := Preparing,
             inLongWrite := true, nextId := 2, log := [Accepted(1)])
  }

  lemma FortyOctetsIs(value: seq<int>)
    requires |value| == 40
    ensures Step(New(23), DoWrite(WriteArgs(false, 3, 0, value))) == FortyOctets(value)
  {
  }

  /** It does happen: with an MTU that grows while the first chunk is in flight, the first 18
      of 40 octets are executed and reported as a success. */
  lemma GrowingMtuCutsShort(value: seq<int>)
    requires |value| == 40
    ensures var s := Run(New(23), [DoWrite(WriteArgs(false, 3, 0, value)), SetMtu(100),
                                   Answer(true, PREP_WRITE_RSP, [], [], true),
                                   Answer(true, EXEC_WRITE_RSP, [], [], true)]);
            && |s.log| == 3 && s.log[2] == Called(1, true, false, 0)
            && s.log[1].Executed? && s.log[1].queue == [Piece(3, 0, value[..18])]
  {
    var i0, i1, i2, i3 := DoWrite(WriteArgs(false, 3, 0, value)), SetMtu(100),
                          Answer(true, PREP_WRITE_RSP, [], [], true), Answer(true, EXEC_WRITE_RSP, [], [], true);
    var s0 := New(23);
    var s1 := Step(s0, i0);
    assert s1 == FortyOctets(value) by { FortyOctetsIs(value); }
    hide Write;
    var s2 := Step(s1, i1);
    var s3 := Step(s2, i2);
    assert s1.current.value.cur == 18 && OpOk(s1.current.value);
    assert s3.server == [Piece(3, 0, value[0..18])];
    RunFour(s0, i0, i1, i2, i3);
  }

  lemma RunFour(s: State, a: Input, b: Input, c: Input, d: Input)
    ensures Run(s, [a, b, c, d]) == Step(Step(Step(Step(s, a), b), c), d)
  {
    hide Step;
    RunCons(s, a, [b, c, d]);
    RunCons(Step(s, a), b, [c, d]);
    RunCons(Step(Step(s, a), b), c, [d]);
    RunCons(Step(Step(Step(s, a), b), c), d, []);
    assert [a] + [b, c, d] == [a, b, c, d] && [b] + [c, d] == [b, c, d] && [c] + [d] == [c, d] && [d] + [] == [d];
  }

  lemma RunCons(s: State, i: Input, rest: seq<Input>)
    ensures Run(s, [i] + rest) == Run(Step(s, i), rest)
  {
    hide Step;
    assert ([i] + rest)[1..] == rest;
  }

  // ---- with a fixed MTU

  /** The pieces of at most `size` octets that a value falls into. */
  function Chunks(handle: int, offset: int, value: seq<int>, size: int): seq<Piece>
    requires size > 0
    decreases |value|
  {
    if |value| == 0 then []
    else
      var k := Least(size, |value|);
      [Piece(handle, offset, value[..k])] + Chunks(handle, offset + k, value[k..], size)
  }

  /** There are as many as the ceiling of length / size. */
  lemma {:induction false} ChunksCount(handle: int, offset: int, value: seq<int>, size: int)
    requires size > 0
    ensures |Chunks(handle, offset, value, size)| == Pieces(|value|, size)
    decreases |value|
  {
    if |value| > 0 {
      var k := Least(size, |value|);
      ChunksCount(handle, offset + k, value[k..], size);
    }
  }

  predicate Even(n: int, size: int)
    requires size > 0
    decreases n
  {
    n == 0 || (n >= size && Even(n - size, size))
  }

  lemma {:induction false} EvenNext(n: int, size: int)
    requires size > 0 && Even(n, size)
    ensures Even(n + size, size) && n >= 0
    decreases n
  {
    if n > 0 { EvenNext(n - size, size); }
  }

  /** One more chunk after an even number of octets. */
  lemma {:induction false} ChunksPush(handle: int, offset: int, value: seq<int>, n: int, k: int, size: int)
    requires size > 0 && Even(n, size) && 0 <= n && 0 < k <= size && n + k <= |value|
    ensures Chunks(handle, offset, value[..n + k], size)
            == Chunks(handle, offset, value[..n], size) + [Piece(handle, offset + n, value[n..n + k])]
    decreases n
  {
    hide Chunks;
    var all := value[..n + k];
    if n == 0 {
      ChunksShort(handle, offset, all, size);
      ChunksShort(handle, offset, value[..0], size);
      assert all == value[0..k];
    } else {
      var rest := value[size..];
      ChunksPush(handle, offset + size, rest, n - size, k, size);
      ChunksStep(handle, offset, value, n + k, size);
      ChunksStep(handle, offset, value, n, size);
      SliceOfRest(value, n, k, size);
    }
  }

  /** The first chunk of the first n octets, and the chunks of what is behind it. */
  lemma ChunksStep(handle: int, offset: int, value: seq<int>, n: int, size: int)
    requires 0 < size <= n <= |value|
    ensures Chunks(handle, offset, value[..n], size)
            == [Piece(handle, offset, value[..size])] + Chunks(handle, offset + size, value[size..][..n - size], size)
  {
    hide Chunks;
    ChunksFirst(handle, offset, value[..n], size);
    assert value[..n][..size] == value[..size];
    assert value[..n][size..] == value[size..][..n - size];
  }

  lemma SliceOfRest(value: seq<int>, n: int, k: int, size: int)
    requires 0 < size <= n && 0 < k && n + k <= |value|
    ensures value[size..][n - size..n - size + k] == value[n..n + k]
  {
  }

  lemma ChunksFirst(handle: int, offset: int, value: seq<int>, size: int)
    requires 0 < size <= |value|
    ensures Chunks(handle, offset, value, size)
            == [Piece(handle, offset, value[..size])] + Chunks(handle, offset + size, value[size..], size)
  {
  }

  lemma ChunksShort(handle: int, offset: int, value: seq<int>, size: int)
    requires 0 < size && |value| <= size
    ensures Chunks(handle, offset, value, size) == if |value| == 0 then [] else [Piece(handle, offset, value)]
  {
    assert value[..|value|] == value && value[|value|..] == [];
  }

  /** The chunk in flight is as long as it can be. */
  predicate Full(op: LongOp, size: int) { op.cur == Least(|op.value| - op.index, size) }

  predicate AllFull(ops: seq<LongOp>, size: int) { forall i :: 0 <= i < |ops| ==> Full(ops[i], size) }

  predicate Prepared(queue: seq<Piece>, op: LongOp, upto: int, size: int)
    requires size > 0 && 0 <= upto <= |op.value|
  {
    queue == Chunks(op.handle, op.offset, op.value[..upto], size)
  }

  predicate Exact(e: Event, mtu: int)
    requires mtu > 5
  {
    e.Executed? ==> Prepared(e.queue, e.op, |e.op.value|, mtu - 5)
  }

  predicate AllExact(log: seq<Event>, mtu: int)
    requires mtu > 5
  {
    forall i :: 0 <= i < |log| ==> Exact(log[i], mtu)
  }

  predicate FixedInv(s: State, mtu: int)
    requires mtu >= MIN_MTU
  {
    && Inv(s) && s.mtu == mtu && (s.attached ==> AllFull(s.waiting, mtu - 5)) && AllExact(s.log, mtu)
    && (s.up && s.flight.Preparing? ==> ChunkFixed(s.server, s.current.value, mtu))
  }

  predicate ChunkFixed(queue: seq<Piece>, op: LongOp, mtu: int)
    requires mtu >= MIN_MTU && OpOk(op)
  {
    Full(op, mtu - 5) && Even(op.index, mtu - 5) && Prepared(queue, op, op.index, mtu - 5)
  }

  lemma ExactPush(log: seq<Event>, e: Event, mtu: int)
    requires mtu > 5 && AllExact(log, mtu) && Exact(e, mtu)
    ensures AllExact(log + [e], mtu)
  {
    hide Exact;
  }

  lemma FullPush(ops: seq<LongOp>, op: LongOp, size: int)
    requires AllFull(ops, size) && Full(op, size)
    ensures AllFull(ops + [op], size)
  {
  }

  lemma FreshFixed(op: LongOp, mtu: int)
    requires mtu >= MIN_MTU && OpOk(op) && op.index == 0 && Full(op, mtu - 5)
    ensures ChunkFixed([], op, mtu)
  {
    assert op.value[..0] == [];
  }

  lemma WriteFixed(s: State, mtu: int, a: WriteArgs)
    requires mtu >= MIN_MTU && FixedInv(s, mtu)
    ensures FixedInv(Write(s, a), mtu)
  {
    hide Inv, AllExact, AllFull, ChunkFixed, Allowed;
    WriteKeeps(s, a);
    if Allowed(a) {
      var op := NewOp(MtuOf(s), s.nextId, a);
      if s.attached {
        NewOpOk(s, a);
        FullPush(s.waiting, op, mtu - 5);
        FreshFixed(op, mtu);
      }
      ExactPush(s.log, Accepted(op.id), mtu);
      IdleMeans(s);
    }
  }

  lemma IdleMeans(s: State)
    requires Inv(s)
    ensures !s.inLongWrite ==> s.flight.Idle? && s.server == []
    ensures s.up ==> s.attached
  {
  }

  lemma {:induction false} WriteAllFixed(s: State, mtu: int, writes: seq<WriteArgs>)
    requires mtu >= MIN_MTU && FixedInv(s, mtu)
    ensures FixedInv(WriteAll(s, writes), mtu)
    decreases |writes|
  {
    hide FixedInv, Write;
    if |writes| > 0 {
      WriteFixed(s, mtu, writes[0]);
      WriteAllFixed(Write(s, writes[0]), mtu, writes[1..]);
    }
  }

  /** With the MTU unchanged the next chunk follows the last, or the value is complete. */
  lemma PreparedFixed(s: State, mtu: int, keeps: bool, opcode: int, pdu: seq<int>, up: bool)
    requires mtu >= MIN_MTU && FixedInv(s, mtu) && s.up && s.flight.Preparing? && (opcode == PREP_WRITE_RSP ==> keeps)
    ensures FixedInv(OnPrepared(AtPrepared(s, keeps, up), s.current.value, opcode, pdu), mtu)
  {
    hide AllFresh, AllSound, AllExact, AllFull, Tiles, Encode, Inv, Chunks, Even, Drain, ChunkOf;
    InvParts(s);
    PreparedKeeps(s, keeps, opcode, pdu, up);
    var op := s.current.value;
    if up {
      NextChunkFixed(s.server, op, mtu);
      LastChunkFixed(s.server, op, mtu);
      if op.index + op.cur == |op.value| {
        var e := Executed(op.(success := true, ecode := 0, reliableError := false), s.server + [ChunkOf(op)], mtu);
        ExactPush(s.log, e, mtu);
      }
    } else {
      PreparedDown(AtPrepared(s, keeps, up), mtu, op, opcode, pdu);
      QuietFixed(OnPrepared(AtPrepared(s, keeps, up), op, opcode, pdu), mtu);
    }
  }

  lemma LastChunkFixed(queue: seq<Piece>, op: LongOp, mtu: int)
    requires mtu >= MIN_MTU && OpOk(op) && ChunkFixed(queue, op, mtu)
    ensures op.index + op.cur == |op.value| ==>
              Exact(Executed(op.(success := true, ecode := 0, reliableError := false), queue + [ChunkOf(op)], mtu), mtu)
  {
    hide Chunks, Even;
    NextChunkFixed(queue, op, mtu);
    assert op.value[..|op.value|] == op.value;
  }

  // ---- when the link has gone

  predicate Quiet(s: State, mtu: int)
    requires mtu > 5
  {
    s.mtu == mtu && |s.waiting| == 0 && s.flight.Idle? && AllExact(s.log, mtu)
  }

  lemma QuietFixed(s: State, mtu: int)
    requires mtu >= MIN_MTU && Inv(s) && Quiet(s, mtu)
    ensures FixedInv(s, mtu)
  {
    hide Inv, AllExact;
  }

  lemma {:induction false} DrainFixed(s: State, mtu: int)
    requires mtu >= MIN_MTU && s.mtu == mtu && AllExact(s.log, mtu)
    ensures Quiet(Drain(s), mtu)
    decreases |s.waiting|
  {
    hide AllExact;
    if |s.waiting| > 0 {
      var e := Called(s.waiting[0].id, false, false, 0);
      ExactPush(s.log, e, mtu);
      DrainFixed(s.(waiting := s.waiting[1..], log := s.log + [e]), mtu);
    }
  }

  lemma RefusedFixed(s: State, mtu: int, op: LongOp, success: bool, ecode: int, reliableError: bool)
    requires mtu >= MIN_MTU && s.mtu == mtu && !s.up && AllExact(s.log, mtu)
    ensures Quiet(Complete(s, op, success, ecode, reliableError), mtu)
  {
    hide AllExact, Drain, Quiet;
    ExactPush(s.log, Called(op.id, false, reliableError, ecode), mtu);
    DrainFixed(s.(log := s.log + [Called(op.id, false, reliableError, ecode)]), mtu);
  }

  lemma PreparedDown(s: State, mtu: int, op: LongOp, opcode: int, pdu: seq<int>)
    requires mtu >= MIN_MTU && s.mtu == mtu && !s.up && AllExact(s.log, mtu) && OpOk(op)
    ensures Quiet(OnPrepared(s, op, opcode, pdu), mtu)
  {
    hide AllExact, Complete, Quiet, Acknowledges;
    var next := op.index + op.cur;
    RefusedFixed(s, mtu, op, false, Refusal(opcode, pdu).0, Refusal(opcode, pdu).1);
    RefusedFixed(s, mtu, op, true, 0, false);
    RefusedFixed(s, mtu, op.(index := next, cur := Least(|op.value| - next, s.mtu - 5)), false, 0, false);
  }

  /** The chunk in flight makes the next even number of octets, or the rest of the value. */
  lemma NextChunkFixed(queue: seq<Piece>, op: LongOp, mtu: int)
    requires mtu >= MIN_MTU && OpOk(op) && ChunkFixed(queue, op, mtu)
    ensures var next := op.index + op.cur;
            && Prepared(queue + [ChunkOf(op)], op, next, mtu - 5)
            && (next < |op.value| ==> op.cur == mtu - 5 && Even(next, mtu - 5))
  {
    hide Chunks, Even;
    ChunksPush(op.handle, op.offset, op.value, op.index, op.cur, mtu - 5);
    EvenNext(op.index, mtu - 5);
  }

  lemma StartNextFixed(s: State, mtu: int)
    requires mtu >= MIN_MTU && FixedInv(s, mtu) && s.inLongWrite && |s.server| == 0 && s.flight.Executing?
    requires s.attached
    ensures FixedInv(StartNext(s), mtu)
  {
    hide AllSound, AllExact, Tiles, Chunks, Even, ChunkFixed, OpOk, Complete;
    StartNextKeeps(s);
    if |s.waiting| > 0 {
      FreshFixed(s.waiting[0], mtu);
      if !s.up { RefusedFixed(s.(waiting := s.waiting[1..]), mtu, s.waiting[0], false, 0, false); }
    }
  }

  lemma ExecutedFixed(s: State, mtu: int, opcode: int, pdu: seq<int>, writes: seq<WriteArgs>, up: bool)
    requires mtu >= MIN_MTU && FixedInv(s, mtu) && s.up && s.flight.Executing?
    ensures FixedInv(OnExecuted(Answered(s, [], up), s.current.value, opcode, pdu, writes), mtu)
  {
    hide AllFresh, AllSound, AllExact, AllFull, ChunkFixed, StartNext, WriteAll, OpOk, Report;
    var e := Report(s.current.value, opcode, pdu);
    var s1 := Answered(s, [], up);
    var s2 := s1.(log := s1.log + [e]);
    assert e.Called? by { ReportIsCall(s.current.value, opcode, pdu); }
    SoundPush(s.log, e);
    ExactPush(s.log, e, mtu);
    WriteAllFixed(s2, mtu, writes);
    WriteAllKeeps(s2, writes);
    WriteAllWaits(s2, writes);
    StartNextFixed(WriteAll(s2, writes), mtu);
  }

  /** While a long write is going on, new ones only wait. */
  lemma {:induction false} WriteAllWaits(s: State, writes: seq<WriteArgs>)
    requires s.inLongWrite
    ensures WriteAll(s, writes).flight == s.flight && WriteAll(s, writes).inLongWrite
            && WriteAll(s, writes).current == s.current
    decreases |writes|
  {
    hide Allowed, NewOp;
    if |writes| > 0 { WriteAllWaits(Write(s, writes[0]), writes[1..]); }
  }

  lemma StepFixed(s: State, mtu: int, i: Input)
    requires mtu >= MIN_MTU && FixedInv(s, mtu) && !i.SetMtu?
    ensures FixedInv(Step(s, i), mtu)
  {
    StepKeeps(s, i);
    hide Inv, AllExact, AllFull, ChunkFixed, OnPrepared, OnExecuted, Write, OpOk;
    match i
    case DoWrite(args) => WriteFixed(s, mtu, args);
    case LinkLost =>
    case Answer(kept, opcode, pdu, writes, up) =>
      if s.up && s.flight.Preparing? {
        PreparedFixed(s, mtu, kept || opcode == PREP_WRITE_RSP, opcode, pdu, up);
      } else if s.up && s.flight.Executing? {
        ExecutedFixed(s, mtu, opcode, pdu, writes, up);
      }
  }

  lemma {:induction false} RunFixed(s: State, mtu: int, inputs: seq<Input>)
    requires mtu >= MIN_MTU && FixedInv(s, mtu) && forall i :: 0 <= i < |inputs| ==> !inputs[i].SetMtu?
    ensures FixedInv(Run(s, inputs), mtu)
    decreases |inputs|
  {
    hide FixedInv, Step;
    if |inputs| > 0 {
      StepFixed(s, mtu, inputs[0]);
      RunFixed(Step(s, inputs[0]), mtu, inputs[1..]);
    }
  }

  /** With a fixed MTU: at every Execute Write with 0x01 the server's queue is exactly the
      chunks of one value, ceil(length / (mtu - 5)) of them, and executing it writes the value
      at its offset. */
  lemma ExecutesTheWholeValue(mtu: int, inputs: seq<Input>, i: nat, c: seq<int>)
    requires mtu >= MIN_MTU && forall k :: 0 <= k < |inputs| ==> !inputs[k].SetMtu?
    requires var log := Run(New(mtu), inputs).log; i < |log| && log[i].Executed?
    ensures var e := Run(New(mtu), inputs).log[i];
            && e.queue == Chunks(e.op.handle, e.op.offset, e.op.value, mtu - 5)
            && |e.queue| == Pieces(|e.op.value|, mtu - 5)
            && (0 <= e.op.offset <= |c| ==> PutAll(c, e.queue) == Put(c, e.op.offset, e.op.value))
  {
    hide Run, Tiles, Put, PutAll, Chunks;
    assert FixedInv(New(mtu), mtu);
    RunFixed(New(mtu), mtu, inputs);
    var e := Run(New(mtu), inputs).log[i];
    assert Exact(e, mtu);
    assert e.op.value[..|e.op.value|] == e.op.value;
    ChunksCount(e.op.handle, e.op.offset, e.op.value, mtu - 5);
    if 0 <= e.op.offset <= |c| {
      ChunksWrite(c, e.op.handle, e.op.offset, e.op.value, mtu - 5);
    }
  }

  lemma {:induction false} ChunksTile(handle: int, offset: int, value: seq<int>, n: int, size: int)
    requires size > 0 && 0 <= n <= |value| && Even(n, size)
    ensures Tiles(Chunks(handle, offset, value[..n], size), handle, offset, value, n)
    decreases n
  {
    if n > 0 {
      ChunksTile(handle, offset, value, n - size, size);
      EvenNext(n - size, size);
      ChunksPush(handle, offset, value, n - size, size, size);
      var q := Chunks(handle, offset, value[..n - size], size);
      var p := Piece(handle, offset + n - size, value[n - size..n]);
      assert (q + [p])[..|q|] == q;
    }
  }

  /** Executing all chunks writes the value. */
  lemma ChunksWrite(c: seq<int>, handle: int, offset: int, value: seq<int>, size: int)
    requires size > 0 && 0 <= offset <= |c|
    ensures PutAll(c, Chunks(handle, offset, value, size)) == Put(c, offset, value)
  {
    hide Put, PutAll, Tiles, Chunks;
    var n := Whole(|value|, size);
    var q := Chunks(handle, offset, value[..n], size);
    ChunksTile(handle, offset, value, n, size);
    assert value[..|value|] == value;
    if n < |value| {
      ChunksPush(handle, offset, value, n, |value| - n, size);
      TilesOneMore(q, handle, offset, value, n);
    }
    TilesWriteTheValue(c, Chunks(handle, offset, value, size), handle, offset, value, |value|);
  }

  lemma TilesOneMore(q: seq<Piece>, handle: int, offset: int, value: seq<int>, n: int)
    requires Tiles(q, handle, offset, value, n) && 0 <= n < |value|
    ensures Tiles(q + [Piece(handle, offset + n, value[n..])], handle, offset, value, |value|)
  {
    var all := q + [Piece(handle, offset + n, value[n..])];
    assert all[..|all| - 1] == q && value[n..] == value[n..|value|];
  }

  /** The octets in chunks of full size. */
  function Whole(n: int, size: int): (r: int)
    requires size > 0 && n >= 0
    ensures 0 <= r <= n < r + size && Even(r, size)
    decreases n
  {
    if n < size then 0
    else
      EvenNext(Whole(n - size, size), size);
      Whole(n - size, size) + size
  }

  // ---- callbacks in order

  function AcceptedIds(log: seq<Event>): seq<int>
    decreases |log|
  {
    if |log| == 0 then []
    else AcceptedIds(log[..|log| - 1]) + if log[|log| - 1].Accepted? then [log[|log| - 1].id] else []
  }

  function CalledIds(log: seq<Event>): seq<int>
    decreases |log|
  {
    if |log| == 0 then []
    else CalledIds(log[..|log| - 1]) + if log[|log| - 1].Called? then [log[|log| - 1].id] else []
  }

  function Ids(ops: seq<LongOp>): (r: seq<int>)
    ensures |r| == |ops|
  {
    seq(|ops|, i requires 0 <= i < |ops| => ops[i].id)
  }

  function CurrentIds(s: State): seq<int> { if s.current.Some? then [s.current.value.id] else [] }

  /** Accepted, in order: first those called back, then the current one, then the waiting. */
  predicate Queued(s: State) {
    AcceptedIds(s.log) == CalledIds(s.log) + (CurrentIds(s) + Ids(s.waiting))
  }

  lemma IdsPush(log: seq<Event>, e: Event)
    ensures AcceptedIds(log + [e]) == AcceptedIds(log) + if e.Accepted? then [e.id] else []
    ensures CalledIds(log + [e]) == CalledIds(log) + if e.Called? then [e.id] else []
  {
    assert (log + [e])[..|log|] == log;
  }

  lemma WriteQueued(s: State, a: WriteArgs)
    requires Queued(s) && Inv(s)
    ensures Queued(Write(s, a))
  {
    hide AcceptedIds, CalledIds, AllFresh, AllSound, Tiles, Allowed;
    if Allowed(a) {
      IdsPush(s.log, Accepted(s.nextId));
      var op := NewOp(MtuOf(s), s.nextId, a);
      assert Ids(s.waiting + [op]) == Ids(s.waiting) + [op.id];
    }
  }

  lemma {:induction false} DrainQueued(s: State)
    requires AcceptedIds(s.log) == CalledIds(s.log) + Ids(s.waiting)
    ensures Queued(Drain(s))
    decreases |s.waiting|
  {
    hide AcceptedIds, CalledIds;
    if |s.waiting| > 0 {
      var id := s.waiting[0].id;
      var e := Called(id, false, false, 0);
      IdsPush(s.log, e);
      assert Ids(s.waiting) == [id] + Ids(s.waiting[1..]);
      assert (CalledIds(s.log) + [id]) + Ids(s.waiting[1..]) == CalledIds(s.log) + ([id] + Ids(s.waiting[1..]));
      DrainQueued(s.(waiting := s.waiting[1..], log := s.log + [e]));
    }
  }

  lemma CompleteQueued(s: State, op: LongOp, success: bool, ecode: int, reliableError: bool)
    requires AcceptedIds(s.log) == CalledIds(s.log) + ([op.id] + Ids(s.waiting))
    ensures Queued(Complete(s, op, success, ecode, reliableError))
  {
    hide AcceptedIds, CalledIds, Ids, Drain;
    IdsPush(s.log, Executed(op.(success := success, ecode := ecode, reliableError := reliableError), s.server, s.mtu));
    IdsPush(s.log, Called(op.id, false, reliableError, ecode));
    assert (CalledIds(s.log) + [op.id]) + Ids(s.waiting) == CalledIds(s.log) + ([op.id] + Ids(s.waiting));
    if !s.up { DrainQueued(s.(log := s.log + [Called(op.id, false, reliableError, ecode)])); }
  }

  lemma SendPrepQueued(s: State, op: LongOp)
    requires AcceptedIds(s.log) == CalledIds(s.log) + ([op.id] + Ids(s.waiting))
    ensures Queued(SendPrep(s, op))
  {
    hide AcceptedIds, CalledIds, Complete;
    CompleteQueued(s, op, false, 0, false);
    assert CurrentIds(s.(current := Some(op), flight := Preparing)) == [op.id];
  }

  lemma StartNextQueued(s: State)
    requires AcceptedIds(s.log) == CalledIds(s.log) + Ids(s.waiting)
    ensures Queued(StartNext(s))
  {
    hide AcceptedIds, CalledIds, SendPrep;
    if |s.waiting| > 0 {
      assert Ids(s.waiting) == [s.waiting[0].id] + Ids(s.waiting[1..]);
      SendPrepQueued(s.(waiting := s.waiting[1..]), s.waiting[0]);
    }
  }

  lemma OnPreparedQueued(s: State, op: LongOp, opcode: int, pdu: seq<int>)
    requires OpOk(op) && AcceptedIds(s.log) == CalledIds(s.log) + ([op.id] + Ids(s.waiting))
    ensures Queued(OnPrepared(s, op, opcode, pdu))
  {
    hide AcceptedIds, CalledIds, Complete, SendPrep, Acknowledges, OpOk;
    CompleteQueued(s, op, false, Refusal(opcode, pdu).0, Refusal(opcode, pdu).1);
    CompleteQueued(s, op, true, 0, false);
    var next := op.index + op.cur;
    SendPrepQueued(s, op.(index := next, cur := Least(|op.value| - next, s.mtu - 5)));
  }

  /** While the op before them is executing, new writes line up behind the others. */
  lemma {:induction false} WriteAllQueued(s: State, writes: seq<WriteArgs>)
    requires s.inLongWrite && AcceptedIds(s.log) == CalledIds(s.log) + Ids(s.waiting)
    ensures var r := WriteAll(s, writes);
            AcceptedIds(r.log) == CalledIds(r.log) + Ids(r.waiting)
    decreases |writes|
  {
    hide AcceptedIds, CalledIds, Allowed;
    if |writes| > 0 {
      var a := writes[0];
      IdsPush(s.log, Accepted(s.nextId));
      var op := NewOp(MtuOf(s), s.nextId, a);
      assert Ids(s.waiting + [op]) == Ids(s.waiting) + [op.id];
      WriteAllQueued(Write(s, a), writes[1..]);
    }
  }

  lemma OnExecutedQueued(s: State, op: LongOp, opcode: int, pdu: seq<int>, writes: seq<WriteArgs>)
    requires s.inLongWrite && AcceptedIds(s.log) == CalledIds(s.log) + ([op.id] + Ids(s.waiting))
    ensures Queued(OnExecuted(s, op, opcode, pdu, writes))
  {
    hide AcceptedIds, CalledIds, StartNext, WriteAll;
    var s1 := s.(log := s.log + [Report(op, opcode, pdu)]);
    IdsPush(s.log, Report(op, opcode, pdu));
    WriteAllQueued(s1, writes);
    StartNextQueued(WriteAll(s1, writes));
  }

  lemma StepQueued(s: State, i: Input)
    requires Inv(s) && Queued(s)
    ensures Queued(Step(s, i))
  {
    hide AcceptedIds, CalledIds, OnPrepared, OnExecuted, Write, OpOk, Tiles, AllFresh, AllSound;
    match i
    case DoWrite(args) => WriteQueued(s, args);
    case SetMtu(_) =>
    case LinkLost =>
    case Answer(kept, opcode, pdu, writes, up) =>
      if s.up && s.current.Some? && OpOk(s.current.value) {
        var op := s.current.value;
        if s.flight.Preparing? {
          OnPreparedQueued(AtPrepared(s, kept || opcode == PREP_WRITE_RSP, up), op, opcode, pdu);
        } else if s.flight.Executing? {
          OnExecutedQueued(Answered(s, [], up), op, opcode, pdu, writes);
        }
      }
  }

  lemma {:induction false} RunQueued(s: State, inputs: seq<Input>)
    requires Inv(s) && Queued(s)
    ensures Queued(Run(s, inputs))
    decreases |inputs|
  {
    hide Inv, Queued, Step;
    if |inputs| > 0 {
      StepKeeps(s, inputs[0]);
      StepQueued(s, inputs[0]);
      RunQueued(Step(s, inputs[0]), inputs[1..]);
    }
  }

  /** Every accepted long write is called back once, in the order of acceptance, or is the
      current one, or waits behind it; and when none is going on, none waits. */
  lemma CalledBackInOrder(mtu: int, inputs: seq<Input>)
    requires mtu >= MIN_MTU
    ensures var s := Run(New(mtu), inputs);
            && AcceptedIds(s.log) == CalledIds(s.log) + (CurrentIds(s) + Ids(s.waiting))
            && (!s.inLongWrite ==> AcceptedIds(s.log) == CalledIds(s.log) && s.server == [])
  {
    hide Run, AcceptedIds, CalledIds;
    NewQueued(mtu);
    RunKeeps(New(mtu), inputs);
    RunQueued(New(mtu), inputs);
  }

  lemma NewQueued(mtu: int)
    requires mtu >= MIN_MTU
    ensures Inv(New(mtu)) && Queued(New(mtu))
  {
  }

  // ---- success is honest

  predicate WasExecuted(log: seq<Event>, id: int) {
    exists i :: 0 <= i < |log| && log[i].Executed? && log[i].op.id == id
  }

  predicate Honest(log: seq<Event>) {
    forall j :: 0 <= j < |log| && log[j].Called? && log[j].success ==> WasExecuted(log[..j], log[j].id)
  }

  /** A write that is being executed for good was logged as such. */
  predicate Truthful(s: State) {
    Honest(s.log) && (s.flight == Executing(true) && s.current.Some? ==> WasExecuted(s.log, s.current.value.id))
  }

  lemma HonestPush(log: seq<Event>, e: Event)
    requires Honest(log) && (e.Called? && e.success ==> WasExecuted(log, e.id))
    ensures Honest(log + [e])
    ensures forall id :: WasExecuted(log, id) ==> WasExecuted(log + [e], id)
  {
    var all := log + [e];
    forall j | 0 <= j < |all| && all[j].Called? && all[j].success
      ensures WasExecuted(all[..j], all[j].id)
    {
      if j < |log| { assert all[..j] == log[..j]; } else { assert all[..j] == log; }
    }
    forall id | WasExecuted(log, id)
      ensures WasExecuted(all, id)
    {
      var i :| 0 <= i < |log| && log[i].Executed? && log[i].op.id == id;
      assert all[i] == log[i];
    }
  }

  lemma WriteTruthful(s: State, a: WriteArgs)
    requires Truthful(s)
    ensures Truthful(Write(s, a))
  {
    hide Honest, WasExecuted, Allowed;
    HonestPush(s.log, Accepted(s.nextId));
  }

  lemma {:induction false} WriteAllTruthful(s: State, writes: seq<WriteArgs>)
    requires Truthful(s)
    ensures Truthful(WriteAll(s, writes))
    decreases |writes|
  {
    hide Truthful, Write;
    if |writes| > 0 {
      WriteTruthful(s, writes[0]);
      WriteAllTruthful(Write(s, writes[0]), writes[1..]);
    }
  }

  lemma {:induction false} DrainTruthful(s: State)
    requires Honest(s.log)
    ensures Truthful(Drain(s))
    decreases |s.waiting|
  {
    hide Honest, WasExecuted;
    if |s.waiting| > 0 {
      var e := Called(s.waiting[0].id, false, false, 0);
      HonestPush(s.log, e);
      DrainTruthful(s.(waiting := s.waiting[1..], log := s.log + [e]));
    }
  }

  lemma CompleteTruthful(s: State, op: LongOp, success: bool, ecode: int, reliableError: bool)
    requires Honest(s.log)
    ensures Truthful(Complete(s, op, success, ecode, reliableError))
  {
    hide Honest, Drain;
    if s.up {
      var e := Executed(op.(success := success, ecode := ecode, reliableError := reliableError), s.server, s.mtu);
      HonestPush(s.log, e);
      assert (s.log + [e])[|s.log|] == e;
    } else {
      hide WasExecuted, Truthful;
      var e := Called(op.id, false, reliableError, ecode);
      HonestPush(s.log, e);
      DrainTruthful(s.(log := s.log + [e]));
    }
  }

  lemma StepTruthful(s: State, i: Input)
    requires Inv(s) && Truthful(s)
    ensures Truthful(Step(s, i))
  {
    hide Honest, WasExecuted, Complete, Write, WriteAll, OpOk, Acknowledges, Tiles, AllFresh, AllSound;
    match i
    case DoWrite(args) => WriteTruthful(s, args);
    case SetMtu(_) =>
    case LinkLost =>
    case Answer(kept, opcode, pdu, writes, up) =>
      if s.up && s.current.Some? && OpOk(s.current.value) {
        var op := s.current.value;
        if s.flight.Preparing? {
          PreparedTruthful(AtPrepared(s, kept || opcode == PREP_WRITE_RSP, up), op, opcode, pdu);
        } else if s.flight.Executing? {
          AnsweredTruthful(Answered(s, [], up), op, opcode, pdu, writes);
        }
      }
  }

  lemma PreparedTruthful(s: State, op: LongOp, opcode: int, pdu: seq<int>)
    requires Honest(s.log) && OpOk(op)
    ensures Truthful(OnPrepared(s, op, opcode, pdu))
  {
    hide Honest, WasExecuted, Complete, OpOk, Acknowledges;
    CompleteTruthful(s, op, false, Refusal(opcode, pdu).0, Refusal(opcode, pdu).1);
    CompleteTruthful(s, op, true, 0, false);
    var next := op.(index := op.index + op.cur, cur := Least(|op.value| - (op.index + op.cur), s.mtu - 5));
    CompleteTruthful(s, next, false, 0, false);
  }

  lemma AnsweredTruthful(s: State, op: LongOp, opcode: int, pdu: seq<int>, writes: seq<WriteArgs>)
    requires Truthful(s) && s.flight == Executing(op.success) && s.current == Some(op)
    ensures Truthful(OnExecuted(s, op, opcode, pdu, writes))
  {
    hide Honest, WasExecuted, Complete, WriteAll, Report;
    ReportIsCall(op, opcode, pdu);
    HonestPush(s.log, Report(op, opcode, pdu));
    var s1 := s.(log := s.log + [Report(op, opcode, pdu)]);
    WriteAllTruthful(s1, writes);
    var r := WriteAll(s1, writes);
    if |r.waiting| > 0 {
      CompleteTruthful(r.(waiting := r.waiting[1..]), r.waiting[0], false, 0, false);
    }
  }

  lemma {:induction false} RunTruthful(s: State, inputs: seq<Input>)
    requires Inv(s) && Truthful(s)
    ensures Truthful(Run(s, inputs))
    decreases |inputs|
  {
    hide Inv, Truthful, Step;
    if |inputs| > 0 {
      StepKeeps(s, inputs[0]);
      StepTruthful(s, inputs[0]);
      RunTruthful(Step(s, inputs[0]), inputs[1..]);
    }
  }

  /** A callback reports success only for a value that was executed before. */
  lemma SuccessWasExecuted(mtu: int, inputs: seq<Input>, j: nat)
    requires mtu >= MIN_MTU
    requires var log := Run(New(mtu), inputs).log; j < |log| && log[j].Called? && log[j].success
    ensures var log := Run(New(mtu), inputs).log; WasExecuted(log[..j], log[j].id)
  {
    hide Run, WasExecuted;
    NewQueued(mtu);
    RunTruthful(New(mtu), inputs) by { assert Truthful(New(mtu)); }
  }

  // ---- the link is lost while an answer is awaited

  /** A long write is going on on a link that is gone. */
  predicate Stuck(s: State) { !s.up && s.inLongWrite }

  lemma StuckStep(s: State, i: Input)
    requires Stuck(s)
    ensures Stuck(Step(s, i)) && CalledIds(Step(s, i).log) == CalledIds(s.log)
  {
    hide CalledIds, Allowed;
    if i.DoWrite? { IdsPush(s.log, Accepted(s.nextId)); }
  }

  /** Long writes are then taken for ever and never called back. */
  lemma {:induction false} LostLinkCallsNobody(s: State, inputs: seq<Input>)
    requires Stuck(s)
    ensures Stuck(Run(s, inputs)) && CalledIds(Run(s, inputs).log) == CalledIds(s.log)
    decreases |inputs|
  {
    hide Stuck, Step, CalledIds;
    if |inputs| > 0 {
      StuckStep(s, inputs[0]);
      LostLinkCallsNobody(Step(s, inputs[0]), inputs[1..]);
    }
  }

  /** What a link loss means for a long write asked for later: it is taken and waits for ever
      exactly if one is going on at that moment. Otherwise the first chunk is cut at the MTU of
      no bearer, 0 - 5 in 16 bits: the call is undefined exactly if the value is shorter than
      that, and refused if not. */
  lemma LinkLossMeans(s: State, a: WriteArgs)
    requires Inv(s) && !s.broken && Allowed(a)
    ensures var r := Step(s, LinkLost);
            var t := Write(r, a);
            && (Stuck(r) <==> !s.flight.Idle?)
            && (Stuck(r) ==> !t.broken && t.log == r.log + [Accepted(r.nextId)] && |t.waiting| == |r.waiting| + 1)
            && (!Stuck(r) ==> t.log == r.log && (t.broken <==> |a.value| < 65531))
  {
    hide AllFresh, AllSound;
  }

  /** One octet on a link that is gone. */
  lemma WriteAfterLinkLoss(x: int)
    ensures Run(New(23), [LinkLost, DoWrite(WriteArgs(false, 3, 0, [x]))]).broken
  {
    RunTwo(New(23), LinkLost, DoWrite(WriteArgs(false, 3, 0, [x])));
  }

  /** The link is lost while a long write is going on. */
  lemma LinkLossWhileWriting(value: seq<int>)
    requires 0 < |value| <= 0xFFFF
    ensures Stuck(Run(New(23), [DoWrite(WriteArgs(false, 3, 0, value)), LinkLost]))
  {
    RunTwo(New(23), DoWrite(WriteArgs(false, 3, 0, value)), LinkLost);
  }

  lemma RunTwo(s: State, a: Input, b: Input)
    ensures Run(s, [a, b]) == Step(Step(s, a), b)
  {
    hide Step;
    RunCons(s, a, [b]);
    RunCons(Step(s, a), b, []);
    assert [a] + [b] == [a, b] && [b] + [] == [b];
  }
}
