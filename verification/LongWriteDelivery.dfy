/** What a long write comes to: acknowledged chunk by chunk it is executed whole and reported as
    a success; refused anywhere it is reported as a failure with the code of the refusal. */
module LongWriteDelivery {
  import opened Wrappers
  import opened Arith
  import opened LongWrite
  import opened LongWriteLaws

  /** An event, with what a caller and a server see of it. */
  datatype Fact =
    | Took(id: int)
    | Wrote(id: int, queue: seq<Piece>)
    | Told(id: int, success: bool, reliableError: bool, ecode: int)

  function Seen(e: Event): Fact {
    match e
    case Accepted(id) => Took(id)
    case Executed(op, queue, _) => Wrote(op.id, queue)
    case Called(id, success, reliableError, ecode) => Told(id, success, reliableError, ecode)
  }

  function Facts(log: seq<Event>): seq<Fact>
    decreases |log|
  {
    if |log| == 0 then [] else Facts(log[..|log| - 1]) + [Seen(log[|log| - 1])]
  }

  lemma FactsPush(log: seq<Event>, e: Event)
    ensures Facts(log + [e]) == Facts(log) + [Seen(e)]
  {
    assert (log + [e])[..|log|] == log;
  }

  lemma {:induction false} RunAppend(s: State, a: seq<Input>, b: seq<Input>)
    ensures Run(s, a + b) == Run(Run(s, a), b)
    decreases |a|
  {
    hide Step;
    if |a| == 0 {
      assert a + b == b;
    } else {
      assert (a + b)[0] == a[0] && (a + b)[1..] == a[1..] + b;
      RunAppend(Step(s, a[0]), a[1..], b);
    }
  }

  lemma RunOne(s: State, i: Input)
    ensures Run(s, [i]) == Step(s, i)
  {
    hide Step;
    RunCons(s, i, []);
    assert [i] + [] == [i];
  }

  // ---- acknowledgements

  /** A write and the parameters of the responses to its chunks. */
  datatype Job = Job(args: WriteArgs, echoes: seq<seq<int>>)

  function ChunksOf(a: WriteArgs, mtu: int): seq<Piece>
    requires mtu >= 23
  {
    Chunks(a.handle, a.offset, a.value, mtu - 5)
  }

  /** Handle and offset with the low octet first, then the chunk. */
  lemma EchoOctets(p: Piece)
    ensures Encode(p) == [p.handle % 0x100, p.handle / 0x100, p.offset % 0x100, p.offset / 0x100] + p.bytes
  {
  }

  /** One echo for each chunk; a reliable write wants the chunk itself back. */
  predicate Echoed(reliable: bool, chunks: seq<Piece>, echoes: seq<seq<int>>) {
    |echoes| == |chunks| && (reliable ==> forall j :: 0 <= j < |chunks| ==> echoes[j] == Encode(chunks[j]))
  }

  predicate Proper(job: Job, mtu: int) {
    mtu >= 23 && 0 < |job.args.value| && 0 <= job.args.offset && |job.args.value| + job.args.offset <= 65535
    && Echoed(job.args.reliable, ChunksOf(job.args, mtu), job.echoes)
  }

  /** Prepare Write Responses. */
  function Acks(echoes: seq<seq<int>>): seq<Input> {
    if |echoes| == 0 then [] else [Answer(true, 0x17, echoes[0], [], true)] + Acks(echoes[1..])
  }

  /** The chunk of op is in flight, nothing is wrong, and `prepared` is at the server. */
  predicate InFlight(s: State, op: LongOp, prepared: seq<Piece>) {
    && s.up && s.attached && !s.broken && s.mtu >= 23
    && s.flight.Preparing? && s.current == Some(op) && s.server == prepared
    && 0 <= op.index < |op.value| && 0 <= op.offset && op.offset + |op.value| <= 65535
    && op.cur == Least(|op.value| - op.index, s.mtu - 5)
  }

  /** The chunks that are still to come. */
  function Left(op: LongOp, mtu: int): seq<Piece>
    requires 0 <= op.index <= |op.value| && mtu >= 23
  {
    Chunks(op.handle, op.offset + op.index, op.value[op.index..], mtu - 5)
  }

  function NextOp(op: LongOp, mtu: int): LongOp {
    var next := op.index + op.cur;
    op.(index := next, cur := Least(|op.value| - next, mtu - 5))
  }

  /** One acknowledgement: the next chunk goes out, or Execute Write with 0x01. */
  lemma AckStep(s: State, op: LongOp, prepared: seq<Piece>, echo: seq<int>)
    requires InFlight(s, op, prepared) && (op.reliable ==> echo == Encode(ChunkOf(op)))
    ensures var t := Step(s, Answer(true, 0x17, echo, [], true));
            var queue := prepared + [ChunkOf(op)];
            if op.index + op.cur < |op.value| then
              t == s.(current := Some(NextOp(op, s.mtu)), server := queue)
              && InFlight(t, NextOp(op, s.mtu), queue)
            else
              var done := op.(success := true, ecode := 0, reliableError := false);
              t == s.(current := Some(done), flight := Executing(true), server := queue,
                      log := s.log + [Executed(done, queue, s.mtu)])
  {
    hide Encode;
  }

  lemma LeftIs(op: LongOp, mtu: int)
    requires OpOk(op) && mtu >= 23 && op.cur == Least(|op.value| - op.index, mtu - 5)
    ensures Left(op, mtu) == [ChunkOf(op)] + Left(NextOp(op, mtu), mtu)
    ensures op.index + op.cur == |op.value| ==> Left(NextOp(op, mtu), mtu) == []
  {
    var rest := op.value[op.index..];
    assert rest[..op.cur] == op.value[op.index..op.index + op.cur];
    assert rest[op.cur..] == op.value[op.index + op.cur..];
  }

  /** All the chunks that are left are acknowledged. */
  lemma {:induction false} AcksExecute(s: State, op: LongOp, prepared: seq<Piece>, echoes: seq<seq<int>>)
    requires InFlight(s, op, prepared) && Echoed(op.reliable, Left(op, s.mtu), echoes)
    ensures var t := Run(s, Acks(echoes));
            var queue := prepared + Left(op, s.mtu);
            && t.current.Some? && t.current.value.id == op.id && OpOk(t.current.value) && t.current.value.success
            && !t.current.value.reliableError && t.current.value.ecode == 0
            && t == s.(current := t.current, flight := Executing(true), server := queue, log := t.log)
            && Facts(t.log) == Facts(s.log) + [Wrote(op.id, queue)]
    decreases |op.value| - op.index
  {
    hide Step, Facts, Run, Chunks, Encode;
    assert OpOk(op);
    LeftIs(op, s.mtu);
    AckStep(s, op, prepared, echoes[0]);
    var i := Answer(true, 0x17, echoes[0], [], true);
    var t := Step(s, i);
    RunCons(s, i, Acks(echoes[1..]));
    if op.index + op.cur < |op.value| {
      AcksExecute(t, NextOp(op, s.mtu), prepared + [ChunkOf(op)], echoes[1..]);
      assert prepared + [ChunkOf(op)] + Left(NextOp(op, s.mtu), s.mtu) == prepared + Left(op, s.mtu);
    } else {
      assert echoes[1..] == [];
      NothingMore(t);
      FactsPush(s.log, t.log[|t.log| - 1]);
    }
  }

  lemma NothingMore(s: State)
    ensures Run(s, Acks([])) == s
  {
  }

  // ---- any number of long writes

  /** The first waiting write begins when the one before it has been executed. */
  function Serve(jobs: seq<Job>): seq<Input> {
    if |jobs| == 0 then []
    else Acks(jobs[0].echoes) + [Answer(true, 0x19, [], [], true)] + Serve(jobs[1..])
  }

  function Ask(jobs: seq<Job>): seq<Input> {
    if |jobs| == 0 then [] else [DoWrite(jobs[0].args)] + Ask(jobs[1..])
  }

  /** What is taken, and what becomes of it. */
  function AllTook(id: int, n: nat): seq<Fact>
    decreases n
  {
    if n == 0 then [] else [Took(id)] + AllTook(id + 1, n - 1)
  }

  function AllWritten(id: int, jobs: seq<Job>, mtu: int): seq<Fact>
    requires mtu >= 23
    decreases |jobs|
  {
    if |jobs| == 0 then []
    else [Wrote(id, ChunksOf(jobs[0].args, mtu)), Told(id, true, false, 0)] + AllWritten(id + 1, jobs[1..], mtu)
  }

  function Ops(mtu: int, id: int, jobs: seq<Job>): seq<LongOp>
    decreases |jobs|
  {
    if |jobs| == 0 then [] else [NewOp(mtu, id, jobs[0].args)] + Ops(mtu, id + 1, jobs[1..])
  }

  predicate AllProper(jobs: seq<Job>, mtu: int) { forall i :: 0 <= i < |jobs| ==> Proper(jobs[i], mtu) }

  lemma NewOpIs(mtu: int, id: int, job: Job)
    requires Proper(job, mtu)
    ensures var op := NewOp(mtu, id, job.args);
            && op.id == id && op.index == 0 && op.cur == Least(|op.value|, mtu - 5) && op.value == job.args.value
            && op.offset == job.args.offset && op.reliable == job.args.reliable
            && Left(op, mtu) == ChunksOf(job.args, mtu) && 0 < op.cur <= |op.value|
  {
    hide Chunks, Encode;
    assert job.args.value[0..] == job.args.value;
  }

  /** The write in flight is executed and called back, and the next one begins. */
  lemma ExecutedNext(s: State, next: seq<LongOp>)
    requires s.up && s.attached && !s.broken && s.mtu >= 23 && s.flight == Executing(true) && s.waiting == next
    requires s.current.Some? && OpOk(s.current.value) && s.current.value.success && !s.current.value.reliableError
    requires |next| > 0 ==> next[0].cur + 5 <= s.mtu
    ensures var t := Step(s, Answer(true, 0x19, [], [], true));
            && t.log == s.log + [Called(s.current.value.id, true, false, s.current.value.ecode)] && t.server == []
            && t.mtu == s.mtu && t.up && t.attached && !t.broken
            && (|next| == 0 ==> t.flight.Idle? && t.waiting == [] && !t.inLongWrite)
            && (|next| > 0 ==> t.flight.Preparing? && t.current == Some(next[0]) && t.waiting == next[1..])
  {
  }

  lemma {:induction false} ServeAll(s: State, id: int, jobs: seq<Job>)
    requires |jobs| > 0 && AllProper(jobs, s.mtu)
    requires InFlight(s, NewOp(s.mtu, id, jobs[0].args), []) && s.waiting == Ops(s.mtu, id + 1, jobs[1..])
    ensures var t := Run(s, Serve(jobs));
            Facts(t.log) == Facts(s.log) + AllWritten(id, jobs, s.mtu) && t.flight.Idle? && t.waiting == []
    decreases |jobs|
  {
    hide Step, Run, Facts, Acks, Chunks, NewOp, Encode;
    var job, rest := jobs[0], jobs[1..];
    var exec := [Answer(true, 0x19, [], [], true)];
    assert Proper(job, s.mtu);
    NewOpIs(s.mtu, id, job);
    AcksExecute(s, NewOp(s.mtu, id, job.args), [], job.echoes);
    var s1 := Run(s, Acks(job.echoes));
    if |rest| > 0 {
      assert Proper(rest[0], s.mtu) by { assert rest[0] == jobs[1]; }
      NewOpIs(s.mtu, id + 1, rest[0]);
    }
    ExecutedNext(s1, s.waiting);
    var s2 := Step(s1, exec[0]);
    FactsPush(s1.log, Called(id, true, false, 0));
    RunAppend(s, Acks(job.echoes) + exec, Serve(rest));
    RunAppend(s, Acks(job.echoes), exec);
    RunOne(s1, exec[0]);
    var w, told := Wrote(id, ChunksOf(job.args, s.mtu)), Told(id, true, false, 0);
    assert [] + ChunksOf(job.args, s.mtu) == ChunksOf(job.args, s.mtu);
    assert Facts(s2.log) == Facts(s.log) + [w] + [told];
    assert Facts(s.log) + [w] + [told] + AllWritten(id + 1, rest, s.mtu)
           == Facts(s.log) + ([w, told] + AllWritten(id + 1, rest, s.mtu));
    if |rest| > 0 {
      assert forall i :: 0 <= i < |rest| ==> rest[i] == jobs[i + 1];
      ServeAll(s2, id + 1, rest);
    } else {
      NothingAsked(s2);
    }
  }

  lemma NothingAsked(s: State)
    ensures Run(s, []) == s
  {
  }

  /** While a long write is going on, others line up. */
  lemma {:induction false} AskWhileBusy(s: State, jobs: seq<Job>)
    requires s.inLongWrite && s.attached && !s.broken && AllProper(jobs, s.mtu)
    ensures var t := Run(s, Ask(jobs));
            && t == s.(waiting := s.waiting + Ops(s.mtu, s.nextId, jobs), nextId := s.nextId + |jobs|, log := t.log)
            && Facts(t.log) == Facts(s.log) + AllTook(s.nextId, |jobs|)
    decreases |jobs|
  {
    hide Run, Facts, NewOp, Chunks, Encode;
    if |jobs| > 0 {
      assert Proper(jobs[0], s.mtu);
      var i := DoWrite(jobs[0].args);
      RunCons(s, i, Ask(jobs[1..]));
      FactsPush(s.log, Accepted(s.nextId));
      NewOpId(s.mtu, s.nextId, jobs[0].args);
      assert forall i :: 0 <= i < |jobs[1..]| ==> jobs[1..][i] == jobs[i + 1];
      AskWhileBusy(Step(s, i), jobs[1..]);
    } else {
      NothingAsked(s);
    }
  }

  lemma NewOpId(mtu: int, id: int, a: WriteArgs)
    ensures NewOp(mtu, id, a).id == id
  {
  }

  lemma FirstAsked(mtu: int, job: Job)
    requires Proper(job, mtu)
    ensures var t := Step(New(mtu), DoWrite(job.args));
            && InFlight(t, NewOp(mtu, 1, job.args), []) && t.inLongWrite && t.waiting == [] && t.nextId == 2
            && t.attached && !t.broken && t.mtu == mtu && t.log == [Accepted(1)]
  {
    hide Chunks, Encode;
    NewOpIs(mtu, 1, job);
  }

  /** For every MTU of at least 23 and any number of long writes, of every length and each one
      acknowledged chunk by chunk: all are taken, the first begins at once and the others wait;
      each is executed whole, with one piece for every mtu - 5 octets, reported as a success,
      and the next one begins; and then nothing is left. */
  lemma {:induction false} AllAreDelivered(mtu: int, jobs: seq<Job>)
    requires mtu >= 23 && |jobs| > 0 && AllProper(jobs, mtu)
    ensures var s := Run(New(mtu), Ask(jobs) + Serve(jobs));
            && Facts(s.log) == AllTook(1, |jobs|) + AllWritten(1, jobs, mtu)
            && s.flight.Idle? && s.waiting == []
  {
    hide Step, Run, Facts, Serve, NewOp, InFlight, AllWritten, AllTook;
    var job, rest := jobs[0], jobs[1..];
    assert Proper(job, mtu);
    FirstAsked(mtu, job);
    var i := DoWrite(job.args);
    var s1 := Step(New(mtu), i);
    RunCons(New(mtu), i, Ask(rest));
    RestProper(jobs, mtu);
    AskWhileBusy(s1, rest);
    var s2 := Run(s1, Ask(rest));
    StillInFlight(s1, s2, NewOp(mtu, 1, job.args));
    ServeAll(s2, 1, jobs);
    RunAppend(New(mtu), Ask(jobs), Serve(jobs));
    OneTaken(|rest|);
  }

  lemma RestProper(jobs: seq<Job>, mtu: int)
    requires AllProper(jobs, mtu) && |jobs| > 0
    ensures AllProper(jobs[1..], mtu)
  {
    hide Proper;
    var rest := jobs[1..];
    assert forall i :: 0 <= i < |rest| ==> rest[i] == jobs[i + 1];
  }

  lemma StillInFlight(s: State, t: State, op: LongOp)
    requires InFlight(s, op, []) && t == s.(waiting := t.waiting, nextId := t.nextId, log := t.log)
    ensures InFlight(t, op, [])
  {
  }

  lemma OneTaken(n: nat)
    ensures Facts([Accepted(1)]) + AllTook(2, n) == AllTook(1, n + 1)
  {
    FactsPush([], Accepted(1));
    assert [] + [Accepted(1)] == [Accepted(1)];
  }

  /** In particular as many pieces as the length divided by mtu - 5, rounded up. */
  lemma PiecesOfChunks(a: WriteArgs, mtu: int)
    requires mtu >= 23
    ensures |ChunksOf(a, mtu)| == (|a.value| + mtu - 6) / (mtu - 5)
  {
    ChunksCount(a.handle, a.offset, a.value, mtu - 5);
    PiecesIsCeiling(|a.value|, mtu - 5);
  }

  // ---- refusals

  /** An answer that does not acknowledge the chunk: an error, another opcode, or, for a
      reliable write, something else than the chunk itself. */
  predicate Declines(reliable: bool, chunk: Piece, opcode: int, pdu: seq<int>) {
    opcode != 0x17 || (reliable && pdu != Encode(chunk))
  }

  /** The code that an error response carries. */
  function CodeIn(opcode: int, pdu: seq<int>): int { if opcode == 0x01 && |pdu| == 4 then pdu[3] else 0 }

  lemma DeclineStep(s: State, op: LongOp, prepared: seq<Piece>, kept: bool, opcode: int, pdu: seq<int>)
    requires InFlight(s, op, prepared) && Declines(op.reliable, ChunkOf(op), opcode, pdu)
    ensures var t := Step(s, Answer(kept, opcode, pdu, [], true));
            && t.flight == Executing(false) && t.log == s.log && t.up && t.attached && !t.broken
               && t.waiting == s.waiting
            && t.current == Some(op.(success := false, ecode := CodeIn(opcode, pdu), reliableError := opcode == 0x17))
  {
    hide Encode;
  }

  /** The answer to Execute Write, when nobody else waits. */
  lemma ExecuteAnswered(s: State, op: LongOp, kept: bool, opcode: int, pdu: seq<int>)
    requires s.up && !s.broken && s.flight.Executing? && s.current == Some(op) && OpOk(op) && s.waiting == []
    ensures var t := Step(s, Answer(kept, opcode, pdu, [], true));
            && t.flight.Idle? && t.server == []
            && t.log == s.log + [Called(op.id, op.success && opcode == 0x19 && pdu == [], op.reliableError,
                                        if opcode == 0x01 then CodeIn(opcode, pdu) else op.ecode)]
  {
  }

  /** Some chunks are acknowledged, the next one is not: nothing is executed, the write is
      cancelled, and its callback gets a failure with the code of the refusal, unless the cancel
      is answered by an error of its own. */
  lemma {:induction false} RefusedChunk(s: State, op: LongOp, prepared: seq<Piece>, echoes: seq<seq<int>>,
                                        kept: bool, opcode: int, pdu: seq<int>,
                                        kept': bool, opcode': int, pdu': seq<int>)
    requires InFlight(s, op, prepared) && s.waiting == []
    requires |echoes| < |Left(op, s.mtu)| && Echoed(op.reliable, Left(op, s.mtu)[..|echoes|], echoes)
    requires Declines(op.reliable, Left(op, s.mtu)[|echoes|], opcode, pdu)
    ensures var inputs := Acks(echoes) + [Answer(kept, opcode, pdu, [], true), Answer(kept', opcode', pdu', [], true)];
            var t := Run(s, inputs);
            var code := if opcode' == 0x01 then CodeIn(opcode', pdu') else CodeIn(opcode, pdu);
            && Facts(t.log) == Facts(s.log) + [Told(op.id, false, opcode == 0x17, code)] && t.flight.Idle?
    decreases |echoes|
  {
    hide Step, Run, Facts, Chunks, Encode, Declines;
    var last := [Answer(kept, opcode, pdu, [], true), Answer(kept', opcode', pdu', [], true)];
    assert OpOk(op);
    LeftIs(op, s.mtu);
    if |echoes| == 0 {
      DeclineStep(s, op, prepared, kept, opcode, pdu);
      var t := Step(s, last[0]);
      ExecuteAnswered(t, t.current.value, kept', opcode', pdu');
      FactsPush(t.log, Step(t, last[1]).log[|t.log|]);
      assert Acks(echoes) + last == [last[0]] + [last[1]];
      RunCons(s, last[0], [last[1]]);
      RunOne(t, last[1]);
    } else {
      var ack := Answer(true, 0x17, echoes[0], [], true);
      AckStep(s, op, prepared, echoes[0]);
      assert Acks(echoes) + last == [ack] + (Acks(echoes[1..]) + last);
      RunCons(s, ack, Acks(echoes[1..]) + last);
      var t, next := Step(s, ack), NextOp(op, s.mtu);
      MoreLeft(op, s.mtu, echoes);
      RefusedChunk(t, next, prepared + [ChunkOf(op)], echoes[1..], kept, opcode, pdu, kept', opcode', pdu');
    }
  }

  lemma MoreLeft(op: LongOp, mtu: int, echoes: seq<seq<int>>)
    requires OpOk(op) && mtu >= 23 && op.cur == Least(|op.value| - op.index, mtu - 5)
    requires 0 < |echoes| < |Left(op, mtu)| && Echoed(op.reliable, Left(op, mtu)[..|echoes|], echoes)
    ensures op.index + op.cur < |op.value|
    ensures var next := Left(NextOp(op, mtu), mtu);
            && |echoes| - 1 < |next| && next[|echoes| - 1] == Left(op, mtu)[|echoes|]
            && Echoed(op.reliable, next[..|echoes| - 1], echoes[1..])
  {
    hide Chunks, Encode;
    LeftIs(op, mtu);
    var all, next, rest := Left(op, mtu), Left(NextOp(op, mtu), mtu), echoes[1..];
    forall j | 0 <= j < |rest|
      ensures rest[j] == echoes[j + 1] && next[j] == all[j + 1] == all[..|echoes|][j + 1]
    {
    }
  }

  /** From the start: the same for any long write. */
  lemma RefusedChunkIsReported(mtu: int, a: WriteArgs, echoes: seq<seq<int>>, kept: bool, opcode: int, pdu: seq<int>,
                               kept': bool, opcode': int, pdu': seq<int>)
    requires mtu >= 23 && 0 < |a.value| && 0 <= a.offset && |a.value| + a.offset <= 65535
    requires var chunks := ChunksOf(a, mtu);
             && |echoes| < |chunks| && Echoed(a.reliable, chunks[..|echoes|], echoes)
             && Declines(a.reliable, chunks[|echoes|], opcode, pdu)
    ensures var s := Run(New(mtu), [DoWrite(a)] + (Acks(echoes)
                         + [Answer(kept, opcode, pdu, [], true), Answer(kept', opcode', pdu', [], true)]));
            var code := if opcode' == 0x01 then CodeIn(opcode', pdu') else CodeIn(opcode, pdu);
            Facts(s.log) == [Took(1), Told(1, false, opcode == 0x17, code)] && s.flight.Idle?
  {
    hide Step, Run, Facts, Chunks, Encode, Declines, NewOp, Acks;
    var job := Job(a, AnyEchoes(ChunksOf(a, mtu)));
    FirstAsked(mtu, job);
    NewOpIs(mtu, 1, job);
    var s := Step(New(mtu), DoWrite(a));
    RunCons(New(mtu), DoWrite(a), Acks(echoes)
            + [Answer(kept, opcode, pdu, [], true), Answer(kept', opcode', pdu', [], true)]);
    RefusedChunk(s, NewOp(mtu, 1, a), [], echoes, kept, opcode, pdu, kept', opcode', pdu');
    FactsPush([], Accepted(1));
    assert [] + [Accepted(1)] == [Accepted(1)] && Facts([]) == [] by { NoFacts(); }
  }

  lemma NoFacts()
    ensures Facts([]) == []
  {
  }

  function AnyEchoes(chunks: seq<Piece>): (r: seq<seq<int>>)
    ensures Echoed(true, chunks, r) && Echoed(false, chunks, r)
  {
    seq(|chunks|, j requires 0 <= j < |chunks| => Encode(chunks[j]))
  }

  /** All chunks are acknowledged, and the server refuses to execute them. */
  lemma RefusedExecuteIsReported(mtu: int, job: Job, kept: bool, opcode: int, pdu: seq<int>)
    requires Proper(job, mtu) && (opcode != 0x19 || pdu != [])
    ensures var s := Run(New(mtu), [DoWrite(job.args)] + (Acks(job.echoes) + [Answer(kept, opcode, pdu, [], true)]));
            Facts(s.log) == [Took(1), Wrote(1, ChunksOf(job.args, mtu)), Told(1, false, false, CodeIn(opcode, pdu))]
            && s.flight.Idle?
  {
    hide Step, Run, Facts, Chunks, Encode, NewOp, Acks;
    FirstAsked(mtu, job);
    NewOpIs(mtu, 1, job);
    var s := Step(New(mtu), DoWrite(job.args));
    var exec := Answer(kept, opcode, pdu, [], true);
    RunCons(New(mtu), DoWrite(job.args), Acks(job.echoes) + [exec]);
    RunAppend(s, Acks(job.echoes), [exec]);
    AcksExecute(s, NewOp(mtu, 1, job.args), [], job.echoes);
    var t := Run(s, Acks(job.echoes));
    RunOne(t, exec);
    ExecuteAnswered(t, t.current.value, kept, opcode, pdu);
    FactsPush(t.log, Step(t, exec).log[|t.log|]);
    assert [] + ChunksOf(job.args, mtu) == ChunksOf(job.args, mtu);
    FactsPush([], Accepted(1));
    assert [] + [Accepted(1)] == [Accepted(1)] && Facts([]) == [] by { NoFacts(); }
  }

  /** A long write is taken exactly if it has an octet, and its last one is below 65535. */
  lemma TakenExactly(mtu: int, a: WriteArgs)
    requires mtu >= 23
    ensures Facts(Step(New(mtu), DoWrite(a)).log) == [Took(1)]
            <==> 0 < |a.value| && 0 <= a.offset && a.offset + |a.value| <= 65535
    ensures Step(New(mtu), DoWrite(a)).log in {[], [Accepted(1)]}
  {
    FactsPush([], Accepted(1));
    assert [] + [Accepted(1)] == [Accepted(1)];
  }

  // ---- the MTU changes

  lemma MtuTaken(s: State, mtu: int)
    requires !s.broken
    ensures Step(s, SetMtu(mtu)) == s.(mtu := if mtu < 23 then s.mtu else mtu)
  {
  }

  /** A write that waited with a chunk for a larger MTU than there is now is not prepared: with
      an Execute Write of 0x00 it is cancelled, and reported as a failure with the answer. */
  lemma TooLongForTheMtu(s: State, op: LongOp, writes: seq<WriteArgs>)
    requires s.up && !s.broken && s.flight == Executing(true) && s.current == Some(op) && OpOk(op)
    requires |s.waiting| == 1 && OpOk(s.waiting[0]) && s.mtu < s.waiting[0].cur + 5
    ensures var next := s.waiting[0];
            var t := Step(s, Answer(true, 0x19, [], [], true));
            var u := Step(t, Answer(true, 0x19, [], [], true));
            && t.log == s.log + [Called(op.id, op.success, op.reliableError, op.ecode)]
            && t.flight == Executing(false)
               && t.current == Some(next.(success := false, ecode := 0, reliableError := false))
            && u.log == t.log + [Called(next.id, false, false, 0)] && u.flight == Idle && !u.inLongWrite
  {
    var next := s.waiting[0];
    var t := Step(s, Answer(true, 0x19, [], [], true));
    assert OpOk(t.current.value);
  }
}
