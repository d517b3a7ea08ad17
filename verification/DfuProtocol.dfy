/** One package, told event by event: an automaton that reads the log of a run and knows at
    each event what the host has to do next. The run is the only log it takes to an end. */
module DfuProtocol {
  import opened Arith
  import opened Wrappers
  import opened Crc32
  import opened DfuHost

  /** What a request is for. */
  datatype Purpose =
    | Selecting                                           // where did we stop, and how large are blocks
    | Resuming(block: nat, at: nat)                       // execute what is there already
    | Opening(block: nat, send: nat, size: nat)           // create the object for the next block
    | Comparing(block: nat, send: nat, size: nat)         // the checksum of what has arrived
    | Executing(block: nat, at: nat, size: nat)           // execute the block that has arrived

  datatype Phase =
    | Ask(request: Request, purpose: Purpose)             // this has to be sent now
    | Await(request: Request, purpose: Purpose)           // its answer has to come now
    | Head(block: nat, send: nat, size: nat)              // the head of the transfer loop
    | Streaming(block: nat, send: nat, size: nat, at: nat)
    | End(outcome: Outcome)
    | Lost                                                // this must not happen

  datatype Host = Host(phase: Phase, signals: seq<Signal>, packets: nat, dontResume: bool)

  datatype Task = Task(pkg: seq<Octet>, kind: ObjType, mtu: nat)

  function Number(r: Request): nat {
    match r
    case Create(_, _) => 0x01
    case Checksum => 0x03
    case Execute => 0x04
    case Select(_) => 0x06
  }

  /** The first of the signals that answers this request, and those behind it. A link that
      brings nothing any more is down. */
  function Heard(signals: seq<Signal>, number: nat): (Signal, seq<Signal>) {
    if signals == [] then (LinkDown, [])
    else if signals[0].LinkDown? || (signals[0].op == number && signals[0].size >= 3) then (signals[0], signals[1..])
    else Heard(signals[1..], number)
  }

  function Start(t: Task, env: Env, dontResume: bool): Host {
    Host(Ask(Select(t.kind), Selecting), env.signals, env.packets, dontResume)
  }

  /** Sending begins at this offset, with an object of this size; without a size, nothing is
      to be done. */
  function From(t: Task, block: nat, send: nat): Phase
    requires send <= |t.pkg|
  {
    var size := Min(Min(|t.pkg|, block), |t.pkg| - send);
    if size == 0 then End(Code(0x01)) else Ask(Create(t.kind, size), Opening(block, send, size))
  }

  /** The checksum over the first octets of the package is the one that was reported. */
  predicate Agrees(t: Task, s: Signal)
    requires s.Notify? && s.offset <= |t.pkg|
  {
    Crc(t.pkg[..s.offset], None) == s.crc
  }

  /** After the answer to Select: start at 0 if nothing is there, or if an init package is not
      to be resumed; resume whole blocks, or the whole package, with the right checksum; give
      up on anything else, and remember not to resume. */
  function Chosen(t: Task, s: Signal, dontResume: bool): (Phase, bool)
    requires s.Notify?
  {
    if s.size != 15 then (End(Code(0x0A)), dontResume)
    else if s.offset == 0 then (From(t, s.blockSize, 0), dontResume)
    else if s.offset > |t.pkg| then (End(Undefined), dontResume)
    else if t.kind.Command? && (dontResume || !Agrees(t, s)) then (From(t, s.blockSize, 0), dontResume)
    else if t.kind.Data? && !Agrees(t, s) then (End(Code(0x0A)), true)
    else if s.blockSize == 0 then (End(Undefined), dontResume)
    else if s.offset < |t.pkg| && s.offset % s.blockSize > 0 then (End(Code(0x0A)), true)
    else (Ask(Execute, Resuming(s.blockSize, s.offset)), dontResume)
  }

  /** After the checksum: repeat the block, with what is left behind the reported offset as the
      size of the new object, or execute it. */
  function Compared(t: Task, p: Purpose, s: Signal): Phase
    requires s.Notify? && p.Comparing?
  {
    if s.size != 11 || s.offset == 0 then End(Code(0x0A))
    else if s.offset > |t.pkg| then End(Undefined)
    else if Agrees(t, s) then Ask(Execute, Executing(p.block, s.offset, p.size))
    else
      var left := Min(p.size, |t.pkg| - s.offset);
      Ask(Create(t.kind, left), Opening(p.block, p.send, left))
  }

  /** After a good answer: what comes next, and whether the next package may be resumed. */
  function Onwards(t: Task, p: Purpose, s: Signal, dontResume: bool): (Phase, bool)
    requires s.Notify?
  {
    match p
    case Selecting => Chosen(t, s, dontResume)
    case Resuming(block, at) => (if at <= |t.pkg| then From(t, block, at) else Lost, dontResume)
    case Opening(block, send, size) => (Head(block, send, size), dontResume)
    case Comparing(_, _, _) => (Compared(t, p, s), dontResume)
    case Executing(block, at, size) =>
      if at >= |t.pkg| then (End(Code(0x01)), dontResume)
      else
        var left := Min(size, |t.pkg| - at);
        (Ask(Create(t.kind, left), Opening(block, at, left)), dontResume)
  }

  /** A refusal ends the run with the code of the answer, -1 for a link that is down. */
  function Refused(s: Signal): Phase { End(Code(if s.LinkDown? then -1 else s.code)) }

  /** One block goes out in packets of the MTU less 3 octets, at most 514. */
  function Stretch(t: Task, at: nat, end: nat): nat { Min(Min(Max(t.mtu, 3) - 3, 514), Max(end, at) - at) }

  function Max(a: nat, b: nat): nat { if a < b then b else a }

  /** The block ends after the block size, or with the package. */
  function EndOf(t: Task, block: nat, send: nat): nat { Min(send + block, |t.pkg|) }

  function Flow(t: Task, block: nat, send: nat, size: nat, at: nat): Phase {
    if at >= EndOf(t, block, send) then Ask(Checksum, Comparing(block, send, size))
    else Streaming(block, send, size, at)
  }

  /** The event and what the host does after it. */
  function See(t: Task, h: Host, e: Event): Host {
    match h.phase
    case Ask(r, p) => if e == Sent(r) then h.(phase := Await(r, p)) else h.(phase := Lost)
    case Await(r, p) =>
      var (s, rest) := Heard(h.signals, Number(r));
      if e != Answer(s) then h.(phase := Lost)
      else if s.LinkDown? || s.code != 0x01 then
        h.(phase := Refused(s), signals := rest, dontResume := h.dontResume || p.Resuming?)
      else
        var (next, dontResume) := Onwards(t, p, s, h.dontResume);
        h.(phase := next, signals := rest, dontResume := dontResume)
    case Head(block, send, size) =>
      if e == Sending(send) then h.(phase := Flow(t, block, send, size, send)) else h.(phase := Lost)
    case Streaming(block, send, size, at) =>
      var end := EndOf(t, block, send);
      var n := Stretch(t, at, end);
      if h.packets == 0 then h.(phase := if e == PacketRefused then End(Code(0x0A)) else Lost)
      else if at + n <= |t.pkg| && e == Packet(t.pkg[at..at + n]) then
        h.(phase := Flow(t, block, send, size, at + n), packets := h.packets - 1)
      else h.(phase := Lost)
    case _ => h.(phase := Lost)
  }

  function Read(t: Task, h: Host, log: seq<Event>): Host
    decreases |log|
  {
    if |log| == 0 then h else Read(t, See(t, h, log[0]), log[1..])
  }

  // ---- reading in parts

  lemma {:induction false} ReadAppend(t: Task, h: Host, a: seq<Event>, b: seq<Event>)
    ensures Read(t, h, a + b) == Read(t, Read(t, h, a), b)
    decreases |a|
  {
    hide See;
    if |a| == 0 {
      assert a + b == b;
    } else {
      assert (a + b)[0] == a[0] && (a + b)[1..] == a[1..] + b;
      ReadAppend(t, See(t, h, a[0]), a[1..], b);
    }
  }

  lemma ReadCons(t: Task, h: Host, e: Event, rest: seq<Event>)
    ensures Read(t, h, [e] + rest) == Read(t, See(t, h, e), rest)
  {
    hide See;
    assert ([e] + rest)[1..] == rest;
  }

  lemma ReadNothing(t: Task, h: Host)
    ensures Read(t, h, []) == h
  {
  }

  // ---- the model's functions

  lemma {:induction false} HeardFrom(signals: seq<Signal>, number: nat)
    ensures var n := Skipped(signals, number);
            Heard(signals, number)
            == if n < |signals| then (signals[n], signals[n + 1..]) else (LinkDown, [])
    decreases |signals|
  {
    if |signals| > 0 && !Answers(signals[0], number) {
      var rest := signals[1..];
      var n := Skipped(rest, number);
      HeardFrom(rest, number);
      if n < |rest| { assert rest[n + 1..] == signals[n + 2..]; }
    }
  }

  lemma HeardIs(env: Env, r: Request)
    ensures Heard(env.signals, Number(r)) == (Reply(env, r), Waited(env, r).signals)
  {
    hide Heard, Skipped;
    HeardFrom(env.signals, Number(r));
    assert Number(r) == OpOf(r);
  }

  /** A request and its answer. */
  lemma ReadExchange(t: Task, h: Host, env: Env, r: Request, p: Purpose)
    requires h.phase == Ask(r, p) && h.signals == env.signals && h.packets == env.packets
    ensures var s := Reply(env, r);
            var after := Read(t, h, Exchange(env, r));
            && after.signals == Waited(env, r).signals && after.packets == h.packets == Waited(env, r).packets
            && (if CodeOf(s) != 1 then
                  after.phase == End(Code(CodeOf(s))) && after.dontResume == (h.dontResume || p.Resuming?)
                else s.Notify? && (after.phase, after.dontResume) == Onwards(t, p, s, h.dontResume))
  {
    hide Heard, Reply, Waited, Onwards, Number;
    WaitKeeps(env, r);
    HeardIs(env, r);
    var s := Reply(env, r);
    ReadCons(t, h, Sent(r), [Answer(s)]);
    assert [Answer(s)] == [Answer(s)] + [];
    ReadCons(t, h.(phase := Await(r, p)), Answer(s), []);
    assert Exchange(env, r) == [Sent(r)] + [Answer(s)];
    hide Read;
    ReadNothing(t, See(t, h.(phase := Await(r, p)), Answer(s)));
  }

  lemma WaitKeeps(env: Env, r: Request)
    ensures Waited(env, r).packets == env.packets
  {
  }

  /** The host where the run has left the link. */
  function At(phase: Phase, env: Env, dontResume: bool): Host {
    Host(phase, env.signals, env.packets, dontResume)
  }

  lemma {:induction false} ReadStream(t: Task, h: Host, block: nat, send: nat, size: nat, at: nat)
    requires t.mtu >= 23 && send <= at <= EndOf(t, block, send)
    requires h.phase == Flow(t, block, send, size, at)
    ensures var s := Stream(t.pkg[at..EndOf(t, block, send)], Payload(t.mtu), h.packets);
            Read(t, h, s.log)
            == h.(phase := if s.ok then Ask(Checksum, Comparing(block, send, size)) else End(Code(0x0A)),
                  packets := s.packets)
    decreases |t.pkg| - at
  {
    var end := EndOf(t, block, send);
    hide Read, See, Stream, Stretch, Payload;
    if at == end {
      NothingStreams(t, h, block, send, size, at);
    } else if h.packets == 0 {
      RefusedStreams(t, h, block, send, size, at);
    } else {
      var n := Stretch(t, at, end);
      StretchIs(t, at, end);
      var h1 := h.(phase := Flow(t, block, send, size, at + n), packets := h.packets - 1);
      ReadStream(t, h1, block, send, size, at + n);
      var rest := Stream(t.pkg[at + n..end], Payload(t.mtu), h.packets - 1);
      SeesPacket(t, h, block, send, size, at);
      ReadCons(t, h, Packet(t.pkg[at..at + n]), rest.log);
      PacketStreams(t, at, end, h.packets);
    }
  }

  lemma NothingStreams(t: Task, h: Host, block: nat, send: nat, size: nat, at: nat)
    requires t.mtu >= 23 && at == EndOf(t, block, send)
    ensures Stream(t.pkg[at..EndOf(t, block, send)], Payload(t.mtu), h.packets) == Streamed([], true, h.packets)
    ensures Read(t, h, []) == h
    ensures Flow(t, block, send, size, at) == Ask(Checksum, Comparing(block, send, size))
  {
  }

  lemma RefusedStreams(t: Task, h: Host, block: nat, send: nat, size: nat, at: nat)
    requires t.mtu >= 23 && at < EndOf(t, block, send) && h.packets == 0
    requires h.phase == Streaming(block, send, size, at)
    ensures Stream(t.pkg[at..EndOf(t, block, send)], Payload(t.mtu), 0) == Streamed([PacketRefused], false, 0)
    ensures Read(t, h, [PacketRefused]) == h.(phase := End(Code(0x0A)))
  {
    hide Read;
    ReadCons(t, h, PacketRefused, []);
    ReadNothing(t, See(t, h, PacketRefused));
    assert [PacketRefused] == [PacketRefused] + [];
  }

  lemma PacketStreams(t: Task, at: nat, end: nat, packets: nat)
    requires t.mtu >= 23 && at < end <= |t.pkg| && packets > 0
    ensures var n := Stretch(t, at, end);
            && 0 < n && at + n <= end
            && var rest := Stream(t.pkg[at + n..end], Payload(t.mtu), packets - 1);
               Stream(t.pkg[at..end], Payload(t.mtu), packets)
               == rest.(log := [Packet(t.pkg[at..at + n])] + rest.log)
  {
    var n := Stretch(t, at, end);
    StretchIs(t, at, end);
    hide Stretch;
    var bytes := t.pkg[at..end];
    assert bytes[..n] == t.pkg[at..at + n] && bytes[n..] == t.pkg[at + n..end];
  }

  lemma StretchIs(t: Task, at: nat, end: nat)
    requires t.mtu >= 23 && at < end
    ensures 0 < Stretch(t, at, end) == Min(Payload(t.mtu), end - at)
  {
  }

  lemma SeesPacket(t: Task, h: Host, block: nat, send: nat, size: nat, at: nat)
    requires h.phase == Streaming(block, send, size, at) && h.packets > 0
    requires at + Stretch(t, at, EndOf(t, block, send)) <= |t.pkg|
    ensures var n := Stretch(t, at, EndOf(t, block, send));
            See(t, h, Packet(t.pkg[at..at + n]))
            == h.(phase := Flow(t, block, send, size, at + n), packets := h.packets - 1)
  {
    hide Stretch, Flow, EndOf;
  }

  /** Where a pass leads in the automaton. */
  function PhaseOf(next: Next, block: nat): Phase {
    match next
    case Stop(outcome) => End(outcome)
    case Again(send, size) => Head(block, send, size)
  }

  lemma ReadOpen(t: Task, block: nat, send: nat, size: nat, env: Env, dontResume: bool)
    ensures var p := OpenNext(t.kind, send, size, env);
            Read(t, At(Ask(Create(t.kind, size), Opening(block, send, size)), env, dontResume), p.log)
            == At(PhaseOf(p.next, block), p.env, dontResume)
  {
    hide Read, Reply, Waited, Exchange;
    var h := At(Ask(Create(t.kind, size), Opening(block, send, size)), env, dontResume);
    ReadExchange(t, h, env, Create(t.kind, size), Opening(block, send, size));
  }

  /** A pass from the checksum request on. */
  lemma ReadSettle(t: Task, block: nat, send: nat, size: nat, env: Env, dontResume: bool)
    requires send < |t.pkg|
    ensures var p := Settle(t.pkg, t.kind, send, size, Reply(env, Checksum), Waited(env, Checksum));
            Read(t, At(Ask(Checksum, Comparing(block, send, size)), env, dontResume), Exchange(env, Checksum) + p.log)
            == At(PhaseOf(p.next, block), p.env, dontResume)
  {
    hide Read, Reply, Waited, Exchange;
    var h := At(Ask(Checksum, Comparing(block, send, size)), env, dontResume);
    var a := Reply(env, Checksum);
    var env1 := Waited(env, Checksum);
    var p := Settle(t.pkg, t.kind, send, size, a, env1);
    ReadExchange(t, h, env, Checksum, Comparing(block, send, size));
    ReadAppend(t, h, Exchange(env, Checksum), p.log);
    var h1 := Read(t, h, Exchange(env, Checksum));
    ReadNothing(t, h1);
    if CodeOf(a) == 1 && a.size == 11 && 0 < a.offset <= |t.pkg| {
      if Crc(t.pkg[..a.offset], None) != a.crc {
        ReadOpen(t, block, send, Min(size, |t.pkg| - a.offset), env1, dontResume);
      } else {
        ReadExecuted(t, block, send, size, a, env1, dontResume);
      }
    }
  }

  lemma ReadExecuted(t: Task, block: nat, send: nat, size: nat, a: Signal, env: Env, dontResume: bool)
    requires send < |t.pkg| && CodeOf(a) == 1 && a.size == 11 && 0 < a.offset <= |t.pkg|
    requires Crc(t.pkg[..a.offset], None) == a.crc
    ensures var p := Settle(t.pkg, t.kind, send, size, a, env);
            Read(t, At(Ask(Execute, Executing(block, a.offset, size)), env, dontResume), p.log)
            == At(PhaseOf(p.next, block), p.env, dontResume)
  {
    hide Read, Reply, Waited, Exchange, OpenNext;
    var h := At(Ask(Execute, Executing(block, a.offset, size)), env, dontResume);
    ReadExchange(t, h, env, Execute, Executing(block, a.offset, size));
    if CodeOf(Reply(env, Execute)) == 1 && a.offset < |t.pkg| {
      var left := Min(size, |t.pkg| - a.offset);
      var q := OpenNext(t.kind, a.offset, left, Waited(env, Execute));
      ReadAppend(t, h, Exchange(env, Execute), q.log);
      ReadOpen(t, block, a.offset, left, Waited(env, Execute), dontResume);
    }
  }

  lemma ReadPass(t: Task, block: nat, send: nat, size: nat, env: Env, dontResume: bool)
    requires t.mtu >= 23 && send < |t.pkg|
    ensures var p := OnePass(t.pkg, t.kind, t.mtu, block, send, size, env);
            Read(t, At(Head(block, send, size), env, dontResume), p.log)
            == At(PhaseOf(p.next, block), p.env, dontResume)
  {
    hide Read, Stream, Settle, Exchange, Reply, Waited;
    var h := At(Head(block, send, size), env, dontResume);
    var h1 := At(Flow(t, block, send, size, send), env, dontResume);
    assert t.pkg[send..EndOf(t, block, send)] == Due(t.pkg, block, send);
    var s := Stream(Due(t.pkg, block, send), Payload(t.mtu), env.packets);
    var env1 := env.(packets := s.packets);
    ReadCons(t, h, Sending(send), s.log);
    ReadStream(t, h1, block, send, size, send);
    if s.ok {
      var rest := Settle(t.pkg, t.kind, send, size, Reply(env1, Checksum), Waited(env1, Checksum)).log;
      ReadAppend(t, h, [Sending(send)] + s.log, Exchange(env1, Checksum) + rest);
      ReadSettle(t, block, send, size, env1, dontResume);
      assert [Sending(send)] + s.log + (Exchange(env1, Checksum) + rest)
          == [Sending(send)] + s.log + Exchange(env1, Checksum) + rest;
    }
  }

  lemma {:induction false} ReadDrive(t: Task, h: Host, block: nat, p: Pass, dontResume: bool)
    requires t.mtu >= 23 && (p.next.Again? ==> p.next.send < |t.pkg|)
    requires Read(t, h, p.log) == At(PhaseOf(p.next, block), p.env, dontResume)
    ensures var r := Drive(t.pkg, t.kind, t.mtu, block, p, dontResume);
            Read(t, h, r.log) == At(End(r.outcome), r.env, dontResume) && r.dontResume == dontResume
    decreases p.next.Again?, |p.env.signals|
  {
    hide Read, OnePass;
    if p.next.Again? {
      var q := OnePass(t.pkg, t.kind, t.mtu, block, p.next.send, p.next.size, p.env);
      ReadPass(t, block, p.next.send, p.next.size, p.env, dontResume);
      ReadDrive(t, At(PhaseOf(p.next, block), p.env, dontResume), block, q, dontResume);
      ReadAppend(t, h, p.log, Drive(t.pkg, t.kind, t.mtu, block, q, dontResume).log);
    }
  }

  lemma ReadBegin(t: Task, block: nat, send: nat, env: Env, dontResume: bool)
    requires t.mtu >= 23 && send <= |t.pkg|
    ensures var r := Begin(t.pkg, t.kind, t.mtu, block, send, env, dontResume);
            Read(t, At(From(t, block, send), env, dontResume), r.log) == At(End(r.outcome), r.env, dontResume)
            && r.dontResume == dontResume
  {
    hide Read, Drive, OpenNext;
    var size := Min(Min(|t.pkg|, block), |t.pkg| - send);
    ReadNothing(t, At(From(t, block, send), env, dontResume));
    if size > 0 {
      ReadOpen(t, block, send, size, env, dontResume);
      ReadDrive(t, At(From(t, block, send), env, dontResume), block, OpenNext(t.kind, send, size, env), dontResume);
    }
  }

  lemma ReadResumed(t: Task, block: nat, at: nat, env: Env, dontResume: bool)
    requires t.mtu >= 23 && at <= |t.pkg|
    ensures var e := Reply(env, Execute);
            var env1 := Waited(env, Execute);
            var r := if CodeOf(e) != SUCCESS then Run(Exchange(env, Execute), Code(CodeOf(e)), env1, true)
                     else After(Exchange(env, Execute), Begin(t.pkg, t.kind, t.mtu, block, at, env1, dontResume));
            Read(t, At(Ask(Execute, Resuming(block, at)), env, dontResume), r.log)
            == At(End(r.outcome), r.env, r.dontResume)
  {
    hide Read, Begin, Exchange, Reply, Waited;
    var h := At(Ask(Execute, Resuming(block, at)), env, dontResume);
    var env1 := Waited(env, Execute);
    ReadExchange(t, h, env, Execute, Resuming(block, at));
    if CodeOf(Reply(env, Execute)) == 1 {
      ReadBegin(t, block, at, env1, dontResume);
      ReadAppend(t, h, Exchange(env, Execute), Begin(t.pkg, t.kind, t.mtu, block, at, env1, dontResume).log);
    }
  }

  lemma ReadSelected(t: Task, s: Signal, env: Env, dontResume: bool)
    requires t.mtu >= 23 && CodeOf(s) == 1
    ensures var r := Selected(t.pkg, t.kind, t.mtu, s, env, dontResume);
            var (phase, flag) := Chosen(t, s, dontResume);
            Read(t, At(phase, env, flag), r.log) == At(End(r.outcome), r.env, r.dontResume)
  {
    hide Read, Begin, Exchange, Reply, Waited, From;
    forall phase, flag
      ensures Read(t, At(phase, env, flag), []) == At(phase, env, flag)
    {
      ReadNothing(t, At(phase, env, flag));
    }
    if s.size == 15 && s.offset <= |t.pkg| {
      ReadBegin(t, s.blockSize, 0, env, dontResume);
      ReadResumed(t, s.blockSize, s.offset, env, dontResume);
    }
  }

  /** For every package and every behaviour of the link, the automaton takes the log of the
      run to the end with the outcome, the rest of the link and the flag of the run. */
  lemma RunIsRead(t: Task, env: Env, dontResume: bool)
    requires t.mtu >= 23
    ensures var r := SendPackage(t.pkg, t.kind, t.mtu, env, dontResume);
            Read(t, Start(t, env, dontResume), r.log)
            == Host(End(r.outcome), r.env.signals, r.env.packets, r.dontResume)
  {
    hide Read, Selected, Exchange, Reply, Waited;
    var a := Reply(env, Select(t.kind));
    var env1 := Waited(env, Select(t.kind));
    var h := Start(t, env, dontResume);
    var rest := Selected(t.pkg, t.kind, t.mtu, a, env1, dontResume);
    ReadExchange(t, h, env, Select(t.kind), Selecting);
    ReadAppend(t, h, Exchange(env, Select(t.kind)), rest.log);
    if CodeOf(a) == 1 {
      ReadSelected(t, a, env1, dontResume);
    } else {
      RefusedSelect(t, a, env1, dontResume);
      ReadNothing(t, Read(t, h, Exchange(env, Select(t.kind))));
    }
  }

  lemma RefusedSelect(t: Task, a: Signal, env: Env, dontResume: bool)
    requires t.mtu >= 23 && CodeOf(a) != 1
    ensures Selected(t.pkg, t.kind, t.mtu, a, env, dontResume) == Run([], Code(CodeOf(a)), env, dontResume)
  {
  }

  // ---- and no other log

  lemma {:induction false} LostForEver(t: Task, h: Host, log: seq<Event>)
    requires h.phase.Lost? || (h.phase.End? && |log| > 0)
    ensures Read(t, h, log).phase.Lost?
    decreases |log|
  {
    if |log| > 0 { LostForEver(t, See(t, h, log[0]), log[1..]); }
  }

  /** From one state on, at most one event does not get lost. */
  lemma OneWayOn(t: Task, h: Host, d: Event, e: Event)
    requires !See(t, h, d).phase.Lost? && !See(t, h, e).phase.Lost?
    ensures d == e
  {
    hide Heard, Onwards, Flow, Refused;
  }

  lemma {:induction false} OneLog(t: Task, h: Host, a: seq<Event>, b: seq<Event>)
    requires Read(t, h, a).phase.End? && Read(t, h, b).phase.End?
    ensures a == b
    decreases |a|
  {
    hide See;
    if |a| == 0 {
      if |b| > 0 { LostForEver(t, h, b); }
    } else if |b| == 0 {
      LostForEver(t, h, a);
    } else {
      if See(t, h, a[0]).phase.Lost? { LostForEver(t, See(t, h, a[0]), a[1..]); }
      if See(t, h, b[0]).phase.Lost? { LostForEver(t, See(t, h, b[0]), b[1..]); }
      OneWayOn(t, h, a[0], b[0]);
      OneLog(t, See(t, h, a[0]), a[1..], b[1..]);
    }
  }

  /** A log is taken to the end if and only if it is that of the run. */
  lemma OnlyTheRun(t: Task, env: Env, dontResume: bool, log: seq<Event>)
    requires t.mtu >= 23
    ensures Read(t, Start(t, env, dontResume), log).phase.End?
            <==> log == SendPackage(t.pkg, t.kind, t.mtu, env, dontResume).log
  {
    hide Read, SendPackage;
    RunIsRead(t, env, dontResume);
    if Read(t, Start(t, env, dontResume), log).phase.End? {
      OneLog(t, Start(t, env, dontResume), log, SendPackage(t.pkg, t.kind, t.mtu, env, dontResume).log);
    }
  }
}
