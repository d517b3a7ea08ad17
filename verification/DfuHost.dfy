/** The host half of the update protocol, dfu.c: select, resume, create, stream, compare
    checksums, execute, retransmit. */
module DfuHost {
  import opened Arith
  import opened Wrappers
  import opened Crc32

  type U32 = n: nat | n < 0x1_0000_0000

  const OP_CREATE := 1
  const OP_CHECKSUM := 3
  const OP_EXECUTE := 4
  const OP_SELECT := 6

  const SUCCESS := 1
  const OPERATION_FAILED := 0x0A
  const NO_CODE := -1

  const GATT_HEADER := 3
  const DEFAULT_MTU := 23
  const MAX_MTU := 517
  const BUFFER_SIZE := MAX_MTU - GATT_HEADER

  datatype ObjType = Command | Data

  datatype Request = Select(kind: ObjType) | Create(kind: ObjType, size: nat) | Checksum | Execute

  /** What the link can bring: a notification on the control point, or its own end. The
      last three fields are those a Select or Checksum response carries. */
  datatype Signal =
    | Notify(op: nat, code: nat, size: nat, blockSize: U32, offset: U32, crc: Word)
    | LinkDown

  /** Everything observable on the link, in order. */
  datatype Event =
    | Sending(offset: nat)          // the progress line at the head of the transfer loop
    | Sent(request: Request)        // a write to the control point
    | Answer(signal: Signal)        // what ended the wait for the response
    | Packet(bytes: seq<Octet>)     // a write without response to the data point
    | PacketRefused                 // such a write could not be queued

  /** Code is what the function returns; Undefined is behaviour that C leaves undefined:
      a checksum over bytes beyond the package, or a division by a zero block size. */
  datatype Outcome = Code(code: int) | Undefined

  /** What the link will do: the signals it will bring, and how many packets it will take
      before it refuses one. */
  datatype Env = Env(signals: seq<Signal>, packets: nat)

  datatype Run = Run(log: seq<Event>, outcome: Outcome, env: Env, dontResume: bool)

  function After(log: seq<Event>, r: Run): Run { r.(log := log + r.log) }

  function OpOf(r: Request): nat {
    match r
    case Select(_) => OP_SELECT
    case Create(_, _) => OP_CREATE
    case Checksum => OP_CHECKSUM
    case Execute => OP_EXECUTE
  }

  function CodeOf(s: Signal): int { if s.LinkDown? then NO_CODE else s.code }

  /** Notifications that are too short or answer another request are ignored. */
  predicate Answers(s: Signal, op: nat) {
    s.LinkDown? || (s.op == op && s.size >= 3)
  }

  /** How many signals a wait skips before the one that ends it. */
  function Skipped(signals: seq<Signal>, op: nat): (n: nat)
    ensures n <= |signals|
    decreases |signals|
  {
    if |signals| == 0 || Answers(signals[0], op) then 0 else 1 + Skipped(signals[1..], op)
  }

  function Reply(env: Env, r: Request): Signal {
    var n := Skipped(env.signals, OpOf(r));
    if n < |env.signals| then env.signals[n] else LinkDown
  }

  function Waited(env: Env, r: Request): (e: Env)
    ensures Reply(env, r).Notify? ==> |e.signals| < |env.signals|
    ensures |e.signals| <= |env.signals|
  {
    var n := Skipped(env.signals, OpOf(r));
    env.(signals := if n < |env.signals| then env.signals[n + 1..] else [])
  }

  function Exchange(env: Env, r: Request): seq<Event> {
    [Sent(r), Answer(Reply(env, r))]
  }

  // ---- streaming one block

  datatype Streamed = Streamed(log: seq<Event>, ok: bool, packets: nat)

  function Payload(mtu: nat): nat
    requires mtu >= DEFAULT_MTU
  {
    Min(mtu - GATT_HEADER, BUFFER_SIZE)
  }

  function Stream(bytes: seq<Octet>, payload: nat, packets: nat): Streamed
    requires payload > 0
    decreases |bytes|
  {
    if |bytes| == 0 then Streamed([], true, packets)
    else if packets == 0 then Streamed([PacketRefused], false, 0)
    else
      var n := Min(payload, |bytes|);
      var rest := Stream(bytes[n..], payload, packets - 1);
      rest.(log := [Packet(bytes[..n])] + rest.log)
  }

  // ---- the transfer loop

  function Segment(pkg: seq<Octet>, block: nat, send: nat): nat
    requires send <= |pkg|
  {
    Min(block, |pkg| - send)
  }

  /** The bytes of the current block. */
  function Due(pkg: seq<Octet>, block: nat, send: nat): seq<Octet>
    requires send <= |pkg|
  {
    pkg[send..send + Segment(pkg, block, send)]
  }

  /** Where a stretch of the run leads: to its end, or back to the loop head with these
      values of the source's variables. */
  datatype Next = Stop(outcome: Outcome) | Again(send: nat, size: nat)

  datatype Pass = Pass(log: seq<Event>, next: Next, env: Env)

  function Following(log: seq<Event>, p: Pass): Pass { p.(log := log + p.log) }

  /** A Create request that opens the next pass. */
  function OpenNext(kind: ObjType, send: nat, size: nat, env: Env): (p: Pass)
    ensures p.next.Again? ==> p.next.send == send && |p.env.signals| < |env.signals|
  {
    var c := Reply(env, Create(kind, size));
    Pass(Exchange(env, Create(kind, size)),
         if CodeOf(c) != SUCCESS then Stop(Code(CodeOf(c))) else Again(send, size),
         Waited(env, Create(kind, size)))
  }

  /** The rest of a pass after the checksum response a. */
  function Settle(pkg: seq<Octet>, kind: ObjType, send: nat, size: nat, a: Signal, env: Env): (p: Pass)
    requires send < |pkg|
    ensures p.next.Again? ==> p.next.send < |pkg| && |p.env.signals| < |env.signals|
  {
    if CodeOf(a) != SUCCESS then Pass([], Stop(Code(CodeOf(a))), env)
    else if a.size != 11 || a.offset == 0 then Pass([], Stop(Code(OPERATION_FAILED)), env)
    else if a.offset > |pkg| then Pass([], Stop(Undefined), env)
    else if Crc(pkg[..a.offset], None) != a.crc then
      OpenNext(kind, send, Min(size, |pkg| - a.offset), env)
    else
      var e := Reply(env, Execute);
      var ex := Exchange(env, Execute);
      var env1 := Waited(env, Execute);
      if CodeOf(e) != SUCCESS then Pass(ex, Stop(Code(CodeOf(e))), env1)
      else if a.offset >= |pkg| then Pass(ex, Stop(Code(SUCCESS)), env1)
      else Following(ex, OpenNext(kind, a.offset, Min(size, |pkg| - a.offset), env1))
  }

  /** One pass of the loop. */
  function OnePass(pkg: seq<Octet>, kind: ObjType, mtu: nat, block: nat, send: nat, size: nat, env: Env): (p: Pass)
    requires mtu >= DEFAULT_MTU && send < |pkg|
    ensures p.next.Again? ==> p.next.send < |pkg| && |p.env.signals| < |env.signals|
  {
    var s := Stream(Due(pkg, block, send), Payload(mtu), env.packets);
    var env1 := env.(packets := s.packets);
    var head := [Sending(send)] + s.log;
    if !s.ok then Pass(head, Stop(Code(OPERATION_FAILED)), env1)
    else
      Following(head + Exchange(env1, Checksum),
                Settle(pkg, kind, send, size, Reply(env1, Checksum), Waited(env1, Checksum)))
  }

  /** The run that starts with p and goes on with as many passes as it takes. */
  function Drive(pkg: seq<Octet>, kind: ObjType, mtu: nat, block: nat, p: Pass, dontResume: bool): Run
    requires mtu >= DEFAULT_MTU && (p.next.Again? ==> p.next.send < |pkg|)
    decreases p.next.Again?, |p.env.signals|
  {
    match p.next
    case Stop(outcome) => Run(p.log, outcome, p.env, dontResume)
    case Again(send, size) =>
      After(p.log, Drive(pkg, kind, mtu, block, OnePass(pkg, kind, mtu, block, send, size, p.env), dontResume))
  }

  /** The run once the resume point is known. */
  function Begin(pkg: seq<Octet>, kind: ObjType, mtu: nat, block: nat, send: nat, env: Env, dontResume: bool): Run
    requires mtu >= DEFAULT_MTU && send <= |pkg|
  {
    var size := Min(Min(|pkg|, block), |pkg| - send);
    if size == 0 then Run([], Code(SUCCESS), env, dontResume)
    else Drive(pkg, kind, mtu, block, OpenNext(kind, send, size, env), dontResume)
  }

  predicate Resumable(pkg: seq<Octet>, a: Signal)
    requires a.Notify? && a.blockSize > 0
  {
    a.offset % a.blockSize == 0 || a.offset == |pkg|
  }

  /** The whole of dfuSendPackage. */
  function SendPackage(pkg: seq<Octet>, kind: ObjType, mtu: nat, env: Env, dontResume: bool): Run
    requires mtu >= DEFAULT_MTU
  {
    var a := Reply(env, Select(kind));
    After(Exchange(env, Select(kind)), Selected(pkg, kind, mtu, a, Waited(env, Select(kind)), dontResume))
  }

  /** The run after the response a to Select. */
  function Selected(pkg: seq<Octet>, kind: ObjType, mtu: nat, a: Signal, env: Env, dontResume: bool): Run
    requires mtu >= DEFAULT_MTU
  {
    if CodeOf(a) != SUCCESS then Run([], Code(CodeOf(a)), env, dontResume)
    else if a.size != 15 then Run([], Code(OPERATION_FAILED), env, dontResume)
    else if a.offset == 0 then Begin(pkg, kind, mtu, a.blockSize, 0, env, dontResume)
    else if a.offset > |pkg| then Run([], Undefined, env, dontResume)
    else if Crc(pkg[..a.offset], None) != a.crc then
      if kind.Data? then Run([], Code(OPERATION_FAILED), env, true)
      else Begin(pkg, kind, mtu, a.blockSize, 0, env, dontResume)
    else if kind.Command? && dontResume then Begin(pkg, kind, mtu, a.blockSize, 0, env, dontResume)
    else if a.blockSize == 0 then Run([], Undefined, env, dontResume)
    else if !Resumable(pkg, a) then Run([], Code(OPERATION_FAILED), env, true)
    else
      var e := Reply(env, Execute);
      var env1 := Waited(env, Execute);
      if CodeOf(e) != SUCCESS then Run(Exchange(env, Execute), Code(CodeOf(e)), env1, true)
      else After(Exchange(env, Execute), Begin(pkg, kind, mtu, a.blockSize, a.offset, env1, dontResume))
  }

  // ---- the attempts of dfu

  /** The number of passes of a loop bounded by an int8_t that was assigned n. */
  function AttemptLimit(n: int): nat {
    var k := (n + 128) % 256 - 128;
    if k < 0 then 0 else k
  }

  /** One attempt: the second package only after the first has succeeded. */
  function Attempt(dat: seq<Octet>, bin: seq<Octet>, mtu: nat, env: Env, dontResume: bool): Run
    requires mtu >= DEFAULT_MTU
  {
    var r := SendPackage(dat, Command, mtu, env, dontResume);
    if r.outcome != Code(SUCCESS) then r
    else After(r.log, SendPackage(bin, Data, mtu, r.env, r.dontResume))
  }

  /** At most n attempts. `registers` says for each attempt whether the notification handler
      could be registered; an attempt for which it could not ends the loop. */
  function Attempts(dat: seq<Octet>, bin: seq<Octet>, mtu: nat, n: nat, registers: seq<bool>,
                    env: Env, dontResume: bool): Run
    requires mtu >= DEFAULT_MTU
    decreases n
  {
    if n == 0 || |registers| == 0 || !registers[0] then Run([], Code(OPERATION_FAILED), env, dontResume)
    else
      var r := Attempt(dat, bin, mtu, env, dontResume);
      if r.outcome == Undefined || r.outcome == Code(SUCCESS) then r
      else After(r.log, Attempts(dat, bin, mtu, n - 1, registers[1..], r.env, r.dontResume))
  }
}
