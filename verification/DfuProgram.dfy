/** dfu.c as a program: the connection, dfuSendPackage with its buffer and nested loops, and
    the attempt loop of dfu. Each method is tied to the run DfuHost gives. */
module DfuProgram {
  import opened Arith
  import opened Wrappers
  import opened Crc32
  import opened DfuHost
  import Host = DfuHost

  /** With `log` on record, `rest` still to come is all that `whole` asks for. */
  ghost predicate Remains(whole: Run, log0: seq<Event>, log: seq<Event>, rest: Run) {
    && log0 + whole.log == log + rest.log
    && whole.outcome == rest.outcome && whole.env == rest.env && whole.dontResume == rest.dontResume
  }

  lemma Advance(whole: Run, log0: seq<Event>, log: seq<Event>, more: seq<Event>, rest: Run)
    requires Remains(whole, log0, log, After(more, rest))
    ensures Remains(whole, log0, log + more, rest)
  {
    assert log + (more + rest.log) == (log + more) + rest.log;
  }

  ghost predicate StreamRemains(whole: Streamed, log0: seq<Event>, log: seq<Event>, rest: Streamed) {
    log0 + whole.log == log + rest.log && whole.ok == rest.ok && whole.packets == rest.packets
  }

  lemma StreamNothing(payload: nat, packets: nat)
    requires payload > 0
    ensures Stream([], payload, packets) == Streamed([], true, packets)
  {
  }

  lemma StreamAdvance(whole: Streamed, log0: seq<Event>, log: seq<Event>,
                      pkg: seq<Octet>, from: nat, end: nat, payload: nat, packets: nat)
    requires from < end <= |pkg| && payload > 0
    requires StreamRemains(whole, log0, log, Stream(pkg[from..end], payload, packets))
    ensures packets == 0 ==> StreamRemains(whole, log0, log + [PacketRefused], Streamed([], false, 0))
    ensures packets > 0 ==>
              var n := Min(payload, end - from);
              StreamRemains(whole, log0, log + [Packet(pkg[from..from + n])],
                            Stream(pkg[from + n..end], payload, packets - 1))
  {
    if packets > 0 {
      var n := Min(payload, end - from);
      assert pkg[from..end][..n] == pkg[from..from + n];
      assert pkg[from..end][n..] == pkg[from + n..end];
      var rest := Stream(pkg[from + n..end], payload, packets - 1);
      var e := Packet(pkg[from..from + n]);
      assert log + ([e] + rest.log) == (log + [e]) + rest.log;
    }
  }

  lemma BeginOpens(pkg: seq<Octet>, kind: ObjType, mtu: nat, block: nat, send: nat, size: nat, env: Env,
                   dontResume: bool)
    requires mtu >= DEFAULT_MTU && send < |pkg| && size == Min(Min(|pkg|, block), |pkg| - send) > 0
    ensures var p := OpenNext(kind, send, size, env);
            Begin(pkg, kind, mtu, block, send, env, dontResume) ==
              if p.next.Stop? then Run(p.log, p.next.outcome, p.env, dontResume)
              else After(p.log, Drive(pkg, kind, mtu, block, OnePass(pkg, kind, mtu, block, send, size, p.env),
                                      dontResume))
  {
  }

  lemma Regroup(a: seq<Event>, b: seq<Event>, c: seq<Event>, d: seq<Event>, e: seq<Event>)
    ensures (((a + b) + c) + d) + e == a + (((b + c) + d) + e)
    ensures (a + b) + c == a + (b + c)
  {
  }

  /** The connection of ble.c as dfu.c sees it. */
  class Ble {
    const mtu: nat
    var signals: seq<Signal>
    var packets: nat
    ghost var log: seq<Event>

    constructor (mtu: nat, signals: seq<Signal>, packets: nat)
      ensures this.mtu == mtu && this.signals == signals && this.packets == packets && log == []
    {
      this.mtu, this.signals, this.packets, this.log := mtu, signals, packets, [];
    }

    ghost function State(): Env
      reads this
    {
      Env(signals, packets)
    }

    /** ble_wait_setup, ble_send_cp and ble_wait_run. */
    method Ask(r: Request) returns (answer: Signal)
      modifies this
      ensures answer == Reply(old(State()), r)
      ensures State() == Waited(old(State()), r)
      ensures log == old(log) + Exchange(old(State()), r)
    {
      answer := LinkDown;
      ghost var n := 0;
      while |signals| > 0
        invariant 0 <= n <= |old(signals)| && signals == old(signals)[n..]
        invariant packets == old(packets) && log == old(log)
        invariant Skipped(old(signals), OpOf(r)) == n + Skipped(signals, OpOf(r))
        decreases |signals|
      {
        var s := signals[0];
        signals := signals[1..];
        if s.LinkDown? || (s.op == OpOf(r) && s.size >= 3) {
          answer := s;
          break;
        }
        n := n + 1;
      }
      log := log + [Sent(r), Answer(answer)];
    }

    /** ble_send_data_noresp of buffer[..length]. */
    method SendData(buffer: array<Octet>, length: nat) returns (ok: bool)
      requires length <= buffer.Length
      modifies this
      ensures ok == (old(packets) > 0)
      ensures signals == old(signals)
      ensures ok ==> packets == old(packets) - 1 && log == old(log) + [Packet(buffer[..length])]
      ensures !ok ==> packets == 0 && log == old(log) + [PacketRefused]
    {
      ok := packets > 0;
      if ok {
        packets := packets - 1;
        log := log + [Packet(buffer[..length])];
      } else {
        log := log + [PacketRefused];
      }
    }

    /** The length of the next chunk and its copy into the buffer. */
    method FillBuffer(pkg: seq<Octet>, send: nat, index: nat, block: nat, buffer: array<Octet>) returns (chunk: nat)
      requires mtu >= DEFAULT_MTU && send + index < |pkg| && index < block && buffer.Length == BUFFER_SIZE
      modifies buffer
      ensures chunk == Min(Payload(mtu), Segment(pkg, block, send) - index)
      ensures chunk <= buffer.Length && send + index + chunk <= |pkg|
      ensures buffer[..chunk] == pkg[send + index..send + index + chunk]
    {
      chunk := mtu - GATT_HEADER;
      if chunk > buffer.Length {
        chunk := buffer.Length;
      }
      if chunk > |pkg| - send - index {
        chunk := |pkg| - send - index;
      }
      if index + chunk > block {
        chunk := block - index;
      }
      forall i | 0 <= i < chunk {
        buffer[i] := pkg[send + index + i];
      }
    }

    /** The chunk loop: one block, at most a payload at a time, through the buffer. */
    method StreamBlock(pkg: seq<Octet>, send: nat, block: nat, buffer: array<Octet>) returns (ok: bool)
      requires mtu >= DEFAULT_MTU && send <= |pkg| && buffer.Length == BUFFER_SIZE
      modifies this, buffer
      ensures signals == old(signals)
      ensures var s := Stream(Due(pkg, block, send), Payload(mtu), old(packets));
              ok == s.ok && packets == s.packets && log == old(log) + s.log
    {
      hide Stream;
      ghost var end := send + Segment(pkg, block, send);
      ghost var whole := Stream(pkg[send..end], Payload(mtu), packets);
      ghost var log0 := log;
      var index: nat := 0;
      while send + index < |pkg| && index < block
        invariant send + index <= end && signals == old(signals)
        invariant StreamRemains(whole, log0, log, Stream(pkg[send + index..end], Payload(mtu), packets))
        decreases |pkg| - send - index
      {
        StreamAdvance(whole, log0, log, pkg, send + index, end, Payload(mtu), packets);
        var chunk := FillBuffer(pkg, send, index, block, buffer);
        ok := SendData(buffer, chunk);
        if !ok {
          return;
        }
        index := index + chunk;
      }
      assert pkg[send + index..end] == [];
      StreamNothing(Payload(mtu), packets);
      ok := true;
    }

    /** dfuSendPackage. The source's static flag dontResume is a parameter and a result. */
    method SendPackage(pkg: seq<Octet>, kind: ObjType, dontResume: bool) returns (outcome: Outcome, dontResume': bool)
      requires mtu >= DEFAULT_MTU && |pkg| < 0x1_0000_0000
      modifies this
      ensures var r := Host.SendPackage(pkg, kind, mtu, old(State()), dontResume);
              log == old(log) + r.log && outcome == r.outcome && State() == r.env && dontResume' == r.dontResume
    {
      ghost var whole := Host.SendPackage(pkg, kind, mtu, State(), dontResume);
      ghost var log0, env0 := log, State();
      dontResume' := dontResume;
      var send: nat := 0;
      var a := Ask(Select(kind));
      if CodeOf(a) != SUCCESS {
        return Code(CodeOf(a)), dontResume';
      }
      Advance(whole, log0, log0, Exchange(env0, Select(kind)), Selected(pkg, kind, mtu, a, State(), dontResume));
      if a.size != 15 {
        return Code(OPERATION_FAILED), dontResume';
      }
      if a.offset > 0 {
        if a.offset > |pkg| {
          return Undefined, dontResume';
        }
        var calculated := Compute(pkg, a.offset, None);
        if calculated == a.crc {
          if kind == Command && dontResume {
          } else {
            if a.blockSize == 0 {
              return Undefined, dontResume';
            }
            if a.offset % a.blockSize == 0 || a.offset == |pkg| {
              send := a.offset;
              ghost var log1, env1 := log, State();
              var e := Ask(Execute);
              if CodeOf(e) != SUCCESS {
                return Code(CodeOf(e)), true;
              }
              Advance(whole, log0, log1, Exchange(env1, Execute),
                      Begin(pkg, kind, mtu, a.blockSize, send, State(), dontResume));
            } else {
              return Code(OPERATION_FAILED), true;
            }
          }
        } else if kind == Data {
          return Code(OPERATION_FAILED), true;
        }
      }
      assert Remains(whole, log0, log, Begin(pkg, kind, mtu, a.blockSize, send, State(), dontResume));
      outcome := SendRest(pkg, kind, a.blockSize, send, dontResume, whole, log0);
    }

    /** One pass of the transfer loop: whether it is the last, the new values of the loop's
        variables, and what to return if the pass failed. */
    method TransferBlock(pkg: seq<Octet>, kind: ObjType, block: nat, send: nat, size: nat, buffer: array<Octet>)
      returns (done: bool, send': nat, size': nat, outcome: Outcome)
      requires mtu >= DEFAULT_MTU && send < |pkg| && buffer.Length == BUFFER_SIZE
      modifies this, buffer
      ensures var p := OnePass(pkg, kind, mtu, block, send, size, old(State()));
              && log == old(log) + p.log && State() == p.env
              && p.next == if done || outcome != Code(SUCCESS) then Stop(outcome) else Again(send', size')
    {
      ghost var env0, log0 := State(), log;
      ghost var s := Stream(Due(pkg, block, send), Payload(mtu), packets);
      log := log + [Sending(send)];
      var ok := StreamBlock(pkg, send, block, buffer);
      ghost var env1 := State();
      Regroup(log0, [Sending(send)], s.log, [], []);
      if !ok {
        return false, send, size, Code(OPERATION_FAILED);
      }
      var a := Ask(Checksum);
      ghost var rest := Settle(pkg, kind, send, size, a, State());
      done, send', size', outcome := SettleBlock(pkg, kind, send, size, a);
      assert OnePass(pkg, kind, mtu, block, send, size, env0)
          == Following([Sending(send)] + s.log + Exchange(env1, Checksum), rest);
      Regroup(log0, [Sending(send)], s.log, Exchange(env1, Checksum), rest.log);
    }

    /** What follows the checksum response. */
    method SettleBlock(pkg: seq<Octet>, kind: ObjType, send: nat, size: nat, a: Signal)
      returns (done: bool, send': nat, size': nat, outcome: Outcome)
      requires send < |pkg|
      modifies this
      ensures var p := Settle(pkg, kind, send, size, a, old(State()));
              && log == old(log) + p.log && State() == p.env
              && p.next == if done || outcome != Code(SUCCESS) then Stop(outcome) else Again(send', size')
    {
      hide Crc, Reply, Waited, Exchange;
      done, send', size' := false, send, size;
      if CodeOf(a) != SUCCESS {
        return done, send', size', Code(CodeOf(a));
      }
      if a.size != 11 || a.offset == 0 {
        return done, send', size', Code(OPERATION_FAILED);
      }
      if a.offset > |pkg| {
        return done, send', size', Undefined;
      }
      var calculated := Compute(pkg, a.offset, None);
      if calculated == a.crc {
        send' := a.offset;
        if send' >= |pkg| {
          done := true;
          var e := Ask(Execute);
          outcome := Code(CodeOf(e));
        } else {
          var e := Ask(Execute);
          if CodeOf(e) != SUCCESS {
            return done, send', size', Code(CodeOf(e));
          }
          if size' > |pkg| - a.offset {
            size' := |pkg| - a.offset;
          }
          var c := Ask(Create(kind, size'));
          outcome := Code(CodeOf(c));
        }
      } else {
        if size' > |pkg| - a.offset {
          size' := |pkg| - a.offset;
        }
        var c := Ask(Create(kind, size'));
        outcome := Code(CodeOf(c));
      }
    }

    /** dfuSendPackage from the choice of the first object size on. */
    method SendRest(pkg: seq<Octet>, kind: ObjType, block: nat, start: nat, ghost dontResume: bool,
                    ghost whole: Run, ghost log0: seq<Event>)
      returns (outcome: Outcome)
      requires mtu >= DEFAULT_MTU && start <= |pkg|
      requires Remains(whole, log0, log, Begin(pkg, kind, mtu, block, start, State(), dontResume))
      modifies this
      ensures Remains(whole, log0, log, Run([], outcome, State(), dontResume))
    {
      var buffer := new Octet[BUFFER_SIZE];
      var send: nat := start;
      var size: nat := |pkg|;
      if size > block {
        size := block;
      }
      if size > |pkg| - send {
        size := |pkg| - send;
      }
      if size != 0 {
        ghost var log1, p := log, OpenNext(kind, send, size, State());
        BeginOpens(pkg, kind, mtu, block, send, size, State(), dontResume);
        var c := Ask(Create(kind, size));
        if CodeOf(c) != SUCCESS {
          return Code(CodeOf(c));
        }
        Advance(whole, log0, log1, p.log, Ahead(pkg, kind, block, send, size, dontResume));
        outcome := TransferLoop(pkg, kind, block, send, size, buffer, dontResume, whole, log0);
      } else {
        outcome := Code(SUCCESS);
      }
    }

    method TransferLoop(pkg: seq<Octet>, kind: ObjType, block: nat, start: nat, first: nat, buffer: array<Octet>,
                        ghost dontResume: bool, ghost whole: Run, ghost log0: seq<Event>)
      returns (outcome: Outcome)
      requires mtu >= DEFAULT_MTU && start < |pkg| && buffer.Length == BUFFER_SIZE
      requires Remains(whole, log0, log, Ahead(pkg, kind, block, start, first, dontResume))
      modifies this, buffer
      ensures Remains(whole, log0, log, Run([], outcome, State(), dontResume))
    {
      var send: nat, size: nat, done := start, first, false;
      while !done
        invariant !done ==> send < |pkg|
        invariant !done ==> Remains(whole, log0, log, Ahead(pkg, kind, block, send, size, dontResume))
        invariant done ==> Remains(whole, log0, log, Run([], Code(SUCCESS), State(), dontResume))
        decreases !done, |signals|
      {
        ghost var log1, p := log, OnePass(pkg, kind, mtu, block, send, size, State());
        done, send, size, outcome := TransferBlock(pkg, kind, block, send, size, buffer);
        Advance(whole, log0, log1, p.log,
                if p.next.Stop? then Run([], outcome, State(), dontResume)
                else Ahead(pkg, kind, block, send, size, dontResume));
        if outcome != Code(SUCCESS) {
          return;
        }
      }
      return Code(SUCCESS);
    }

    /** The attempt loop of dfu, on an open connection. */
    method Dfu(dat: seq<Octet>, bin: seq<Octet>, retryCount: int, registers: seq<bool>, dontResume: bool)
      returns (outcome: Outcome, dontResume': bool)
      requires mtu >= DEFAULT_MTU && |dat| < 0x1_0000_0000 && |bin| < 0x1_0000_0000
      modifies this
      ensures var r := Attempts(dat, bin, mtu, AttemptLimit(retryCount + 1), registers, old(State()), dontResume);
              log == old(log) + r.log && outcome == r.outcome && State() == r.env && dontResume' == r.dontResume
    {
      hide Attempt, AttemptLimit;
      var max := AttemptLimit(retryCount + 1);
      ghost var whole := Attempts(dat, bin, mtu, max, registers, State(), dontResume);
      ghost var log0 := log;
      dontResume' := dontResume;
      outcome := Code(OPERATION_FAILED);
      var retries := 0;
      var done := false;
      while retries < max && !done
        invariant 0 <= retries <= max && retries <= |registers|
        invariant !done ==> outcome == Code(OPERATION_FAILED)
        invariant !done ==>
            Remains(whole, log0, log, Attempts(dat, bin, mtu, max - retries, registers[retries..], State(),
                                               dontResume'))
        invariant done ==> outcome == Code(SUCCESS) && Remains(whole, log0, log, Run([], outcome, State(), dontResume'))
      {
        if retries == |registers| || !registers[retries] {
          return;
        }
        ghost var log1, attempt := log, Attempt(dat, bin, mtu, State(), dontResume');
        var o;
        o, dontResume' := AttemptBoth(dat, bin, dontResume');
        if o == Undefined {
          return o, dontResume';
        }
        if o == Code(SUCCESS) {
          done, outcome := true, o;
        } else {
          Advance(whole, log0, log1, attempt.log,
                  Attempts(dat, bin, mtu, max - retries - 1, registers[retries + 1..], State(), dontResume'));
          assert registers[retries..][1..] == registers[retries + 1..];
        }
        retries := retries + 1;
      }
    }

    method AttemptBoth(dat: seq<Octet>, bin: seq<Octet>, dontResume: bool) returns (outcome: Outcome, dontResume': bool)
      requires mtu >= DEFAULT_MTU && |dat| < 0x1_0000_0000 && |bin| < 0x1_0000_0000
      modifies this
      ensures var r := Attempt(dat, bin, mtu, old(State()), dontResume);
              log == old(log) + r.log && outcome == r.outcome && State() == r.env && dontResume' == r.dontResume
    {
      ghost var log0, r := log, Host.SendPackage(dat, Command, mtu, State(), dontResume);
      outcome, dontResume' := SendPackage(dat, Command, dontResume);
      if outcome == Code(SUCCESS) {
        ghost var q := Host.SendPackage(bin, Data, mtu, r.env, r.dontResume);
        outcome, dontResume' := SendPackage(bin, Data, dontResume');
        Regroup(log0, r.log, q.log, [], []);
      }
    }

    /** The run still to come at the loop head. */
    ghost function Ahead(pkg: seq<Octet>, kind: ObjType, block: nat, send: nat, size: nat, dontResume: bool): Run
      requires mtu >= DEFAULT_MTU && send < |pkg|
      reads this
    {
      Drive(pkg, kind, mtu, block, OnePass(pkg, kind, mtu, block, send, size, State()), dontResume)
    }
  }
}
