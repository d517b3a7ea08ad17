/** When a call of dfuSendPackage reads beyond the package or divides by zero, told from its log. */
module DfuUndefined {
  import opened Arith
  import opened Wrappers
  import opened Crc32
  import opened DfuHost

  /** The response to Select lets the resume test run. */
  predicate TestsResume(pkg: seq<Octet>, kind: ObjType, dontResume: bool, s: Signal)
    requires s.Notify? && s.offset <= |pkg|
  {
    Crc(pkg[..s.offset], None) == s.crc && !(kind.Command? && dontResume)
  }

  /** A successful response that is read: it reports more bytes than the package has, or no
      block size when the resume test divides by it. */
  predicate Fatal(pkg: seq<Octet>, kind: ObjType, dontResume: bool, r: Request, s: Signal) {
    && CodeOf(s) == SUCCESS
    && (if r.Checksum? then s.size == 11 && s.offset > |pkg|
        else r.Select? && s.size == 15 && s.offset > 0
             && (s.offset > |pkg| || (s.blockSize == 0 && TestsResume(pkg, kind, dontResume, s))))
  }

  /** Some request in the log was answered that way. */
  predicate Wild(pkg: seq<Octet>, kind: ObjType, dontResume: bool, log: seq<Event>) {
    exists i :: 0 <= i < |log| - 1 && WildAt(pkg, kind, dontResume, log, i)
  }

  predicate WildAt(pkg: seq<Octet>, kind: ObjType, dontResume: bool, log: seq<Event>, i: int)
    requires 0 <= i < |log| - 1
  {
    log[i].Sent? && log[i + 1].Answer? && Fatal(pkg, kind, dontResume, log[i].request, log[i + 1].signal)
  }

  /** A stretch of a log that can follow anything. */
  predicate Opens(log: seq<Event>) { |log| == 0 || !log[0].Answer? }

  lemma WildAppend(pkg: seq<Octet>, kind: ObjType, dontResume: bool, a: seq<Event>, b: seq<Event>)
    requires Opens(b)
    ensures Wild(pkg, kind, dontResume, a + b) <==> Wild(pkg, kind, dontResume, a) || Wild(pkg, kind, dontResume, b)
    ensures Opens(a) ==> Opens(a + b)
  {
    hide Fatal;
    var all := a + b;
    if Wild(pkg, kind, dontResume, all) {
      var i :| 0 <= i < |all| - 1 && WildAt(pkg, kind, dontResume, all, i);
      if i < |a| - 1 {
        assert WildAt(pkg, kind, dontResume, a, i);
      } else if i >= |a| {
        assert WildAt(pkg, kind, dontResume, b, i - |a|);
      }
    }
    if Wild(pkg, kind, dontResume, a) {
      var i :| 0 <= i < |a| - 1 && WildAt(pkg, kind, dontResume, a, i);
      assert WildAt(pkg, kind, dontResume, all, i);
    }
    if Wild(pkg, kind, dontResume, b) {
      var i :| 0 <= i < |b| - 1 && WildAt(pkg, kind, dontResume, b, i);
      assert WildAt(pkg, kind, dontResume, all, |a| + i);
    }
  }

  lemma ExchangeWild(pkg: seq<Octet>, kind: ObjType, dontResume: bool, env: Env, r: Request)
    ensures Wild(pkg, kind, dontResume, Exchange(env, r)) <==> Fatal(pkg, kind, dontResume, r, Reply(env, r))
    ensures Opens(Exchange(env, r))
  {
    hide Fatal;
    var log := Exchange(env, r);
    if Fatal(pkg, kind, dontResume, r, Reply(env, r)) {
      assert WildAt(pkg, kind, dontResume, log, 0);
    }
  }

  lemma {:induction false} StreamIsData(bytes: seq<Octet>, payload: nat, packets: nat)
    requires payload > 0
    ensures forall e :: e in Stream(bytes, payload, packets).log ==> e.Packet? || e.PacketRefused?
    decreases |bytes|
  {
    if |bytes| > 0 && packets > 0 {
      StreamIsData(bytes[Min(payload, |bytes|)..], payload, packets - 1);
    }
  }

  lemma HeadTame(pkg: seq<Octet>, kind: ObjType, dontResume: bool, send: nat, bytes: seq<Octet>, payload: nat,
                 packets: nat)
    requires payload > 0
    ensures var log := [Sending(send)] + Stream(bytes, payload, packets).log;
            !Wild(pkg, kind, dontResume, log) && Opens(log)
  {
    hide Stream, Fatal;
    StreamIsData(bytes, payload, packets);
    var log := [Sending(send)] + Stream(bytes, payload, packets).log;
    forall i | 0 <= i < |log| - 1
      ensures !WildAt(pkg, kind, dontResume, log, i)
    {
      assert log[i + 1] in Stream(bytes, payload, packets).log;
    }
  }

  /** The outcome of this stretch is undefined exactly if its log is wild. */
  ghost predicate Told(pkg: seq<Octet>, kind: ObjType, dontResume: bool, p: Pass) {
    Opens(p.log) && (p.next == Stop(Undefined) <==> Wild(pkg, kind, dontResume, p.log))
  }

  lemma OpenTold(pkg: seq<Octet>, kind: ObjType, dontResume: bool, send: nat, size: nat, env: Env)
    ensures Told(pkg, kind, dontResume, OpenNext(kind, send, size, env))
  {
    hide Wild;
    ExchangeWild(pkg, kind, dontResume, env, Create(kind, size));
  }

  lemma SettleTold(pkg: seq<Octet>, kind: ObjType, dontResume: bool, send: nat, size: nat, a: Signal, env: Env)
    requires send < |pkg|
    ensures var p := Settle(pkg, kind, send, size, a, env);
            && Opens(p.log) && !Wild(pkg, kind, dontResume, p.log)
            && (p.next == Stop(Undefined) <==> Fatal(pkg, kind, dontResume, Checksum, a))
  {
    hide Wild, Crc, OpenNext, Exchange;
    NothingWild(pkg, kind, dontResume);
    if CodeOf(a) == SUCCESS && a.size == 11 && 0 < a.offset <= |pkg| {
      var size' := Min(size, |pkg| - a.offset);
      ExecutedTold(pkg, kind, dontResume, a.offset, size', env);
      OpenTold(pkg, kind, dontResume, send, size', env);
      OpenIsDefined(kind, send, size', env);
    }
  }

  lemma OpenIsDefined(kind: ObjType, send: nat, size: nat, env: Env)
    ensures OpenNext(kind, send, size, env).next != Stop(Undefined)
  {
  }

  lemma ExecutedTold(pkg: seq<Octet>, kind: ObjType, dontResume: bool, send: nat, size: nat, env: Env)
    ensures var ex := Exchange(env, Execute);
            var p := OpenNext(kind, send, size, Waited(env, Execute));
            && Opens(ex) && !Wild(pkg, kind, dontResume, ex)
            && Opens(ex + p.log) && !Wild(pkg, kind, dontResume, ex + p.log) && p.next != Stop(Undefined)
  {
    hide Wild, OpenNext, Exchange;
    var env1 := Waited(env, Execute);
    ExchangeWild(pkg, kind, dontResume, env, Execute);
    OpenTold(pkg, kind, dontResume, send, size, env1);
    OpenIsDefined(kind, send, size, env1);
    WildAppend(pkg, kind, dontResume, Exchange(env, Execute), OpenNext(kind, send, size, env1).log);
  }

  lemma NothingWild(pkg: seq<Octet>, kind: ObjType, dontResume: bool)
    ensures !Wild(pkg, kind, dontResume, [])
  {
  }

  lemma PassTold(pkg: seq<Octet>, kind: ObjType, mtu: nat, block: nat, send: nat, size: nat, env: Env, dontResume: bool)
    requires mtu >= DEFAULT_MTU && send < |pkg|
    ensures Told(pkg, kind, dontResume, OnePass(pkg, kind, mtu, block, send, size, env))
  {
    hide Wild, Settle, Stream, Fatal, Exchange;
    var s := Stream(Due(pkg, block, send), Payload(mtu), env.packets);
    var env1 := env.(packets := s.packets);
    var head := [Sending(send)] + s.log;
    HeadTame(pkg, kind, dontResume, send, Due(pkg, block, send), Payload(mtu), env.packets);
    if s.ok {
      var a := Reply(env1, Checksum);
      var rest := Settle(pkg, kind, send, size, a, Waited(env1, Checksum));
      ExchangeWild(pkg, kind, dontResume, env1, Checksum);
      SettleTold(pkg, kind, dontResume, send, size, a, Waited(env1, Checksum));
      WildAppend(pkg, kind, dontResume, head, Exchange(env1, Checksum));
      WildAppend(pkg, kind, dontResume, head + Exchange(env1, Checksum), rest.log);
    }
  }

  lemma {:induction false} DriveTold(pkg: seq<Octet>, kind: ObjType, mtu: nat, block: nat, p: Pass, dontResume: bool)
    requires mtu >= DEFAULT_MTU && (p.next.Again? ==> p.next.send < |pkg|) && Told(pkg, kind, dontResume, p)
    ensures var r := Drive(pkg, kind, mtu, block, p, dontResume);
            Opens(r.log) && (r.outcome == Undefined <==> Wild(pkg, kind, dontResume, r.log))
    decreases p.next.Again?, |p.env.signals|
  {
    hide Wild, Opens, OnePass;
    if p.next.Again? {
      var q := OnePass(pkg, kind, mtu, block, p.next.send, p.next.size, p.env);
      PassTold(pkg, kind, mtu, block, p.next.send, p.next.size, p.env, dontResume);
      DriveTold(pkg, kind, mtu, block, q, dontResume);
      WildAppend(pkg, kind, dontResume, p.log, Drive(pkg, kind, mtu, block, q, dontResume).log);
    }
  }

  lemma BeginTold(pkg: seq<Octet>, kind: ObjType, mtu: nat, block: nat, send: nat, env: Env, dontResume: bool)
    requires mtu >= DEFAULT_MTU && send <= |pkg|
    ensures var r := Begin(pkg, kind, mtu, block, send, env, dontResume);
            Opens(r.log) && (r.outcome == Undefined <==> Wild(pkg, kind, dontResume, r.log))
  {
    hide Wild, Drive, OpenNext;
    NothingWild(pkg, kind, dontResume);
    var size := Min(Min(|pkg|, block), |pkg| - send);
    if size > 0 {
      OpenTold(pkg, kind, dontResume, send, size, env);
      DriveTold(pkg, kind, mtu, block, OpenNext(kind, send, size, env), dontResume);
    }
  }

  lemma SelectedTold(pkg: seq<Octet>, kind: ObjType, mtu: nat, a: Signal, env: Env, dontResume: bool)
    requires mtu >= DEFAULT_MTU
    ensures var r := Selected(pkg, kind, mtu, a, env, dontResume);
            && Opens(r.log)
            && (r.outcome == Undefined <==>
                Fatal(pkg, kind, dontResume, Select(kind), a) || Wild(pkg, kind, dontResume, r.log))
  {
    hide Wild, Begin, Crc, Exchange, Waited;
    NothingWild(pkg, kind, dontResume);
    if CodeOf(a) == SUCCESS && a.size == 15 && a.offset <= |pkg| {
      BeginTold(pkg, kind, mtu, a.blockSize, 0, env, dontResume);
      var env1 := Waited(env, Execute);
      ExchangeWild(pkg, kind, dontResume, env, Execute);
      BeginTold(pkg, kind, mtu, a.blockSize, a.offset, env1, dontResume);
      WildAppend(pkg, kind, dontResume, Exchange(env, Execute),
                 Begin(pkg, kind, mtu, a.blockSize, a.offset, env1, dontResume).log);
    }
  }

  /** For all replies: the call reads beyond the package or divides by zero, and so has no
      defined outcome, if and only if a successful response
      to Select or Checksum reported an offset beyond the package, or the response to Select
      reported a block size of 0 where the resume test divides by it. */
  lemma UndefinedExactly(pkg: seq<Octet>, kind: ObjType, mtu: nat, env: Env, dontResume: bool)
    requires mtu >= DEFAULT_MTU
    ensures var r := SendPackage(pkg, kind, mtu, env, dontResume);
            r.outcome == Undefined <==> Wild(pkg, kind, dontResume, r.log)
  {
    hide Wild, Selected, Exchange, Fatal;
    var a := Reply(env, Select(kind));
    var env1 := Waited(env, Select(kind));
    ExchangeWild(pkg, kind, dontResume, env, Select(kind));
    SelectedTold(pkg, kind, mtu, a, env1, dontResume);
    WildAppend(pkg, kind, dontResume, Exchange(env, Select(kind)), Selected(pkg, kind, mtu, a, env1, dontResume).log);
  }

  // ---- other inputs that lead nowhere

  /** With a block size of 0 and nothing to resume, a call succeeds after the Select alone,
      and the device has nothing of the package. */
  lemma NoBlockSizeSendsNothing(pkg: seq<Octet>, kind: ObjType, mtu: nat, crc: Word, rest: seq<Signal>, packets: nat,
                                dontResume: bool)
    requires mtu >= DEFAULT_MTU
    ensures var answer := Notify(OP_SELECT, SUCCESS, 15, 0, 0, crc);
            var r := SendPackage(pkg, kind, mtu, Env([answer] + rest, packets), dontResume);
            r.outcome == Code(SUCCESS) && r.log == [Sent(Select(kind)), Answer(answer)]
  {
  }

  /** dfu makes retryCount + 1 attempts exactly for the values that the loop counter can
      hold; for the next 128 values it makes none and reports failure at once. */
  lemma AttemptsAskedFor(retryCount: nat)
    ensures AttemptLimit(retryCount + 1) == retryCount + 1 <==> retryCount <= 126
    ensures 127 <= retryCount <= 254 ==> AttemptLimit(retryCount + 1) == 0
  {
  }

  /** A response to Select that reports one octet more than the package has. */
  lemma ReadsBeyondThePackage(pkg: seq<Octet>, kind: ObjType, mtu: nat, crc: Word, block: U32, dontResume: bool)
    requires mtu >= DEFAULT_MTU && |pkg| + 1 < 0x1_0000_0000
    ensures var answer := Notify(OP_SELECT, SUCCESS, 15, block, |pkg| + 1, crc);
            SendPackage(pkg, kind, mtu, Env([answer], 0), dontResume).outcome == Undefined
  {
  }

  /** One that reports the whole package and no block size. */
  lemma DividesByZero(pkg: seq<Octet>, mtu: nat, dontResume: bool)
    requires mtu >= DEFAULT_MTU && 0 < |pkg| < 0x1_0000_0000
    ensures var answer := Notify(OP_SELECT, SUCCESS, 15, 0, |pkg|, Crc(pkg, None));
            SendPackage(pkg, Data, mtu, Env([answer], 0), dontResume).outcome == Undefined
  {
    hide Crc;
    assert pkg[..|pkg|] == pkg;
  }
}
