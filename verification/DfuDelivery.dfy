/** Host and device together: every run on a lawful link delivers the package or meets
    trouble, within the number of rounds that blocks and damage account for. */
module DfuDelivery {
  import opened Arith
  import opened Wrappers
  import opened Crc32
  import opened CrcTheory
  import opened DfuHost
  import opened DfuDevice

  /** Bytes of this package that an earlier, interrupted run left behind. */
  ghost predicate OnTrack(o: Obj, pkg: seq<Octet>) {
    o.committed + o.sent <= pkg && |o.sent| == |o.received|
  }

  /** Bytes from elsewhere, not longer than the package, that do not pass for its prefix. */
  ghost predicate Foreign(o: Obj, pkg: seq<Octet>) {
    var n := |Stored(o)|;
    o.sent == o.received && n <= |pkg| && (Crc(Stored(o), None) == Crc(pkg[..n], None) ==> Stored(o) == pkg[..n])
  }

  ghost predicate Safe(o: Obj, pkg: seq<Octet>) {
    OnTrack(o, pkg) || Foreign(o, pkg)
  }

  lemma ChecksumDecides(o: Obj, pkg: seq<Octet>)
    requires Safe(o, pkg) && OneBurst(o.sent, o.received)
    ensures var n := |Stored(o)|;
            n <= |pkg| && (Crc(pkg[..n], None) == Crc(Stored(o), None) <==> Stored(o) == pkg[..n])
  {
    if OnTrack(o, pkg) {
      BurstBehindPrefix(o.committed, o.sent, o.received);
      assert pkg[..|Stored(o)|] == o.committed + o.sent;
      if Stored(o) == o.committed + o.sent {
        assert o.received == Stored(o)[|o.committed|..];
        assert o.sent == (o.committed + o.sent)[|o.committed|..];
      }
    }
  }

  /** r, watched by a device that starts as d, ends well or met trouble, and spends no more
      rounds than `allowance` plus the damaged ones. */
  ghost predicate Delivers(link: Link, d: Device, pkg: seq<Octet>, kind: ObjType, r: Run, allowance: nat) {
    var d' := Observe(link, d, r.log);
    && (r.outcome == Code(SUCCESS) <==> !Trouble(r.log))
    && (r.outcome == Code(SUCCESS) ==> Of(d', kind) == Obj(pkg, [], []))
    && r.outcome != Undefined
    && d'.rounds + d.damaged <= d.rounds + allowance + d'.damaged
    && Always(link, d, r.log, HeadTest(pkg, kind))
    && Safe(Of(d', kind), pkg)
    && d'.blockSize == d.blockSize && Of(d', Other(kind)) == Of(d, Other(kind))
  }

  lemma Prepend(link: Link, d: Device, pkg: seq<Octet>, kind: ObjType, pre: seq<Event>, r: Run, rest: nat,
                allowance: nat)
    requires Always(link, d, pre, HeadTest(pkg, kind)) && !Trouble(pre)
    requires Delivers(link, Observe(link, d, pre), pkg, kind, r, rest)
    requires var d1 := Observe(link, d, pre);
             && d1.rounds + rest + d.damaged <= d.rounds + allowance + d1.damaged
             && d1.blockSize == d.blockSize && Of(d1, Other(kind)) == Of(d, Other(kind))
    ensures Delivers(link, d, pkg, kind, After(pre, r), allowance)
  {
    Compose(link, d, pre, r.log, HeadTest(pkg, kind));
    TroubleAppend(pre, r.log);
  }

  /** The loop head: exactly the first `send` bytes are executed and nothing is pending. */
  ghost predicate AtHead(d: Device, pkg: seq<Octet>, kind: ObjType, send: nat) {
    && d.cur == kind && send <= |pkg|
    && Of(d, kind) == Obj(pkg[..send], [], [])
    && (kind.Command? ==> send == 0)
  }

  ghost predicate Fits(d: Device, pkg: seq<Octet>, kind: ObjType, block: nat) {
    |pkg| < 0x1_0000_0000 && 0 < block == d.blockSize && (kind.Command? ==> |pkg| <= block)
  }

  /** p, watched by a device that starts as d, is one good stretch of a delivery with this
      allowance of rounds: it ends the run well or in trouble, or comes back to the loop
      head with enough of the allowance left for the blocks still to send. */
  ghost predicate Progress(link: Link, d: Device, pkg: seq<Octet>, kind: ObjType, block: nat, p: Pass, allowance: nat)
    requires block > 0
  {
    var d' := Observe(link, d, p.log);
    && (Trouble(p.log) <==> p.next.Stop? && p.next.outcome != Code(SUCCESS))
    && p.next != Stop(Undefined)
    && (p.next == Stop(Code(SUCCESS)) ==> Of(d', kind) == Obj(pkg, [], []))
    && (p.next.Again? ==> p.next.send < |pkg| && AtHead(d', pkg, kind, p.next.send))
    && Always(link, d, p.log, HeadTest(pkg, kind))
    && Safe(Of(d', kind), pkg)
    && d'.blockSize == d.blockSize && Of(d', Other(kind)) == Of(d, Other(kind))
    && var left := if p.next.Again? then Pieces(|pkg| - p.next.send, block) else 0;
       d'.rounds + left + d.damaged <= d.rounds + allowance + d'.damaged
  }

  lemma ProgressAfter(link: Link, d: Device, pkg: seq<Octet>, kind: ObjType, block: nat, pre: seq<Event>, p: Pass,
                      rest: nat, allowance: nat)
    requires block > 0 && Always(link, d, pre, HeadTest(pkg, kind)) && !Trouble(pre)
    requires Progress(link, Observe(link, d, pre), pkg, kind, block, p, rest)
    requires var d1 := Observe(link, d, pre);
             && d1.rounds + rest + d.damaged <= d.rounds + allowance + d1.damaged
             && d1.blockSize == d.blockSize && Of(d1, Other(kind)) == Of(d, Other(kind))
    ensures Progress(link, d, pkg, kind, block, Following(pre, p), allowance)
  {
    Compose(link, d, pre, p.log, HeadTest(pkg, kind));
    TroubleAppend(pre, p.log);
  }

  lemma PrefixSafe(pkg: seq<Octet>, n: nat)
    requires n <= |pkg|
    ensures Safe(Obj(pkg[..n], [], []), pkg)
  {
    assert pkg[..n] + [] == pkg[..n];
    assert OnTrack(Obj(pkg[..n], [], []), pkg);
  }

  // ---- one pass of the loop, stretch by stretch

  /** d1 is d, at a loop head, after k bytes of the block went out. */
  ghost predicate Streaming(d: Device, d1: Device, pkg: seq<Octet>, kind: ObjType, block: nat, send: nat, k: nat)
    requires send <= |pkg|
  {
    var o := Of(d1, kind);
    && k <= Segment(pkg, block, send)
    && OnTrack(o, pkg) && o.committed == pkg[..send] && o.sent == Due(pkg, block, send)[..k] && |o.received| == k
    && d1.cur == kind && d1.rounds == d.rounds && d1.damaged == d.damaged && d1.blockSize == d.blockSize
    && Of(d1, Other(kind)) == Of(d, Other(kind))
  }

  lemma StreamedSafely(d: Device, d1: Device, pkg: seq<Octet>, kind: ObjType, block: nat, send: nat, k: nat)
    requires AtHead(d, pkg, kind, send) && Arrived(d, d1, Due(pkg, block, send), k)
    ensures Streaming(d, d1, pkg, kind, block, send, k)
  {
    var o := Of(d1, kind);
    var seg := Due(pkg, block, send);
    assert [] + seg[..k] == seg[..k];
    assert o.committed + o.sent == pkg[..send + k];
  }

  lemma HeadObserved(link: Link, d: Device, pkg: seq<Octet>, kind: ObjType, block: nat, send: nat, payload: nat,
                     packets: nat)
    returns (k: nat)
    requires block > 0 && payload > 0 && send < |pkg| && KeepsLength(link)
    requires AtHead(d, pkg, kind, send)
    ensures var s := Stream(Due(pkg, block, send), payload, packets);
            var head := [Sending(send)] + s.log;
            && Streaming(d, Observe(link, d, head), pkg, kind, block, send, k)
            && (s.ok <==> !Trouble(head)) && (s.ok ==> k == Segment(pkg, block, send))
            && Always(link, d, head, HeadTest(pkg, kind))
  {
    var test := HeadTest(pkg, kind);
    var seg := Due(pkg, block, send);
    var s := Stream(seg, payload, packets);
    First(link, d, Sending(send), s.log, test);
    k := StreamObserved(link, d, seg, payload, packets, test);
    StreamedSafely(d, Observe(link, d, s.log), pkg, kind, block, send, k);
  }

  /** The block is in, and the checksum response, if it is a success, is the device's own. */
  ghost predicate Reported(d: Device, pkg: seq<Octet>, kind: ObjType, block: nat, send: nat, a: Signal)
    requires send <= |pkg|
  {
    var o := Of(d, kind);
    && d.cur == kind && o.committed == pkg[..send] && (kind.Command? ==> send == 0)
    && o.sent == Due(pkg, block, send) && |o.received| == |o.sent| && OnTrack(o, pkg)
    && OneBurst(o.sent, o.received)
    && d.asked == Checksum && (CodeOf(a) == SUCCESS ==> a == Ideal(d))
  }

  lemma ChecksumAsked(link: Link, d: Device, d1: Device, pkg: seq<Octet>, kind: ObjType, block: nat, send: nat,
                      env: Env)
    requires AtHead(d, pkg, kind, send) && Streaming(d, d1, pkg, kind, block, send, Segment(pkg, block, send))
    requires Always(link, d1, Exchange(env, Checksum), Lawful)
    ensures var ex := Exchange(env, Checksum);
            var a := Reply(env, Checksum);
            var d2 := Observe(link, d1, ex);
            var o := Of(d2, kind);
            && Always(link, d1, ex, HeadTest(pkg, kind)) && (Trouble(ex) <==> CodeOf(a) != SUCCESS)
            && Reported(d2, pkg, kind, block, send, a)
            && d2.blockSize == d1.blockSize && Of(d2, Other(kind)) == Of(d1, Other(kind))
            && d2.rounds == d1.rounds + 1 && d2.damaged == d1.damaged + (if o.received == o.sent then 0 else 1)
  {
    var a := Reply(env, Checksum);
    ExchangeObserved(link, d1, Checksum, a, Lawful);
    ExchangeObserved(link, d1, Checksum, a, HeadTest(pkg, kind));
    var seg := Due(pkg, block, send);
    assert seg[..Segment(pkg, block, send)] == seg;
  }

  lemma ReportMeansBlock(d: Device, pkg: seq<Octet>, kind: ObjType, block: nat, send: nat, a: Signal)
    requires block > 0 && send < |pkg| < 0x1_0000_0000 && Reported(d, pkg, kind, block, send, a) && CodeOf(a) == SUCCESS
    ensures var o := Of(d, kind);
            var off := send + Segment(pkg, block, send);
            && a.offset == off && a.size == 11
            && (Crc(pkg[..off], None) == a.crc <==> o.received == o.sent)
            && (o.received == o.sent ==> Stored(o) == pkg[..off])
  {
    hide Crc, OneBurst;
    var o := Of(d, kind);
    var off := send + Segment(pkg, block, send);
    BurstBehindPrefix(o.committed, o.sent, o.received);
    assert o.committed + o.sent == pkg[..off];
  }

  /** The Create request: it leads to the loop head at `send`. */
  lemma OpenProgress(link: Link, d: Device, pkg: seq<Octet>, kind: ObjType, block: nat, send: nat, size: nat, env: Env)
    requires block > 0 && send < |pkg| && (kind.Command? ==> send == 0)
    requires kind.Data? ==> Of(d, kind).committed == pkg[..send]
    requires Safe(Of(d, kind), pkg)
    requires Always(link, d, OpenNext(kind, send, size, env).log, Lawful)
    ensures Progress(link, d, pkg, kind, block, OpenNext(kind, send, size, env), Pieces(|pkg| - send, block))
  {
    var c := Reply(env, Create(kind, size));
    ExchangeObserved(link, d, Create(kind, size), c, HeadTest(pkg, kind));
    ExchangeObserved(link, d, Create(kind, size), c, Lawful);
    PrefixSafe(pkg, send);
  }

  /** The Execute request on a device that holds the package up to off. */
  lemma BlockExecuted(link: Link, d: Device, pkg: seq<Octet>, kind: ObjType, env: Env, off: nat)
    requires d.cur == kind && off <= |pkg| && Stored(Of(d, kind)) == pkg[..off] && Safe(Of(d, kind), pkg)
    requires Always(link, d, Exchange(env, Execute), Lawful)
    ensures var ex := Exchange(env, Execute);
            var d1 := Observe(link, d, ex);
            && Always(link, d, ex, HeadTest(pkg, kind))
            && (Trouble(ex) <==> CodeOf(Reply(env, Execute)) != SUCCESS)
            && d1.cur == kind && d1.rounds == d.rounds && d1.damaged == d.damaged && d1.blockSize == d.blockSize
            && Of(d1, Other(kind)) == Of(d, Other(kind)) && Safe(Of(d1, kind), pkg)
            && (!Trouble(ex) ==> Of(d1, kind) == Obj(pkg[..off], [], []))
  {
    var e := Reply(env, Execute);
    ExchangeObserved(link, d, Execute, e, HeadTest(pkg, kind));
    ExchangeObserved(link, d, Execute, e, Lawful);
    PrefixSafe(pkg, off);
  }

  /** What is still allowed once the block has arrived, damaged or not. */
  function Verdict(d: Device, pkg: seq<Octet>, block: nat, send: nat): nat
    requires block > 0 && send < |pkg|
  {
    var o := Of(d, d.cur);
    if o.received == o.sent then Pieces(|pkg| - send - Segment(pkg, block, send), block)
    else Pieces(|pkg| - send, block)
  }

  lemma SettleProgress(link: Link, d: Device, pkg: seq<Octet>, kind: ObjType, block: nat,
                       send: nat, size: nat, a: Signal, env: Env)
    requires send < |pkg| && Fits(d, pkg, kind, block) && Reported(d, pkg, kind, block, send, a) && CodeOf(a) == SUCCESS
    requires Always(link, d, Settle(pkg, kind, send, size, a, env).log, Lawful)
    ensures Progress(link, d, pkg, kind, block, Settle(pkg, kind, send, size, a, env), Verdict(d, pkg, block, send))
  {
    if Of(d, kind).received != Of(d, kind).sent {
      RetryProgress(link, d, pkg, kind, block, send, size, a, env);
    } else {
      ExecuteProgress(link, d, pkg, kind, block, send, size, a, env);
    }
  }

  lemma RetryProgress(link: Link, d: Device, pkg: seq<Octet>, kind: ObjType, block: nat,
                      send: nat, size: nat, a: Signal, env: Env)
    requires send < |pkg| && Fits(d, pkg, kind, block) && Reported(d, pkg, kind, block, send, a) && CodeOf(a) == SUCCESS
    requires Of(d, kind).received != Of(d, kind).sent
    requires Always(link, d, Settle(pkg, kind, send, size, a, env).log, Lawful)
    ensures Progress(link, d, pkg, kind, block, Settle(pkg, kind, send, size, a, env), Verdict(d, pkg, block, send))
  {
    var off := send + Segment(pkg, block, send);
    ReportMeansBlock(d, pkg, kind, block, send, a);
    MismatchRetries(pkg, kind, send, size, a, env);
    OpenProgress(link, d, pkg, kind, block, send, Min(size, |pkg| - off), env);
  }

  lemma MismatchRetries(pkg: seq<Octet>, kind: ObjType, send: nat, size: nat, a: Signal, env: Env)
    requires send < |pkg| && CodeOf(a) == SUCCESS && a.size == 11 && 0 < a.offset <= |pkg|
    requires Crc(pkg[..a.offset], None) != a.crc
    ensures Settle(pkg, kind, send, size, a, env) == OpenNext(kind, send, Min(size, |pkg| - a.offset), env)
  {
  }

  lemma MatchExecutes(pkg: seq<Octet>, kind: ObjType, send: nat, size: nat, a: Signal, env: Env)
    requires send < |pkg| && CodeOf(a) == SUCCESS && a.size == 11 && 0 < a.offset <= |pkg|
    requires Crc(pkg[..a.offset], None) == a.crc
    ensures var e := Reply(env, Execute);
            var ex, env1 := Exchange(env, Execute), Waited(env, Execute);
            Settle(pkg, kind, send, size, a, env)
            == if CodeOf(e) != SUCCESS then Pass(ex, Stop(Code(CodeOf(e))), env1)
               else if a.offset == |pkg| then Pass(ex, Stop(Code(SUCCESS)), env1)
               else Following(ex, OpenNext(kind, a.offset, Min(size, |pkg| - a.offset), env1))
  {
    hide Crc, OpenNext;
  }

  lemma ExecuteProgress(link: Link, d: Device, pkg: seq<Octet>, kind: ObjType, block: nat,
                        send: nat, size: nat, a: Signal, env: Env)
    requires send < |pkg| && Fits(d, pkg, kind, block) && Reported(d, pkg, kind, block, send, a) && CodeOf(a) == SUCCESS
    requires Of(d, kind).received == Of(d, kind).sent
    requires Always(link, d, Settle(pkg, kind, send, size, a, env).log, Lawful)
    ensures Progress(link, d, pkg, kind, block, Settle(pkg, kind, send, size, a, env), Verdict(d, pkg, block, send))
  {
    hide Settle, Crc, OpenNext, Always, Observe, Pieces, OneBurst;
    var off := send + Segment(pkg, block, send);
    ReportMeansBlock(d, pkg, kind, block, send, a);
    MatchExecutes(pkg, kind, send, size, a, env);
    var ex := Exchange(env, Execute);
    var env1 := Waited(env, Execute);
    if CodeOf(Reply(env, Execute)) == SUCCESS && off < |pkg| {
      var next := OpenNext(kind, off, Min(size, |pkg| - off), env1);
      Compose(link, d, ex, next.log, Lawful);
      BlockExecuted(link, d, pkg, kind, env, off);
      var d1 := Observe(link, d, ex);
      OpenProgress(link, d1, pkg, kind, block, off, Min(size, |pkg| - off), env1);
      ProgressAfter(link, d, pkg, kind, block, ex, next, Pieces(|pkg| - off, block), Verdict(d, pkg, block, send));
    } else {
      BlockExecuted(link, d, pkg, kind, env, off);
      assert pkg[..|pkg|] == pkg;
    }
  }

  lemma PassToReport(link: Link, d: Device, pkg: seq<Octet>, kind: ObjType, mtu: nat, block: nat, send: nat, env: Env)
    requires mtu >= DEFAULT_MTU && block > 0 && send < |pkg| && KeepsLength(link) && AtHead(d, pkg, kind, send)
    requires Stream(Due(pkg, block, send), Payload(mtu), env.packets).ok
    requires Always(link, d, ReportLog(pkg, mtu, block, send, env), Lawful)
    ensures var pre := ReportLog(pkg, mtu, block, send, env);
            var a := Reply(Sent1(pkg, mtu, block, send, env), Checksum);
            var d2 := Observe(link, d, pre);
            var o := Of(d2, kind);
            && Always(link, d, pre, HeadTest(pkg, kind)) && (Trouble(pre) <==> CodeOf(a) != SUCCESS)
            && Reported(d2, pkg, kind, block, send, a)
            && d2.blockSize == d.blockSize && Of(d2, Other(kind)) == Of(d, Other(kind))
            && d2.rounds == d.rounds + 1 && d2.damaged == d.damaged + (if o.received == o.sent then 0 else 1)
  {
    var head := [Sending(send)] + Stream(Due(pkg, block, send), Payload(mtu), env.packets).log;
    var env1 := Sent1(pkg, mtu, block, send, env);
    var ex := Exchange(env1, Checksum);
    var d1 := Observe(link, d, head);
    var k := HeadObserved(link, d, pkg, kind, block, send, Payload(mtu), env.packets);
    Compose(link, d, head, ex, Lawful);
    Compose(link, d, head, ex, HeadTest(pkg, kind));
    ChecksumAsked(link, d, d1, pkg, kind, block, send, env1);
    TroubleAppend(head, ex);
  }

  function Sent1(pkg: seq<Octet>, mtu: nat, block: nat, send: nat, env: Env): Env
    requires mtu >= DEFAULT_MTU && send < |pkg|
  {
    env.(packets := Stream(Due(pkg, block, send), Payload(mtu), env.packets).packets)
  }

  function ReportLog(pkg: seq<Octet>, mtu: nat, block: nat, send: nat, env: Env): seq<Event>
    requires mtu >= DEFAULT_MTU && send < |pkg|
  {
    [Sending(send)] + Stream(Due(pkg, block, send), Payload(mtu), env.packets).log +
    Exchange(Sent1(pkg, mtu, block, send, env), Checksum)
  }

  lemma PassProgress(link: Link, d: Device, pkg: seq<Octet>, kind: ObjType, mtu: nat, block: nat,
                     send: nat, size: nat, env: Env)
    requires mtu >= DEFAULT_MTU && send < |pkg| && KeepsLength(link)
    requires Fits(d, pkg, kind, block) && AtHead(d, pkg, kind, send)
    requires Always(link, d, OnePass(pkg, kind, mtu, block, send, size, env).log, Lawful)
    ensures Progress(link, d, pkg, kind, block, OnePass(pkg, kind, mtu, block, send, size, env),
                     Pieces(|pkg| - send, block))
  {
    hide Settle, Stream, Crc, OneBurst, Pieces, Verdict, Progress, AtHead, Always, Observe, Exchange, OnePass,
         ReportLog;
    var env1 := Sent1(pkg, mtu, block, send, env);
    var a := Reply(env1, Checksum);
    if Stream(Due(pkg, block, send), Payload(mtu), env.packets).ok && CodeOf(a) == SUCCESS {
      var pre := ReportLog(pkg, mtu, block, send, env);
      var rest := Settle(pkg, kind, send, size, a, Waited(env1, Checksum));
      var d2 := Observe(link, d, pre);
      PassSettles(pkg, kind, mtu, block, send, size, env);
      Compose(link, d, pre, rest.log, Lawful);
      PassToReport(link, d, pkg, kind, mtu, block, send, env);
      VerdictFits(d2, pkg, kind, block, send, a);
      SettleProgress(link, d2, pkg, kind, block, send, size, a, Waited(env1, Checksum));
      ProgressAfter(link, d, pkg, kind, block, pre, rest, Verdict(d2, pkg, block, send), Pieces(|pkg| - send, block));
    } else {
      PassEnds(link, d, pkg, kind, mtu, block, send, size, env);
    }
  }

  lemma PassSettles(pkg: seq<Octet>, kind: ObjType, mtu: nat, block: nat, send: nat, size: nat, env: Env)
    requires mtu >= DEFAULT_MTU && send < |pkg| && Stream(Due(pkg, block, send), Payload(mtu), env.packets).ok
    ensures var env1 := Sent1(pkg, mtu, block, send, env);
            OnePass(pkg, kind, mtu, block, send, size, env)
            == Following(ReportLog(pkg, mtu, block, send, env),
                         Settle(pkg, kind, send, size, Reply(env1, Checksum), Waited(env1, Checksum)))
  {
    hide Settle, Stream, Exchange;
  }

  /** What the block costs is covered: a good block is one less to send, a damaged one is
      counted as damaged. */
  lemma VerdictFits(d: Device, pkg: seq<Octet>, kind: ObjType, block: nat, send: nat, a: Signal)
    requires block > 0 && send < |pkg| && Reported(d, pkg, kind, block, send, a)
    ensures var o := Of(d, kind);
            Verdict(d, pkg, block, send) + 1 <= Pieces(|pkg| - send, block) + (if o.received == o.sent then 0 else 1)
  {
    hide OneBurst, Crc, OnTrack, Due;
  }

  /** The two ways a pass ends before there is a checksum to compare. */
  lemma PassEnds(link: Link, d: Device, pkg: seq<Octet>, kind: ObjType, mtu: nat, block: nat,
                 send: nat, size: nat, env: Env)
    requires mtu >= DEFAULT_MTU && send < |pkg| && KeepsLength(link)
    requires Fits(d, pkg, kind, block) && AtHead(d, pkg, kind, send)
    requires Always(link, d, OnePass(pkg, kind, mtu, block, send, size, env).log, Lawful)
    requires !Stream(Due(pkg, block, send), Payload(mtu), env.packets).ok ||
             CodeOf(Reply(Sent1(pkg, mtu, block, send, env), Checksum)) != SUCCESS
    ensures Progress(link, d, pkg, kind, block, OnePass(pkg, kind, mtu, block, send, size, env),
                     Pieces(|pkg| - send, block))
  {
    if Stream(Due(pkg, block, send), Payload(mtu), env.packets).ok {
      var pre := ReportLog(pkg, mtu, block, send, env);
      assert pre + [] == pre;
      PassToReport(link, d, pkg, kind, mtu, block, send, env);
    } else {
      var k := HeadObserved(link, d, pkg, kind, block, send, Payload(mtu), env.packets);
    }
  }

  // ---- whole runs

  lemma DriveStarts(link: Link, d: Device, pkg: seq<Octet>, kind: ObjType, mtu: nat, block: nat, p: Pass,
                    dontResume: bool)
    requires mtu >= DEFAULT_MTU && (p.next.Again? ==> p.next.send < |pkg|)
    requires Always(link, d, Drive(pkg, kind, mtu, block, p, dontResume).log, Lawful)
    ensures Always(link, d, p.log, Lawful)
  {
    if p.next.Again? {
      var q := OnePass(pkg, kind, mtu, block, p.next.send, p.next.size, p.env);
      Compose(link, d, p.log, Drive(pkg, kind, mtu, block, q, dontResume).log, Lawful);
    }
  }

  lemma {:induction false} DriveDelivers(link: Link, d: Device, pkg: seq<Octet>, kind: ObjType, mtu: nat, block: nat,
                                         p: Pass, dontResume: bool, allowance: nat)
    requires mtu >= DEFAULT_MTU && KeepsLength(link) && Fits(d, pkg, kind, block)
    requires Progress(link, d, pkg, kind, block, p, allowance)
    requires Always(link, d, Drive(pkg, kind, mtu, block, p, dontResume).log, Lawful)
    ensures Delivers(link, d, pkg, kind, Drive(pkg, kind, mtu, block, p, dontResume), allowance)
    decreases p.next.Again?, |p.env.signals|
  {
    if p.next.Again? {
      var send, size := p.next.send, p.next.size;
      var d1 := Observe(link, d, p.log);
      var q := OnePass(pkg, kind, mtu, block, send, size, p.env);
      var rest := Drive(pkg, kind, mtu, block, q, dontResume);
      Compose(link, d, p.log, rest.log, Lawful);
      DriveStarts(link, d1, pkg, kind, mtu, block, q, dontResume);
      PassProgress(link, d1, pkg, kind, mtu, block, send, size, p.env);
      DriveDelivers(link, d1, pkg, kind, mtu, block, q, dontResume, Pieces(|pkg| - send, block));
      Prepend(link, d, pkg, kind, p.log, rest, Pieces(|pkg| - send, block), allowance);
    }
  }

  lemma BeginDelivers(link: Link, d: Device, pkg: seq<Octet>, kind: ObjType, mtu: nat, block: nat,
                      send: nat, env: Env, dontResume: bool)
    requires mtu >= DEFAULT_MTU && send <= |pkg| && KeepsLength(link)
    requires Fits(d, pkg, kind, block) && (kind.Command? ==> send == 0 || send == |pkg|)
    requires kind.Data? ==> Of(d, kind).committed == pkg[..send]
    requires send == |pkg| ==> Of(d, kind) == Obj(pkg, [], [])
    requires Safe(Of(d, kind), pkg)
    requires Always(link, d, Begin(pkg, kind, mtu, block, send, env, dontResume).log, Lawful)
    ensures Delivers(link, d, pkg, kind, Begin(pkg, kind, mtu, block, send, env, dontResume),
                     Pieces(|pkg| - send, block))
  {
    var size := Min(Min(|pkg|, block), |pkg| - send);
    if size > 0 {
      var p := OpenNext(kind, send, size, env);
      DriveStarts(link, d, pkg, kind, mtu, block, p, dontResume);
      OpenProgress(link, d, pkg, kind, block, send, size, env);
      DriveDelivers(link, d, pkg, kind, mtu, block, p, dontResume, Pieces(|pkg| - send, block));
    }
  }

  // ---- one call of dfuSendPackage

  /** The bytes the device holds are a prefix of the package that the host may build on. */
  ghost predicate Kept(held: seq<Octet>, pkg: seq<Octet>, kind: ObjType, dontResume: bool) {
    held <= pkg && !(kind.Command? && dontResume)
  }

  /** The offset the transfer goes on from. */
  ghost function ResumePoint(held: seq<Octet>, pkg: seq<Octet>, kind: ObjType, dontResume: bool): (n: nat)
    ensures n <= |pkg|
  {
    if Kept(held, pkg, kind, dontResume) then |held| else 0
  }

  /** What must hold of the bytes on the device for the host to go on at all: for a data
      object they have to be a prefix of the package, and a prefix that is kept has to end
      on a block boundary or at the end. */
  ghost predicate Acceptable(held: seq<Octet>, pkg: seq<Octet>, kind: ObjType, block: nat, dontResume: bool)
    requires block > 0
  {
    if Kept(held, pkg, kind, dontResume) then |held| % block == 0 || |held| == |pkg| else kind.Command?
  }

  /** The result of a whole call, watched by a device that starts as d. */
  ghost predicate Installs(link: Link, d: Device, pkg: seq<Octet>, kind: ObjType, dontResume: bool, r: Run)
    requires d.blockSize > 0
  {
    var d' := Observe(link, d, r.log);
    var held := Stored(Of(d, kind));
    var left := |pkg| - ResumePoint(held, pkg, kind, dontResume);
    && (r.outcome == Code(SUCCESS) <==>
        !Trouble(r.log) && Acceptable(held, pkg, kind, d.blockSize, dontResume))
    && (r.outcome == Code(SUCCESS) ==> Of(d', kind) == Obj(pkg, [], []))
    && r.outcome != Undefined
    && d'.rounds - d.rounds <= Pieces(left, d.blockSize) + (d'.damaged - d.damaged)
    && Always(link, d, r.log, HeadTest(pkg, kind))
    && Safe(Of(d', kind), pkg)
    && d'.blockSize == d.blockSize && Of(d', Other(kind)) == Of(d, Other(kind))
  }

  lemma DeliversInstalls(link: Link, d: Device, pkg: seq<Octet>, kind: ObjType, dontResume: bool, r: Run, n: nat)
    requires d.blockSize > 0 && n <= |pkg| && Delivers(link, d, pkg, kind, r, Pieces(|pkg| - n, d.blockSize))
    requires var held := Stored(Of(d, kind));
             n == ResumePoint(held, pkg, kind, dontResume) && Acceptable(held, pkg, kind, d.blockSize, dontResume)
    ensures Installs(link, d, pkg, kind, dontResume, r)
  {
  }

  /** Nothing was sent after Select, because of a refusal or because of what is held. */
  lemma NothingSent(link: Link, d: Device, pkg: seq<Octet>, kind: ObjType, dontResume: bool, r: Run)
    requires d.blockSize > 0 && Safe(Of(d, kind), pkg) && r.log == []
    requires r.outcome.Code? && r.outcome != Code(SUCCESS)
    requires !Acceptable(Stored(Of(d, kind)), pkg, kind, d.blockSize, dontResume)
    ensures Installs(link, d, pkg, kind, dontResume, r)
  {
  }

  lemma InstallsAfterSelect(link: Link, d: Device, pkg: seq<Octet>, kind: ObjType, dontResume: bool, ex: seq<Event>,
                            r: Run)
    requires d.blockSize > 0 && !Trouble(ex) && Always(link, d, ex, HeadTest(pkg, kind))
    requires var d1 := Observe(link, d, ex);
             && d1.command == d.command && d1.data == d.data && d1.blockSize == d.blockSize
             && d1.rounds == d.rounds && d1.damaged == d.damaged
             && Installs(link, d1, pkg, kind, dontResume, r)
    ensures Installs(link, d, pkg, kind, dontResume, After(ex, r))
  {
    hide Safe, Acceptable, HeadTest, Always, Pieces, ResumePoint, Trouble;
    Compose(link, d, ex, r.log, HeadTest(pkg, kind));
    TroubleAppend(ex, r.log);
  }

  /** From a device in any safe state: dfuSendPackage succeeds exactly if nothing is refused
      and the bytes on the device are acceptable; success means the device has executed the
      whole package and nothing else; at each loop head it has executed exactly the bytes
      the host counts as sent; and there are no more rounds than blocks and damaged blocks. */
  lemma PackageInstalled(link: Link, d: Device, pkg: seq<Octet>, kind: ObjType, mtu: nat, env: Env, dontResume: bool)
    requires mtu >= DEFAULT_MTU && KeepsLength(link) && Fits(d, pkg, kind, d.blockSize)
    requires Safe(Of(d, kind), pkg)
    requires Always(link, d, SendPackage(pkg, kind, mtu, env, dontResume).log, Lawful)
    ensures Installs(link, d, pkg, kind, dontResume, SendPackage(pkg, kind, mtu, env, dontResume))
  {
    var a := Reply(env, Select(kind));
    var ex := Exchange(env, Select(kind));
    var rest := Selected(pkg, kind, mtu, a, Waited(env, Select(kind)), dontResume);
    Compose(link, d, ex, rest.log, Lawful);
    ExchangeObserved(link, d, Select(kind), a, Lawful);
    ExchangeObserved(link, d, Select(kind), a, HeadTest(pkg, kind));
    if CodeOf(a) == SUCCESS {
      SelectedInstalls(link, Observe(link, d, ex), pkg, kind, mtu, a, Waited(env, Select(kind)), dontResume);
      InstallsAfterSelect(link, d, pkg, kind, dontResume, ex, rest);
    } else {
      assert ex + [] == ex;
    }
  }

  lemma SelectedInstalls(link: Link, d: Device, pkg: seq<Octet>, kind: ObjType, mtu: nat, a: Signal, env: Env,
                         dontResume: bool)
    requires mtu >= DEFAULT_MTU && KeepsLength(link) && Fits(d, pkg, kind, d.blockSize)
    requires Safe(Of(d, kind), pkg) && OneBurst(Of(d, kind).sent, Of(d, kind).received)
    requires d.cur == kind && d.asked == Select(kind) && a == Ideal(d)
    requires Always(link, d, Selected(pkg, kind, mtu, a, env, dontResume).log, Lawful)
    ensures Installs(link, d, pkg, kind, dontResume, Selected(pkg, kind, mtu, a, env, dontResume))
  {
    var held := Stored(Of(d, kind));
    var r := Selected(pkg, kind, mtu, a, env, dontResume);
    SelectReports(d, pkg, kind, a);
    if |held| > 0 && Kept(held, pkg, kind, dontResume) && Resumable(pkg, a) {
      ResumeInstalls(link, d, pkg, kind, mtu, a, env, dontResume);
    } else if |held| == 0 || (kind.Command? && !Kept(held, pkg, kind, dontResume)) {
      SelectedOtherwise(pkg, kind, mtu, a, env, dontResume);
      FreshStart(link, d, pkg, kind, mtu, env, dontResume);
    } else {
      SelectedOtherwise(pkg, kind, mtu, a, env, dontResume);
      NothingSent(link, d, pkg, kind, dontResume, r);
    }
  }

  lemma SelectReports(d: Device, pkg: seq<Octet>, kind: ObjType, a: Signal)
    requires Fits(d, pkg, kind, d.blockSize) && d.asked == Select(kind) && a == Ideal(d)
    requires Safe(Of(d, kind), pkg) && OneBurst(Of(d, kind).sent, Of(d, kind).received)
    ensures var held := Stored(Of(d, kind));
            && CodeOf(a) == SUCCESS && a.size == 15 && a.offset == |held| <= |pkg| && a.blockSize == d.blockSize
            && (Crc(pkg[..a.offset], None) == a.crc <==> held <= pkg)
  {
    hide Crc, OneBurst, Safe;
    var held := Stored(Of(d, kind));
    ChecksumDecides(Of(d, kind), pkg);
    assert held <= pkg <==> held == pkg[..|held|];
  }

  lemma SelectedOtherwise(pkg: seq<Octet>, kind: ObjType, mtu: nat, a: Signal, env: Env, dontResume: bool)
    requires mtu >= DEFAULT_MTU && CodeOf(a) == SUCCESS && a.size == 15 && a.offset <= |pkg| && a.blockSize > 0
    ensures var r := Selected(pkg, kind, mtu, a, env, dontResume);
            var kept := Crc(pkg[..a.offset], None) == a.crc && !(kind.Command? && dontResume);
            && (a.offset == 0 || (kind.Command? && !kept)
                ==> r == Begin(pkg, kind, mtu, a.blockSize, 0, env, dontResume))
            && (a.offset > 0 && (if kept then !Resumable(pkg, a) else kind.Data?) ==>
                r == Run([], Code(OPERATION_FAILED), env, true))
  {
  }

  lemma FreshStart(link: Link, d: Device, pkg: seq<Octet>, kind: ObjType, mtu: nat, env: Env, dontResume: bool)
    requires mtu >= DEFAULT_MTU && KeepsLength(link) && Fits(d, pkg, kind, d.blockSize)
    requires Safe(Of(d, kind), pkg) && |Stored(Of(d, kind))| <= |pkg|
    requires var held := Stored(Of(d, kind));
             |held| == 0 || (kind.Command? && !Kept(held, pkg, kind, dontResume))
    requires Always(link, d, Begin(pkg, kind, mtu, d.blockSize, 0, env, dontResume).log, Lawful)
    ensures Installs(link, d, pkg, kind, dontResume, Begin(pkg, kind, mtu, d.blockSize, 0, env, dontResume))
  {
    var o := Of(d, kind);
    var held := Stored(o);
    if |held| == 0 {
      assert o.committed == [] && o.received == [] && |o.sent| == 0;
      assert o == Obj([], [], []) && pkg[..0] == [];
    }
    BeginDelivers(link, d, pkg, kind, mtu, d.blockSize, 0, env, dontResume);
    DeliversInstalls(link, d, pkg, kind, dontResume, Begin(pkg, kind, mtu, d.blockSize, 0, env, dontResume), 0);
  }

  lemma ResumeInstalls(link: Link, d: Device, pkg: seq<Octet>, kind: ObjType, mtu: nat, a: Signal, env: Env,
                       dontResume: bool)
    requires mtu >= DEFAULT_MTU && KeepsLength(link) && Fits(d, pkg, kind, d.blockSize)
    requires Safe(Of(d, kind), pkg) && d.cur == kind && d.asked == Select(kind) && a == Ideal(d)
    requires var held := Stored(Of(d, kind));
             0 < |held| && Kept(held, pkg, kind, dontResume)
    requires Resumable(pkg, a)
    requires Always(link, d, Selected(pkg, kind, mtu, a, env, dontResume).log, Lawful)
    ensures Installs(link, d, pkg, kind, dontResume, Selected(pkg, kind, mtu, a, env, dontResume))
  {
    hide Safe, Installs, Delivers, Always, Resume, Selected, Pieces;
    var n := |Stored(Of(d, kind))|;
    assert Stored(Of(d, kind)) == pkg[..n];
    var r := Selected(pkg, kind, mtu, a, env, dontResume);
    ResumeIs(pkg, kind, mtu, a, env, dontResume);
    ResumeDelivers(link, d, pkg, kind, mtu, n, env, dontResume);
    DeliversInstalls(link, d, pkg, kind, dontResume, r, n);
  }

  /** The run that executes what is held and goes on behind it. */
  function Resume(pkg: seq<Octet>, kind: ObjType, mtu: nat, block: nat, n: nat, env: Env, dontResume: bool): Run
    requires mtu >= DEFAULT_MTU && n <= |pkg|
  {
    var e := Reply(env, Execute);
    var ex := Exchange(env, Execute);
    if CodeOf(e) != SUCCESS then Run(ex, Code(CodeOf(e)), Waited(env, Execute), true)
    else After(ex, Begin(pkg, kind, mtu, block, n, Waited(env, Execute), dontResume))
  }

  lemma ResumeIs(pkg: seq<Octet>, kind: ObjType, mtu: nat, a: Signal, env: Env, dontResume: bool)
    requires mtu >= DEFAULT_MTU && CodeOf(a) == SUCCESS && a.size == 15 && 0 < a.offset <= |pkg| && a.blockSize > 0
    requires Crc(pkg[..a.offset], None) == a.crc && !(kind.Command? && dontResume) && Resumable(pkg, a)
    ensures Selected(pkg, kind, mtu, a, env, dontResume)
            == Resume(pkg, kind, mtu, a.blockSize, a.offset, env, dontResume)
  {
  }

  lemma ResumeDelivers(link: Link, d: Device, pkg: seq<Octet>, kind: ObjType, mtu: nat, n: nat, env: Env,
                       dontResume: bool)
    requires mtu >= DEFAULT_MTU && KeepsLength(link) && Fits(d, pkg, kind, d.blockSize)
    requires Safe(Of(d, kind), pkg) && d.cur == kind
    requires 0 < n <= |pkg| && Stored(Of(d, kind)) == pkg[..n] && (n % d.blockSize == 0 || n == |pkg|)
    requires Always(link, d, Resume(pkg, kind, mtu, d.blockSize, n, env, dontResume).log, Lawful)
    ensures Delivers(link, d, pkg, kind, Resume(pkg, kind, mtu, d.blockSize, n, env, dontResume),
                     Pieces(|pkg| - n, d.blockSize))
  {
    var ex := Exchange(env, Execute);
    var env1 := Waited(env, Execute);
    var block := d.blockSize;
    if kind.Command? {
      WholeBlockOnly(n, |pkg|, block);
    }
    if CodeOf(Reply(env, Execute)) == SUCCESS {
      var rest := Begin(pkg, kind, mtu, block, n, env1, dontResume);
      Compose(link, d, ex, rest.log, Lawful);
      BlockExecuted(link, d, pkg, kind, env, n);
      assert pkg[..|pkg|] == pkg;
      BeginDelivers(link, Observe(link, d, ex), pkg, kind, mtu, block, n, env1, dontResume);
      Prepend(link, d, pkg, kind, ex, rest, Pieces(|pkg| - n, block), Pieces(|pkg| - n, block));
    } else {
      BlockExecuted(link, d, pkg, kind, env, n);
    }
  }

  lemma WholeBlockOnly(n: nat, len: nat, block: nat)
    requires 0 < n <= len <= block
    ensures n % block == 0 ==> n == len
  {
  }

  /** The bound on the rounds in the form len, resume point and block size give. */
  lemma RoundsBounded(link: Link, d: Device, pkg: seq<Octet>, kind: ObjType, mtu: nat, env: Env, dontResume: bool)
    requires mtu >= DEFAULT_MTU && KeepsLength(link) && Fits(d, pkg, kind, d.blockSize)
    requires Safe(Of(d, kind), pkg)
    requires Always(link, d, SendPackage(pkg, kind, mtu, env, dontResume).log, Lawful)
    ensures var d' := Observe(link, d, SendPackage(pkg, kind, mtu, env, dontResume).log);
            var left := |pkg| - ResumePoint(Stored(Of(d, kind)), pkg, kind, dontResume);
            d'.rounds - d.rounds <= (left + d.blockSize - 1) / d.blockSize + (d'.damaged - d.damaged)
  {
    PackageInstalled(link, d, pkg, kind, mtu, env, dontResume);
    PiecesIsCeiling(|pkg| - ResumePoint(Stored(Of(d, kind)), pkg, kind, dontResume), d.blockSize);
  }
}
