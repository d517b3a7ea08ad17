/** What dfuSendPackage keeps to whatever the other side answers. An auditor reads the log
    of a run and knows nothing but the package. */
module DfuAudit {
  import opened Arith
  import opened Wrappers
  import opened Crc32
  import opened DfuHost

  datatype Auditor = Auditor(
    asked: Option<Request>,
    block: nat,             // the block size of the response to Select
    vouched: Option<nat>,   // the offset of the last report, if its checksum is that of the package up to there
    acked: Option<nat>,     // the offset vouched for by the last Execute that was acknowledged
    executesSound: bool,    // so far every Execute came after such a report
    created: nat,           // the size in the last Create
    report: nat,            // the offset of the last Checksum response
    retry: bool,            // no Execute has been sent since that response
    send: nat,              // the offset at the last loop head
    forward: bool,          // so far these offsets never went back
    sizesRight: bool,       // so far every object streamed has the size it was created with
    retriesRoomy: bool)     // so far, at every retry, a whole segment lies behind the reported offset

  const FRESH := Auditor(None, 0, None, None, true, 0, 0, false, 0, true, true, true)

  /** The number of bytes a pass that starts at `offset` streams. */
  function SegmentAt(pkg: seq<Octet>, block: nat, offset: nat): nat {
    if offset <= |pkg| then Segment(pkg, block, offset) else 0
  }

  function Vouch(pkg: seq<Octet>, s: Signal): Option<nat>
    requires s.Notify?
  {
    if 0 < s.offset <= |pkg| && Crc(pkg[..s.offset], None) == s.crc then Some(s.offset) else None
  }

  function Watch(pkg: seq<Octet>, w: Auditor, e: Event): Auditor {
    match e
    case Sent(r) =>
      var w1 := w.(asked := Some(r));
      if r.Execute? then w1.(executesSound := w.executesSound && w.vouched.Some?, retry := false)
      else if r.Create? then w1.(created := r.size)
      else w1
    case Answer(s) =>
      if CodeOf(s) != SUCCESS || w.asked.None? then w
      else if w.asked.value.Select? then w.(block := s.blockSize, vouched := Vouch(pkg, s))
      else if w.asked.value.Checksum? then w.(report := s.offset, retry := true, vouched := Vouch(pkg, s))
      else if w.asked.value.Execute? then w.(acked := w.vouched)
      else w
    case Sending(offset) =>
      var n := SegmentAt(pkg, w.block, offset);
      w.(send := offset, forward := w.forward && offset >= w.send,
         sizesRight := w.sizesRight && w.created == n,
         retriesRoomy := w.retriesRoomy && (w.retry ==> |pkg| - w.report >= n))
    case Packet(_) => w
    case PacketRefused => w
  }

  function Audit(pkg: seq<Octet>, w: Auditor, log: seq<Event>): Auditor
    decreases |log|
  {
    if |log| == 0 then w else Audit(pkg, Watch(pkg, w, log[0]), log[1..])
  }

  lemma {:induction false} AuditAppend(pkg: seq<Octet>, w: Auditor, a: seq<Event>, b: seq<Event>)
    ensures Audit(pkg, w, a + b) == Audit(pkg, Audit(pkg, w, a), b)
    decreases |a|
  {
    if |a| == 0 {
      assert a + b == b;
    } else {
      assert (a + b)[0] == a[0] && (a + b)[1..] == a[1..] + b;
      AuditAppend(pkg, Watch(pkg, w, a[0]), a[1..], b);
    }
  }

  lemma ExchangeAudited(pkg: seq<Octet>, w: Auditor, r: Request, s: Signal)
    ensures Audit(pkg, w, [Sent(r), Answer(s)]) == Watch(pkg, Watch(pkg, w, Sent(r)), Answer(s))
  {
    var w1 := Watch(pkg, w, Sent(r));
    assert [Sent(r), Answer(s)][1..] == [Answer(s)];
    assert Audit(pkg, w1, [Answer(s)]) == Watch(pkg, w1, Answer(s)) by {
      assert [Answer(s)][1..] == [];
    }
  }

  lemma {:induction false} StreamAudited(pkg: seq<Octet>, w: Auditor, bytes: seq<Octet>, payload: nat, packets: nat)
    requires payload > 0
    ensures Audit(pkg, w, Stream(bytes, payload, packets).log) == w
    decreases |bytes|
  {
    var log := Stream(bytes, payload, packets).log;
    if |bytes| > 0 {
      if packets == 0 {
        assert log[1..] == [];
      } else {
        var n := Min(payload, |bytes|);
        assert log[1..] == Stream(bytes[n..], payload, packets - 1).log;
        StreamAudited(pkg, w, bytes[n..], payload, packets - 1);
      }
    }
  }

  /** What the auditor can certify at any point of a run. */
  ghost predicate Clean(w: Auditor) {
    w.executesSound && (w.forward ==> w.sizesRight == w.retriesRoomy)
  }

  /** At a loop head, with these values of the source's variables: the size of the object is
      right exactly if this is no retry or there is room for one. */
  ghost predicate Ready(w: Auditor, pkg: seq<Octet>, block: nat, send: nat, size: nat) {
    && Clean(w) && w.block == block && w.created == size && send < |pkg|
    && (w.forward && send >= w.send && w.sizesRight ==>
        var n := SegmentAt(pkg, block, send);
        (size == n <==> (w.retry ==> |pkg| - w.report >= n)))
  }

  ghost predicate Certified(w: Auditor, pkg: seq<Octet>, block: nat, p: Pass) {
    var w' := Audit(pkg, w, p.log);
    && Clean(w') && w'.block == block
    && (p.next == Stop(Code(SUCCESS)) ==> w'.acked == Some(|pkg|))
    && (p.next.Again? ==> Ready(w', pkg, block, p.next.send, p.next.size))
  }

  lemma OpenCertified(w: Auditor, pkg: seq<Octet>, block: nat, kind: ObjType, send: nat, size: nat, env: Env)
    requires Ready(w.(created := size), pkg, block, send, size)
    ensures Certified(w, pkg, block, OpenNext(kind, send, size, env))
  {
    ExchangeAudited(pkg, w, Create(kind, size), Reply(env, Create(kind, size)));
  }

  /** The auditor has just read the checksum response a of the pass at `send`. */
  ghost predicate Informed(w: Auditor, pkg: seq<Octet>, block: nat, send: nat, size: nat, a: Signal) {
    && Clean(w) && w.block == block && send < |pkg| && w.send == send
    && (w.forward && w.sizesRight ==> size == SegmentAt(pkg, block, send))
    && (CodeOf(a) == SUCCESS ==> w.report == a.offset && w.retry && w.vouched == Vouch(pkg, a))
  }

  lemma SettleCertified(w: Auditor, pkg: seq<Octet>, block: nat, kind: ObjType, send: nat, size: nat, a: Signal,
                        env: Env)
    requires Informed(w, pkg, block, send, size, a)
    ensures Certified(w, pkg, block, Settle(pkg, kind, send, size, a, env))
  {
    hide Audit, Crc, OpenNext, Waited;
    AuditNothing(pkg, w);
    if CodeOf(a) == SUCCESS && a.size == 11 && 0 < a.offset <= |pkg| {
      var size' := Min(size, |pkg| - a.offset);
      if w.vouched.None? {
        OpenCertified(w, pkg, block, kind, send, size', env);
      } else {
        var e := Reply(env, Execute);
        ExchangeAudited(pkg, w, Execute, e);
        if CodeOf(e) == SUCCESS && a.offset < |pkg| {
          var w1 := Audit(pkg, w, Exchange(env, Execute));
          var env1 := Waited(env, Execute);
          OpenCertified(w1, pkg, block, kind, a.offset, size', env1);
          AuditAppend(pkg, w, Exchange(env, Execute), OpenNext(kind, a.offset, size', env1).log);
        }
      }
    }
  }

  lemma PassCertified(w: Auditor, pkg: seq<Octet>, kind: ObjType, mtu: nat, block: nat, send: nat, size: nat, env: Env)
    requires mtu >= DEFAULT_MTU && Ready(w, pkg, block, send, size)
    ensures Certified(w, pkg, block, OnePass(pkg, kind, mtu, block, send, size, env))
  {
    hide Audit, Settle, Stream, Crc;
    var s := Stream(Due(pkg, block, send), Payload(mtu), env.packets);
    var env1 := env.(packets := s.packets);
    var w1 := Watch(pkg, w, Sending(send));
    var head := [Sending(send)] + s.log;
    AuditCons(pkg, w, Sending(send), s.log);
    StreamAudited(pkg, w1, Due(pkg, block, send), Payload(mtu), env.packets);
    if s.ok {
      var ex := Exchange(env1, Checksum);
      var a := Reply(env1, Checksum);
      var rest := Settle(pkg, kind, send, size, a, Waited(env1, Checksum));
      ExchangeAudited(pkg, w1, Checksum, a);
      AuditAppend(pkg, w, head, ex);
      AuditAppend(pkg, w, head + ex, rest.log);
      SettleCertified(Audit(pkg, w1, ex), pkg, block, kind, send, size, a, Waited(env1, Checksum));
    }
  }

  lemma {:induction false} DriveCertified(w: Auditor, pkg: seq<Octet>, kind: ObjType, mtu: nat, block: nat, p: Pass,
                                          dontResume: bool)
    requires mtu >= DEFAULT_MTU && Certified(w, pkg, block, p)
    ensures var r := Drive(pkg, kind, mtu, block, p, dontResume);
            var w' := Audit(pkg, w, r.log);
            Clean(w') && w'.block == block && (r.outcome == Code(SUCCESS) ==> w'.acked == Some(|pkg|))
    decreases p.next.Again?, |p.env.signals|
  {
    if p.next.Again? {
      var w1 := Audit(pkg, w, p.log);
      var q := OnePass(pkg, kind, mtu, block, p.next.send, p.next.size, p.env);
      PassCertified(w1, pkg, kind, mtu, block, p.next.send, p.next.size, p.env);
      DriveCertified(w1, pkg, kind, mtu, block, q, dontResume);
      AuditAppend(pkg, w, p.log, Drive(pkg, kind, mtu, block, q, dontResume).log);
    }
  }

  lemma BeginCertified(w: Auditor, pkg: seq<Octet>, kind: ObjType, mtu: nat, block: nat, send: nat, env: Env,
                       dontResume: bool)
    requires mtu >= DEFAULT_MTU && send <= |pkg| && Clean(w) && w.block == block && w.send == 0 && !w.retry
    requires if send == 0 then w.acked == None else w.acked == Some(send)
    requires send > 0 ==> block > 0
    ensures var r := Begin(pkg, kind, mtu, block, send, env, dontResume);
            var w' := Audit(pkg, w, r.log);
            && Clean(w')
            && (r.outcome == Code(SUCCESS) ==> (w'.acked == Some(|pkg|) <==> |pkg| > 0 && w'.block > 0))
  {
    var size := Min(Min(|pkg|, block), |pkg| - send);
    if size > 0 {
      OpenCertified(w, pkg, block, kind, send, size, env);
      DriveCertified(w, pkg, kind, mtu, block, OpenNext(kind, send, size, env), dontResume);
    }
  }

  /** For every sequence of signals. Each Execute follows a report whose checksum is that of
      the package up to the reported offset. A successful call had the whole package
      acknowledged, except exactly when there is nothing to send or the block size is 0:
      then it sends nothing at all. And on runs whose offsets never go back, every object
      is created with the size that is then streamed exactly if at every retry at least
      one whole segment of the package lies behind the reported offset. */
  lemma PackageCertified(pkg: seq<Octet>, kind: ObjType, mtu: nat, env: Env, dontResume: bool)
    requires mtu >= DEFAULT_MTU
    ensures var r := SendPackage(pkg, kind, mtu, env, dontResume);
            var w := Audit(pkg, FRESH, r.log);
            && w.executesSound
            && (w.forward ==> (w.sizesRight <==> w.retriesRoomy))
            && (r.outcome == Code(SUCCESS) ==> (w.acked == Some(|pkg|) <==> |pkg| > 0 && w.block > 0))
  {
    var a := Reply(env, Select(kind));
    var ex := Exchange(env, Select(kind));
    var env1 := Waited(env, Select(kind));
    var rest := Selected(pkg, kind, mtu, a, env1, dontResume);
    var w := Audit(pkg, FRESH, ex);
    ExchangeAudited(pkg, FRESH, Select(kind), a);
    AuditAppend(pkg, FRESH, ex, rest.log);
    SelectedCertified(w, pkg, kind, mtu, a, env1, dontResume);
  }

  lemma AuditCons(pkg: seq<Octet>, w: Auditor, e: Event, rest: seq<Event>)
    ensures Audit(pkg, w, [e] + rest) == Audit(pkg, Watch(pkg, w, e), rest)
  {
    hide Watch;
    assert ([e] + rest)[1..] == rest;
  }

  lemma AuditNothing(pkg: seq<Octet>, w: Auditor)
    ensures Audit(pkg, w, []) == w
  {
  }

  lemma SelectedCertified(w: Auditor, pkg: seq<Octet>, kind: ObjType, mtu: nat, a: Signal, env: Env, dontResume: bool)
    requires mtu >= DEFAULT_MTU && Clean(w) && w.send == 0 && !w.retry && w.acked == None
    requires CodeOf(a) == SUCCESS ==> w.block == a.blockSize && w.vouched == Vouch(pkg, a)
    ensures var r := Selected(pkg, kind, mtu, a, env, dontResume);
            var w' := Audit(pkg, w, r.log);
            && Clean(w')
            && (r.outcome == Code(SUCCESS) ==> (w'.acked == Some(|pkg|) <==> |pkg| > 0 && w'.block > 0))
  {
    hide Audit, Begin, Crc, Ready, Certified;
    AuditNothing(pkg, w);
    if CodeOf(a) != SUCCESS || a.size != 15 || a.offset > |pkg| {
      assert Audit(pkg, w, []) == w;
    } else if w.vouched.None? || (kind.Command? && dontResume) {
      if a.offset == 0 || kind.Command? {
        BeginCertified(w, pkg, kind, mtu, a.blockSize, 0, env, dontResume);
      }
    } else if a.blockSize > 0 && Resumable(pkg, a) {
      var e := Reply(env, Execute);
      var env1 := Waited(env, Execute);
      ExchangeAudited(pkg, w, Execute, e);
      if CodeOf(e) == SUCCESS {
        var w1 := Audit(pkg, w, Exchange(env, Execute));
        BeginCertified(w1, pkg, kind, mtu, a.blockSize, a.offset, env1, dontResume);
        AuditAppend(pkg, w, Exchange(env, Execute), Begin(pkg, kind, mtu, a.blockSize, a.offset, env1, dontResume).log);
      }
    }
  }

  /** A retry of the last segment is such a case: with the offset at the end of the package
      the source asks for an object of size 0. */
  lemma LastSegmentRetryAsksForNothing(pkg: seq<Octet>, kind: ObjType, send: nat, size: nat, a: Signal, env: Env)
    requires send < |pkg| && CodeOf(a) == SUCCESS && a.size == 11 && a.offset == |pkg|
    requires Crc(pkg, None) != a.crc
    ensures Settle(pkg, kind, send, size, a, env).log[0] == Sent(Create(kind, 0))
  {
    assert pkg[..a.offset] == pkg;
  }

  // ---- the packets of one block

  /** The chunks of a block are not empty, fit one write command at this MTU, and are as few
      as can be; put together they are the block. */
  lemma ChunksOfBlock(bytes: seq<Octet>, mtu: nat, packets: nat)
    requires DEFAULT_MTU <= mtu <= MAX_MTU
    ensures var s := Stream(bytes, Payload(mtu), packets);
            var chunks := (|bytes| + mtu - 4) / (mtu - 3);
            && (s.ok <==> chunks <= packets)
            && (s.ok ==> |s.log| == chunks && Joined(s.log) == bytes)
            && (forall e :: e in s.log && e.Packet? ==> 0 < |e.bytes| && 1 + 2 + |e.bytes| <= mtu)
  {
    ChunksCounted(bytes, Payload(mtu), packets);
    PiecesIsCeiling(|bytes|, Payload(mtu));
  }

  lemma {:induction false} ChunksCounted(bytes: seq<Octet>, payload: nat, packets: nat)
    requires payload > 0
    ensures var s := Stream(bytes, payload, packets);
            var chunks := Pieces(|bytes|, payload);
            && (s.ok <==> chunks <= packets)
            && (s.ok ==> |s.log| == chunks && Joined(s.log) == bytes)
            && (forall e :: e in s.log && e.Packet? ==> 0 < |e.bytes| <= payload)
    decreases |bytes|
  {
    if |bytes| > 0 && packets > 0 {
      var n := Min(payload, |bytes|);
      ChunksCounted(bytes[n..], payload, packets - 1);
      var rest := Stream(bytes[n..], payload, packets - 1);
      var log := Stream(bytes, payload, packets).log;
      assert log[0] == Packet(bytes[..n]) && log[1..] == rest.log;
      assert bytes == bytes[..n] + bytes[n..];
    }
  }

  function Joined(log: seq<Event>): seq<Octet> {
    if |log| == 0 then [] else (if log[0].Packet? then log[0].bytes else []) + Joined(log[1..])
  }
}
