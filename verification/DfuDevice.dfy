/** The other half of the update protocol, and what the two halves achieve together: with
    a link that damages each block by at most one short burst, the device ends up with the
    package, and no more rounds are spent than blocks plus damaged blocks. */
module DfuDevice {
  import opened Arith
  import opened Wrappers
  import opened Crc32
  import opened CrcTheory
  import opened DfuHost

  /** One object: the executed bytes, the bytes that arrived since, and the bytes the host
      had sent for those. */
  datatype Obj = Obj(committed: seq<Octet>, received: seq<Octet>, sent: seq<Octet>)

  datatype Device = Device(
    blockSize: U32,
    cur: ObjType,
    command: Obj,
    data: Obj,
    asked: Request,
    packets: nat,      // packets seen so far
    rounds: nat,       // Checksum requests seen so far
    damaged: nat)      // those that found received != sent

  /** What the link delivers for the n-th packet. */
  type Link = (nat, seq<Octet>) -> seq<Octet>

  ghost predicate KeepsLength(link: Link) {
    forall n: nat, b: seq<Octet> :: |link(n, b)| == |b|
  }

  function Of(d: Device, kind: ObjType): Obj {
    if kind.Command? then d.command else d.data
  }

  function With(d: Device, kind: ObjType, o: Obj): Device {
    if kind.Command? then d.(command := o) else d.(data := o)
  }

  function Other(kind: ObjType): ObjType {
    if kind.Command? then Data else Command
  }

  function Stored(o: Obj): seq<Octet> { o.committed + o.received }

  /** The response of a device that accepts the request. */
  function Ideal(d: Device): Signal {
    match d.asked
    case Select(kind) =>
      Notify(OP_SELECT, SUCCESS, 15, d.blockSize, |Stored(Of(d, kind))| % 0x1_0000_0000, Crc(Stored(Of(d, kind)), None))
    case Checksum =>
      Notify(OP_CHECKSUM, SUCCESS, 11, 0, |Stored(Of(d, d.cur))| % 0x1_0000_0000, Crc(Stored(Of(d, d.cur)), None))
    case Create(_, _) => Notify(OP_CREATE, SUCCESS, 3, 0, 0, ZERO)
    case Execute => Notify(OP_EXECUTE, SUCCESS, 3, 0, 0, ZERO)
  }

  /** What an accepted request does. Create discards what is not executed, and for the
      command object also what is; it does not enforce the size it is given. */
  function Effect(d: Device): Device {
    match d.asked
    case Select(kind) => d.(cur := kind)
    case Checksum => d
    case Create(kind, _) =>
      With(d.(cur := kind), kind, Obj(if kind.Command? then [] else Of(d, kind).committed, [], []))
    case Execute => With(d, d.cur, Obj(Stored(Of(d, d.cur)), [], []))
  }

  function React(link: Link, d: Device, e: Event): Device {
    match e
    case Sending(_) => d
    case PacketRefused => d
    case Sent(r) =>
      if r.Checksum? then
        var o := Of(d, d.cur);
        d.(asked := r, rounds := d.rounds + 1, damaged := d.damaged + if o.received == o.sent then 0 else 1)
      else d.(asked := r)
    case Answer(s) => if CodeOf(s) == SUCCESS then Effect(d) else d
    case Packet(bytes) =>
      var o := Of(d, d.cur);
      With(d.(packets := d.packets + 1), d.cur,
           o.(received := o.received + link(d.packets, bytes), sent := o.sent + bytes))
  }

  function Observe(link: Link, d: Device, log: seq<Event>): Device
    decreases |log|
  {
    if |log| == 0 then d else Observe(link, React(link, d, log[0]), log[1..])
  }

  type Test = (Device, Event) -> bool

  /** test holds of every event together with the device just before it. */
  ghost predicate Always(link: Link, d: Device, log: seq<Event>, test: Test)
    decreases |log|
  {
    |log| == 0 || (test(d, log[0]) && Always(link, React(link, d, log[0]), log[1..], test))
  }

  /** The device may refuse anything and the link may die, but an accepted request is
      answered as Ideal says; and whenever a checksum is asked for, what arrived since the
      last Create is what was sent with at most one burst of damage. */
  ghost predicate Lawful(d: Device, e: Event) {
    match e
    case Answer(s) => CodeOf(s) == SUCCESS ==> s == Ideal(d)
    case Sent(Checksum) => OneBurst(Of(d, d.cur).sent, Of(d, d.cur).received)
    case Sent(Select(kind)) => OneBurst(Of(d, kind).sent, Of(d, kind).received)
    case _ => true
  }

  ghost function HeadTest(pkg: seq<Octet>, kind: ObjType): Test {
    (d: Device, e: Event) =>
      e.Sending? ==> e.offset <= |pkg| && Of(d, kind).committed == pkg[..e.offset]
  }

  predicate Bad(e: Event) {
    e.PacketRefused? || (e.Answer? && CodeOf(e.signal) != SUCCESS)
  }

  /** Something in the log was refused, lost, or cut off. */
  ghost predicate Trouble(log: seq<Event>) {
    exists i :: 0 <= i < |log| && Bad(log[i])
  }

  lemma {:induction false} Compose(link: Link, d: Device, a: seq<Event>, b: seq<Event>, test: Test)
    ensures Observe(link, d, a + b) == Observe(link, Observe(link, d, a), b)
    ensures Always(link, d, a + b, test) <==>
            Always(link, d, a, test) && Always(link, Observe(link, d, a), b, test)
    decreases |a|
  {
    if |a| == 0 {
      assert a + b == b;
    } else {
      assert (a + b)[0] == a[0] && (a + b)[1..] == a[1..] + b;
      Compose(link, React(link, d, a[0]), a[1..], b, test);
    }
  }

  lemma TroubleAppend(a: seq<Event>, b: seq<Event>)
    ensures Trouble(a + b) <==> Trouble(a) || Trouble(b)
  {
    forall i | 0 <= i < |a + b| && Bad((a + b)[i])
      ensures Trouble(a) || Trouble(b)
    {
      assert if i < |a| then Bad(a[i]) else Bad(b[i - |a|]);
    }
    if Trouble(a) {
      var i :| 0 <= i < |a| && Bad(a[i]);
      assert Bad((a + b)[i]);
    }
    if Trouble(b) {
      var i :| 0 <= i < |b| && Bad(b[i]);
      assert Bad((a + b)[|a| + i]);
    }
  }

  lemma First(link: Link, d: Device, e: Event, rest: seq<Event>, test: Test)
    ensures Observe(link, d, [e] + rest) == Observe(link, React(link, d, e), rest)
    ensures Always(link, d, [e] + rest, test) <==> test(d, e) && Always(link, React(link, d, e), rest, test)
    ensures Trouble([e] + rest) <==> Bad(e) || Trouble(rest)
  {
    assert ([e] + rest)[1..] == rest;
    TroubleAppend([e], rest);
    assert [e][0] == e;
  }

  /** A request and its answer, seen by the device. */
  lemma ExchangeObserved(link: Link, d: Device, r: Request, s: Signal, test: Test)
    ensures var log := [Sent(r), Answer(s)];
            && Observe(link, d, log) == React(link, React(link, d, Sent(r)), Answer(s))
            && (Always(link, d, log, test) <==>
                test(d, Sent(r)) && test(React(link, d, Sent(r)), Answer(s)))
            && (Trouble(log) <==> CodeOf(s) != SUCCESS)
  {
    var log := [Sent(r), Answer(s)];
    assert log == [Sent(r)] + ([Answer(s)] + []);
    First(link, d, Sent(r), [Answer(s)] + [], test);
    First(link, React(link, d, Sent(r)), Answer(s), [], test);
  }

  // ---- a burst behind an intact prefix

  lemma {:induction false} BitsAppend(x: seq<Octet>, y: seq<Octet>)
    ensures Bits(x + y) == Bits(x) + Bits(y)
    decreases |x|
  {
    if |x| == 0 {
      assert x + y == y;
    } else {
      assert (x + y)[0] == x[0] && (x + y)[1..] == x[1..] + y;
      BitsAppend(x[1..], y);
    }
  }

  lemma WindowShifts(head: seq<bool>, x: seq<bool>, y: seq<bool>, k: nat, w: nat)
    requires WithinWindow(x, y, k, w)
    ensures WithinWindow(head + x, head + y, |head| + k, w)
  {
    var a, b, k' := head + x, head + y, |head| + k;
    assert a[..k'] == head + x[..k];
    assert b[..k'] == head + y[..k];
    assert a[k' + w..] == x[k + w..];
    assert b[k' + w..] == y[k + w..];
  }

  lemma BurstBehindPrefix(head: seq<Octet>, x: seq<Octet>, y: seq<Octet>)
    requires OneBurst(x, y)
    ensures Crc(head + x, None) == Crc(head + y, None) <==> x == y
  {
    hide Crc, Bits, WithinWindow;
    var k: nat, w: nat :| w <= 32 && WithinWindow(Bits(x), Bits(y), k, w);
    BitsAppend(head, x);
    BitsAppend(head, y);
    WindowShifts(Bits(head), Bits(x), Bits(y), k, w);
    BurstAlwaysDetected(head + x, head + y, None);
    SamePrefix(head, x, y);
  }

  lemma SamePrefix(head: seq<Octet>, x: seq<Octet>, y: seq<Octet>)
    ensures head + x == head + y <==> x == y
  {
    assert (head + x)[|head|..] == x && (head + y)[|head|..] == y;
  }

  // ---- one block on the air

  /** d' is d after k of the bytes went out. */
  ghost predicate Arrived(d: Device, d': Device, bytes: seq<Octet>, k: nat) {
    var o, o' := Of(d, d.cur), Of(d', d.cur);
    && k <= |bytes|
    && d' == With(d.(packets := d'.packets), d.cur, o')
    && o'.committed == o.committed && o'.sent == o.sent + bytes[..k]
    && |o'.received| == |o.received| + k
  }

  lemma PacketArrives(link: Link, d: Device, bytes: seq<Octet>, n: nat, d': Device, k: nat)
    requires KeepsLength(link) && n <= |bytes|
    requires Arrived(React(link, d, Packet(bytes[..n])), d', bytes[n..], k)
    ensures Arrived(d, d', bytes, n + k)
  {
    var d1 := React(link, d, Packet(bytes[..n]));
    var o, o1 := Of(d, d.cur), Of(d1, d.cur);
    assert |link(d.packets, bytes[..n])| == n;
    assert |o1.received| == |o.received| + n;
    assert o.sent + bytes[..n] + bytes[n..][..k] == o.sent + bytes[..n + k];
  }

  lemma NothingArrives(link: Link, d: Device, bytes: seq<Octet>, test: Test)
    ensures Arrived(d, Observe(link, d, []), bytes, 0) && Always(link, d, [], test)
  {
  }

  lemma RefusalArrives(link: Link, d: Device, bytes: seq<Octet>, test: Test)
    requires forall d': Device, e: Event :: e.PacketRefused? ==> test(d', e)
    ensures Arrived(d, Observe(link, d, [PacketRefused]), bytes, 0) && Always(link, d, [PacketRefused], test)
  {
    First(link, d, PacketRefused, [], test);
    assert [PacketRefused] + [] == [PacketRefused];
  }

  lemma {:induction false} StreamObserved(link: Link, d: Device, bytes: seq<Octet>, payload: nat, packets: nat,
                                          test: Test)
    returns (k: nat)
    requires KeepsLength(link) && payload > 0
    requires forall d': Device, e: Event :: e.Packet? || e.PacketRefused? ==> test(d', e)
    ensures var s := Stream(bytes, payload, packets);
            && Arrived(d, Observe(link, d, s.log), bytes, k)
            && (s.ok ==> k == |bytes|) && (s.ok <==> !Trouble(s.log))
            && Always(link, d, s.log, test)
    decreases |bytes|
  {
    hide Observe, Always, Arrived, React, KeepsLength;
    if |bytes| == 0 {
      k := 0;
      NothingArrives(link, d, bytes, test);
    } else if packets == 0 {
      k := 0;
      RefusalArrives(link, d, bytes, test);
    } else {
      var n := Min(payload, |bytes|);
      var e := Packet(bytes[..n]);
      var d1 := React(link, d, e);
      k := StreamObserved(link, d1, bytes[n..], payload, packets - 1, test);
      var rest := Stream(bytes[n..], payload, packets - 1);
      First(link, d, e, rest.log, test);
      PacketArrives(link, d, bytes, n, Observe(link, d1, rest.log), k);
      k := n + k;
    }
  }
}
