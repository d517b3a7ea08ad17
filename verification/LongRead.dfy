/** Long reads of bluez/gatt-client.c: blobs are asked for until one is shorter than the MTU
    allows, is empty, or the longest possible value is complete. */
module LongRead {
  import opened Pdus
  import opened Arith

  const READ_BLOB_RSP := 0x0D
  const MAX_VALUE := 512
  const MIN_MTU := 23

  /** Undefined: more is copied from a blob than it has. */
  datatype Outcome = Pending | Done(success: bool, ecode: int) | Undefined

  /** The next blob is asked for at `offset`. */
  datatype ReadOp = ReadOp(offset: int, data: seq<int>, outcome: Outcome)

  function Start(offset: int): ReadOp { ReadOp(offset, [], Pending) }

  /** append_chunk: what exceeds the longest value is dropped, in 16 bits. */
  function Append(op: ReadOp, chunk: seq<int>): ReadOp {
    var n := if op.offset + |chunk| > MAX_VALUE then (MAX_VALUE - op.offset) % 0x1_0000 else |chunk|;
    if n > |chunk| then op.(outcome := Undefined)
    else op.(data := op.data + chunk[..n], offset := (op.offset + n) % 0x1_0000)
  }

  /** read_long_cb, with the MTU of that moment; sent says whether the next request goes out. */
  function OnBlob(op: ReadOp, mtu: int, opcode: int, pdu: seq<int>, sent: bool): ReadOp {
    if opcode == ERROR_RSP then op.(outcome := Done(false, ProcessError(pdu)))
    else if opcode != READ_BLOB_RSP then op.(outcome := Done(false, 0))
    else if |pdu| == 0 then op.(outcome := Done(true, 0))
    else
      var next := Append(op, pdu);
      if next.outcome.Undefined? then next
      else if next.offset >= MAX_VALUE then next.(outcome := Done(true, 0))
      else if |pdu| >= mtu - 1 then (if sent then next else next.(outcome := Done(false, 0)))
      else next.(outcome := Done(true, 0))
  }

  // ---- the server

  datatype Reply = Reply(opcode: int, pdu: seq<int>)

  /** A server with this value and this MTU. */
  function Blob(value: seq<int>, offset: int, mtu: int): Reply
    requires 0 <= offset && mtu >= 1
  {
    if offset > |value| then Reply(0x01, [0x0C, 0, 0, 0x07])
    else Reply(0x0D, value[offset..Least(offset + mtu - 1, |value|)])
  }

  /** The MTU that the server and the client go by when a blob is answered, and whether the
      request for the next one goes out. */
  datatype Round = Round(server: int, client: int, sent: bool)

  function Step(op: ReadOp, value: seq<int>, m: Round): ReadOp
    requires 0 <= op.offset && m.server >= 1
  {
    if !op.outcome.Pending? then op
    else
      var reply := Blob(value, op.offset, m.server);
      OnBlob(op, m.client, reply.opcode, reply.pdu, m.sent)
  }

  /** What a complete read from this offset has to deliver. */
  function Wanted(value: seq<int>, from: int): seq<int>
    requires 0 <= from <= Least(|value|, 512)
  {
    value[from..Least(|value|, 512)]
  }

  predicate Good(op: ReadOp, value: seq<int>, from: int) {
    && 0 <= from <= op.offset <= Least(|value|, MAX_VALUE)
    && op.data == value[from..op.offset]
    && !op.outcome.Undefined? && (op.outcome.Done? && op.outcome.success ==> op.offset == Least(|value|, MAX_VALUE))
  }

  lemma NextSlice(value: seq<int>, from: int, at: int, end: int, n: int)
    requires 0 <= from <= at <= end <= |value| && 0 <= n <= end - at
    ensures value[from..at] + value[at..end][..n] == value[from..at + n]
  {
  }

  /** Below 512 nothing wraps around. */
  lemma AppendBelow(op: ReadOp, chunk: seq<int>)
    requires 0 <= op.offset <= MAX_VALUE
    ensures var n := Least(MAX_VALUE - op.offset, |chunk|);
            Append(op, chunk) == op.(data := op.data + chunk[..n], offset := op.offset + n)
  {
  }

  /** One blob: the data stay a part of the value without gaps, and the client stops exactly
      when it has everything, as long as it does not expect longer blobs than the server
      sends. */
  lemma StepGood(op: ReadOp, value: seq<int>, from: int, m: Round)
    requires Good(op, value, from) && m.server >= m.client >= MIN_MTU
    ensures Good(Step(op, value, m), value, from)
    ensures var r := Step(op, value, m);
            op.outcome.Pending? && r.outcome.Pending? ==> r.offset >= op.offset + m.client - 1
  {
    hide Append;
    if op.outcome.Pending? {
      var end := Least(op.offset + m.server - 1, |value|);
      var chunk := value[op.offset..end];
      if |chunk| > 0 {
        var n := if op.offset + |chunk| > MAX_VALUE then MAX_VALUE - op.offset else |chunk|;
        NextSlice(value, from, op.offset, end, n);
        AppendBelow(op, chunk);
      }
    }
  }

  /** If the client expects longer blobs than the server sends, it stops too early exactly
      when the server's blob is full and more is to come: a value is cut short. */
  lemma StopsEarlyExactly(op: ReadOp, value: seq<int>, from: int, m: Round)
    requires Good(op, value, from) && op.outcome.Pending? && m.server >= MIN_MTU
    ensures var r := Step(op, value, m);
            r.outcome.Done? && r.outcome.success && r.offset < Least(|value|, MAX_VALUE)
            <==> m.server < m.client && op.offset + m.server - 1 < Least(|value|, MAX_VALUE)
  {
  }

  function Run(op: ReadOp, value: seq<int>, from: int, ms: seq<Round>): ReadOp
    requires Good(op, value, from) && forall i :: 0 <= i < |ms| ==> ms[i].server >= ms[i].client >= MIN_MTU
    decreases |ms|
  {
    if |ms| == 0 then op
    else
      StepGood(op, value, from, ms[0]);
      assert forall i :: 0 <= i < |ms[1..]| ==> ms[1..][i] == ms[i + 1];
      Run(Step(op, value, ms[0]), value, from, ms[1..])
  }

  lemma {:induction false} RunGood(op: ReadOp, value: seq<int>, from: int, ms: seq<Round>)
    requires Good(op, value, from) && forall i :: 0 <= i < |ms| ==> ms[i].server >= ms[i].client >= MIN_MTU
    ensures var r := Run(op, value, from, ms);
            Good(r, value, from) && (r.outcome.Pending? ==> r.offset >= op.offset + (MIN_MTU - 1) * |ms|)
    decreases |ms|
  {
    hide Blob, OnBlob;
    if |ms| > 0 {
      StepGood(op, value, from, ms[0]);
      assert forall i :: 0 <= i < |ms[1..]| ==> ms[1..][i] == ms[i + 1];
      var next := Step(op, value, ms[0]);
      RunGood(next, value, from, ms[1..]);
      DoneStays(op, value, ms[0]);
      DoneStaysAll(next, value, from, ms[1..]);
    }
  }

  lemma DoneStays(op: ReadOp, value: seq<int>, m: Round)
    requires 0 <= op.offset <= MAX_VALUE && m.server >= 1
    ensures op.outcome.Done? ==> Step(op, value, m) == op
  {
  }

  lemma {:induction false} DoneStaysAll(op: ReadOp, value: seq<int>, from: int, ms: seq<Round>)
    requires Good(op, value, from) && forall i :: 0 <= i < |ms| ==> ms[i].server >= ms[i].client >= MIN_MTU
    ensures op.outcome.Done? ==> Run(op, value, from, ms) == op
    decreases |ms|
  {
    if |ms| > 0 && op.outcome.Done? {
      assert forall i :: 0 <= i < |ms[1..]| ==> ms[1..][i] == ms[i + 1];
      DoneStaysAll(op, value, from, ms[1..]);
    }
  }

  /** For every value, also one whose length is a multiple of mtu - 1, and every offset inside
      it: the read ends after at most one blob for every 22 octets and one more. If it ends
      well, it delivers exactly the value from the offset on, up to 512 octets; it ends well
      unless the request for a blob is refused. */
  lemma LongReadDelivers(value: seq<int>, from: int, ms: seq<Round>)
    requires 0 <= from <= Least(|value|, 512)
    requires forall i :: 0 <= i < |ms| ==> ms[i].server >= ms[i].client >= 23
    ensures Good(Start(from), value, from)
    ensures var r := Run(Start(from), value, from, ms);
            && !r.outcome.Undefined?
            && (r.outcome.Done? && r.outcome.success ==> r.data == Wanted(value, from))
            && (r.outcome.Done? && !r.outcome.success ==> r.outcome == Done(false, 0) && IsRefused(value, from, ms))
            && (IsRefused(value, from, ms) ==> r.outcome == Done(false, 0))
            && (22 * |ms| > Least(|value|, 512) - from ==> r.outcome.Done?)
  {
    assert value[from..from] == [];
    RunGood(Start(from), value, from, ms);
    RunRefused(Start(from), value, from, ms);
  }

  /** Where the next blob begins after i blobs. */
  function Reached(value: seq<int>, at: int, ms: seq<Round>, i: nat): int
    requires i <= |ms|
    decreases i
  {
    if i == 0 then at else Reached(value, Least(at + ms[0].server - 1, |value|), ms[1..], i - 1)
  }

  /** The blob here is as long as the client expects, and is not the end of 512 octets. */
  predicate More(value: seq<int>, at: int, m: Round) {
    var n := Least(m.server - 1, |value| - at); n >= m.client - 1 && at + n < 512
  }

  /** After blob number i another one is needed, and the request for it is refused. */
  predicate RefusedAt(value: seq<int>, at: int, ms: seq<Round>, i: nat)
    requires i < |ms|
  {
    !ms[i].sent && forall j: nat :: j <= i ==> More(value, Reached(value, at, ms, j), ms[j]) && (j < i ==> ms[j].sent)
  }

  ghost predicate IsRefused(value: seq<int>, at: int, ms: seq<Round>) {
    exists i: nat :: i < |ms| && RefusedAt(value, at, ms, i)
  }

  /** One blob: if another one is needed it is asked for, and if that is refused the read
      fails. */
  lemma StepEnds(op: ReadOp, value: seq<int>, from: int, m: Round)
    requires Good(op, value, from) && m.server >= m.client >= 23 && op.outcome.Pending?
    ensures var r := Step(op, value, m);
            if !More(value, op.offset, m) then r.outcome == Done(true, 0)
            else if m.sent then r.outcome.Pending? && r.offset == Least(op.offset + m.server - 1, |value|)
            else r.outcome == Done(false, 0)
  {
    hide Append;
    AppendBelow(op, Blob(value, op.offset, m.server).pdu);
  }

  lemma RefusedFirst(value: seq<int>, at: int, ms: seq<Round>)
    requires |ms| > 0
    ensures !More(value, at, ms[0]) ==> !IsRefused(value, at, ms)
    ensures More(value, at, ms[0]) && !ms[0].sent ==> IsRefused(value, at, ms)
  {
    assert Reached(value, at, ms, 0) == at;
    hide More, Reached;
    if More(value, at, ms[0]) && !ms[0].sent { assert RefusedAt(value, at, ms, 0); }
  }

  lemma RefusedLater(value: seq<int>, at: int, ms: seq<Round>)
    requires |ms| > 0 && More(value, at, ms[0]) && ms[0].sent
    ensures var next := Least(at + ms[0].server - 1, |value|);
            IsRefused(value, at, ms) <==> IsRefused(value, next, ms[1..])
  {
    var next := Least(at + ms[0].server - 1, |value|);
    forall j: nat | j < |ms|
      ensures Reached(value, at, ms, j) == if j == 0 then at else Reached(value, next, ms[1..], j - 1)
    {
    }
    hide More, Reached;
    forall i: nat | i < |ms| && RefusedAt(value, at, ms, i)
      ensures IsRefused(value, next, ms[1..])
    {
      forall j: nat | j <= i - 1
        ensures More(value, Reached(value, next, ms[1..], j), ms[1..][j]) && (j < i - 1 ==> ms[1..][j].sent)
      {
        assert More(value, Reached(value, at, ms, j + 1), ms[j + 1]);
      }
      assert RefusedAt(value, next, ms[1..], i - 1);
    }
    forall i: nat | i < |ms[1..]| && RefusedAt(value, next, ms[1..], i)
      ensures IsRefused(value, at, ms)
    {
      forall j: nat | j <= i + 1
        ensures More(value, Reached(value, at, ms, j), ms[j]) && (j < i + 1 ==> ms[j].sent)
      {
        if j > 0 { assert More(value, Reached(value, next, ms[1..], j - 1), ms[1..][j - 1]); }
      }
      assert RefusedAt(value, at, ms, i + 1);
    }
  }

  lemma {:induction false} RunRefused(op: ReadOp, value: seq<int>, from: int, ms: seq<Round>)
    requires Good(op, value, from) && op.outcome.Pending?
    requires forall i :: 0 <= i < |ms| ==> ms[i].server >= ms[i].client >= MIN_MTU
    ensures var r := Run(op, value, from, ms);
            if IsRefused(value, op.offset, ms) then r.outcome == Done(false, 0)
            else r.outcome.Done? ==> r.outcome.success
    decreases |ms|
  {
    hide Step, More, IsRefused;
    if |ms| == 0 {
      assert !IsRefused(value, op.offset, ms) by { NothingRefused(value, op.offset); }
    } else {
      StepGood(op, value, from, ms[0]);
      StepEnds(op, value, from, ms[0]);
      assert forall i :: 0 <= i < |ms[1..]| ==> ms[1..][i] == ms[i + 1];
      var next := Step(op, value, ms[0]);
      if next.outcome.Pending? {
        RefusedLater(value, op.offset, ms);
        RunRefused(next, value, from, ms[1..]);
      } else {
        RefusedFirst(value, op.offset, ms);
        DoneStaysAll(next, value, from, ms[1..]);
      }
    }
  }

  lemma NothingRefused(value: seq<int>, at: int)
    ensures !IsRefused(value, at, [])
  {
  }

  /** Any other answer ends the read without success: an error response with its code, or with
      0 if it is malformed, and every other opcode with 0. What was read before stays. */
  lemma OtherAnswersFail(op: ReadOp, mtu: int, opcode: int, pdu: seq<int>, sent: bool)
    requires opcode != 0x0D
    ensures OnBlob(op, mtu, opcode, pdu, sent)
            == op.(outcome := Done(false, if opcode == 0x01 && |pdu| == 4 then pdu[3] else 0))
  {
  }

  // ---- other first offsets

  /** What is copied is undefined exactly for an offset past 512 and a blob that is shorter
      than the length that is left, which wraps around. */
  lemma UndefinedExactly(op: ReadOp, mtu: int, opcode: int, pdu: seq<int>, sent: bool)
    requires op.outcome.Pending? && 0 <= op.offset <= 0xFFFF
    ensures OnBlob(op, mtu, opcode, pdu, sent).outcome.Undefined?
            <==> opcode == 0x0D && 512 < op.offset && 0 < |pdu| < 0x1_0000 + 512 - op.offset
  {
  }

  /** The first blob decides what becomes of a read that starts outside of what is delivered:
      behind the value it is an error; at the end of a value longer than 512 it delivers
      nothing; inside of such a value it is undefined for every blob that is not longer than
      what would be left of 65536 octets. */
  lemma FirstBlobOutside(value: seq<int>, from: int, m: Round)
    requires Least(|value|, MAX_VALUE) < from <= 0xFFFF && m.server >= MIN_MTU
    ensures var r := Step(Start(from), value, m);
            var left := |value| - from;
            && (left < 0 ==> r.outcome == Done(false, 0x07))
            && (left == 0 ==> r.outcome == Done(true, 0) && r.data == [])
            && (left > 0 ==> (r.outcome.Undefined? <==> Least(m.server - 1, left) < 0x1_0000 + MAX_VALUE - from))
  {
  }

  /** One octet at offset 513 of a longer value. */
  lemma ReadsPastTheBlob(x: int)
    ensures OnBlob(Start(513), 23, 0x0D, [x], true).outcome.Undefined?
  {
  }

  /** A value of 40 octets is cut short when the client has a larger MTU than the server. */
  lemma LargerMtuCutsShort(value: seq<int>)
    requires |value| == 40
    ensures var r := Step(Start(0), value, Round(23, 30, true)); r.outcome == Done(true, 0) && r.data == value[..22]
  {
    assert value[0..22] == value[..22];
  }

  // ---- as it is written

  class ReadLongOp {
    var offset: int
    var iov: seq<int>
    var outcome: Outcome

    ghost function View(): ReadOp
      reads this
    {
      ReadOp(offset, iov, outcome)
    }

    constructor (offset: int)
      ensures View() == Start(offset)
    {
      this.offset, iov, outcome := offset, [], Pending;
    }

    method AppendChunk(data: seq<int>)
      modifies this
      ensures View() == Append(old(View()), data)
    {
      var len := |data|;
      if offset + len > MAX_VALUE {
        len := (MAX_VALUE - offset) % 0x1_0000;
      }
      if len > |data| {
        outcome := Undefined;
        return;
      }
      iov := iov + data[..len];
      offset := (offset + len) % 0x1_0000;
    }

    method Callback(mtu: int, opcode: int, pdu: seq<int>, sent: bool)
      requires outcome.Pending?
      modifies this
      ensures View() == OnBlob(old(View()), mtu, opcode, pdu, sent)
    {
      hide Append;
      if opcode == ERROR_RSP {
        outcome := Done(false, ProcessError(pdu));
        return;
      }
      if opcode != READ_BLOB_RSP {
        outcome := Done(false, 0);
        return;
      }
      if |pdu| == 0 {
        outcome := Done(true, 0);
        return;
      }
      AppendChunk(pdu);
      if outcome.Undefined? {
        return;
      }
      if offset >= MAX_VALUE {
        outcome := Done(true, 0);
        return;
      }
      if |pdu| >= mtu - 1 {
        if !sent {
          outcome := Done(false, 0);
        }
        return;
      }
      outcome := Done(true, 0);
    }
  }
}
