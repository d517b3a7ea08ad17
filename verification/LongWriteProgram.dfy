/** The long write procedure of bluez/gatt-client.c as its callbacks are written. */
module LongWriteProgram {
  import opened Wrappers
  import opened Pdus
  import opened Uuids
  import opened LongWrite

  class LongWriter {
    var mtu: int
    var up: bool
    var attached: bool
    ghost var broken: bool
    var current: Option<LongOp>
    var longWriteQueue: seq<LongOp>
    var inLongWrite: bool
    var nextId: int
    ghost var flight: Flight         // the request that is on its way
    ghost var server: seq<Piece>     // what the server has prepared
    ghost var log: seq<Event>

    ghost function View(): State
      reads this
    {
      State(mtu, up, attached, broken, current, flight, longWriteQueue, inLongWrite, server, nextId, log)
    }

    constructor (mtu: int)
      ensures View() == New(mtu)
    {
      this.mtu, up, attached, broken := mtu, true, true, false;
      current, longWriteQueue, inLongWrite, nextId := None, [], false, 1;
      flight, server, log := Idle, [], [];
    }

    method CompleteWriteLongOp(op: LongOp, success: bool, ecode: int, reliableError: bool)
      modifies this
      ensures View() == Complete(old(View()), op, success, ecode, reliableError)
    {
      hide Drain;
      var done := op.(success := success, ecode := ecode, reliableError := reliableError);
      if up {
        current := Some(done);
        if success {
          log := log + [Executed(done, server, mtu)];
        }
        flight := Executing(success);
        return;
      }
      log := log + [Called(op.id, false, reliableError, ecode)];
      StartRefused();
    }

    /** start_next_long_write on a bearer that refuses what is sent: preparing and cancelling
        fail for one waiting write after the other. */
    method StartRefused()
      modifies this
      ensures View() == Drain(old(View()))
    {
      hide Drain;
      while |longWriteQueue| > 0
        invariant Drain(View()) == Drain(old(View()))
        decreases |longWriteQueue|
      {
        DrainUnfolds(View());
        var op := longWriteQueue[0];
        longWriteQueue := longWriteQueue[1..];
        log := log + [Called(op.id, false, false, 0)];
      }
      DrainUnfolds(View());
      inLongWrite := false;
      current := None;
      flight := Idle;
    }

    method HandleNextPrepWrite(op: LongOp)
      modifies this
      ensures View() == SendPrep(old(View()), op)
    {
      hide Complete;
      if !up || 1 + 4 + op.cur > mtu {
        CompleteWriteLongOp(op, false, 0, false);
        return;
      }
      current := Some(op);
      flight := Preparing;
    }

    method StartNextLongWrite()
      modifies this
      ensures View() == StartNext(old(View()))
    {
      hide SendPrep;
      if |longWriteQueue| == 0 {
        inLongWrite := false;
        current := None;
        flight := Idle;
        return;
      }
      var op := longWriteQueue[0];
      longWriteQueue := longWriteQueue[1..];
      HandleNextPrepWrite(op);
    }

    method BtAttGetMtu() returns (m: int)
      ensures m == MtuOf(View())
    {
      return if attached then mtu else 0;
    }

    /** att_disconnect_cb; the server forgets what it has prepared. */
    method AttDisconnectCb()
      requires !broken
      modifies this`up, this`attached, this`server
      ensures View() == Step(old(View()), LinkLost)
    {
      up, attached := false, false;
      server := [];
    }

    /** bt_gatt_client_write_long_value; 0 says that it refused. */
    method WriteLongValue(reliable: bool, handle: int, offset: nat, value: seq<int>) returns (id: int)
      modifies this
      ensures var a := WriteArgs(reliable, handle, offset, value);
              && View() == Write(old(View()), a)
              && (!broken ==> id == if Allowed(a) && (old(up) || old(inLongWrite)) then old(nextId) else 0)
    {
      var length := |value|;
      if length + offset > 0xFFFF {
        return 0;
      }
      if length == 0 {
        return 0;
      }
      var mtuNow := BtAttGetMtu();
      var cur := (if length < mtuNow - 5 then length else mtuNow - 5) % 0x1_0000;
      var op := LongOp(nextId, reliable, handle, value, offset, 0, cur, false, 0, false);
      id := nextId;
      nextId := nextId + 1;
      if inLongWrite {
        log := log + [Accepted(id)];
        longWriteQueue := longWriteQueue + [op];
        return;
      }
      if cur > length {
        broken := true;
        return 0;
      }
      if !up {
        return 0;
      }
      log := log + [Accepted(id)];
      current := Some(op);
      flight := Preparing;
      inLongWrite := true;
    }

    /** Whether an answer other than an error is the acknowledgement, and if not, whether it
        is one for something else. */
    method Matches(op: LongOp, opcode: int, pdu: seq<int>) returns (ok: bool, reliableError: bool)
      requires OpOk(op) && opcode != ERROR_RSP
      ensures ok == Acknowledges(op, opcode, pdu) && (!ok ==> reliableError == Refusal(opcode, pdu).1)
    {
      if opcode != PREP_WRITE_RSP {
        return false, false;
      }
      if op.reliable {
        if |pdu| != op.cur + 4 {
          return false, true;
        }
        if pdu[..2] != Le16(op.handle) || pdu[2..4] != Le16(op.offset + op.index) {
          return false, true;
        }
        if pdu[4..] != op.value[op.index..op.index + op.cur] {
          return false, true;
        }
        assert pdu == pdu[..2] + pdu[2..4] + pdu[4..];
      }
      return true, false;
    }

    method PrepareWriteCb(opcode: int, pdu: seq<int>)
      requires current.Some? && OpOk(current.value)
      modifies this
      ensures View() == OnPrepared(old(View()), old(current).value, opcode, pdu)
    {
      hide SendPrep, Complete, Encode;
      var op := current.value;
      if opcode == ERROR_RSP {
        CompleteWriteLongOp(op, false, ProcessError(pdu), false);
        return;
      }
      var ok, reliableError := Matches(op, opcode, pdu);
      if !ok {
        CompleteWriteLongOp(op, false, 0, reliableError);
        return;
      }
      var next := op.index + op.cur;
      if next == |op.value| {
        CompleteWriteLongOp(op, true, 0, false);
        return;
      }
      if op.cur >= mtu - 5 {
        var left := |op.value| - next;
        op := op.(index := next, cur := if left < mtu - 5 then left else mtu - 5);
        HandleNextPrepWrite(op);
        return;
      }
      CompleteWriteLongOp(op, true, 0, false);
    }

    /** execute_write_cb; `writes` is what its callback asks for. */
    method ExecuteWriteCb(opcode: int, pdu: seq<int>, writes: seq<WriteArgs>)
      requires current.Some? && forall i :: 0 <= i < |writes| ==> writes[i].offset >= 0
      modifies this
      ensures View() == OnExecuted(old(View()), old(current).value, opcode, pdu, writes)
    {
      hide StartNext, Write;
      var op := current.value;
      var success, ecode := op.success, op.ecode;
      if opcode == ERROR_RSP {
        success := false;
        ecode := ProcessError(pdu);
      } else if opcode != EXEC_WRITE_RSP || |pdu| > 0 {
        success := false;
      }
      log := log + [Called(op.id, success, op.reliableError, ecode)];
      ghost var before := View();
      var i := 0;
      while i < |writes|
        invariant 0 <= i <= |writes|
        invariant WriteAll(before, writes) == WriteAll(View(), writes[i..])
      {
        assert writes[i..][1..] == writes[i + 1..];
        var _ := WriteLongValue(writes[i].reliable, writes[i].handle, writes[i].offset, writes[i].value);
        i := i + 1;
      }
      StartNextLongWrite();
    }

    /** An answer of the server arrives; `taken` says whether the bearer takes what the
        callback sends. */
    method Receive(ghost kept: bool, opcode: int, pdu: seq<int>, writes: seq<WriteArgs>, taken: bool, preparing: bool)
      requires !broken && up && current.Some? && OpOk(current.value)
      requires forall i :: 0 <= i < |writes| ==> writes[i].offset >= 0
      requires !flight.Idle? && preparing == flight.Preparing?
      modifies this
      ensures View() == Step(old(View()), Answer(kept, opcode, pdu, writes, taken))
    {
      hide OnPrepared, OnExecuted, OpOk;
      up := taken;
      if preparing {
        server := if !taken then []
                  else if kept || opcode == PREP_WRITE_RSP then server + [ChunkOf(current.value)]
                  else server;
        PrepareWriteCb(opcode, pdu);
      } else {
        server := [];
        ExecuteWriteCb(opcode, pdu, writes);
      }
    }
  }

  lemma DrainUnfolds(s: State)
    ensures Drain(s) == if |s.waiting| == 0 then s.(inLongWrite := false, current := None, flight := Idle)
                        else Drain(s.(waiting := s.waiting[1..],
                                      log := s.log + [Called(s.waiting[0].id, false, false, 0)]))
  {
  }
}
