/** The calls and callbacks of bluez/gatt-client.c that share in_long_write, the session id and
    the queue of waiting long writes, as they are written. */
module WriteSessionsProgram {
  import opened Wrappers
  import opened Queue
  import opened Sequences
  import opened WriteSessions

  class Client {
    var inLongWrite: bool
    var sessionId: int
    var longWriteQueue: seq<int>
    var refs: map<int, int>
    var pendingRequests: set<int>
    var attIds: map<int, nat>
    var data: Data
    var nextRequestId: int
    var fly: seq<Op>            // in the bearer
    var running: Option<Op>
    var nextTag: nat
    ghost var prepared: seq<Owner>
    ghost var broken: bool
    ghost var log: seq<Event>

    ghost function View(): State
      reads this
    {
      State(inLongWrite, sessionId, longWriteQueue, refs, pendingRequests, attIds, data, fly, running, prepared,
            nextRequestId, nextTag, broken, log)
    }

    constructor ()
      ensures View() == NEW
    {
      inLongWrite, sessionId, longWriteQueue, nextRequestId := false, 0, [], 1;
      refs, pendingRequests, attIds, data := map[], {}, map[], ForExec;
      fly, running, prepared, nextTag, broken, log := [], None, [], 1, false, [];
    }

    // ---- requests and the bearer

    method RequestCreate() returns (id: int)
      modifies this`nextRequestId, this`refs, this`pendingRequests
      ensures View() == Create(old(View())) && id == old(nextRequestId)
    {
      id := nextRequestId;
      nextRequestId := nextRequestId + 1;
      refs := refs[id := 1];
      pendingRequests := pendingRequests + {id};
    }

    method RequestRef(id: int)
      modifies this`refs, this`broken
      ensures View() == Ref(old(View()), id)
    {
      if id in refs {
        refs := refs[id := refs[id] + 1];
      } else {
        broken := true;
      }
    }

    method RequestUnref(id: int)
      modifies this`refs, this`pendingRequests, this`broken
      ensures View() == Unref(old(View()), id)
    {
      if id !in refs {
        broken := true;
        return;
      }
      if refs[id] > 1 {
        refs := refs[id := refs[id] - 1];
        return;
      }
      pendingRequests := pendingRequests - {id};
      refs := refs - {id};
    }

    /** bt_att_send takes the request, which notes the id. */
    method AttSend(owner: Owner, what: What, destroy: bool)
      modifies this`fly, this`attIds, this`nextTag
      ensures View() == Send(old(View()), owner, what, destroy)
    {
      fly := fly + [Op(owner, what, nextTag, true, destroy)];
      attIds := attIds[owner.id := nextTag];
      nextTag := nextTag + 1;
    }

    // ---- what the callers ask for

    /** bt_gatt_client_write_long_value; 0 says that it refused. */
    method WriteLongValue(sent: bool) returns (id: int)
      modifies this
      ensures View() == WriteLong(old(View()), sent)
      ensures id == if sent || old(inLongWrite) || old(sessionId) > 0 then old(nextRequestId) else 0
    {
      id := RequestCreate();
      if inLongWrite || sessionId > 0 {
        longWriteQueue := longWriteQueue + [id];
        return;
      }
      if !sent {
        RequestUnref(id);
        return 0;
      }
      AttSend(Long(id), Prep, true);
      inLongWrite := true;
    }

    /** bt_gatt_client_prepare_write; 0 says that it refused. */
    method PrepareWrite(id: int, sent: bool) returns (session: int)
      requires sessionId >= 0
      modifies this
      ensures View() == Prepare(old(View()), id, sent)
      ensures session == if View() == old(View()) || !sent then 0 else sessionId
    {
      hide Unref;
      if inLongWrite {
        return 0;
      }
      if id != sessionId {
        return 0;
      }
      var request := id;
      if id == 0 {
        request := RequestCreate();
      } else if id !in pendingRequests {
        return 0;
      }
      if !sent {
        RequestUnref(request);
        return 0;
      }
      data := ForPrep(nextTag);
      AttSend(Session(request), Prep, false);
      assert nextTag != old(nextTag);
      sessionId := request;
      return sessionId;
    }

    /** bt_gatt_client_write_execute. */
    method WriteExecute(id: int, sent: bool) returns (session: int)
      modifies this
      ensures View() == Execute(old(View()), id, sent)
      ensures session == if old(inLongWrite) || id != old(sessionId) || id !in old(pendingRequests) || !sent then 0
              else id
    {
      hide Unref;
      if inLongWrite {
        return 0;
      }
      if sessionId != id {
        return 0;
      }
      if id !in pendingRequests {
        return 0;
      }
      if !sent {
        RequestUnref(id);
        return 0;
      }
      data := ForExec;
      AttSend(Session(id), Commit, true);
      return id;
    }

    /** queue_remove on the queue of waiting writes. */
    method RemoveWaiting(id: int) returns (removed: bool)
      modifies this`longWriteQueue
      ensures removed == (id in old(longWriteQueue))
      ensures longWriteQueue == if removed then Without(old(longWriteQueue), id) else old(longWriteQueue)
    {
      var i := 0;
      while i < |longWriteQueue| && longWriteQueue[i] != id
        invariant 0 <= i <= |longWriteQueue| && id !in longWriteQueue[..i]
      {
        i := i + 1;
      }
      if i == |longWriteQueue| {
        return false;
      }
      WithoutAt(longWriteQueue, i);
      longWriteQueue := longWriteQueue[..i] + longWriteQueue[i + 1..];
      return true;
    }

    /** destroy_att_send_op and cancel_att_send_op run the destroy handler. */
    method RunDestroy(op: Op)
      modifies this`refs, this`pendingRequests, this`broken
      ensures View() == Release(old(View()), op)
    {
      hide Unref;
      if op.destroy {
        RequestUnref(op.owner.id);
      }
    }

    /** bt_att_cancel. */
    method BtAttCancel(tag: nat, out: bool)
      modifies this`fly, this`running, this`refs, this`pendingRequests, this`broken
      ensures View() == AttCancel(old(View()), tag, out)
    {
      hide Release, RemoveAt;
      if running.Some? && running.value.tag == tag {
        var op := running.value;
        running := Some(op.(callback := false, destroy := false));
        RunDestroy(op);
        return;
      }
      var k := 0;
      while k < |fly| && fly[k].tag != tag
        invariant 0 <= k <= |fly| && forall j :: 0 <= j < k ==> fly[j].tag != tag
      {
        k := k + 1;
      }
      FirstIndexIs(fly, (op: Op) => op.tag == tag, k);
      if k == |fly| {
        return;
      }
      var op := fly[k];
      if k == 0 && out && running.None? {
        fly := [op.(callback := false, destroy := false)] + fly[1..];
      } else {
        Slices(fly, k, op);
        fly := fly[..k] + fly[k + 1..];
      }
      RunDestroy(op);
    }

    /** cancel_long_write_req and cancel_prep_write_session, which read the request. */
    method CancelKind(id: int, sent: bool) returns (done: bool)
      modifies this`longWriteQueue, this`fly, this`nextTag, this`broken
      ensures View() == if id !in refs then old(View()).(broken := true)
                        else if id in old(longWriteQueue) then
                          old(View()).(waiting := Without(old(longWriteQueue), id))
                        else if !sent then old(View())
                        else SendQuit(old(View()), if id == sessionId then Session(id) else Long(id))
      ensures done <==> id in refs && (id in old(longWriteQueue) || sent)
    {
      hide Without;
      if id !in refs {
        broken := true;
        return false;
      }
      done := RemoveWaiting(id);
      if done || !sent {
        return;
      }
      var owner := if id == sessionId then Session(id) else Long(id);
      fly := fly + [Op(owner, Quit, nextTag, true, owner.Session?)];
      nextTag := nextTag + 1;
      return true;
    }

    /** Its operation on the bearer, if it has one. */
    method CancelSent(id: int, out: bool)
      modifies this`fly, this`running, this`refs, this`pendingRequests, this`broken
      ensures View() == if id in attIds then AttCancel(old(View()), attIds[id], out) else old(View())
    {
      hide AttCancel;
      if id in attIds {
        BtAttCancel(attIds[id], out);
      }
    }

    /** bt_gatt_client_cancel. */
    method CancelRequest(id: int, sent: bool, out: bool) returns (done: bool)
      modifies this
      ensures View() == Cancel(old(View()), id, sent, out)
      ensures !broken ==> (done <==> id in old(pendingRequests) && (id in old(longWriteQueue) || sent))
    {
      hide AttCancel, Without, SendQuit;
      if id !in pendingRequests {
        return false;
      }
      pendingRequests := pendingRequests - {id};
      CancelSent(id, out);
      done := CancelKind(id, sent);
    }

    // ---- callbacks, when their request was read and the caller's callback has returned

    /** start_next_long_write when nothing is taken. */
    method StartRefused()
      modifies this
      ensures View() == Drain(old(View()))
    {
      hide Drain, Unref;
      while |longWriteQueue| > 0
        invariant Drain(View()) == Drain(old(View()))
        decreases |longWriteQueue|
      {
        DrainUnfolds(View());
        var id := longWriteQueue[0];
        longWriteQueue := longWriteQueue[1..];
        log := log + [Called(id)];
        ghost var left := longWriteQueue;
        RequestUnref(id);
        UnrefKeepsWaiting(View(), id);
      }
      DrainUnfolds(View());
      inLongWrite := false;
    }

    method StartNextLongWrite(next: What, sent: bool)
      modifies this
      ensures View() == StartNext(old(View()), next, sent)
    {
      hide Drain, Unref, Ref;
      if |longWriteQueue| == 0 {
        inLongWrite := false;
        return;
      }
      if !sent {
        StartRefused();
        return;
      }
      var id := longWriteQueue[0];
      longWriteQueue := longWriteQueue[1..];
      RequestRef(id);
      AttSend(Long(id), if next.Abort? then Abort else Prep, true);
      RequestUnref(id);
    }

    /** The end of prepare_write_cb. */
    method PrepareWriteCb(id: int, next: What, sent: bool)
      modifies this
      ensures View() == GoOn(old(View()), id, next, sent)
    {
      hide StartNext, Ref;
      if sent {
        RequestRef(id);
        AttSend(Long(id), if next.Quit? then Abort else next, true);
        return;
      }
      prepared := [];
      log := log + [Called(id)];
      StartNextLongWrite(next, false);
    }

    /** The end of exec_write_cb. */
    method ExecWriteCb(ghost op: Op, next: What, sent: bool)
      requires op.owner.Session? && op.what.Commit?
      modifies this
      ensures View() == Leave(old(View()), op, next, sent)
    {
      hide StartNext;
      sessionId := 0;
      StartNextLongWrite(next, sent);
    }

    /** cancel_prep_write_cb. */
    method CancelPrepWriteCb(ghost op: Op, ghost next: What, ghost sent: bool)
      requires op.owner.Session? && op.what.Quit?
      modifies this`sessionId
      ensures View() == Leave(old(View()), op, next, sent)
    {
      sessionId := 0;
    }

    /** cancel_long_write_cb. */
    method CancelLongWriteCb(ghost op: Op, ghost next: What, ghost sent: bool)
      requires op.owner.Long? && op.what.Quit?
      modifies this`inLongWrite
      ensures View() == Leave(old(View()), op, next, sent)
    {
      if |longWriteQueue| == 0 {
        inLongWrite := false;
      }
    }

    /** The callback reads its request and its data, and calls the caller back. */
    method EnterCallback(op: Op)
      modifies this`running, this`broken, this`log
      ensures View() == Enter(old(View()), op)
    {
      var id := op.owner.id;
      if op.owner.Long? && op.what.Quit? {
        running := Some(op);
        return;
      }
      var fits := if op.what.Prep? then data.ForPrep? else if op.what.Commit? then data.ForExec? else op.what.Quit?;
      if id !in refs || (op.owner.Session? && !fits) {
        broken := true;
        return;
      }
      running := Some(op);
      if op.owner.Long? {
        log := if op.what.Prep? then log else log + [Called(id)];
      } else if op.what.Prep? {
        log := log + [Told(op.tag, data.tag)];
      } else if op.what.Commit? {
        log := log + [Ended(id)];
      }
    }

    /** The callback returns to the bearer, which destroys the operation. */
    method LeaveCallback(next: What, sent: bool)
      requires running.Some?
      modifies this
      ensures View() == Returned(old(View()), next, sent)
    {
      hide StartNext, GoOn, Release;
      var op := running.value;
      running := None;
      match op.owner {
        case Session(_) =>
          match op.what {
            case Commit => ExecWriteCb(op, next, sent);
            case Quit => CancelPrepWriteCb(op, next, sent);
            case _ =>
          }
        case Long(id) =>
          match op.what {
            case Prep => PrepareWriteCb(id, next, sent);
            case Quit => CancelLongWriteCb(op, next, sent);
            case _ => StartNextLongWrite(next, sent);
          }
      }
      RunDestroy(op);
    }
  }

  lemma DrainUnfolds(s: State)
    ensures Drain(s) == if |s.waiting| == 0 then s.(inLong := false)
                        else Drain(Unref(s.(waiting := s.waiting[1..], log := s.log + [Called(s.waiting[0])]),
                                         s.waiting[0]))
  {
    hide Unref;
  }

  lemma UnrefKeepsWaiting(s: State, id: int)
    ensures Unref(s, id).waiting == s.waiting
  {
  }

  lemma {:induction false} WithoutAt(q: seq<int>, i: nat)
    requires i < |q| && q[i] !in q[..i]
    ensures Without(q, q[i]) == q[..i] + q[i + 1..]
    decreases |q|
  {
    if i > 0 {
      assert q[0] in q[..i];
      assert q[1..][..i - 1] == q[1..i] && q[..i] == [q[0]] + q[1..i];
      assert q[1..][i - 1 + 1..] == q[i + 1..];
      WithoutAt(q[1..], i - 1);
    }
  }
}
