/** The registration functions and the two write callbacks as they are written. */
module CccProgram {
  import opened Sequences
  import opened Ccc
  import opened CccRegistrations

  class NotifyChrc {
    const hasCcc: bool
    const canEnable: bool
    var notifyCount: int
    var flight: Flight            // ccc_write_id, and what was sent
    var regNotifyQueue: seq<int>
    var notifyList: seq<int>
    var attIds: set<int>
    var nextRegId: int
    var aborted: bool
    ghost var acked: bool
    ghost var stale: bool
    ghost var log: seq<Event>

    ghost function View(): State
      reads this
    {
      State(hasCcc, canEnable, notifyCount, flight, regNotifyQueue, notifyList, attIds, acked, stale, nextRegId,
            aborted, log)
    }

    constructor (hasCcc: bool, canEnable: bool)
      ensures View() == New(hasCcc, canEnable)
    {
      this.hasCcc, this.canEnable := hasCcc, canEnable;
      notifyCount, flight, regNotifyQueue, notifyList, attIds, nextRegId, aborted := 0, NoWrite, [], [], {}, 1, false;
      acked, stale, log := false, false, [];
    }

    method CompleteNotifyRequest(id: int)
      modifies this`notifyCount, this`attIds, this`log
      ensures View() == Complete(old(View()), id)
    {
      notifyCount := notifyCount + 1;
      attIds := attIds - {id};
      log := log + [Completed(id)];
    }

    /** notify_data_write_ccc to enable; sent is the outcome of bt_att_send. */
    method WriteCccEnable(id: int, sent: bool) returns (ok: bool)
      modifies this`flight, this`attIds
      ensures View() == WriteEnable(old(View()), id, sent) && ok == Written(old(View()), sent)
    {
      if !canEnable {
        return false;
      }
      if !sent {
        flight, attIds := NoWrite, attIds - {id};
        return false;
      }
      flight, attIds := Enabling(id), attIds + {id};
      return true;
    }

    /** The loop of enable_ccc_callback. */
    method ServeQueue(sends: seq<bool>)
      modifies this`flight, this`attIds, this`regNotifyQueue
      ensures View() == EnableNext(old(View()), sends)
    {
      hide WriteEnable;
      var left := sends;
      while |regNotifyQueue| > 0
        invariant EnableNext(old(View()), sends) == EnableNext(View(), left)
        decreases |regNotifyQueue|
      {
        var id := regNotifyQueue[0];
        ghost var before := View();
        regNotifyQueue := regNotifyQueue[1..];
        WrittenSame(before, View(), Sends(left), id);
        var ok := WriteCccEnable(id, Sends(left));
        if ok {
          return;
        }
        left := Later(left);
      }
    }

    /** The loop of disable_ccc_callback: every write is made for the old handler. */
    method ServeQueueFor(owner: int, sends: seq<bool>)
      modifies this`flight, this`attIds, this`regNotifyQueue
      ensures View() == EnableAgain(old(View()), owner, sends)
    {
      hide WriteEnable;
      var left := sends;
      while |regNotifyQueue| > 0
        invariant EnableAgain(old(View()), owner, sends) == EnableAgain(View(), owner, left)
        decreases |regNotifyQueue|
      {
        ghost var before := View();
        regNotifyQueue := regNotifyQueue[1..];
        WrittenSame(before, View(), Sends(left), owner);
        var ok := WriteCccEnable(owner, Sends(left));
        if ok {
          return;
        }
        left := Later(left);
      }
    }

    method CompleteEach(ids: seq<int>)
      modifies this`notifyCount, this`attIds, this`log
      ensures View() == CompleteAll(old(View()), ids)
    {
      hide Complete;
      var i := 0;
      while i < |ids|
        invariant 0 <= i <= |ids|
        invariant CompleteAll(old(View()), ids) == CompleteAll(View(), ids[i..])
      {
        assert ids[i..][1..] == ids[i + 1..];
        CompleteNotifyRequest(ids[i]);
        i := i + 1;
      }
    }

    method EnableCccCallback(ok: bool, ecode: int, sends: seq<bool>)
      requires flight.Enabling?
      modifies this
      ensures View() == OnEnabled(old(View()), old(flight).owner, ok, ecode, sends)
    {
      hide EnableNext, CompleteAll;
      var id := flight.owner;
      flight := NoWrite;
      if !ok {
        notifyList := Without(notifyList, id);
        log := log + [Failed(id, ecode)];
        ServeQueue(sends);
        return;
      }
      acked, stale := true, false;
      var waiting := regNotifyQueue;
      regNotifyQueue := [];
      CompleteEach([id] + waiting);
    }

    method DisableCccCallback(ok: bool, sends: seq<bool>)
      requires flight.Disabling?
      modifies this
      ensures View() == OnDisabled(old(View()), old(flight).owner, ok, sends)
    {
      hide EnableAgain;
      var id := flight.owner;
      flight := NoWrite;
      acked, stale := acked && !ok, !ok;
      ServeQueueFor(id, sends);
    }

    /** 0 says that the registration was refused. */
    method RegisterNotify(sent: bool) returns (id: int)
      modifies this
      ensures View() == Register(old(View()), sent)
      ensures id == if Taken(old(View()), sent) then old(nextRegId) else 0
    {
      hide Complete;
      if notifyCount == MAX_COUNT {
        return 0;
      }
      id := nextRegId;
      nextRegId := nextRegId + 1;
      ghost var was := notifyList;
      notifyList := notifyList + [id];
      if flight != NoWrite {
        regNotifyQueue := regNotifyQueue + [id];
        return;
      }
      if notifyCount > 0 || !hasCcc {
        CompleteNotifyRequest(id);
        return;
      }
      WrittenSame(old(View()), View(), sent, id);
      var ok := WriteCccEnable(id, sent);
      if !ok {
        notifyList := notifyList[..|notifyList| - 1];
        assert notifyList == was;
        return 0;
      }
    }

    method UnregisterNotify(id: int, sent: bool) returns (ok: bool)
      modifies this
      ensures View() == Unregister(old(View()), id, sent)
      ensures ok <==> Goes(old(View()), id)
    {
      if id == 0 || id !in notifyList {
        return false;
      }
      if notifyCount <= 0 || flight != NoWrite {
        aborted := true;
        return false;
      }
      notifyList := Without(notifyList, id);
      if id in attIds {
        return true;
      }
      notifyCount := notifyCount - 1;
      log := log + [Released(id)];
      if notifyCount != 0 || !hasCcc {
        return true;
      }
      if sent {
        flight, attIds := Disabling(id), attIds + {id};
      } else {
        flight, attIds, stale := NoWrite, attIds - {id}, true;
      }
      return true;
    }
  }

  /** Whether a write can be made does not depend on the queue or the list; one that cannot be
      made leaves the same traces for either reason. */
  lemma WrittenSame(s: State, r: State, ok: bool, id: int)
    requires r.canEnable == s.canEnable
    ensures Written(s, ok) == Written(r, ok)
    ensures WriteEnable(r, id, ok) == WriteEnable(r, id, Written(s, ok))
  {
  }
}
