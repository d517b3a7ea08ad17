/** Who is counted in notify_count: what became of every single handler that is still
    registered, and exactly which handlers are forgotten. */
module CccHandlers {
  import opened Sequences
  import opened Ccc

  /** The error callback of this handler ran. */
  predicate WasFailed(log: seq<Event>, id: int) {
    exists i :: 0 <= i < |log| && log[i].Failed? && log[i].id == id
  }

  predicate WasCompleted(log: seq<Event>, id: int) { Completed(id) in log }

  // ---- what a step forgets

  /** How many waiting handlers the loops take out before a write goes out. */
  function Refused(s: State, sends: seq<bool>): (k: int)
    ensures 0 <= k <= |s.queue|
    decreases |s.queue|
  {
    if |s.queue| == 0 || Written(s, Sends(sends)) then 0
    else 1 + Refused(s.(queue := s.queue[1..]), Later(sends))
  }

  function Members(q: seq<int>): set<int> { set id | id in q }

  /** Handlers that leave the register queue neither completed nor with a write of their own:
      after a failed enabling write those whose own write could not be sent, after a write
      back also the one whose turn it was, since the write is made for the old handler. */
  function Stranded(s: State, i: Input): set<int> {
    if s.aborted || !i.Answer? then {}
    else
      var k := Refused(s, i.sends);
      if s.flight.Enabling? && !i.ok then Members(s.queue[..k])
      else if s.flight.Disabling? then Members(s.queue[..if k < |s.queue| then k + 1 else k])
      else {}
  }

  /** A completion of a handler that is gone counts one too much, the release of a handler
      that was never completed one too little. */
  function Surplus(s: State, i: Input): int {
    if s.aborted then 0
    else
      match i
      case DoRegister(_) => 0
      case DoUnregister(id, _) => if Releases(s, id) && !WasCompleted(s.log, id) then -1 else 0
      case Answer(ok, _, _) => if s.flight.Enabling? && ok && s.flight.owner !in s.list then 1 else 0
  }

  predicate Releases(s: State, id: int) {
    id != 0 && id in s.list && s.count > 0 && s.flight.NoWrite? && id !in s.busy
  }

  function AllStranded(s: State, inputs: seq<Input>): set<int>
    decreases |inputs|
  {
    if |inputs| == 0 then {} else Stranded(s, inputs[0]) + AllStranded(Step(s, inputs[0]), inputs[1..])
  }

  function AllSurplus(s: State, inputs: seq<Input>): int
    decreases |inputs|
  {
    if |inputs| == 0 then 0 else Surplus(s, inputs[0]) + AllSurplus(Step(s, inputs[0]), inputs[1..])
  }

  // ---- the invariant

  predicate Distinct(q: seq<int>) { forall i, j :: 0 <= i < j < |q| ==> q[i] != q[j] }

  /** Who waits is registered, and the write in flight is not made for one who waits. */
  predicate Tidy(s: State) {
    && Distinct(s.queue) && (forall id :: id in s.queue ==> id in s.list)
    && (s.flight.Enabling? ==> s.flight.owner !in s.queue)
    && (s.flight.Disabling? ==> s.flight.owner !in s.list)
    && LogBefore(s.log, s.nextId)
  }

  predicate LogBefore(log: seq<Event>, next: int) { forall i :: 0 <= i < |log| ==> log[i].id < next }

  predicate Before(ids: seq<int>, next: int) { forall i :: 0 <= i < |ids| ==> ids[i] < next }

  predicate Waits(s: State, id: int) { id in s.queue || s.flight == Enabling(id) }

  /** A handler in the list waits, or was forgotten, or was completed; and it never failed. */
  predicate Fate(s: State, lost: set<int>, id: int) {
    id in s.list ==>
      && !WasFailed(s.log, id)
      && !(id in lost && Waits(s, id))
      && (WasCompleted(s.log, id) <==> id !in lost && !Waits(s, id))
  }

  lemma LogPush(log: seq<Event>, e: Event, id: int)
    ensures WasCompleted(log + [e], id) <==> WasCompleted(log, id) || e == Completed(id)
    ensures WasFailed(log + [e], id) <==> WasFailed(log, id) || (e.Failed? && e.id == id)
  {
    var all := log + [e];
    if WasFailed(log, id) {
      var i :| 0 <= i < |log| && log[i].Failed? && log[i].id == id;
      assert all[i] == log[i];
    }
    assert all[|log|] == e;
  }

  lemma {:induction false} CompleteAllLog(s: State, ids: seq<int>, id: int)
    ensures var r := CompleteAll(s, ids);
            && (WasCompleted(r.log, id) <==> WasCompleted(s.log, id) || id in ids)
            && (WasFailed(r.log, id) <==> WasFailed(s.log, id))
    decreases |ids|
  {
    hide WasCompleted, WasFailed;
    if |ids| > 0 {
      LogPush(s.log, Completed(ids[0]), id);
      CompleteAllLog(Complete(s, ids[0]), ids[1..], id);
      assert id in ids <==> id == ids[0] || id in ids[1..];
    }
  }

  lemma {:induction false} CompleteAllBefore(s: State, ids: seq<int>)
    requires LogBefore(s.log, s.nextId) && Before(ids, s.nextId)
    ensures LogBefore(CompleteAll(s, ids).log, s.nextId)
    decreases |ids|
  {
    if |ids| > 0 {
      assert Before(ids[1..], s.nextId);
      CompleteAllBefore(Complete(s, ids[0]), ids[1..]);
    }
  }

  /** The two loops in one go. */
  lemma {:induction false} EnableNextIs(s: State, sends: seq<bool>)
    requires s.flight.NoWrite?
    ensures var k, r := Refused(s, sends), EnableNext(s, sends);
            && r == s.(flight := r.flight, queue := r.queue, busy := r.busy)
            && (k < |s.queue| ==> r.flight == Enabling(s.queue[k]) && r.queue == s.queue[k + 1..])
            && (k == |s.queue| ==> r.flight == NoWrite && r.queue == [])
    decreases |s.queue|
  {
    if |s.queue| > 0 && !Written(s, Sends(sends)) {
      var s1 := s.(queue := s.queue[1..]);
      var s2 := WriteEnable(s1, s.queue[0], false);
      EnableNextIs(s2, Later(sends));
      RefusedSame(s1, s2, Later(sends));
    }
  }

  lemma {:induction false} EnableAgainIs(s: State, owner: int, sends: seq<bool>)
    requires s.flight.NoWrite?
    ensures var k, r := Refused(s, sends), EnableAgain(s, owner, sends);
            && r == s.(flight := r.flight, queue := r.queue, busy := r.busy)
            && (k < |s.queue| ==> r.flight == Enabling(owner) && r.queue == s.queue[k + 1..])
            && (k == |s.queue| ==> r.flight == NoWrite && r.queue == [])
    decreases |s.queue|
  {
    if |s.queue| > 0 && !Written(s, Sends(sends)) {
      var s1 := s.(queue := s.queue[1..]);
      var s2 := WriteEnable(s1, owner, false);
      EnableAgainIs(s2, owner, Later(sends));
      RefusedSame(s1, s2, Later(sends));
    }
  }

  lemma {:induction false} RefusedSame(s: State, r: State, sends: seq<bool>)
    requires r.queue == s.queue && r.canEnable == s.canEnable
    ensures Refused(s, sends) == Refused(r, sends)
    decreases |s.queue|
  {
    if |s.queue| > 0 && !Written(s, Sends(sends)) {
      RefusedSame(s.(queue := s.queue[1..]), r.(queue := s.queue[1..]), Later(sends));
    }
  }

  lemma SplitQueue(q: seq<int>, k: int, id: int)
    requires 0 <= k <= |q| && Distinct(q)
    ensures k < |q| ==> (id in q <==> id in Members(q[..k]) || id == q[k] || id in q[k + 1..])
    ensures k < |q| ==> (id in Members(q[..k + 1]) <==> id in Members(q[..k]) || id == q[k])
    ensures k < |q| ==> q[k] !in Members(q[..k]) && q[k] !in q[k + 1..]
    ensures k < |q| ==> !(id in Members(q[..k]) && id in q[k + 1..])
    ensures k == |q| ==> (id in q <==> id in Members(q[..k]))
  {
    if k < |q| {
      assert q == q[..k] + [q[k]] + q[k + 1..];
      assert q[..k + 1] == q[..k] + [q[k]];
    } else {
      assert q[..k] == q;
    }
  }

  // ---- every step

  /** A new id has no history. */
  lemma NeverSeen(s: State)
    requires Tidy(s) && NewIds(s)
    ensures !WasCompleted(s.log, s.nextId) && !WasFailed(s.log, s.nextId) && s.nextId !in s.list
  {
  }

  lemma RegisterFate(s: State, lost: set<int>, ok: bool, id: int)
    requires Inv(s) && Tidy(s) && Fate(s, lost, id) && (forall x :: x in lost ==> x < s.nextId)
    ensures Fate(Register(s, ok), lost, id)
  {
    hide Held, Agrees, BusyOnly, Exclusive, WasCompleted, WasFailed;
    NeverSeen(s);
    NewAtTheEnd(s, id);
    LogPush(s.log, Completed(s.nextId), id);
  }

  lemma NewAtTheEnd(s: State, id: int)
    requires Inv(s) && Tidy(s)
    ensures id in s.list + [s.nextId] <==> id in s.list || id == s.nextId
    ensures id in s.queue + [s.nextId] <==> id in s.queue || id == s.nextId
    ensures s.nextId !in s.queue && s.flight != Enabling(s.nextId)
  {
    hide Held, Agrees, BusyOnly, Exclusive;
  }

  lemma UnregisterFate(s: State, lost: set<int>, target: int, ok: bool, id: int)
    requires Inv(s) && Fate(s, lost, id)
    ensures Fate(Unregister(s, target, ok), lost, id)
  {
    hide Held, Agrees, BusyOnly, Exclusive, WasCompleted, WasFailed, Without;
    WithoutIs(s.list, target);
    LogPush(s.log, Released(target), id);
  }

  lemma FailedFate(s: State, lost: set<int>, ecode: int, sends: seq<bool>, id: int)
    requires Inv(s) && Tidy(s) && Fate(s, lost, id) && s.flight.Enabling?
    ensures Fate(OnEnabled(s, s.flight.owner, false, ecode, sends), lost + Members(s.queue[..Refused(s, sends)]), id)
  {
    hide Held, Agrees, BusyOnly, EnableNext, WasCompleted, WasFailed, Refused, Members;
    var owner := s.flight.owner;
    var k := Refused(s, sends);
    var s1 := s.(flight := NoWrite, list := Without(s.list, owner), log := s.log + [Failed(owner, ecode)]);
    WithoutIs(s.list, owner);
    LogPush(s.log, Failed(owner, ecode), id);
    EnableNextIs(s1, sends);
    RefusedSame(s, s1, sends);
    SplitQueue(s.queue, k, id);
  }

  lemma EnabledFate(s: State, lost: set<int>, ecode: int, sends: seq<bool>, id: int)
    requires Inv(s) && Tidy(s) && Fate(s, lost, id) && s.flight.Enabling?
    ensures Fate(OnEnabled(s, s.flight.owner, true, ecode, sends), lost, id)
  {
    hide Held, Agrees, BusyOnly, CompleteAll, WasCompleted, WasFailed;
    var owner := s.flight.owner;
    var s1 := s.(flight := NoWrite, queue := [], acked := true, stale := false);
    var ids := [owner] + s.queue;
    CompleteAllIs(s1, ids);
    CompleteAllLog(s1, ids, id);
    assert id in ids <==> id == owner || id in s.queue;
  }

  lemma DisabledFate(s: State, lost: set<int>, ok: bool, sends: seq<bool>, id: int)
    requires Inv(s) && Tidy(s) && Fate(s, lost, id) && s.flight.Disabling?
    ensures var k := Refused(s, sends);
            Fate(OnDisabled(s, s.flight.owner, ok, sends),
                 lost + Members(s.queue[..if k < |s.queue| then k + 1 else k]), id)
  {
    hide Held, Agrees, BusyOnly, EnableAgain, WasCompleted, WasFailed, Refused, Members;
    var owner := s.flight.owner;
    var k := Refused(s, sends);
    var s1 := s.(flight := NoWrite, acked := s.acked && !ok, stale := !ok);
    EnableAgainIs(s1, owner, sends);
    RefusedSame(s, s1, sends);
    SplitQueue(s.queue, k, id);
  }

  lemma StepFate(s: State, lost: set<int>, i: Input, id: int)
    requires Inv(s) && Tidy(s) && Fate(s, lost, id) && (forall x :: x in lost ==> x < s.nextId)
    ensures Fate(Step(s, i), lost + Stranded(s, i), id)
  {
    hide Inv, Tidy, Fate, Register, Unregister, OnEnabled, OnDisabled, Refused, Members;
    assert lost + {} == lost;
    match i
    case DoRegister(ok) => RegisterFate(s, lost, ok, id);
    case DoUnregister(target, ok) => UnregisterFate(s, lost, target, ok, id);
    case Answer(ok, ecode, sends) =>
      if s.flight.Enabling? {
        EnabledFate(s, lost, ecode, sends, id);
        FailedFate(s, lost, ecode, sends, id);
      }
      if s.flight.Disabling? { DisabledFate(s, lost, ok, sends, id); }
  }

  // ---- the queue and the log stay in order

  lemma RegisterTidy(s: State, ok: bool)
    requires Inv(s) && Tidy(s)
    ensures Tidy(Register(s, ok))
  {
    hide Held, Agrees, BusyOnly;
    var id := s.nextId;
    assert forall x :: x in s.list + [id] <==> x in s.list || x == id;
    assert forall x :: x in s.queue + [id] <==> x in s.queue || x == id;
    DistinctPush(s.queue, id);
  }

  lemma UnregisterTidy(s: State, target: int, ok: bool)
    requires Inv(s) && Tidy(s)
    ensures Tidy(Unregister(s, target, ok))
  {
    hide Held, Agrees, BusyOnly;
    WithoutIs(s.list, target);
  }

  lemma TailDistinct(q: seq<int>, k: int)
    requires Distinct(q) && 0 <= k <= |q|
    ensures Distinct(q[k..]) && (forall x :: x in q[k..] ==> x in q) && (k < |q| ==> q[k] in q && q[k] !in q[k + 1..])
  {
  }

  lemma CompletedTidy(s: State, ecode: int, sends: seq<bool>)
    requires Inv(s) && Tidy(s) && s.flight.Enabling?
    ensures Tidy(OnEnabled(s, s.flight.owner, true, ecode, sends))
  {
    hide Held, Agrees, BusyOnly, CompleteAll, Exclusive;
    var s1 := s.(flight := NoWrite, queue := [], acked := true, stale := false);
    var ids := [s.flight.owner] + s.queue;
    CompleteAllIs(s1, ids);
    assert Before(ids, s.nextId);
    CompleteAllBefore(s1, ids);
  }

  lemma LogBeforePush(log: seq<Event>, e: Event, next: int)
    requires LogBefore(log, next) && e.id < next
    ensures LogBefore(log + [e], next)
  {
  }

  lemma FailedTidy(s: State, ecode: int, sends: seq<bool>)
    requires Inv(s) && Tidy(s) && s.flight.Enabling?
    ensures Tidy(OnEnabled(s, s.flight.owner, false, ecode, sends))
  {
    hide Held, Agrees, BusyOnly, EnableNext, Refused, Exclusive, LogBefore, Distinct, Without;
    var owner := s.flight.owner;
    WithoutIs(s.list, owner);
    LogBeforePush(s.log, Failed(owner, ecode), s.nextId);
    var s1 := s.(flight := NoWrite, list := Without(s.list, owner), log := s.log + [Failed(owner, ecode)]);
    var k := Refused(s1, sends);
    EnableNextIs(s1, sends);
    TailDistinct(s.queue, k);
    TailDistinct(s.queue, if k < |s.queue| then k + 1 else k);
    var r := OnEnabled(s, owner, false, ecode, sends);
    assert r.queue == s.queue[if k < |s.queue| then k + 1 else k..] && r.list == Without(s.list, owner);
    forall x | x in r.queue
      ensures x in r.list
    {
      assert x in s.queue;
    }
  }

  lemma DisabledTidy(s: State, ok: bool, sends: seq<bool>)
    requires Inv(s) && Tidy(s) && s.flight.Disabling?
    ensures Tidy(OnDisabled(s, s.flight.owner, ok, sends))
  {
    hide Held, Agrees, BusyOnly, EnableAgain, Refused;
    var s1 := s.(flight := NoWrite, acked := s.acked && !ok, stale := !ok);
    var k := Refused(s1, sends);
    EnableAgainIs(s1, s.flight.owner, sends);
    TailDistinct(s.queue, if k < |s.queue| then k + 1 else k);
  }

  lemma StepTidy(s: State, i: Input)
    requires Inv(s) && Tidy(s)
    ensures Tidy(Step(s, i))
  {
    hide Inv, Tidy, Register, Unregister, OnEnabled, OnDisabled;
    match i
    case DoRegister(ok) => RegisterTidy(s, ok);
    case DoUnregister(target, ok) => UnregisterTidy(s, target, ok);
    case Answer(ok, ecode, sends) =>
      if s.flight.Enabling? {
        CompletedTidy(s, ecode, sends);
        FailedTidy(s, ecode, sends);
        SameEcode(s, ok, ecode, sends);
      }
      if s.flight.Disabling? { DisabledTidy(s, ok, sends); }
  }

  // ---- the count

  /** How many registered handlers were completed. */
  function Live(list: seq<int>, log: seq<Event>): int {
    if |list| == 0 then 0 else (if WasCompleted(log, list[0]) then 1 else 0) + Live(list[1..], log)
  }

  lemma {:induction false} LiveSame(list: seq<int>, a: seq<Event>, b: seq<Event>)
    requires forall id :: id in list ==> (WasCompleted(a, id) <==> WasCompleted(b, id))
    ensures Live(list, a) == Live(list, b)
    decreases |list|
  {
    hide WasCompleted;
    if |list| > 0 {
      assert list[0] in list && forall id :: id in list[1..] ==> id in list;
      LiveSame(list[1..], a, b);
    }
  }

  lemma {:induction false} LiveAppend(a: seq<int>, id: int, log: seq<Event>)
    ensures Live(a + [id], log) == Live(a, log) + if WasCompleted(log, id) then 1 else 0
    decreases |a|
  {
    hide WasCompleted;
    var all := a + [id];
    if |a| == 0 {
      assert all[1..] == [];
    } else {
      assert all[0] == a[0] && all[1..] == a[1..] + [id];
      LiveAppend(a[1..], id, log);
    }
  }

  lemma {:induction false} LiveWithout(list: seq<int>, id: int, log: seq<Event>)
    ensures Live(Without(list, id), log) == Live(list, log) - if id in list && WasCompleted(log, id) then 1 else 0
    decreases |list|
  {
    hide WasCompleted;
    if |list| > 0 {
      assert list == [list[0]] + list[1..];
      if list[0] != id {
        LiveWithout(list[1..], id, log);
        assert ([list[0]] + Without(list[1..], id))[1..] == Without(list[1..], id);
      }
    }
  }

  /** One more completion of a registered handler that had none. */
  lemma {:induction false} LivePush(list: seq<int>, log: seq<Event>, id: int)
    requires Distinct(list) && !WasCompleted(log, id)
    ensures Live(list, log + [Completed(id)]) == Live(list, log) + if id in list then 1 else 0
    decreases |list|
  {
    hide WasCompleted;
    if |list| > 0 {
      LogPush(log, Completed(id), list[0]);
      LivePush(list[1..], log, id);
      assert id in list <==> id == list[0] || id in list[1..];
    }
  }

  lemma {:induction false} LiveOther(list: seq<int>, log: seq<Event>, e: Event)
    requires !e.Completed? || e.id !in list
    ensures Live(list, log + [e]) == Live(list, log)
  {
    hide WasCompleted;
    forall id | id in list
      ensures WasCompleted(log + [e], id) <==> WasCompleted(log, id)
    {
      LogPush(log, e, id);
    }
    LiveSame(list, log + [e], log);
  }

  lemma {:induction false} LiveCompleteAll(s: State, ids: seq<int>)
    requires Distinct(s.list) && Distinct(ids)
    requires forall id :: id in ids ==> id in s.list && !WasCompleted(s.log, id)
    ensures Live(s.list, CompleteAll(s, ids).log) == Live(s.list, s.log) + |ids|
    decreases |ids|
  {
    hide WasCompleted;
    if |ids| > 0 {
      var s1 := Complete(s, ids[0]);
      assert ids[0] in ids && forall id :: id in ids[1..] ==> id in ids;
      TailDistinct(ids, 0);
      LivePush(s.list, s.log, ids[0]);
      forall id | id in ids[1..]
        ensures !WasCompleted(s1.log, id)
      {
        LogPush(s.log, Completed(ids[0]), id);
      }
      TailDistinct(ids, 1);
      LiveCompleteAll(s1, ids[1..]);
    }
  }

  /** Every registered handler has its fate. */
  predicate Fates(s: State, lost: set<int>) {
    (forall id :: id in s.list ==> Fate(s, lost, id)) && (forall id :: id in lost ==> id < s.nextId)
  }

  predicate Counted(s: State, surplus: int) { s.count == Live(s.list, s.log) + surplus }

  lemma RegisterCounted(s: State, ok: bool, g: int)
    requires Inv(s) && Tidy(s) && Counted(s, g)
    ensures Counted(Register(s, ok), g)
  {
    hide Held, Agrees, BusyOnly, WasCompleted, Live;
    var id := s.nextId;
    NeverSeen(s);
    LiveAppend(s.list, id, s.log);
    LiveAppend(s.list, id, s.log + [Completed(id)]);
    LiveOther(s.list, s.log, Completed(id));
    LogPush(s.log, Completed(id), id);
  }

  lemma UnregisterCounted(s: State, target: int, ok: bool, g: int)
    requires Inv(s) && Counted(s, g)
    ensures Counted(Unregister(s, target, ok), g +
                    if Releases(s, target) && !WasCompleted(s.log, target) then -1 else 0)
  {
    hide Held, Agrees, WasCompleted, Live;
    LiveWithout(s.list, target, s.log);
    LiveOther(Without(s.list, target), s.log, Released(target));
  }

  lemma FailedCounted(s: State, ecode: int, sends: seq<bool>, g: int)
    requires Inv(s) && Tidy(s) && s.flight.Enabling? && Counted(s, g)
    requires s.flight.owner in s.list ==> !WasCompleted(s.log, s.flight.owner)
    ensures Counted(OnEnabled(s, s.flight.owner, false, ecode, sends), g)
  {
    hide Held, Agrees, BusyOnly, WasCompleted, Live, EnableNext, Refused;
    var owner := s.flight.owner;
    var s1 := s.(flight := NoWrite, list := Without(s.list, owner), log := s.log + [Failed(owner, ecode)]);
    EnableNextIs(s1, sends);
    LiveWithout(s.list, owner, s.log);
    LiveOther(Without(s.list, owner), s.log, Failed(owner, ecode));
  }

  lemma EnabledCounted(s: State, lost: set<int>, ecode: int, sends: seq<bool>, g: int)
    requires Inv(s) && Tidy(s) && Fates(s, lost) && s.flight.Enabling? && Counted(s, g)
    ensures Counted(OnEnabled(s, s.flight.owner, true, ecode, sends), g + if s.flight.owner in s.list then 0 else 1)
  {
    hide Held, Agrees, BusyOnly, WasCompleted, WasFailed, Live, CompleteAll;
    var owner := s.flight.owner;
    var s1 := s.(flight := NoWrite, queue := [], acked := true, stale := false);
    var ids := [owner] + s.queue;
    CompleteAllIs(s1, ids);
    WaitingIncomplete(s, lost);
    FirstCompleted(s1, owner, s.queue);
    var s2 := Complete(s1, owner);
    forall id | id in s.queue
      ensures !WasCompleted(s2.log, id)
    {
      LogPush(s.log, Completed(owner), id);
    }
    LiveCompleteAll(s2, s.queue);
    if owner in s.list {
      LivePush(s.list, s.log, owner);
    } else {
      LiveOther(s.list, s.log, Completed(owner));
    }
  }

  lemma FirstCompleted(s: State, owner: int, q: seq<int>)
    ensures CompleteAll(s, [owner] + q) == CompleteAll(Complete(s, owner), q)
  {
    assert ([owner] + q)[1..] == q;
  }

  lemma WaitingIncomplete(s: State, lost: set<int>)
    requires Tidy(s) && Fates(s, lost) && s.flight.Enabling?
    ensures forall id :: id in s.queue ==> id in s.list && !WasCompleted(s.log, id)
    ensures s.flight.owner in s.list ==> !WasCompleted(s.log, s.flight.owner)
  {
    hide WasCompleted, WasFailed;
    forall id | id in s.queue
      ensures id in s.list && !WasCompleted(s.log, id)
    {
      assert Fate(s, lost, id);
    }
    if s.flight.owner in s.list { assert Fate(s, lost, s.flight.owner); }
  }

  lemma DisabledCounted(s: State, ok: bool, sends: seq<bool>, g: int)
    requires s.flight.Disabling? && Counted(s, g)
    ensures Counted(OnDisabled(s, s.flight.owner, ok, sends), g)
  {
    hide WasCompleted, Live, EnableAgain, Refused;
    EnableAgainIs(s.(flight := NoWrite, acked := s.acked && !ok, stale := !ok), s.flight.owner, sends);
  }

  lemma StepCounted(s: State, lost: set<int>, i: Input, g: int)
    requires Inv(s) && Tidy(s) && Fates(s, lost) && Counted(s, g)
    ensures Counted(Step(s, i), g + Surplus(s, i))
  {
    hide Inv, Tidy, Fates, Counted, Register, Unregister, OnEnabled, OnDisabled, WasCompleted, Releases;
    match i
    case DoRegister(ok) => RegisterCounted(s, ok, g);
    case DoUnregister(target, ok) => UnregisterCounted(s, target, ok, g);
    case Answer(ok, ecode, sends) =>
      if s.flight.Enabling? {
        WaitingIncomplete(s, lost);
        EnabledCounted(s, lost, ecode, sends, g);
        FailedCounted(s, ecode, sends, g);
        SameEcode(s, ok, ecode, sends);
      }
      if s.flight.Disabling? { DisabledCounted(s, ok, sends, g); }
  }

  lemma SameEcode(s: State, ok: bool, ecode: int, sends: seq<bool>)
    requires s.flight.Enabling?
    ensures ok ==> OnEnabled(s, s.flight.owner, ok, ecode, sends) == OnEnabled(s, s.flight.owner, true, ecode, sends)
    ensures !ok ==> OnEnabled(s, s.flight.owner, ok, ecode, sends) == OnEnabled(s, s.flight.owner, false, ecode, sends)
  {
    hide CompleteAll, EnableNext;
  }

  // ---- every run

  lemma FatesStep(s: State, lost: set<int>, i: Input)
    requires Inv(s) && Tidy(s) && Fates(s, lost)
    ensures Fates(Step(s, i), lost + Stranded(s, i))
  {
    hide Inv, Tidy, Step, Fate, Stranded;
    var r := Step(s, i);
    StrandedOld(s, i);
    IdsGrow(s, i);
    forall id | id in r.list
      ensures Fate(r, lost + Stranded(s, i), id)
    {
      NotListed(s, lost, id);
      StepFate(s, lost, i, id);
    }
  }

  lemma NotListed(s: State, lost: set<int>, id: int)
    requires Fates(s, lost)
    ensures Fate(s, lost, id)
  {
    hide WasCompleted, WasFailed, Waits;
  }

  lemma StrandedOld(s: State, i: Input)
    requires Inv(s)
    ensures forall id :: id in Stranded(s, i) ==> id < s.nextId && id in s.queue
  {
    hide Held, Agrees, BusyOnly, Refused;
  }

  lemma IdsGrow(s: State, i: Input)
    requires Inv(s)
    ensures Step(s, i).nextId >= s.nextId
  {
    hide Held, Agrees, BusyOnly, NewIds, Exclusive, EnableNext, EnableAgain, CompleteAll;
    if i.Answer? && s.flight.Enabling? {
      var s1 := s.(flight := NoWrite, queue := [], acked := true, stale := false);
      CompleteAllIs(s1, [s.flight.owner] + s.queue);
      EnableNextIs(s.(flight := NoWrite, list := Without(s.list, s.flight.owner),
                      log := s.log + [Failed(s.flight.owner, i.ecode)]), i.sends);
    }
    if i.Answer? && s.flight.Disabling? {
      EnableAgainIs(s.(flight := NoWrite, acked := s.acked && !i.ok, stale := !i.ok), s.flight.owner, i.sends);
    }
  }

  lemma {:induction false} RunFates(s: State, lost: set<int>, g: int, inputs: seq<Input>)
    requires Inv(s) && Tidy(s) && Fates(s, lost) && Counted(s, g)
    ensures var r := Run(s, inputs);
            Inv(r) && Tidy(r) && Fates(r, lost + AllStranded(s, inputs)) && Counted(r, g + AllSurplus(s, inputs))
    decreases |inputs|
  {
    hide Inv, Tidy, Fates, Counted, Step, Stranded, Surplus;
    if |inputs| > 0 {
      var s1 := Step(s, inputs[0]);
      FatesStep(s, lost, inputs[0]);
      StepCounted(s, lost, inputs[0], g);
      StepKeeps(s, inputs[0]);
      StepTidy(s, inputs[0]);
      RunFates(s1, lost + Stranded(s, inputs[0]), g + Surplus(s, inputs[0]), inputs[1..]);
      assert lost + Stranded(s, inputs[0]) + AllStranded(s1, inputs[1..]) == lost + AllStranded(s, inputs);
    } else {
      assert lost + AllStranded(s, inputs) == lost;
    }
  }

  lemma NewFates(hasCcc: bool, canEnable: bool)
    ensures var s := New(hasCcc, canEnable);
            Inv(s) && Tidy(s) && Fates(s, {}) && Counted(s, 0)
  {
  }

  /** Whatever happens: a registered handler waits, is the one whose write is in flight, was
      stranded, or was completed, and only one of these; a stranded one was never called; and
      notify_count is the number of registered handlers that were completed, plus the
      completions of handlers that were gone, less the releases of handlers never completed. */
  lemma EveryHandlerHasItsFate(hasCcc: bool, canEnable: bool, inputs: seq<Input>, id: int)
    ensures var s := Run(New(hasCcc, canEnable), inputs);
            var lost := AllStranded(New(hasCcc, canEnable), inputs);
            && (id in s.list ==>
                  && !WasFailed(s.log, id) && !(id in lost && Waits(s, id))
                  && (WasCompleted(s.log, id) <==> id !in lost && !Waits(s, id)))
            && s.count == Live(s.list, s.log) + AllSurplus(New(hasCcc, canEnable), inputs)
  {
    hide Run, AllStranded, AllSurplus, WasCompleted, WasFailed, Waits, Inv, Tidy, Live;
    NewFates(hasCcc, canEnable);
    RunFates(New(hasCcc, canEnable), {}, 0, inputs);
    var s := Run(New(hasCcc, canEnable), inputs);
    var lost := AllStranded(New(hasCcc, canEnable), inputs);
    assert {} + lost == lost;
    NotListed(s, lost, id);
  }

  /** At rest a registered handler has been completed if and only if it was not stranded, and
      a stranded one has heard nothing, neither success nor error. */
  lemma CompletedExactly(hasCcc: bool, canEnable: bool, inputs: seq<Input>, id: int)
    requires var s := Run(New(hasCcc, canEnable), inputs); s.flight.NoWrite? && id in s.list
    ensures var s := Run(New(hasCcc, canEnable), inputs);
            && (WasCompleted(s.log, id) <==> id !in AllStranded(New(hasCcc, canEnable), inputs))
            && !WasFailed(s.log, id)
  {
    hide Run, AllStranded, AllSurplus, WasCompleted, WasFailed, Inv, Live;
    EveryHandlerHasItsFate(hasCcc, canEnable, inputs, id);
    NewInv(hasCcc, canEnable);
    RunKeeps(New(hasCcc, canEnable), inputs);
    RestMeansNobodyWaits(Run(New(hasCcc, canEnable), inputs), id);
  }

  lemma RestMeansNobodyWaits(s: State, id: int)
    requires Inv(s) && s.flight.NoWrite?
    ensures !Waits(s, id)
  {
    hide Held, Agrees, BusyOnly, NewIds;
  }

  // ---- when handlers are stranded

  /** A write back with working sends strands exactly the first handler that waits. */
  lemma WriteBackStrandsTheFirst(s: State, ok: bool, ecode: int)
    requires s.flight.Disabling? && !s.aborted && s.canEnable
    ensures Stranded(s, Answer(ok, ecode, [])) == if |s.queue| > 0 then {s.queue[0]} else {}
  {
    if |s.queue| > 0 {
      assert s.queue[..1] == [s.queue[0]];
    }
  }

  /** A failed enabling write with working sends strands nobody. */
  lemma FailureStrandsNobody(s: State, ecode: int)
    requires s.flight.Enabling? && s.canEnable
    ensures Stranded(s, Answer(false, ecode, [])) == {}
  {
  }

  /** Nobody registers while the descriptor is being written back. */
  predicate Undisturbed(s: State, i: Input) { i.DoRegister? && !s.aborted ==> !s.flight.Disabling? }

  predicate AllUndisturbed(s: State, inputs: seq<Input>)
    decreases |inputs|
  {
    |inputs| == 0 || (Undisturbed(s, inputs[0]) && AllUndisturbed(Step(s, inputs[0]), inputs[1..]))
  }

  /** Whatever bt_att_send is asked for goes out. */
  predicate Working(inputs: seq<Input>) {
    forall i :: 0 <= i < |inputs| && inputs[i].Answer? ==> AllTrue(inputs[i].sends)
  }

  predicate AllTrue(sends: seq<bool>) { forall k :: 0 <= k < |sends| ==> sends[k] }

  /** What enables can be written. */
  predicate CanWrite(s: State) {
    (s.acked ==> s.canEnable) && (s.flight.Enabling? ==> s.canEnable) && (s.flight.Disabling? ==> s.acked)
  }

  lemma CanWriteKeeps(s: State, i: Input)
    requires Inv(s) && CanWrite(s)
    ensures CanWrite(Step(s, i)) && Step(s, i).canEnable == s.canEnable
  {
    hide Held, BusyOnly, NewIds, EnableNext, EnableAgain, CompleteAll;
    if i.Answer? && s.flight.Enabling? {
      var s0 := s.(flight := NoWrite);
      CompleteAllIs(s0.(queue := [], acked := true, stale := false), [s.flight.owner] + s.queue);
      EnableNextDrains(s0.(list := Without(s.list, s.flight.owner), log := s.log + [Failed(s.flight.owner, i.ecode)]),
                       i.sends);
    }
    if i.Answer? && s.flight.Disabling? {
      EnableAgainDrains(s.(flight := NoWrite, acked := s.acked && !i.ok, stale := !i.ok), s.flight.owner, i.sends);
    }
  }

  /** A write back finds nobody waiting. */
  predicate AloneWhenDisabling(s: State) { s.flight.Disabling? ==> |s.queue| == 0 }

  lemma StepUndisturbed(s: State, i: Input)
    requires Inv(s) && CanWrite(s) && AloneWhenDisabling(s) && Undisturbed(s, i)
    requires i.Answer? ==> AllTrue(i.sends)
    ensures Stranded(s, i) == {} && AloneWhenDisabling(Step(s, i))
  {
    hide Held, BusyOnly, NewIds, Agrees, EnableNext, EnableAgain, CompleteAll;
    if i.Answer? && s.flight.Enabling? {
      var s0 := s.(flight := NoWrite);
      CompleteAllIs(s0.(queue := [], acked := true, stale := false), [s.flight.owner] + s.queue);
      EnableNextDrains(s0.(list := Without(s.list, s.flight.owner), log := s.log + [Failed(s.flight.owner, i.ecode)]),
                       i.sends);
    }
    if i.Answer? && s.flight.Disabling? {
      EnableAgainDrains(s.(flight := NoWrite, acked := s.acked && !i.ok, stale := !i.ok), s.flight.owner, i.sends);
    }
  }

  lemma WorkingTail(inputs: seq<Input>)
    requires Working(inputs) && |inputs| > 0
    ensures Working(inputs[1..]) && (inputs[0].Answer? ==> AllTrue(inputs[0].sends))
  {
  }

  lemma {:induction false} UndisturbedStrandsNobody(s: State, inputs: seq<Input>)
    requires Inv(s) && CanWrite(s) && AloneWhenDisabling(s) && AllUndisturbed(s, inputs) && Working(inputs)
    ensures AllStranded(s, inputs) == {}
    decreases |inputs|
  {
    hide Inv, CanWrite, AloneWhenDisabling, Step, Undisturbed, Stranded, Working, AllTrue;
    if |inputs| > 0 {
      WorkingTail(inputs);
      StepUndisturbed(s, inputs[0]);
      CanWriteKeeps(s, inputs[0]);
      StepKeeps(s, inputs[0]);
      UndisturbedStrandsNobody(Step(s, inputs[0]), inputs[1..]);
    }
  }

  /** Somebody waits behind a write back: it ends with a handler stranded. */
  lemma {:induction false} WaitingIsStranded(s: State, inputs: seq<Input>)
    requires Inv(s) && CanWrite(s) && s.flight.Disabling? && |s.queue| > 0 && Working(inputs)
    ensures AllStranded(s, inputs) != {} || !Run(s, inputs).flight.NoWrite?
    decreases |inputs|
  {
    hide Held, BusyOnly, NewIds, Agrees, OnDisabled, OnEnabled;
    if |inputs| > 0 {
      var i := inputs[0];
      WorkingTail(inputs);
      CanWriteKeeps(s, i);
      StepKeeps(s, i);
      if i.Answer? && !s.aborted {
        assert s.queue[0] in s.queue[..1];
        assert s.queue[0] in Stranded(s, i);
      } else {
        WaitingIsStranded(Step(s, i), inputs[1..]);
      }
    }
  }

  lemma {:induction false} DisturbedStrands(s: State, inputs: seq<Input>)
    requires Inv(s) && CanWrite(s) && !AllUndisturbed(s, inputs) && Working(inputs)
    ensures AllStranded(s, inputs) != {} || !Run(s, inputs).flight.NoWrite?
    decreases |inputs|
  {
    hide Inv, CanWrite, Step, Stranded, Working, AllTrue;
    WorkingTail(inputs);
    CanWriteKeeps(s, inputs[0]);
    StepKeeps(s, inputs[0]);
    if Undisturbed(s, inputs[0]) {
      DisturbedStrands(Step(s, inputs[0]), inputs[1..]);
    } else {
      QueuedBehindWriteBack(s, inputs[0].sent);
      WaitingIsStranded(Step(s, inputs[0]), inputs[1..]);
    }
  }

  lemma QueuedBehindWriteBack(s: State, sent: bool)
    requires Inv(s) && s.flight.Disabling? && !s.aborted
    ensures var r := Step(s, DoRegister(sent)); r.flight.Disabling? && |r.queue| > 0
  {
    hide Held, BusyOnly, NewIds, Agrees;
  }

  /** With working sends, in a run that ends at rest: a handler was stranded if and only if
      somebody registered while the descriptor was being written back. */
  lemma StrandedExactlyWhenDisturbed(hasCcc: bool, canEnable: bool, inputs: seq<Input>)
    requires Working(inputs) && Run(New(hasCcc, canEnable), inputs).flight.NoWrite?
    ensures AllStranded(New(hasCcc, canEnable), inputs) == {} <==> AllUndisturbed(New(hasCcc, canEnable), inputs)
  {
    hide Run, AllStranded, AllUndisturbed, Inv, Working;
    var s := New(hasCcc, canEnable);
    NewInv(hasCcc, canEnable);
    if AllUndisturbed(s, inputs) {
      UndisturbedStrandsNobody(s, inputs);
    } else {
      DisturbedStrands(s, inputs);
    }
  }

  /** As long as nobody is stranded every write is made for a registered handler. */
  predicate Owned(s: State) { s.flight.Enabling? ==> s.flight.owner in s.list }

  lemma StepOwned(s: State, i: Input)
    requires Inv(s) && Tidy(s) && Fates(s, {}) && Owned(s) && Stranded(s, i) == {}
    ensures Owned(Step(s, i)) && Surplus(s, i) == 0
  {
    hide Held, BusyOnly, Agrees, EnableNext, EnableAgain, CompleteAll, WasCompleted, WasFailed, Refused, Distinct;
    if i.DoUnregister? && i.id in s.list {
      NotListed(s, {}, i.id);
    }
    if i.Answer? && s.flight.Enabling? {
      var s0 := s.(flight := NoWrite);
      CompleteAllIs(s0.(queue := [], acked := true, stale := false), [s.flight.owner] + s.queue);
      EnableNextIs(s0.(list := Without(s.list, s.flight.owner), log := s.log + [Failed(s.flight.owner, i.ecode)]),
                   i.sends);
      WithoutIs(s.list, s.flight.owner);
    }
    if i.Answer? && s.flight.Disabling? && !s.aborted {
      WriteBackAlone(s, i);
    }
  }

  /** A write back strands the first that waits. */
  lemma WriteBackAlone(s: State, i: Input)
    requires i.Answer? && s.flight.Disabling? && !s.aborted
    ensures |s.queue| > 0 ==> s.queue[0] in Stranded(s, i)
    ensures |s.queue| == 0 ==> Step(s, i).flight.NoWrite?
  {
    var k := Refused(s, i.sends);
    assert |s.queue| > 0 ==> s.queue[0] in s.queue[..if k < |s.queue| then k + 1 else k];
  }

  lemma {:induction false} RunOwned(s: State, inputs: seq<Input>)
    requires Inv(s) && Tidy(s) && Fates(s, {}) && Owned(s) && AllStranded(s, inputs) == {}
    ensures AllSurplus(s, inputs) == 0
    decreases |inputs|
  {
    hide Inv, Tidy, Fates, Owned, Step, Stranded, Surplus;
    if |inputs| > 0 {
      NoneOfUnion(Stranded(s, inputs[0]), AllStranded(Step(s, inputs[0]), inputs[1..]));
      StepOwned(s, inputs[0]);
      FatesStep(s, {}, inputs[0]);
      StepKeeps(s, inputs[0]);
      StepTidy(s, inputs[0]);
      RunOwned(Step(s, inputs[0]), inputs[1..]);
    }
  }

  lemma NoneOfUnion(a: set<int>, b: set<int>)
    ensures a + b == {} ==> a == {} && b == {} && {} + a == {}
  {
    if a + b == {} {
      assert forall x :: x in a ==> x in a + b;
      assert forall x :: x in b ==> x in a + b;
    }
  }

  lemma {:induction false} LiveAll(list: seq<int>, log: seq<Event>)
    requires forall id :: id in list ==> WasCompleted(log, id)
    ensures Live(list, log) == |list|
    decreases |list|
  {
    hide WasCompleted;
    if |list| > 0 {
      assert list[0] in list && forall id :: id in list[1..] ==> id in list;
      LiveAll(list[1..], log);
    }
  }

  /** If nobody was stranded, then at rest every registered handler has been completed, and
      notify_count is their number. */
  lemma LiveHandlersAreCounted(hasCcc: bool, canEnable: bool, inputs: seq<Input>)
    requires AllStranded(New(hasCcc, canEnable), inputs) == {}
    ensures var s := Run(New(hasCcc, canEnable), inputs);
            s.flight.NoWrite? ==> s.count == |s.list| && forall id :: id in s.list ==> WasCompleted(s.log, id)
  {
    hide Run, AllStranded, AllSurplus, WasCompleted, WasFailed, Inv, Tidy, Fates, Live;
    var s := Run(New(hasCcc, canEnable), inputs);
    NewFates(hasCcc, canEnable);
    RunOwned(New(hasCcc, canEnable), inputs);
    EveryHandlerHasItsFate(hasCcc, canEnable, inputs, 0);
    if s.flight.NoWrite? {
      forall id | id in s.list
        ensures WasCompleted(s.log, id)
      {
        CompletedExactly(hasCcc, canEnable, inputs, id);
      }
      LiveAll(s.list, s.log);
    }
  }

  // ---- at inputs

  /** A handler was enabled and unregistered, another one registered during the write back. */
  function Disturbed(): State {
    Step(Step(Step(Step(Step(New(true, true), DoRegister(true)), Answer(true, 0, [])), DoUnregister(1, true)),
              DoRegister(true)), Answer(true, 0, []))
  }

  lemma DisturbedIs()
    ensures var s := Disturbed();
            && s.hasCcc && !s.aborted && s.flight == Enabling(1) && s.queue == [] && s.list == [2] && s.count == 0
            && s.log == [Completed(1), Released(1)]
  {
    var s0 := New(true, true);
    var s1 := Step(s0, DoRegister(true));
    var s2 := Step(s1, Answer(true, 0, []));
    assert s1.list == [1] && [1] + s1.queue == [1] && [1][1..] == [];
    assert s2.count == 1 && s2.busy == {};
    var s3 := Step(s2, DoUnregister(1, true));
    assert s3.list == [] && s3.flight == Disabling(1);
    var s4 := Step(s3, DoRegister(true));
    assert s4.queue == [2] && s4.list == [2];
    var s5 := Step(s4, Answer(true, 0, []));
  }

  lemma DisturbedThen(i: Input)
    ensures Run(New(true, true), [DoRegister(true), Answer(true, 0, []), DoUnregister(1, true), DoRegister(true),
                                  Answer(true, 0, []), i]) == Step(Disturbed(), i)
  {
    hide Step, Run;
    RunSix(New(true, true), DoRegister(true), Answer(true, 0, []), DoUnregister(1, true), DoRegister(true),
           Answer(true, 0, []), i);
  }

  /** Somebody who registers during a write back is forgotten: the descriptor is enabled in
      the name of the handler that has gone, and if the server refuses, the new handler stays
      in the list uncounted and was never called. */
  lemma RegisteringDuringWriteBackIsForgotten()
    ensures var s := Run(New(true, true),
                         [DoRegister(true), Answer(true, 0, []), DoUnregister(1, true), DoRegister(true),
                          Answer(true, 0, []), Answer(false, 5, [])]);
            s.flight.NoWrite? && s.list == [2] && s.count == 0 && s.log == [Completed(1), Released(1), Failed(1, 5)]
  {
    hide Disturbed, Run;
    DisturbedIs();
    assert Without([2], 1) == [2];
    DisturbedThen(Answer(false, 5, []));
  }

  /** If the server accepts instead, the handler that has gone is called a second time, and
      notify_count hides it: it equals the number of registered handlers, none of which was
      ever called. */
  lemma TheOneThatHasGoneIsCalledAgain()
    ensures var s := Run(New(true, true),
                         [DoRegister(true), Answer(true, 0, []), DoUnregister(1, true), DoRegister(true),
                          Answer(true, 0, []), Answer(true, 0, [])]);
            && s.flight.NoWrite? && s.list == [2] && s.count == |s.list| == 1
            && s.log == [Completed(1), Released(1), Completed(1)] && !WasCompleted(s.log, 2)
  {
    hide Disturbed, Run;
    DisturbedIs();
    assert [1] + Disturbed().queue == [1];
    CompleteOne(Disturbed().(flight := NoWrite, queue := [], acked := true, stale := false), 1);
    DisturbedThen(Answer(true, 0, []));
  }

  lemma CompleteOne(s: State, id: int)
    ensures CompleteAll(s, [id]) == Complete(s, id)
  {
    assert [id][1..] == [];
  }

  lemma RunCons(s: State, i: Input, rest: seq<Input>)
    ensures Run(s, [i] + rest) == Run(Step(s, i), rest)
  {
    hide Step;
    assert ([i] + rest)[1..] == rest;
  }

  lemma RunSix(s: State, a: Input, b: Input, c: Input, d: Input, e: Input, f: Input)
    ensures Run(s, [a, b, c, d, e, f]) == Step(Step(Step(Step(Step(Step(s, a), b), c), d), e), f)
  {
    hide Step, Run;
    var s1 := Step(s, a);
    var s2 := Step(s1, b);
    var s3 := Step(s2, c);
    var s4 := Step(s3, d);
    var s5 := Step(s4, e);
    RunCons(s, a, [b, c, d, e, f]);
    RunCons(s1, b, [c, d, e, f]);
    RunCons(s2, c, [d, e, f]);
    RunCons(s3, d, [e, f]);
    RunCons(s4, e, [f]);
    RunCons(s5, f, []);
    RunNothing(Step(s5, f));
    assert [a] + [b, c, d, e, f] == [a, b, c, d, e, f] && [b] + [c, d, e, f] == [b, c, d, e, f]
           && [c] + [d, e, f] == [c, d, e, f];
    assert [d] + [e, f] == [d, e, f] && [e] + [f] == [e, f] && [f] + [] == [f];
  }

  lemma RunNothing(s: State)
    ensures Run(s, []) == s
  {
  }
}
