/** Notification handlers of one characteristic in bluez/gatt-client.c: the first one writes
    the Client Characteristic Configuration descriptor, the others share it, the last one to go
    writes it back. */
module Ccc {
  import opened Sequences

  const MAX_COUNT := 0x7FFF_FFFF

  /** The write that is on its way, with the handler it was made for. */
  datatype Flight = NoWrite | Enabling(owner: int) | Disabling(owner: int)

  datatype Event =
    | Completed(id: int)           // complete_notify_request
    | Failed(id: int, ecode: int)  // the registration callback got an error
    | Released(id: int)            // an unregistered handler gave up its count

  datatype State = State(
    hasCcc: bool,       // ccc_handle is not 0
    canEnable: bool,    // the characteristic can notify or indicate
    count: int,         // notify_count
    flight: Flight,
    queue: seq<int>,    // reg_notify_queue
    list: seq<int>,     // the handlers of this characteristic in notify_list
    busy: set<int>,     // handlers whose att_id is not 0
    acked: bool,        // the value that the server acknowledged last enables
    stale: bool,        // the last disabling write failed
    nextId: int,
    aborted: bool,      // an assertion of unregister failed
    log: seq<Event>)

  function New(hasCcc: bool, canEnable: bool): State {
    State(hasCcc, canEnable, 0, NoWrite, [], [], {}, false, false, 1, false, [])
  }

  /** Whether the next bt_att_send succeeds. */
  predicate Sends(sends: seq<bool>) { |sends| == 0 || sends[0] }

  function Later(sends: seq<bool>): seq<bool> { if |sends| == 0 then [] else sends[1..] }

  /** notify_data_write_ccc with enable. */
  function WriteEnable(s: State, owner: int, ok: bool): State {
    if !s.canEnable then s
    else if !ok then s.(flight := NoWrite, busy := s.busy - {owner})
    else s.(flight := Enabling(owner), busy := s.busy + {owner})
  }

  predicate Written(s: State, ok: bool) { s.canEnable && ok }

  function Complete(s: State, id: int): State {
    s.(count := s.count + 1, busy := s.busy - {id}, log := s.log + [Completed(id)])
  }

  function CompleteAll(s: State, ids: seq<int>): State
    decreases |ids|
  {
    if |ids| == 0 then s else CompleteAll(Complete(s, ids[0]), ids[1..])
  }

  /** The loop of enable_ccc_callback after an error. */
  function EnableNext(s: State, sends: seq<bool>): State
    decreases |s.queue|
  {
    if |s.queue| == 0 then s
    else
      var s1 := s.(queue := s.queue[1..]);
      if Written(s, Sends(sends)) then WriteEnable(s1, s.queue[0], true)
      else EnableNext(WriteEnable(s1, s.queue[0], false), Later(sends))
  }

  /** The loop of disable_ccc_callback: the write is made for the old handler again. */
  function EnableAgain(s: State, owner: int, sends: seq<bool>): State
    decreases |s.queue|
  {
    if |s.queue| == 0 then s
    else
      var s1 := s.(queue := s.queue[1..]);
      if Written(s, Sends(sends)) then WriteEnable(s1, owner, true)
      else EnableAgain(WriteEnable(s1, owner, false), owner, Later(sends))
  }

  function OnEnabled(s: State, owner: int, ok: bool, ecode: int, sends: seq<bool>): State {
    var s0 := s.(flight := NoWrite);
    if !ok then EnableNext(s0.(list := Without(s.list, owner), log := s.log + [Failed(owner, ecode)]), sends)
    else CompleteAll(s0.(queue := [], acked := true, stale := false), [owner] + s.queue)
  }

  function OnDisabled(s: State, owner: int, ok: bool, sends: seq<bool>): State {
    EnableAgain(s.(flight := NoWrite, acked := s.acked && !ok, stale := !ok), owner, sends)
  }

  /** bt_gatt_client_register_notify. */
  function Register(s: State, ok: bool): State {
    if s.count == MAX_COUNT then s
    else
      var id := s.nextId;
      var s1 := s.(nextId := id + 1, list := s.list + [id]);
      if !s.flight.NoWrite? then s1.(queue := s.queue + [id])
      else if s.count > 0 || !s.hasCcc then Complete(s1, id)
      else if Written(s, ok) then WriteEnable(s1, id, true)
      else WriteEnable(s1, id, false).(list := s.list)
  }

  /** bt_gatt_client_unregister_notify with complete_unregister_notify. */
  function Unregister(s: State, id: int, ok: bool): State {
    if id == 0 || id !in s.list then s
    else if s.count <= 0 || !s.flight.NoWrite? then s.(aborted := true)
    else
      var s1 := s.(list := Without(s.list, id));
      if id in s.busy then s1
      else
        var s2 := s1.(count := s.count - 1, log := s.log + [Released(id)]);
        if s2.count != 0 || !s.hasCcc then s2
        else if ok then s2.(flight := Disabling(id), busy := s2.busy + {id})
        else s2.(flight := NoWrite, busy := s2.busy - {id}, stale := true)
  }

  datatype Input =
    | DoRegister(sent: bool)
    | DoUnregister(id: int, sent: bool)
    | Answer(ok: bool, ecode: int, sends: seq<bool>)  // the server's answer to the write in flight

  function Step(s: State, i: Input): State {
    if s.aborted then s
    else
      match i
      case DoRegister(ok) => Register(s, ok)
      case DoUnregister(id, ok) => Unregister(s, id, ok)
      case Answer(ok, ecode, sends) =>
        match s.flight
        case NoWrite => s
        case Enabling(owner) => OnEnabled(s, owner, ok, ecode, sends)
        case Disabling(owner) => OnDisabled(s, owner, ok, sends)
  }

  function Run(s: State, inputs: seq<Input>): State
    decreases |inputs|
  {
    if |inputs| == 0 then s else Run(Step(s, inputs[0]), inputs[1..])
  }

  // ---- the invariant

  /** Handlers completed so far, less those that gave up their count. */
  function Held(log: seq<Event>): int
    decreases |log|
  {
    if |log| == 0 then 0
    else
      Held(log[..|log| - 1]) + match log[|log| - 1]
                               case Completed(_) => 1
                               case Released(_) => -1
                               case Failed(_, _) => 0
  }

  lemma HeldPush(log: seq<Event>, e: Event)
    ensures Held(log + [e]) == Held(log) + (if e.Completed? then 1 else if e.Released? then -1 else 0)
  {
    assert (log + [e])[..|log|] == log;
  }

  /** While a write is on its way nobody is counted, and only then somebody waits. */
  predicate Exclusive(s: State) {
    && 0 <= s.count
    && (!s.flight.NoWrite? ==> s.count == 0 && s.hasCcc)
    && (s.flight.NoWrite? ==> |s.queue| == 0)
  }

  /** At rest the acknowledged value enables exactly if somebody is counted, or the last
      disabling write failed. */
  predicate Agrees(s: State) {
    s.hasCcc ==>
      match s.flight
      case NoWrite => (s.acked <==> s.count > 0 || s.stale) && (s.stale ==> s.count == 0)
      case Enabling(_) => s.acked <==> s.stale
      case Disabling(_) => s.acked && !s.stale
  }

  /** Only the handler of the write in flight has a request at the ATT layer. */
  predicate BusyOnly(s: State) {
    match s.flight
    case Enabling(owner) => forall id :: id in s.list && id in s.busy ==> id == owner
    case _ => forall id :: id in s.list ==> id !in s.busy
  }

  predicate NewIds(s: State) {
    1 <= s.nextId && (forall id :: id in s.list ==> id < s.nextId) && (forall id :: id in s.busy ==> id < s.nextId)
    && (forall i, j :: 0 <= i < j < |s.list| ==> s.list[i] != s.list[j])
    && (!s.flight.NoWrite? ==> s.flight.owner < s.nextId)
    && (forall i :: 0 <= i < |s.queue| ==> s.queue[i] < s.nextId)
  }

  predicate Inv(s: State) {
    Exclusive(s) && Agrees(s) && BusyOnly(s) && NewIds(s) && s.count == Held(s.log)
  }

  // ---- every step keeps it

  lemma {:induction false} CompleteAllIs(s: State, ids: seq<int>)
    ensures var r := CompleteAll(s, ids);
            && r.count == s.count + |ids| && Held(r.log) == Held(s.log) + |ids|
            && (forall id :: id in r.busy <==> id in s.busy && id !in ids)
            && r == s.(count := r.count, busy := r.busy, log := r.log)
    decreases |ids|
  {
    hide Held;
    if |ids| > 0 {
      HeldPush(s.log, Completed(ids[0]));
      CompleteAllIs(Complete(s, ids[0]), ids[1..]);
      assert forall id :: id in ids <==> id == ids[0] || id in ids[1..];
    }
  }

  /** What the two loops have in common: one write, or an empty queue. */
  ghost predicate Drained(s: State, r: State) {
    && r == s.(flight := r.flight, queue := r.queue, busy := r.busy)
    && !r.flight.Disabling?
    && (r.flight.NoWrite? ==> |r.queue| == 0)
    && (r.flight.Enabling? ==> s.canEnable && |s.queue| > 0)
    && |r.queue| <= |s.queue| && (forall i :: 0 <= i < |r.queue| ==> r.queue[i] in s.queue)
    && (forall id :: id in r.busy ==> id in s.busy || r.flight == Enabling(id))
  }

  lemma {:induction false} EnableNextDrains(s: State, sends: seq<bool>)
    requires s.flight.NoWrite?
    ensures Drained(s, EnableNext(s, sends))
    ensures EnableNext(s, sends).flight.Enabling? ==> EnableNext(s, sends).flight.owner in s.queue
    decreases |s.queue|
  {
    if |s.queue| > 0 {
      assert forall x :: x in s.queue[1..] ==> x in s.queue;
      if !Written(s, Sends(sends)) {
        EnableNextDrains(WriteEnable(s.(queue := s.queue[1..]), s.queue[0], false), Later(sends));
      }
    }
  }

  lemma {:induction false} EnableAgainDrains(s: State, owner: int, sends: seq<bool>)
    requires s.flight.NoWrite?
    ensures Drained(s, EnableAgain(s, owner, sends))
    ensures EnableAgain(s, owner, sends).flight.Enabling? ==> EnableAgain(s, owner, sends).flight.owner == owner
    decreases |s.queue|
  {
    if |s.queue| > 0 {
      assert forall x :: x in s.queue[1..] ==> x in s.queue;
      if !Written(s, Sends(sends)) {
        EnableAgainDrains(WriteEnable(s.(queue := s.queue[1..]), owner, false), owner, Later(sends));
      }
    }
  }

  lemma RegisterKeeps(s: State, ok: bool)
    requires Inv(s)
    ensures Inv(Register(s, ok))
  {
    hide Held;
    HeldPush(s.log, Completed(s.nextId));
    assert forall x :: x in s.list + [s.nextId] <==> x in s.list || x == s.nextId;
    DistinctPush(s.list, s.nextId);
  }

  lemma DistinctPush(list: seq<int>, id: int)
    requires (forall i, j :: 0 <= i < j < |list| ==> list[i] != list[j]) && (forall x :: x in list ==> x < id)
    ensures forall i, j :: 0 <= i < j < |list + [id]| ==> (list + [id])[i] != (list + [id])[j]
  {
    assert forall i :: 0 <= i < |list| ==> list[i] in list;
  }

  lemma UnregisterKeeps(s: State, id: int, ok: bool)
    requires Inv(s)
    ensures Inv(Unregister(s, id, ok))
  {
    hide Held;
    WithoutIs(s.list, id);
    HeldPush(s.log, Released(id));
  }

  lemma EnabledKeeps(s: State, ok: bool, ecode: int, sends: seq<bool>)
    requires Inv(s) && s.flight.Enabling?
    ensures Inv(OnEnabled(s, s.flight.owner, ok, ecode, sends))
  {
    hide Held, EnableNext, CompleteAll;
    var owner := s.flight.owner;
    if ok {
      EnabledWell(s, owner);
    } else {
      WithoutIs(s.list, owner);
      HeldPush(s.log, Failed(owner, ecode));
      var s1 := s.(flight := NoWrite, list := Without(s.list, owner), log := s.log + [Failed(owner, ecode)]);
      EnableNextDrains(s1, sends);
    }
  }

  lemma EnabledWell(s: State, owner: int)
    requires Inv(s) && s.flight == Enabling(owner)
    ensures Inv(OnEnabled(s, owner, true, 0, []))
  {
    hide Held, CompleteAll;
    var s1 := s.(flight := NoWrite, queue := [], acked := true, stale := false);
    CompleteAllIs(s1, [owner] + s.queue);
  }

  lemma DisabledKeeps(s: State, ok: bool, sends: seq<bool>)
    requires Inv(s) && s.flight.Disabling?
    ensures Inv(OnDisabled(s, s.flight.owner, ok, sends))
  {
    hide Held, EnableAgain;
    EnableAgainDrains(s.(flight := NoWrite, acked := s.acked && !ok, stale := !ok), s.flight.owner, sends);
  }

  lemma StepKeeps(s: State, i: Input)
    requires Inv(s)
    ensures Inv(Step(s, i))
  {
    hide Inv, Register, Unregister, OnEnabled, OnDisabled;
    match i
    case DoRegister(ok) => RegisterKeeps(s, ok);
    case DoUnregister(id, ok) => UnregisterKeeps(s, id, ok);
    case Answer(ok, ecode, sends) =>
      if s.flight.Enabling? { EnabledKeeps(s, ok, ecode, sends); }
      if s.flight.Disabling? { DisabledKeeps(s, ok, sends); }
  }

  lemma {:induction false} RunKeeps(s: State, inputs: seq<Input>)
    requires Inv(s)
    ensures Inv(Run(s, inputs))
    decreases |inputs|
  {
    hide Inv, Step;
    if |inputs| > 0 {
      StepKeeps(s, inputs[0]);
      RunKeeps(Step(s, inputs[0]), inputs[1..]);
    }
  }

  lemma NewInv(hasCcc: bool, canEnable: bool)
    ensures Inv(New(hasCcc, canEnable))
  {
  }

  /** In every run, also when sending fails: a write is in flight only while notify_count is 0
      (so the assertions of the two callbacks hold), handlers wait only behind a write, the
      count is never negative and moves with the completions and releases in the log, and at
      rest the server's last acknowledged value enables exactly if the count is not 0 or the
      last disabling write failed. Whose completions these are is the subject of CccHandlers. */
  lemma CountAndConfigurationAgree(hasCcc: bool, canEnable: bool, inputs: seq<Input>)
    ensures var s := Run(New(hasCcc, canEnable), inputs);
            && (!s.flight.NoWrite? ==> s.count == 0)
            && (|s.queue| > 0 ==> !s.flight.NoWrite?)
            && s.count == Held(s.log) >= 0
            && (s.flight.NoWrite? && s.hasCcc ==> (s.acked <==> s.count > 0 || s.stale))
  {
    hide Run, Held, NewIds, BusyOnly;
    NewInv(hasCcc, canEnable);
    RunKeeps(New(hasCcc, canEnable), inputs);
  }
}
