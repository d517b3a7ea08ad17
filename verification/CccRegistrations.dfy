/** When a registration is taken and what it leads to; what the answer to each write leads to;
    when a handler is released. */
module CccRegistrations {
  import opened Sequences
  import opened Ccc

  /** notify_count is an int, which must not overflow; then a write is in flight, or the
      handlers have been enabled, or there is nothing to write, or the write goes out. */
  predicate Taken(s: State, sent: bool) {
    && s.count != 0x7FFF_FFFF
    && (!s.flight.NoWrite? || s.count > 0 || !s.hasCcc || (s.canEnable && sent))
  }

  /** A handler that is taken gets the next id and is the last in the list: it waits for the
      write in flight, or is complete, or has a write of its own. One that is not taken leaves
      nothing behind. */
  lemma TakenExactly(s: State, sent: bool)
    requires !s.aborted
    ensures var r := Step(s, DoRegister(sent));
            var id := s.nextId;
            if !Taken(s, sent) then
              && r.list == s.list && r.queue == s.queue && r.log == s.log && r.count == s.count
              && r.flight == s.flight && r.acked == s.acked
            else
              && r.list == s.list + [id] && r.nextId == id + 1 && r.acked == s.acked
              && (if !s.flight.NoWrite? then
                    r.queue == s.queue + [id] && r.flight == s.flight && r.log == s.log && r.count == s.count
                  else
                    && r.queue == s.queue
                    && (if s.count > 0 || !s.hasCcc then
                          r.log == s.log + [Completed(id)] && r.count == s.count + 1 && r.flight == NoWrite
                        else r.log == s.log && r.count == s.count && r.flight == Enabling(id)))
  {
  }

  function Completions(ids: seq<int>): seq<Event> {
    if |ids| == 0 then [] else [Completed(ids[0])] + Completions(ids[1..])
  }

  lemma {:induction false} CompleteAllLogs(s: State, ids: seq<int>)
    ensures var r := CompleteAll(s, ids);
            && r.log == s.log + Completions(ids) && r.count == s.count + |ids|
            && r == s.(count := r.count, busy := r.busy, log := r.log)
    decreases |ids|
  {
    if |ids| > 0 { CompleteAllLogs(Complete(s, ids[0]), ids[1..]); }
  }

  /** When the server accepts, the handler of the write is complete, and after it everybody
      who waits, in order: one write for all. */
  lemma AcceptedForAll(s: State, ecode: int, sends: seq<bool>)
    requires !s.aborted && s.flight.Enabling?
    ensures var r := Step(s, Answer(true, ecode, sends));
            && r.log == s.log + Completions([s.flight.owner] + s.queue) && r.count == s.count + 1 + |s.queue|
            && r.queue == [] && r.flight == NoWrite && r.list == s.list && r.acked
  {
    CompleteAllLogs(s.(flight := NoWrite, queue := [], acked := true, stale := false), [s.flight.owner] + s.queue);
  }

  /** Of those that wait the first whose write goes out. */
  function Turn(queue: seq<int>, sends: seq<bool>): nat
    decreases |queue|
  {
    if queue == [] || sends == [] || sends[0] then 0 else 1 + Turn(queue[1..], sends[1..])
  }

  lemma {:induction false} NextIs(s: State, sends: seq<bool>)
    requires s.flight.NoWrite? && s.canEnable
    ensures var k, r := Turn(s.queue, sends), EnableNext(s, sends);
            && k <= |s.queue| && r == s.(flight := r.flight, queue := r.queue, busy := r.busy)
            && (if k < |s.queue| then r.flight == Enabling(s.queue[k]) && r.queue == s.queue[k + 1..]
                else r.flight == NoWrite && r.queue == [])
    decreases |s.queue|
  {
    if |s.queue| > 0 && !Sends(sends) {
      NextIs(WriteEnable(s.(queue := s.queue[1..]), s.queue[0], false), sends[1..]);
    }
  }

  lemma {:induction false} AgainIs(s: State, owner: int, sends: seq<bool>)
    requires s.flight.NoWrite? && s.canEnable
    ensures var k, r := Turn(s.queue, sends), EnableAgain(s, owner, sends);
            && k <= |s.queue| && r == s.(flight := r.flight, queue := r.queue, busy := r.busy)
            && (if k < |s.queue| then r.flight == Enabling(owner) && r.queue == s.queue[k + 1..]
                else r.flight == NoWrite && r.queue == [])
    decreases |s.queue|
  {
    if |s.queue| > 0 && !Sends(sends) {
      AgainIs(WriteEnable(s.(queue := s.queue[1..]), owner, false), owner, sends[1..]);
    }
  }

  /** When the server refuses, the handler of the write gets the error and is out of the list;
      the next that waits and whose write goes out takes its turn. */
  lemma RefusedForOne(s: State, ecode: int, sends: seq<bool>)
    requires !s.aborted && s.flight.Enabling? && s.canEnable
    ensures var r := Step(s, Answer(false, ecode, sends));
            var k := Turn(s.queue, sends);
            && r.log == s.log + [Failed(s.flight.owner, ecode)] && r.list == Without(s.list, s.flight.owner)
            && r.count == s.count && r.acked == s.acked
            && (if k < |s.queue| then r.flight == Enabling(s.queue[k]) && r.queue == s.queue[k + 1..]
                else r.flight == NoWrite && r.queue == [])
  {
    hide EnableNext, Without;
    var owner := s.flight.owner;
    NextIs(s.(flight := NoWrite, list := Without(s.list, owner), log := s.log + [Failed(owner, ecode)]), sends);
  }

  /** After a write back, whatever the answer, the turn of the next that waits is used for
      another write for the handler that has gone. */
  lemma WrittenBack(s: State, ok: bool, ecode: int, sends: seq<bool>)
    requires !s.aborted && s.flight.Disabling? && s.canEnable
    ensures var r := Step(s, Answer(ok, ecode, sends));
            var k := Turn(s.queue, sends);
            && r.log == s.log && r.list == s.list && r.count == s.count && r.acked == (s.acked && !ok)
            && (if k < |s.queue| then r.flight == Enabling(s.flight.owner) && r.queue == s.queue[k + 1..]
                else r.flight == NoWrite && r.queue == [])
  {
    hide EnableAgain;
    AgainIs(s.(flight := NoWrite, acked := s.acked && !ok, stale := !ok), s.flight.owner, sends);
  }

  /** Whether unregistering gets past the assertions. */
  predicate Goes(s: State, id: int) { id != 0 && id in s.list && s.count > 0 && s.flight.NoWrite? }

  /** In every run: a registered handler at rest is released, gives up its count and is out of
      the list; the last one writes the descriptor back. Any other id that is registered fails
      an assertion, and an id that is not changes nothing. */
  lemma ReleasedExactly(hasCcc: bool, canEnable: bool, inputs: seq<Input>, id: int, sent: bool)
    requires !Run(New(hasCcc, canEnable), inputs).aborted
    ensures var s := Run(New(hasCcc, canEnable), inputs);
            var r := Step(s, DoUnregister(id, sent));
            if Goes(s, id) then
              && r.log == s.log + [Released(id)] && r.count == s.count - 1 && !r.aborted
              && r.list == Without(s.list, id) && id !in r.list && r.queue == s.queue == []
              && r.flight == (if s.count == 1 && s.hasCcc && sent then Disabling(id) else NoWrite)
            else r == s.(aborted := id != 0 && id in s.list)
  {
    hide Run, Held, Agrees;
    NewInv(hasCcc, canEnable);
    RunKeeps(New(hasCcc, canEnable), inputs);
    var s := Run(New(hasCcc, canEnable), inputs);
    WithoutIs(s.list, id);
  }

  // ---- everybody shares one write

  function Registrations(n: nat): seq<Input> { seq(n, i => DoRegister(true)) }

  /** The ids from a on. */
  function Ids(a: int, n: nat): seq<int> { seq(n, i => a + i) }

  predicate Waiting(s: State, n: nat) {
    && s.hasCcc && s.canEnable && !s.aborted && s.count == 0 && s.log == [] && s.nextId == n + 2
    && s.flight == Enabling(1) && s.queue == Ids(2, n) && s.list == Ids(1, n + 1)
  }

  lemma {:induction false} MoreWait(s: State, n: nat, k: nat)
    requires Waiting(s, k)
    ensures Waiting(Run(s, Registrations(n)), k + n)
    decreases n
  {
    if n > 0 {
      assert Registrations(n)[1..] == Registrations(n - 1);
      assert Ids(2, k) + [k + 2] == Ids(2, k + 1) && Ids(1, k + 1) + [k + 2] == Ids(1, k + 2);
      MoreWait(Step(s, DoRegister(true)), n - 1, k + 1);
    }
  }

  /** Any number of handlers that register before the server has answered are complete with
      its answer, all with one write, in the order of registration, and all are counted; those
      that come after are complete at once. */
  lemma OneWriteForAll(n: nat)
    requires n + 1 < 0x7FFF_FFFF
    ensures var first := Step(New(true, true), DoRegister(true));
            var all := Step(Run(first, Registrations(n)), Answer(true, 0, []));
            var late := Step(all, DoRegister(true));
            && first.flight == Enabling(1) && Run(first, Registrations(n)).log == []
            && all.log == Completions(Ids(1, n + 1)) && all.count == n + 1 && all.list == Ids(1, n + 1)
            && all.flight == NoWrite
            && late.log == all.log + [Completed(n + 2)] && late.count == n + 2 && late.flight == NoWrite
  {
    hide Run, CompleteAll;
    var first := Step(New(true, true), DoRegister(true));
    assert Ids(2, 0) == [] && Ids(1, 1) == [1];
    MoreWait(first, n, 0);
    var s := Run(first, Registrations(n));
    AcceptedForAll(s, 0, []);
    assert [1] + Ids(2, n) == Ids(1, n + 1);
    var all := Step(s, Answer(true, 0, []));
    CompleteAllLogs(s.(flight := NoWrite, queue := [], acked := true, stale := false), [s.flight.owner] + s.queue);
    TakenExactly(all, true);
  }
}
