/** Which requests are never released, and who is told when the link takes nothing any more. */
module WriteSessionRefs {
  import opened Wrappers
  import opened Queue
  import opened Sequences
  import opened WriteSessions
  import opened WriteSessionRuns

  /** Allocated, and nobody will release it: it neither waits nor is under way nor belongs to
      the session. */
  predicate Leaks(s: State, id: int) {
    id in s.refs && id !in s.waiting && id != s.session && !Working(s, id)
  }

  /** The cancel of a long write that still waits. */
  predicate Forgets(s: State, i: Input) { i.DoCancel? && MayCall(s) && i.id in s.waiting }

  // ---- calls

  lemma WriteLongLeaks(s: State, sent: bool, id: int)
    requires Calm(s) && !(Hidden(s) && sent) && MayCall(s)
    ensures Leaks(WriteLong(s, sent), id) <==> Leaks(s, id)
  {
    CreateIs(s);
    hide Works, Preps, Quits, Commits;
    var t := WriteLong(s, sent);
    assert forall x :: x in s.waiting + [s.nextId] <==> x in s.waiting || x == s.nextId;
    assert !Working(s, s.nextId) by { NotWorking(s); }
  }

  /** The next id is nobody's. */
  lemma NotWorking(s: State)
    requires Calm(s)
    ensures !Working(s, s.nextId) && s.nextId !in s.waiting && s.nextId !in s.refs
  {
    hide Preps, Quits, Commits;
    if s.session > 0 { NoLongWorks(s, s.nextId); }
  }

  /** Beside a session no long write is under way. */
  lemma NoLongWorks(s: State, id: int)
    requires Calm(s) && s.session > 0
    ensures !Working(s, id)
  {
  }

  lemma PrepareLeaks(s: State, id: int, sent: bool, x: int)
    requires Calm(s) && MayCall(s) && !Overlaps(s, DoPrepare(id, sent))
    ensures Leaks(Prepare(s, id, sent), x) <==> Leaks(s, x)
  {
    if s.session > 0 {
      NoLongWorks(s, x);
      var t := Prepare(s, id, sent);
      assert |s.fly| > 0 ==> t.fly[0] == s.fly[0];
      assert !Working(t, x);
      if Open(s) { SessionRequest(s); }
      hide Calm;
    } else {
      CreateIs(s);
      NotWorking(s);
      hide Calm;
    }
  }

  lemma SessionRequest(s: State)
    requires Calm(s) && Open(s)
    ensures s.session in s.refs && s.refs[s.session] == 1
  {
  }

  lemma ExecuteLeaks(s: State, id: int, sent: bool, x: int)
    requires Calm(s) && MayCall(s) && !Overlaps(s, DoExecute(id, sent))
    ensures Leaks(Execute(s, id, sent), x) <==> Leaks(s, x)
  {
    if s.session > 0 {
      NoLongWorks(s, x);
      var t := Execute(s, id, sent);
      assert |s.fly| > 0 ==> t.fly[0] == s.fly[0];
      assert !Working(t, x);
      if Open(s) { SessionRequest(s); }
      hide Calm;
    } else {
      NoRequestZero(s);
    }
  }

  lemma NoRequestZero(s: State)
    requires Calm(s)
    ensures 0 !in s.pending && 0 !in s.refs
  {
    hide SessionMode, LongMode;
  }

  lemma CancelLeaks(s: State, id: int, sent: bool, out: bool, x: int)
    requires Calm(s) && MayCall(s) && !Overlaps(s, DoCancel(id, sent, out))
    ensures Leaks(Cancel(s, id, sent, out), x) <==> Leaks(s, x) || (id in s.waiting && x == id)
  {
    if id in s.waiting {
      CancelWaitingLeaks(s, id, sent, out, x);
    } else if id !in s.pending {
      CancelNobody(s, id, sent, out);
    } else {
      WhoIsPending(s, id);
      CancelOpenLeaks(s, sent, out, x);
    }
  }

  lemma WhoIsPending(s: State, id: int)
    requires Calm(s) && id in s.pending && id !in s.waiting && !Working(s, id)
    ensures id == s.session && Open(s)
  {
    hide SessionMode, LongMode;
  }

  lemma CancelWaitingLeaks(s: State, id: int, sent: bool, out: bool, x: int)
    requires Calm(s) && id in s.waiting
    ensures var t := Cancel(s, id, sent, out);
            Leaks(t, x) <==> Leaks(s, x) || x == id
  {
    assert Waits(s, id);
    WithoutIs(s.waiting, id);
    var t := Cancel(s, id, sent, out);
    assert t == s.(pending := s.pending - {id}, waiting := Without(s.waiting, id));
    WaitingIsIdle(s, id);
    hide Calm;
  }

  /** Who waits is neither under way nor the session. */
  lemma WaitingIsIdle(s: State, id: int)
    requires Calm(s) && id in s.waiting
    ensures !Working(s, id) && id != s.session && id in s.refs
  {
    assert Waits(s, id);
    hide Preps, Quits, Commits;
    if s.session > 0 { NoLongWorks(s, id); }
  }

  lemma CancelOpenLeaks(s: State, sent: bool, out: bool, x: int)
    requires Calm(s) && Open(s) && s.data.ForPrep?
    ensures Leaks(Cancel(s, s.session, sent, out), x) <==> Leaks(s, x)
  {
    hide AttCancel, Quits, Distinct;
    var id, o := s.session, Session(s.session);
    var t := s.(pending := s.pending - {id});
    assert PrepsOnly(t.fly, o);
    ShutUp(t, o, s.att[id], out);
    var u := AttCancel(t, s.att[id], out);
    NoLongWorks(s, x);
    var c := Cancel(s, id, sent, out);
    assert c.fly == u.fly || c.fly == u.fly + [Op(o, Quit, u.nextTag, true, true)];
    assert !Working(c, x);
    assert id !in s.waiting;
  }

  // ---- answers

  lemma AnswerLeaks(s: State, kept: bool, x: int)
    requires Calm(s)
    ensures Leaks(Answered(s, kept), x) <==> Leaks(s, x)
  {
    hide Served;
    if s.running.None? && |s.fly| > 0 {
      AnswerKeeps(s, kept);
      if s.session > 0 {
        NoLongWorks(s, x);
        AnswerStep(s, kept);
        NoLongWorks(Answered(s, kept), x);
        hide Calm;
      } else {
        AnswerWorks(s, kept, x);
        hide Calm;
      }
    }
  }

  lemma AnswerKeeps(s: State, kept: bool)
    ensures var t := Answered(s, kept); t.refs == s.refs && t.waiting == s.waiting && t.session == s.session
  {
    hide Served, Enter;
    if s.running.None? && |s.fly| > 0 {
      ServedFrame(s.(fly := s.fly[1..]), s.fly[0], kept);
      EnterFrame(Served(s.(fly := s.fly[1..]), s.fly[0], kept), s.fly[0]);
    }
  }

  lemma ServedFrame(s: State, op: Op, kept: bool)
    ensures var t := Served(s, op, kept); t.refs == s.refs && t.waiting == s.waiting && t.session == s.session
  {
  }

  lemma EnterFrame(s: State, op: Op)
    ensures var t := Enter(s, op); t.refs == s.refs && t.waiting == s.waiting && t.session == s.session
  {
    hide Reads;
  }

  lemma AnswerWorks(s: State, kept: bool, x: int)
    requires Calm(s) && s.session == 0 && s.running.None? && |s.fly| > 0
    ensures Working(Answered(s, kept), x) <==> Working(s, x)
  {
    hide Served;
    ServedIs(s.(fly := s.fly[1..]), s.fly[0], kept);
  }

  // ---- the ends of callbacks

  /** What is neither waiting nor this request is left over. */
  predicate Beside(s: State, id: int, x: int) { x in s.refs && x !in s.waiting && x != id }

  lemma {:induction false} DrainLeaks(s: State, id: int, x: int)
    requires Ending(s, id)
    ensures Beside(Drain(s), id, x) <==> Beside(s, id, x)
    decreases |s.waiting|
  {
    if |s.waiting| > 0 {
      HeadOut(s.waiting);
      hide Distinct;
      var w := s.waiting[0];
      assert Waits(s, w);
      DrainLeaks(Unref(s.(waiting := s.waiting[1..], log := s.log + [Called(w)]), w), id, x);
    }
  }

  lemma StartNextLeaks(s: State, id: int, next: What, sent: bool, x: int)
    requires Ending(s, id)
    ensures Leaks(Unref(StartNext(s, next, sent), id), x) <==> Beside(s, id, x)
  {
    if |s.waiting| > 0 && sent {
      HeadOut(s.waiting);
      var w := s.waiting[0];
      assert Waits(s, w);
      StartNextIs(s, next);
      hide Distinct, StartNext;
    } else {
      DrainEnds(s, id);
      DrainLeaks(s, id, x);
    }
  }

  lemma ReturnLongLeaks(s: State, next: What, sent: bool, x: int)
    requires Calm(s) && s.session == 0 && s.running.Some?
    ensures Leaks(Returned(s, next, sent), x) <==> Leaks(s, x)
  {
    var op := s.running.value;
    var id := op.owner.id;
    var t := s.(running := None);
    assert Leaks(s, x) <==> Beside(s, id, x) by { LeaksBeside(s, x); }
    if op.what.Prep? && sent {
      var u := Returned(s, next, sent);
      assert s.refs[id := 2][id := 1] == s.refs;
      assert u.fly == [Op(Long(id), if next.Quit? then Abort else next, s.nextTag, true, true)];
    } else if op.what.Prep? {
      var u := t.(prepared := [], log := s.log + [Called(id)]);
      assert Ending(u, id);
      StartNextLeaks(u, id, next, false, x);
    } else {
      assert Ending(t, id);
      StartNextLeaks(t, id, next, sent, x);
    }
  }

  lemma LeaksBeside(s: State, x: int)
    requires Calm(s) && s.session == 0 && s.running.Some?
    ensures Leaks(s, x) <==> Beside(s, s.running.value.owner.id, x)
  {
    NoRequestZero(s);
  }

  lemma ReturnSessionLeaks(s: State, next: What, sent: bool, x: int)
    requires Calm(s) && s.session > 0 && s.running.Some?
    ensures Leaks(Returned(s, next, sent), x) <==> Leaks(s, x)
  {
    var t := s.(running := None, session := 0);
    NoLongWorks(s, x);
    if s.running.value.what.Prep? {
      ReturnPrep(s, next, sent);
      NoLongWorks(s.(running := None), x);
      hide Calm;
    } else {
      SessionEnding(s);
      hide Calm, StartNext;
      if s.running.value.what.Commit? {
        StartNextLeaks(t, s.session, next, sent, x);
      } else {
        EndsAlone(t, s.session, x);
      }
    }
  }

  lemma EndsAlone(s: State, id: int, x: int)
    requires Ending(s, id)
    ensures Leaks(Unref(s, id), x) <==> Beside(s, id, x)
  {
    hide Distinct;
  }

  lemma ReturnLeaks(s: State, next: What, sent: bool, x: int)
    requires Calm(s)
    ensures Leaks(Returned(s, next, sent), x) <==> Leaks(s, x)
  {
    assert 0 <= s.session;
    hide Calm, Leave, Release;
    if s.running.Some? {
      if s.session == 0 { ReturnLongLeaks(s, next, sent, x); } else { ReturnSessionLeaks(s, next, sent, x); }
    }
  }

  /** As long as no call comes too early, a request is left over exactly if it was before, or
      is that of a long write which is cancelled while it waits. */
  lemma StepLeaks(s: State, i: Input, x: int)
    requires Calm(s) && !Overlaps(s, i)
    ensures Leaks(Step(s, i), x) <==> Leaks(s, x) || (Forgets(s, i) && x == i.id)
  {
    assert !s.broken;
    hide Calm, Hidden, Working, Open, Leaks;
    if !i.Answer? && !i.Return? && !MayCall(s) {
      return;
    }
    hide MayCall;
    match i
    case DoWriteLong(sent) => WriteLongLeaks(s, sent, x);
    case DoPrepare(id, sent) => PrepareLeaks(s, id, sent, x);
    case DoExecute(id, sent) => ExecuteLeaks(s, id, sent, x);
    case DoCancel(id, sent, out) => CancelLeaks(s, id, sent, out, x);
    case Answer(kept) => AnswerLeaks(s, kept, x);
    case Return(next, sent) => ReturnLeaks(s, next, sent, x);
  }

  // ---- every run

  /** The long writes that were cancelled while they waited. */
  function Forgotten(s: State, inputs: seq<Input>): set<int>
    decreases |inputs|
  {
    if |inputs| == 0 then {}
    else (if Forgets(s, inputs[0]) then {inputs[0].id} else {}) + Forgotten(Step(s, inputs[0]), inputs[1..])
  }

  lemma {:induction false} RunLeaks(s: State, inputs: seq<Input>, x: int)
    requires Calm(s) && NeverOverlaps(s, inputs)
    ensures var t := Run(s, inputs);
            Calm(t) && (Leaks(t, x) <==> Leaks(s, x) || x in Forgotten(s, inputs))
    decreases |inputs|
  {
    hide Calm, Step, Leaks, Overlaps, Forgets;
    if |inputs| > 0 {
      StepCalm(s, inputs[0]);
      StepLeaks(s, inputs[0], x);
      RunLeaks(Step(s, inputs[0]), inputs[1..], x);
    }
  }

  /** In every run in which no call comes too early, the requests that are allocated are those
      of the long writes that wait, of the one under way, and of the session, as long as its
      request is there; and besides just those of the long writes that were cancelled while
      they waited: they are never released. At rest nothing else is left. */
  lemma LeftOverExactly(inputs: seq<Input>, x: int)
    requires NeverOverlaps(NEW, inputs)
    ensures var s := Run(NEW, inputs);
            && (Leaks(s, x) <==> x in Forgotten(NEW, inputs))
            && (s.session == 0 && s.running.None? && s.fly == [] && s.waiting == [] ==>
                  (x in s.refs <==> x in Forgotten(NEW, inputs)))
  {
    hide Run, Calm, Leaks, Forgotten;
    NewCalm();
    RunLeaks(NEW, inputs, x);
    assert !Leaks(NEW, x) by { NothingLeaks(x); }
    NoRequestZero(Run(NEW, inputs));
    AtRestLeaks(Run(NEW, inputs), x);
  }

  lemma NothingLeaks(x: int)
    ensures !Leaks(NEW, x)
  {
  }

  lemma AtRestLeaks(s: State, x: int)
    requires s.session == 0 && s.running.None? && s.fly == [] && s.waiting == [] ==> 0 !in s.refs
    ensures s.session == 0 && s.running.None? && s.fly == [] && s.waiting == [] ==> (Leaks(s, x) <==> x in s.refs)
  {
  }

  /** A long write that waits behind another, and is cancelled: its request stays for ever. */
  lemma CancelledWhileWaiting(out: bool)
    ensures var s := Step(Step(Step(NEW, DoWriteLong(true)), DoWriteLong(true)), DoCancel(2, true, out));
            Leaks(s, 2) && s.waiting == []
  {
    TwoAsked();
    hide Step;
    ForgetsTheSecond(out);
  }

  /** One long write under way, and one behind it. */
  const TWO := State(true, 0, [2], map[1 := 1, 2 := 1], {1, 2}, map[1 := 1], ForExec,
                     [Op(Long(1), Prep, 1, true, true)], None, [], 3, 2, false, [])

  lemma TwoAsked()
    ensures Step(Step(NEW, DoWriteLong(true)), DoWriteLong(true)) == TWO
  {
    var s1 := Step(NEW, DoWriteLong(true));
    assert s1.refs == map[1 := 1] && s1.pending == {1} && s1.att == map[1 := 1];
    assert s1.fly == [Op(Long(1), Prep, 1, true, true)];
    assert s1.refs[2 := 1] == map[1 := 1, 2 := 1] && s1.pending + {2} == {1, 2};
  }

  lemma ForgetsTheSecond(out: bool)
    ensures var s := Step(TWO, DoCancel(2, true, out)); Leaks(s, 2) && s.waiting == []
  {
    hide AttCancel;
    WithoutIs([2], 2);
    assert Without([2], 2) == [];
    assert Step(TWO, DoCancel(2, true, out)) == TWO.(pending := {1, 2} - {2}, waiting := Without([2], 2));
  }

  // ---- what a cancel does on the bearer

  predicate Shut(op: Op, was: Op) {
    op.owner == was.owner && op.what == was.what && op.tag == was.tag && !op.callback && !op.destroy
  }

  /** An operation whose callback is running, or that has gone out already, which can only be
      the first and only while no callback runs, stays without its handlers; one that is queued
      goes. If it had a destroy handler, that runs, and gives the reference back. */
  lemma CancelledOnTheBearer(s: State, k: nat, tag: nat, out: bool)
    requires k <= |s.fly| && (forall i :: 0 <= i < k ==> s.fly[i].tag != tag)
    requires k < |s.fly| ==> s.fly[k].tag == tag
    ensures var t := AttCancel(s, tag, out);
            if s.running.Some? && s.running.value.tag == tag then
              && t.running.Some? && Shut(t.running.value, s.running.value) && t.fly == s.fly
              && t.refs == (if s.running.value.destroy then Unref(s, s.running.value.owner.id) else s).refs
            else if k == |s.fly| then t == s
            else
              && t.running == s.running
              && t.refs == (if s.fly[k].destroy then Unref(s, s.fly[k].owner.id) else s).refs
              && (if k == 0 && out && s.running.None? then
                    |t.fly| == |s.fly| && Shut(t.fly[0], s.fly[0]) && t.fly[1..] == s.fly[1..]
                  else t.fly == s.fly[..k] + s.fly[k + 1..])
  {
    hide FirstIndex, Release, RemoveAt, Unref;
    FirstIndexIs(s.fly, (op: Op) => op.tag == tag, k);
    if s.running.Some? && s.running.value.tag == tag {
      ReleaseIs(s, s.(running := Some(Cleared(s.running.value))), s.running.value);
    } else if k < |s.fly| {
      Slices(s.fly, k, s.fly[k]);
      ReleaseIs(s, s.(fly := [Cleared(s.fly[0])] + s.fly[1..]), s.fly[k]);
      ReleaseIs(s, s.(fly := RemoveAt(s.fly, k)), s.fly[k]);
    }
  }

  lemma ReleaseIs(s: State, t: State, op: Op)
    requires t.refs == s.refs
    ensures var r := Release(t, op);
            && r.fly == t.fly && r.running == t.running
            && r.refs == (if op.destroy then Unref(s, op.owner.id) else s).refs
  {
  }

  /** What a callback reads is gone: its request, or the data it expects of the session. */
  predicate ReadsAmiss(s: State, op: Op) {
    || op.owner.id !in s.refs
    || (op.owner.Session? && op.what.Prep? && s.data.ForExec?)
    || (op.owner.Session? && op.what.Commit? && s.data.ForPrep?)
    || (op.owner.Session? && op.what.Abort?)
  }

  /** The callback of an answer reads its request, and that of a session its data, except for
      the cancel of a long write; nothing else about an answer is undefined. */
  lemma CallbackUndefinedExactly(s: State, kept: bool)
    requires !s.broken && s.running.None? && |s.fly| > 0
    ensures Step(s, Answer(kept)).broken <==>
            s.fly[0].callback && !(s.fly[0].owner.Long? && s.fly[0].what.Quit?) && ReadsAmiss(s, s.fly[0])
  {
    var t := s.(fly := s.fly[1..]);
    ServedFrame(t, s.fly[0], kept);
    ServedSound(t, s.fly[0], kept);
    hide Served;
  }

  lemma ServedSound(s: State, op: Op, kept: bool)
    ensures Served(s, op, kept).broken == s.broken && Served(s, op, kept).data == s.data
  {
  }

  /** The answer to the Execute Write of a cancelled long write clears in_long_write if nobody
      waits, and starts nobody. */
  lemma CancelOfLongAnswered(s: State, next: What, sent: bool)
    requires !s.broken && s.running.Some? && s.running.value.owner.Long? && s.running.value.what.Quit?
    requires !s.running.value.destroy
    ensures Step(s, Return(next, sent)) == s.(running := None, inLong := s.inLong && s.waiting != [])
  {
  }

  // ---- the link takes nothing

  function Calls(ids: seq<int>): seq<Event> {
    if |ids| == 0 then [] else [Called(ids[0])] + Calls(ids[1..])
  }

  /** When the next long write is refused, every one that waits is called back, in order, and
      nothing waits any more. */
  lemma {:induction false} RefusedStartTellsAll(s: State, next: What)
    ensures var t := StartNext(s, next, false);
            t.log == s.log + Calls(s.waiting) && t.waiting == [] && t.fly == s.fly && !t.inLong
    decreases |s.waiting|
  {
    hide Unref;
    if |s.waiting| > 0 {
      var id := s.waiting[0];
      var t := Unref(s.(waiting := s.waiting[1..], log := s.log + [Called(id)]), id);
      UnrefFrame(s.(waiting := s.waiting[1..], log := s.log + [Called(id)]), id);
      RefusedStartTellsAll(t, next);
      assert StartNext(s, next, false) == Drain(s) && StartNext(t, next, false) == Drain(t);
    }
  }

  lemma UnrefFrame(s: State, id: int)
    ensures var t := Unref(s, id); t.waiting == s.waiting && t.log == s.log && t.fly == s.fly
  {
  }
}
