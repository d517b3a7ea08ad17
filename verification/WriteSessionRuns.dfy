/** Whole runs of long writes and reliable sessions: what holds as long as no call comes too
    early, and what such a call leads to. */
module WriteSessionRuns {
  import opened Wrappers
  import opened Queue
  import opened Sequences
  import opened WriteSessions

  // ---- every run

  predicate Pure(e: Event) { e.Wrote? ==> PiecesOf(e.pieces, e.owner) }

  predicate AllPure(log: seq<Event>) { forall i :: 0 <= i < |log| ==> Pure(log[i]) }

  lemma PurePush(log: seq<Event>, e: Event)
    requires AllPure(log) && Pure(e)
    ensures AllPure(log + [e])
  {
    hide Pure;
  }

  lemma UnrefLog(s: State, id: int)
    ensures Unref(s, id).log == s.log && Ref(s, id).log == s.log
  {
  }

  lemma {:induction false} DrainPure(s: State)
    requires AllPure(s.log)
    ensures AllPure(Drain(s).log)
    decreases |s.waiting|
  {
    hide AllPure, Unref;
    if |s.waiting| > 0 {
      var id := s.waiting[0];
      var t := s.(waiting := s.waiting[1..], log := s.log + [Called(id)]);
      PurePush(s.log, Called(id));
      UnrefLog(t, id);
      assert Unref(t, id).waiting == t.waiting by { UnrefWaiting(t, id); }
      DrainPure(Unref(t, id));
    }
  }

  lemma UnrefWaiting(s: State, id: int)
    ensures Unref(s, id).waiting == s.waiting
  {
  }

  lemma StartNextPure(s: State, next: What, sent: bool)
    requires AllPure(s.log)
    ensures AllPure(StartNext(s, next, sent).log)
  {
    hide AllPure, Drain;
    DrainPure(s);
  }

  lemma ReturnedPure(s: State, next: What, sent: bool)
    requires AllPure(s.log)
    ensures AllPure(Returned(s, next, sent).log)
  {
    hide AllPure, StartNext;
    if s.running.Some? {
      var op := s.running.value;
      var t := s.(running := None);
      StartNextPure(t.(session := 0), next, sent);
      StartNextPure(t, next, sent);
      PurePush(s.log, Called(op.owner.id));
      StartNextPure(t.(prepared := [], log := s.log + [Called(op.owner.id)]), next, false);
    }
  }

  lemma AnsweredPure(s: State, kept: bool)
    requires AllPure(s.log) && (|s.fly| > 0 && s.running.None? ==> PiecesOf(s.prepared, s.fly[0].owner))
    ensures AllPure(Answered(s, kept).log)
  {
    hide AllPure;
    if s.running.None? && |s.fly| > 0 {
      var op := s.fly[0];
      var t := Served(s.(fly := s.fly[1..]), op, kept);
      PurePush(s.log, Wrote(op.owner, s.prepared));
      PurePush(t.log, Called(op.owner.id));
      PurePush(t.log, Ended(op.owner.id));
      if s.data.ForPrep? { PurePush(t.log, Told(op.tag, s.data.tag)); }
    }
  }

  lemma ReleaseLog(s: State, op: Op)
    ensures Release(s, op).log == s.log
  {
    hide Unref;
    UnrefLog(s, op.owner.id);
  }

  lemma AttCancelLog(s: State, tag: nat, out: bool)
    ensures AttCancel(s, tag, out).log == s.log
  {
    hide Release, RemoveAt;
    var k := FirstIndex(s.fly, (op: Op) => op.tag == tag);
    if s.running.Some? { ReleaseLog(s.(running := Some(Cleared(s.running.value))), s.running.value); }
    if k < |s.fly| {
      ReleaseLog(s.(fly := [Cleared(s.fly[0])] + s.fly[1..]), s.fly[0]);
      ReleaseLog(s.(fly := RemoveAt(s.fly, k)), s.fly[k]);
    }
  }

  lemma CancelLog(s: State, id: int, sent: bool, out: bool)
    ensures Cancel(s, id, sent, out).log == s.log
  {
    hide AttCancel, Without;
    if id in s.att { AttCancelLog(s.(pending := s.pending - {id}), s.att[id], out); }
  }

  lemma CallsLog(s: State, i: Input)
    requires !i.Answer? && !i.Return?
    ensures Step(s, i).log == s.log
  {
    hide Cancel;
    if i.DoCancel? { CancelLog(s, i.id, i.sent, i.out); }
  }

  lemma StepPure(s: State, i: Input)
    requires Calm(s) && AllPure(s.log)
    ensures AllPure(Step(s, i).log)
  {
    hide AllPure, Answered, Returned;
    if i.Answer? {
      AnsweredPure(s, i.kept);
    } else if i.Return? {
      ReturnedPure(s, i.next, i.sent);
    } else {
      CallsLog(s, i);
    }
  }

  predicate NeverOverlaps(s: State, inputs: seq<Input>)
    decreases |inputs|
  {
    |inputs| == 0 || (!Overlaps(s, inputs[0]) && NeverOverlaps(Step(s, inputs[0]), inputs[1..]))
  }

  lemma {:induction false} RunCalm(s: State, inputs: seq<Input>)
    requires Calm(s) && AllPure(s.log) && NeverOverlaps(s, inputs)
    ensures Calm(Run(s, inputs)) && AllPure(Run(s, inputs).log)
    decreases |inputs|
  {
    hide Calm, AllPure, Step, Overlaps;
    if |inputs| > 0 {
      StepCalm(s, inputs[0]);
      StepPure(s, inputs[0]);
      RunCalm(Step(s, inputs[0]), inputs[1..]);
    }
  }

  lemma NewCalm()
    ensures Calm(NEW)
  {
  }

  /** In every run in which no call is let through too early, the behaviour is defined: every
      answer finds its request alive with the data it is made for. And whatever the server
      executes was prepared for just the one long write or session it is executed for. */
  lemma ExecutesItsOwn(inputs: seq<Input>)
    requires NeverOverlaps(NEW, inputs)
    ensures var s := Run(NEW, inputs);
            && !s.broken
            && forall e :: e in s.log && e.Wrote? ==> forall k :: 0 <= k < |e.pieces| ==> e.pieces[k] == e.owner
  {
    NewCalm();
    RunCalm(NEW, inputs) by { assert AllPure(NEW.log); }
    hide Run, NeverOverlaps;
    var s := Run(NEW, inputs);
    forall e | e in s.log && e.Wrote?
      ensures PiecesOf(e.pieces, e.owner)
    {
      assert Pure(e);
    }
  }

  // ---- what happens otherwise

  lemma RunCons(s: State, i: Input, rest: seq<Input>)
    ensures Run(s, [i] + rest) == Run(Step(s, i), rest)
  {
    hide Step;
    assert ([i] + rest)[1..] == rest;
  }

  lemma RunFour(s: State, a: Input, b: Input, c: Input, d: Input)
    ensures Run(s, [a, b, c, d]) == Step(Step(Step(Step(s, a), b), c), d)
  {
    hide Step;
    RunCons(s, a, [b, c, d]);
    RunCons(Step(s, a), b, [c, d]);
    RunCons(Step(Step(s, a), b), c, [d]);
    RunCons(Step(Step(Step(s, a), b), c), d, []);
    assert [a] + [b, c, d] == [a, b, c, d] && [b] + [c, d] == [b, c, d] && [c] + [d] == [c, d] && [d] + [] == [d];
  }

  lemma RunSeven(s: State, a: Input, b: Input, c: Input, d: Input, e: Input, f: Input, g: Input)
    ensures Run(s, [a, b, c, d, e, f, g]) == Step(Step(Step(Step(Step(Step(Step(s, a), b), c), d), e), f), g)
  {
    hide Step, Run;
    RunCons(s, a, [b, c, d, e, f, g]);
    RunCons(Step(s, a), b, [c, d, e, f, g]);
    RunCons(Step(Step(s, a), b), c, [d, e, f, g]);
    RunFour(Step(Step(Step(s, a), b), c), d, e, f, g);
    assert [a] + [b, c, d, e, f, g] == [a, b, c, d, e, f, g];
    assert [b] + [c, d, e, f, g] == [b, c, d, e, f, g] && [c] + [d, e, f, g] == [c, d, e, f, g];
  }

  lemma BrokenStays(s: State, i: Input)
    requires s.broken
    ensures Step(s, i) == s
  {
  }

  /** The head of what is under way belongs to a session whose request is not what it was. */
  predicate Doomed(s: State) {
    && s.running.None? && |s.fly| > 0 && s.fly[0].owner.Session? && s.fly[0].callback && !s.fly[0].what.Quit?
    && (s.fly[0].owner.id !in s.refs || !Reads(s, s.fly[0].what))
  }

  lemma DoomedBreaks(s: State, kept: bool)
    requires Doomed(s)
    ensures Step(s, Answer(kept)).broken
  {
  }

  /** It does not take more than one answer from here. */
  predicate Lost(s: State) { s.broken || Doomed(s) }

  lemma LostFour(s: State, a: Input, k: bool, b: Input, l: bool)
    requires a.Return? && b.Return?
    requires Lost(Step(s, a)) || Lost(Step(Step(Step(s, a), Answer(k)), b))
    ensures Run(s, [a, Answer(k), b, Answer(l)]).broken
  {
    hide Step, Run, Doomed;
    RunFour(s, a, Answer(k), b, Answer(l));
    var s1 := Step(s, a);
    var s2 := Step(s1, Answer(k));
    var s3 := Step(s2, b);
    if s1.broken { BrokenStays(s1, Answer(k)); }
    if Doomed(s1) { DoomedBreaks(s1, k); }
    if s2.broken { BrokenStays(s2, b); }
    if s3.broken { BrokenStays(s3, Answer(l)); }
    if Doomed(s3) { DoomedBreaks(s3, l); }
  }

  lemma UnrefOther(s: State, id: int, other: int)
    requires id != other
    ensures var t := Unref(s, id);
            (other in t.refs <==> other in s.refs) && (other in s.refs ==> t.refs[other] == s.refs[other])
            && t.fly == s.fly && t.running == s.running && t.waiting == s.waiting
  {
  }

  /** Starting the next long write leaves other requests and what is under way alone. */
  lemma {:induction false} DrainKeeps(s: State, id: int)
    requires id !in s.waiting
    ensures var t := Drain(s);
            (id in t.refs <==> id in s.refs) && (id in s.refs ==> t.refs[id] == s.refs[id])
            && t.fly == s.fly && t.running == s.running
    decreases |s.waiting|
  {
    hide Unref;
    if |s.waiting| > 0 {
      var w := s.waiting[0];
      var s1 := s.(waiting := s.waiting[1..], log := s.log + [Called(w)]);
      assert forall x :: x in s.waiting[1..] ==> x in s.waiting;
      UnrefOther(s1, w, id);
      DrainKeeps(Unref(s1, w), id);
    }
  }

  lemma StartNextKeeps(s: State, next: What, sent: bool, id: int)
    requires id !in s.waiting
    ensures var t := StartNext(s, next, sent);
            (id in t.refs <==> id in s.refs) && (id in s.refs ==> t.refs[id] == s.refs[id])
            && |t.fly| >= |s.fly| && (|s.fly| > 0 ==> t.fly[0] == s.fly[0]) && t.running == s.running
  {
    hide Drain;
    DrainKeeps(s, id);
  }

  /** The end of exec_write_cb releases the request, or finds it released. */
  lemma CommitReturns(s: State, next: What, sent: bool)
    requires !s.broken && s.running.Some? && s.running.value.owner.Session? && s.running.value.what.Commit?
    requires s.running.value.destroy
    requires var id := s.running.value.owner.id; id !in s.waiting && (id in s.refs ==> s.refs[id] == 1)
    requires var id := s.running.value.owner.id;
             if |s.fly| > 0 then s.fly[0].owner == Session(id) && s.fly[0].callback && !s.fly[0].what.Quit?
             else id !in s.refs
    ensures Lost(Step(s, Return(next, sent)))
  {
    var id := s.running.value.owner.id;
    StartNextKeeps(s.(running := None, session := 0), next, sent, id);
    hide StartNext;
  }

  /** A call replaces or releases the request of the session although an answer is to come. */
  predicate Spoils(s: State, i: Input) { s.session > 0 && (i.DoPrepare? || i.DoExecute?) && Overlaps(s, i) }

  lemma SpoiltPrep(s: State, i: Input, a: Input)
    requires Calm(s) && Spoils(s, i) && s.data.ForPrep? && a.Return?
    ensures Lost(Step(Step(s, i), a))
  {
    hide Books;
    assert !s.broken by { CalmUnbroken(s); }
    var t := Step(s, i);
    assert t.fly[0] == s.fly[0];
  }

  lemma CalmUnbroken(s: State)
    requires Calm(s)
    ensures !s.broken && 0 <= s.session < s.nextId
  {
  }

  /** The session is being executed, and the callback of the Execute Write does not run yet. */
  lemma SpoiltCommit(s: State, i: Input, a: Input, k: bool, b: Input)
    requires Calm(s) && Spoils(s, i) && s.data.ForExec? && a.Return? && b.Return?
    requires s.running.Some? ==> !s.running.value.what.Commit?
    ensures var u := Step(Step(s, i), a); Lost(u) || Lost(Step(Step(u, Answer(k)), b))
  {
    CalmUnbroken(s);
    var id := s.session;
    var t := Step(s, i);
    assert t.fly[0] == s.fly[0];
    var u := Step(t, a);
    if i.DoExecute? && i.sent {
      assert u == t.(running := None) && u.fly == [s.fly[0], Op(Session(id), Commit, s.nextTag, true, true)];
      var v := Step(u, Answer(k));
      assert v.running == Some(s.fly[0]) && v.fly == [u.fly[1]];
      CommitReturns(v, b.next, b.sent);
    }
  }

  /** Its callback is running. */
  lemma SpoiltCallback(s: State, i: Input, a: Input)
    requires Calm(s) && Spoils(s, i) && s.data.ForExec? && a.Return?
    requires s.running.Some? && s.running.value.what.Commit?
    ensures Lost(Step(Step(s, i), a))
  {
    CalmUnbroken(s);
    CommitReturns(Step(s, i), a.next, a.sent);
  }

  /** From every such call on, whatever is answered and goes on, the behaviour is undefined
      after two answers at the latest: an answer finds other data or a released request. */
  lemma SpoilingIsUndefined(s: State, i: Input, a: Input, k: bool, b: Input, l: bool)
    requires Calm(s) && Spoils(s, i) && a.Return? && b.Return?
    ensures Run(Step(s, i), [a, Answer(k), b, Answer(l)]).broken
  {
    if s.data.ForPrep? {
      SpoiltPrep(s, i, a);
    } else if s.running.Some? && s.running.value.what.Commit? {
      SpoiltCallback(s, i, a);
    } else {
      SpoiltCommit(s, i, a, k, b);
    }
    hide Run, Step, Lost;
    LostFour(Step(s, i), a, k, b, l);
  }

  /** A cancel is undefined at once exactly for a long write under way, whose one reference
      bt_att_cancel gives back, and for a session that is being executed. */
  lemma CancelUndefinedExactly(s: State, id: int, sent: bool, out: bool)
    requires Calm(s) && MayCall(s)
    ensures Cancel(s, id, sent, out).broken
            <==> Working(s, id) || (id == s.session && Open(s) && s.data.ForExec?)
  {
    CancelStep(s, id, sent, out);
    CalmUnbroken(s);
    if Working(s, id) {
      CancelWorking(s, id, sent, out);
    } else if id == s.session && Open(s) && s.data.ForExec? {
      CancelExecuting(s, sent, out);
    } else {
      CalmUnbroken(Cancel(s, id, sent, out));
    }
  }

  // ---- two writes in one execution

  lemma AnswerIs(s: State, op: Op, rest: seq<Op>, kept: bool)
    requires !s.broken && s.running.None? && s.fly == [op] + rest && op.callback
    ensures Step(s, Answer(kept)) == Enter(Served(s.(fly := rest), op, kept), op)
  {
    hide Enter, Served;
    assert s.fly[0] == op && s.fly[1..] == rest;
  }

  /** What a second procedure begins with: its first Prepare Write behind the first one's. */
  lemma SecondBegins(s: State, i: Input)
    requires Calm(s) && Hidden(s) && s.running.None? && s.fly[0].what.Prep?
             && i in {DoWriteLong(true), DoPrepare(0, true)}
    ensures var n := if i.DoWriteLong? then Long(s.nextId) else Session(s.nextId);
            var t := Step(s, i);
            && s.fly == [s.fly[0]] && s.fly[0].callback && s.fly[0].destroy && s.fly[0].owner.Long?
            && s.fly[0].owner.id in s.refs && s.refs[s.fly[0].owner.id] == 1 && s.fly[0].owner.id != s.nextId
            && !t.broken && t.running.None? && t.prepared == s.prepared && t.nextId == s.nextId + 1
            && t.refs == s.refs[s.nextId := 1] && t.log == s.log && (n.Session? ==> t.data.ForPrep?)
            && t.fly == [s.fly[0]] + [Op(n, Prep, s.nextTag, true, n.Long?)]
  {
    CalmUnbroken(s);
  }

  /** The first one's piece is prepared, and its Execute Write goes out behind the second
      one's Prepare Write. */
  lemma FirstCommits(s: State, op: Op, second: Op)
    requires !s.broken && s.running.None? && s.fly == [op] + [second]
    requires op.owner.Long? && op.what.Prep? && op.callback && op.destroy
    requires op.owner.id in s.refs && s.refs[op.owner.id] == 1
    ensures var t := Step(Step(s, Answer(true)), Return(Commit, true));
            && !t.broken && t.running.None? && t.fly == [second] + [Op(op.owner, Commit, s.nextTag, true, true)]
            && t.prepared == s.prepared + [op.owner] && t.refs == s.refs && t.log == s.log && t.data == s.data
  {
    AnswerIs(s, op, [second], true);
    var id := op.owner.id;
    assert s.refs[id := 2][id := 1] == s.refs;
  }

  /** The second one's piece is prepared. */
  lemma SecondPrepared(s: State, second: Op, commit: Op)
    requires !s.broken && s.running.None? && s.fly == [second] + [commit]
    requires second.what.Prep? && second.callback && second.destroy == second.owner.Long?
    requires second.owner.id in s.refs && s.refs[second.owner.id] == 1 && (second.owner.Session? ==> s.data.ForPrep?)
    ensures var t := Step(Step(s, Answer(true)), Return(Prep, true));
            && !t.broken && t.running.None? && t.fly == [commit] + t.fly[1..]
            && t.prepared == s.prepared + [second.owner] && s.log <= t.log
  {
    AnswerIs(s, second, [commit], true);
    var id := second.owner.id;
    assert s.refs[id := 2][id := 1] == s.refs;
  }

  lemma RunSix(s: State, a: Input, b: Input, c: Input, d: Input, e: Input, f: Input)
    ensures Run(s, [a, b, c, d, e, f]) == Step(Step(Step(Step(Step(Step(s, a), b), c), d), e), f)
  {
    hide Step, Run;
    RunCons(s, a, [b, c, d, e, f]);
    RunCons(Step(s, a), b, [c, d, e, f]);
    RunFour(Step(Step(s, a), b), c, d, e, f);
    assert [a] + [b, c, d, e, f] == [a, b, c, d, e, f] && [b] + [c, d, e, f] == [b, c, d, e, f];
  }

  /** From every state in which a long write is hidden while a piece of it is on its way: one
      more long write, or a session, and its first piece is executed with the other's. */
  lemma HiddenWritesMix(s: State, i: Input)
    requires Calm(s) && Hidden(s) && s.running.None? && s.fly[0].what.Prep?
             && i in {DoWriteLong(true), DoPrepare(0, true)}
    ensures var o := s.fly[0].owner;
            var n := if i.DoWriteLong? then Long(s.nextId) else Session(s.nextId);
            && o != n
            && Wrote(o, s.prepared + [o, n])
               in Run(s, [i, Answer(true), Return(Commit, true), Answer(true), Return(Prep, true), Answer(true)]).log
  {
    SecondBegins(s, i);
    hide Calm, Hidden, Step, Run;
    var op := s.fly[0];
    var n := if i.DoWriteLong? then Long(s.nextId) else Session(s.nextId);
    var second := Op(n, Prep, s.nextTag, true, n.Long?);
    var s1 := Step(s, i);
    FirstCommits(s1, op, second);
    var s3 := Step(Step(s1, Answer(true)), Return(Commit, true));
    var commit := Op(op.owner, Commit, s1.nextTag, true, true);
    SecondPrepared(s3, second, commit);
    var s5 := Step(Step(s3, Answer(true)), Return(Prep, true));
    AnswerIs(s5, commit, s5.fly[1..], true);
    assert s5.prepared == s.prepared + [op.owner, n];
    EnterLogs(Served(s5.(fly := s5.fly[1..]), commit, true), commit);
    RunSix(s, i, Answer(true), Return(Commit, true), Answer(true), Return(Prep, true), Answer(true));
  }

  lemma EnterLogs(s: State, op: Op)
    ensures s.log <= Enter(s, op).log
  {
  }

  /** Such a state is reached with one session and one long write that waits for it. */
  lemma SessionHidesAWrite()
    ensures var s := Run(NEW, [DoPrepare(0, true), Answer(true), Return(Prep, true), DoWriteLong(true),
                               DoExecute(1, true),
                               Answer(true), Return(Prep, true)]);
            && Calm(s) && Hidden(s) && s.running.None? && s.fly == [Op(Long(2), Prep, 3, true, true)]
            && s.log == [Told(1, 1), Wrote(Session(1), [Session(1)]), Ended(1)]
  {
    hide Step, Run;
    SessionAnswered();
    WriteWaits();
    ExecuteAnswered();
    HiddenIs();
    RunSeven(NEW, DoPrepare(0, true), Answer(true), Return(Prep, true), DoWriteLong(true), DoExecute(1, true),
             Answer(true), Return(Prep, true));
  }

  const COMMIT := Op(Session(1), Commit, 2, true, true)

  /** A long write waits for the session, and the session is executed. */
  function Waiting(): State {
    State(false, 1, [2], map[1 := 1, 2 := 1], {1, 2}, map[1 := 2], ForExec, [COMMIT], None, [Session(1)], 3, 3, false,
          [Told(1, 1)])
  }

  lemma WriteWaits()
    ensures Step(Step(AfterPrepare(), DoWriteLong(true)), DoExecute(1, true)) == Waiting()
  {
    hide AfterPrepare;
    SessionAnswered();
    var s := Step(AfterPrepare(), DoWriteLong(true));
    assert s.waiting == [2] && s.refs == map[1 := 1, 2 := 1] && s.pending == {1, 2};
  }

  function Executed(): State {
    Waiting().(fly := [], running := Some(COMMIT), prepared := [],
               log := [Told(1, 1), Wrote(Session(1), [Session(1)]), Ended(1)])
  }

  lemma ExecuteAnswered()
    ensures Step(Waiting(), Answer(true)) == Executed()
  {
    AnswerIs(Waiting(), COMMIT, [], true);
  }

  lemma HiddenIs()
    ensures var s := Step(Executed(), Return(Prep, true));
            && Calm(s) && Hidden(s) && s.running.None? && s.fly == [Op(Long(2), Prep, 3, true, true)]
            && s.log == Executed().log
  {
    var s := Executed();
    var t := s.(running := None, session := 0);
    assert Waits(t, 2);
    StartNextIs(t, Prep);
    var op := Op(Long(2), Prep, 3, true, true);
    hide StartNext;
    var u := Step(s, Return(Prep, true));
    assert [2][1..] == [];
    assert u == State(false, 0, [], map[2 := 1], {2}, map[1 := 2, 2 := 3], ForExec, [op], None, [], 3, 4, false, s.log);
    OneIsCalm(u, op);
  }

  lemma OneIsCalm(s: State, op: Op)
    requires op == Op(Long(2), Prep, 3, true, true)
    requires s == State(false, 0, [], map[2 := 1], {2}, map[1 := 2, 2 := 3], ForExec, [op], None, [], 3, 4, false,
                        s.log)
    ensures Calm(s) && Hidden(s)
  {
  }

  /** A session whose first Prepare Write was answered. */
  function AfterPrepare(): State { Step(Step(Step(NEW, DoPrepare(0, true)), Answer(true)), Return(Prep, true)) }

  lemma SessionAnswered()
    ensures AfterPrepare() == State(false, 1, [], map[1 := 1], {1}, map[1 := 1], ForPrep(1), [], None, [Session(1)],
                                    2, 2, false, [Told(1, 1)])
  {
    var s1 := Step(NEW, DoPrepare(0, true));
    var op := Op(Session(1), Prep, 1, true, false);
    assert s1.fly == [op] + [];
    AnswerIs(s1, op, [], true);
  }

  // ---- calls that come too early, at inputs

  /** Executing a session whose Prepare Write has no answer yet: prep_write_cb finds the data
      of an Execute Write. */
  lemma ExecutedTooEarly()
    ensures Run(NEW, [DoPrepare(0, true), DoExecute(1, true), Answer(true), Return(Prep, true)]).broken
  {
    var s1 := Step(NEW, DoPrepare(0, true));
    assert s1.fly == [Op(Session(1), Prep, 1, true, false)];
    var s2 := Step(s1, DoExecute(1, true));
    assert s2.fly[0] == s1.fly[0] && s2.data.ForExec?;
    var s3 := Step(s2, Answer(true));
    RunFour(NEW, DoPrepare(0, true), DoExecute(1, true), Answer(true), Return(Prep, true));
  }

  /** Cancelling a long write whose first chunk is on its way. */
  lemma CancelledUnderWay(out: bool)
    ensures Run(NEW, [DoWriteLong(true), DoCancel(1, true, out)]).broken
  {
    OneUnderWay();
    var s := Step(NEW, DoWriteLong(true));
    CancelWorking(s, 1, true, out);
    hide Run, Calm, Working, Cancel;
    RunCons(NEW, DoWriteLong(true), [DoCancel(1, true, out)]);
    RunCons(s, DoCancel(1, true, out), []);
    assert [DoWriteLong(true)] + [DoCancel(1, true, out)] == [DoWriteLong(true), DoCancel(1, true, out)];
    assert [DoCancel(1, true, out)] + [] == [DoCancel(1, true, out)];
    RunNothing(Step(s, DoCancel(1, true, out)));
  }

  lemma RunNothing(s: State)
    ensures Run(s, []) == s
  {
  }

  lemma OneUnderWay()
    ensures var s := Step(NEW, DoWriteLong(true)); Calm(s) && Working(s, 1) && MayCall(s) && !s.broken
  {
    NewCalm();
    BeginsLong(NEW);
    assert Step(NEW, DoWriteLong(true)).fly == [Op(Long(1), Prep, 1, true, true)];
  }

  // ---- whose callback is told

  /** The answer to a Prepare Write is compared with the value of the last one that was asked
      for, and goes to its callback: that is the right one exactly if no other is on its way. */
  lemma ToldExactly(s: State, kept: bool)
    requires Calm(s) && Open(s) && s.data.ForPrep? && s.running.None? && |s.fly| > 0
    ensures Step(s, Answer(kept)).log == s.log + [Told(s.fly[0].tag, s.data.tag)]
    ensures s.fly[0].tag == s.data.tag <==> |s.fly| == 1
  {
    CalmUnbroken(s);
  }

  /** Two at once: the answer to the first one is taken for one to the second. */
  lemma TwoAtOnceMixUp()
    ensures Run(NEW, [DoPrepare(0, true), DoPrepare(1, true), Answer(true), Return(Prep, true)]).log == [Told(1, 2)]
  {
    var first, second := Op(Session(1), Prep, 1, true, false), Op(Session(1), Prep, 2, true, false);
    var s1 := Step(NEW, DoPrepare(0, true));
    assert s1.fly == [first];
    var s2 := Step(s1, DoPrepare(1, true));
    assert s2.fly == [first] + [second];
    AnswerIs(s2, first, [second], true);
    RunFour(NEW, DoPrepare(0, true), DoPrepare(1, true), Answer(true), Return(Prep, true));
  }

  // ---- a session that nobody can end

  /** The session id is set, its request cannot be found any more, and no cancel is on its way. */
  predicate Dead(s: State) {
    && s.session > 0 && s.session !in s.pending
    && (forall i :: 0 <= i < |s.fly| ==> s.fly[i].what.Prep?)
    && (s.running.Some? ==> s.running.value.what.Prep?)
  }

  predicate Refused(s: State, i: Input) {
    match i
    case DoPrepare(id, sent) => id == s.session && !sent
    case DoExecute(id, sent) => id == s.session && !sent
    case DoCancel(id, sent, _) => id == s.session && !sent
    case _ => false
  }

  lemma CancelledIs(s: State, sent: bool, out: bool)
    requires Calm(s) && Open(s) && s.data.ForPrep?
    ensures var t := Cancel(s, s.session, sent, out);
            && t.session == s.session && t.session !in t.pending && RunsPrep(t, Session(s.session))
            && if sent then |t.fly| > 0 && t.fly[|t.fly| - 1].what.Quit? else PrepsOnly(t.fly, Session(s.session))
  {
    hide AttCancel, Quits, Distinct;
    var id, o := s.session, Session(s.session);
    var t := s.(pending := s.pending - {id});
    assert PrepsOnly(t.fly, o);
    ShutUp(t, o, s.att[id], out);
  }

  lemma DiesByCancel(s: State, id: int, sent: bool, out: bool)
    requires Calm(s) && MayCall(s) && !Dead(s) && !Overlaps(s, DoCancel(id, sent, out))
    ensures Dead(Cancel(s, id, sent, out)) <==> id == s.session && Open(s) && !sent
  {
    assert id in s.pending ==> id in s.waiting || id == s.session || Working(s, id);
    assert id in s.waiting ==> id != s.session && id !in s.att && id in s.refs;
    assert s.session > 0 && id in s.waiting ==>
        (s.session in Cancel(s, id, sent, out).pending <==> s.session in s.pending);
    if id == s.session && Open(s) { CancelledIs(s, sent, out); }
  }

  /** From a state with one procedure at a time, a session is lost exactly when a send for it
      is refused: of a Prepare Write whose value is too long for the MTU, say. */
  lemma DiesExactly(s: State, i: Input)
    requires Calm(s) && !Dead(s) && !Overlaps(s, i)
    ensures Dead(Step(s, i)) <==> MayCall(s) && Open(s) && Refused(s, i)
  {
    hide Without;
    CalmUnbroken(s);
    if i.DoCancel? && MayCall(s) {
      DiesByCancel(s, i.id, i.sent, i.out);
    } else if i.Return? {
      DoesNotDie(s, i);
    }
  }

  lemma DoesNotDie(s: State, i: Input)
    requires Calm(s) && !Dead(s) && i.Return?
    ensures !Dead(Step(s, i))
  {
    CalmUnbroken(s);
    if s.running.Some? && s.session > 0 && !s.running.value.what.Prep? {
      SessionEnding(s);
      StartNextSession(s.(running := None, session := 0), i.next, i.sent);
    } else if s.running.Some? && s.session == 0 {
      var t := s.(running := None);
      StartNextSession(t, i.next, i.sent);
      StartNextSession(t.(prepared := [], log := s.log + [Called(s.running.value.owner.id)]), i.next, false);
    }
    hide StartNext;
  }

  lemma {:induction false} DrainSession(s: State)
    ensures Drain(s).session == s.session
    decreases |s.waiting|
  {
    if |s.waiting| > 0 {
      var id := s.waiting[0];
      DrainSession(Unref(s.(waiting := s.waiting[1..], log := s.log + [Called(id)]), id));
    }
  }

  lemma StartNextSession(s: State, next: What, sent: bool)
    ensures StartNext(s, next, sent).session == s.session
  {
    hide Drain;
    DrainSession(s);
  }

  /** What was logged since is only the answers to Prepare Writes. */
  predicate OnlyTold(before: seq<Event>, after: seq<Event>) {
    before <= after && forall k :: |before| <= k < |after| ==> after[k].Told?
  }

  lemma DeadStep(s: State, i: Input)
    requires Calm(s) && Dead(s)
    ensures var t := Step(s, i);
            && Calm(t) && Dead(t) && t.session == s.session && |t.fly| <= |s.fly| && OnlyTold(s.log, t.log)
  {
    CalmUnbroken(s);
    StepCalm(s, i);
    hide Without, AttCancel;
    if i.DoCancel? && MayCall(s) && i.id in s.pending {
      assert i.id in s.waiting;
      assert Waits(s, i.id);
    }
  }

  /** From then on, for all inputs: nothing is sent, no long write is called back and no other
      session begins; long writes only wait. */
  lemma {:induction false} DeadForEver(s: State, inputs: seq<Input>)
    requires Calm(s) && Dead(s)
    ensures var t := Run(s, inputs);
            && Dead(t) && t.session == s.session && |t.fly| <= |s.fly| && OnlyTold(s.log, t.log)
    decreases |inputs|
  {
    hide Calm, Dead, Step;
    if |inputs| > 0 {
      DeadStep(s, inputs[0]);
      DeadForEver(Step(s, inputs[0]), inputs[1..]);
    }
  }

  /** One Prepare Write that is refused behind one that was answered: the session can neither
      go on nor be executed, and a long write waits. */
  lemma RefusalLosesTheSession()
    ensures var s := Run(NEW, [DoPrepare(0, true), Answer(true), Return(Prep, true), DoPrepare(1, false),
                               DoPrepare(1, true), DoExecute(1, true), DoWriteLong(true)]);
            && Dead(s) && !s.broken && s.session == 1 && s.fly == [] && s.waiting == [2] && s.log == [Told(1, 1)]
  {
    hide AfterPrepare, Run;
    SessionAnswered();
    assert map[1 := 1] - {1} == map[] && {1} - {1} == {};
    var s4 := Step(AfterPrepare(), DoPrepare(1, false));
    assert s4 == AfterPrepare().(refs := map[], pending := {});
    RunSeven(NEW, DoPrepare(0, true), Answer(true), Return(Prep, true), DoPrepare(1, false), DoPrepare(1, true),
             DoExecute(1, true), DoWriteLong(true));
    assert Step(Step(Step(NEW, DoPrepare(0, true)), Answer(true)), Return(Prep, true)) == AfterPrepare() by {
      AfterPrepareIs();
    }
  }

  lemma AfterPrepareIs()
    ensures AfterPrepare() == Step(Step(Step(NEW, DoPrepare(0, true)), Answer(true)), Return(Prep, true))
  {
    hide Step;
  }

  // ---- long writes that a cancelled session leaves behind

  /** Long writes wait, and nothing is under way that could start them. */
  predicate LeftBehind(s: State) {
    s.session == 0 && !s.inLong && |s.fly| == 0 && s.running.None? && |s.waiting| > 0
  }

  /** cancel_prep_write_cb does not start the next long write. */
  lemma LeftBehindExactly(s: State, i: Input)
    requires Calm(s) && !LeftBehind(s) && !Overlaps(s, i)
    ensures LeftBehind(Step(s, i)) <==> i.Return? && s.running.Some? && s.running.value.what.Quit? && |s.waiting| > 0
  {
    CalmUnbroken(s);
    if i.DoCancel? && MayCall(s) {
      CancelLeaves(s, i.id, i.sent, i.out);
    } else if i.Return? && s.running.Some? {
      ReturnLeaves(s, i.next, i.sent);
    }
  }

  lemma CancelLeaves(s: State, id: int, sent: bool, out: bool)
    requires Calm(s) && MayCall(s) && !LeftBehind(s) && !Overlaps(s, DoCancel(id, sent, out))
    ensures !LeftBehind(Cancel(s, id, sent, out))
  {
    assert id in s.pending ==> id in s.waiting || id == s.session || Working(s, id);
    assert id in s.waiting ==> id != s.session && id !in s.att && id in s.refs;
    hide Without;
    if id == s.session && Open(s) {
      CancelledIs(s, sent, out);
    } else if id in s.waiting {
      assert Waits(s, id);
    }
  }

  lemma StartNextLeaves(s: State, next: What, sent: bool, id: int)
    requires Ending(s, id)
    ensures !LeftBehind(Unref(StartNext(s, next, sent), id))
  {
    hide Drain, Distinct;
    if |s.waiting| > 0 && sent {
      assert Waits(s, s.waiting[0]);
      StartNextIs(s, next);
    } else {
      DrainWaiting(s);
    }
  }

  lemma ReturnLeaves(s: State, next: What, sent: bool)
    requires Calm(s) && s.running.Some?
    ensures LeftBehind(Returned(s, next, sent)) <==> s.running.value.what.Quit? && |s.waiting| > 0
  {
    CalmUnbroken(s);
    var op := s.running.value;
    var t := s.(running := None);
    if s.session > 0 {
      if op.what.Prep? {
        ReturnPrep(s, next, sent);
      } else {
        SessionEnding(s);
        if op.what.Commit? { StartNextLeaves(t.(session := 0), next, sent, s.session); }
      }
    } else if op.what.Prep? && !sent {
      StartNextLeaves(t.(prepared := [], log := s.log + [Called(op.owner.id)]), next, false, op.owner.id);
    } else if !op.what.Prep? {
      StartNextLeaves(t, next, sent, op.owner.id);
    }
    hide StartNext;
  }

  lemma {:induction false} DrainWaiting(s: State)
    ensures Drain(s).waiting == []
    decreases |s.waiting|
  {
    if |s.waiting| > 0 {
      var id := s.waiting[0];
      DrainWaiting(Unref(s.(waiting := s.waiting[1..], log := s.log + [Called(id)]), id));
    }
  }

  /** The next long write does not queue behind those that were left: it overtakes them. */
  lemma TheNextOvertakes(s: State)
    requires Calm(s) && LeftBehind(s)
    ensures var t := Step(s, DoWriteLong(true));
            && t.fly == [Op(Long(s.nextId), Prep, s.nextTag, true, true)] && t.waiting == s.waiting
  {
    CalmUnbroken(s);
  }

  const QUIT := Op(Session(1), Quit, 2, true, true)

  lemma AttCancelNobody(s: State, tag: nat, out: bool)
    requires s.running.None? && s.fly == []
    ensures AttCancel(s, tag, out) == s
  {
  }

  function Cancelled(): State {
    State(false, 1, [2], map[1 := 1, 2 := 1], {2}, map[1 := 1], ForPrep(1), [QUIT], None, [Session(1)], 3, 3, false,
          [Told(1, 1)])
  }

  lemma SessionCancelled(out: bool)
    ensures Step(Step(AfterPrepare(), DoWriteLong(true)), DoCancel(1, true, out)) == Cancelled()
  {
    hide AfterPrepare;
    SessionAnswered();
    var s := Step(AfterPrepare(), DoWriteLong(true));
    assert s.waiting == [2] && s.refs == map[1 := 1, 2 := 1] && s.pending == {1, 2} && s.att == map[1 := 1];
    AttCancelNobody(s.(pending := {2}), 1, out);
    assert {1, 2} - {1} == {2};
    hide AttCancel;
  }

  lemma QuitAnswered()
    ensures LeftBehind(Step(Step(Cancelled(), Answer(true)), Return(Prep, true)))
  {
    AnswerIs(Cancelled(), QUIT, [], true);
  }

  /** A session, a long write that waits for it, and the cancel of the session. */
  lemma CancelledSessionLeavesAWrite(out: bool)
    ensures LeftBehind(Run(NEW, [DoPrepare(0, true), Answer(true), Return(Prep, true), DoWriteLong(true),
                                 DoCancel(1, true, out), Answer(true), Return(Prep, true)]))
  {
    hide AfterPrepare, Run;
    SessionAnswered();
    SessionCancelled(out);
    QuitAnswered();
    hide Step;
    RunSeven(NEW, DoPrepare(0, true), Answer(true), Return(Prep, true), DoWriteLong(true), DoCancel(1, true, out),
             Answer(true), Return(Prep, true));
    AfterPrepareIs();
  }
}
