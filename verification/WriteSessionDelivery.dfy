/** What long writes and sessions come to when the server answers and the link takes what is
    sent: everything is written, piece by piece and for its own caller, and every request is
    released. */
module WriteSessionDelivery {
  import opened Wrappers
  import opened WriteSessions
  import opened WriteSessionRuns

  function Copies(o: Owner, n: nat): seq<Owner> { seq(n, i => o) }

  /** An answer, and the rest of the callback for it. */
  function Round(s: State, next: What): State { Step(Step(s, Answer(true)), Return(next, true)) }

  function Repeat(inputs: seq<Input>, n: nat): seq<Input> {
    if n == 0 then [] else inputs + Repeat(inputs, n - 1)
  }

  lemma {:induction false} RunAppend(s: State, a: seq<Input>, b: seq<Input>)
    ensures Run(s, a + b) == Run(Run(s, a), b)
    decreases |a|
  {
    hide Step;
    if |a| == 0 {
      assert a + b == b;
    } else {
      assert (a + b)[0] == a[0] && (a + b)[1..] == a[1..] + b;
      RunAppend(Step(s, a[0]), a[1..], b);
    }
  }

  lemma RunRound(s: State, next: What)
    ensures Run(s, [Answer(true), Return(next, true)]) == Round(s, next)
  {
    hide Step, Run;
    var t := Step(s, Answer(true));
    RunCons(s, Answer(true), [Return(next, true)]);
    RunCons(t, Return(next, true), []);
    RunNothing(Step(t, Return(next, true)));
    assert [Answer(true)] + [Return(next, true)] == [Answer(true), Return(next, true)];
    assert [Return(next, true)] + [] == [Return(next, true)];
  }

  // ---- a long write

  /** The one operation is on its way, for this long write, with k pieces at the server. */
  predicate Under(s: State, id: int, what: What, k: nat) {
    && !s.broken && s.session == 0 && s.running.None? && |s.fly| == 1
    && s.fly[0] == Op(Long(id), what, s.fly[0].tag, true, true)
    && s.prepared == Copies(Long(id), k) && id in s.refs && s.refs[id] == 1
  }

  /** Those that wait have one reference each. */
  predicate Queued(s: State, id: int) {
    && (forall i :: 0 <= i < |s.waiting| ==> s.waiting[i] != id && s.waiting[i] in s.refs && s.refs[s.waiting[i]] == 1)
    && (forall i, j :: 0 <= i < j < |s.waiting| ==> s.waiting[i] != s.waiting[j])
  }

  /** Nothing is under way. */
  predicate AtRest(s: State) {
    !s.broken && s.session == 0 && s.running.None? && s.fly == [] && s.prepared == [] && s.waiting == [] && !s.inLong
  }

  predicate SameBooks(s: State, t: State) {
    t.log == s.log && t.refs == s.refs && t.pending == s.pending && t.waiting == s.waiting && t.nextId == s.nextId
    && t.inLong == s.inLong
  }

  /** A piece is kept, and the next one or the Execute Write goes out. */
  lemma PieceGoes(s: State, id: int, k: nat, next: What)
    requires Under(s, id, Prep, k) && (next.Prep? || next.Commit?)
    ensures var t := Round(s, next); Under(t, id, next, k + 1) && SameBooks(s, t)
  {
    var op := s.fly[0];
    var t1 := Step(s, Answer(true));
    assert s.fly == [op] + [] && s.fly[1..] == [];
    assert Copies(Long(id), k) + [Long(id)] == Copies(Long(id), k + 1);
    assert t1 == s.(fly := [], prepared := Copies(Long(id), k + 1), running := Some(op));
    assert s.refs[id := 2][id := 1] == s.refs;
    var t := Step(t1, Return(next, true));
    assert t.fly == [Op(Long(id), next, s.nextTag, true, true)];
  }

  /** Where the next long write stands. */
  predicate Begun(s: State, t: State) {
    if s.waiting == [] then AtRest(t)
    else Under(t, s.waiting[0], Prep, 0) && t.waiting == s.waiting[1..] && t.inLong == s.inLong
  }

  /** What is left when its request is released. */
  predicate Released(s: State, t: State, id: int) {
    t.refs == s.refs - {id} && t.pending == s.pending - {id} && t.nextId == s.nextId
  }

  lemma StartsNext(s: State, id: int)
    requires !s.broken && s.session == 0 && s.running.None? && s.fly == [] && s.prepared == []
    requires Queued(s, id) && id in s.refs && s.refs[id] == 1
    ensures var t := Unref(StartNext(s, Prep, true), id);
            Begun(s, t) && Released(s, t, id) && t.log == s.log
  {
    if |s.waiting| > 0 {
      var w := s.waiting[0];
      assert s.refs[w := 2][w := 1] == s.refs;
      var t := StartNext(s, Prep, true);
      assert t.fly == [Op(Long(w), Prep, s.nextTag, true, true)];
    }
  }

  /** The server executes just the pieces of this write, its caller is told, its request is
      released, and the next write that waits begins. */
  lemma Executes(s: State, id: int, k: nat)
    requires Under(s, id, Commit, k) && Queued(s, id)
    ensures var t := Round(s, Prep);
            t.log == s.log + [Wrote(Long(id), Copies(Long(id), k)), Called(id)] && Released(s, t, id) && Begun(s, t)
  {
    hide StartNext, Queued, Begun, Unref;
    var op := s.fly[0];
    assert s.fly == [op] + [] && s.fly[1..] == [];
    var t1 := Step(s, Answer(true));
    assert t1 == s.(fly := [], prepared := [], running := Some(op),
                    log := s.log + [Wrote(Long(id), Copies(Long(id), k))] + [Called(id)]);
    var t2 := t1.(running := None);
    assert Queued(t2, id) by { QueuedSame(s, t2, id); }
    StartsNext(t2, id);
    assert Step(t1, Return(Prep, true)) == Unref(StartNext(t2, Prep, true), id);
    var t := Round(s, Prep);
    assert Begun(t2, t) ==> Begun(s, t) by { BegunSame(s, t2, t); }
  }

  lemma QueuedSame(s: State, t: State, id: int)
    requires Queued(s, id) && t.waiting == s.waiting && t.refs == s.refs
    ensures Queued(t, id)
  {
  }

  lemma BegunSame(s: State, r: State, t: State)
    requires r.waiting == s.waiting && r.inLong == s.inLong
    ensures Begun(r, t) ==> Begun(s, t)
  {
  }

  /** The answers to a long write of n pieces. */
  function Answers(n: nat): seq<Input>
    requires n > 0
  {
    Repeat([Answer(true), Return(Prep, true)], n - 1)
    + [Answer(true), Return(Commit, true)] + [Answer(true), Return(Prep, true)]
  }

  lemma {:induction false} PiecesGo(s: State, id: int, k: nat, n: nat)
    requires Under(s, id, Prep, k)
    ensures var t := Run(s, Repeat([Answer(true), Return(Prep, true)], n)); Under(t, id, Prep, k + n) && SameBooks(s, t)
    decreases n
  {
    hide Under, Step, Run;
    var round := [Answer(true), Return(Prep, true)];
    if n == 0 {
      RunNothing(s);
    } else {
      PieceGoes(s, id, k, Prep);
      RunAppend(s, round, Repeat(round, n - 1));
      RunRound(s, Prep);
      PiecesGo(Round(s, Prep), id, k + 1, n - 1);
    }
  }

  lemma LongWriteGoes(s: State, id: int, n: nat)
    requires n > 0 && Under(s, id, Prep, 0) && Queued(s, id)
    ensures var t := Run(s, Answers(n));
            t.log == s.log + [Wrote(Long(id), Copies(Long(id), n)), Called(id)] && Released(s, t, id) && Begun(s, t)
  {
    hide Under, Queued, Begun, Step, Run, Repeat;
    var pieces := Repeat([Answer(true), Return(Prep, true)], n - 1);
    var s1 := Run(s, pieces);
    PiecesGo(s, id, 0, n - 1);
    RunAppend(s, pieces, [Answer(true), Return(Commit, true)]);
    RunRound(s1, Commit);
    PieceGoes(s1, id, n - 1, Commit);
    var s2 := Round(s1, Commit);
    RunAppend(s, pieces + [Answer(true), Return(Commit, true)], [Answer(true), Return(Prep, true)]);
    RunRound(s2, Prep);
    QueuedSame(s, s2, id);
    Executes(s2, id, n);
    BegunSame(s, s2, Run(s, Answers(n)));
  }

  // ---- one after the other

  function AllAnswers(ns: seq<nat>): seq<Input>
    requires forall i :: 0 <= i < |ns| ==> ns[i] > 0
  {
    if |ns| == 0 then [] else Answers(ns[0]) + AllAnswers(ns[1..])
  }

  function AllWritten(ids: seq<int>, ns: seq<nat>): seq<Event>
    requires |ids| == |ns|
  {
    if |ids| == 0 then []
    else [Wrote(Long(ids[0]), Copies(Long(ids[0]), ns[0])), Called(ids[0])] + AllWritten(ids[1..], ns[1..])
  }

  lemma QueuedBehind(s: State, t: State, id: int)
    requires Queued(s, id) && |s.waiting| > 0 && t.waiting == s.waiting[1..] && t.refs == s.refs - {id}
    ensures Queued(t, s.waiting[0])
  {
  }

  /** A long write is on its way and others wait: each is written with just its own pieces and
      its caller is told, in order, and all their requests are released. */
  lemma {:induction false} AllGo(s: State, id: int, ns: seq<nat>)
    requires Under(s, id, Prep, 0) && Queued(s, id) && |ns| == 1 + |s.waiting|
    requires forall i :: 0 <= i < |ns| ==> ns[i] > 0
    ensures var t := Run(s, AllAnswers(ns));
            AtRest(t) && t.log == s.log + AllWritten([id] + s.waiting, ns) && t.nextId == s.nextId
            && t.refs == s.refs - {id} - Members(s.waiting) && t.pending == s.pending - {id} - Members(s.waiting)
    decreases |ns|
  {
    hide Under, Queued, Step, Run, Answers, AtRest;
    var ids := [id] + s.waiting;
    var s1 := Run(s, Answers(ns[0]));
    LongWriteGoes(s, id, ns[0]);
    RunAppend(s, Answers(ns[0]), AllAnswers(ns[1..]));
    assert ids[1..] == s.waiting;
    if |s.waiting| == 0 {
      RunNothing(s1);
      assert ns[1..] == [] && AllWritten(ids[1..], ns[1..]) == [];
    } else {
      QueuedBehind(s, s1, id);
      AllGo(s1, s.waiting[0], ns[1..]);
      assert [s.waiting[0]] + s1.waiting == s.waiting;
      assert Members(s.waiting) == {s.waiting[0]} + Members(s1.waiting) by { MembersCons(s.waiting); }
    }
  }

  function Members(q: seq<int>): set<int> { set id | id in q }

  lemma MembersCons(q: seq<int>)
    requires |q| > 0
    ensures Members(q) == {q[0]} + Members(q[1..])
  {
  }

  // ---- from the beginning

  function Ids(a: int, n: nat): seq<int> { seq(n, i => a + i) }

  /** Nobody has used the next id. */
  predicate Unused(s: State) {
    && 0 < s.nextId
    && (forall id :: id in s.refs ==> id < s.nextId) && (forall id :: id in s.pending ==> id < s.nextId)
  }

  /** The requests with this id and those that wait are there beside those from before. */
  ghost predicate Added(s: State, id: int, m: nat, refs: map<int, int>, pending: set<int>) {
    && id in s.refs && s.refs[id] == 1 && Queued(s, id) && s.nextId == id + 1 + m && s.waiting == Ids(id + 1, m)
    && (forall x :: x in refs ==> x < id && x in s.refs && s.refs[x] == refs[x])
    && (forall x :: x in pending ==> x < id)
    && (forall x :: x in s.refs <==> x in refs || x == id || x in s.waiting)
    && s.pending == pending + {id} + Members(s.waiting)
  }

  ghost predicate Waiting(s: State, id: int, m: nat, refs: map<int, int>, pending: set<int>) {
    Under(s, id, Prep, 0) && s.inLong && Added(s, id, m, refs, pending)
  }

  /** One more waits. */
  lemma OneMore(s: State, id: int, m: nat, refs: map<int, int>, pending: set<int>, t: State)
    requires Added(s, id, m, refs, pending)
    requires t.nextId == s.nextId + 1 && t.waiting == s.waiting + [s.nextId] && t.refs == s.refs[s.nextId := 1]
             && t.pending == s.pending + {s.nextId}
    ensures Added(t, id, m + 1, refs, pending)
  {
    assert Ids(id + 1, m) + [id + 1 + m] == Ids(id + 1, m + 1);
    assert forall x :: x in t.waiting <==> x in s.waiting || x == id + 1 + m;
  }

  lemma MoreWaits(s: State, id: int, m: nat, refs: map<int, int>, pending: set<int>)
    requires Waiting(s, id, m, refs, pending)
    ensures var t := Step(s, DoWriteLong(true)); Waiting(t, id, m + 1, refs, pending) && t.log == s.log
  {
    hide Added;
    AddedMeans(s, id, m, refs, pending);
    OneMore(s, id, m, refs, pending, Step(s, DoWriteLong(true)));
  }

  lemma {:induction false} ManyWait(s: State, id: int, m: nat, n: nat, refs: map<int, int>, pending: set<int>)
    requires Waiting(s, id, m, refs, pending)
    ensures var t := Run(s, Repeat([DoWriteLong(true)], n)); Waiting(t, id, m + n, refs, pending) && t.log == s.log
    decreases n
  {
    hide Waiting, Step, Run;
    if n == 0 {
      RunNothing(s);
    } else {
      MoreWaits(s, id, m, refs, pending);
      RunCons(s, DoWriteLong(true), Repeat([DoWriteLong(true)], n - 1));
      ManyWait(Step(s, DoWriteLong(true)), id, m + 1, n - 1, refs, pending);
    }
  }

  /** Any number of long writes asked for at rest, each of any number of pieces: all are
      written in order, each with just its own pieces; every caller is told after its own;
      and at the end nothing is under way and no request is left over. */
  lemma EveryLongWriteIsWritten(s: State, ns: seq<nat>)
    requires AtRest(s) && Unused(s) && |ns| > 0 && forall i :: 0 <= i < |ns| ==> ns[i] > 0
    ensures var t := Run(s, Repeat([DoWriteLong(true)], |ns|) + AllAnswers(ns));
            && AtRest(t) && t.log == s.log + AllWritten(Ids(s.nextId, |ns|), ns)
            && t.refs == s.refs && t.pending == s.pending && t.nextId == s.nextId + |ns|
  {
    hide Run, Step, Under, Queued, Added, AllAnswers, AllWritten, AtRest, Repeat;
    var id := s.nextId;
    var asked := Repeat([DoWriteLong(true)], |ns|);
    AllWait(s, |ns|);
    var s2 := Run(s, asked);
    AddedMeans(s2, id, |ns| - 1, s.refs, s.pending);
    RunAppend(s, asked, AllAnswers(ns));
    AllGo(s2, id, ns);
    assert [id] + Ids(id + 1, |ns| - 1) == Ids(id, |ns|);
    OnlyTheNewGo(s2, id, |ns| - 1, s.refs, s.pending);
  }

  lemma AllWait(s: State, n: nat)
    requires AtRest(s) && Unused(s) && n > 0
    ensures var t := Run(s, Repeat([DoWriteLong(true)], n));
            Waiting(t, s.nextId, n - 1, s.refs, s.pending) && t.log == s.log
  {
    hide Run, Step, Waiting, AtRest, Unused;
    FirstWaits(s);
    RunCons(s, DoWriteLong(true), Repeat([DoWriteLong(true)], n - 1));
    ManyWait(Step(s, DoWriteLong(true)), s.nextId, 0, n - 1, s.refs, s.pending);
  }

  lemma AddedMeans(s: State, id: int, m: nat, refs: map<int, int>, pending: set<int>)
    requires Added(s, id, m, refs, pending)
    ensures Queued(s, id) && s.waiting == Ids(id + 1, m) && s.nextId == id + 1 + m && s.nextId !in s.refs
  {
    hide Queued;
  }

  lemma OnlyTheNewGo(s: State, id: int, m: nat, refs: map<int, int>, pending: set<int>)
    requires Added(s, id, m, refs, pending)
    ensures s.refs - {id} - Members(s.waiting) == refs && s.pending - {id} - Members(s.waiting) == pending
  {
    hide Queued;
    assert forall x :: x in s.waiting ==> x > id;
    var r := s.refs - {id} - Members(s.waiting);
    assert forall x :: x in r <==> x in refs;
    assert forall x :: x in r ==> r[x] == s.refs[x] == refs[x];
  }

  lemma FirstWaits(s: State)
    requires AtRest(s) && Unused(s)
    ensures var t := Step(s, DoWriteLong(true)); Waiting(t, s.nextId, 0, s.refs, s.pending) && t.log == s.log
  {
    var t := Step(s, DoWriteLong(true));
    assert t.fly == [Op(Long(s.nextId), Prep, s.nextTag, true, true)];
  }

  // ---- a session, with long writes waiting behind it

  /** The session is open, with n pieces at the server and no request under way. */
  ghost predicate OpenWith(s: State, id: int, n: nat, m: nat, refs: map<int, int>, pending: set<int>) {
    && !s.broken && 0 < s.session == id && !s.inLong && s.running.None? && s.fly == []
    && s.prepared == Copies(Session(id), n) && s.data.ForPrep? && Added(s, id, m, refs, pending)
  }

  /** The first Prepare Write opens the session. */
  lemma SessionOpens(s: State)
    requires AtRest(s) && Unused(s)
    ensures var t := Round(Step(s, DoPrepare(0, true)), Prep);
            && OpenWith(t, s.nextId, 1, 0, s.refs, s.pending)
            && t.log == s.log + [Told(s.nextTag, s.nextTag)] && t.nextTag == s.nextTag + 1
  {
    var id := s.nextId;
    var op := Op(Session(id), Prep, s.nextTag, true, false);
    var t1 := Step(s, DoPrepare(0, true));
    assert t1.fly == [op] && t1.fly[1..] == [];
    var t2 := Step(t1, Answer(true));
    assert t2.prepared == Copies(Session(id), 1) && t2.running == Some(op);
    var t := Step(t2, Return(Prep, true));
    assert Members(t.waiting) == {};
    assert t.refs == s.refs[id := 1];
  }

  lemma SessionGoesOn(s: State, id: int, n: nat, refs: map<int, int>, pending: set<int>)
    requires OpenWith(s, id, n, 0, refs, pending)
    ensures var t := Round(Step(s, DoPrepare(id, true)), Prep);
            && OpenWith(t, id, n + 1, 0, refs, pending)
            && t.log == s.log + [Told(s.nextTag, s.nextTag)] && t.nextTag == s.nextTag + 1
  {
    hide Queued;
    var op := Op(Session(id), Prep, s.nextTag, true, false);
    var t1 := Step(s, DoPrepare(id, true));
    assert t1.fly == [op] && t1.fly[1..] == [];
    var t2 := Step(t1, Answer(true));
    assert Copies(Session(id), n) + [Session(id)] == Copies(Session(id), n + 1);
    assert t2 == t1.(fly := [], prepared := Copies(Session(id), n + 1), running := Some(op),
                     log := s.log + [Told(s.nextTag, s.nextTag)]);
    var t := Step(t2, Return(Prep, true));
    assert t.refs == s.refs && t.waiting == s.waiting && t.pending == s.pending && t.nextId == s.nextId;
    QueuedSame(s, t, id);
  }

  lemma LongWriteWaits(s: State, id: int, n: nat, m: nat, refs: map<int, int>, pending: set<int>)
    requires OpenWith(s, id, n, m, refs, pending)
    ensures var t := Step(s, DoWriteLong(true)); OpenWith(t, id, n, m + 1, refs, pending) && t.log == s.log
  {
    hide Added;
    AddedMeans(s, id, m, refs, pending);
    OneMore(s, id, m, refs, pending, Step(s, DoWriteLong(true)));
  }

  /** The server executes just the pieces of the session, its caller is told, its request is
      released, and the first long write that waits begins. */
  lemma SessionEnds(s: State, id: int, n: nat, m: nat, refs: map<int, int>, pending: set<int>)
    requires OpenWith(s, id, n, m, refs, pending)
    ensures var t := Round(Step(s, DoExecute(id, true)), Prep);
            t.log == s.log + [Wrote(Session(id), Copies(Session(id), n)), Ended(id)] && Released(s, t, id)
            && Begun(s, t)
  {
    hide StartNext, Queued, Begun, Unref;
    var op := Op(Session(id), Commit, s.nextTag, true, true);
    var t1 := Step(s, DoExecute(id, true));
    assert t1.fly == [op] && t1.fly[1..] == [];
    var t2 := Step(t1, Answer(true));
    assert t2 == t1.(fly := [], prepared := [], running := Some(op),
                     log := s.log + [Wrote(Session(id), Copies(Session(id), n))] + [Ended(id)]);
    var t3 := t2.(running := None, session := 0);
    QueuedSame(s, t3, id);
    StartsNext(t3, id);
    var t := Step(t2, Return(Prep, true));
    assert t == Unref(StartNext(t3, Prep, true), id);
    BegunSame(s, t3, t);
  }

  /** The inputs of a session: n Prepare Writes, each with its answer. */
  function Preparing(id: int, n: nat): seq<Input> {
    Repeat([DoPrepare(id, true), Answer(true), Return(Prep, true)], n)
  }

  function Tellings(tag: nat, n: nat): seq<Event> { seq(n, i requires 0 <= i < n => Told(tag + i, tag + i)) }

  lemma RunThree(s: State, i: Input, next: What)
    ensures Run(s, [i, Answer(true), Return(next, true)]) == Round(Step(s, i), next)
  {
    hide Run, Step;
    RunCons(s, i, [Answer(true), Return(next, true)]);
    RunRound(Step(s, i), next);
    assert [i] + [Answer(true), Return(next, true)] == [i, Answer(true), Return(next, true)];
  }

  lemma {:induction false} PreparesAll(s: State, id: int, n: nat, k: nat, refs: map<int, int>, pending: set<int>)
    requires OpenWith(s, id, k, 0, refs, pending)
    ensures var t := Run(s, Preparing(id, n));
            OpenWith(t, id, k + n, 0, refs, pending) && t.log == s.log + Tellings(s.nextTag, n)
    decreases n
  {
    hide OpenWith, Run, Step;
    if n == 0 {
      RunNothing(s);
      assert Tellings(s.nextTag, 0) == [];
    } else {
      var round := [DoPrepare(id, true), Answer(true), Return(Prep, true)];
      SessionGoesOn(s, id, k, refs, pending);
      RunThree(s, DoPrepare(id, true), Prep);
      RunAppend(s, round, Preparing(id, n - 1));
      PreparesAll(Round(Step(s, DoPrepare(id, true)), Prep), id, n - 1, k + 1, refs, pending);
      assert Tellings(s.nextTag, n) == [Told(s.nextTag, s.nextTag)] + Tellings(s.nextTag + 1, n - 1);
    }
  }

  lemma {:induction false} ManyWaitBehind(s: State, id: int, n: nat, m: nat, more: nat, refs: map<int, int>,
                                          pending: set<int>)
    requires OpenWith(s, id, n, m, refs, pending)
    ensures var t := Run(s, Repeat([DoWriteLong(true)], more));
            OpenWith(t, id, n, m + more, refs, pending) && t.log == s.log
    decreases more
  {
    hide OpenWith, Step, Run;
    if more == 0 {
      RunNothing(s);
    } else {
      LongWriteWaits(s, id, n, m, refs, pending);
      RunCons(s, DoWriteLong(true), Repeat([DoWriteLong(true)], more - 1));
      ManyWaitBehind(Step(s, DoWriteLong(true)), id, n, m + 1, more - 1, refs, pending);
    }
  }

  /** The session prepares, the long writes are asked for, the session executes. */
  function SessionInputs(id: int, n: nat, m: nat): seq<Input> {
    [DoPrepare(0, true), Answer(true), Return(Prep, true)] + Preparing(id, n) + Repeat([DoWriteLong(true)], m)
    + [DoExecute(id, true), Answer(true), Return(Prep, true)]
  }

  lemma SessionRuns(s: State, n: nat, m: nat)
    requires AtRest(s) && Unused(s)
    ensures var id := s.nextId;
            var t := Run(s, SessionInputs(id, n, m));
            exists open ::
              && OpenWith(open, id, n + 1, m, s.refs, s.pending) && Released(open, t, id) && Begun(open, t)
              && t.log == s.log + Tellings(s.nextTag, n + 1)
                          + [Wrote(Session(id), Copies(Session(id), n + 1)), Ended(id)]
  {
    hide Run, Step, OpenWith, Begun, Released, AtRest, Unused, Repeat;
    var id := s.nextId;
    var first := [DoPrepare(0, true), Answer(true), Return(Prep, true)];
    var waits := Repeat([DoWriteLong(true)], m);
    var last := [DoExecute(id, true), Answer(true), Return(Prep, true)];
    SessionOpens(s);
    RunThree(s, DoPrepare(0, true), Prep);
    var s1 := Run(s, first);
    PreparesAll(s1, id, n, 1, s.refs, s.pending);
    RunAppend(s, first, Preparing(id, n));
    var s2 := Run(s1, Preparing(id, n));
    ManyWaitBehind(s2, id, n + 1, 0, m, s.refs, s.pending);
    RunAppend(s, first + Preparing(id, n), waits);
    var s3 := Run(s2, waits);
    SessionEnds(s3, id, n + 1, m, s.refs, s.pending);
    RunThree(s3, DoExecute(id, true), Prep);
    RunAppend(s, first + Preparing(id, n) + waits, last);
    assert Tellings(s.nextTag, n + 1) == [Told(s.nextTag, s.nextTag)] + Tellings(s.nextTag + 1, n);
  }

  /** A session of any number of Prepare Writes, with any number of long writes waiting behind
      it: the answer to each goes to its own callback, the session is executed with just its
      own pieces and its caller is told; then the long writes are, one after the other; and no
      request is left over. */
  lemma SessionAndLongWritesAreWritten(s: State, n: nat, ns: seq<nat>)
    requires AtRest(s) && Unused(s) && forall i :: 0 <= i < |ns| ==> ns[i] > 0
    ensures var id := s.nextId;
            var t := Run(s, SessionInputs(id, n, |ns|) + AllAnswers(ns));
            && AtRest(t) && t.refs == s.refs && t.pending == s.pending
            && t.log == s.log + Tellings(s.nextTag, n + 1)
                        + [Wrote(Session(id), Copies(Session(id), n + 1)), Ended(id)]
                        + AllWritten(Ids(id + 1, |ns|), ns)
  {
    hide Run, Step, Added, Under, Queued, AtRest, Unused, AllWritten, AllAnswers, Tellings;
    var id := s.nextId;
    SessionRuns(s, n, |ns|);
    var t1 := Run(s, SessionInputs(id, n, |ns|));
    RunAppend(s, SessionInputs(id, n, |ns|), AllAnswers(ns));
    var open :| OpenWith(open, id, n + 1, |ns|, s.refs, s.pending) && Released(open, t1, id) && Begun(open, t1);
    AddedMeans(open, id, |ns|, s.refs, s.pending);
    OnlyTheNewGo(open, id, |ns|, s.refs, s.pending);
    if |ns| == 0 {
      RunNothing(t1);
      NobodyWaits(ns, id);
    } else {
      QueuedBehind(open, t1, id);
      AllGo(t1, open.waiting[0], ns);
      assert [open.waiting[0]] + t1.waiting == open.waiting;
      MembersCons(open.waiting);
    }
  }

  lemma NobodyWaits(ns: seq<nat>, id: int)
    requires |ns| == 0
    ensures AllAnswers(ns) == [] && AllWritten(Ids(id + 1, 0), ns) == [] && Members(Ids(id + 1, 0)) == {}
  {
  }
}
