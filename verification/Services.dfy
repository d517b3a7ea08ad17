/** Discovery of all services one after the other: what is pending when a service ends well is
    still pending when the next one begins. */
module Services {
  import opened Wrappers
  import opened Uuids
  import opened Paging
  import opened GattDb
  import opened Discovery
  import opened Rebuild
  import opened RebuildRuns

  // ---- the client

  /** Services that are done with, the one at work, and pending_svcs; or the end. */
  datatype Discoverer =
    | Going(done: seq<Service>, client: Client, waiting: seq<Service>)
    | Over(services: seq<Service>, ok: bool)

  /** The label `next` of the two callbacks: services of a single handle are passed over. */
  function Next(done: seq<Service>, pending: seq<Chrc>, waiting: seq<Service>, sent: bool): Discoverer
    decreases |waiting|
  {
    if |waiting| == 0 then Over(done, true)
    else if waiting[0].start == End(waiting[0]) then Next(done + [waiting[0]], pending, waiting[1..], sent)
    else if !sent then Over(done + waiting, false)
    else Going(done, Begin(waiting[0], pending), waiting[1..])
  }

  predicate Fit(x: Discoverer) {
    x.Going? ==> Ready(x.client) && forall i :: 0 <= i < |x.waiting| ==> Tidy(x.waiting[i])
  }

  function Step(x: Discoverer, reply: Reply): Discoverer
    requires Fit(x)
  {
    match x
    case Over(_, _) => x
    case Going(done, client, waiting) =>
      var c := ClientStep(client, reply);
      match c.stage
      case Finished(true) => Next(done + [c.svc], c.pending, waiting, reply.sent)
      case Finished(false) => Over(done + [c.svc] + waiting, false)
      case _ => Going(done, c, waiting)
  }

  lemma {:induction false} NextFits(done: seq<Service>, pending: seq<Chrc>, waiting: seq<Service>, sent: bool)
    requires forall i :: 0 <= i < |waiting| ==> Tidy(waiting[i])
    ensures Fit(Next(done, pending, waiting, sent))
    decreases |waiting|
  {
    hide Tidy;
    if |waiting| > 0 {
      assert forall i :: 0 <= i < |waiting[1..]| ==> waiting[1..][i] == waiting[i + 1];
      NextFits(done + [waiting[0]], pending, waiting[1..], sent);
      BeginReady(waiting[0], pending);
    }
  }

  lemma BeginReady(s: Service, pending: seq<Chrc>)
    requires Tidy(s)
    ensures Ready(Begin(s, pending))
  {
    hide Tidy;
  }

  /** Whatever a server sends, every table stays tidy. */
  lemma StepFits(x: Discoverer, reply: Reply)
    requires Fit(x)
    ensures Fit(Step(x, reply))
  {
    hide Tidy, ClientStep, Ready;
    if x.Going? {
      ClientStepReady(x.client, reply);
      var c := ClientStep(x.client, reply);
      NextFits(x.done + [c.svc], c.pending, x.waiting, reply.sent);
    }
  }

  function Run(x: Discoverer, replies: seq<Reply>): Discoverer
    requires Fit(x)
    decreases |replies|
  {
    if |replies| == 0 then x
    else
      StepFits(x, replies[0]);
      Run(Step(x, replies[0]), replies[1..])
  }

  // ---- the server

  /** A service and its type. */
  datatype Offer = Offer(server: Server, uuid: Uuid)

  predicate Single(v: Server) { v.start == v.end && 1 <= v.start <= MAX_HANDLE && |v.chars| == 0 }

  /** Disjoint services in order. */
  predicate AllOk(offers: seq<Offer>) {
    && (forall i :: 0 <= i < |offers| ==> ServerOk(offers[i].server) || Single(offers[i].server))
    && (forall i, j :: 0 <= i < j < |offers| ==> offers[i].server.end < offers[j].server.start)
  }

  function Fresh(o: Offer): Service
    requires ServerOk(o.server) || Single(o.server)
  {
    NewService(o.server.start, o.uuid, true, o.server.end - o.server.start + 1)
  }

  /** Every reply is one the server of the service at work may give. */
  ghost predicate Session(offers: seq<Offer>, x: Discoverer, replies: seq<Reply>)
    requires Fit(x)
    decreases |replies|
  {
    if |replies| == 0 then true
    else
      StepFits(x, replies[0]);
      && x.Going? && |x.done| < |offers|
      && Answers(x.client.request, Listing(offers[|x.done|].server, x.client), replies[0])
      && Session(offers, Step(x, replies[0]), replies[1..])
  }

  // ---- what becomes of them

  datatype Total = AllRebuilt | SomeCut | Broken

  /** `left` says that an earlier service left characteristics pending. */
  function Overall(offers: seq<Offer>, left: bool): Total
    decreases |offers|
  {
    if |offers| == 0 then (if left then SomeCut else AllRebuilt)
    else
      var v, rest := offers[0].server, offers[1..];
      if Single(v) then Overall(rest, left)
      else if left && |v.chars| > 0 then Broken
      else
        match VerdictOf(v.start, v.chars, v.end)
        case Rebuilt => Overall(rest, left)
        case Cut => Overall(rest, true)
        case Failed => Broken
  }

  /** The service has the server's table, unless it is one that is passed over. */
  predicate IsDone(o: Offer, s: Service) { Single(o.server) || IsTableOf(o.server, o.uuid, s) }

  predicate AllDone(offers: seq<Offer>, services: seq<Service>) {
    |services| <= |offers| && forall j :: 0 <= j < |services| ==> IsDone(offers[j], services[j])
  }

  predicate Untouched(offers: seq<Offer>, waiting: seq<Service>) {
    |waiting| == |offers|
    && forall j :: 0 <= j < |offers| ==>
         (ServerOk(offers[j].server) || Single(offers[j].server)) && waiting[j] == Fresh(offers[j])
  }

  function DeclarationOf(o: Offer): Attribute { Declaration(true, o.server.start, o.uuid) }

  ghost predicate Inv(offers: seq<Offer>, x: Discoverer, stale: seq<Chrc>, w: Progress) {
    match x
    case Going(done, client, waiting) =>
      var i := |done|;
      && i < |offers| && !Single(offers[i].server)
      && RebuildRuns.Inv(offers[i].server, DeclarationOf(offers[i]), client, stale, w) && !client.stage.Finished?
      && Untouched(offers[i + 1..], waiting)
      && (|stale| == 0 <==> AllDone(offers, done))
      && Overall(offers, false) == Overall(offers[i..], |stale| > 0)
    case Over(services, ok) =>
      && ok == !Overall(offers, false).Broken?
      && (ok ==> |services| == |offers| && (AllDone(offers, services) <==> Overall(offers, false).AllRebuilt?))
  }

  lemma AllDonePush(offers: seq<Offer>, done: seq<Service>, s: Service)
    requires |done| < |offers|
    ensures AllDone(offers, done + [s]) <==> AllDone(offers, done) && IsDone(offers[|done|], s)
  {
    hide IsDone;
    var all := done + [s];
    if AllDone(offers, all) {
      assert forall j :: 0 <= j < |done| ==> all[j] == done[j];
      assert all[|done|] == s;
    }
  }

  lemma {:induction false} BeginInv(offers: seq<Offer>, done: seq<Service>, pending: seq<Chrc>, waiting: seq<Service>)
    requires AllOk(offers) && |done| < |offers| && Untouched(offers[|done|..], waiting)
    requires |pending| == 0 <==> AllDone(offers, done)
    requires Overall(offers, false) == Overall(offers[|done|..], |pending| > 0)
    requires !Single(offers[|done|].server) && AllBelow(pending, offers[|done|].server.start)
    ensures var w := Progress([], None, [], 0);
            var x := Going(done, Begin(waiting[0], pending), waiting[1..]);
            Inv(offers, x, pending, w) && Budget(offers, x, w) <= Later(offers[|done|..])
  {
    hide RebuildRuns.Inv, RebuildRuns.Budget, VerdictOf, AllBelow, AllDone, NewService, ServerOk, Overall,
         Single, Beginning;
    var o := offers[|done|];
    assert offers[|done|..][0] == o && offers[|done|..][1..] == offers[|done| + 1..];
    UntouchedTail(offers[|done|..], waiting);
    AllOkAt(offers, |done|);
    StartInv(o.server, o.uuid, pending);
    BeginningIs(o, pending);
  }

  lemma AllOkAt(offers: seq<Offer>, i: int)
    requires AllOk(offers) && 0 <= i < |offers|
    ensures ServerOk(offers[i].server) || Single(offers[i].server)
  {
    hide ServerOk, Single;
  }

  /** Going on with service |done|, where nothing has been done yet. */
  lemma {:induction false} NextInv(offers: seq<Offer>, done: seq<Service>, pending: seq<Chrc>, waiting: seq<Service>)
    returns (w: Progress)
    requires AllOk(offers) && |done| <= |offers| && Untouched(offers[|done|..], waiting)
    requires |pending| == 0 <==> AllDone(offers, done)
    requires Overall(offers, false) == Overall(offers[|done|..], |pending| > 0)
    requires |done| < |offers| ==> AllBelow(pending, offers[|done|].server.start)
    ensures Inv(offers, Next(done, pending, waiting, true), pending, w)
    ensures Budget(offers, Next(done, pending, waiting, true), w) <= Later(offers[|done|..])
    decreases |waiting|
  {
    hide RebuildRuns.Inv, VerdictOf, AllBelow, AllDone, NewService, ServerOk;
    w := Progress([], None, [], 0);
    LaterIsNat(offers[|done|..]);
    if |waiting| > 0 {
      var o, rest := offers[|done|], offers[|done|..][1..];
      assert offers[|done|..][0] == o && rest == offers[|done| + 1..];
      UntouchedTail(offers[|done|..], waiting);
      FreshRange(o);
      if Single(o.server) {
        AllDonePush(offers, done, waiting[0]);
        BelowMore(pending, o.server.start, o.server.end + 1);
        BelowNext(offers, |done|, pending);
        w := NextInv(offers, done + [waiting[0]], pending, waiting[1..]);
      } else {
        hide Inv, Budget;
        BeginInv(offers, done, pending, waiting);
      }
    } else {
      assert offers[|done|..] == [];
    }
  }

  /** How many replies may still come for these services. */
  function Later(offers: seq<Offer>): int
    decreases |offers|
  {
    if |offers| == 0 then 0
    else |offers[0].server.chars| + 1 + RebuildRuns.Later(offers[0].server.chars) + Later(offers[1..])
  }

  lemma {:induction false} LaterIsNat(offers: seq<Offer>)
    ensures Later(offers) >= 0
    decreases |offers|
  {
    if |offers| > 0 {
      RebuildRuns.LaterIsNat(offers[0].server.chars);
      LaterIsNat(offers[1..]);
    }
  }

  function Budget(offers: seq<Offer>, x: Discoverer, w: Progress): int {
    if x.Going? && |x.done| < |offers| then
      RebuildRuns.Budget(offers[|x.done|].server, x.client, w) + Later(offers[|x.done| + 1..])
    else 0
  }

  lemma UntouchedTail(offers: seq<Offer>, waiting: seq<Service>)
    requires Untouched(offers, waiting) && |waiting| > 0
    ensures Untouched(offers[1..], waiting[1..])
    ensures (ServerOk(offers[0].server) || Single(offers[0].server)) && waiting[0] == Fresh(offers[0])
  {
    hide ServerOk, Fresh;
  }

  lemma FreshRange(o: Offer)
    requires ServerOk(o.server) || Single(o.server)
    ensures Fresh(o).start == o.server.start && End(Fresh(o)) == o.server.end
    ensures !Single(o.server) ==> o.server.start < o.server.end
  {
    hide CharsAscend;
  }

  lemma BelowNext(offers: seq<Offer>, i: int, pending: seq<Chrc>)
    requires AllOk(offers) && 0 <= i < |offers| && AllBelow(pending, offers[i].server.end + 1)
    ensures i + 1 < |offers| ==> AllBelow(pending, offers[i + 1].server.start)
  {
    hide CharsAscend;
    if i + 1 < |offers| {
      var j := i + 1;
      assert offers[i].server.end < offers[j].server.start;
    }
  }

  lemma BeginningIs(o: Offer, pending: seq<Chrc>)
    requires ServerOk(o.server)
    ensures Beginning(o.server, o.uuid, pending) == Begin(Fresh(o), pending)
    ensures !Begin(Fresh(o), pending).stage.Finished?
  {
    hide ServerOk, NewService;
  }

  lemma BelowMore(pending: seq<Chrc>, a: int, b: int)
    requires AllBelow(pending, a) && a <= b
    ensures AllBelow(pending, b)
  {
  }

  // ---- one reply

  lemma ReplyInv(v: Server, d: Attribute, c: Client, stale: seq<Chrc>, w: Progress, reply: Reply) returns (w': Progress)
    requires RebuildRuns.Inv(v, d, c, stale, w) && !c.stage.Finished? && Answers(c.request, Listing(v, c), reply)
    ensures RebuildRuns.Inv(v, d, ClientStep(c, reply), stale, w')
    ensures RebuildRuns.Budget(v, ClientStep(c, reply), w') < RebuildRuns.Budget(v, c, w)
    ensures reply.sent
  {
    hide ClientStep, Answers, Listing, RebuildRuns.Budget;
    StageOf(v, d, c, stale, w);
    AnswersAreSent(c.request, Listing(v, c), reply);
    if c.stage.FindingChrcs? {
      w' := ChrcsReply(v, d, c, stale, w, reply);
    } else {
      w' := DescsReply(v, d, c, w, reply);
    }
  }

  /** The verdict on the service at work decides how the rest goes on. */
  lemma OverallSteps(offers: seq<Offer>, i: int, stale: seq<Chrc>, pending: seq<Chrc>)
    requires 0 <= i < |offers| && !Single(offers[i].server)
    requires var o := Outcome(offers[i].server, stale);
             && (o.Rebuilt? ==> pending == stale) && (o.Cut? ==> |pending| > 0)
    ensures Overall(offers[i..], |stale| > 0)
            == if Outcome(offers[i].server, stale).Failed? then Broken else Overall(offers[i + 1..], |pending| > 0)
  {
    hide VerdictOf, Single;
    assert offers[i..][0] == offers[i] && offers[i..][1..] == offers[i + 1..];
  }

  lemma FinishedInv(offers: seq<Offer>, x: Discoverer, c: Client, stale: seq<Chrc>, w: Progress, w1: Progress)
    returns (w': Progress)
    requires AllOk(offers) && x.Going? && Inv(offers, x, stale, w) && c.stage.Finished?
    requires RebuildRuns.Inv(offers[|x.done|].server, DeclarationOf(offers[|x.done|]), c, stale, w1)
    ensures var y := if c.stage.ok then Next(x.done + [c.svc], c.pending, x.waiting, true)
                     else Over(x.done + [c.svc] + x.waiting, false);
            Inv(offers, y, c.pending, w') && Budget(offers, y, w') <= Later(offers[|x.done| + 1..])
  {
    hide RebuildRuns.Inv, VerdictOf, AllBelow, AllDone, NewService, ServerOk, Outcome, Untouched, Overall, Next,
         IsDone, Single;
    var i := |x.done|;
    var o := offers[i];
    InvMeans(o.server, o.uuid, c, stale, w1);
    LaterIsNat(offers[i + 1..]);
    OverallSteps(offers, i, stale, c.pending);
    AllDonePush(offers, x.done, c.svc);
    DoneMeans(o, c.svc);
    if c.stage.ok {
      BelowNext(offers, i, c.pending);
      w' := NextInv(offers, x.done + [c.svc], c.pending, x.waiting);
    } else {
      w' := w;
    }
  }

  lemma DoneMeans(o: Offer, s: Service)
    ensures !Single(o.server) ==> (IsDone(o, s) <==> IsTableOf(o.server, o.uuid, s))
  {
    hide Single, IsTableOf;
  }

  lemma StepInv(offers: seq<Offer>, x: Discoverer, stale: seq<Chrc>, w: Progress, reply: Reply)
    returns (stale': seq<Chrc>, w': Progress)
    requires AllOk(offers) && Fit(x) && x.Going? && Inv(offers, x, stale, w)
    requires Answers(x.client.request, Listing(offers[|x.done|].server, x.client), reply)
    ensures Inv(offers, Step(x, reply), stale', w') && Budget(offers, Step(x, reply), w') < Budget(offers, x, w)
  {
    hide RebuildRuns.Inv, RebuildRuns.Budget, AllDone, ServerOk, Untouched, Overall, Next, Single, ClientStep,
         Answers, Listing, Later, AllOk, Ready;
    var o := offers[|x.done|];
    var w1 := ReplyInv(o.server, DeclarationOf(o), x.client, stale, w, reply);
    var c := ClientStep(x.client, reply);
    RebuildRuns.BudgetIsNat(o.server, DeclarationOf(o), c, stale, w1);
    if c.stage.Finished? {
      stale' := c.pending;
      w' := FinishedInv(offers, x, c, stale, w, w1);
    } else {
      stale', w' := stale, w1;
    }
  }

  // ---- every session

  function FreshAll(offers: seq<Offer>): (r: seq<Service>)
    requires forall i :: 0 <= i < |offers| ==> ServerOk(offers[i].server) || Single(offers[i].server)
    ensures |r| == |offers| && forall i :: 0 <= i < |offers| ==> r[i] == Fresh(offers[i])
  {
    seq(|offers|, i requires 0 <= i < |offers| => Fresh(offers[i]))
  }

  predicate Startable(offers: seq<Offer>) { AllOk(offers) && |offers| > 0 && !Single(offers[0].server) }

  function Starting(offers: seq<Offer>): (x: Discoverer)
    requires Startable(offers)
    ensures Fit(x)
  {
    var o := offers[0];
    AllFreshTidy(offers[1..]);
    Going([], Beginning(o.server, o.uuid, []), FreshAll(offers[1..]))
  }

  lemma AllFreshTidy(offers: seq<Offer>)
    requires forall i :: 0 <= i < |offers| ==> ServerOk(offers[i].server) || Single(offers[i].server)
    ensures forall i :: 0 <= i < |FreshAll(offers)| ==> Tidy(FreshAll(offers)[i])
  {
    hide Tidy, NewService, CharsAscend;
    forall i | 0 <= i < |offers|
      ensures Tidy(FreshAll(offers)[i])
    {
      var v := offers[i].server;
      FreshRange(offers[i]);
      NewServiceTidy(v.start, offers[i].uuid, true, v.end - v.start + 1);
    }
  }

  lemma StartingInv(offers: seq<Offer>)
    requires Startable(offers)
    ensures var w := Progress([], None, [], 0);
            Inv(offers, Starting(offers), [], w) && Budget(offers, Starting(offers), w) == Later(offers)
  {
    hide RebuildRuns.Inv, RebuildRuns.Budget, Beginning, ServerOk, Overall, AllBelow, Fresh, Single;
    var o := offers[0];
    StartsOk(offers);
    assert AllBelow([], o.server.start) by { NoneBelow(o.server.start); }
    StartInv(o.server, o.uuid, []);
    BeginningIs(o, []);
    assert offers[0..] == offers;
  }

  lemma NoneBelow(limit: int)
    ensures AllBelow([], limit)
  {
  }

  lemma StartsOk(offers: seq<Offer>)
    requires Startable(offers)
    ensures ServerOk(offers[0].server)
  {
    hide CharsAscend;
  }

  lemma {:induction false} RunInv(offers: seq<Offer>, x: Discoverer, stale: seq<Chrc>, w: Progress, replies: seq<Reply>)
    returns (stale': seq<Chrc>, w': Progress)
    requires AllOk(offers) && Fit(x) && Inv(offers, x, stale, w) && Session(offers, x, replies)
    ensures Inv(offers, Run(x, replies), stale', w')
    ensures 0 <= Budget(offers, Run(x, replies), w') <= Budget(offers, x, w) - |replies|
    decreases |replies|
  {
    hide Inv, Budget, Step, Answers, Listing, AllOk, Fit;
    if |replies| == 0 {
      BudgetIsNat(offers, x, stale, w);
      stale', w' := stale, w;
    } else {
      StepFits(x, replies[0]);
      var s1, w1 := StepInv(offers, x, stale, w, replies[0]);
      stale', w' := RunInv(offers, Step(x, replies[0]), s1, w1, replies[1..]);
    }
  }

  lemma BudgetIsNat(offers: seq<Offer>, x: Discoverer, stale: seq<Chrc>, w: Progress)
    requires Inv(offers, x, stale, w)
    ensures Budget(offers, x, w) >= 0 && (x.Going? ==> Budget(offers, x, w) > 0)
  {
    hide RebuildRuns.Inv, RebuildRuns.Budget, AllDone, Untouched, Overall, Single, Later;
    if x.Going? {
      var o := offers[|x.done|];
      RebuildRuns.BudgetIsNat(o.server, DeclarationOf(o), x.client, stale, w);
      LaterIsNat(offers[|x.done| + 1..]);
    }
  }

  /** For all services and every cutting into pages: discovery ends after a bounded number of
      replies; the layouts decide whether it reports success; and a success means that every
      service has the server's table exactly if the verdict is AllRebuilt. */
  lemma ServicesOutcome(offers: seq<Offer>, replies: seq<Reply>)
    requires Startable(offers) && Session(offers, Starting(offers), replies)
    ensures var x := Run(Starting(offers), replies);
            && |replies| <= Later(offers) && (|replies| == Later(offers) ==> x.Over?)
            && (x.Over? ==> x.ok == !Overall(offers, false).Broken?)
            && (x.Over? && x.ok ==> |x.services| == |offers|)
            && (x.Over? && x.ok ==> (AllDone(offers, x.services) <==> Overall(offers, false).AllRebuilt?))
  {
    hide RebuildRuns.Inv, Run, Session, Starting, Overall, AllDone, Budget, AllOk, Untouched, Single;
    StartingInv(offers);
    var stale, w := RunInv(offers, Starting(offers), [], Progress([], None, [], 0), replies);
    BudgetIsNat(offers, Run(Starting(offers), replies), stale, w);
  }

  predicate NoGap(v: Server) { Single(v) || Contiguous(v.start, v.chars) }

  predicate NoGaps(offers: seq<Offer>) { forall i :: 0 <= i < |offers| ==> NoGap(offers[i].server) }

  /** All tables are rebuilt if and only if no service has a gap between its attributes. */
  lemma {:induction false} AllRebuiltExactly(offers: seq<Offer>)
    requires AllOk(offers)
    ensures Overall(offers, false).AllRebuilt? <==> NoGaps(offers)
    ensures !Overall(offers, true).AllRebuilt?
    decreases |offers|
  {
    hide VerdictOf, Contiguous, ServerOk;
    if |offers| > 0 {
      var v, rest := offers[0].server, offers[1..];
      AllOkTail(offers);
      AllRebuiltExactly(rest);
      if !Single(v) { VerdictIs(v); }
      assert forall i :: 1 <= i < |offers| ==> offers[i] == rest[i - 1];
      assert forall i :: 0 <= i < |rest| ==> rest[i] == offers[i + 1];
    }
  }

  lemma AllOkTail(offers: seq<Offer>)
    requires AllOk(offers) && |offers| > 0
    ensures AllOk(offers[1..]) && (ServerOk(offers[0].server) || Single(offers[0].server))
  {
    hide ServerOk, Single;
  }

  lemma VerdictIs(v: Server)
    requires ServerOk(v)
    ensures VerdictOf(v.start, v.chars, v.end) == Rebuilt <==> Contiguous(v.start, v.chars)
  {
    hide ValidChar, VerdictOf, Contiguous;
    RebuiltExactly(v.start, v.chars, v.end);
  }

  /** Once characteristics were left pending, discovery goes on without an error exactly if no
      later service has any characteristic of its own. */
  lemma {:induction false} LeftOversBreak(offers: seq<Offer>)
    ensures Overall(offers, true) == if NoChars(offers) then SomeCut else Broken
    decreases |offers|
  {
    if |offers| > 0 {
      LeftOversBreak(offers[1..]);
      assert forall i :: 1 <= i < |offers| ==> offers[i] == offers[1..][i - 1];
      assert forall i :: 0 <= i < |offers[1..]| ==> offers[1..][i] == offers[i + 1];
    }
  }

  predicate NoChars(offers: seq<Offer>) { forall i :: 0 <= i < |offers| ==> |offers[i].server.chars| == 0 }

  /** Services without gaps are all rebuilt, whatever the pages. */
  lemma ServicesAreRebuilt(offers: seq<Offer>, replies: seq<Reply>)
    requires Startable(offers) && Session(offers, Starting(offers), replies)
    requires NoGaps(offers)
    ensures var x := Run(Starting(offers), replies);
            && (|replies| == Later(offers) ==> x.Over?)
            && (x.Over? ==> x.ok && |x.services| == |offers| && AllDone(offers, x.services))
  {
    hide Run, Session, Starting, Overall, AllDone, Single, Contiguous;
    AllRebuiltExactly(offers);
    ServicesOutcome(offers, replies);
  }

  // ---- at inputs

  /** Whatever the services, there is a session that goes to the end. */
  lemma {:induction false} SessionFrom(offers: seq<Offer>, x: Discoverer, stale: seq<Chrc>, w: Progress)
    returns (replies: seq<Reply>)
    requires AllOk(offers) && Fit(x) && Inv(offers, x, stale, w)
    ensures Session(offers, x, replies) && Run(x, replies).Over?
    decreases Budget(offers, x, w)
  {
    hide Inv, Budget, Step, Answers, Listing, AllOk, Fit;
    BudgetIsNat(offers, x, stale, w);
    if x.Over? {
      replies := [];
    } else {
      Numbered(offers, x, stale, w);
      var reply := AnyAnswer(x.client.request, Listing(offers[|x.done|].server, x.client));
      StepFits(x, reply);
      var s1, w1 := StepInv(offers, x, stale, w, reply);
      BudgetIsNat(offers, Step(x, reply), s1, w1);
      var rest := SessionFrom(offers, Step(x, reply), s1, w1);
      replies := [reply] + rest;
      assert replies[1..] == rest;
    }
  }

  lemma Numbered(offers: seq<Offer>, x: Discoverer, stale: seq<Chrc>, w: Progress)
    requires Inv(offers, x, stale, w)
    ensures x.Going? ==> |x.done| < |offers|
  {
    hide RebuildRuns.Inv, AllDone, Untouched, Overall, Single;
  }

  lemma SessionExists(offers: seq<Offer>) returns (replies: seq<Reply>)
    requires Startable(offers)
    ensures Session(offers, Starting(offers), replies) && Run(Starting(offers), replies).Over?
  {
    hide Inv, Session, Run, Starting, AllOk, Single;
    StartingInv(offers);
    replies := SessionFrom(offers, Starting(offers), [], Progress([], None, [], 0));
  }

  /** Two services, the first with one unused handle, the second without any: discovery fails
      in the second, because of what the first one left over. */
  lemma TwoServicesBreak(a: int, b: int, uuid: Uuid) returns (replies: seq<Reply>)
    requires IsWord(a) && IsWord(b)
    ensures var offers := TwoServices(a, b, uuid);
            && Startable(offers) && NoGap(offers[1].server)
            && Session(offers, Starting(offers), replies)
            && var x := Run(Starting(offers), replies); x.Over? && !x.ok
  {
    var offers := TwoServices(a, b, uuid);
    FirstIsCut(a, b);
    SecondIsWhole(a);
    LeftOversBreak(offers[1..]);
    assert Overall(offers, false) == Overall(offers[1..], true);
    assert offers[1..][0] == offers[1];
    hide Session, Run, Starting, Overall, ServerOk, VerdictOf, Contiguous;
    replies := SessionExists(offers);
    ServicesOutcome(offers, replies);
  }

  function FirstServer(a: int, b: int): Server {
    Server(1, 7, [Char(2, 3, 0, Uuid16(a), []), Char(5, 6, 0, Uuid16(b), [])])
  }

  function SecondServer(a: int): Server { Server(8, 10, [Char(9, 10, 0, Uuid16(a), [])]) }

  function TwoServices(a: int, b: int, uuid: Uuid): seq<Offer> {
    [Offer(FirstServer(a, b), uuid), Offer(SecondServer(a), uuid)]
  }

  lemma FirstIsCut(a: int, b: int)
    requires IsWord(a) && IsWord(b)
    ensures var v := FirstServer(a, b); ServerOk(v) && !Single(v) && VerdictOf(v.start, v.chars, v.end) == Cut
  {
    var v := FirstServer(a, b);
    assert v.chars[1..] == [v.chars[1]] && v.chars[1..][1..] == [];
    assert CharsAscend(6, []) && CharsAscend(3, v.chars[1..]) && CharsAscend(1, v.chars);
    assert VerdictOf(1, v.chars, 7) == VerdictInside(v.chars[0], v.chars[1..], 7) == Cut;
  }

  lemma SecondIsWhole(a: int)
    requires IsWord(a)
    ensures var v := SecondServer(a); ServerOk(v) && !Single(v) && Contiguous(v.start, v.chars)
  {
    var v := SecondServer(a);
    assert v.chars[1..] == [];
    assert CharsAscend(10, []) && CharsAscend(8, v.chars);
  }
}
