/** Long writes beside reliable write sessions in bluez/gatt-client.c: in_long_write, the
    session id and the queue of waiting writes are to keep their requests apart, because the
    server has a single queue of prepared pieces; and reference counts are to keep every
    request alive as long as an answer may refer to it. */
module WriteSessions {
  import opened Wrappers
  import opened Queue
  import opened Sequences

  /** Whose request or prepared piece it is. */
  datatype Owner = Long(id: int) | Session(id: int)

  /** Prepare Write, Execute Write with 0x01, with 0x00, and with 0x00 because of a cancel. */
  datatype What = Prep | Commit | Abort | Quit

  /** An operation on the bearer. Its id there is `tag`; callback and destroy say whether it
      still has those handlers, and destroy is always request_unref. */
  datatype Op = Op(owner: Owner, what: What, tag: nat, callback: bool, destroy: bool)

  /** What the data pointer of the session's request points to: the data of the Prepare Write
      with this tag, or those of an Execute Write. */
  datatype Data = ForPrep(tag: nat) | ForExec

  datatype Event =
    | Wrote(owner: Owner, pieces: seq<Owner>)  // the server executed what was prepared
    | Called(id: int)                          // the callback of a long write
    | Told(asked: nat, told: nat)              // the answer to one Prepare Write, the callback of another
    | Ended(id: int)                           // the callback of bt_gatt_client_write_execute

  datatype State = State(
    inLong: bool,          // in_long_write
    session: int,          // reliable_write_session_id
    waiting: seq<int>,     // long_write_queue
    refs: map<int, int>,   // the requests that are allocated, and their reference counts
    pending: set<int>,     // pending_requests
    att: map<int, nat>,    // att_id of a request
    data: Data,            // of the request of the session
    fly: seq<Op>,          // without an answer; they are answered in order
    running: Option<Op>,   // its callback is running
    prepared: seq<Owner>,  // the server's queue
    nextId: int,
    nextTag: nat,
    broken: bool,          // the behaviour is no longer defined
    log: seq<Event>)

  const NEW := State(false, 0, [], map[], {}, map[], ForExec, [], None, [], 1, 1, false, [])

  // ---- requests and the bearer

  /** request_create. */
  function Create(s: State): State {
    s.(nextId := s.nextId + 1, refs := s.refs[s.nextId := 1], pending := s.pending + {s.nextId})
  }

  function Ref(s: State, id: int): State {
    if id in s.refs then s.(refs := s.refs[id := s.refs[id] + 1]) else s.(broken := true)
  }

  /** request_unref: the last reference releases the request. */
  function Unref(s: State, id: int): State {
    if id !in s.refs then s.(broken := true)
    else if s.refs[id] > 1 then s.(refs := s.refs[id := s.refs[id] - 1])
    else s.(refs := s.refs - {id}, pending := s.pending - {id})
  }

  /** bt_att_send takes it, and the request notes its id. */
  function Send(s: State, owner: Owner, what: What, destroy: bool): State {
    s.(fly := s.fly + [Op(owner, what, s.nextTag, true, destroy)], att := s.att[owner.id := s.nextTag],
       nextTag := s.nextTag + 1)
  }

  /** An Execute Write with 0x00 for a cancel; its id is not noted. */
  function SendQuit(s: State, owner: Owner): State {
    s.(fly := s.fly + [Op(owner, Quit, s.nextTag, true, owner.Session?)], nextTag := s.nextTag + 1)
  }

  function Cleared(op: Op): Op { op.(callback := false, destroy := false) }

  function Release(s: State, op: Op): State { if op.destroy then Unref(s, op.owner.id) else s }

  /** bt_att_cancel: an operation that went out or whose callback is running loses its
      handlers, one that is queued goes; destroy runs. Only the first can have gone out. */
  function AttCancel(s: State, tag: nat, out: bool): State {
    if s.running.Some? && s.running.value.tag == tag then
      Release(s.(running := Some(Cleared(s.running.value))), s.running.value)
    else
      var k := FirstIndex(s.fly, (op: Op) => op.tag == tag);
      if k == |s.fly| then s
      else if k == 0 && out && s.running.None? then Release(s.(fly := [Cleared(s.fly[0])] + s.fly[1..]), s.fly[0])
      else Release(s.(fly := RemoveAt(s.fly, k)), s.fly[k])
  }

  // ---- what the callers ask for; sent says whether bt_att_send takes it

  /** bt_gatt_client_write_long_value. */
  function WriteLong(s: State, sent: bool): State {
    var t := Create(s);
    if s.inLong || s.session > 0 then t.(waiting := s.waiting + [s.nextId])
    else if !sent then Unref(t, s.nextId)
    else Send(t, Long(s.nextId), Prep, true).(inLong := true)
  }

  /** bt_gatt_client_prepare_write; the id 0 asks for a session. */
  function Prepare(s: State, id: int, sent: bool): State {
    if s.inLong || id != s.session || (id != 0 && id !in s.pending) then s
    else
      var t := if id == 0 then Create(s) else s;
      var request := if id == 0 then s.nextId else id;
      if !sent then Unref(t, request)
      else Send(t, Session(request), Prep, false).(session := request, data := ForPrep(s.nextTag))
  }

  /** bt_gatt_client_write_execute; there is never a request with the id 0. */
  function Execute(s: State, id: int, sent: bool): State {
    if s.inLong || id != s.session || id !in s.pending then s
    else if !sent then Unref(s, id)
    else Send(s, Session(id), Commit, true).(data := ForExec)
  }

  /** bt_gatt_client_cancel: the request is read again after bt_att_cancel. */
  function Cancel(s: State, id: int, sent: bool, out: bool): State {
    if id !in s.pending then s
    else
      var t := s.(pending := s.pending - {id});
      var u := if id in s.att then AttCancel(t, s.att[id], out) else t;
      if id !in u.refs then u.(broken := true)
      else if id in u.waiting then u.(waiting := Without(u.waiting, id))
      else if !sent then u
      else SendQuit(u, if id == s.session then Session(id) else Long(id))
  }

  // ---- what goes on when an answer has come

  /** What start_next_long_write comes to when nothing is taken: one write after the other is
      called back and released. */
  function Drain(s: State): State
    decreases |s.waiting|
  {
    if |s.waiting| == 0 then s.(inLong := false)
    else
      var id := s.waiting[0];
      Drain(Unref(s.(waiting := s.waiting[1..], log := s.log + [Called(id)]), id))
  }

  /** start_next_long_write; a first chunk that does not fit the MTU any more is aborted. */
  function StartNext(s: State, next: What, sent: bool): State {
    if |s.waiting| == 0 then s.(inLong := false)
    else if !sent then Drain(s)
    else
      var id := s.waiting[0];
      var t := Ref(s.(waiting := s.waiting[1..]), id);
      Unref(Send(t, Long(id), if next.Abort? then Abort else Prep, true), id)
  }

  /** handle_next_prep_write or complete_write_long_op, as prepare_write_cb decides. An Execute
      Write is only refused when the link is gone, and with it what the server has prepared. */
  function GoOn(s: State, id: int, next: What, sent: bool): State {
    if sent then Send(Ref(s, id), Long(id), if next.Quit? then Abort else next, true)
    else StartNext(s.(prepared := [], log := s.log + [Called(id)]), next, false)
  }

  /** What the server does with a request; kept says whether it carries it out. */
  function Served(s: State, op: Op, kept: bool): State {
    match op.what
    case Prep => if kept then s.(prepared := s.prepared + [op.owner]) else s
    case Commit => s.(prepared := [], log := if kept then s.log + [Wrote(op.owner, s.prepared)] else s.log)
    case _ => s.(prepared := [])
  }

  /** The callback of a session finds the data it is made for. */
  predicate Reads(s: State, what: What) {
    match what
    case Prep => s.data.ForPrep?
    case Commit => s.data.ForExec?
    case Abort => false
    case Quit => true
  }

  /** The callback reads its request, and calls the caller back. */
  function Enter(s: State, op: Op): State {
    var id := op.owner.id;
    var t := s.(running := Some(op));
    if op.owner.Long? && op.what.Quit? then t
    else if id !in s.refs || (op.owner.Session? && !Reads(s, op.what)) then s.(broken := true)
    else
      match op.owner
      case Long(_) => if op.what.Prep? then t else t.(log := s.log + [Called(id)])
      case Session(_) =>
        match op.what
        case Prep => t.(log := s.log + [Told(op.tag, s.data.tag)])
        case Commit => t.(log := s.log + [Ended(id)])
        case _ => t
  }

  /** The rest of the callback, behind the call of the caller's: `next` is what
      prepare_write_cb decides on. */
  function Leave(s: State, op: Op, next: What, sent: bool): State {
    match op.owner
    case Session(_) =>
      (match op.what
       case Commit => StartNext(s.(session := 0), next, sent)
       case Quit => s.(session := 0)
       case _ => s)
    case Long(id) =>
      match op.what
      case Prep => GoOn(s, id, next, sent)
      case Quit => if |s.waiting| == 0 then s.(inLong := false) else s
      case _ => StartNext(s, next, sent)
  }

  function Answered(s: State, kept: bool): State {
    if s.running.Some? || |s.fly| == 0 then s
    else
      var op := s.fly[0];
      var t := Served(s.(fly := s.fly[1..]), op, kept);
      if op.callback then Enter(t, op) else t
  }

  function Returned(s: State, next: What, sent: bool): State {
    if s.running.None? then s
    else Release(Leave(s.(running := None), s.running.value, next, sent), s.running.value)
  }

  /** Between an Answer and the Return the caller's callback may call. */
  datatype Input =
    | DoWriteLong(sent: bool)
    | DoPrepare(id: int, sent: bool)
    | DoExecute(id: int, sent: bool)
    | DoCancel(id: int, sent: bool, out: bool)
    | Answer(kept: bool)
    | Return(next: What, sent: bool)

  /** Nobody calls while a callback runs that has no caller's callback in it. */
  predicate MayCall(s: State) {
    s.running.Some? ==>
      var op := s.running.value; if op.owner.Long? then op.what.Commit? || op.what.Abort? else !op.what.Quit?
  }

  function Step(s: State, i: Input): State {
    if s.broken || (!i.Answer? && !i.Return? && !MayCall(s)) then s
    else
      match i
      case DoWriteLong(sent) => WriteLong(s, sent)
      case DoPrepare(id, sent) => Prepare(s, id, sent)
      case DoExecute(id, sent) => Execute(s, id, sent)
      case DoCancel(id, sent, out) => Cancel(s, id, sent, out)
      case Answer(kept) => Answered(s, kept)
      case Return(next, sent) => Returned(s, next, sent)
  }

  function Run(s: State, inputs: seq<Input>): State
    decreases |inputs|
  {
    if |inputs| == 0 then s else Run(Step(s, inputs[0]), inputs[1..])
  }

  // ---- one at a time

  predicate PiecesOf(pieces: seq<Owner>, o: Owner) { forall i :: 0 <= i < |pieces| ==> pieces[i] == o }

  /** One reference, and it is not the queue's. */
  predicate Single(s: State, id: int) {
    0 < id < s.nextId && id in s.refs && s.refs[id] == 1 && id !in s.waiting
  }

  /** The one operation of a long write owns the one reference to its request. */
  predicate Works(s: State, op: Op) {
    && op.owner.Long? && !op.what.Quit? && op.callback && op.destroy
    && Single(s, op.owner.id) && op.owner.id in s.pending
    && op.owner.id in s.att && s.att[op.owner.id] == op.tag
    && PiecesOf(s.prepared, op.owner)
  }

  predicate LongMode(s: State) {
    if s.running.Some? then
      |s.fly| == 0 && Works(s, s.running.value) && (s.running.value.what.Prep? || |s.prepared| == 0)
    else if |s.fly| == 0 then |s.prepared| == 0 && !s.inLong
    else |s.fly| == 1 && Works(s, s.fly[0])
  }

  /** Prepare Writes in order; the request's data are those of the last one asked for. */
  predicate Preps(s: State, o: Owner, last: nat) {
    && (forall i :: 0 <= i < |s.fly| ==>
          var op := s.fly[i]; op.owner == o && op.what.Prep? && op.callback && !op.destroy && op.tag < s.nextTag)
    && (forall i, j :: 0 <= i < j < |s.fly| ==> s.fly[i].tag < s.fly[j].tag)
    && (|s.fly| > 0 ==> s.fly[|s.fly| - 1].tag == last)
    && last < s.nextTag
  }

  /** The same after a cancel, with the Execute Write of the cancel at the end if it was taken. */
  predicate Quits(fly: seq<Op>, o: Owner) {
    forall i :: 0 <= i < |fly| ==>
      && fly[i].owner == o
      && if fly[i].what.Quit? then i == |fly| - 1 && fly[i].callback && fly[i].destroy
         else fly[i].what.Prep? && !fly[i].destroy
  }

  predicate RunsPrep(s: State, o: Owner) {
    s.running.Some? ==> s.running.value.owner == o && s.running.value.what.Prep? && !s.running.value.destroy
  }

  predicate Commits(s: State, op: Op, o: Owner) {
    && op.owner == o && op.what.Commit? && op.callback && op.destroy
    && Single(s, o.id) && o.id in s.pending && o.id in s.att && s.att[o.id] == op.tag
  }

  /** The request of the session is open, cancelled, or was released by a refused send. */
  predicate SessionMode(s: State) {
    var o := Session(s.session);
    && !s.inLong && PiecesOf(s.prepared, o)
    && if s.session !in s.refs then
         s.session !in s.pending && s.session !in s.waiting && |s.fly| == 0 && RunsPrep(s, o)
       else if s.session !in s.pending then
         && s.data.ForPrep? && Single(s, s.session) && Quits(s.fly, o)
         && (s.running.Some? && s.running.value.what.Quit? ==>
               s.running.value.owner == o && s.running.value.destroy && |s.fly| == 0 && |s.prepared| == 0)
         && (s.running.Some? && !s.running.value.what.Quit? ==> RunsPrep(s, o))
       else if s.data.ForPrep? then
         && Single(s, s.session) && s.session in s.att && s.att[s.session] == s.data.tag
         && Preps(s, o, s.data.tag) && RunsPrep(s, o) && (s.running.Some? ==> s.running.value.tag <= s.data.tag)
       else if s.running.Some? && s.running.value.what.Commit? then
         Commits(s, s.running.value, o) && |s.fly| == 0 && |s.prepared| == 0
       else
         && |s.fly| == 1 && Commits(s, s.fly[0], o)
         && RunsPrep(s, o) && (s.running.Some? ==> s.running.value.tag != s.fly[0].tag)
  }

  /** A waiting long write is held by the queue alone. */
  predicate Waits(s: State, id: int) {
    0 < id < s.nextId && id in s.refs && s.refs[id] == 1 && id in s.pending && id !in s.att
  }

  predicate Working(s: State, id: int) {
    || (s.running.Some? && s.running.value.owner == Long(id))
    || (|s.fly| > 0 && s.fly[0].owner == Long(id))
  }

  predicate Distinct(q: seq<int>) { forall i, j :: 0 <= i < j < |q| ==> q[i] != q[j] }

  predicate Books(s: State) {
    && !s.broken && 0 <= s.session < s.nextId && 0 < s.nextTag
    && Distinct(s.waiting) && (forall id :: id in s.waiting ==> Waits(s, id))
    && (forall id :: id in s.refs ==> 0 < id < s.nextId)
    && (forall id :: id in s.att ==> 0 < id < s.nextId)
    && (forall id :: id in s.pending ==> id in s.refs && (id in s.waiting || id == s.session || Working(s, id)))
  }

  /** Whatever is under way or prepared belongs to one session or to one long write, and every
      request that an answer refers to is alive. */
  predicate Calm(s: State) { Books(s) && if s.session > 0 then SessionMode(s) else LongMode(s) }

  // ---- which calls come too early

  /** A long write is under way and in_long_write does not say so: it waited for a session. */
  predicate Hidden(s: State) { s.session == 0 && !s.inLong && (s.running.Some? || |s.fly| > 0) }

  predicate Open(s: State) { s.session > 0 && s.session in s.pending }

  /** The call is let through although another procedure is not over, or although an answer
      is to come for which the request has to stay as it is. */
  predicate Overlaps(s: State, i: Input) {
    MayCall(s) &&
    match i
    case DoWriteLong(sent) => sent && Hidden(s)
    case DoPrepare(id, sent) =>
      id == s.session && ((Hidden(s) && sent) || (Open(s) && (s.data.ForExec? || (!sent && |s.fly| > 0))))
    case DoExecute(id, sent) => id == s.session && Open(s) && (s.data.ForExec? || |s.fly| > 0)
    case DoCancel(id, _, _) => Working(s, id) || (id == s.session && Open(s) && s.data.ForExec?)
    case _ => false
  }

  // ---- the calls

  lemma CreateIs(s: State)
    requires Books(s)
    ensures var t := Create(s);
            && s.nextId !in s.refs && s.nextId !in s.pending && s.nextId !in s.att && s.nextId !in s.waiting
            && Unref(t, s.nextId) == s.(nextId := s.nextId + 1)
  {
    assert s.refs[s.nextId := 1] - {s.nextId} == s.refs;
    assert s.pending + {s.nextId} - {s.nextId} == s.pending;
  }

  lemma LaterCalm(s: State)
    requires Calm(s)
    ensures Calm(s.(nextId := s.nextId + 1))
  {
  }

  lemma WaitsOn(s: State)
    requires Calm(s) && (s.inLong || s.session > 0)
    ensures Calm(WriteLong(s, true)) && WriteLong(s, false) == WriteLong(s, true)
  {
    CreateIs(s);
    var t := WriteLong(s, true);
    assert forall id :: id in t.waiting <==> id in s.waiting || id == s.nextId;
    assert Distinct(t.waiting);
    assert Books(t);
  }

  lemma BeginsLong(s: State)
    requires Calm(s) && s.session == 0 && s.running.None? && |s.fly| == 0
    ensures Calm(WriteLong(s, true))
  {
    CreateIs(s);
    var t := WriteLong(s, true);
    assert t.fly == [Op(Long(s.nextId), Prep, s.nextTag, true, true)];
    assert Works(t, t.fly[0]);
    assert Books(t);
  }

  lemma WriteLongStep(s: State, sent: bool)
    requires Calm(s)
    ensures Calm(WriteLong(s, sent)) <==> !(Hidden(s) && sent)
  {
    assert s.session >= 0;
    hide SessionMode, Books, Works;
    if s.inLong || s.session > 0 {
      WaitsOn(s);
    } else if !sent {
      CreateIs(s);
      LaterCalm(s);
    } else if !Hidden(s) {
      BeginsLong(s);
    }
  }

  lemma BeginsSession(s: State)
    requires Calm(s) && s.session == 0 && !s.inLong && s.running.None? && |s.fly| == 0
    ensures Calm(Prepare(s, 0, true))
  {
    CreateIs(s);
    var t := Prepare(s, 0, true);
    assert t.fly == [Op(Session(s.nextId), Prep, s.nextTag, true, false)];
    assert Books(t);
  }

  lemma GoesOnPreparing(s: State)
    requires Calm(s) && Open(s) && s.data.ForPrep?
    ensures Calm(Prepare(s, s.session, true))
  {
    var t := Prepare(s, s.session, true);
    assert t.fly == s.fly + [Op(Session(s.session), Prep, s.nextTag, true, false)];
    assert Preps(t, Session(s.session), s.nextTag);
    assert Books(t);
  }

  lemma PrepareOpen(s: State, sent: bool)
    requires Calm(s) && Open(s)
    ensures Calm(Prepare(s, s.session, sent)) <==> !(s.data.ForExec? || (!sent && |s.fly| > 0))
  {
    if s.data.ForPrep? && sent {
      GoesOnPreparing(s);
    } else if !sent {
      UnrefOpen(s, s.session);
    } else {
      assert |s.fly| > 0 ==> Prepare(s, s.session, sent).fly[0] == s.fly[0];
    }
  }

  lemma PrepareStep(s: State, id: int, sent: bool)
    requires Calm(s) && MayCall(s)
    ensures Calm(Prepare(s, id, sent)) <==> !Overlaps(s, DoPrepare(id, sent))
  {
    hide SessionMode, Works;
    if id == s.session {
      if id == 0 {
        CreateIs(s);
        LaterCalm(s);
        if !Hidden(s) && !s.inLong { BeginsSession(s); }
        if Hidden(s) && sent { HiddenPrepare(s); }
      } else if Open(s) {
        PrepareOpen(s, sent);
      }
    }
  }

  lemma HiddenPrepare(s: State)
    requires Calm(s) && Hidden(s)
    ensures !Calm(Prepare(s, 0, true))
  {
    var t := Prepare(s, 0, true);
    assert |s.fly| > 0 ==> t.fly[0] == s.fly[0];
    assert t.fly[|s.fly|].what.Prep?;
  }

  /** The open session's request is released. */
  lemma UnrefOpen(s: State, id: int)
    requires Books(s) && Single(s, id)
    ensures Unref(s, id) == s.(refs := s.refs - {id}, pending := s.pending - {id})
    ensures Books(s) && !Working(s, id) ==> Books(Unref(s, id))
  {
  }

  lemma ExecuteStep(s: State, id: int, sent: bool)
    requires Calm(s) && MayCall(s)
    ensures Calm(Execute(s, id, sent)) <==> !Overlaps(s, DoExecute(id, sent))
  {
    if id == s.session && Open(s) && sent {
      var t := Execute(s, id, sent);
      assert t.fly[|s.fly|].what == Commit;
    }
  }

  lemma CancelWaiting(s: State, id: int, sent: bool, out: bool)
    requires Calm(s) && id in s.waiting
    ensures Calm(Cancel(s, id, sent, out))
  {
    assert Waits(s, id);
    WithoutIs(s.waiting, id);
    var t := Cancel(s, id, sent, out);
    assert t == s.(pending := s.pending - {id}, waiting := Without(s.waiting, id));
    assert Distinct(t.waiting);
    assert Books(t);
  }

  /** A long write under way has one reference, and bt_att_cancel gives it back. */
  lemma CancelWorking(s: State, id: int, sent: bool, out: bool)
    requires Calm(s) && Working(s, id)
    ensures Cancel(s, id, sent, out).broken && id !in s.waiting
  {
    var t := s.(pending := s.pending - {id});
    assert s.running.None? ==> FirstIndex(t.fly, (op: Op) => op.tag == s.att[id]) == 0;
  }

  /** So has the request of a session that is being executed. */
  lemma CancelExecuting(s: State, sent: bool, out: bool)
    requires Calm(s) && Open(s) && s.data.ForExec?
    ensures Cancel(s, s.session, sent, out).broken
  {
    var id := s.session;
    var t := s.(pending := s.pending - {id});
    if |s.fly| > 0 {
      assert FirstIndex(t.fly, (op: Op) => op.tag == s.att[id]) == 0;
      assert s.fly[0].destroy && s.fly[0].owner.id == id;
    }
    assert id in s.att && id !in AttCancel(t, s.att[id], out).refs;
  }

  predicate PrepsOnly(fly: seq<Op>, o: Owner) {
    forall i :: 0 <= i < |fly| ==> fly[i].owner == o && fly[i].what.Prep? && !fly[i].destroy
  }

  lemma ShutUp(s: State, o: Owner, tag: nat, out: bool)
    requires PrepsOnly(s.fly, o) && RunsPrep(s, o)
    ensures var t := AttCancel(s, tag, out);
            t == s.(fly := t.fly, running := t.running) && PrepsOnly(t.fly, o) && RunsPrep(t, o)
  {
  }

  lemma QuitsPush(fly: seq<Op>, o: Owner, tag: nat)
    requires PrepsOnly(fly, o)
    ensures Quits(fly, o) && Quits(fly + [Op(o, Quit, tag, true, true)], o)
  {
  }

  lemma CancelOpen(s: State, sent: bool, out: bool)
    requires Calm(s) && Open(s) && s.data.ForPrep?
    ensures Calm(Cancel(s, s.session, sent, out))
  {
    hide AttCancel, Quits, Distinct;
    var id, o := s.session, Session(s.session);
    var t := s.(pending := s.pending - {id});
    assert PrepsOnly(t.fly, o);
    ShutUp(t, o, s.att[id], out);
    var u := AttCancel(t, s.att[id], out);
    QuitsPush(u.fly, o, u.nextTag);
  }

  lemma CancelStep(s: State, id: int, sent: bool, out: bool)
    requires Calm(s) && MayCall(s)
    ensures Calm(Cancel(s, id, sent, out)) <==> !Overlaps(s, DoCancel(id, sent, out))
  {
    assert id in s.pending ==> id in s.waiting || id == s.session || Working(s, id);
    assert Working(s, id) ==> id in s.pending;
    assert id in s.waiting ==> id != s.session && !Working(s, id);
    assert Cancel(s, id, sent, out).broken ==> !Calm(Cancel(s, id, sent, out));
    assert id == s.session && id in s.pending ==> Open(s);
    hide Calm, Working, Cancel;
    if id in s.waiting {
      CancelWaiting(s, id, sent, out);
    } else if Working(s, id) {
      CancelWorking(s, id, sent, out);
    } else if id == s.session && Open(s) {
      if s.data.ForExec? { CancelExecuting(s, sent, out); } else { CancelOpen(s, sent, out); }
    } else {
      CancelNobody(s, id, sent, out);
    }
  }

  lemma CancelNobody(s: State, id: int, sent: bool, out: bool)
    requires id !in s.pending
    ensures Cancel(s, id, sent, out) == s
  {
  }

  // ---- answers

  lemma ServedIs(s: State, op: Op, kept: bool)
    requires PiecesOf(s.prepared, op.owner)
    ensures var t := Served(s, op, kept);
            && t == s.(prepared := t.prepared, log := t.log)
            && PiecesOf(t.prepared, op.owner) && (!op.what.Prep? ==> |t.prepared| == 0)
  {
  }

  lemma AnswerLong(s: State, kept: bool)
    requires Calm(s) && s.session == 0 && s.running.None? && |s.fly| > 0
    ensures Calm(Answered(s, kept))
  {
    hide Served;
    var op := s.fly[0];
    ServedIs(s.(fly := s.fly[1..]), op, kept);
    var t := Answered(s, kept);
    assert t.running == Some(op) && t.fly == [];
    assert Books(t);
  }

  lemma AnswerCommit(s: State, kept: bool)
    requires Calm(s) && Open(s) && s.data.ForExec? && s.running.None?
    ensures Calm(Answered(s, kept))
  {
    hide Served;
    var op := s.fly[0];
    ServedIs(s.(fly := s.fly[1..]), op, kept);
    var t := Answered(s, kept);
    assert t.running == Some(op) && t.fly == [];
    assert Books(t);
  }

  lemma AnswerPrep(s: State, kept: bool)
    requires Calm(s) && Open(s) && s.data.ForPrep? && s.running.None? && |s.fly| > 0
    ensures Calm(Answered(s, kept))
  {
    hide Served;
    var op := s.fly[0];
    ServedIs(s.(fly := s.fly[1..]), op, kept);
    var t := Answered(s, kept);
    assert t.fly == s.fly[1..];
    assert Preps(t, Session(s.session), s.data.tag);
    assert Books(t);
  }

  lemma AnswerCancelled(s: State, kept: bool)
    requires Calm(s) && s.session > 0 && !Open(s) && s.running.None? && |s.fly| > 0
    ensures Calm(Answered(s, kept))
  {
    hide Served;
    var op := s.fly[0];
    ServedIs(s.(fly := s.fly[1..]), op, kept);
    var t := Answered(s, kept);
    assert t.fly == s.fly[1..];
    assert Quits(t.fly, Session(s.session));
    assert Books(t);
  }

  lemma AnswerStep(s: State, kept: bool)
    requires Calm(s)
    ensures Calm(Answered(s, kept))
  {
    assert 0 <= s.session;
    hide SessionMode, LongMode, Books;
    if s.running.None? && |s.fly| > 0 {
      if s.session == 0 {
        AnswerLong(s, kept);
      } else if !Open(s) {
        AnswerCancelled(s, kept);
      } else if s.data.ForExec? {
        AnswerCommit(s, kept);
      } else {
        AnswerPrep(s, kept);
      }
    }
  }

  // ---- the ends of callbacks

  /** Nothing is under way any more but the request that is about to be released. */
  predicate Ending(s: State, id: int) {
    && !s.broken && s.session == 0 && 0 < s.nextId && 0 < s.nextTag
    && s.running.None? && |s.fly| == 0 && |s.prepared| == 0 && Single(s, id)
    && Distinct(s.waiting) && (forall x :: x in s.waiting ==> Waits(s, x))
    && (forall x :: x in s.refs ==> 0 < x < s.nextId)
    && (forall x :: x in s.att ==> 0 < x < s.nextId)
    && (forall x :: x in s.pending ==> x in s.refs && (x in s.waiting || x == id))
  }

  lemma EndsIdle(s: State, id: int)
    requires Ending(s, id) && !s.inLong
    ensures Calm(Unref(s, id))
  {
  }

  lemma HeadOut(q: seq<int>)
    requires Distinct(q) && |q| > 0
    ensures Distinct(q[1..]) && q[0] !in q[1..] && forall x :: x in q <==> x == q[0] || x in q[1..]
  {
  }

  lemma {:induction false} DrainEnds(s: State, id: int)
    requires Ending(s, id)
    ensures Ending(Drain(s), id) && !Drain(s).inLong
    decreases |s.waiting|
  {
    if |s.waiting| > 0 {
      HeadOut(s.waiting);
      hide Distinct;
      var w := s.waiting[0];
      assert Waits(s, w);
      DrainEnds(Unref(s.(waiting := s.waiting[1..], log := s.log + [Called(w)]), w), id);
    }
  }

  /** The reference of the queue becomes that of the operation. */
  lemma StartNextIs(s: State, next: What)
    requires |s.waiting| > 0 && Waits(s, s.waiting[0])
    ensures var w := s.waiting[0];
            var op := Op(Long(w), if next.Abort? then Abort else Prep, s.nextTag, true, true);
            StartNext(s, next, true)
            == s.(waiting := s.waiting[1..], fly := s.fly + [op], att := s.att[w := s.nextTag], nextTag := s.nextTag
                  + 1)
  {
    assert s.refs[s.waiting[0] := 2][s.waiting[0] := 1] == s.refs;
  }

  lemma BeginsNext(s: State, id: int, next: What)
    requires Ending(s, id) && |s.waiting| > 0
    ensures Calm(Unref(StartNext(s, next, true), id))
  {
    HeadOut(s.waiting);
    var w := s.waiting[0];
    assert Waits(s, w);
    StartNextIs(s, next);
    hide Distinct, StartNext;
    var op := Op(Long(w), if next.Abort? then Abort else Prep, s.nextTag, true, true);
    assert s.fly + [op] == [op];
    var u := Unref(StartNext(s, next, true), id);
    assert Works(u, op);
    assert Books(u);
  }

  lemma StartNextEnds(s: State, id: int, next: What, sent: bool)
    requires Ending(s, id)
    ensures Calm(Unref(StartNext(s, next, sent), id))
  {
    hide Ending, Calm, Unref;
    if |s.waiting| == 0 {
      EndsIdle(s.(inLong := false), id) by { IdleEnding(s, id); }
    } else if sent {
      BeginsNext(s, id, next);
    } else {
      DrainEnds(s, id);
      EndsIdle(Drain(s), id);
    }
  }

  lemma IdleEnding(s: State, id: int)
    requires Ending(s, id)
    ensures Ending(s.(inLong := false), id)
  {
  }

  lemma ReturnLong(s: State, next: What, sent: bool)
    requires Calm(s) && s.session == 0 && s.running.Some?
    ensures Calm(Returned(s, next, sent))
  {
    var op := s.running.value;
    var id := op.owner.id;
    var t := s.(running := None);
    if op.what.Prep? && sent {
      var u := Returned(s, next, sent);
      assert s.refs[id := 2][id := 1] == s.refs;
      assert u.fly == [Op(Long(id), if next.Quit? then Abort else next, s.nextTag, true, true)];
      assert Works(u, u.fly[0]);
      assert Books(u);
    } else if op.what.Prep? {
      var u := t.(prepared := [], log := s.log + [Called(id)]);
      assert Ending(u, id);
      StartNextEnds(u, id, next, false);
    } else {
      assert Ending(t, id);
      StartNextEnds(t, id, next, sent);
    }
  }

  /** When the callback of an Execute Write of the session ends, nothing else is under way. */
  lemma SessionEnding(s: State)
    requires Calm(s) && s.session > 0 && s.running.Some? && !s.running.value.what.Prep?
    ensures var op := s.running.value;
            && op.owner == Session(s.session) && op.destroy && (op.what.Commit? || op.what.Quit?)
            && !s.inLong && Ending(s.(running := None, session := 0), s.session)
  {
  }

  lemma ReturnPrep(s: State, next: What, sent: bool)
    requires Calm(s) && s.session > 0 && s.running.Some? && s.running.value.what.Prep?
    ensures Returned(s, next, sent) == s.(running := None) && Calm(s.(running := None))
  {
  }

  lemma ReturnSession(s: State, next: What, sent: bool)
    requires Calm(s) && s.session > 0 && s.running.Some?
    ensures Calm(Returned(s, next, sent))
  {
    hide Calm, Ending, StartNext, Unref;
    var t := s.(running := None, session := 0);
    if s.running.value.what.Prep? {
      ReturnPrep(s, next, sent);
    } else {
      SessionEnding(s);
      if s.running.value.what.Commit? {
        StartNextEnds(t, s.session, next, sent);
      } else {
        EndsIdle(t, s.session);
      }
    }
  }

  lemma ReturnStep(s: State, next: What, sent: bool)
    requires Calm(s)
    ensures Calm(Returned(s, next, sent))
  {
    assert 0 <= s.session;
    hide Calm, Leave, Release;
    if s.running.Some? {
      if s.session == 0 { ReturnLong(s, next, sent); } else { ReturnSession(s, next, sent); }
    }
  }

  /** From a state with one procedure at a time, a step leads out of these states if and only
      if a call is let through too early: one made while a long write that had waited for a
      session is under way, one that replaces or releases the request of a session although an
      answer is to come for it, or the cancel of a request that only its operation holds. */
  lemma StepCalm(s: State, i: Input)
    requires Calm(s)
    ensures Calm(Step(s, i)) <==> !Overlaps(s, i)
  {
    assert !s.broken;
    hide Calm, Hidden, Working, Open;
    if !i.Answer? && !i.Return? && !MayCall(s) {
      return;
    }
    hide MayCall;
    match i
    case DoWriteLong(sent) => WriteLongStep(s, sent);
    case DoPrepare(id, sent) => PrepareStep(s, id, sent);
    case DoExecute(id, sent) => ExecuteStep(s, id, sent);
    case DoCancel(id, sent, out) => CancelStep(s, id, sent, out);
    case Answer(kept) => AnswerStep(s, kept);
    case Return(next, sent) => ReturnStep(s, next, sent);
  }
}
