/** Every step of the bearer keeps the books of AttLaws, and so does every run. */
module AttLedger {
  import opened Wrappers
  import opened Pdus
  import opened Att
  import opened AttLaws
  import opened AttShape

  /** The books about id are right, where `held` is an operation taken off the bearer. */
  ghost predicate Owes(s: Bearer, held: Stock, id: int) {
    Booked(s.log, s.nextId, Plus(held, StockOf(s, id)), id)
  }

  ghost predicate Balanced(s: Bearer, id: int) { Booked(s.log, s.nextId, StockOf(s, id), id) }

  lemma Regroup(log: seq<Event>, n: int, a: Stock, b: Stock, id: int)
    requires Booked(log, n, a, id) && Same(a, b)
    ensures Booked(log, n, b, id)
  {
  }

  lemma SendBooked(s: Bearer, a: SendArgs, held: Stock, id: int)
    requires Owes(s, held, id)
    ensures Owes(SendOp(s, a), held, id)
  {
    hide BooksOf, Sum, Laws, Encodes, Overruns, Booked, Weigh, Slot, Queued, Enqueue, KindOf;
    var op := OpFor(s, a);
    NotBoth(s.mtu, a);
    if s.io && Encodes(s.mtu, a) {
      EnqueueWeighs(s.q, op, id);
      AcceptBooked(s.log, s.nextId, op, Plus(held, StockOf(s, id)), id);
      WithIs(Plus(held, StockOf(s, id)), op, id);
      Regroup(s.log + [Accepted(op)], op.id + 1, Plus(Plus(held, StockOf(s, id)), Weigh(op, id)),
              Plus(held, StockOf(SendOp(s, a), id)), id);
    }
  }

  lemma {:induction false} SendAllBooked(s: Bearer, sends: seq<SendArgs>, held: Stock, id: int)
    requires Owes(s, held, id)
    ensures Owes(SendAll(s, sends), held, id)
    decreases |sends|
  {
    hide Owes, SendOp;
    if |sends| > 0 {
      SendBooked(s, sends[0], held, id);
      SendAllBooked(SendOp(s, sends[0]), sends[1..], held, id);
    }
  }

  // ---- calling and freeing

  function Uncalled(op: Op): Op { op.(callback := false) }

  /** rest is all that is held besides op. */
  lemma CallOwes(s: Bearer, op: Op, rsp: int, body: seq<int>, sends: seq<SendArgs>, before: Stock, after: Stock,
                 rest: Stock, id: int)
    requires Owes(s, before, id) && Sane(rest)
    requires Same(Plus(before, StockOf(s, id)), Plus(rest, Weigh(op, id)))
    requires Same(Plus(after, StockOf(s, id)), Plus(rest, Weigh(Uncalled(op), id)))
    ensures Owes(Call(s, op, rsp, body, sends), after, id)
  {
    hide BooksOf, Sum, Laws, Booked, Weigh, Slot, Queued, SendAll;
    if op.callback {
      var s1 := Log(s, Called(op.id, op.opcode, rsp, body));
      Regroup(s.log, s.nextId, Plus(before, StockOf(s, id)), Plus(rest, Weigh(op, id)), id);
      WithIs(rest, op, id);
      WithIs(rest, Uncalled(op), id);
      CallBooked(s.log, s.nextId, op, rsp, body, rest, id);
      Regroup(s1.log, s.nextId, Plus(rest, Weigh(Uncalled(op), id)), Plus(after, StockOf(s1, id)), id);
      SendAllBooked(s1, sends, after, id);
    } else {
      assert Uncalled(op) == op;
      Regroup(s.log, s.nextId, Plus(before, StockOf(s, id)), Plus(after, StockOf(s, id)), id);
    }
  }

  lemma FreeOwes(s: Bearer, op: Op, before: Stock, after: Stock, id: int)
    requires Owes(s, before, id) && Sane(Plus(after, StockOf(s, id))) && !op.callback
    requires Same(before, Plus(after, Weigh(op, id)))
    ensures Owes(Freeing(s, op), after, id)
  {
    hide BooksOf, Sum, Laws, Booked, Weigh, Slot, Queued, Free;
    var rest := Plus(after, StockOf(s, id));
    Regroup(s.log, s.nextId, Plus(before, StockOf(s, id)), Plus(rest, Weigh(op, id)), id);
    WithIs(rest, op, id);
    FreeBooked(s.log, s.nextId, op, rest, id);
  }

  lemma SaneWeight(op: Op, id: int)
    ensures Sane(Weigh(op, id)) && Weigh(Uncalled(op), id).ids == Weigh(op, id).ids
    ensures Weigh(Uncalled(op), id).owed == Weigh(op, id).owed && Weigh(Uncalled(op), id).due == 0
  {
  }

  lemma SaneStock(s: Bearer, id: int)
    ensures Sane(Pending(s, id)) && Sane(Queued(s.q, id))
  {
  }

  /** The callback of op runs and sends, then op is freed. */
  lemma CallAndFree(s: Bearer, op: Op, rsp: int, body: seq<int>, sends: seq<SendArgs>, before: Stock, after: Stock,
                    id: int)
    requires Owes(s, before, id) && Same(before, Plus(after, Weigh(op, id))) && Sane(Plus(after, Pending(s, id)))
    ensures Owes(Freeing(Call(s, op, rsp, body, sends), op), after, id)
  {
    hide Owes, Weigh, Slot, Queued, Call, Freeing, Pending;
    var middle := Plus(after, Weigh(Uncalled(op), id));
    var rest := Plus(after, StockOf(s, id));
    SaneWeight(op, id);
    SaneStock(s, id);
    CallOwes(s, op, rsp, body, sends, before, middle, rest, id);
    var s1 := Call(s, op, rsp, body, sends);
    CallFrame(s, op, rsp, body, sends);
    PendingFrame(s, s1, id);
    SaneStock(s1, id);
    FreeOwes(s1, Uncalled(op), middle, after, id);
    SameFree(s1, op);
  }

  lemma PendingFrame(s: Bearer, r: Bearer, id: int)
    requires r.pendingReq == s.pendingReq && r.pendingInd == s.pendingInd
    ensures Pending(r, id) == Pending(s, id)
  {
  }

  lemma SameFree(s: Bearer, op: Op)
    ensures Freeing(s, Uncalled(op)) == Freeing(s, op)
  {
  }

  // ---- the transitions

  /** What is held changes by exactly what is taken off or put on the bearer. */
  lemma Transfer(s: Bearer, r: Bearer, before: Stock, after: Stock, id: int)
    requires Owes(s, before, id) && r.log == s.log && r.nextId == s.nextId
    requires Same(Plus(before, StockOf(s, id)), Plus(after, StockOf(r, id)))
    ensures Owes(r, after, id)
  {
    hide BooksOf, Sum, Laws, Weigh, Slot, Queued, Pending;
  }

  lemma NoteOwes(s: Bearer, e: Event, held: Stock, id: int)
    requires Owes(s, held, id) && (e.Wire? || e.Received? || e.Notified? || e.LinkLost? || e.Shutdown?)
    ensures Owes(Log(s, e), held, id)
  {
    hide BooksOf, Sum, Laws, Booked, Weigh, Slot;
    NoteBooked(s.log, s.nextId, e, Plus(held, StockOf(s, id)), id);
  }

  lemma BalancedOwes(s: Bearer, id: int)
    ensures Balanced(s, id) <==> Owes(s, Nothing(), id)
  {
    hide BooksOf, Sum, Laws, Weigh, Slot, Queued, Pending;
  }

  lemma ShutDownOwes(s: Bearer, held: Stock, id: int)
    requires Owes(s, held, id)
    ensures Owes(ShutDown(s), held, id)
  {
    hide Owes;
    hide BooksOf, Sum, Laws, Weigh, Slot, Queued;
    assert Owes(s.(shut := true), held, id) by { Transfer(s, s.(shut := true), held, held, id); }
    NoteOwes(s.(shut := true), Shutdown, held, id);
  }

  lemma WakeupOwes(s: Bearer, held: Stock, id: int)
    requires Owes(s, held, id)
    ensures Owes(Wakeup(s), held, id)
  {
    hide Owes;
    hide BooksOf, Sum, Laws, Weigh, Slot, Queued;
    Transfer(s, Wakeup(s), held, held, id);
  }

  function Minus(a: Stock): Stock { Stock(-a.ids, -a.owed, -a.due) }

  lemma PlusMoves(a: Stock, b: Stock, c: Stock)
    ensures Same(Plus(Plus(a, b), c), Plus(Plus(Plus(Nothing(), b), c), a))
    ensures Same(Plus(Plus(a, b), c), Plus(Plus(Plus(a, Nothing()), c), b))
  {
  }

  /** A slot is emptied, and what was in it is held. */
  lemma EmptyReqStock(s: Bearer, id: int)
    requires s.pendingReq.Some?
    ensures Same(StockOf(s, id), Plus(StockOf(s.(pendingReq := None), id), Weigh(s.pendingReq.value, id)))
  {
    hide Weigh, Queued, Plus;
    var r := s.(pendingReq := None);
    assert Queued(r.q, id) == Queued(s.q, id) && Slot(r.pendingInd, id) == Slot(s.pendingInd, id);
    PlusMoves(Slot(s.pendingReq, id), Slot(s.pendingInd, id), Queued(s.q, id));
  }

  lemma EmptyReqOwes(s: Bearer, before: Stock, after: Stock, id: int)
    requires s.pendingReq.Some? && Owes(s, before, id)
    requires Same(after, Plus(before, Weigh(s.pendingReq.value, id)))
    ensures Owes(s.(pendingReq := None), after, id)
  {
    hide Owes, Weigh, StockOf;
    EmptyReqStock(s, id);
    Transfer(s, s.(pendingReq := None), before, after, id);
  }

  lemma EmptyIndStock(s: Bearer, id: int)
    requires s.pendingInd.Some?
    ensures Same(StockOf(s, id), Plus(StockOf(s.(pendingInd := None), id), Weigh(s.pendingInd.value, id)))
  {
    hide Weigh, Queued, Plus;
    var r := s.(pendingInd := None);
    assert Queued(r.q, id) == Queued(s.q, id) && Slot(r.pendingReq, id) == Slot(s.pendingReq, id);
    PlusMoves(Slot(s.pendingReq, id), Slot(s.pendingInd, id), Queued(s.q, id));
  }

  lemma EmptyIndOwes(s: Bearer, before: Stock, after: Stock, id: int)
    requires s.pendingInd.Some? && Owes(s, before, id)
    requires Same(after, Plus(before, Weigh(s.pendingInd.value, id)))
    ensures Owes(s.(pendingInd := None), after, id)
  {
    hide Owes, Weigh, StockOf;
    EmptyIndStock(s, id);
    Transfer(s, s.(pendingInd := None), before, after, id);
  }

  lemma FreeingFrame(s: Bearer, op: Op)
    ensures var r := Freeing(s, op);
            r.pendingReq == s.pendingReq && r.pendingInd == s.pendingInd && r.q == s.q && r.nextId == s.nextId
  {
  }

  lemma ReqAnswered(s: Bearer, rsp: int, body: seq<int>, sends: seq<SendArgs>, id: int)
    requires Owes(s, Nothing(), id) && s.pendingReq.Some?
    ensures var op := s.pendingReq.value;
            Owes(Wakeup(Freeing(Call(s, op, rsp, body, sends), op).(pendingReq := None)), Nothing(), id)
  {
    hide Owes, Weigh, Queued, Call, Freeing, Wakeup;
    var op := s.pendingReq.value;
    var s1 := Call(s, op, rsp, body, sends);
    SaneWeight(op, id);
    SaneSlots(s, id);
    CallAndFree(s, op, rsp, body, sends, Nothing(), Minus(Weigh(op, id)), id);
    CallFrame(s, op, rsp, body, sends);
    FreeingFrame(s1, op);
    EmptyReqOwes(Freeing(s1, op), Minus(Weigh(op, id)), Nothing(), id);
    WakeupOwes(Freeing(s1, op).(pendingReq := None), Nothing(), id);
  }

  lemma SaneSlots(s: Bearer, id: int)
    ensures Sane(Slot(s.pendingReq, id)) && Sane(Slot(s.pendingInd, id))
  {
  }

  lemma IndAnswered(s: Bearer, rsp: int, body: seq<int>, sends: seq<SendArgs>, id: int)
    requires Owes(s, Nothing(), id) && s.pendingInd.Some?
    ensures var op := s.pendingInd.value;
            Owes(Wakeup(Freeing(Call(s, op, rsp, body, sends), op).(pendingInd := None)), Nothing(), id)
  {
    hide Owes, Weigh, Queued, Call, Freeing, Wakeup;
    var op := s.pendingInd.value;
    var s1 := Call(s, op, rsp, body, sends);
    SaneWeight(op, id);
    SaneSlots(s, id);
    CallAndFree(s, op, rsp, body, sends, Nothing(), Minus(Weigh(op, id)), id);
    CallFrame(s, op, rsp, body, sends);
    FreeingFrame(s1, op);
    EmptyIndOwes(Freeing(s1, op), Minus(Weigh(op, id)), Nothing(), id);
    WakeupOwes(Freeing(s1, op).(pendingInd := None), Nothing(), id);
  }

  lemma HandleRspOwes(s: Bearer, opcode: int, pdu: seq<int>, sends: seq<SendArgs>, id: int)
    requires Owes(s, Nothing(), id)
    ensures Owes(HandleRsp(s, opcode, pdu, sends), Nothing(), id)
  {
    hide Owes, Matches, Call, Freeing, Wakeup, ShutDown;
    if s.pendingReq.None? {
      ShutDownOwes(s, Nothing(), id);
    } else if Matches(s.pendingReq.value, opcode, pdu) {
      ReqAnswered(s, opcode, pdu, sends, id);
    } else {
      ReqAnswered(s, ERROR_RSP, [], sends, id);
    }
  }

  lemma HandleConfOwes(s: Bearer, pdu: seq<int>, sends: seq<SendArgs>, id: int)
    requires Owes(s, Nothing(), id)
    ensures Owes(HandleConf(s, pdu, sends), Nothing(), id)
  {
    hide Owes, Call, Freeing, Wakeup, ShutDown;
    if s.pendingInd.None? || |pdu| > 0 {
      ShutDownOwes(s, Nothing(), id);
    } else {
      IndAnswered(s, HANDLE_VAL_CONF, [], sends, id);
    }
  }

  lemma NotifyOneOwes(s: Bearer, h: Handler, opcode: int, pdu: seq<int>, sends: seq<SendArgs>, id: int)
    requires Owes(s, Nothing(), id)
    ensures Owes(NotifyOne(s, h, opcode, pdu, sends), Nothing(), id)
  {
    hide Owes, HandlerMatches, SendAll;
    NoteOwes(s, Notified(h.id, opcode, pdu), Nothing(), id);
    SendAllBooked(Log(s, Notified(h.id, opcode, pdu)), sends, Nothing(), id);
  }

  lemma {:induction false} NotifyFromOwes(s: Bearer, hs: seq<Handler>, i: nat, opcode: int, pdu: seq<int>,
                                          sends: seq<seq<SendArgs>>, id: int)
    requires Owes(s, Nothing(), id)
    ensures Owes(NotifyFrom(s, hs, i, opcode, pdu, sends), Nothing(), id)
    decreases |hs| - i
  {
    hide Owes, NotifyOne;
    if i < |hs| {
      NotifyOneOwes(s, hs[i], opcode, pdu, SentBy(sends, i), id);
      NotifyFromOwes(NotifyOne(s, hs[i], opcode, pdu, SentBy(sends, i)), hs, i + 1, opcode, pdu, sends, id);
    }
  }

  lemma NotifyOwes(s: Bearer, opcode: int, pdu: seq<int>, sends: seq<seq<SendArgs>>, id: int)
    requires Owes(s, Nothing(), id)
    ensures Owes(Notify(s, opcode, pdu, sends), Nothing(), id)
  {
    hide Owes, Handled, KindOf, NotifyFrom, SendOp;
    NotifyFromOwes(s, s.handlers, 0, opcode, pdu, sends, id);
    SendBooked(NotifyFrom(s, s.handlers, 0, opcode, pdu, sends),
               SendArgs(ERROR_RSP, [opcode, 0, 0, REQUEST_NOT_SUPPORTED], false, false), Nothing(), id);
  }

  lemma ReceiveOwes(s: Bearer, opcode: int, pdu: seq<int>, sends: seq<seq<SendArgs>>, id: int)
    requires Owes(s, Nothing(), id)
    ensures Owes(Receive(s, opcode, pdu, sends), Nothing(), id)
  {
    hide Owes, KindOf, HandleRsp, HandleConf, Notify, ShutDown;
    var s1 := Log(s, Received(opcode, pdu));
    NoteOwes(s, Received(opcode, pdu), Nothing(), id);
    HandleRspOwes(s1, opcode, pdu, SentBy(sends, 0), id);
    HandleConfOwes(s1, pdu, SentBy(sends, 0), id);
    NotifyOwes(s1, opcode, pdu, sends, id);
    ShutDownOwes(s1, Nothing(), id);
    FlagsOwes(ShutDown(s1), ShutDown(s1).(reading := false), id);
    FlagsOwes(s1, s1.(inReq := true), id);
    NotifyOwes(s1.(inReq := true), opcode, pdu, sends, id);
  }

  /** Flags carry no operations. */
  lemma FlagsOwes(s: Bearer, r: Bearer, id: int)
    requires Owes(s, Nothing(), id)
    requires r.log == s.log && r.nextId == s.nextId && r.q == s.q && r.pendingReq == s.pendingReq
             && r.pendingInd == s.pendingInd
    ensures Owes(r, Nothing(), id)
  {
    hide Owes;
    hide BooksOf, Sum, Laws, Weigh, Queued;
    Transfer(s, r, Nothing(), Nothing(), id);
  }

  lemma PickStock(s: Bearer, id: int)
    requires CanPick(s)
    ensures var (op, q) := Pick(s);
            Same(StockOf(s, id), Plus(Weigh(op, id), StockOf(s.(q := q), id)))
  {
    hide Weigh, Queued, Pick, Slot;
    PickWeighs(s, id);
  }

  lemma FillReqStock(s: Bearer, op: Op, id: int)
    requires s.pendingReq.None?
    ensures Same(StockOf(s.(pendingReq := Some(op)), id), Plus(Weigh(op, id), StockOf(s, id)))
  {
    hide StockOf, Weigh;
    var r := s.(pendingReq := Some(op));
    EmptyReqStock(r, id);
    assert r.(pendingReq := None) == s;
  }

  lemma FillIndStock(s: Bearer, op: Op, id: int)
    requires s.pendingInd.None?
    ensures Same(StockOf(s.(pendingInd := Some(op)), id), Plus(Weigh(op, id), StockOf(s, id)))
  {
    hide StockOf, Weigh;
    var r := s.(pendingInd := Some(op));
    EmptyIndStock(r, id);
    assert r.(pendingInd := None) == s;
  }

  /** op, already on the wire, goes where its kind belongs. */
  function Place(s: Bearer, op: Op): Bearer {
    if op.kind == Req then s.(pendingReq := Some(op))
    else if op.kind == Ind then s.(pendingInd := Some(op))
    else Freeing(s, op)
  }

  lemma PlaceOwes(s: Bearer, op: Op, id: int)
    requires Owes(s, Weigh(op, id), id)
    requires op.kind == Req ==> s.pendingReq.None?
    requires op.kind == Ind ==> s.pendingInd.None?
    requires op.kind != Req && op.kind != Ind ==> !op.callback
    ensures Owes(Place(s, op), Nothing(), id)
  {
    hide Owes, Weigh, StockOf, Freeing;
    if op.kind == Req {
      FillReqStock(s, op, id);
      Transfer(s, Place(s, op), Weigh(op, id), Nothing(), id);
    } else if op.kind == Ind {
      FillIndStock(s, op, id);
      Transfer(s, Place(s, op), Weigh(op, id), Nothing(), id);
    } else {
      SaneStockOf(s, id);
      FreeOwes(s, op, Weigh(op, id), Nothing(), id);
    }
  }

  lemma SaneStockOf(s: Bearer, id: int)
    ensures Sane(StockOf(s, id))
  {
    hide Pending, Queued;
    SaneStock(s, id);
  }

  lemma WrittenIsPlaced(s: Bearer, sends: seq<SendArgs>)
    requires s.writer && s.io && CanPick(s) && !s.shut
    ensures var (op, q) := Pick(s);
            WriteReady(s, true, sends) == Place(Log(s.(q := q), Wire(op)), op).(inReq := s.inReq && op.kind != Rsp)
  {
    hide Pick, Free, CanPick;
  }

  lemma WriteReadyOwes(s: Bearer, ok: bool, sends: seq<SendArgs>, id: int)
    requires Shape(s) && Owes(s, Nothing(), id)
    ensures Owes(WriteReady(s, ok, sends), Nothing(), id)
  {
    hide Owes, Weigh, StockOf, Pick, Place, Call, Freeing, Fits, Slot;
    if s.writer && s.io {
      if !CanPick(s) {
        FlagsOwes(s, s.(writer := false), id);
      } else {
        var (op, q) := Pick(s);
        var s1 := s.(q := q);
        PickFits(s);
        PickStock(s, id);
        Transfer(s, s1, Nothing(), Weigh(op, id), id);
        if !ok || s.shut {
          SaneSlots(s1, id);
          CallAndFree(s1, op, ERROR_RSP, [], sends, Weigh(op, id), Nothing(), id);
        } else {
          NoteOwes(s1, Wire(op), Weigh(op, id), id);
          PlaceOwes(Log(s1, Wire(op)), op, id);
          WrittenIsPlaced(s, sends);
          var placed := Place(Log(s1, Wire(op)), op);
          FlagsOwes(placed, placed.(inReq := s.inReq && op.kind != Rsp), id);
        }
      }
    }
  }

  /** The timeout gives up the callback. */
  lemma GivenUpOwes(s: Bearer, op: Op, id: int)
    requires Owes(s, Weigh(op, id), id)
    ensures Owes(Log(s, TimedOut(op.id)), Weigh(Uncalled(op), id), id)
  {
    hide BooksOf, Sum, Laws, Booked, Weigh, Slot, Queued, Pending;
    var rest := StockOf(s, id);
    SaneStockOf(s, id);
    Regroup(s.log, s.nextId, Plus(Weigh(op, id), rest), Plus(rest, Weigh(op, id)), id);
    WithIs(rest, op, id);
    WithIs(rest, Uncalled(op), id);
    TimedOutBooked(s.log, s.nextId, op, rest, id);
    var s1 := Log(s, TimedOut(op.id));
    PendingFrame(s, s1, id);
    Regroup(s1.log, s.nextId, Plus(rest, Weigh(Uncalled(op), id)), Plus(Weigh(Uncalled(op), id), StockOf(s1, id)), id);
  }

  lemma ExpireOwes(s: Bearer, op: Op, sends: seq<SendArgs>, id: int)
    requires Owes(s, Weigh(op, id), id)
    ensures Owes(Expire(s, op, sends), Nothing(), id)
  {
    hide Owes, Weigh, StockOf, SendAll, Freeing, ShutDown;
    GivenUpOwes(s, op, id);
    SendAllBooked(Log(s, TimedOut(op.id)), sends, Weigh(Uncalled(op), id), id);
    var s1 := SendAll(Log(s, TimedOut(op.id)), sends);
    SaneStockOf(s1, id);
    FreeOwes(s1, Uncalled(op), Weigh(Uncalled(op), id), Nothing(), id);
    SameFree(s1, op);
    ShutDownOwes(Freeing(s1, op), Nothing(), id);
  }

  lemma TimeoutOwes(s: Bearer, target: int, sends: seq<SendArgs>, id: int)
    requires Owes(s, Nothing(), id)
    ensures Owes(Timeout(s, target, sends), Nothing(), id)
  {
    hide Owes, Weigh, StockOf, Expire;
    if s.pendingReq.Some? && s.pendingReq.value.id == target {
      EmptyReqOwes(s, Nothing(), Weigh(s.pendingReq.value, id), id);
      ExpireOwes(s.(pendingReq := None), s.pendingReq.value, sends, id);
    } else if s.pendingInd.Some? && s.pendingInd.value.id == target {
      EmptyIndOwes(s, Nothing(), Weigh(s.pendingInd.value, id), id);
      ExpireOwes(s.(pendingInd := None), s.pendingInd.value, sends, id);
    }
  }

  // ---- cancellation

  /** The operation in the request slot loses its handlers. */
  lemma CancelReqOwes(s: Bearer, id: int)
    requires s.pendingReq.Some? && Owes(s, Nothing(), id)
    ensures Owes(s.(log := CancelPending(s.log, s.pendingReq.value),
                    pendingReq := Some(Detached(s.pendingReq.value))), Nothing(), id)
  {
    hide Weigh, CancelPending, StockOf, Booked;
    var op := s.pendingReq.value;
    var bare := s.(pendingReq := None);
    EmptyReqStock(s, id);
    SaneStockOf(bare, id);
    Regroup(s.log, s.nextId, Plus(Nothing(), StockOf(s, id)), Plus(StockOf(bare, id), Weigh(op, id)), id);
    WithIs(StockOf(bare, id), op, id);
    WithIs(StockOf(bare, id), Detached(op), id);
    CancelPendingBooked(s.log, s.nextId, op, StockOf(bare, id), id);
    var r := s.(log := CancelPending(s.log, op), pendingReq := Some(Detached(op)));
    FillReqStock(bare.(log := r.log), Detached(op), id);
    LogStock(bare, r.log, id);
    assert bare.(log := r.log).(pendingReq := Some(Detached(op))) == r;
    Regroup(r.log, s.nextId, Plus(StockOf(bare, id), Weigh(Detached(op), id)), Plus(Nothing(), StockOf(r, id)), id);
  }

  lemma LogStock(s: Bearer, log: seq<Event>, id: int)
    ensures StockOf(s.(log := log), id) == StockOf(s, id)
  {
  }

  lemma CancelIndOwes(s: Bearer, id: int)
    requires s.pendingInd.Some? && Owes(s, Nothing(), id)
    ensures Owes(s.(log := CancelPending(s.log, s.pendingInd.value),
                    pendingInd := Some(Detached(s.pendingInd.value))), Nothing(), id)
  {
    hide Weigh, CancelPending, StockOf, Booked;
    var op := s.pendingInd.value;
    var bare := s.(pendingInd := None);
    EmptyIndStock(s, id);
    SaneStockOf(bare, id);
    Regroup(s.log, s.nextId, Plus(Nothing(), StockOf(s, id)), Plus(StockOf(bare, id), Weigh(op, id)), id);
    WithIs(StockOf(bare, id), op, id);
    WithIs(StockOf(bare, id), Detached(op), id);
    CancelPendingBooked(s.log, s.nextId, op, StockOf(bare, id), id);
    var r := s.(log := CancelPending(s.log, op), pendingInd := Some(Detached(op)));
    FillIndStock(bare.(log := r.log), Detached(op), id);
    LogStock(bare, r.log, id);
    assert bare.(log := r.log).(pendingInd := Some(Detached(op))) == r;
    Regroup(r.log, s.nextId, Plus(StockOf(bare, id), Weigh(Detached(op), id)), Plus(Nothing(), StockOf(r, id)), id);
  }

  lemma QueueStock(s: Bearer, op: Op, q: Queues, id: int)
    requires Same(Queued(s.q, id), Plus(Queued(q, id), Weigh(op, id)))
    ensures Same(Plus(Nothing(), StockOf(s, id)), Plus(StockOf(s.(q := q), id), Weigh(op, id)))
  {
    hide Weigh, Queued, Slot;
  }

  lemma CancelQueuedOwes(s: Bearer, op: Op, q: Queues, id: int)
    requires Owes(s, Nothing(), id) && Same(Queued(s.q, id), Plus(Queued(q, id), Weigh(op, id)))
    ensures Owes(s.(q := q, log := CancelQueued(s.log, op)), Nothing(), id)
  {
    hide Weigh, CancelQueued, StockOf, Booked, Queued;
    var r := s.(q := q);
    QueueStock(s, op, q, id);
    SaneStockOf(r, id);
    Regroup(s.log, s.nextId, Plus(Nothing(), StockOf(s, id)), Plus(StockOf(r, id), Weigh(op, id)), id);
    WithIs(StockOf(r, id), op, id);
    CancelQueuedBooked(s.log, s.nextId, op, StockOf(r, id), id);
    LogStock(r, CancelQueued(s.log, op), id);
    Regroup(CancelQueued(s.log, op), s.nextId, StockOf(r, id),
            Plus(Nothing(), StockOf(r.(log := CancelQueued(s.log, op)), id)), id);
  }

  lemma CancelOwes(s: Bearer, target: int, id: int)
    requires Owes(s, Nothing(), id)
    ensures Owes(Cancel(s, target), Nothing(), id)
  {
    hide Owes, Weigh, StockOf, TakeOut, Wakeup, CancelQueued, CancelPending, Queued;
    if s.pendingReq.Some? { CancelReqOwes(s, id); }
    if s.pendingInd.Some? { CancelIndOwes(s, id); }
    TakeOutWeighs(s.q, target, id);
    if TakeOut(s.q, target).Some? {
      var (op, q) := TakeOut(s.q, target).value;
      CancelQueuedOwes(s, op, q, id);
      WakeupOwes(s.(q := q, log := CancelQueued(s.log, op)), Nothing(), id);
    }
  }

  function Drain(s: Bearer): Bearer {
    s.(q := Queues([], [], []), log := CancelEach(CancelEach(CancelEach(s.log, s.q.reqs), s.q.inds), s.q.writes))
  }

  function DetachReq(s: Bearer): Bearer {
    if s.pendingReq.None? then s
    else s.(log := CancelPending(s.log, s.pendingReq.value), pendingReq := Some(Detached(s.pendingReq.value)))
  }

  function DetachInd(s: Bearer): Bearer {
    if s.pendingInd.None? then s
    else s.(log := CancelPending(s.log, s.pendingInd.value), pendingInd := Some(Detached(s.pendingInd.value)))
  }

  lemma DetachIs(s: Bearer)
    ensures DetachReq(s) == s.(log := CancelSlot(s.log, s.pendingReq), pendingReq := DetachedSlot(s.pendingReq))
    ensures DetachInd(s) == s.(log := CancelSlot(s.log, s.pendingInd), pendingInd := DetachedSlot(s.pendingInd))
  {
    hide CancelPending, Detached;
  }

  lemma CancelAllInSteps(s: Bearer)
    ensures CancelAll(s) == DetachInd(DetachReq(Drain(s)))
  {
    hide CancelEach, CancelSlot, DetachedSlot, DetachReq, DetachInd;
    DetachIs(Drain(s));
    DetachIs(DetachReq(Drain(s)));
  }

  lemma DrainedBooked(log: seq<Event>, n: int, q: Queues, st: Stock, id: int)
    requires Booked(log, n, Plus(st, Queued(q, id)), id) && Sane(st)
    ensures Booked(CancelEach(CancelEach(CancelEach(log, q.reqs), q.inds), q.writes), n, st, id)
  {
    hide Booked, Sum, CancelEach;
    var a, b, c := Sum(q.reqs, id), Sum(q.inds, id), Sum(q.writes, id);
    Regroup(log, n, Plus(st, Queued(q, id)), Plus(Plus(Plus(st, c), b), a), id);
    CancelEachBooked(log, n, q.reqs, Plus(Plus(st, c), b), id);
    CancelEachBooked(CancelEach(log, q.reqs), n, q.inds, Plus(st, c), id);
    CancelEachBooked(CancelEach(CancelEach(log, q.reqs), q.inds), n, q.writes, st, id);
  }

  lemma NothingQueued(id: int)
    ensures Queued(Queues([], [], []), id) == Nothing()
  {
  }

  lemma DrainOwes(s: Bearer, id: int)
    requires Owes(s, Nothing(), id)
    ensures Owes(Drain(s), Nothing(), id)
  {
    hide Booked, Weigh, Slot, Queued, CancelEach, Pending;
    var p := Pending(s, id);
    var r := Drain(s);
    SaneStock(s, id);
    NothingQueued(id);
    Regroup(s.log, s.nextId, Plus(Nothing(), StockOf(s, id)), Plus(p, Queued(s.q, id)), id);
    DrainedBooked(s.log, s.nextId, s.q, p, id);
    PendingFrame(s, r, id);
    Regroup(r.log, s.nextId, p, Plus(Nothing(), StockOf(r, id)), id);
  }

  lemma CancelAllOwes(s: Bearer, id: int)
    requires Owes(s, Nothing(), id)
    ensures Owes(CancelAll(s), Nothing(), id)
  {
    hide Owes, Drain, CancelAll, CancelPending;
    CancelAllInSteps(s);
    DrainOwes(s, id);
    var s1 := Drain(s);
    var s2 := DetachReq(s1);
    if s1.pendingReq.Some? { CancelReqOwes(s1, id); }
    if s2.pendingInd.Some? { CancelIndOwes(s2, id); }
  }

  lemma {:induction false} CallLostBooked(log: seq<Event>, n: int, ids: seq<int>, st: Stock, id: int)
    requires Booked(log, n, st, id)
    ensures Booked(CallLost(log, ids), n, st, id)
    decreases |ids|
  {
    hide Booked;
    if |ids| > 0 {
      NoteBooked(log, n, LinkLost(ids[0]), st, id);
      CallLostBooked(log + [LinkLost(ids[0])], n, ids[1..], st, id);
    }
  }

  lemma LostOwes(s: Bearer, ids: seq<int>, id: int)
    requires Owes(s, Nothing(), id)
    ensures Owes(s.(log := CallLost(s.log, ids)), Nothing(), id)
  {
    hide Booked, CallLost, Sum, Weigh, Slot, Queued, Pending;
    CallLostBooked(s.log, s.nextId, ids, Plus(Nothing(), StockOf(s, id)), id);
    var r := s.(log := CallLost(s.log, ids));
    assert StockOf(r, id) == StockOf(s, id) by { PendingFrame(s, r, id); }
  }

  lemma DisconnectOwes(s: Bearer, id: int)
    requires Owes(s, Nothing(), id)
    ensures Owes(Disconnect(s), Nothing(), id)
  {
    hide Owes, CancelAll, CallLost;
    var s1 := s.(io := false, writer := false, reading := false);
    FlagsOwes(s, s1, id);
    CancelAllOwes(s1, id);
    var c := CancelAll(s1);
    LostOwes(c, c.disconnects, id);
    var r := c.(log := CallLost(c.log, c.disconnects));
    FlagsOwes(r, r.(handlers := [], disconnects := []), id);
  }

  function FreeReq(s: Bearer): Bearer {
    s.(log := FreeSlot(s.log, s.pendingReq), pendingReq := None)
  }

  function FreeInd(s: Bearer): Bearer {
    s.(log := FreeSlot(s.log, s.pendingInd), pendingInd := None)
  }

  lemma FreeReqOwes(s: Bearer, id: int)
    requires Owes(s, Nothing(), id) && (s.pendingReq.Some? ==> !s.pendingReq.value.callback)
    ensures Owes(FreeReq(s), Nothing(), id)
  {
    hide Owes, StockOf, Weigh;
    if s.pendingReq.Some? {
      var op := s.pendingReq.value;
      EmptyReqOwes(s, Nothing(), Weigh(op, id), id);
      SaneStockOf(s.(pendingReq := None), id);
      FreeOwes(s.(pendingReq := None), op, Weigh(op, id), Nothing(), id);
    } else {
      assert FreeReq(s) == s;
    }
  }

  lemma FreeIndOwes(s: Bearer, id: int)
    requires Owes(s, Nothing(), id) && (s.pendingInd.Some? ==> !s.pendingInd.value.callback)
    ensures Owes(FreeInd(s), Nothing(), id)
  {
    hide Owes, StockOf, Weigh;
    if s.pendingInd.Some? {
      var op := s.pendingInd.value;
      EmptyIndOwes(s, Nothing(), Weigh(op, id), id);
      SaneStockOf(s.(pendingInd := None), id);
      FreeOwes(s.(pendingInd := None), op, Weigh(op, id), Nothing(), id);
    } else {
      assert FreeInd(s) == s;
    }
  }

  lemma UnrefInSteps(s: Bearer)
    ensures Unref(s) == FreeInd(FreeReq(CancelAll(s))).(handlers := [], disconnects := [], alive := false,
                                                        io := false, writer := false, reading := false)
  {
    hide CancelEach, CancelSlot, FreeSlot;
  }

  lemma CancelAllDetaches(s: Bearer)
    ensures var c := CancelAll(s);
            && (c.pendingReq.Some? ==> !c.pendingReq.value.callback)
            && (c.pendingInd.Some? ==> !c.pendingInd.value.callback)
            && FreeReq(c).pendingInd == c.pendingInd
  {
    hide CancelEach, CancelSlot, FreeSlot;
  }

  lemma UnrefOwes(s: Bearer, id: int)
    requires Owes(s, Nothing(), id)
    ensures Owes(Unref(s), Nothing(), id)
  {
    hide Owes, CancelAll, FreeReq, FreeInd, Unref;
    UnrefInSteps(s);
    CancelAllOwes(s, id);
    CancelAllDetaches(s);
    FreeReqOwes(CancelAll(s), id);
    FreeIndOwes(FreeReq(CancelAll(s)), id);
    FlagsOwes(FreeInd(FreeReq(CancelAll(s))), Unref(s), id);
  }

  /** After the last unref nothing is held. */
  lemma UnrefHoldsNothing(s: Bearer, id: int)
    ensures StockOf(Unref(s), id) == Nothing()
  {
    hide CancelEach, CancelSlot, FreeSlot;
    NothingQueued(id);
  }

  lemma StepOwes(s: Bearer, i: Input, id: int)
    requires Shape(s) && Owes(s, Nothing(), id)
    ensures Owes(Step(s, i), Nothing(), id)
  {
    hide Owes, Shape, SendOp, Cancel, CancelAll, SetMtu, WriteReady, Receive, Timeout, Disconnect, Unref;
    if s.alive {
      match i
      case DoSend(args) => SendBooked(s, args, Nothing(), id);
      case DoCancel(target) => CancelOwes(s, target, id);
      case DoCancelAll => CancelAllOwes(s, id);
      case DoRegister(opcode) => FlagsOwes(s, Register(s, opcode), id);
      case DoRegisterDisconnect => FlagsOwes(s, RegisterDisconnect(s), id);
      case DoSetMtu(mtu) => SetMtuOwes(s, mtu, id);
      case Writable(ok, sends) => WriteReadyOwes(s, ok, sends, id);
      case Arrives(opcode, pdu, sends) => ReceiveOwes(s, opcode, pdu, sends, id);
      case Expires(target, sends) => TimeoutOwes(s, target, sends, id);
      case LinkDown => DisconnectOwes(s, id);
      case DoUnref => UnrefOwes(s, id);
    }
  }

  lemma SetMtuOwes(s: Bearer, mtu: int, id: int)
    requires Owes(s, Nothing(), id)
    ensures Owes(SetMtu(s, mtu), Nothing(), id)
  {
    FlagsOwes(s, SetMtu(s, mtu), id);
  }

  lemma {:induction false} RunOwes(s: Bearer, inputs: seq<Input>, id: int)
    requires Shape(s) && Owes(s, Nothing(), id)
    ensures Owes(Run(s, inputs), Nothing(), id)
    decreases |inputs|
  {
    hide Owes, Shape, Step;
    if |inputs| > 0 {
      StepShapes(s, inputs[0]);
      StepOwes(s, inputs[0], id);
      RunOwes(Step(s, inputs[0]), inputs[1..], id);
    }
  }

  // ---- what every run keeps

  /** Conservation: an operation that was accepted is in exactly one queue or slot, or was
      freed; it still owes its destroy handler or has run it; and it was called at most once,
      never after it was cancelled, destroyed or freed. */
  lemma Conservation(inputs: seq<Input>, id: int)
    ensures var s := Run(NEW, inputs);
            var b := BooksOf(s.log, id);
            var held := StockOf(s, id);
            && b.accepted <= 1
            && b.accepted == held.ids + b.freed
            && b.owed == held.owed + b.destroyed
            && b.called + held.due <= b.awaited <= b.called + held.due + b.dropped
            && b.orderly
  {
    hide Run, Sum, BooksOf, Weigh;
    RunOwes(NEW, inputs, id) by { NewOwes(id); }
    BalancedOwes(Run(NEW, inputs), id);
  }

  lemma NewBooks(id: int)
    ensures Booked(NEW.log, NEW.nextId, Nothing(), id)
  {
    hide Sum;
  }

  lemma NewHoldsNothing(id: int)
    ensures StockOf(NEW, id) == Nothing()
  {
    hide Weigh;
    NothingQueued(id);
  }

  lemma NewBalanced(id: int)
    ensures Balanced(NEW, id)
  {
    hide Booked, StockOf;
    NewBooks(id);
    NewHoldsNothing(id);
  }

  lemma NewOwes(id: int)
    ensures Owes(NEW, Nothing(), id)
  {
    hide Owes, Balanced;
    NewBalanced(id);
    BalancedOwes(NEW, id);
  }

  /** However a run goes, unless a send has overrun its memory: when the last reference is
      dropped every operation is freed and every destroy handler has run, exactly once. */
  lemma UnrefSettlesEverything(inputs: seq<Input>, id: int)
    requires Run(NEW, inputs).alive
    ensures var s := Run(NEW, inputs + [DoUnref]);
            var b := BooksOf(s.log, id);
            !s.broken ==>
              b.freed == b.accepted <= 1 && b.destroyed == b.owed
              && b.called <= b.awaited <= b.called + b.dropped && b.orderly
  {
    hide Run, Sum, BooksOf, Weigh, StockOf, Unref;
    Conservation(inputs + [DoUnref], id);
    LastStep(NEW, inputs, DoUnref);
    UnrefHoldsNothing(Run(NEW, inputs), id);
  }

  lemma {:induction false} LastStep(s: Bearer, inputs: seq<Input>, i: Input)
    ensures Run(s, inputs + [i]) == Step(Run(s, inputs), i)
    decreases |inputs|
  {
    hide Step;
    var all := inputs + [i];
    if |inputs| == 0 {
      assert all[1..] == [] && all[0] == i;
    } else {
      assert all[1..] == inputs[1..] + [i] && all[0] == inputs[0];
      LastStep(Step(s, inputs[0]), inputs[1..], i);
    }
  }
}
