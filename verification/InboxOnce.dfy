/** How often `onNotify` runs and returns for one message id, over every run of the receiver. */
module InboxOnce {
  import opened Common
  import opened InboxProtocol

  // ---------------------------------------------------------------------------------------------
  // The drain's attempt cap
  // ---------------------------------------------------------------------------------------------

  /** The drain calls for `id` are covered by its attempt counter, or the drain is through with it. */
  ghost predicate Capped(cfg: Config, s: Receiver, id: Id) {
    var calls := s.log[Called(id, Drain)];
    && Tries(s, id) <= cfg.maxAttempts
    && if s.tick.Some? && s.tick.value.phase.Calling? && s.tick.value.phase.id == id then
         s.tick.value.phase.prior == Tries(s, id) < cfg.maxAttempts && calls <= Tries(s, id) + 1
       else if s.tick.Some? && s.tick.value.phase.Draining? && s.tick.value.phase.id == id then
         calls <= cfg.maxAttempts
       else
         || calls <= Tries(s, id)
         || (calls <= cfg.maxAttempts && id in s.inbox && s.inbox[id].processed && !Ahead(s, id))
  }

  lemma CappedVisit(cfg: Config, s: Receiver, id: Id)
    requires TickOk(s) && Capped(cfg, s, id)
    requires s.tick.Some? && s.tick.value.phase == Between && s.tick.value.todo != [] && s.tick.value.todo[0] in s.inbox
    ensures Capped(cfg, VisitStep(cfg, s), id)
  {
    var todo := s.tick.value.todo;
    assert todo == [todo[0]] + todo[1..];
  }

  lemma CappedNotify(cfg: Config, s: Receiver, ok: bool, id: Id)
    requires TickOk(s) && Capped(cfg, s, id) && s.tick.Some? && s.tick.value.phase.Calling?
    ensures Capped(cfg, NotifyStep(s, ok), id)
  {
  }

  lemma CappedMark(cfg: Config, s: Receiver, id: Id)
    requires TickOk(s) && Capped(cfg, s, id)
    ensures Capped(cfg, Step(cfg, s, TickMark), id)
  {
  }

  lemma CappedBoundary(cfg: Config, s: Receiver, ev: Event, id: Id)
    requires Capped(cfg, s, id) && (ev.TickBegin? || ev.TickEnd?)
    ensures Capped(cfg, Step(cfg, s, ev), id)
  {
  }

  lemma CappedArrive(cfg: Config, s: Receiver, h: nat, id2: Id, payload: Received, id: Id)
    requires Capped(cfg, s, id)
    ensures Capped(cfg, ArriveStep(s, h, id2, payload), id)
  {
    var s' := ArriveStep(s, h, id2, payload);
    assert s'.log[Called(id, Drain)] == s.log[Called(id, Drain)];
  }

  lemma CappedHandler(cfg: Config, s: Receiver, ev: Event, id: Id)
    requires Capped(cfg, s, id) && (ev.Clock? || ev.NotifyEnds? || ev.Mark?)
    ensures Capped(cfg, Step(cfg, s, ev), id)
  {
    var s' := Step(cfg, s, ev);
    assert s'.tick == s.tick && s'.attempts == s.attempts;
    assert s'.log[Called(id, Drain)] == s.log[Called(id, Drain)];
    assert id in s.inbox && s.inbox[id].processed ==> id in s'.inbox && s'.inbox[id].processed;
  }

  lemma CappedStep(cfg: Config, s: Receiver, ev: Event, id: Id)
    requires TickOk(s) && Capped(cfg, s, id)
    ensures Capped(cfg, Step(cfg, s, ev), id)
  {
    match ev
    case TickVisit =>
      if s.tick.Some? && s.tick.value.phase == Between && s.tick.value.todo != [] && s.tick.value.todo[0] in s.inbox {
        CappedVisit(cfg, s, id);
      }
    case TickNotifyEnds(ok) =>
      if s.tick.Some? && s.tick.value.phase.Calling? {
        CappedNotify(cfg, s, ok, id);
      }
    case TickMark => CappedMark(cfg, s, id);
    case TickBegin(_) => CappedBoundary(cfg, s, ev, id);
    case TickEnd => CappedBoundary(cfg, s, ev, id);
    case Arrive(h, id2, payload) =>
      if h !in s.handlers {
        CappedArrive(cfg, s, h, id2, payload, id);
      }
    case _ => CappedHandler(cfg, s, ev, id);
  }

  lemma {:induction false} CappedRun(cfg: Config, evs: seq<Event>, id: Id)
    ensures Capped(cfg, After(cfg, START, evs), id)
  {
    if evs != [] {
      CappedRun(cfg, evs[..|evs| - 1], id);
      RunInv(cfg, evs[..|evs| - 1]);
      CappedStep(cfg, After(cfg, START, evs[..|evs| - 1]), evs[|evs| - 1], id);
    }
  }

  // ---------------------------------------------------------------------------------------------
  // At most one normal return
  // ---------------------------------------------------------------------------------------------

  predicate Busy(h: Handler) {
    !h.Replied?
  }

  ghost predicate Active(s: Receiver, id: Id) {
    exists h :: h in s.handlers && Busy(s.handlers[h]) && s.handlers[h].id == id
  }

  predicate SameWork(a: Handler, b: Handler) {
    Busy(a) && Busy(b) && a.id == b.id
  }

  /** One handler works on an id, and it fires before its one return. */
  ghost predicate OneHandler(s: Receiver) {
    && (forall h, h2 :: h in s.handlers && h2 in s.handlers && SameWork(s.handlers[h], s.handlers[h2]) ==> h == h2)
    && (forall h :: h in s.handlers && s.handlers[h].Firing? ==> s.log[Returned(s.handlers[h].id, Receipt)] == 0)
    && (forall id :: s.log[Returned(id, Receipt)] <= 1)
  }

  lemma OneHandlerArrive(s: Receiver, h: nat, id: Id, payload: Received)
    requires Explained(s, id) && HandlersOk(s) && OneHandler(s) && h !in s.handlers
    ensures OneHandler(ArriveStep(s, h, id, payload))
  {
    var s' := ArriveStep(s, h, id, payload);
    assert forall h2 :: h2 in s.handlers ==> s'.handlers[h2] == s.handlers[h2];
    assert id !in s.inbox ==> forall h2 :: h2 in s.handlers ==> s.handlers[h2].id != id;
    assert forall id2 :: s'.log[Returned(id2, Receipt)] == s.log[Returned(id2, Receipt)];
  }

  lemma OneHandlerEnds(cfg: Config, s: Receiver, h: nat, ok: bool)
    requires OneHandler(s) && h in s.handlers && s.handlers[h].Firing?
    ensures OneHandler(Step(cfg, s, NotifyEnds(h, ok)))
  {
    var s' := Step(cfg, s, NotifyEnds(h, ok));
    var id := s.handlers[h].id;
    assert forall h2 :: h2 in s.handlers && h2 != h ==> s'.handlers[h2] == s.handlers[h2];
    assert forall id2 :: id2 != id ==> s'.log[Returned(id2, Receipt)] == s.log[Returned(id2, Receipt)];
  }

  lemma OneHandlerMark(cfg: Config, s: Receiver, h: nat)
    requires OneHandler(s) && h in s.handlers && s.handlers[h].Marking?
    ensures OneHandler(Step(cfg, s, Mark(h)))
  {
  }

  /** A drain tick touches neither the handlers nor the receipt path's returns. */
  lemma OneHandlerKept(s: Receiver, s': Receiver)
    requires OneHandler(s) && s'.handlers == s.handlers
    requires forall id :: s'.log[Returned(id, Receipt)] == s.log[Returned(id, Receipt)]
    ensures OneHandler(s')
  {
  }

  lemma OneHandlerTick(cfg: Config, s: Receiver, ev: Event)
    requires OneHandler(s) && (ev.TickVisit? || ev.TickNotifyEnds?)
    ensures OneHandler(Step(cfg, s, ev))
  {
    OneHandlerKept(s, Step(cfg, s, ev));
  }

  lemma OneHandlerQuiet(cfg: Config, s: Receiver, ev: Event)
    requires OneHandler(s) && (ev.Clock? || ev.TickBegin? || ev.TickMark? || ev.TickEnd?)
    ensures OneHandler(Step(cfg, s, ev))
  {
    assert Step(cfg, s, ev).log == s.log;
    OneHandlerKept(s, Step(cfg, s, ev));
  }

  lemma OneHandlerStep(cfg: Config, s: Receiver, ev: Event)
    requires (ev.Arrive? ==> Explained(s, ev.id)) && HandlersOk(s) && OneHandler(s)
    ensures OneHandler(Step(cfg, s, ev))
  {
    match ev
    case Arrive(h, id, payload) =>
      if h !in s.handlers {
        OneHandlerArrive(s, h, id, payload);
      }
    case NotifyEnds(h, ok) =>
      if h in s.handlers && s.handlers[h].Firing? {
        OneHandlerEnds(cfg, s, h, ok);
      }
    case Mark(h) =>
      if h in s.handlers && s.handlers[h].Marking? {
        OneHandlerMark(cfg, s, h);
      }
    case TickVisit => OneHandlerTick(cfg, s, ev);
    case TickNotifyEnds(_) => OneHandlerTick(cfg, s, ev);
    case _ => OneHandlerQuiet(cfg, s, ev);
  }

  /** Every receipt handler finishes within `bound` of the entry's receipt. */
  ghost predicate Prompt(bound: int, s: Receiver) {
    forall h :: h in s.handlers && Busy(s.handlers[h]) ==>
      s.handlers[h].id in s.inbox && s.now < s.inbox[s.handlers[h].id].receivedAt + bound
  }

  ghost predicate PromptRun(cfg: Config, bound: int, evs: seq<Event>) {
    && Prompt(bound, After(cfg, START, evs))
    && (evs != [] ==> PromptRun(cfg, bound, evs[..|evs| - 1]))
  }

  /** The running tick will fire, or is firing, this id. */
  ghost predicate Eligible(cfg: Config, s: Receiver, id: Id) {
    && s.tick.Some? && id in s.inbox
    && ((id in s.tick.value.todo && s.tick.value.t - s.inbox[id].receivedAt >= cfg.grace)
        || (s.tick.value.phase.Calling? && s.tick.value.phase.id == id))
  }

  ghost predicate DrainMarks(s: Receiver, id: Id) {
    s.tick.Some? && s.tick.value.phase.Draining? && s.tick.value.phase.id == id
  }

  ghost predicate Once(cfg: Config, s: Receiver, id: Id) {
    && Returns(s, id) <= 1
    && (Eligible(cfg, s, id) ==> Returns(s, id) == 0 && !Active(s, id))
    && (DrainMarks(s, id) ==> !Active(s, id))
    && (Returns(s, id) == 1 && id in s.inbox && !s.inbox[id].processed ==> Active(s, id) || DrainMarks(s, id))
    && (forall h :: h in s.handlers && s.handlers[h] == Firing(id) ==> Returns(s, id) == 0)
  }

  lemma OnceArrive(cfg: Config, s: Receiver, h: nat, id2: Id, payload: Received, id: Id)
    requires Explained(s, id) && TickOk(s) && HandlersOk(s) && Once(cfg, s, id) && h !in s.handlers
    ensures Once(cfg, ArriveStep(s, h, id2, payload), id)
  {
    var s' := ArriveStep(s, h, id2, payload);
    assert forall h2 :: h2 in s.handlers ==> s'.handlers[h2] == s.handlers[h2];
    assert Active(s, id) ==> Active(s', id);
    assert s'.handlers[h] != Firing(id) ==> (Active(s', id) ==> Active(s, id));
    assert Returns(s', id) == Returns(s, id);
    if id2 == id && id !in s.inbox {
      assert !InPhase(s, id) && !Ahead(s, id);
    }
  }

  lemma OnceEnds(cfg: Config, s: Receiver, h: nat, ok: bool, id: Id)
    requires HandlersOk(s) && OneHandler(s) && Once(cfg, s, id) && h in s.handlers && s.handlers[h].Firing?
    ensures Once(cfg, Step(cfg, s, NotifyEnds(h, ok)), id)
  {
    var s' := Step(cfg, s, NotifyEnds(h, ok));
    var hid := s.handlers[h].id;
    assert Active(s, hid);
    assert forall h2 :: h2 in s.handlers && h2 != h ==> s'.handlers[h2] == s.handlers[h2];
    if hid == id {
      assert ok ==> Active(s', id) by { assert s'.handlers[h] == if ok then Marking(id) else Replied(id, false); }
    } else {
      assert Active(s', id) ==> Active(s, id);
      if Active(s, id) {
        var h2 :| h2 in s.handlers && Busy(s.handlers[h2]) && s.handlers[h2].id == id;
        assert h2 != h && h2 in s'.handlers && s'.handlers[h2] == s.handlers[h2];
      }
      assert Returns(s', id) == Returns(s, id);
    }
  }

  lemma OnceHandlerMark(cfg: Config, s: Receiver, h: nat, id: Id)
    requires HandlersOk(s) && OneHandler(s) && Once(cfg, s, id) && h in s.handlers && s.handlers[h].Marking?
    ensures Once(cfg, Step(cfg, s, Mark(h)), id)
  {
    var s' := Step(cfg, s, Mark(h));
    assert Active(s, s.handlers[h].id);
    assert forall h2 :: h2 in s.handlers && h2 != h ==> s'.handlers[h2] == s.handlers[h2];
    assert Active(s', id) ==> Active(s, id);
    if s.handlers[h].id != id && Active(s, id) {
      var h2 :| h2 in s.handlers && Busy(s.handlers[h2]) && s.handlers[h2].id == id;
      assert h2 != h && h2 in s'.handlers && s'.handlers[h2] == s.handlers[h2];
    }
  }

  /** A tick that starts finds no handler on an entry past its grace window. */
  lemma OnceBegin(cfg: Config, s: Receiver, listing: seq<Id>, id: Id)
    requires Prompt(cfg.grace, s) && Once(cfg, s, id)
    ensures Once(cfg, Step(cfg, s, TickBegin(listing)), id)
  {
    var s' := Step(cfg, s, TickBegin(listing));
    assert Active(s', id) == Active(s, id);
    if Eligible(cfg, s', id) && s' != s {
      assert !Active(s, id);
      assert Returns(s, id) == 0;
    }
  }

  lemma OnceVisit(cfg: Config, s: Receiver, id: Id)
    requires TickOk(s) && Once(cfg, s, id)
    requires s.tick.Some? && s.tick.value.phase == Between && s.tick.value.todo != [] && s.tick.value.todo[0] in s.inbox
    ensures Once(cfg, VisitStep(cfg, s), id)
  {
    var s' := VisitStep(cfg, s);
    assert Active(s', id) == Active(s, id);
    assert s.tick.value.todo == [s.tick.value.todo[0]] + s.tick.value.todo[1..];
    assert Returns(s', id) == Returns(s, id);
  }

  lemma OnceNotify(cfg: Config, s: Receiver, ok: bool, id: Id)
    requires TickOk(s) && Once(cfg, s, id) && s.tick.Some? && s.tick.value.phase.Calling?
    ensures Once(cfg, NotifyStep(s, ok), id)
  {
    assert Active(NotifyStep(s, ok), id) == Active(s, id);
  }

  lemma OnceDrained(cfg: Config, s: Receiver, ev: Event, id: Id)
    requires TickOk(s) && Once(cfg, s, id) && (ev.TickMark? || ev.TickEnd?)
    ensures Once(cfg, Step(cfg, s, ev), id)
  {
    assert Active(Step(cfg, s, ev), id) == Active(s, id);
  }

  lemma OnceTick(cfg: Config, s: Receiver, ev: Event, id: Id)
    requires TickOk(s) && Once(cfg, s, id)
    requires ev.TickVisit? || ev.TickNotifyEnds? || ev.TickMark? || ev.TickEnd?
    ensures Once(cfg, Step(cfg, s, ev), id)
  {
    if ev.TickVisit? {
      if s.tick.Some? && s.tick.value.phase == Between && s.tick.value.todo != [] && s.tick.value.todo[0] in s.inbox {
        OnceVisit(cfg, s, id);
      }
    } else if ev.TickNotifyEnds? {
      if s.tick.Some? && s.tick.value.phase.Calling? {
        OnceNotify(cfg, s, ev.ok, id);
      }
    } else {
      OnceDrained(cfg, s, ev, id);
    }
  }

  lemma OnceReceipt(cfg: Config, s: Receiver, ev: Event, id: Id)
    requires Explained(s, id) && HandlersOk(s) && TickOk(s) && OneHandler(s) && Once(cfg, s, id)
    requires ev.Arrive? || ev.NotifyEnds? || ev.Mark?
    ensures Once(cfg, Step(cfg, s, ev), id)
  {
    if ev.Arrive? {
      if ev.h !in s.handlers {
        OnceArrive(cfg, s, ev.h, ev.id, ev.payload, id);
      }
    } else if ev.NotifyEnds? {
      if ev.h in s.handlers && s.handlers[ev.h].Firing? {
        OnceEnds(cfg, s, ev.h, ev.ok, id);
      }
    } else if ev.h in s.handlers && s.handlers[ev.h].Marking? {
      OnceHandlerMark(cfg, s, ev.h, id);
    }
  }

  lemma OnceClock(cfg: Config, s: Receiver, to: int, id: Id)
    requires Once(cfg, s, id)
    ensures Once(cfg, Step(cfg, s, Clock(to)), id)
  {
    assert Active(Step(cfg, s, Clock(to)), id) == Active(s, id);
  }

  lemma OnceStep(cfg: Config, s: Receiver, ev: Event, id: Id)
    requires Explained(s, id) && HandlersOk(s) && TickOk(s)
    requires OneHandler(s) && Prompt(cfg.grace, s) && Once(cfg, s, id)
    ensures Once(cfg, Step(cfg, s, ev), id)
  {
    if ev.Clock? {
      OnceClock(cfg, s, ev.to, id);
    } else if ev.TickBegin? {
      OnceBegin(cfg, s, ev.listing, id);
    } else if ev.Arrive? || ev.NotifyEnds? || ev.Mark? {
      OnceReceipt(cfg, s, ev, id);
    } else {
      OnceTick(cfg, s, ev, id);
    }
  }

  lemma {:induction false} OneHandlerRun(cfg: Config, evs: seq<Event>)
    ensures OneHandler(After(cfg, START, evs))
  {
    if evs != [] {
      var pre := evs[..|evs| - 1];
      OneHandlerRun(cfg, pre);
      RunInv(cfg, pre);
      OneHandlerStep(cfg, After(cfg, START, pre), evs[|evs| - 1]);
    }
  }

  // ---------------------------------------------------------------------------------------------
  // Every call ends in one way
  // ---------------------------------------------------------------------------------------------

  ghost predicate AwaitsReceipt(s: Receiver, id: Id) {
    exists h :: h in s.handlers && s.handlers[h] == Firing(id)
  }

  ghost predicate AwaitsDrain(s: Receiver, id: Id) {
    s.tick.Some? && s.tick.value.phase.Calling? && s.tick.value.phase.id == id
  }

  ghost function Ended(s: Receiver, id: Id, via: Source): nat {
    s.log[Returned(id, via)] + s.log[Threw(id, via)]
  }

  /** On either path every call of `onNotify` has returned or thrown, except one that is still awaited. */
  ghost predicate Balanced(s: Receiver, id: Id) {
    && s.log[Called(id, Receipt)] == Ended(s, id, Receipt) + (if AwaitsReceipt(s, id) then 1 else 0)
    && s.log[Called(id, Drain)] == Ended(s, id, Drain) + (if AwaitsDrain(s, id) then 1 else 0)
  }

  lemma BalancedArrive(s: Receiver, h: nat, id2: Id, payload: Received, id: Id)
    requires HandlersOk(s) && Balanced(s, id) && h !in s.handlers
    ensures Balanced(ArriveStep(s, h, id2, payload), id)
  {
    var s' := ArriveStep(s, h, id2, payload);
    assert forall h2 :: h2 in s.handlers ==> s'.handlers[h2] == s.handlers[h2];
    assert s'.handlers[h].Firing? <==> id2 !in s.inbox;
    assert AwaitsReceipt(s, id) ==> id in s.inbox && AwaitsReceipt(s', id);
    assert Ended(s', id, Receipt) == Ended(s, id, Receipt) && Ended(s', id, Drain) == Ended(s, id, Drain);
  }

  lemma BalancedEnds(cfg: Config, s: Receiver, h: nat, ok: bool, id: Id)
    requires OneHandler(s) && Balanced(s, id) && h in s.handlers && s.handlers[h].Firing?
    ensures Balanced(Step(cfg, s, NotifyEnds(h, ok)), id)
  {
    var s' := Step(cfg, s, NotifyEnds(h, ok));
    assert forall h2 :: h2 in s.handlers && h2 != h ==> s'.handlers[h2] == s.handlers[h2];
    if s.handlers[h].id == id {
      assert AwaitsReceipt(s, id) && !AwaitsReceipt(s', id);
    } else if AwaitsReceipt(s, id) {
      var h2 :| h2 in s.handlers && s.handlers[h2] == Firing(id);
      assert s'.handlers[h2] == Firing(id);
    }
  }

  lemma BalancedMark(cfg: Config, s: Receiver, h: nat, id: Id)
    requires Balanced(s, id) && h in s.handlers && s.handlers[h].Marking?
    ensures Balanced(Step(cfg, s, Mark(h)), id)
  {
    var s' := Step(cfg, s, Mark(h));
    assert forall h2 :: h2 in s.handlers && h2 != h ==> s'.handlers[h2] == s.handlers[h2];
    if AwaitsReceipt(s, id) {
      var h2 :| h2 in s.handlers && s.handlers[h2] == Firing(id);
      assert s'.handlers[h2] == Firing(id);
    }
  }

  /** Events that leave the handlers alone do not touch the receipt path's calls. */
  lemma ReceiptBalanceKept(s: Receiver, s': Receiver, id: Id)
    requires Balanced(s, id) && s'.handlers == s.handlers
    requires forall note: Note :: note.via == Receipt ==> s'.log[note] == s.log[note]
    ensures s'.log[Called(id, Receipt)] == Ended(s', id, Receipt) + (if AwaitsReceipt(s', id) then 1 else 0)
  {
    assert AwaitsReceipt(s', id) == AwaitsReceipt(s, id);
    assert Called(id, Receipt).via == Returned(id, Receipt).via == Threw(id, Receipt).via == Receipt;
  }

  lemma BalancedVisit(cfg: Config, s: Receiver, id: Id)
    requires Balanced(s, id) && s.tick.Some? && s.tick.value.phase == Between && s.tick.value.todo != []
    requires s.tick.value.todo[0] in s.inbox
    ensures Balanced(VisitStep(cfg, s), id)
  {
    ReceiptBalanceKept(s, VisitStep(cfg, s), id);
  }

  lemma BalancedNotify(s: Receiver, ok: bool, id: Id)
    requires Balanced(s, id) && s.tick.Some? && s.tick.value.phase.Calling?
    ensures Balanced(NotifyStep(s, ok), id)
  {
    ReceiptBalanceKept(s, NotifyStep(s, ok), id);
  }

  lemma BalancedQuiet(cfg: Config, s: Receiver, ev: Event, id: Id)
    requires Balanced(s, id) && (ev.Clock? || ev.TickBegin? || ev.TickMark? || ev.TickEnd?)
    ensures Balanced(Step(cfg, s, ev), id)
  {
    assert Step(cfg, s, ev).log == s.log;
    ReceiptBalanceKept(s, Step(cfg, s, ev), id);
  }

  lemma BalancedStep(cfg: Config, s: Receiver, ev: Event, id: Id)
    requires HandlersOk(s) && OneHandler(s) && Balanced(s, id)
    ensures Balanced(Step(cfg, s, ev), id)
  {
    match ev
    case Arrive(h, id2, payload) =>
      if h !in s.handlers {
        BalancedArrive(s, h, id2, payload, id);
      }
    case NotifyEnds(h, ok) =>
      if h in s.handlers && s.handlers[h].Firing? {
        BalancedEnds(cfg, s, h, ok, id);
      }
    case Mark(h) =>
      if h in s.handlers && s.handlers[h].Marking? {
        BalancedMark(cfg, s, h, id);
      }
    case TickVisit =>
      if Step(cfg, s, ev) != s {
        BalancedVisit(cfg, s, id);
      }
    case TickNotifyEnds(ok) =>
      if s.tick.Some? && s.tick.value.phase.Calling? {
        BalancedNotify(s, ok, id);
      }
    case _ => BalancedQuiet(cfg, s, ev, id);
  }

  lemma {:induction false} BalancedRun(cfg: Config, evs: seq<Event>, id: Id)
    ensures Balanced(After(cfg, START, evs), id)
  {
    if evs != [] {
      var pre := evs[..|evs| - 1];
      BalancedRun(cfg, pre, id);
      RunInv(cfg, pre);
      OneHandlerRun(cfg, pre);
      BalancedStep(cfg, After(cfg, START, pre), evs[|evs| - 1], id);
    }
  }

  /**
   * For every id in every run: the receipt path calls `onNotify` once if the id was received and never
   * otherwise, the drain calls it at most `maxAttempts` times, every call but the one awaited on its path
   * has ended in one way, and a processed id has a normal return.
   */
  lemma CallBounds(cfg: Config, evs: seq<Event>, id: Id)
    ensures var s := After(cfg, START, evs);
            && s.log[Called(id, Receipt)] == (if id in s.inbox then 1 else 0)
            && s.log[Called(id, Drain)] <= cfg.maxAttempts
            && Balanced(s, id)
            && (id in s.inbox && s.inbox[id].processed ==> Returns(s, id) >= 1)
  {
    CappedRun(cfg, evs, id);
    BalancedRun(cfg, evs, id);
    RunInv(cfg, evs);
    assert Explained(After(cfg, START, evs), id);
  }

  lemma {:induction false} OnceRun(cfg: Config, evs: seq<Event>, id: Id)
    requires PromptRun(cfg, cfg.grace, evs)
    ensures Once(cfg, After(cfg, START, evs), id)
  {
    if evs != [] {
      var pre := evs[..|evs| - 1];
      OnceRun(cfg, pre, id);
      RunInv(cfg, pre);
      OneHandlerRun(cfg, pre);
      OnceStep(cfg, After(cfg, START, pre), evs[|evs| - 1], id);
    }
  }

  // ---------------------------------------------------------------------------------------------
  // Exactly when one return is guaranteed
  // ---------------------------------------------------------------------------------------------

  /** If every receipt handler finishes within `bound`, no id ever has two normal returns. */
  ghost predicate AtMostOnce(cfg: Config, bound: int) {
    forall evs, id :: PromptRun(cfg, bound, evs) ==> Returns(After(cfg, START, evs), id) <= 1
  }

  lemma PromptWeaken(cfg: Config, bound: int, bound2: int, evs: seq<Event>)
    requires PromptRun(cfg, bound, evs) && bound <= bound2
    ensures PromptRun(cfg, bound2, evs)
  {
  }

  /** The drain never calls: its cap is zero, or everything past the grace window has expired. */
  ghost predicate NoDrain(cfg: Config) {
    cfg.maxAttempts == 0 || cfg.ttl < cfg.grace
  }

  ghost predicate Undrained(s: Receiver) {
    && (s.tick.Some? ==> s.tick.value.phase == Between)
    && (forall id :: s.log[Returned(id, Drain)] == 0)
  }

  lemma {:induction false} UndrainedRun(cfg: Config, evs: seq<Event>)
    requires NoDrain(cfg)
    ensures Undrained(After(cfg, START, evs))
  {
    if evs != [] {
      var pre := evs[..|evs| - 1];
      UndrainedRun(cfg, pre);
      UndrainedStep(cfg, After(cfg, START, pre), evs[|evs| - 1]);
    }
  }

  lemma UndrainedStep(cfg: Config, s: Receiver, ev: Event)
    requires NoDrain(cfg) && Undrained(s)
    ensures Undrained(Step(cfg, s, ev))
  {
    assert forall id :: Step(cfg, s, ev).log[Returned(id, Drain)] == s.log[Returned(id, Drain)];
  }

  /** The states of a run in which the drain re-fires a message whose receipt handler is still firing. */
  ghost function Slow(cfg: Config, i: nat): Receiver {
    var g := cfg.grace;
    var box := map[7 := InEntry(Received(Legacy, "hello"), 0, false)];
    var firing := map[0 := Firing(7)];
    var log := multiset{Called(7, Receipt)};
    var called := log + multiset{Called(7, Drain)};
    var once := called + multiset{Returned(7, Drain)};
    match i
    case 0 => START
    case 1 => Receiver(0, box, firing, map[], None, log)
    case 2 => Receiver(g, box, firing, map[], None, log)
    case 3 => Receiver(g, box, firing, map[], Some(Tick(g, [7], Between)), log)
    case 4 => Receiver(g, box, firing, map[], Some(Tick(g, [], Calling(7, 0))), called)
    case 5 => Receiver(g, box, firing, map[], Some(Tick(g, [], Draining(7))), once)
    case _ => Receiver(g, box, map[0 := Marking(7)], map[], Some(Tick(g, [], Draining(7))),
                       once + multiset{Returned(7, Receipt)})
  }

  ghost function SlowEvents(cfg: Config): seq<Event> {
    [ Arrive(0, 7, Received(Legacy, "hello")), Clock(cfg.grace), TickBegin([7]), TickVisit,
      TickNotifyEnds(true), NotifyEnds(0, true) ]
  }

  lemma SlowReceipt(cfg: Config, i: nat)
    requires !NoDrain(cfg) && i < 3
    ensures Step(cfg, Slow(cfg, i), SlowEvents(cfg)[i]) == Slow(cfg, i + 1)
  {
  }

  lemma SlowVisit(cfg: Config)
    requires !NoDrain(cfg)
    ensures Step(cfg, Slow(cfg, 3), SlowEvents(cfg)[3]) == Slow(cfg, 4)
  {
    var todo: seq<Id> := [7];
    assert todo[1..] == [];
  }

  lemma SlowDrainReturns(cfg: Config)
    ensures Step(cfg, Slow(cfg, 4), TickNotifyEnds(true)) == Slow(cfg, 5)
  {
  }

  lemma SlowReceiptReturns(cfg: Config)
    ensures Step(cfg, Slow(cfg, 5), NotifyEnds(0, true)) == Slow(cfg, 6)
  {
  }

  lemma SlowSteps(cfg: Config, i: nat)
    requires !NoDrain(cfg) && i < 6
    ensures Step(cfg, Slow(cfg, i), SlowEvents(cfg)[i]) == Slow(cfg, i + 1)
  {
    if i < 3 {
      SlowReceipt(cfg, i);
    } else if i == 3 {
      SlowVisit(cfg);
    } else if i == 4 {
      SlowDrainReturns(cfg);
    } else {
      SlowReceiptReturns(cfg);
    }
  }

  /** Event `k` leads from state `k` to the next. */
  ghost predicate Leads(cfg: Config, evs: seq<Event>, states: nat -> Receiver, k: nat)
    requires k < |evs|
  {
    Step(cfg, states(k), evs[k]) == states(k + 1)
  }

  lemma {:induction false} RunThrough(cfg: Config, evs: seq<Event>, states: nat -> Receiver, i: nat)
    requires i <= |evs| && states(0) == START && forall k: nat :: k < |evs| ==> Leads(cfg, evs, states, k)
    ensures After(cfg, START, evs[..i]) == states(i)
  {
    if i > 0 {
      var pre := evs[..i - 1];
      RunThrough(cfg, evs, states, i - 1);
      assert Leads(cfg, evs, states, i - 1);
      AfterAppend(cfg, START, pre, evs[i - 1]);
      assert evs[..i] == pre + [evs[i - 1]];
    }
  }

  lemma SlowAfter(cfg: Config, i: nat)
    requires !NoDrain(cfg) && i <= 6
    ensures After(cfg, START, SlowEvents(cfg)[..i]) == Slow(cfg, i)
  {
    var states := (k: nat) => Slow(cfg, k);
    forall k: nat | k < |SlowEvents(cfg)|
      ensures Leads(cfg, SlowEvents(cfg), states, k)
    {
      SlowSteps(cfg, k);
    }
    RunThrough(cfg, SlowEvents(cfg), states, i);
  }

  lemma SlowPrompt(cfg: Config, bound: int, i: nat)
    requires bound > cfg.grace
    ensures Prompt(bound, Slow(cfg, i))
  {
  }

  lemma {:induction false} SlowPromptRun(cfg: Config, bound: int, i: nat)
    requires !NoDrain(cfg) && bound > cfg.grace && i <= 6
    ensures PromptRun(cfg, bound, SlowEvents(cfg)[..i])
  {
    SlowAfter(cfg, i);
    SlowPrompt(cfg, bound, i);
    if i > 0 {
      SlowPromptRun(cfg, bound, i - 1);
      assert SlowEvents(cfg)[..i][..i - 1] == SlowEvents(cfg)[..i - 1];
    }
  }

  lemma ReturnsAtMostOnce(cfg: Config, bound: int, evs: seq<Event>, id: Id)
    requires (bound <= cfg.grace || NoDrain(cfg)) && PromptRun(cfg, bound, evs)
    ensures Returns(After(cfg, START, evs), id) <= 1
  {
    if NoDrain(cfg) {
      UndrainedRun(cfg, evs);
      OneHandlerRun(cfg, evs);
    } else {
      PromptWeaken(cfg, bound, cfg.grace, evs);
      OnceRun(cfg, evs, id);
    }
  }

  /** A receipt handler still running when its grace window ends is fired a second time. */
  lemma SlowHandlerTwice(cfg: Config, bound: int)
    requires !NoDrain(cfg) && bound > cfg.grace
    ensures PromptRun(cfg, bound, SlowEvents(cfg)) && Returns(After(cfg, START, SlowEvents(cfg)), 7) == 2
  {
    SlowPromptRun(cfg, bound, 6);
    SlowAfter(cfg, 6);
    assert SlowEvents(cfg)[..6] == SlowEvents(cfg);
  }

  /**
   * The grace window exists so that the drain never re-fires a message still in the hands of its receipt
   * handler. It does so exactly when handlers finish within the grace window, or when the drain cannot
   * fire at all.
   */
  lemma AtMostOnceIff(cfg: Config, bound: int)
    ensures AtMostOnce(cfg, bound) <==> bound <= cfg.grace || NoDrain(cfg)
  {
    if bound <= cfg.grace || NoDrain(cfg) {
      forall evs, id | PromptRun(cfg, bound, evs)
        ensures Returns(After(cfg, START, evs), id) <= 1
      {
        ReturnsAtMostOnce(cfg, bound, evs, id);
      }
    } else {
      SlowHandlerTwice(cfg, bound);
    }
  }
}
