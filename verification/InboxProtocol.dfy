/**
 * The receiver half of effectively-once delivery as a step system: a request is persisted and deduplicated
 * by id, `onNotify` is fired for a new id, the entry is marked processed, then the message is accepted. A drain
 * tick re-fires entries that are older than the grace window and still unprocessed.
 */
module InboxProtocol {
  import opened Common

  type Id = nat

  /** The two wire formats; each derives the notify payload from the enqueued payload in its own way. */
  datatype Wire = Legacy | A2A

  /** The payload a receiver stores, as a term: which enqueued payload it was derived from, and how. */
  datatype Received = Received(wire: Wire, payload: string)

  datatype InEntry = InEntry(payload: Received, receivedAt: int, processed: bool)

  datatype Config = Config(grace: nat, maxAttempts: nat, ttl: nat)

  /**
   * Where one receipt handler stands. `Replied(true)` accepts the message; `Replied(false)`, after a
   * throwing `onNotify`, is a 500 on the legacy wire and a JSON-RPC error on A2A.
   */
  datatype Handler = Firing(id: Id) | Marking(id: Id) | Replied(id: Id, ok: bool)

  datatype Phase = Between | Calling(id: Id, prior: nat) | Draining(id: Id)

  /** A drain tick: its clock reading, the ids of its snapshot still to visit, what it awaits. */
  datatype Tick = Tick(t: int, todo: seq<Id>, phase: Phase)

  datatype Source = Receipt | Drain

  datatype Note = Called(id: Id, via: Source) | Returned(id: Id, via: Source) | Threw(id: Id, via: Source)

  datatype Receiver = Receiver(
    now: int,
    inbox: map<Id, InEntry>,
    handlers: map<nat, Handler>,
    attempts: map<Id, nat>,
    tick: Option<Tick>,
    log: multiset<Note>)    // every `onNotify` call and how it ended

  const START := Receiver(0, map[], map[], map[], None, multiset{})

  datatype Event =
    | Clock(to: int)
    | Arrive(h: nat, id: Id, payload: Received)
    | NotifyEnds(h: nat, ok: bool)
    | Mark(h: nat)
    | TickBegin(listing: seq<Id>)
    | TickVisit
    | TickNotifyEnds(ok: bool)
    | TickMark
    | TickEnd

  function Tries(s: Receiver, id: Id): nat {
    if id in s.attempts then s.attempts[id] else 0
  }

  ghost predicate ListsUndrained(listing: seq<Id>, inbox: map<Id, InEntry>) {
    && NoDup(listing)
    && (forall i :: 0 <= i < |listing| ==> listing[i] in inbox && !inbox[listing[i]].processed)
    && (forall id :: id in inbox && !inbox[id].processed ==> id in listing)
  }

  function Processed(inbox: map<Id, InEntry>, id: Id): map<Id, InEntry> {
    if id in inbox then inbox[id := inbox[id].(processed := true)] else inbox
  }

  ghost function Step(cfg: Config, s: Receiver, ev: Event): Receiver {
    match ev
    case Clock(to) => s.(now := to)
    case Arrive(h, id, payload) => if h in s.handlers then s else ArriveStep(s, h, id, payload)
    case NotifyEnds(h, ok) =>
      if h !in s.handlers || !s.handlers[h].Firing? then s else
        var id := s.handlers[h].id;
        s.(handlers := s.handlers[h := if ok then Marking(id) else Replied(id, false)],
        log := s.log + multiset{if ok then Returned(id, Receipt) else Threw(id, Receipt)})
    case Mark(h) =>
      if h !in s.handlers || !s.handlers[h].Marking? then s else
        var id := s.handlers[h].id;
        s.(handlers := s.handlers[h := Replied(id, true)], inbox := Processed(s.inbox, id))
    case TickBegin(listing) =>
      if s.tick.Some? || !ListsUndrained(listing, s.inbox) then s else
        s.(tick := Some(Tick(s.now, listing, Between)))
    case TickVisit =>
      if s.tick.None? || s.tick.value.phase != Between || s.tick.value.todo == [] then s
      else if s.tick.value.todo[0] !in s.inbox then s else
        VisitStep(cfg, s)
    case TickNotifyEnds(ok) =>
      if s.tick.None? || !s.tick.value.phase.Calling? then s else
        NotifyStep(s, ok)
    case TickMark =>
      if s.tick.None? || !s.tick.value.phase.Draining? then s else
        var id := s.tick.value.phase.id;
        s.(tick := Some(s.tick.value.(phase := Between)),
        inbox := Processed(s.inbox, id), attempts := s.attempts - {id})
    case TickEnd =>
      if s.tick.None? || s.tick.value.phase != Between || s.tick.value.todo != [] then s else
        s.(tick := None)
  }

  /** Persist-and-deduplicate is atomic; a known id is accepted at once and fires nothing. */
  ghost function ArriveStep(s: Receiver, h: nat, id: Id, payload: Received): Receiver {
    if id in s.inbox then
      s.(handlers := s.handlers[h := Replied(id, true)])
    else
      s.(inbox := s.inbox[id := InEntry(payload, s.now, false)],
      handlers := s.handlers[h := Firing(id)],
      log := s.log + multiset{Called(id, Receipt)})
  }

  /** One entry of the tick's snapshot: exhausted, expired, too young, or re-fired. */
  ghost function VisitStep(cfg: Config, s: Receiver): Receiver
    requires s.tick.Some? && s.tick.value.todo != [] && s.tick.value.todo[0] in s.inbox
  {
    var tick := s.tick.value;
    var id := tick.todo[0];
    var rest := tick.(todo := tick.todo[1..]);
    var age := tick.t - s.inbox[id].receivedAt;
    if Tries(s, id) >= cfg.maxAttempts then s.(tick := Some(rest))
    else if age > cfg.ttl then s.(tick := Some(rest), attempts := s.attempts[id := cfg.maxAttempts])
    else if age < cfg.grace then s.(tick := Some(rest))
    else s.(tick := Some(rest.(phase := Calling(id, Tries(s, id)))), log := s.log + multiset{Called(id, Drain)})
  }

  ghost function NotifyStep(s: Receiver, ok: bool): Receiver
    requires s.tick.Some? && s.tick.value.phase.Calling?
  {
    var tick := s.tick.value;
    var id := tick.phase.id;
    if ok then
      s.(tick := Some(tick.(phase := Draining(id))), log := s.log + multiset{Returned(id, Drain)})
    else
      s.(tick := Some(tick.(phase := Between)), attempts := s.attempts[id := tick.phase.prior + 1],
      log := s.log + multiset{Threw(id, Drain)})
  }

  ghost function After(cfg: Config, s: Receiver, evs: seq<Event>): Receiver {
    if evs == [] then s
    else Step(cfg, After(cfg, s, evs[..|evs| - 1]), evs[|evs| - 1])
  }

  lemma AfterAppend(cfg: Config, s: Receiver, evs: seq<Event>, ev: Event)
    ensures After(cfg, s, evs + [ev]) == Step(cfg, After(cfg, s, evs), ev)
  {
    assert (evs + [ev])[..|evs|] == evs;
  }

  lemma {:induction false} AfterConcat(cfg: Config, s: Receiver, a: seq<Event>, b: seq<Event>)
    ensures After(cfg, s, a + b) == After(cfg, After(cfg, s, a), b)
  {
    if b == [] {
      assert a + b == a;
    } else {
      assert (a + b)[..|a + b| - 1] == a + b[..|b| - 1];
      AfterConcat(cfg, s, a, b[..|b| - 1]);
    }
  }

  // ---------------------------------------------------------------------------------------------
  // Every run
  // ---------------------------------------------------------------------------------------------

  ghost function Returns(s: Receiver, id: Id): nat {
    s.log[Returned(id, Receipt)] + s.log[Returned(id, Drain)]
  }

  ghost predicate Ahead(s: Receiver, id: Id) {
    s.tick.Some? && id in s.tick.value.todo
  }

  ghost predicate InPhase(s: Receiver, id: Id) {
    s.tick.Some? && s.tick.value.phase != Between && s.tick.value.phase.id == id
  }

  /** Some normal return of `onNotify` explains `processed`; the receipt path called at most once. */
  ghost predicate Explained(s: Receiver, id: Id) {
    && s.log[Called(id, Receipt)] == (if id in s.inbox then 1 else 0)
    && (id in s.inbox && s.inbox[id].processed ==> Returns(s, id) >= 1)
    && (id !in s.inbox ==> Returns(s, id) == 0 && s.log[Called(id, Drain)] == 0)
  }

  ghost predicate HandlersOk(s: Receiver) {
    forall h :: h in s.handlers ==>
      && s.handlers[h].id in s.inbox
      && (s.handlers[h].Marking? ==> Returns(s, s.handlers[h].id) >= 1)
  }

  ghost predicate TickOk(s: Receiver) {
    s.tick.Some? ==>
      var tick := s.tick.value;
      && NoDup(tick.todo)
      && (forall i :: 0 <= i < |tick.todo| ==> tick.todo[i] in s.inbox)
      && (tick.phase != Between ==> tick.phase.id in s.inbox && tick.phase.id !in tick.todo)
      && (tick.phase.Draining? ==> Returns(s, tick.phase.id) >= 1)
  }

  ghost predicate Inv(s: Receiver) {
    (forall id :: Explained(s, id)) && HandlersOk(s) && TickOk(s)
  }

  lemma ArriveInv(s: Receiver, h: nat, id: Id, payload: Received)
    requires Inv(s) && h !in s.handlers
    ensures Inv(ArriveStep(s, h, id, payload))
  {
    var s' := ArriveStep(s, h, id, payload);
    forall id2
      ensures Explained(s', id2)
    {
      assert Explained(s, id2);
    }
  }

  lemma HandlerInv(cfg: Config, s: Receiver, ev: Event)
    requires Inv(s) && (ev.NotifyEnds? || ev.Mark?)
    ensures Inv(Step(cfg, s, ev))
  {
    var s' := Step(cfg, s, ev);
    forall id
      ensures Explained(s', id)
    {
      assert Explained(s, id);
    }
  }

  lemma VisitInv(cfg: Config, s: Receiver)
    requires Inv(s) && s.tick.Some? && s.tick.value.phase == Between && s.tick.value.todo != []
    requires s.tick.value.todo[0] in s.inbox
    ensures Inv(VisitStep(cfg, s))
  {
    var s' := VisitStep(cfg, s);
    forall id
      ensures Explained(s', id)
    {
      assert Explained(s, id);
    }
  }

  lemma NotifyInv(s: Receiver, ok: bool)
    requires Inv(s) && s.tick.Some? && s.tick.value.phase.Calling?
    ensures Inv(NotifyStep(s, ok))
  {
    var s' := NotifyStep(s, ok);
    forall id
      ensures Explained(s', id)
    {
      assert Explained(s, id);
    }
  }

  lemma TickMarkInv(cfg: Config, s: Receiver)
    requires Inv(s)
    ensures Inv(Step(cfg, s, TickMark))
  {
    var s' := Step(cfg, s, TickMark);
    forall id
      ensures Explained(s', id)
    {
      assert Explained(s, id);
    }
  }

  lemma StepInv(cfg: Config, s: Receiver, ev: Event)
    requires Inv(s)
    ensures Inv(Step(cfg, s, ev))
  {
    match ev
    case Arrive(h, id, payload) =>
      if h !in s.handlers {
        ArriveInv(s, h, id, payload);
      }
    case NotifyEnds(_, _) => HandlerInv(cfg, s, ev);
    case Mark(_) => HandlerInv(cfg, s, ev);
    case TickVisit =>
      if Step(cfg, s, ev) != s {
        VisitInv(cfg, s);
      }
    case TickNotifyEnds(ok) =>
      if s.tick.Some? && s.tick.value.phase.Calling? {
        NotifyInv(s, ok);
      }
    case TickMark => TickMarkInv(cfg, s);
    case _ => QuietInv(cfg, s, ev);
  }

  lemma QuietInv(cfg: Config, s: Receiver, ev: Event)
    requires Inv(s) && (ev.Clock? || ev.TickBegin? || ev.TickEnd?)
    ensures Inv(Step(cfg, s, ev))
  {
    assert forall id :: Explained(s, id) ==> Explained(Step(cfg, s, ev), id);
  }

  lemma {:induction false} RunInv(cfg: Config, evs: seq<Event>)
    ensures Inv(After(cfg, START, evs))
  {
    if evs != [] {
      RunInv(cfg, evs[..|evs| - 1]);
      StepInv(cfg, After(cfg, START, evs[..|evs| - 1]), evs[|evs| - 1]);
    }
  }
}
