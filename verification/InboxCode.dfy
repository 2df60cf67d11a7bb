/** The inbox, the receive handler and the drain driver as code, each call proved to be a stretch of a protocol run. */
module InboxCode {
  import opened Common
  import opened InboxProtocol

  function UndrainedOf(order: seq<Id>, at: map<Id, InEntry>): seq<Id> {
    if order == [] then []
    else
      var id := order[|order| - 1];
      UndrainedOf(order[..|order| - 1], at) + if id in at && !at[id].processed then [id] else []
  }

  /** What a drain tick finds in the store, in the order it finds it. */
  function Undrained(entries: JsMap<Id, InEntry>): seq<Id> {
    UndrainedOf(entries.order, entries.at)
  }

  lemma {:induction false} UndrainedOfRight(order: seq<Id>, at: map<Id, InEntry>)
    requires NoDup(order)
    ensures NoDup(UndrainedOf(order, at))
    ensures forall id :: id in UndrainedOf(order, at) <==> id in order && id in at && !at[id].processed
  {
    if order != [] {
      var pre, id := order[..|order| - 1], order[|order| - 1];
      UndrainedOfRight(pre, at);
      assert forall id2 :: id2 in order <==> id2 in pre || id2 == id;
      assert id !in pre;
    }
  }

  /** The listing keeps the order of the store: it is the listing of any first part and then of the rest. */
  lemma {:induction false} UndrainedConcat(a: seq<Id>, b: seq<Id>, at: map<Id, InEntry>)
    ensures UndrainedOf(a + b, at) == UndrainedOf(a, at) + UndrainedOf(b, at)
  {
    if b == [] {
      assert a + b == a;
    } else {
      UndrainedConcat(a, b[..|b| - 1], at);
      assert (a + b)[..|a + b| - 1] == a + b[..|b| - 1];
    }
  }

  lemma UndrainedLists(entries: JsMap<Id, InEntry>)
    requires entries.Valid()
    ensures ListsUndrained(Undrained(entries), entries.at)
  {
    UndrainedOfRight(entries.order, entries.at);
    assert forall i :: 0 <= i < |Undrained(entries)| ==> Undrained(entries)[i] in Undrained(entries);
  }

  class InboxStore {
    var entries: JsMap<Id, InEntry>

    constructor ()
      ensures entries == Empty()
    {
      entries := Empty();
    }

    /** Atomic deduplicate-and-persist: a known id keeps its entry. */
    method Persist(id: Id, entry: InEntry) returns (wasNew: bool)
      requires entries.Valid()
      modifies this
      ensures entries.Valid() && wasNew == (id !in old(entries.at))
      ensures entries.at == if wasNew then old(entries.at)[id := entry] else old(entries.at)
      ensures entries.order == if wasNew then old(entries.order) + [id] else old(entries.order)
    {
      wasNew := id !in entries.at;
      if wasNew {
        entries := Put(entries, id, entry);
      }
    }

    /** The unprocessed ids in insertion order. */
    method ListUndrained() returns (ids: seq<Id>)
      requires entries.Valid()
      ensures ids == Undrained(entries) && ListsUndrained(ids, entries.at)
    {
      ids := [];
      for i := 0 to |entries.order|
        invariant ids == UndrainedOf(entries.order[..i], entries.at)
      {
        var id := entries.order[i];
        assert entries.order[..i + 1] == entries.order[..i] + [id];
        if id in entries.at && !entries.at[id].processed {
          ids := ids + [id];
        }
      }
      assert entries.order[..|entries.order|] == entries.order;
      UndrainedLists(entries);
    }

    method MarkProcessed(id: Id)
      requires entries.Valid()
      modifies this
      ensures entries.Valid()
      ensures entries.at == if id !in old(entries.at) then old(entries.at)
                            else old(entries.at)[id := old(entries.at)[id].(processed := true)]
      ensures entries.order == old(entries.order)
    {
      if id in entries.at {
        entries := Put(entries, id, entries.at[id].(processed := true));
      }
    }
  }

  datatype Verdict = Exhausted | Expired | Young | Refire

  /** What a drain tick at `t` decides for an undrained entry with `tries` failed re-fires. */
  function Judge(cfg: Config, t: int, e: InEntry, tries: nat): Verdict {
    if tries >= cfg.maxAttempts then Exhausted
    else if t - e.receivedAt > cfg.ttl then Expired
    else if t - e.receivedAt < cfg.grace then Young
    else Refire
  }

  function Lookup(m: map<Id, nat>, id: Id): Option<nat> {
    if id in m then Some(m[id]) else None
  }

  function TriesOf(m: map<Id, nat>, id: Id): nat {
    if id in m then m[id] else 0
  }

  /** The entry after a tick in which `onNotify` answers `ok` for it. */
  function Fired(cfg: Config, t: int, e: InEntry, tries: nat, ok: bool): InEntry {
    if !e.processed && Judge(cfg, t, e, tries) == Refire && ok then e.(processed := true) else e
  }

  /** Its attempt counter after that tick. */
  function Counted(cfg: Config, t: int, e: InEntry, before: Option<nat>, ok: bool): Option<nat> {
    var tries := if before.Some? then before.value else 0;
    if e.processed then before
    else
      match Judge(cfg, t, e, tries)
      case Expired => Some(cfg.maxAttempts)
      case Refire => if ok then None else Some(tries + 1)
      case _ => before
  }

  function InboxAfter(cfg: Config, t: int, notify: Id -> bool, inbox: map<Id, InEntry>,
                      attempts: map<Id, nat>): map<Id, InEntry>
  {
    map id | id in inbox :: Fired(cfg, t, inbox[id], TriesOf(attempts, id), notify(id))
  }

  function AttemptsAfter(cfg: Config, t: int, notify: Id -> bool, inbox: map<Id, InEntry>,
                         attempts: map<Id, nat>): map<Id, nat>
  {
    map id | id in attempts.Keys + inbox.Keys && NewCount(cfg, t, notify, inbox, attempts, id).Some?
      :: NewCount(cfg, t, notify, inbox, attempts, id).value
  }

  function NewCount(cfg: Config, t: int, notify: Id -> bool, inbox: map<Id, InEntry>, attempts: map<Id, nat>,
                    id: Id): Option<nat>
  {
    if id in inbox then Counted(cfg, t, inbox[id], Lookup(attempts, id), notify(id)) else Lookup(attempts, id)
  }

  /** The two maps after the ids of `done` had their turn. */
  ghost predicate HalfDrained(cfg: Config, t: int, notify: Id -> bool, done: seq<Id>,
                              inbox0: map<Id, InEntry>, attempts0: map<Id, nat>, inbox: map<Id, InEntry>,
                              attempts: map<Id, nat>)
  {
    && inbox.Keys == inbox0.Keys
    && (forall id :: id in inbox0 && id in done ==>
          inbox[id] == Fired(cfg, t, inbox0[id], TriesOf(attempts0, id), notify(id)))
    && (forall id :: id in inbox0 && id !in done ==> inbox[id] == inbox0[id])
    && (forall id :: Lookup(attempts, id) ==
                     if id in done then NewCount(cfg, t, notify, inbox0, attempts0, id) else Lookup(attempts0, id))
  }

  function SetCount(attempts: map<Id, nat>, id: Id, c: Option<nat>): map<Id, nat> {
    if c.Some? then attempts[id := c.value] else attempts - {id}
  }

  lemma HalfDrainedTurn(cfg: Config, t: int, notify: Id -> bool, done: seq<Id>, id: Id,
                        inbox0: map<Id, InEntry>, attempts0: map<Id, nat>, inbox: map<Id, InEntry>,
                        attempts: map<Id, nat>)
    requires HalfDrained(cfg, t, notify, done, inbox0, attempts0, inbox, attempts)
    requires id in inbox0 && id !in done
    ensures HalfDrained(cfg, t, notify, done + [id], inbox0, attempts0,
                        inbox[id := Fired(cfg, t, inbox[id], TriesOf(attempts, id), notify(id))],
                        SetCount(attempts, id, NewCount(cfg, t, notify, inbox, attempts, id)))
  {
    assert Lookup(attempts, id) == Lookup(attempts0, id);
    assert TriesOf(attempts, id) == TriesOf(attempts0, id);
    forall id2
      ensures id2 in done + [id] <==> id2 in done || id2 == id
    {
    }
  }

  lemma HalfDrainedAll(cfg: Config, t: int, notify: Id -> bool, listing: seq<Id>,
                       inbox0: map<Id, InEntry>, attempts0: map<Id, nat>, inbox: map<Id, InEntry>,
                       attempts: map<Id, nat>)
    requires HalfDrained(cfg, t, notify, listing, inbox0, attempts0, inbox, attempts)
    requires ListsUndrained(listing, inbox0)
    ensures inbox == InboxAfter(cfg, t, notify, inbox0, attempts0)
    ensures attempts == AttemptsAfter(cfg, t, notify, inbox0, attempts0)
  {
    var all := AttemptsAfter(cfg, t, notify, inbox0, attempts0);
    forall id
      ensures Lookup(attempts, id) == Lookup(all, id)
    {
      assert id in listing ==> id in inbox0;
      assert id in inbox0 && id !in listing ==> inbox0[id].processed;
      assert Lookup(all, id) == NewCount(cfg, t, notify, inbox0, attempts0, id);
    }
    assert forall id :: id in attempts <==> Lookup(attempts, id).Some?;
    assert forall id :: id in all <==> Lookup(all, id).Some?;
    assert forall id :: id in attempts ==> attempts[id] == Lookup(attempts, id).value;
    assert forall id :: id in all ==> all[id] == Lookup(all, id).value;
  }

  // ---------------------------------------------------------------------------------------------
  // What a tick does to one entry, in plain terms
  // ---------------------------------------------------------------------------------------------

  /** Fewer than the allowed re-fires of the id have failed. */
  ghost predicate Tryable(cfg: Config, id: Id, attempts: map<Id, nat>) {
    cfg.maxAttempts > 0 && (id in attempts ==> attempts[id] < cfg.maxAttempts)
  }

  /** A tick at `t` calls `onNotify` for an undrained entry: tries left, out of the grace window, not expired. */
  ghost predicate Due(cfg: Config, t: int, id: Id, e: InEntry, attempts: map<Id, nat>) {
    Tryable(cfg, id, attempts) && cfg.grace <= t - e.receivedAt <= cfg.ttl
  }

  ghost predicate SameCount(id: Id, before: map<Id, nat>, after: map<Id, nat>) {
    (id in after <==> id in before) && (id in after ==> after[id] == before[id])
  }

  /**
   * An entry that is due is marked processed and its counter dropped if `onNotify` returns, and is counted one
   * more failure if it throws; one that expired with tries left has them used up; any other stays as it was.
   */
  ghost predicate TickRight(cfg: Config, t: int, ok: bool, id: Id, inbox0: map<Id, InEntry>, attempts0: map<Id, nat>,
                            inbox: map<Id, InEntry>, attempts: map<Id, nat>)
    requires id in inbox0 && id in inbox
  {
    var e := inbox0[id];
    if !e.processed && Due(cfg, t, id, e, attempts0) then
      if ok then inbox[id] == e.(processed := true) && id !in attempts
      else inbox[id] == e && id in attempts && attempts[id] == 1 + if id in attempts0 then attempts0[id] else 0
    else if !e.processed && Tryable(cfg, id, attempts0) && t - e.receivedAt > cfg.ttl then
      inbox[id] == e && id in attempts && attempts[id] == cfg.maxAttempts
    else inbox[id] == e && SameCount(id, attempts0, attempts)
  }

  lemma EntryTicks(cfg: Config, t: int, notify: Id -> bool, inbox: map<Id, InEntry>, attempts: map<Id, nat>, id: Id)
    requires id in inbox
    ensures TickRight(cfg, t, notify(id), id, inbox, attempts, InboxAfter(cfg, t, notify, inbox, attempts),
                      AttemptsAfter(cfg, t, notify, inbox, attempts))
  {
  }

  // ---------------------------------------------------------------------------------------------
  // The same tick as a run of the protocol
  // ---------------------------------------------------------------------------------------------

  ghost predicate Rest(s: Receiver) {
    s.tick.None? && (forall h :: h in s.handlers ==> s.handlers[h].Replied?)
  }

  lemma Two(cfg: Config, s: Receiver, a: Event, b: Event)
    ensures After(cfg, s, [a]) == Step(cfg, s, a)
    ensures After(cfg, s, [a, b]) == Step(cfg, Step(cfg, s, a), b)
  {
    AfterAppend(cfg, s, [], a);
    assert [] + [a] == [a];
    AfterAppend(cfg, s, [a], b);
    assert [a] + [b] == [a, b];
  }

  lemma Three(cfg: Config, s: Receiver, a: Event, b: Event, c: Event)
    ensures After(cfg, s, [a, b, c]) == Step(cfg, Step(cfg, Step(cfg, s, a), b), c)
  {
    Two(cfg, s, a, b);
    AfterAppend(cfg, s, [a, b], c);
    assert [a, b] + [c] == [a, b, c];
  }

  /** The tick stands before `id`, whose turn it is. */
  ghost predicate AtTurn(s: Receiver, t: int, id: Id, rest: seq<Id>) {
    s.tick == Some(Tick(t, [id] + rest, Between)) && id in s.inbox && !s.inbox[id].processed
  }

  ghost predicate TurnDone(cfg: Config, notify: Id -> bool, s: Receiver, t: int, id: Id, rest: seq<Id>, s': Receiver)
    requires id in s.inbox
  {
    && s'.tick == Some(Tick(t, rest, Between))
    && s'.inbox == s.inbox[id := Fired(cfg, t, s.inbox[id], TriesOf(s.attempts, id), notify(id))]
    && s'.attempts == SetCount(s.attempts, id, NewCount(cfg, t, notify, s.inbox, s.attempts, id))
    && s'.handlers == s.handlers && s'.now == s.now
  }

  lemma TurnSkips(cfg: Config, notify: Id -> bool, s: Receiver, t: int, id: Id, rest: seq<Id>)
    requires AtTurn(s, t, id, rest) && Judge(cfg, t, s.inbox[id], Tries(s, id)) != Refire
    ensures TurnDone(cfg, notify, s, t, id, rest, Step(cfg, s, TickVisit))
  {
    assert ([id] + rest)[1..] == rest;
    assert s.inbox[id := s.inbox[id]] == s.inbox;
  }

  lemma TurnFires(cfg: Config, s: Receiver, t: int, id: Id, rest: seq<Id>) returns (s1: Receiver)
    requires AtTurn(s, t, id, rest) && Judge(cfg, t, s.inbox[id], Tries(s, id)) == Refire
    ensures s1 == Step(cfg, s, TickVisit)
    ensures s1 == s.(tick := Some(Tick(t, rest, Calling(id, Tries(s, id)))), log := s.log + multiset{Called(id, Drain)})
  {
    assert ([id] + rest)[1..] == rest;
    s1 := Step(cfg, s, TickVisit);
  }

  lemma TurnReturns(cfg: Config, notify: Id -> bool, s: Receiver, t: int, id: Id, rest: seq<Id>)
    requires AtTurn(s, t, id, rest) && Judge(cfg, t, s.inbox[id], Tries(s, id)) == Refire && notify(id)
    ensures TurnDone(cfg, notify, s, t, id, rest,
                     Step(cfg, Step(cfg, Step(cfg, s, TickVisit), TickNotifyEnds(true)), TickMark))
  {
    var s1 := TurnFires(cfg, s, t, id, rest);
    var s2 := Step(cfg, s1, TickNotifyEnds(true));
    assert s2.tick == Some(Tick(t, rest, Draining(id))) && s2.inbox == s.inbox && s2.attempts == s.attempts;
  }

  lemma TurnThrows(cfg: Config, notify: Id -> bool, s: Receiver, t: int, id: Id, rest: seq<Id>)
    requires AtTurn(s, t, id, rest) && Judge(cfg, t, s.inbox[id], Tries(s, id)) == Refire && !notify(id)
    ensures TurnDone(cfg, notify, s, t, id, rest, Step(cfg, Step(cfg, s, TickVisit), TickNotifyEnds(false)))
  {
    var s1 := TurnFires(cfg, s, t, id, rest);
    assert s.inbox[id := s.inbox[id]] == s.inbox;
  }

  /** The events of one entry's turn. */
  function TurnEvents(cfg: Config, t: int, e: InEntry, tries: nat, ok: bool): seq<Event> {
    if Judge(cfg, t, e, tries) != Refire then [TickVisit]
    else if ok then [TickVisit, TickNotifyEnds(true), TickMark]
    else [TickVisit, TickNotifyEnds(false)]
  }

  lemma Turn(cfg: Config, notify: Id -> bool, s: Receiver, t: int, id: Id, rest: seq<Id>)
    requires AtTurn(s, t, id, rest)
    ensures TurnDone(cfg, notify, s, t, id, rest,
                     After(cfg, s, TurnEvents(cfg, t, s.inbox[id], Tries(s, id), notify(id))))
  {
    if Judge(cfg, t, s.inbox[id], Tries(s, id)) != Refire {
      Two(cfg, s, TickVisit, TickVisit);
      TurnSkips(cfg, notify, s, t, id, rest);
    } else if notify(id) {
      Three(cfg, s, TickVisit, TickNotifyEnds(true), TickMark);
      TurnReturns(cfg, notify, s, t, id, rest);
    } else {
      Two(cfg, s, TickVisit, TickNotifyEnds(false));
      TurnThrows(cfg, notify, s, t, id, rest);
    }
  }

  /** The events of the turns of some entries, one after another. */
  function TurnsEvents(cfg: Config, t: int, notify: Id -> bool, inbox: map<Id, InEntry>, attempts: map<Id, nat>,
                       ids: seq<Id>): seq<Event>
  {
    if ids == [] then []
    else
      var id := ids[|ids| - 1];
      TurnsEvents(cfg, t, notify, inbox, attempts, ids[..|ids| - 1])
      + if id in inbox then TurnEvents(cfg, t, inbox[id], TriesOf(attempts, id), notify(id)) else []
  }

  /** The events of a whole drain tick over the listing of `ids`. */
  function DrainEvents(cfg: Config, t: int, notify: Id -> bool, inbox: map<Id, InEntry>, attempts: map<Id, nat>,
                       ids: seq<Id>): seq<Event>
  {
    [Clock(t), TickBegin(ids)] + TurnsEvents(cfg, t, notify, inbox, attempts, ids) + [TickEnd]
  }

  lemma DrainNext(cfg: Config, t: int, notify: Id -> bool, s: Receiver, listing: seq<Id>, i: nat, s1: Receiver)
    returns (s': Receiver)
    requires ListsUndrained(listing, s.inbox) && i < |listing|
    requires s1.tick == Some(Tick(t, listing[i..], Between)) && s1.handlers == s.handlers && s1.now == t
    requires HalfDrained(cfg, t, notify, listing[..i], s.inbox, s.attempts, s1.inbox, s1.attempts)
    ensures var id := listing[i];
            s' == After(cfg, s1, TurnEvents(cfg, t, s.inbox[id], TriesOf(s.attempts, id), notify(id)))
    ensures s'.tick == Some(Tick(t, listing[i + 1..], Between)) && s'.handlers == s.handlers && s'.now == t
    ensures HalfDrained(cfg, t, notify, listing[..i + 1], s.inbox, s.attempts, s'.inbox, s'.attempts)
  {
    var id := listing[i];
    assert id !in listing[..i];
    assert listing[i..] == [id] + listing[i + 1..] && listing[..i] + [id] == listing[..i + 1];
    assert Lookup(s1.attempts, id) == Lookup(s.attempts, id);
    Turn(cfg, notify, s1, t, id, listing[i + 1..]);
    s' := After(cfg, s1, TurnEvents(cfg, t, s1.inbox[id], Tries(s1, id), notify(id)));
    HalfDrainedTurn(cfg, t, notify, listing[..i], id, s.inbox, s.attempts, s1.inbox, s1.attempts);
  }

  lemma TurnsNext(cfg: Config, t: int, notify: Id -> bool, inbox: map<Id, InEntry>, attempts: map<Id, nat>,
                  ids: seq<Id>, i: nat)
    requires i < |ids| && ids[i] in inbox
    ensures TurnsEvents(cfg, t, notify, inbox, attempts, ids[..i + 1])
            == TurnsEvents(cfg, t, notify, inbox, attempts, ids[..i])
               + TurnEvents(cfg, t, inbox[ids[i]], TriesOf(attempts, ids[i]), notify(ids[i]))
  {
    assert ids[..i + 1][..i] == ids[..i];
  }

  lemma AfterTurns(cfg: Config, t: int, notify: Id -> bool, s0: Receiver, inbox: map<Id, InEntry>,
                   attempts: map<Id, nat>, ids: seq<Id>, i: nat)
    requires i < |ids| && ids[i] in inbox
    ensures After(cfg, s0, TurnsEvents(cfg, t, notify, inbox, attempts, ids[..i + 1]))
         == After(cfg, After(cfg, s0, TurnsEvents(cfg, t, notify, inbox, attempts, ids[..i])),
                  TurnEvents(cfg, t, inbox[ids[i]], TriesOf(attempts, ids[i]), notify(ids[i])))
  {
    TurnsNext(cfg, t, notify, inbox, attempts, ids, i);
    AfterConcat(cfg, s0, TurnsEvents(cfg, t, notify, inbox, attempts, ids[..i]),
                TurnEvents(cfg, t, inbox[ids[i]], TriesOf(attempts, ids[i]), notify(ids[i])));
  }

  /** The turns of the first `i` ids of a drain tick, run from the state in which the tick has begun. */
  lemma {:induction false} DrainMidway(cfg: Config, t: int, notify: Id -> bool, s: Receiver, s0: Receiver,
                                       listing: seq<Id>, i: nat)
    returns (s': Receiver)
    requires ListsUndrained(listing, s.inbox) && i <= |listing|
    requires s0 == s.(now := t, tick := Some(Tick(t, listing, Between)))
    ensures s' == After(cfg, s0, TurnsEvents(cfg, t, notify, s.inbox, s.attempts, listing[..i]))
    ensures s'.tick == Some(Tick(t, listing[i..], Between)) && s'.handlers == s.handlers && s'.now == t
    ensures HalfDrained(cfg, t, notify, listing[..i], s.inbox, s.attempts, s'.inbox, s'.attempts)
  {
    if i == 0 {
      s' := s0;
    } else {
      var s1 := DrainMidway(cfg, t, notify, s, s0, listing, i - 1);
      s' := DrainNext(cfg, t, notify, s, listing, i - 1, s1);
      AfterTurns(cfg, t, notify, s0, s.inbox, s.attempts, listing, i - 1);
    }
  }

  lemma Chain(cfg: Config, s: Receiver, a: seq<Event>, b: seq<Event>, ev: Event)
    ensures After(cfg, s, a + b + [ev]) == Step(cfg, After(cfg, After(cfg, s, a), b), ev)
  {
    AfterConcat(cfg, s, a, b);
    AfterAppend(cfg, s, a + b, ev);
  }

  /** The end of a tick, once every id of its listing had its turn. */
  lemma DrainEnds(cfg: Config, t: int, notify: Id -> bool, s: Receiver, listing: seq<Id>, s1: Receiver)
    returns (s': Receiver)
    requires Rest(s) && ListsUndrained(listing, s.inbox)
    requires s1.tick == Some(Tick(t, [], Between)) && s1.handlers == s.handlers
    requires HalfDrained(cfg, t, notify, listing, s.inbox, s.attempts, s1.inbox, s1.attempts)
    ensures s' == Step(cfg, s1, TickEnd) && Rest(s') && s'.handlers == s.handlers
    ensures s'.inbox == InboxAfter(cfg, t, notify, s.inbox, s.attempts)
    ensures s'.attempts == AttemptsAfter(cfg, t, notify, s.inbox, s.attempts)
  {
    HalfDrainedAll(cfg, t, notify, listing, s.inbox, s.attempts, s1.inbox, s1.attempts);
    s' := Step(cfg, s1, TickEnd);
  }

  lemma DrainBegins(cfg: Config, t: int, s: Receiver, listing: seq<Id>)
    requires s.tick.None? && ListsUndrained(listing, s.inbox)
    ensures After(cfg, s, [Clock(t), TickBegin(listing)]) == s.(now := t, tick := Some(Tick(t, listing, Between)))
  {
    Two(cfg, s, Clock(t), TickBegin(listing));
  }

  lemma DrainRun(cfg: Config, t: int, notify: Id -> bool, s: Receiver, listing: seq<Id>) returns (s': Receiver)
    requires Rest(s) && ListsUndrained(listing, s.inbox)
    ensures s' == After(cfg, s, DrainEvents(cfg, t, notify, s.inbox, s.attempts, listing))
    ensures Rest(s') && s'.handlers == s.handlers
    ensures s'.inbox == InboxAfter(cfg, t, notify, s.inbox, s.attempts)
    ensures s'.attempts == AttemptsAfter(cfg, t, notify, s.inbox, s.attempts)
  {
    var begun := s.(now := t, tick := Some(Tick(t, listing, Between)));
    DrainBegins(cfg, t, s, listing);
    var s1 := DrainMidway(cfg, t, notify, s, begun, listing, |listing|);
    assert listing[..|listing|] == listing && listing[|listing|..] == [];
    Chain(cfg, s, [Clock(t), TickBegin(listing)], TurnsEvents(cfg, t, notify, s.inbox, s.attempts, listing), TickEnd);
    s' := DrainEnds(cfg, t, notify, s, listing, s1);
  }

  // ---------------------------------------------------------------------------------------------
  // What the counters of a tick count
  // ---------------------------------------------------------------------------------------------

  /** Counters of one drain tick. */
  datatype Summary = Summary(attempted: nat, drained: nat, failed: nat, gaveUp: nat)

  function Tally(cfg: Config, t: int, e: InEntry, tries: nat, ok: bool, sum: Summary): Summary {
    match Judge(cfg, t, e, tries)
    case Young => sum
    case Refire =>
      if ok then sum.(attempted := sum.attempted + 1, drained := sum.drained + 1)
      else
        sum.(attempted := sum.attempted + 1, failed := sum.failed + 1,
        gaveUp := sum.gaveUp + if tries + 1 >= cfg.maxAttempts then 1 else 0)
    case _ => sum.(gaveUp := sum.gaveUp + 1)
  }

  predicate Refires(cfg: Config, t: int, inbox: map<Id, InEntry>, attempts: map<Id, nat>, id: Id) {
    id in inbox && Judge(cfg, t, inbox[id], TriesOf(attempts, id)) == Refire
  }

  /** The turn of `id` gives it up, or finds it given up. */
  predicate Spends(cfg: Config, t: int, notify: Id -> bool, inbox: map<Id, InEntry>, attempts: map<Id, nat>, id: Id) {
    && id in inbox
    && var tries := TriesOf(attempts, id);
       match Judge(cfg, t, inbox[id], tries)
       case Young => false
       case Refire => !notify(id) && tries + 1 >= cfg.maxAttempts
       case _ => true
  }

  function RefiredAmong(cfg: Config, t: int, inbox: map<Id, InEntry>, attempts: map<Id, nat>, ids: seq<Id>): set<Id> {
    set id | id in ids && Refires(cfg, t, inbox, attempts, id)
  }

  function DrainedAmong(cfg: Config, t: int, notify: Id -> bool, inbox: map<Id, InEntry>, attempts: map<Id, nat>,
                        ids: seq<Id>): set<Id>
  {
    set id | id in ids && Refires(cfg, t, inbox, attempts, id) && notify(id)
  }

  function SpentAmong(cfg: Config, t: int, notify: Id -> bool, inbox: map<Id, InEntry>, attempts: map<Id, nat>,
                      ids: seq<Id>): set<Id>
  {
    set id | id in ids && Spends(cfg, t, notify, inbox, attempts, id)
  }

  lemma SizeNext(before: set<Id>, after: set<Id>, id: Id, joins: bool)
    requires id !in before && after == if joins then before + {id} else before
    ensures |after| == |before| + if joins then 1 else 0
  {
  }

  lemma RefiredNext(cfg: Config, t: int, inbox: map<Id, InEntry>, attempts: map<Id, nat>, done: seq<Id>, id: Id)
    requires id !in done
    ensures |RefiredAmong(cfg, t, inbox, attempts, done + [id])|
         == |RefiredAmong(cfg, t, inbox, attempts, done)| + if Refires(cfg, t, inbox, attempts, id) then 1 else 0
  {
    var before := RefiredAmong(cfg, t, inbox, attempts, done);
    var after := RefiredAmong(cfg, t, inbox, attempts, done + [id]);
    var joins := Refires(cfg, t, inbox, attempts, id);
    assert forall x :: x in done + [id] <==> x in done || x == id;
    assert after == if joins then before + {id} else before;
    SizeNext(before, after, id, joins);
  }

  lemma DrainedNext(cfg: Config, t: int, notify: Id -> bool, inbox: map<Id, InEntry>, attempts: map<Id, nat>,
                    done: seq<Id>, id: Id)
    requires id !in done
    ensures |DrainedAmong(cfg, t, notify, inbox, attempts, done + [id])|
         == |DrainedAmong(cfg, t, notify, inbox, attempts, done)|
            + if Refires(cfg, t, inbox, attempts, id) && notify(id) then 1 else 0
  {
    var before := DrainedAmong(cfg, t, notify, inbox, attempts, done);
    var after := DrainedAmong(cfg, t, notify, inbox, attempts, done + [id]);
    var joins := Refires(cfg, t, inbox, attempts, id) && notify(id);
    assert forall x :: x in done + [id] <==> x in done || x == id;
    assert after == if joins then before + {id} else before;
    SizeNext(before, after, id, joins);
  }

  lemma SpentNext(cfg: Config, t: int, notify: Id -> bool, inbox: map<Id, InEntry>, attempts: map<Id, nat>,
                  done: seq<Id>, id: Id)
    requires id !in done
    ensures |SpentAmong(cfg, t, notify, inbox, attempts, done + [id])|
         == |SpentAmong(cfg, t, notify, inbox, attempts, done)|
            + if Spends(cfg, t, notify, inbox, attempts, id) then 1 else 0
  {
    var before := SpentAmong(cfg, t, notify, inbox, attempts, done);
    var after := SpentAmong(cfg, t, notify, inbox, attempts, done + [id]);
    var joins := Spends(cfg, t, notify, inbox, attempts, id);
    assert forall x :: x in done + [id] <==> x in done || x == id;
    assert after == if joins then before + {id} else before;
    SizeNext(before, after, id, joins);
  }

  /** The counters after the turns of `done`. */
  ghost predicate Counts(cfg: Config, t: int, notify: Id -> bool, done: seq<Id>, inbox: map<Id, InEntry>,
                         attempts: map<Id, nat>, sum: Summary)
  {
    && sum.attempted == sum.drained + sum.failed
    && sum.attempted == |RefiredAmong(cfg, t, inbox, attempts, done)|
    && sum.drained == |DrainedAmong(cfg, t, notify, inbox, attempts, done)|
    && sum.gaveUp == |SpentAmong(cfg, t, notify, inbox, attempts, done)|
  }

  lemma CountsNext(cfg: Config, t: int, notify: Id -> bool, done: seq<Id>, id: Id, inbox: map<Id, InEntry>,
                   attempts: map<Id, nat>, sum: Summary)
    requires Counts(cfg, t, notify, done, inbox, attempts, sum) && id in inbox && id !in done
    ensures Counts(cfg, t, notify, done + [id], inbox, attempts,
                   Tally(cfg, t, inbox[id], TriesOf(attempts, id), notify(id), sum))
  {
    RefiredNext(cfg, t, inbox, attempts, done, id);
    DrainedNext(cfg, t, notify, inbox, attempts, done, id);
    SpentNext(cfg, t, notify, inbox, attempts, done, id);
  }

  /** The undrained entries whose `onNotify` a tick at `t` calls. */
  ghost function Refired(cfg: Config, t: int, inbox: map<Id, InEntry>, attempts: map<Id, nat>): set<Id> {
    set id | id in inbox && !inbox[id].processed && Due(cfg, t, id, inbox[id], attempts)
  }

  /** The entries that became processed. */
  ghost function NewlyDrained(before: map<Id, InEntry>, after: map<Id, InEntry>): set<Id> {
    set id | id in before && id in after && !before[id].processed && after[id].processed
  }

  /** The undrained entries whose attempts are used up. */
  ghost function Spent(cfg: Config, inbox: map<Id, InEntry>, attempts: map<Id, nat>): set<Id> {
    set id | id in inbox && !inbox[id].processed && !Tryable(cfg, id, attempts)
  }

  /**
   * What a tick's counters say of the store and the attempts it found and those it leaves: it called
   * `onNotify` for so many entries, drained so many, and leaves so many with their attempts used up.
   */
  ghost predicate CountersRight(cfg: Config, t: int, inbox0: map<Id, InEntry>, attempts0: map<Id, nat>,
                                inbox: map<Id, InEntry>, attempts: map<Id, nat>, sum: Summary)
  {
    && sum.attempted == sum.drained + sum.failed
    && sum.attempted == |Refired(cfg, t, inbox0, attempts0)|
    && sum.drained == |NewlyDrained(inbox0, inbox)|
    && sum.gaveUp == |Spent(cfg, inbox, attempts)|
  }

  lemma CountsAll(cfg: Config, t: int, notify: Id -> bool, listing: seq<Id>, inbox: map<Id, InEntry>,
                  attempts: map<Id, nat>, sum: Summary)
    requires Counts(cfg, t, notify, listing, inbox, attempts, sum) && ListsUndrained(listing, inbox)
    ensures CountersRight(cfg, t, inbox, attempts, InboxAfter(cfg, t, notify, inbox, attempts),
                          AttemptsAfter(cfg, t, notify, inbox, attempts), sum)
  {
    forall id
      ensures id in listing <==> id in inbox && !inbox[id].processed
    {
    }
    assert RefiredAmong(cfg, t, inbox, attempts, listing) == Refired(cfg, t, inbox, attempts);
    DrainedAre(cfg, t, notify, listing, inbox, attempts);
    SpentAre(cfg, t, notify, listing, inbox, attempts);
  }

  lemma DrainedAre(cfg: Config, t: int, notify: Id -> bool, listing: seq<Id>, inbox: map<Id, InEntry>,
                   attempts: map<Id, nat>)
    requires forall id :: id in listing <==> id in inbox && !inbox[id].processed
    ensures DrainedAmong(cfg, t, notify, inbox, attempts, listing)
            == NewlyDrained(inbox, InboxAfter(cfg, t, notify, inbox, attempts))
  {
  }

  lemma SpentAre(cfg: Config, t: int, notify: Id -> bool, listing: seq<Id>, inbox: map<Id, InEntry>,
                 attempts: map<Id, nat>)
    requires forall id :: id in listing <==> id in inbox && !inbox[id].processed
    ensures SpentAmong(cfg, t, notify, inbox, attempts, listing)
            == Spent(cfg, InboxAfter(cfg, t, notify, inbox, attempts), AttemptsAfter(cfg, t, notify, inbox, attempts))
  {
    var inbox' := InboxAfter(cfg, t, notify, inbox, attempts);
    var attempts' := AttemptsAfter(cfg, t, notify, inbox, attempts);
    forall id | id in inbox && !inbox[id].processed
      ensures Spends(cfg, t, notify, inbox, attempts, id)
              <==> !inbox'[id].processed && TriesOf(attempts', id) >= cfg.maxAttempts
    {
      assert Lookup(attempts', id) == Counted(cfg, t, inbox[id], Lookup(attempts, id), notify(id));
    }
  }

  /** After the first `i` turns of a tick: the maps and the counters. */
  ghost predicate Midway(cfg: Config, t: int, notify: Id -> bool, listing: seq<Id>, i: nat, inbox0: map<Id, InEntry>,
                         attempts0: map<Id, nat>, inbox: map<Id, InEntry>, attempts: map<Id, nat>, sum: Summary)
    requires i <= |listing|
  {
    && HalfDrained(cfg, t, notify, listing[..i], inbox0, attempts0, inbox, attempts)
    && Counts(cfg, t, notify, listing[..i], inbox0, attempts0, sum)
  }

  lemma MidwayStarts(cfg: Config, t: int, notify: Id -> bool, listing: seq<Id>, inbox: map<Id, InEntry>,
                     attempts: map<Id, nat>)
    ensures Midway(cfg, t, notify, listing, 0, inbox, attempts, inbox, attempts, Summary(0, 0, 0, 0))
  {
    assert listing[..0] == [];
  }

  /** One turn of the drain loop keeps the maps and the counters right. */
  lemma MidwayTurn(cfg: Config, t: int, notify: Id -> bool, listing: seq<Id>, i: nat, inbox0: map<Id, InEntry>,
                   attempts0: map<Id, nat>, inbox: map<Id, InEntry>, attempts: map<Id, nat>, sum: Summary)
    requires ListsUndrained(listing, inbox0) && i < |listing|
    requires Midway(cfg, t, notify, listing, i, inbox0, attempts0, inbox, attempts, sum)
    ensures listing[i] in inbox && !inbox[listing[i]].processed
    ensures var id := listing[i];
            Midway(cfg, t, notify, listing, i + 1, inbox0, attempts0,
                   inbox[id := Fired(cfg, t, inbox[id], TriesOf(attempts, id), notify(id))],
                   SetCount(attempts, id, NewCount(cfg, t, notify, inbox, attempts, id)),
                   Tally(cfg, t, inbox[id], TriesOf(attempts, id), notify(id), sum))
  {
    var id := listing[i];
    assert listing[..i + 1] == listing[..i] + [id] && id !in listing[..i];
    assert Lookup(attempts, id) == Lookup(attempts0, id);
    HalfDrainedTurn(cfg, t, notify, listing[..i], id, inbox0, attempts0, inbox, attempts);
    CountsNext(cfg, t, notify, listing[..i], id, inbox0, attempts0, sum);
  }

  lemma MidwayEnds(cfg: Config, t: int, notify: Id -> bool, listing: seq<Id>, inbox0: map<Id, InEntry>,
                   attempts0: map<Id, nat>, inbox: map<Id, InEntry>, attempts: map<Id, nat>, sum: Summary)
    requires ListsUndrained(listing, inbox0)
    requires Midway(cfg, t, notify, listing, |listing|, inbox0, attempts0, inbox, attempts, sum)
    ensures inbox == InboxAfter(cfg, t, notify, inbox0, attempts0)
    ensures attempts == AttemptsAfter(cfg, t, notify, inbox0, attempts0)
    ensures CountersRight(cfg, t, inbox0, attempts0, inbox, attempts, sum)
  {
    assert listing[..|listing|] == listing;
    HalfDrainedAll(cfg, t, notify, listing, inbox0, attempts0, inbox, attempts);
    CountsAll(cfg, t, notify, listing, inbox0, attempts0, sum);
  }

  // ---------------------------------------------------------------------------------------------
  // The receiving process
  // ---------------------------------------------------------------------------------------------

  /** The request numbers used so far. */
  ghost predicate NumbersBelow(handlers: map<nat, Handler>, bound: nat) {
    forall h :: h in handlers ==> h < bound
  }

  /** An answer to a request: the HTTP status, and whether the body reports an error. */
  datatype Answer = Answer(status: nat, error: bool)

  /** Whether the sender's client takes the answer for an ack: on A2A the body must be a result, too. */
  predicate ReadAsAck(wire: Wire, a: Answer) {
    a.status == 200 && (wire == A2A ==> !a.error)
  }

  /** The answer of each wire: a refusal is a 500 on the legacy wire and a JSON-RPC error, under 200, on A2A. */
  function AnswerOf(wire: Wire, accepted: bool): (a: Answer)
    ensures ReadAsAck(wire, a) <==> accepted
    ensures a.status == 200 || a.status == 500
    ensures (a.status == 500 <==> wire == Legacy && !accepted) && (a.error <==> !accepted)
  {
    if accepted then Answer(200, false)
    else if wire == Legacy then Answer(500, true)
    else Answer(200, true)
  }

  /** The events of one request; a throwing `onNotify` leaves nothing to mark. */
  function HandleEvents(h: nat, id: Id, payload: Received, now: int, fires: bool, ok: bool): seq<Event> {
    [Clock(now), Arrive(h, id, payload)] + if fires then [NotifyEnds(h, ok), Mark(h)] else []
  }

  /** A throwing `onNotify` leaves nothing to mark: the `Mark` event then changes nothing. */
  lemma HandlerFires(cfg: Config, s: Receiver, h: nat, id: Id, ok: bool)
    requires h in s.handlers && s.handlers[h] == Firing(id) && id in s.inbox
    ensures var s' := Step(cfg, Step(cfg, s, NotifyEnds(h, ok)), Mark(h));
            && s'.handlers == s.handlers[h := Replied(id, ok)] && s'.tick == s.tick && s'.attempts == s.attempts
            && s'.inbox == if ok then s.inbox[id := s.inbox[id].(processed := true)] else s.inbox
  {
  }

  lemma HandleKnown(cfg: Config, s: Receiver, h: nat, id: Id, payload: Received, now: int, ok: bool)
    returns (s': Receiver)
    requires Rest(s) && NumbersBelow(s.handlers, h) && id in s.inbox
    ensures s' == After(cfg, s, HandleEvents(h, id, payload, now, false, ok))
    ensures Rest(s') && s'.attempts == s.attempts && NumbersBelow(s'.handlers, h + 1) && s'.inbox == s.inbox
  {
    var begin := [Clock(now), Arrive(h, id, payload)];
    Two(cfg, s, Clock(now), Arrive(h, id, payload));
    assert begin + [] == begin;
    s' := Step(cfg, Step(cfg, s, Clock(now)), Arrive(h, id, payload));
  }

  /** The steps of a request for a new id. */
  lemma HandleSteps(cfg: Config, s: Receiver, h: nat, id: Id, payload: Received, now: int, ok: bool)
    returns (s1: Receiver, s': Receiver)
    requires Rest(s) && NumbersBelow(s.handlers, h) && id !in s.inbox
    ensures s1 == Step(cfg, Step(cfg, s, Clock(now)), Arrive(h, id, payload))
    ensures s' == Step(cfg, Step(cfg, s1, NotifyEnds(h, ok)), Mark(h))
    ensures Rest(s') && s'.attempts == s.attempts && NumbersBelow(s'.handlers, h + 1)
    ensures s'.inbox == s.inbox[id := InEntry(payload, now, ok)]
  {
    s1 := Step(cfg, Step(cfg, s, Clock(now)), Arrive(h, id, payload));
    HandlerFires(cfg, s1, h, id, ok);
    s' := Step(cfg, Step(cfg, s1, NotifyEnds(h, ok)), Mark(h));
  }

  lemma HandleNew(cfg: Config, s: Receiver, h: nat, id: Id, payload: Received, now: int, ok: bool)
    returns (s': Receiver)
    requires Rest(s) && NumbersBelow(s.handlers, h) && id !in s.inbox
    ensures s' == After(cfg, s, HandleEvents(h, id, payload, now, true, ok))
    ensures Rest(s') && s'.attempts == s.attempts && NumbersBelow(s'.handlers, h + 1)
    ensures s'.inbox == s.inbox[id := InEntry(payload, now, ok)]
  {
    var s1;
    s1, s' := HandleSteps(cfg, s, h, id, payload, now, ok);
    Two(cfg, s, Clock(now), Arrive(h, id, payload));
    Two(cfg, s1, NotifyEnds(h, ok), Mark(h));
    AfterConcat(cfg, s, [Clock(now), Arrive(h, id, payload)], [NotifyEnds(h, ok), Mark(h)]);
  }

  class Receiving {
    const store: InboxStore
    const cfg: Config
    /** The drain's per-id counters; process-local, never part of the store. */
    var attempts: map<Id, nat>
    ghost var history: seq<Event>
    ghost var model: Receiver
    ghost var handled: nat

    ghost predicate Valid()
      reads this, store
    {
      && store.entries.Valid()
      && model == After(cfg, START, history)
      && Rest(model)
      && NumbersBelow(model.handlers, handled)
      && store.entries.at == model.inbox
      && attempts == model.attempts
    }

    constructor (cfg: Config)
      ensures Valid() && fresh(store) && this.cfg == cfg && history == [] && store.entries.at == map[]
    {
      this.cfg := cfg;
      store := new InboxStore();
      attempts, history, model, handled := map[], [], START, 0;
    }

    ghost method Record(evs: seq<Event>, s: Receiver)
      requires s == After(cfg, model, evs) && model == After(cfg, START, history)
      modifies `history, `model
      ensures history == old(history) + evs && model == s && model == After(cfg, START, history)
    {
      AfterConcat(cfg, START, history, evs);
      history, model := history + evs, s;
    }

    /** Records the events of a request. */
    ghost method RecordRequest(id: Id, payload: Received, now: int, ok: bool)
      requires model == After(cfg, START, history) && Rest(model) && NumbersBelow(model.handlers, handled)
      modifies `history, `model, `handled
      ensures model == After(cfg, START, history) && Rest(model) && NumbersBelow(model.handlers, handled)
      ensures history == old(history) + HandleEvents(old(handled), id, payload, now, id !in old(model).inbox, ok)
      ensures model.attempts == old(model).attempts
      ensures model.inbox
           == if id in old(model).inbox then old(model).inbox else old(model).inbox[id := InEntry(payload, now, ok)]
    {
      ghost var s;
      if id in model.inbox {
        s := HandleKnown(cfg, model, handled, id, payload, now, ok);
      } else {
        s := HandleNew(cfg, model, handled, id, payload, now, ok);
      }
      Record(HandleEvents(handled, id, payload, now, id !in model.inbox, ok), s);
      handled := handled + 1;
    }

    /**
     * The receive path of both wire formats: persist, fire `onNotify` for a new id, mark, answer. `ok` says
     * whether `onNotify` returns or throws if it is fired. A throw is answered 500 on the legacy wire and with
     * a JSON-RPC error, under status 200, on A2A; either way the sender's client takes it for a refusal.
     */
    method HandleMessage(id: Id, payload: Received, now: int, ok: bool) returns (answer: Answer, fired: bool)
      requires Valid()
      modifies this, store
      ensures Valid() && attempts == old(attempts)
      ensures history == old(history) + HandleEvents(old(handled), id, payload, now, fired, ok)
      ensures fired == (id !in old(store.entries.at))
      ensures answer == AnswerOf(payload.wire, !fired || ok) && (ReadAsAck(payload.wire, answer) <==> !fired || ok)
      ensures store.entries.at
           == if fired then old(store.entries.at)[id := InEntry(payload, now, ok)] else old(store.entries.at)
      ensures id in store.entries.at
    {
      fired := store.Persist(id, InEntry(payload, now, false));
      if fired && ok {
        store.MarkProcessed(id);
      }
      answer := AnswerOf(payload.wire, !fired || ok);
      RecordRequest(id, payload, now, ok);
    }

    /** One turn of the drain loop. */
    method DrainEntry(t: int, notify: Id -> bool, id: Id, sum0: Summary) returns (sum: Summary)
      requires store.entries.Valid() && id in store.entries.at && !store.entries.at[id].processed
      modifies store, `attempts
      ensures store.entries.Valid()
      ensures var e := old(store.entries.at[id]);
              store.entries.at == old(store.entries.at)[id := Fired(cfg, t, e, TriesOf(old(attempts), id), notify(id))]
      ensures attempts
           == SetCount(old(attempts), id, NewCount(cfg, t, notify, old(store.entries.at), old(attempts), id))
      ensures sum == Tally(cfg, t, old(store.entries.at[id]), TriesOf(old(attempts), id), notify(id), sum0)
    {
      sum := sum0;
      var entry := store.entries.at[id];
      var prior := if id in attempts then attempts[id] else 0;
      if prior >= cfg.maxAttempts {
        sum := sum.(gaveUp := sum.gaveUp + 1);
        return;
      }
      var age := t - entry.receivedAt;
      if age > cfg.ttl {
        attempts := attempts[id := cfg.maxAttempts];
        sum := sum.(gaveUp := sum.gaveUp + 1);
        return;
      }
      if age < cfg.grace {
        return;
      }
      sum := sum.(attempted := sum.attempted + 1);
      if notify(id) {
        store.MarkProcessed(id);
        attempts := attempts - {id};
        sum := sum.(drained := sum.drained + 1);
      } else {
        sum := sum.(failed := sum.failed + 1);
        attempts := attempts[id := prior + 1];
        if prior + 1 >= cfg.maxAttempts {
          sum := sum.(gaveUp := sum.gaveUp + 1);
        }
      }
    }

    /** The drain loop. */
    method DriveListing(t: int, notify: Id -> bool, undrained: seq<Id>) returns (sum: Summary)
      requires store.entries.Valid() && ListsUndrained(undrained, store.entries.at)
      modifies store, `attempts
      ensures store.entries.Valid()
      ensures Midway(cfg, t, notify, undrained, |undrained|, old(store.entries.at), old(attempts), store.entries.at,
                     attempts, sum)
    {
      ghost var inbox0, attempts0 := store.entries.at, attempts;
      sum := Summary(0, 0, 0, 0);
      MidwayStarts(cfg, t, notify, undrained, inbox0, attempts0);
      for i := 0 to |undrained|
        invariant store.entries.Valid()
        invariant Midway(cfg, t, notify, undrained, i, inbox0, attempts0, store.entries.at, attempts, sum)
      {
        MidwayTurn(cfg, t, notify, undrained, i, inbox0, attempts0, store.entries.at, attempts, sum);
        sum := DrainEntry(t, notify, undrained[i], sum);
      }
    }

    /**
     * One drain tick: what it leaves of every entry and every attempt counter, how many entries it called
     * `onNotify` for, how many it drained, and how many it leaves with their attempts used up.
     */
    method DriveInboxOnce(t: int, notify: Id -> bool) returns (sum: Summary)
      requires Valid()
      modifies this, store
      ensures Valid()
      ensures history == old(history)
                         + DrainEvents(cfg, t, notify, old(store.entries.at), old(attempts),
                                       Undrained(old(store.entries)))
      ensures store.entries.at == InboxAfter(cfg, t, notify, old(store.entries.at), old(attempts))
      ensures attempts == AttemptsAfter(cfg, t, notify, old(store.entries.at), old(attempts))
      ensures store.entries.at.Keys == old(store.entries.at).Keys
      ensures forall id :: id in old(store.entries.at) ==>
                TickRight(cfg, t, notify(id), id, old(store.entries.at), old(attempts), store.entries.at, attempts)
      ensures CountersRight(cfg, t, old(store.entries.at), old(attempts), store.entries.at, attempts, sum)
    {
      ghost var inbox0, attempts0, before, bound := store.entries.at, attempts, model, handled;
      var undrained := store.ListUndrained();
      sum := DriveListing(t, notify, undrained);
      MidwayEnds(cfg, t, notify, undrained, inbox0, attempts0, store.entries.at, attempts, sum);
      forall id | id in inbox0
        ensures TickRight(cfg, t, notify(id), id, inbox0, attempts0, store.entries.at, attempts)
      {
        EntryTicks(cfg, t, notify, inbox0, attempts0, id);
      }
      ghost var s := DrainRun(cfg, t, notify, before, undrained);
      assert model == before && handled == bound && NumbersBelow(s.handlers, bound);
      Record(DrainEvents(cfg, t, notify, inbox0, attempts0, undrained), s);
    }
  }
}
