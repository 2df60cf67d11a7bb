/** The outbox and its in-memory store as code, each call proved to be a stretch of a protocol run. */
module OutboxCode {
  import opened Common
  import opened OutboxProtocol
  import opened OutboxSequential

  /** What the injected transport answers: a result, or a rejected promise. */
  datatype SendReply = Replied(ack: bool) | Rejected

  /** What is still listed is listed in the order it was. */
  ghost predicate OrderKept(before: seq<Id>, after: seq<Id>) {
    forall i, j :: 0 <= i < j < |after| ==> Precedes(before, after[i], after[j])
  }

  ghost predicate Precedes(order: seq<Id>, a: Id, b: Id) {
    exists i, j :: 0 <= i < j < |order| && order[i] == a && order[j] == b
  }

  lemma {:induction false} OrderWithout(order: seq<Id>, id: Id)
    ensures OrderKept(order, Without(order, id))
  {
    if order != [] {
      var rest := Without(order[1..], id);
      OrderWithout(order[1..], id);
      forall a, b | Precedes(order[1..], a, b)
        ensures Precedes(order, a, b)
      {
        var i, j :| 0 <= i < j < |order[1..]| && order[1..][i] == a && order[1..][j] == b;
        assert order[i + 1] == a && order[j + 1] == b;
      }
      forall k | 0 <= k < |rest|
        ensures Precedes(order, order[0], rest[k])
      {
        assert rest[k] in order[1..];
        var j :| 0 <= j < |order[1..]| && order[1..][j] == rest[k];
        assert order[0] == order[0] && order[j + 1] == rest[k];
      }
    }
  }

  /**
   * What a tick at `t` must leave of an entry in the store `at`: an entry not due yet stays as it is, one
   * past its time-to-live or acked is gone, and any other comes back with one more failure on its count,
   * due after the backoff, which for a first failure is the base or the cap, whichever is smaller.
   */
  ghost predicate TickRight(cfg: Config, t: int, reply: Id -> SendReply, e: Entry, at: map<Id, Entry>) {
    if e.nextAttemptAt > t then e.id in at && at[e.id] == e
    else if t - e.enqueuedAt > cfg.ttl || reply(e.id) == Replied(true) then e.id !in at
    else
      && e.id in at
      && at[e.id] == e.(nextAttemptAt := t + Backoff(cfg, e.attemptCount), attemptCount := e.attemptCount + 1)
      && (e.attemptCount == 0 ==> at[e.id].nextAttemptAt == t + if cfg.base < cfg.cap then cfg.base else cfg.cap)
  }

  class OutboxStore {
    var entries: JsMap<Id, Entry>

    constructor ()
      ensures entries == Empty()
    {
      entries := Empty();
    }

    /** The entry is stored and, if its id is new, listed after all others; no other entry changes. */
    method Enqueue(entry: Entry)
      requires entries.Valid()
      modifies this
      ensures entries.Valid() && entries.at == old(entries.at)[entry.id := entry]
      ensures entry.id !in old(entries.at) ==> Values(entries) == Values(old(entries)) + [entry]
      ensures entries.order == old(entries.order) + if entry.id in old(entries.at) then [] else [entry.id]
    {
      entries := Put(entries, entry.id, entry);
    }

    method ListPending() returns (listing: seq<Entry>)
      requires entries.Valid()
      ensures listing == Values(entries)
    {
      listing := Values(entries);
    }

    method Reschedule(id: Id, nextAttemptAt: int, attemptCount: nat)
      requires entries.Valid()
      modifies this
      ensures entries.Valid() && entries.order == old(entries.order)
      ensures entries.at == if id !in old(entries.at) then old(entries.at)
                            else var e := old(entries.at)[id];
                                 old(entries.at)[id := e.(nextAttemptAt := nextAttemptAt, attemptCount := attemptCount)]
    {
      if id in entries.at {
        entries := Put(entries, id, entries.at[id].(nextAttemptAt := nextAttemptAt, attemptCount := attemptCount));
      }
    }

    /** The id is gone, from the map and from the listing; the others keep their entries and their order. */
    method MarkAcked(id: Id)
      requires entries.Valid()
      modifies this
      ensures entries.Valid() && entries.at == old(entries.at) - {id}
      ensures OrderKept(old(entries.order), entries.order)
    {
      OrderWithout(entries.order, id);
      entries := Drop(entries, id);
    }

    /** As for an ack: the store does not tell the two ends apart. */
    method DeadLetter(id: Id)
      requires entries.Valid()
      modifies this
      ensures entries.Valid() && entries.at == old(entries.at) - {id}
      ensures OrderKept(old(entries.order), entries.order)
    {
      OrderWithout(entries.order, id);
      entries := Drop(entries, id);
    }
  }

  predicate Due(e: Entry, t: int) {
    e.nextAttemptAt <= t
  }

  predicate Expired(cfg: Config, e: Entry, t: int) {
    Due(e, t) && t - e.enqueuedAt > cfg.ttl
  }

  predicate Attempted(cfg: Config, e: Entry, t: int) {
    Due(e, t) && t - e.enqueuedAt <= cfg.ttl
  }

  /** What a drive at time `t` leaves of one entry. */
  function Outcome(cfg: Config, t: int, reply: Id -> SendReply, e: Entry): Option<Entry> {
    if !Due(e, t) then Some(e)
    else if Expired(cfg, e, t) || reply(e.id) == Replied(true) then None
    else Some(e.(nextAttemptAt := t + Backoff(cfg, e.attemptCount), attemptCount := e.attemptCount + 1))
  }

  /** What a drive at time `t` leaves of the store. */
  function Driven(cfg: Config, t: int, reply: Id -> SendReply, m: map<Id, Entry>): map<Id, Entry> {
    map id | id in m && Outcome(cfg, t, reply, m[id]).Some? :: Outcome(cfg, t, reply, m[id]).value
  }

  /** A tick leaves of every entry what it must, and adds none. */
  lemma DrivenRight(cfg: Config, t: int, reply: Id -> SendReply, m: map<Id, Entry>)
    requires forall id :: id in m ==> m[id].id == id
    ensures Driven(cfg, t, reply, m).Keys <= m.Keys
    ensures forall id :: id in m ==> TickRight(cfg, t, reply, m[id], Driven(cfg, t, reply, m))
  {
    forall id | id in m
      ensures TickRight(cfg, t, reply, m[id], Driven(cfg, t, reply, m))
    {
      BackoffDoubles(cfg, m[id].attemptCount);
    }
  }

  /** How a drive disposes of one entry for good, if it does. */
  function EndOf(cfg: Config, t: int, reply: Id -> SendReply, e: Entry): seq<Terminal> {
    if !Due(e, t) then []
    else if Expired(cfg, e, t) then [DeadLettered(e.id)]
    else if reply(e.id) == Replied(true) then [Terminal.Acked(e.id)]
    else []
  }

  function Ends(cfg: Config, t: int, reply: Id -> SendReply, es: seq<Entry>): seq<Terminal> {
    if es == [] then [] else Ends(cfg, t, reply, es[..|es| - 1]) + EndOf(cfg, t, reply, es[|es| - 1])
  }

  lemma ListingLists(m: JsMap<Id, Entry>)
    requires m.Valid() && forall id :: id in m.at ==> m.at[id].id == id
    ensures Lists(Values(m), m.at)
  {
    var v := Values(m);
    forall id | id in m.at
      ensures m.at[id] in v
    {
      var i :| 0 <= i < |m.order| && m.order[i] == id;
      assert v[i] == m.at[id];
    }
  }

  function IsAck(r: SendReply): bool {
    r.Replied? && r.ack
  }

  /** The counters after one entry. */
  function Count(cfg: Config, t: int, reply: Id -> SendReply, sum: Summary, e: Entry): Summary {
    if !Due(e, t) then sum
    else if Expired(cfg, e, t) then sum.(deadLettered := sum.deadLettered + 1)
    else if IsAck(reply(e.id)) then sum.(attempted := sum.attempted + 1, acked := sum.acked + 1)
    else sum.(attempted := sum.attempted + 1, failed := sum.failed + 1)
  }

  /** The protocol events of one turn of the drive loop. */
  ghost function TurnEvents(cfg: Config, t: int, reply: Id -> SendReply, e: Entry): seq<Event> {
    if Attempted(cfg, e, t) then [Visit(0), Settle(0, IsAck(reply(e.id)))] else [Visit(0)]
  }

  ghost function Left(at: map<Id, Entry>, id: Id, o: Option<Entry>): map<Id, Entry> {
    if o.None? then at - {id} else at[id := o.value]
  }

  ghost function TurnStep(cfg: Config, s: Sender, t: int, reply: Id -> SendReply, e: Entry): Sender {
    var s1 := Step(cfg, s, Visit(0));
    if Attempted(cfg, e, t) then Step(cfg, s1, Settle(0, IsAck(reply(e.id)))) else s1
  }

  lemma TurnIsRun(cfg: Config, s: Sender, t: int, reply: Id -> SendReply, e: Entry)
    ensures After(cfg, s, TurnEvents(cfg, t, reply, e)) == TurnStep(cfg, s, t, reply, e)
  {
    AfterAppend(cfg, s, [], Visit(0));
    assert [] + [Visit(0)] == [Visit(0)];
    if Attempted(cfg, e, t) {
      var settle := Settle(0, IsAck(reply(e.id)));
      AfterAppend(cfg, s, [Visit(0)], settle);
      assert [Visit(0)] + [settle] == [Visit(0), settle];
    }
  }

  lemma TurnEffect(cfg: Config, s: Sender, t: int, reply: Id -> SendReply, e: Entry, dr: Drive)
    requires s.drives == map[0 := dr] && dr.t == t && dr.sending.None? && dr.todo != [] && dr.todo[0] == e
    requires e.id in s.pending && s.pending[e.id] == e
    ensures var s' := TurnStep(cfg, s, t, reply, e);
            && s'.pending == Left(s.pending, e.id, Outcome(cfg, t, reply, e))
            && s'.drives == map[0 := Drive(t, dr.todo[1..], None, Count(cfg, t, reply, dr.sum, e))]
            && s'.born == s.born && s'.ended == s.ended + EndOf(cfg, t, reply, e)
  {
    var s1 := Step(cfg, s, Visit(0));
    if Attempted(cfg, e, t) {
      assert s1.drives == map[0 := Drive(t, dr.todo[1..], Some(Request(|s.sent|, e)),
                                         dr.sum.(attempted := dr.sum.attempted + 1))];
      assert s1.pending == s.pending;
    } else {
      assert s1.drives == map[0 := Drive(t, dr.todo[1..], None, Count(cfg, t, reply, dr.sum, e))];
      assert s1.ended == s.ended + EndOf(cfg, t, reply, e);
    }
  }

  lemma SequentialConcat(cfg: Config, a: seq<Event>, b: seq<Event>)
    requires Sequential(cfg, a) && forall ev :: ev in b ==> !ev.Begin?
    ensures Sequential(cfg, a + b)
  {
    if b == [] {
      assert a + b == a;
    } else {
      SequentialConcat(cfg, a, b[..|b| - 1]);
      assert (a + b)[..|a + b| - 1] == a + b[..|b| - 1];
      assert (a + b)[|a + b| - 1] == b[|b| - 1];
      assert b[|b| - 1] in b;
    }
  }

  /** The events of the turns for the entries `es`. */
  ghost function Turns(cfg: Config, t: int, reply: Id -> SendReply, es: seq<Entry>): seq<Event> {
    if es == [] then [] else Turns(cfg, t, reply, es[..|es| - 1]) + TurnEvents(cfg, t, reply, es[|es| - 1])
  }

  lemma TurnsOnly(cfg: Config, t: int, reply: Id -> SendReply, es: seq<Entry>)
    ensures forall ev :: ev in Turns(cfg, t, reply, es) ==> !ev.Begin?
  {
  }

  ghost function Counts(cfg: Config, t: int, reply: Id -> SendReply, es: seq<Entry>): Summary {
    if es == [] then Summary(0, 0, 0, 0)
    else Count(cfg, t, reply, Counts(cfg, t, reply, es[..|es| - 1]), es[|es| - 1])
  }

  /** The store after the first `i` turns of a drive over `listing`, which was the store `start`. */
  ghost predicate HalfDriven(cfg: Config, t: int, reply: Id -> SendReply, listing: seq<Entry>, i: nat,
                             start: map<Id, Entry>, at: map<Id, Entry>)
    requires i <= |listing|
  {
    && at.Keys <= start.Keys
    && (forall j :: 0 <= j < i ==> Disposed(cfg, t, reply, listing[j], at))
    && (forall j :: i <= j < |listing| ==> listing[j].id in at && at[listing[j].id] == listing[j])
  }

  lemma HalfDrivenTurn(cfg: Config, t: int, reply: Id -> SendReply, listing: seq<Entry>, i: nat,
                       start: map<Id, Entry>, at: map<Id, Entry>)
    requires i < |listing| && HalfDriven(cfg, t, reply, listing, i, start, at)
    requires forall j, k :: 0 <= j < k < |listing| ==> listing[j].id != listing[k].id
    ensures HalfDriven(cfg, t, reply, listing, i + 1, start,
                       Left(at, listing[i].id, Outcome(cfg, t, reply, listing[i])))
  {
    var at' := Left(at, listing[i].id, Outcome(cfg, t, reply, listing[i]));
    forall j | 0 <= j <= i
      ensures Disposed(cfg, t, reply, listing[j], at')
    {
      if j < i {
        assert Disposed(cfg, t, reply, listing[j], at);
      }
    }
  }

  /** Store, counters and escalations after the first `i` turns of a drive over `listing`. */
  ghost predicate Driving(cfg: Config, t: int, reply: Id -> SendReply, listing: seq<Entry>, i: nat,
                          start: map<Id, Entry>, at: map<Id, Entry>, sum: Summary, escalated: seq<Entry>)
    requires i <= |listing|
  {
    && HalfDriven(cfg, t, reply, listing, i, start, at)
    && (forall j, k :: 0 <= j < k < |listing| ==> listing[j].id != listing[k].id)
    && sum == Counts(cfg, t, reply, listing[..i]) && escalated == Escalations(cfg, t, listing[..i])
  }

  lemma DrivingStarts(cfg: Config, t: int, reply: Id -> SendReply, listing: seq<Entry>, start: map<Id, Entry>)
    requires Lists(listing, start)
    ensures Driving(cfg, t, reply, listing, 0, start, start, Summary(0, 0, 0, 0), [])
  {
    assert forall j :: 0 <= j < |listing| ==> listing[j] in listing;
  }

  lemma DrivingTurn(cfg: Config, t: int, reply: Id -> SendReply, listing: seq<Entry>, i: nat,
                    start: map<Id, Entry>, at: map<Id, Entry>, sum: Summary, escalated: seq<Entry>)
    requires i < |listing| && Driving(cfg, t, reply, listing, i, start, at, sum, escalated)
    ensures var e := listing[i];
            && e.id in at && at[e.id] == e
            && Driving(cfg, t, reply, listing, i + 1, start, Left(at, e.id, Outcome(cfg, t, reply, e)),
                       Count(cfg, t, reply, sum, e), escalated + if Expired(cfg, e, t) then [e] else [])
  {
    assert listing[..i + 1][..i] == listing[..i];
    HalfDrivenTurn(cfg, t, reply, listing, i, start, at);
  }

  lemma DrivingEnds(cfg: Config, t: int, reply: Id -> SendReply, listing: seq<Entry>,
                    start: map<Id, Entry>, at: map<Id, Entry>, sum: Summary, escalated: seq<Entry>)
    requires Driving(cfg, t, reply, listing, |listing|, start, at, sum, escalated)
    requires Lists(listing, start) && forall id :: id in start ==> start[id].id == id
    ensures at == Driven(cfg, t, reply, start)
    ensures sum == Counts(cfg, t, reply, listing) && escalated == Escalations(cfg, t, listing)
  {
    assert listing[..|listing|] == listing;
    DisposedAll(cfg, t, reply, listing, start, at);
  }

  /** The state `s'` after the first `i` turns of a drive over `listing` that began in `s`. */
  ghost predicate Midway(cfg: Config, t: int, reply: Id -> SendReply, listing: seq<Entry>, i: nat, s: Sender,
                         s': Sender)
    requires i <= |listing|
  {
    && s'.drives == map[0 := Drive(t, listing[i..], None, Counts(cfg, t, reply, listing[..i]))]
    && HalfDriven(cfg, t, reply, listing, i, s.pending, s'.pending)
    && s'.born == s.born && s'.ended == s.ended + Ends(cfg, t, reply, listing[..i])
  }

  lemma MidwayTurn(cfg: Config, t: int, reply: Id -> SendReply, listing: seq<Entry>, i: nat, s: Sender, s': Sender)
    requires i < |listing| && Midway(cfg, t, reply, listing, i, s, s')
    requires forall j, k :: 0 <= j < k < |listing| ==> listing[j].id != listing[k].id
    ensures Midway(cfg, t, reply, listing, i + 1, s, TurnStep(cfg, s', t, reply, listing[i]))
  {
    assert listing[..i + 1][..i] == listing[..i] && listing[i..][1..] == listing[i + 1..];
    TurnEffect(cfg, s', t, reply, listing[i], s'.drives[0]);
    HalfDrivenTurn(cfg, t, reply, listing, i, s.pending, s'.pending);
  }

  lemma DriveBegins(cfg: Config, s: Sender, t: int, reply: Id -> SendReply, listing: seq<Entry>)
    requires s.drives == map[] && Lists(listing, s.pending)
    ensures Midway(cfg, t, reply, listing, 0, s, Step(cfg, s, Begin(0, t, listing)))
  {
    assert listing[0..] == listing && listing[..0] == [];
    assert forall j :: 0 <= j < |listing| ==> listing[j] in listing;
  }

  lemma BeginIsRun(cfg: Config, s: Sender, t: int, reply: Id -> SendReply, listing: seq<Entry>)
    ensures After(cfg, s, [Begin(0, t, listing)] + Turns(cfg, t, reply, listing[..0]))
            == Step(cfg, s, Begin(0, t, listing))
  {
    var begin := [Begin(0, t, listing)];
    AfterAppend(cfg, s, [], Begin(0, t, listing));
    assert [] + begin == begin && begin + Turns(cfg, t, reply, listing[..0]) == begin;
  }

  /** The state after the first `i` turns of a drive begun in `s`. */
  ghost function DrivenTo(cfg: Config, s: Sender, t: int, reply: Id -> SendReply, listing: seq<Entry>, i: nat): Sender
    requires i <= |listing|
  {
    if i == 0 then Step(cfg, s, Begin(0, t, listing))
    else TurnStep(cfg, DrivenTo(cfg, s, t, reply, listing, i - 1), t, reply, listing[i - 1])
  }

  lemma {:induction false} DriveMidway(cfg: Config, s: Sender, t: int, reply: Id -> SendReply, listing: seq<Entry>,
                                       i: nat)
    requires s.drives == map[] && Lists(listing, s.pending) && i <= |listing|
    ensures Midway(cfg, t, reply, listing, i, s, DrivenTo(cfg, s, t, reply, listing, i))
  {
    if i == 0 {
      DriveBegins(cfg, s, t, reply, listing);
    } else {
      DriveMidway(cfg, s, t, reply, listing, i - 1);
      MidwayTurn(cfg, t, reply, listing, i - 1, s, DrivenTo(cfg, s, t, reply, listing, i - 1));
    }
  }

  lemma {:induction false} DriveIsRun(cfg: Config, s: Sender, t: int, reply: Id -> SendReply, listing: seq<Entry>,
                                      i: nat)
    requires i <= |listing|
    ensures After(cfg, s, [Begin(0, t, listing)] + Turns(cfg, t, reply, listing[..i]))
            == DrivenTo(cfg, s, t, reply, listing, i)
  {
    if i == 0 {
      BeginIsRun(cfg, s, t, reply, listing);
    } else {
      DriveIsRun(cfg, s, t, reply, listing, i - 1);
      TurnsAppend(cfg, s, DrivenTo(cfg, s, t, reply, listing, i - 1), t, reply, listing, i - 1);
    }
  }

  /** One more turn from the state `x` that the drive has come to. */
  lemma TurnsAppend(cfg: Config, s: Sender, x: Sender, t: int, reply: Id -> SendReply, listing: seq<Entry>, i: nat)
    requires i < |listing| && x == After(cfg, s, [Begin(0, t, listing)] + Turns(cfg, t, reply, listing[..i]))
    ensures After(cfg, s, [Begin(0, t, listing)] + Turns(cfg, t, reply, listing[..i + 1]))
            == TurnStep(cfg, x, t, reply, listing[i])
  {
    var before := [Begin(0, t, listing)] + Turns(cfg, t, reply, listing[..i]);
    var turn := TurnEvents(cfg, t, reply, listing[i]);
    assert listing[..i + 1][..i] == listing[..i];
    assert [Begin(0, t, listing)] + Turns(cfg, t, reply, listing[..i + 1]) == before + turn;
    AfterConcat(cfg, s, before, turn);
    TurnIsRun(cfg, x, t, reply, listing[i]);
  }

  /** The expired entries of a listing, in its order. */
  function Escalations(cfg: Config, t: int, es: seq<Entry>): seq<Entry> {
    if es == [] then []
    else
      Escalations(cfg, t, es[..|es| - 1])
      + if Expired(cfg, es[|es| - 1], t) then [es[|es| - 1]] else []
  }

  /** How many of the entries are sent in a drive at `t` and answered with the ack or without. */
  ghost function SentWith(cfg: Config, t: int, reply: Id -> SendReply, es: seq<Entry>, ack: bool): nat {
    if es == [] then 0
    else
      var e := es[|es| - 1];
      var sent := e.nextAttemptAt <= t <= e.enqueuedAt + cfg.ttl;
      SentWith(cfg, t, reply, es[..|es| - 1], ack) + if sent && (reply(e.id) == Replied(true)) == ack then 1 else 0
  }

  /** The counters of a drive: every attempt acked or failed, one escalation per dead letter. */
  lemma {:induction false} CountsBalance(cfg: Config, t: int, reply: Id -> SendReply, es: seq<Entry>)
    ensures var sum := Counts(cfg, t, reply, es);
            && sum.attempted == sum.acked + sum.failed && sum.deadLettered == |Escalations(cfg, t, es)|
            && sum.acked == SentWith(cfg, t, reply, es, true) && sum.failed == SentWith(cfg, t, reply, es, false)
    ensures forall e :: e in Escalations(cfg, t, es) <==>
              e in es && e.nextAttemptAt <= t && t - e.enqueuedAt > cfg.ttl
  {
    if es != [] {
      CountsBalance(cfg, t, reply, es[..|es| - 1]);
      assert es == es[..|es| - 1] + [es[|es| - 1]];
    }
  }

  /** A whole drive as a run: what the loop of the code does, told by the protocol's events. */
  ghost function DriveEvents(cfg: Config, t: int, reply: Id -> SendReply, listing: seq<Entry>): seq<Event> {
    [Begin(0, t, listing)] + Turns(cfg, t, reply, listing) + [Finish(0)]
  }

  lemma DriveEnds(cfg: Config, s: Sender, s1: Sender, t: int, reply: Id -> SendReply, listing: seq<Entry>)
    requires Midway(cfg, t, reply, listing, |listing|, s, s1)
    requires Lists(listing, s.pending) && forall id :: id in s.pending ==> s.pending[id].id == id
    ensures var s' := Step(cfg, s1, Finish(0));
            && s'.pending == Driven(cfg, t, reply, s.pending)
            && s'.drives == map[] && s'.born == s.born && s'.ended == s.ended + Ends(cfg, t, reply, listing)
  {
    assert listing[..|listing|] == listing;
    DisposedAll(cfg, t, reply, listing, s.pending, s1.pending);
  }

  lemma DriveRun(cfg: Config, s: Sender, t: int, reply: Id -> SendReply, listing: seq<Entry>)
    requires s.drives == map[] && Lists(listing, s.pending) && forall id :: id in s.pending ==> s.pending[id].id == id
    ensures var s' := After(cfg, s, DriveEvents(cfg, t, reply, listing));
            && s'.pending == Driven(cfg, t, reply, s.pending)
            && s'.drives == map[] && s'.born == s.born && s'.ended == s.ended + Ends(cfg, t, reply, listing)
  {
    DriveMidway(cfg, s, t, reply, listing, |listing|);
    DriveEnds(cfg, s, DrivenTo(cfg, s, t, reply, listing, |listing|), t, reply, listing);
    DriveIsRun(cfg, s, t, reply, listing, |listing|);
    assert listing[..|listing|] == listing;
    AfterAppend(cfg, s, [Begin(0, t, listing)] + Turns(cfg, t, reply, listing), Finish(0));
  }

  lemma SequentialAppend(cfg: Config, past: seq<Event>, ev: Event)
    requires Sequential(cfg, past) && (ev.Begin? ==> After(cfg, START, past).drives == map[])
    ensures Sequential(cfg, past + [ev])
  {
    assert (past + [ev])[..|past|] == past;
  }

  lemma Regroup(past: seq<Event>, begin: Event, turns: seq<Event>, end: Event)
    ensures past + [begin] + (turns + [end]) == past + ([begin] + turns + [end])
  {
  }

  lemma SequentialDrive(cfg: Config, past: seq<Event>, t: int, reply: Id -> SendReply, listing: seq<Entry>)
    requires Sequential(cfg, past) && After(cfg, START, past).drives == map[]
    ensures Sequential(cfg, past + DriveEvents(cfg, t, reply, listing))
  {
    var begin, turns := Begin(0, t, listing), Turns(cfg, t, reply, listing);
    SequentialAppend(cfg, past, begin);
    TurnsOnly(cfg, t, reply, listing);
    SequentialConcat(cfg, past + [begin], turns + [Finish(0)]);
    Regroup(past, begin, turns, Finish(0));
  }

  class Outbox {
    const store: OutboxStore
    const cfg: Config
    /** The protocol run so far, and the state it led to. */
    ghost var history: seq<Event>
    ghost var model: Sender

    ghost predicate Valid()
      reads this, store
    {
      && store.entries.Valid()
      && Sequential(cfg, history)
      && model == After(cfg, START, history)
      && model.drives == map[]
      && store.entries.at == model.pending
    }

    /**
     * An outbox over a store that earlier instances may have used: a restarted sender resumes their run,
     * wherever in a drive the last of them died.
     */
    constructor (store: OutboxStore, cfg: Config, ghost past: seq<Event>)
      requires store.entries.Valid() && Sequential(cfg, past) && store.entries.at == After(cfg, START, past).pending
      ensures Valid() && this.store == store && this.cfg == cfg && history == past + [Restart]
    {
      AfterAppend(cfg, START, past, Restart);
      SequentialAppend(cfg, past, Restart);
      this.store, this.cfg, history, model := store, cfg, past + [Restart], Step(cfg, After(cfg, START, past), Restart);
    }

    /** Records `evs`, which lead to `s`. */
    ghost method Record(evs: seq<Event>, s: Sender)
      requires Sequential(cfg, history + evs) && s == After(cfg, START, history + evs)
      modifies `history, `model
      ensures history == old(history) + evs && model == s
    {
      history, model := history + evs, s;
    }

    /** Persist before any send; `id` is the freshly minted message id. */
    method Enqueue(id: Id, target: string, payload: string, now: int)
      requires Valid() && id !in model.born
      modifies this, store
      ensures Valid() && history == old(history) + [Event.Enqueue(id, target, payload, now)]
      ensures store.entries == Put(old(store.entries), id, Entry(id, target, payload, now, now, 0))
      ensures model.born == old(model.born)[id := Entry(id, target, payload, now, now, 0)]
    {
      store.Enqueue(Entry(id, target, payload, now, now, 0));
      ghost var ev := Event.Enqueue(id, target, payload, now);
      AfterAppend(cfg, START, history, ev);
      SequentialConcat(cfg, history, [ev]);
      Record([ev], Step(cfg, model, ev));
    }

    /** One turn of the drive loop. */
    method DriveEntry(t: int, reply: Id -> SendReply, entry: Entry, sum0: Summary, escalated0: seq<Entry>)
      returns (sum: Summary, escalated: seq<Entry>)
      requires store.entries.Valid() && entry.id in store.entries.at && store.entries.at[entry.id] == entry
      modifies store
      ensures store.entries.Valid()
      ensures store.entries.at == Left(old(store.entries.at), entry.id, Outcome(cfg, t, reply, entry))
      ensures TickRight(cfg, t, reply, entry, store.entries.at)
      ensures sum == Count(cfg, t, reply, sum0, entry)
      ensures escalated
           == escalated0 + if entry.nextAttemptAt <= t && t - entry.enqueuedAt > cfg.ttl then [entry] else []
    {
      sum, escalated := sum0, escalated0;
      BackoffDoubles(cfg, entry.attemptCount);
      if entry.nextAttemptAt > t {
        return;
      }
      if t - entry.enqueuedAt > cfg.ttl {
        store.DeadLetter(entry.id);
        sum := sum.(deadLettered := sum.deadLettered + 1);
        escalated := escalated + [entry];
        return;
      }
      sum := sum.(attempted := sum.attempted + 1);
      var answer := reply(entry.id);
      if answer.Replied? && answer.ack {
        store.MarkAcked(entry.id);
        sum := sum.(acked := sum.acked + 1);
      } else {
        sum := sum.(failed := sum.failed + 1);
        store.Reschedule(entry.id, t + Backoff(cfg, entry.attemptCount), entry.attemptCount + 1);
      }
    }

    /**
     * One retry tick: what it leaves of the store, what it ended in which order, and which entries it
     * handed to the dead-letter callback. The tick is a stretch of a sequential protocol run.
     */
    method DriveOnce(t: int, reply: Id -> SendReply) returns (sum: Summary, escalated: seq<Entry>)
      requires Valid()
      modifies this, store
      ensures Valid() && history == old(history) + DriveEvents(cfg, t, reply, Values(old(store.entries)))
      ensures store.entries.at == Driven(cfg, t, reply, old(store.entries.at))
      ensures store.entries.at.Keys <= old(store.entries.at).Keys
      ensures forall id :: id in old(store.entries.at) ==>
                TickRight(cfg, t, reply, old(store.entries.at)[id], store.entries.at)
      ensures model.born == old(model.born)
      ensures model.ended == old(model.ended) + Ends(cfg, t, reply, Values(old(store.entries)))
      ensures sum == Counts(cfg, t, reply, Values(old(store.entries)))
      ensures escalated == Escalations(cfg, t, Values(old(store.entries)))
    {
      ghost var entries0 := store.entries.at;
      DriveStart();
      var pending := store.ListPending();
      sum, escalated := DriveListing(t, reply, pending);
      RecordDrive(t, reply, pending);
      DrivenRight(cfg, t, reply, entries0);
    }

    /** The loop of `DriveOnce` over its snapshot. */
    method DriveListing(t: int, reply: Id -> SendReply, pending: seq<Entry>)
      returns (sum: Summary, escalated: seq<Entry>)
      requires store.entries.Valid() && Lists(pending, store.entries.at)
      requires forall id :: id in store.entries.at ==> store.entries.at[id].id == id
      modifies store
      ensures store.entries.Valid()
      ensures store.entries.at == Driven(cfg, t, reply, old(store.entries.at))
      ensures sum == Counts(cfg, t, reply, pending) && escalated == Escalations(cfg, t, pending)
    {
      ghost var start := store.entries.at;
      sum, escalated := Summary(0, 0, 0, 0), [];
      DrivingStarts(cfg, t, reply, pending, start);
      for i := 0 to |pending|
        invariant store.entries.Valid() && Driving(cfg, t, reply, pending, i, start, store.entries.at, sum, escalated)
      {
        DrivingTurn(cfg, t, reply, pending, i, start, store.entries.at, sum, escalated);
        sum, escalated := DriveEntry(t, reply, pending[i], sum, escalated);
      }
      DrivingEnds(cfg, t, reply, pending, start, store.entries.at, sum, escalated);
    }

    lemma DriveStart()
      requires Valid()
      ensures Lists(Values(store.entries), store.entries.at)
      ensures forall id :: id in store.entries.at ==> store.entries.at[id].id == id
    {
      RunSeq(cfg, history);
      ListingLists(store.entries);
    }

    ghost method RecordDrive(t: int, reply: Id -> SendReply, pending: seq<Entry>)
      requires Sequential(cfg, history) && model == After(cfg, START, history) && model.drives == map[]
      requires Lists(pending, model.pending) && forall id :: id in model.pending ==> model.pending[id].id == id
      modifies `history, `model
      ensures history == old(history) + DriveEvents(cfg, t, reply, pending)
      ensures Sequential(cfg, history) && model == After(cfg, START, history) && model.drives == map[]
      ensures model.pending == Driven(cfg, t, reply, old(model.pending))
      ensures model.born == old(model.born) && model.ended == old(model.ended) + Ends(cfg, t, reply, pending)
    {
      DriveRun(cfg, model, t, reply, pending);
      SequentialDrive(cfg, history, t, reply, pending);
      AfterConcat(cfg, START, history, DriveEvents(cfg, t, reply, pending));
      history := history + DriveEvents(cfg, t, reply, pending);
      model := After(cfg, START, history);
    }
  }

  /** The store holds of `e` what the drive leaves of it. */
  ghost predicate Disposed(cfg: Config, t: int, reply: Id -> SendReply, e: Entry, at: map<Id, Entry>) {
    var o := Outcome(cfg, t, reply, e);
    (e.id in at <==> o.Some?) && (o.Some? ==> at[e.id] == o.value)
  }

  lemma DisposedAll(cfg: Config, t: int, reply: Id -> SendReply, listing: seq<Entry>, start: map<Id, Entry>,
                    at: map<Id, Entry>)
    requires Lists(listing, start) && at.Keys <= start.Keys && forall id :: id in start ==> start[id].id == id
    requires forall j :: 0 <= j < |listing| ==> Disposed(cfg, t, reply, listing[j], at)
    ensures at == Driven(cfg, t, reply, start)
    ensures forall e :: e in listing <==> e.id in start && e == start[e.id]
  {
    forall id | id in start
      ensures start[id].id == id && Disposed(cfg, t, reply, start[id], at)
    {
      assert start[id] in listing;
    }
  }
}
