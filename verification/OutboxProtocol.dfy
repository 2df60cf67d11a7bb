/**
 * The sender half of effectively-once delivery as a step system: entries are persisted, sent, retried
 * with capped exponential backoff, and acked or dead-lettered. Drives work on snapshots of the store and
 * may overlap, because an ad-hoc dispatch drives the outbox while the periodic ticker may be mid-drive.
 * Every sequence of events is a run: an event that is not enabled leaves the state unchanged.
 */
module OutboxProtocol {
  import opened Common

  /** Message ids are minted once per message; only their equality matters. */
  type Id = nat

  datatype Entry = Entry(
    id: Id,
    target: string,
    payload: string,
    enqueuedAt: int,
    nextAttemptAt: int,
    attemptCount: nat)

  /** Backoff base, backoff cap and time-to-live, in milliseconds. */
  datatype Config = Config(base: nat, cap: nat, ttl: nat)

  const DEFAULTS := Config(1_000, 300_000, 86_400_000)

  /** The wait after a failed attempt that had `attempts` failed attempts before it. */
  function Backoff(cfg: Config, attempts: nat): nat {
    var raw := cfg.base * Pow2(attempts);
    if raw < cfg.cap then raw else cfg.cap
  }

  /** The first wait is the base, each further one doubles, and no wait is longer than the cap. */
  lemma BackoffDoubles(cfg: Config, k: nat)
    ensures Backoff(cfg, 0) == if cfg.base < cfg.cap then cfg.base else cfg.cap
    ensures Backoff(cfg, k + 1) == if 2 * Backoff(cfg, k) < cfg.cap then 2 * Backoff(cfg, k) else cfg.cap
  {
    assert cfg.base * Pow2(k + 1) == 2 * (cfg.base * Pow2(k));
  }

  /** By default the waits are one second, two, four and so on up to 256, and then five minutes. */
  lemma {:induction false} DefaultWaits(k: nat)
    ensures Backoff(DEFAULTS, 0) == 1_000 && DEFAULTS.ttl == 86_400_000
    ensures k < 8 ==> Backoff(DEFAULTS, k + 1) == 2 * Backoff(DEFAULTS, k)
    ensures Backoff(DEFAULTS, 8) == 256_000
    ensures k >= 9 ==> Backoff(DEFAULTS, k) == 300_000
  {
    assert Pow2(8) == 256 by {
      assert Pow2(4) == 16;
    }
    if k > 9 {
      DefaultWaits(k - 1);
      BackoffDoubles(DEFAULTS, k - 1);
    } else if k < 8 {
      PowRises(k, 7);
      BackoffDoubles(DEFAULTS, k);
    }
  }

  lemma {:induction false} PowRises(a: nat, b: nat)
    requires a <= b
    ensures Pow2(a) <= Pow2(b)
  {
    if a < b {
      PowRises(a, b - 1);
    }
  }

  datatype Summary = Summary(attempted: nat, acked: nat, failed: nat, deadLettered: nat)

  /** A request on the wire: `n` numbers the send, `entry` is the snapshot it was made from. */
  datatype Request = Request(n: nat, entry: Entry)

  /** One `driveOnce` call: its time, the rest of its snapshot, the send it awaits, its counters. */
  datatype Drive = Drive(t: int, todo: seq<Entry>, sending: Option<Request>, sum: Summary)

  /** How a drive disposed of an entry for good; dead-lettering runs the escalation callback. */
  datatype Terminal = Acked(id: Id) | DeadLettered(id: Id)

  datatype Sent = Sent(entry: Entry, t: int)

  datatype Sender = Sender(
    pending: map<Id, Entry>,    // the store
    born: map<Id, Entry>,       // every entry as it was enqueued
    drives: map<nat, Drive>,    // drives in progress
    sent: seq<Sent>,            // every send, in order
    lost: set<nat>,             // the sends whose answer was still awaited when the process died
    ended: seq<Terminal>)       // every terminal action, in order

  const START := Sender(map[], map[], map[], [], {}, [])

  datatype Event =
    | Enqueue(id: Id, target: string, payload: string, now: int)
    | Begin(d: nat, t: int, listing: seq<Entry>)
    | Visit(d: nat)
    | Settle(d: nat, ack: bool)
    | Finish(d: nat)
    | Restart                     // the process dies; the store survives

  /** `listing` shows each pending entry once, in some order. */
  ghost predicate Lists(listing: seq<Entry>, pending: map<Id, Entry>) {
    && (forall i, j :: 0 <= i < j < |listing| ==> listing[i].id != listing[j].id)
    && (forall e :: e in listing ==> e.id in pending && pending[e.id] == e)
    && (forall id :: id in pending ==> pending[id] in listing)
  }

  function Removed(p: map<Id, Entry>, id: Id): map<Id, Entry> {
    p - {id}
  }

  /** Rescheduling an id that is gone does nothing. */
  function Rescheduled(p: map<Id, Entry>, id: Id, nextAt: int, attempts: nat): map<Id, Entry> {
    if id in p then p[id := p[id].(nextAttemptAt := nextAt, attemptCount := attempts)] else p
  }

  ghost function Step(cfg: Config, s: Sender, ev: Event): Sender {
    match ev
    case Enqueue(id, target, payload, now) =>
      if id in s.born then s else
        var e := Entry(id, target, payload, now, now, 0);
        s.(pending := s.pending[id := e], born := s.born[id := e])
    case Begin(d, t, listing) =>
      if d in s.drives || !Lists(listing, s.pending) then s else
        s.(drives := s.drives[d := Drive(t, listing, None, Summary(0, 0, 0, 0))])
    case Visit(d) =>
      if d !in s.drives || s.drives[d].sending.Some? || s.drives[d].todo == [] then s else
        VisitStep(cfg, s, d)
    case Settle(d, ack) =>
      if d !in s.drives || s.drives[d].sending.None? then s else
        SettleStep(cfg, s, d, ack)
    case Finish(d) =>
      if d !in s.drives || s.drives[d].sending.Some? || s.drives[d].todo != [] then s else
        s.(drives := s.drives - {d})
    case Restart => s.(drives := map[], lost := s.lost + InFlight(s.drives))
  }

  /** The sends whose answers drives are waiting for. */
  ghost function InFlight(drives: map<nat, Drive>): set<nat> {
    set d | d in drives && drives[d].sending.Some? :: drives[d].sending.value.n
  }

  /** The drive looks at the next entry of its snapshot: not due, expired, or sent. */
  ghost function VisitStep(cfg: Config, s: Sender, d: nat): Sender
    requires d in s.drives && s.drives[d].todo != []
  {
    var dr := s.drives[d];
    var e := dr.todo[0];
    var rest := dr.(todo := dr.todo[1..]);
    if e.nextAttemptAt > dr.t then
      s.(drives := s.drives[d := rest])
    else if dr.t - e.enqueuedAt > cfg.ttl then
      s.(pending := Removed(s.pending, e.id),
      drives := s.drives[d := rest.(sum := dr.sum.(deadLettered := dr.sum.deadLettered + 1))],
      ended := s.ended + [DeadLettered(e.id)])
    else
      s.(drives := s.drives[d := rest.(sending := Some(Request(|s.sent|, e)),
                                       sum := dr.sum.(attempted := dr.sum.attempted + 1))],
      sent := s.sent + [Sent(e, dr.t)])
  }

  /** The awaited send resolved: an ack removes the entry, anything else reschedules it. */
  ghost function SettleStep(cfg: Config, s: Sender, d: nat, ack: bool): Sender
    requires d in s.drives && s.drives[d].sending.Some?
  {
    var dr := s.drives[d];
    var e := dr.sending.value.entry;
    if ack then
      s.(pending := Removed(s.pending, e.id),
      drives := s.drives[d := dr.(sending := None, sum := dr.sum.(acked := dr.sum.acked + 1))],
      ended := s.ended + [Acked(e.id)])
    else
      s.(pending := Rescheduled(s.pending, e.id, dr.t + Backoff(cfg, e.attemptCount), e.attemptCount + 1),
      drives := s.drives[d := dr.(sending := None, sum := dr.sum.(failed := dr.sum.failed + 1))])
  }

  /** The state a run leads to. */
  ghost function After(cfg: Config, s: Sender, evs: seq<Event>): Sender {
    if evs == [] then s
    else Step(cfg, After(cfg, s, evs[..|evs| - 1]), evs[|evs| - 1])
  }

  lemma {:induction false} AfterConcat(cfg: Config, s: Sender, a: seq<Event>, b: seq<Event>)
    ensures After(cfg, s, a + b) == After(cfg, After(cfg, s, a), b)
  {
    if b == [] {
      assert a + b == a;
    } else {
      assert (a + b)[..|a + b| - 1] == a + b[..|b| - 1];
      AfterConcat(cfg, s, a, b[..|b| - 1]);
    }
  }

  // ---------------------------------------------------------------------------------------------
  // Every run, with any overlap of drives
  // ---------------------------------------------------------------------------------------------

  ghost predicate SameMessage(e: Entry, b: Entry) {
    e.id == b.id && e.target == b.target && e.payload == b.payload && e.enqueuedAt == b.enqueuedAt
  }

  /** An entry, stored or in a snapshot, is some enqueued message and its retry time is bounded. */
  ghost predicate Sound(cfg: Config, born: map<Id, Entry>, e: Entry) {
    && e.id in born
    && SameMessage(e, born[e.id])
    && e.nextAttemptAt <= e.enqueuedAt + cfg.ttl + cfg.cap
  }

  ghost function EndedIds(ended: seq<Terminal>): set<Id> {
    set i | 0 <= i < |ended| :: ended[i].id
  }

  /** The awaited request was sent by this drive, in time; the counters balance. */
  ghost predicate DriveSound(cfg: Config, born: map<Id, Entry>, sent: seq<Sent>, dr: Drive) {
    && (forall i :: 0 <= i < |dr.todo| ==> Sound(cfg, born, dr.todo[i]))
    && (dr.sending.Some? ==>
          var r := dr.sending.value;
          && Sound(cfg, born, r.entry)
          && r.n < |sent| && sent[r.n] == Sent(r.entry, dr.t)
          && r.entry.nextAttemptAt <= dr.t && dr.t - r.entry.enqueuedAt <= cfg.ttl)
    && dr.sum.attempted == dr.sum.acked + dr.sum.failed + (if dr.sending.Some? then 1 else 0)
  }

  ghost predicate SentSound(cfg: Config, born: map<Id, Entry>, sent: seq<Sent>) {
    forall k :: 0 <= k < |sent| ==> sent[k].entry.id in born && SameMessage(sent[k].entry, born[sent[k].entry.id])
  }

  ghost predicate Conserved(s: Sender) {
    && s.born.Keys == s.pending.Keys + EndedIds(s.ended)
    && s.pending.Keys !! EndedIds(s.ended)
  }

  ghost predicate Inv(cfg: Config, s: Sender) {
    && (forall id :: id in s.born ==> s.born[id].id == id)
    && (forall id :: id in s.pending ==> s.pending[id].id == id && Sound(cfg, s.born, s.pending[id]))
    && (forall d :: d in s.drives ==> DriveSound(cfg, s.born, s.sent, s.drives[d]))
    && SentSound(cfg, s.born, s.sent)
    && Conserved(s)
  }

  lemma EndedIdsAppend(ended: seq<Terminal>, x: Terminal)
    ensures EndedIds(ended + [x]) == EndedIds(ended) + {x.id}
  {
    assert (ended + [x])[|ended|] == x;
    forall id | id in EndedIds(ended) + {x.id}
      ensures id in EndedIds(ended + [x])
    {
      if id != x.id {
        var i :| 0 <= i < |ended| && ended[i].id == id;
        assert (ended + [x])[i].id == id;
      }
    }
  }

  lemma VisitInv(cfg: Config, s: Sender, d: nat)
    requires Inv(cfg, s) && d in s.drives && s.drives[d].sending.None? && s.drives[d].todo != []
    ensures Inv(cfg, VisitStep(cfg, s, d))
  {
    var dr := s.drives[d];
    var s' := VisitStep(cfg, s, d);
    assert DriveSound(cfg, s.born, s.sent, dr);
    assert Sound(cfg, s.born, dr.todo[0]);
    EndedIdsAppend(s.ended, DeadLettered(dr.todo[0].id));
    assert Conserved(s');
    assert DriveSound(cfg, s'.born, s'.sent, s'.drives[d]);
    forall d2 | d2 in s'.drives && d2 != d
      ensures DriveSound(cfg, s'.born, s'.sent, s'.drives[d2])
    {
      assert DriveSound(cfg, s.born, s.sent, s.drives[d2]);
    }
  }

  lemma SettleInv(cfg: Config, s: Sender, d: nat, ack: bool)
    requires Inv(cfg, s) && d in s.drives && s.drives[d].sending.Some?
    ensures Inv(cfg, SettleStep(cfg, s, d, ack))
  {
    assert DriveSound(cfg, s.born, s.sent, s.drives[d]);
    EndedIdsAppend(s.ended, Acked(s.drives[d].sending.value.entry.id));
  }

  lemma EnqueueInv(cfg: Config, s: Sender, id: Id, target: string, payload: string, now: int)
    requires Inv(cfg, s)
    ensures Inv(cfg, Step(cfg, s, Enqueue(id, target, payload, now)))
  {
    var s' := Step(cfg, s, Enqueue(id, target, payload, now));
    forall d | d in s'.drives
      ensures DriveSound(cfg, s'.born, s'.sent, s'.drives[d])
    {
      assert DriveSound(cfg, s.born, s.sent, s.drives[d]);
    }
  }

  lemma StepInv(cfg: Config, s: Sender, ev: Event)
    requires Inv(cfg, s)
    ensures Inv(cfg, Step(cfg, s, ev))
  {
    match ev
    case Enqueue(id, target, payload, now) => EnqueueInv(cfg, s, id, target, payload, now);
    case Begin(_, _, listing) =>
      assert Lists(listing, s.pending) ==> forall i :: 0 <= i < |listing| ==> listing[i] in listing;
    case Finish(_) =>
    case Restart =>
    case Visit(d) =>
      if d in s.drives && s.drives[d].sending.None? && s.drives[d].todo != [] {
        VisitInv(cfg, s, d);
      }
    case Settle(d, ack) =>
      if d in s.drives && s.drives[d].sending.Some? {
        SettleInv(cfg, s, d, ack);
      }
  }

  lemma {:induction false} RunInv(cfg: Config, s: Sender, evs: seq<Event>)
    requires Inv(cfg, s)
    ensures Inv(cfg, After(cfg, s, evs))
  {
    if evs != [] {
      RunInv(cfg, s, evs[..|evs| - 1]);
      StepInv(cfg, After(cfg, s, evs[..|evs| - 1]), evs[|evs| - 1]);
    }
  }

  lemma EndedGrows(cfg: Config, s: Sender, evs: seq<Event>)
    ensures s.ended <= After(cfg, s, evs).ended
  {
    if evs != [] {
      EndedGrows(cfg, s, evs[..|evs| - 1]);
    }
  }

  /** However drives overlap, a retry from a stale snapshot never brings a removed message back. */
  lemma RemovedStaysRemoved(cfg: Config, before: seq<Event>, later: seq<Event>, id: Id)
    requires id in After(cfg, START, before).born && id !in After(cfg, START, before).pending
    ensures id !in After(cfg, START, before + later).pending
    ensures id in EndedIds(After(cfg, START, before + later).ended)
  {
    var s := After(cfg, START, before);
    RunInv(cfg, START, before);
    RunInv(cfg, START, before + later);
    AfterConcat(cfg, START, before, later);
    EndedGrows(cfg, s, later);
    var i :| 0 <= i < |s.ended| && s.ended[i].id == id;
    assert After(cfg, START, before + later).ended[i].id == id;
  }

  // ---------------------------------------------------------------------------------------------
  // At most one terminal action per message
  // ---------------------------------------------------------------------------------------------

  ghost predicate EndedOnce(ended: seq<Terminal>) {
    forall i, j :: 0 <= i < j < |ended| ==> ended[i].id != ended[j].id
  }

  /** The event acks or dead-letters a message that the store no longer holds. */
  ghost predicate ActsOnGone(cfg: Config, s: Sender, ev: Event) {
    match ev
    case Visit(d) =>
      && d in s.drives && s.drives[d].sending.None? && s.drives[d].todo != []
      && var e := s.drives[d].todo[0];
      && e.nextAttemptAt <= s.drives[d].t && s.drives[d].t - e.enqueuedAt > cfg.ttl
      && e.id !in s.pending
    case Settle(d, ack) =>
      && d in s.drives && s.drives[d].sending.Some? && ack
      && s.drives[d].sending.value.entry.id !in s.pending
    case _ => false
  }

  ghost predicate NeverActsOnGone(cfg: Config, evs: seq<Event>) {
    evs == []
    || (var pre := evs[..|evs| - 1];
        NeverActsOnGone(cfg, pre) && !ActsOnGone(cfg, After(cfg, START, pre), evs[|evs| - 1]))
  }

  lemma EndedOnceAppend(ended: seq<Terminal>, x: Terminal)
    ensures EndedOnce(ended + [x]) <==> EndedOnce(ended) && x.id !in EndedIds(ended)
  {
    var all := ended + [x];
    if EndedOnce(all) {
      forall i, j | 0 <= i < j < |ended|
        ensures ended[i].id != ended[j].id
      {
        assert all[i].id != all[j].id;
      }
      forall i | 0 <= i < |ended|
        ensures ended[i].id != x.id
      {
        assert all[i].id != all[|ended|].id;
      }
    }
  }

  lemma StepEnds(cfg: Config, s: Sender, ev: Event)
    requires Inv(cfg, s)
    ensures EndedOnce(Step(cfg, s, ev).ended) <==> EndedOnce(s.ended) && !ActsOnGone(cfg, s, ev)
  {
    match ev
    case Visit(d) =>
      if d in s.drives && s.drives[d].sending.None? && s.drives[d].todo != [] {
        assert DriveSound(cfg, s.born, s.sent, s.drives[d]);
        assert Sound(cfg, s.born, s.drives[d].todo[0]);
        EndedOnceAppend(s.ended, DeadLettered(s.drives[d].todo[0].id));
      }
    case Settle(d, ack) =>
      if d in s.drives && s.drives[d].sending.Some? {
        assert DriveSound(cfg, s.born, s.sent, s.drives[d]);
        EndedOnceAppend(s.ended, Acked(s.drives[d].sending.value.entry.id));
      }
    case _ =>
  }

  /**
   * A message is ended once, by an ack or by one dead letter with its escalation, exactly in the runs in
   * which no drive acts on a message gone from the store; the code does not test for it.
   */
  lemma {:induction false} EndedOnceIff(cfg: Config, evs: seq<Event>)
    ensures EndedOnce(After(cfg, START, evs).ended) <==> NeverActsOnGone(cfg, evs)
  {
    if evs != [] {
      var pre := evs[..|evs| - 1];
      EndedOnceIff(cfg, pre);
      RunInv(cfg, START, pre);
      StepEnds(cfg, After(cfg, START, pre), evs[|evs| - 1]);
    }
  }

  lemma AfterAppend(cfg: Config, s: Sender, evs: seq<Event>, ev: Event)
    ensures After(cfg, s, evs + [ev]) == Step(cfg, After(cfg, s, evs), ev)
  {
    assert (evs + [ev])[..|evs|] == evs;
  }

  // ---------------------------------------------------------------------------------------------
  // The retry budget ends
  // ---------------------------------------------------------------------------------------------

  /** `id` is gone, or drive `d` still has it ahead. */
  ghost predicate GoneOrAhead(s: Sender, d: nat, t: int, id: Id) {
    id !in s.pending
    || (&& d in s.drives && s.drives[d].t == t
        && exists i :: 0 <= i < |s.drives[d].todo| && s.drives[d].todo[i].id == id)
  }

  /** No retry of the message is due later than `t`, and its time-to-live is over. */
  predicate Late(cfg: Config, e: Entry, t: int) {
    t >= e.enqueuedAt + cfg.ttl + cfg.cap && t > e.enqueuedAt + cfg.ttl
  }

  /** A drive so late finds every listed snapshot of the message past its deadline, and removes it. */
  lemma LateVisit(cfg: Config, s: Sender, d: nat, t: int, id: Id)
    requires Inv(cfg, s) && id in s.born
    requires Late(cfg, s.born[id], t)
    requires id in s.pending && GoneOrAhead(s, d, t, id) && s.drives[d].sending.None? && s.drives[d].todo != []
    ensures GoneOrAhead(Step(cfg, s, Visit(d)), d, t, id)
  {
    var todo := s.drives[d].todo;
    assert DriveSound(cfg, s.born, s.sent, s.drives[d]);
    var i :| 0 <= i < |todo| && todo[i].id == id;
    assert Sound(cfg, s.born, todo[i]);
    if i > 0 {
      assert todo[1..][i - 1].id == id;
    }
  }

  lemma GoneOrAheadStep(cfg: Config, s: Sender, ev: Event, d: nat, t: int, id: Id)
    requires Inv(cfg, s) && id in s.born
    requires Late(cfg, s.born[id], t)
    requires GoneOrAhead(s, d, t, id) && !ev.Restart?
    ensures GoneOrAhead(Step(cfg, s, ev), d, t, id)
  {
    if ev == Visit(d) && id in s.pending && s.drives[d].sending.None? && s.drives[d].todo != [] {
      LateVisit(cfg, s, d, t, id);
    }
  }

  lemma BornKept(cfg: Config, s: Sender, ev: Event, id: Id)
    requires id in s.born
    ensures id in Step(cfg, s, ev).born && Step(cfg, s, ev).born[id] == s.born[id]
  {
  }

  lemma {:induction false} GoneOrAheadRun(cfg: Config, s: Sender, evs: seq<Event>, d: nat, t: int, id: Id)
    requires Inv(cfg, s) && id in s.born
    requires Late(cfg, s.born[id], t)
    requires GoneOrAhead(s, d, t, id) && forall k :: 0 <= k < |evs| ==> !evs[k].Restart?
    ensures GoneOrAhead(After(cfg, s, evs), d, t, id)
    ensures id in After(cfg, s, evs).born && After(cfg, s, evs).born[id] == s.born[id]
  {
    if evs != [] {
      var pre := evs[..|evs| - 1];
      GoneOrAheadRun(cfg, s, pre, d, t, id);
      RunInv(cfg, s, pre);
      BornKept(cfg, After(cfg, s, pre), evs[|evs| - 1], id);
      GoneOrAheadStep(cfg, After(cfg, s, pre), evs[|evs| - 1], d, t, id);
    }
  }

  /**
   * A drive that starts late for a message leaves it removed once it has finished in the same process,
   * whatever else is enqueued, sent, acked or driven meanwhile.
   */
  lemma DeadlineDriveRemoves(cfg: Config, before: seq<Event>, d: nat, t: int, listing: seq<Entry>, later: seq<Event>,
                             id: Id)
    requires var s := After(cfg, START, before);
             && id in s.born && Late(cfg, s.born[id], t)
             && d !in s.drives && Lists(listing, s.pending)
    requires forall k :: 0 <= k < |later| ==> !later[k].Restart?
    requires d !in After(cfg, START, before + [Begin(d, t, listing)] + later).drives
    ensures id !in After(cfg, START, before + [Begin(d, t, listing)] + later).pending
  {
    var s := After(cfg, START, before);
    RunInv(cfg, START, before);
    var first := before + [Begin(d, t, listing)];
    assert first[..|first| - 1] == before;
    var s1 := After(cfg, START, first);
    assert s1 == Step(cfg, s, Begin(d, t, listing));
    StepInv(cfg, s, Begin(d, t, listing));
    if id in s.pending {
      var i :| 0 <= i < |listing| && listing[i] == s.pending[id];
    }
    GoneOrAheadRun(cfg, s1, later, d, t, id);
    AfterConcat(cfg, START, first, later);
  }
}
