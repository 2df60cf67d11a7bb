/**
 * What the outbox guarantees when drives do not overlap: every message is in exactly one of pending,
 * acked, dead-lettered, and the backoff bounds the number of sends. Enqueues may fall inside a drive.
 */
module OutboxSequential {
  import opened Common
  import opened OutboxProtocol

  /** No drive starts while another is in progress. */
  ghost predicate Sequential(cfg: Config, evs: seq<Event>) {
    evs == []
    || (var pre := evs[..|evs| - 1];
        && Sequential(cfg, pre)
        && (evs[|evs| - 1].Begin? ==> After(cfg, START, pre).drives == map[]))
  }

  /** How often `id` was sent. */
  ghost function Sends(sent: seq<Sent>, id: Id): nat {
    if sent == [] then 0
    else Sends(sent[..|sent| - 1], id) + (if sent[|sent| - 1].entry.id == id then 1 else 0)
  }

  /** How often `id` was sent by a process that did not die before the answer. */
  ghost function Kept(sent: seq<Sent>, lost: set<nat>, id: Id): nat {
    if sent == [] then 0
    else
      var n := |sent| - 1;
      Kept(sent[..n], lost, id) + (if sent[n].entry.id == id && n !in lost then 1 else 0)
  }

  /** How often a process died waiting for the answer to a send of `id`. */
  ghost function Interrupted(sent: seq<Sent>, lost: set<nat>, id: Id): nat {
    if sent == [] then 0
    else
      var n := |sent| - 1;
      Interrupted(sent[..n], lost, id) + (if sent[n].entry.id == id && n in lost then 1 else 0)
  }

  /** The sum of the first `k` backoffs. */
  ghost function Total(cfg: Config, k: nat): nat {
    if k == 0 then 0 else Total(cfg, k - 1) + Backoff(cfg, k - 1)
  }

  /** The drive's snapshot is still what the store holds, for everything it has not disposed of. */
  ghost predicate Current(pending: map<Id, Entry>, dr: Drive) {
    && (forall i :: 0 <= i < |dr.todo| ==> dr.todo[i].id in pending && pending[dr.todo[i].id] == dr.todo[i])
    && (forall i, j :: 0 <= i < j < |dr.todo| ==> dr.todo[i].id != dr.todo[j].id)
    && (dr.sending.Some? ==>
          var e := dr.sending.value.entry;
          && e.id in pending && pending[e.id] == e
          && (forall i :: 0 <= i < |dr.todo| ==> dr.todo[i].id != e.id))
  }

  ghost predicate Sending(s: Sender, id: Id) {
    exists d :: d in s.drives && s.drives[d].sending.Some? && s.drives[d].sending.value.entry.id == id
  }

  /** `n` sends of one message fit the time-to-live: the first `n - 1` backoffs have been waited out. */
  ghost predicate Affordable(cfg: Config, n: nat) {
    n >= 1 ==> Total(cfg, n - 1) <= cfg.ttl
  }

  ghost predicate Counted(cfg: Config, s: Sender, id: Id)
    requires id in s.pending
  {
    var e := s.pending[id];
    && Kept(s.sent, s.lost, id) == e.attemptCount + (if Sending(s, id) then 1 else 0)
    && e.nextAttemptAt >= e.enqueuedAt + Total(cfg, e.attemptCount)
  }

  ghost predicate OneDrive(s: Sender) {
    forall d, d2 :: d in s.drives && d2 in s.drives ==> d == d2
  }

  ghost predicate AllCurrent(s: Sender) {
    forall d :: d in s.drives ==> Current(s.pending, s.drives[d])
  }

  ghost predicate AllCounted(cfg: Config, s: Sender) {
    && (forall id :: id in s.pending ==> Counted(cfg, s, id))
    && (forall id :: Affordable(cfg, Kept(s.sent, s.lost, id)))
    && (forall id :: id !in s.born ==> Kept(s.sent, s.lost, id) == 0)
  }

  ghost predicate SeqInv(cfg: Config, s: Sender) {
    Inv(cfg, s) && OneDrive(s) && AllCurrent(s) && AllCounted(cfg, s) && LostRight(s)
  }

  /** Lost sends were made, and nobody waits for them. */
  ghost predicate LostRight(s: Sender) {
    && (forall n :: n in s.lost ==> n < |s.sent|)
    && (forall d :: d in s.drives && s.drives[d].sending.Some? ==> s.drives[d].sending.value.n !in s.lost)
  }

  lemma KeptAppend(sent: seq<Sent>, lost: set<nat>, x: Sent, id: Id)
    requires |sent| !in lost
    ensures Kept(sent + [x], lost, id) == Kept(sent, lost, id) + (if x.entry.id == id then 1 else 0)
  {
    assert (sent + [x])[..|sent|] == sent;
  }

  lemma {:induction false} KeptLose(sent: seq<Sent>, lost: set<nat>, n: nat, id: Id)
    requires n !in lost
    ensures Kept(sent, lost + {n}, id) == Kept(sent, lost, id) - (if n < |sent| && sent[n].entry.id == id then 1 else 0)
  {
    if sent != [] {
      KeptLose(sent[..|sent| - 1], lost, n, id);
    }
  }

  lemma {:induction false} SendsSplit(sent: seq<Sent>, lost: set<nat>, id: Id)
    ensures Sends(sent, id) == Kept(sent, lost, id) + Interrupted(sent, lost, id)
  {
    if sent != [] {
      SendsSplit(sent[..|sent| - 1], lost, id);
    }
  }

  lemma NoneSending(s: Sender, d: nat)
    requires forall d2 :: d2 in s.drives ==> d2 == d
    requires d in s.drives ==> s.drives[d].sending.None?
    ensures forall id :: !Sending(s, id)
  {
  }

  lemma OneSending(s: Sender, d: nat)
    requires forall d2 :: d2 in s.drives ==> d2 == d
    requires d in s.drives && s.drives[d].sending.Some?
    ensures forall id :: Sending(s, id) <==> id == s.drives[d].sending.value.entry.id
  {
  }

  lemma SendCounted(cfg: Config, s: Sender, e: Entry, t: int, id: Id)
    requires e.id in s.pending && s.pending[e.id] == e && Counted(cfg, s, e.id)
    requires !Sending(s, e.id) && e.nextAttemptAt <= t && t - e.enqueuedAt <= cfg.ttl
    requires Affordable(cfg, Kept(s.sent, s.lost, id)) && |s.sent| !in s.lost
    ensures Affordable(cfg, Kept(s.sent + [Sent(e, t)], s.lost, id))
  {
    KeptAppend(s.sent, s.lost, Sent(e, t), id);
  }

  lemma VisitCurrent(cfg: Config, s: Sender, d: nat)
    requires OneDrive(s) && AllCurrent(s)
    requires d in s.drives && s.drives[d].sending.None? && s.drives[d].todo != []
    ensures OneDrive(VisitStep(cfg, s, d)) && AllCurrent(VisitStep(cfg, s, d))
  {
    assert Current(s.pending, s.drives[d]);
    assert VisitStep(cfg, s, d).drives.Keys == s.drives.Keys;
  }

  lemma VisitCounted(cfg: Config, s: Sender, d: nat)
    requires OneDrive(s) && AllCounted(cfg, s)
    requires d in s.drives && s.drives[d].sending.None? && s.drives[d].todo != []
    requires Current(s.pending, s.drives[d]) && s.drives[d].todo[0].id in s.born && |s.sent| !in s.lost
    ensures AllCounted(cfg, VisitStep(cfg, s, d))
  {
    var e, t := s.drives[d].todo[0], s.drives[d].t;
    var s' := VisitStep(cfg, s, d);
    assert s'.drives.Keys == s.drives.Keys;
    assert Counted(cfg, s, e.id);
    NoneSending(s, d);
    if s'.drives[d].sending.Some? {
      OneSending(s', d);
      forall id
        ensures Affordable(cfg, Kept(s'.sent, s'.lost, id))
        ensures id !in s'.born ==> Kept(s'.sent, s'.lost, id) == 0
        ensures id in s'.pending ==> Counted(cfg, s', id)
      {
        KeptAppend(s.sent, s.lost, Sent(e, t), id);
        SendCounted(cfg, s, e, t, id);
        assert id in s.pending ==> Counted(cfg, s, id);
      }
    } else {
      NoneSending(s', d);
      forall id | id in s'.pending
        ensures Counted(cfg, s', id)
      {
        assert Counted(cfg, s, id);
      }
    }
  }

  lemma VisitSeq(cfg: Config, s: Sender, d: nat)
    requires SeqInv(cfg, s) && d in s.drives && s.drives[d].sending.None? && s.drives[d].todo != []
    ensures SeqInv(cfg, VisitStep(cfg, s, d))
    ensures !ActsOnGone(cfg, s, Visit(d))
  {
    VisitInv(cfg, s, d);
    VisitCurrent(cfg, s, d);
    assert Current(s.pending, s.drives[d]);
    assert DriveSound(cfg, s.born, s.sent, s.drives[d]);
    assert Sound(cfg, s.born, s.drives[d].todo[0]);
    VisitCounted(cfg, s, d);
  }

  lemma WaitedOut(cfg: Config, e: Entry, t: int)
    requires e.nextAttemptAt >= e.enqueuedAt + Total(cfg, e.attemptCount) && t >= e.nextAttemptAt
    ensures t + Backoff(cfg, e.attemptCount) >= e.enqueuedAt + Total(cfg, e.attemptCount + 1)
  {
  }

  lemma SettleCurrent(cfg: Config, s: Sender, d: nat, ack: bool)
    requires OneDrive(s) && AllCurrent(s) && d in s.drives && s.drives[d].sending.Some?
    ensures OneDrive(SettleStep(cfg, s, d, ack)) && AllCurrent(SettleStep(cfg, s, d, ack))
  {
    assert Current(s.pending, s.drives[d]);
    assert SettleStep(cfg, s, d, ack).drives.Keys == s.drives.Keys;
  }

  lemma SettleCounted(cfg: Config, s: Sender, d: nat, ack: bool)
    requires OneDrive(s) && AllCounted(cfg, s) && d in s.drives && s.drives[d].sending.Some?
    requires Current(s.pending, s.drives[d]) && s.drives[d].sending.value.entry.nextAttemptAt <= s.drives[d].t
    ensures AllCounted(cfg, SettleStep(cfg, s, d, ack))
  {
    var e := s.drives[d].sending.value.entry;
    var s' := SettleStep(cfg, s, d, ack);
    assert s'.drives.Keys == s.drives.Keys;
    assert Counted(cfg, s, e.id);
    OneSending(s, d);
    NoneSending(s', d);
    WaitedOut(cfg, e, s.drives[d].t);
    forall id | id in s'.pending
      ensures Counted(cfg, s', id)
    {
      assert Counted(cfg, s, id);
    }
  }

  lemma SettleSeq(cfg: Config, s: Sender, d: nat, ack: bool)
    requires SeqInv(cfg, s) && d in s.drives && s.drives[d].sending.Some?
    ensures SeqInv(cfg, SettleStep(cfg, s, d, ack))
    ensures !ActsOnGone(cfg, s, Settle(d, ack))
  {
    SettleInv(cfg, s, d, ack);
    SettleCurrent(cfg, s, d, ack);
    assert Current(s.pending, s.drives[d]);
    assert DriveSound(cfg, s.born, s.sent, s.drives[d]);
    SettleCounted(cfg, s, d, ack);
  }

  lemma EnqueueSeq(cfg: Config, s: Sender, id: Id, target: string, payload: string, now: int)
    requires SeqInv(cfg, s) && id !in s.born
    ensures SeqInv(cfg, Step(cfg, s, Enqueue(id, target, payload, now)))
  {
    var s' := Step(cfg, s, Enqueue(id, target, payload, now));
    EnqueueInv(cfg, s, id, target, payload, now);
    forall d | d in s'.drives
      ensures Current(s'.pending, s'.drives[d])
    {
      assert Current(s.pending, s.drives[d]);
    }
    forall id2 | id2 in s'.pending
      ensures Counted(cfg, s', id2)
    {
      if id2 == id {
        assert !Sending(s', id) by {
          forall d | d in s.drives
            ensures !(s.drives[d].sending.Some? && s.drives[d].sending.value.entry.id == id)
          {
            assert Current(s.pending, s.drives[d]);
          }
        }
      } else {
        assert Counted(cfg, s, id2);
        assert Sending(s', id2) <==> Sending(s, id2);
      }
    }
  }

  lemma BeginCounted(cfg: Config, s: Sender, d: nat, t: int, listing: seq<Entry>)
    requires AllCounted(cfg, s) && s.drives == map[]
    ensures AllCounted(cfg, Step(cfg, s, Begin(d, t, listing)))
  {
    var s' := Step(cfg, s, Begin(d, t, listing));
    forall id | id in s'.pending
      ensures Counted(cfg, s', id)
    {
      assert Counted(cfg, s, id);
      assert !Sending(s, id) && !Sending(s', id);
    }
  }

  lemma BeginSeq(cfg: Config, s: Sender, d: nat, t: int, listing: seq<Entry>)
    requires SeqInv(cfg, s) && s.drives == map[]
    ensures SeqInv(cfg, Step(cfg, s, Begin(d, t, listing)))
  {
    StepInv(cfg, s, Begin(d, t, listing));
    assert Lists(listing, s.pending) ==> forall i :: 0 <= i < |listing| ==> listing[i] in listing;
    BeginCounted(cfg, s, d, t, listing);
  }

  lemma FinishSeq(cfg: Config, s: Sender, d: nat)
    requires SeqInv(cfg, s)
    ensures SeqInv(cfg, Step(cfg, s, Finish(d)))
  {
    var s' := Step(cfg, s, Finish(d));
    StepInv(cfg, s, Finish(d));
    forall id | id in s'.pending
      ensures Counted(cfg, s', id)
    {
      assert Counted(cfg, s, id);
      assert Sending(s', id) <==> Sending(s, id);
    }
  }

  lemma RestartCounted(cfg: Config, s: Sender)
    requires AllCounted(cfg, s) && OneDrive(s) && LostRight(s)
    requires forall d :: d in s.drives && s.drives[d].sending.Some? ==>
               var q := s.drives[d].sending.value; q.n < |s.sent| && s.sent[q.n].entry == q.entry
    ensures AllCounted(cfg, Step(cfg, s, Restart))
  {
    var s' := Step(cfg, s, Restart);
    assert forall id :: !Sending(s', id);
    if d :| d in s.drives && s.drives[d].sending.Some? {
      var n := s.drives[d].sending.value.n;
      OneSending(s, d);
      assert InFlight(s.drives) == {n};
      forall id
        ensures Kept(s'.sent, s'.lost, id) == Kept(s.sent, s.lost, id) - (if Sending(s, id) then 1 else 0)
      {
        KeptLose(s.sent, s.lost, n, id);
      }
    } else {
      assert InFlight(s.drives) == {} && s'.lost == s.lost;
      assert forall id :: !Sending(s, id);
    }
    forall id | id in s'.pending
      ensures Counted(cfg, s', id)
    {
      assert Counted(cfg, s, id);
    }
  }

  lemma RestartSeq(cfg: Config, s: Sender)
    requires SeqInv(cfg, s)
    ensures SeqInv(cfg, Step(cfg, s, Restart))
  {
    forall d | d in s.drives && s.drives[d].sending.Some?
      ensures var q := s.drives[d].sending.value; q.n < |s.sent| && s.sent[q.n].entry == q.entry
    {
      assert DriveSound(cfg, s.born, s.sent, s.drives[d]);
    }
    RestartCounted(cfg, s);
    StepInv(cfg, s, Restart);
  }

  lemma StepSeq(cfg: Config, s: Sender, ev: Event)
    requires SeqInv(cfg, s)
    requires ev.Begin? ==> s.drives == map[]
    ensures SeqInv(cfg, Step(cfg, s, ev))
    ensures !ActsOnGone(cfg, s, ev)
  {
    match ev
    case Enqueue(id, target, payload, now) =>
      if id !in s.born {
        EnqueueSeq(cfg, s, id, target, payload, now);
      }
    case Begin(d, t, listing) => BeginSeq(cfg, s, d, t, listing);
    case Finish(d) => FinishSeq(cfg, s, d);
    case Restart => RestartSeq(cfg, s);
    case Visit(d) =>
      if d in s.drives && s.drives[d].sending.None? && s.drives[d].todo != [] {
        VisitSeq(cfg, s, d);
      }
    case Settle(d, ack) =>
      if d in s.drives && s.drives[d].sending.Some? {
        SettleSeq(cfg, s, d, ack);
      }
  }

  lemma {:induction false} RunSeq(cfg: Config, evs: seq<Event>)
    requires Sequential(cfg, evs)
    ensures SeqInv(cfg, After(cfg, START, evs))
    ensures NeverActsOnGone(cfg, evs)
  {
    if evs != [] {
      var pre := evs[..|evs| - 1];
      RunSeq(cfg, pre);
      StepSeq(cfg, After(cfg, START, pre), evs[|evs| - 1]);
    }
  }

  ghost function IdsAcked(ended: seq<Terminal>): set<Id> {
    set i | 0 <= i < |ended| && ended[i].Acked? :: ended[i].id
  }

  ghost function IdsDead(ended: seq<Terminal>): set<Id> {
    set i | 0 <= i < |ended| && ended[i].DeadLettered? :: ended[i].id
  }

  /**
   * Conservation: every message ever enqueued is pending, acked or dead-lettered, never two of them, and
   * its terminal action, with the escalation callback of a dead letter, happened once.
   */
  lemma Conservation(cfg: Config, evs: seq<Event>)
    requires Sequential(cfg, evs)
    ensures var s := After(cfg, START, evs);
            && s.born.Keys == s.pending.Keys + IdsAcked(s.ended) + IdsDead(s.ended)
            && s.pending.Keys !! IdsAcked(s.ended) && s.pending.Keys !! IdsDead(s.ended)
            && IdsAcked(s.ended) !! IdsDead(s.ended)
            && EndedOnce(s.ended)
  {
    var s := After(cfg, START, evs);
    RunSeq(cfg, evs);
    EndedOnceIff(cfg, evs);
    forall id | id in EndedIds(s.ended)
      ensures id in IdsAcked(s.ended) + IdsDead(s.ended)
    {
      var i :| 0 <= i < |s.ended| && s.ended[i].id == id;
      assert s.ended[i].Acked? || s.ended[i].DeadLettered?;
    }
    assert EndedIds(s.ended) == IdsAcked(s.ended) + IdsDead(s.ended);
  }

  // ---------------------------------------------------------------------------------------------
  // How much overlap "once per expired entry" tolerates
  // ---------------------------------------------------------------------------------------------

  /** At no time are more than `n` drives in progress. */
  ghost predicate OverlapAtMost(cfg: Config, n: nat, evs: seq<Event>) {
    |After(cfg, START, evs).drives| <= n && (evs == [] || OverlapAtMost(cfg, n, evs[..|evs| - 1]))
  }

  lemma OverlapNext(cfg: Config, n: nat, evs: seq<Event>, s: Sender, ev: Event) returns (evs': seq<Event>, s': Sender)
    requires OverlapAtMost(cfg, n, evs) && s == After(cfg, START, evs) && |Step(cfg, s, ev).drives| <= n
    ensures evs' == evs + [ev] && s' == Step(cfg, s, ev) && s' == After(cfg, START, evs') && OverlapAtMost(cfg, n, evs')
  {
    AfterAppend(cfg, START, evs, ev);
    evs', s' := evs + [ev], Step(cfg, s, ev);
    assert evs'[..|evs|] == evs;
  }

  lemma {:induction false} LoneDrives(cfg: Config, evs: seq<Event>)
    requires OverlapAtMost(cfg, 1, evs)
    ensures SeqInv(cfg, After(cfg, START, evs)) && NeverActsOnGone(cfg, evs)
  {
    if evs != [] {
      var s, ev := After(cfg, START, evs[..|evs| - 1]), evs[|evs| - 1];
      LoneDrives(cfg, evs[..|evs| - 1]);
      if ev.Begin? && s.drives != map[] {
        SecondDrive(cfg, s, ev);
      } else {
        StepSeq(cfg, s, ev);
      }
    }
  }

  /** Beginning another drive either is not possible or makes it one drive more. */
  lemma SecondDrive(cfg: Config, s: Sender, ev: Event)
    requires ev.Begin? && s.drives != map[] && |Step(cfg, s, ev).drives| <= 1
    ensures Step(cfg, s, ev) == s
  {
    var d :| d in s.drives;
    var d2, s' := ev.d, Step(cfg, s, ev);
    assert d in s'.drives && (s' != s ==> d2 in s'.drives && d != d2);
    assert |s'.drives.Keys - {d}| == |s'.drives| - 1;
  }

  /** Two drives begun on the same listing after its message has expired. */
  lemma TwoDrivesBegin(cfg: Config, n: nat) returns (evs: seq<Event>, s: Sender)
    requires n >= 2
    ensures OverlapAtMost(cfg, n, evs) && s == After(cfg, START, evs)
    ensures var e, none := Entry(7, "peer", "hello", 0, 0, 0), Summary(0, 0, 0, 0);
            s == Sender(map[7 := e], map[7 := e],
                        map[0 := Drive(cfg.ttl + 1, [e], None, none), 1 := Drive(cfg.ttl + 1, [e], None, none)],
                        [], {}, [])
  {
    var e, t := Entry(7, "peer", "hello", 0, 0, 0), cfg.ttl + 1;
    evs, s := OverlapNext(cfg, n, [], START, Enqueue(7, "peer", "hello", 0));
    assert s == Sender(map[7 := e], map[7 := e], map[], [], {}, []);
    evs, s := OverlapNext(cfg, n, evs, s, Begin(0, t, [e]));
    assert s.drives == map[0 := Drive(t, [e], None, Summary(0, 0, 0, 0))];
    evs, s := OverlapNext(cfg, n, evs, s, Begin(1, t, [e]));
  }

  /** Two overlapping drives dead-letter one message twice: the documented "once" fails for every configuration. */
  lemma OverlapEndsTwice(cfg: Config, n: nat) returns (evs: seq<Event>)
    requires n >= 2
    ensures OverlapAtMost(cfg, n, evs) && After(cfg, START, evs).ended == [DeadLettered(7), DeadLettered(7)]
  {
    var s;
    evs, s := TwoDrivesBegin(cfg, n);
    evs, s := OverlapNext(cfg, n, evs, s, Visit(0));
    assert s.drives[1] == Drive(cfg.ttl + 1, [Entry(7, "peer", "hello", 0, 0, 0)], None, Summary(0, 0, 0, 0));
    evs, s := OverlapNext(cfg, n, evs, s, Visit(1));
  }

  /** Every message is ended once. */
  ghost predicate AlwaysOnce(cfg: Config, n: nat) {
    forall evs :: OverlapAtMost(cfg, n, evs) ==> EndedOnce(After(cfg, START, evs).ended)
  }

  /**
   * The escalation hook is documented to run once per expired entry. Callers that keep at most `n` drives in
   * progress get that, and never both an ack and a dead letter, exactly if `n` is at most one.
   */
  lemma AlwaysOnceIff(cfg: Config, n: nat)
    ensures AlwaysOnce(cfg, n) <==> n <= 1
  {
    if n <= 1 {
      forall evs | OverlapAtMost(cfg, n, evs)
        ensures EndedOnce(After(cfg, START, evs).ended)
      {
        OverlapWeakens(cfg, n, evs);
        LoneDrives(cfg, evs);
        EndedOnceIff(cfg, evs);
      }
    } else {
      var evs := OverlapEndsTwice(cfg, n);
      var ended := After(cfg, START, evs).ended;
      assert ended[0].id == ended[1].id;
    }
  }

  lemma {:induction false} OverlapWeakens(cfg: Config, n: nat, evs: seq<Event>)
    requires OverlapAtMost(cfg, n, evs) && n <= 1
    ensures OverlapAtMost(cfg, 1, evs)
  {
    if evs != [] {
      OverlapWeakens(cfg, n, evs[..|evs| - 1]);
    }
  }

  // ---------------------------------------------------------------------------------------------
  // How often a message is sent
  // ---------------------------------------------------------------------------------------------

  /** How many restarts the run saw. */
  ghost function Restarts(evs: seq<Event>): nat {
    if evs == [] then 0 else Restarts(evs[..|evs| - 1]) + (if evs[|evs| - 1].Restart? then 1 else 0)
  }

  lemma OneInFlight(s: Sender)
    requires OneDrive(s)
    ensures |InFlight(s.drives)| <= 1
  {
    if d :| d in s.drives && s.drives[d].sending.Some? {
      assert InFlight(s.drives) == {s.drives[d].sending.value.n};
    } else {
      assert InFlight(s.drives) == {};
    }
  }

  lemma StepLoses(cfg: Config, s: Sender, ev: Event)
    requires OneDrive(s)
    ensures |Step(cfg, s, ev).lost| <= |s.lost| + (if ev.Restart? then 1 else 0)
  {
    OneInFlight(s);
    UnionSize(s.lost, InFlight(s.drives));
  }

  lemma {:induction false} LostPerRestart(cfg: Config, evs: seq<Event>)
    requires Sequential(cfg, evs)
    ensures |After(cfg, START, evs).lost| <= Restarts(evs)
  {
    if evs != [] {
      var pre := evs[..|evs| - 1];
      LostPerRestart(cfg, pre);
      RunSeq(cfg, pre);
      StepLoses(cfg, After(cfg, START, pre), evs[|evs| - 1]);
    }
  }

  lemma UnionSize(a: set<nat>, b: set<nat>)
    ensures |a + b| <= |a| + |b|
  {
  }

  lemma {:induction false} InterruptedAtMost(sent: seq<Sent>, lost: set<nat>, id: Id)
    ensures Interrupted(sent, lost, id) <= |lost|
  {
    if sent != [] {
      var n := |sent| - 1;
      if n in lost {
        InterruptedAtMost(sent[..n], lost - {n}, id);
        SameInterrupted(sent[..n], lost, lost - {n}, id);
      } else {
        InterruptedAtMost(sent[..n], lost, id);
      }
    }
  }

  lemma {:induction false} SameInterrupted(sent: seq<Sent>, a: set<nat>, b: set<nat>, id: Id)
    requires forall k :: 0 <= k < |sent| ==> (k in a <==> k in b)
    ensures Interrupted(sent, a, id) == Interrupted(sent, b, id)
  {
    if sent != [] {
      SameInterrupted(sent[..|sent| - 1], a, b, id);
    }
  }

  /**
   * Of the sends of a message, all but those whose process died waiting for the answer have waited out their
   * backoffs within its time-to-live; a restart interrupts at most one send.
   */
  lemma SendsWithinBudget(cfg: Config, evs: seq<Event>, id: Id)
    requires Sequential(cfg, evs)
    ensures var s := After(cfg, START, evs);
            && Sends(s.sent, id) == Kept(s.sent, s.lost, id) + Interrupted(s.sent, s.lost, id)
            && Affordable(cfg, Kept(s.sent, s.lost, id))
            && Interrupted(s.sent, s.lost, id) <= Restarts(evs)
  {
    var s := After(cfg, START, evs);
    RunSeq(cfg, evs);
    SendsSplit(s.sent, s.lost, id);
    LostPerRestart(cfg, evs);
    InterruptedAtMost(s.sent, s.lost, id);
  }

  lemma {:induction false} SeqNext(cfg: Config, evs: seq<Event>, s: Sender, ev: Event)
    returns (evs': seq<Event>, s': Sender)
    requires Sequential(cfg, evs) && s == After(cfg, START, evs) && Restarts(evs) == 0 && !ev.Restart?
    requires ev.Begin? ==> s.drives == map[]
    ensures s' == Step(cfg, s, ev) && s' == After(cfg, START, evs') && Sequential(cfg, evs') && Restarts(evs') == 0
  {
    AfterAppend(cfg, START, evs, ev);
    evs', s' := evs + [ev], Step(cfg, s, ev);
    assert evs'[..|evs|] == evs;
  }

  /** The message that is never answered, after `k` failed attempts. */
  ghost function Unanswered(cfg: Config, k: nat): Entry {
    Entry(7, "peer", "hello", 0, Total(cfg, k), k)
  }

  /** The store, and nothing else, after `k` drives each of which found the message due and failed to send it. */
  ghost predicate FailedTimes(cfg: Config, s: Sender, k: nat) {
    && s.pending == map[7 := Unanswered(cfg, k)] && s.born == map[7 := Unanswered(cfg, 0)]
    && s.drives == map[] && Sends(s.sent, 7) == k
  }

  /** One more drive begins, at the time the message is due, and sends it. */
  lemma SendOnce(cfg: Config, k: nat, evs0: seq<Event>, s0: Sender) returns (evs: seq<Event>, s: Sender)
    requires Sequential(cfg, evs0) && s0 == After(cfg, START, evs0) && Restarts(evs0) == 0
    requires FailedTimes(cfg, s0, k) && Total(cfg, k) <= cfg.ttl
    ensures Sequential(cfg, evs) && s == After(cfg, START, evs) && Restarts(evs) == 0
    ensures var e, t := Unanswered(cfg, k), Total(cfg, k);
            && s.pending == s0.pending && s.born == s0.born && s.sent == s0.sent + [Sent(e, t)]
            && s.drives == map[0 := Drive(t, [], Some(Request(|s0.sent|, e)), Summary(1, 0, 0, 0))]
  {
    var e, t := Unanswered(cfg, k), Total(cfg, k);
    evs, s := SeqNext(cfg, evs0, s0, Begin(0, t, [e]));
    assert s.drives == map[0 := Drive(t, [e], None, Summary(0, 0, 0, 0))];
    evs, s := SeqNext(cfg, evs, s, Visit(0));
    assert [e][1..] == [];
  }

  /** And the send fails. */
  lemma FailOnce(cfg: Config, k: nat, evs0: seq<Event>, s0: Sender) returns (evs: seq<Event>, s: Sender)
    requires Sequential(cfg, evs0) && s0 == After(cfg, START, evs0) && Restarts(evs0) == 0
    requires FailedTimes(cfg, s0, k) && Total(cfg, k) <= cfg.ttl
    ensures Sequential(cfg, evs) && s == After(cfg, START, evs) && Restarts(evs) == 0
    ensures FailedTimes(cfg, s, k + 1)
  {
    evs, s := SendOnce(cfg, k, evs0, s0);
    assert s.sent[..|s0.sent|] == s0.sent;
    evs, s := SeqNext(cfg, evs, s, Settle(0, false));
    assert s.pending == map[7 := Unanswered(cfg, k + 1)];
    evs, s := SeqNext(cfg, evs, s, Finish(0));
  }

  lemma {:induction false} FailRun(cfg: Config, n: nat) returns (evs: seq<Event>, s: Sender)
    requires Affordable(cfg, n)
    ensures Sequential(cfg, evs) && s == After(cfg, START, evs) && Restarts(evs) == 0 && FailedTimes(cfg, s, n)
  {
    if n == 0 {
      evs, s := SeqNext(cfg, [], START, Enqueue(7, "peer", "hello", 0));
    } else {
      evs, s := FailRun(cfg, n - 1);
      evs, s := FailOnce(cfg, n - 1, evs, s);
    }
  }

  /** A run without overlap and without a restart that sends the message `n` times. */
  ghost predicate SendsIn(cfg: Config, evs: seq<Event>, n: nat) {
    Sequential(cfg, evs) && Restarts(evs) == 0 && Sends(After(cfg, START, evs).sent, 7) == n
  }

  lemma SendsInBudget(cfg: Config, evs: seq<Event>, n: nat)
    requires SendsIn(cfg, evs, n)
    ensures Affordable(cfg, n)
  {
    SendsWithinBudget(cfg, evs, 7);
  }

  /** Without a restart, `n` sends of one message are possible exactly if the budget admits them. */
  lemma SendsPossibleIff(cfg: Config, n: nat)
    ensures Affordable(cfg, n) <==> exists evs :: SendsIn(cfg, evs, n)
  {
    if Affordable(cfg, n) {
      var evs, s := FailRun(cfg, n);
      assert SendsIn(cfg, evs, n);
    }
    forall evs | SendsIn(cfg, evs, n)
      ensures Affordable(cfg, n)
    {
      SendsInBudget(cfg, evs, n);
    }
  }

  lemma DefaultTotal(k: nat)
    ensures k >= 9 ==> Total(DEFAULTS, k) == 511_000 + 300_000 * (k - 9)
    ensures k < 9 ==> Total(DEFAULTS, k) <= 511_000
  {
    DefaultPows();
    if k > 9 {
      DefaultTotal(k - 1);
      PowRises(9, k - 1);
    } else {
      assert Total(DEFAULTS, 3) == 7_000;
      assert Total(DEFAULTS, 6) == 63_000;
      assert Total(DEFAULTS, 9) == 511_000;
    }
  }

  lemma DefaultPows()
    ensures Pow2(3) == 8 && Pow2(6) == 64 && Pow2(8) == 256 && Pow2(9) == 512
  {
    assert Pow2(3) == 8;
    assert Pow2(6) == 64;
  }

  /** The default one second, five minutes and 24 hours admit exactly up to 296 sends. */
  lemma DefaultAdmits(n: nat)
    ensures Affordable(DEFAULTS, n) <==> n <= 296
  {
    if n >= 1 {
      DefaultTotal(n - 1);
    }
  }

  /** With the defaults no message is sent more than 296 times, plus once for each restart that interrupted a send. */
  lemma AtMost296Sends(evs: seq<Event>, id: Id)
    requires Sequential(DEFAULTS, evs)
    ensures var s := After(DEFAULTS, START, evs);
            && Sends(s.sent, id) <= 296 + Interrupted(s.sent, s.lost, id)
            && Interrupted(s.sent, s.lost, id) <= Restarts(evs)
  {
    SendsWithinBudget(DEFAULTS, evs, id);
    DefaultAdmits(Kept(After(DEFAULTS, START, evs).sent, After(DEFAULTS, START, evs).lost, id));
  }

  /** The bound is exact: without a restart a message can be sent `n` times exactly if `n` is at most 296. */
  lemma DefaultSendsIff(n: nat)
    ensures (exists evs :: SendsIn(DEFAULTS, evs, n)) <==> n <= 296
  {
    DefaultAdmits(n);
    SendsPossibleIff(DEFAULTS, n);
  }

  /** Every finished drive has failed or acked each send it attempted, however drives overlap. */
  lemma CountersBalance(cfg: Config, evs: seq<Event>, d: nat)
    requires d in After(cfg, START, evs).drives && After(cfg, START, evs).drives[d].sending.None?
    ensures var sum := After(cfg, START, evs).drives[d].sum; sum.attempted == sum.acked + sum.failed
  {
    RunInv(cfg, START, evs);
    assert DriveSound(cfg, After(cfg, START, evs).born, After(cfg, START, evs).sent, After(cfg, START, evs).drives[d]);
  }
}
