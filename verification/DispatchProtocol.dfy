/**
 * Dispatching as a step system: calls of `notifyPeer` and ticks share one outbox and one map of last attempts.
 * Each call persists its messages, drives the outbox, and then reads and forgets what the map says of them;
 * any other call or tick may be in progress meanwhile.
 */
module DispatchProtocol {
  import opened Common
  import O = OutboxProtocol
  import opened AttemptLog

  type Id = O.Id

  datatype Stage = Posted | Driving | Driven

  /** A dispatch in progress; its drive has the same number. */
  datatype Call = Call(ids: seq<Id>, stage: Stage)

  /** What a dispatch read of its messages, and which messages were acked by then. */
  datatype Report = Report(ids: seq<Id>, results: seq<Attempt>, acked: set<Id>)

  /** `rank` numbers the messages in the order they were enqueued, which is the order the store lists them in. */
  datatype Office = Office(
    sender: O.Sender,
    rank: map<Id, nat>,
    count: nat,
    attempts: Attempts,
    calls: map<nat, Call>,
    reports: seq<Report>)

  const START := Office(O.START, map[], 0, Empty(), map[], [])

  datatype Event =
    | Enqueue(e: O.Entry)                            // a lone message, for a peer that is not registered
    | Post(d: nat, es: seq<O.Entry>)                 // a dispatch persists its messages
    | Begin(d: nat, t: int, listing: seq<O.Entry>)   // the drive of dispatch `d`, or else a tick
    | Visit(d: nat)
    | Settle(d: nat, outcome: Option<Attempt>)       // `None` is a rejected send
    | Finish(d: nat)
    | Read(d: nat)
    | Restart

  function IdsOf(es: seq<O.Entry>): seq<Id> {
    seq(|es|, i requires 0 <= i < |es| => es[i].id)
  }

  /** Entries as they are when enqueued, for ids never seen before. */
  ghost predicate Fresh(s: O.Sender, es: seq<O.Entry>) {
    && NoDup(IdsOf(es))
    && forall k :: 0 <= k < |es| ==>
         es[k].id !in s.born && es[k].nextAttemptAt == es[k].enqueuedAt && es[k].attemptCount == 0
  }

  ghost function Enqueued(cfg: O.Config, o: Office, e: O.Entry): Office {
    o.(sender := O.Step(cfg, o.sender, O.Enqueue(e.id, e.target, e.payload, e.enqueuedAt)),
       rank := o.rank[e.id := o.count], count := o.count + 1)
  }

  ghost function EnqueuedAll(cfg: O.Config, o: Office, es: seq<O.Entry>): Office {
    if es == [] then o else Enqueued(cfg, EnqueuedAll(cfg, o, es[..|es| - 1]), es[|es| - 1])
  }

  /** The listing shows older messages first. */
  ghost predicate OldestFirst(rank: map<Id, nat>, listing: seq<O.Entry>) {
    && (forall i :: 0 <= i < |listing| ==> listing[i].id in rank)
    && forall i, j :: 0 <= i < j < |listing| ==> rank[listing[i].id] < rank[listing[j].id]
  }

  ghost function AckedIn(ended: seq<O.Terminal>): set<Id> {
    set i | 0 <= i < |ended| && ended[i].Acked? :: ended[i].id
  }

  ghost function AckedIds(s: O.Sender): set<Id> {
    AckedIn(s.ended)
  }

  predicate Acks(outcome: Option<Attempt>) {
    outcome.Some? && outcome.value.httpOk
  }

  /** The map once the send of `id` has resolved. */
  function Resolved(m: Attempts, id: Id, outcome: Option<Attempt>): Attempts {
    if outcome.None? then m else Recorded(m, Tracked(id, outcome.value))
  }

  ghost function Step(cfg: O.Config, o: Office, ev: Event): Office {
    match ev
    case Enqueue(e) => if !Fresh(o.sender, [e]) then o else Enqueued(cfg, o, e)
    case Post(d, es) =>
      if es == [] || d in o.calls || d in o.sender.drives || !Fresh(o.sender, es) then o else
        EnqueuedAll(cfg, o, es).(calls := o.calls[d := Call(IdsOf(es), Posted)])
    case Begin(d, t, listing) =>
      if d in o.sender.drives || (d in o.calls && !o.calls[d].stage.Posted?)
         || !O.Lists(listing, o.sender.pending) || !OldestFirst(o.rank, listing) then o else
        o.(sender := O.Step(cfg, o.sender, O.Begin(d, t, listing)),
           calls := if d in o.calls then o.calls[d := o.calls[d].(stage := Driving)] else o.calls)
    case Visit(d) => o.(sender := O.Step(cfg, o.sender, O.Visit(d)))
    case Settle(d, outcome) =>
      if d !in o.sender.drives || o.sender.drives[d].sending.None? then o else
        o.(sender := O.Step(cfg, o.sender, O.Settle(d, Acks(outcome))),
           attempts := Resolved(o.attempts, o.sender.drives[d].sending.value.entry.id, outcome))
    case Finish(d) =>
      if d !in o.sender.drives || o.sender.drives[d].sending.Some? || o.sender.drives[d].todo != [] then o else
        o.(sender := O.Step(cfg, o.sender, O.Finish(d)),
           calls := if d in o.calls then o.calls[d := o.calls[d].(stage := Driven)] else o.calls)
    case Read(d) =>
      if d !in o.calls || !o.calls[d].stage.Driven? then o else
        var ids := o.calls[d].ids;
        o.(attempts := Forget(o.attempts, ids, |ids|), calls := o.calls - {d},
           reports := o.reports + [Report(ids, ReadEach(o.attempts, ids), AckedIds(o.sender))])
    case Restart => o.(sender := O.Step(cfg, o.sender, O.Restart), attempts := Empty(), calls := map[])
  }

  ghost function After(cfg: O.Config, evs: seq<Event>): Office {
    if evs == [] then START else Step(cfg, After(cfg, evs[..|evs| - 1]), evs[|evs| - 1])
  }

  /** Dispatches from their posting to their reading, and ticks. */
  ghost function InProgress(o: Office): set<nat> {
    o.calls.Keys + o.sender.drives.Keys
  }

  /** At no time are more than `n` dispatches, ticks and lone enqueues in progress. */
  ghost predicate CallsAtMost(cfg: O.Config, n: nat, evs: seq<Event>) {
    && |InProgress(After(cfg, evs))| <= n
    && (evs == [] ||
        var pre, ev := evs[..|evs| - 1], evs[|evs| - 1];
        CallsAtMost(cfg, n, pre) && (ev.Enqueue? ==> |InProgress(After(cfg, pre))| < n))
  }

  /** How many of the messages were acked. */
  ghost function AckedOf(ids: seq<Id>, acked: set<Id>): nat {
    if ids == [] then 0 else AckedOf(ids[..|ids| - 1], acked) + if ids[|ids| - 1] in acked then 1 else 0
  }

  /** The number of deliveries that the dispatch returns is the number of its acked messages. */
  ghost predicate True(r: Report) {
    Delivered(r.results) == AckedOf(r.ids, r.acked)
  }

  /** Message by message: it is reported as delivered exactly if it was acked. */
  ghost predicate TrueEach(r: Report) {
    |r.results| == |r.ids| && forall i :: 0 <= i < |r.ids| ==> (r.results[i].httpOk <==> r.ids[i] in r.acked)
  }

  lemma {:induction false} TrueEachCounts(r: Report, n: nat)
    requires TrueEach(r) && n <= |r.ids|
    ensures Delivered(r.results[..n]) == AckedOf(r.ids[..n], r.acked)
  {
    if n > 0 {
      TrueEachCounts(r, n - 1);
      assert r.results[..n][..n - 1] == r.results[..n - 1] && r.ids[..n][..n - 1] == r.ids[..n - 1];
    }
  }

  lemma TrueEachIsTrue(r: Report)
    requires TrueEach(r)
    ensures True(r)
  {
    TrueEachCounts(r, |r.ids|);
    assert r.results[..|r.results|] == r.results && r.ids[..|r.ids|] == r.ids;
  }

  // ---------------------------------------------------------------------------------------------
  // What every run keeps
  // ---------------------------------------------------------------------------------------------

  ghost predicate Inv(cfg: O.Config, o: Office) {
    && O.Inv(cfg, o.sender)
    && Bounded(o.attempts) && o.attempts.at.Keys <= o.sender.born.Keys
    && o.rank.Keys == o.sender.born.Keys && (forall id :: id in o.rank ==> o.rank[id] < o.count)
  }

  lemma EnqueuedInv(cfg: O.Config, o: Office, e: O.Entry)
    requires Inv(cfg, o) && e.id !in o.sender.born
    ensures Inv(cfg, Enqueued(cfg, o, e))
  {
    O.EnqueueInv(cfg, o.sender, e.id, e.target, e.payload, e.enqueuedAt);
  }

  /** What posting does to everything but the calls. */
  ghost predicate PostedRight(o: Office, x: Office, es: seq<O.Entry>) {
    && x.attempts == o.attempts && x.calls == o.calls && x.reports == o.reports
    && x.sender.drives == o.sender.drives && x.sender.ended == o.sender.ended
    && x.count == o.count + |es|
    && x.sender.born.Keys == o.sender.born.Keys + (set id | id in IdsOf(es))
    && (forall id :: id in o.rank ==> id in x.rank && x.rank[id] == o.rank[id])
    && (forall k :: 0 <= k < |es| ==>
          es[k].id in x.sender.pending && es[k].id in x.rank && x.rank[es[k].id] == o.count + k)
  }

  lemma PostNext(cfg: O.Config, o: Office, x: Office, es: seq<O.Entry>)
    requires es != [] && Fresh(o.sender, es)
    requires o.rank.Keys == o.sender.born.Keys
    requires var n := |es| - 1; PostedRight(o, x, es[..n]) && es[n].id !in x.sender.born
    ensures PostedRight(o, Enqueued(cfg, x, es[|es| - 1]), es)
  {
    var n := |es| - 1;
    assert forall k :: 0 <= k < n ==> es[..n][k] == es[k];
    assert IdsOf(es) == IdsOf(es[..n]) + [es[n].id];
    assert forall k :: 0 <= k < |es| ==> IdsOf(es)[k] == es[k].id;
  }

  lemma FreshInit(cfg: O.Config, o: Office, x: Office, es: seq<O.Entry>)
    requires es != [] && Fresh(o.sender, es)
    ensures var n := |es| - 1;
            && Fresh(o.sender, es[..n])
            && (PostedRight(o, x, es[..n]) ==> es[n].id !in x.sender.born)
  {
    var n := |es| - 1;
    assert IdsOf(es[..n]) == IdsOf(es)[..n];
    assert forall k :: 0 <= k < |es| ==> IdsOf(es)[k] == es[k].id;
  }

  lemma {:induction false} PostKeeps(cfg: O.Config, o: Office, es: seq<O.Entry>)
    requires Inv(cfg, o) && Fresh(o.sender, es)
    ensures Inv(cfg, EnqueuedAll(cfg, o, es)) && PostedRight(o, EnqueuedAll(cfg, o, es), es)
  {
    if es != [] {
      var n := |es| - 1;
      var x := EnqueuedAll(cfg, o, es[..n]);
      FreshInit(cfg, o, x, es);
      PostKeeps(cfg, o, es[..n]);
      PostNext(cfg, o, x, es);
      EnqueuedInv(cfg, x, es[n]);
    }
  }

  lemma InvWith(cfg: O.Config, o: Office, s: O.Sender)
    requires Inv(cfg, o) && O.Inv(cfg, s) && s.born == o.sender.born
    ensures Inv(cfg, o.(sender := s))
  {
  }

  lemma BornKept(cfg: O.Config, s: O.Sender, sev: O.Event)
    requires !sev.Enqueue?
    ensures O.Step(cfg, s, sev).born == s.born
  {
  }

  /** A step of the outbox that enqueues nothing keeps the invariant of all else. */
  lemma SenderKeeps(cfg: O.Config, o: Office, sev: O.Event)
    requires Inv(cfg, o) && !sev.Enqueue?
    ensures Inv(cfg, o.(sender := O.Step(cfg, o.sender, sev)))
    ensures O.Step(cfg, o.sender, sev).born == o.sender.born
  {
    O.StepInv(cfg, o.sender, sev);
    BornKept(cfg, o.sender, sev);
    InvWith(cfg, o, O.Step(cfg, o.sender, sev));
  }

  lemma RecordKeeps(cfg: O.Config, o: Office, id: Id, outcome: Option<Attempt>)
    requires Inv(cfg, o) && id in o.sender.born
    ensures Inv(cfg, o.(attempts := Resolved(o.attempts, id, outcome)))
  {
    if outcome.Some? {
      RecordedBounded(o.attempts, Tracked(id, outcome.value));
    }
  }

  /** Whatever a drive waits for was enqueued. */
  lemma AwaitedIsBorn(cfg: O.Config, s: O.Sender, d: nat)
    requires O.Inv(cfg, s) && d in s.drives && s.drives[d].sending.Some?
    ensures s.drives[d].sending.value.entry.id in s.born
  {
    assert O.DriveSound(cfg, s.born, s.sent, s.drives[d]);
  }

  lemma SettleKeeps(cfg: O.Config, o: Office, d: nat, outcome: Option<Attempt>)
    requires Inv(cfg, o) && d in o.sender.drives && o.sender.drives[d].sending.Some?
    ensures Inv(cfg, Step(cfg, o, Settle(d, outcome)))
  {
    var id := o.sender.drives[d].sending.value.entry.id;
    AwaitedIsBorn(cfg, o.sender, d);
    RecordKeeps(cfg, o, id, outcome);
    SenderKeeps(cfg, o.(attempts := Resolved(o.attempts, id, outcome)), O.Settle(d, Acks(outcome)));
  }

  lemma ReadKeeps(cfg: O.Config, o: Office, d: nat)
    requires Inv(cfg, o) && d in o.calls
    ensures Inv(cfg, Step(cfg, o, Read(d)))
  {
    ForgetKeeps(o.attempts, o.calls[d].ids, |o.calls[d].ids|);
  }

  lemma DriveKeeps(cfg: O.Config, o: Office, ev: Event)
    requires Inv(cfg, o) && (ev.Begin? || ev.Visit? || ev.Finish? || ev.Restart?)
    ensures Inv(cfg, Step(cfg, o, ev))
  {
    var sev := match ev
               case Begin(d, t, listing) => O.Begin(d, t, listing)
               case Visit(d) => O.Visit(d)
               case Finish(d) => O.Finish(d)
               case _ => O.Restart;
    SenderKeeps(cfg, o, sev);
  }

  lemma StepInv(cfg: O.Config, o: Office, ev: Event)
    requires Inv(cfg, o)
    ensures Inv(cfg, Step(cfg, o, ev))
  {
    match ev
    case Enqueue(e) =>
      if Fresh(o.sender, [e]) {
        assert [e][0] == e;
        EnqueuedInv(cfg, o, e);
      }
    case Post(d, es) =>
      if Fresh(o.sender, es) {
        PostKeeps(cfg, o, es);
      }
    case Settle(d, outcome) =>
      if d in o.sender.drives && o.sender.drives[d].sending.Some? {
        SettleKeeps(cfg, o, d, outcome);
      }
    case Read(d) =>
      if d in o.calls {
        ReadKeeps(cfg, o, d);
      }
    case _ => DriveKeeps(cfg, o, ev);
  }

  lemma {:induction false} RunInv(cfg: O.Config, evs: seq<Event>)
    ensures Inv(cfg, After(cfg, evs))
  {
    if evs != [] {
      RunInv(cfg, evs[..|evs| - 1]);
      StepInv(cfg, After(cfg, evs[..|evs| - 1]), evs[|evs| - 1]);
    }
  }

  // ---------------------------------------------------------------------------------------------
  // One at a time: what is true of a dispatch while nothing else is in progress
  // ---------------------------------------------------------------------------------------------

  /** The messages of the call still to visit, which come last in what the drive has to do, in order. */
  ghost predicate TodoRight(ids: seq<Id>, todo: seq<O.Entry>) {
    forall i :: 0 <= i < |todo| ==> TodoAt(ids, todo, i)
  }

  ghost predicate TodoAt(ids: seq<Id>, todo: seq<O.Entry>, i: int)
    requires 0 <= i < |todo|
  {
    var p := i + |ids| - |todo|;
    if p >= 0 then todo[i].id == ids[p] else todo[i].id !in ids
  }

  /** How many messages of the call the drive has visited. */
  function Visited(ids: seq<Id>, todo: seq<O.Entry>): nat {
    if |todo| >= |ids| then 0 else |ids| - |todo|
  }

  /** How many of them it is through with: not the one it is sending. */
  function Through(ids: seq<Id>, dr: O.Drive): nat {
    var j := Visited(ids, dr.todo);
    if j > 0 && dr.sending.Some? && dr.sending.value.entry.id == ids[j - 1] then j - 1 else j
  }

  /** The entry being sent is of the message visited last, or of an older one while none is visited. */
  ghost predicate SendingRight(ids: seq<Id>, dr: O.Drive) {
    dr.sending.Some? ==>
      var id, j := dr.sending.value.entry.id, Visited(ids, dr.todo);
      if j == 0 then id !in ids else id == ids[j - 1]
  }

  /**
   * Of the first `n` messages exactly the acked ones are tracked as delivered, none of the others is tracked or
   * acked, and the tracked ones stand behind every other tracked id.
   */
  ghost predicate Told(m: Attempts, ids: seq<Id>, acked: set<Id>, n: nat)
    requires n <= |ids|
  {
    && (forall k :: 0 <= k < |ids| ==> (ids[k] in acked <==> k < n && ReadAt(m, ids[k]).httpOk))
    && (forall k :: n <= k < |ids| ==> ids[k] !in m.at)
    && (forall i, j :: 0 <= i < j < |m.order| && m.order[i] in ids ==> m.order[j] in ids)
  }

  ghost predicate DriveRight(ids: seq<Id>, dr: O.Drive, m: Attempts, acked: set<Id>) {
    TodoRight(ids, dr.todo) && SendingRight(ids, dr) && Told(m, ids, acked, Through(ids, dr))
  }

  ghost predicate CallRight(o: Office, c: Call, d: nat) {
    var acked := AckedIds(o.sender);
    && NoDup(c.ids)
    && match c.stage
       case Posted =>
         && o.sender.drives == map[] && Told(o.attempts, c.ids, acked, 0)
         && |c.ids| <= o.count
         && (forall k :: 0 <= k < |c.ids| ==>
               c.ids[k] in o.sender.pending && c.ids[k] in o.rank && o.rank[c.ids[k]] == o.count - |c.ids| + k)
       case Driving =>
         d in o.sender.drives && DriveRight(c.ids, o.sender.drives[d], o.attempts, acked)
       case Driven => o.sender.drives == map[] && Told(o.attempts, c.ids, acked, |c.ids|)
  }

  /** The dispatch is in progress alone, and it is small enough for the map. */
  ghost predicate AloneRight(o: Office) {
    forall d :: d in o.calls && |o.calls[d].ids| <= 500 ==> CallRight(o, o.calls[d], d)
  }

  ghost predicate AllTrue(o: Office) {
    forall k :: 0 <= k < |o.reports| && |o.reports[k].ids| <= 500 ==> TrueEach(o.reports[k])
  }

  // --- the map -------------------------------------------------------------------------------

  lemma {:induction false} DistinctFit(s: seq<Id>, t: seq<Id>)
    requires NoDup(s) && forall i :: 0 <= i < |s| ==> s[i] in t
    ensures |s| <= |t|
  {
    if s != [] {
      var n := |s| - 1;
      var rest := Without(t, s[n]);
      WithoutShorter(t, s[n]);
      DistinctFit(s[..n], rest);
    }
  }

  lemma {:induction false} WithoutShorter(t: seq<Id>, x: Id)
    requires x in t
    ensures |Without(t, x)| < |t|
  {
    if t[0] != x {
      WithoutShorter(t[1..], x);
    }
  }

  /** A full map has a tracked id that is not of the call, and the first is one. */
  lemma FirstIsForeign(m: Attempts, ids: seq<Id>, acked: set<Id>, n: nat)
    requires m.Valid() && n < |ids| <= 500 && |m.order| >= 500
             && Told(m, ids, acked, n)
    ensures m.order[0] !in ids
  {
    if m.order[0] in ids {
      forall i | 0 <= i < |m.order|
        ensures m.order[i] in ids[..n]
      {
        assert m.order[i] in ids && m.order[i] in m.order;
        var k :| 0 <= k < |ids| && ids[k] == m.order[i];
        assert ids[..n][k] == m.order[i];
      }
      DistinctFit(m.order, ids[..n]);
    }
  }

  /** `x` is `m` with the attempt `r` of an untracked id added, and at most one id that is not of the call dropped. */
  ghost predicate Adds(m: Attempts, x: Attempts, ids: seq<Id>, r: Tracked) {
    && r.id in x.at && x.at[r.id] == r.attempt
    && (forall id :: id in x.at && id != r.id ==> id in m.at && x.at[id] == m.at[id])
    && (forall id :: id in m.at && id in ids ==> id in x.at)
    && (x.order == m.order + [r.id] || (m.order != [] && x.order == m.order[1..] + [r.id]))
  }

  lemma RecordedAdds(m: Attempts, ids: seq<Id>, acked: set<Id>, n: nat, a: Attempt)
    requires Bounded(m) && n < |ids| <= 500 && Told(m, ids, acked, n)
    ensures Adds(m, Recorded(m, Tracked(ids[n], a)), ids, Tracked(ids[n], a))
  {
    if |m.order| >= 500 {
      FirstIsForeign(m, ids, acked, n);
      WithoutFirst(m.order);
    }
    RecordedBounded(m, Tracked(ids[n], a));
  }

  lemma AddsTail(m: Attempts, x: Attempts, ids: seq<Id>, acked: set<Id>, n: nat, r: Tracked)
    requires n < |ids| && r.id == ids[n] && Told(m, ids, acked, n) && Adds(m, x, ids, r)
    ensures forall i, j :: 0 <= i < j < |x.order| && x.order[i] in ids ==> x.order[j] in ids
  {
    var shift := if x.order == m.order + [r.id] then 0 else 1;
    forall i, j | 0 <= i < j < |x.order| && x.order[i] in ids
      ensures x.order[j] in ids
    {
      if j < |x.order| - 1 {
        assert x.order[i] == m.order[i + shift] && x.order[j] == m.order[j + shift];
      }
    }
  }

  lemma AddsTold(m: Attempts, x: Attempts, ids: seq<Id>, acked: set<Id>, n: nat, r: Tracked)
    requires NoDup(ids) && n < |ids| && r.id == ids[n] && Told(m, ids, acked, n) && Adds(m, x, ids, r)
    ensures Told(x, ids, if r.attempt.httpOk then acked + {ids[n]} else acked, n + 1)
  {
    AddsTail(m, x, ids, acked, n, r);
    forall k | 0 <= k < |ids| && k != n
      ensures ids[k] != ids[n] && (ids[k] in x.at <==> ids[k] in m.at) && ReadAt(x, ids[k]) == ReadAt(m, ids[k])
    {
      assert ids[k] in ids;
    }
  }

  /** Recording the attempt of the next message keeps what is told of the ones before. */
  lemma TellOwn(m: Attempts, ids: seq<Id>, acked: set<Id>, n: nat, a: Attempt)
    requires Bounded(m) && NoDup(ids) && n < |ids| <= 500 && Told(m, ids, acked, n)
    ensures Told(Recorded(m, Tracked(ids[n], a)), ids, if a.httpOk then acked + {ids[n]} else acked, n + 1)
  {
    RecordedAdds(m, ids, acked, n, a);
    AddsTold(m, Recorded(m, Tracked(ids[n], a)), ids, acked, n, Tracked(ids[n], a));
  }

  /** Recording an attempt of another message, while none of the call is tracked, tells nothing of the call. */
  lemma TellOther(m: Attempts, ids: seq<Id>, acked: set<Id>, r: Tracked)
    requires Bounded(m) && r.id !in ids && Told(m, ids, acked, 0)
    ensures Told(Recorded(m, r), ids, if r.attempt.httpOk then acked + {r.id} else acked, 0)
  {
    var x := Recorded(m, r);
    RecordedBounded(m, r);
    forall i | 0 <= i < |x.order|
      ensures x.order[i] !in ids
    {
      assert x.order[i] in x.order;
    }
  }

  /** The next message was passed over: it is neither tracked nor acked. */
  lemma TellNothing(m: Attempts, ids: seq<Id>, acked: set<Id>, n: nat)
    requires n < |ids| && Told(m, ids, acked, n)
    ensures Told(m, ids, acked, n + 1)
  {
    assert ids[n] !in m.at;
  }

  // --- the drive -----------------------------------------------------------------------------

  ghost predicate Listed(listing: seq<O.Entry>, id: Id) {
    exists i :: 0 <= i < |listing| && listing[i].id == id
  }

  /** In a listing oldest first, the newest message is the last, and all the others come before it. */
  lemma NewestIsLast(rank: map<Id, nat>, listing: seq<O.Entry>, id: Id)
    requires OldestFirst(rank, listing) && Listed(listing, id)
    requires forall i :: 0 <= i < |listing| ==> rank[listing[i].id] <= rank[id]
    ensures listing != [] && listing[|listing| - 1].id == id
    ensures forall other :: other != id && Listed(listing, other) ==> Listed(listing[..|listing| - 1], other)
  {
    var l := |listing| - 1;
    var p :| 0 <= p < |listing| && listing[p].id == id;
    assert rank[listing[l].id] <= rank[id];
    assert p == l;
    forall other | other != id && Listed(listing, other)
      ensures Listed(listing[..l], other)
    {
      var i :| 0 <= i < |listing| && listing[i].id == other;
      assert listing[..l][i].id == other;
    }
  }

  /** The messages ranked `base` and up are listed last, in order. */
  lemma {:induction false} NewestLast(rank: map<Id, nat>, listing: seq<O.Entry>, ids: seq<Id>, base: nat)
    requires OldestFirst(rank, listing) && forall k :: 0 <= k < |ids| ==> ids[k] in rank && rank[ids[k]] == base + k
    requires forall i :: 0 <= i < |listing| ==> rank[listing[i].id] < base + |ids|
    requires forall k :: 0 <= k < |ids| ==> Listed(listing, ids[k])
    ensures |listing| >= |ids| && forall k :: 0 <= k < |ids| ==> listing[|listing| - |ids| + k].id == ids[k]
    ensures forall i :: 0 <= i < |listing| - |ids| ==> rank[listing[i].id] < base
  {
    if ids != [] {
      var n, l := |ids| - 1, |listing| - 1;
      NewestIsLast(rank, listing, ids[n]);
      forall k | 0 <= k < n
        ensures Listed(listing[..l], ids[..n][k])
      {
        assert rank[ids[k]] != rank[ids[n]];
      }
      NewestLast(rank, listing[..l], ids[..n], base);
      assert forall i :: 0 <= i < l ==> listing[..l][i] == listing[i];
    }
  }

  lemma BeginTodo(o: Office, c: Call, d: nat, listing: seq<O.Entry>)
    requires CallRight(o, c, d) && c.stage.Posted? && (forall id :: id in o.rank ==> o.rank[id] < o.count)
    requires O.Lists(listing, o.sender.pending) && OldestFirst(o.rank, listing)
    requires forall id :: id in o.sender.pending ==> o.sender.pending[id].id == id
    ensures TodoRight(c.ids, listing) && Visited(c.ids, listing) == 0
  {
    var ids, base := c.ids, o.count - |c.ids|;
    forall k | 0 <= k < |ids|
      ensures Listed(listing, ids[k])
    {
      var e := o.sender.pending[ids[k]];
      assert e in listing;
      var i :| 0 <= i < |listing| && listing[i] == e;
      assert listing[i].id == ids[k];
    }
    NewestLast(o.rank, listing, ids, base);
    forall i | 0 <= i < |listing|
      ensures TodoAt(ids, listing, i)
    {
    }
  }

  lemma AckedAppend(ended: seq<O.Terminal>, x: O.Terminal)
    ensures AckedIn(ended + [x]) == AckedIn(ended) + if x.Acked? then {x.id} else {}
  {
    var all := ended + [x];
    forall id | id in AckedIn(ended)
      ensures id in AckedIn(all)
    {
      var i :| 0 <= i < |ended| && ended[i].Acked? && ended[i].id == id;
      assert all[i] == ended[i];
    }
    assert all[|ended|] == x;
  }

  /** Visiting the next entry: what remains to do, and how far the call is told. */
  lemma VisitTold(ids: seq<Id>, dr: O.Drive, dr': O.Drive, m: Attempts, acked: set<Id>)
    requires NoDup(ids) && TodoRight(ids, dr.todo) && dr.sending.None? && dr.todo != [] && dr'.todo == dr.todo[1..]
    requires dr'.sending.Some? ==> dr'.sending.value.entry == dr.todo[0]
    requires Told(m, ids, acked, Through(ids, dr))
    ensures DriveRight(ids, dr', m, acked)
  {
    assert TodoAt(ids, dr.todo, 0);
    forall i | 0 <= i < |dr'.todo|
      ensures TodoAt(ids, dr'.todo, i)
    {
      assert TodoAt(ids, dr.todo, i + 1);
    }
    var j := Visited(ids, dr.todo);
    if |dr.todo| <= |ids| && dr'.sending.None? {
      TellNothing(m, ids, acked, j);
    }
  }

  lemma VisitRight(cfg: O.Config, o: Office, d: nat)
    requires d in o.calls && o.calls[d].stage.Driving? && CallRight(o, o.calls[d], d)
    ensures CallRight(Step(cfg, o, Visit(d)), o.calls[d], d)
  {
    var dr := o.sender.drives[d];
    if dr.sending.None? && dr.todo != [] {
      var s' := O.VisitStep(cfg, o.sender, d);
      AckedAppend(o.sender.ended, O.DeadLettered(dr.todo[0].id));
      assert AckedIds(s') == AckedIds(o.sender);
      VisitTold(o.calls[d].ids, dr, s'.drives[d], o.attempts, AckedIds(o.sender));
    }
  }

  /** The awaited send resolves: its attempt is recorded before the drive goes on. */
  lemma SettleTold(ids: seq<Id>, dr: O.Drive, dr': O.Drive, m: Attempts, acked: set<Id>, outcome: Option<Attempt>)
    requires Bounded(m) && NoDup(ids) && |ids| <= 500
    requires dr.sending.Some? && DriveRight(ids, dr, m, acked) && dr'.todo == dr.todo && dr'.sending.None?
    ensures var id := dr.sending.value.entry.id;
            DriveRight(ids, dr', Resolved(m, id, outcome), if Acks(outcome) then acked + {id} else acked)
  {
    var id, j := dr.sending.value.entry.id, Visited(ids, dr.todo);
    if j == 0 {
      if outcome.Some? {
        TellOther(m, ids, acked, Tracked(id, outcome.value));
      }
    } else if outcome.Some? {
      TellOwn(m, ids, acked, j - 1, outcome.value);
    } else {
      TellNothing(m, ids, acked, j - 1);
    }
  }

  /** What settling a send does. */
  lemma SettleEffect(cfg: O.Config, o: Office, d: nat, outcome: Option<Attempt>)
    requires d in o.sender.drives && o.sender.drives[d].sending.Some?
    ensures var id, x := o.sender.drives[d].sending.value.entry.id, Step(cfg, o, Settle(d, outcome));
            && d in x.sender.drives && x.sender.drives[d].todo == o.sender.drives[d].todo
            && x.sender.drives[d].sending.None?
            && x.attempts == Resolved(o.attempts, id, outcome)
            && AckedIds(x.sender) == if Acks(outcome) then AckedIds(o.sender) + {id} else AckedIds(o.sender)
  {
    AckedAppend(o.sender.ended, O.Acked(o.sender.drives[d].sending.value.entry.id));
  }

  lemma SettleRight(cfg: O.Config, o: Office, d: nat, outcome: Option<Attempt>)
    requires Bounded(o.attempts) && d in o.calls && o.calls[d].stage.Driving? && CallRight(o, o.calls[d], d)
    requires |o.calls[d].ids| <= 500
    ensures CallRight(Step(cfg, o, Settle(d, outcome)), o.calls[d], d)
  {
    var dr, x := o.sender.drives[d], Step(cfg, o, Settle(d, outcome));
    if dr.sending.Some? {
      SettleEffect(cfg, o, d, outcome);
      SettleTold(o.calls[d].ids, dr, x.sender.drives[d], o.attempts, AckedIds(o.sender), outcome);
    }
  }

  lemma FinishRight(cfg: O.Config, o: Office, d: nat)
    requires d in o.calls && o.calls[d].stage.Driving? && CallRight(o, o.calls[d], d) && o.sender.drives.Keys <= {d}
    requires o.sender.drives[d].sending.None? && o.sender.drives[d].todo == []
    ensures CallRight(Step(cfg, o, Finish(d)), o.calls[d].(stage := Driven), d)
  {
    assert o.sender.drives - {d} == map[];
  }

  lemma BeginRight(cfg: O.Config, o: Office, d: nat, t: int, listing: seq<O.Entry>)
    requires Inv(cfg, o) && d in o.calls && o.calls[d].stage.Posted? && CallRight(o, o.calls[d], d)
    requires O.Lists(listing, o.sender.pending) && OldestFirst(o.rank, listing)
    ensures CallRight(Step(cfg, o, Begin(d, t, listing)), o.calls[d].(stage := Driving), d)
  {
    BeginTodo(o, o.calls[d], d, listing);
  }

  lemma FreshUntold(cfg: O.Config, o: Office, es: seq<O.Entry>)
    requires Inv(cfg, o) && Fresh(o.sender, es)
    ensures Told(o.attempts, IdsOf(es), AckedIds(o.sender), 0)
  {
    var ids := IdsOf(es);
    forall k | 0 <= k < |ids|
      ensures ids[k] !in o.sender.born
    {
      assert ids[k] == es[k].id;
    }
    forall id | id in AckedIds(o.sender)
      ensures id in o.sender.born
    {
      assert id in O.EndedIds(o.sender.ended);
    }
    forall i | 0 <= i < |o.attempts.order|
      ensures o.attempts.order[i] !in ids
    {
      assert o.attempts.order[i] in o.attempts.order;
      assert o.attempts.order[i] in o.attempts.at.Keys;
    }
  }

  lemma PostedCall(o: Office, x: Office, d: nat, es: seq<O.Entry>)
    requires PostedRight(o, x, es) && NoDup(IdsOf(es)) && o.sender.drives == map[]
    requires Told(o.attempts, IdsOf(es), AckedIds(o.sender), 0)
    ensures CallRight(x.(calls := o.calls[d := Call(IdsOf(es), Posted)]), Call(IdsOf(es), Posted), d)
  {
    assert forall k :: 0 <= k < |es| ==> IdsOf(es)[k] == es[k].id;
  }

  lemma PostRight(cfg: O.Config, o: Office, d: nat, es: seq<O.Entry>)
    requires Inv(cfg, o) && Fresh(o.sender, es) && o.sender.drives == map[]
    ensures var x := EnqueuedAll(cfg, o, es);
            CallRight(x.(calls := o.calls[d := Call(IdsOf(es), Posted)]), Call(IdsOf(es), Posted), d)
  {
    PostKeeps(cfg, o, es);
    FreshUntold(cfg, o, es);
    PostedCall(o, EnqueuedAll(cfg, o, es), d, es);
  }

  lemma ReadTrue(o: Office, c: Call, d: nat)
    requires CallRight(o, c, d) && c.stage.Driven?
    ensures TrueEach(Report(c.ids, ReadEach(o.attempts, c.ids), AckedIds(o.sender)))
  {
  }

  // --- runs ----------------------------------------------------------------------------------

  lemma OnlyOne(s: set<nat>, a: nat, b: nat)
    requires |s| <= 1 && a in s && b in s
    ensures a == b
  {
    assert |s - {a}| == |s| - 1;
    assert a == b || b in s - {a};
  }

  /** Who is in progress is in progress alone. */
  ghost predicate Alone(o: Office) {
    forall a, b :: a in InProgress(o) && b in InProgress(o) ==> a == b
  }

  lemma AtMostOneIsAlone(o: Office)
    requires |InProgress(o)| <= 1
    ensures Alone(o)
  {
    forall a, b | a in InProgress(o) && b in InProgress(o)
      ensures a == b
    {
      OnlyOne(InProgress(o), a, b);
    }
  }

  ghost predicate Solo(cfg: O.Config, o: Office) {
    Inv(cfg, o) && AloneRight(o) && AllTrue(o)
  }

  lemma SoloPost(cfg: O.Config, o: Office, d: nat, es: seq<O.Entry>)
    requires Solo(cfg, o) && Alone(Step(cfg, o, Post(d, es)))
    ensures AloneRight(Step(cfg, o, Post(d, es))) && Step(cfg, o, Post(d, es)).reports == o.reports
  {
    var x := Step(cfg, o, Post(d, es));
    if !(es == [] || d in o.calls || d in o.sender.drives || !Fresh(o.sender, es)) {
      PostKeeps(cfg, o, es);
      assert d in InProgress(x);
      assert forall d2 :: d2 in InProgress(o) ==> d2 in InProgress(x) && d2 != d;
      assert o.sender.drives.Keys <= InProgress(o) && o.calls.Keys <= InProgress(o);
      assert o.sender.drives == map[] && o.calls == map[];
      PostRight(cfg, o, d, es);
    }
  }

  lemma SoloBegin(cfg: O.Config, o: Office, d: nat, t: int, listing: seq<O.Entry>)
    requires Solo(cfg, o) && Alone(Step(cfg, o, Begin(d, t, listing)))
    ensures AloneRight(Step(cfg, o, Begin(d, t, listing)))
  {
    var x := Step(cfg, o, Begin(d, t, listing));
    if x != o {
      forall d2 | d2 in x.calls && |x.calls[d2].ids| <= 500
        ensures CallRight(x, x.calls[d2], d2)
      {
        assert d in InProgress(x) && d2 in InProgress(x);
        BeginRight(cfg, o, d, t, listing);
      }
    }
  }

  lemma SoloVisit(cfg: O.Config, o: Office, d: nat)
    requires Solo(cfg, o) && Alone(o)
    ensures AloneRight(Step(cfg, o, Visit(d)))
  {
    var x := Step(cfg, o, Visit(d));
    if d in o.sender.drives {
      forall d2 | d2 in x.calls && |x.calls[d2].ids| <= 500
        ensures CallRight(x, x.calls[d2], d2)
      {
        assert d in InProgress(o) && d2 in InProgress(o);
        VisitRight(cfg, o, d);
      }
    }
  }

  lemma SoloSettle(cfg: O.Config, o: Office, d: nat, outcome: Option<Attempt>)
    requires Solo(cfg, o) && Alone(o)
    ensures AloneRight(Step(cfg, o, Settle(d, outcome)))
  {
    var x := Step(cfg, o, Settle(d, outcome));
    if x != o {
      forall d2 | d2 in x.calls && |x.calls[d2].ids| <= 500
        ensures CallRight(x, x.calls[d2], d2)
      {
        assert d in InProgress(o) && d2 in InProgress(o);
        SettleRight(cfg, o, d, outcome);
      }
    }
  }

  lemma SoloFinish(cfg: O.Config, o: Office, d: nat)
    requires Solo(cfg, o) && Alone(o)
    ensures AloneRight(Step(cfg, o, Finish(d)))
  {
    var x := Step(cfg, o, Finish(d));
    if x != o {
      forall d2 | d2 in o.sender.drives
        ensures d2 == d
      {
        assert d in InProgress(o) && d2 in InProgress(o);
      }
      forall d2 | d2 in x.calls && |x.calls[d2].ids| <= 500
        ensures CallRight(x, x.calls[d2], d2)
      {
        assert d in InProgress(o) && d2 in InProgress(o);
        FinishRight(cfg, o, d);
      }
    }
  }

  lemma SoloRead(cfg: O.Config, o: Office, d: nat)
    requires Solo(cfg, o) && Alone(o)
    ensures AloneRight(Step(cfg, o, Read(d))) && AllTrue(Step(cfg, o, Read(d)))
  {
    if d in o.calls && o.calls[d].stage.Driven? {
      forall d2 | d2 in o.calls
        ensures d2 == d
      {
        assert d in InProgress(o) && d2 in InProgress(o);
      }
      if |o.calls[d].ids| <= 500 {
        ReadTrue(o, o.calls[d], d);
      }
    }
  }

  lemma SoloStep(cfg: O.Config, o: Office, ev: Event)
    requires Solo(cfg, o) && Alone(o) && Alone(Step(cfg, o, ev)) && (ev.Enqueue? ==> InProgress(o) == {})
    ensures Solo(cfg, Step(cfg, o, ev))
  {
    StepInv(cfg, o, ev);
    match ev
    case Enqueue(e) =>
      assert o.calls == map[] by {
        assert o.calls.Keys <= InProgress(o);
      }
    case Post(d, es) => SoloPost(cfg, o, d, es);
    case Begin(d, t, listing) => SoloBegin(cfg, o, d, t, listing);
    case Visit(d) => SoloVisit(cfg, o, d);
    case Settle(d, outcome) => SoloSettle(cfg, o, d, outcome);
    case Finish(d) => SoloFinish(cfg, o, d);
    case Read(d) => SoloRead(cfg, o, d);
    case Restart =>
  }

  lemma {:induction false} SoloRun(cfg: O.Config, n: nat, evs: seq<Event>)
    requires n <= 1 && CallsAtMost(cfg, n, evs)
    ensures Solo(cfg, After(cfg, evs))
  {
    if evs != [] {
      var pre := evs[..|evs| - 1];
      SoloRun(cfg, n, pre);
      AtMostOneIsAlone(After(cfg, pre));
      AtMostOneIsAlone(After(cfg, evs));
      SoloStep(cfg, After(cfg, pre), evs[|evs| - 1]);
    }
  }

  // ---------------------------------------------------------------------------------------------
  // With two in progress
  // ---------------------------------------------------------------------------------------------

  lemma CallsNext(cfg: O.Config, n: nat, evs: seq<Event>, ev: Event)
    requires CallsAtMost(cfg, n, evs) && !ev.Enqueue? && |InProgress(Step(cfg, After(cfg, evs), ev))| <= n
    ensures After(cfg, evs + [ev]) == Step(cfg, After(cfg, evs), ev) && CallsAtMost(cfg, n, evs + [ev])
  {
    assert (evs + [ev])[..|evs|] == evs;
  }

  const GOOD := Attempt(true, true, false)

  const REFUSED := Attempt(false, true, false)

  const HELLO := O.Entry(7, "peer", "hello", 0, 0, 0)

  /**
   * A dispatch of one message and a tick both send it; the tick's send is acked, and then the dispatch's own
   * send is refused, so that the map's last word on the acked message is a refusal.
   */
  const RACE := [Post(0, [HELLO]), Begin(0, 0, [HELLO]), Begin(1, 0, [HELLO]), Visit(0), Visit(1),
                 Settle(1, Some(GOOD)), Settle(0, Some(REFUSED)), Finish(0), Read(0)]

  /** The drive that sends the message as number `k`, before it visits, while it waits, and once answered. */
  function RaceDrive(k: nat, sends: bool, answered: bool, ack: bool): O.Drive {
    if !sends then O.Drive(0, [HELLO], None, O.Summary(0, 0, 0, 0))
    else if !answered then O.Drive(0, [], Some(O.Request(k, HELLO)), O.Summary(1, 0, 0, 0))
    else O.Drive(0, [], None, if ack then O.Summary(1, 1, 0, 0) else O.Summary(1, 0, 1, 0))
  }

  function RaceDrives(i: nat): map<nat, O.Drive> {
    if i <= 1 then map[]
    else if i == 2 then map[0 := RaceDrive(0, false, false, false)]
    else if i <= 7 then map[0 := RaceDrive(0, i >= 4, i >= 7, false), 1 := RaceDrive(1, i >= 5, i >= 6, true)]
    else map[1 := RaceDrive(1, true, true, true)]
  }

  function RaceSender(i: nat): O.Sender {
    var sent := if i <= 3 then [] else if i == 4 then [O.Sent(HELLO, 0)] else [O.Sent(HELLO, 0), O.Sent(HELLO, 0)];
    O.Sender(if i <= 5 then map[7 := HELLO] else map[], map[7 := HELLO], RaceDrives(i), sent, {},
             if i <= 5 then [] else [O.Acked(7)])
  }

  function RaceAttempts(i: nat): Attempts {
    if i <= 5 || i >= 9 then Empty() else JsMap([7], map[7 := if i == 6 then GOOD else REFUSED])
  }

  function RaceCalls(i: nat): map<nat, Call> {
    if i >= 9 then map[] else map[0 := Call([7], if i == 1 then Posted else if i <= 7 then Driving else Driven)]
  }

  /** The state after the first `i` events. */
  function Race(i: nat): Office {
    if i == 0 then START
    else Office(RaceSender(i), map[7 := 0], 1, RaceAttempts(i), RaceCalls(i),
                if i <= 8 then [] else [Report([7], [REFUSED], {7})])
  }

  lemma RacePosts(cfg: O.Config)
    ensures Step(cfg, Race(0), RACE[0]) == Race(1)
  {
    assert IdsOf([HELLO]) == [7];
    assert [HELLO][..0] == [] && Fresh(O.START, [HELLO]);
    assert EnqueuedAll(cfg, START, [HELLO]) == Enqueued(cfg, START, HELLO);
  }

  lemma RaceBegins(cfg: O.Config, i: nat)
    requires i == 1 || i == 2
    ensures Step(cfg, Race(i), RACE[i]) == Race(i + 1)
  {
    var o := Race(i);
    assert O.Lists([HELLO], o.sender.pending) && OldestFirst(o.rank, [HELLO]);
  }

  lemma RaceFirstVisit(cfg: O.Config)
    ensures Step(cfg, Race(3), RACE[3]) == Race(4)
  {
    assert [HELLO][1..] == [];
  }

  lemma RaceSecondVisit(cfg: O.Config)
    ensures Step(cfg, Race(4), RACE[4]) == Race(5)
  {
    assert [HELLO][1..] == [];
  }

  lemma RaceFirstSettle(cfg: O.Config)
    ensures Step(cfg, Race(5), RACE[5]) == Race(6)
  {
    assert Race(5).sender.pending - {7} == map[];
  }

  lemma RaceSecondSettle(cfg: O.Config)
    ensures Step(cfg, Race(6), RACE[6]) == Race(7)
  {
  }

  lemma RaceFinishes(cfg: O.Config)
    ensures Step(cfg, Race(7), RACE[7]) == Race(8)
  {
  }

  lemma RaceReads(cfg: O.Config)
    ensures Step(cfg, Race(8), RACE[8]) == Race(9)
  {
    var m := Race(8).attempts;
    assert ReadEach(m, [7]) == [REFUSED];
    assert Forget(m, [7], 1) == Drop(m, 7);
    assert Without([7], 7) == [];
    assert m.at - {7} == map[];
    assert AckedIds(Race(8).sender) == {7} by {
      AckedAppend([], O.Acked(7));
      assert [] + [O.Acked(7)] == [O.Acked(7)];
    }
  }

  lemma RaceStep(cfg: O.Config, i: nat)
    requires i < 9
    ensures Step(cfg, Race(i), RACE[i]) == Race(i + 1)
  {
    if i == 0 {
      RacePosts(cfg);
    } else if i <= 2 {
      RaceBegins(cfg, i);
    } else if i == 3 {
      RaceFirstVisit(cfg);
    } else if i == 4 {
      RaceSecondVisit(cfg);
    } else if i == 5 {
      RaceFirstSettle(cfg);
    } else if i == 6 {
      RaceSecondSettle(cfg);
    } else if i == 7 {
      RaceFinishes(cfg);
    } else {
      RaceReads(cfg);
    }
  }

  lemma RaceInProgress(i: nat)
    requires i <= 9
    ensures |InProgress(Race(i))| <= 2
  {
    AtMostTwo(InProgress(Race(i)), 0, 1);
  }

  lemma AtMostTwo(s: set<nat>, a: nat, b: nat)
    requires s <= {a, b}
    ensures |s| <= 2
  {
    assert |s - {a}| >= |s| - 1 && |s - {a} - {b}| >= |s - {a}| - 1;
    assert s - {a} - {b} == {};
  }

  /** The events lead from each of the states to the next. */
  ghost predicate Leads(cfg: O.Config, n: nat, evs: seq<Event>, states: nat -> Office, i: nat)
    requires i < |evs|
  {
    Step(cfg, states(i), evs[i]) == states(i + 1) && !evs[i].Enqueue? && |InProgress(states(i + 1))| <= n
  }

  lemma {:induction false} RunThrough(cfg: O.Config, n: nat, evs: seq<Event>, states: nat -> Office, i: nat)
    requires i <= |evs| && states(0) == START && forall k: nat :: k < |evs| ==> Leads(cfg, n, evs, states, k)
    ensures CallsAtMost(cfg, n, evs[..i]) && After(cfg, evs[..i]) == states(i)
  {
    if i == 0 {
      assert evs[..0] == [];
      assert InProgress(START) == {};
    } else {
      var pre := evs[..i - 1];
      RunThrough(cfg, n, evs, states, i - 1);
      assert Leads(cfg, n, evs, states, i - 1);
      CallsNext(cfg, n, pre, evs[i - 1]);
      assert evs[..i] == pre + [evs[i - 1]];
    }
  }

  lemma RaceRun(cfg: O.Config, n: nat)
    requires n >= 2
    ensures CallsAtMost(cfg, n, RACE) && After(cfg, RACE) == Race(9)
  {
    forall k: nat | k < |RACE|
      ensures Leads(cfg, n, RACE, Race, k)
    {
      RaceStep(cfg, k);
      RaceInProgress(k + 1);
    }
    RunThrough(cfg, n, RACE, Race, |RACE|);
    assert RACE[..|RACE|] == RACE;
  }

  lemma RefusalLies()
    ensures !True(Report([7], [REFUSED], {7}))
  {
    assert [REFUSED][..0] == [] && [7][..0] == [];
    assert Delivered([REFUSED]) == 0 && AckedOf([7], {7}) == 1;
  }

  /** The race reports no delivery although its message was acked. */
  lemma RaceLies(cfg: O.Config, n: nat)
    requires n >= 2
    ensures CallsAtMost(cfg, n, RACE) && !ReportsTrue(After(cfg, RACE))
  {
    RaceRun(cfg, n);
    RefusalLies();
    assert Race(9).reports[0] == Report([7], [REFUSED], {7});
  }

  /** Every dispatch of at most five hundred messages reported as many deliveries as it had acks. */
  ghost predicate ReportsTrue(o: Office) {
    forall k :: 0 <= k < |o.reports| ==> |o.reports[k].ids| > 500 || True(o.reports[k])
  }

  ghost predicate AlwaysTrue(cfg: O.Config, n: nat) {
    forall evs :: CallsAtMost(cfg, n, evs) ==> ReportsTrue(After(cfg, evs))
  }

  /**
   * Callers that keep at most `n` dispatches, ticks and lone enqueues in progress get true reports for
   * dispatches of at most five hundred messages exactly if `n` is at most one.
   */
  lemma AlwaysTrueIff(cfg: O.Config, n: nat)
    ensures AlwaysTrue(cfg, n) <==> n <= 1
  {
    if n <= 1 {
      forall evs | CallsAtMost(cfg, n, evs)
        ensures ReportsTrue(After(cfg, evs))
      {
        SoloRun(cfg, n, evs);
        AllTrueCounts(After(cfg, evs));
      }
    } else {
      RaceLies(cfg, n);
    }
  }

  lemma AllTrueCounts(o: Office)
    requires AllTrue(o)
    ensures ReportsTrue(o)
  {
    forall k | 0 <= k < |o.reports| && |o.reports[k].ids| <= 500
      ensures True(o.reports[k])
    {
      TrueEachIsTrue(o.reports[k]);
    }
  }

  /** Then it is even true message by message. */
  lemma AloneTrueEach(cfg: O.Config, evs: seq<Event>, k: nat)
    requires CallsAtMost(cfg, 1, evs) && k < |After(cfg, evs).reports|
    requires |After(cfg, evs).reports[k].ids| <= 500
    ensures TrueEach(After(cfg, evs).reports[k])
  {
    SoloRun(cfg, 1, evs);
  }

  /** However calls overlap, what they do to the outbox is a run of the outbox protocol. */
  lemma {:induction false} SenderRuns(cfg: O.Config, evs: seq<Event>) returns (sevs: seq<O.Event>)
    ensures After(cfg, evs).sender == O.After(cfg, O.START, sevs)
  {
    sevs := [];
    if evs != [] {
      var o, ev := After(cfg, evs[..|evs| - 1]), evs[|evs| - 1];
      sevs := SenderRuns(cfg, evs[..|evs| - 1]);
      if Step(cfg, o, ev).sender != o.sender {
        var more := SenderSteps(cfg, o, ev);
        O.AfterConcat(cfg, O.START, sevs, more);
        sevs := sevs + more;
      }
    }
  }

  lemma OneStep(cfg: O.Config, s: O.Sender, sev: O.Event) returns (sevs: seq<O.Event>)
    ensures O.After(cfg, s, sevs) == O.Step(cfg, s, sev)
  {
    sevs := [sev];
    assert sevs[..0] == [];
  }

  lemma SenderSteps(cfg: O.Config, o: Office, ev: Event) returns (sevs: seq<O.Event>)
    ensures Step(cfg, o, ev).sender == O.After(cfg, o.sender, sevs)
  {
    sevs := [];
    if Step(cfg, o, ev).sender != o.sender {
      match ev
      case Enqueue(e) => sevs := OneStep(cfg, o.sender, O.Enqueue(e.id, e.target, e.payload, e.enqueuedAt));
      case Post(d, es) => sevs := PostSteps(cfg, o, es);
      case Begin(d, t, listing) => sevs := OneStep(cfg, o.sender, O.Begin(d, t, listing));
      case Visit(d) => sevs := OneStep(cfg, o.sender, O.Visit(d));
      case Settle(d, outcome) => sevs := OneStep(cfg, o.sender, O.Settle(d, Acks(outcome)));
      case Finish(d) => sevs := OneStep(cfg, o.sender, O.Finish(d));
      case _ => sevs := OneStep(cfg, o.sender, O.Restart);
    }
  }

  lemma {:induction false} PostSteps(cfg: O.Config, o: Office, es: seq<O.Entry>) returns (sevs: seq<O.Event>)
    ensures EnqueuedAll(cfg, o, es).sender == O.After(cfg, o.sender, sevs)
  {
    sevs := [];
    if es != [] {
      var e := es[|es| - 1];
      sevs := PostSteps(cfg, o, es[..|es| - 1]);
      O.AfterAppend(cfg, o.sender, sevs, O.Enqueue(e.id, e.target, e.payload, e.enqueuedAt));
      sevs := sevs + [O.Enqueue(e.id, e.target, e.payload, e.enqueuedAt)];
    }
  }
}
