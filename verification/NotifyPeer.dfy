/**
 * Dispatching to peers while nothing else drives the outbox: persist every message, drive once, and report
 * what the sends recorded.
 */
module NotifyPeer {
  import opened Common
  import opened OutboxProtocol
  import opened OutboxSequential
  import opened OutboxCode
  import opened AttemptLog

  /** What the transport makes of each id in one drive; `None` is a rejected send, which records nothing. */
  type Outcomes = Id -> Option<Attempt>

  function ReplyOf(outcomes: Outcomes): Id -> SendReply {
    (id: Id) => if outcomes(id).None? then Rejected else Replied(outcomes(id).value.httpOk)
  }

  /** What a drive at time `t` records for an entry, if it sends it and the send is not rejected. */
  function Try(cfg: Config, t: int, outcomes: Outcomes, e: Entry): Option<Attempt> {
    if Attempted(cfg, e, t) then outcomes(e.id) else None
  }

  predicate Acks(cfg: Config, t: int, outcomes: Outcomes, e: Entry) {
    Try(cfg, t, outcomes, e).Some? && Try(cfg, t, outcomes, e).value.httpOk
  }

  /** What the sends of a drive over the listing record, in order. */
  function Records(cfg: Config, t: int, outcomes: Outcomes, es: seq<Entry>): seq<Tracked> {
    if es == [] then []
    else
      var e := es[|es| - 1];
      Records(cfg, t, outcomes, es[..|es| - 1])
      + if Try(cfg, t, outcomes, e).Some? then [Tracked(e.id, Try(cfg, t, outcomes, e).value)] else []
  }

  lemma {:induction false} RecordsConcat(cfg: Config, t: int, outcomes: Outcomes, a: seq<Entry>, b: seq<Entry>)
    ensures Records(cfg, t, outcomes, a + b) == Records(cfg, t, outcomes, a) + Records(cfg, t, outcomes, b)
  {
    if b == [] {
      assert a + b == a;
    } else {
      RecordsConcat(cfg, t, outcomes, a, b[..|b| - 1]);
      assert (a + b)[..|a + b| - 1] == a + b[..|b| - 1];
    }
  }

  ghost predicate Among(es: seq<Entry>, id: Id) {
    exists j :: 0 <= j < |es| && es[j].id == id
  }

  lemma AmongNext(es: seq<Entry>, id: Id)
    requires es != []
    ensures var n := |es| - 1; Among(es, id) <==> Among(es[..n], id) || es[n].id == id
  {
    var n := |es| - 1;
    if Among(es[..n], id) {
      var j :| 0 <= j < n && es[..n][j].id == id;
      assert es[j].id == id;
    }
    if Among(es, id) && es[n].id != id {
      var j :| 0 <= j < |es| && es[j].id == id;
      assert es[..n][j].id == id;
    }
  }

  /** Only listed entries are recorded. */
  lemma {:induction false} RecordsListed(cfg: Config, t: int, outcomes: Outcomes, es: seq<Entry>, k: nat)
    requires k < |Records(cfg, t, outcomes, es)|
    ensures Among(es, Records(cfg, t, outcomes, es)[k].id)
  {
    var init := es[..|es| - 1];
    AmongNext(es, Records(cfg, t, outcomes, es)[k].id);
    if k < |Records(cfg, t, outcomes, init)| {
      RecordsListed(cfg, t, outcomes, init, k);
    }
  }

  // ---------------------------------------------------------------------------------------------
  // Enqueueing before driving
  // ---------------------------------------------------------------------------------------------

  /** The new entries; each enqueue reads the clock for itself. */
  function Entries(ids: seq<Id>, names: seq<string>, payload: string, nows: seq<int>): seq<Entry>
    requires |ids| == |names| == |nows|
  {
    seq(|ids|, i requires 0 <= i < |ids| => Entry(ids[i], names[i], payload, nows[i], nows[i], 0))
  }

  function PutAll(m: JsMap<Id, Entry>, es: seq<Entry>): JsMap<Id, Entry> {
    if es == [] then m else Put(PutAll(m, es[..|es| - 1]), es[|es| - 1].id, es[|es| - 1])
  }

  ghost predicate NewIds(m: JsMap<Id, Entry>, es: seq<Entry>) {
    && (forall k :: 0 <= k < |es| ==> es[k].id !in m.at)
    && (forall i, j :: 0 <= i < j < |es| ==> es[i].id != es[j].id)
  }

  lemma {:induction false} PutAllDomain(m: JsMap<Id, Entry>, es: seq<Entry>, id: Id)
    ensures id in PutAll(m, es).at <==> id in m.at || Among(es, id)
  {
    if es != [] {
      PutAllDomain(m, es[..|es| - 1], id);
      AmongNext(es, id);
    }
  }

  lemma NewInit(m: JsMap<Id, Entry>, es: seq<Entry>)
    requires NewIds(m, es) && es != []
    ensures var n := |es| - 1; NewIds(m, es[..n]) && es[n].id !in m.at && !Among(es[..n], es[n].id)
  {
    var n := |es| - 1;
    assert forall j :: 0 <= j < n ==> es[..n][j] == es[j];
  }

  /** New entries are listed after the old ones, in the order of their enqueueing. */
  lemma {:induction false} PutAllLists(m: JsMap<Id, Entry>, es: seq<Entry>)
    requires m.Valid() && NewIds(m, es)
    ensures PutAll(m, es).Valid() && Values(PutAll(m, es)) == Values(m) + es
  {
    if es == [] {
      assert Values(m) + es == Values(m);
    } else {
      var init, e := es[..|es| - 1], es[|es| - 1];
      NewInit(m, es);
      PutAllLists(m, init);
      PutAllDomain(m, init, e.id);
      PutNew(PutAll(m, init), e);
      Append(Values(m), init, e);
      assert init + [e] == es;
    }
  }

  lemma Append(a: seq<Entry>, b: seq<Entry>, e: Entry)
    ensures a + b + [e] == a + (b + [e])
  {
  }

  lemma PutNew(m: JsMap<Id, Entry>, e: Entry)
    requires m.Valid() && e.id !in m.at
    ensures Values(Put(m, e.id, e)) == Values(m) + [e]
  {
  }

  lemma {:induction false} PutAllValue(m: JsMap<Id, Entry>, es: seq<Entry>, k: nat)
    requires NewIds(m, es) && k < |es|
    ensures es[k].id in PutAll(m, es).at && PutAll(m, es).at[es[k].id] == es[k]
  {
    if k < |es| - 1 {
      PutAllValue(m, es[..|es| - 1], k);
    }
  }

  // ---------------------------------------------------------------------------------------------
  // What the call reports
  // ---------------------------------------------------------------------------------------------

  /** The attempt of entry `i` survives until it is read: it was recorded, and fewer than five hundred were after it. */
  predicate Survives(cfg: Config, t: int, outcomes: Outcomes, es: seq<Entry>, i: nat)
    requires i < |es|
  {
    Try(cfg, t, outcomes, es[i]).Some? && |Records(cfg, t, outcomes, es[i + 1..])| < 500
  }

  function ResultAt(cfg: Config, t: int, outcomes: Outcomes, es: seq<Entry>, i: nat): Attempt
    requires i < |es|
  {
    if Survives(cfg, t, outcomes, es, i) then Try(cfg, t, outcomes, es[i]).value
    else Attempt(false, false, false)
  }

  /** The results of a call that enqueued `es`, when nothing else records meanwhile. */
  function ResultsOf(cfg: Config, t: int, outcomes: Outcomes, es: seq<Entry>): seq<Attempt> {
    seq(|es|, i requires 0 <= i < |es| => ResultAt(cfg, t, outcomes, es, i))
  }

  /** How many of the messages are acked. */
  function Acked(cfg: Config, t: int, outcomes: Outcomes, es: seq<Entry>): nat {
    if es == [] then 0
    else
      var e := es[|es| - 1];
      var sent := e.nextAttemptAt <= t <= e.enqueuedAt + cfg.ttl;
      Acked(cfg, t, outcomes, es[..|es| - 1])
      + if sent && outcomes(e.id).Some? && outcomes(e.id).value.httpOk then 1 else 0
  }

  /** The first `n` results deliver at most as many as are acked, and as many only if no ack was evicted. */
  lemma {:induction false} DeliveredUpTo(cfg: Config, t: int, outcomes: Outcomes, es: seq<Entry>, n: nat)
    requires n <= |es|
    ensures var d, a := Delivered(ResultsOf(cfg, t, outcomes, es)[..n]), Acked(cfg, t, outcomes, es[..n]);
            && d <= a
            && (d == a <==>
                  forall i :: 0 <= i < n && Acks(cfg, t, outcomes, es[i]) ==> Survives(cfg, t, outcomes, es, i))
  {
    if n > 0 {
      var results := ResultsOf(cfg, t, outcomes, es);
      DeliveredUpTo(cfg, t, outcomes, es, n - 1);
      assert results[..n][..n - 1] == results[..n - 1] && es[..n][..n - 1] == es[..n - 1];
      assert results[n - 1] == ResultAt(cfg, t, outcomes, es, n - 1);
    }
  }

  /** For given outcomes the reported deliveries are the true ones exactly if no ack was evicted. */
  lemma TrueFor(cfg: Config, t: int, outcomes: Outcomes, es: seq<Entry>)
    ensures Delivered(ResultsOf(cfg, t, outcomes, es)) == Acked(cfg, t, outcomes, es) <==>
              forall i :: 0 <= i < |es| && Acks(cfg, t, outcomes, es[i]) ==> Survives(cfg, t, outcomes, es, i)
  {
    DeliveredUpTo(cfg, t, outcomes, es, |es|);
    assert ResultsOf(cfg, t, outcomes, es)[..|es|] == ResultsOf(cfg, t, outcomes, es) && es[..|es|] == es;
  }

  /** How many of the messages the drive sends. */
  function SentIn(cfg: Config, t: int, es: seq<Entry>): nat {
    if es == [] then 0
    else
      var e := es[|es| - 1];
      SentIn(cfg, t, es[..|es| - 1]) + if e.nextAttemptAt <= t <= e.enqueuedAt + cfg.ttl then 1 else 0
  }

  lemma {:induction false} RecordsAtMost(cfg: Config, t: int, outcomes: Outcomes, es: seq<Entry>)
    ensures |Records(cfg, t, outcomes, es)| <= SentIn(cfg, t, es)
    ensures (forall id :: outcomes(id).Some?) ==> |Records(cfg, t, outcomes, es)| == SentIn(cfg, t, es)
  {
    if es != [] {
      RecordsAtMost(cfg, t, outcomes, es[..|es| - 1]);
    }
  }

  lemma {:induction false} SentConcat(cfg: Config, t: int, a: seq<Entry>, b: seq<Entry>)
    ensures SentIn(cfg, t, a + b) == SentIn(cfg, t, a) + SentIn(cfg, t, b)
  {
    if b == [] {
      assert a + b == a;
    } else {
      SentConcat(cfg, t, a, b[..|b| - 1]);
      assert (a + b)[..|a + b| - 1] == a + b[..|b| - 1];
    }
  }

  lemma {:induction false} FirstSent(cfg: Config, t: int, es: seq<Entry>) returns (i: nat)
    requires SentIn(cfg, t, es) > 0
    ensures i < |es| && Attempted(cfg, es[i], t) && SentIn(cfg, t, es[i + 1..]) == SentIn(cfg, t, es) - 1
  {
    assert es == es[..1] + es[1..] && es[..1][..0] == [];
    SentConcat(cfg, t, es[..1], es[1..]);
    if Attempted(cfg, es[0], t) {
      i := 0;
    } else {
      var k := FirstSent(cfg, t, es[1..]);
      i := k + 1;
      assert es[1..][k + 1..] == es[i + 1..];
    }
  }

  lemma {:induction false} SentAtMost(cfg: Config, t: int, es: seq<Entry>)
    ensures SentIn(cfg, t, es) <= |es|
  {
    if es != [] {
      SentAtMost(cfg, t, es[..|es| - 1]);
    }
  }

  /** Whatever the transport does, the reported deliveries are the true ones. */
  ghost predicate AlwaysTrue(cfg: Config, t: int, es: seq<Entry>) {
    forall outcomes: Outcomes :: Delivered(ResultsOf(cfg, t, outcomes, es)) == Acked(cfg, t, outcomes, es)
  }

  function AllAck(id: Id): Option<Attempt> {
    Some(Attempt(true, true, false))
  }

  /** If all of more than five hundred sends are acked, the first of them is reported as undelivered. */
  lemma TooManyAcks(cfg: Config, t: int, es: seq<Entry>)
    requires SentIn(cfg, t, es) > 500
    ensures Delivered(ResultsOf(cfg, t, AllAck, es)) != Acked(cfg, t, AllAck, es)
  {
    var i := FirstSent(cfg, t, es);
    RecordsAtMost(cfg, t, AllAck, es[i + 1..]);
    TrueFor(cfg, t, AllAck, es);
    assert Acks(cfg, t, AllAck, es[i]) && !Survives(cfg, t, AllAck, es, i);
  }

  /** With nothing else in progress the report is true for every transport exactly if at most five hundred are sent. */
  lemma TrueReportIff(cfg: Config, t: int, es: seq<Entry>)
    ensures AlwaysTrue(cfg, t, es) <==> SentIn(cfg, t, es) <= 500
  {
    if SentIn(cfg, t, es) > 500 {
      TooManyAcks(cfg, t, es);
    } else {
      forall outcomes: Outcomes
        ensures Delivered(ResultsOf(cfg, t, outcomes, es)) == Acked(cfg, t, outcomes, es)
      {
        FewSurvive(cfg, t, outcomes, es);
        TrueFor(cfg, t, outcomes, es);
      }
    }
  }

  /** In a call of at most five hundred messages each is reported as its own send, if it had one, turned out. */
  lemma ResultIs(cfg: Config, t: int, outcomes: Outcomes, es: seq<Entry>, i: nat)
    requires |es| <= 500 && i < |es|
    ensures var e := es[i];
            var sent := e.nextAttemptAt <= t <= e.enqueuedAt + cfg.ttl;
            ResultAt(cfg, t, outcomes, es, i) == (if sent && outcomes(e.id).Some? then outcomes(e.id).value
                                                  else Attempt(false, false, false))
  {
    RecordsAtMost(cfg, t, outcomes, es[i + 1..]);
    SentAtMost(cfg, t, es[i + 1..]);
  }

  lemma FewSurvive(cfg: Config, t: int, outcomes: Outcomes, es: seq<Entry>)
    requires SentIn(cfg, t, es) <= 500
    ensures forall i :: 0 <= i < |es| && Acks(cfg, t, outcomes, es[i]) ==> Survives(cfg, t, outcomes, es, i)
  {
    forall i | 0 <= i < |es| && Acks(cfg, t, outcomes, es[i])
      ensures Survives(cfg, t, outcomes, es, i)
    {
      assert es == es[..i] + ([es[i]] + es[i + 1..]) && [es[i]][..0] == [];
      SentConcat(cfg, t, es[..i], [es[i]] + es[i + 1..]);
      SentConcat(cfg, t, [es[i]], es[i + 1..]);
      RecordsAtMost(cfg, t, outcomes, es[i + 1..]);
    }
  }

  // ---------------------------------------------------------------------------------------------
  // From the records of the drive to the results
  // ---------------------------------------------------------------------------------------------

  function IdsOf(es: seq<Entry>): seq<Id> {
    seq(|es|, i requires 0 <= i < |es| => es[i].id)
  }

  /** The record of entry `i` stands after those of the entries before it. */
  lemma RecordAt(cfg: Config, t: int, outcomes: Outcomes, es: seq<Entry>, i: nat)
    requires i < |es| && Try(cfg, t, outcomes, es[i]).Some?
    ensures var before, rs := |Records(cfg, t, outcomes, es[..i])|, Records(cfg, t, outcomes, es);
            && before < |rs| && rs[before] == Tracked(es[i].id, Try(cfg, t, outcomes, es[i]).value)
            && |rs| - before == 1 + |Records(cfg, t, outcomes, es[i + 1..])|
  {
    var one := [es[i]];
    assert es == es[..i] + one + es[i + 1..];
    RecordsConcat(cfg, t, outcomes, es[..i] + one, es[i + 1..]);
    RecordsConcat(cfg, t, outcomes, es[..i], one);
    assert one[..0] == [];
  }

  lemma {:induction false} RecordsDistinct(cfg: Config, t: int, outcomes: Outcomes, es: seq<Entry>)
    requires NoDup(IdsOf(es))
    ensures NoDup(Ids(Records(cfg, t, outcomes, es)))
  {
    if es != [] {
      var init, e := es[..|es| - 1], es[|es| - 1];
      var before := Records(cfg, t, outcomes, init);
      assert IdsOf(init) == IdsOf(es)[..|es| - 1];
      RecordsDistinct(cfg, t, outcomes, init);
      assert !Among(init, e.id) by {
        assert forall j :: 0 <= j < |init| ==> IdsOf(es)[j] == init[j].id;
        assert IdsOf(es)[|es| - 1] == e.id;
      }
      forall i | 0 <= i < |before|
        ensures Ids(before)[i] != e.id
      {
        RecordsListed(cfg, t, outcomes, init, i);
      }
      assert Ids(Records(cfg, t, outcomes, es)) == Ids(before)
          || Ids(Records(cfg, t, outcomes, es)) == Ids(before) + [e.id];
    }
  }

  lemma {:induction false} Unrecorded(cfg: Config, t: int, outcomes: Outcomes, es: seq<Entry>, i: nat, k: nat)
    requires i < |es| && Try(cfg, t, outcomes, es[i]).None? && NoDup(IdsOf(es))
    requires k < |Records(cfg, t, outcomes, es)|
    ensures Records(cfg, t, outcomes, es)[k].id != es[i].id
  {
    var n := |es| - 1;
    assert IdsOf(es)[..n] == IdsOf(es[..n]) && IdsOf(es)[i] == es[i].id && IdsOf(es)[n] == es[n].id;
    if k < |Records(cfg, t, outcomes, es[..n])| {
      if i < n {
        Unrecorded(cfg, t, outcomes, es[..n], i, k);
      } else {
        RecordsListed(cfg, t, outcomes, es[..n], k);
        var j :| 0 <= j < n && es[..n][j].id == Records(cfg, t, outcomes, es)[k].id;
        assert IdsOf(es)[j] == es[j].id;
      }
    }
  }

  /** What the map holds of a new id after the drive is what its result is read from. */
  lemma ReadsResult(cfg: Config, t: int, outcomes: Outcomes, m: Attempts, es: seq<Entry>, i: nat)
    requires Bounded(m) && i < |es| && NoDup(IdsOf(es)) && forall k :: 0 <= k < |es| ==> es[k].id !in m.at
    ensures ReadAt(RecordAll(m, Records(cfg, t, outcomes, es)), es[i].id) == ResultAt(cfg, t, outcomes, es, i)
  {
    var rs, id := Records(cfg, t, outcomes, es), es[i].id;
    RecordsDistinct(cfg, t, outcomes, es);
    assert forall k :: 0 <= k < |rs| ==> Ids(rs)[k] == rs[k].id;
    forall k | 0 <= k < |rs|
      ensures rs[k].id !in m.at
    {
      RecordsListed(cfg, t, outcomes, es, k);
    }
    RecordAllBounded(m, rs);
    if Try(cfg, t, outcomes, es[i]).Some? {
      RecordAt(cfg, t, outcomes, es, i);
      FreshTracked(m, rs, |Records(cfg, t, outcomes, es[..i])|);
    } else {
      forall k | 0 <= k < |rs|
        ensures rs[k].id != id
      {
        Unrecorded(cfg, t, outcomes, es, i, k);
      }
    }
  }

  /** Every id tracked after a drive was tracked before or is an entry of the store. */
  lemma DriveTracksKnown(cfg: Config, t: int, outcomes: Outcomes, m: Attempts, es: seq<Entry>)
    requires Bounded(m)
    ensures var x := RecordAll(m, Records(cfg, t, outcomes, es));
            Bounded(x) && forall id :: id in x.at ==> id in m.at || Among(es, id)
  {
    var rs := Records(cfg, t, outcomes, es);
    RecordAllBounded(m, rs);
    forall id | id in RecordAll(m, rs).at && id !in m.at
      ensures Among(es, id)
    {
      var k :| 0 <= k < |rs| && rs[k].id == id;
      RecordsListed(cfg, t, outcomes, es, k);
    }
  }

  lemma AmongValues(m: JsMap<Id, Entry>, id: Id)
    requires m.Valid() && (forall k :: k in m.at ==> m.at[k].id == k) && Among(Values(m), id)
    ensures id in m.at
  {
  }

  /** A drive over old and new entries records the old ones first. */
  lemma DriveRecords(cfg: Config, t: int, outcomes: Outcomes, m: Attempts, old0: JsMap<Id, Entry>, es: seq<Entry>)
    requires old0.Valid() && NewIds(old0, es) && NoDup(IdsOf(es))
    ensures PutAll(old0, es).Valid()
    ensures RecordAll(m, Records(cfg, t, outcomes, Values(PutAll(old0, es))))
         == RecordAll(RecordAll(m, Records(cfg, t, outcomes, Values(old0))), Records(cfg, t, outcomes, es))
  {
    PutAllLists(old0, es);
    RecordsConcat(cfg, t, outcomes, Values(old0), es);
    RecordAllConcat(m, Records(cfg, t, outcomes, Values(old0)), Records(cfg, t, outcomes, es));
  }

  lemma BacklogKnown(cfg: Config, t: int, outcomes: Outcomes, m: Attempts, old0: JsMap<Id, Entry>)
    requires Bounded(m) && old0.Valid() && (forall k :: k in old0.at ==> old0.at[k].id == k)
    ensures var x := RecordAll(m, Records(cfg, t, outcomes, Values(old0)));
            Bounded(x) && forall id :: id in x.at ==> id in m.at || id in old0.at
  {
    DriveTracksKnown(cfg, t, outcomes, m, Values(old0));
    forall id | Among(Values(old0), id)
      ensures id in old0.at
    {
      AmongValues(old0, id);
    }
  }

  lemma ReadsResults(cfg: Config, t: int, outcomes: Outcomes, m: Attempts, es: seq<Entry>)
    requires Bounded(m) && NoDup(IdsOf(es)) && forall k :: 0 <= k < |es| ==> es[k].id !in m.at
    ensures ReadEach(RecordAll(m, Records(cfg, t, outcomes, es)), IdsOf(es)) == ResultsOf(cfg, t, outcomes, es)
  {
    forall i | 0 <= i < |es|
      ensures ReadAt(RecordAll(m, Records(cfg, t, outcomes, es)), es[i].id) == ResultAt(cfg, t, outcomes, es, i)
    {
      ReadsResult(cfg, t, outcomes, m, es, i);
    }
  }

  /** After a drive over old and new entries, the new ids read as their results. */
  lemma DriveTracks(cfg: Config, t: int, outcomes: Outcomes, m: Attempts, old0: JsMap<Id, Entry>, es: seq<Entry>)
    requires Bounded(m) && old0.Valid() && (forall k :: k in old0.at ==> old0.at[k].id == k)
    requires NewIds(old0, es) && NoDup(IdsOf(es)) && forall k :: 0 <= k < |es| ==> es[k].id !in m.at
    ensures PutAll(old0, es).Valid()
    ensures var x := RecordAll(m, Records(cfg, t, outcomes, Values(PutAll(old0, es))));
            && Bounded(x)
            && (forall id :: id in x.at ==> id in m.at || id in old0.at || Among(es, id))
            && ReadEach(x, IdsOf(es)) == ResultsOf(cfg, t, outcomes, es)
  {
    var m1 := RecordAll(m, Records(cfg, t, outcomes, Values(old0)));
    DriveRecords(cfg, t, outcomes, m, old0, es);
    BacklogKnown(cfg, t, outcomes, m, old0);
    DriveTracksKnown(cfg, t, outcomes, m1, es);
    ReadsResults(cfg, t, outcomes, m1, es);
  }

  lemma AllBorn(ids: seq<Id>, es: seq<Entry>)
    requires IdsOf(es) == ids
    ensures forall id :: Among(es, id) ==> id in ids
  {
    forall id | Among(es, id)
      ensures id in ids
    {
      var j :| 0 <= j < |es| && es[j].id == id;
      assert ids[j] == id;
    }
  }

  /** A new entry leaves the store in this drive exactly if its send acks or it has already expired. */
  lemma NewEntryEnds(cfg: Config, t: int, outcomes: Outcomes, old0: JsMap<Id, Entry>, es: seq<Entry>, i: nat)
    requires NewIds(old0, es) && i < |es|
    ensures es[i].id !in Driven(cfg, t, ReplyOf(outcomes), PutAll(old0, es).at)
       <==> && es[i].nextAttemptAt <= t
            && (t > es[i].enqueuedAt + cfg.ttl || (outcomes(es[i].id).Some? && outcomes(es[i].id).value.httpOk))
  {
    PutAllValue(old0, es, i);
  }

  // ---------------------------------------------------------------------------------------------
  // The code
  // ---------------------------------------------------------------------------------------------

  datatype Report = Report(delivered: bool, online: bool, peersAttempted: nat, peersDelivered: nat)

  class Notifier {
    const outbox: Outbox
    var attempts: Attempts

    /** Only ids that were enqueued are tracked, and never more than the bound. */
    ghost predicate Valid()
      reads this, outbox, outbox.store
    {
      && outbox.Valid() && Bounded(attempts)
      && forall id :: id in attempts.at ==> id in outbox.model.born
    }

    constructor (outbox: Outbox)
      requires outbox.Valid()
      ensures Valid() && this.outbox == outbox && attempts == Empty()
    {
      this.outbox, attempts := outbox, Empty();
    }

    /** Persist one message per peer, in order, before anything is sent. */
    method EnqueueAll(ids: seq<Id>, names: seq<string>, payload: string, nows: seq<int>)
      requires outbox.Valid() && |ids| == |names| == |nows| && NoDup(ids)
      requires forall id :: id in ids ==> id !in outbox.model.born
      modifies outbox, outbox.store
      ensures outbox.Valid()
      ensures outbox.store.entries == PutAll(old(outbox.store.entries), Entries(ids, names, payload, nows))
      ensures forall id :: id in outbox.model.born <==> id in old(outbox.model.born) || id in ids
    {
      ghost var es := Entries(ids, names, payload, nows);
      for i := 0 to |ids|
        invariant outbox.Valid()
        invariant outbox.store.entries == PutAll(old(outbox.store.entries), es[..i])
        invariant forall id :: id in outbox.model.born <==> id in old(outbox.model.born) || id in ids[..i]
      {
        assert es[..i + 1][..i] == es[..i];
        assert ids[..i + 1] == ids[..i] + [ids[i]];
        assert ids[i] in ids && ids[i] !in ids[..i];
        outbox.Enqueue(ids[i], names[i], payload, nows[i]);
      }
      assert es[..|ids|] == es && ids[..|ids|] == ids;
    }

    /** Read each result and forget it. */
    method ReadAll(ids: seq<Id>) returns (results: seq<Attempt>)
      requires Bounded(attempts) && NoDup(ids)
      modifies this`attempts
      ensures Bounded(attempts) && results == ReadEach(old(attempts), ids)
      ensures |results| == |ids| && forall i :: 0 <= i < |ids| ==>
                results[i] == if ids[i] in old(attempts.at) then old(attempts.at)[ids[i]]
                              else Attempt(false, false, false)
      ensures forall id :: id in attempts.at <==> id in old(attempts.at) && id !in ids
    {
      ghost var m := attempts;
      results := [];
      for i := 0 to |ids|
        invariant ReadSoFar(m, ids, i, attempts, results)
      {
        ReadNext(m, ids, i, attempts, results);
        results := results + [ReadAt(attempts, ids[i])];
        attempts := Drop(attempts, ids[i]);
      }
      ReadDone(m, ids, attempts, results);
    }

    /** Entries for new ids are new to the store, whose entries all carry their own ids. */
    lemma NothingPendingIsNew(ids: seq<Id>, names: seq<string>, payload: string, nows: seq<int>)
      requires outbox.Valid() && |ids| == |names| == |nows| && NoDup(ids)
      requires forall id :: id in ids ==> id !in outbox.model.born
      ensures NewIds(outbox.store.entries, Entries(ids, names, payload, nows))
      ensures forall id :: id in outbox.store.entries.at ==>
                id in outbox.model.born && outbox.store.entries.at[id].id == id
    {
      RunSeq(outbox.cfg, outbox.history);
    }

    /** Enqueue every message, then drive once at `t`, recording what each send came to. */
    method SendAll(ids: seq<Id>, names: seq<string>, payload: string, nows: seq<int>, t: int, outcomes: Outcomes)
      requires Valid() && |ids| == |names| == |nows| && NoDup(ids)
      requires forall id :: id in ids ==> id !in outbox.model.born
      modifies this`attempts, outbox, outbox.store
      ensures Valid()
      ensures outbox.store.entries.at == Driven(outbox.cfg, t, ReplyOf(outcomes),
                PutAll(old(outbox.store.entries), Entries(ids, names, payload, nows)).at)
      ensures ReadEach(attempts, ids) == ResultsOf(outbox.cfg, t, outcomes, Entries(ids, names, payload, nows))
    {
      ghost var old0, es := outbox.store.entries, Entries(ids, names, payload, nows);
      assert IdsOf(es) == ids;
      NothingPendingIsNew(ids, names, payload, nows);
      DriveTracks(outbox.cfg, t, outcomes, attempts, old0, es);
      EnqueueAll(ids, names, payload, nows);
      AllBorn(ids, es);
      var pending := outbox.store.ListPending();
      var sum, escalated := outbox.DriveOnce(t, ReplyOf(outcomes));
      attempts := RecordAll(attempts, Records(outbox.cfg, t, outcomes, pending));
    }

    /**
     * The call for `ids` as the peers' fresh message ids: send them all and report. Each new message leaves
     * the outbox exactly if its send acked or it had expired by the drive's clock, and the older ones are
     * driven along with them; with no peers nothing is driven.
     */
    method Dispatch(ids: seq<Id>, names: seq<string>, payload: string, nows: seq<int>, t: int, outcomes: Outcomes)
      returns (report: Report, results: seq<Attempt>)
      requires Valid() && |ids| == |names| == |nows| && NoDup(ids)
      requires forall id :: id in ids ==> id !in outbox.model.born
      modifies this`attempts, outbox, outbox.store
      ensures Valid()
      ensures results == ResultsOf(outbox.cfg, t, outcomes, Entries(ids, names, payload, nows))
      ensures |results| == |ids| <= 500 ==> forall i :: 0 <= i < |ids| ==>
                results[i] == if nows[i] <= t <= nows[i] + outbox.cfg.ttl && outcomes(ids[i]).Some?
                              then outcomes(ids[i]).value else Attempt(false, false, false)
      ensures report.peersAttempted == |results| == |ids| && report.peersDelivered == |DeliveredAt(results)|
      ensures report.delivered <==> exists i :: 0 <= i < |results| && results[i].httpOk
      ensures report.online <==> exists i :: 0 <= i < |results| && results[i].transportOk
      ensures forall id :: id in ids ==> id !in attempts.at
      ensures outbox.store.entries.at == if ids == [] then old(outbox.store.entries.at)
              else Driven(outbox.cfg, t, ReplyOf(outcomes),
                     PutAll(old(outbox.store.entries), Entries(ids, names, payload, nows)).at)
      ensures forall i :: 0 <= i < |ids| ==>
                (ids[i] !in outbox.store.entries.at <==>
                   && nows[i] <= t
                   && (t > nows[i] + outbox.cfg.ttl || (outcomes(ids[i]).Some? && outcomes(ids[i]).value.httpOk)))
    {
      if |ids| == 0 {
        DeliveredCounts([]);
        return Report(false, false, 0, 0), [];
      }
      ghost var old0, es := outbox.store.entries, Entries(ids, names, payload, nows);
      NothingPendingIsNew(ids, names, payload, nows);
      SendAll(ids, names, payload, nows, t, outcomes);
      forall i | 0 <= i < |ids|
        ensures ids[i] !in outbox.store.entries.at
           <==> && nows[i] <= t
                && (t > nows[i] + outbox.cfg.ttl || (outcomes(ids[i]).Some? && outcomes(ids[i]).value.httpOk))
      {
        NewEntryEnds(outbox.cfg, t, outcomes, old0, es, i);
      }
      results := ReadAll(ids);
      report := Report(Delivered(results) > 0, Reached(results) > 0, |ids|, Delivered(results));
      DeliveredCounts(results);
      SomeResult(results);
      if |ids| <= 500 {
        forall i | 0 <= i < |ids|
          ensures results[i] == if nows[i] <= t <= nows[i] + outbox.cfg.ttl && outcomes(ids[i]).Some?
                                then outcomes(ids[i]).value else Attempt(false, false, false)
        {
          ResultIs(outbox.cfg, t, outcomes, es, i);
        }
      }
    }
  }
}
