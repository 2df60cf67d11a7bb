/**
 * One-shot signing challenges: issued with an expiry, swept lazily, and spent by the first attempt to use
 * them, right or wrong. A run is any sequence of operations with any clock; ids are minted fresh.
 */
module ChallengeStore {
  import opened Common

  type Id = nat

  datatype Record = Record(agent: string, value: string, expiresAt: int)

  /** An operation as it happened; `t` is the clock its sweep read. */
  datatype Op =
    | Issued(t: int, id: Id, agent: string, value: string, expiresAt: int)
    | Consumed(t: int, id: Id, agent: string, value: string, ok: bool)
    | Sized(t: int, n: nat)

  datatype World = World(live: map<Id, Record>, log: seq<Op>)

  const START := World(map[], [])

  /** What is asked: issuing also reads the clock a second time, which with the time-to-live gives the expiry. */
  datatype Event =
    | Issue(t: int, id: Id, agent: string, value: string, expiresAt: int)
    | Consume(t: int, id: Id, agent: string, value: string)
    | Size(t: int)

  predicate IssuedIn(log: seq<Op>, id: Id) {
    exists k :: 0 <= k < |log| && log[k].Issued? && log[k].id == id
  }

  function Swept(live: map<Id, Record>, t: int): map<Id, Record> {
    map id | id in live && live[id].expiresAt > t :: live[id]
  }

  function Matches(live: map<Id, Record>, id: Id, agent: string, value: string): bool {
    id in live && live[id].agent == agent && live[id].value == value
  }

  function Step(w: World, ev: Event): World {
    var live := Swept(w.live, ev.t);
    match ev
    case Issue(t, id, agent, value, expiresAt) =>
      if IssuedIn(w.log, id) then w
      else World(live[id := Record(agent, value, expiresAt)], w.log + [Issued(t, id, agent, value, expiresAt)])
    case Consume(t, id, agent, value) =>
      World(live - {id}, w.log + [Consumed(t, id, agent, value, Matches(live, id, agent, value))])
    case Size(t) =>
      World(live, w.log + [Sized(t, |live|)])
  }

  function After(evs: seq<Event>): World {
    if evs == [] then START else Step(After(evs[..|evs| - 1]), evs[|evs| - 1])
  }

  lemma AfterAppend(evs: seq<Event>, ev: Event)
    ensures After(evs + [ev]) == Step(After(evs), ev)
  {
    assert (evs + [ev])[..|evs|] == evs;
  }

  // ---------------------------------------------------------------------------------------------
  // Which challenges are live, read off the log alone
  // ---------------------------------------------------------------------------------------------

  predicate Uses(op: Op, id: Id) {
    op.Consumed? && op.id == id
  }

  /** The operation between issue and now neither used the challenge nor swept past its expiry. */
  predicate Spares(issue: Op, op: Op)
    requires issue.Issued?
  {
    op.t < issue.expiresAt && !Uses(op, issue.id)
  }

  /** The challenge issued at position `i` is still there when operation `j` starts. */
  ghost predicate Outstanding(log: seq<Op>, i: int, j: int) {
    0 <= i < j <= |log| && log[i].Issued? && forall k :: i < k < j ==> Spares(log[i], log[k])
  }

  ghost predicate UniqueIssues(log: seq<Op>) {
    forall i, k :: 0 <= i < k < |log| && log[i].Issued? && log[k].Issued? ==> log[i].id != log[k].id
  }

  function RecordOf(issue: Op): Record
    requires issue.Issued?
  {
    Record(issue.agent, issue.value, issue.expiresAt)
  }

  /** The store holds exactly the outstanding challenges, with what they were issued with. */
  ghost predicate LiveRight(live: map<Id, Record>, log: seq<Op>) {
    && (forall id :: id in live ==> exists i :: Outstanding(log, i, |log|) && log[i].id == id)
    && (forall i :: Outstanding(log, i, |log|) ==> log[i].id in live && live[log[i].id] == RecordOf(log[i]))
  }

  /** Operation `j` succeeds on the challenge issued at `i`: still there, not expired, same id, agent and value. */
  ghost predicate Grants(log: seq<Op>, i: int, j: int)
    requires 0 <= j < |log| && log[j].Consumed?
  {
    && Outstanding(log, i, j) && log[j].t < log[i].expiresAt
    && log[i].id == log[j].id && log[i].agent == log[j].agent && log[i].value == log[j].value
  }

  /** The ids of the challenges that are outstanding before operation `j` and not expired at `t`. */
  ghost function Unspent(log: seq<Op>, j: int, t: int): set<Id> {
    set i | 0 <= i < j && Outstanding(log, i, j) && t < log[i].expiresAt :: log[i].id
  }

  /** The answer of operation `j` is the one the log calls for. */
  ghost predicate AnswerRight(log: seq<Op>, j: int)
    requires 0 <= j < |log|
  {
    match log[j]
    case Issued(_, _, _, _, _) => true
    case Consumed(_, _, _, _, ok) => ok <==> exists i :: Grants(log, i, j)
    case Sized(t, n) => n == |Unspent(log, j, t)|
  }

  ghost predicate Inv(w: World) {
    && UniqueIssues(w.log)
    && LiveRight(w.live, w.log)
    && forall j :: 0 <= j < |w.log| ==> AnswerRight(w.log, j)
  }

  lemma OutstandingAppend(log: seq<Op>, op: Op, i: int, j: int)
    requires j <= |log|
    ensures Outstanding(log + [op], i, j) <==> Outstanding(log, i, j)
  {
    var all := log + [op];
    assert forall k :: 0 <= k < |log| ==> all[k] == log[k];
    if Outstanding(all, i, j) {
      assert forall k :: i < k < j ==> Spares(all[i], all[k]);
    }
  }

  lemma OutstandingNext(log: seq<Op>, op: Op, i: int)
    requires 0 <= i < |log|
    ensures Outstanding(log + [op], i, |log| + 1) <==> Outstanding(log, i, |log|) && Spares(log[i], op)
  {
    var all := log + [op];
    assert all[|log|] == op;
    if Outstanding(all, i, |log| + 1) {
      assert forall k :: i < k < |log| ==> all[k] == log[k];
    }
  }

  lemma AnswerKept(log: seq<Op>, op: Op, j: int)
    requires 0 <= j < |log| && AnswerRight(log, j)
    ensures AnswerRight(log + [op], j)
  {
    var all := log + [op];
    assert all[j] == log[j];
    forall i
      ensures Outstanding(all, i, j) <==> Outstanding(log, i, j)
    {
      OutstandingAppend(log, op, i, j);
    }
    if log[j].Consumed? {
      assert forall i :: Grants(all, i, j) <==> Grants(log, i, j);
    }
    if log[j].Sized? {
      assert Unspent(all, j, log[j].t) == Unspent(log, j, log[j].t);
    }
  }

  lemma AnswersKept(log: seq<Op>, op: Op)
    requires forall j :: 0 <= j < |log| ==> AnswerRight(log, j)
    requires AnswerRight(log + [op], |log|)
    ensures forall j :: 0 <= j < |log + [op]| ==> AnswerRight(log + [op], j)
  {
    forall j | 0 <= j < |log|
      ensures AnswerRight(log + [op], j)
    {
      AnswerKept(log, op, j);
    }
  }

  /** Sweeping and then dropping a used id leaves exactly the challenges the operation spares. */
  lemma SpareKeepsLive(live: map<Id, Record>, log: seq<Op>, op: Op)
    requires LiveRight(live, log) && !op.Issued?
    ensures LiveRight(Swept(live, op.t) - (if op.Consumed? then {op.id} else {}), log + [op])
  {
    var all := log + [op];
    var next := Swept(live, op.t) - (if op.Consumed? then {op.id} else {});
    forall id | id in next
      ensures exists i :: Outstanding(all, i, |all|) && all[i].id == id
    {
      var i :| Outstanding(log, i, |log|) && log[i].id == id;
      OutstandingNext(log, op, i);
      assert Outstanding(all, i, |all|);
    }
    forall i | Outstanding(all, i, |all|)
      ensures all[i].id in next && next[all[i].id] == RecordOf(all[i])
    {
      OutstandingNext(log, op, i);
      assert Outstanding(log, i, |log|);
    }
  }

  /** Issuing sweeps and adds the new challenge. */
  lemma IssueKeepsLive(live: map<Id, Record>, log: seq<Op>, op: Op)
    requires LiveRight(live, log) && op.Issued? && !IssuedIn(log, op.id)
    ensures LiveRight(Swept(live, op.t)[op.id := RecordOf(op)], log + [op])
  {
    var all := log + [op];
    var next := Swept(live, op.t)[op.id := RecordOf(op)];
    assert Outstanding(all, |log|, |all|);
    forall id | id in next
      ensures exists i :: Outstanding(all, i, |all|) && all[i].id == id
    {
      if id != op.id {
        var i :| Outstanding(log, i, |log|) && log[i].id == id;
        OutstandingNext(log, op, i);
        assert Outstanding(all, i, |all|);
      }
    }
    forall i | Outstanding(all, i, |all|)
      ensures all[i].id in next && next[all[i].id] == RecordOf(all[i])
    {
      if i < |log| {
        OutstandingNext(log, op, i);
        assert Outstanding(log, i, |log|);
        assert log[i].Issued? && log[i].id != op.id;
      }
    }
  }

  lemma ConsumeAnswer(live: map<Id, Record>, log: seq<Op>, t: int, id: Id, agent: string, value: string)
    requires LiveRight(live, log)
    ensures AnswerRight(log + [Consumed(t, id, agent, value, Matches(Swept(live, t), id, agent, value))], |log|)
  {
    var ok := Matches(Swept(live, t), id, agent, value);
    var op := Consumed(t, id, agent, value, ok);
    var all := log + [op];
    forall i
      ensures Outstanding(all, i, |log|) <==> Outstanding(log, i, |log|)
    {
      OutstandingAppend(log, op, i, |log|);
    }
    if ok {
      var i :| Outstanding(log, i, |log|) && log[i].id == id;
      assert Grants(all, i, |log|);
    }
    if i :| Grants(all, i, |log|) {
      assert Outstanding(log, i, |log|);
    }
  }

  lemma SizeAnswer(live: map<Id, Record>, log: seq<Op>, t: int)
    requires LiveRight(live, log)
    ensures AnswerRight(log + [Sized(t, |Swept(live, t)|)], |log|)
  {
    var op := Sized(t, |Swept(live, t)|);
    var all := log + [op];
    forall i
      ensures Outstanding(all, i, |log|) <==> Outstanding(log, i, |log|)
    {
      OutstandingAppend(log, op, i, |log|);
    }
    var unspent := Unspent(all, |log|, t);
    forall id | id in Swept(live, t)
      ensures id in unspent
    {
      var i :| Outstanding(log, i, |log|) && log[i].id == id;
      assert Outstanding(all, i, |log|) && all[i].id == id;
    }
    forall id | id in unspent
      ensures id in Swept(live, t)
    {
      var i :| 0 <= i < |log| && Outstanding(all, i, |log|) && t < all[i].expiresAt && all[i].id == id;
      assert Outstanding(log, i, |log|);
    }
    assert Swept(live, t).Keys == unspent;
  }

  lemma StepInv(w: World, ev: Event)
    requires Inv(w)
    ensures Inv(Step(w, ev))
  {
    match ev
    case Issue(t, id, agent, value, expiresAt) =>
      if !IssuedIn(w.log, id) {
        var op := Issued(t, id, agent, value, expiresAt);
        IssueKeepsLive(w.live, w.log, op);
        AnswersKept(w.log, op);
      }
    case Consume(t, id, agent, value) =>
      var op := Consumed(t, id, agent, value, Matches(Swept(w.live, t), id, agent, value));
      SpareKeepsLive(w.live, w.log, op);
      assert Swept(w.live, t) - {id} == Step(w, ev).live;
      ConsumeAnswer(w.live, w.log, t, id, agent, value);
      AnswersKept(w.log, op);
    case Size(t) =>
      var op := Sized(t, |Swept(w.live, t)|);
      SpareKeepsLive(w.live, w.log, op);
      assert Swept(w.live, t) - {} == Swept(w.live, t);
      SizeAnswer(w.live, w.log, t);
      AnswersKept(w.log, op);
  }

  lemma {:induction false} RunInv(evs: seq<Event>)
    ensures Inv(After(evs))
  {
    if evs != [] {
      RunInv(evs[..|evs| - 1]);
      StepInv(After(evs[..|evs| - 1]), evs[|evs| - 1]);
    }
  }

  // ---------------------------------------------------------------------------------------------
  // What every run guarantees
  // ---------------------------------------------------------------------------------------------

  /** For any clock: a consume succeeds exactly if an outstanding, unexpired challenge grants it. */
  lemma OkIff(evs: seq<Event>, j: nat)
    requires j < |After(evs).log| && After(evs).log[j].Consumed?
    ensures var log := After(evs).log;
            log[j].ok <==> exists i :: Grants(log, i, j)
  {
    RunInv(evs);
    assert AnswerRight(After(evs).log, j);
  }

  /** An attempt on an issued challenge spends it whatever its result: every later attempt fails. */
  lemma SpentByAnyAttempt(evs: seq<Event>, i: nat, j: nat, k: nat)
    requires i < j < k < |After(evs).log|
    requires var log := After(evs).log;
             && log[i].Issued? && log[j].Consumed? && log[k].Consumed?
             && log[i].id == log[j].id == log[k].id
    ensures !After(evs).log[k].ok
  {
    RunInv(evs);
    var log := After(evs).log;
    OkIff(evs, k);
    assert !Spares(log[i], log[j]);
    assert forall g :: Outstanding(log, g, k) && log[g].id == log[i].id ==> g == i;
  }

  /** Successes map one-to-one to earlier issues of the same id, agent and value, each before its expiry. */
  lemma OkIsIssued(evs: seq<Event>, j: nat) returns (i: nat)
    requires j < |After(evs).log| && After(evs).log[j].Consumed? && After(evs).log[j].ok
    ensures var log := After(evs).log;
            && i < j && log[i].Issued? && log[i].id == log[j].id && log[i].agent == log[j].agent
            && log[i].value == log[j].value
            && log[j].t < log[i].expiresAt
            && forall k: nat :: k < |log| && k != j && Uses(log[k], log[i].id) && log[k].ok ==> false
  {
    OkIff(evs, j);
    var log := After(evs).log;
    var g :| Grants(log, g, j);
    i := g;
    forall k: nat | k < |log| && k != j && Uses(log[k], log[i].id) && log[k].ok
      ensures false
    {
      OkIff(evs, k);
      var h :| Grants(log, h, k);
      RunInv(evs);
      assert h == i;
      if k < j {
        SpentByAnyAttempt(evs, i, k, j);
      } else {
        SpentByAnyAttempt(evs, i, j, k);
      }
    }
  }

  ghost predicate ClockRuns(log: seq<Op>) {
    forall i, j :: 0 <= i < j < |log| ==> log[i].t <= log[j].t
  }

  ghost function IssuedIds(log: seq<Op>, j: int): set<Id> {
    set i | 0 <= i < j && i < |log| && log[i].Issued? :: log[i].id
  }

  ghost function ExpiredIds(log: seq<Op>, j: int, t: int): set<Id> {
    set i | 0 <= i < j && i < |log| && log[i].Issued? && log[i].expiresAt <= t :: log[i].id
  }

  /** Some operation in between used the challenge. */
  ghost predicate UsedBetween(log: seq<Op>, id: Id, i: int, j: int) {
    exists k :: 0 <= i < k < j && k < |log| && Uses(log[k], id)
  }

  ghost function ConsumedIds(log: seq<Op>, j: int): set<Id> {
    set i | 0 <= i < j && i < |log| && log[i].Issued? && UsedBetween(log, log[i].id, i, j) :: log[i].id
  }

  /** With a clock that does not run backwards, `size` is issued minus expired minus consumed. */
  lemma {:induction false} SizeIs(evs: seq<Event>, j: nat)
    requires j < |After(evs).log| && After(evs).log[j].Sized? && ClockRuns(After(evs).log)
    ensures var log := After(evs).log;
            log[j].n == |IssuedIds(log, j) - ExpiredIds(log, j, log[j].t) - ConsumedIds(log, j)|
  {
    RunInv(evs);
    var log := After(evs).log;
    var t := log[j].t;
    assert AnswerRight(log, j);
    var left := IssuedIds(log, j) - ExpiredIds(log, j, t) - ConsumedIds(log, j);
    forall id | id in left
      ensures id in Unspent(log, j, t)
    {
      var i :| 0 <= i < j && log[i].Issued? && log[i].id == id;
      assert t < log[i].expiresAt;
      assert Outstanding(log, i, j);
    }
    forall id | id in Unspent(log, j, t)
      ensures id in left
    {
      var i :| 0 <= i < j && Outstanding(log, i, j) && t < log[i].expiresAt && log[i].id == id;
      UnspentIsLeft(log, i, j, t);
    }
    assert Unspent(log, j, t) == left;
  }

  lemma {:induction false} UnspentIsLeft(log: seq<Op>, i: int, j: nat, t: int)
    requires UniqueIssues(log) && Outstanding(log, i, j) && t < log[i].expiresAt
    ensures log[i].id in IssuedIds(log, j) && log[i].id !in ExpiredIds(log, j, t) && log[i].id !in ConsumedIds(log, j)
  {
    assert forall k :: i < k < j ==> Spares(log[i], log[k]);
    assert !UsedBetween(log, log[i].id, i, j);
  }

  /**
   * With such a clock a consume succeeds exactly on the first attempt, before expiry, with the agent and value
   * issued.
   */
  lemma {:induction false} OkIffFirst(evs: seq<Event>, i: nat, j: nat)
    requires i < j < |After(evs).log| && ClockRuns(After(evs).log)
    requires var log := After(evs).log; log[i].Issued? && log[j].Consumed? && log[j].id == log[i].id
    ensures var log := After(evs).log;
            log[j].ok <==>
              && log[j].t < log[i].expiresAt && log[j].agent == log[i].agent && log[j].value == log[i].value
              && forall k :: i < k < j && log[k].Consumed? ==> log[k].id != log[i].id
  {
    RunInv(evs);
    var log := After(evs).log;
    OkIff(evs, j);
    if log[j].ok {
      var g :| Grants(log, g, j);
      assert Outstanding(log, g, j);
      assert g == i;
      assert forall k :: i < k < j ==> Spares(log[i], log[k]);
    } else if log[j].t < log[i].expiresAt && log[j].agent == log[i].agent && log[j].value == log[i].value
              && forall k :: i < k < j ==> !Uses(log[k], log[i].id) {
      assert Outstanding(log, i, j);
      assert Grants(log, i, j);
    }
  }

  // ---------------------------------------------------------------------------------------------
  // The code
  // ---------------------------------------------------------------------------------------------

  class Challenges {
    const ttlMs: int
    var records: JsMap<Id, Record>
    ghost var history: seq<Event>

    ghost predicate Valid()
      reads this
    {
      records.Valid() && records.at == After(history).live
    }

    constructor (ttlMs: int)
      ensures Valid() && this.ttlMs == ttlMs && history == []
    {
      this.ttlMs, records, history := ttlMs, Empty(), [];
    }

    /** Drop every expired entry, in map order. */
    method Sweep(t: int)
      requires records.Valid()
      modifies this`records
      ensures records.Valid() && records.at == Swept(old(records.at), t)
      ensures forall id :: id in records.at <==> id in old(records.at) && t < old(records.at)[id].expiresAt
      ensures forall id :: id in records.at ==> records.at[id] == old(records.at)[id]
    {
      var ids := records.order;
      for k := 0 to |ids|
        invariant records.Valid()
        invariant forall id :: id in records.at <==>
                    id in old(records.at) && !(old(records.at)[id].expiresAt <= t && id in ids[..k])
        invariant forall id :: id in records.at ==> records.at[id] == old(records.at)[id]
      {
        if ids[k] in records.at && records.at[ids[k]].expiresAt <= t {
          records := Drop(records, ids[k]);
        }
      }
    }

    /** `id` is the fresh random id, `t` the clock the sweep reads and `now` the clock the expiry is taken from. */
    method Issue(agent: string, id: Id, value: string, t: int, now: int) returns (expiresAt: int)
      requires Valid() && !IssuedIn(After(history).log, id)
      modifies this`records, this`history
      ensures Valid() && expiresAt == now + ttlMs
      ensures history == old(history) + [Event.Issue(t, id, agent, value, expiresAt)]
    {
      Sweep(t);
      expiresAt := now + ttlMs;
      records := Put(records, id, Record(agent, value, expiresAt));
      ghost var ev := Event.Issue(t, id, agent, value, expiresAt);
      AfterAppend(history, ev);
      history := history + [ev];
    }

    method Consume(id: Id, agent: string, observed: string, t: int) returns (ok: bool)
      requires Valid()
      modifies this`records, this`history
      ensures Valid() && history == old(history) + [Event.Consume(t, id, agent, observed)]
      ensures After(history).log == After(old(history)).log + [Consumed(t, id, agent, observed, ok)]
    {
      Sweep(t);
      ghost var ev := Event.Consume(t, id, agent, observed);
      AfterAppend(history, ev);
      history := history + [ev];
      if id !in records.at {
        return false;
      }
      var rec := records.at[id];
      records := Drop(records, id);
      if rec.agent != agent {
        return false;
      }
      if |rec.value| != |observed| {
        return false;
      }
      return rec.value == observed;
    }

    method Size(t: int) returns (n: nat)
      requires Valid()
      modifies this`records, this`history
      ensures Valid() && history == old(history) + [Event.Size(t)]
      ensures After(history).log == After(old(history)).log + [Sized(t, n)]
    {
      Sweep(t);
      ghost var ev := Event.Size(t);
      AfterAppend(history, ev);
      history := history + [ev];
      n := |records.at|;
    }
  }
}
