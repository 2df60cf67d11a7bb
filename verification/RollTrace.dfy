/**
 * The protocol a roll must follow, as a monitor over driver calls: one agent at a time is inside a
 * transaction, which is lock, heartbeat, upgrade, restart, verify, and one stop of the heartbeat.
 */
module RollTrace {
  import opened Common

  datatype Verb =
    | ResolveWorkspace | CanonicalBranch | CurrentBranch | ClassifyDirty | AutoResolve | IsBusy
    | AcquireLock | StartHeartbeat | Upgrade | Restart | VerifyStep
    | CapturePane | ReadPin | ListModified
    | StopHeartbeat | ReleaseLock | RecordVersion

  datatype Call = Call(agent: string, verb: Verb)

  datatype Stage = Locked | Beating | Mutated | Restarted | Verified

  /** Who is in a transaction and how far; which locks are held; which heartbeats run. */
  datatype Monitor = Monitor(active: Option<(string, Stage)>, locks: set<string>, hearts: set<string>)

  const IDLE := Monitor(None, {}, {})

  predicate Preflight(v: Verb) {
    v.ResolveWorkspace? || v.CanonicalBranch? || v.CurrentBranch? || v.ClassifyDirty? || v.AutoResolve? || v.IsBusy?
  }

  predicate Inspects(v: Verb) {
    v.CapturePane? || v.ReadPin? || v.ListModified?
  }

  predicate At(m: Monitor, a: string, s: Stage) {
    m.active == Some((a, s))
  }

  /** The monitor after a call, or nothing if the call breaks the protocol. */
  function Accept(m: Monitor, c: Call): Option<Monitor> {
    if Preflight(c.verb) then
      if m.active.None? then Some(m) else None
    else if Inspects(c.verb) then
      if At(m, c.agent, Verified) then Some(m) else None
    else
      match c.verb
      case AcquireLock =>
        if m.active.None? then Some(m.(active := Some((c.agent, Locked)), locks := m.locks + {c.agent})) else None
      case StartHeartbeat =>
        if At(m, c.agent, Locked) then
          Some(m.(active := Some((c.agent, Beating)), hearts := m.hearts + {c.agent}))
        else None
      case Upgrade => if At(m, c.agent, Beating) then Some(m.(active := Some((c.agent, Mutated)))) else None
      case Restart => if At(m, c.agent, Mutated) then Some(m.(active := Some((c.agent, Restarted)))) else None
      case VerifyStep => if At(m, c.agent, Restarted) then Some(m.(active := Some((c.agent, Verified)))) else None
      case StopHeartbeat =>
        if At(m, c.agent, Verified) then Some(m.(active := None, hearts := m.hearts - {c.agent})) else None
      case ReleaseLock => if m.active.None? && c.agent in m.locks then Some(m.(locks := m.locks - {c.agent})) else None
      case _ => if m.active.None? && c.agent !in m.locks then Some(m) else None
  }

  function Run(m: Monitor, t: seq<Call>): Option<Monitor> {
    if t == [] then Some(m)
    else
      var before := Run(m, t[..|t| - 1]);
      if before.None? then None else Accept(before.value, t[|t| - 1])
  }

  lemma RunAppend(m: Monitor, t: seq<Call>, c: Call)
    ensures Run(m, t + [c]) == if Run(m, t).None? then None else Accept(Run(m, t).value, c)
  {
    assert (t + [c])[..|t|] == t;
  }

  lemma {:induction false} RunConcat(m: Monitor, a: seq<Call>, b: seq<Call>)
    ensures Run(m, a + b) == if Run(m, a).None? then None else Run(Run(m, a).value, b)
  {
    if b == [] {
      assert a + b == a;
    } else {
      RunConcat(m, a, b[..|b| - 1]);
      assert (a + b)[..|a + b| - 1] == a + b[..|b| - 1];
    }
  }

  /** Calls before the transaction leave the monitor where it is. */
  lemma {:induction false} PreflightRuns(m: Monitor, t: seq<Call>)
    requires m.active.None? && forall k :: 0 <= k < |t| ==> Preflight(t[k].verb)
    ensures Run(m, t) == Some(m)
  {
    if t != [] {
      PreflightRuns(m, t[..|t| - 1]);
    }
  }

  function Calls(a: string, verbs: seq<Verb>): seq<Call> {
    seq(|verbs|, i requires 0 <= i < |verbs| => Call(a, verbs[i]))
  }

  const TRANSACTION := [AcquireLock, StartHeartbeat, Upgrade, Restart, VerifyStep]

  lemma Next(m: Monitor, t: seq<Call>, m1: Monitor, c: Call) returns (t': seq<Call>, m2: Monitor)
    requires Run(m, t) == Some(m1) && Accept(m1, c).Some?
    ensures t' == t + [c] && Accept(m1, c) == Some(m2) && Run(m, t') == Some(m2)
  {
    RunAppend(m, t, c);
    t', m2 := t + [c], Accept(m1, c).value;
  }

  lemma TransactionCalls(a: string)
    ensures Calls(a, TRANSACTION)
         == [Call(a, AcquireLock)] + [Call(a, StartHeartbeat)] + [Call(a, Upgrade)] + [Call(a, Restart)]
            + [Call(a, VerifyStep)]
  {
  }

  lemma Opens(m: Monitor, a: string) returns (t: seq<Call>)
    requires m.active.None?
    ensures t == [Call(a, AcquireLock)] + [Call(a, StartHeartbeat)]
    ensures Run(m, t) == Some(Monitor(Some((a, Beating)), m.locks + {a}, m.hearts + {a}))
  {
    var x;
    t, x := Next(m, [], m, Call(a, AcquireLock));
    t, x := Next(m, t, x, Call(a, StartHeartbeat));
  }

  lemma TransactionRuns(m: Monitor, a: string)
    requires m.active.None?
    ensures Run(m, Calls(a, TRANSACTION)) == Some(Monitor(Some((a, Verified)), m.locks + {a}, m.hearts + {a}))
  {
    var t := Opens(m, a);
    var x := Monitor(Some((a, Beating)), m.locks + {a}, m.hearts + {a});
    t, x := Next(m, t, x, Call(a, Upgrade));
    t, x := Next(m, t, x, Call(a, Restart));
    t, x := Next(m, t, x, Call(a, VerifyStep));
    TransactionCalls(a);
  }

  // ---------------------------------------------------------------------------------------------
  // What acceptance means for one agent
  // ---------------------------------------------------------------------------------------------

  ghost function Count(t: seq<Call>, a: string, v: Verb): nat {
    multiset(t)[Call(a, v)]
  }

  function Rank(s: Stage): nat {
    match s
    case Locked => 1
    case Beating => 2
    case Mutated => 3
    case Restarted => 4
    case Verified => 5
  }

  /** How many of the five transaction steps the open transaction of `a` has done. */
  function Done(m: Monitor, a: string): nat {
    if m.active.Some? && m.active.value.0 == a then Rank(m.active.value.1) else 0
  }

  ghost predicate Paired(t: seq<Call>, a: string, m: Monitor) {
    var stops := Count(t, a, StopHeartbeat);
    && Count(t, a, AcquireLock) == stops + (if Done(m, a) >= 1 then 1 else 0)
    && Count(t, a, StartHeartbeat) == stops + (if Done(m, a) >= 2 then 1 else 0)
    && Count(t, a, Upgrade) == stops + (if Done(m, a) >= 3 then 1 else 0)
    && Count(t, a, Restart) == stops + (if Done(m, a) >= 4 then 1 else 0)
    && Count(t, a, VerifyStep) == stops + (if Done(m, a) >= 5 then 1 else 0)
  }

  /** In an accepted trace every lock, heartbeat, upgrade, restart and verify of an agent is paired with one stop. */
  lemma {:induction false} AcceptedPairs(t: seq<Call>, a: string)
    requires Run(IDLE, t).Some?
    ensures Paired(t, a, Run(IDLE, t).value)
  {
    if t != [] {
      var pre, c := t[..|t| - 1], t[|t| - 1];
      AcceptedPairs(pre, a);
      assert t == pre + [c];
      assert multiset(t) == multiset(pre) + multiset{c};
      PairedStep(pre, a, Run(IDLE, pre).value, c);
    }
  }

  /**
   * An accepted trace releases a lock only while it is held and nobody is in a transaction, and records a
   * version only for an agent that is unlocked again.
   */
  lemma {:induction false} AcceptedReleases(m: Monitor, t: seq<Call>, k: nat)
    requires Run(m, t).Some? && k < |t|
    ensures Run(m, t[..k]).Some?
    ensures var x := Run(m, t[..k]).value;
            && (t[k].verb.ReleaseLock? ==> x.active.None? && t[k].agent in x.locks)
            && (t[k].verb.RecordVersion? ==> x.active.None? && t[k].agent !in x.locks)
  {
    var n := |t| - 1;
    if k < n {
      AcceptedReleases(m, t[..n], k);
      assert t[..n][..k] == t[..k];
    }
  }

  lemma CountAppend(t: seq<Call>, c: Call, a: string, v: Verb)
    ensures Count(t + [c], a, v) == Count(t, a, v) + (if c == Call(a, v) then 1 else 0)
  {
    assert multiset(t + [c]) == multiset(t) + multiset{c};
  }

  lemma PairedStep(t: seq<Call>, a: string, m: Monitor, c: Call)
    requires Paired(t, a, m) && Accept(m, c).Some?
    ensures Paired(t + [c], a, Accept(m, c).value)
  {
    CountAppend(t, c, a, AcquireLock);
    CountAppend(t, c, a, StartHeartbeat);
    CountAppend(t, c, a, Upgrade);
    CountAppend(t, c, a, Restart);
    CountAppend(t, c, a, VerifyStep);
    CountAppend(t, c, a, StopHeartbeat);
  }
}
