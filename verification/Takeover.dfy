/**
 * The over-register loop: claim the slot by compare-and-set, re-classify whatever beat the claim, and
 * either force the claim or yield. The slot may change in any way between two calls.
 */
module Takeover {
  import opened Common
  import opened Collision
  import opened SlotRegistry
  import S = SlotOwnership

  /** One compare-and-set: what it expected, what it found, and whether it claimed the slot. */
  datatype Cas = Cas(expected: Option<AgentInfo>, found: Option<AgentInfo>, ok: bool)

  /** One re-classification of the value that beat a claim. */
  datatype Judgement = Judgement(existing: AgentInfo, verdict: Result)

  datatype Outcome = Claimed | Yielded(current: AgentInfo)

  /** The value a claim is made against was found empty, or was judged fit for takeover. */
  ghost predicate Justified(expected: Option<AgentInfo>, initial: Result, judged: seq<Judgement>) {
    || expected.None?
    || (initial.Takeover? && expected.value == initial.previous)
    || (exists j :: j in judged && j.verdict == Takeover(expected.value))
  }

  function ExpectedBy(verdict: Result): Option<AgentInfo> {
    if verdict.Takeover? then Some(verdict.previous) else None
  }

  /** How many of the first `k` claims lost to a held slot: each of those was judged, in order. */
  function Held(calls: seq<Cas>, k: nat): nat
    requires k <= |calls|
  {
    if k == 0 then 0 else Held(calls, k - 1) + if calls[k - 1].found.Some? then 1 else 0
  }

  lemma {:induction false} HeldAppend(calls: seq<Cas>, c: Cas, k: nat)
    requires k <= |calls|
    ensures Held(calls + [c], k) == Held(calls, k)
  {
    if k > 0 {
      HeldAppend(calls, c, k - 1);
    }
  }

  /** Claim `k + 1` follows from what claim `k` lost to: an empty slot, or a value judged right then. */
  ghost predicate FollowsLoss(calls: seq<Cas>, judged: seq<Judgement>, k: nat)
    requires k + 1 < |calls|
  {
    if calls[k].found.None? then calls[k + 1].expected.None?
    else
      var j := Held(calls, k);
      j < |judged| && judged[j].existing == calls[k].found.value
        && if judged[j].verdict.Takeover? then calls[k + 1].expected == Some(judged[j].verdict.previous)
           else calls[k + 1].expected.None?
  }

  ghost predicate AllFollow(calls: seq<Cas>, judged: seq<Judgement>) {
    forall k: nat :: k + 1 < |calls| ==> FollowsLoss(calls, judged, k)
  }

  /** The claims and judgements so far, the last claim having been made against `expected`. */
  ghost predicate Trail(initial: Result, slot: nat -> Option<AgentInfo>, classify: nat -> Result,
                        calls: seq<Cas>, judged: seq<Judgement>, expected: Option<AgentInfo>)
  {
    && calls != [] && calls[0].expected == ExpectedBy(initial) && calls[|calls| - 1].expected == expected
    && CallsRight(slot, calls) && AllLost(calls, |calls| - 1)
    && JudgedRight(classify, judged) && |judged| == Held(calls, |calls| - 1)
    && AllFollow(calls, judged) && Justified(expected, initial, judged)
  }

  ghost predicate CallsRight(slot: nat -> Option<AgentInfo>, calls: seq<Cas>) {
    forall k :: 0 <= k < |calls| ==> calls[k].found == slot(k) && calls[k].ok == SameSlot(slot(k), calls[k].expected)
  }

  ghost predicate AllLost(calls: seq<Cas>, n: nat)
    requires n <= |calls|
  {
    forall k :: 0 <= k < n ==> !calls[k].ok
  }

  ghost predicate JudgedRight(classify: nat -> Result, judged: seq<Judgement>) {
    forall k :: 0 <= k < |judged| ==> judged[k].verdict == classify(k)
  }

  lemma JudgedMore(calls: seq<Cas>, judged: seq<Judgement>, x: Judgement)
    requires AllFollow(calls, judged)
    ensures AllFollow(calls, judged + [x])
  {
    forall k: nat | k + 1 < |calls|
      ensures FollowsLoss(calls, judged + [x], k)
    {
      assert FollowsLoss(calls, judged, k);
    }
  }

  lemma ClaimedAgain(calls: seq<Cas>, judged: seq<Judgement>, c: Cas)
    requires calls != [] && AllFollow(calls, judged)
    requires var n := |calls| - 1;
             if calls[n].found.None? then c.expected.None?
             else Held(calls, n) < |judged| && judged[Held(calls, n)].existing == calls[n].found.value
                  && c.expected == ExpectedBy(judged[Held(calls, n)].verdict)
    ensures AllFollow(calls + [c], judged)
    ensures Held(calls + [c], |calls|) == Held(calls, |calls|)
  {
    HeldAppend(calls, c, |calls|);
    forall k: nat | k + 1 < |calls + [c]|
      ensures FollowsLoss(calls + [c], judged, k)
    {
      HeldAppend(calls, c, k);
      if k + 1 < |calls| {
        assert FollowsLoss(calls, judged, k);
      }
    }
  }

  /** A claim that lost to an empty slot is made again, against the empty slot. */
  lemma TrailOverEmpty(initial: Result, slot: nat -> Option<AgentInfo>, classify: nat -> Result,
                       calls: seq<Cas>, judged: seq<Judgement>, expected: Option<AgentInfo>, c: Cas)
    requires Trail(initial, slot, classify, calls, judged, expected)
    requires !calls[|calls| - 1].ok && calls[|calls| - 1].found.None?
    requires c == Cas(None, slot(|calls|), SameSlot(slot(|calls|), None))
    ensures Trail(initial, slot, classify, calls + [c], judged, None)
  {
    ClaimedAgain(calls, judged, c);
  }

  /** One that lost to a value judged fit for takeover is made again, against that value. */
  lemma TrailOverHeld(initial: Result, slot: nat -> Option<AgentInfo>, classify: nat -> Result,
                      calls: seq<Cas>, judged: seq<Judgement>, expected: Option<AgentInfo>, x: Judgement, c: Cas)
    requires Trail(initial, slot, classify, calls, judged, expected)
    requires !calls[|calls| - 1].ok && calls[|calls| - 1].found == Some(x.existing)
    requires x.verdict == classify(|judged|) && !x.verdict.Abort?
    requires c == Cas(ExpectedBy(x.verdict), slot(|calls|), SameSlot(slot(|calls|), ExpectedBy(x.verdict)))
    ensures Trail(initial, slot, classify, calls + [c], judged + [x], c.expected)
  {
    JudgedMore(calls, judged, x);
    ClaimedAgain(calls, judged + [x], c);
    assert x in judged + [x];
  }

  /** What the loop's end tells: who holds the slot, and what justifies it. */
  ghost predicate Ended(outcome: Outcome, initial: Result, calls: seq<Cas>, judged: seq<Judgement>, maxRetries: nat)
    requires calls != []
  {
    var last := calls[|calls| - 1];
    match outcome
    case Claimed => last.ok && Justified(last.expected, initial, judged)
    case Yielded(current) =>
      && !last.ok && last.found == Some(current)
      && (|calls| > maxRetries
          || (judged != [] && judged[|judged| - 1].existing == current && judged[|judged| - 1].verdict.Abort?))
  }

  /**
   * `slot(k)` is what the other processes leave in the slot before the k-th compare-and-set and `classify(k)`
   * the verdict of the k-th re-classification, so every adversary is some pair of functions. The loop ends,
   * within `maxRetries + 2` claims and `maxRetries` re-classifications; it claims only over an empty slot or
   * a value judged fit for takeover; it yields only after an abort verdict on the value it has just seen,
   * or with its retries spent.
   */
  method RegisterWithTakeover(registry: Registry, info: AgentInfo, initial: Result, slot: nat -> Option<AgentInfo>,
                              classify: nat -> Result, maxRetries: nat)
    returns (outcome: Outcome, ghost calls: seq<Cas>, judged: seq<Judgement>)
    modifies registry
    ensures 1 <= |calls| <= maxRetries + 2 && |judged| <= maxRetries
    ensures calls[0].expected == if initial.Takeover? then Some(initial.previous) else None
    ensures CallsRight(slot, calls) && AllLost(calls, |calls| - 1)
    ensures JudgedRight(classify, judged)
    ensures AllFollow(calls, judged)
    ensures Ended(outcome, initial, calls, judged, maxRetries)
    ensures registry.slot == if outcome.Claimed? then Some(info) else Some(outcome.current)
  {
    var expectedSlot := ExpectedBy(initial);
    registry.slot := slot(0);
    var ok, current := registry.RegisterConditional(info, expectedSlot);
    calls, judged := [Cas(expectedSlot, slot(0), ok)], [];
    var attempt := 0;
    while !ok
      invariant |calls| == attempt + 1 && calls[attempt].ok == ok
      invariant registry.slot == current == if ok then Some(info) else calls[attempt].found
      invariant attempt <= maxRetries || (attempt == maxRetries + 1 && expectedSlot == None)
      invariant |judged| <= attempt && |judged| <= maxRetries
      invariant Trail(initial, slot, classify, calls, judged, expectedSlot)
      decreases maxRetries + 1 - attempt
    {
      ghost var next;
      if current.None? {
        expectedSlot := None;
        next := Cas(None, slot(attempt + 1), SameSlot(slot(attempt + 1), None));
        TrailOverEmpty(initial, slot, classify, calls, judged, calls[attempt].expected, next);
      } else if attempt >= maxRetries {
        return Yielded(current.value), calls, judged;
      } else {
        var verdict := classify(|judged|);
        var judgement := Judgement(current.value, verdict);
        if verdict.Abort? {
          JudgedMore(calls, judged, judgement);
          return Yielded(current.value), calls, judged + [judgement];
        }
        expectedSlot := ExpectedBy(verdict);
        next := Cas(expectedSlot, slot(attempt + 1), SameSlot(slot(attempt + 1), expectedSlot));
        TrailOverHeld(initial, slot, classify, calls, judged, calls[attempt].expected, judgement, next);
        judged := judged + [judgement];
      }
      attempt := attempt + 1;
      registry.slot := slot(attempt);
      ok, current := registry.RegisterConditional(info, expectedSlot);
      calls := calls + [next];
    }
    outcome := Claimed;
  }

  // ---------------------------------------------------------------------------------------------
  // The claims as steps of the slot protocol
  // ---------------------------------------------------------------------------------------------

  /** The first `k` claims in between what the other processes do: `between(j)` comes before claim `j`. */
  ghost function Interleaved(info: AgentInfo, calls: seq<Cas>, between: nat -> seq<S.Event>, k: nat): seq<S.Event>
    requires k <= |calls|
  {
    if k == 0 then []
    else Interleaved(info, calls, between, k - 1) + between(k - 1) + [S.Claim(info, calls[k - 1].expected)]
  }

  /** The run that ends just before claim `k`. */
  ghost function RunTo(info: AgentInfo, calls: seq<Cas>, between: nat -> seq<S.Event>, k: nat): seq<S.Event>
    requires k <= |calls|
  {
    Interleaved(info, calls, between, k) + between(k)
  }

  /** Claim `k` finds what the slot of the protocol then holds, and the others do not claim in this instance's name. */
  ghost predicate Meets(info: AgentInfo, calls: seq<Cas>, between: nat -> seq<S.Event>, k: nat)
    requires k < |calls|
  {
    && calls[k].found == S.After(S.START, RunTo(info, calls, between, k)).slot
    && calls[k].ok == SameSlot(calls[k].found, calls[k].expected)
    && forall ev :: ev in between(k) && ev.Claim? ==> ev.info.instanceId != info.instanceId
  }

  lemma {:induction false} Unclaimed(s: S.State, evs: seq<S.Event>, id: string)
    requires id !in s.instances && forall ev :: ev in evs && ev.Claim? ==> ev.info.instanceId != id
    ensures id !in S.After(s, evs).instances
  {
    if evs != [] {
      assert evs[|evs| - 1] in evs;
      Unclaimed(s, evs[..|evs| - 1], id);
    }
  }

  lemma {:induction false} RunSplit(s: S.State, a: seq<S.Event>, b: seq<S.Event>)
    ensures S.After(s, a + b) == S.After(S.After(s, a), b)
  {
    if b == [] {
      assert a + b == a;
    } else {
      assert (a + b)[..|a + b| - 1] == a + b[..|b| - 1];
      RunSplit(s, a, b[..|b| - 1]);
    }
  }

  lemma ClaimStep(run: seq<S.Event>, info: AgentInfo, expected: Option<AgentInfo>)
    requires info.instanceId !in S.After(S.START, run).instances
    ensures var s, x := S.After(S.START, run), S.After(S.START, run + [S.Claim(info, expected)]);
            if SameSlot(s.slot, expected)
            then x.slot == Some(info) && S.Serving(x, info.instanceId)
            else x == s
  {
    RunSplit(S.START, run, [S.Claim(info, expected)]);
    assert [S.Claim(info, expected)][..0] == [];
  }

  /**
   * The claims of a registration, put between whatever the other processes do, are claims of the slot
   * protocol: those that lose change nothing, and one that wins makes this instance the serving owner.
   */
  lemma {:induction false} ClaimsInRun(info: AgentInfo, calls: seq<Cas>, between: nat -> seq<S.Event>, k: nat)
    requires k <= |calls| && AllLost(calls, if k == 0 then 0 else k - 1)
    requires forall j: nat :: j < k ==> Meets(info, calls, between, j)
    ensures var x := S.After(S.START, Interleaved(info, calls, between, k));
            if k > 0 && calls[k - 1].ok then x.slot == Some(info) && S.Serving(x, info.instanceId)
            else info.instanceId !in x.instances
                 && (k > 0 ==> x == S.After(S.START, RunTo(info, calls, between, k - 1)))
  {
    if k > 0 {
      ClaimsInRun(info, calls, between, k - 1);
      assert Meets(info, calls, between, k - 1);
      var before := Interleaved(info, calls, between, k - 1);
      RunSplit(S.START, before, between(k - 1));
      Unclaimed(S.After(S.START, before), between(k - 1), info.instanceId);
      ClaimStep(RunTo(info, calls, between, k - 1), info, calls[k - 1].expected);
    }
  }
}
