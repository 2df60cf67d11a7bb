/** The post-restart gate: poll an agent's health until it reports the target version or the budget is spent. */
module GreenGate {
  import opened Common
  import opened Semver

  /** A health answer; each field may be missing in an older release. */
  datatype Health = Health(version: Option<string>, instanceId: Option<string>)

  datatype Miss = WrongVersion | Unreachable

  datatype GreenResult =
    | Green(version: string)
    | NotGreen(reason: Miss, lastVersion: Option<string>, lastInstanceId: Option<string>)

  /** The versions that compare equal to the target. */
  function Equals(target: string): string -> bool {
    v => CompareSemver(v, target) == 0
  }

  /** The answer reports one of the wanted versions. */
  predicate AtTarget(wanted: string -> bool, h: Option<Health>) {
    h.Some? && h.value.version.Some? && wanted(h.value.version.value)
  }

  /** The answer reports a version that spells the same as the target. */
  ghost predicate Serves(target: string, h: Option<Health>) {
    h.Some? && h.value.version.Some? && Spelled(h.value.version.value) == Spelled(target)
  }

  lemma ServesIff(target: string, h: Option<Health>)
    ensures AtTarget(Equals(target), h) <==> Serves(target, h)
  {
    if h.Some? && h.value.version.Some? {
      CompareOrders(h.value.version.value, target);
    }
  }

  /** The version in the latest answer among the first `n` probes, if any probe was answered. */
  function LastVersion(probe: nat -> Option<Health>, n: nat): Option<string> {
    if n == 0 then None
    else if probe(n - 1).Some? then probe(n - 1).value.version
    else LastVersion(probe, n - 1)
  }

  /** Some of the first `n` probes was answered. */
  ghost predicate Answered(probe: nat -> Option<Health>, n: nat) {
    exists k :: 0 <= k < n && probe(k).Some?
  }

  /** `r` is the right result of `n` probes: the documented contract, read off the probes themselves. */
  ghost predicate Reports(wanted: string -> bool, probe: nat -> Option<Health>, n: nat, r: GreenResult)
    requires n >= 1
  {
    var last := probe(n - 1);
    && (r.Green? <==> AtTarget(wanted, last))
    && (r.Green? ==> last.value.version == Some(r.version))
    && (r.NotGreen? ==>
          && (r.reason == Unreachable <==> !Answered(probe, n))
          && r.lastVersion == LastVersion(probe, n)
          && r.lastInstanceId == if last.Some? then last.value.instanceId else None)
  }

  /** The polling loop. `elapsed(k)` is the time since the start that the clock shows after probe `k`. */
  method Poll(wanted: string -> bool, timeoutMs: int, probe: nat -> Option<Health>, elapsed: nat -> int, bound: nat)
    returns (r: GreenResult, probes: nat)
    requires elapsed(bound) >= timeoutMs
    ensures 1 <= probes <= bound + 1
    ensures Reports(wanted, probe, probes, r)
    ensures forall k :: 0 <= k < probes - 1 ==> !AtTarget(wanted, probe(k)) && elapsed(k) < timeoutMs
    ensures r.NotGreen? ==> elapsed(probes - 1) >= timeoutMs
  {
    var reachedOnce := false;
    var lastVersion: Option<string> := None;
    var lastInstanceId: Option<string> := None;
    probes := 0;
    while true
      invariant probes <= bound
      invariant reachedOnce <==> Answered(probe, probes)
      invariant lastVersion == LastVersion(probe, probes)
      invariant forall k :: 0 <= k < probes ==> !AtTarget(wanted, probe(k)) && elapsed(k) < timeoutMs
      decreases bound - probes
    {
      var health := probe(probes);
      probes := probes + 1;
      if health.Some? {
        reachedOnce := true;
        lastVersion := health.value.version;
        lastInstanceId := health.value.instanceId;
        if lastVersion.Some? && wanted(lastVersion.value) {
          return Green(lastVersion.value), probes;
        }
      } else {
        lastInstanceId := None;
      }
      if elapsed(probes - 1) >= timeoutMs {
        return NotGreen(if reachedOnce then WrongVersion else Unreachable, lastVersion, lastInstanceId), probes;
      }
    }
  }

  /**
   * Green exactly if the last probe's version is the target's; every earlier probe missed it within the budget,
   * and only a spent budget ends the wait without it. The clock reaches the budget by probe `bound`.
   */
  method VerifyGreen(target: string, timeoutMs: int, probe: nat -> Option<Health>, elapsed: nat -> int, bound: nat)
    returns (r: GreenResult, probes: nat)
    requires elapsed(bound) >= timeoutMs
    ensures 1 <= probes <= bound + 1
    ensures Reports(Equals(target), probe, probes, r)
    ensures r.Green? <==> Serves(target, probe(probes - 1))
    ensures forall k :: 0 <= k < probes - 1 ==> !Serves(target, probe(k)) && elapsed(k) < timeoutMs
    ensures r.NotGreen? ==> elapsed(probes - 1) >= timeoutMs
  {
    r, probes := Poll(Equals(target), timeoutMs, probe, elapsed, bound);
    forall k | 0 <= k < probes
      ensures AtTarget(Equals(target), probe(k)) <==> Serves(target, probe(k))
    {
      ServesIff(target, probe(k));
    }
  }

  function CeilDiv(a: nat, b: nat): nat
    requires b > 0
  {
    (a + b - 1) / b
  }

  /** When each sleep advances the clock by the interval, the budget is reached by probe ceil(timeout / interval). */
  lemma PacedBound(timeoutMs: nat, intervalMs: nat, elapsed: nat -> int)
    requires intervalMs > 0 && forall k: nat :: elapsed(k) >= k * intervalMs
    ensures elapsed(CeilDiv(timeoutMs, intervalMs)) >= timeoutMs
  {
    var n := CeilDiv(timeoutMs, intervalMs);
    assert n * intervalMs >= timeoutMs by {
      var x := timeoutMs + intervalMs - 1;
      assert x == x / intervalMs * intervalMs + x % intervalMs;
    }
    assert elapsed(n) >= n * intervalMs;
  }

  /** The polling loop with a paced clock: at most ceil(timeout / interval) + 1 probes. */
  method VerifyGreenPaced(target: string, timeoutMs: nat, intervalMs: nat, probe: nat -> Option<Health>,
                          elapsed: nat -> int)
    returns (r: GreenResult, probes: nat)
    requires intervalMs > 0 && forall k: nat :: elapsed(k) >= k * intervalMs
    ensures 1 <= probes <= CeilDiv(timeoutMs, intervalMs) + 1
    ensures probes >= 2 ==> (probes - 2) * intervalMs < timeoutMs
    ensures Reports(Equals(target), probe, probes, r)
    ensures r.Green? <==> Serves(target, probe(probes - 1))
  {
    PacedBound(timeoutMs, intervalMs, elapsed);
    r, probes := VerifyGreen(target, timeoutMs, probe, elapsed, CeilDiv(timeoutMs, intervalMs));
    if probes >= 2 {
      assert elapsed(probes - 2) >= (probes - 2) * intervalMs;
    }
  }

  /** Probe `k` is the last of the first `n` that was answered. */
  ghost predicate LastAnswer(probe: nat -> Option<Health>, n: nat, k: nat) {
    k < n && probe(k).Some? && forall j :: k < j < n ==> probe(j).None?
  }

  /** The version kept is the one in the last answer. */
  lemma {:induction false} LastVersionSeen(probe: nat -> Option<Health>, n: nat, k: nat)
    requires LastAnswer(probe, n, k)
    ensures LastVersion(probe, n) == probe(k).value.version
  {
    if k < n - 1 {
      LastVersionSeen(probe, n - 1, k);
    }
  }

  /** Without an answer there is none. */
  lemma {:induction false} NothingSeen(probe: nat -> Option<Health>, n: nat)
    requires !Answered(probe, n)
    ensures LastVersion(probe, n).None?
  {
    if n != 0 {
      NothingSeen(probe, n - 1);
    }
  }

  lemma {:induction false} FindLastAnswer(probe: nat -> Option<Health>, n: nat) returns (k: nat)
    requires Answered(probe, n)
    ensures LastAnswer(probe, n, k)
  {
    if probe(n - 1).Some? {
      k := n - 1;
    } else {
      k := FindLastAnswer(probe, n - 1);
    }
  }
}
