/** The in-process token cache: a cached token answers for fifty minutes, and concurrent refreshes share one mint. */
module TokenCache {
  import opened Common

  const REFRESH_AGE_MS := 50 * 60 * 1000

  datatype MintResult = Minted(token: string, at: int) | MintFailed

  /** How a call is answered: from the cache at once, or with the result of the mint it joined. */
  datatype Source = FromCache(token: string) | Joined(mint: nat)

  /**
   * One call: whether it forces a refresh, the clock it read, its answer, and how many mints had ended when it
   * came.
   */
  datatype Call = Call(force: bool, now: int, source: Source, ended: nat)

  /** Every mint ever started, in order, with its result once it has one. */
  datatype Refresher = Refresher(
    cachedToken: Option<string>,
    mintedAt: int,
    inFlight: Option<nat>,
    mints: seq<Option<MintResult>>,
    calls: seq<Call>)

  const START := Refresher(None, 0, None, [], [])

  datatype Event =
    | Ask(force: bool, now: int)
    | MintSucceeds(mint: nat, token: string, at: int)
    | MintFails(mint: nat)

  predicate Outstanding(r: Refresher, m: nat) {
    m < |r.mints| && r.mints[m].None?
  }

  /** The cache may answer: a token is there, it is young enough, and the call does not force. */
  predicate Hit(r: Refresher, force: bool, now: int) {
    !force && r.cachedToken.Some? && now - r.mintedAt < REFRESH_AGE_MS
  }

  function EndedMints(r: Refresher): nat {
    if r.inFlight.Some? && |r.mints| > 0 then |r.mints| - 1 else |r.mints|
  }

  function Answered(r: Refresher, force: bool, now: int, source: Source): Refresher {
    r.(calls := r.calls + [Call(force, now, source, EndedMints(r))])
  }

  function Step(r: Refresher, ev: Event): Refresher {
    match ev
    case Ask(force, now) =>
      if Hit(r, force, now) then Answered(r, force, now, FromCache(r.cachedToken.value))
      else if r.inFlight.Some? then Answered(r, force, now, Joined(r.inFlight.value))
      else Answered(r, force, now, Joined(|r.mints|)).(inFlight := Some(|r.mints|), mints := r.mints + [None])
    case MintSucceeds(m, token, at) =>
      if Outstanding(r, m) then
        r.(cachedToken := Some(token), mintedAt := at, inFlight := None, mints := r.mints[m := Some(Minted(token, at))])
      else r
    case MintFails(m) =>
      if Outstanding(r, m) then r.(inFlight := None, mints := r.mints[m := Some(MintFailed)])
      else r
  }

  function After(evs: seq<Event>): Refresher {
    if evs == [] then START else Step(After(evs[..|evs| - 1]), evs[|evs| - 1])
  }

  lemma AfterAppend(evs: seq<Event>, ev: Event)
    ensures After(evs + [ev]) == Step(After(evs), ev)
  {
    assert (evs + [ev])[..|evs|] == evs;
  }

  // ---------------------------------------------------------------------------------------------
  // Invariants
  // ---------------------------------------------------------------------------------------------

  /** Only the last mint can be outstanding, and `inFlight` names it exactly while it is. */
  ghost predicate OneMint(r: Refresher) {
    && (forall m :: 0 <= m < |r.mints| ==> (r.mints[m].None? <==> r.inFlight == Some(m)))
    && (r.inFlight.Some? ==> r.mints != [] && r.inFlight.value == |r.mints| - 1)
  }

  /** The newest token among the first `n` mints. */
  function Newest(mints: seq<Option<MintResult>>, n: nat): Option<MintResult>
    requires n <= |mints|
  {
    if n == 0 then None
    else if mints[n - 1].Some? && mints[n - 1].value.Minted? then mints[n - 1]
    else Newest(mints, n - 1)
  }

  /** The cached pair is the newest successful mint; failed mints leave no trace in it. */
  ghost predicate CacheRight(r: Refresher) {
    match Newest(r.mints, |r.mints|)
    case None => r.cachedToken.None?
    case Some(m) => m.Minted? && r.cachedToken == Some(m.token) && r.mintedAt == m.at
  }

  /**
   * A cached answer is the newest token of the mints that had ended, young enough at the call's clock; every
   * other call got a mint that had not ended when it came.
   */
  ghost predicate CallRight(r: Refresher, c: Call) {
    && c.ended <= |r.mints|
    && (forall m :: 0 <= m < c.ended ==> r.mints[m].Some?)
    && match c.source
       case FromCache(token) =>
         var newest := Newest(r.mints, c.ended);
         !c.force && newest.Some? && newest.value.Minted? && newest.value.token == token
           && c.now - newest.value.at < REFRESH_AGE_MS
       case Joined(m) =>
         m == c.ended && m < |r.mints|
  }

  ghost predicate Inv(r: Refresher) {
    && OneMint(r)
    && CacheRight(r)
    && forall k :: 0 <= k < |r.calls| ==> CallRight(r, r.calls[k])
  }

  lemma {:induction false} NewestSame(a: seq<Option<MintResult>>, b: seq<Option<MintResult>>, n: nat)
    requires n <= |a| && n <= |b| && forall m :: 0 <= m < n ==> a[m] == b[m]
    ensures Newest(a, n) == Newest(b, n)
  {
    if n > 0 {
      NewestSame(a, b, n - 1);
    }
  }

  lemma {:induction false} NewestMinted(mints: seq<Option<MintResult>>, n: nat)
    requires n <= |mints|
    ensures Newest(mints, n).Some? ==> Newest(mints, n).value.Minted?
  {
    if n > 0 {
      NewestMinted(mints, n - 1);
    }
  }

  /** Calls stay right while a mint that had not ended when they came is started or gets its result. */
  lemma CallKept(r: Refresher, x: Refresher, c: Call)
    requires CallRight(r, c) && |r.mints| <= |x.mints|
    requires forall m :: 0 <= m < |r.mints| && r.mints[m].Some? ==> x.mints[m] == r.mints[m]
    ensures CallRight(x, c)
  {
    NewestSame(r.mints, x.mints, c.ended);
  }

  /** One more call, with at most one more mint, both as they should be. */
  lemma CallsInv(r: Refresher, x: Refresher, c: Call)
    requires Inv(r) && OneMint(x) && CacheRight(x) && x.calls == r.calls + [c] && CallRight(x, c)
    requires |r.mints| <= |x.mints| && forall m :: 0 <= m < |r.mints| ==> x.mints[m] == r.mints[m]
    ensures Inv(x)
  {
    forall k | 0 <= k < |x.calls|
      ensures CallRight(x, x.calls[k])
    {
      if k < |r.calls| {
        CallKept(r, x, r.calls[k]);
      }
    }
  }

  lemma HitInv(r: Refresher, now: int)
    requires Inv(r) && Hit(r, false, now)
    ensures Inv(Answered(r, false, now, FromCache(r.cachedToken.value)))
  {
    var x := Answered(r, false, now, FromCache(r.cachedToken.value));
    var n := |r.mints|;
    NewestMinted(r.mints, n);
    if r.inFlight.Some? {
      assert Newest(r.mints, n) == Newest(r.mints, n - 1);
    }
    CallsInv(r, x, x.calls[|r.calls|]);
  }

  lemma MissInv(r: Refresher, force: bool, now: int)
    requires Inv(r) && !Hit(r, force, now)
    ensures Inv(Step(r, Ask(force, now)))
  {
    var x := Step(r, Ask(force, now));
    NewestSame(r.mints, x.mints, |r.mints|);
    CallsInv(r, x, x.calls[|r.calls|]);
  }

  lemma AskInv(r: Refresher, force: bool, now: int)
    requires Inv(r)
    ensures Inv(Step(r, Ask(force, now)))
  {
    if Hit(r, force, now) {
      HitInv(r, now);
    } else {
      MissInv(r, force, now);
    }
  }

  lemma MintInv(r: Refresher, m: nat, result: MintResult)
    requires Inv(r) && Outstanding(r, m)
    ensures Inv(Step(r, if result.Minted? then MintSucceeds(m, result.token, result.at) else MintFails(m)))
  {
    var x := Step(r, if result.Minted? then MintSucceeds(m, result.token, result.at) else MintFails(m));
    assert m == |r.mints| - 1;
    NewestSame(r.mints, x.mints, m);
    forall k | 0 <= k < |x.calls|
      ensures CallRight(x, x.calls[k])
    {
      CallKept(r, x, r.calls[k]);
    }
  }

  lemma {:induction false} RunInv(evs: seq<Event>)
    ensures Inv(After(evs))
  {
    if evs != [] {
      var r := After(evs[..|evs| - 1]);
      RunInv(evs[..|evs| - 1]);
      match evs[|evs| - 1]
      case Ask(force, now) => AskInv(r, force, now);
      case MintSucceeds(m, token, at) =>
        if Outstanding(r, m) {
          MintInv(r, m, Minted(token, at));
        }
      case MintFails(m) =>
        if Outstanding(r, m) {
          MintInv(r, m, MintFailed);
        }
    }
  }

  // ---------------------------------------------------------------------------------------------
  // What every run guarantees
  // ---------------------------------------------------------------------------------------------

  /** At most one mint is outstanding, and `inFlight` is set exactly while one is. */
  lemma AtMostOneMint(evs: seq<Event>, m: nat, n: nat)
    ensures var r := After(evs);
            && (Outstanding(r, m) && Outstanding(r, n) ==> m == n)
            && (r.inFlight.Some? <==> exists k :: Outstanding(r, k))
  {
    RunInv(evs);
    var r := After(evs);
    if r.inFlight.Some? {
      assert Outstanding(r, r.inFlight.value);
    }
  }

  /**
   * A cached answer was minted less than fifty minutes before the call read its clock, and no newer mint had
   * succeeded.
   */
  lemma CachedIsYoung(evs: seq<Event>, k: nat) returns (m: nat)
    requires k < |After(evs).calls| && After(evs).calls[k].source.FromCache?
    ensures var r, c := After(evs), After(evs).calls[k];
            && m < c.ended <= |r.mints| && !c.force
            && r.mints[m].Some? && r.mints[m].value.Minted? && r.mints[m].value.token == c.source.token
            && c.now - r.mints[m].value.at < 3_000_000
            && forall j :: m < j < c.ended ==> r.mints[j] == Some(MintFailed)
  {
    RunInv(evs);
    var r, c := After(evs), After(evs).calls[k];
    assert CallRight(r, c);
    m := NewestAt(r.mints, c.ended);
  }

  lemma {:induction false} NewestAt(mints: seq<Option<MintResult>>, n: nat) returns (m: nat)
    requires n <= |mints| && Newest(mints, n).Some? && forall j :: 0 <= j < n ==> mints[j].Some?
    ensures m < n && mints[m] == Newest(mints, n)
    ensures forall j :: m < j < n ==> mints[j] == Some(MintFailed)
  {
    if mints[n - 1].value.Minted? {
      m := n - 1;
    } else {
      m := NewestAt(mints, n - 1);
    }
  }

  /** Mint `m` succeeded, and no later one has. */
  ghost predicate LastSuccess(mints: seq<Option<MintResult>>, m: nat) {
    && m < |mints| && mints[m].Some? && mints[m].value.Minted?
    && forall j :: m < j < |mints| ==> mints[j].None? || mints[j].value.MintFailed?
  }

  /** Mint `m` is the last success and is less than fifty minutes old. */
  ghost predicate Fresh(mints: seq<Option<MintResult>>, now: int, m: nat) {
    LastSuccess(mints, m) && now - mints[m].value.at < 3_000_000
  }

  lemma {:induction false} NewestIsLast(mints: seq<Option<MintResult>>, n: nat, m: nat)
    requires n <= |mints| && LastSuccess(mints[..n], m)
    ensures Newest(mints, n) == mints[m]
  {
    if m < n - 1 {
      assert mints[..n][n - 1] == mints[n - 1];
      assert forall j :: 0 <= j < n - 1 ==> mints[..n - 1][j] == mints[..n][j];
      NewestIsLast(mints, n - 1, m);
    } else {
      assert mints[..n][m] == mints[m];
    }
  }

  lemma {:induction false} FindNewest(mints: seq<Option<MintResult>>, n: nat) returns (m: nat)
    requires n <= |mints| && Newest(mints, n).Some?
    ensures LastSuccess(mints[..n], m) && mints[m] == Newest(mints, n)
  {
    assert mints[..n][n - 1] == mints[n - 1];
    if mints[n - 1].Some? && mints[n - 1].value.Minted? {
      m := n - 1;
    } else {
      m := FindNewest(mints, n - 1);
      assert forall j :: 0 <= j < n - 1 ==> mints[..n - 1][j] == mints[..n][j];
    }
  }

  lemma HitIff(r: Refresher, force: bool, now: int)
    requires CacheRight(r)
    ensures Hit(r, force, now) <==> !force && exists m: nat :: Fresh(r.mints, now, m)
    ensures forall m: nat :: Hit(r, force, now) && LastSuccess(r.mints, m) ==>
              r.cachedToken == Some(r.mints[m].value.token)
  {
    var n := |r.mints|;
    assert r.mints[..n] == r.mints;
    if r.cachedToken.Some? {
      var m := FindNewest(r.mints, n);
      if Hit(r, force, now) {
        assert Fresh(r.mints, now, m);
      }
    }
    forall m: nat | LastSuccess(r.mints, m)
      ensures r.cachedToken == Some(r.mints[m].value.token) && r.mintedAt == r.mints[m].value.at
    {
      NewestIsLast(r.mints, n, m);
    }
  }

  /** The cache answers a call iff it does not force and the last successful mint is under fifty minutes old. */
  lemma CacheAnswersIff(evs: seq<Event>, force: bool, now: int)
    ensures var r, x := After(evs), After(evs + [Ask(force, now)]);
            && |x.calls| == |r.calls| + 1
            && var source := x.calls[|r.calls|].source;
            && (source.FromCache? <==> !force && exists m: nat :: Fresh(r.mints, now, m))
            && (source.FromCache? ==>
                  forall m: nat :: LastSuccess(r.mints, m) ==> source.token == r.mints[m].value.token)
  {
    AfterAppend(evs, Ask(force, now));
    RunInv(evs);
    HitIff(After(evs), force, now);
  }

  /**
   * A call the cache may not answer waits for a mint still outstanding when it comes: forcing never returns an
   * old token.
   */
  lemma MissWaitsForMint(evs: seq<Event>, force: bool, now: int) returns (m: nat)
    requires force || forall m: nat :: !Fresh(After(evs).mints, now, m)
    ensures var r, x := After(evs), After(evs + [Ask(force, now)]);
            && x.calls == r.calls + [Call(force, now, Joined(m), m)]
            && Outstanding(x, m) && |x.mints| == m + 1
            && |x.mints| == (if r.inFlight.Some? then |r.mints| else |r.mints| + 1)
  {
    AfterAppend(evs, Ask(force, now));
    RunInv(evs);
    HitIff(After(evs), force, now);
    m := |After(evs + [Ask(force, now)]).mints| - 1;
  }

  /**
   * A failed mint rejects exactly the calls that joined it, keeps the cached pair, and lets the next call mint
   * again.
   */
  lemma FailureIsContained(evs: seq<Event>, m: nat, now: int)
    requires Outstanding(After(evs), m)
    ensures var r, x, y := After(evs), After(evs + [MintFails(m)]), After(evs + [MintFails(m)] + [Ask(true, now)]);
            && x.mints[m] == Some(MintFailed)
            && (forall k :: 0 <= k < |r.mints| && k != m ==> x.mints[k] == r.mints[k])
            && x.cachedToken == r.cachedToken && x.mintedAt == r.mintedAt && x.calls == r.calls
            && x.inFlight.None? && Outstanding(y, |r.mints|)
  {
    AfterAppend(evs, MintFails(m));
    AfterAppend(evs + [MintFails(m)], Ask(true, now));
  }

  // ---------------------------------------------------------------------------------------------
  // The code
  // ---------------------------------------------------------------------------------------------

  /** The closure's three variables; a mint's promise is named by its number. */
  class TokenRefresher {
    var cachedToken: Option<string>
    var mintedAt: int
    var inFlight: Option<nat>
    var started: nat
    ghost var history: seq<Event>

    ghost predicate Valid()
      reads this
    {
      var r := After(history);
      cachedToken == r.cachedToken && mintedAt == r.mintedAt && inFlight == r.inFlight && started == |r.mints|
    }

    constructor ()
      ensures Valid() && history == []
    {
      cachedToken, mintedAt, inFlight, started, history := None, 0, None, 0, [];
    }

    /** Join the mint in flight, or start one. */
    method MintAndCache() returns (mint: nat)
      modifies this`inFlight, this`started
      ensures mint == (if old(inFlight).Some? then old(inFlight).value else old(started))
      ensures inFlight == Some(mint)
      ensures started == old(started) + if old(inFlight).Some? then 0 else 1
    {
      if inFlight.Some? {
        return inFlight.value;
      }
      mint := started;
      inFlight, started := Some(mint), started + 1;
    }

    method GetRefreshedToken(force: bool, now: int) returns (source: Source)
      requires Valid()
      modifies this
      ensures Valid() && history == old(history) + [Ask(force, now)]
      ensures var calls := After(history).calls;
              calls != [] && calls[|calls| - 1].source == source
    {
      AfterAppend(history, Ask(force, now));
      history := history + [Ask(force, now)];
      var age := now - mintedAt;
      if !force && cachedToken.Some? && age < REFRESH_AGE_MS {
        return FromCache(cachedToken.value);
      }
      var mint := MintAndCache();
      return Joined(mint);
    }

    /** The mint in flight ends: on success the pair is cached, and either way nothing is in flight. */
    method EndMint(result: MintResult)
      requires Valid() && inFlight.Some?
      modifies this
      ensures Valid() && inFlight.None?
      ensures history == old(history) + [if result.Minted?
                                         then MintSucceeds(old(inFlight).value, result.token, result.at)
                                         else MintFails(old(inFlight).value)]
    {
      ghost var m := inFlight.value;
      ghost var ev := if result.Minted? then MintSucceeds(m, result.token, result.at) else MintFails(m);
      RunInv(history);
      AfterAppend(history, ev);
      history := history + [ev];
      if result.Minted? {
        cachedToken, mintedAt := Some(result.token), result.at;
      }
      inFlight := None;
    }
  }
}
