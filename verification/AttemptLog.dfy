/** The bounded map of last send attempts: at its limit, a new id evicts the id tracked longest. */
module AttemptLog {
  import opened Common
  import opened OutboxProtocol

  const MAX_TRACKED_ATTEMPTS := 500

  datatype Attempt = Attempt(httpOk: bool, transportOk: bool, unregistered: bool)

  datatype Tracked = Tracked(id: Id, attempt: Attempt)

  type Attempts = JsMap<Id, Attempt>

  /** The map after recording one attempt. */
  function Recorded(m: Attempts, r: Tracked): Attempts {
    var full := |m.order| >= MAX_TRACKED_ATTEMPTS && r.id !in m.at;
    Put(if full then Drop(m, m.order[0]) else m, r.id, r.attempt)
  }

  function RecordAll(m: Attempts, rs: seq<Tracked>): Attempts {
    if rs == [] then m else Recorded(RecordAll(m, rs[..|rs| - 1]), rs[|rs| - 1])
  }

  lemma RecordAllNext(m: Attempts, rs: seq<Tracked>, r: Tracked)
    ensures RecordAll(m, rs + [r]) == Recorded(RecordAll(m, rs), r)
  {
    assert (rs + [r])[..|rs|] == rs;
  }

  lemma ConcatNext(m: Attempts, a: seq<Tracked>, b: seq<Tracked>, r: Tracked)
    requires RecordAll(m, a + b) == RecordAll(RecordAll(m, a), b)
    ensures RecordAll(m, a + (b + [r])) == RecordAll(RecordAll(m, a), b + [r])
  {
    RecordAllNext(m, a + b, r);
    RecordAllNext(RecordAll(m, a), b, r);
    assert a + (b + [r]) == a + b + [r];
  }

  lemma {:induction false} RecordAllConcat(m: Attempts, a: seq<Tracked>, b: seq<Tracked>)
    ensures RecordAll(m, a + b) == RecordAll(RecordAll(m, a), b)
  {
    if b == [] {
      assert a + b == a;
    } else {
      var init, r := b[..|b| - 1], b[|b| - 1];
      RecordAllConcat(m, a, init);
      ConcatNext(m, a, init, r);
      assert init + [r] == b;
    }
  }

  ghost predicate Bounded(m: Attempts) {
    m.Valid() && |m.order| <= 500
  }

  lemma {:induction false} WithoutAbsent<T>(s: seq<T>, k: T)
    requires k !in s
    ensures Without(s, k) == s
  {
    if s != [] {
      WithoutAbsent(s[1..], k);
    }
  }

  lemma WithoutFirst<T>(s: seq<T>)
    requires s != [] && NoDup(s)
    ensures Without(s, s[0]) == s[1..]
  {
    assert s[0] !in s[1..];
    WithoutAbsent(s[1..], s[0]);
  }

  /** The last `n` elements, or all if there are fewer. */
  function Last<T>(s: seq<T>, n: nat): seq<T> {
    if |s| <= n then s else s[|s| - n..]
  }

  /** The map never outgrows its bound, and it holds the latest attempt of the id just recorded. */
  lemma RecordedBounded(m: Attempts, r: Tracked)
    requires Bounded(m)
    ensures var x := Recorded(m, r);
            && Bounded(x) && r.id in x.at && x.at[r.id] == r.attempt
            && (forall id :: id in x.at && id != r.id ==> id in m.at && x.at[id] == m.at[id])
            && (r.id !in m.at ==> x.order == Last(m.order + [r.id], 500))
            && (r.id in m.at ==> x.order == m.order)
  {
    if |m.order| >= MAX_TRACKED_ATTEMPTS && r.id !in m.at {
      WithoutFirst(m.order);
      assert (m.order + [r.id])[1..] == m.order[1..] + [r.id];
    }
  }

  lemma {:induction false} RecordAllBounded(m: Attempts, rs: seq<Tracked>)
    requires Bounded(m)
    ensures Bounded(RecordAll(m, rs))
    ensures forall id :: id in RecordAll(m, rs).at ==> id in m.at || exists k :: 0 <= k < |rs| && rs[k].id == id
  {
    if rs != [] {
      var n := |rs| - 1;
      RecordAllBounded(m, rs[..n]);
      RecordedBounded(RecordAll(m, rs[..n]), rs[n]);
      forall id | id in RecordAll(m, rs).at && id !in m.at
        ensures exists k :: 0 <= k < |rs| && rs[k].id == id
      {
        if id != rs[n].id {
          var k :| 0 <= k < |rs[..n]| && rs[..n][k].id == id;
          assert rs[k].id == id;
        } else {
          assert rs[n].id == id;
        }
      }
    }
  }

  function Ids(rs: seq<Tracked>): seq<Id> {
    seq(|rs|, i requires 0 <= i < |rs| => rs[i].id)
  }

  /** None of the ids is tracked yet, and none comes twice. */
  ghost predicate Fresh(m: Attempts, rs: seq<Tracked>) {
    && (forall k :: 0 <= k < |rs| ==> rs[k].id !in m.at)
    && (forall i, j :: 0 <= i < j < |rs| ==> rs[i].id != rs[j].id)
  }

  lemma StillFresh(m: Attempts, rs: seq<Tracked>, n: nat)
    requires Bounded(m) && Fresh(m, rs) && n < |rs|
    ensures rs[n].id !in RecordAll(m, rs[..n]).at
  {
    RecordAllBounded(m, rs[..n]);
    forall k | 0 <= k < |rs[..n]|
      ensures rs[..n][k].id != rs[n].id
    {
    }
  }

  lemma LastNext(s: seq<Id>, x: Id, n: nat)
    requires n > 0
    ensures Last(Last(s, n) + [x], n) == Last(s + [x], n)
  {
  }

  lemma IdsNext(order: seq<Id>, rs: seq<Tracked>)
    requires rs != []
    ensures var n := |rs| - 1; order + Ids(rs) == order + Ids(rs[..n]) + [rs[n].id]
  {
  }

  /** Fresh ids queue up behind the tracked ones, and the map keeps the last five hundred of them all. */
  lemma {:induction false} FreshOrder(m: Attempts, rs: seq<Tracked>)
    requires Bounded(m) && Fresh(m, rs)
    ensures RecordAll(m, rs).order == Last(m.order + Ids(rs), 500)
  {
    if rs == [] {
      assert m.order + Ids(rs) == m.order;
    } else {
      var n := |rs| - 1;
      FreshOrder(m, rs[..n]);
      RecordAllBounded(m, rs[..n]);
      StillFresh(m, rs, n);
      RecordedBounded(RecordAll(m, rs[..n]), rs[n]);
      LastNext(m.order + Ids(rs[..n]), rs[n].id, 500);
      IdsNext(m.order, rs);
    }
  }

  /** An element that occurs once is among the last `n` exactly if fewer than `n` come after it. */
  lemma InLast(s: seq<Id>, p: nat, n: nat)
    requires p < |s| && forall i :: 0 <= i < |s| && s[i] == s[p] ==> i == p
    ensures s[p] in Last(s, n) <==> |s| - p <= n
  {
    if |s| - p <= n < |s| {
      assert Last(s, n)[p - (|s| - n)] == s[p];
    }
  }

  /** Of fresh ids exactly the last five hundred are still tracked, each with the attempt recorded for it. */
  lemma FreshTracked(m: Attempts, rs: seq<Tracked>, k: nat)
    requires Bounded(m) && Fresh(m, rs) && k < |rs|
    ensures var x := RecordAll(m, rs);
            && (rs[k].id in x.at <==> |rs| - k <= 500)
            && (rs[k].id in x.at ==> x.at[rs[k].id] == rs[k].attempt)
  {
    var all, p := m.order + Ids(rs), |m.order| + k;
    assert all[p] == rs[k].id;
    assert forall i :: 0 <= i < |m.order| ==> m.order[i] in m.order && all[i] == m.order[i];
    FreshOrder(m, rs);
    InLast(all, p, 500);
    RecordAllBounded(m, rs);
    FreshValue(m, rs, k);
  }

  lemma {:induction false} FreshValue(m: Attempts, rs: seq<Tracked>, k: nat)
    requires Bounded(m) && Fresh(m, rs) && k < |rs|
    ensures rs[k].id in RecordAll(m, rs).at ==> RecordAll(m, rs).at[rs[k].id] == rs[k].attempt
  {
    var n := |rs| - 1;
    RecordAllBounded(m, rs[..n]);
    RecordedBounded(RecordAll(m, rs[..n]), rs[n]);
    if k < n {
      FreshValue(m, rs[..n], k);
    }
  }

  // ---------------------------------------------------------------------------------------------
  // Reading and forgetting
  // ---------------------------------------------------------------------------------------------

  const NO_ATTEMPT := Attempt(false, false, false)

  /** What a call reads for one of its ids; an untracked id reads as undelivered and unreachable. */
  function ReadAt(m: Attempts, id: Id): Attempt {
    if id in m.at then m.at[id] else NO_ATTEMPT
  }

  function ReadEach(m: Attempts, ids: seq<Id>): seq<Attempt> {
    seq(|ids|, i requires 0 <= i < |ids| => ReadAt(m, ids[i]))
  }

  /** The map without the first `n` ids. */
  function Forget(m: Attempts, ids: seq<Id>, n: nat): Attempts
    requires n <= |ids|
  {
    if n == 0 then m else Drop(Forget(m, ids, n - 1), ids[n - 1])
  }

  /** Reading one id after another, forgetting each, reads what the map held at first and forgets just the ids. */
  lemma {:induction false} ForgetKeeps(m: Attempts, ids: seq<Id>, n: nat)
    requires Bounded(m) && n <= |ids|
    ensures Bounded(Forget(m, ids, n))
    ensures forall id :: id in Forget(m, ids, n).at <==> id in m.at && id !in ids[..n]
    ensures forall id :: id in Forget(m, ids, n).at ==> Forget(m, ids, n).at[id] == m.at[id]
  {
    if n > 0 {
      ForgetKeeps(m, ids, n - 1);
      DropKeeps(m, ids, n, Forget(m, ids, n - 1));
    }
  }

  lemma DropKeeps(m: Attempts, ids: seq<Id>, n: nat, x: Attempts)
    requires 0 < n <= |ids| && Bounded(x)
    requires forall id :: id in x.at <==> id in m.at && id !in ids[..n - 1]
    requires forall id :: id in x.at ==> x.at[id] == m.at[id]
    ensures Bounded(Drop(x, ids[n - 1]))
    ensures forall id :: id in Drop(x, ids[n - 1]).at <==> id in m.at && id !in ids[..n]
    ensures forall id :: id in Drop(x, ids[n - 1]).at ==> Drop(x, ids[n - 1]).at[id] == m.at[id]
  {
    assert ids[..n] == ids[..n - 1] + [ids[n - 1]];
  }

  /** What is left of the map, and the results, once the first `n` ids have been read. */
  ghost predicate ReadSoFar(m: Attempts, ids: seq<Id>, n: nat, x: Attempts, results: seq<Attempt>)
    requires n <= |ids|
  {
    x == Forget(m, ids, n) && results == ReadEach(m, ids[..n])
  }

  lemma ReadNext(m: Attempts, ids: seq<Id>, n: nat, x: Attempts, results: seq<Attempt>)
    requires Bounded(m) && NoDup(ids) && n < |ids| && ReadSoFar(m, ids, n, x, results)
    ensures ReadSoFar(m, ids, n + 1, Drop(x, ids[n]), results + [ReadAt(x, ids[n])])
  {
    ForgetKeeps(m, ids, n);
    assert ids[n] !in ids[..n];
    assert ReadEach(m, ids[..n + 1]) == ReadEach(m, ids[..n]) + [ReadAt(m, ids[n])];
  }

  lemma ReadDone(m: Attempts, ids: seq<Id>, x: Attempts, results: seq<Attempt>)
    requires Bounded(m) && ReadSoFar(m, ids, |ids|, x, results)
    ensures Bounded(x) && results == ReadEach(m, ids)
    ensures forall id :: id in x.at <==> id in m.at && id !in ids
  {
    ForgetKeeps(m, ids, |ids|);
    assert ids[..|ids|] == ids;
  }

  /** How many results say delivered. */
  function Delivered(results: seq<Attempt>): nat {
    if results == [] then 0 else Delivered(results[..|results| - 1]) + if results[|results| - 1].httpOk then 1 else 0
  }

  /** How many results say reachable. */
  function Reached(results: seq<Attempt>): nat {
    if results == [] then 0
    else Reached(results[..|results| - 1]) + if results[|results| - 1].transportOk then 1 else 0
  }

  /** The positions of the results that say delivered. */
  ghost function DeliveredAt(results: seq<Attempt>): set<nat> {
    set i: nat | i < |results| && results[i].httpOk
  }

  lemma DeliveredNext(results: seq<Attempt>)
    requires results != []
    ensures var n := |results| - 1;
            DeliveredAt(results) == DeliveredAt(results[..n]) + if results[n].httpOk then {n} else {}
  {
    var n := |results| - 1;
    forall i: nat
      ensures i in DeliveredAt(results) <==> i in DeliveredAt(results[..n]) || (i == n && results[n].httpOk)
    {
    }
  }

  /** The count is the number of results that say delivered. */
  lemma {:induction false} DeliveredCounts(results: seq<Attempt>)
    ensures Delivered(results) == |DeliveredAt(results)|
  {
    if results != [] {
      DeliveredCounts(results[..|results| - 1]);
      DeliveredNext(results);
    }
  }

  /** The counts are positive exactly if some result says delivered, or reachable. */
  lemma {:induction false} SomeResult(results: seq<Attempt>)
    ensures Delivered(results) > 0 <==> exists i :: 0 <= i < |results| && results[i].httpOk
    ensures Reached(results) > 0 <==> exists i :: 0 <= i < |results| && results[i].transportOk
  {
    if results != [] {
      var n := |results| - 1;
      SomeResult(results[..n]);
      if i :| 0 <= i < n && results[i].httpOk {
        assert results[..n][i].httpOk;
      }
      if i :| 0 <= i < n && results[i].transportOk {
        assert results[..n][i].transportOk;
      }
    }
  }
}
