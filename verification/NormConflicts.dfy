/** Deontic conflicts among norms: the grouped check finds exactly what comparing every pair would find. */
module NormConflicts {
  import opened Common

  datatype Deontic = Obligation | Permission | Prohibition

  /** A norm with its canonical match-keys. */
  datatype Norm = Norm(id: string, role: string, action: string, condition: string, deontic: Deontic)

  datatype Key = Key(role: string, action: string, condition: string)

  datatype Clash = ObligationVsProhibition | PermissionVsProhibition

  /** Two norms by their positions in the input. */
  datatype Conflict = Conflict(a: nat, b: nat, clash: Clash)

  datatype Warning = Warning(a: nat, b: nat)

  function GroupKey(n: Norm): Key {
    Key(n.role, n.action, n.condition)
  }

  function ClashType(d1: Deontic, d2: Deontic): Option<Clash> {
    if Prohibition in {d1, d2} && Obligation in {d1, d2} then Some(ObligationVsProhibition)
    else if Prohibition in {d1, d2} && Permission in {d1, d2} then Some(PermissionVsProhibition)
    else None
  }

  // ---------------------------------------------------------------------------------------------
  // The naive check: every pair
  // ---------------------------------------------------------------------------------------------

  /** Positions `a` before `b` with the same role, action and condition. */
  ghost predicate SameKey(norms: seq<Norm>, a: nat, b: nat) {
    && a < b < |norms|
    && norms[a].role == norms[b].role
    && norms[a].action == norms[b].action
    && norms[a].condition == norms[b].condition
  }

  /** A prohibition against an obligation or a permission. */
  ghost predicate Conflicting(norms: seq<Norm>, c: Conflict) {
    SameKey(norms, c.a, c.b) &&
    var d, e := norms[c.a].deontic, norms[c.b].deontic;
    match c.clash
    case ObligationVsProhibition => (d.Prohibition? && e.Obligation?) || (d.Obligation? && e.Prohibition?)
    case PermissionVsProhibition => (d.Prohibition? && e.Permission?) || (d.Permission? && e.Prohibition?)
  }

  ghost predicate Redundant(norms: seq<Norm>, w: Warning) {
    SameKey(norms, w.a, w.b) && norms[w.a].deontic.Obligation? && norms[w.b].deontic.Obligation?
  }

  lemma ClashTypeRight(norms: seq<Norm>, a: nat, b: nat)
    requires SameKey(norms, a, b)
    ensures var t := ClashType(norms[a].deontic, norms[b].deontic);
            && (t.Some? ==> Conflicting(norms, Conflict(a, b, t.value)))
            && (forall c: Clash :: Conflicting(norms, Conflict(a, b, c)) ==> t == Some(c))
            && (t.Some? ==> !Redundant(norms, Warning(a, b)))
  {
  }

  // ---------------------------------------------------------------------------------------------
  // Progress: what has been found among the pairs examined so far
  // ---------------------------------------------------------------------------------------------

  /** The findings are exactly those of the examined pairs, each once. */
  ghost predicate Found(norms: seq<Norm>, seen: set<(nat, nat)>, conflicts: seq<Conflict>, warnings: seq<Warning>) {
    && NoDup(conflicts) && NoDup(warnings)
    && (forall c :: c in conflicts <==> Conflicting(norms, c) && (c.a, c.b) in seen)
    && (forall w :: w in warnings <==> Redundant(norms, w) && (w.a, w.b) in seen)
  }

  lemma NoDupAppend<T>(s: seq<T>, x: T)
    requires NoDup(s) && x !in s
    ensures NoDup(s + [x])
  {
  }

  /** Examining one more pair of equal keys. */
  method Examine(norms: seq<Norm>, a: nat, b: nat, conflicts: seq<Conflict>, warnings: seq<Warning>,
                 ghost seen: set<(nat, nat)>)
    returns (conflicts': seq<Conflict>, warnings': seq<Warning>)
    requires SameKey(norms, a, b) && (a, b) !in seen && Found(norms, seen, conflicts, warnings)
    ensures Found(norms, seen + {(a, b)}, conflicts', warnings')
  {
    conflicts', warnings' := conflicts, warnings;
    ClashTypeRight(norms, a, b);
    var clash := ClashType(norms[a].deontic, norms[b].deontic);
    if clash.Some? {
      NoDupAppend(conflicts, Conflict(a, b, clash.value));
      conflicts' := conflicts + [Conflict(a, b, clash.value)];
    } else if norms[a].deontic.Obligation? && norms[b].deontic.Obligation? {
      NoDupAppend(warnings, Warning(a, b));
      warnings' := warnings + [Warning(a, b)];
    }
  }

  // ---------------------------------------------------------------------------------------------
  // The code
  // ---------------------------------------------------------------------------------------------

  /** The norm has the role, the action and the condition of the key. */
  ghost predicate Matches(n: Norm, key: Key) {
    n.role == key.role && n.action == key.action && n.condition == key.condition
  }

  /** The bucket holds the positions below `n` of the norms with that key, in order. */
  ghost predicate BucketRight(norms: seq<Norm>, n: nat, key: Key, bucket: seq<nat>) {
    && (forall x, y :: 0 <= x < y < |bucket| ==> bucket[x] < bucket[y])
    && (forall i: nat :: i in bucket <==> i < n && i < |norms| && Matches(norms[i], key))
  }

  ghost predicate Grouped(norms: seq<Norm>, n: nat, groups: JsMap<Key, seq<nat>>) {
    && groups.Valid()
    && (forall k :: k in groups.at ==> BucketRight(norms, n, k, groups.at[k]))
    && (forall i: nat :: i < n && i < |norms| ==> GroupKey(norms[i]) in groups.at)
  }

  lemma BucketAppend(norms: seq<Norm>, n: nat, key: Key, bucket: seq<nat>)
    requires n < |norms| && BucketRight(norms, n, key, bucket)
    ensures GroupKey(norms[n]) == key ==> BucketRight(norms, n + 1, key, bucket + [n])
    ensures GroupKey(norms[n]) != key ==> BucketRight(norms, n + 1, key, bucket)
  {
    assert forall x :: 0 <= x < |bucket| ==> bucket[x] in bucket;
  }

  /** The groups once position `n` is put into its bucket. */
  function Grown(groups: JsMap<Key, seq<nat>>, key: Key, n: nat): JsMap<Key, seq<nat>> {
    Put(groups, key, if key in groups.at then groups.at[key] + [n] else [n])
  }

  lemma GrownBucket(norms: seq<Norm>, n: nat, groups: JsMap<Key, seq<nat>>, k: Key)
    requires n < |norms| && Grouped(norms, n, groups)
    requires k in groups.at || k == GroupKey(norms[n])
    ensures BucketRight(norms, n + 1, k, Grown(groups, GroupKey(norms[n]), n).at[k])
  {
    var bucket := if k in groups.at then groups.at[k] else [];
    assert BucketRight(norms, n, k, bucket);
    BucketAppend(norms, n, k, bucket);
    assert [] + [n] == [n];
  }

  lemma GroupNext(norms: seq<Norm>, n: nat, groups: JsMap<Key, seq<nat>>)
    requires n < |norms| && Grouped(norms, n, groups)
    ensures Grouped(norms, n + 1, Grown(groups, GroupKey(norms[n]), n))
  {
    var next := Grown(groups, GroupKey(norms[n]), n);
    forall k | k in next.at
      ensures BucketRight(norms, n + 1, k, next.at[k])
    {
      GrownBucket(norms, n, groups, k);
    }
  }

  method AddTo(groups: JsMap<Key, seq<nat>>, key: Key, n: nat) returns (grown: JsMap<Key, seq<nat>>)
    ensures grown == Grown(groups, key, n)
  {
    if key in groups.at {
      grown := Put(groups, key, groups.at[key] + [n]);
    } else {
      grown := Put(groups, key, [n]);
    }
  }

  method Group(norms: seq<Norm>) returns (groups: JsMap<Key, seq<nat>>)
    ensures Grouped(norms, |norms|, groups)
  {
    groups := Empty();
    for i := 0 to |norms|
      invariant Grouped(norms, i, groups)
    {
      GroupNext(norms, i, groups);
      groups := AddTo(groups, GroupKey(norms[i]), i);
    }
  }

  /** All examined pairs have equal keys, and the pairs of the keys in `done` have all been examined. */
  ghost predicate Covered(norms: seq<Norm>, done: seq<Key>, seen: set<(nat, nat)>) {
    && (forall p :: p in seen ==> SameKey(norms, p.0, p.1) && GroupKey(norms[p.0]) in done)
    && (forall a: nat, b: nat :: SameKey(norms, a, b) && GroupKey(norms[a]) in done ==> (a, b) in seen)
  }

  /** Within a bucket: exactly the pairs whose first position is before `i`, or is `i` with the second before `j`. */
  ghost predicate InBucket(bucket: seq<nat>, i: int, j: int, p: (nat, nat)) {
    exists x, y :: 0 <= x < y < |bucket| && (x < i || (x == i && y < j)) && p == (bucket[x], bucket[y])
  }

  lemma PairFresh(norms: seq<Norm>, key: Key, bucket: seq<nat>, done: seq<Key>, seen0: set<(nat, nat)>, i: nat, j: nat)
    requires BucketRight(norms, |norms|, key, bucket) && key !in done && Covered(norms, done, seen0) && i < j < |bucket|
    ensures SameKey(norms, bucket[i], bucket[j])
    ensures (bucket[i], bucket[j]) !in seen0 && !InBucket(bucket, i, j, (bucket[i], bucket[j]))
  {
    assert bucket[i] in bucket && bucket[j] in bucket;
  }

  lemma PairNext(bucket: seq<nat>, i: nat, j: nat)
    requires i < j < |bucket|
    ensures forall p :: InBucket(bucket, i, j + 1, p) <==> InBucket(bucket, i, j, p) || p == (bucket[i], bucket[j])
  {
  }

  lemma RowNext(bucket: seq<nat>, i: nat)
    requires i < |bucket|
    ensures forall p :: InBucket(bucket, i + 1, 0, p) <==> InBucket(bucket, i, |bucket|, p)
    ensures forall p :: InBucket(bucket, i, i + 1, p) <==> InBucket(bucket, i, 0, p)
  {
  }

  /** The pairs of a bucket are the pairs of its key. */
  lemma BucketPair(norms: seq<Norm>, key: Key, bucket: seq<nat>, a: nat, b: nat)
    requires BucketRight(norms, |norms|, key, bucket)
    ensures SameKey(norms, a, b) && GroupKey(norms[a]) == key <==> InBucket(bucket, |bucket|, 0, (a, b))
  {
    if SameKey(norms, a, b) && GroupKey(norms[a]) == key {
      assert a in bucket && b in bucket;
      var x :| 0 <= x < |bucket| && bucket[x] == a;
      var y :| 0 <= y < |bucket| && bucket[y] == b;
      assert x < y;
    }
    if InBucket(bucket, |bucket|, 0, (a, b)) {
      var x, y :| 0 <= x < y < |bucket| && (a, b) == (bucket[x], bucket[y]);
      assert bucket[x] in bucket && bucket[y] in bucket;
    }
  }

  lemma BucketCovers(norms: seq<Norm>, key: Key, bucket: seq<nat>, done: seq<Key>, seen0: set<(nat, nat)>,
                     seen: set<(nat, nat)>)
    requires BucketRight(norms, |norms|, key, bucket) && Covered(norms, done, seen0)
    requires forall p :: p in seen <==> p in seen0 || InBucket(bucket, |bucket|, 0, p)
    ensures Covered(norms, done + [key], seen)
  {
    forall p | p in seen
      ensures SameKey(norms, p.0, p.1) && GroupKey(norms[p.0]) in done + [key]
    {
      BucketPair(norms, key, bucket, p.0, p.1);
    }
    forall a: nat, b: nat | SameKey(norms, a, b) && GroupKey(norms[a]) in done + [key]
      ensures (a, b) in seen
    {
      BucketPair(norms, key, bucket, a, b);
    }
  }

  /** Compare every pair of one bucket. */
  method CheckBucket(norms: seq<Norm>, key: Key, bucket: seq<nat>, conflicts0: seq<Conflict>, warnings0: seq<Warning>,
                     ghost done: seq<Key>, ghost seen0: set<(nat, nat)>)
    returns (conflicts: seq<Conflict>, warnings: seq<Warning>, ghost seen: set<(nat, nat)>)
    requires BucketRight(norms, |norms|, key, bucket) && key !in done
    requires Covered(norms, done, seen0) && Found(norms, seen0, conflicts0, warnings0)
    ensures Covered(norms, done + [key], seen) && Found(norms, seen, conflicts, warnings)
  {
    conflicts, warnings, seen := conflicts0, warnings0, seen0;
    for i := 0 to |bucket|
      invariant Found(norms, seen, conflicts, warnings)
      invariant forall p :: p in seen <==> p in seen0 || InBucket(bucket, i, 0, p)
    {
      for j := i + 1 to |bucket|
        invariant Found(norms, seen, conflicts, warnings)
        invariant forall p :: p in seen <==> p in seen0 || InBucket(bucket, i, j, p)
      {
        var a, b := bucket[i], bucket[j];
        PairFresh(norms, key, bucket, done, seen0, i, j);
        PairNext(bucket, i, j);
        conflicts, warnings := Examine(norms, a, b, conflicts, warnings, seen);
        seen := seen + {(a, b)};
      }
      RowNext(bucket, i);
    }
    BucketCovers(norms, key, bucket, done, seen0, seen);
  }

  /**
   * Group the norms by key and compare within each group. The conflicts are exactly the clashing pairs of
   * equal keys and the warnings exactly the pairs of equal obligations, each reported once.
   */
  method DetectNormConflicts(norms: seq<Norm>) returns (conflicts: seq<Conflict>, warnings: seq<Warning>)
    ensures forall c :: c in conflicts <==> Conflicting(norms, c)
    ensures forall w :: w in warnings <==> Redundant(norms, w)
    ensures NoDup(conflicts) && NoDup(warnings)
  {
    var groups := Group(norms);
    var keys := groups.order;
    conflicts, warnings := [], [];
    ghost var seen: set<(nat, nat)> := {};
    for g := 0 to |keys|
      invariant Covered(norms, keys[..g], seen) && Found(norms, seen, conflicts, warnings)
    {
      assert keys[g] in keys;
      assert keys[..g + 1] == keys[..g] + [keys[g]];
      conflicts, warnings, seen := CheckBucket(norms, keys[g], groups.at[keys[g]], conflicts, warnings, keys[..g],
                                               seen);
    }
    assert keys[..|keys|] == keys;
    forall a: nat, b: nat | SameKey(norms, a, b)
      ensures (a, b) in seen
    {
      assert GroupKey(norms[a]) in keys;
    }
  }
}
