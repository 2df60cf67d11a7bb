/** Types shared by every component: optional values, and JavaScript's insertion-ordered `Map` as a value. */
module Common {

  datatype Option<+T> = None | Some(value: T)

  /** No element occurs twice. */
  ghost predicate NoDup<T>(s: seq<T>) {
    forall i, j :: 0 <= i < j < |s| ==> s[i] != s[j]
  }

  /** `s` without the element `k`, order kept. */
  function Without<T(==)>(s: seq<T>, k: T): (r: seq<T>)
    ensures forall x :: x in s && x != k ==> x in r
    ensures forall x :: x in r ==> x in s && x != k
    ensures NoDup(s) ==> NoDup(r)
    ensures |r| <= |s|
  {
    if s == [] then []
    else if s[0] == k then
      Without(s[1..], k)
    else
      var rest := Without(s[1..], k);
      assert forall j :: 0 <= j < |rest| ==> rest[j] in s[1..];
      assert NoDup(s) ==> s[0] !in s[1..];
      [s[0]] + rest
  }

  /**
   * A `Map`: `at` holds the associations, `order` the keys in the order they were first inserted.
   * Setting a present key keeps its place; deleting and setting again moves it to the end.
   */
  datatype JsMap<K, V> = JsMap(order: seq<K>, at: map<K, V>) {

    ghost predicate Valid() {
      && NoDup(order)
      && (forall k :: k in order ==> k in at)
      && (forall k :: k in at ==> k in order)
    }
  }

  function Empty<K, V>(): (r: JsMap<K, V>)
    ensures r.Valid()
  {
    JsMap([], map[])
  }

  function Put<K, V>(m: JsMap<K, V>, k: K, v: V): (r: JsMap<K, V>)
    ensures r.at == m.at[k := v]
    ensures m.Valid() ==> r.Valid()
  {
    JsMap(if k in m.at then m.order else m.order + [k], m.at[k := v])
  }

  function Drop<K, V>(m: JsMap<K, V>, k: K): (r: JsMap<K, V>)
    ensures r.at == m.at - {k}
    ensures m.Valid() ==> r.Valid()
  {
    JsMap(Without(m.order, k), m.at - {k})
  }

  /** The values in iteration order. */
  function Values<K, V>(m: JsMap<K, V>): (r: seq<V>)
    requires m.Valid()
    ensures |r| == |m.order|
    ensures forall i :: 0 <= i < |r| ==> m.order[i] in m.at && r[i] == m.at[m.order[i]]
  {
    assert forall k :: k in m.order ==> k in m.at;
    seq(|m.order|, i requires 0 <= i < |m.order| => m.at[m.order[i]])
  }

  function Pow2(n: nat): (p: nat)
    ensures p >= 1
  {
    if n == 0 then 1 else 2 * Pow2(n - 1)
  }
}
