/** JavaScript's `Map`, which remembers the order in which keys were first inserted:
    an entry sequence with distinct keys. `Set` on a present key replaces the value
    where it stands; on a new key it appends. Iteration (`for ... of`, `values()`)
    follows the entry order. */
module JsMap {
  import opened Wrappers

  type Entries<K, V> = seq<(K, V)>

  predicate DistinctKeys<K(==), V>(m: Entries<K, V>) {
    forall i, j :: 0 <= i < j < |m| ==> m[i].0 != m[j].0
  }

  /** `m.values()` in iteration order. */
  function Values<K, V>(m: Entries<K, V>): (vs: seq<V>)
    ensures |vs| == |m|
    ensures forall i :: 0 <= i < |m| ==> vs[i] == m[i].1
  {
    seq(|m|, i requires 0 <= i < |m| => m[i].1)
  }

  /** `m.get(k)`. */
  function Get<K(==), V>(m: Entries<K, V>, k: K): (r: Option<V>)
    ensures r.None? <==> forall i :: 0 <= i < |m| ==> m[i].0 != k
    ensures r.Some? ==> (k, r.value) in m
  {
    if m == [] then None
    else if m[0].0 == k then Some(m[0].1)
    else Get(m[1..], k)
  }

  /** The position of the first entry with key `k`, the one `get` answers from. */
  function IndexOf<K(==), V>(m: Entries<K, V>, k: K): (r: Option<nat>)
    ensures r.None? <==> Get(m, k).None?
    ensures r.Some? ==> r.value < |m| && m[r.value].0 == k && Get(m, k) == Some(m[r.value].1)
    ensures r.Some? ==> forall j :: 0 <= j < r.value ==> m[j].0 != k
  {
    if m == [] then None
    else if m[0].0 == k then Some(0)
    else
      var rest := IndexOf(m[1..], k);
      if rest.None? then None else Some(rest.value + 1)
  }

  /** `get` answers from the first entry carrying the key. */
  lemma {:induction false} GetAt<K, V>(m: Entries<K, V>, k: K, i: nat)
    requires i < |m| && m[i].0 == k
    requires forall j :: 0 <= j < i ==> m[j].0 != k
    ensures Get(m, k) == Some(m[i].1)
  {
    if i > 0 {
      assert m[0].0 != k;
      forall j | 0 <= j < i - 1 ensures m[1..][j].0 != k {
        assert m[1..][j] == m[j + 1];
      }
      GetAt(m[1..], k, i - 1);
    }
  }

  /** `m.set(k, v)`. */
  function Set<K(==), V>(m: Entries<K, V>, k: K, v: V): (r: Entries<K, V>)
    ensures Get(r, k) == Some(v)
    ensures forall e :: e in r ==> e in m || e == (k, v)
    ensures |r| == if Get(m, k).None? then |m| + 1 else |m|
    ensures Get(m, k).None? ==> r == m + [(k, v)]
    ensures forall i :: 0 <= i < |m| && m[i].0 != k ==> r[i] == m[i]
    ensures forall i :: 0 <= i < |m| ==> r[i].0 == m[i].0
  {
    var i := IndexOf(m, k);
    if i.None? then
      var r := m + [(k, v)];
      GetAt(r, k, |m|);
      r
    else
      var r := m[i.value := (k, v)];
      GetAt(r, k, i.value);
      r
  }

  lemma SetOther<K, V>(m: Entries<K, V>, k: K, v: V, k': K)
    requires k' != k
    ensures Get(Set(m, k, v), k') == Get(m, k')
  {
    var r := Set(m, k, v);
    var i := IndexOf(m, k');
    if i.Some? {
      GetAt(r, k', i.value);
    } else {
      forall j | 0 <= j < |r| ensures r[j].0 != k' {
        if j < |m| { assert r[j].0 == m[j].0; }
      }
    }
  }

  /** `set` keeps the keys distinct. */
  lemma SetDistinct<K, V>(m: Entries<K, V>, k: K, v: V)
    requires DistinctKeys(m)
    ensures DistinctKeys(Set(m, k, v))
  {
    var r := Set(m, k, v);
    if Get(m, k).None? {
      forall i, j | 0 <= i < j < |r| ensures r[i].0 != r[j].0 {
        if j == |m| { assert r[i].0 == m[i].0; }
      }
    }
  }

  /** The value of the last pair with key `k`, if any. */
  function LastValue<K(==), V>(s: seq<(K, V)>, k: K): Option<V> {
    if s == [] then None
    else if s[|s| - 1].0 == k then Some(s[|s| - 1].1)
    else LastValue(s[..|s| - 1], k)
  }

  /** `new Map(pairs)`: the pairs set one after the other. */
  function FromEntries<K(==), V>(s: seq<(K, V)>): (m: Entries<K, V>)
    ensures DistinctKeys(m)
    ensures forall e :: e in m ==> e in s
  {
    if s == [] then []
    else
      var m := FromEntries(s[..|s| - 1]);
      SetDistinct(m, s[|s| - 1].0, s[|s| - 1].1);
      Set(m, s[|s| - 1].0, s[|s| - 1].1)
  }

  /** A map built from pairs answers each key with the last pair carrying it. */
  lemma {:induction false} FromEntriesGet<K, V>(s: seq<(K, V)>, k: K)
    ensures Get(FromEntries(s), k) == LastValue(s, k)
  {
    if s != [] {
      var init, last := s[..|s| - 1], s[|s| - 1];
      FromEntriesGet(init, k);
      if last.0 != k {
        SetOther(FromEntries(init), last.0, last.1, k);
      }
    }
  }

  /** A key carried by exactly one pair is answered with that pair's value. */
  lemma {:induction false} LastValueUnique<K, V>(s: seq<(K, V)>, i: nat)
    requires i < |s|
    requires forall j :: 0 <= j < |s| && j != i ==> s[j].0 != s[i].0
    ensures LastValue(s, s[i].0) == Some(s[i].1)
  {
    if i != |s| - 1 {
      var init := s[..|s| - 1];
      assert init[i] == s[i];
      LastValueUnique(init, i);
    }
  }

  /** `LastValue` finds a value exactly for the keys some pair carries, and the value it
      finds is that of a pair behind which no pair carries the key. */
  lemma {:induction false} LastValueSpec<K, V>(s: seq<(K, V)>, k: K)
    ensures LastValue(s, k).Some? <==> exists i :: 0 <= i < |s| && s[i].0 == k
    ensures LastValue(s, k).Some? ==>
      exists i :: 0 <= i < |s| && s[i] == (k, LastValue(s, k).value) &&
        forall j :: i < j < |s| ==> s[j].0 != k
  {
    if s != [] {
      var init, last := s[..|s| - 1], s[|s| - 1];
      if last.0 != k {
        LastValueSpec(init, k);
        if LastValue(s, k).Some? {
          var i :| 0 <= i < |init| && init[i] == (k, LastValue(s, k).value) &&
            forall j :: i < j < |init| ==> init[j].0 != k;
          assert s[i] == init[i];
        } else {
          forall i | 0 <= i < |s| ensures s[i].0 != k {
            if i < |init| { assert s[i] == init[i]; }
          }
        }
      }
    }
  }

  /** In a map with distinct keys, a pair it holds is what `get` answers for its key. */
  lemma {:induction false} GetDistinct<K, V>(m: Entries<K, V>, k: K, v: V)
    requires DistinctKeys(m)
    requires (k, v) in m
    ensures Get(m, k) == Some(v)
  {
    if m[0] != (k, v) {
      assert m[0].0 != k by {
        var i :| 0 <= i < |m| && m[i] == (k, v);
      }
      GetDistinct(m[1..], k, v);
    }
  }

  /** `s.add(x)` on a JavaScript `Set`, which also remembers first insertion order. */
  function AddToSet<T(==,!new)>(s: seq<T>, x: T): (r: seq<T>)
    ensures forall y :: y in r <==> y in s || y == x
    ensures (forall i, j :: 0 <= i < j < |s| ==> s[i] != s[j]) ==> forall i, j :: 0 <= i < j < |r| ==> r[i] != r[j]
  {
    if x in s then s else s + [x]
  }
}
