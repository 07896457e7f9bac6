/** `Array.prototype.sort` with a comparator. Since ES2019 the sort is required to be
    stable, and every stable sort yields the same array, so a stable insertion sort
    stands for it. `le(a, b)` holds when `a` may stay in front of `b`, that is when the
    comparator does not return a positive number for `(a, b)`. */
module Sorting {
  import opened Seqs

  ghost predicate TotalPreorder<T(!new)>(le: (T, T) -> bool) {
    && (forall x, y :: le(x, y) || le(y, x))
    && (forall x, y, z :: le(x, y) && le(y, z) ==> le(x, z))
  }

  predicate Sorted<T>(s: seq<T>, le: (T, T) -> bool) {
    forall i, j :: 0 <= i < j < |s| ==> le(s[i], s[j])
  }

  /** No two elements of `s` share the same `key`. */
  predicate DistinctBy<T, K(==)>(s: seq<T>, key: T -> K) {
    forall i, j :: 0 <= i < j < |s| ==> key(s[i]) != key(s[j])
  }

  /** Inserts `x` behind every element that may stay in front of it. */
  function Insert<T(==)>(t: seq<T>, x: T, le: (T, T) -> bool): (r: seq<T>)
    ensures multiset(r) == multiset(t) + multiset{x}
    ensures |r| == |t| + 1
  {
    if t == [] then [x]
    else if le(t[0], x) then
      assert t == [t[0]] + t[1..];
      [t[0]] + Insert(t[1..], x, le)
    else [x] + t
  }

  function Sort<T(==)>(s: seq<T>, le: (T, T) -> bool): (r: seq<T>)
    ensures multiset(r) == multiset(s)
    ensures |r| == |s|
  {
    if s == [] then []
    else
      var init, last := s[..|s| - 1], s[|s| - 1];
      assert s == init + [last];
      assert multiset(s) == multiset(init) + multiset{last};
      Insert(Sort(init, le), last, le)
  }

  lemma {:induction false} InsertSorted<T(!new)>(t: seq<T>, x: T, le: (T, T) -> bool)
    requires TotalPreorder(le)
    requires Sorted(t, le)
    ensures Sorted(Insert(t, x, le), le)
  {
    if t != [] {
      if le(t[0], x) {
        InsertSorted(t[1..], x, le);
        var rest := Insert(t[1..], x, le);
        forall j | 0 <= j < |rest| ensures le(t[0], rest[j]) {
          assert rest[j] in multiset(rest);
          assert rest[j] in t[1..] || rest[j] == x;
        }
      } else {
        assert le(x, t[0]);
      }
    }
  }

  /** The sort returns a permutation of its input in the order `le`. */
  lemma {:induction false} SortSorted<T(!new)>(s: seq<T>, le: (T, T) -> bool)
    requires TotalPreorder(le)
    ensures Sorted(Sort(s, le), le)
  {
    if s != [] {
      SortSorted(s[..|s| - 1], le);
      InsertSorted(Sort(s[..|s| - 1], le), s[|s| - 1], le);
    }
  }

  /** When `x` goes in front of a sorted `t` and belongs to the class `p`, no element of `t` does. */
  lemma ClassEmptyBehind<T(!new)>(t: seq<T>, x: T, le: (T, T) -> bool, p: T -> bool)
    requires TotalPreorder(le)
    requires Sorted(t, le)
    requires t != [] && !le(t[0], x)
    requires forall a, b :: p(a) && p(b) ==> le(a, b)
    requires p(x)
    ensures Filter(t, p) == []
  {
    forall y | y in t ensures !p(y) {
      var j :| 0 <= j < |t| && t[j] == y;
      assert le(t[0], y);
    }
    assert multiset(Filter(t, p)) == multiset{};
  }

  lemma {:induction false} InsertStable<T(!new)>(t: seq<T>, x: T, le: (T, T) -> bool, p: T -> bool)
    requires TotalPreorder(le)
    requires Sorted(t, le)
    requires forall a, b :: p(a) && p(b) ==> le(a, b)
    ensures Filter(Insert(t, x, le), p) == Filter(t, p) + Filter([x], p)
    decreases |t|, 1
  {
    if t == [] {
    } else if le(t[0], x) {
      InsertStableBehindHead(t, x, le, p);
    } else {
      assert Insert(t, x, le) == [x] + t;
      FilterAppend([x], t, p);
      if p(x) {
        ClassEmptyBehind(t, x, le, p);
      }
    }
  }

  lemma {:induction false} InsertStableBehindHead<T(!new)>(t: seq<T>, x: T, le: (T, T) -> bool, p: T -> bool)
    requires TotalPreorder(le)
    requires Sorted(t, le)
    requires forall a, b :: p(a) && p(b) ==> le(a, b)
    requires t != [] && le(t[0], x)
    ensures Filter(Insert(t, x, le), p) == Filter(t, p) + Filter([x], p)
    decreases |t|, 0
  {
    var head, tail := [t[0]], t[1..];
    var inserted := Insert(tail, x, le);
    calc {
      Filter(Insert(t, x, le), p);
      { assert Insert(t, x, le) == head + inserted; FilterAppend(head, inserted, p); }
      Filter(head, p) + Filter(inserted, p);
      { assert Sorted(tail, le); InsertStable(tail, x, le, p); }
      Filter(head, p) + (Filter(tail, p) + Filter([x], p));
      (Filter(head, p) + Filter(tail, p)) + Filter([x], p);
      { assert t == head + tail; FilterAppend(head, tail, p); }
      Filter(t, p) + Filter([x], p);
    }
  }

  /** Stability: elements that `le` cannot tell apart keep their relative order.
      `p` picks out one such class of equivalent elements. */
  lemma {:induction false} SortStable<T(!new)>(s: seq<T>, le: (T, T) -> bool, p: T -> bool)
    requires TotalPreorder(le)
    requires forall a, b :: p(a) && p(b) ==> le(a, b)
    ensures Filter(Sort(s, le), p) == Filter(s, p)
  {
    if s != [] {
      var init, last := s[..|s| - 1], s[|s| - 1];
      var sorted := Sort(init, le);
      calc {
        Filter(Sort(s, le), p);
        { assert Sort(s, le) == Insert(sorted, last, le); SortSorted(init, le); InsertStable(sorted, last, le, p); }
        Filter(sorted, p) + Filter([last], p);
        { SortStable(init, le, p); }
        Filter(init, p) + Filter([last], p);
        { assert s == init + [last]; FilterAppend(init, [last], p); }
        Filter(s, p);
      }
    }
  }

  lemma {:induction false} InsertDistinctBy<T(!new), K>(t: seq<T>, x: T, le: (T, T) -> bool, key: T -> K)
    requires DistinctBy(t, key)
    requires forall y :: y in t ==> key(y) != key(x)
    ensures DistinctBy(Insert(t, x, le), key)
  {
    if t != [] && le(t[0], x) {
      InsertDistinctBy(t[1..], x, le, key);
      var rest := Insert(t[1..], x, le);
      forall j | 0 <= j < |rest| ensures key(t[0]) != key(rest[j]) {
        assert rest[j] in multiset(rest);
        assert rest[j] in t[1..] || rest[j] == x;
      }
    }
  }

  /** Sorting keeps distinct keys distinct. */
  lemma {:induction false} SortDistinctBy<T(!new), K>(s: seq<T>, le: (T, T) -> bool, key: T -> K)
    requires DistinctBy(s, key)
    ensures DistinctBy(Sort(s, le), key)
  {
    if s != [] {
      var init, last := s[..|s| - 1], s[|s| - 1];
      SortDistinctBy(init, le, key);
      forall y | y in Sort(init, le) ensures key(y) != key(last) {
        assert y in multiset(Sort(init, le));
      }
      InsertDistinctBy(Sort(init, le), last, le, key);
    }
  }

  /** The default order of `Array.prototype.sort` on strings: lexicographic, character by character. */
  predicate StringLe(a: string, b: string) {
    a == [] || (b != [] && (a[0] < b[0] || (a[0] == b[0] && StringLe(a[1..], b[1..]))))
  }

  lemma {:induction false} StringLeTotal(a: string, b: string)
    ensures StringLe(a, b) || StringLe(b, a)
  {
    if a != [] && b != [] && a[0] == b[0] {
      StringLeTotal(a[1..], b[1..]);
    }
  }

  lemma {:induction false} StringLeTransitive(a: string, b: string, c: string)
    requires StringLe(a, b) && StringLe(b, c)
    ensures StringLe(a, c)
  {
    if a != [] && b != [] && c != [] && a[0] == b[0] && b[0] == c[0] {
      StringLeTransitive(a[1..], b[1..], c[1..]);
    }
  }

  lemma StringLeTotalPreorder()
    ensures TotalPreorder(StringLe)
  {
    forall a, b ensures StringLe(a, b) || StringLe(b, a) {
      StringLeTotal(a, b);
    }
    forall a, b, c | StringLe(a, b) && StringLe(b, c) ensures StringLe(a, c) {
      StringLeTransitive(a, b, c);
    }
  }
}
