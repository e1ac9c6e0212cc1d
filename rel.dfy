/**
 * Bag-semantics relational algebra over sequences.
 *
 * A table, a derived table or a query result is a sequence of rows. Duplicates
 * are kept, as SQL keeps them, and the clauses of a SELECT become these
 * functions: a join is a nested FlatMap, WHERE is Filter, GROUP BY is the
 * Distinct list of keys with one aggregate per key, sum and count are Sum and
 * Count. Row order inside these functions carries no meaning; only ORDER BY
 * (module Order) gives a result an order.
 */
module Rel {

  datatype Option<+T> = None | Some(value: T)

  /** No value occurs twice. */
  predicate NoDuplicates<T(==,!new)>(s: seq<T>) {
    forall i, j :: 0 <= i < j < |s| ==> s[i] != s[j]
  }

  /** WHERE p: the rows of s that satisfy p. */
  function Filter<T(==,!new)>(s: seq<T>, p: T -> bool): (r: seq<T>)
    ensures |r| <= |s|
  {
    if s == [] then [] else (if p(s[0]) then [s[0]] else []) + Filter(s[1..], p)
  }

  /** SELECT f(row): one output row per input row. */
  function Map<T(==,!new), U(==,!new)>(s: seq<T>, f: T -> U): (r: seq<U>)
    ensures |r| == |s|
  {
    if s == [] then [] else [f(s[0])] + Map(s[1..], f)
  }

  /** Nested-loop join: for each row x of s, the rows g(x) it joins to. */
  function FlatMap<T(==,!new), U(==,!new)>(s: seq<T>, g: T -> seq<U>): seq<U> {
    if s == [] then [] else g(s[0]) + FlatMap(s[1..], g)
  }

  /** sum(f(row)) over all rows; 0 for no rows. */
  function Sum<T>(s: seq<T>, f: T -> real): real {
    if s == [] then 0.0 else f(s[0]) + Sum(s[1..], f)
  }

  /** count(e) over the rows, where p(row) says that e is not NULL. */
  function Count<T(==,!new)>(s: seq<T>, p: T -> bool): nat {
    |Filter(s, p)|
  }

  /** DISTINCT: each value of s once. */
  function Distinct<T(==,!new)>(s: seq<T>): (r: seq<T>)
    ensures forall x :: x in r <==> x in s
    ensures NoDuplicates(r)
  {
    if s == [] then []
    else
      assert forall x :: x in s <==> x == s[0] || x in s[1..];
      if s[0] in s[1..] then Distinct(s[1..]) else [s[0]] + Distinct(s[1..])
  }

  /** The groups of GROUP BY key: each key value that some row has, once. */
  function GroupKeys<T(==,!new), K(==,!new)>(rows: seq<T>, key: T -> K): (ks: seq<K>)
    ensures NoDuplicates(ks)
  {
    Distinct(Map(rows, key))
  }

  /** k copies of s, one after another. */
  function Repeat<T>(s: seq<T>, k: nat): (r: seq<T>)
    ensures |r| == |s| * k
  {
    if k == 0 then [] else s + Repeat(s, k - 1)
  }

  lemma {:induction false} SumAppend<T(!new)>(a: seq<T>, b: seq<T>, f: T -> real)
    ensures Sum(a + b, f) == Sum(a, f) + Sum(b, f)
  {
    if a == [] {
      assert a + b == b;
    } else {
      assert (a + b)[1..] == a[1..] + b;
      SumAppend(a[1..], b, f);
    }
  }

  /** A sum over a join is the sum, per outer row, of the sums over its inner rows. */
  lemma {:induction false} SumFlatMap<T(!new), U(!new)>(s: seq<T>, g: T -> seq<U>, f: U -> real, k: T -> real)
    requires forall x :: x in s ==> k(x) == Sum(g(x), f)
    ensures Sum(FlatMap(s, g), f) == Sum(s, k)
  {
    if s != [] {
      assert s[0] in s;
      assert forall x :: x in s[1..] ==> x in s;
      SumAppend(g(s[0]), FlatMap(s[1..], g), f);
      SumFlatMap(s[1..], g, f, k);
    }
  }

  /** Summing over the rows that pass a filter is summing f where p holds and 0 elsewhere. */
  lemma {:induction false} SumFilter<T(!new)>(s: seq<T>, p: T -> bool, f: T -> real, g: T -> real)
    requires forall x :: x in s ==> g(x) == if p(x) then f(x) else 0.0
    ensures Sum(Filter(s, p), f) == Sum(s, g)
  {
    if s != [] {
      assert s[0] in s;
      assert forall x :: x in s[1..] ==> x in s;
      SumAppend(if p(s[0]) then [s[0]] else [], Filter(s[1..], p), f);
      SumFilter(s[1..], p, f, g);
    }
  }

  /** Summing projected rows is summing the composed function over the input rows. */
  lemma {:induction false} SumMap<T(!new), U(!new)>(s: seq<T>, f: T -> U, g: U -> real, h: T -> real)
    requires forall x :: x in s ==> h(x) == g(f(x))
    ensures Sum(Map(s, f), g) == Sum(s, h)
  {
    if s != [] {
      assert forall x :: x in s[1..] ==> x in s;
      SumMap(s[1..], f, g, h);
    }
  }

  /** Sums of two functions that agree on every row are equal. */
  lemma {:induction false} SumPointwise<T(!new)>(s: seq<T>, f: T -> real, g: T -> real)
    requires forall x :: x in s ==> f(x) == g(x)
    ensures Sum(s, f) == Sum(s, g)
  {
    if s != [] {
      assert s[0] in s;
      assert forall x :: x in s[1..] ==> x in s;
      SumPointwise(s[1..], f, g);
    }
  }

  /** A sum whose terms are all zero is zero. */
  lemma {:induction false} SumZero<T(!new)>(s: seq<T>, f: T -> real)
    requires forall x :: x in s ==> f(x) == 0.0
    ensures Sum(s, f) == 0.0
  {
    if s != [] {
      assert s[0] in s;
      assert forall x :: x in s[1..] ==> x in s;
      SumZero(s[1..], f);
    }
  }

  /** A join whose inner side is at most one row per outer row is a filter followed by a projection. */
  lemma {:induction false} FlatMapOptional<T(!new), U(!new)>(s: seq<T>, g: T -> seq<U>, p: T -> bool, f: T -> U)
    requires forall x :: g(x) == if p(x) then [f(x)] else []
    ensures FlatMap(s, g) == Map(Filter(s, p), f)
  {
    if s != [] {
      FlatMapOptional(s[1..], g, p, f);
      if p(s[0]) {
        assert Filter(s, p) == [s[0]] + Filter(s[1..], p);
        assert Filter(s, p)[1..] == Filter(s[1..], p);
      } else {
        assert Filter(s, p) == Filter(s[1..], p);
      }
    }
  }

  /** Joining with a duplicate-free key list on equality yields the matching key at most once. */
  lemma {:induction false} FlatMapKeyLookup<K(!new), U(!new)>(ks: seq<K>, k: K, g: K -> seq<U>, f: K -> U)
    requires NoDuplicates(ks)
    requires forall j :: g(j) == if j == k then [f(j)] else []
    ensures FlatMap(ks, g) == if k in ks then [f(k)] else []
  {
    if ks != [] {
      assert NoDuplicates(ks[1..]) by {
        forall i, j | 0 <= i < j < |ks[1..]| ensures ks[1..][i] != ks[1..][j] {
          assert ks[1..][i] == ks[i + 1] && ks[1..][j] == ks[j + 1];
        }
      }
      FlatMapKeyLookup(ks[1..], k, g, f);
      if ks[0] == k {
        assert k !in ks[1..];
      }
    }
  }

  /** A duplicate-free sequence has as many elements as its set. */
  lemma {:induction false} NoDuplicatesCard<T(!new)>(s: seq<T>)
    requires NoDuplicates(s)
    ensures |s| == |set x | x in s|
  {
    if s == [] {
      assert (set x | x in s) == {};
    } else {
      var t := s[1..];
      assert NoDuplicates(t) by {
        forall i, j | 0 <= i < j < |t| ensures t[i] != t[j] {
          assert t[i] == s[i + 1] && t[j] == s[j + 1];
        }
      }
      NoDuplicatesCard(t);
      assert s[0] !in t;
      assert (set x | x in s) == {s[0]} + (set x | x in t);
    }
  }

  /** Filtering keeps a sequence free of duplicates. */
  lemma {:induction false} FilterNoDuplicates<T(!new)>(s: seq<T>, p: T -> bool)
    requires NoDuplicates(s)
    ensures NoDuplicates(Filter(s, p))
  {
    if s != [] {
      var t := s[1..];
      assert NoDuplicates(t) by {
        forall i, j | 0 <= i < j < |t| ensures t[i] != t[j] {
          assert t[i] == s[i + 1] && t[j] == s[j + 1];
        }
      }
      FilterNoDuplicates(t, p);
      assert s[0] !in t;
      FilterIn(t, p, s[0]);
    }
  }

  /** count(distinct e) is the number of different values e takes. */
  lemma DistinctCard<T(!new)>(s: seq<T>)
    ensures |Distinct(s)| == |set x | x in s|
  {
    var r := Distinct(s);
    NoDuplicatesCard(r);
    assert (set x | x in r) == (set x | x in s);
  }

  /** A subset is no larger than the set. */
  lemma SubsetCard<T>(a: set<T>, b: set<T>)
    requires a <= b
    ensures |a| <= |b|
  {
    assert b == a + (b - a);
  }

  /** Counting the distinct rows that satisfy p gives the size of the set of such rows. */
  lemma CountDistinct<T(!new)>(s: seq<T>, p: T -> bool, rows: set<T>)
    requires forall x :: x in rows <==> x in s && p(x)
    ensures Count(Distinct(s), p) == |rows|
  {
    var r := Filter(Distinct(s), p);
    FilterNoDuplicates(Distinct(s), p);
    NoDuplicatesCard(r);
    forall x ensures x in r <==> x in rows {
      FilterIn(Distinct(s), p, x);
    }
    assert (set x | x in r) == rows;
  }

  lemma {:induction false} FilterAppend<T(!new)>(a: seq<T>, b: seq<T>, p: T -> bool)
    ensures Filter(a + b, p) == Filter(a, p) + Filter(b, p)
  {
    if a == [] {
      assert a + b == b;
    } else {
      var head := if p(a[0]) then [a[0]] else [];
      assert (a + b)[0] == a[0] && (a + b)[1..] == a[1..] + b;
      FilterAppend(a[1..], b, p);
      calc {
        Filter(a + b, p);
        head + Filter(a[1..] + b, p);
        head + (Filter(a[1..], p) + Filter(b, p));
        (head + Filter(a[1..], p)) + Filter(b, p);
      }
    }
  }

  /** Removing the row at position k removes it from the rows that pass p. */
  lemma FilterRemoveAt<T(!new)>(t: seq<T>, k: nat, p: T -> bool)
    requires k < |t|
    ensures |Filter(t, p)| == |Filter(t[..k] + t[k + 1..], p)| + (if p(t[k]) then 1 else 0)
  {
    assert t == t[..k] + [t[k]] + t[k + 1..];
    FilterAppend(t[..k] + [t[k]], t[k + 1..], p);
    FilterAppend(t[..k], [t[k]], p);
    FilterAppend(t[..k], t[k + 1..], p);
  }

  lemma RemoveAtMultiset<T>(s: seq<T>, t: seq<T>, k: nat)
    requires s != [] && k < |t| && t[k] == s[0] && multiset(s) == multiset(t)
    ensures multiset(s[1..]) == multiset(t[..k] + t[k + 1..])
  {
    assert t == t[..k] + [t[k]] + t[k + 1..];
    assert s == [s[0]] + s[1..];
    calc {
      multiset(s[1..]);
      multiset(s) - multiset{s[0]};
      multiset(t) - multiset{t[k]};
      multiset(t[..k]) + multiset(t[k + 1..]);
    }
  }

  /** How many rows satisfy p does not depend on the order of the rows. */
  lemma {:induction false} FilterCountPermutation<T(!new)>(s: seq<T>, t: seq<T>, p: T -> bool)
    requires multiset(s) == multiset(t)
    ensures |Filter(s, p)| == |Filter(t, p)|
  {
    if s != [] {
      assert s[0] in multiset(t);
      var k :| 0 <= k < |t| && t[k] == s[0];
      RemoveAtMultiset(s, t, k);
      FilterCountPermutation(s[1..], t[..k] + t[k + 1..], p);
      FilterRemoveAt(t, k, p);
    }
  }

  lemma {:induction false} FilterAll<T(!new)>(s: seq<T>, p: T -> bool)
    requires forall i :: 0 <= i < |s| ==> p(s[i])
    ensures Filter(s, p) == s
  {
    if s != [] {
      FilterAll(s[1..], p);
    }
  }

  /** At least k rows satisfy p when the first k rows, or the last k rows, do. */
  lemma FilterCountBound<T(!new)>(s: seq<T>, k: nat, p: T -> bool)
    requires k <= |s|
    requires (forall i :: 0 <= i < k ==> p(s[i])) || (forall i :: |s| - k <= i < |s| ==> p(s[i]))
    ensures |Filter(s, p)| >= k
  {
    if forall i :: 0 <= i < k ==> p(s[i]) {
      assert s == s[..k] + s[k..];
      FilterAppend(s[..k], s[k..], p);
      FilterAll(s[..k], p);
    } else {
      assert s == s[..|s| - k] + s[|s| - k..];
      FilterAppend(s[..|s| - k], s[|s| - k..], p);
      FilterAll(s[|s| - k..], p);
    }
  }

  /** A filter that at most one position of s passes keeps at most one row. */
  lemma {:induction false} FilterAtMostOne<T(!new)>(s: seq<T>, p: T -> bool)
    requires forall i, j :: 0 <= i < j < |s| ==> !(p(s[i]) && p(s[j]))
    ensures |Filter(s, p)| <= 1
  {
    if s != [] {
      FilterAtMostOne(s[1..], p);
      if p(s[0]) {
        forall x | x in s[1..] ensures !p(x) {
          var k :| 0 <= k < |s[1..]| && s[1..][k] == x;
          assert s[k + 1] == x;
        }
        FilterNone(s[1..], p);
      }
    }
  }

  lemma {:induction false} FilterNone<T(!new)>(s: seq<T>, p: T -> bool)
    requires forall x :: x in s ==> !p(x)
    ensures Filter(s, p) == []
  {
    if s != [] {
      assert forall x :: x in s[1..] ==> x in s;
      FilterNone(s[1..], p);
    }
  }

  /** Joining with the projected rows of s is joining with s through the projection. */
  lemma {:induction false} FlatMapMap<T(!new), U(!new), V(!new)>(s: seq<T>, h: T -> U, g: U -> seq<V>, gh: T -> seq<V>)
    requires forall x :: x in s ==> gh(x) == g(h(x))
    ensures FlatMap(Map(s, h), g) == FlatMap(s, gh)
  {
    if s != [] {
      assert s[0] in s;
      assert forall x :: x in s[1..] ==> x in s;
      var m := Map(s, h);
      assert m[0] == h(s[0]) && m[1..] == Map(s[1..], h);
      FlatMapMap(s[1..], h, g, gh);
    }
  }

  /** Projecting a concatenation projects each part. */
  lemma {:induction false} MapAppend<T(!new), U(!new)>(a: seq<T>, b: seq<T>, f: T -> U)
    ensures Map(a + b, f) == Map(a, f) + Map(b, f)
  {
    if a == [] {
      assert a + b == b;
    } else {
      assert (a + b)[1..] == a[1..] + b;
      MapAppend(a[1..], b, f);
    }
  }

  /** Two projections in a row are one projection through both. */
  lemma {:induction false} MapMap<T(!new), U(!new), V(!new)>(s: seq<T>, f: T -> U, g: U -> V, gf: T -> V)
    requires forall x :: x in s ==> gf(x) == g(f(x))
    ensures Map(Map(s, f), g) == Map(s, gf)
  {
    if s != [] {
      assert s[0] in s;
      assert forall x :: x in s[1..] ==> x in s;
      var m := Map(s, f);
      assert m[0] == f(s[0]) && m[1..] == Map(s[1..], f);
      MapMap(s[1..], f, g, gf);
    }
  }

  /** Filters whose conditions agree on every row of s keep the same rows. */
  lemma {:induction false} FilterPointwise<T(!new)>(s: seq<T>, p: T -> bool, q: T -> bool)
    requires forall x :: x in s ==> p(x) == q(x)
    ensures Filter(s, p) == Filter(s, q)
  {
    if s != [] {
      assert s[0] in s;
      assert forall x :: x in s[1..] ==> x in s;
      FilterPointwise(s[1..], p, q);
    }
  }

  /** Joins whose inner rows agree for every outer row are equal. */
  lemma {:induction false} FlatMapPointwise<T(!new), U(!new)>(s: seq<T>, g1: T -> seq<U>, g2: T -> seq<U>)
    requires forall x :: x in s ==> g1(x) == g2(x)
    ensures FlatMap(s, g1) == FlatMap(s, g2)
  {
    if s != [] {
      assert s[0] in s;
      assert forall x :: x in s[1..] ==> x in s;
      FlatMapPointwise(s[1..], g1, g2);
    }
  }

  /** Filtering projected rows is projecting the rows whose projection passes. */
  lemma {:induction false} FilterMap<T(!new), U(!new)>(s: seq<T>, f: T -> U, p: U -> bool, q: T -> bool)
    requires forall x :: x in s ==> q(x) == p(f(x))
    ensures Filter(Map(s, f), p) == Map(Filter(s, q), f)
  {
    if s != [] {
      assert s[0] in s;
      assert forall x :: x in s[1..] ==> x in s;
      var m := Map(s, f);
      assert m[0] == f(s[0]) && m[1..] == Map(s[1..], f);
      FilterMap(s[1..], f, p, q);
      var rest := Filter(s[1..], q);
      if q(s[0]) {
        var kept := Filter(s, q);
        assert kept == [s[0]] + rest;
        assert kept[0] == s[0] && kept[1..] == rest;
      } else {
        assert Filter(s, q) == rest;
        assert Filter(m, p) == Filter(m[1..], p);
      }
    }
  }

  /** In a duplicate-free sequence, a value occurs at most once. */
  lemma NoDuplicatesOnce<T(!new)>(s: seq<T>, k: T, p: T -> bool)
    requires NoDuplicates(s)
    requires forall x :: p(x) ==> x == k
    ensures |Filter(s, p)| <= 1
  {
    FilterAtMostOne(s, p);
  }

  /** A row is kept exactly when it is a row of s that satisfies p. */
  lemma {:induction false} FilterIn<T(!new)>(s: seq<T>, p: T -> bool, x: T)
    ensures x in Filter(s, p) <==> x in s && p(x)
  {
    if s != [] {
      assert x in s <==> x == s[0] || x in s[1..];
      FilterIn(s[1..], p, x);
    }
  }

  /** A row of a join comes from some outer row. */
  lemma {:induction false} FlatMapSource<T(!new), U(!new)>(s: seq<T>, g: T -> seq<U>, y: U) returns (x: T)
    requires y in FlatMap(s, g)
    ensures x in s && y in g(x)
  {
    if y in g(s[0]) {
      x := s[0];
    } else {
      x := FlatMapSource(s[1..], g, y);
    }
  }

  /** A projected row comes from some input row. */
  lemma {:induction false} MapSource<T(!new), U(!new)>(s: seq<T>, f: T -> U, y: U) returns (x: T)
    requires y in Map(s, f)
    ensures x in s && y == f(x)
  {
    if y == f(s[0]) {
      x := s[0];
    } else {
      x := MapSource(s[1..], f, y);
    }
  }

  /** Every inner row of every outer row is a row of the join. */
  lemma {:induction false} FlatMapMember<T(!new), U(!new)>(s: seq<T>, g: T -> seq<U>, x: T, y: U)
    requires x in s && y in g(x)
    ensures y in FlatMap(s, g)
  {
    if x != s[0] {
      FlatMapMember(s[1..], g, x, y);
    }
  }

  /** Every input row is projected. */
  lemma {:induction false} MapMember<T(!new), U(!new)>(s: seq<T>, f: T -> U, x: T)
    requires x in s
    ensures f(x) in Map(s, f)
  {
    if x != s[0] {
      MapMember(s[1..], f, x);
    }
  }

  /** The key of every row is a group. */
  lemma GroupKeysMember<T(!new), K(!new)>(rows: seq<T>, key: T -> K, x: T)
    requires x in rows
    ensures key(x) in GroupKeys(rows, key)
  {
    MapMember(rows, key, x);
  }

  /** Every group has a row with that key. */
  lemma GroupKeysSource<T(!new), K(!new)>(rows: seq<T>, key: T -> K, k: K) returns (x: T)
    requires k in GroupKeys(rows, key)
    ensures x in rows && key(x) == k
  {
    x := MapSource(rows, key, k);
  }

  /** Two filters in a row are one filter on both conditions. */
  lemma {:induction false} FilterFilter<T(!new)>(s: seq<T>, p: T -> bool, q: T -> bool, pq: T -> bool)
    requires forall x :: x in s ==> pq(x) == (p(x) && q(x))
    ensures Filter(Filter(s, p), q) == Filter(s, pq)
  {
    if s != [] {
      assert forall x :: x in s[1..] ==> x in s;
      FilterFilter(s[1..], p, q, pq);
      var head := if p(s[0]) then [s[0]] else [];
      FilterAppend(head, Filter(s[1..], p), q);
    }
  }

  /** Filtering a join filters the rows of each outer row. */
  lemma {:induction false} FilterFlatMap<T(!new), U(!new)>(s: seq<T>, g: T -> seq<U>, p: U -> bool, h: T -> seq<U>)
    requires forall x :: x in s ==> h(x) == Filter(g(x), p)
    ensures Filter(FlatMap(s, g), p) == FlatMap(s, h)
  {
    if s != [] {
      assert forall x :: x in s[1..] ==> x in s;
      FilterFlatMap(s[1..], g, p, h);
      FilterAppend(g(s[0]), FlatMap(s[1..], g), p);
    }
  }

  /** When only one outer row, occurring once, joins to anything, the join is that row's rows. */
  lemma {:induction false} FlatMapOne<T(!new), U(!new)>(s: seq<T>, x0: T, h: T -> seq<U>)
    requires NoDuplicates(s) && x0 in s
    requires forall x :: x in s && x != x0 ==> h(x) == []
    ensures FlatMap(s, h) == h(x0)
  {
    var t := s[1..];
    assert forall x :: x in t ==> x in s;
    assert NoDuplicates(t) by {
      forall i, j | 0 <= i < j < |t| ensures t[i] != t[j] {
        assert t[i] == s[i + 1] && t[j] == s[j + 1];
      }
    }
    if s[0] == x0 {
      assert x0 !in t;
      FlatMapNone(t, h);
    } else {
      FlatMapOne(t, x0, h);
    }
  }

  /** A join in which no outer row joins to anything is empty. */
  lemma {:induction false} FlatMapNone<T(!new), U(!new)>(s: seq<T>, h: T -> seq<U>)
    requires forall x :: x in s ==> h(x) == []
    ensures FlatMap(s, h) == []
  {
    if s != [] {
      assert forall x :: x in s[1..] ==> x in s;
      FlatMapNone(s[1..], h);
    }
  }
}
