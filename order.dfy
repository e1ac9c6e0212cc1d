/**
 * ORDER BY and LIMIT 1.
 *
 * A sort key is given as a comparator `le(a, b)`, "a may come before b".
 * SortBy returns some permutation of its input that is ordered by `le` when
 * `le` is a total preorder; the order it gives rows with equal keys is one
 * choice among those SQL allows, and no property below depends on it.
 */
module Order {
  import opened Rel

  /** `le` compares every pair of rows and is transitive. */
  ghost predicate TotalPreorder<T(!new)>(le: (T, T) -> bool) {
    && (forall a, b :: le(a, b) || le(b, a))
    && (forall a, b, c :: le(a, b) && le(b, c) ==> le(a, c))
  }

  /** Every row may come before every later row. */
  predicate SortedBy<T>(s: seq<T>, le: (T, T) -> bool) {
    forall i, j :: 0 <= i < j < |s| ==> le(s[i], s[j])
  }

  /** Inserts x before the first row it may precede. */
  function InsertBy<T(==)>(x: T, s: seq<T>, le: (T, T) -> bool): (r: seq<T>)
    ensures multiset(r) == multiset(s) + multiset{x}
    ensures |r| == |s| + 1
  {
    if s == [] || le(x, s[0]) then [x] + s
    else
      assert s == [s[0]] + s[1..];
      [s[0]] + InsertBy(x, s[1..], le)
  }

  lemma {:induction false} InsertBySorted<T(!new)>(x: T, s: seq<T>, le: (T, T) -> bool)
    requires TotalPreorder(le) && SortedBy(s, le)
    ensures SortedBy(InsertBy(x, s, le), le)
  {
    if s == [] || le(x, s[0]) {
    } else {
      var t := s[1..];
      assert SortedBy(t, le) by {
        forall i, j | 0 <= i < j < |t| ensures le(t[i], t[j]) {
          assert t[i] == s[i + 1] && t[j] == s[j + 1];
        }
      }
      InsertBySorted(x, t, le);
      var r := InsertBy(x, t, le);
      assert le(s[0], x);
      forall k | 0 <= k < |r| ensures le(s[0], r[k]) {
        assert r[k] in multiset(r);
        if r[k] != x {
          assert r[k] in multiset(t);
          var j :| 0 <= j < |t| && t[j] == r[k];
          assert s[j + 1] == r[k];
        }
      }
      var u := [s[0]] + r;
      forall i, j | 0 <= i < j < |u| ensures le(u[i], u[j]) {
        assert u[j] == r[j - 1];
        if i > 0 {
          assert u[i] == r[i - 1];
        }
      }
    }
  }

  /** ORDER BY le: insertion sort. */
  function SortBy<T(==)>(s: seq<T>, le: (T, T) -> bool): (r: seq<T>)
    ensures multiset(r) == multiset(s)
    ensures |r| == |s|
  {
    if s == [] then []
    else
      assert s == [s[0]] + s[1..];
      InsertBy(s[0], SortBy(s[1..], le), le)
  }

  lemma {:induction false} SortBySorted<T(!new)>(s: seq<T>, le: (T, T) -> bool)
    requires TotalPreorder(le)
    ensures SortedBy(SortBy(s, le), le)
  {
    if s != [] {
      SortBySorted(s[1..], le);
      InsertBySorted(s[0], SortBy(s[1..], le), le);
    }
  }

  /** Sorting keeps exactly the rows it is given. */
  lemma SortByMember<T(!new)>(s: seq<T>, le: (T, T) -> bool, x: T)
    ensures x in SortBy(s, le) <==> x in s
  {
    assert x in SortBy(s, le) <==> x in multiset(SortBy(s, le));
    assert x in s <==> x in multiset(s);
  }

  /** ORDER BY le: the rows of s, each as often as in s, in an order `le` allows. */
  lemma SortBySpec<T(!new)>(s: seq<T>, le: (T, T) -> bool)
    requires TotalPreorder(le)
    ensures multiset(SortBy(s, le)) == multiset(s)
    ensures forall x :: x in SortBy(s, le) <==> x in s
    ensures SortedBy(SortBy(s, le), le)
  {
    SortBySorted(s, le);
    var r := SortBy(s, le);
    forall x ensures x in r <==> x in s {
      assert x in r <==> x in multiset(r);
      assert x in s <==> x in multiset(s);
    }
  }

  /** ORDER BY le LIMIT 1: a first row, or none when there are no rows. */
  function Top<T(==,!new)>(s: seq<T>, le: (T, T) -> bool): (r: Option<T>)
    ensures r == None <==> s == []
    ensures r != None ==> r.value in s
    ensures r != None && TotalPreorder(le) ==> forall y :: y in s ==> le(r.value, y)
  {
    var sorted := SortBy(s, le);
    if sorted == [] then None
    else
      assert sorted[0] in multiset(sorted);
      assert TotalPreorder(le) ==> forall y :: y in s ==> le(sorted[0], y) by {
        if TotalPreorder(le) {
          SortBySpec(s, le);
          forall y | y in s ensures le(sorted[0], y) {
            var j :| 0 <= j < |sorted| && sorted[j] == y;
          }
        }
      }
      Some(sorted[0])
  }

  /** Under a total preorder, the first row of ORDER BY le LIMIT 1 may precede every row. */
  lemma TopFirst<T(!new)>(s: seq<T>, le: (T, T) -> bool, x: T)
    requires TotalPreorder(le) && x in s
    ensures Top(s, le) != None && le(Top(s, le).value, x)
  {
  }

  /**
   * String order of ORDER BY on text columns: the byte-wise (binary) collation,
   * which for the characters of a string is lexicographic order by code point.
   */
  predicate LexLe(a: string, b: string) {
    if a == [] then true
    else if b == [] then false
    else if a[0] != b[0] then a[0] < b[0]
    else LexLe(a[1..], b[1..])
  }

  lemma {:induction false} LexLeTotal(a: string, b: string)
    ensures LexLe(a, b) || LexLe(b, a)
  {
    if a != [] && b != [] && a[0] == b[0] {
      LexLeTotal(a[1..], b[1..]);
    }
  }

  lemma {:induction false} LexLeTransitive(a: string, b: string, c: string)
    requires LexLe(a, b) && LexLe(b, c)
    ensures LexLe(a, c)
  {
    if a != [] && b != [] && c != [] && a[0] == b[0] && b[0] == c[0] {
      LexLeTransitive(a[1..], b[1..], c[1..]);
    }
  }

  lemma {:induction false} LexLeAntisymmetric(a: string, b: string)
    requires LexLe(a, b) && LexLe(b, a)
    ensures a == b
  {
    if a != [] && b != [] {
      LexLeAntisymmetric(a[1..], b[1..]);
    }
  }
}
