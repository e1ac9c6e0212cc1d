/**
 * The `median` aggregate on a floating-point column: the continuous 0.5
 * quantile, which is the middle value of the sorted values when there is an
 * odd number of them and the mean of the two middle values otherwise.
 */
module Medians {
  import opened Rel
  import opened Order

  predicate RealLe(a: real, b: real) {
    a <= b
  }

  lemma RealLeTotalPreorder()
    ensures TotalPreorder(RealLe)
  {
  }

  /** The middle value of t, or the mean of its two middle values. */
  function Middle(t: seq<real>): real
    requires |t| > 0
  {
    var h := |t| / 2;
    if |t| % 2 == 1 then t[h] else (t[h - 1] + t[h]) / 2.0
  }

  /** median(s): defined for the non-empty groups GROUP BY produces. */
  function Median(s: seq<real>): real
    requires |s| > 0
  {
    Middle(SortBy(s, RealLe))
  }

  /** The sorted values and the two middle positions the median is taken from. */
  lemma MiddlePositions(s: seq<real>) returns (t: seq<real>, lo: nat, hi: nat)
    requires |s| > 0
    ensures t == SortBy(s, RealLe) && multiset(t) == multiset(s) && SortedBy(t, RealLe)
    ensures lo <= hi < |t| == |s| && 2 * (lo + 1) >= |s| && 2 * (|s| - hi) >= |s|
    ensures t[lo] <= Median(s) <= t[hi]
  {
    t := SortBy(s, RealLe);
    RealLeTotalPreorder();
    SortBySorted(s, RealLe);
    var h := |t| / 2;
    lo, hi := if |t| % 2 == 1 then h else h - 1, h;
  }

  /** In a sorted sequence, every value up to position lo is at most t[lo]. */
  lemma SortedPrefix(t: seq<real>, lo: nat, m: real)
    requires SortedBy(t, RealLe) && lo < |t| && t[lo] <= m
    ensures forall i :: 0 <= i < lo + 1 ==> t[i] <= m
  {
    forall i | 0 <= i < lo + 1 ensures t[i] <= m {
      if i < lo { assert RealLe(t[i], t[lo]); }
    }
  }

  /** In a sorted sequence, every value from position hi on is at least t[hi]. */
  lemma SortedSuffix(t: seq<real>, hi: nat, m: real)
    requires SortedBy(t, RealLe) && hi < |t| && m <= t[hi]
    ensures forall i :: |t| - (|t| - hi) <= i < |t| ==> t[i] >= m
  {
    forall i | hi <= i < |t| ensures t[i] >= m {
      if hi < i { assert RealLe(t[hi], t[i]); }
    }
  }

  /** How many of the values are at most m. */
  function CountAtMost(s: seq<real>, m: real): nat {
    |Filter(s, x => x <= m)|
  }

  /** How many of the values are at least m. */
  function CountAtLeast(s: seq<real>, m: real): nat {
    |Filter(s, x => x >= m)|
  }

  /**
   * The median splits the values in half: at least half of them are at most
   * the median and at least half are at least the median; and it lies between
   * the smallest and the largest value.
   */
  lemma MedianSplits(s: seq<real>)
    requires |s| > 0
    ensures 2 * CountAtMost(s, Median(s)) >= |s|
    ensures 2 * CountAtLeast(s, Median(s)) >= |s|
    ensures exists x :: x in s && x <= Median(s)
    ensures exists y :: y in s && Median(s) <= y
  {
    var m := Median(s);
    var t, lo, hi := MiddlePositions(s);
    SortedPrefix(t, lo, m);
    SortedSuffix(t, hi, m);
    FilterCountBound(t, lo + 1, x => x <= m);
    FilterCountBound(t, |t| - hi, x => x >= m);
    FilterCountPermutation(s, t, x => x <= m);
    FilterCountPermutation(s, t, x => x >= m);
    assert t[lo] in multiset(t) && t[hi] in multiset(t);
    assert t[lo] in s && t[lo] <= m;
    assert t[hi] in s && m <= t[hi];
  }

  // ------------------------------------------------------ repeated values

  /** k copies of x. */
  function Copies<T>(x: T, k: nat): seq<T> {
    seq(k, i => x)
  }

  /** Each value of t k times in a row, in the order of t. */
  function Stretch<T>(t: seq<T>, k: nat): seq<T> {
    if t == [] then [] else Copies(t[0], k) + Stretch(t[1..], k)
  }

  /** The multiset holding every element of m k times as often. */
  ghost function KTimes<T>(m: multiset<T>, k: nat): multiset<T> {
    if k == 0 then multiset{} else m + KTimes(m, k - 1)
  }

  lemma {:induction false} KTimesAdd<T>(a: multiset<T>, b: multiset<T>, k: nat)
    ensures KTimes(a + b, k) == KTimes(a, k) + KTimes(b, k)
  {
    if k > 0 {
      KTimesAdd(a, b, k - 1);
    }
  }

  lemma {:induction false} KTimesEmpty<T>(m: multiset<T>, k: nat)
    requires m == multiset{}
    ensures KTimes(m, k) == m
  {
    if k > 0 {
      KTimesEmpty(m, k - 1);
    }
  }

  lemma {:induction false} RepeatMultiset<T>(s: seq<T>, k: nat)
    ensures multiset(Repeat(s, k)) == KTimes(multiset(s), k)
  {
    if k > 0 {
      RepeatMultiset(s, k - 1);
    }
  }

  lemma {:induction false} CopiesMultiset<T>(x: T, k: nat)
    ensures multiset(Copies(x, k)) == KTimes(multiset{x}, k)
  {
    if k > 0 {
      CopiesMultiset(x, k - 1);
      assert Copies(x, k) == [x] + Copies(x, k - 1);
    }
  }

  lemma {:induction false} StretchMultiset<T>(t: seq<T>, k: nat)
    ensures multiset(Stretch(t, k)) == KTimes(multiset(t), k)
  {
    if t != [] {
      StretchMultiset(t[1..], k);
      CopiesMultiset(t[0], k);
      assert t == [t[0]] + t[1..];
      assert multiset(t) == multiset{t[0]} + multiset(t[1..]);
      assert multiset(Stretch(t, k)) == multiset(Copies(t[0], k)) + multiset(Stretch(t[1..], k));
      KTimesAdd(multiset{t[0]}, multiset(t[1..]), k);
    } else {
      KTimesEmpty(multiset(t), k);
    }
  }

  lemma {:induction false} StretchLength<T>(t: seq<T>, k: nat)
    ensures |Stretch(t, k)| == |t| * k
  {
    if t != [] {
      StretchLength(t[1..], k);
      assert |t| * k == k + (|t| - 1) * k;
    }
  }

  /** Position q * k + r of the stretched sequence holds t[q]. */
  lemma {:induction false} StretchAt<T>(t: seq<T>, k: nat, q: nat, r: nat)
    requires q < |t| && r < k
    ensures q * k + r < |Stretch(t, k)| && Stretch(t, k)[q * k + r] == t[q]
  {
    var c := Copies(t[0], k);
    assert Stretch(t, k) == c + Stretch(t[1..], k);
    if q == 0 {
      assert q * k + r == r;
      assert Stretch(t, k)[r] == c[r];
    } else {
      StretchAt(t[1..], k, q - 1, r);
      assert q * k + r == k + ((q - 1) * k + r);
    }
  }

  lemma {:induction false} StretchIn<T>(t: seq<T>, k: nat, x: T)
    requires x in Stretch(t, k)
    ensures x in t
  {
    if t != [] && x !in Copies(t[0], k) {
      StretchIn(t[1..], k, x);
    }
  }

  lemma {:induction false} StretchSorted(t: seq<real>, k: nat)
    requires SortedBy(t, RealLe)
    ensures SortedBy(Stretch(t, k), RealLe)
  {
    if t != [] {
      var c := Copies(t[0], k);
      var rest := Stretch(t[1..], k);
      assert SortedBy(t[1..], RealLe) by {
        forall i, j | 0 <= i < j < |t[1..]| ensures RealLe(t[1..][i], t[1..][j]) {
          assert RealLe(t[i + 1], t[j + 1]);
        }
      }
      StretchSorted(t[1..], k);
      var d := c + rest;
      forall i, j | 0 <= i < j < |d| ensures RealLe(d[i], d[j]) {
        if k <= i {
          assert d[i] == rest[i - k] && d[j] == rest[j - k];
        } else if k <= j {
          assert d[j] == rest[j - k];
          StretchIn(t[1..], k, d[j]);
          var m :| 0 <= m < |t[1..]| && t[1..][m] == d[j];
          assert RealLe(t[0], t[m + 1]);
        }
      }
    }
  }

  /** The first value of a sorted sequence is its least. */
  lemma SortedMin(s: seq<real>)
    requires SortedBy(s, RealLe) && s != []
    ensures forall x :: x in s ==> s[0] <= x
  {
    forall x | x in s ensures s[0] <= x {
      var i :| 0 <= i < |s| && s[i] == x;
      if i > 0 {
        assert RealLe(s[0], s[i]);
      }
    }
  }

  /** The rest of a sorted sequence is sorted. */
  lemma SortedTail(s: seq<real>)
    requires SortedBy(s, RealLe) && s != []
    ensures SortedBy(s[1..], RealLe)
  {
    forall a, b | 0 <= a < b < |s[1..]| ensures RealLe(s[1..][a], s[1..][b]) {
      assert RealLe(s[a + 1], s[b + 1]);
    }
  }

  lemma TailMultiset(s: seq<real>)
    requires s != []
    ensures multiset(s[1..]) == multiset(s) - multiset{s[0]}
  {
    assert s == [s[0]] + s[1..];
  }

  /** Two sorted sequences of the same values start with the same value. */
  lemma SameHead(s: seq<real>, t: seq<real>)
    requires SortedBy(s, RealLe) && SortedBy(t, RealLe) && multiset(s) == multiset(t) && s != []
    ensures t != [] && s[0] == t[0]
  {
    assert |s| == |multiset(s)| == |multiset(t)| == |t|;
    SortedMin(s);
    SortedMin(t);
    assert s[0] in multiset(t) && t[0] in multiset(s);
  }

  /** Two sorted sequences of the same values are equal. */
  lemma {:induction false} SortedUnique(s: seq<real>, t: seq<real>)
    requires SortedBy(s, RealLe) && SortedBy(t, RealLe) && multiset(s) == multiset(t)
    ensures s == t
  {
    if s == [] {
      assert |t| == |multiset(t)| == 0;
    } else {
      SameHead(s, t);
      TailMultiset(s);
      TailMultiset(t);
      SortedTail(s);
      SortedTail(t);
      SortedUnique(s[1..], t[1..]);
      assert s == [s[0]] + s[1..] && t == [t[0]] + t[1..];
    }
  }

  lemma OddTimesOdd(h: nat, j: nat)
    ensures (2 * h + 1) * (2 * j + 1) == 2 * (h * (2 * j + 1) + j) + 1
  {
  }

  lemma OddTimesEven(h: nat, j: nat)
    ensures (2 * h + 1) * (2 * j) == 2 * (h * (2 * j) + j)
  {
  }

  lemma EvenTimes(h: nat, k: nat)
    ensures (2 * h) * k == 2 * (h * k)
    ensures h > 0 ==> h * k == (h - 1) * k + k
  {
  }

  lemma MiddleOddOdd(t: seq<real>, k: nat, h: nat, j: nat)
    requires |t| == 2 * h + 1 && k == 2 * j + 1
    ensures |Stretch(t, k)| > 0 && Middle(Stretch(t, k)) == t[h]
  {
    var d := Stretch(t, k);
    StretchLength(t, k);
    OddTimesOdd(h, j);
    assert |d| == 2 * (h * k + j) + 1;
    StretchAt(t, k, h, j);
  }

  lemma MiddleOddEven(t: seq<real>, k: nat, h: nat, j: nat)
    requires |t| == 2 * h + 1 && k == 2 * j && j > 0
    ensures |Stretch(t, k)| > 0 && Middle(Stretch(t, k)) == t[h]
  {
    var d := Stretch(t, k);
    StretchLength(t, k);
    OddTimesEven(h, j);
    var x := h * k + j;
    assert |d| == 2 * x;
    StretchAt(t, k, h, j);
    StretchAt(t, k, h, j - 1);
    assert d[x - 1] == t[h] && d[x] == t[h];
  }

  lemma MiddleEven(t: seq<real>, k: nat, h: nat)
    requires |t| == 2 * h && h > 0 && k > 0
    ensures |Stretch(t, k)| > 0 && Middle(Stretch(t, k)) == (t[h - 1] + t[h]) / 2.0
  {
    var d := Stretch(t, k);
    StretchLength(t, k);
    EvenTimes(h, k);
    var x := h * k;
    assert |d| == 2 * x;
    StretchAt(t, k, h, 0);
    StretchAt(t, k, h - 1, k - 1);
    assert d[x - 1] == t[h - 1] && d[x] == t[h];
  }

  /** Repeating every value k times keeps the middle. */
  lemma MiddleStretch(t: seq<real>, k: nat)
    requires |t| > 0 && k > 0
    ensures |Stretch(t, k)| > 0 && Middle(Stretch(t, k)) == Middle(t)
  {
    var h := |t| / 2;
    if |t| % 2 == 1 {
      if k % 2 == 1 {
        MiddleOddOdd(t, k, h, k / 2);
      } else {
        MiddleOddEven(t, k, h, k / 2);
      }
    } else {
      MiddleEven(t, k, h);
    }
  }

  /**
   * Repeating the whole sequence k times leaves the median unchanged: every
   * value occurs k times as often, so the sorted values are each repeated k
   * times in place and the middle stays where it was.
   */
  lemma MedianRepeat(s: seq<real>, k: nat)
    requires |s| > 0 && k > 0
    ensures |Repeat(s, k)| > 0 && Median(Repeat(s, k)) == Median(s)
  {
    var t := SortBy(s, RealLe);
    var u := SortBy(Repeat(s, k), RealLe);
    RealLeTotalPreorder();
    SortBySorted(s, RealLe);
    SortBySorted(Repeat(s, k), RealLe);
    StretchSorted(t, k);
    RepeatMultiset(s, k);
    StretchMultiset(t, k);
    SortedUnique(u, Stretch(t, k));
    MiddleStretch(t, k);
  }
}
