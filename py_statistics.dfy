/** `sum()` and `statistics.median` over integer samples, and the exact
    (rational) mean that `sum(xs) / len(xs)` computes. */
module PyStatistics {

  /** `sum(s)`, accumulated from the left as the scripts' loops do. */
  function Sum(s: seq<int>): int
  {
    if s == [] then 0 else Sum(s[..|s| - 1]) + s[|s| - 1]
  }

  /** `sum(s) / len(s)` as exact division. */
  function Mean(s: seq<int>): real
    requires |s| > 0
  {
    Sum(s) as real / |s| as real
  }

  predicate Sorted(s: seq<int>)
  {
    forall i, j :: 0 <= i < j < |s| ==> s[i] <= s[j]
  }

  /** Putting an element in front of an ascending sequence keeps it
      ascending when the element is no larger than any of its elements. */
  lemma SortedCons(y: int, r: seq<int>)
    requires Sorted(r)
    requires forall k :: 0 <= k < |r| ==> y <= r[k]
    ensures Sorted([y] + r)
  {
  }

  /** Every element of a sequence is no smaller than a lower bound of its multiset. */
  lemma BoundedByMultiset(y: int, r: seq<int>, s: seq<int>, x: int)
    requires multiset(r) == multiset(s) + multiset{x}
    requires y <= x && forall k :: 0 <= k < |s| ==> y <= s[k]
    ensures forall k :: 0 <= k < |r| ==> y <= r[k]
  {
    forall k | 0 <= k < |r| ensures y <= r[k] {
      assert r[k] in multiset(r);
      if r[k] != x {
        assert r[k] in multiset(s);
      }
    }
  }

  /** Puts `x` in front of the first element of `s` that is not smaller. */
  function Insert(x: int, s: seq<int>): (r: seq<int>)
    ensures |r| == |s| + 1
  {
    if s == [] || x <= s[0] then [x] + s
    else [s[0]] + Insert(x, s[1..])
  }

  /** `sorted(s)`: the ascending rearrangement of `s`. */
  function Sort(s: seq<int>): (r: seq<int>)
    ensures |r| == |s|
  {
    if s == [] then [] else Insert(s[|s| - 1], Sort(s[..|s| - 1]))
  }

  /** Inserting adds exactly the one element. */
  lemma {:induction false} InsertAdds(x: int, s: seq<int>)
    ensures multiset(Insert(x, s)) == multiset(s) + multiset{x}
    decreases |s|
  {
    if s != [] && x > s[0] {
      InsertAdds(x, s[1..]);
      assert s == [s[0]] + s[1..];
    }
  }

  /** Inserting into an ascending sequence keeps it ascending. */
  lemma {:induction false} InsertSorted(x: int, s: seq<int>)
    requires Sorted(s)
    ensures Sorted(Insert(x, s))
    decreases |s|
  {
    if s == [] || x <= s[0] {
      SortedCons(x, s);
    } else {
      var tail := s[1..];
      var rest := Insert(x, tail);
      assert Sorted(tail);
      InsertSorted(x, tail);
      InsertAdds(x, tail);
      assert forall k :: 0 <= k < |tail| ==> s[0] <= tail[k];
      BoundedByMultiset(s[0], rest, tail, x);
      SortedCons(s[0], rest);
    }
  }

  /** `Sort` gives an ascending rearrangement of its samples. */
  lemma {:induction false} SortSorts(s: seq<int>)
    ensures Sorted(Sort(s))
    ensures multiset(Sort(s)) == multiset(s)
    decreases |s|
  {
    if s != [] {
      var init := s[..|s| - 1];
      SortSorts(init);
      InsertSorted(s[|s| - 1], Sort(init));
      InsertAdds(s[|s| - 1], Sort(init));
      assert s == init + [s[|s| - 1]];
    }
  }

  /** `statistics.median(s)`: the middle element of the sorted samples, or the
      mean of the two middle ones when there is an even number of them. */
  function Median(s: seq<int>): real
    requires |s| > 0
  {
    var t := Sort(s);
    var n := |t|;
    if n % 2 == 1 then t[n / 2] as real
    else (t[n / 2 - 1] + t[n / 2]) as real / 2.0
  }

  /** Sum distributes over concatenation. */
  lemma {:induction false} SumConcat(a: seq<int>, b: seq<int>)
    ensures Sum(a + b) == Sum(a) + Sum(b)
    decreases |b|
  {
    if b != [] {
      SumConcat(a, b[..|b| - 1]);
      assert (a + b)[..|a + b| - 1] == a + b[..|b| - 1];
    } else {
      assert a + b == a;
    }
  }

  /** The sum does not depend on the order of the samples. */
  lemma {:induction false} SumOfPermutation(s: seq<int>, t: seq<int>)
    requires multiset(s) == multiset(t)
    ensures Sum(s) == Sum(t)
    decreases |s|
  {
    if s != [] {
      var x := s[|s| - 1];
      var s' := s[..|s| - 1];
      SplitLast(s);
      assert x in multiset(t);
      var k :| 0 <= k < |t| && t[k] == x;
      var t' := t[..k] + t[k + 1..];
      RemoveAt(t, k);
      SumOfPermutation(s', t');
      SumMiddle(t[..k], x, t[k + 1..]);
    } else {
      assert |multiset(t)| == 0;
    }
  }

  /** An element between two runs adds itself to their sum. */
  lemma SumMiddle(a: seq<int>, x: int, b: seq<int>)
    ensures Sum(a + [x] + b) == Sum(a + b) + x
  {
    SumConcat(a, [x]);
    SumConcat(a + [x], b);
    SumConcat(a, b);
    assert [x][..0] == [];
  }

  /** The mean does not depend on the order of the samples. */
  lemma MeanOfPermutation(s: seq<int>, t: seq<int>)
    requires |s| > 0 && multiset(s) == multiset(t)
    ensures |t| == |s| && Mean(s) == Mean(t)
  {
    assert |t| == |multiset(t)| == |multiset(s)| == |s|;
    SumOfPermutation(s, t);
  }

  /** The last element of an ascending sequence is its largest. */
  lemma SortedLastIsMax(a: seq<int>, x: int)
    requires Sorted(a) && x in multiset(a)
    ensures x <= a[|a| - 1]
  {
    var i :| 0 <= i < |a| && a[i] == x;
  }

  lemma SortedPrefix(a: seq<int>, n: nat)
    requires Sorted(a) && n <= |a|
    ensures Sorted(a[..n])
  {
  }

  /** Two ascending sequences with the same elements end in the same element. */
  lemma SortedSameLast(a: seq<int>, b: seq<int>)
    requires Sorted(a) && Sorted(b) && multiset(a) == multiset(b) && a != []
    ensures |a| == |b| && a[|a| - 1] == b[|b| - 1]
  {
    assert |a| == |multiset(a)| == |multiset(b)| == |b|;
    var n := |a| - 1;
    assert a[n] in multiset(a) && b[n] in multiset(b);
    SortedLastIsMax(b, a[n]);
    SortedLastIsMax(a, b[n]);
  }

  /** Dropping the same last element from two sequences with the same
      elements leaves two sequences with the same elements. */
  lemma DropLastMultiset(a: seq<int>, b: seq<int>)
    requires multiset(a) == multiset(b) && a != [] && b != [] && a[|a| - 1] == b[|b| - 1]
    ensures multiset(a[..|a| - 1]) == multiset(b[..|b| - 1])
  {
    SplitLast(a);
    SplitLast(b);
  }

  /** A non-empty sequence is its front and its last element. */
  lemma SplitLast(a: seq<int>)
    requires a != []
    ensures a == a[..|a| - 1] + [a[|a| - 1]]
    ensures multiset(a[..|a| - 1]) == multiset(a) - multiset{a[|a| - 1]}
  {
    assert a == a[..|a| - 1] + [a[|a| - 1]];
  }

  /** Taking the element at `k` out of `t` takes it out of its multiset. */
  lemma RemoveAt(t: seq<int>, k: nat)
    requires k < |t|
    ensures t == t[..k] + [t[k]] + t[k + 1..]
    ensures multiset(t[..k] + t[k + 1..]) == multiset(t) - multiset{t[k]}
  {
    assert t == t[..k] + t[k..];
    assert t[k..] == [t[k]] + t[k + 1..];
  }

  /** Two ascending sequences with the same elements are equal. */
  lemma {:induction false} SortedUnique(a: seq<int>, b: seq<int>)
    requires Sorted(a) && Sorted(b) && multiset(a) == multiset(b)
    ensures a == b
    decreases |a|
  {
    if a == [] {
      assert |b| == |multiset(b)| == 0;
    } else {
      SortedSameLast(a, b);
      DropLastMultiset(a, b);
      var n := |a| - 1;
      SortedPrefix(a, n);
      SortedPrefix(b, n);
      SortedUnique(a[..n], b[..n]);
      assert a == a[..n] + [a[n]] && b == b[..n] + [b[n]];
    }
  }

  /** The median does not depend on the order of the samples. */
  lemma MedianOfPermutation(s: seq<int>, t: seq<int>)
    requires |s| > 0 && multiset(s) == multiset(t)
    ensures |t| == |s| && Median(s) == Median(t)
  {
    assert |t| == |multiset(t)| == |multiset(s)| == |s|;
    SortSorts(s);
    SortSorts(t);
    SortedUnique(Sort(s), Sort(t));
  }

  /** The median lies between the smallest and the largest sample. */
  lemma MedianBetween(s: seq<int>)
    requires |s| > 0
    ensures exists i :: 0 <= i < |s| && s[i] as real <= Median(s)
    ensures exists j :: 0 <= j < |s| && Median(s) <= s[j] as real
  {
    var t := Sort(s);
    SortSorts(s);
    var n := |t|;
    var lo := if n % 2 == 1 then n / 2 else n / 2 - 1;
    assert t[lo] as real <= Median(s) <= t[n / 2] as real;
    assert t[lo] in multiset(s) && t[n / 2] in multiset(s);
    var i :| 0 <= i < |s| && s[i] == t[lo];
    var j :| 0 <= j < |s| && s[j] == t[n / 2];
  }
}
