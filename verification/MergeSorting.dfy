/** merge_sort.py: the functional and the in-place merge sort.

    Elements are compared by an integer `key`; two elements with the same key may still be
    different, which is what makes stability observable. */
module MergeSorting {

  // ----- Specification: the stable sort -----

  ghost predicate Ordered<T>(key: T -> int, s: seq<T>) {
    forall i, j :: 0 <= i < j < |s| ==> key(s[i]) <= key(s[j])
  }

  /** The elements of `s` whose key is `k`, in the order in which `s` has them. */
  ghost function Bucket<T>(key: T -> int, s: seq<T>, k: int): seq<T> {
    if |s| == 0 then []
    else if key(s[0]) == k then [s[0]] + Bucket(key, s[1..], k)
    else Bucket(key, s[1..], k)
  }

  ghost predicate SameBuckets<T>(key: T -> int, s: seq<T>, r: seq<T>) {
    forall k :: Bucket(key, s, k) == Bucket(key, r, k)
  }

  /** `r` is in key order and lists the elements of each key in the order of `s`. */
  ghost predicate StableSortOf<T>(key: T -> int, s: seq<T>, r: seq<T>) {
    Ordered(key, r) && SameBuckets(key, s, r)
  }

  lemma {:induction false} BucketConcat<T>(key: T -> int, a: seq<T>, b: seq<T>, k: int)
    ensures Bucket(key, a + b, k) == Bucket(key, a, k) + Bucket(key, b, k)
  {
    if |a| == 0 {
      assert a + b == b;
    } else {
      assert (a + b)[1..] == a[1..] + b;
      BucketConcat(key, a[1..], b, k);
    }
  }

  lemma {:induction false} BucketMember<T>(key: T -> int, s: seq<T>, k: int, x: T)
    ensures multiset(Bucket(key, s, k))[x] == if key(x) == k then multiset(s)[x] else 0
  {
    if |s| == 0 {
    } else {
      assert s == [s[0]] + s[1..];
      BucketMember(key, s[1..], k, x);
    }
  }

  /** A stable sort keeps every element exactly as often as the input has it. */
  lemma StableSortIsPermutation<T>(key: T -> int, s: seq<T>, r: seq<T>)
    requires SameBuckets(key, s, r)
    ensures multiset(s) == multiset(r)
    ensures |s| == |r|
  {
    forall x: T
      ensures multiset(s)[x] == multiset(r)[x]
    {
      BucketMember(key, s, key(x), x);
      BucketMember(key, r, key(x), x);
      assert Bucket(key, s, key(x)) == Bucket(key, r, key(x));
    }
    assert multiset(s) == multiset(r);
    assert |s| == |multiset(s)| && |r| == |multiset(r)|;
  }

  lemma {:induction false} BucketOfLeast<T>(key: T -> int, s: seq<T>, k: int)
    requires Bucket(key, s, k) != []
    ensures exists i :: 0 <= i < |s| && key(s[i]) == k
  {
    if key(s[0]) != k {
      BucketOfLeast(key, s[1..], k);
      var i :| 0 <= i < |s[1..]| && key(s[1..][i]) == k;
      assert key(s[i + 1]) == k;
    }
  }

  /** There is at most one stable sort of a list: any two algorithms that achieve it agree. */
  lemma {:induction false} StableSortUnique<T>(key: T -> int, r: seq<T>, t: seq<T>)
    requires Ordered(key, r) && Ordered(key, t) && SameBuckets(key, r, t)
    ensures r == t
  {
    StableSortIsPermutation(key, r, t);
    if |r| == 0 {
    } else {
      var k := key(r[0]);
      var k' := key(t[0]);
      assert Bucket(key, r, k) == Bucket(key, t, k);
      assert Bucket(key, r, k') == Bucket(key, t, k');
      BucketOfLeast(key, t, k);
      BucketOfLeast(key, r, k');
      assert k == k';
      assert Bucket(key, r, k)[0] == r[0] && Bucket(key, t, k)[0] == t[0];
      forall j
        ensures Bucket(key, r[1..], j) == Bucket(key, t[1..], j)
      {
        assert Bucket(key, r, j) == Bucket(key, t, j);
        if j == k {
          assert Bucket(key, r[1..], j) == Bucket(key, r, j)[1..];
          assert Bucket(key, t[1..], j) == Bucket(key, t, j)[1..];
        }
      }
      StableSortUnique(key, r[1..], t[1..]);
      assert r == [r[0]] + r[1..] && t == [t[0]] + t[1..];
    }
  }

  // ----- merge -----

  function Merge<T>(key: T -> int, left: seq<T>, right: seq<T>): (result: seq<T>)
    decreases |left| + |right|
  {
    if |left| == 0 then right
    else if |right| == 0 then left
    else if key(left[0]) <= key(right[0]) then [left[0]] + Merge(key, left[1..], right)
    else [right[0]] + Merge(key, left, right[1..])
  }

  lemma {:induction false} EmptyBucket<T>(key: T -> int, s: seq<T>, k: int)
    requires forall i :: 0 <= i < |s| ==> key(s[i]) > k
    ensures Bucket(key, s, k) == []
  {
    if |s| == 0 {
    } else {
      EmptyBucket(key, s[1..], k);
    }
  }

  lemma {:induction false} MergeBuckets<T>(key: T -> int, left: seq<T>, right: seq<T>, k: int)
    requires Ordered(key, left)
    ensures Bucket(key, Merge(key, left, right), k) == Bucket(key, left, k) + Bucket(key, right, k)
    decreases |left| + |right|
  {
    if |left| == 0 || |right| == 0 {
    } else if key(left[0]) <= key(right[0]) {
      MergeBuckets(key, left[1..], right, k);
      PushBucket(key, left[0], Merge(key, left[1..], right), k);
      PushBucket(key, left[0], left[1..], k);
      assert left == [left[0]] + left[1..];
      AddFront(if key(left[0]) == k then [left[0]] else [], Bucket(key, left[1..], k), Bucket(key, right, k));
    } else {
      if key(right[0]) == k {
        EmptyBucket(key, left, k);
      }
      MergeBuckets(key, left, right[1..], k);
      PushBucket(key, right[0], Merge(key, left, right[1..]), k);
      PushBucket(key, right[0], right[1..], k);
      assert right == [right[0]] + right[1..];
      PastEmpty(if key(right[0]) == k then [right[0]] else [], Bucket(key, left, k), Bucket(key, right[1..], k));
    }
  }

  lemma AddFront<T>(a: seq<T>, b: seq<T>, c: seq<T>)
    ensures a + (b + c) == (a + b) + c
  {
  }

  lemma PastEmpty<T>(a: seq<T>, b: seq<T>, c: seq<T>)
    requires a == [] || b == []
    ensures a + (b + c) == b + (a + c)
  {
  }

  lemma PushBucket<T>(key: T -> int, x: T, s: seq<T>, k: int)
    ensures Bucket(key, [x] + s, k) == (if key(x) == k then [x] else []) + Bucket(key, s, k)
  {
  }

  lemma {:induction false} MergeBounds<T>(key: T -> int, left: seq<T>, right: seq<T>, lo: int)
    requires forall i :: 0 <= i < |left| ==> lo <= key(left[i])
    requires forall i :: 0 <= i < |right| ==> lo <= key(right[i])
    ensures forall i :: 0 <= i < |Merge(key, left, right)| ==> lo <= key(Merge(key, left, right)[i])
    decreases |left| + |right|
  {
    if |left| == 0 || |right| == 0 {
    } else if key(left[0]) <= key(right[0]) {
      MergeBounds(key, left[1..], right, lo);
    } else {
      MergeBounds(key, left, right[1..], lo);
    }
  }

  lemma {:induction false} MergeOrdered<T>(key: T -> int, left: seq<T>, right: seq<T>)
    requires Ordered(key, left) && Ordered(key, right)
    ensures Ordered(key, Merge(key, left, right))
    decreases |left| + |right|
  {
    if |left| == 0 || |right| == 0 {
    } else if key(left[0]) <= key(right[0]) {
      MergeOrdered(key, left[1..], right);
      MergeBounds(key, left[1..], right, key(left[0]));
    } else {
      MergeOrdered(key, left, right[1..]);
      MergeBounds(key, left, right[1..], key(right[0]));
    }
  }

  /** merge: on sorted inputs, the stable sort of the concatenation. */
  lemma MergeIsStableSort<T>(key: T -> int, left: seq<T>, right: seq<T>)
    requires Ordered(key, left) && Ordered(key, right)
    ensures StableSortOf(key, left + right, Merge(key, left, right))
  {
    MergeOrdered(key, left, right);
    forall k
      ensures Bucket(key, left + right, k) == Bucket(key, Merge(key, left, right), k)
    {
      MergeBuckets(key, left, right, k);
      BucketConcat(key, left, right, k);
    }
  }

  lemma {:induction false} MergeLength<T>(key: T -> int, left: seq<T>, right: seq<T>)
    ensures |Merge(key, left, right)| == |left| + |right|
    decreases |left| + |right|
  {
    if |left| == 0 || |right| == 0 {
    } else if key(left[0]) <= key(right[0]) {
      MergeLength(key, left[1..], right);
    } else {
      MergeLength(key, left, right[1..]);
    }
  }

  // ----- merge_sort -----

  /** merge_sort: the left half has floor(n/2) elements. */
  function MergeSort<T>(key: T -> int, arr: seq<T>): (result: seq<T>)
    decreases |arr|
  {
    if |arr| <= 1 then arr
    else
      var mid := |arr| / 2;
      Merge(key, MergeSort(key, arr[..mid]), MergeSort(key, arr[mid..]))
  }

  /** merge_sort returns the stable sort of its argument. */
  lemma {:induction false} MergeSortIsStableSort<T>(key: T -> int, arr: seq<T>)
    ensures StableSortOf(key, arr, MergeSort(key, arr))
    decreases |arr|
  {
    if |arr| <= 1 {
    } else {
      var mid := |arr| / 2;
      var left, right := arr[..mid], arr[mid..];
      MergeSortIsStableSort(key, left);
      MergeSortIsStableSort(key, right);
      SplitAnywhere(key, left, right, MergeSort(key, left), MergeSort(key, right));
      assert arr == left + right;
    }
  }

  lemma SplitAnywhere<T>(key: T -> int, a: seq<T>, b: seq<T>, sa: seq<T>, sb: seq<T>)
    requires StableSortOf(key, a, sa) && StableSortOf(key, b, sb)
    ensures StableSortOf(key, a + b, Merge(key, sa, sb))
  {
    MergeIsStableSort(key, sa, sb);
    forall k
      ensures Bucket(key, a + b, k) == Bucket(key, Merge(key, sa, sb), k)
    {
      BucketConcat(key, a, b, k);
      BucketConcat(key, sa, sb, k);
      assert Bucket(key, sa + sb, k) == Bucket(key, Merge(key, sa, sb), k);
    }
  }

  /** Wherever a list is cut, sorting the parts and merging them gives what merge_sort gives for
      the whole. The two versions in the file cut at different places and still agree. */
  lemma MergeSortSplitsAnywhere<T>(key: T -> int, a: seq<T>, b: seq<T>)
    ensures Merge(key, MergeSort(key, a), MergeSort(key, b)) == MergeSort(key, a + b)
  {
    MergeSortIsStableSort(key, a);
    MergeSortIsStableSort(key, b);
    MergeSortIsStableSort(key, a + b);
    SplitAnywhere(key, a, b, MergeSort(key, a), MergeSort(key, b));
    StableSortUnique(key, Merge(key, MergeSort(key, a), MergeSort(key, b)), MergeSort(key, a + b));
  }

  /** A list is a stable sort of another exactly when it is what merge_sort returns. */
  lemma StableSortIffMergeSort<T>(key: T -> int, s: seq<T>, r: seq<T>)
    ensures StableSortOf(key, s, r) <==> r == MergeSort(key, s)
  {
    MergeSortIsStableSort(key, s);
    if StableSortOf(key, s, r) {
      StableSortUnique(key, r, MergeSort(key, s));
    }
  }

  // ----- Number of comparisons -----

  function MergeComparisons<T>(key: T -> int, left: seq<T>, right: seq<T>): nat
    decreases |left| + |right|
  {
    if |left| == 0 || |right| == 0 then 0
    else if key(left[0]) <= key(right[0]) then 1 + MergeComparisons(key, left[1..], right)
    else 1 + MergeComparisons(key, left, right[1..])
  }

  /** How many comparisons merge_sort makes. */
  function SortComparisons<T>(key: T -> int, arr: seq<T>): nat
    decreases |arr|
  {
    if |arr| <= 1 then 0
    else
      var left, right := arr[..|arr| / 2], arr[|arr| / 2..];
      SortComparisons(key, left) + SortComparisons(key, right)
      + MergeComparisons(key, MergeSort(key, left), MergeSort(key, right))
  }

  function Pow2(n: nat): nat {
    if n == 0 then 1 else 2 * Pow2(n - 1)
  }

  /** The least c with n <= 2^c. */
  function CeilLog2(n: nat): nat {
    if n <= 1 then 0 else 1 + CeilLog2((n + 1) / 2)
  }

  lemma {:induction false} CeilLog2Exact(n: nat)
    requires n > 0
    ensures n <= Pow2(CeilLog2(n))
    ensures n > 1 ==> Pow2(CeilLog2(n) - 1) < n
  {
    if n <= 1 {
    } else {
      CeilLog2Exact((n + 1) / 2);
    }
  }

  /** n * ceil(log2 n) - 2^ceil(log2 n) + 1, the worst case of merge sort on n elements
      (MergeSortList, WorstCaseAttained). */
  function SortBound(n: nat): int {
    n * CeilLog2(n) - Pow2(CeilLog2(n)) + 1
  }

  lemma CeilLog2Halves(h: nat, n: nat)
    requires n >= 2 && (n == 2 * h || n == 2 * h - 1)
    ensures CeilLog2(n) == 1 + CeilLog2(h)
  {
  }

  /** Of two sizes that differ by one, the smaller needs as many levels as the larger, unless it is
      exactly a power of two. */
  lemma SameLevels(a: nat)
    requires a >= 1
    ensures CeilLog2(a) == CeilLog2(a + 1) || (CeilLog2(a) + 1 == CeilLog2(a + 1) && a == Pow2(CeilLog2(a)))
  {
    CeilLog2Exact(a);
    CeilLog2Exact(a + 1);
    LevelsOf(a, CeilLog2(a), CeilLog2(a + 1));
  }

  lemma LevelsOf(a: nat, d: nat, e: nat)
    requires a >= 1 && a <= Pow2(d) && (d > 0 ==> Pow2(d - 1) < a)
    requires a + 1 <= Pow2(e) && (e > 0 ==> Pow2(e - 1) <= a)
    ensures d == e || (d + 1 == e && a == Pow2(d))
  {
    if e < d {
      Pow2Order(e, d - 1);
    } else if d < e {
      Pow2Order(d, e - 1);
      if d + 1 < e {
        Pow2Order(d + 1, e - 1);
      }
    }
  }

  lemma {:induction false} Pow2Order(a: nat, b: nat)
    requires a <= b
    ensures 1 <= Pow2(a) <= Pow2(b)
  {
    if b == 0 {
    } else {
      Pow2Order(if a > 0 then a - 1 else 0, b - 1);
    }
  }

  lemma SortBoundStep(a: nat, b: nat)
    requires 1 <= a <= b <= a + 1
    ensures SortBound(a) + SortBound(b) + a + b - 1 == SortBound(a + b)
  {
    var c := CeilLog2(b);
    SameLevels(a);
    CeilLog2Halves(b, a + b);
    if CeilLog2(a) != c {
      OneLevelMore(a, CeilLog2(a));
    }
    Distribute(a, b, c);
  }

  lemma OneLevelMore(a: int, d: nat)
    requires a == Pow2(d)
    ensures a * d - Pow2(d) == a * (d + 1) - Pow2(d + 1)
  {
  }

  lemma Distribute(a: int, b: int, c: int)
    ensures (a + b) * (c + 1) == a * c + b * c + a + b
  {
  }

  lemma SortBoundBelowNLogN(n: nat)
    ensures 0 <= SortBound(n) <= n * CeilLog2(n)
    decreases n
  {
    if n >= 2 {
      SortBoundStep(n / 2, n - n / 2);
      SortBoundBelowNLogN(n / 2);
      SortBoundBelowNLogN(n - n / 2);
    }
    Pow2Order(0, CeilLog2(n));
  }

  // ----- The worst case -----

  function Evens<T>(s: seq<T>): seq<T> {
    if |s| == 0 then [] else [s[0]] + Odds(s[1..])
  }

  function Odds<T>(s: seq<T>): seq<T> {
    if |s| == 0 then [] else Evens(s[1..])
  }

  lemma {:induction false} OddsEvensLength<T>(s: seq<T>)
    ensures |Odds(s)| == |s| / 2 && |Evens(s)| == (|s| + 1) / 2
  {
    if |s| == 0 {
    } else {
      OddsEvensLength(s[1..]);
    }
  }

  /** The elements of s in an order in which every merge of the sort has to compare to the end. */
  function Worst<T>(s: seq<T>): seq<T>
    decreases |s|
  {
    OddsEvensLength(s);
    if |s| <= 1 then s else Worst(Odds(s)) + Worst(Evens(s))
  }

  ghost predicate Increasing<T>(key: T -> int, s: seq<T>) {
    forall i, j :: 0 <= i < j < |s| ==> key(s[i]) < key(s[j])
  }

  lemma {:induction false} OddsEvensFrom<T>(s: seq<T>, x: T)
    requires x in Odds(s) || x in Evens(s)
    ensures x in s
  {
    if |s| == 0 {
    } else if x != s[0] {
      OddsEvensFrom(s[1..], x);
    }
  }

  lemma {:induction false} OddsEvensIncrease<T>(key: T -> int, s: seq<T>)
    requires Increasing(key, s)
    ensures Increasing(key, Odds(s)) && Increasing(key, Evens(s))
  {
    if |s| == 0 {
    } else {
      OddsEvensIncrease(key, s[1..]);
      forall x | x in Odds(s[1..])
        ensures key(s[0]) < key(x)
      {
        OddsEvensFrom(s[1..], x);
        var i :| 0 <= i < |s[1..]| && s[1..][i] == x;
        assert s[i + 1] == x;
      }
    }
  }

  /** Merging every other element of an increasing list with the rest gives the list back, and takes all
      but one comparison, whichever part comes first. */
  lemma {:induction false} MergeInterleaved<T>(key: T -> int, s: seq<T>)
    requires Increasing(key, s) && |s| > 0
    ensures Merge(key, Odds(s), Evens(s)) == s == Merge(key, Evens(s), Odds(s))
    ensures MergeComparisons(key, Odds(s), Evens(s)) == |s| - 1 == MergeComparisons(key, Evens(s), Odds(s))
  {
    var rest := s[1..];
    assert s == [s[0]] + rest;
    if |s| == 1 {
    } else {
      MergeInterleaved(key, rest);
      assert Odds(s) == Evens(rest) && Evens(s)[1..] == Odds(rest);
      assert Evens(s)[0] == s[0] && Odds(s)[0] == rest[0] == s[1];
    }
  }

  lemma {:induction false} WorstSorts<T>(key: T -> int, s: seq<T>)
    requires Increasing(key, s)
    ensures |Worst(s)| == |s| && MergeSort(key, Worst(s)) == s
    decreases |s|
  {
    if |s| <= 1 {
    } else {
      OddsEvensLength(s);
      OddsEvensIncrease(key, s);
      WorstSorts(key, Odds(s));
      WorstSorts(key, Evens(s));
      WorstHalves(s);
      MergeInterleaved(key, s);
    }
  }

  lemma WorstHalves<T>(s: seq<T>)
    requires |s| > 1 && |Worst(Odds(s))| == |Odds(s)| && |Worst(Evens(s))| == |Evens(s)|
    ensures |Worst(s)| == |s|
    ensures Worst(s)[..|s| / 2] == Worst(Odds(s)) && Worst(s)[|s| / 2..] == Worst(Evens(s))
  {
    OddsEvensLength(s);
  }

  /** The bound is reached: any list of distinct keys can be arranged so that merge_sort makes exactly that
      many comparisons. */
  lemma {:induction false} WorstCaseAttained<T>(key: T -> int, s: seq<T>)
    requires Increasing(key, s) && |s| > 0
    ensures |Worst(s)| == |s| && SortComparisons(key, Worst(s)) == SortBound(|s|)
    decreases |s|
  {
    WorstSorts(key, s);
    if |s| == 1 {
    } else {
      OddsEvensLength(s);
      OddsEvensIncrease(key, s);
      WorstCaseAttained(key, Odds(s));
      WorstCaseAttained(key, Evens(s));
      WorstSorts(key, Odds(s));
      WorstSorts(key, Evens(s));
      WorstHalves(s);
      MergeInterleaved(key, s);
      SortBoundStep(|s| / 2, |s| - |s| / 2);
    }
  }

  // ----- The code -----

  lemma {:induction false} MergeComparisonsBound<T>(key: T -> int, left: seq<T>, right: seq<T>)
    ensures |left| + |right| > 0 ==> MergeComparisons(key, left, right) <= |left| + |right| - 1
    ensures |left| + |right| == 0 ==> MergeComparisons(key, left, right) == 0
    decreases |left| + |right|
  {
    if |left| == 0 || |right| == 0 {
    } else if key(left[0]) <= key(right[0]) {
      MergeComparisonsBound(key, left[1..], right);
    } else {
      MergeComparisonsBound(key, left, right[1..]);
    }
  }

  /** merge_sort never makes more comparisons than the bound. */
  lemma {:induction false} SortComparisonsBound<T>(key: T -> int, arr: seq<T>)
    requires |arr| > 0
    ensures SortComparisons(key, arr) <= SortBound(|arr|)
    decreases |arr|
  {
    if |arr| <= 1 {
    } else {
      var left, right := arr[..|arr| / 2], arr[|arr| / 2..];
      SortComparisonsBound(key, left);
      SortComparisonsBound(key, right);
      SortedLengthSame(key, left);
      SortedLengthSame(key, right);
      MergeComparisonsBound(key, MergeSort(key, left), MergeSort(key, right));
      SortBoundStep(|left|, |right|);
    }
  }

  lemma SortedLengthSame<T>(key: T -> int, arr: seq<T>)
    ensures |MergeSort(key, arr)| == |arr|
  {
    MergeSortIsStableSort(key, arr);
    StableSortIsPermutation(key, arr, MergeSort(key, arr));
  }

  /** How far into either list a merge has got. */
  datatype Cut = Cut(l: nat, r: nat)

  /** `path` is the way a merge takes, one comparison after the other, until a list is used up. */
  ghost predicate MergePath<T>(key: T -> int, left: seq<T>, right: seq<T>, merged: seq<T>, path: seq<Cut>) {
    && |merged| == |left| + |right| && |path| > 0 && path[0] == Cut(0, 0)
    && (forall t :: 0 <= t < |path| ==> path[t].l <= |left| && path[t].r <= |right| && path[t].l + path[t].r == t)
    && (forall t {:trigger Taken(key, left, right, merged, path, t)} :: 0 <= t < |path| - 1 ==>
          Taken(key, left, right, merged, path, t))
    && LeftOver(left, right, merged, path[|path| - 1])
  }

  ghost predicate Taken<T>(key: T -> int, left: seq<T>, right: seq<T>, merged: seq<T>, path: seq<Cut>, t: nat)
    requires t + 1 < |path| && |merged| == |left| + |right|
    requires path[t].l <= |left| && path[t].r <= |right| && path[t].l + path[t].r == t
  {
    var l, r := path[t].l, path[t].r;
    && l < |left| && r < |right|
    && if key(left[l]) <= key(right[r]) then merged[t] == left[l] && path[t + 1] == Cut(l + 1, r)
    else merged[t] == right[r] && path[t + 1] == Cut(l, r + 1)
  }

  /** At the end of the path one list is used up, and the rest of the other is the rest of the result. */
  ghost predicate LeftOver<T>(left: seq<T>, right: seq<T>, merged: seq<T>, cut: Cut)
    requires |merged| == |left| + |right| && cut.l <= |left| && cut.r <= |right|
  {
    && (cut.l == |left| || cut.r == |right|)
    && (|merged| > 0 ==> cut.l < |left| || cut.r < |right|)
    && (forall m :: cut.l + cut.r <= m < |left| + cut.r ==> merged[m] == left[m - cut.r])
    && (forall m :: |left| + cut.r <= m < |merged| ==> merged[m] == right[m - |left|])
  }

  lemma {:induction false} MergeHasPath<T>(key: T -> int, left: seq<T>, right: seq<T>) returns (path: seq<Cut>)
    ensures MergePath(key, left, right, Merge(key, left, right), path)
    ensures |path| - 1 == MergeComparisons(key, left, right)
    decreases |left| + |right|
  {
    if |left| == 0 || |right| == 0 {
      path := [Cut(0, 0)];
    } else if key(left[0]) <= key(right[0]) {
      var rest := MergeHasPath(key, left[1..], right);
      path := [Cut(0, 0)] + Shifted(rest, 1, 0);
      LeftFirst(key, left, right, Merge(key, left[1..], right), rest);
    } else {
      var rest := MergeHasPath(key, left, right[1..]);
      path := [Cut(0, 0)] + Shifted(rest, 0, 1);
      RightFirst(key, left, right, Merge(key, left, right[1..]), rest);
    }
  }

  function Shifted(path: seq<Cut>, l: nat, r: nat): (shifted: seq<Cut>)
    ensures |shifted| == |path|
    ensures forall t :: 0 <= t < |path| ==> shifted[t] == Cut(path[t].l + l, path[t].r + r)
  {
    seq(|path|, t requires 0 <= t < |path| => Cut(path[t].l + l, path[t].r + r))
  }

  /** The head of either list in front, and the way of the rest behind. */
  lemma LeftFirst<T>(key: T -> int, left: seq<T>, right: seq<T>, merged: seq<T>, rest: seq<Cut>)
    requires |left| > 0 && |right| > 0 && key(left[0]) <= key(right[0])
    requires MergePath(key, left[1..], right, merged, rest)
    ensures MergePath(key, left, right, [left[0]] + merged, [Cut(0, 0)] + Shifted(rest, 1, 0))
  {
    var all, path := [left[0]] + merged, [Cut(0, 0)] + Shifted(rest, 1, 0);
    forall t | 0 <= t < |path| - 1
      ensures Taken(key, left, right, all, path, t)
    {
      if t > 0 {
        LeftLater(key, left, right, merged, rest, t - 1);
      }
    }
    LeftEnds(left, right, merged, rest[|rest| - 1]);
  }

  lemma LeftLater<T>(key: T -> int, left: seq<T>, right: seq<T>, merged: seq<T>, rest: seq<Cut>, t: nat)
    requires |left| > 0 && t + 1 < |rest| && |merged| == |left| - 1 + |right|
    requires rest[t].l <= |left| - 1 && rest[t].r <= |right| && rest[t].l + rest[t].r == t
    requires Taken(key, left[1..], right, merged, rest, t)
    ensures Taken(key, left, right, [left[0]] + merged, [Cut(0, 0)] + Shifted(rest, 1, 0), t + 1)
  {
  }

  lemma LeftEnds<T>(left: seq<T>, right: seq<T>, merged: seq<T>, cut: Cut)
    requires |left| > 0 && |merged| == |left| - 1 + |right| && cut.l <= |left| - 1 && cut.r <= |right|
    requires |right| > 0 && LeftOver(left[1..], right, merged, cut)
    ensures LeftOver(left, right, [left[0]] + merged, Cut(cut.l + 1, cut.r))
  {
  }

  lemma RightFirst<T>(key: T -> int, left: seq<T>, right: seq<T>, merged: seq<T>, rest: seq<Cut>)
    requires |left| > 0 && |right| > 0 && key(left[0]) > key(right[0])
    requires MergePath(key, left, right[1..], merged, rest)
    ensures MergePath(key, left, right, [right[0]] + merged, [Cut(0, 0)] + Shifted(rest, 0, 1))
  {
    var all, path := [right[0]] + merged, [Cut(0, 0)] + Shifted(rest, 0, 1);
    forall t | 0 <= t < |path| - 1
      ensures Taken(key, left, right, all, path, t)
    {
      if t > 0 {
        RightLater(key, left, right, merged, rest, t - 1);
      }
    }
    RightEnds(left, right, merged, rest[|rest| - 1]);
  }

  lemma RightLater<T>(key: T -> int, left: seq<T>, right: seq<T>, merged: seq<T>, rest: seq<Cut>, t: nat)
    requires |right| > 0 && t + 1 < |rest| && |merged| == |left| + |right| - 1
    requires rest[t].l <= |left| && rest[t].r <= |right| - 1 && rest[t].l + rest[t].r == t
    requires Taken(key, left, right[1..], merged, rest, t)
    ensures Taken(key, left, right, [right[0]] + merged, [Cut(0, 0)] + Shifted(rest, 0, 1), t + 1)
  {
  }

  lemma RightEnds<T>(left: seq<T>, right: seq<T>, merged: seq<T>, cut: Cut)
    requires |right| > 0 && |merged| == |left| + |right| - 1 && cut.l <= |left| && cut.r <= |right| - 1
    requires |left| > 0 && LeftOver(left, right[1..], merged, cut)
    ensures LeftOver(left, right, [right[0]] + merged, Cut(cut.l, cut.r + 1))
  {
  }

  /** merge: two index loops appending to `result`. */
  method MergeLists<T>(key: T -> int, left: seq<T>, right: seq<T>) returns (result: seq<T>, comparisons: nat)
    ensures result == Merge(key, left, right)
    ensures comparisons == MergeComparisons(key, left, right)
    ensures |left| + |right| > 0 ==> comparisons <= |left| + |right| - 1
  {
    MergeComparisonsBound(key, left, right);
    ghost var merged := Merge(key, left, right);
    ghost var path := MergeHasPath(key, left, right);
    result, comparisons := MergeAlong(key, left, right, merged, path);
  }

  method MergeAlong<T>(key: T -> int, left: seq<T>, right: seq<T>, ghost merged: seq<T>, ghost path: seq<Cut>)
    returns (result: seq<T>, comparisons: nat)
    requires MergePath(key, left, right, merged, path)
    ensures result == merged && comparisons == |path| - 1
    ensures |left| + |right| > 0 ==> comparisons <= |left| + |right| - 1
  {
    result, comparisons := [], 0;
    var i, j := 0, 0;
    while i < |left| && j < |right|
      invariant comparisons < |path| && Cut(i, j) == path[comparisons]
      invariant result == merged[..comparisons]
    {
      assert comparisons < |path| - 1 && Taken(key, left, right, merged, path, comparisons);
      if key(left[i]) <= key(right[j]) {
        result := result + [left[i]];
        i := i + 1;
      } else {
        result := result + [right[j]];
        j := j + 1;
      }
      comparisons := comparisons + 1;
    }
    assert comparisons < |path| - 1 ==> Taken(key, left, right, merged, path, comparisons);
    assert LeftOver(left, right, merged, Cut(i, j));
    result := result + left[i..];
    result := result + right[j..];
  }

  /** merge_sort: what it returns, and at most n * ceil(log2 n) comparisons on the way. */
  method MergeSortList<T>(key: T -> int, arr: seq<T>) returns (sorted: seq<T>, comparisons: nat)
    ensures sorted == MergeSort(key, arr) && StableSortOf(key, arr, sorted)
    ensures comparisons == SortComparisons(key, arr) <= |arr| * CeilLog2(|arr|)
    ensures |arr| > 0 ==> comparisons <= SortBound(|arr|)
    decreases |arr|
  {
    MergeSortIsStableSort(key, arr);
    SortBoundBelowNLogN(|arr|);
    if |arr| <= 1 {
      return arr, 0;
    }
    SortComparisonsBound(key, arr);
    var mid := |arr| / 2;
    var left, c0 := MergeSortList(key, arr[..mid]);
    var right, c1 := MergeSortList(key, arr[mid..]);
    var c2;
    sorted, c2 := MergeLists(key, left, right);
    comparisons := c0 + c1 + c2;
  }

  /** `now` differs from `was` at most in the cells from `start` to `end`, both included. */
  ghost predicate OnlyCells<T>(was: seq<T>, now: seq<T>, start: nat, end: int) {
    && start <= end + 1 <= |was| == |now|
    && forall m :: 0 <= m < |was| && (m < start || end < m) ==> now[m] == was[m]
  }

  ghost predicate MergesCells<T>(key: T -> int, was: seq<T>, now: seq<T>, start: nat, mid: nat, end: nat) {
    && start <= mid < end
    && OnlyCells(was, now, start, end)
    && now[start..end + 1] == Merge(key, was[start..mid + 1], was[mid + 1..end + 1])
  }

  ghost predicate SortsCells<T>(key: T -> int, was: seq<T>, now: seq<T>, start: nat, end: int) {
    && OnlyCells(was, now, start, end)
    && StableSortOf(key, was[start..end + 1], now[start..end + 1])
  }

  lemma CellsKept<T>(was: seq<T>, now: seq<T>, start: nat, end: int, lo: nat, hi: nat)
    requires OnlyCells(was, now, start, end)
    requires lo <= hi <= |was| && (hi <= start || end < lo)
    ensures was[lo..hi] == now[lo..hi]
  {
  }

  lemma SortsHalves<T>(key: T -> int, was: seq<T>, half: seq<T>, both: seq<T>, now: seq<T>,
                       start: nat, mid: nat, end: nat)
    requires start <= mid < end
    requires SortsCells(key, was, half, start, mid)
    requires SortsCells(key, half, both, mid + 1, end)
    requires MergesCells(key, both, now, start, mid, end)
    ensures SortsCells(key, was, now, start, end)
  {
    var a, b := was[start..mid + 1], was[mid + 1..end + 1];
    CellsKept(half, both, mid + 1, end, start, mid + 1);
    CellsKept(was, half, start, mid, mid + 1, end + 1);
    JoinCells(was, start, mid + 1, end + 1);
    SplitAnywhere(key, a, b, both[start..mid + 1], both[mid + 1..end + 1]);
  }

  lemma NothingToSort<T>(key: T -> int, was: seq<T>, start: nat, end: int)
    requires start <= end + 1 <= |was| && start >= end
    ensures SortsCells(key, was, was, start, end)
  {
  }

  lemma JoinCells<T>(s: seq<T>, lo: nat, mid: nat, hi: nat)
    requires lo <= mid <= hi <= |s|
    ensures s[lo..mid] + s[mid..hi] == s[lo..hi]
  {
  }

  lemma Cells<T>(s: seq<T>, lo: nat, hi: nat) returns (t: seq<T>)
    requires lo <= hi <= |s|
    ensures |t| == hi - lo
    ensures forall m :: lo <= m < hi ==> s[m] == t[m - lo]
  {
    t := s[lo..hi];
  }

  ghost predicate Holds<T>(s: seq<T>, lo: nat, t: seq<T>) {
    lo + |t| <= |s| && forall m :: lo <= m < lo + |t| ==> s[m] == t[m - lo]
  }

  lemma MergesCellsIntro<T>(key: T -> int, was: seq<T>, now: seq<T>, start: nat, mid: nat, end: nat,
                            left: seq<T>, right: seq<T>)
    requires start <= mid < end && OnlyCells(was, now, start, end)
    requires |left| == mid + 1 - start && Holds(was, start, left)
    requires |right| == end - mid && Holds(was, mid + 1, right)
    requires |Merge(key, left, right)| == |left| + |right| && Holds(now, start, Merge(key, left, right))
    ensures MergesCells(key, was, now, start, mid, end)
    ensures left == was[start..mid + 1] && right == was[mid + 1..end + 1]
  {
    assert left == was[start..mid + 1] && right == was[mid + 1..end + 1];
    var merged := Merge(key, left, right);
    assert merged == now[start..end + 1];
  }

  /** The first loop of merge_inplace: arr[start..end] is copied to the same cells of temp. */
  method CopyCells<T>(arr: array<T>, temp: array<T>, start: nat, end: nat)
    requires arr != temp
    requires start <= end < arr.Length <= temp.Length
    modifies temp
    ensures forall m :: start <= m <= end ==> temp[m] == arr[m]
  {
    for n := start to end + 1
      invariant forall m :: start <= m < n ==> temp[m] == arr[m]
    {
      temp[n] := arr[n];
    }
  }

  /** The two trailing loops of merge_inplace: temp[i..last] moves to arr[k..]. */
  method MoveRest<T>(arr: array<T>, temp: array<T>, i: nat, last: nat, k: nat)
    requires arr != temp
    requires i <= last + 1 <= temp.Length && k + last + 1 - i <= arr.Length
    modifies arr
    ensures forall m :: k <= m < k + last + 1 - i ==> arr[m] == temp[m - k + i]
    ensures forall m :: 0 <= m < arr.Length && (m < k || k + last + 1 - i <= m) ==> arr[m] == old(arr[m])
  {
    var n, to := i, k;
    while n <= last
      invariant i <= n <= last + 1 && to - k == n - i
      invariant forall m :: k <= m < to ==> arr[m] == temp[m - k + i]
      invariant forall m :: 0 <= m < arr.Length && (m < k || to <= m) ==> arr[m] == old(arr[m])
    {
      arr[to] := temp[n];
      n := n + 1;
      to := to + 1;
    }
  }

  /** The merging loop of merge_inplace: it ends with one of the two runs in temp used up. */
  method MergeHeads<T>(key: T -> int, arr: array<T>, temp: array<T>, start: nat, mid: nat, end: nat,
                       ghost left: seq<T>, ghost right: seq<T>, ghost merged: seq<T>, ghost path: seq<Cut>)
    returns (i: nat, j: nat, k: nat, comparisons: nat)
    requires arr != temp
    requires start <= mid < end < arr.Length <= temp.Length
    requires |left| == mid + 1 - start && forall m :: start <= m <= mid ==> temp[m] == left[m - start]
    requires |right| == end - mid && forall m :: mid < m <= end ==> temp[m] == right[m - mid - 1]
    requires MergePath(key, left, right, merged, path)
    modifies arr
    ensures start <= i <= mid + 1 <= j <= end + 1 && k == i + j - mid - 1 && (i == mid + 1 || j == end + 1)
    ensures comparisons == k - start == |path| - 1 && comparisons <= end - start && |merged| == end + 1 - start
    ensures forall m :: start <= m < k ==> arr[m] == merged[m - start]
    ensures forall m :: i <= m <= mid ==> temp[m] == merged[m - i + k - start]
    ensures forall m :: j <= m <= end ==> temp[m] == merged[m - start]
    ensures forall m :: 0 <= m < arr.Length && (m < start || end < m) ==> arr[m] == old(arr[m])
  {
    i, j, k, comparisons := start, mid + 1, start, 0;
    while i <= mid && j <= end
      invariant start <= i <= mid + 1 <= j <= end + 1 && k == start + comparisons && comparisons < |path|
      invariant path[comparisons] == Cut(i - start, j - mid - 1)
      invariant forall m :: start <= m < k ==> arr[m] == merged[m - start]
      invariant forall m :: 0 <= m < arr.Length && (m < start || end < m) ==> arr[m] == old(arr[m])
    {
      assert comparisons < |path| - 1 && Taken(key, left, right, merged, path, comparisons);
      if key(temp[i]) <= key(temp[j]) {
        arr[k] := temp[i];
        i := i + 1;
      } else {
        arr[k] := temp[j];
        j := j + 1;
      }
      k := k + 1;
      comparisons := comparisons + 1;
    }
    assert comparisons < |path| - 1 ==> Taken(key, left, right, merged, path, comparisons);
    assert LeftOver(left, right, merged, Cut(i - start, j - mid - 1));
    assert k + mid + 1 - i == j;
  }

  /** All of merge_inplace after the copy. */
  method PlaceMerged<T>(key: T -> int, arr: array<T>, temp: array<T>, start: nat, mid: nat, end: nat,
                       ghost left: seq<T>, ghost right: seq<T>, ghost merged: seq<T>, ghost path: seq<Cut>)
    returns (comparisons: nat)
    requires arr != temp
    requires start <= mid < end < arr.Length <= temp.Length
    requires |left| == mid + 1 - start && forall m :: start <= m <= mid ==> temp[m] == left[m - start]
    requires |right| == end - mid && forall m :: mid < m <= end ==> temp[m] == right[m - mid - 1]
    requires MergePath(key, left, right, merged, path)
    modifies arr
    ensures OnlyCells(old(arr[..]), arr[..], start, end)
    ensures Holds(arr[..], start, merged)
    ensures comparisons == |path| - 1 <= end - start
  {
    var i, j, k;
    i, j, k, comparisons := MergeHeads(key, arr, temp, start, mid, end, left, right, merged, path);
    MoveRest(arr, temp, i, mid, k);
    assert forall m :: start <= m < j ==> arr[m] == merged[m - start];
    MoveRest(arr, temp, j, end, j);
  }

  /** merge_inplace: merges arr[start..mid] and arr[mid+1..end] (both ends included) through temp. */
  method MergeInPlace<T>(key: T -> int, arr: array<T>, temp: array<T>, start: nat, mid: nat, end: nat)
    returns (comparisons: nat)
    requires arr != temp
    requires start <= mid < end < arr.Length <= temp.Length
    modifies arr, temp
    ensures MergesCells(key, old(arr[..]), arr[..], start, mid, end)
    ensures comparisons == MergeComparisons(key, old(arr[..])[start..mid + 1], old(arr[..])[mid + 1..end + 1]) <= end - start
  {
    ghost var was := arr[..];
    CopyCells(arr, temp, start, end);
    ghost var left := Cells(was, start, mid + 1);
    ghost var right := Cells(was, mid + 1, end + 1);
    ghost var merged := Merge(key, left, right);
    ghost var path := MergeHasPath(key, left, right);
    comparisons := PlaceMerged(key, arr, temp, start, mid, end, left, right, merged, path);
    MergesCellsIntro(key, was, arr[..], start, mid, end, left, right);
  }

  /** merge_sort_inplace on arr[start..end], both ends included; the left half has ceil(n/2)
      elements. The cells end up as their stable sort, which by StableSortIffMergeSort is what
      merge_sort returns for them, whatever temp held, within the same number of comparisons. */
  method MergeSortInPlace<T>(key: T -> int, arr: array<T>, temp: array<T>, start: nat, end: int)
    returns (comparisons: nat)
    requires arr != temp
    requires start < end ==> end < arr.Length <= temp.Length
    modifies arr, temp
    ensures start >= end ==> arr[..] == old(arr[..]) && comparisons == 0
    ensures start < end ==> SortsCells(key, old(arr[..]), arr[..], start, end)
    ensures start < end ==> comparisons <= SortBound(end + 1 - start)
    decreases end + 1 - start
  {
    if start >= end {
      return 0;
    }
    var mid := (start + end) / 2;
    var c0 := MergeSortInPlace(key, arr, temp, start, mid);
    ghost var half := arr[..];
    var c1 := MergeSortInPlace(key, arr, temp, mid + 1, end);
    ghost var both := arr[..];
    SortedPart(key, old(arr[..]), half, start, mid);
    SortedPart(key, half, both, mid + 1, end);
    var c2 := MergeInPlace(key, arr, temp, start, mid, end);
    SortsHalves(key, old(arr[..]), half, both, arr[..], start, mid, end);
    HalvesBound(start, mid, end, c0, c1, c2);
    comparisons := c0 + c1 + c2;
  }

  lemma HalvesBound(start: nat, mid: nat, end: nat, c0: int, c1: int, c2: int)
    requires start < end && mid == (start + end) / 2
    requires if start < mid then c0 <= SortBound(mid + 1 - start) else c0 == 0
    requires if mid + 1 < end then c1 <= SortBound(end - mid) else c1 == 0
    requires c2 <= end - start
    ensures c0 + c1 + c2 <= SortBound(end + 1 - start)
  {
    SortBoundStep(end - mid, mid + 1 - start);
  }

  lemma SortedPart<T>(key: T -> int, was: seq<T>, now: seq<T>, start: nat, end: int)
    requires start <= end < |was|
    requires if start < end then SortsCells(key, was, now, start, end) else now == was
    ensures SortsCells(key, was, now, start, end)
  {
    if start == end {
      NothingToSort(key, was, start, end);
    }
  }

  /** merge_sort_inplace with its default arguments: `temp` is allocated and filled with one value. */
  method MergeSortWholeArray<T>(key: T -> int, arr: array<T>, filler: T)
    modifies arr
    ensures arr[..] == MergeSort(key, old(arr[..]))
    ensures StableSortOf(key, old(arr[..]), arr[..])
    ensures multiset(arr[..]) == multiset(old(arr[..]))
  {
    ghost var was := arr[..];
    var temp := new T[arr.Length](_ => filler);
    var _ := MergeSortInPlace(key, arr, temp, 0, arr.Length - 1);
    if arr.Length <= 1 {
      NothingToSort(key, was, 0, arr.Length - 1);
    }
    assert arr[..][0..arr.Length] == arr[..] && was[0..arr.Length] == was;
    StableSortIffMergeSort(key, was, arr[..]);
    StableSortIsPermutation(key, was, arr[..]);
  }
}
