/** quicksort.py and quick_sort.py, which hold the same algorithm twice: the list-building quicksort
    and the in-place one with Lomuto's partition. */
module QuickSorting {
  import opened MergeSorting

  function Self(x: int): int { x }

  // ----- Sorting integers: order and multiset decide everything -----

  lemma {:induction false} IntBucket(s: seq<int>, k: int)
    ensures Bucket(Self, s, k) == seq(multiset(s)[k], _ => k)
  {
    if |s| == 0 {
    } else {
      assert s == [s[0]] + s[1..];
      IntBucket(s[1..], k);
    }
  }

  /** On integers every sorted permutation is what merge_sort returns. */
  lemma SortedPermutationIsMergeSort(s: seq<int>, r: seq<int>)
    requires Ordered(Self, r) && multiset(r) == multiset(s)
    ensures r == MergeSort(Self, s)
  {
    forall k
      ensures Bucket(Self, s, k) == Bucket(Self, r, k)
    {
      IntBucket(s, k);
      IntBucket(r, k);
    }
    StableSortIffMergeSort(Self, s, r);
  }

  lemma SortedFacts(s: seq<int>)
    ensures Ordered(Self, MergeSort(Self, s)) && multiset(MergeSort(Self, s)) == multiset(s)
  {
    MergeSortIsStableSort(Self, s);
    StableSortIsPermutation(Self, s, MergeSort(Self, s));
  }

  lemma SortIgnoresOrder(s: seq<int>, t: seq<int>)
    requires multiset(s) == multiset(t)
    ensures MergeSort(Self, s) == MergeSort(Self, t)
  {
    SortedFacts(s);
    SortedPermutationIsMergeSort(t, MergeSort(Self, s));
  }

  ghost predicate AllAtMost(a: seq<int>, b: seq<int>) {
    forall x, y :: x in a && y in b ==> x <= y
  }

  lemma OrderedConcat(a: seq<int>, b: seq<int>)
    requires Ordered(Self, a) && Ordered(Self, b) && AllAtMost(a, b)
    ensures Ordered(Self, a + b)
  {
    var s := a + b;
    forall i, j | 0 <= i < j < |s|
      ensures Self(s[i]) <= Self(s[j])
    {
      if j < |a| {
        assert Self(a[i]) <= Self(a[j]);
      } else if i < |a| {
        assert a[i] in a && b[j - |a|] in b;
      } else {
        assert Self(b[i - |a|]) <= Self(b[j - |a|]);
      }
    }
  }

  lemma SameMembers(a: seq<int>, b: seq<int>)
    requires multiset(a) == multiset(b)
    ensures forall x :: x in a <==> x in b
  {
    forall x
      ensures x in a <==> x in b
    {
      assert x in a <==> x in multiset(a);
      assert x in b <==> x in multiset(b);
    }
  }

  /** Sorting three blocks that are already in order among themselves. */
  lemma BlocksSort(a: seq<int>, b: seq<int>, c: seq<int>)
    requires AllAtMost(a, b) && AllAtMost(b, c) && AllAtMost(a, c) && Ordered(Self, b)
    ensures MergeSort(Self, a + b + c) == MergeSort(Self, a) + b + MergeSort(Self, c)
  {
    var sa, sc := MergeSort(Self, a), MergeSort(Self, c);
    SortedFacts(a);
    SortedFacts(c);
    SameMembers(a, sa);
    SameMembers(c, sc);
    OrderedConcat(sa, b);
    OrderedConcat(sa + b, sc);
    SortedPermutationIsMergeSort(a + b + c, sa + b + sc);
  }

  // ----- quicksort, building new lists -----

  datatype Side = Less | Equal | Greater

  predicate On(side: Side, x: int, pivot: int) {
    match side
    case Less => x < pivot
    case Equal => x == pivot
    case Greater => x > pivot
  }

  /** The elements on one side of the pivot, in the same order. */
  function Select(arr: seq<int>, side: Side, pivot: int): (chosen: seq<int>)
    ensures |chosen| <= |arr|
    ensures (exists i :: 0 <= i < |arr| && !On(side, arr[i], pivot)) ==> |chosen| < |arr|
  {
    if |arr| == 0 then []
    else if On(side, arr[0], pivot) then [arr[0]] + Select(arr[1..], side, pivot)
    else
      Select(arr[1..], side, pivot)
  }

  lemma {:induction false} SelectMember(arr: seq<int>, side: Side, pivot: int, x: int)
    ensures multiset(Select(arr, side, pivot))[x] == if On(side, x, pivot) then multiset(arr)[x] else 0
  {
    if |arr| == 0 {
    } else {
      assert arr == [arr[0]] + arr[1..];
      SelectMember(arr[1..], side, pivot, x);
    }
  }

  /** quicksort: the pivot is the middle element. */
  function Quicksort(arr: seq<int>): seq<int>
    decreases |arr|
  {
    if |arr| <= 1 then arr
    else
      var pivot := arr[|arr| / 2];
      assert !On(Less, arr[|arr| / 2], pivot) && !On(Greater, arr[|arr| / 2], pivot);
      Quicksort(Select(arr, Less, pivot)) + Select(arr, Equal, pivot) + Quicksort(Select(arr, Greater, pivot))
  }

  lemma Selections(arr: seq<int>, pivot: int)
    ensures var l, m, r := Select(arr, Less, pivot), Select(arr, Equal, pivot), Select(arr, Greater, pivot);
            && multiset(l + m + r) == multiset(arr)
            && (forall x :: x in l ==> x < pivot)
            && (forall x :: x in m ==> x == pivot)
            && (forall x :: x in r ==> x > pivot)
  {
    var l, m, r := Select(arr, Less, pivot), Select(arr, Equal, pivot), Select(arr, Greater, pivot);
    forall x
      ensures multiset(l + m + r)[x] == multiset(arr)[x]
      ensures (x in l ==> x < pivot) && (x in m ==> x == pivot) && (x in r ==> x > pivot)
    {
      SelectMember(arr, Less, pivot, x);
      SelectMember(arr, Equal, pivot, x);
      SelectMember(arr, Greater, pivot, x);
      assert x in l ==> x in multiset(l);
      assert x in m ==> x in multiset(m);
      assert x in r ==> x in multiset(r);
    }
  }

  /** quicksort and merge_sort return the same list. */
  lemma {:induction false} QuicksortIsMergeSort(arr: seq<int>)
    ensures Quicksort(arr) == MergeSort(Self, arr)
    decreases |arr|
  {
    if |arr| <= 1 {
    } else {
      var pivot := arr[|arr| / 2];
      assert !On(Less, arr[|arr| / 2], pivot) && !On(Greater, arr[|arr| / 2], pivot);
      var l, m, r := Select(arr, Less, pivot), Select(arr, Equal, pivot), Select(arr, Greater, pivot);
      QuicksortIsMergeSort(l);
      QuicksortIsMergeSort(r);
      Selections(arr, pivot);
      forall i | 0 <= i < |m|
        ensures m[i] == pivot
      {
        assert m[i] in m;
      }
      BlocksSort(l, m, r);
      SortedFacts(l + m + r);
      SortedPermutationIsMergeSort(arr, MergeSort(Self, l + m + r));
    }
  }

  // ----- In place -----

  /** `now` is `was` with the cells from `low` to `high` (both included) rearranged. */
  ghost predicate RearrangesCells(was: seq<int>, now: seq<int>, low: nat, high: int) {
    OnlyCells(was, now, low, high) && multiset(now) == multiset(was)
  }

  ghost predicate OrderedCells(s: seq<int>, low: nat, high: int) {
    high < |s| && forall i, j :: low <= i <= j <= high ==> s[i] <= s[j]
  }

  lemma CancelParts(p: multiset<int>, a: multiset<int>, b: multiset<int>, q: multiset<int>)
    requires p + a + q == p + b + q
    ensures a == b
  {
    forall x
      ensures a[x] == b[x]
    {
      assert (p + a + q)[x] == (p + b + q)[x];
    }
  }

  lemma RearrangedSlice(was: seq<int>, now: seq<int>, low: nat, high: int)
    requires RearrangesCells(was, now, low, high)
    ensures multiset(now[low..high + 1]) == multiset(was[low..high + 1])
  {
    var n := |was|;
    ThreeParts(was, low, high + 1);
    ThreeParts(now, low, high + 1);
    CellsKept(was, now, low, high, 0, low);
    CellsKept(was, now, low, high, high + 1, n);
    CancelParts(multiset(was[0..low]), multiset(now[low..high + 1]), multiset(was[low..high + 1]), multiset(was[high + 1..n]));
  }

  lemma ThreeParts(s: seq<int>, lo: nat, hi: nat)
    requires lo <= hi <= |s|
    ensures multiset(s) == multiset(s[0..lo]) + multiset(s[lo..hi]) + multiset(s[hi..|s|])
  {
    assert s == s[0..lo] + s[lo..hi] + s[hi..|s|];
  }

  function Swapped(s: seq<int>, i: nat, j: nat): seq<int>
    requires i < |s| && j < |s|
  {
    s[i := s[j]][j := s[i]]
  }

  lemma SwapRearranges(was: seq<int>, s: seq<int>, low: nat, high: nat, i: nat, j: nat)
    requires low <= i <= high && low <= j <= high < |s|
    requires RearrangesCells(was, s, low, high)
    ensures RearrangesCells(was, Swapped(s, i, j), low, high)
  {
  }

  method Swap(arr: array<int>, i: nat, j: nat, ghost was: seq<int>, low: nat, high: nat)
    requires low <= i <= high && low <= j <= high < arr.Length
    requires RearrangesCells(was, arr[..], low, high)
    modifies arr
    ensures arr[i] == old(arr[j]) && arr[j] == old(arr[i])
    ensures forall m :: 0 <= m < arr.Length && m != i && m != j ==> arr[m] == old(arr[m])
    ensures RearrangesCells(was, arr[..], low, high)
  {
    SwapRearranges(was, arr[..], low, high, i, j);
    ghost var swapped := Swapped(arr[..], i, j);
    arr[i], arr[j] := arr[j], arr[i];
    assert arr[..] == swapped;
  }

  /** The pivot, the last of the cells, is in its place, with what is at most it on the left and what is
      more than it on the right; nothing but these cells is rearranged, and ordered cells are left alone. */
  ghost predicate Partitioned(was: seq<int>, now: seq<int>, low: nat, p: nat, high: nat)
    requires high < |was|
  {
    && low <= p <= high && RearrangesCells(was, now, low, high) && now[p] == was[high]
    && (forall m :: low <= m < p ==> now[m] <= now[p])
    && (forall m :: p < m <= high ==> now[m] > now[p])
    && (OrderedCells(was, low, high) ==> p == high && now == was)
  }

  /** partition: Lomuto's scheme around the last element of arr[low..high]. It compares every other
      element with the pivot once. */
  method Partition(arr: array<int>, low: nat, high: nat) returns (p: nat, comparisons: nat)
    requires low <= high < arr.Length
    modifies arr
    ensures Partitioned(old(arr[..]), arr[..], low, p, high) && comparisons == high - low
  {
    ghost var was := arr[..];
    ghost var inOrder := OrderedCells(was, low, high);
    var pivot := arr[high];
    var i: int := low - 1;
    comparisons := 0;
    for j := low to high
      invariant low - 1 <= i < j
      invariant RearrangesCells(was, arr[..], low, high)
      invariant arr[high] == pivot
      invariant forall m :: low <= m <= i ==> arr[m] <= pivot
      invariant forall m :: i < m < j ==> arr[m] > pivot
      invariant comparisons == j - low
      invariant inOrder ==> i == j - 1 && forall m :: 0 <= m < arr.Length ==> arr[m] == was[m]
    {
      comparisons := comparisons + 1;
      if arr[j] <= pivot {
        i := i + 1;
        Swap(arr, i, j, was, low, high);
      }
    }
    Swap(arr, i + 1, high, was, low, high);
    p := i + 1;
  }

  lemma PartitionSides(was: seq<int>, part: seq<int>, low: nat, p: nat, high: nat)
    requires low <= p <= high && RearrangesCells(was, part, low, high)
    ensures multiset(part[low..p] + [part[p]] + part[p + 1..high + 1]) == multiset(was[low..high + 1])
  {
    JoinAround(part, low, p, high + 1);
    RearrangedSlice(was, part, low, high);
  }

  lemma SortedSides(part: seq<int>, half: seq<int>, now: seq<int>, low: nat, p: nat, high: nat)
    requires low <= p <= high && OnlyCells(part, half, low, p as int - 1) && OnlyCells(half, now, p + 1, high)
    ensures part[p + 1..high + 1] == half[p + 1..high + 1]
    ensures now[low..high + 1] == half[low..p] + [part[p]] + now[p + 1..high + 1]
    ensures OnlyCells(part, now, low, high)
  {
    CellsKept(part, half, low, p as int - 1, p + 1, high + 1);
    CellsKept(half, now, p + 1, high, low, p);
    JoinAround(now, low, p, high + 1);
  }

  lemma PartitionedSort(was: seq<int>, part: seq<int>, half: seq<int>, now: seq<int>, low: nat, p: nat, high: nat)
    requires low <= p <= high
    requires RearrangesCells(was, part, low, high)
    requires forall m :: low <= m < p ==> part[m] <= part[p]
    requires forall m :: p < m <= high ==> part[m] > part[p]
    requires SortsCells(Self, part, half, low, p as int - 1)
    requires SortsCells(Self, half, now, p + 1, high)
    ensures SortsCells(Self, was, now, low, high)
  {
    SortedSides(part, half, now, low, p, high);
    PartitionSides(was, part, low, p, high);
    PivotSort(was[low..high + 1], part[low..p], part[p], part[p + 1..high + 1], half[low..p], now[p + 1..high + 1]);
  }

  lemma PivotSort(s: seq<int>, l: seq<int>, v: int, r: seq<int>, x: seq<int>, y: seq<int>)
    requires multiset(l + [v] + r) == multiset(s)
    requires forall m :: 0 <= m < |l| ==> l[m] <= v
    requires forall m :: 0 <= m < |r| ==> r[m] > v
    requires StableSortOf(Self, l, x) && StableSortOf(Self, r, y)
    ensures StableSortOf(Self, s, x + [v] + y)
  {
    StableSortIffMergeSort(Self, l, x);
    StableSortIffMergeSort(Self, r, y);
    BlocksSort(l, [v], r);
    SortedFacts(l + [v] + r);
    SortedPermutationIsMergeSort(s, x + [v] + y);
    StableSortIffMergeSort(Self, s, x + [v] + y);
  }

  lemma JoinAround(s: seq<int>, lo: nat, mid: nat, hi: nat)
    requires lo <= mid < hi <= |s|
    ensures s[lo..hi] == s[lo..mid] + [s[mid]] + s[mid + 1..hi]
  {
  }

  /** The number of pairs among n elements. */
  function Pairs(n: int): (pairs: nat)
  {
    if n <= 0 then 0 else Pairs(n - 1) + (n - 1)
  }

  lemma {:induction false} PairsClosedForm(n: nat)
    ensures 2 * Pairs(n) == n * (n - 1)
  {
    if n == 0 {
    } else {
      PairsClosedForm(n - 1);
    }
  }

  lemma {:induction false} PairsSplit(a: nat, b: nat)
    ensures Pairs(a) + Pairs(b) + a + b <= Pairs(a + b + 1)
  {
    if b == 0 {
    } else {
      PairsSplit(a, b - 1);
    }
  }

  lemma CountStep(low: nat, p: int, high: int, c: int, c0: int, c1: int)
    requires low <= p <= high && c == high - low
    requires c0 <= Pairs(p - 1 + 1 - low) && c1 <= Pairs(high + 1 - (p + 1))
    ensures c + c0 + c1 <= Pairs(high + 1 - low)
    ensures p == high && c0 == Pairs(p - 1 + 1 - low) && c1 >= 0 ==> c + c0 + c1 == Pairs(high + 1 - low)
  {
    PairsSplit(p - low, high - p);
  }

  /** What a call of quicksort_inplace leaves, and how many comparisons it has made. */
  ghost predicate Quicksorted(was: seq<int>, now: seq<int>, low: nat, high: int, comparisons: nat)
    requires low < high ==> high < |was|
  {
    if low >= high then now == was && comparisons == 0
    else
      && SortsCells(Self, was, now, low, high) && comparisons <= Pairs(high + 1 - low)
      && (OrderedCells(was, low, high) ==> comparisons == Pairs(high + 1 - low))
  }

  lemma SideSorted(was: seq<int>, now: seq<int>, low: nat, high: int)
    requires low <= high + 1 <= |was|
    requires if low < high then SortsCells(Self, was, now, low, high) else now == was
    ensures SortsCells(Self, was, now, low, high)
  {
    if low >= high {
      NothingToSort(Self, was, low, high);
    }
  }

  lemma QuicksortCount(was: seq<int>, now: seq<int>, low: nat, high: int, comparisons: nat)
    requires low <= high + 1 <= |was| && Quicksorted(was, now, low, high, comparisons)
    ensures SortsCells(Self, was, now, low, high) && comparisons <= Pairs(high + 1 - low)
    ensures OrderedCells(was, low, high) ==> comparisons == Pairs(high + 1 - low)
  {
    SideSorted(was, now, low, high);
  }

  lemma QuicksortStep(was: seq<int>, part: seq<int>, half: seq<int>, now: seq<int>,
                      low: nat, p: nat, high: nat, c: nat, c0: nat, c1: nat)
    requires low < high < |was| == |part| == |half| && Partitioned(was, part, low, p, high) && c == high - low
    requires Quicksorted(part, half, low, p as int - 1, c0) && Quicksorted(half, now, p + 1, high, c1)
    ensures Quicksorted(was, now, low, high, c + c0 + c1)
  {
    QuicksortCount(part, half, low, p as int - 1, c0);
    QuicksortCount(half, now, p + 1, high, c1);
    PartitionedSort(was, part, half, now, low, p, high);
    CountStep(low, p, high, c, c0, c1);
  }

  /** quicksort_inplace on arr[low..high], both ends included: the cells end up as merge_sort would
      list them, at most n(n-1)/2 comparisons are made, and sorted input attains that bound. */
  method QuicksortInPlace(arr: array<int>, low: nat, high: int) returns (comparisons: nat)
    requires low < high ==> high < arr.Length
    modifies arr
    ensures Quicksorted(old(arr[..]), arr[..], low, high, comparisons)
    decreases high + 1 - low
  {
    if low >= high {
      return 0;
    }
    ghost var was := arr[..];
    var p, c := Partition(arr, low, high);
    ghost var part := arr[..];
    var c0 := QuicksortInPlace(arr, low, p as int - 1);
    ghost var half := arr[..];
    var c1 := QuicksortInPlace(arr, p + 1, high);
    QuicksortStep(was, part, half, arr[..], low, p, high, c, c0, c1);
    comparisons := c + c0 + c1;
  }

  lemma PairsBound(n: nat, c: int)
    requires c <= Pairs(n)
    ensures 2 * c <= n * (n - 1) && (c == Pairs(n) ==> 2 * c == n * (n - 1))
  {
    PairsClosedForm(n);
  }

  lemma WholeArraySorted(was: seq<int>, now: seq<int>)
    requires if |was| > 1 then SortsCells(Self, was, now, 0, |was| - 1) else now == was
    ensures now == Quicksort(was) == MergeSort(Self, was)
  {
    SideSorted(was, now, 0, |was| - 1);
    assert was[0..|was|] == was && now[0..|was|] == now;
    StableSortIffMergeSort(Self, was, now);
    QuicksortIsMergeSort(was);
  }

  /** quicksort_inplace with its default bounds. */
  method QuicksortWholeArray(arr: array<int>) returns (comparisons: nat)
    modifies arr
    ensures arr[..] == Quicksort(old(arr[..])) == MergeSort(Self, old(arr[..]))
    ensures 2 * comparisons <= arr.Length * (arr.Length - 1)
    ensures OrderedCells(old(arr[..]), 0, arr.Length - 1) ==> 2 * comparisons == arr.Length * (arr.Length - 1)
  {
    ghost var was := arr[..];
    comparisons := QuicksortInPlace(arr, 0, arr.Length - 1);
    WholeArraySorted(was, arr[..]);
    PairsBound(arr.Length, comparisons);
  }
}
