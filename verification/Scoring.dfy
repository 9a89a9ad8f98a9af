/** src/api/ai_groups.py: task averages and agent capability profiles.

    Floats are modelled as reals, and Python's round(x, 2) as any monotone function that fixes the
    multiples of 1/100 and moves a value by at most 1/200. */
module Scoring {
  import opened Options
  import opened MergeSorting
  import opened QuickSorting

  // ----- round(x, 2) -----

  function Cents(n: int): real { n as real / 100.0 }

  ghost predicate IsRounding(round: real -> real) {
    && (forall x: real, y: real :: x <= y ==> round(x) <= round(y))
    && (forall n: int :: round(Cents(n)) == Cents(n))
    && (forall x: real :: -0.005 <= round(x) - x <= 0.005)
  }

  /** Rounding half to even on exact reals, as Python's round does on the values it is given. */
  function HalfEven(x: real): real {
    var q := (x * 100.0).Floor;
    var rest := x * 100.0 - q as real;
    if rest > 0.5 || (rest == 0.5 && q % 2 == 1) then Cents(q + 1) else Cents(q)
  }

  lemma HalfEvenMonotone(x: real, y: real)
    requires x <= y
    ensures HalfEven(x) <= HalfEven(y)
  {
    var p, q := (x * 100.0).Floor, (y * 100.0).Floor;
    assert x * 100.0 <= y * 100.0;
    assert p <= q;
  }

  lemma HalfEvenKeeps(n: int)
    ensures HalfEven(Cents(n)) == Cents(n)
  {
    assert Cents(n) * 100.0 == n as real;
    assert (n as real).Floor == n;
  }

  lemma HalfEvenMoves(x: real)
    ensures -0.005 <= HalfEven(x) - x <= 0.005
  {
  }

  lemma HalfEvenIsRounding()
    ensures IsRounding(HalfEven)
  {
    forall x: real, y: real | x <= y
      ensures HalfEven(x) <= HalfEven(y)
    {
      HalfEvenMonotone(x, y);
    }
    forall n: int
      ensures HalfEven(Cents(n)) == Cents(n)
    {
      HalfEvenKeeps(n);
    }
    forall x: real
      ensures -0.005 <= HalfEven(x) - x <= 0.005
    {
      HalfEvenMoves(x);
    }
  }

  // ----- Sums over a list, which sorting does not change -----

  /** The sum of weight(x) over the elements x of s. */
  function Total(weight: int -> int, s: seq<int>): int {
    if |s| == 0 then 0 else weight(s[0]) + Total(weight, s[1..])
  }

  lemma {:induction false} TotalConcat(weight: int -> int, a: seq<int>, b: seq<int>)
    ensures Total(weight, a + b) == Total(weight, a) + Total(weight, b)
  {
    if |a| == 0 {
      assert a + b == b;
    } else {
      assert (a + b)[1..] == a[1..] + b;
      TotalConcat(weight, a[1..], b);
    }
  }

  lemma {:induction false} TotalMerge(weight: int -> int, left: seq<int>, right: seq<int>)
    ensures Total(weight, Merge(Self, left, right)) == Total(weight, left) + Total(weight, right)
    decreases |left| + |right|
  {
    if |left| == 0 || |right| == 0 {
    } else if Self(left[0]) <= Self(right[0]) {
      TotalMerge(weight, left[1..], right);
    } else {
      TotalMerge(weight, left, right[1..]);
    }
  }

  lemma {:induction false} TotalSorted(weight: int -> int, s: seq<int>)
    ensures Total(weight, MergeSort(Self, s)) == Total(weight, s)
    decreases |s|
  {
    if |s| <= 1 {
    } else {
      var mid := |s| / 2;
      TotalSorted(weight, s[..mid]);
      TotalSorted(weight, s[mid..]);
      TotalMerge(weight, MergeSort(Self, s[..mid]), MergeSort(Self, s[mid..]));
      TotalConcat(weight, s[..mid], s[mid..]);
      assert s == s[..mid] + s[mid..];
    }
  }

  lemma {:induction false} TotalBounds(s: seq<int>, lo: real, hi: real)
    requires forall i :: 0 <= i < |s| ==> lo <= s[i] as real <= hi
    ensures lo * |s| as real <= Total(Self, s) as real <= hi * |s| as real
  {
    if |s| == 0 {
    } else {
      TotalBounds(s[1..], lo, hi);
      OneMore(lo, |s[1..]| as real);
      OneMore(hi, |s[1..]| as real);
    }
  }

  lemma OneMore(x: real, n: real)
    ensures x * (n + 1.0) == x * n + x
  {
  }

  lemma {:induction false} TotalMonotone(s: seq<int>, t: seq<int>)
    requires |s| == |t| && forall i :: 0 <= i < |s| ==> s[i] <= t[i]
    ensures Total(Self, s) <= Total(Self, t)
  {
    if |s| == 0 {
    } else {
      TotalMonotone(s[1..], t[1..]);
    }
  }

  // ----- Order statistics -----

  function AtMost(bound: int): int -> int {
    x => if x <= bound then 1 else 0
  }

  function CountAtMost(s: seq<int>, bound: int): int {
    Total(AtMost(bound), s)
  }

  lemma {:induction false} CountBounds(s: seq<int>, bound: int)
    ensures 0 <= CountAtMost(s, bound) <= |s|
    ensures (forall i :: 0 <= i < |s| ==> s[i] <= bound) ==> CountAtMost(s, bound) == |s|
    ensures (forall i :: 0 <= i < |s| ==> s[i] > bound) ==> CountAtMost(s, bound) == 0
  {
    if |s| == 0 {
    } else {
      CountBounds(s[1..], bound);
    }
  }

  /** In a sorted list, the k-th element is at most `bound` exactly when more than k elements are. */
  lemma KthByCount(u: seq<int>, k: nat, bound: int)
    requires Ordered(Self, u) && k < |u|
    ensures u[k] <= bound <==> CountAtMost(u, bound) > k
  {
    if u[k] <= bound {
      assert u == u[..k + 1] + u[k + 1..];
      TotalConcat(AtMost(bound), u[..k + 1], u[k + 1..]);
      var low := u[..k + 1];
      forall i | 0 <= i < |low|
        ensures low[i] <= bound
      {
        assert i == k || Self(u[i]) <= Self(u[k]);
      }
      CountBounds(low, bound);
      CountBounds(u[k + 1..], bound);
    } else {
      assert u == u[..k] + u[k..];
      TotalConcat(AtMost(bound), u[..k], u[k..]);
      forall i | 0 <= i < |u[k..]|
        ensures u[k..][i] > bound
      {
        assert i == 0 || Self(u[k]) <= Self(u[k + i]);
      }
      CountBounds(u[..k], bound);
      CountBounds(u[k..], bound);
    }
  }

  lemma {:induction false} CountAntitone(s: seq<int>, t: seq<int>, bound: int)
    requires |s| == |t| && forall i :: 0 <= i < |s| ==> s[i] <= t[i]
    ensures CountAtMost(s, bound) >= CountAtMost(t, bound)
  {
    if |s| == 0 {
    } else {
      CountAntitone(s[1..], t[1..], bound);
    }
  }

  lemma SortedLength(s: seq<int>)
    ensures |MergeSort(Self, s)| == |s| && Ordered(Self, MergeSort(Self, s))
  {
    MergeSortIsStableSort(Self, s);
    StableSortIsPermutation(Self, s, MergeSort(Self, s));
  }

  /** Sorting is pointwise monotone. */
  lemma SortMonotone(s: seq<int>, t: seq<int>, k: nat)
    requires |s| == |t| && k < |s| && forall i :: 0 <= i < |s| ==> s[i] <= t[i]
    ensures |MergeSort(Self, s)| == |MergeSort(Self, t)| == |s|
    ensures MergeSort(Self, s)[k] <= MergeSort(Self, t)[k]
  {
    var u, v := MergeSort(Self, s), MergeSort(Self, t);
    SortedLength(s);
    SortedLength(t);
    var bound := v[k];
    KthByCount(v, k, bound);
    TotalSorted(AtMost(bound), t);
    CountAntitone(s, t, bound);
    TotalSorted(AtMost(bound), s);
    KthByCount(u, k, bound);
  }

  lemma {:induction false} SomeAtMost(s: seq<int>, bound: int) returns (i: nat)
    requires CountAtMost(s, bound) > 0
    ensures i < |s| && s[i] <= bound
  {
    if s[0] <= bound {
      i := 0;
    } else {
      i := SomeAtMost(s[1..], bound);
      i := i + 1;
    }
  }

  lemma {:induction false} SomeAbove(s: seq<int>, bound: int) returns (i: nat)
    requires CountAtMost(s, bound) < |s|
    ensures i < |s| && s[i] > bound
  {
    if s[0] > bound {
      i := 0;
    } else {
      i := SomeAbove(s[1..], bound);
      i := i + 1;
    }
  }

  /** s without its d-th element. */
  function Without(s: seq<int>, d: nat): seq<int>
    requires d < |s|
  {
    s[..d] + s[d + 1..]
  }

  lemma CountWithout(s: seq<int>, d: nat, bound: int)
    requires d < |s|
    ensures CountAtMost(s, bound) == CountAtMost(Without(s, d), bound) + AtMost(bound)(s[d])
  {
    assert s == s[..d] + ([s[d]] + s[d + 1..]);
    TotalConcat(AtMost(bound), s[..d], [s[d]] + s[d + 1..]);
    TotalConcat(AtMost(bound), [s[d]], s[d + 1..]);
    TotalConcat(AtMost(bound), s[..d], s[d + 1..]);
  }

  // ----- calculate_task_avg_score -----

  function Mean(s: seq<int>): real
    requires |s| > 0
  {
    Total(Self, s) as real / |s| as real
  }

  function Trimmed(scores: seq<int>): seq<int>
    requires |scores| > 2
  {
    var sorted := MergeSort(Self, scores);
    SortedLength(scores);
    sorted[1..|sorted| - 1]
  }

  /** The average of the scores, without the lowest and the highest when there are three or more. */
  function TaskAverage(round: real -> real, scores: seq<int>): Option<real> {
    if |scores| == 0 then None
    else if |scores| <= 2 then Some(round(Mean(scores)))
    else
      SortedLength(scores);
      Some(round(Mean(Trimmed(scores))))
  }

  /** The average of one or two scores is their rounded mean. */
  lemma AverageOfFew(round: real -> real, a: int, b: int)
    ensures TaskAverage(round, []) == None
    ensures TaskAverage(round, [a]) == Some(round(a as real))
    ensures TaskAverage(round, [a, b]) == Some(round((a + b) as real / 2.0))
  {
    assert [a][1..] == [] && [a, b][1..] == [b] && [b][1..] == [];
    assert Total(Self, [b]) == b && Total(Self, [a]) == a && Total(Self, []) == 0;
    assert Total(Self, [a, b]) == a + b;
  }

  lemma TotalGrows(s: seq<int>, score: int)
    ensures Total(Self, s + [score]) == Total(Self, s) + score
  {
    TotalConcat(Self, s, [score]);
    assert [score][1..] == [];
    assert Total(Self, [score]) == score;
  }

  lemma TrimmedTotal(s: seq<int>)
    requires |s| > 2
    ensures |MergeSort(Self, s)| == |s|
    ensures Total(Self, Trimmed(s)) == Total(Self, s) - MergeSort(Self, s)[0] - MergeSort(Self, s)[|s| - 1]
  {
    var sorted := MergeSort(Self, s);
    SortedLength(s);
    TotalSorted(Self, s);
    assert sorted == [sorted[0]] + Trimmed(s) + [sorted[|s| - 1]];
    TotalGrows([sorted[0]] + Trimmed(s), sorted[|s| - 1]);
    assert ([sorted[0]] + Trimmed(s))[1..] == Trimmed(s);
  }

  lemma SortedMember(s: seq<int>, x: int)
    ensures x in MergeSort(Self, s) <==> x in s
  {
    SortedFacts(s);
    assert x in multiset(MergeSort(Self, s)) <==> x in multiset(s);
  }

  lemma EndsAreExtremes(s: seq<int>) returns (lo: nat, hi: nat)
    requires |s| == |MergeSort(Self, s)| > 0
    ensures lo < |s| && s[lo] == MergeSort(Self, s)[0] && hi < |s| && s[hi] == MergeSort(Self, s)[|s| - 1]
    ensures forall i :: 0 <= i < |s| ==> s[lo] <= s[i] <= s[hi]
  {
    var sorted := MergeSort(Self, s);
    SortedMember(s, sorted[0]);
    SortedMember(s, sorted[|s| - 1]);
    lo :| 0 <= lo < |s| && s[lo] == sorted[0];
    hi :| 0 <= hi < |s| && s[hi] == sorted[|s| - 1];
    forall i | 0 <= i < |s|
      ensures s[lo] <= s[i] <= s[hi]
    {
      BetweenEnds(s, s[i]);
    }
  }

  lemma BetweenEnds(s: seq<int>, x: int)
    requires |s| == |MergeSort(Self, s)| > 0 && x in s
    ensures MergeSort(Self, s)[0] <= x <= MergeSort(Self, s)[|s| - 1]
  {
    var sorted := MergeSort(Self, s);
    SortedMember(s, x);
    SortedFacts(s);
    var j :| 0 <= j < |s| && sorted[j] == x;
    assert Self(sorted[0]) <= Self(sorted[j]) <= Self(sorted[|s| - 1]);
  }

  /** With three scores or more it is the rounded mean of what is left without one of the lowest and one
      of the highest. */
  lemma AverageOfMany(round: real -> real, s: seq<int>) returns (lo: nat, hi: nat)
    requires |s| > 2
    ensures lo < |s| && hi < |s| && forall i :: 0 <= i < |s| ==> s[lo] <= s[i] <= s[hi]
    ensures TaskAverage(round, s) == Some(round((Total(Self, s) - s[lo] - s[hi]) as real / (|s| - 2) as real))
  {
    SortedLength(s);
    TrimmedTotal(s);
    lo, hi := EndsAreExtremes(s);
  }

  lemma MeanBounds(s: seq<int>, lo: int, hi: int)
    requires |s| > 0 && forall i :: 0 <= i < |s| ==> lo <= s[i] <= hi
    ensures lo as real <= Mean(s) <= hi as real
  {
    TotalBounds(s, lo as real, hi as real);
    DivideBounds(Total(Self, s) as real, |s| as real, lo as real, hi as real);
  }

  lemma DivideBounds(t: real, n: real, lo: real, hi: real)
    requires n > 0.0 && lo * n <= t <= hi * n
    ensures lo <= t / n <= hi
  {
  }

  lemma MeanMonotone(s: seq<int>, t: seq<int>)
    requires |s| == |t| > 0 && forall i :: 0 <= i < |s| ==> s[i] <= t[i]
    ensures Mean(s) <= Mean(t)
  {
    TotalMonotone(s, t);
    DivideMonotone(Total(Self, s) as real, Total(Self, t) as real, |s| as real);
  }

  lemma DivideMonotone(a: real, b: real, n: real)
    requires a <= b && n > 0.0
    ensures a / n <= b / n
  {
  }

  lemma RoundBetween(round: real -> real, x: real, lo: int, hi: int)
    requires IsRounding(round) && lo as real <= x <= hi as real
    ensures lo as real <= round(x) <= hi as real
  {
    assert Cents(100 * lo) == lo as real && Cents(100 * hi) == hi as real;
    assert round(Cents(100 * lo)) <= round(x) <= round(Cents(100 * hi));
  }

  /** The order in which the scores arrived does not matter. */
  lemma AverageIgnoresOrder(round: real -> real, s: seq<int>, t: seq<int>)
    requires multiset(s) == multiset(t)
    ensures TaskAverage(round, s) == TaskAverage(round, t)
  {
    assert |s| == |multiset(s)| && |t| == |multiset(t)|;
    SortIgnoresOrder(s, t);
    if 0 < |s| <= 2 {
      TotalSorted(Self, s);
      TotalSorted(Self, t);
      assert Total(Self, s) == Total(Self, t);
    }
  }

  /** Raising scores, one or many, never lowers the average. */
  lemma AverageMonotone(round: real -> real, s: seq<int>, t: seq<int>)
    requires IsRounding(round)
    requires |s| == |t| > 0 && forall i :: 0 <= i < |s| ==> s[i] <= t[i]
    ensures TaskAverage(round, s).Some? && TaskAverage(round, t).Some?
    ensures TaskAverage(round, s).value <= TaskAverage(round, t).value
  {
    if |s| <= 2 {
      MeanMonotone(s, t);
    } else {
      SortedLength(s);
      SortedLength(t);
      forall i | 0 <= i < |Trimmed(s)|
        ensures Trimmed(s)[i] <= Trimmed(t)[i]
      {
        SortMonotone(s, t, i + 1);
      }
      MeanMonotone(Trimmed(s), Trimmed(t));
    }
  }

  /** The second lowest score is at least some score that is not the d-th. */
  lemma OtherBelow(s: seq<int>, d: nat) returns (i: nat)
    requires |s| > 2 && d < |s|
    ensures |MergeSort(Self, s)| == |s|
    ensures i < |s| - 1 && Without(s, d)[i] <= MergeSort(Self, s)[1]
  {
    var u := MergeSort(Self, s);
    SortedLength(s);
    KthByCount(u, 1, u[1]);
    TotalSorted(AtMost(u[1]), s);
    CountWithout(s, d, u[1]);
    i := SomeAtMost(Without(s, d), u[1]);
  }

  /** The second highest score is at most some score that is not the d-th. */
  lemma OtherAbove(s: seq<int>, d: nat) returns (j: nat)
    requires |s| > 2 && d < |s|
    ensures |MergeSort(Self, s)| == |s|
    ensures j < |s| - 1 && MergeSort(Self, s)[|s| - 2] <= Without(s, d)[j]
  {
    var u := MergeSort(Self, s);
    SortedLength(s);
    var below := u[|s| - 2] - 1;
    KthByCount(u, |s| - 2, below);
    TotalSorted(AtMost(below), s);
    CountWithout(s, d, below);
    j := SomeAbove(Without(s, d), below);
  }

  lemma TrimmedBetween(round: real -> real, s: seq<int>)
    requires IsRounding(round) && |s| > 2
    ensures |MergeSort(Self, s)| == |s|
    ensures MergeSort(Self, s)[1] as real <= TaskAverage(round, s).value <= MergeSort(Self, s)[|s| - 2] as real
  {
    var u, trimmed := MergeSort(Self, s), Trimmed(s);
    SortedLength(s);
    forall k | 0 <= k < |trimmed|
      ensures u[1] <= trimmed[k] <= u[|s| - 2]
    {
      assert trimmed[k] == u[k + 1];
      assert k == 0 || Self(u[1]) <= Self(u[k + 1]);
      assert k + 1 == |s| - 2 || Self(u[k + 1]) <= Self(u[|s| - 2]);
    }
    MeanBounds(trimmed, u[1], u[|s| - 2]);
    RoundBetween(round, Mean(trimmed), u[1], u[|s| - 2]);
  }

  /** With three scores or more, whichever single score is struck out, the average stays between the
      least and the greatest of the others: no one scorer can push it outside what the rest said. */
  lemma AverageWithinOthers(round: real -> real, s: seq<int>, d: nat) returns (i: nat, j: nat)
    requires IsRounding(round)
    requires |s| > 2 && d < |s|
    ensures i < |s| - 1 && j < |s| - 1
    ensures Without(s, d)[i] as real <= TaskAverage(round, s).value <= Without(s, d)[j] as real
  {
    TrimmedBetween(round, s);
    i := OtherBelow(s, d);
    j := OtherAbove(s, d);
  }

  // ----- update_agent_capability -----

  datatype Trend = Up | Down | Steady

  datatype Profile = Profile(avg: real, count: nat, trend: Trend)

  /** The mean of n values of average `avg` and one more value. */
  function Blend(avg: real, n: real, x: real): real
    requires n >= 0.0
  {
    (avg * n + x) / (n + 1.0)
  }

  /** One call of update_agent_capability: a new row keeps the score itself, an existing row gets the
      rounded running average. */
  function Updated(round: real -> real, row: Option<Profile>, score: int): Profile {
    match row
    case None => Profile(score as real, 1, Steady)
    case Some(current) =>
      var trend := if score as real > current.avg + 0.5 then Up else if score as real < current.avg - 0.5 then Down else Steady;
      Profile(round(Blend(current.avg, current.count as real, score as real)), current.count + 1, trend)
  }

  /** The row after the given scores, in the order in which they were given. */
  function ProfileOf(round: real -> real, scores: seq<int>): Option<Profile> {
    if |scores| == 0 then None
    else Some(Updated(round, ProfileOf(round, scores[..|scores| - 1]), scores[|scores| - 1]))
  }

  lemma ProfileStep(round: real -> real, before: seq<int>, last: int)
    ensures ProfileOf(round, before + [last]) == Some(Updated(round, ProfileOf(round, before), last))
  {
    assert (before + [last])[..|before|] == before;
  }

  /** An average over n scores that sum to `sum` is off by at most (n-1)(n+2)/400 in total. */
  ghost predicate ErrorWithin(avg: real, n: real, sum: real) {
    var slack := (n - 1.0) * (n + 2.0);
    -slack <= 400.0 * (avg * n - sum) <= slack
  }

  lemma BlendTimes(avg: real, n: real, x: real)
    requires n >= 0.0
    ensures Blend(avg, n, x) * (n + 1.0) == avg * n + x
  {
  }

  lemma RunningStep(avg: real, n: real, sum: real, score: real, moved: real)
    requires n > 0.0 && ErrorWithin(avg, n, sum)
    requires -0.005 <= moved <= 0.005
    ensures ErrorWithin(Blend(avg, n, score) + moved, n + 1.0, sum + score)
  {
    var m, exact := n + 1.0, Blend(avg, n, score);
    BlendTimes(avg, n, score);
    Distributes(exact, moved, m);
    MovedBound(moved, m);
    SlackStep(n);
    StepIsLinear(avg * n, sum, score, (exact + moved) * m, moved * m, (n - 1.0) * (n + 2.0), m);
  }

  lemma Distributes(x: real, y: real, z: real)
    ensures (x + y) * z == x * z + y * z
  {
  }

  lemma SlackStep(n: real)
    ensures (n + 1.0 - 1.0) * (n + 1.0 + 2.0) == (n - 1.0) * (n + 2.0) + 2.0 * (n + 1.0)
  {
  }

  lemma StepIsLinear(avgN: real, sum: real, score: real, nextM: real, movedM: real, slack: real, m: real)
    requires -slack <= 400.0 * (avgN - sum) <= slack
    requires -2.0 * m <= 400.0 * movedM <= 2.0 * m
    requires nextM == avgN + score + movedM
    ensures -(slack + 2.0 * m) <= 400.0 * (nextM - (sum + score)) <= slack + 2.0 * m
  {
  }

  lemma MovedBound(moved: real, m: real)
    requires -0.005 <= moved <= 0.005 && m >= 0.0
    ensures -2.0 * m <= 400.0 * (moved * m) <= 2.0 * m
  {
  }

  lemma RoundMoves(round: real -> real, x: real)
    requires IsRounding(round)
    ensures -0.005 <= round(x) - x <= 0.005
  {
  }

  lemma UpdateKeepsError(round: real -> real, p: Profile, sum: int, score: int)
    requires IsRounding(round) && p.count > 0
    requires ErrorWithin(p.avg, p.count as real, sum as real)
    ensures ErrorWithin(Updated(round, Some(p), score).avg, p.count as real + 1.0, sum as real + score as real)
  {
    var exact := Blend(p.avg, p.count as real, score as real);
    RoundMoves(round, exact);
    var moved := round(exact) - exact;
    RunningStep(p.avg, p.count as real, sum as real, score as real, moved);
    assert exact + moved == Updated(round, Some(p), score).avg;
  }

  lemma {:induction false} ProfileError(round: real -> real, scores: seq<int>)
    requires IsRounding(round) && |scores| > 0
    ensures ProfileOf(round, scores).value.count == |scores|
    ensures ErrorWithin(ProfileOf(round, scores).value.avg, |scores| as real, Total(Self, scores) as real)
  {
    var n := |scores|;
    var before, last := scores[..n - 1], scores[n - 1];
    assert scores == before + [last];
    TotalConcat(Self, before, [last]);
    ProfileStep(round, before, last);
    if n <= 1 {
    } else {
      ProfileError(round, before);
      UpdateKeepsError(round, ProfileOf(round, before).value, Total(Self, before), last);
    }
  }

  /** `avg` is off the true mean of the n scores by at most (n+1)/400 - 1/(200n). */
  ghost predicate NearMean(avg: real, scores: seq<int>)
    requires |scores| > 0
  {
    var n := |scores| as real;
    var bound := (n + 1.0) / 400.0 - 1.0 / (200.0 * n);
    -bound <= avg - Mean(scores) <= bound
  }

  /** After n updates the stored, re-rounded average is near the true mean, and task_count is n. */
  lemma ProfileNearMean(round: real -> real, scores: seq<int>)
    requires IsRounding(round) && |scores| > 0
    ensures ProfileOf(round, scores).Some? && ProfileOf(round, scores).value.count == |scores|
    ensures NearMean(ProfileOf(round, scores).value.avg, scores)
  {
    ProfileError(round, scores);
    ErrorPerScore(ProfileOf(round, scores).value.avg, Total(Self, scores) as real, |scores| as real);
  }

  lemma ErrorPerScore(avg: real, sum: real, n: real)
    requires n >= 1.0 && ErrorWithin(avg, n, sum)
    ensures -((n + 1.0) / 400.0 - 1.0 / (200.0 * n)) <= avg - sum / n <= (n + 1.0) / 400.0 - 1.0 / (200.0 * n)
  {
    var bound := (n + 1.0) / 400.0 - 1.0 / (200.0 * n);
    BoundTimes(n);
    assert (sum / n) * n == sum;
    Distributes(avg, -(sum / n), n);
    Distributes(bound, -bound, n);
    DivideBounds((avg - sum / n) * n, n, -bound, bound);
  }

  lemma BoundTimes(n: real)
    requires n >= 1.0
    ensures 400.0 * (((n + 1.0) / 400.0 - 1.0 / (200.0 * n)) * n) == (n - 1.0) * (n + 2.0)
  {
  }

  /** The stored average never leaves the range of the scores; in particular it stays in [1, 10]. */
  lemma {:induction false} ProfileInRange(round: real -> real, scores: seq<int>, lo: int, hi: int)
    requires IsRounding(round) && |scores| > 0
    requires forall i :: 0 <= i < |scores| ==> lo <= scores[i] <= hi
    ensures lo as real <= ProfileOf(round, scores).value.avg <= hi as real
  {
    var n := |scores|;
    var before, last := scores[..n - 1], scores[n - 1];
    assert scores == before + [last];
    ProfileStep(round, before, last);
    if n <= 1 {
    } else {
      ProfileInRange(round, before, lo, hi);
      UpdateKeepsRange(round, ProfileOf(round, before).value, last, lo, hi);
    }
  }

  lemma UpdateKeepsRange(round: real -> real, p: Profile, score: int, lo: int, hi: int)
    requires IsRounding(round)
    requires lo as real <= p.avg <= hi as real && lo <= score <= hi
    ensures lo as real <= Updated(round, Some(p), score).avg <= hi as real
  {
    WeightedBetween(p.avg, p.count as real, score as real, lo as real, hi as real);
    RoundBetween(round, Blend(p.avg, p.count as real, score as real), lo, hi);
  }

  lemma WeightedBetween(avg: real, n: real, x: real, lo: real, hi: real)
    requires n >= 0.0 && lo <= avg <= hi && lo <= x <= hi
    ensures lo <= Blend(avg, n, x) <= hi
  {
    var sum, m := avg * n + x, n + 1.0;
    assert lo * m <= sum by {
      Scaled(lo, avg, n);
      OneMore(lo, n);
    }
    assert sum <= hi * m by {
      Scaled(avg, hi, n);
      OneMore(hi, n);
    }
    DivideBounds(sum, m, lo, hi);
  }

  lemma Scaled(a: real, b: real, n: real)
    requires a <= b && n >= 0.0
    ensures a * n <= b * n
  {
  }

  /** Unlike the task average, the running average depends on the order of the scores: the same seven
      scores end at 1.15 or at 1.14, and only the second is the rounded mean. */
  lemma ProfileDependsOnOrder()
    ensures multiset([1, 1, 1, 1, 1, 2, 1]) == multiset([1, 1, 1, 1, 1, 1, 2])
    ensures ProfileOf(HalfEven, [1, 1, 1, 1, 1, 2, 1]).value.avg == 1.15
    ensures ProfileOf(HalfEven, [1, 1, 1, 1, 1, 1, 2]).value.avg == 1.14
  {
    assert AllOnes(5) + [2] + [1] == [1, 1, 1, 1, 1, 2, 1];
    assert AllOnes(6) + [2] == [1, 1, 1, 1, 1, 1, 2];
    Ones(5);
    StoredOnce(AllOnes(5), 2);
    StoredTwice(AllOnes(5) + [2]);
    Ones(6);
    StoredOnce(AllOnes(6), 2);
  }

  function AllOnes(n: nat): seq<int> { seq(n, _ => 1) }

  /** 7/6 is stored as 1.17 and 8/7 as 1.14. */
  lemma StoredOnce(ones: seq<int>, score: int)
    requires score == 2 && (|ones| == 5 || |ones| == 6)
    requires var p := ProfileOf(HalfEven, ones); p.Some? && p.value.avg == 1.0 && p.value.count == |ones|
    ensures var p := ProfileOf(HalfEven, ones + [score]);
            p.Some? && p.value.avg == (if |ones| == 5 then 1.17 else 1.14) && p.value.count == |ones| + 1
  {
    ProfileStep(HalfEven, ones, score);
    HalfEvenAt(7.0 / 6.0, 117);
    HalfEvenAt(8.0 / 7.0, 114);
  }

  /** (1.17 * 6 + 1) / 7 is stored as 1.15. */
  lemma StoredTwice(six: seq<int>)
    requires var p := ProfileOf(HalfEven, six); p.Some? && p.value.avg == 1.17 && p.value.count == 6
    ensures var p := ProfileOf(HalfEven, six + [1]); p.Some? && p.value.avg == 1.15
  {
    ProfileStep(HalfEven, six, 1);
    HalfEvenAt((1.17 * 6.0 + 1.0) / 7.0, 115);
  }

  lemma HalfEvenAt(x: real, n: int)
    requires Cents(n) - 0.005 < x < Cents(n) + 0.005
    ensures HalfEven(x) == Cents(n)
  {
    var q := (x * 100.0).Floor;
    assert n as real - 0.5 < x * 100.0 < n as real + 0.5;
    assert q == n || q == n - 1;
  }

  lemma Ones(n: nat)
    requires n > 0
    ensures ProfileOf(HalfEven, AllOnes(n)).Some?
    ensures ProfileOf(HalfEven, AllOnes(n)).value.avg == 1.0
    ensures ProfileOf(HalfEven, AllOnes(n)).value.count == n
  {
    var s := AllOnes(n);
    HalfEvenIsRounding();
    ProfileInRange(HalfEven, s, 1, 1);
    ProfileError(HalfEven, s);
  }
}
