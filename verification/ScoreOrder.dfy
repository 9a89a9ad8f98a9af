/** src/api/ai_groups.py: when the stored running average of update_agent_capability depends on the
    order in which the scores were given. */
module ScoreOrder {
  import opened Options
  import opened MergeSorting
  import opened QuickSorting
  import opened Scoring

  predicate ValidScores(s: seq<int>) {
    forall i :: 0 <= i < |s| ==> 1 <= s[i] <= 10
  }

  /** The average in the row after these scores, rounded half to even at each of them. */
  function Stored(s: seq<int>): real
    requires |s| > 0
  {
    ProfileOf(HalfEven, s).value.avg
  }

  /** Any two lists of n scores with the same scores in them end at the same average. */
  ghost predicate IgnoresOrder(n: nat) {
    forall s: seq<int>, t: seq<int> ::
      |s| == n > 0 && |t| == n && ValidScores(s) && multiset(s) == multiset(t) ==> Stored(s) == Stored(t)
  }

  lemma CountsScores(s: seq<int>)
    requires |s| > 0
    ensures ProfileOf(HalfEven, s).value.count == |s|
  {
    HalfEvenIsRounding();
    ProfileError(HalfEven, s);
  }

  lemma StoredStep(s: seq<int>, score: int)
    requires |s| > 0
    ensures Stored(s + [score]) == HalfEven(Blend(Stored(s), |s| as real, score as real))
  {
    CountsScores(s);
    ProfileStep(HalfEven, s, score);
  }

  // ----- Up to six scores -----

  lemma HalfEvenKeepsCents(n: int)
    ensures HalfEven(Cents(n)) == Cents(n)
  {
    HalfEvenIsRounding();
  }

  /** While the stored average has lost nothing, the next one is the rounded mean. */
  lemma ExactThenMean(s: seq<int>, score: int)
    requires |s| > 0 && Stored(s) * |s| as real == Total(Self, s) as real
    ensures Stored(s + [score]) == HalfEven(Mean(s + [score]))
  {
    StoredStep(s, score);
    TotalGrows(s, score);
  }

  /** A mean of one, two, four or five scores is a multiple of 1/100. */
  lemma DivideExactly(t: int, k: int)
    requires k in {1, 2, 4, 5}
    ensures t as real / k as real == Cents(t * (100 / k))
    ensures HalfEven(t as real / k as real) == t as real / k as real
  {
    HalfEvenKeepsCents(t * (100 / k));
    if k == 1 {
      assert Cents(t * 100) == t as real;
    } else if k == 2 {
      assert Cents(t * 50) == t as real / 2.0;
    } else if k == 4 {
      assert Cents(t * 25) == t as real / 4.0;
    } else {
      assert Cents(t * 20) == t as real / 5.0;
    }
  }

  lemma LosesNothing(s: seq<int>)
    requires |s| in {1, 2, 4, 5} && Stored(s) == HalfEven(Mean(s))
    ensures Stored(s) * |s| as real == Total(Self, s) as real
  {
    DivideExactly(Total(Self, s), |s|);
  }

  lemma FourthBlend(avg: real, sum: int, score: int)
    requires -0.015 <= avg * 3.0 - sum as real <= 0.015
    ensures HalfEven(Blend(avg, 3.0, score as real)) == Cents((sum + score) * 25)
  {
    HalfEvenAt(Blend(avg, 3.0, score as real), (sum + score) * 25);
  }

  lemma ThreeScores(s: seq<int>)
    requires |s| == 3 && Stored(s) == HalfEven(Mean(s))
    ensures -0.015 <= Stored(s) * 3.0 - Total(Self, s) as real <= 0.015
  {
    HalfEvenIsRounding();
    RoundMoves(HalfEven, Mean(s));
  }

  /** After three scores at most 3/200 is lost, which the fourth score makes good: a mean of four is a
      multiple of 1/4, and less than 1/200 away. */
  lemma FourthScore(s: seq<int>, score: int)
    requires |s| == 3 && Stored(s) == HalfEven(Mean(s))
    ensures Stored(s + [score]) == HalfEven(Mean(s + [score]))
  {
    StoredStep(s, score);
    TotalGrows(s, score);
    ThreeScores(s);
    FourthBlend(Stored(s), Total(Self, s), score);
    DivideExactly(Total(Self, s) + score, 4);
  }

  lemma FirstScore(s: seq<int>)
    requires |s| == 1
    ensures Stored(s) == HalfEven(Mean(s))
  {
    assert s[..0] == [] && ProfileOf(HalfEven, s[..0]) == None;
    assert Stored(s) == s[0] as real;
    assert s[1..] == [] && Total(Self, s) == s[0];
    DivideExactly(s[0], 1);
  }

  /** Up to six scores the stored average is the rounded mean. */
  lemma {:induction false} StoredIsRoundedMean(s: seq<int>)
    requires 1 <= |s| <= 6
    ensures Stored(s) == HalfEven(Mean(s))
  {
    if |s| == 1 {
      FirstScore(s);
    } else {
      var front, last := s[..|s| - 1], s[|s| - 1];
      assert s == front + [last];
      StoredIsRoundedMean(front);
      if |s| == 4 {
        FourthScore(front, last);
      } else {
        LosesNothing(front);
        ExactThenMean(front, last);
      }
    }
  }

  lemma FewIgnoreOrder(n: nat)
    requires n <= 6
    ensures IgnoresOrder(n)
  {
    forall s: seq<int>, t: seq<int> | |s| == n > 0 && |t| == n && ValidScores(s) && multiset(s) == multiset(t)
      ensures Stored(s) == Stored(t)
    {
      StoredIsRoundedMean(s);
      StoredIsRoundedMean(t);
      SameTotal(s, t);
    }
  }

  lemma SameTotal(s: seq<int>, t: seq<int>)
    requires multiset(s) == multiset(t)
    ensures Total(Self, s) == Total(Self, t)
  {
    SortIgnoresOrder(s, t);
    TotalSorted(Self, s);
    TotalSorted(Self, t);
  }

  // ----- Seven scores and more -----

  /** n scores, all 1 but for a single 2 after the first k. */
  function OneTwo(k: nat, n: nat): seq<int>
    requires k < n
  {
    AllOnes(k) + [2] + AllOnes(n - k - 1)
  }

  lemma OneTwoGrows(k: nat, n: nat)
    requires k < n
    ensures OneTwo(k, n + 1) == OneTwo(k, n) + [1]
  {
    assert AllOnes(n - k) == AllOnes(n - k - 1) + [1];
  }

  lemma {:induction false} RealProduct(c: int, m: nat)
    ensures (c * m) as real == c as real * m as real
  {
    if m == 0 {
    } else {
      RealProduct(c, m - 1);
      assert c * m == c * (m - 1) + c;
      Distributes((m - 1) as real, 1.0, c as real);
    }
  }

  lemma WithinHalf(d: real, m: real)
    requires m > 0.0 && -m < 2.0 * (d * m) < m
    ensures -0.5 < d < 0.5
  {
    if d >= 0.5 {
      Scaled(0.5, d, m);
    } else if d <= -0.5 {
      Scaled(d, -0.5, m);
    }
  }

  lemma Nearest(x: real, xm: real, m: real, c: int)
    requires m > 0.0 && xm == x * m
    requires -m < 2.0 * (100.0 * xm - c as real * m) < m
    ensures HalfEven(x) == Cents(c)
  {
    var d := 100.0 * x - c as real;
    assert d * m == 100.0 * xm - c as real * m;
    WithinHalf(d, m);
    HalfEvenAt(x, c);
  }

  lemma RealGap(p: int, q: int, m: int)
    requires -m < 2 * (p + 100 - q) < m
    ensures -(m as real) < 2.0 * (p as real + 100.0 - q as real) < m as real
  {
  }

  lemma GapInReals(c: int, c': int, m: nat)
    requires -(m + 1) < 2 * (c * m + 100 - c' * (m + 1)) < m + 1
    ensures var n := m as real;
            -(n + 1.0) < 2.0 * (c as real * n + 100.0 - c' as real * (n + 1.0)) < n + 1.0
  {
    RealProduct(c, m);
    RealProduct(c', m + 1);
    RealGap(c * m, c' * (m + 1), m + 1);
  }

  lemma BlendOne(c: int, c': int, m: real)
    requires m >= 0.0
    requires -(m + 1.0) < 2.0 * (c as real * m + 100.0 - c' as real * (m + 1.0)) < m + 1.0
    ensures HalfEven(Blend(Cents(c), m, 1.0)) == Cents(c')
  {
    BlendTimes(Cents(c), m, 1.0);
    CentsTimes(c, m);
    Nearest(Blend(Cents(c), m, 1.0), Cents(c) * m + 1.0, m + 1.0, c');
  }

  /** A further score of 1 takes m scores stored at c cents to c' cents. */
  lemma OneMoreOne(s: seq<int>, c: int, c': int)
    requires |s| > 0 && Stored(s) == Cents(c)
    requires -(|s| + 1) < 2 * (c * |s| + 100 - c' * (|s| + 1)) < |s| + 1
    ensures Stored(s + [1]) == Cents(c')
  {
    StoredStep(s, 1);
    GapInReals(c, c', |s|);
    BlendOne(c, c', |s| as real);
  }

  lemma CentsTimes(c: int, m: real)
    ensures 100.0 * (Cents(c) * m) == c as real * m
  {
  }

  /** What is stored after n scores with the 2 in sixth place: past the sixteenth it does not move. */
  function SixthCents(n: nat): int
    requires n >= 6
  {
    if n == 6 then 117 else if n == 7 then 115 else if n <= 13 then 121 - n else 107
  }

  function SeventhCents(n: nat): int
    requires n >= 7
  {
    if n == 7 then 114 else if n <= 13 then 120 - n else 106
  }

  lemma {:induction false} TwoInSixthPlace(n: nat)
    requires n >= 6
    ensures Stored(OneTwo(5, n)) == Cents(SixthCents(n))
  {
    if n == 6 {
      Ones(5);
      StoredOnce(AllOnes(5), 2);
      assert OneTwo(5, 6) == AllOnes(5) + [2];
    } else {
      TwoInSixthPlace(n - 1);
      OneTwoGrows(5, n - 1);
      OneMoreOne(OneTwo(5, n - 1), SixthCents(n - 1), SixthCents(n));
    }
  }

  lemma SeventhGap(n: int)
    requires n >= 8 && n != 14
    ensures -n < 2 * (SeventhCents(n - 1) * (n - 1) + 100 - SeventhCents(n) * n) < n
  {
    if 8 < n <= 13 {
      assert SeventhCents(n - 1) * (n - 1) + 100 - SeventhCents(n) * n == 2 * n - 21;
    }
  }

  lemma {:induction false} TwoInSeventhPlace(n: nat)
    requires n >= 7
    ensures Stored(OneTwo(6, n)) == Cents(SeventhCents(n))
  {
    if n == 7 {
      Ones(6);
      StoredOnce(AllOnes(6), 2);
      assert OneTwo(6, 7) == AllOnes(6) + [2];
    } else {
      TwoInSeventhPlace(n - 1);
      OneTwoGrows(6, n - 1);
      if n == 14 {
        FourteenthIsATie(OneTwo(6, 13));
      } else {
        SeventhGap(n);
        OneMoreOne(OneTwo(6, n - 1), SeventhCents(n - 1), SeventhCents(n));
      }
    }
  }

  /** (1.07 * 13 + 1) / 14 is 1.065, half way, and rounds to the even 1.06. */
  lemma FourteenthIsATie(s: seq<int>)
    requires |s| == 13 && Stored(s) == Cents(107)
    ensures Stored(s + [1]) == Cents(106)
  {
    StoredStep(s, 1);
    assert Blend(Cents(107), 13.0, 1.0) * 100.0 == 106.5;
    assert (106.5).Floor == 106;
  }

  lemma {:induction false} OnesCount(n: nat, x: int)
    ensures multiset(AllOnes(n))[x] == if x == 1 then n else 0
  {
    if n == 0 {
    } else {
      OnesCount(n - 1, x);
      assert AllOnes(n) == AllOnes(n - 1) + [1];
    }
  }

  lemma OneTwoCount(k: nat, n: nat, x: int)
    requires k < n
    ensures multiset(OneTwo(k, n))[x] == if x == 1 then n - 1 else if x == 2 then 1 else 0
  {
    OnesCount(k, x);
    OnesCount(n - k - 1, x);
    assert multiset(OneTwo(k, n)) == multiset(AllOnes(k)) + multiset{2} + multiset(AllOnes(n - k - 1));
  }

  lemma SameScores(j: nat, k: nat, n: nat)
    requires j < n && k < n
    ensures multiset(OneTwo(j, n)) == multiset(OneTwo(k, n))
  {
    forall x: int
      ensures multiset(OneTwo(j, n))[x] == multiset(OneTwo(k, n))[x]
    {
      OneTwoCount(j, n, x);
      OneTwoCount(k, n, x);
    }
  }

  /** The stored average does not depend on the order of the scores if and only if there are at most
      six of them. For any larger number, a single 2 among ones ends at one average in sixth place and
      at another in seventh. */
  lemma OrderIgnoredIff(n: nat)
    ensures IgnoresOrder(n) <==> n <= 6
  {
    if n <= 6 {
      FewIgnoreOrder(n);
    } else {
      var s, t := OneTwo(5, n), OneTwo(6, n);
      SameScores(5, 6, n);
      TwoInSixthPlace(n);
      TwoInSeventhPlace(n);
      assert SixthCents(n) != SeventhCents(n);
      assert ValidScores(s) && |s| == n && |t| == n;
      assert Stored(s) != Stored(t);
    }
  }
}
