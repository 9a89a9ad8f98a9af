/** src/api/ai_groups.py: when a further score leaves the stored average of update_agent_capability where
    it is. The average is rounded to hundredths at every score, so a score that would move it by less than
    half a hundredth does not move it at all. */
module ScoreSettling {
  import opened Options
  import opened MergeSorting
  import opened QuickSorting
  import opened Scoring
  import opened ScoreOrder

  // ----- One score -----

  /** The rounded value is c hundredths: less than half of one away, or half of one when c is even. */
  lemma RoundsToIff(x: real, c: int)
    ensures HalfEven(x) == Cents(c) <==>
              var d := x * 100.0 - c as real; -0.5 < d < 0.5 || ((d == 0.5 || d == -0.5) && c % 2 == 0)
  {
    var q := (x * 100.0).Floor;
    assert forall k: int :: Cents(k) == Cents(c) <==> k == c;
    assert q == c || q == c - 1 || q < c - 1 || q > c;
  }

  lemma {:induction false} StoredIsCents(s: seq<int>) returns (c: int)
    requires |s| > 0
    ensures Stored(s) == Cents(c)
  {
    var front, last := s[..|s| - 1], s[|s| - 1];
    assert s == front + [last];
    if |s| == 1 {
      ProfileStep(HalfEven, front, last);
      c := 100 * last;
    } else {
      StoredStep(front, last);
      var x := Blend(Stored(front), |front| as real, last as real);
      var q := (x * 100.0).Floor;
      c := if HalfEven(x) == Cents(q) then q else q + 1;
    }
  }

  /** The move of the average, in hundredths, times n + 1. */
  lemma MoveTimes(c: int, n: real, score: real)
    requires n >= 0.0
    ensures (Blend(Cents(c), n, score) * 100.0 - c as real) * (n + 1.0) == 100.0 * score - c as real
  {
    BlendTimes(Cents(c), n, score);
    CentsTimes(c, n);
    Distributes(Blend(Cents(c), n, score) * 100.0, -(c as real), n + 1.0);
  }

  lemma TimesOrder(a: real, b: real, m: real)
    requires m > 0.0
    ensures a < b <==> a * m < b * m
    ensures a == b <==> a * m == b * m
  {
    assert (b - a) * m == b * m - a * m;
    if b > a {
      assert (b - a) * m > 0.0;
    } else if b < a {
      assert (a - b) * m > 0.0;
    }
  }

  lemma HalfTimes(d: real, m: real)
    requires m > 0.0
    ensures -0.5 < d < 0.5 <==> -m < 2.0 * (d * m) < m
    ensures d == 0.5 <==> 2.0 * (d * m) == m
    ensures d == -0.5 <==> 2.0 * (d * m) == -m
  {
    TimesOrder(d, 0.5, m);
    TimesOrder(-0.5, d, m);
  }

  /** d is the move in hundredths, before rounding; `pull` is twice what it is multiplied by n + 1. */
  lemma RoundsBackIff(x: real, c: int, d: real, m: real, pull: real)
    requires m > 0.0 && d == x * 100.0 - c as real && pull == 2.0 * (d * m)
    ensures HalfEven(x) == Cents(c) <==> -m < pull < m || ((pull == m || pull == -m) && c % 2 == 0)
  {
    RoundsToIff(x, c);
    HalfTimes(d, m);
  }

  lemma BlendUnmoved(c: int, n: real, score: real, pull: real)
    requires n >= 0.0 && pull == 2.0 * (100.0 * score - c as real)
    ensures HalfEven(Blend(Cents(c), n, score)) == Cents(c) <==>
              var m := n + 1.0; -m < pull < m || ((pull == m || pull == -m) && c % 2 == 0)
  {
    var x := Blend(Cents(c), n, score);
    MoveTimes(c, n, score);
    RoundsBackIff(x, c, x * 100.0 - c as real, n + 1.0, pull);
  }

  /** A further score leaves n scores stored at c hundredths where they are. */
  predicate Unmoved(c: int, n: nat, score: int) {
    var pull := 2 * (100 * score - c);
    -(n + 1) < pull < n + 1 || ((pull == n + 1 || pull == -(n + 1)) && c % 2 == 0)
  }

  lemma PullInReals(c: int, n: nat, score: int)
    ensures Unmoved(c, n, score) <==>
              var pull, m := 2.0 * (100.0 * score as real - c as real), n as real + 1.0;
              -m < pull < m || ((pull == m || pull == -m) && c % 2 == 0)
  {
    assert (2 * (100 * score - c)) as real == 2.0 * (100.0 * score as real - c as real);
    assert (n + 1) as real == n as real + 1.0;
  }

  /** One more score leaves the stored average as it is if and only if the score is less than (n+1)/200
      away from it, or exactly that and the average an even number of hundredths. */
  lemma UnmovedIff(s: seq<int>, c: int, score: int)
    requires |s| > 0 && Stored(s) == Cents(c)
    ensures Stored(s + [score]) == Stored(s) <==> Unmoved(c, |s|, score)
  {
    StoredStep(s, score);
    BlendUnmoved(c, |s| as real, score as real, 2.0 * (100.0 * score as real - c as real));
    PullInReals(c, |s|, score);
  }

  // ----- All further scores -----

  /** No further scores move the average stored after any n scores. */
  ghost predicate Settles(n: nat)
    requires n > 0
  {
    forall s: seq<int>, more: seq<int> ::
      |s| == n && ValidScores(s) && ValidScores(more) ==> Stored(s + more) == Stored(s)
  }

  lemma ValidCents(s: seq<int>) returns (c: int)
    requires |s| > 0 && ValidScores(s)
    ensures Stored(s) == Cents(c) && 100 <= c <= 1000
  {
    c := StoredIsCents(s);
    HalfEvenIsRounding();
    ProfileInRange(HalfEven, s, 1, 10);
  }

  lemma {:induction false} StaysPut(s: seq<int>, more: seq<int>)
    requires |s| >= 1799 && ValidScores(s) && ValidScores(more)
    ensures Stored(s + more) == Stored(s)
  {
    if |more| == 0 {
      assert s + more == s;
    } else {
      var front, last := more[..|more| - 1], more[|more| - 1];
      StaysPut(s, front);
      var c := ValidCents(s + front);
      UnmovedIff(s + front, c, last);
      assert s + more == s + front + [last];
    }
  }

  /** The farthest a score can be is 10 after nothing but ones. */
  lemma TenMovesOnes(n: nat)
    requires 0 < n < 1799
    ensures Stored(AllOnes(n) + [10]) != Stored(AllOnes(n))
  {
    Ones(n);
    UnmovedIff(AllOnes(n), 100, 10);
  }

  /** The stored average of n scores is final, whatever scores follow, if and only if n is at least 1799. */
  lemma SettlesIff(n: nat)
    requires n > 0
    ensures Settles(n) <==> n >= 1799
  {
    if n >= 1799 {
      forall s: seq<int>, more: seq<int> | |s| == n && ValidScores(s) && ValidScores(more)
        ensures Stored(s + more) == Stored(s)
      {
        StaysPut(s, more);
      }
    } else {
      TenMovesOnes(n);
      assert |AllOnes(n)| == n && ValidScores(AllOnes(n)) && ValidScores([10]);
    }
  }
}
