// The score figures the recordings list and the dashboard both show: the interview scores
// that count (present and not zero, as `filter(Boolean)` keeps them), their rounded average
// and their best, each 0 when no score counts.

module ScoreStats {
  import opened JsCommon

  /** The values of `r` are exactly the present, non-zero ones among `scores`. */
  ghost predicate KeepsTruthy(r: seq<real>, scores: seq<Option<real>>) {
    forall x :: x in r <==> Some(x) in scores && Truthy(x)
  }

  /** `scores.filter(Boolean)` over scores that may be missing: the present, non-zero ones, in order. */
  function Present(scores: seq<Option<real>>): (r: seq<real>)
    ensures |r| <= |scores|
    ensures forall k :: 0 <= k < |r| ==> Truthy(r[k])
    ensures KeepsTruthy(r, scores)
  {
    if scores == [] then []
    else
      var before := scores[..|scores| - 1];
      var last := scores[|scores| - 1];
      assert scores == before + [last];
      Present(before) + (if last.Some? && Truthy(last.value) then [last.value] else [])
  }

  /** The scores of one more interview: its score comes last when it counts. */
  lemma PresentSnoc(s: seq<Option<real>>, x: Option<real>)
    ensures Present(s + [x]) == Present(s) + if x.Some? && Truthy(x.value) then [x.value] else []
  {
    assert (s + [x])[..|s|] == s;
  }

  /** The scores of two runs of interviews are those of the first run followed by those of the second. */
  lemma {:induction false} PresentAppend(a: seq<Option<real>>, b: seq<Option<real>>)
    ensures Present(a + b) == Present(a) + Present(b)
  {
    if b == [] {
      assert a + b == a;
    } else {
      var front, last := b[..|b| - 1], b[|b| - 1];
      var tail := if last.Some? && Truthy(last.value) then [last.value] else [];
      calc {
        Present(a + b);
        { assert a + b == (a + front) + [last]; }
        Present((a + front) + [last]);
        { PresentSnoc(a + front, last); }
        Present(a + front) + tail;
        { PresentAppend(a, front); }
        (Present(a) + Present(front)) + tail;
        Present(a) + (Present(front) + tail);
        { PresentSnoc(front, last); assert front + [last] == b; }
        Present(a) + Present(b);
      }
    }
  }

  /** Each non-zero score comes out as often as it went in; zero comes out never. */
  lemma {:induction false} PresentCounts(scores: seq<Option<real>>, x: real)
    ensures multiset(Present(scores))[x] == if Truthy(x) then multiset(scores)[Some(x)] else 0
  {
    if scores != [] {
      var before := scores[..|scores| - 1];
      var last := scores[|scores| - 1];
      assert scores == before + [last];
      PresentCounts(before, x);
      assert multiset(scores) == multiset(before) + multiset{last};
    }
  }

  /** A missing or zero score is left out, as if the interview had none. */
  lemma ZeroScoreIgnored(scores: seq<Option<real>>, s: Option<real>)
    requires s.None? || s == Some(0.0)
    ensures Present(scores + [s]) == Present(scores)
  {
    assert (scores + [s])[..|scores|] == scores;
  }

  /** The average score, rounded; 0 without scores. */
  function AverageScore(scores: seq<real>): (r: int)
    ensures scores == [] ==> r == 0
  {
    if |scores| > 0 then Round(Sum(scores) / |scores| as real) else 0
  }

  /** `Math.max(...scores)`; 0 without scores. */
  function BestScore(scores: seq<real>): (r: real)
    ensures scores == [] ==> r == 0.0
    ensures forall k :: 0 <= k < |scores| ==> scores[k] <= r
    ensures scores != [] ==> r in scores
  {
    if |scores| > 0 then MaxOf(scores) else 0.0
  }

  lemma {:induction false} SumAtMost(xs: seq<real>, m: real)
    requires forall k :: 0 <= k < |xs| ==> xs[k] <= m
    ensures Sum(xs) <= |xs| as real * m
  {
    if xs != [] {
      var before := xs[..|xs| - 1];
      SumAtMost(before, m);
      assert Sum(xs) == Sum(before) + xs[|xs| - 1];
      assert |xs| as real * m == |before| as real * m + m;
    }
  }

  lemma {:induction false} SumAtLeast(xs: seq<real>, m: real)
    requires forall k :: 0 <= k < |xs| ==> m <= xs[k]
    ensures |xs| as real * m <= Sum(xs)
  {
    if xs != [] {
      var before := xs[..|xs| - 1];
      SumAtLeast(before, m);
      assert Sum(xs) == Sum(before) + xs[|xs| - 1];
      assert |xs| as real * m == |before| as real * m + m;
    }
  }

  lemma QuotientAtMost(total: real, n: real, m: real)
    requires n > 0.0 && total <= n * m
    ensures total / n <= m
  {
    assert total / n * n == total;
  }

  lemma QuotientAtLeast(total: real, n: real, m: real)
    requires n > 0.0 && n * m <= total
    ensures m <= total / n
  {
    assert total / n * n == total;
  }

  /** `n · m` as `n` copies of `m` added up, which keeps the bounds below free of products of two unknowns. */
  function Times(n: nat, m: real): real
  {
    if n == 0 then 0.0 else Times(n - 1, m) + m
  }

  lemma {:induction false} TimesIsProduct(n: nat, m: real)
    ensures Times(n, m) == n as real * m
  {
    if n > 0 {
      TimesIsProduct(n - 1, m);
    }
  }

  lemma {:induction false} SumAtMostTimes(xs: seq<real>, m: real)
    requires forall k :: 0 <= k < |xs| ==> xs[k] <= m
    ensures Sum(xs) <= Times(|xs|, m)
  {
    if xs != [] {
      SumAtMostTimes(xs[..|xs| - 1], m);
    }
  }

  lemma {:induction false} SumAtLeastTimes(xs: seq<real>, m: real)
    requires forall k :: 0 <= k < |xs| ==> m <= xs[k]
    ensures Times(|xs|, m) <= Sum(xs)
  {
    if xs != [] {
      SumAtLeastTimes(xs[..|xs| - 1], m);
    }
  }

  lemma DivAtMost(t: real, n: nat, m: real)
    requires n > 0 && t <= Times(n, m)
    ensures t / n as real <= m
  {
    TimesIsProduct(n, m);
    QuotientAtMost(t, n as real, m);
  }

  lemma DivAtLeast(t: real, n: nat, m: real)
    requires n > 0 && Times(n, m) <= t
    ensures m <= t / n as real
  {
    TimesIsProduct(n, m);
    QuotientAtLeast(t, n as real, m);
  }

  lemma MeanAtMost(xs: seq<real>, m: real)
    requires |xs| > 0 && forall k :: 0 <= k < |xs| ==> xs[k] <= m
    ensures Sum(xs) / |xs| as real <= m
  {
    SumAtMostTimes(xs, m);
    DivAtMost(Sum(xs), |xs|, m);
  }

  lemma MeanAtLeast(xs: seq<real>, m: real)
    requires |xs| > 0 && forall k :: 0 <= k < |xs| ==> m <= xs[k]
    ensures m <= Sum(xs) / |xs| as real
  {
    SumAtLeastTimes(xs, m);
    DivAtLeast(Sum(xs), |xs|, m);
  }

  /** Scores between two whole numbers average, rounded, to a whole number between them. */
  lemma AverageBounded(scores: seq<real>, lo: int, hi: int)
    requires |scores| > 0
    requires forall k :: 0 <= k < |scores| ==> lo as real <= scores[k] <= hi as real
    ensures lo <= AverageScore(scores) <= hi
  {
    MeanAtMost(scores, hi as real);
    MeanAtLeast(scores, lo as real);
    RoundWithin(Sum(scores) / |scores| as real, lo, hi);
  }

  /** The average never shows above the best score, rounded. */
  lemma AverageAtMostBest(scores: seq<real>)
    requires |scores| > 0
    ensures AverageScore(scores) <= Round(BestScore(scores))
  {
    MeanAtMost(scores, BestScore(scores));
    RoundMonotone(Sum(scores) / |scores| as real, BestScore(scores));
  }

  /** No score that counts: both figures are 0. */
  lemma UnscoredShowZero(scores: seq<Option<real>>)
    requires forall k :: 0 <= k < |scores| ==> scores[k].None? || scores[k] == Some(0.0)
    ensures AverageScore(Present(scores)) == 0 && BestScore(Present(scores)) == 0.0
  {
    assert forall x :: x !in Present(scores);
  }
}
