/** The adjuster dashboard's figures over the claim list: the review queue,
    the flagged count, the rounded average confidence, and two top-3 panels. */
module AdjusterDashboard {
  import opened ClaimTypes
  import opened Seqs

  /** The review queue: the claims in hitl_review or processing, in list order. */
  function PendingReviewClaims(claims: seq<Claim>): (queue: seq<Claim>)
    ensures forall i :: 0 <= i < |queue| ==> queue[i] in claims && queue[i].status in {HitlReview, Processing}
    ensures forall i :: 0 <= i < |claims| ==> (claims[i] in queue <==> claims[i].status in {HitlReview, Processing})
  {
    Filter(claims, AwaitingReview)
  }

  /** The queue keeps list order: the queue of a concatenation is the concatenation of the queues. */
  lemma PendingReviewKeepsOrder(front: seq<Claim>, back: seq<Claim>)
    ensures PendingReviewClaims(front + back) == PendingReviewClaims(front) + PendingReviewClaims(back)
  {
    FilterAppend(front, back, AwaitingReview);
  }

  predicate Flagged(c: Claim) { c.flagsCount > 0 }

  function SumConfidence(claims: seq<Claim>): int {
    if claims == [] then 0 else claims[0].confidence + SumConfidence(claims[1..])
  }

  /** `Math.round(num / den)` for integers: the nearest integer, halves rounded up. */
  function RoundHalfUp(num: int, den: int): (r: int)
    requires den > 0
    ensures 2 * den * r <= 2 * num + den < 2 * den * r + 2 * den
  {
    (2 * num + den) / (2 * den)
  }

  /** The rounded mean confidence, defined for a non-empty list only. */
  function AverageConfidence(claims: seq<Claim>): (avg: int)
    requires |claims| > 0
    ensures 2 * |claims| * avg <= 2 * SumConfidence(claims) + |claims| < 2 * |claims| * avg + 2 * |claims|
  {
    RoundHalfUp(SumConfidence(claims), |claims|)
  }

  datatype Stats = Stats(pendingReview: nat, flaggedClaims: nat, avgConfidence: int, reviewedToday: nat)

  /** The four stat cards; "reviewed today" is a fixed 12. */
  function DashboardStats(claims: seq<Claim>): (s: Stats)
    requires |claims| > 0
    ensures s.pendingReview == |PendingReviewClaims(claims)|
    ensures s.flaggedClaims == |Filter(claims, Flagged)|
    ensures s.flaggedClaims == 0 <==> forall i :: 0 <= i < |claims| ==> claims[i].flagsCount <= 0
    ensures s.avgConfidence == AverageConfidence(claims)
    ensures s.reviewedToday == 12
  {
    Stats(|PendingReviewClaims(claims)|, Count(claims, Flagged), AverageConfidence(claims), 12)
  }

  /** The sum of n scores in [lo, hi] lies in [n * lo, n * hi]. */
  lemma {:induction false} SumWithin(claims: seq<Claim>, lo: int, hi: int)
    requires forall i :: 0 <= i < |claims| ==> lo <= claims[i].confidence <= hi
    ensures |claims| * lo <= SumConfidence(claims) <= |claims| * hi
  {
    if claims != [] {
      SumWithin(claims[1..], lo, hi);
      assert |claims| * lo == lo + (|claims| - 1) * lo;
      assert |claims| * hi == hi + (|claims| - 1) * hi;
    }
  }

  /** Cancelling a positive factor on both sides of a strict inequality. */
  lemma CancelFactor(a: int, x: int, y: int)
    requires a > 0 && a * x < a * y
    ensures x < y
  {
  }

  /** If n * lo <= sum <= n * hi then the rounded mean lies in [lo, hi]. */
  lemma RoundedMeanWithin(sum: int, n: int, lo: int, hi: int)
    requires n > 0 && n * lo <= sum <= n * hi
    ensures lo <= RoundHalfUp(sum, n) <= hi
  {
    var r := RoundHalfUp(sum, n);
    var m := 2 * n;
    assert m * r <= 2 * sum + n;
    assert 2 * sum + n < m * r + m;
    assert m * (hi + 1) == m * hi + m && m * hi == 2 * (n * hi);
    assert m * (r + 1) == m * r + m && m * lo == 2 * (n * lo);
    CancelFactor(m, r, hi + 1);
    CancelFactor(m, lo, r + 1);
  }

  /** With scores in [lo, hi], the rounded average is in [lo, hi] as well. */
  lemma AverageWithin(claims: seq<Claim>, lo: int, hi: int)
    requires |claims| > 0
    requires forall i :: 0 <= i < |claims| ==> lo <= claims[i].confidence <= hi
    ensures lo <= AverageConfidence(claims) <= hi
  {
    SumWithin(claims, lo, hi);
    RoundedMeanWithin(SumConfidence(claims), |claims|, lo, hi);
  }

  function MinConfidence(claims: seq<Claim>): (m: int)
    requires |claims| > 0
    ensures exists i :: 0 <= i < |claims| && claims[i].confidence == m
    ensures forall i :: 0 <= i < |claims| ==> m <= claims[i].confidence
  {
    if |claims| == 1 then claims[0].confidence
    else
      var rest := MinConfidence(claims[1..]);
      assert forall i :: 1 <= i < |claims| ==> claims[i] == claims[1..][i - 1];
      if claims[0].confidence <= rest then claims[0].confidence else rest
  }

  function MaxConfidence(claims: seq<Claim>): (m: int)
    requires |claims| > 0
    ensures exists i :: 0 <= i < |claims| && claims[i].confidence == m
    ensures forall i :: 0 <= i < |claims| ==> claims[i].confidence <= m
  {
    if |claims| == 1 then claims[0].confidence
    else
      var rest := MaxConfidence(claims[1..]);
      assert forall i :: 1 <= i < |claims| ==> claims[i] == claims[1..][i - 1];
      if claims[0].confidence >= rest then claims[0].confidence else rest
  }

  /** The average lies between the lowest and the highest score. */
  lemma AverageBetweenExtremes(claims: seq<Claim>)
    requires |claims| > 0
    ensures MinConfidence(claims) <= AverageConfidence(claims) <= MaxConfidence(claims)
  {
    AverageWithin(claims, MinConfidence(claims), MaxConfidence(claims));
  }

  predicate LowConfidence(c: Claim) { c.confidence < 70 }

  /** The low-confidence panel: the first (at most) three claims scoring below 70, in list order. */
  function LowConfidencePanel(claims: seq<Claim>): (shown: seq<Claim>)
    ensures |shown| == Min(3, Count(claims, LowConfidence))
    ensures forall i :: 0 <= i < |shown| ==> shown[i].confidence < 70 && shown[i] == Filter(claims, LowConfidence)[i]
  {
    Take(Filter(claims, LowConfidence), 3)
  }

  predicate HighFlags(c: Claim) { c.flagsCount >= 2 }

  predicate SortedByFlagsDesc(s: seq<Claim>) {
    forall i, j :: 0 <= i < j < |s| ==> s[i].flagsCount >= s[j].flagsCount
  }

  /** Places `x` before the first element whose flag count is not larger, so
      that `x` precedes every element with its own count. */
  function InsertByFlags(x: Claim, s: seq<Claim>): (r: seq<Claim>)
    ensures multiset(r) == multiset(s) + multiset{x}
    ensures |r| == |s| + 1
  {
    if s == [] then [x]
    else if x.flagsCount >= s[0].flagsCount then [x] + s
    else
      assert s == [s[0]] + s[1..];
      [s[0]] + InsertByFlags(x, s[1..])
  }

  /** Inserting below a bound stays below it. */
  lemma {:induction false} InsertByFlagsBounded(x: Claim, s: seq<Claim>, bound: int)
    requires x.flagsCount <= bound
    requires forall i :: 0 <= i < |s| ==> s[i].flagsCount <= bound
    ensures forall i :: 0 <= i < |s| + 1 ==> InsertByFlags(x, s)[i].flagsCount <= bound
  {
    if s != [] && x.flagsCount < s[0].flagsCount {
      InsertByFlagsBounded(x, s[1..], bound);
    }
  }

  /** Inserting into a sorted list keeps it sorted. */
  lemma {:induction false} InsertByFlagsSorted(x: Claim, s: seq<Claim>)
    requires SortedByFlagsDesc(s)
    ensures SortedByFlagsDesc(InsertByFlags(x, s))
  {
    if s != [] && x.flagsCount < s[0].flagsCount {
      InsertByFlagsSorted(x, s[1..]);
      InsertByFlagsBounded(x, s[1..], s[0].flagsCount);
    }
  }

  /** `.sort((a, b) => b.flagsCount - a.flagsCount)`: a stable sort by
      descending flag count, as insertion sort. */
  function SortByFlagsDesc(s: seq<Claim>): (r: seq<Claim>)
    ensures SortedByFlagsDesc(r)
    ensures multiset(r) == multiset(s)
    ensures |r| == |s|
  {
    if s == [] then []
    else
      assert s == [s[0]] + s[1..];
      var sortedRest := SortByFlagsDesc(s[1..]);
      InsertByFlagsSorted(s[0], sortedRest);
      InsertByFlags(s[0], sortedRest)
  }

  /** Inserting keeps the order among the claims with any one flag count,
      the inserted claim coming first among its equals. */
  lemma {:induction false} InsertByFlagsStable(x: Claim, s: seq<Claim>, p: Claim -> bool, k: int)
    requires forall c :: p(c) <==> c.flagsCount == k
    ensures Filter(InsertByFlags(x, s), p) == Filter([x], p) + Filter(s, p)
  {
    if s == [] {
    } else if x.flagsCount >= s[0].flagsCount {
      FilterAppend([x], s, p);
    } else {
      InsertByFlagsStable(x, s[1..], p, k);
      FilterAppend([s[0]], InsertByFlags(x, s[1..]), p);
      FilterAppend([s[0]], s[1..], p);
      assert s == [s[0]] + s[1..];
      if p(x) {
        assert !p(s[0]);
      }
    }
  }

  /** Stability: claims with equal flag counts keep their list order. */
  lemma {:induction false} SortByFlagsStable(s: seq<Claim>, p: Claim -> bool, k: int)
    requires forall c :: p(c) <==> c.flagsCount == k
    ensures Filter(SortByFlagsDesc(s), p) == Filter(s, p)
  {
    if s != [] {
      SortByFlagsStable(s[1..], p, k);
      InsertByFlagsStable(s[0], SortByFlagsDesc(s[1..]), p, k);
      FilterAppend([s[0]], s[1..], p);
      assert s == [s[0]] + s[1..];
    }
  }

  /** The high-flag panel: at most three claims with two or more flags,
      most flags first. */
  function HighFlagPanel(claims: seq<Claim>): (shown: seq<Claim>)
    ensures |shown| == Min(3, Count(claims, HighFlags))
    ensures forall i :: 0 <= i < |shown| ==> shown[i] in claims && shown[i].flagsCount >= 2
    ensures SortedByFlagsDesc(shown)
    ensures forall i :: 0 <= i < |shown| ==> shown[i] == SortByFlagsDesc(Filter(claims, HighFlags))[i]
  {
    var sorted := SortByFlagsDesc(Filter(claims, HighFlags));
    assert forall i :: 0 <= i < |sorted| ==> sorted[i] in multiset(Filter(claims, HighFlags));
    Take(sorted, 3)
  }

  /** The panel shows the top of the list: a high-flag claim left out has no
      more flags than any claim shown. */
  lemma HighFlagPanelIsTop(claims: seq<Claim>, c: Claim)
    requires c in claims && c.flagsCount >= 2 && c !in HighFlagPanel(claims)
    ensures forall i :: 0 <= i < |HighFlagPanel(claims)| ==> c.flagsCount <= HighFlagPanel(claims)[i].flagsCount
  {
    var candidates := Filter(claims, HighFlags);
    var sorted := SortByFlagsDesc(candidates);
    var shown := HighFlagPanel(claims);
    assert c in candidates;
    assert c in multiset(sorted);
    var k :| 0 <= k < |sorted| && sorted[k] == c;
    assert k >= |shown|;
  }
}
