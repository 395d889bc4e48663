/** The customer dashboard's stat cards and its recent-claims table. */
module CustomerDashboard {
  import opened ClaimTypes
  import opened Seqs
  import AdjusterDashboard

  predicate IsApproved(c: Claim) { c.status == Approved }
  predicate IsRejected(c: Claim) { c.status == Rejected }
  /** Status `pending`, which no card counts. */
  predicate IsPendingStatus(c: Claim) { c.status == Pending }

  datatype Stats = Stats(total: nat, pending: nat, approved: nat, rejected: nat)

  /** The four cards: all claims, the review queue, approved and rejected. */
  function DashboardStats(claims: seq<Claim>): (s: Stats)
    ensures s.total == |claims|
    ensures s.pending == Count(claims, AwaitingReview)
    ensures s.approved == Count(claims, IsApproved)
    ensures s.rejected == Count(claims, IsRejected)
    ensures s.pending + s.approved + s.rejected <= s.total
  {
    StatusBuckets(claims);
    Stats(|claims|, Count(claims, AwaitingReview), Count(claims, IsApproved), Count(claims, IsRejected))
  }

  /** Every claim falls in exactly one of the three cards or has status
      `pending`, so the cards plus the `pending` claims make up the total. */
  lemma {:induction false} StatusBuckets(claims: seq<Claim>)
    ensures Count(claims, AwaitingReview) + Count(claims, IsApproved) + Count(claims, IsRejected)
            + Count(claims, IsPendingStatus) == |claims|
  {
    if claims != [] {
      StatusBuckets(claims[1..]);
    }
  }

  /** The card sum falls short of the total exactly by the claims with status `pending`. */
  lemma CardsMissOnlyPending(claims: seq<Claim>)
    ensures DashboardStats(claims).pending + DashboardStats(claims).approved + DashboardStats(claims).rejected == |claims|
            <==> forall i :: 0 <= i < |claims| ==> claims[i].status != Pending
  {
    StatusBuckets(claims);
  }

  /** The customer's pending card counts the adjuster's review queue. */
  lemma PendingMatchesAdjusterQueue(claims: seq<Claim>)
    ensures DashboardStats(claims).pending == |AdjusterDashboard.PendingReviewClaims(claims)|
  {
  }

  /** The recent-claims table: the first min(5, n) claims, in order. */
  function RecentClaims(claims: seq<Claim>): (recent: seq<Claim>)
    ensures |recent| == Min(5, |claims|)
    ensures recent <= claims
  {
    Take(claims, 5)
  }
}
