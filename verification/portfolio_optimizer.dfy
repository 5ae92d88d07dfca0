/** `PortfolioOptimizer.optimize_allocation`: split the portfolio value
    over the tolerance's target buckets and put each share into the
    highest-APY opportunity of that bucket. */
module PortfolioOptimizer {
  import opened Wrappers
  import opened Allocations
  import opened Balances
  import opened YieldOpportunityMatcher
  import Text

  datatype AllocationEntry = AllocationEntry(protocol: string, asset: string, allocationUsd: real,
                                             allocationPercentage: real, expectedApy: real,
                                             riskLevel: RiskBucket)

  datatype Plan = Plan(allocations: seq<AllocationEntry>, totalAllocated: real,
                       projectedAnnualReturn: real, projectedMonthlyReturn: real,
                       strategy: string)

  /** Index of `max(o for o in opps if o.risk_level == b, key=apy)`:
      Python's `max` keeps the first of several equal maxima. */
  function BestInBucket(opps: seq<Opportunity>, b: RiskBucket): (r: Option<nat>)
    ensures r.None? <==> forall i :: 0 <= i < |opps| ==> opps[i].riskLevel != b
    ensures r.Some? ==> r.value < |opps| && opps[r.value].riskLevel == b
    ensures r.Some? ==> forall i :: 0 <= i < |opps| && opps[i].riskLevel == b
                                    ==> opps[i].apy <= opps[r.value].apy
    ensures r.Some? ==> forall i :: 0 <= i < r.value && opps[i].riskLevel == b
                                    ==> opps[i].apy < opps[r.value].apy
  {
    if opps == [] then None
    else
      var n := |opps| - 1;
      var k := BestInBucket(opps[..n], b);
      assert forall i :: 0 <= i < n ==> opps[..n][i] == opps[i];
      if opps[n].riskLevel != b then k
      else if k.None? || opps[n].apy > opps[k.value].apy then Some(n)
      else k
  }

  /** `e` invests in the first opportunity of maximal APY among those of
      its bucket. */
  ghost predicate ChosenFrom(opps: seq<Opportunity>, e: AllocationEntry) {
    && (exists k :: 0 <= k < |opps| && opps[k].riskLevel == e.riskLevel
          && opps[k].protocol == e.protocol && opps[k].asset == e.asset
          && opps[k].apy == e.expectedApy
          && forall i :: 0 <= i < k && opps[i].riskLevel == e.riskLevel
                         ==> opps[i].apy < e.expectedApy)
    && forall i :: 0 <= i < |opps| && opps[i].riskLevel == e.riskLevel
                   ==> opps[i].apy <= e.expectedApy
  }

  predicate HasBucket(opps: seq<Opportunity>, b: RiskBucket) {
    exists i :: 0 <= i < |opps| && opps[i].riskLevel == b
  }

  /** The allocation emitted for bucket `b` of `target`, if any. */
  function EntryFor(opps: seq<Opportunity>, b: RiskBucket, target: Allocation, total: real)
    : (r: seq<AllocationEntry>)
    ensures |r| <= 1
    ensures |r| == 1 <==> HasBucket(opps, b) && total * target.Get(b) > 0.0
    ensures forall e :: e in r ==>
              && e.riskLevel == b
              && e.allocationUsd == total * target.Get(e.riskLevel) && e.allocationUsd > 0.0
              && e.allocationPercentage == target.Get(e.riskLevel) * 100.0
              && ChosenFrom(opps, e)
  {
    var amount := total * target.Get(b);
    var best := BestInBucket(opps, b);
    if best.Some? && amount > 0.0 then
      var o := opps[best.value];
      [AllocationEntry(o.protocol, o.asset, amount, target.Get(b) * 100.0, o.apy, b)]
    else []
  }

  function UsdSum(entries: seq<AllocationEntry>): real {
    if entries == [] then 0.0 else entries[0].allocationUsd + UsdSum(entries[1..])
  }

  /** `sum(a['allocation_usd'] * a['expected_apy'] / 100 for a in allocations)`. */
  function AnnualReturn(entries: seq<AllocationEntry>): real {
    if entries == [] then 0.0
    else entries[0].allocationUsd * entries[0].expectedApy / 100.0 + AnnualReturn(entries[1..])
  }

  /** The allocations of one plan: one entry per bucket of `target`, in
      LOW, MODERATE, HIGH order, for the buckets that have opportunities
      and a positive amount. */
  function PlanEntries(opps: seq<Opportunity>, target: Allocation, total: real)
    : (entries: seq<AllocationEntry>)
    ensures |entries| <= 3
    ensures forall e :: e in entries ==>
              && e.allocationUsd == total * target.Get(e.riskLevel) && e.allocationUsd > 0.0
              && e.allocationPercentage == target.Get(e.riskLevel) * 100.0
              && ChosenFrom(opps, e)
  {
    var low := EntryFor(opps, Low, target, total);
    var moderate := EntryFor(opps, Moderate, target, total);
    var high := EntryFor(opps, High, target, total);
    var entries := low + moderate + high;
    assert forall e :: e in entries <==> e in low || e in moderate || e in high;
    entries
  }

  /** Allocations come in LOW, MODERATE, HIGH order, so no bucket gets two. */
  lemma PlanEntriesOrdered(opps: seq<Opportunity>, target: Allocation, total: real)
    ensures var entries := PlanEntries(opps, target, total);
            forall i, j :: 0 <= i < j < |entries|
              ==> entries[i].riskLevel.Rank() < entries[j].riskLevel.Rank()
  {
    RankOrder(EntryFor(opps, Low, target, total), EntryFor(opps, Moderate, target, total),
              EntryFor(opps, High, target, total));
  }

  /** A bucket gets an allocation exactly when it has an opportunity and a
      positive amount. */
  lemma PlanEntriesBuckets(opps: seq<Opportunity>, target: Allocation, total: real)
    ensures var entries := PlanEntries(opps, target, total);
            forall b :: (exists e :: e in entries && e.riskLevel == b)
                        <==> HasBucket(opps, b) && total * target.Get(b) > 0.0
  {
    var low := EntryFor(opps, Low, target, total);
    var moderate := EntryFor(opps, Moderate, target, total);
    var high := EntryFor(opps, High, target, total);
    assert PlanEntries(opps, target, total) == low + moderate + high;
    forall b
      ensures (exists e: AllocationEntry :: e in low + moderate + high && e.riskLevel == b)
              <==> HasBucket(opps, b) && total * target.Get(b) > 0.0
    {
      BucketPresence(low, moderate, high, b);
    }
  }

  /** With at most one entry per bucket part, an entry of bucket `b`
      exists exactly when `b`'s own part is non-empty. */
  lemma BucketPresence(low: seq<AllocationEntry>, moderate: seq<AllocationEntry>, high: seq<AllocationEntry>,
                       b: RiskBucket)
    requires forall e :: e in low ==> e.riskLevel == Low
    requires forall e :: e in moderate ==> e.riskLevel == Moderate
    requires forall e :: e in high ==> e.riskLevel == High
    ensures (exists e: AllocationEntry :: e in low + moderate + high && e.riskLevel == b)
            <==> (match b case Low => low case Moderate => moderate case High => high) != []
  {
    var own := match b case Low => low case Moderate => moderate case High => high;
    if own != [] {
      assert own[0] in low + moderate + high;
    }
  }

  /** At most one entry per bucket, concatenated in LOW, MODERATE, HIGH
      order, gives strictly increasing ranks. */
  lemma RankOrder(low: seq<AllocationEntry>, moderate: seq<AllocationEntry>, high: seq<AllocationEntry>)
    requires |low| <= 1 && |moderate| <= 1 && |high| <= 1
    requires forall e :: e in low ==> e.riskLevel == Low
    requires forall e :: e in moderate ==> e.riskLevel == Moderate
    requires forall e :: e in high ==> e.riskLevel == High
    ensures var r := low + moderate + high;
            forall i, j :: 0 <= i < j < |r| ==> r[i].riskLevel.Rank() < r[j].riskLevel.Rank()
  {
    var r := low + moderate + high;
    forall i, j | 0 <= i < j < |r|
      ensures r[i].riskLevel.Rank() < r[j].riskLevel.Rank()
    {
      if i < |low| {
        assert r[i] == low[i] && low[i] in low;
      } else if i < |low| + |moderate| {
        assert r[i] == moderate[i - |low|] && moderate[i - |low|] in moderate;
      }
      if j < |low| + |moderate| {
        assert r[j] == moderate[j - |low|] && moderate[j - |low|] in moderate;
      } else {
        assert r[j] == high[j - |low| - |moderate|] && high[j - |low| - |moderate|] in high;
      }
    }
  }

  /** `optimize_allocation`. */
  function OptimizeAllocation(balances: seq<Balance>, opps: seq<Opportunity>, tolerance: string := "moderate")
    : (p: Plan)
    ensures p.totalAllocated == TotalValue(balances)
    ensures p.strategy == tolerance
    ensures p.allocations == PlanEntries(opps, AllocationFor(tolerance), TotalValue(balances))
    ensures p.projectedAnnualReturn == AnnualReturn(p.allocations)
    ensures 12.0 * p.projectedMonthlyReturn == p.projectedAnnualReturn
  {
    var entries := PlanEntries(opps, AllocationFor(tolerance), TotalValue(balances));
    var annual := AnnualReturn(entries);
    Plan(entries, TotalValue(balances), annual, annual / 12.0, tolerance)
  }

  /** A conservative plan never allocates to the HIGH bucket: its share is 0. */
  lemma ConservativeNeverHigh(balances: seq<Balance>, opps: seq<Opportunity>, tolerance: string)
    requires Text.Lower(tolerance) == "conservative"
    ensures forall e :: e in OptimizeAllocation(balances, opps, tolerance).allocations
                        ==> e.riskLevel != High
  {
  }

  /** The target shares of the buckets of rank `r` and above. */
  function ShareFrom(target: Allocation, r: nat): real {
    (if r <= 0 then target.low else 0.0)
    + (if r <= 1 then target.moderate else 0.0)
    + (if r <= 2 then target.high else 0.0)
  }

  /** The target shares the entries stand for, added up. */
  function ShareSum(entries: seq<AllocationEntry>, target: Allocation): real {
    if entries == [] then 0.0 else target.Get(entries[0].riskLevel) + ShareSum(entries[1..], target)
  }

  /** Entries of strictly increasing bucket rank, all of rank `r` or more,
      stand for at most the shares from rank `r` on. */
  lemma {:induction false} SharesWithin(entries: seq<AllocationEntry>, target: Allocation, r: nat)
    requires target.Valid()
    requires forall i :: 0 <= i < |entries| ==> r <= entries[i].riskLevel.Rank()
    requires forall i, j :: 0 <= i < j < |entries|
                            ==> entries[i].riskLevel.Rank() < entries[j].riskLevel.Rank()
    ensures ShareSum(entries, target) <= ShareFrom(target, r)
  {
    if entries != [] {
      var e := entries[0];
      var rest := entries[1..];
      assert forall i :: 0 <= i < |rest| ==> rest[i] == entries[i + 1];
      SharesWithin(rest, target, e.riskLevel.Rank() + 1);
      ShareSplit(target, e.riskLevel, r);
    }
  }

  /** The share of one bucket of rank at least `r`, plus the shares above
      it, is at most the shares from rank `r` on. */
  lemma ShareSplit(target: Allocation, b: RiskBucket, r: nat)
    requires target.Valid() && r <= b.Rank()
    ensures target.Get(b) + ShareFrom(target, b.Rank() + 1) <= ShareFrom(target, r)
  {
  }

  /** Entries each holding their bucket's share of `total` add up to
      `total` times their shares. */
  lemma {:induction false} UsdSumScales(entries: seq<AllocationEntry>, target: Allocation, total: real)
    requires forall i :: 0 <= i < |entries|
                         ==> entries[i].allocationUsd == total * target.Get(entries[i].riskLevel)
    ensures UsdSum(entries) == total * ShareSum(entries, target)
  {
    if entries != [] {
      var rest := entries[1..];
      assert forall i :: 0 <= i < |rest| ==> rest[i] == entries[i + 1];
      UsdSumScales(rest, target, total);
      Distribute(total, target.Get(entries[0].riskLevel), ShareSum(rest, target));
    }
  }

  lemma Distribute(total: real, a: real, b: real)
    ensures total * a + total * b == total * (a + b)
  {
  }

  lemma ScaleAtMostOne(total: real, x: real)
    requires 0.0 <= total && x <= 1.0
    ensures total * x <= total
  {
    assert total * (1.0 - x) >= 0.0;
  }

  /** With a non-negative portfolio value the allocated amounts never add
      up to more than that value, because the target shares sum to 1. */
  lemma AllocatedWithinTotal(balances: seq<Balance>, opps: seq<Opportunity>, tolerance: string)
    requires forall i :: 0 <= i < |balances| ==> balances[i].valueUsd >= 0.0
    ensures UsdSum(OptimizeAllocation(balances, opps, tolerance).allocations) <= TotalValue(balances)
  {
    var total := TotalValue(balances);
    var target := AllocationFor(tolerance);
    var entries := PlanEntries(opps, target, total);
    TotalValueNonNegative(balances);
    PlanEntriesOrdered(opps, target, total);
    UsdSumScales(entries, target, total);
    SharesWithin(entries, target, 0);
    ScaleAtMostOne(total, ShareSum(entries, target));
  }
}
