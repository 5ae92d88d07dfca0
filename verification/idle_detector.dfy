/** `IdleAssetDetector.detect_idle_assets`, with the idle-day counts that
    the source draws at random supplied as an input. */
module IdleAssetDetector {
  import opened Balances
  import opened Sorting

  /** The constructor default of `idle_threshold_days`. */
  const DefaultThresholdDays: int := 30
  /** The assumed 8% average APY, spread over 365 days. */
  const DailyRate: real := 0.08 / 365.0

  datatype IdleRecord = IdleRecord(asset: string, balance: real, valueUsd: real,
                                   daysIdle: int, opportunityCost: real)

  function Cost(x: IdleRecord): real {
    x.opportunityCost
  }

  predicate IsIdle(b: Balance, daysIdle: int, threshold: int) {
    daysIdle >= threshold && b.balance > 0.0
  }

  function IdleRecordFor(b: Balance, daysIdle: int): (x: IdleRecord)
    ensures x.asset == b.asset && x.balance == b.balance && x.valueUsd == b.valueUsd
    ensures x.daysIdle == daysIdle
    ensures x.opportunityCost == b.valueUsd * DailyRate * daysIdle as real
  {
    IdleRecord(b.asset, b.balance, b.valueUsd, daysIdle, b.valueUsd * DailyRate * daysIdle as real)
  }

  /** The records appended by the loop, before sorting. */
  function IdleCandidates(balances: seq<Balance>, daysIdle: seq<int>, threshold: int): (r: seq<IdleRecord>)
    requires |daysIdle| == |balances|
    ensures |r| <= |balances|
    ensures forall i :: 0 <= i < |balances| && IsIdle(balances[i], daysIdle[i], threshold)
                        ==> IdleRecordFor(balances[i], daysIdle[i]) in r
    ensures forall x :: x in r ==>
              exists i :: 0 <= i < |balances| && IsIdle(balances[i], daysIdle[i], threshold)
                && x == IdleRecordFor(balances[i], daysIdle[i])
  {
    if balances == [] then []
    else
      var rest := IdleCandidates(balances[1..], daysIdle[1..], threshold);
      assert forall i :: 1 <= i < |balances| ==>
        balances[i] == balances[1..][i - 1] && daysIdle[i] == daysIdle[1..][i - 1];
      (if IsIdle(balances[0], daysIdle[0], threshold)
       then [IdleRecordFor(balances[0], daysIdle[0])] else []) + rest
  }

  /** One balance yields its record when idle and nothing otherwise. */
  lemma IdleCandidatesSingle(b: Balance, days: int, threshold: int)
    ensures IdleCandidates([b], [days], threshold)
            == if IsIdle(b, days, threshold) then [IdleRecordFor(b, days)] else []
  {
  }

  /** Balances are judged independently and in order: the records for a
      concatenation are the concatenated records, so each idle balance
      contributes its own record, duplicates included. */
  lemma {:induction false} IdleCandidatesAppend(a: seq<Balance>, da: seq<int>,
                                                b: seq<Balance>, db: seq<int>, threshold: int)
    requires |da| == |a| && |db| == |b|
    ensures IdleCandidates(a + b, da + db, threshold)
            == IdleCandidates(a, da, threshold) + IdleCandidates(b, db, threshold)
  {
    if a == [] {
      assert a + b == b && da + db == db;
    } else {
      assert (a + b)[1..] == a[1..] + b;
      assert (da + db)[1..] == da[1..] + db;
      IdleCandidatesAppend(a[1..], da[1..], b, db, threshold);
    }
  }

  /** Exactly the positive balances idle at least `threshold` days, with
      their opportunity cost, largest cost first; records of equal cost
      stay in input order. */
  function DetectIdleAssets(balances: seq<Balance>, daysIdle: seq<int>,
                            threshold: int := DefaultThresholdDays): (r: seq<IdleRecord>)
    requires |daysIdle| == |balances|
    ensures SortedDesc(r, Cost)
    ensures multiset(r) == multiset(IdleCandidates(balances, daysIdle, threshold))
    ensures forall i :: 0 <= i < |balances| && IsIdle(balances[i], daysIdle[i], threshold)
                        ==> IdleRecordFor(balances[i], daysIdle[i]) in r
    ensures forall x :: x in r ==>
              exists i :: 0 <= i < |balances| && IsIdle(balances[i], daysIdle[i], threshold)
                && x == IdleRecordFor(balances[i], daysIdle[i])
    ensures forall k :: WithKey(r, Cost, k) == WithKey(IdleCandidates(balances, daysIdle, threshold), Cost, k)
  {
    var candidates := IdleCandidates(balances, daysIdle, threshold);
    var r := SortDesc(candidates, Cost);
    assert forall x :: x in r <==> x in candidates by {
      forall x ensures x in r <==> x in candidates {
        assert x in r <==> x in multiset(r);
        assert x in candidates <==> x in multiset(candidates);
      }
    }
    forall k ensures WithKey(r, Cost, k) == WithKey(candidates, Cost, k) {
      SortDescStable(candidates, Cost, k);
    }
    r
  }
}
