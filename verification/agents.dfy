/** The six monitoring agents of `stellar_ai_agents.py`. Each `check()` is
    modelled as a pure step from the data its mock fetcher returns (and,
    for the change-based agents, the previous baseline) to the alerts it
    passes to the notification callback, in callback order. */
module Agents {
  import opened Allocations
  import opened Alerts
  import opened Baselines

  function Abs(x: real): (r: real)
    ensures r >= 0.0 && (r == x || r == -x)
  {
    if x < 0.0 then -x else x
  }

  // ---------------------------------------------------------------------
  // Lifecycle: only the `is_active` flag of `BaseAgent`.

  datatype AgentKind =
    | IdleAssetMonitor | OpportunityScout | RiskMonitor
    | AutoRebalancer | YieldHarvester | PriceMovementMonitor

  datatype Agent = Agent(kind: AgentKind, active: bool)

  /** A freshly constructed agent is not active. */
  function NewAgent(kind: AgentKind): (a: Agent)
    ensures a.kind == kind && !a.active
  {
    Agent(kind, false)
  }

  /** `start()` sets `is_active`; it never checks whether it was already set. */
  function Start(a: Agent): (r: Agent)
    ensures r.active && r.kind == a.kind
  {
    a.(active := true)
  }

  function Stop(a: Agent): (r: Agent)
    ensures !r.active && r.kind == a.kind
  {
    a.(active := false)
  }

  lemma StopIdempotent(a: Agent)
    ensures Stop(Stop(a)) == Stop(a)
  {
  }

  lemma StartAcceptsRunningAgent(a: Agent)
    requires a.active
    ensures Start(a) == a
  {
  }

  // ---------------------------------------------------------------------
  // IdleAssetMonitorAgent

  const IdleThresholdDays: int := 30

  /** One entry of `_get_idle_assets()`. */
  datatype IdleHolding = IdleHolding(asset: string, daysIdle: int, valueUsd: real,
                                     potentialMonthly: real)

  function IdleAlert(h: IdleHolding): (a: Alert)
    ensures a.kind == IdleAsset(h.asset, h.daysIdle, h.valueUsd, h.potentialMonthly)
    ensures a.priority == Medium || a.priority == HighPriority
    ensures a.priority == HighPriority <==> h.daysIdle >= 60
    ensures a.kind.TypeName() == "IDLE_ASSET" && a.action == "Activate Now"
  {
    Alert(IdleAsset(h.asset, h.daysIdle, h.valueUsd, h.potentialMonthly),
          if h.daysIdle < 60 then Medium else HighPriority,
          "", "", "Activate Now")
  }

  /** One alert per holding idle at least 30 days, in input order. */
  function IdleCheck(holdings: seq<IdleHolding>): (r: seq<Alert>)
    ensures |r| <= |holdings|
    ensures forall i :: 0 <= i < |holdings| && holdings[i].daysIdle >= IdleThresholdDays
                        ==> IdleAlert(holdings[i]) in r
    ensures forall a :: a in r ==>
              exists i :: 0 <= i < |holdings|
                && holdings[i].daysIdle >= IdleThresholdDays && a == IdleAlert(holdings[i])
  {
    if holdings == [] then []
    else
      var h := holdings[0];
      var rest := IdleCheck(holdings[1..]);
      assert forall i :: 1 <= i < |holdings| ==> holdings[i] == holdings[1..][i - 1];
      (if h.daysIdle >= IdleThresholdDays then [IdleAlert(h)] else []) + rest
  }

  /** The check treats holdings independently: checking two lists in turn
      is checking their concatenation. */
  lemma {:induction false} IdleCheckAppend(a: seq<IdleHolding>, b: seq<IdleHolding>)
    ensures IdleCheck(a + b) == IdleCheck(a) + IdleCheck(b)
  {
    if a != [] {
      assert (a + b)[1..] == a[1..] + b;
      IdleCheckAppend(a[1..], b);
    } else {
      assert a + b == b;
    }
  }

  // ---------------------------------------------------------------------
  // OpportunityScoutAgent

  /** One entry of `_get_current_opportunities()`. */
  datatype ApyQuote = ApyQuote(protocol: string, apy: real, risk: string)

  datatype ScoutResult = ScoutResult(alerts: seq<Alert>, trackedApys: map<string, real>)

  function SpikeAlert(q: ApyQuote, previous: real): (a: Alert)
    ensures a.kind == ApySpike(q.protocol, q.apy, previous)
    ensures a.priority == HighPriority
    ensures a.kind.TypeName() == "APY_SPIKE" && a.action == "View Details"
  {
    Alert(ApySpike(q.protocol, q.apy, previous), HighPriority, "", "", "View Details")
  }

  function ApyObservations(quotes: seq<ApyQuote>): (obs: seq<Observation>)
    ensures |obs| == |quotes|
    ensures forall i :: 0 <= i < |quotes| ==> obs[i] == Observation(quotes[i].protocol, quotes[i].apy)
  {
    seq(|quotes|, i requires 0 <= i < |quotes| => Observation(quotes[i].protocol, quotes[i].apy))
  }

  /** Quotes are processed in order against the baseline as updated by the
      earlier quotes of the same cycle. */
  function ScoutCheck(quotes: seq<ApyQuote>, tracked: map<string, real>): ScoutResult {
    if quotes == [] then ScoutResult([], tracked)
    else
      var q := quotes[0];
      var rest := ScoutCheck(quotes[1..], tracked[q.protocol := q.apy]);
      ScoutResult(SpikeFired(q, tracked) + rest.alerts, rest.trackedApys)
  }

  /** The alert (at most one) a quote raises against the baseline. */
  function SpikeFired(q: ApyQuote, tracked: map<string, real>): (r: seq<Alert>)
    ensures |r| <= 1
    ensures r != [] <==> q.protocol in tracked && q.apy - tracked[q.protocol] > 2.0
    ensures forall a :: a in r ==> a == SpikeAlert(q, tracked[q.protocol])
  {
    if q.protocol in tracked && q.apy - tracked[q.protocol] > 2.0
    then [SpikeAlert(q, tracked[q.protocol])] else []
  }

  /** Every scout alert is a HIGH APY spike of more than 2 points, and
      there is at most one per quote. */
  lemma {:induction false} ScoutAlertsAreSpikes(quotes: seq<ApyQuote>, tracked: map<string, real>)
    ensures |ScoutCheck(quotes, tracked).alerts| <= |quotes|
    ensures forall a :: a in ScoutCheck(quotes, tracked).alerts ==>
              a.priority == HighPriority && a.kind.ApySpike?
              && a.kind.currentApy - a.kind.previousApy > 2.0
  {
    if quotes != [] {
      var q := quotes[0];
      ScoutAlertsAreSpikes(quotes[1..], tracked[q.protocol := q.apy]);
    }
  }

  /** After a cycle every quoted protocol's baseline holds its last quoted
      APY, whether or not an alert fired; other baselines are untouched. */
  lemma {:induction false} ScoutCheckRebaselines(quotes: seq<ApyQuote>, tracked: map<string, real>)
    ensures ScoutCheck(quotes, tracked).trackedApys == Rebaseline(tracked, ApyObservations(quotes))
  {
    if quotes != [] {
      var q := quotes[0];
      ScoutCheckRebaselines(quotes[1..], tracked[q.protocol := q.apy]);
      assert ApyObservations(quotes) == [Observation(q.protocol, q.apy)] + ApyObservations(quotes[1..]);
      RebaselineCons(tracked, Observation(q.protocol, q.apy), ApyObservations(quotes[1..]));
    }
  }

  /** A single quote raises an alert exactly when its protocol has a
      baseline and the APY rose by strictly more than 2 points. */
  lemma ScoutSingleQuote(q: ApyQuote, tracked: map<string, real>)
    ensures ScoutCheck([q], tracked).alerts
            == if q.protocol in tracked && q.apy - tracked[q.protocol] > 2.0
               then [SpikeAlert(q, tracked[q.protocol])] else []
    ensures ScoutCheck([q], tracked).trackedApys == tracked[q.protocol := q.apy]
  {
    assert [q][1..] == [];
  }

  /** A cycle over `a + b` is a cycle over `a` followed by one over `b`
      from the baseline `a` left behind. */
  lemma {:induction false} ScoutCheckAppend(a: seq<ApyQuote>, b: seq<ApyQuote>, tracked: map<string, real>)
    ensures ScoutCheck(a + b, tracked)
            == ScoutResult(ScoutCheck(a, tracked).alerts
                           + ScoutCheck(b, ScoutCheck(a, tracked).trackedApys).alerts,
                           ScoutCheck(b, ScoutCheck(a, tracked).trackedApys).trackedApys)
  {
    if a == [] {
      assert a + b == b;
    } else {
      var q := a[0];
      assert (a + b)[0] == q;
      assert (a + b)[1..] == a[1..] + b;
      ScoutCheckAppend(a[1..], b, tracked[q.protocol := q.apy]);
      ScoutAppendStep(a, b, tracked);
    }
  }

  /** The inductive step of `ScoutCheckAppend`. */
  lemma ScoutAppendStep(a: seq<ApyQuote>, b: seq<ApyQuote>, tracked: map<string, real>)
    requires a != [] && (a + b)[1..] == a[1..] + b
    requires var t := tracked[a[0].protocol := a[0].apy];
             var front := ScoutCheck(a[1..], t);
             var back := ScoutCheck(b, front.trackedApys);
             ScoutCheck(a[1..] + b, t) == ScoutResult(front.alerts + back.alerts, back.trackedApys)
    ensures ScoutCheck(a + b, tracked)
            == ScoutResult(ScoutCheck(a, tracked).alerts
                           + ScoutCheck(b, ScoutCheck(a, tracked).trackedApys).alerts,
                           ScoutCheck(b, ScoutCheck(a, tracked).trackedApys).trackedApys)
  {
    var fired := SpikeFired(a[0], tracked);
    var front := ScoutCheck(a[1..], tracked[a[0].protocol := a[0].apy]);
    var back := ScoutCheck(b, front.trackedApys);
    assert fired + (front.alerts + back.alerts) == (fired + front.alerts) + back.alerts;
  }

  ghost predicate DistinctProtocols(quotes: seq<ApyQuote>) {
    forall i, j :: 0 <= i < j < |quotes| ==> quotes[i].protocol != quotes[j].protocol
  }

  /** First observations are silent: quotes for protocols never seen
      before raise nothing. */
  lemma {:induction false} ScoutFirstObservationSilent(quotes: seq<ApyQuote>, tracked: map<string, real>)
    requires DistinctProtocols(quotes)
    requires forall i :: 0 <= i < |quotes| ==> quotes[i].protocol !in tracked
    ensures ScoutCheck(quotes, tracked).alerts == []
  {
    if quotes != [] {
      var q := quotes[0];
      var rest := quotes[1..];
      assert forall i :: 0 <= i < |rest| ==> rest[i] == quotes[i + 1];
      ScoutFirstObservationSilent(rest, tracked[q.protocol := q.apy]);
    }
  }

  // ---------------------------------------------------------------------
  // RiskMonitorAgent

  /** One entry of `_check_risks()`; `severity` is compared as a string. */
  datatype RiskFinding = RiskFinding(severity: string, title: string, message: string)

  predicate Alarming(f: RiskFinding) {
    f.severity == "HIGH" || f.severity == "CRITICAL"
  }

  function RiskAlertFor(f: RiskFinding): (a: Alert)
    ensures a.kind == RiskAlert && a.title == f.title && a.message == f.message
    ensures a.priority == Critical || a.priority == HighPriority
    ensures a.priority == Critical <==> f.severity == "CRITICAL"
    ensures a.kind.TypeName() == "RISK_ALERT" && a.action == "Review Position"
  {
    Alert(RiskAlert, if f.severity == "CRITICAL" then Critical else HighPriority,
          f.title, f.message, "Review Position")
  }

  function RiskCheck(findings: seq<RiskFinding>): (r: seq<Alert>)
    ensures |r| <= |findings|
    ensures forall i :: 0 <= i < |findings| && Alarming(findings[i]) ==> RiskAlertFor(findings[i]) in r
    ensures forall a :: a in r ==>
              exists i :: 0 <= i < |findings|
                && Alarming(findings[i]) && a == RiskAlertFor(findings[i])
  {
    if findings == [] then []
    else
      var f := findings[0];
      var rest := RiskCheck(findings[1..]);
      assert forall i :: 1 <= i < |findings| ==> findings[i] == findings[1..][i - 1];
      (if Alarming(f) then [RiskAlertFor(f)] else []) + rest
  }

  lemma {:induction false} RiskCheckAppend(a: seq<RiskFinding>, b: seq<RiskFinding>)
    ensures RiskCheck(a + b) == RiskCheck(a) + RiskCheck(b)
  {
    if a != [] {
      assert (a + b)[1..] == a[1..] + b;
      RiskCheckAppend(a[1..], b);
    } else {
      assert a + b == b;
    }
  }

  // ---------------------------------------------------------------------
  // AutoRebalancerAgent

  const DriftThreshold: real := 0.10

  /** `current_allocation.get(bucket, 0)`. */
  function CurrentShare(current: map<RiskBucket, real>, b: RiskBucket): real {
    if b in current then current[b] else 0.0
  }

  function Drift(target: Allocation, current: map<RiskBucket, real>, b: RiskBucket): (d: real)
    ensures d >= 0.0
    ensures d == CurrentShare(current, b) - target.Get(b) || d == target.Get(b) - CurrentShare(current, b)
  {
    Abs(CurrentShare(current, b) - target.Get(b))
  }

  function RebalanceAlert(b: RiskBucket, drift: real): (a: Alert)
    ensures a.kind == Rebalance(b, drift) && a.priority == Medium
    ensures a.kind.TypeName() == "REBALANCE" && a.action == "Rebalance"
    ensures a.title == "Portfolio needs rebalancing"
  {
    Alert(Rebalance(b, drift), Medium, "Portfolio needs rebalancing", "", "Rebalance")
  }

  /** The alert (at most one) for bucket `b`. */
  function RebalanceFor(target: Allocation, current: map<RiskBucket, real>, b: RiskBucket): (r: seq<Alert>)
    ensures r == [] || r == [RebalanceAlert(b, Drift(target, current, b))]
    ensures r != [] <==> Drift(target, current, b) > DriftThreshold
  {
    var d := Drift(target, current, b);
    if d > DriftThreshold then [RebalanceAlert(b, d)] else []
  }

  /** One MEDIUM alert per target bucket (LOW, MODERATE, HIGH order) whose
      drift strictly exceeds 0.10. */
  function RebalanceCheck(target: Allocation, current: map<RiskBucket, real>): (r: seq<Alert>)
    ensures |r| <= 3
    ensures forall b :: RebalanceAlert(b, Drift(target, current, b)) in r
                        <==> Drift(target, current, b) > DriftThreshold
    ensures forall a :: a in r ==>
              a.priority == Medium && a.kind.Rebalance?
              && a.kind.drift == Drift(target, current, a.kind.bucket)
    ensures forall i, j :: 0 <= i < j < |r| ==> r[i].kind.bucket.Rank() < r[j].kind.bucket.Rank()
  {
    var dl, dm, dh := Drift(target, current, Low), Drift(target, current, Moderate),
                      Drift(target, current, High);
    var r := RebalanceFor(target, current, Low) + RebalanceFor(target, current, Moderate)
             + RebalanceFor(target, current, High);
    BucketFacts(RebalanceFor(target, current, Low), RebalanceFor(target, current, Moderate),
                RebalanceFor(target, current, High), dl, dm, dh);
    assert forall b :: Drift(target, current, b) == PerBucket(b, dl, dm, dh);
    r
  }

  /** The converse of the trigger rule: every rebalance alert belongs to a
      bucket whose drift exceeds 0.10, and is exactly that bucket's alert. */
  lemma RebalanceAlertsJustified(target: Allocation, current: map<RiskBucket, real>)
    ensures forall a :: a in RebalanceCheck(target, current) ==>
              a.kind.Rebalance? && Drift(target, current, a.kind.bucket) > DriftThreshold
              && a == RebalanceAlert(a.kind.bucket, Drift(target, current, a.kind.bucket))
  {
    var dl, dm, dh := Drift(target, current, Low), Drift(target, current, Moderate),
                      Drift(target, current, High);
    BucketAlertsJustified(RebalanceFor(target, current, Low), RebalanceFor(target, current, Moderate),
                          RebalanceFor(target, current, High), dl, dm, dh);
    assert forall b :: Drift(target, current, b) == PerBucket(b, dl, dm, dh);
  }

  function PerBucket(b: RiskBucket, dl: real, dm: real, dh: real): real {
    match b
    case Low => dl
    case Moderate => dm
    case High => dh
  }

  /** The per-bucket alerts, concatenated in table order: one alert per
      bucket whose drift exceeds the threshold, in strictly increasing
      bucket rank. */
  lemma BucketFacts(low: seq<Alert>, moderate: seq<Alert>, high: seq<Alert>, dl: real, dm: real, dh: real)
    requires low == [] || low == [RebalanceAlert(Low, dl)]
    requires moderate == [] || moderate == [RebalanceAlert(Moderate, dm)]
    requires high == [] || high == [RebalanceAlert(High, dh)]
    requires low != [] <==> dl > DriftThreshold
    requires moderate != [] <==> dm > DriftThreshold
    requires high != [] <==> dh > DriftThreshold
    ensures var r := low + moderate + high;
            && |r| <= 3
            && (forall b :: RebalanceAlert(b, PerBucket(b, dl, dm, dh)) in r
                            <==> PerBucket(b, dl, dm, dh) > DriftThreshold)
            && (forall a :: a in r ==>
                  a.priority == Medium && a.kind.Rebalance?
                  && a.kind.drift == PerBucket(a.kind.bucket, dl, dm, dh))
            && (forall i, j :: 0 <= i < j < |r| ==> r[i].kind.bucket.Rank() < r[j].kind.bucket.Rank())
  {
    var r := low + moderate + high;
    forall b
      ensures RebalanceAlert(b, PerBucket(b, dl, dm, dh)) in r <==> PerBucket(b, dl, dm, dh) > DriftThreshold
    {
      var x := RebalanceAlert(b, PerBucket(b, dl, dm, dh));
      assert x in r <==> x in low || x in moderate || x in high;
    }
    forall i, j | 0 <= i < j < |r|
      ensures r[i].kind.bucket.Rank() < r[j].kind.bucket.Rank()
    {
      if i < |low| {
        assert r[i] == low[i];
      } else if i < |low| + |moderate| {
        assert r[i] == moderate[i - |low|];
      }
      if j < |low| + |moderate| {
        assert r[j] == moderate[j - |low|];
      } else {
        assert r[j] == high[j - |low| - |moderate|];
      }
    }
  }

  /** Every alert in the concatenation is the rebalance alert of a bucket
      whose drift exceeds the threshold. */
  lemma BucketAlertsJustified(low: seq<Alert>, moderate: seq<Alert>, high: seq<Alert>,
                              dl: real, dm: real, dh: real)
    requires low == [] || low == [RebalanceAlert(Low, dl)]
    requires moderate == [] || moderate == [RebalanceAlert(Moderate, dm)]
    requires high == [] || high == [RebalanceAlert(High, dh)]
    requires low != [] <==> dl > DriftThreshold
    requires moderate != [] <==> dm > DriftThreshold
    requires high != [] <==> dh > DriftThreshold
    ensures forall a :: a in low + moderate + high ==>
              a.kind.Rebalance? && PerBucket(a.kind.bucket, dl, dm, dh) > DriftThreshold
              && a == RebalanceAlert(a.kind.bucket, PerBucket(a.kind.bucket, dl, dm, dh))
  {
    forall a | a in low + moderate + high
      ensures a.kind.Rebalance? && PerBucket(a.kind.bucket, dl, dm, dh) > DriftThreshold
              && a == RebalanceAlert(a.kind.bucket, PerBucket(a.kind.bucket, dl, dm, dh))
    {
      assert a in low || a in moderate || a in high;
    }
  }

  // ---------------------------------------------------------------------
  // YieldHarvesterAgent

  const MinClaimThreshold: real := 1.0

  /** One entry of `_get_unclaimed_rewards()`. */
  datatype Reward = Reward(protocol: string, asset: string, amount: real, valueUsd: real)

  /** `sum(r['value_usd'] for r in unclaimed)`. */
  function TotalUsd(rewards: seq<Reward>): real {
    if rewards == [] then 0.0 else rewards[0].valueUsd + TotalUsd(rewards[1..])
  }

  lemma {:induction false} TotalUsdAppend(a: seq<Reward>, b: seq<Reward>)
    ensures TotalUsd(a + b) == TotalUsd(a) + TotalUsd(b)
  {
    if a == [] {
      assert a + b == b;
    } else {
      assert (a + b)[1..] == a[1..] + b;
      TotalUsdAppend(a[1..], b);
    }
  }

  /** Exactly one LOW alert when the rewards total at least $1, else none. */
  function HarvestCheck(rewards: seq<Reward>): (r: seq<Alert>)
    ensures |r| <= 1
    ensures |r| == 1 <==> TotalUsd(rewards) >= MinClaimThreshold
    ensures forall a :: a in r ==>
              a.priority == LowPriority && a.kind == Harvest(TotalUsd(rewards), |rewards|)
              && a.kind.TypeName() == "HARVEST" && a.action == "Claim All"
  {
    var total := TotalUsd(rewards);
    if total >= MinClaimThreshold
    then [Alert(Harvest(total, |rewards|), LowPriority, "", "", "Claim All")]
    else []
  }

  // ---------------------------------------------------------------------
  // PriceMovementAgent

  const PriceThreshold: real := 0.05

  /** Outcome of one price cycle. `aborted` is set when a baseline price is
      zero: the division raises, the run loop swallows the exception, and
      the alerts and baseline updates made before it stand. */
  datatype PriceResult = PriceResult(alerts: seq<Alert>, lastPrices: map<string, real>, aborted: bool)

  function Change(price: real, previous: real): real
    requires previous != 0.0
  {
    (price - previous) / previous
  }

  function PriceAlert(asset: string, change: real, price: real): (a: Alert)
    ensures a.kind == PriceMovement(asset, change, price)
    ensures a.priority == Medium || a.priority == HighPriority
    ensures a.priority == Medium <==> Abs(change) < 0.10
    ensures a.kind.TypeName() == "PRICE_MOVEMENT" && a.action == "Check Portfolio"
  {
    Alert(PriceMovement(asset, change, price),
          if Abs(change) < 0.10 then Medium else HighPriority,
          "", "", "Check Portfolio")
  }

  /** The alert one price raises against a usable baseline: none on the
      asset's first observation, one when it moved by at least 5%. */
  function PriceFired(o: Observation, last: map<string, real>): (r: seq<Alert>)
    requires !(o.key in last && last[o.key] == 0.0)
    ensures |r| <= 1
    ensures o.key !in last ==> r == []
    ensures o.key in last ==>
              (r != [] <==> Abs(Change(o.value, last[o.key])) >= PriceThreshold)
    ensures forall a :: a in r ==>
              a == PriceAlert(o.key, Change(o.value, last[o.key]), o.value)
  {
    if o.key in last && Abs(Change(o.value, last[o.key])) >= PriceThreshold
    then [PriceAlert(o.key, Change(o.value, last[o.key]), o.value)] else []
  }

  /** `current_prices.items()` as observations, processed in order. */
  function PriceCheck(prices: seq<Observation>, last: map<string, real>): PriceResult {
    if prices == [] then PriceResult([], last, false)
    else
      var o := prices[0];
      if o.key in last && last[o.key] == 0.0 then PriceResult([], last, true)
      else
        var rest := PriceCheck(prices[1..], last[o.key := o.value]);
        PriceResult(PriceFired(o, last) + rest.alerts, rest.lastPrices, rest.aborted)
  }

  /** Every price alert reports a move of at least 5%, MEDIUM below 10%
      and HIGH from 10%; there is at most one per price. */
  lemma {:induction false} PriceAlertsMeetThreshold(prices: seq<Observation>, last: map<string, real>)
    ensures |PriceCheck(prices, last).alerts| <= |prices|
    ensures forall a :: a in PriceCheck(prices, last).alerts ==>
              a.kind.PriceMovement? && Abs(a.kind.change) >= PriceThreshold
              && (a.priority == Medium <==> Abs(a.kind.change) < 0.10)
  {
    if prices != [] {
      var o := prices[0];
      if !(o.key in last && last[o.key] == 0.0) {
        PriceAlertsMeetThreshold(prices[1..], last[o.key := o.value]);
      }
    }
  }

  /** With no zero price anywhere, neither in the baseline nor among the
      observations, a cycle never aborts. */
  lemma {:induction false} PriceNoAbortWithoutZero(prices: seq<Observation>, last: map<string, real>)
    requires forall k :: k in last ==> last[k] != 0.0
    requires forall i :: 0 <= i < |prices| ==> prices[i].value != 0.0
    ensures !PriceCheck(prices, last).aborted
  {
    if prices != [] {
      var o := prices[0];
      assert prices[0].value != 0.0;
      PriceNoAbortWithoutZero(prices[1..], last[o.key := o.value]);
    }
  }

  /** A cycle that does not abort leaves every observed asset's baseline at
      its last observed price and the other baselines untouched. */
  lemma {:induction false} PriceCheckRebaselines(prices: seq<Observation>, last: map<string, real>)
    ensures !PriceCheck(prices, last).aborted ==> PriceCheck(prices, last).lastPrices == Rebaseline(last, prices)
  {
    if prices != [] {
      var o := prices[0];
      if !(o.key in last && last[o.key] == 0.0) {
        PriceCheckRebaselines(prices[1..], last[o.key := o.value]);
        assert prices == [o] + prices[1..];
        RebaselineCons(last, o, prices[1..]);
      }
    }
  }

  /** A single price alerts exactly when its asset has a non-zero baseline
      and moved by at least 5%, and aborts on a zero baseline. */
  lemma PriceSingleObservation(o: Observation, last: map<string, real>)
    ensures PriceCheck([o], last).aborted <==> o.key in last && last[o.key] == 0.0
    ensures o.key in last && last[o.key] != 0.0 ==>
              PriceCheck([o], last).alerts
              == if Abs(Change(o.value, last[o.key])) >= PriceThreshold
                 then [PriceAlert(o.key, Change(o.value, last[o.key]), o.value)] else []
    ensures o.key !in last ==> PriceCheck([o], last) == PriceResult([], last[o.key := o.value], false)
    ensures o.key in last && last[o.key] == 0.0 ==> PriceCheck([o], last) == PriceResult([], last, true)
    ensures !(o.key in last && last[o.key] == 0.0) ==> PriceCheck([o], last).lastPrices == last[o.key := o.value]
  {
    assert [o][1..] == [];
  }

  /** An aborted cycle leaves the zero baseline that caused it in place at
      an observed asset: the update after the division never runs, so the
      next cycle that observes that asset aborts again. */
  lemma {:induction false} PriceAbortKeepsZero(prices: seq<Observation>, last: map<string, real>)
    ensures PriceCheck(prices, last).aborted ==>
              exists i :: 0 <= i < |prices| && prices[i].key in PriceCheck(prices, last).lastPrices
                && PriceCheck(prices, last).lastPrices[prices[i].key] == 0.0
  {
    if prices != [] {
      var o := prices[0];
      if !(o.key in last && last[o.key] == 0.0) {
        var t := last[o.key := o.value];
        PriceAbortKeepsZero(prices[1..], t);
        if PriceCheck(prices[1..], t).aborted {
          var i :| 0 <= i < |prices[1..]| && prices[1..][i].key in PriceCheck(prices[1..], t).lastPrices
                   && PriceCheck(prices[1..], t).lastPrices[prices[1..][i].key] == 0.0;
          assert prices[i + 1] == prices[1..][i];
        }
      } else {
        assert prices[0].key in PriceCheck(prices, last).lastPrices;
      }
    }
  }

  /** A cycle over `a + b` is a cycle over `a` followed, unless it
      aborted, by one over `b` from the baseline `a` left behind. */
  lemma {:induction false} PriceCheckAppend(a: seq<Observation>, b: seq<Observation>, last: map<string, real>)
    ensures var ra := PriceCheck(a, last);
            var rb := PriceCheck(b, ra.lastPrices);
            PriceCheck(a + b, last)
            == if ra.aborted then ra else PriceResult(ra.alerts + rb.alerts, rb.lastPrices, rb.aborted)
  {
    if a == [] {
      assert a + b == b;
    } else {
      var o := a[0];
      assert (a + b)[0] == o;
      assert (a + b)[1..] == a[1..] + b;
      if !(o.key in last && last[o.key] == 0.0) {
        var t := last[o.key := o.value];
        PriceCheckAppend(a[1..], b, t);
        if PriceCheck(a[1..], t).aborted {
          PriceAppendAborted(a, b, last);
        } else {
          PriceAppendContinued(a, b, last);
        }
      }
    }
  }

  /** The inductive step of `PriceCheckAppend` when the rest of `a` aborts. */
  lemma PriceAppendAborted(a: seq<Observation>, b: seq<Observation>, last: map<string, real>)
    requires a != [] && !(a[0].key in last && last[a[0].key] == 0.0)
    requires (a + b)[1..] == a[1..] + b
    requires PriceCheck(a[1..], last[a[0].key := a[0].value]).aborted
    requires PriceCheck(a[1..] + b, last[a[0].key := a[0].value])
             == PriceCheck(a[1..], last[a[0].key := a[0].value])
    ensures PriceCheck(a + b, last) == PriceCheck(a, last)
  {
  }

  /** The inductive step of `PriceCheckAppend` when the rest of `a`
      completes. */
  lemma PriceAppendContinued(a: seq<Observation>, b: seq<Observation>, last: map<string, real>)
    requires a != [] && !(a[0].key in last && last[a[0].key] == 0.0)
    requires (a + b)[1..] == a[1..] + b
    requires !PriceCheck(a[1..], last[a[0].key := a[0].value]).aborted
    requires var ra := PriceCheck(a[1..], last[a[0].key := a[0].value]);
             var rb := PriceCheck(b, ra.lastPrices);
             PriceCheck(a[1..] + b, last[a[0].key := a[0].value])
             == PriceResult(ra.alerts + rb.alerts, rb.lastPrices, rb.aborted)
    ensures var ra := PriceCheck(a, last);
            var rb := PriceCheck(b, ra.lastPrices);
            !ra.aborted
            && PriceCheck(a + b, last) == PriceResult(ra.alerts + rb.alerts, rb.lastPrices, rb.aborted)
  {
    var fired := PriceFired(a[0], last);
    var ra := PriceCheck(a[1..], last[a[0].key := a[0].value]);
    var rb := PriceCheck(b, ra.lastPrices);
    assert fired + (ra.alerts + rb.alerts) == (fired + ra.alerts) + rb.alerts;
  }

  /** The two-cycle scenario of the price monitor: 0.10 -> 0.106 is a 6%
      rise (MEDIUM), then 0.106 -> 0.03 is a fall of about 71% (HIGH). */
  lemma PriceScenario()
    ensures var first := PriceCheck([Observation("XLM", 0.106)], map["XLM" := 0.10]);
            && first.alerts == [PriceAlert("XLM", 0.06, 0.106)]
            && first.alerts[0].priority == Medium
            && var second := PriceCheck([Observation("XLM", 0.03)], first.lastPrices);
               && |second.alerts| == 1 && second.alerts[0].priority == HighPriority
  {
    PriceSingleObservation(Observation("XLM", 0.106), map["XLM" := 0.10]);
    var first := PriceCheck([Observation("XLM", 0.106)], map["XLM" := 0.10]);
    assert first.lastPrices == map["XLM" := 0.106];
    PriceSingleObservation(Observation("XLM", 0.03), first.lastPrices);
  }

  /** The idle monitor's scenario: 61 idle days give one HIGH alert, 45 one
      MEDIUM alert, 20 none. */
  lemma IdleScenario()
    ensures var r := IdleCheck([IdleHolding("XLM", 61, 600.0, 4.8)]);
            |r| == 1 && r[0].priority == HighPriority
    ensures var r := IdleCheck([IdleHolding("XLM", 45, 600.0, 4.8)]);
            |r| == 1 && r[0].priority == Medium
    ensures IdleCheck([IdleHolding("XLM", 20, 600.0, 4.8)]) == []
  {
    assert [IdleHolding("XLM", 61, 600.0, 4.8)][1..] == [];
    assert [IdleHolding("XLM", 45, 600.0, 4.8)][1..] == [];
    assert [IdleHolding("XLM", 20, 600.0, 4.8)][1..] == [];
  }
}
