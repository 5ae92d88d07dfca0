# Stellar Compass agents and DeFi algorithms, in Dafny

This project models the two back-end modules of Stellar Compass. Stellar
Compass is a portfolio assistant for Stellar wallets.

- `backend/stellar_ai_agents.py` defines six monitoring agents and the
  `AgentOrchestrator`.
  - The agents are the idle-asset monitor, opportunity scout, risk monitor,
    auto-rebalancer, yield harvester and price-movement monitor.
  - The orchestrator owns the agents, keeps the alert history (at most 100
    alerts), routes each alert to push, email and SMS, and applies user
    settings.
- `backend/stellar_defi_algorithms.py` holds the analysis algorithms:
  - idle-asset detection with opportunity cost;
  - yield-opportunity matching filtered by risk tolerance;
  - protocol risk scoring;
  - portfolio allocation by risk bucket;
  - batch-fee estimation.

Everything is a pure function over immutable datatypes.

- An agent's `check()` becomes a function from the data the agent would
  fetch to the alerts it emits. Each emitted alert is a call of the
  notification callback.
- Agents that remember earlier cycles (the scout's `tracked_apys`, the
  price monitor's `last_prices`) take the old baseline and return the new
  one.
- Each orchestrator method maps the old orchestrator state to the new one.
- Amounts, APYs and shares are `real`. The model has no rounding.

Modules, one per file:

| module | file | models |
|---|---|---|
| `Wrappers` | wrappers.dfy | `Option`, for absent keys and optional settings |
| `Text` | text.dfy | ASCII `str.lower` and string prefix |
| `Allocations` | allocations.dfy | risk buckets, tolerance tags, the three-row target-allocation table |
| `Sorting` | sorting.dfy | Python's stable `sorted(..., reverse=True)` on a real key |
| `Alerts` | alerts.dfy | priorities and the six alert kinds |
| `Baselines` | baselines.dfy | a dict updated key by key (`d[k] = v` in a loop) |
| `Agents` | agents.dfy | agent lifecycle and the six `check()` rules |
| `Orchestrator` | orchestrator.dfy | `AgentOrchestrator` |
| `Balances` | balances.dfy | wallet balances and their USD total |
| `IdleAssetDetector` | idle_detector.dfy | `IdleAssetDetector.detect_idle_assets` |
| `YieldOpportunityMatcher` | yield_matcher.dfy | protocol table, `_matches_risk_tolerance`, `find_opportunities` |
| `RiskScoringEngine` | risk_scoring.dfy | `score_protocol` |
| `PortfolioOptimizer` | portfolio_optimizer.dfy | `optimize_allocation` |
| `TransactionOptimizer` | transaction_optimizer.dfy | `estimate_batch_savings` |

### Behaviour worth noting

- `start()` and `activate_all_agents()` never reject a second call.
  A second activation replaces the agent list with six fresh, started
  agents (`Orchestrator.ActivateAllAgents`, `Agents.StartAcceptsRunningAgent`).
- Changing `riskTolerance` through `update_settings` does not recompute
  the target allocation. The orchestrator keeps the table row chosen by its
  constructor (`Orchestrator.ToleranceChangeKeepsTarget`).
- `get_recent_alerts(limit)` is `alert_history[-limit:]`, with `limit`
  defaulting to 20.
  - `limit` 0 returns the whole history.
  - A negative limit drops the oldest `-limit` alerts.
  - See `Orchestrator.GetRecentAlerts`.
- An SMS goes out only when the sms flag is set, the priority is HIGH or
  CRITICAL, and the phone number is non-empty (`_send_sms_notification`
  returns early on an empty number).
- The code takes no lock around the alert history. The model is
  sequential: each alert is handled completely before the next one.
- The source's default arguments are Dafny default parameter values:
  `phone_number=''` and `risk_tolerance='moderate'` of the orchestrator,
  `limit=20`, `risk_tolerance='moderate'` of `find_opportunities` and
  `optimize_allocation`, and `idle_threshold_days=30`.

## Model

| member | source | states |
|---|---|---|
| Allocations.ParseTolerance | backend/stellar_defi_algorithms.py:142-147 | a tag names a tolerance exactly when its lower-cased form is "conservative", "moderate" or "aggressive"; any other tag gives None |
| Allocations.Table | backend/stellar_defi_algorithms.py:248-252 | every row of the allocation table has non-negative shares summing to 1 |
| Allocations.AllocationFor | backend/stellar_ai_agents.py:273-277 | the target allocation for a tag is a valid allocation: conservative 0.80/0.20/0.00, aggressive 0.30/0.40/0.30, anything else (including an unknown tag) the moderate row 0.50/0.40/0.10 |
| Allocations.AllocationForIgnoresCase | backend/stellar_ai_agents.py:277 | tags differing only in ASCII letter case get the same allocation |
| Allocations.AllocationForExamples | backend/stellar_ai_agents.py:273-277 | "Aggressive" and "CONSERVATIVE" get their rows; "reckless" falls back to the moderate row |
| Text.Lower | backend/stellar_defi_algorithms.py:147 | lower-casing keeps the length and maps each character through ASCII lower-casing, which leaves no upper-case letter and changes nothing but A-Z |
| Agents.NewAgent | backend/stellar_ai_agents.py:15-20 | a new agent is inactive |
| Agents.Start | backend/stellar_ai_agents.py:22-26 | after `start` the agent is active, whatever its previous state |
| Agents.Stop | backend/stellar_ai_agents.py:28-30 | after `stop` the agent is inactive |
| Agents.StopIdempotent | backend/stellar_ai_agents.py:28-30 | stopping twice is the same as stopping once |
| Agents.StartAcceptsRunningAgent | backend/stellar_ai_agents.py:22-26 | starting an already active agent is accepted and leaves it active |
| Agents.IdleAlert | backend/stellar_ai_agents.py:64-71 | an idle alert has type IDLE_ASSET and action "Activate Now" and carries the holding's data; its priority is HIGH exactly when the asset has been idle 60 days or more, else MEDIUM |
| Agents.IdleCheck | backend/stellar_ai_agents.py:57-71 | an alert is emitted for a holding exactly when it has been idle at least 30 days; every alert comes from such a holding |
| Agents.IdleCheckAppend | backend/stellar_ai_agents.py:62-71 | holdings are judged independently: the alerts for a concatenation are the concatenated alerts |
| Agents.IdleScenario | backend/stellar_ai_agents.py:63-66 | 61 idle days gives one HIGH alert, 45 gives one MEDIUM alert, 20 gives none |
| Agents.SpikeAlert | backend/stellar_ai_agents.py:105-112 | an APY-spike alert has type APY_SPIKE and action "View Details", is HIGH, and records the protocol, new and previous APY |
| Agents.SpikeFired | backend/stellar_ai_agents.py:100-112 | a quote raises at most one alert, and one exactly when its protocol is tracked and its APY exceeds the tracked value by more than 2 points, and that alert is the spike alert against the tracked value |
| Agents.ScoutAlertsAreSpikes | backend/stellar_ai_agents.py:91-114 | every alert of a scout cycle is a HIGH APY-spike alert whose APY rose by more than 2 points over the previous value, at most one per quote |
| Agents.ScoutCheckRebaselines | backend/stellar_ai_agents.py:114 | after a cycle the tracked APYs are the old ones updated with every quoted protocol, the last quote winning |
| Agents.ScoutSingleQuote | backend/stellar_ai_agents.py:99-114 | one quote alerts exactly when its protocol is tracked and its APY exceeds the tracked value by more than 2, and the quote then becomes the tracked value |
| Agents.ScoutCheckAppend | backend/stellar_ai_agents.py:95-114 | a cycle over a + b is the cycle over a followed by the cycle over b from a's tracked APYs |
| Agents.ScoutFirstObservationSilent | backend/stellar_ai_agents.py:100 | a protocol seen for the first time never alerts |
| Agents.RiskAlertFor | backend/stellar_ai_agents.py:138-145 | a risk alert has type RISK_ALERT and action "Review Position" and copies the finding's title and message; it is CRITICAL exactly when the severity is "CRITICAL", else HIGH |
| Agents.RiskCheck | backend/stellar_ai_agents.py:132-145 | an alert is emitted for a finding exactly when its severity is "HIGH" or "CRITICAL" |
| Agents.RiskCheckAppend | backend/stellar_ai_agents.py:136-145 | findings are judged independently |
| Agents.Drift | backend/stellar_ai_agents.py:173-174 | the drift is the absolute difference between the current share (0 when absent) and the target share |
| Agents.RebalanceAlert | backend/stellar_ai_agents.py:177-184 | a rebalance alert has type REBALANCE, title "Portfolio needs rebalancing" and action "Rebalance", is MEDIUM, and names its bucket and drift |
| Agents.RebalanceFor | backend/stellar_ai_agents.py:173-184 | a bucket yields its one rebalance alert exactly when its drift exceeds 0.10, and nothing otherwise |
| Agents.RebalanceCheck | backend/stellar_ai_agents.py:168-184 | at most three alerts; a bucket gets its alert exactly when its drift exceeds 0.10; alerts follow the LOW, MODERATE, HIGH order of the target table |
| Agents.RebalanceAlertsJustified | backend/stellar_ai_agents.py:172-184 | conversely, every alert of a rebalance cycle is the rebalance alert of a bucket whose drift exceeds 0.10 |
| Agents.TotalUsdAppend | backend/stellar_ai_agents.py:204 | the unclaimed total is additive over concatenation |
| Agents.HarvestCheck | backend/stellar_ai_agents.py:200-214 | one LOW alert of type HARVEST with action "Claim All", the total and the reward count is emitted exactly when the unclaimed total is at least 1.0, otherwise none |
| Agents.PriceAlert | backend/stellar_ai_agents.py:243-251 | a price alert has type PRICE_MOVEMENT and action "Check Portfolio"; it is MEDIUM exactly when the absolute relative change is below 0.10, else HIGH |
| Agents.PriceFired | backend/stellar_ai_agents.py:238-251 | a price with no baseline never alerts; with a baseline it alerts exactly when the relative change is at least 0.05 in absolute value |
| Agents.PriceAlertsMeetThreshold | backend/stellar_ai_agents.py:233-253 | every alert of a price cycle reports an absolute change of at least 0.05, is MEDIUM exactly below 0.10, and there is at most one per price |
| Agents.PriceNoAbortWithoutZero | backend/stellar_ai_agents.py:238-240 | with no zero price in the baseline or among the observations the cycle never aborts |
| Agents.PriceCheckRebaselines | backend/stellar_ai_agents.py:253 | a cycle that completes leaves every observed asset's last price as its newest observation and every other baseline alone |
| Agents.PriceSingleObservation | backend/stellar_ai_agents.py:237-253 | one observation aborts exactly on a zero baseline (the division by zero), returning no alert and the baseline unchanged; otherwise it alerts per the threshold rule and becomes the asset's new baseline |
| Agents.PriceAbortKeepsZero | backend/stellar_ai_agents.py:238-253 | an aborted cycle leaves a zero baseline at an observed asset, because the update at line 253 never runs after the failing division, so the next cycle observing it aborts again |
| Agents.PriceCheckAppend | backend/stellar_ai_agents.py:237-253 | a cycle over a + b is the cycle over a followed by the cycle over b from a's prices; an abort in a stops the cycle |
| Agents.PriceScenario | backend/stellar_ai_agents.py:240-246 | 0.10 to 0.106 gives a MEDIUM alert; 0.106 to 0.03 then gives a HIGH alert |
| Baselines.RebaselineKeys | backend/stellar_ai_agents.py:114 | after updating a dict key by key, its keys are the old keys plus the observed ones |
| Baselines.RebaselineKeepsUnobserved | backend/stellar_ai_agents.py:253 | a key no observation mentions keeps its old value |
| Baselines.RebaselineLastWins | backend/stellar_ai_agents.py:114 | every observed key holds the value of its last observation |
| Baselines.RebaselineCons | backend/stellar_ai_agents.py:253 | updating with o then the rest is updating the dict with o first, then with the rest |
| Orchestrator.NewOrchestrator | backend/stellar_ai_agents.py:263-277 | a new orchestrator has no agents, an empty history, and the valid target allocation for its tolerance |
| Orchestrator.ConstructorDefaults | backend/stellar_ai_agents.py:264 | without phone and tolerance arguments the phone number is empty, the tolerance "moderate" and the target the moderate row |
| Orchestrator.ActivateAllAgents | backend/stellar_ai_agents.py:279-292 | activation installs the six agents in order, all active, and changes nothing else |
| Orchestrator.DeactivateAllAgents | backend/stellar_ai_agents.py:294-298 | deactivation keeps the agents of every kind, marks each inactive, and changes nothing else |
| Orchestrator.ActivateTwiceAccepted | backend/stellar_ai_agents.py:279-292 | activating twice is accepted and gives the same state as activating once |
| Orchestrator.DeactivateIdempotent | backend/stellar_ai_agents.py:294-298 | deactivating twice is the same as deactivating once |
| Orchestrator.SmsBody | backend/stellar_ai_agents.py:334-335 | the SMS body is the "[PRIORITY] Stellar Compass: " prefix followed by at most the first 120 characters of the message |
| Orchestrator.Route | backend/stellar_ai_agents.py:311-335 | push and email are sent unless their flag is present and false; an SMS is sent exactly when the sms flag is present and true, the priority is HIGH or CRITICAL and the phone number is non-empty |
| Orchestrator.PriorityNeverGatesPushOrEmail | backend/stellar_ai_agents.py:312-316 | push and email routing does not depend on the alert |
| Orchestrator.NoSmsBelowHigh | backend/stellar_ai_agents.py:318 | LOW and MEDIUM alerts never go to SMS |
| Orchestrator.HandleNotification | backend/stellar_ai_agents.py:300-319 | handling an alert appends it as the newest, trims the history to its newest 100, changes nothing else, and routes it |
| Orchestrator.HistoryKeepsNewest | backend/stellar_ai_agents.py:302-307 | after any run of alerts the history is the newest 100 (or fewer) of all alerts appended, oldest first |
| Orchestrator.HandleAllOnlyHistory | backend/stellar_ai_agents.py:300-319 | handling any run of alerts changes only the history |
| Orchestrator.GetRecentAlerts | backend/stellar_ai_agents.py:338-340 | a positive limit gives the newest `limit` alerts oldest first; 0 gives the whole history; a negative limit drops the oldest `-limit` alerts |
| Orchestrator.RecentAlertsExamples | backend/stellar_ai_agents.py:338-340 | limit 5 on 3 alerts gives all 3; limit 5 on 150 gives the last 5; limit 0 gives everything; the default limit on 150 gives the last 20 |
| Orchestrator.UpdateSettings | backend/stellar_ai_agents.py:342-357 | each present setting overwrites its field or channel flag, absent ones leave theirs alone; target allocation, history, agents and wallet never change |
| Orchestrator.ToleranceChangeKeepsTarget | backend/stellar_ai_agents.py:347-348 | switching a moderate orchestrator to "aggressive" keeps the moderate target allocation |
| Orchestrator.NewOrchestratorValid | backend/stellar_ai_agents.py:263-277 | a new orchestrator satisfies the invariant (history within 100, valid target) |
| Orchestrator.OperationsPreserveValid | backend/stellar_ai_agents.py:279-357 | handling, settings, activation and deactivation preserve the invariant |
| Sorting.Insert | backend/stellar_defi_algorithms.py:48 | inserting into a descending sequence keeps it descending and adds one element |
| Sorting.InsertPermutes | backend/stellar_defi_algorithms.py:48 | insertion adds exactly the inserted element to the multiset of elements |
| Sorting.SortDesc | backend/stellar_defi_algorithms.py:48 | the result is sorted by descending key and is a permutation of the input |
| Sorting.SortDescStable | backend/stellar_defi_algorithms.py:138 | among elements with equal key, the sort keeps their input order (stability) |
| Balances.TotalValueNonNegative | backend/stellar_defi_algorithms.py:245 | the USD total of non-negative values is non-negative |
| IdleAssetDetector.IdleRecordFor | backend/stellar_defi_algorithms.py:37-46 | the opportunity cost is value times 0.08/365 times the idle days |
| IdleAssetDetector.IdleCandidates | backend/stellar_defi_algorithms.py:30-46 | a record is produced exactly for the balances idle at least the threshold and with a positive balance |
| IdleAssetDetector.IdleCandidatesSingle | backend/stellar_defi_algorithms.py:30-46 | one balance yields its record when idle and nothing otherwise |
| IdleAssetDetector.IdleCandidatesAppend | backend/stellar_defi_algorithms.py:30-46 | balances are judged independently and in order: the records of a concatenation are the concatenated records, one per idle balance |
| IdleAssetDetector.DetectIdleAssets | backend/stellar_defi_algorithms.py:17-48 | the result is exactly the idle records, sorted by descending opportunity cost, ties in wallet order |
| YieldOpportunityMatcher.MatchesRiskTolerance | backend/stellar_defi_algorithms.py:140-147 | conservative accepts LOW; moderate accepts LOW and MODERATE; aggressive accepts all; an unknown tag accepts MODERATE only |
| YieldOpportunityMatcher.AcceptedLevelsNested | backend/stellar_defi_algorithms.py:142-146 | what conservative accepts, moderate accepts; what moderate accepts, aggressive accepts |
| YieldOpportunityMatcher.MatchIgnoresCase | backend/stellar_defi_algorithms.py:147 | the match does not depend on the letter case of the tolerance tag |
| YieldOpportunityMatcher.OpportunityFor | backend/stellar_defi_algorithms.py:125-135 | the monthly earnings are value times APY / 100 / 12, with the protocol's name, type, APY, risk and a 10 USD minimum |
| YieldOpportunityMatcher.ForBalance | backend/stellar_defi_algorithms.py:112-135 | a non-zero balance gets one opportunity per protocol that lists its asset and matches the tolerance; a zero balance gets none |
| YieldOpportunityMatcher.ForBalanceSingle | backend/stellar_defi_algorithms.py:118-135 | one protocol yields its opportunity when eligible and nothing otherwise |
| YieldOpportunityMatcher.ForBalanceAppend | backend/stellar_defi_algorithms.py:118-135 | protocols are tried independently and in list order: one opportunity per eligible protocol, in order |
| YieldOpportunityMatcher.Candidates | backend/stellar_defi_algorithms.py:111-135 | an opportunity is a candidate exactly when some balance yields it |
| YieldOpportunityMatcher.CandidatesSingle | backend/stellar_defi_algorithms.py:111-135 | one balance contributes exactly the opportunities of the inner loop |
| YieldOpportunityMatcher.CandidatesAppend | backend/stellar_defi_algorithms.py:111-135 | balances are processed independently and in order: the candidates of a concatenation are the concatenated candidates |
| YieldOpportunityMatcher.FindOpportunitiesIn | backend/stellar_defi_algorithms.py:98-138 | the result is the candidates sorted by descending APY, ties in input order |
| YieldOpportunityMatcher.FindOpportunities | backend/stellar_defi_algorithms.py:58-138 | the result is the general matcher run on the built-in protocol table (tolerance "moderate" by default): sorted by APY and never containing a HIGH-risk protocol |
| YieldOpportunityMatcher.XlmHoldingCount | backend/stellar_defi_algorithms.py:58-138 | an XLM holding under the default tolerance gets five opportunities, one per built-in protocol |
| YieldOpportunityMatcher.XlmHoldingBest | backend/stellar_defi_algorithms.py:80-135 | among them is StellarX AMM, whose 15.8% APY earns 7.9 USD a month on 600 USD |
| YieldOpportunityMatcher.BuiltInNeverHigh | backend/stellar_defi_algorithms.py:58-96 | no built-in protocol is rated HIGH |
| YieldOpportunityMatcher.NoHighProtocolNoHighOpportunity | backend/stellar_defi_algorithms.py:118-135 | opportunities carry their protocol's risk level, so a protocol list without HIGH entries yields no HIGH opportunity under any tolerance |
| RiskScoringEngine.MetricsOf | backend/stellar_defi_algorithms.py:164-197 | an unknown protocol scores as 0 days, 0 TVL, no audit and no exploits |
| RiskScoringEngine.Categorize | backend/stellar_defi_algorithms.py:207-213 | LOW below 30, MODERATE from 30 up to 60, HIGH from 60 |
| RiskScoringEngine.CategorizeMonotone | backend/stellar_defi_algorithms.py:207-213 | a higher score never gives a lower risk level |
| RiskScoringEngine.ScoreMetrics | backend/stellar_defi_algorithms.py:199-226 | the time factor is max(0, 100 - days/10), the TVL factor max(0, 100 - tvl/500000), audit 0 exactly when audited else 50, exploits 30 each; the overall score is their mean, and level and recommendation (below 50) follow from it |
| RiskScoringEngine.ScoreProtocol | backend/stellar_defi_algorithms.py:153-226 | a non-negative score under the protocol's name, computed from its table metrics, or from the `.get` defaults when the name is not in the table |
| RiskScoringEngine.UnknownProtocolScore | backend/stellar_defi_algorithms.py:197-225 | an unknown protocol scores 62.5, HIGH, "Use caution" |
| RiskScoringEngine.KnownProtocolScores | backend/stellar_defi_algorithms.py:164-225 | Aquarius 9.25 LOW; Stellar Lend 34.875 MODERATE and recommended; Yndx Finance 55.5 MODERATE, use caution |
| TransactionOptimizer.EstimateBatchSavings | backend/stellar_defi_algorithms.py:320-339 | batching costs the same as sending individually, 0.00001 XLM per transaction, so savings and their percentage are 0 |
| PortfolioOptimizer.BestInBucket | backend/stellar_defi_algorithms.py:263-266 | the chosen opportunity is in the bucket, has the highest APY there, and is the first such one |
| PortfolioOptimizer.EntryFor | backend/stellar_defi_algorithms.py:259-274 | a bucket gets an entry exactly when it has an opportunity and a positive amount; the entry holds the amount, percentage and best opportunity |
| PortfolioOptimizer.PlanEntries | backend/stellar_defi_algorithms.py:258-274 | at most three entries, each made from an opportunity of its bucket with total times share USD |
| PortfolioOptimizer.PlanEntriesOrdered | backend/stellar_defi_algorithms.py:259-274 | entries follow LOW, MODERATE, HIGH order, so no bucket appears twice |
| PortfolioOptimizer.PlanEntriesBuckets | backend/stellar_defi_algorithms.py:259-274 | a bucket appears exactly when it has an opportunity and a positive amount |
| PortfolioOptimizer.OptimizeAllocation | backend/stellar_defi_algorithms.py:232-287 | the plan uses the tolerance's table row and the wallet's total value; monthly return is a twelfth of the annual return; the strategy echoes the tag |
| PortfolioOptimizer.ConservativeNeverHigh | backend/stellar_defi_algorithms.py:249-265 | a conservative plan never allocates to the HIGH bucket |
| PortfolioOptimizer.UsdSumScales | backend/stellar_defi_algorithms.py:260-270 | entries each holding their bucket's share of the total add up to the total times their shares |
| PortfolioOptimizer.SharesWithin | backend/stellar_defi_algorithms.py:248-259 | entries of distinct buckets in rank order stand for at most the shares of those buckets, hence at most 1 in all |
| PortfolioOptimizer.AllocatedWithinTotal | backend/stellar_defi_algorithms.py:245-274 | with non-negative values the allocated USD never exceed the total value |

## Left out

- Threads, `_run_loop`, `time.sleep`, `last_check` and the check intervals
  are left out. The model is sequential. Each agent cycle is one function
  call. The exception that `_run_loop` catches is modelled only as the price
  monitor's `aborted` flag.
- The agents' mock fetchers (`_get_idle_assets`, `_get_current_opportunities`,
  `_check_risks`, `_get_current_allocation`, `_get_unclaimed_rewards`,
  `_get_current_prices`) become parameters.
- `random.randint` in `detect_idle_assets` becomes the `daysIdle` parameter,
  one value per balance.
- The f-string titles and messages of non-risk alerts are not built; the
  alert kind carries their data instead. Number formatting (`:.2f`,
  `:.1f`) and `round(overall_score, 2)` are not modelled. `datetime`
  timestamps are left out.
- `print` logging and the push, email and SMS senders are not modelled:
  they print and deliver nothing the model can observe. Routing returns
  which channels are called and the SMS text.
- Floats are modelled as exact reals. IEEE rounding is not modelled.
- Text.Lower folds only ASCII letters. Python's `str.lower` also folds
  other Unicode letters.
- When agents are activated a second time, the threads of the replaced
  agents keep running in the source. The model keeps only the new agent
  list.
- `TransactionOptimizer.prepare_transaction` returns constant data with a
  mock price and is not part of this model.
- `backend/app.py`, the notification and Horizon modules, and the launcher
  and build scripts are not part of this model.
- The Python dicts of agent and orchestrator settings are typed records.
  Keys the code never reads are left out.
