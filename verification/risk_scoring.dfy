/** `RiskScoringEngine.score_protocol`: four risk factors from a
    protocol's metrics, their mean, a risk level and a recommendation. */
module RiskScoringEngine {
  import opened Wrappers
  import opened Allocations

  /** The metrics dictionary of one protocol. A missing key reads as the
      default the source passes to `dict.get`. */
  datatype Metrics = Metrics(timeActiveDays: int, tvlUsd: real, auditStatus: Option<string>,
                             exploitCount: nat)

  /** The built-in metrics table. */
  const ProtocolMetrics: map<string, Metrics> := map[
    "Aquarius" := Metrics(730, 45000000.0, Some("audited"), 0),
    "Stellar Lend" := Metrics(365, 12000000.0, Some("audited"), 0),
    "Ultrastellar" := Metrics(900, 8500000.0, Some("audited"), 0),
    "StellarX AMM" := Metrics(1095, 28000000.0, Some("audited"), 0),
    "Yndx Finance" := Metrics(180, 5000000.0, Some("pending"), 0)
  ]

  /** `protocols_data.get(name, {})` read through the defaults. */
  function MetricsOf(name: string): (m: Metrics)
    ensures name !in ProtocolMetrics ==> m == Metrics(0, 0.0, None, 0)
    ensures name in ProtocolMetrics ==> m == ProtocolMetrics[name]
  {
    if name in ProtocolMetrics then ProtocolMetrics[name] else Metrics(0, 0.0, None, 0)
  }

  datatype RiskScore = RiskScore(protocol: string, overallScore: real, riskLevel: RiskBucket,
                                 timeActive: real, tvl: real, audit: real, exploits: real,
                                 recommendation: string)

  function Max0(x: real): real {
    if x > 0.0 then x else 0.0
  }

  /** LOW below 30, MODERATE below 60, HIGH from 60 on. */
  function Categorize(score: real): (b: RiskBucket)
    ensures b == Low <==> score < 30.0
    ensures b == High <==> score >= 60.0
  {
    if score < 30.0 then Low else if score < 60.0 then Moderate else High
  }

  /** A higher score never gives a lower risk level. */
  lemma CategorizeMonotone(s: real, t: real)
    requires s <= t
    ensures Categorize(s).Rank() <= Categorize(t).Rank()
  {
  }

  function ScoreMetrics(name: string, m: Metrics): (r: RiskScore)
    ensures r.protocol == name
    ensures 0.0 <= r.timeActive && 0.0 <= r.tvl
    ensures m.timeActiveDays >= 0 ==> r.timeActive <= 100.0
    ensures m.tvlUsd >= 0.0 ==> r.tvl <= 100.0
    ensures (100.0 - m.timeActiveDays as real / 10.0 >= 0.0)
              ==> r.timeActive == 100.0 - m.timeActiveDays as real / 10.0
    ensures 100.0 - m.timeActiveDays as real / 10.0 <= 0.0 ==> r.timeActive == 0.0
    ensures 100.0 - m.tvlUsd / 500000.0 >= 0.0 ==> r.tvl == 100.0 - m.tvlUsd / 500000.0
    ensures 100.0 - m.tvlUsd / 500000.0 <= 0.0 ==> r.tvl == 0.0
    ensures r.audit == 0.0 <==> m.auditStatus == Some("audited")
    ensures r.audit == 0.0 || r.audit == 50.0
    ensures r.exploits == 30.0 * m.exploitCount as real
    ensures 4.0 * r.overallScore == r.timeActive + r.tvl + r.audit + r.exploits
    ensures r.riskLevel == Low <==> r.overallScore < 30.0
    ensures r.riskLevel == High <==> r.overallScore >= 60.0
    ensures r.recommendation == "Recommended" <==> r.overallScore < 50.0
    ensures r.recommendation == "Recommended" || r.recommendation == "Use caution"
  {
    var time := Max0(100.0 - m.timeActiveDays as real / 10.0);
    var tvl := Max0(100.0 - m.tvlUsd / 500000.0);
    var audit := if m.auditStatus == Some("audited") then 0.0 else 50.0;
    var exploits := (m.exploitCount * 30) as real;
    var overall := (time + tvl + audit + exploits) / 4.0;
    RiskScore(name, overall, Categorize(overall), time, tvl, audit, exploits,
              if overall < 50.0 then "Recommended" else "Use caution")
  }

  /** `score_protocol(name)`. */
  function ScoreProtocol(name: string): (r: RiskScore)
    ensures 0.0 <= r.overallScore
    ensures r.protocol == name
    ensures name in ProtocolMetrics ==> r == ScoreMetrics(name, ProtocolMetrics[name])
    ensures name !in ProtocolMetrics ==> r == ScoreMetrics(name, Metrics(0, 0.0, None, 0))
  {
    ScoreMetrics(name, MetricsOf(name))
  }

  /** A protocol missing from the table scores (100 + 100 + 50 + 0) / 4. */
  lemma UnknownProtocolScore(name: string)
    requires name !in ProtocolMetrics
    ensures ScoreProtocol(name).overallScore == 62.5
    ensures ScoreProtocol(name).riskLevel == High
    ensures ScoreProtocol(name).recommendation == "Use caution"
  {
  }

  lemma KnownProtocolScores()
    ensures ScoreProtocol("Aquarius").overallScore == 9.25
    ensures ScoreProtocol("Aquarius").riskLevel == Low
    ensures ScoreProtocol("Stellar Lend").overallScore == 34.875
    ensures ScoreProtocol("Stellar Lend").riskLevel == Moderate
    ensures ScoreProtocol("Stellar Lend").recommendation == "Recommended"
    ensures ScoreProtocol("Yndx Finance").overallScore == 55.5
    ensures ScoreProtocol("Yndx Finance").riskLevel == Moderate
    ensures ScoreProtocol("Yndx Finance").recommendation == "Use caution"
  {
  }
}
