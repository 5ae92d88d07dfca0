/** `YieldOpportunityMatcher`: the built-in protocol list, risk-tolerance
    matching and `find_opportunities`. */
module YieldOpportunityMatcher {
  import opened Wrappers
  import opened Allocations
  import opened Balances
  import opened Sorting
  import Text

  datatype Protocol = Protocol(name: string, kind: string, assets: seq<string>,
                               baseApy: real, riskLevel: RiskBucket)

  /** `_load_stellar_protocols()`. */
  const StellarProtocols: seq<Protocol> := [
    Protocol("Aquarius", "liquidity_pool", ["XLM", "USDC", "USDT"], 12.5, Moderate),
    Protocol("Stellar Lend", "lending", ["XLM", "USDC"], 8.3, Low),
    Protocol("Ultrastellar", "staking", ["XLM"], 5.2, Low),
    Protocol("StellarX AMM", "liquidity_pool", ["XLM", "USDC", "BTC", "ETH"], 15.8, Moderate),
    Protocol("Yndx Finance", "yield_aggregator", ["XLM", "USDC"], 10.2, Moderate)
  ]

  const MinInvestmentUsd: int := 10

  datatype Opportunity = Opportunity(protocol: string, asset: string, kind: string, apy: real,
                                     riskLevel: RiskBucket, potentialEarnings: real,
                                     minInvestment: int)

  function Apy(o: Opportunity): real {
    o.apy
  }

  /** `_matches_risk_tolerance`: conservative accepts LOW, moderate LOW and
      MODERATE, aggressive every level; an unknown tolerance accepts
      MODERATE only. Tags are compared case-insensitively. */
  function MatchesRiskTolerance(risk: RiskBucket, tolerance: string): (ok: bool)
    ensures Text.Lower(tolerance) == "conservative" ==> (ok <==> risk == Low)
    ensures Text.Lower(tolerance) == "moderate" ==> (ok <==> risk == Low || risk == Moderate)
    ensures Text.Lower(tolerance) == "aggressive" ==> ok
    ensures ParseTolerance(tolerance).None? ==> (ok <==> risk == Moderate)
  {
    match ParseTolerance(tolerance)
    case Some(Conservative) => risk == Low
    case Some(ModerateTolerance) => risk == Low || risk == Moderate
    case Some(Aggressive) => true
    case None => risk == Moderate
  }

  /** For the three named tolerances the accepted levels are nested. */
  lemma AcceptedLevelsNested(risk: RiskBucket)
    ensures MatchesRiskTolerance(risk, "conservative") ==> MatchesRiskTolerance(risk, "moderate")
    ensures MatchesRiskTolerance(risk, "moderate") ==> MatchesRiskTolerance(risk, "aggressive")
  {
    assert Text.Lower("conservative") == "conservative";
    assert Text.Lower("moderate") == "moderate";
    assert Text.Lower("aggressive") == "aggressive";
  }

  lemma MatchIgnoresCase(risk: RiskBucket, tolerance: string)
    ensures MatchesRiskTolerance(risk, Text.Lower(tolerance)) == MatchesRiskTolerance(risk, tolerance)
  {
    Text.LowerIdempotent(tolerance);
  }

  /** The dictionary appended for one (balance, protocol) pair. */
  function OpportunityFor(b: Balance, p: Protocol): (o: Opportunity)
    ensures o.protocol == p.name && o.asset == b.asset && o.kind == p.kind
    ensures o.apy == p.baseApy && o.riskLevel == p.riskLevel
    ensures o.potentialEarnings == b.valueUsd * p.baseApy / 100.0 / 12.0
    ensures o.minInvestment == MinInvestmentUsd
  {
    Opportunity(p.name, b.asset, p.kind, p.baseApy, p.riskLevel,
                (b.valueUsd * p.baseApy / 100.0) / 12.0, MinInvestmentUsd)
  }

  predicate Eligible(b: Balance, p: Protocol, tolerance: string) {
    b.balance != 0.0 && b.asset in p.assets && MatchesRiskTolerance(p.riskLevel, tolerance)
  }

  /** The inner loop over protocols for one balance. */
  function ForBalance(b: Balance, protocols: seq<Protocol>, tolerance: string): (r: seq<Opportunity>)
    ensures |r| <= |protocols|
    ensures forall j :: 0 <= j < |protocols| && Eligible(b, protocols[j], tolerance)
                        ==> OpportunityFor(b, protocols[j]) in r
    ensures forall o :: o in r ==>
              exists j :: 0 <= j < |protocols| && Eligible(b, protocols[j], tolerance)
                && o == OpportunityFor(b, protocols[j])
  {
    if protocols == [] then []
    else
      var rest := ForBalance(b, protocols[1..], tolerance);
      assert forall j :: 1 <= j < |protocols| ==> protocols[j] == protocols[1..][j - 1];
      (if Eligible(b, protocols[0], tolerance) then [OpportunityFor(b, protocols[0])] else []) + rest
  }

  /** One protocol yields its opportunity when eligible and nothing otherwise. */
  lemma ForBalanceSingle(b: Balance, p: Protocol, tolerance: string)
    ensures ForBalance(b, [p], tolerance)
            == if Eligible(b, p, tolerance) then [OpportunityFor(b, p)] else []
  {
  }

  /** Protocols are tried independently and in list order. */
  lemma {:induction false} ForBalanceAppend(b: Balance, ps: seq<Protocol>, qs: seq<Protocol>,
                                            tolerance: string)
    ensures ForBalance(b, ps + qs, tolerance)
            == ForBalance(b, ps, tolerance) + ForBalance(b, qs, tolerance)
  {
    if ps == [] {
      assert ps + qs == qs;
    } else {
      assert (ps + qs)[0] == ps[0];
      assert (ps + qs)[1..] == ps[1..] + qs;
      ForBalanceAppend(b, ps[1..], qs, tolerance);
    }
  }

  /** The list the nested loops build, before sorting: one opportunity per
      eligible (balance, protocol) pair. */
  function Candidates(balances: seq<Balance>, protocols: seq<Protocol>, tolerance: string): (r: seq<Opportunity>)
    ensures forall i, j :: 0 <= i < |balances| && 0 <= j < |protocols|
                           && Eligible(balances[i], protocols[j], tolerance)
                           ==> OpportunityFor(balances[i], protocols[j]) in r
    ensures forall o :: o in r ==>
              exists i, j :: 0 <= i < |balances| && 0 <= j < |protocols|
                && Eligible(balances[i], protocols[j], tolerance)
                && o == OpportunityFor(balances[i], protocols[j])
  {
    if balances == [] then []
    else
      var here := ForBalance(balances[0], protocols, tolerance);
      var rest := Candidates(balances[1..], protocols, tolerance);
      assert forall i :: 1 <= i < |balances| ==> balances[i] == balances[1..][i - 1];
      here + rest
  }

  /** One balance contributes the opportunities of the inner loop. */
  lemma CandidatesSingle(b: Balance, protocols: seq<Protocol>, tolerance: string)
    ensures Candidates([b], protocols, tolerance) == ForBalance(b, protocols, tolerance)
  {
    assert [b][1..] == [];
  }

  /** Balances are processed independently and in order: the candidates of
      a concatenation are the concatenated candidates. */
  lemma {:induction false} CandidatesAppend(a: seq<Balance>, b: seq<Balance>, protocols: seq<Protocol>,
                                            tolerance: string)
    ensures Candidates(a + b, protocols, tolerance)
            == Candidates(a, protocols, tolerance) + Candidates(b, protocols, tolerance)
  {
    if a == [] {
      assert a + b == b;
    } else {
      assert (a + b)[1..] == a[1..] + b;
      CandidatesAppend(a[1..], b, protocols, tolerance);
    }
  }

  /** `find_opportunities` against a given protocol list: every eligible
      pair and nothing else, highest APY first, ties in generation order. */
  function FindOpportunitiesIn(balances: seq<Balance>, protocols: seq<Protocol>, tolerance: string)
    : (r: seq<Opportunity>)
    ensures SortedDesc(r, Apy)
    ensures multiset(r) == multiset(Candidates(balances, protocols, tolerance))
    ensures forall k :: WithKey(r, Apy, k) == WithKey(Candidates(balances, protocols, tolerance), Apy, k)
    ensures forall i, j :: 0 <= i < |balances| && 0 <= j < |protocols|
                           && Eligible(balances[i], protocols[j], tolerance)
                           ==> OpportunityFor(balances[i], protocols[j]) in r
    ensures forall o :: o in r ==>
              exists i, j :: 0 <= i < |balances| && 0 <= j < |protocols|
                && Eligible(balances[i], protocols[j], tolerance)
                && o == OpportunityFor(balances[i], protocols[j])
  {
    var candidates := Candidates(balances, protocols, tolerance);
    var r := SortDesc(candidates, Apy);
    assert forall o :: o in r <==> o in candidates by {
      forall o ensures o in r <==> o in candidates {
        assert o in r <==> o in multiset(r);
        assert o in candidates <==> o in multiset(candidates);
      }
    }
    forall k ensures WithKey(r, Apy, k) == WithKey(candidates, Apy, k) {
      SortDescStable(candidates, Apy, k);
    }
    r
  }

  /** `find_opportunities` with the built-in protocol list. */
  function FindOpportunities(balances: seq<Balance>, tolerance: string := "moderate"): (r: seq<Opportunity>)
    ensures r == FindOpportunitiesIn(balances, StellarProtocols, tolerance)
    ensures SortedDesc(r, Apy)
    ensures forall o :: o in r ==> o.riskLevel != High
  {
    BuiltInNeverHigh();
    NoHighProtocolNoHighOpportunity(balances, StellarProtocols, tolerance);
    FindOpportunitiesIn(balances, StellarProtocols, tolerance)
  }

  /** An XLM holding under the default tolerance meets all five built-in
      protocols. */
  lemma XlmHoldingCount()
    ensures |FindOpportunities([Balance("XLM", 5.0, 600.0)])| == 5
  {
    var b := Balance("XLM", 5.0, 600.0);
    XlmEligibleEverywhere();
    XlmMeetsAllProtocols();
    CandidatesSingle(b, StellarProtocols, "moderate");
    SameLength(FindOpportunitiesIn([b], StellarProtocols, "moderate"), Candidates([b], StellarProtocols, "moderate"));
  }

  /** Among them is StellarX AMM at 15.8%, which earns 7.9 USD a month on
      600 USD. */
  lemma XlmHoldingBest()
    ensures OpportunityFor(Balance("XLM", 5.0, 600.0), StellarProtocols[3])
            in FindOpportunities([Balance("XLM", 5.0, 600.0)])
    ensures OpportunityFor(Balance("XLM", 5.0, 600.0), StellarProtocols[3]).potentialEarnings == 7.9
  {
    var b := Balance("XLM", 5.0, 600.0);
    XlmEligibleEverywhere();
    assert [b][0] == b;
  }

  lemma SameLength<T>(s: seq<T>, t: seq<T>)
    requires multiset(s) == multiset(t)
    ensures |s| == |t|
  {
    assert |multiset(s)| == |multiset(t)|;
  }

  /** Every built-in protocol lists XLM and is accepted at "moderate". */
  lemma XlmEligibleEverywhere()
    ensures forall j :: 0 <= j < |StellarProtocols| ==>
              Eligible(Balance("XLM", 5.0, 600.0), StellarProtocols[j], "moderate")
  {
    assert Text.Lower("moderate") == "moderate";
    forall j | 0 <= j < |StellarProtocols|
      ensures Eligible(Balance("XLM", 5.0, 600.0), StellarProtocols[j], "moderate")
    {
      assert StellarProtocols[j].assets[0] == "XLM";
    }
  }

  lemma XlmMeetsAllProtocols()
    requires forall j :: 0 <= j < |StellarProtocols| ==>
               Eligible(Balance("XLM", 5.0, 600.0), StellarProtocols[j], "moderate")
    ensures |ForBalance(Balance("XLM", 5.0, 600.0), StellarProtocols, "moderate")| == 5
  {
    var b, ps := Balance("XLM", 5.0, 600.0), StellarProtocols;
    assert |ForBalance(b, ps[4..], "moderate")| == 1;
    assert |ForBalance(b, ps[3..], "moderate")| == 2;
    assert |ForBalance(b, ps[2..], "moderate")| == 3;
    assert |ForBalance(b, ps[1..], "moderate")| == 4;
  }

  /** No built-in protocol is rated HIGH. */
  lemma BuiltInNeverHigh()
    ensures forall j :: 0 <= j < |StellarProtocols| ==> StellarProtocols[j].riskLevel != High
  {
  }

  /** Opportunities carry their protocol's risk level, so a protocol list
      without HIGH-risk entries yields no HIGH-risk opportunity, whatever
      the tolerance. */
  lemma NoHighProtocolNoHighOpportunity(balances: seq<Balance>, protocols: seq<Protocol>, tolerance: string)
    requires forall j :: 0 <= j < |protocols| ==> protocols[j].riskLevel != High
    ensures forall o :: o in FindOpportunitiesIn(balances, protocols, tolerance) ==> o.riskLevel != High
  {
    forall o | o in FindOpportunitiesIn(balances, protocols, tolerance)
      ensures o.riskLevel != High
    {
      var i, j :| 0 <= i < |balances| && 0 <= j < |protocols|
                  && Eligible(balances[i], protocols[j], tolerance)
                  && o == OpportunityFor(balances[i], protocols[j]);
    }
  }
}
