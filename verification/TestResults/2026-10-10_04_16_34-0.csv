TestResult.DisplayName,TestResult.Outcome,TestResult.Duration,TestResult.ResourceCount,RandomSeed
YieldOpportunityMatcher.XlmHoldingExample (well-formedness) (assertion batch 1),Passed,00:00:00.2325481,298755,1
YieldOpportunityMatcher.XlmHoldingExample (well-formedness) (assertion batch 2),Passed,00:00:00.1991455,140373,1
YieldOpportunityMatcher.XlmHoldingExample (correctness) (assertion batch 3),Passed,00:00:00.1942529,197842,1
YieldOpportunityMatcher.XlmHoldingExample (correctness) (assertion batch 2),Passed,00:00:00.1917570,169152,1
YieldOpportunityMatcher.XlmHoldingExample (correctness) (assertion batch 4),Passed,00:00:00.1534576,170001,1
YieldOpportunityMatcher.XlmHoldingExample (correctness) (assertion batch 5),Passed,00:00:00.1478340,173106,1
YieldOpportunityMatcher.XlmHoldingExample (correctness) (assertion batch 7),Passed,00:00:00.1275398,233623,1
YieldOpportunityMatcher.XlmHoldingExample (correctness) (assertion batch 6),Passed,00:00:00.1163596,183291,1
YieldOpportunityMatcher.XlmHoldingExample (correctness) (assertion batch 1),Passed,00:00:00.0931985,90492,1
