TestResult.DisplayName,TestResult.Outcome,TestResult.Duration,TestResult.ResourceCount,RandomSeed
YieldOpportunityMatcher.XlmHoldingExample (well-formedness) (assertion batch 1),Passed,00:00:00.2840264,295661,2
YieldOpportunityMatcher.XlmHoldingExample (well-formedness) (assertion batch 2),Passed,00:00:00.2412718,139957,2
YieldOpportunityMatcher.XlmHoldingExample (correctness) (assertion batch 3),Passed,00:00:00.2370082,197449,2
YieldOpportunityMatcher.XlmHoldingExample (correctness) (assertion batch 6),Passed,00:00:00.1823418,183042,2
YieldOpportunityMatcher.XlmHoldingExample (correctness) (assertion batch 5),Passed,00:00:00.1682381,172848,2
YieldOpportunityMatcher.XlmHoldingExample (correctness) (assertion batch 7),Passed,00:00:00.1577752,234424,2
YieldOpportunityMatcher.XlmHoldingExample (correctness) (assertion batch 2),Passed,00:00:00.1426912,168795,2
YieldOpportunityMatcher.XlmHoldingExample (correctness) (assertion batch 4),Passed,00:00:00.1192783,169511,2
YieldOpportunityMatcher.XlmHoldingExample (correctness) (assertion batch 1),Passed,00:00:00.1070557,90558,2
