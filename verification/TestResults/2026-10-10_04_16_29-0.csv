TestResult.DisplayName,TestResult.Outcome,TestResult.Duration,TestResult.ResourceCount,RandomSeed
YieldOpportunityMatcher.XlmHoldingExample (well-formedness) (assertion batch 1),Passed,00:00:00.2908997,298806,0
YieldOpportunityMatcher.XlmHoldingExample (correctness) (assertion batch 3),Passed,00:00:00.2226100,197148,0
YieldOpportunityMatcher.XlmHoldingExample (correctness) (assertion batch 2),Passed,00:00:00.2218672,168461,0
YieldOpportunityMatcher.XlmHoldingExample (well-formedness) (assertion batch 2),Passed,00:00:00.2147560,139717,0
YieldOpportunityMatcher.XlmHoldingExample (correctness) (assertion batch 6),Passed,00:00:00.1964100,183061,0
YieldOpportunityMatcher.XlmHoldingExample (correctness) (assertion batch 5),Passed,00:00:00.1693616,172797,0
YieldOpportunityMatcher.XlmHoldingExample (correctness) (assertion batch 4),Passed,00:00:00.1603666,169396,0
YieldOpportunityMatcher.XlmHoldingExample (correctness) (assertion batch 7),Passed,00:00:00.1222712,234773,0
YieldOpportunityMatcher.XlmHoldingExample (correctness) (assertion batch 1),Passed,00:00:00.0645349,90419,0
