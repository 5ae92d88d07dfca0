/** `TransactionOptimizer.estimate_batch_savings`. */
module TransactionOptimizer {

  /** Network fee per transaction, in XLM. */
  const BaseFeeXlm: real := 0.00001

  datatype BatchSavings = BatchSavings(individualCost: real, batchCost: real, savings: real,
                                       savingsPercentage: real)

  /** Batching costs the same as sending one by one, so the reported
      saving is always zero. */
  function EstimateBatchSavings(transactionCount: int): (r: BatchSavings)
    ensures r.batchCost == r.individualCost
    ensures r.individualCost == BaseFeeXlm * transactionCount as real
    ensures r.savings == 0.0 && r.savingsPercentage == 0.0
  {
    BatchSavings(BaseFeeXlm * transactionCount as real, BaseFeeXlm * transactionCount as real, 0.0, 0.0)
  }
}
