/** Worked instances of the gas-price model on concrete oracle replies. */
module GasPriceExamples {
  import opened Wrappers
  import opened GasPrice

  /** A successful reply whose suggestions are 30.5, 33 and 41 gwei over a base fee of 170. */
  function SampleReply(status: string): OracleResponse {
    OracleResponse(status, Some(OracleResult(30.5, 33.0, 41.0, 170.0, 100)))
  }

  /** The table built from the sample reply, and the `fast` price taken from it. */
  lemma SampleReplyPrices()
    ensures BuildPrices(Some(SampleReply("1"))).Ok?
    ensures BuildPrices(Some(SampleReply("1"))).value.standard.maxFee == 203.0
    ensures BuildPrices(Some(SampleReply("1"))).value.blockNumber == 100
    ensures GetGasPrice(Some(SampleReply("1")), GasPriceOptions(Some(Fast), None, None)) == Ok(211 * GWEI)
    ensures GetGasPrice(Some(SampleReply("1")), GasPriceOptions(None, None, None)) == Ok(203 * GWEI)
    ensures GetGasPrice(Some(SampleReply("1")), GasPriceOptions(Some(Low), None, None)) == Ok(201 * GWEI)
  {
  }

  /** A status of "0", or no body at all, yields the fetch error. */
  lemma FailedReplies()
    ensures GetGasPrice(Some(SampleReply("0")), GasPriceOptions(Some(Fast), None, None)) == Err(FetchFailed)
    ensures GetGasPrice(None, GasPriceOptions(None, None, None)) == Err(FetchFailed)
    ensures GetGasPrice(Some(OracleResponse("1", None)), GasPriceOptions(None, None, None)) == Err(ResultMissing)
  {
  }

  /** A fractional fee is rounded up, never down. */
  lemma RoundsUp()
    ensures Ceil(201.020433986) == 202
    ensures Ceil(203.0) == 203
  {
  }
}
