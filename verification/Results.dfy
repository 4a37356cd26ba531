/** Optional values and error returns. */
module Results {

  datatype Option<+T> = None | Some(value: T)

  datatype Error =
    | InvalidRequest | InvalidUsage | InvalidComponent | DuplicateComponent | InvalidPrice | NoApplicableTier
    | InvalidMinimum | PriceNotConfigured | UsageUnavailable
    | DuplicateRequest | DuplicateTransaction | AccountNotFound | InsufficientBalance
    | TokenSpendLimitReached | ReservationNotFound | ReservationClosed | SettlementPending
    | UpstreamCostUnavailable

  datatype Result<+T> = Ok(value: T) | Err(error: Error) {
    predicate IsFailure() { Err? }
    function PropagateFailure<U>(): Result<U>
      requires Err?
    {
      Err(error)
    }
    function Extract(): T
      requires Ok?
    {
      value
    }
  }
}
