/** Vocabulary shared by every module: optional values, results, identifiers and the service's errors. */
module Prelude {

  datatype Option<+T> = None | Some(value: T)

  datatype Result<+T, +E> = Ok(value: T) | Err(error: E) {
    predicate IsFailure() {
      Err?
    }

    function PropagateFailure<U>(): Result<U, E>
      requires Err?
    {
      Err(error)
    }

    function Extract(): T
      requires Ok?
    {
      value
    }
  }

  /** Go's bare `error` return: nothing, or the error. */
  datatype Outcome<+E> = Pass | Fail(error: E) {
    predicate IsFailure() {
      Fail?
    }

    function PropagateFailure<U>(): Result<U, E>
      requires Fail?
    {
      Err(error)
    }
  }

  /** A UUID. Only equality and freshness matter, so identifiers are numbers; `NIL` is uuid.Nil(). */
  type Id = nat
  const NIL: Id := 0

  /** An instant or a duration in nanoseconds. */
  type Time = int

  datatype Error =
    | EmptyAmount
    | InvalidFormat
    | NegativeAmount
    | InvalidCurrency
    | MoneyCurrencyMismatch
    | Overflow
    | InvalidWallet
    | WalletCurrencyMismatch
    | NonPositiveAmount
    | InsufficientBalance
    | InvalidEntry
    | BalanceMismatch
    | InvalidTransaction
    | InvalidKindForOperation
    | InvalidTransition
    | NotFound
    | Conflict
    | OptimisticLock
    | ConstraintViolation
    | IdempotencyKeyReused
    | ExternalTransactionKeyMismatch
    | CommitFailed
    | ScanFailed
    | MalformedCursor
}
