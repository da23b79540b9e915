/** The outcome of an operation: a value, or the error code that aborts the transaction. */
module Results {

  datatype Option<+T> = None | Some(value: T)

  /** The error codes raised by the modelled operations, under the names the source gives them. */
  datatype Error =
    | ValidationError
    | InvalidState
    | RevisionConflict
    | SlotConflict
    | SlotInPast
    | PaymentRequired
    | PaymentMethodRequired
    | PrepayRequired
    | ProfileDataRequired
    | ProfileUnavailable
    | HoursRequired
    | HoursNotAvailable
    | InsufficientBalance
    | InvalidBalance
    | InvalidBooking
    | RefundExceedsDebit
    | ConflictUnresolved
    | NotFound
    | OutsideWorkingHours
    | ServiceUnavailable
    | BalanceServicesNotSupported
    | PaymentMismatch
    | PriceChanged
    | InvoiceIssuerRequired
    | Maintenance
    | IdempotencyRequired
    | IdempotencyConflict
    | TicketClosed

  datatype Result<+T> = Ok(value: T) | Err(error: Error) {
    predicate IsFailure() {
      Err?
    }

    function PropagateFailure<U>(): Result<U>
      requires Err?
    {
      Err(error)
    }

    function Extract(): T
      requires Ok?
    {
      value
    }
  }

  function Or<T>(o: Option<T>, other: T): T {
    match o case Some(v) => v case None => other
  }

  /** Goes on only when `condition` holds. */
  function Need(condition: bool, error: Error): Result<()> {
    if condition then Ok(()) else Err(error)
  }
}
