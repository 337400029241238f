/** Value types shared by every component of the model. */
module Common {

  /** A nullable column or an optional argument. */
  datatype Option<+T> = None | Some(value: T)

  /** The outcome of a service call that may raise one of several errors. */
  datatype Result<+T, +E> = Ok(value: T) | Err(error: E)

  /** The outcome of a normaliser or a validator: `Invalid` stands for a raised `ValueError`. */
  datatype Checked<+T> = Invalid | Valid(value: T) {
    predicate IsFailure() {
      Invalid?
    }
    function PropagateFailure<U>(): Checked<U>
      requires Invalid?
    {
      Invalid
    }
    function Extract(): T
      requires Valid?
    {
      value
    }
  }

  /** The first value unless it is missing: how a null column is filled. */
  function Fill<T>(current: Option<T>, incoming: Option<T>): Option<T> {
    if current.Some? then current else incoming
  }

  /** `int(flag)` */
  function One(flag: bool): nat {
    if flag then 1 else 0
  }

  /** The sanitised error codes: eight a provider call can end in, three the orchestration adds. */
  datatype ErrorCode =
    | AuthenticationError | ConfigurationError | QuotaExceeded | RateLimitError
    | RequestError | ResponseError | ResponseTooLarge | ProviderError
    | CandidateInvalid | ExecutionInvalid | ExecutionFailed

  datatype ErrorSubtype = Transport | HttpClient | Validation

  /** An HTTP status a diagnostic may carry. */
  type ClientStatus = status: nat | 400 <= status <= 499 witness 400

  /** What a provider says about a failed request; nothing ties the status to the subtype. */
  datatype Diagnostic = Diagnostic(subtype: ErrorSubtype, httpStatus: Option<ClientStatus>)
}
