/** The error helpers of the front end: the error record every failed call carries,
    the table from HTTP status to the message a user sees, and the retry loop that
    waits twice as long after each failed attempt. */
module ErrorHandler {
  import opened Text

  /** `APIError`: a message, the HTTP status if there was one, and the endpoint. */
  datatype ApiError = ApiError(message: string, status: Option<int>, endpoint: string) {
    const name: string := "APIError"
  }

  // ---- Status messages ----------------------------------------------------

  const TryLater := " Please try again later."
  const ServerError := "Server error." + TryLater
  const UnexpectedError := "An unexpected error occurred. Please try again."

  /** `errorMessages`. */
  const Messages: map<int, string> := map[
    400 := "Invalid request. Please check your input.",
    401 := "Authentication failed. Please try again.",
    403 := "Access forbidden. The service may be temporarily unavailable.",
    404 := "Service not found." + TryLater,
    429 := "Too many requests. Please wait a moment and try again.",
    500 := ServerError,
    502 := "Service temporarily unavailable." + TryLater,
    503 := "Service maintenance in progress." + TryLater
  ]

  /** `error.status || 500`: no status, or status 0, counts as a server error. */
  function EffectiveStatus(status: Option<int>): (r: int)
    ensures status.None? || status == Some(0) ==> r == 500
    ensures status.Some? && status.value != 0 ==> r == status.value
  {
    if status.None? || status.value == 0 then 500 else status.value
  }

  /** `errorMessages[status] || generic`: a listed status has its own message, any
      other status the generic one. */
  function StatusMessage(status: int): (r: string)
    ensures status in Messages ==> r == Messages[status] && r != UnexpectedError
    ensures status !in Messages ==> r == UnexpectedError
  {
    if status in Messages && Messages[status] != "" then Messages[status] else UnexpectedError
  }

  /** `handleAPIError`; the logging and the environment test have no effect on the result. */
  function HandleApiError(error: ApiError): (r: string)
    ensures error.status.None? || error.status == Some(0) ==> r == ServerError
    ensures error.status.Some? && error.status.value != 0 ==> r == StatusMessage(error.status.value)
  {
    StatusMessage(EffectiveStatus(error.status))
  }

  // ---- Retry with exponential back-off ------------------------------------

  /** What one call of `fn` does: return a value or throw. */
  datatype Outcome<T, E> = Ok(value: T) | Err(error: E)

  /** What the retry promise settles to; `Undefined` when the loop never runs. */
  datatype Settled<T, E> = Resolved(value: T) | Rejected(error: E) | Undefined

  const DefaultMaxRetries := 3
  const DefaultBaseDelay := 1000

  function Pow2(i: nat): (r: nat)
    ensures r >= 1
  {
    if i == 0 then 1 else 2 * Pow2(i - 1)
  }

  /** `retryWithBackoff`. Call `i` (0-based) of `fn` has outcome `fn(i)`; `calls` is
      how many calls were made and `delays` lists the waits in order. */
  method RetryWithBackoff<T, E>(fn: nat -> Outcome<T, E>, maxRetries: Option<int>, baseDelay: Option<int>)
    returns (r: Settled<T, E>, calls: nat, delays: seq<int>)
    ensures var n := GetOr(maxRetries, DefaultMaxRetries);
      (n <= 0 ==> r == Undefined && calls == 0) &&
      (n > 0 ==> 1 <= calls <= n && !r.Undefined?)
    ensures forall i :: 0 <= i < calls - 1 ==> fn(i).Err?
    ensures r.Resolved? ==> fn(calls - 1) == Ok(r.value)
    ensures r.Rejected? ==> calls == GetOr(maxRetries, DefaultMaxRetries) && fn(calls - 1) == Err(r.error)
    ensures |delays| == if calls == 0 then 0 else calls - 1
    ensures forall i :: 0 <= i < |delays| ==> delays[i] == GetOr(baseDelay, DefaultBaseDelay) * Pow2(i)
    ensures |delays| > 0 ==> delays[0] == GetOr(baseDelay, DefaultBaseDelay)
    ensures forall i :: 0 < i < |delays| ==> delays[i] == 2 * delays[i - 1]
  {
    var n := GetOr(maxRetries, DefaultMaxRetries);
    var base := GetOr(baseDelay, DefaultBaseDelay);
    r, calls, delays := Undefined, 0, [];
    var i := 0;
    while i < n
      invariant 0 <= i && (n > 0 ==> i < n) && (n <= 0 ==> i == 0)
      invariant calls == i && r == Undefined
      invariant forall j :: 0 <= j < i ==> fn(j).Err?
      invariant |delays| == i
      invariant forall j :: 0 <= j < i ==> delays[j] == base * Pow2(j)
    {
      calls := calls + 1;
      match fn(i)
      case Ok(v) =>
        r := Resolved(v);
        PowersDouble(delays, base);
        return;
      case Err(e) =>
        if i == n - 1 {
          r := Rejected(e);
          PowersDouble(delays, base);
          return;
        }
        delays := delays + [base * Pow2(i)];
      i := i + 1;
    }
  }

  /** Waits of `base · 2^i` double from one to the next. */
  lemma PowersDouble(delays: seq<int>, base: int)
    requires forall i :: 0 <= i < |delays| ==> delays[i] == base * Pow2(i)
    ensures forall i :: 0 < i < |delays| ==> delays[i] == 2 * delays[i - 1]
  {
    forall i | 0 < i < |delays| ensures delays[i] == 2 * delays[i - 1] {
      assert Pow2(i) == 2 * Pow2(i - 1);
    }
  }
}
