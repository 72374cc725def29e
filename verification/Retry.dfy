/** shared/amqpretry: what to do with a failed delivery. */
module AmqpRetry {
  /** An error and what it wraps; Permanent is the package's own marker type. */
  datatype Error = Plain(text: string) | Wrapped(text: string, inner: Error) | Permanent(marked: Error)

  datatype ErrorOption = NoError | SomeError(error: Error)

  datatype HeaderValue = Int32(i32: int) | Int64(i64: int) | Int(i: int) | Text(s: string)

  type Headers = map<string, HeaderValue>

  datatype Decision = Retry | DeadLetter

  const HEADER_RETRY_COUNT := "x-retry-count"
  const RETRY_EXCHANGE := "saga.retry"
  const RETRY_TTL_MILLIS := 5000
  const MAX_INT32 := 0x7fff_ffff
  const MIN_INT32 := -0x8000_0000

  function MarkPermanent(err: ErrorOption): (r: ErrorOption)
    ensures IsPermanent(r) <==> err.SomeError?
  {
    if err.NoError? then NoError else SomeError(Permanent(err.error))
  }

  /** errors.As walks the chain of wrapped errors. */
  function IsPermanentError(e: Error): bool {
    match e
    case Plain(_) => false
    case Wrapped(_, inner) => IsPermanentError(inner)
    case Permanent(_) => true
  }

  function IsPermanent(err: ErrorOption): bool {
    err.SomeError? && IsPermanentError(err.error)
  }

  function Decide(err: ErrorOption, retryCount: int, maxRetries: int): Decision {
    if IsPermanent(err) || retryCount >= maxRetries then DeadLetter else Retry
  }

  function RetryCount(h: Headers): int {
    if HEADER_RETRY_COUNT !in h then 0
    else match h[HEADER_RETRY_COUNT]
         case Int32(v) => v
         case Int64(v) => v
         case Int(v) => v
         case Text(_) => 0
  }

  /** Go's int32 conversion keeps the low 32 bits. */
  function ToInt32(n: int): int {
    (n - MIN_INT32) % 0x1_0000_0000 + MIN_INT32
  }

  // ---------------------------------------------------------------- what wrapping preserves

  function Chain(e: Error): seq<Error> {
    match e
    case Plain(_) => [e]
    case Wrapped(_, inner) => [e] + Chain(inner)
    case Permanent(inner) => [e] + Chain(inner)
  }

  /** An error is permanent exactly when something in its chain was marked. */
  lemma {:induction false} PermanentIff(e: Error)
    ensures IsPermanentError(e) <==> exists i :: 0 <= i < |Chain(e)| && Chain(e)[i].Permanent?
  {
    match e
    case Plain(_) =>
    case Wrapped(_, inner) =>
      PermanentIff(inner);
      if i :| 0 <= i < |Chain(inner)| && Chain(inner)[i].Permanent? {
        assert Chain(e)[i + 1] == Chain(inner)[i];
      }
    case Permanent(_) =>
      assert Chain(e)[0] == e;
  }

  /** The next count is above the current one, and in range, as long as the current one is below a
      32-bit limit. */
  lemma CountRises(count: int, maxRetries: int)
    requires count < maxRetries <= MAX_INT32
    ensures count < ToInt32(count + 1) <= maxRetries || count < MIN_INT32
    ensures MIN_INT32 <= ToInt32(count + 1) <= MAX_INT32 && count < ToInt32(count + 1)
  {
    if count + 1 >= MIN_INT32 {
      assert ToInt32(count + 1) == count + 1;
    }
  }

}
