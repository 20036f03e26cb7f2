/** Go error values as the client produces and inspects them. */
module Errors {
  import opened Decimal
  import opened Strings

  /** What `ctx.Err()` returns once the context is done. */
  datatype ContextError = Canceled | DeadlineExceeded

  datatype Error =
    | NotAuthorized                        // the package variable ErrNotAuthorized
    | TaskNotFound                         // the package variable ErrTaskNotFound
    | Errorf(message: string)              // fmt.Errorf without a %w verb
    | Wrapped(prefix: string, inner: Error)  // fmt.Errorf(prefix + "%w", inner)
    | Context(cause: ContextError)         // ctx.Err()
    | Foreign(message: string)             // an error from net/http or encoding/json

  /** `err.Error()`. */
  function Text(e: Error): string {
    match e
    case NotAuthorized => "not authorized"
    case TaskNotFound => "task not found"
    case Errorf(message) => message
    case Wrapped(prefix, inner) => prefix + Text(inner)
    case Context(Canceled) => "context canceled"
    case Context(DeadlineExceeded) => "context deadline exceeded"
    case Foreign(message) => message
  }

  /** `errors.Is(e, target)`: `target` is `e` or sits inside its chain of %w wrappings. */
  predicate Is(e: Error, target: Error) {
    e == target || (e.Wrapped? && Is(e.inner, target))
  }

  const BadResponseCodePrefix := "bad response code: "

  /** `fmt.Errorf("bad response code: %d", code)`. */
  function BadResponseCode(code: int): Error {
    Errorf(BadResponseCodePrefix + Format(code))
  }

  /** The status code can be read back from the text of a bad-response-code error. */
  lemma BadResponseCodeCarriesStatus(code: int)
    ensures var t := Text(BadResponseCode(code));
      StartsWith(t, BadResponseCodePrefix) && IsDecimal(t[|BadResponseCodePrefix|..]) && Parse(t[|BadResponseCodePrefix|..]) == code
  {
    var t := Text(BadResponseCode(code));
    assert t[|BadResponseCodePrefix|..] == Format(code);
    ParseFormat(code);
  }
}
