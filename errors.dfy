/** Go's `error` values and the `(T, error)` return convention.
    `fmt.Errorf("ctx: %w", cause)` becomes `Wrap("ctx", Some(cause))`; an error
    built without `%w` is a `Leaf` holding its whole text. */
module Errors {

  datatype Option<+T> = None | Some(value: T)

  datatype Error =
    | Leaf(text: string)
    | Wrap(context: string, cause: Option<Error>)
  {
    /** The text `Error()` would return; a nil cause prints as Go's `%!w(<nil>)`. */
    function Message(): string
    {
      match this
      case Leaf(t) => t
      case Wrap(c, None) => c + ": %!w(<nil>)"
      case Wrap(c, Some(e)) => c + ": " + e.Message()
    }
  }

  /** A Go `(T, error)` pair where exactly one side is meaningful. */
  datatype Result<+T> = Ok(value: T) | Err(error: Error)

  /** The error half of a result, as `err` in `v, err := f()`. */
  function ErrorOf<T>(r: Result<T>): (e: Option<Error>)
    ensures e.None? <==> r.Ok?
    ensures r.Err? ==> e == Some(r.error)
  {
    match r
    case Ok(_) => None
    case Err(x) => Some(x)
  }
}
