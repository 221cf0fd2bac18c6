/** Errors as the system reports them: an error carries its chain of messages,
    outermost context first, the way `anyhow::Error::chain` yields them. */
module Errors {

  /** `message` is what the error displays (its outermost context);
      `causes` are the errors it wraps, nearest first. */
  datatype Error = Error(message: string, causes: seq<string>) {
    /** Every message of the chain, outermost first. */
    function Chain(): seq<string> { [message] + causes }
  }

  /** An error with no cause (`bail!`, `ensure!`, `anyhow!`, a `String` boxed as an error). */
  function Fail(message: string): Error { Error(message, []) }

  /** `.context(c)` / `.with_context(|| c)`: wraps `e` under a new outermost message. */
  function Context(e: Error, context: string): Error {
    Error(context, [e.message] + e.causes)
  }

  datatype Result<+T> = Ok(value: T) | Err(error: Error)

  datatype Option<+T> = None | Some(value: T)
}
