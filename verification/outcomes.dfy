/** Failure-carrying values shared by every layer of the model: an optional
    value, and a result whose failure is an error chain in the style of the
    `anyhow` crate (outermost context first, root cause last). */
module Outcomes {

  datatype Option<+T> = None | Some(value: T)

  /** A non-empty chain of messages. `chain[0]` is what `to_string` shows;
      `chain[|chain| - 1]` is the innermost cause. */
  type Chain = c: seq<string> | |c| > 0 witness [""]

  datatype Error = Error(chain: Chain)

  datatype Result<+T> = Ok(value: T) | Err(error: Error)

  /** An error created from a single message (`anyhow!(...)` or a library
      error converted with `?`). */
  function Fail(message: string): (e: Error)
    ensures e.chain == [message]
  {
    Error([message])
  }

  /** `.context(message)`: wraps `e` in a new outermost message. */
  function Context(e: Error, message: string): (r: Error)
    ensures r.chain[0] == message
    ensures r.chain[1..] == e.chain
    ensures r.chain[|r.chain| - 1] == e.chain[|e.chain| - 1]
  {
    Error([message] + e.chain)
  }
}
