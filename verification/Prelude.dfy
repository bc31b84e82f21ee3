/** What the modules share: `Option` for a value that may be missing, `Result` for a call
    that may raise, whose `Err` holds the message of the exception, and the order of lists. */
module Prelude {
  datatype Option<+T> = None | Some(value: T)

  datatype Result<+T> = Ok(value: T) | Err(error: string)

  /** Strictly ascending. */
  predicate Ascending(s: seq<int>) { forall i, j | 0 <= i < j < |s| :: s[i] < s[j] }
}
