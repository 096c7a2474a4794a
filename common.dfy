/** Shared vocabulary of the bot: user identifiers and the two wrapper types
    used for values that may be absent and for operations that may fail. */
module Common {

  /** A Messenger user id (`fbid`, `senderID`, `recipientId` in the source). */
  type UserId = string

  /** A value that may be absent: a SQL NULL column, a missing JavaScript property. */
  datatype Option<+T> = None | Some(value: T)

  /** The outcome of a database query: its result, or the error passed to its callback. */
  datatype Result<+T, +E> = Ok(value: T) | Err(error: E)
}
