/** Values shared by every part of the model: a nullable reference, the
    exceptions the core raises or catches, and what a call does (return a
    value or throw). */
module Outcomes {

  /** A reference or a nullable value: `None` stands for `null`. */
  datatype Option<+T> = None | Some(value: T)

  /** The exceptions that the core raises, catches or lets through, by .NET type. */
  datatype Exception =
    | ValidationException(message: Option<string>)  // None: raised without a message
    | KeyNotFoundException
    | ArgumentNullException(paramName: string)
    | NullReferenceException
    | OtherException(text: string)                   // any other exception type

  /** The text .NET puts in `Exception.Message` for an exception built
      without a message.  Its wording belongs to the framework and is left
      open; all the model relies on is that there is one. */
  const DefaultMessage: string

  /** `ex.Message` for a message that may be missing: never `null`. */
  function MessageText(m: Option<string>): string
  {
    if m.Some? then m.value else DefaultMessage
  }

  /** What a call does: it returns a value or it throws. */
  datatype Outcome<+T> = Returned(value: T) | Threw(error: Exception)
}
