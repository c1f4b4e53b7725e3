/** The outcome of one call into the hosted store, which the model does not see into. */
module Remote {
  /** What a failed call throws: an `Error` object with a message, or some other value. */
  datatype Thrown = ErrorObject(message: string) | NonError

  datatype Outcome = Success | Failure(thrown: Thrown)

  const GenericMessage: string := "An error occurred"

  /** The text every form's `catch` clause stores in its error field. */
  function Message(t: Thrown): string
  {
    match t
    case ErrorObject(m) => m
    case NonError => GenericMessage
  }
}
