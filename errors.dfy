/** The client's error value (src/errors.rs). */
module Errors {

  /** A key the remote API uses to classify the error, the input field it rejected,
      and a human-readable message. Key and field may be empty. */
  datatype Error = Error(errorKey: string, field: string, message: string)

  /** `Error::new_from_message`: an error that carries only a message. */
  function NewFromMessage(message: string): (e: Error)
    ensures e.errorKey == [] && e.field == []
    ensures e.message == message
  {
    Error("", "", message)
  }
}
