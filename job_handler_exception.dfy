/** `JobHandlerException`: an Error whose message defaults to "No message.". */
module Exceptions {
  import opened Wrappers

  datatype JobHandlerException = JobHandlerException(message: string)

  function NewJobHandlerException(message: Option<string>): (e: JobHandlerException)
    ensures message.Some? && message.value != "" ==> e.message == message.value
    ensures message.None? || message == Some("") ==> e.message == "No message."
  {
    if message.Some? && message.value != "" then JobHandlerException(message.value)
    else JobHandlerException("No message.")
  }

  /** Thrown by the handler constructor when it is given no channel. */
  const ChannelNotFound := NewJobHandlerException(Some("Channel not found."))

  /** Thrown by `run` on a handler that has not been initialized. */
  const NotInitialized := NewJobHandlerException(Some("This handler hasn't initialized."))
}
