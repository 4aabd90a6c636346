// Messages of the admin-to-employee chat pane.
module Chat {
  import Text

  datatype ChatMessage = ChatMessage(sender: string, text: string)

  /** Every message sent from the dashboard carries this sender. */
  const Admin := "Admin"

  /** The notification raised after a message is sent. */
  const SentNotice := "Message sent!"

  /** The guard of `handleSendMessage`: `newMessage.trim()` is a non-empty
      (truthy) string exactly when the pending text is not blank. */
  function ShouldSend(pending: string): (send: bool)
    ensures send <==> !Text.IsBlank(pending)
  {
    Text.Trim(pending) != ""
  }

  /** The empty input and one made only of spaces are never sent, while a
      word is, with its surrounding spaces kept. */
  lemma GuardExamples()
    ensures !ShouldSend("") && !ShouldSend("   ")
    ensures ShouldSend("Hello") && ShouldSend(" Hello ")
  {
    assert !Text.IsWhitespace("Hello"[0]);
    assert !Text.IsWhitespace(" Hello "[1]);
  }
}
