/**
 * The message shape shared by the browser client, the `/api/chat` route and the
 * completion provider: `{ role, content }`.
 */
module Protocol {
  const User: string := "user"
  const Assistant: string := "assistant"
  const System: string := "system"

  datatype ChatMessage = ChatMessage(role: string, content: string)

  /** The two roles a conversation transcript is made of. */
  predicate IsChatRole(role: string) {
    role == User || role == Assistant
  }

  /** Every message of `msgs` has the role `user` or `assistant`. */
  predicate AllChatRoles(msgs: seq<ChatMessage>) {
    forall i :: 0 <= i < |msgs| ==> IsChatRole(msgs[i].role)
  }
}
