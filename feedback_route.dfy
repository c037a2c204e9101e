/** The one check the feedback endpoint makes before asking the model for a report. */
module FeedbackRoute {
  import opened Wrappers
  import opened Conversation

  /** An error response: its message and HTTP status. */
  datatype Rejection = Rejection(error: string, status: int)

  const EmptyConversationError := "No conversation to analyze"

  /** A missing or empty conversation is refused with a 400 before any model call. */
  function CheckConversation(conversation: Option<seq<Entry>>): (r: Option<Rejection>)
    ensures r.Some? <==> conversation.None? || |conversation.value| == 0
    ensures r.Some? ==> r.value == Rejection(EmptyConversationError, 400)
  {
    if conversation.None? || |conversation.value| == 0 then Some(Rejection(EmptyConversationError, 400))
    else None
  }
}
