/**
 * The interview transcript as the page keeps it, and the mapping that turns
 * it into the chat history sent with every request to the chat endpoint.
 */
module Conversation {
  import opened ChatRoute

  /** One line of the transcript: who spoke (`"You"` or `"AI Coach"`) and what was said. */
  datatype Entry = Entry(role: string, text: string)

  const UserRole := "You"
  const CoachRole := "AI Coach"

  /** An entry written by the page itself: its role is one of the two speakers. */
  predicate Spoken(e: Entry) {
    e.role == UserRole || e.role == CoachRole
  }

  /** The chat message for one entry: `"You"` becomes `"user"`, every other role `"assistant"`. */
  function ToMessage(e: Entry): (m: Message)
    ensures m.content == e.text
    ensures m.role == "user" <==> e.role == UserRole
    ensures m.role == "assistant" <==> e.role != UserRole
  {
    Message(if e.role == UserRole then "user" else "assistant", e.text)
  }

  /** `conversation.map(...)`: the history sent to the chat endpoint, entry by entry and in order. */
  function ToHistory(conversation: seq<Entry>): (h: seq<Message>)
    ensures |h| == |conversation|
    ensures forall i :: 0 <= i < |conversation| ==> h[i] == ToMessage(conversation[i])
  {
    if conversation == [] then []
    else [ToMessage(conversation[0])] + ToHistory(conversation[1..])
  }

  /** The entry a chat message stands for, reading `"user"` as `"You"` and anything else as the coach. */
  function FromMessage(m: Message): (e: Entry)
    ensures e.text == m.content
    ensures Spoken(e)
  {
    Entry(if m.role == "user" then UserRole else CoachRole, m.content)
  }

  /** Reads a chat history back into transcript entries. */
  function FromHistory(history: seq<Message>): (c: seq<Entry>)
  {
    if history == [] then []
    else [FromMessage(history[0])] + FromHistory(history[1..])
  }

  /** The mapping distributes over appending, so a longer transcript maps to a longer history. */
  lemma ToHistoryAppend(a: seq<Entry>, b: seq<Entry>)
    ensures ToHistory(a + b) == ToHistory(a) + ToHistory(b)
  {
    var l, r := ToHistory(a + b), ToHistory(a) + ToHistory(b);
    assert |l| == |r|;
    forall i | 0 <= i < |l| ensures l[i] == r[i] {
      if i < |a| {
        assert (a + b)[i] == a[i];
      } else {
        assert (a + b)[i] == b[i - |a|];
      }
    }
  }

  /** A prefix of the transcript maps to a prefix of its history. */
  lemma ToHistoryPrefix(a: seq<Entry>, b: seq<Entry>)
    requires a <= b
    ensures ToHistory(a) <= ToHistory(b)
  {
    assert b == a + b[|a|..];
    ToHistoryAppend(a, b[|a|..]);
  }

  /**
   * A transcript written by the page survives the trip to the chat endpoint:
   * its history reads back into exactly the same entries.
   */
  lemma {:induction false} HistoryRoundTrip(conversation: seq<Entry>)
    requires forall i :: 0 <= i < |conversation| ==> Spoken(conversation[i])
    ensures FromHistory(ToHistory(conversation)) == conversation
  {
    if conversation != [] {
      HistoryRoundTrip(conversation[1..]);
      assert ToHistory(conversation)[1..] == ToHistory(conversation[1..]);
    }
  }
}
