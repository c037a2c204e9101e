/**
 * The pure parts of the chat endpoint's POST handler: the system prompt with
 * the truncated resume and job description, the message list sent to the
 * chat-completion model, the default texts, and the `data:` URL that carries
 * the synthesized speech back to the page. The model call and the speech
 * synthesis are parameters (`complete`, `synthesize`).
 */
module ChatRoute {
  import opened Wrappers

  /** One entry of the `messages` array given to the chat-completion model. */
  datatype Message = Message(role: string, content: string)

  /** The request body fields the handler reads; a missing or null field is `None`. */
  datatype ChatBody = ChatBody(
    userText: Option<string>,
    resumeText: Option<string>,
    jobDescription: Option<string>,
    conversationHistory: Option<seq<Message>>)

  /**
   * What the chat-completion call yields: the call was rejected (or there was
   * no first choice to read), or the first choice's content, which may be null.
   */
  datatype Completion = CompletionFailed | Completed(content: Option<string>)

  /** The JSON response of the endpoint. */
  datatype ChatResponse = Reply(text: string, audio: string) | Failure(error: string, status: int)

  /** Maximum number of characters of the resume and of the job description quoted in the prompt. */
  const ContextLimit: nat := 2000
  const OpeningUserText := "Let's start the interview."
  const FallbackReply := "Could you tell me about your experience?"
  /** The media type and encoding prefix of the returned audio (a `data:` URL, RFC 2397). */
  const AudioUrlPrefix := "data:audio/wav;base64,"
  const FailureText := "Chat failed"
  const FailureStatus := 500

  /** The fixed text of the system prompt around the two quoted excerpts. */
  const PromptHead := "\n      You are a Senior Technical Recruiter. \n      CONTEXT:\n      Resume: \""
  const PromptMiddle := "\"\n      Job Description: \""
  const PromptTail :=
    "\"\n      \n      STRICT RULES:\n"
    + "      1. ASK ONLY ONE QUESTION AT A TIME. Do not ask multi-part questions.\n"
    + "      2. After asking a question, STOP and wait for the user to provide a complete answer.\n"
    + "      3. Acknowledge the user's previous answer briefly before asking the NEXT single question.\n"
    + "      4. Do not provide feedback or a scorecard mid-interview.\n"
    + "      5. Keep responses under 2 sentences.\n    "

  /** JavaScript's `v || ""` on an optional string. */
  function OrEmpty(v: Option<string>): (s: string)
    ensures v.Some? ==> s == v.value
    ensures v.None? ==> s == ""
  {
    match v
    case Some(x) => x
    case None => ""
  }

  /** `(v || "").slice(0, ContextLimit)`: the excerpt of a context field quoted in the prompt. */
  function ContextExcerpt(v: Option<string>): (r: string)
    ensures |r| <= ContextLimit
    ensures r <= OrEmpty(v)
    ensures |OrEmpty(v)| <= ContextLimit ==> r == OrEmpty(v)
    ensures |OrEmpty(v)| > ContextLimit ==> |r| == ContextLimit
  {
    var s := OrEmpty(v);
    if |s| <= ContextLimit then s else s[..ContextLimit]
  }

  /** The system prompt: fixed instructions quoting the resume and job description excerpts. */
  function SystemPrompt(resumeText: Option<string>, jobDescription: Option<string>): (p: string)
    ensures |p| == |PromptHead| + |ContextExcerpt(resumeText)| + |PromptMiddle|
                   + |ContextExcerpt(jobDescription)| + |PromptTail|
    ensures |p| <= |PromptHead| + |PromptMiddle| + |PromptTail| + 2 * ContextLimit
  {
    PromptHead + ContextExcerpt(resumeText) + PromptMiddle + ContextExcerpt(jobDescription) + PromptTail
  }

  /** The prompt opens with the recruiter persona and quotes the resume excerpt right after it. */
  lemma SystemPromptQuotesResume(resumeText: Option<string>, jobDescription: Option<string>)
    ensures var p, r := SystemPrompt(resumeText, jobDescription), ContextExcerpt(resumeText);
            p[..|PromptHead|] == PromptHead && p[|PromptHead|..|PromptHead| + |r|] == r
  {
    QuotedAt(PromptHead, ContextExcerpt(resumeText), PromptMiddle, ContextExcerpt(jobDescription), PromptTail);
  }

  /** The job-description excerpt is quoted right after the resume excerpt and the middle text. */
  lemma SystemPromptQuotesJob(resumeText: Option<string>, jobDescription: Option<string>)
    ensures var p, r, d := SystemPrompt(resumeText, jobDescription), ContextExcerpt(resumeText), ContextExcerpt(jobDescription);
            var j := |PromptHead| + |r| + |PromptMiddle|;
            p[|PromptHead| + |r|..j] == PromptMiddle && p[j..j + |d|] == d
  {
    QuotedAt(PromptHead, ContextExcerpt(resumeText), PromptMiddle, ContextExcerpt(jobDescription), PromptTail);
  }

  /** The prompt closes with the interview rules. */
  lemma SystemPromptEndsWithRules(resumeText: Option<string>, jobDescription: Option<string>)
    ensures var p := SystemPrompt(resumeText, jobDescription);
            p[|p| - |PromptTail|..] == PromptTail
  {
    QuotedAt(PromptHead, ContextExcerpt(resumeText), PromptMiddle, ContextExcerpt(jobDescription), PromptTail);
  }

  /** Where each piece of a five-piece concatenation sits. */
  lemma QuotedAt(a: string, b: string, c: string, d: string, e: string)
    ensures var p := a + b + c + d + e;
      && p[..|a|] == a
      && p[|a|..|a| + |b|] == b
      && p[|a| + |b|..|a| + |b| + |c|] == c
      && p[|a| + |b| + |c|..|a| + |b| + |c| + |d|] == d
      && p[|p| - |e|..] == e
  {
  }

  /** `userText || "Let's start the interview."`: the content of the final user message. */
  function UserContent(userText: Option<string>): (c: string)
    ensures c != ""
    ensures userText.Some? && userText.value != "" ==> c == userText.value
    ensures userText.None? || userText.value == "" ==> c == OpeningUserText
  {
    if userText.Some? && userText.value != "" then userText.value else OpeningUserText
  }

  /** `content || "Could you tell me about your experience?"`: the coach's reply text. */
  function ReplyText(content: Option<string>): (t: string)
    ensures t != ""
    ensures content.Some? && content.value != "" ==> t == content.value
    ensures content.None? || content.value == "" ==> t == FallbackReply
  {
    if content.Some? && content.value != "" then content.value else FallbackReply
  }

  /** The message list: the system prompt, then the client's history as sent, then one user message. */
  function Messages(prompt: string, history: seq<Message>, userText: Option<string>): (m: seq<Message>)
    ensures |m| == |history| + 2
    ensures m[0] == Message("system", prompt)
    ensures m[1..|m| - 1] == history
    ensures m[|m| - 1] == Message("user", UserContent(userText))
  {
    var m := [Message("system", prompt)] + history + [Message("user", UserContent(userText))];
    assert m[1..|m| - 1] == history;
    m
  }

  /**
   * Reads a message list back into its system prompt, its history and its
   * final user text; `None` for a list that does not have that shape.
   */
  function SplitMessages(m: seq<Message>): (r: Option<(string, seq<Message>, string)>)
    ensures r.Some? <==> |m| >= 2 && m[0].role == "system" && m[|m| - 1].role == "user"
  {
    if |m| >= 2 && m[0].role == "system" && m[|m| - 1].role == "user" then
      Some((m[0].content, m[1..|m| - 1], m[|m| - 1].content))
    else
      None
  }

  /** The message list can be taken apart again into exactly what it was built from. */
  lemma MessagesSplit(prompt: string, history: seq<Message>, userText: Option<string>)
    ensures SplitMessages(Messages(prompt, history, userText)) == Some((prompt, history, UserContent(userText)))
  {
    var m := Messages(prompt, history, userText);
    assert m[0].role == "system" && m[|m| - 1].role == "user";
  }

  /** The audio field of a reply: the base64 text behind the `data:audio/wav;base64,` prefix. */
  function AudioDataUrl(base64: string): (url: string)
    ensures AudioUrlPrefix <= url
    ensures |url| == |AudioUrlPrefix| + |base64|
    ensures url[|AudioUrlPrefix|..] == base64
  {
    AudioUrlPrefix + base64
  }

  /** The base64 payload of a `data:audio/wav;base64,` URL, if it has that prefix. */
  function AudioPayload(url: string): (b: Option<string>)
    ensures b.Some? <==> AudioUrlPrefix <= url
  {
    if AudioUrlPrefix <= url then Some(url[|AudioUrlPrefix|..]) else None
  }

  /** Wrapping a payload in a data URL and reading it back are inverse to each other. */
  lemma AudioDataUrlRoundTrip(base64: string, url: string)
    ensures AudioPayload(AudioDataUrl(base64)) == Some(base64)
    ensures AudioPayload(url) == Some(base64) ==> AudioDataUrl(base64) == url
  {
    var u := AudioDataUrl(base64);
    assert u[|AudioUrlPrefix|..] == base64;
    if AudioPayload(url) == Some(base64) {
      assert url == url[..|AudioUrlPrefix|] + url[|AudioUrlPrefix|..];
    }
  }

  /**
   * The message list the handler sends for a request body, or `None` when the
   * history is missing (spreading `undefined` throws, so the handler fails).
   */
  function RequestMessages(body: ChatBody): (m: Option<seq<Message>>)
    ensures m.Some? <==> body.conversationHistory.Some?
    ensures m.Some? ==> |m.value| == |body.conversationHistory.value| + 2
    ensures m.Some? ==>
      m.value == Messages(SystemPrompt(body.resumeText, body.jobDescription),
                          body.conversationHistory.value, body.userText)
  {
    match body.conversationHistory
    case None => None
    case Some(history) =>
      Some(Messages(SystemPrompt(body.resumeText, body.jobDescription), history, body.userText))
  }

  /**
   * The POST handler. `body` is `None` when the request is not JSON;
   * `complete` is the chat-completion call and `synthesize` the speech
   * synthesis, giving the base64 text of the audio or `None` on error.
   * Every failure is caught and becomes the same 500 response.
   */
  function Post(body: Option<ChatBody>, complete: seq<Message> -> Completion,
                synthesize: string -> Option<string>): (r: ChatResponse)
    ensures r.Failure? ==> r == Failure(FailureText, FailureStatus)
    ensures r.Reply? <==>
      && body.Some?
      && RequestMessages(body.value).Some?
      && complete(RequestMessages(body.value).value).Completed?
      && synthesize(ReplyText(complete(RequestMessages(body.value).value).content)).Some?
    ensures r.Reply? ==>
      var reply := ReplyText(complete(RequestMessages(body.value).value).content);
      r.text == reply && AudioPayload(r.audio) == Some(synthesize(reply).value)
  {
    if body.None? then Failure(FailureText, FailureStatus)
    else
      match RequestMessages(body.value)
      case None => Failure(FailureText, FailureStatus)
      case Some(messages) =>
        match complete(messages)
        case CompletionFailed => Failure(FailureText, FailureStatus)
        case Completed(content) =>
          var aiText := ReplyText(content);
          match synthesize(aiText)
          case None => Failure(FailureText, FailureStatus)
          case Some(base64) =>
            AudioDataUrlRoundTrip(base64, AudioDataUrl(base64));
            Reply(aiText, AudioDataUrl(base64))
  }
}
