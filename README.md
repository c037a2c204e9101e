# Interview coach: turn-taking, prompt assembly and resume flattening

This project models the core of a voice interview coach built with Next.js.
The page (`src/app/page.tsx`) runs an interview. It asks the chat endpoint
for the coach's next question and plays the synthesized answer. It listens
for the candidate's reply through a one-shot speech recognizer. At the end
it asks the feedback endpoint for a scored report. A turn lock
(`isAIGenerating`) is meant to keep two turns from overlapping, and a
12-second safety timer armed by each turn releases it. Neither the timer
nor `endInterview`, which also releases the lock, cancels a chat request
already sent. So a reply from an abandoned turn can still arrive during a
later turn, and a stale timer can release a later turn's lock (see below).

The model has one module per part of the program:

- `TurnModel` (`turn_model.dfy`) holds the page's state as a value,
  `SessionState`, with one function per event handler. The outstanding
  calls and timers are kept in `Pending`. Each carries the id it was
  started with; the id only says which call or timer an event answers.
- `InterviewPage` (`interview_page.dfy`) is the page itself: a class
  `Session` whose fields the handlers update in place. Every method is
  proved to leave the state that the matching `TurnModel` function gives.
  Three scenario methods drive the class through whole interviews.
- `TurnProperties` (`turn_properties.dfy`) proves what holds over any
  sequence of events:
  - an invariant (`TurnModel.Valid`): `thinking` only under the lock,
    `listening` only without it, every held lock has a safety timer that
    can release it, and every pending request carries a prefix of the
    transcript;
  - the transcript is append-only;
  - the no-op cases of `startListening`, `handleAIResponse` and the
    safety timer.
- `Conversation` (`conversation.dfy`) holds the transcript entries and the
  role mapping that turns them into chat history.
- `ChatRoute` (`chat_route.dfy`) holds the pure parts of the chat
  endpoint:
  - the system prompt, which quotes at most 2000 characters each of the
    resume and the job description;
  - the message list: system prompt, then history, then user;
  - the default user text and the default reply text;
  - the `data:` URL (RFC 2397) that carries the speech;
  - the single 500 failure.
- `ParseResume` (`parse_resume.dfy`) holds the pure parts of the resume
  endpoint:
  - the fallback from `Pages` to `formImage.Pages`;
  - per-run percent-decoding (section 2.1 of RFC 3986) with a fallback to
    the raw text;
  - the two-level join, a space between runs and a blank line between
    pages;
  - the 400 and 500 responses.
- `FeedbackRoute` (`feedback_route.dfy`) holds the feedback endpoint's
  refusal of a missing or empty conversation.

External calls are parameters or events:

- the chat completion, the speech synthesis, the PDF parser and
  `decodeURIComponent` are function-typed parameters;
- token, recognition, chat and feedback replies, timer expiry and the end
  of playback are events the environment delivers.

Three behaviours of the code that a reader might not expect, and that the model keeps:

- The page has no turn id and no stale-result guard. A chat reply that
  arrives after its safety timer fired is still appended and still plays
  (`InterviewPage.LateReplyAfterTimeout`). `endInterview` does not clear a
  pending safety timer, and that old timer can release the lock of a later
  turn (`InterviewPage.StaleTimerReleasesNextTurn`).
- The resume endpoint's two rejection reasons ("No text found in PDF",
  "Extraction failed") are only logged. The client always receives
  "Failed to parse PDF" with status 500.
- A `Pages` list that is present but empty is truthy in JavaScript. So it
  does not fall back to `formImage.Pages`, and it yields the empty text.

## Model

| member | source | states |
|---|---|---|
| ChatRoute.OrEmpty | src/app/api/chat/route.ts:15-16 | a missing context field reads as the empty string, a present one as itself |
| ChatRoute.ContextExcerpt | src/app/api/chat/route.ts:15-16 | the quoted excerpt is at most 2000 characters and a prefix of the field; the whole field when it fits; exactly 2000 characters when the field is longer |
| ChatRoute.SystemPrompt | src/app/api/chat/route.ts:12-24 | the prompt is as long as its fixed text plus the two excerpts, so never longer than the fixed text plus 4000 characters |
| ChatRoute.SystemPromptQuotesResume | src/app/api/chat/route.ts:12-15 | the prompt opens with the recruiter persona, followed at once by the resume excerpt |
| ChatRoute.SystemPromptQuotesJob | src/app/api/chat/route.ts:16 | the fixed middle text sits right after the resume excerpt, and the job-description excerpt right after it |
| ChatRoute.SystemPromptEndsWithRules | src/app/api/chat/route.ts:17-24 | the prompt ends with the five interview rules |
| ChatRoute.UserContent | src/app/api/chat/route.ts:31 | the final user message is the user's text when non-empty, otherwise "Let's start the interview."; never empty |
| ChatRoute.ReplyText | src/app/api/chat/route.ts:35-37 | the reply is the model's content when non-empty, otherwise "Could you tell me about your experience?"; never empty |
| ChatRoute.Messages | src/app/api/chat/route.ts:28-32 | the system message first, then the history unchanged and in order, then one user message; length is history length + 2 |
| ChatRoute.SplitMessages | src/app/api/chat/route.ts:28-32 | a list splits into prompt, history and user text exactly when it starts with a system message and ends with a user message |
| ChatRoute.MessagesSplit | src/app/api/chat/route.ts:28-32 | splitting a built message list gives back the prompt, the history and the user content it was built from |
| ChatRoute.AudioDataUrl | src/app/api/chat/route.ts:64 | the audio field starts with "data:audio/wav;base64," followed by the encoded audio |
| ChatRoute.AudioPayload | src/app/api/chat/route.ts:64 | a payload is read back exactly when the URL carries the data-URL prefix |
| ChatRoute.AudioDataUrlRoundTrip | src/app/api/chat/route.ts:62-65 | wrapping audio in a data URL and reading it back are inverse to each other, in both directions |
| ChatRoute.RequestMessages | src/app/api/chat/route.ts:26-33 | a message list is sent exactly when the body carries a history; it is the system prompt built from the body's resume and job description, then that history, then the body's user text, two longer than the history |
| ChatRoute.Post | src/app/api/chat/route.ts:7-69 | a reply exactly when the body parses, has a history, the completion succeeds and synthesis succeeds; its text is the reply text and its audio wraps the synthesized speech; every failure is ("Chat failed", 500) |
| Conversation.ToMessage | src/app/page.tsx:115-118 | role "You" maps to "user" and every other role to "assistant"; content is the entry's text |
| Conversation.ToHistory | src/app/page.tsx:115-118 | the history has the transcript's length and maps each entry at its own position |
| Conversation.FromMessage | src/app/page.tsx:115-118 | a chat message reads back as an entry of one of the two speakers with the same text |
| Conversation.ToHistoryAppend | src/app/page.tsx:164-166 | the history of a longer transcript is the old history followed by the history of the new entries |
| Conversation.ToHistoryPrefix | src/app/page.tsx:164-166 | a prefix of the transcript maps to a prefix of its history |
| Conversation.HistoryRoundTrip | src/app/page.tsx:115-118 | a transcript the page wrote reads back from its history into exactly the same entries |
| FeedbackRoute.CheckConversation | src/app/api/feedback/route.ts:12-17 | a 400 "No conversation to analyze" exactly when the conversation is missing or empty |
| ParseResume.SelectPages | src/app/api/parse-resume/route.ts:23 | `Pages` when present, even empty; otherwise `formImage.Pages`; none exactly when both are missing |
| ParseResume.RunText | src/app/api/parse-resume/route.ts:29-34 | an item's text is the decoding of its first run when decoding succeeds and the raw run when it fails; reading fails exactly when the item has no run |
| ParseResume.MapAll | src/app/api/parse-resume/route.ts:26-37 | mapping succeeds exactly when every element maps; the results then keep the length and the order |
| ParseResume.Join | src/app/api/parse-resume/route.ts:35-37 | `.join(" ")` and `.join("\n\n")`: no parts give the empty text and the text starts with the first part; `JoinLength`, `JoinPartAt` and `JoinSeparatorAt` place every part and every separator |
| ParseResume.JoinLength | src/app/api/parse-resume/route.ts:35-37 | the joined text is the parts plus one separator between each pair, so n parts give n-1 separators |
| ParseResume.JoinPartAt | src/app/api/parse-resume/route.ts:35-37 | every part appears unchanged, in order, at its offset in the joined text |
| ParseResume.OffsetStep | src/app/api/parse-resume/route.ts:35-37 | each part moves the next offset on by its own length and one separator |
| ParseResume.JoinSeparatorAt | src/app/api/parse-resume/route.ts:35-37 | exactly one separator lies between each two consecutive parts |
| ParseResume.PageText | src/app/api/parse-resume/route.ts:28-35 | a page has text exactly when it has a `Texts` list and every item in it reads |
| ParseResume.Extract | src/app/api/parse-resume/route.ts:20-43 | "No text found in PDF" when no page list exists; "Extraction failed" when a page does not read; otherwise the page texts joined by a blank line |
| ParseResume.ExtractText | src/app/api/parse-resume/route.ts:26-39 | each page's text is its runs' texts joined by one space, and the result is the page texts joined by a blank line, in order |
| ParseResume.EmptyPagesGiveEmptyText | src/app/api/parse-resume/route.ts:23-37 | a present but empty page list yields the empty text, with no fallback |
| ParseResume.Post | src/app/api/parse-resume/route.ts:4-53 | 400 "No file provided" exactly when the field is missing or an empty string; text exactly when the file parses and extracts; every other failure, a non-empty text field included, is 500 "Failed to parse PDF" |
| TurnModel.Initial | src/app/page.tsx:21-43 | the page mounts on the setup screen, idle, unlocked, with an empty transcript, no report, no report being generated and nothing pending |
| TurnModel.OrNotProvided | src/app/page.tsx:84-85 | an empty resume or job description is sent for the report as "Not provided" |
| TurnModel.RespondTo | src/app/page.tsx:95-119 | no effect while the lock is held; otherwise it takes the lock, shows `thinking`, arms a safety timer and sends the chat request with the history mapped to messages |
| TurnModel.OnStartInterview | src/app/page.tsx:206-210 | switches to the interview screen and, unless locked, sends the opening request with the empty user text, the resume and job description, and an empty history |
| TurnModel.OnStartListening | src/app/page.tsx:145-150 | no effect unless idle and unlocked; otherwise `listening`, lock untouched, and the token is requested |
| TurnModel.OnTokenReceived | src/app/page.tsx:150-160 | the token request is answered and one recognition starts; status, lock and transcript unchanged |
| TurnModel.OnTokenFailed | src/app/page.tsx:173-175 | back to `idle`; lock and transcript unchanged |
| TurnModel.OnRecognized | src/app/page.tsx:160-172 | speech appends exactly one "You" entry and starts a turn whose history is the updated transcript; any other result shows `idle` and leaves the transcript alone |
| TurnModel.OnChatReplied | src/app/page.tsx:120-137 | appends exactly one "AI Coach" entry, with no guard; with an audio element it plays the reply and shows `speaking`; without one it clears the timer, releases the lock and shows `idle` |
| TurnModel.OnChatFailed | src/app/page.tsx:138-142 | clears the timer, releases the lock, shows `idle`, transcript untouched |
| TurnModel.OnSafetyTimeout | src/app/page.tsx:102-108 | if the lock is held, releases it and shows `idle`; otherwise only the timer is gone; transcript and requests unchanged |
| TurnModel.OnPlaybackEnded | src/app/page.tsx:128-132 | clears the turn's timer, shows `idle` and releases the lock |
| TurnModel.OnEndInterview | src/app/page.tsx:65-86 | from any state: playback stops, the lock is released, `idle`, report generation starts, and the current transcript is sent for feedback; armed safety timers, pending chat requests and pending recognitions stay as they were |
| TurnModel.OnFeedbackReplied | src/app/page.tsx:87-92 | the report is shown and generation ends; status, lock and transcript unchanged |
| TurnModel.OnFeedbackFailed | src/app/page.tsx:88-92 | only report generation ends |
| TurnProperties.SnapshotsSurviveAppend | src/app/page.tsx:164-165 | appending to the transcript keeps every pending request's snapshot a prefix of it |
| TurnProperties.RespondToValid | src/app/page.tsx:95-119 | starting a turn on a prefix of the transcript keeps the invariant |
| TurnProperties.StartInterviewValid | src/app/page.tsx:206-210 | "Start Interview" keeps the invariant |
| TurnProperties.StartListeningValid | src/app/page.tsx:145-150 | `startListening` keeps the invariant |
| TurnProperties.TokenReceivedValid | src/app/page.tsx:150-160 | starting recognition keeps the invariant |
| TurnProperties.TokenFailedValid | src/app/page.tsx:173-175 | the token failure path keeps the invariant |
| TurnProperties.RecognizedValid | src/app/page.tsx:160-172 | the recognition callback keeps the invariant |
| TurnProperties.ChatRepliedValid | src/app/page.tsx:120-137 | a chat reply keeps the invariant |
| TurnProperties.ChatFailedValid | src/app/page.tsx:138-142 | the chat error path keeps the invariant |
| TurnProperties.SafetyTimeoutValid | src/app/page.tsx:102-108 | the safety timer keeps the invariant |
| TurnProperties.PlaybackEndedValid | src/app/page.tsx:128-132 | the `onended` handler keeps the invariant |
| TurnProperties.EndInterviewValid | src/app/page.tsx:65-86 | `endInterview` keeps the invariant |
| TurnProperties.FeedbackRepliedValid | src/app/page.tsx:87-92 | a report reply keeps the invariant |
| TurnProperties.FeedbackFailedValid | src/app/page.tsx:88-92 | a failed report keeps the invariant |
| TurnProperties.StepValid | src/app/page.tsx:95-175 | every handler keeps the invariant |
| TurnProperties.StepAdds | src/app/page.tsx:160-168 | each event appends exactly its own entries and never removes or edits one |
| TurnProperties.RunValid | src/app/page.tsx:95-175 | the invariant holds after any sequence of events |
| TurnProperties.RunAdds | src/app/page.tsx:120-168 | after any sequence of events the transcript is the old one followed by the entries the events added, in order |
| TurnProperties.ReachableValid | src/app/page.tsx:21-43 | every state reachable from mounting satisfies the invariant, and its transcript is exactly what the events added |
| TurnProperties.LockReleasable | src/app/page.tsx:102-108 | a held lock is never stuck: some armed safety timer releases it and shows `idle` |
| TurnProperties.RespondToWhileLocked | src/app/page.tsx:96 | `handleAIResponse` under a held lock changes nothing |
| TurnProperties.StartListeningRefused | src/app/page.tsx:146 | `startListening` changes nothing unless idle and unlocked |
| TurnProperties.SafetyTimeoutWhileUnlocked | src/app/page.tsx:103-107 | a timer firing while the lock is free only retires itself |
| TurnProperties.StartListeningTwice | src/app/page.tsx:146-147 | a second `startListening` right after the first changes nothing |
| TurnProperties.RespondToTwice | src/app/page.tsx:96-99 | a second `handleAIResponse` while the first holds the lock changes nothing |
| InterviewPage.Session.constructor | src/app/page.tsx:21-43 | the page mounts in the state `TurnModel.Initial` describes |
| InterviewPage.Session.HandleAIResponse | src/app/page.tsx:95-119 | updates the page's fields to the state `TurnModel.RespondTo` gives |
| InterviewPage.Session.StartInterview | src/app/page.tsx:206-210 | updates the page to `TurnModel.OnStartInterview` |
| InterviewPage.Session.StartListening | src/app/page.tsx:145-150 | updates the page to `TurnModel.OnStartListening` |
| InterviewPage.Session.TokenReceived | src/app/page.tsx:150-160 | updates the page to `TurnModel.OnTokenReceived` |
| InterviewPage.Session.TokenFailed | src/app/page.tsx:173-175 | updates the page to `TurnModel.OnTokenFailed` |
| InterviewPage.Session.Recognized | src/app/page.tsx:160-172 | updates the page to `TurnModel.OnRecognized` |
| InterviewPage.Session.ChatReplied | src/app/page.tsx:120-137 | updates the page to `TurnModel.OnChatReplied` |
| InterviewPage.Session.ChatFailed | src/app/page.tsx:138-142 | updates the page to `TurnModel.OnChatFailed` |
| InterviewPage.Session.SafetyTimeout | src/app/page.tsx:102-108 | updates the page to `TurnModel.OnSafetyTimeout` |
| InterviewPage.Session.PlaybackEnded | src/app/page.tsx:128-132 | updates the page to `TurnModel.OnPlaybackEnded` |
| InterviewPage.Session.EndInterview | src/app/page.tsx:65-86 | updates the page to `TurnModel.OnEndInterview` |
| InterviewPage.Session.FeedbackReplied | src/app/page.tsx:87-92 | updates the page to `TurnModel.OnFeedbackReplied` |
| InterviewPage.Session.FeedbackFailed | src/app/page.tsx:88-92 | updates the page to `TurnModel.OnFeedbackFailed` |
| InterviewPage.TwoTurns | src/app/page.tsx:95-172 | two full turns leave the three lines in spoken order, the page idle, unlocked and with no armed timer |
| InterviewPage.LateReplyAfterTimeout | src/app/page.tsx:102-127 | a reply arriving after its timer fired is still appended and shows `speaking` with the lock free |
| InterviewPage.StaleTimerReleasesNextTurn | src/app/page.tsx:65-108 | the timer of a turn abandoned by `endInterview` releases a later turn's lock while two chat requests are in flight |

## Left out

- The OpenAI chat and feedback calls, Azure speech recognition and synthesis, axios, and the token endpoint (`src/app/api/token/route.ts`) are foreign network calls. Their results are parameters or events.
- `src/app/api/transcribe/route.ts` is not part of this model. It is stream plumbing around the speech SDK.
- The feedback endpoint's model call and its `JSON.parse` of the model's output are not modelled. Nothing can be stated about the report's contents; only the empty-conversation check is modelled.
- Real time is left out. The 12-second `setTimeout` is a timer that an event fires at any point; no durations are modelled.
- Closing the recognizer is not modelled, and here the model over-approximates. `endInterview` closes the live recognizer so that its callback does not fire, but `TurnModel.OnEndInterview` keeps the pending recognition. A recognition pending at `endInterview` can therefore still be delivered in the model, appending a "You" entry and starting a turn.
- `audio.play()` and its possible rejection are left out. Pausing is modelled only as clearing the element's playing flag, which stops a later `onended`; the element is otherwise reduced to its source, that flag and its `onended` target.
- The JSX rendering, the `disabled` state of buttons, `alert`, `window.location.reload` and the resume upload handler are not modelled. Handlers may fire in any state, which covers every order the buttons allow. The resume text and job description are inputs of the constructor.
- React state batching, updater functions run twice under StrictMode, and stale closures are left out. Each handler reads and writes the current state at once. In particular the chat request carries the resume and job description current at the call.
- Strings are sequences of Unicode characters. JavaScript's `slice(0, 2000)` counts UTF-16 code units, so for text outside the Basic Multilingual Plane the excerpt length differs.
- `decodeURIComponent`, base64 encoding and pdf2json parsing are abstract function parameters, not their real algorithms.
- A multipart field is missing, a text field or a file; a form that cannot be read is one case. JSON bodies are records of optional fields. Wrong field types (a history that is not an array, `T` that is not a string) are not modelled beyond "missing".
- The methods of `InterviewPage.Session` are proved against the `TurnModel` functions but do not carry `TurnModel.Valid` in their contracts. The invariant is proved on the value model (`TurnProperties.RunValid`, `TurnProperties.ReachableValid`), which the methods follow step for step.
