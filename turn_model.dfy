/**
 * The interview page's turn-taking state as a value, with one function per
 * event handler of the page. The page runs its handlers one at a time on the
 * JavaScript event loop; replies of the token, recognition, chat and
 * feedback calls, the safety timer and the end of playback are events the
 * environment delivers. Each pending call and each armed timer carries an id
 * that only says which of them an event belongs to: no handler compares it
 * with anything, just as the page has no turn id and no stale-result guard.
 */
module TurnModel {
  import opened Wrappers
  import opened ChatRoute
  import opened Conversation

  datatype Status = Idle | Listening | Thinking | Speaking

  /** Which screen the page shows. */
  datatype Screen = Setup | Interview

  /** The scored report the feedback endpoint returns. */
  datatype Report = Report(score: int, feedback: string, improvements: seq<string>)

  /** The body of a request to the chat endpoint. */
  datatype ChatCall = ChatCall(userText: string, resumeText: string, jobDescription: string, history: seq<Message>)

  /** The body of a request to the feedback endpoint. */
  datatype FeedbackCall = FeedbackCall(conversation: seq<Entry>, resumeText: string, jobDescription: string)

  /** What a one-shot recognizer hands to its callback. */
  datatype Recognition = RecognizedSpeech(text: string) | NotRecognized

  const NotProvided := "Not provided"

  /**
   * The page's audio element: absent, or its source, whether it is playing,
   * and the call whose safety timer its `onended` handler clears.
   */
  datatype AudioElement = NoAudio | Audio(src: string, playing: bool, onEnded: Option<nat>)

  /** The calls and timers the page has outstanding, each under the id it was started with. */
  datatype Pending = Pending(
    /** Safety timers armed and neither cleared nor fired. */
    timers: set<nat>,
    /** Chat requests awaiting their reply. */
    chats: map<nat, ChatCall>,
    /** Calls of `startListening` awaiting the speech token. */
    tokenFetches: set<nat>,
    /** Recognizers awaiting their one result. */
    recognitions: set<nat>,
    /** Feedback requests awaiting their reply. */
    feedbacks: map<nat, FeedbackCall>,
    /** The id the next call or timer gets. */
    nextId: nat)

  datatype SessionState = SessionState(
    screen: Screen,
    resumeText: string,
    jobDesc: string,
    status: Status,
    conversation: seq<Entry>,
    report: Option<Report>,
    generatingReport: bool,
    /** The turn lock, `isAIGenerating.current`. */
    locked: bool,
    audio: AudioElement,
    pending: Pending)

  /** The page when it mounts: setup screen, idle, unlocked, an empty transcript, nothing pending. */
  function Initial(resumeText: string, jobDesc: string, audioPresent: bool): (s: SessionState)
    ensures s.screen == Setup && s.status == Idle && !s.locked && s.conversation == [] && s.report.None?
    ensures !s.generatingReport
    ensures s.pending == Pending({}, map[], {}, {}, map[], 0)
    ensures s.audio.Audio? <==> audioPresent
  {
    SessionState(Setup, resumeText, jobDesc, Idle, [], None, false, false,
                 if audioPresent then Audio("", false, None) else NoAudio,
                 Pending({}, map[], {}, {}, map[], 0))
  }

  /** `v || "Not provided"` on the texts sent for the report. */
  function OrNotProvided(v: string): (r: string)
    ensures r != ""
    ensures v != "" ==> r == v
    ensures v == "" ==> r == NotProvided
  {
    if v == "" then NotProvided else v
  }

  /**
   * `handleAIResponse(text, history)` up to its request: a no-op while the
   * lock is held; otherwise it takes the lock, shows `thinking`, arms a safety
   * timer and sends the chat request with the history mapped to messages.
   */
  function RespondTo(s: SessionState, text: string, history: seq<Entry>): (t: SessionState)
    ensures s.locked ==> t.status == s.status
    ensures t.conversation == s.conversation
    ensures !s.locked ==> t.locked && t.status == Thinking
    ensures !s.locked ==>
      var id := s.pending.nextId;
      && id in t.pending.chats && id in t.pending.timers
      && t.pending.chats[id] == ChatCall(text, s.resumeText, s.jobDesc, ToHistory(history))
  {
    if s.locked then s
    else
      var id := s.pending.nextId;
      s.(locked := true, status := Thinking,
         pending := s.pending.(timers := s.pending.timers + {id},
                               chats := s.pending.chats[id := ChatCall(text, s.resumeText, s.jobDesc, ToHistory(history))],
                               nextId := id + 1))
  }

  /** The "Start Interview" button: the interview screen, then a first turn with no user text and no history. */
  function OnStartInterview(s: SessionState): (t: SessionState)
    ensures t.screen == Interview && t.conversation == s.conversation
    ensures !s.locked ==>
      t.status == Thinking && t.locked && s.pending.nextId in t.pending.chats
      && t.pending.chats[s.pending.nextId] == ChatCall("", s.resumeText, s.jobDesc, [])
  {
    RespondTo(s.(screen := Interview), "", [])
  }

  /** `startListening`: nothing unless idle and unlocked; then `listening` while the token is fetched. */
  function OnStartListening(s: SessionState): (t: SessionState)
    ensures s.status != Idle || s.locked ==> t.status == s.status && t.pending == s.pending
    ensures s.status == Idle && !s.locked ==>
      t.status == Listening && !t.locked && t.conversation == s.conversation
      && s.pending.nextId in t.pending.tokenFetches
  {
    if s.status != Idle || s.locked then s
    else
      var id := s.pending.nextId;
      s.(status := Listening,
         pending := s.pending.(tokenFetches := s.pending.tokenFetches + {id}, nextId := id + 1))
  }

  /** The token arrived: the recognizer is created and starts its one recognition. */
  function OnTokenReceived(s: SessionState, id: nat): (t: SessionState)
    requires id in s.pending.tokenFetches
    ensures id !in t.pending.tokenFetches && id in t.pending.recognitions
    ensures t.status == s.status && t.locked == s.locked && t.conversation == s.conversation
  {
    s.(pending := s.pending.(tokenFetches := s.pending.tokenFetches - {id},
                             recognitions := s.pending.recognitions + {id}))
  }

  /** Fetching the token or creating the recognizer threw: back to `idle`, nothing else changes. */
  function OnTokenFailed(s: SessionState, id: nat): (t: SessionState)
    requires id in s.pending.tokenFetches
    ensures t.status == Idle && t.locked == s.locked && t.conversation == s.conversation
    ensures id !in t.pending.tokenFetches
  {
    s.(status := Idle, pending := s.pending.(tokenFetches := s.pending.tokenFetches - {id}))
  }

  /**
   * The recognition callback. Recognized speech appends one `"You"` entry and
   * hands the updated transcript to `handleAIResponse`; any other result
   * returns to `idle` and leaves the transcript alone.
   */
  function OnRecognized(s: SessionState, id: nat, result: Recognition): (t: SessionState)
    requires id in s.pending.recognitions
    ensures result.RecognizedSpeech? ==> t.conversation == s.conversation + [Entry(UserRole, result.text)]
    ensures result.RecognizedSpeech? && !s.locked ==>
      var n := s.pending.nextId;
      t.locked && t.status == Thinking && n in t.pending.chats
      && t.pending.chats[n] == ChatCall(result.text, s.resumeText, s.jobDesc, ToHistory(t.conversation))
    ensures result.RecognizedSpeech? && s.locked ==> t.status == s.status
    ensures result.NotRecognized? ==> t.status == Idle && t.locked == s.locked && t.conversation == s.conversation
  {
    var s1 := s.(pending := s.pending.(recognitions := s.pending.recognitions - {id}));
    match result
    case RecognizedSpeech(text) =>
      var updated := s1.conversation + [Entry(UserRole, text)];
      RespondTo(s1.(conversation := updated), text, updated)
    case NotRecognized => s1.(status := Idle)
  }

  /**
   * A chat reply arrived. It always appends one `"AI Coach"` entry, whether or
   * not its turn still holds the lock. With an audio element the reply plays
   * and the page shows `speaking`; without one the timer is cleared, the lock
   * released and the page is `idle`.
   */
  function OnChatReplied(s: SessionState, id: nat, aiText: string, audio: string): (t: SessionState)
    requires id in s.pending.chats
    ensures t.conversation == s.conversation + [Entry(CoachRole, aiText)]
    ensures id !in t.pending.chats
    ensures s.audio.Audio? ==>
      t.status == Speaking && t.locked == s.locked && t.audio == Audio(audio, true, Some(id))
    ensures s.audio.NoAudio? ==> t.status == Idle && !t.locked && id !in t.pending.timers
  {
    var s1 := s.(conversation := s.conversation + [Entry(CoachRole, aiText)],
                 pending := s.pending.(chats := s.pending.chats - {id}));
    match s.audio
    case Audio(_, _, _) => s1.(status := Speaking, audio := Audio(audio, true, Some(id)))
    case NoAudio =>
      s1.(status := Idle, locked := false, pending := s1.pending.(timers := s1.pending.timers - {id}))
  }

  /** The chat request failed: timer cleared, `idle`, lock released, transcript untouched. */
  function OnChatFailed(s: SessionState, id: nat): (t: SessionState)
    requires id in s.pending.chats
    ensures t.status == Idle && !t.locked && t.conversation == s.conversation
    ensures id !in t.pending.chats && id !in t.pending.timers
  {
    s.(status := Idle, locked := false,
       pending := s.pending.(chats := s.pending.chats - {id}, timers := s.pending.timers - {id}))
  }

  /**
   * A safety timer fired. If the lock is held, whichever turn holds it, the
   * lock is released and the page is `idle`; otherwise only the timer is gone.
   */
  function OnSafetyTimeout(s: SessionState, id: nat): (t: SessionState)
    requires id in s.pending.timers
    ensures s.locked ==> !t.locked && t.status == Idle
    ensures !s.locked ==> !t.locked && t.status == s.status
    ensures t.conversation == s.conversation && t.pending.chats == s.pending.chats
    ensures id !in t.pending.timers
  {
    var s1 := s.(pending := s.pending.(timers := s.pending.timers - {id}));
    if s1.locked then s1.(locked := false, status := Idle) else s1
  }

  /** Playback ended: the `onended` handler clears its timer, shows `idle` and releases the lock. */
  function OnPlaybackEnded(s: SessionState): (t: SessionState)
    requires s.audio.Audio? && s.audio.playing && s.audio.onEnded.Some?
    ensures t.status == Idle && !t.locked && t.conversation == s.conversation
    ensures t.audio.Audio? && !t.audio.playing
    ensures s.audio.onEnded.value !in t.pending.timers
  {
    s.(status := Idle, locked := false, audio := s.audio.(playing := false),
       pending := s.pending.(timers := s.pending.timers - {s.audio.onEnded.value}))
  }

  /**
   * `endInterview`: stops playback, releases the lock and shows `idle` from
   * any state, and asks for the report on the transcript as it stands.
   */
  function OnEndInterview(s: SessionState): (t: SessionState)
    ensures t.status == Idle && !t.locked && t.generatingReport
    ensures t.conversation == s.conversation
    ensures t.pending.timers == s.pending.timers && t.pending.chats == s.pending.chats
    ensures t.pending.recognitions == s.pending.recognitions
    ensures s.audio.Audio? ==> t.audio == s.audio.(src := "", playing := false)
    ensures s.pending.nextId in t.pending.feedbacks
    ensures t.pending.feedbacks[s.pending.nextId]
         == FeedbackCall(s.conversation, OrNotProvided(s.resumeText), OrNotProvided(s.jobDesc))
  {
    var id := s.pending.nextId;
    s.(status := Idle, locked := false, generatingReport := true,
       audio := if s.audio.Audio? then s.audio.(src := "", playing := false) else NoAudio,
       pending := s.pending.(
         feedbacks := s.pending.feedbacks[id := FeedbackCall(s.conversation, OrNotProvided(s.resumeText), OrNotProvided(s.jobDesc))],
         nextId := id + 1))
  }

  /** The report arrived: it is shown and report generation is over. */
  function OnFeedbackReplied(s: SessionState, id: nat, report: Report): (t: SessionState)
    requires id in s.pending.feedbacks
    ensures t.report == Some(report) && !t.generatingReport
    ensures t.status == s.status && t.locked == s.locked && t.conversation == s.conversation
  {
    s.(report := Some(report), generatingReport := false,
       pending := s.pending.(feedbacks := s.pending.feedbacks - {id}))
  }

  /** The report request failed: only report generation ends. */
  function OnFeedbackFailed(s: SessionState, id: nat): (t: SessionState)
    requires id in s.pending.feedbacks
    ensures !t.generatingReport && t.report == s.report
    ensures t.status == s.status && t.locked == s.locked && t.conversation == s.conversation
  {
    s.(generatingReport := false, pending := s.pending.(feedbacks := s.pending.feedbacks - {id}))
  }

  /** Everything that can happen to the page. */
  datatype Event =
    | StartInterview
    | StartListening
    | TokenReceived(id: nat)
    | TokenFailed(id: nat)
    | Recognized(id: nat, result: Recognition)
    | ChatReplied(id: nat, aiText: string, audio: string)
    | ChatFailed(id: nat)
    | SafetyTimeout(id: nat)
    | PlaybackEnded
    | EndInterview
    | FeedbackReplied(id: nat, report: Report)
    | FeedbackFailed(id: nat)

  /** An event can happen when what it answers is pending. */
  predicate Enabled(s: SessionState, e: Event) {
    match e
    case TokenReceived(id) => id in s.pending.tokenFetches
    case TokenFailed(id) => id in s.pending.tokenFetches
    case Recognized(id, _) => id in s.pending.recognitions
    case ChatReplied(id, _, _) => id in s.pending.chats
    case ChatFailed(id) => id in s.pending.chats
    case SafetyTimeout(id) => id in s.pending.timers
    case PlaybackEnded => s.audio.Audio? && s.audio.playing && s.audio.onEnded.Some?
    case FeedbackReplied(id, _) => id in s.pending.feedbacks
    case FeedbackFailed(id) => id in s.pending.feedbacks
    case _ => true
  }

  function Apply(s: SessionState, e: Event): SessionState
    requires Enabled(s, e)
  {
    match e
    case StartInterview => OnStartInterview(s)
    case StartListening => OnStartListening(s)
    case TokenReceived(id) => OnTokenReceived(s, id)
    case TokenFailed(id) => OnTokenFailed(s, id)
    case Recognized(id, result) => OnRecognized(s, id, result)
    case ChatReplied(id, aiText, audio) => OnChatReplied(s, id, aiText, audio)
    case ChatFailed(id) => OnChatFailed(s, id)
    case SafetyTimeout(id) => OnSafetyTimeout(s, id)
    case PlaybackEnded => OnPlaybackEnded(s)
    case EndInterview => OnEndInterview(s)
    case FeedbackReplied(id, report) => OnFeedbackReplied(s, id, report)
    case FeedbackFailed(id) => OnFeedbackFailed(s, id)
  }

  /** The state after a sequence of events, or `None` if one of them could not happen. */
  function Run(s: SessionState, events: seq<Event>): Option<SessionState>
    decreases |events|
  {
    if events == [] then Some(s)
    else if Enabled(s, events[0]) then Run(Apply(s, events[0]), events[1..])
    else None
  }

  /** The entries an event adds to the transcript. */
  function Added(e: Event): seq<Entry> {
    match e
    case Recognized(_, RecognizedSpeech(text)) => [Entry(UserRole, text)]
    case ChatReplied(_, aiText, _) => [Entry(CoachRole, aiText)]
    case _ => []
  }

  /** The entries a sequence of events adds, in order. */
  function AddedBy(events: seq<Event>): seq<Entry> {
    if events == [] then [] else Added(events[0]) + AddedBy(events[1..])
  }

  /**
   * What holds in every state the page reaches: `thinking` only under the
   * lock and `listening` only without it; every held lock has a safety timer
   * armed that can still release it; playback has an `onended` handler; the
   * transcript holds only the two speakers; and every pending request carries
   * a snapshot of the transcript as it stands.
   */
  ghost predicate Valid(s: SessionState) {
    && (s.status == Thinking ==> s.locked)
    && (s.status == Listening ==> !s.locked)
    && (s.locked ==> s.pending.timers != {})
    && (s.audio.Audio? && s.audio.playing ==> s.audio.onEnded.Some?)
    && (forall i :: 0 <= i < |s.conversation| ==> Spoken(s.conversation[i]))
    && (forall id :: id in s.pending.chats ==> s.pending.chats[id].history <= ToHistory(s.conversation))
    && (forall id :: id in s.pending.feedbacks ==> s.pending.feedbacks[id].conversation <= s.conversation)
  }
}
