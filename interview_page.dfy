/**
 * The interview page as the object its handlers update in place: the React
 * state it keeps (screen, status, transcript, report), the turn-lock ref,
 * the audio element's source, playback and `onended` handler, and the
 * calls and timers it has outstanding. Each handler is a method whose new
 * state is the matching function of `TurnModel` applied to the old state.
 */
module InterviewPage {
  import opened Wrappers
  import opened ChatRoute
  import opened Conversation
  import opened TurnModel

  class Session {
    var screen: Screen
    var resumeText: string
    var jobDesc: string
    var status: Status
    var conversation: seq<Entry>
    var report: Option<Report>
    var generatingReport: bool
    /** `isAIGenerating.current`, the turn lock. */
    var locked: bool
    var audio: AudioElement
    var pending: Pending

    /** The page's state as a value. */
    function View(): SessionState
      reads this
    {
      SessionState(screen, resumeText, jobDesc, status, conversation, report, generatingReport, locked, audio, pending)
    }

    /** The page mounts with the resume and job description entered on the setup screen. */
    constructor (resumeText: string, jobDesc: string, audioPresent: bool)
      ensures View() == Initial(resumeText, jobDesc, audioPresent)
    {
      screen, this.resumeText, this.jobDesc := Setup, resumeText, jobDesc;
      status, conversation, report, generatingReport := Idle, [], None, false;
      locked := false;
      audio := if audioPresent then Audio("", false, None) else NoAudio;
      pending := Pending({}, map[], {}, {}, map[], 0);
    }

    /** `handleAIResponse(text, history)` up to the chat request it sends. */
    method HandleAIResponse(text: string, history: seq<Entry>)
      modifies this
      ensures View() == RespondTo(old(View()), text, history)
    {
      if locked {
        return;
      }
      locked := true;
      status := Thinking;
      var id := pending.nextId;
      pending := pending.(timers := pending.timers + {id},
                          chats := pending.chats[id := ChatCall(text, resumeText, jobDesc, ToHistory(history))],
                          nextId := id + 1);
    }

    /** The "Start Interview" button. */
    method StartInterview()
      modifies this
      ensures View() == OnStartInterview(old(View()))
    {
      screen := Interview;
      HandleAIResponse("", []);
    }

    /** `startListening`, up to the token request. */
    method StartListening()
      modifies this
      ensures View() == OnStartListening(old(View()))
    {
      if status != Idle || locked {
        return;
      }
      status := Listening;
      pending := pending.(tokenFetches := pending.tokenFetches + {pending.nextId}, nextId := pending.nextId + 1);
    }

    /** The token arrived and the recognizer starts. */
    method TokenReceived(id: nat)
      requires id in pending.tokenFetches
      modifies this
      ensures View() == OnTokenReceived(old(View()), id)
    {
      pending := pending.(tokenFetches := pending.tokenFetches - {id}, recognitions := pending.recognitions + {id});
    }

    /** The catch block of `startListening`. */
    method TokenFailed(id: nat)
      requires id in pending.tokenFetches
      modifies this
      ensures View() == OnTokenFailed(old(View()), id)
    {
      status := Idle;
      pending := pending.(tokenFetches := pending.tokenFetches - {id});
    }

    /** The recognizer's callback. */
    method Recognized(id: nat, result: Recognition)
      requires id in pending.recognitions
      modifies this
      ensures View() == OnRecognized(old(View()), id, result)
    {
      pending := pending.(recognitions := pending.recognitions - {id});
      match result
      case RecognizedSpeech(text) =>
        var updated := conversation + [Entry(UserRole, text)];
        conversation := updated;
        HandleAIResponse(text, updated);
      case NotRecognized =>
        status := Idle;
    }

    /** The chat request of call `id` answered with the coach's text and audio. */
    method ChatReplied(id: nat, aiText: string, audioUrl: string)
      requires id in pending.chats
      modifies this
      ensures View() == OnChatReplied(old(View()), id, aiText, audioUrl)
    {
      conversation := conversation + [Entry(CoachRole, aiText)];
      pending := pending.(chats := pending.chats - {id});
      if audio.Audio? {
        audio := Audio(audioUrl, true, Some(id));
        status := Speaking;
      } else {
        pending := pending.(timers := pending.timers - {id});
        status := Idle;
        locked := false;
      }
    }

    /** The catch block of `handleAIResponse`. */
    method ChatFailed(id: nat)
      requires id in pending.chats
      modifies this
      ensures View() == OnChatFailed(old(View()), id)
    {
      pending := pending.(chats := pending.chats - {id}, timers := pending.timers - {id});
      status := Idle;
      locked := false;
    }

    /** The safety timer armed by call `id` fires. */
    method SafetyTimeout(id: nat)
      requires id in pending.timers
      modifies this
      ensures View() == OnSafetyTimeout(old(View()), id)
    {
      pending := pending.(timers := pending.timers - {id});
      if locked {
        locked := false;
        status := Idle;
      }
    }

    /** The audio element's `onended` handler. */
    method PlaybackEnded()
      requires audio.Audio? && audio.playing && audio.onEnded.Some?
      modifies this
      ensures View() == OnPlaybackEnded(old(View()))
    {
      pending := pending.(timers := pending.timers - {audio.onEnded.value});
      status := Idle;
      locked := false;
      audio := audio.(playing := false);
    }

    /** `endInterview`, up to the feedback request. */
    method EndInterview()
      modifies this
      ensures View() == OnEndInterview(old(View()))
    {
      if audio.Audio? {
        audio := audio.(src := "", playing := false);
      }
      locked := false;
      status := Idle;
      generatingReport := true;
      var id := pending.nextId;
      pending := pending.(
        feedbacks := pending.feedbacks[id := FeedbackCall(conversation, OrNotProvided(resumeText), OrNotProvided(jobDesc))],
        nextId := id + 1);
    }

    /** The feedback request of call `id` answered with a report. */
    method FeedbackReplied(id: nat, r: Report)
      requires id in pending.feedbacks
      modifies this
      ensures View() == OnFeedbackReplied(old(View()), id, r)
    {
      pending := pending.(feedbacks := pending.feedbacks - {id});
      report := Some(r);
      generatingReport := false;
    }

    /** The feedback request of call `id` failed. */
    method FeedbackFailed(id: nat)
      requires id in pending.feedbacks
      modifies this
      ensures View() == OnFeedbackFailed(old(View()), id)
    {
      pending := pending.(feedbacks := pending.feedbacks - {id});
      generatingReport := false;
    }
  }

  /**
   * Two complete turns: the opening question plays to its end, the answer is
   * recognized, the follow-up plays to its end. The transcript holds the three
   * lines in order and nothing is left locked or armed.
   */
  method TwoTurns() returns (entries: seq<Entry>, status: Status, locked: bool, armed: set<nat>)
    ensures entries == [Entry(CoachRole, "Tell me about yourself."),
                        Entry(UserRole, "I built a payments system."),
                        Entry(CoachRole, "How did it scale?")]
    ensures status == Idle && !locked && armed == {}
  {
    var page := new Session("Go backend", "Senior Go Engineer", true);
    page.StartInterview();
    page.ChatReplied(0, "Tell me about yourself.", AudioDataUrl("UklGRg=="));
    page.PlaybackEnded();
    page.StartListening();
    page.TokenReceived(1);
    page.Recognized(1, RecognizedSpeech("I built a payments system."));
    assert page.pending.chats[2].history == ToHistory(page.conversation);
    page.ChatReplied(2, "How did it scale?", AudioDataUrl("UklGRg=="));
    page.PlaybackEnded();
    entries, status, locked, armed := page.conversation, page.status, page.locked, page.pending.timers;
  }

  /**
   * A chat reply that arrives after its safety timer fired is still appended
   * and still plays, so the page shows `speaking` while the lock is free.
   */
  method LateReplyAfterTimeout() returns (entries: seq<Entry>, status: Status, locked: bool)
    ensures entries == [Entry(CoachRole, "Tell me about yourself.")]
    ensures status == Speaking && !locked
  {
    var page := new Session("Go backend", "Senior Go Engineer", true);
    page.StartInterview();
    page.SafetyTimeout(0);
    page.ChatReplied(0, "Tell me about yourself.", AudioDataUrl("UklGRg=="));
    entries, status, locked := page.conversation, page.status, page.locked;
  }

  /**
   * Ending the interview does not clear the pending turn's safety timer. When
   * a new turn has taken the lock, that old timer releases it, and two chat
   * requests are in flight at once.
   */
  method StaleTimerReleasesNextTurn() returns (status: Status, locked: bool, pending: set<nat>)
    ensures status == Idle && !locked
    ensures pending == {0, 3}
  {
    var page := new Session("Go backend", "Senior Go Engineer", true);
    page.StartInterview();
    page.EndInterview();
    page.StartListening();
    page.TokenReceived(2);
    page.Recognized(2, RecognizedSpeech("I built a payments system."));
    page.SafetyTimeout(0);
    status, locked, pending := page.status, page.locked, page.pending.chats.Keys;
  }
}
