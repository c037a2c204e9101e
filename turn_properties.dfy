/**
 * What holds of the interview page over any sequence of events: the
 * invariant of `TurnModel.Valid`, the append-only transcript, a held lock
 * that a safety timer can always release, and the no-op second attempts.
 */
module TurnProperties {
  import opened Wrappers
  import opened Conversation
  import opened TurnModel

  /** A prefix of a prefix is a prefix. */
  lemma PrefixTransitive<T>(a: seq<T>, b: seq<T>, c: seq<T>)
    requires a <= b && b <= c
    ensures a <= c
  {
    assert c[..|b|][..|a|] == c[..|a|];
  }

  /** Appending to the transcript keeps every pending snapshot a prefix of it. */
  lemma SnapshotsSurviveAppend(s: SessionState, t: SessionState, added: seq<Entry>)
    requires Valid(s)
    requires t.conversation == s.conversation + added
    requires t.pending.chats.Keys <= s.pending.chats.Keys
    requires forall id :: id in t.pending.chats ==> t.pending.chats[id] == s.pending.chats[id]
    requires t.pending.feedbacks == s.pending.feedbacks
    ensures forall id :: id in t.pending.chats ==> t.pending.chats[id].history <= ToHistory(t.conversation)
    ensures forall id :: id in t.pending.feedbacks ==> t.pending.feedbacks[id].conversation <= t.conversation
  {
    ToHistoryPrefix(s.conversation, t.conversation);
    forall id | id in t.pending.chats ensures t.pending.chats[id].history <= ToHistory(t.conversation) {
      PrefixTransitive(t.pending.chats[id].history, ToHistory(s.conversation), ToHistory(t.conversation));
    }
    forall id | id in t.pending.feedbacks ensures t.pending.feedbacks[id].conversation <= t.conversation {
      PrefixTransitive(t.pending.feedbacks[id].conversation, s.conversation, t.conversation);
    }
  }

  /** `handleAIResponse` on a transcript prefix keeps the invariant. */
  lemma RespondToValid(s: SessionState, text: string, history: seq<Entry>)
    requires Valid(s)
    requires history <= s.conversation
    ensures Valid(RespondTo(s, text, history))
  {
    ToHistoryPrefix(history, s.conversation);
  }

  lemma StartInterviewValid(s: SessionState)
    requires Valid(s)
    ensures Valid(OnStartInterview(s))
  {
    RespondToValid(s.(screen := Interview), "", []);
  }

  lemma StartListeningValid(s: SessionState)
    requires Valid(s)
    ensures Valid(OnStartListening(s))
  {
  }

  lemma TokenReceivedValid(s: SessionState, id: nat)
    requires Valid(s) && id in s.pending.tokenFetches
    ensures Valid(OnTokenReceived(s, id))
  {
  }

  lemma TokenFailedValid(s: SessionState, id: nat)
    requires Valid(s) && id in s.pending.tokenFetches
    ensures Valid(OnTokenFailed(s, id))
  {
  }

  lemma RecognizedValid(s: SessionState, id: nat, result: Recognition)
    requires Valid(s) && id in s.pending.recognitions
    ensures Valid(OnRecognized(s, id, result))
  {
    if result.RecognizedSpeech? {
      var text := result.text;
      var s1 := s.(pending := s.pending.(recognitions := s.pending.recognitions - {id}));
      var updated := s.conversation + [Entry(UserRole, text)];
      SnapshotsSurviveAppend(s, s1.(conversation := updated), [Entry(UserRole, text)]);
      RespondToValid(s1.(conversation := updated), text, updated);
    }
  }

  lemma ChatRepliedValid(s: SessionState, id: nat, aiText: string, audio: string)
    requires Valid(s) && id in s.pending.chats
    ensures Valid(OnChatReplied(s, id, aiText, audio))
  {
    SnapshotsSurviveAppend(s, OnChatReplied(s, id, aiText, audio), [Entry(CoachRole, aiText)]);
  }

  lemma ChatFailedValid(s: SessionState, id: nat)
    requires Valid(s) && id in s.pending.chats
    ensures Valid(OnChatFailed(s, id))
  {
  }

  lemma SafetyTimeoutValid(s: SessionState, id: nat)
    requires Valid(s) && id in s.pending.timers
    ensures Valid(OnSafetyTimeout(s, id))
  {
  }

  lemma PlaybackEndedValid(s: SessionState)
    requires Valid(s) && s.audio.Audio? && s.audio.playing && s.audio.onEnded.Some?
    ensures Valid(OnPlaybackEnded(s))
  {
  }

  lemma EndInterviewValid(s: SessionState)
    requires Valid(s)
    ensures Valid(OnEndInterview(s))
  {
  }

  lemma FeedbackRepliedValid(s: SessionState, id: nat, report: Report)
    requires Valid(s) && id in s.pending.feedbacks
    ensures Valid(OnFeedbackReplied(s, id, report))
  {
  }

  lemma FeedbackFailedValid(s: SessionState, id: nat)
    requires Valid(s) && id in s.pending.feedbacks
    ensures Valid(OnFeedbackFailed(s, id))
  {
  }

  /** Every handler keeps the invariant. */
  lemma StepValid(s: SessionState, e: Event)
    requires Valid(s) && Enabled(s, e)
    ensures Valid(Apply(s, e))
  {
    match e
    case StartInterview => StartInterviewValid(s);
    case StartListening => StartListeningValid(s);
    case TokenReceived(id) => TokenReceivedValid(s, id);
    case TokenFailed(id) => TokenFailedValid(s, id);
    case Recognized(id, result) => RecognizedValid(s, id, result);
    case ChatReplied(id, aiText, audio) => ChatRepliedValid(s, id, aiText, audio);
    case ChatFailed(id) => ChatFailedValid(s, id);
    case SafetyTimeout(id) => SafetyTimeoutValid(s, id);
    case PlaybackEnded => PlaybackEndedValid(s);
    case EndInterview => EndInterviewValid(s);
    case FeedbackReplied(id, report) => FeedbackRepliedValid(s, id, report);
    case FeedbackFailed(id) => FeedbackFailedValid(s, id);
  }

  /** Each event appends exactly the entries `Added` says, and never removes or edits one. */
  lemma StepAdds(s: SessionState, e: Event)
    requires Enabled(s, e)
    ensures Apply(s, e).conversation == s.conversation + Added(e)
  {
  }

  /** The invariant holds after any sequence of events from a state where it holds. */
  lemma {:induction false} RunValid(s: SessionState, events: seq<Event>, t: SessionState)
    requires Valid(s)
    requires Run(s, events) == Some(t)
    ensures Valid(t)
    decreases |events|
  {
    if events != [] {
      StepValid(s, events[0]);
      RunValid(Apply(s, events[0]), events[1..], t);
    }
  }

  /**
   * The transcript is append-only: after any sequence of events it is the
   * old transcript followed by the entries the events added, in order.
   */
  lemma {:induction false} RunAdds(s: SessionState, events: seq<Event>, t: SessionState)
    requires Run(s, events) == Some(t)
    ensures t.conversation == s.conversation + AddedBy(events)
    ensures s.conversation <= t.conversation
    decreases |events|
  {
    if events != [] {
      StepAdds(s, events[0]);
      RunAdds(Apply(s, events[0]), events[1..], t);
      assert AddedBy(events) == Added(events[0]) + AddedBy(events[1..]);
    }
  }

  /** Every state the page reaches from mounting satisfies the invariant. */
  lemma ReachableValid(resumeText: string, jobDesc: string, audioPresent: bool, events: seq<Event>, t: SessionState)
    requires Run(Initial(resumeText, jobDesc, audioPresent), events) == Some(t)
    ensures Valid(t)
    ensures t.conversation == AddedBy(events)
  {
    RunValid(Initial(resumeText, jobDesc, audioPresent), events, t);
    RunAdds(Initial(resumeText, jobDesc, audioPresent), events, t);
  }

  /** A held lock is never stuck: some armed safety timer, when it fires, releases it and shows `idle`. */
  lemma LockReleasable(s: SessionState) returns (id: nat)
    requires Valid(s) && s.locked
    ensures id in s.pending.timers
    ensures !OnSafetyTimeout(s, id).locked && OnSafetyTimeout(s, id).status == Idle
  {
    id :| id in s.pending.timers;
  }

  /** `handleAIResponse` while the lock is held returns at once and changes nothing. */
  lemma RespondToWhileLocked(s: SessionState, text: string, history: seq<Entry>)
    requires s.locked
    ensures RespondTo(s, text, history) == s
  {
  }

  /** `startListening` changes nothing unless the page is idle and unlocked. */
  lemma StartListeningRefused(s: SessionState)
    requires s.status != Idle || s.locked
    ensures OnStartListening(s) == s
  {
  }

  /** A safety timer that fires while the lock is free only retires itself. */
  lemma SafetyTimeoutWhileUnlocked(s: SessionState, id: nat)
    requires id in s.pending.timers && !s.locked
    ensures OnSafetyTimeout(s, id) == s.(pending := s.pending.(timers := s.pending.timers - {id}))
  {
  }

  /** A second `startListening` right after the first changes nothing: there is never a second capture. */
  lemma StartListeningTwice(s: SessionState)
    ensures OnStartListening(OnStartListening(s)) == OnStartListening(s)
  {
  }

  /** A second `handleAIResponse` while a turn holds the lock is a no-op, whatever its text. */
  lemma RespondToTwice(s: SessionState, text: string, history: seq<Entry>, text2: string, history2: seq<Entry>)
    ensures RespondTo(RespondTo(s, text, history), text2, history2) == RespondTo(s, text, history)
  {
  }
}
