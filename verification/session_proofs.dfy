/** Properties of the practice session's turn engine: the invariant every
    reachable state keeps, the append-only log and never-decreasing stats, what
    one turn does, and the two places where the handlers as written differ from
    what they evidently mean to do. */
module SessionProofs {
  import opened Common
  import Groq
  import opened PracticeSession

  /** The request in flight belongs to the last log entry, which is the user's
      text, and its history is the log before that entry. */
  predicate Awaiting(s: Session)
    requires s.inFlight.Some?
  {
    && |s.messages| > 0
    && s.messages[|s.messages| - 1].speaker == UserSpeaker
    && s.messages[|s.messages| - 1].content == s.inFlight.value.text
    && s.inFlight.value.history == OutboundHistory(s.messages[..|s.messages| - 1])
  }

  /** What holds in every state the session can reach: the running stats equal
      the stats recomputed from the log, the on-screen flag implies a running
      recognizer, "processing voice" means a spoken turn is in flight, and a
      request in flight answers the last entry. */
  predicate Inv(s: Session) {
    && s.stats == StatsOf(s.messages)
    && (s.isListening ==> s.capturing)
    && (s.isProcessingVoice <==> s.inFlight.Some? && s.inFlight.value.origin == Voice)
    && (s.inFlight.Some? ==> Awaiting(s))
  }

  /** The recognizer never runs while a reply is being spoken. */
  predicate EchoFree(s: Session) {
    !(s.capturing && s.playback.Some?)
  }

  lemma InitInv(startedAt: int)
    ensures Inv(Init(startedAt)) && EchoFree(Init(startedAt))
  {
  }

  /** A turn that is accepted keeps the invariant. */
  lemma ProcessMessageInv(s: Session, origin: Origin, text: string, now: int)
    requires s.stats == StatsOf(s.messages) && (s.isListening ==> s.capturing)
    requires s.isProcessingVoice <==> origin == Voice
    requires text != "" && !s.IsLoading()
    ensures Inv(ProcessMessage(s, origin, text, now))
  {
    var entry := Message(now, UserSpeaker, text, now, None, false);
    var r := ProcessMessage(s, origin, text, now);
    assert r.messages == s.messages + [entry];
    StatsOfUserEntry(s.messages, entry);
    assert r.messages[..|r.messages| - 1] == s.messages;
  }

  lemma SilenceTimerInv(s: Session, now: int)
    requires Inv(s)
    ensures Inv(SilenceTimerFires(s, now))
  {
    if s.silenceTimer.Some? && Trim(s.silenceTimer.value) != [] && s.micEnabled && !s.IsLoading() {
      var u := StopListening(s.(silenceTimer := None).(isProcessingVoice := true));
      ProcessMessageInv(u, Voice, Trim(s.silenceTimer.value), now);
    }
  }

  lemma SendInv(s: Session, now: int)
    requires Inv(s)
    ensures Inv(SendMessage(s, now))
  {
    if Trim(s.inputText) != [] && !s.IsLoading() {
      ProcessMessageInv(s, Keyboard, Trim(s.inputText), now);
    }
  }

  /** A reply keeps the invariant: the stats grow by exactly the new entry's credit. */
  lemma CompleteInv(s: Session, client: Groq.Client, parse: string -> Option<Groq.Feedback>, now: int)
    requires Inv(s)
    ensures Inv(Complete(s, client, parse, now))
  {
    if s.inFlight.Some? {
      var r := Complete(s, client, parse, now);
      var m := Answer(s.inFlight.value, client, parse, now);
      StatsOfAnswer(s.messages, m);
    }
  }

  /** The handlers that add no entry keep the invariant. */
  lemma QuietStepInv(s: Session, e: Event, parse: string -> Option<Groq.Feedback>)
    requires Inv(s) && !e.SilenceTimeout? && !e.Send? && !e.Reply? && !e.PreferencesLoaded?
    ensures Inv(Step(s, e, parse))
  {
    if e.Heard? || e.RecognitionError? || e.RestartTimeout? || e.RecognitionEnd? {
      RecognizerStepInv(s, e, parse);
    } else {
      ControlStepInv(s, e, parse);
    }
  }

  lemma RecognizerStepInv(s: Session, e: Event, parse: string -> Option<Groq.Feedback>)
    requires Inv(s) && (e.Heard? || e.RecognitionError? || e.RestartTimeout? || e.RecognitionEnd?)
    ensures Inv(Step(s, e, parse))
  {
    match e
    case Heard(results, from) => HeardInv(s, results, from, parse);
    case RecognitionError(error) => ErrorInv(s, error, parse);
    case RestartTimeout => RestartInv(s, parse);
    case RecognitionEnd => EndInv(s, parse);
  }

  lemma ErrorInv(s: Session, error: string, parse: string -> Option<Groq.Feedback>)
    requires Inv(s)
    ensures Inv(Step(s, RecognitionError(error), parse))
  {
  }

  lemma EndInv(s: Session, parse: string -> Option<Groq.Feedback>)
    requires Inv(s)
    ensures Inv(Step(s, RecognitionEnd, parse))
  {
  }

  lemma HeardInv(s: Session, results: seq<SpeechResult>, from: nat, parse: string -> Option<Groq.Feedback>)
    requires Inv(s)
    ensures Inv(Step(s, Heard(results, from), parse))
  {
    if s.capturing && FinalTranscript(results, from) != "" {
      var r := OnResult(s, results, from);
      assert r.messages == s.messages && r.stats == s.stats && r.inFlight == s.inFlight;
      assert r.capturing == s.capturing && r.isListening == s.isListening && r.isProcessingVoice == s.isProcessingVoice;
    }
  }

  lemma RestartInv(s: Session, parse: string -> Option<Groq.Feedback>)
    requires Inv(s)
    ensures Inv(Step(s, RestartTimeout, parse))
  {
  }

  lemma ControlStepInv(s: Session, e: Event, parse: string -> Option<Groq.Feedback>)
    requires Inv(s) && (e.MicToggle? || e.VoiceToggle? || e.Edit? || e.SpeakTimeout? || e.SpeechEnd? || e.StartTimeout? || e.End?)
    ensures Inv(Step(s, e, parse))
  {
    match e
    case MicToggle =>
    case VoiceToggle =>
    case Edit(text) =>
    case SpeakTimeout =>
    case SpeechEnd =>
    case StartTimeout =>
    case End(now, demoMode) =>
  }

  lemma StepInv(s: Session, e: Event, parse: string -> Option<Groq.Feedback>)
    requires Inv(s)
    ensures Inv(Step(s, e, parse))
  {
    match e
    case SilenceTimeout(now) => SilenceTimerInv(s, now);
    case Send(now) => if !s.voiceMode { SendInv(s, now); }
    case Reply(client, now) => CompleteInv(s, client, parse, now);
    case PreferencesLoaded(goal, now) =>
      var r := LoadPreferences(s, goal, now);
      if s.messages != [] && s.inFlight.Some? {
        assert r.messages == s.messages;
      }
    case _ => QuietStepInv(s, e, parse);
  }

  lemma StepEchoFree(s: Session, e: Event, parse: string -> Option<Groq.Feedback>)
    requires EchoFree(s)
    ensures EchoFree(Step(s, e, parse))
  {
  }

  /** Every state reached from a state satisfying the invariants by any events
      satisfies them too; in particular from the mounted component. */
  lemma {:induction false} RunInv(s: Session, events: seq<Event>, parse: string -> Option<Groq.Feedback>)
    requires Inv(s) && EchoFree(s)
    ensures Inv(Run(s, events, parse)) && EchoFree(Run(s, events, parse))
    decreases |events|
  {
    if events != [] {
      StepInv(s, events[0], parse);
      StepEchoFree(s, events[0], parse);
      RunInv(Step(s, events[0], parse), events[1..], parse);
    }
  }

  predicate StatsLe(a: Stats, b: Stats) {
    a.messagesCount <= b.messagesCount && a.correctGrammar <= b.correctGrammar && a.improvements <= b.improvements
  }

  /** `r` keeps every entry of `s`, adds at most one, and decreases no counter. */
  predicate Extends(s: Session, r: Session) {
    s.messages <= r.messages && |r.messages| <= |s.messages| + 1 && StatsLe(s.stats, r.stats)
  }

  /** Events other than a turn, a reply and the preference load leave the log alone. */
  lemma QuietStep(s: Session, e: Event, parse: string -> Option<Groq.Feedback>)
    requires !e.SilenceTimeout? && !e.Send? && !e.Reply? && !e.PreferencesLoaded?
    ensures Step(s, e, parse).messages == s.messages && Step(s, e, parse).stats == s.stats
  {
    match e
    case Heard(results, from) =>
    case RecognitionError(error) =>
    case RestartTimeout =>
    case RecognitionEnd =>
    case MicToggle =>
    case VoiceToggle =>
    case Edit(text) =>
    case SpeakTimeout =>
    case SpeechEnd =>
    case StartTimeout =>
    case End(now, demoMode) =>
  }

  lemma ProcessMessageExtends(s: Session, origin: Origin, text: string, now: int)
    ensures Extends(s, ProcessMessage(s, origin, text, now))
  {
  }

  lemma SilenceTimerExtends(s: Session, now: int)
    ensures Extends(s, SilenceTimerFires(s, now))
  {
    if s.silenceTimer.Some? && Trim(s.silenceTimer.value) != [] && s.micEnabled {
      var u := s.(silenceTimer := None);
      if !u.IsLoading() {
        ProcessMessageExtends(StopListening(u.(isProcessingVoice := true)), Voice, Trim(s.silenceTimer.value), now);
      }
    }
  }

  lemma CompleteExtends(s: Session, client: Groq.Client, parse: string -> Option<Groq.Feedback>, now: int)
    ensures Extends(s, Complete(s, client, parse, now))
  {
    if s.inFlight.Some? {
      var m := Answer(s.inFlight.value, client, parse, now);
      var r := Record(s, m);
      assert Complete(s, client, parse, now).messages == r.messages;
      assert Complete(s, client, parse, now).stats == r.stats;
    }
  }

  /** One event never changes or removes an earlier entry, adds at most one,
      and never decreases a counter. */
  lemma StepExtendsLog(s: Session, e: Event, parse: string -> Option<Groq.Feedback>)
    ensures s.messages <= Step(s, e, parse).messages
    ensures |Step(s, e, parse).messages| <= |s.messages| + 1
    ensures StatsLe(s.stats, Step(s, e, parse).stats)
  {
    match e
    case Reply(client, now) => CompleteExtends(s, client, parse, now);
    case SilenceTimeout(now) => SilenceTimerExtends(s, now);
    case Send(now) =>
      if !s.voiceMode && Trim(s.inputText) != [] {
        ProcessMessageExtends(s, Keyboard, Trim(s.inputText), now);
      }
    case PreferencesLoaded(goal, now) =>
    case _ => QuietStep(s, e, parse);
  }

  lemma {:induction false} RunExtendsLog(s: Session, events: seq<Event>, parse: string -> Option<Groq.Feedback>)
    ensures s.messages <= Run(s, events, parse).messages
    ensures StatsLe(s.stats, Run(s, events, parse).stats)
    decreases |events|
  {
    if events != [] {
      var next := Step(s, events[0], parse);
      StepExtendsLog(s, events[0], parse);
      RunExtendsLog(next, events[1..], parse);
    }
  }
  /** The events the program handles with its own (as-written) routines rather than the corrected ones. */
  predicate RewrittenEvent(e: Event) {
    e.MicToggle? || e.VoiceToggle? || e.RestartTimeout? || e.SpeakTimeout? || e.StartTimeout?
  }

  /** On the other events the program as written behaves as `Step`. */
  lemma SharedEvent(s: Session, e: Event, parse: string -> Option<Groq.Feedback>)
    requires !RewrittenEvent(e)
    ensures StepAsWritten(s, e, parse) == Step(s, e, parse)
  {
    match e
    case Heard(results, from) =>
    case SilenceTimeout(now) =>
    case RecognitionError(error) =>
    case RecognitionEnd =>
    case Edit(text) =>
    case Send(now) =>
    case Reply(client, now) =>
    case SpeechEnd =>
    case PreferencesLoaded(goal, now) =>
    case End(now, demoMode) =>
  }

  /** The as-written routines leave the turn alone and never show the flag without capture. */
  lemma RewrittenStepInv(s: Session, e: Event, parse: string -> Option<Groq.Feedback>)
    requires RewrittenEvent(e)
    ensures SameTurn(s, StepAsWritten(s, e, parse))
    ensures Inv(s) ==> Inv(StepAsWritten(s, e, parse))
  {
    match e
    case MicToggle =>
    case VoiceToggle =>
    case RestartTimeout =>
    case SpeakTimeout =>
    case StartTimeout =>
  }

  /** The program as written keeps the invariant on every event. */
  lemma StepAsWrittenInv(s: Session, e: Event, parse: string -> Option<Groq.Feedback>)
    requires Inv(s)
    ensures Inv(StepAsWritten(s, e, parse))
  {
    if RewrittenEvent(e) {
      RewrittenStepInv(s, e, parse);
    } else {
      SharedEvent(s, e, parse);
      StepInv(s, e, parse);
    }
  }

  /** In the program as written, too, one event never changes or removes an
      earlier entry, adds at most one, and never decreases a counter. */
  lemma StepAsWrittenExtendsLog(s: Session, e: Event, parse: string -> Option<Groq.Feedback>)
    ensures s.messages <= StepAsWritten(s, e, parse).messages
    ensures |StepAsWritten(s, e, parse).messages| <= |s.messages| + 1
    ensures StatsLe(s.stats, StepAsWritten(s, e, parse).stats)
  {
    if RewrittenEvent(e) {
      RewrittenStepInv(s, e, parse);
    } else {
      SharedEvent(s, e, parse);
      StepExtendsLog(s, e, parse);
    }
  }

  /** Every state the program as written reaches from an invariant state is invariant. */
  lemma {:induction false} RunAsWrittenInv(s: Session, events: seq<Event>, parse: string -> Option<Groq.Feedback>)
    requires Inv(s)
    ensures Inv(RunAsWritten(s, events, parse))
    decreases |events|
  {
    if events != [] {
      StepAsWrittenInv(s, events[0], parse);
      RunAsWrittenInv(StepAsWritten(s, events[0], parse), events[1..], parse);
    }
  }

  lemma {:induction false} RunAsWrittenExtendsLog(s: Session, events: seq<Event>, parse: string -> Option<Groq.Feedback>)
    ensures s.messages <= RunAsWritten(s, events, parse).messages
    ensures StatsLe(s.stats, RunAsWritten(s, events, parse).stats)
    decreases |events|
  {
    if events != [] {
      var next := StepAsWritten(s, events[0], parse);
      StepAsWrittenExtendsLog(s, events[0], parse);
      RunAsWrittenExtendsLog(next, events[1..], parse);
    }
  }


  /** Sending is refused while a request is in flight and for a blank draft;
      the silence timer then only disarms. */
  lemma TurnsRefused(s: Session, now: int, parse: string -> Option<Groq.Feedback>)
    requires s.IsLoading() || Trim(s.inputText) == []
    ensures Step(s, Send(now), parse) == s
    ensures s.IsLoading() ==> Step(s, SilenceTimeout(now), parse) == s.(silenceTimer := None)
  {
  }

  /** A typed turn followed by its reply appends exactly the user's trimmed
      text and one answer: the parsed reply, queued for playback and tallied,
      or the apology, marked as an error, leaving the stats as they were. */
  lemma TypedTurn(s: Session, client: Groq.Client, parse: string -> Option<Groq.Feedback>, now: int, later: int)
    requires Inv(s) && !s.voiceMode && !s.IsLoading() && Trim(s.inputText) != []
    ensures var text := Trim(s.inputText);
            var s2 := Step(Step(s, Send(now), parse), Reply(client, later), parse);
            var call := Groq.StartPractice(client, text, Some(EffectiveGoal(s.preferences)), OutboundHistory(s.messages));
            var ok := call.result.Success?;
            var p := if ok then Groq.ParseFeedback(call.result.value, parse) else Groq.Parsed(Apology, None);
            && s2.messages == s.messages + [Message(now, UserSpeaker, text, now, None, false),
                                            Message(later + 1, AiSpeaker, p.response, later, p.feedback, !ok)]
            && s2.inputText == "" && !s2.IsLoading()
            && s2.stats == (if ok then Add(s.stats, Tally(p.feedback)) else s.stats)
            && s2.speechQueue == (if ok then s.speechQueue + [p.response] else s.speechQueue)
  {
    var text := Trim(s.inputText);
    var req := Request(Keyboard, text, EffectiveGoal(s.preferences), OutboundHistory(s.messages));
    var s1 := Step(s, Send(now), parse);
    TypedSend(s, now, parse);
    assert s1.stats == s.stats && s1.speechQueue == s.speechQueue;
    var s2 := Step(s1, Reply(client, later), parse);
    TypedReply(s1, client, parse, later);
    var m := Answer(req, client, parse, later);
    AnswerShape(req, client, parse, later);
    var user := Message(now, UserSpeaker, text, now, None, false);
    assert s2.messages == s.messages + [user] + [m];
    assert s.messages + [user] + [m] == s.messages + [user, m];
  }

  /** The answer as a message built from the call's outcome. */
  lemma AnswerShape(req: Request, client: Groq.Client, parse: string -> Option<Groq.Feedback>, now: int)
    ensures var call := Groq.StartPractice(client, req.text, Some(req.goal), req.history);
            var ok := call.result.Success?;
            var p := if ok then Groq.ParseFeedback(call.result.value, parse) else Groq.Parsed(Apology, None);
            Answer(req, client, parse, now) == Message(now + 1, AiSpeaker, p.response, now, p.feedback, !ok)
  {
  }

  lemma TypedSend(s: Session, now: int, parse: string -> Option<Groq.Feedback>)
    requires !s.voiceMode && !s.IsLoading() && Trim(s.inputText) != []
    ensures var s1 := Step(s, Send(now), parse);
            && s1 == ProcessMessage(s, Keyboard, Trim(s.inputText), now)
            && s1.inFlight == Some(Request(Keyboard, Trim(s.inputText), EffectiveGoal(s.preferences), OutboundHistory(s.messages)))
  {
  }

  lemma TypedReply(s1: Session, client: Groq.Client, parse: string -> Option<Groq.Feedback>, later: int)
    requires s1.inFlight.Some? && s1.inFlight.value.origin == Keyboard
    ensures Step(s1, Reply(client, later), parse) == Record(s1, Answer(s1.inFlight.value, client, parse, later))
  {
  }

  /** In a burst of final results only the latest is auto-submitted: the second
      result re-arms the timer with its own transcript, and the timer submits
      that transcript, trimmed, as the user's entry. */
  lemma BurstKeepsLatest(s: Session, first: seq<SpeechResult>, i: nat, second: seq<SpeechResult>, j: nat,
                         now: int, parse: string -> Option<Groq.Feedback>)
    requires s.capturing && s.micEnabled && !s.IsLoading()
    requires FinalTranscript(first, i) != "" && Trim(FinalTranscript(second, j)) != []
    ensures var t := FinalTranscript(second, j);
            var s2 := Step(Step(s, Heard(first, i), parse), Heard(second, j), parse);
            var s3 := Step(s2, SilenceTimeout(now), parse);
            && s2.silenceTimer == Some(t) && s2.inputText == Trim(t)
            && s3.messages == s.messages + [Message(now, UserSpeaker, Trim(t), now, None, false)]
            && s3.inFlight.Some? && s3.inFlight.value.text == Trim(t) && s3.inFlight.value.origin == Voice
  {
    assert FinalTranscript(second, j) != "";
  }

  /** After either switch, with the corrected start routine, the recognizer runs
      exactly when voice mode and the microphone are on and nothing is being
      spoken, and the on-screen flag agrees with it. */
  lemma ToggleAgreement(s: Session)
    requires Inv(s) && EchoFree(s)
    ensures var r := ToggleMicrophone(s);
            (r.capturing <==> r.voiceMode && r.micEnabled && r.playback.None?) && r.isListening == r.capturing
    ensures var r := ToggleVoiceMode(s);
            (r.capturing <==> r.voiceMode && r.micEnabled && r.playback.None?) && r.isListening == r.capturing
  {
  }

  /** As written, switching the microphone (or voice mode) back on leaves the
      recognizer stopped although both switches are on. */
  lemma ToggleOnAsWrittenNeverStarts(s: Session)
    requires !s.capturing && !s.isListening
    ensures !s.micEnabled && s.voiceMode ==>
              var r := ToggleMicrophoneAsWritten(s); r.micEnabled && r.voiceMode && !r.capturing && !r.isListening
    ensures !s.voiceMode && s.micEnabled ==>
              var r := ToggleVoiceModeAsWritten(s); r.micEnabled && r.voiceMode && !r.capturing && !r.isListening
  {
  }

  /** The concrete case: mount, microphone off, microphone on. As written the
      session ends up with both switches on and nothing captured; with the
      corrected switch capture is running again. */
  lemma MicOffOnCounterexample(startedAt: int)
    ensures var w := ToggleMicrophoneAsWritten(ToggleMicrophoneAsWritten(Init(startedAt)));
            w.voiceMode && w.micEnabled && !w.capturing && !w.isListening
    ensures var c := ToggleMicrophone(ToggleMicrophone(Init(startedAt)));
            c.voiceMode && c.micEnabled && c.capturing && c.isListening
  {
  }

  /** As written, a spoken turn's reply is heard by the recognizer: the reply's
      playback timer (100 ms) fires while capture is already stopped, so the
      utterance does not stop capture nor ask for it to resume; the 1000 ms
      restart armed by the auto-submit then starts capture while the reply is
      still being spoken. With the corrected routines the restart waits for the
      end of playback and capture resumes after it. */
  lemma SpokenReplyEcho(s: Session, t: string, raw: string, parse: string -> Option<Groq.Feedback>, now: int)
    requires s.voiceMode && s.micEnabled && s.capturing && s.isListening
    requires s.silenceTimer == Some(t) && Trim(t) != [] && !s.IsLoading()
    requires s.playback.None? && s.speechQueue == []
    ensures var client: Groq.Client := Some((m: seq<Groq.ChatMessage>) => Some(raw));
            var s2 := Complete(SilenceTimerFires(s, now), client, parse, now + 1);
            var w := StartTimerFiresAsWritten(SpeakTimerFiresAsWritten(s2));
            w.capturing && w.playback.Some? && !EchoFree(w)
    ensures var client: Groq.Client := Some((m: seq<Groq.ChatMessage>) => Some(raw));
            var s2 := Complete(SilenceTimerFires(s, now), client, parse, now + 1);
            var c := StartTimerFires(SpeakTimerFires(s2));
            var after := StartTimerFires(SpeechEnded(c));
            !c.capturing && c.playback.Some? && EchoFree(c) && after.capturing && after.playback.None?
  {
    var client: Groq.Client := Some((m: seq<Groq.ChatMessage>) => Some(raw));
    var s1 := SilenceTimerFires(s, now);
    assert s1.inFlight.Some? && s1.inFlight.value.origin == Voice && !s1.capturing;
    var s2 := Complete(s1, client, parse, now + 1);
    assert s2.speechQueue != [] && s2.pendingStarts == s.pendingStarts + 1;
    assert !s2.isListening && !s2.capturing && s2.playback.None?;
  }

  /** Nothing marks a session as ended: after the end-session handler a typed
      turn is still accepted and sent. */
  lemma TurnsAfterEnd(s: Session, now: int, demoMode: bool, later: int, parse: string -> Option<Groq.Feedback>)
    requires !s.voiceMode && !s.IsLoading() && Trim(s.inputText) != []
    ensures var ended := StepAsWritten(s, End(now, demoMode), parse);
            var r := StepAsWritten(ended, Send(later), parse);
            r.IsLoading() && r.messages == s.messages + [Message(later, UserSpeaker, Trim(s.inputText), later, None, false)]
  {
    var ended := StepAsWritten(s, End(now, demoMode), parse);
    SharedEvent(s, End(now, demoMode), parse);
    SharedEvent(ended, Send(later), parse);
    TypedSend(ended, later, parse);
  }
}
