/** The practice session's turn engine. One record holds the component's state
    (voice and microphone switches, whether the recognizer runs, the draft, the
    armed timers, the reply being spoken, the request in flight, the log and the
    running stats), and every handler is a transition on it. Timers firing, the
    chat reply arriving, the recognizer's callbacks and the end of speech
    playback are events; each handler runs atomically and reads the state as it
    is when it runs. */
module PracticeSession {
  import opened Common
  import Groq

  datatype Speaker = UserSpeaker | AiSpeaker

  /** A conversation entry. The user's entries carry no feedback; the AI's carry
      the parsed feedback, and the apology after a failed request is marked as an error. */
  datatype Message = Message(id: int, speaker: Speaker, content: string, timestamp: int,
                             feedback: Option<Groq.Feedback>, isError: bool)

  datatype Stats = Stats(messagesCount: nat, correctGrammar: nat, improvements: nat)

  const NoStats: Stats := Stats(0, 0, 0)

  function Add(a: Stats, b: Stats): Stats {
    Stats(a.messagesCount + b.messagesCount, a.correctGrammar + b.correctGrammar, a.improvements + b.improvements)
  }

  /** Where a turn's text came from: the silence timer after speech, or the send button. */
  datatype Origin = Voice | Keyboard

  /** The chat request a turn has in flight: the text, the learning goal sent
      with it and the history of the log before the turn. */
  datatype Request = Request(origin: Origin, text: string, goal: string, history: seq<Groq.ChatMessage>)

  /** The reply being spoken, and whether capture resumes when it ends. */
  datatype Utterance = Utterance(text: string, resumeAfter: bool)

  /** One entry of a recognition result list: its best transcript and whether it is final. */
  datatype SpeechResult = SpeechResult(transcript: string, isFinal: bool)

  /** The component's state. `isListening` is the flag the screen shows;
      `capturing` is whether the recognizer actually runs (a restart after a
      silent spell runs it without raising the flag). `silenceTimer` is the
      armed auto-submit timer with the transcript it will submit;
      `pendingStarts` counts armed timers that will call the start routine,
      `pendingRestarts` armed restarts after a "no-speech" error, and
      `speechQueue` the replies whose playback timer is armed. `preferences`
      is the stored learning goal once the user document is loaded. */
  datatype Session = Session(
    voiceMode: bool, micEnabled: bool, isListening: bool, capturing: bool,
    inputText: string, isProcessingVoice: bool,
    silenceTimer: Option<string>, pendingStarts: nat, pendingRestarts: nat,
    speechQueue: seq<string>, playback: Option<Utterance>,
    inFlight: Option<Request>, preferences: Option<string>,
    messages: seq<Message>, stats: Stats, startedAt: int)
  {
    /** `isLoading`: a request is in flight. */
    predicate IsLoading() {
      inFlight.Some?
    }
  }

  /** `r` leaves the turn alone: the same log, stats and request in flight,
      and the same "processing voice" flag. */
  predicate SameTurn(s: Session, r: Session) {
    r.messages == s.messages && r.stats == s.stats && r.inFlight == s.inFlight && r.isProcessingVoice == s.isProcessingVoice
  }

  /** The component on mount, in a browser with speech recognition: voice mode
      and microphone on, so capture starts at once. */
  function Init(startedAt: int): (s: Session)
    ensures s.voiceMode && s.micEnabled && s.isListening && s.capturing
    ensures !s.IsLoading() && s.messages == [] && s.stats == NoStats && s.startedAt == startedAt
  {
    Session(true, true, true, true, "", false, None, 0, 0, [], None, None, None, [], NoStats, startedAt)
  }

  // ---------------------------------------------------------------------------
  // Capture

  /** `stopContinuousListening`: the recognizer stops, the flag drops and the
      silence timer is cancelled. */
  function StopListening(s: Session): (r: Session)
    ensures !r.capturing && !r.isListening && r.silenceTimer.None?
    ensures r == s.(capturing := false, isListening := false, silenceTimer := None)
  {
    s.(capturing := false, isListening := false, silenceTimer := None)
  }

  /** `startContinuousListening` as written: starts when voice mode and the
      microphone are on in `view`, the state the calling handler was created in. */
  function StartListeningAsWritten(view: Session, s: Session): (r: Session)
    ensures view.voiceMode && view.micEnabled ==> r == s.(isListening := true, capturing := true)
    ensures !(view.voiceMode && view.micEnabled) ==> r == s
  {
    if view.voiceMode && view.micEnabled then s.(isListening := true, capturing := true) else s
  }

  /** The start routine the session uses: refused unless voice mode and the
      microphone are on; while a reply is being spoken it only asks for capture
      to resume when playback ends. */
  function StartListening(s: Session): (r: Session)
    ensures !(s.voiceMode && s.micEnabled) ==> r == s
    ensures r.capturing <==> s.capturing || (s.voiceMode && s.micEnabled && s.playback.None?)
    ensures s.voiceMode && s.micEnabled && s.playback.None? ==> r.isListening
    ensures s.playback.Some? ==> r.capturing == s.capturing && r.isListening == s.isListening
    ensures s.voiceMode && s.micEnabled && s.playback.Some? ==> r.playback == Some(s.playback.value.(resumeAfter := true))
    ensures SameTurn(s, r)
  {
    if !(s.voiceMode && s.micEnabled) then s
    else if s.playback.Some? then s.(playback := Some(s.playback.value.(resumeAfter := true)))
    else s.(isListening := true, capturing := true)
  }

  /** `toggleMicrophone` as written: the start call reads the switches from
      before the toggle, so switching the microphone on never starts capture. */
  function ToggleMicrophoneAsWritten(s: Session): (r: Session)
    ensures r.micEnabled == !s.micEnabled
    ensures !(r.micEnabled && r.voiceMode) ==> !r.capturing && !r.isListening
    ensures r.micEnabled && r.voiceMode ==> r.capturing == s.capturing && r.isListening == s.isListening
    ensures SameTurn(s, r)
  {
    var t := s.(micEnabled := !s.micEnabled);
    if t.micEnabled && t.voiceMode then StartListeningAsWritten(s, t) else StopListening(t)
  }

  /** `toggleVoiceMode` as written, with the same stale read. */
  function ToggleVoiceModeAsWritten(s: Session): (r: Session)
    ensures r.voiceMode == !s.voiceMode
    ensures !(r.voiceMode && r.micEnabled) ==> !r.capturing && !r.isListening
    ensures r.voiceMode && r.micEnabled ==> r.capturing == s.capturing && r.isListening == s.isListening
    ensures SameTurn(s, r)
  {
    var t := s.(voiceMode := !s.voiceMode);
    if t.voiceMode && t.micEnabled then StartListeningAsWritten(s, t) else StopListening(t)
  }

  /** The microphone switch, starting capture with the switch's new position. */
  function ToggleMicrophone(s: Session): (r: Session)
    ensures r.micEnabled == !s.micEnabled && r.voiceMode == s.voiceMode
    ensures SameTurn(s, r)
  {
    var t := s.(micEnabled := !s.micEnabled);
    if t.micEnabled && t.voiceMode then StartListening(t) else StopListening(t)
  }

  /** The voice/text switch, starting capture with the switch's new position. */
  function ToggleVoiceMode(s: Session): (r: Session)
    ensures r.voiceMode == !s.voiceMode && r.micEnabled == s.micEnabled
    ensures SameTurn(s, r)
  {
    var t := s.(voiceMode := !s.voiceMode);
    if t.voiceMode && t.micEnabled then StartListening(t) else StopListening(t)
  }

  // ---------------------------------------------------------------------------
  // Speech input

  /** The final transcripts of `results[lo..hi]`, concatenated in order. */
  function FinalsBetween(results: seq<SpeechResult>, lo: nat, hi: nat): string
    requires lo <= hi <= |results|
    decreases hi - lo
  {
    if hi == lo then ""
    else FinalsBetween(results, lo, hi - 1) + (if results[hi - 1].isFinal then results[hi - 1].transcript else "")
  }

  /** The final transcript `onresult` assembles from `resultIndex` on. */
  function FinalTranscript(results: seq<SpeechResult>, from: nat): string {
    if from <= |results| then FinalsBetween(results, from, |results|) else ""
  }

  /** The assembled transcript is empty exactly when every final result from
      `lo` on has an empty transcript. */
  lemma {:induction false} FinalsEmpty(results: seq<SpeechResult>, lo: nat, hi: nat)
    requires lo <= hi <= |results|
    ensures FinalsBetween(results, lo, hi) == "" <==>
            forall i :: lo <= i < hi && results[i].isFinal ==> results[i].transcript == ""
    decreases hi - lo
  {
    if hi > lo {
      FinalsEmpty(results, lo, hi - 1);
    }
  }

  /** The loop of `onresult`, which appends each final transcript in turn. */
  method CollectFinal(results: seq<SpeechResult>, from: nat) returns (t: string)
    ensures t == FinalTranscript(results, from)
    ensures t == "" <==> forall i :: from <= i < |results| && results[i].isFinal ==> results[i].transcript == ""
  {
    t := "";
    if from > |results| {
      return;
    }
    var i := from;
    while i < |results|
      invariant from <= i <= |results|
      invariant t == FinalsBetween(results, from, i)
    {
      if results[i].isFinal {
        t := t + results[i].transcript;
      }
      i := i + 1;
    }
    FinalsEmpty(results, from, |results|);
  }

  /** `onresult`: a non-empty final transcript becomes the (trimmed) draft and
      replaces any armed silence timer by one that will submit it. */
  function OnResult(s: Session, results: seq<SpeechResult>, from: nat): (r: Session)
    ensures FinalTranscript(results, from) == "" ==> r == s
    ensures FinalTranscript(results, from) != "" ==>
              r.inputText == Trim(FinalTranscript(results, from)) && r.silenceTimer == Some(FinalTranscript(results, from))
    ensures r.(inputText := s.inputText, silenceTimer := s.silenceTimer) == s
  {
    var t := FinalTranscript(results, from);
    if t == "" then s else s.(inputText := Trim(t), silenceTimer := Some(t))
  }

  /** The silence timer firing: submits its transcript, trimmed, when that is
      non-empty and the microphone is on. */
  function SilenceTimerFires(s: Session, now: int): (r: Session)
    ensures s.silenceTimer.None? ==> r == s
    ensures r.silenceTimer.None?
    ensures s.silenceTimer.Some? && (Trim(s.silenceTimer.value) == [] || !s.micEnabled) ==> r == s.(silenceTimer := None)
  {
    match s.silenceTimer
    case None => s
    case Some(t) =>
      var u := s.(silenceTimer := None);
      if Trim(t) != [] && s.micEnabled then AutoSubmit(u, Trim(t), now) else u
  }

  // ---------------------------------------------------------------------------
  // Turns

  /** The learning goal sent with a request: the stored one, or "fluency" when it is missing or empty. */
  function EffectiveGoal(preferences: Option<string>): (g: string)
    ensures g != ""
    ensures preferences.Some? && preferences.value != "" ==> g == preferences.value
    ensures preferences.None? || preferences.value == "" ==> g == Groq.DefaultGoal
  {
    if preferences.Some? && preferences.value != "" then preferences.value else Groq.DefaultGoal
  }

  /** The history sent with a request: one chat message per log entry, in order,
      with role "user" for the user's entries and "assistant" for all others. */
  function OutboundHistory(log: seq<Message>): (h: seq<Groq.ChatMessage>)
    ensures |h| == |log|
    ensures forall i :: 0 <= i < |log| ==> h[i].content == log[i].content
    ensures forall i :: 0 <= i < |log| ==> (h[i].role == Groq.User <==> log[i].speaker == UserSpeaker)
    ensures forall i :: 0 <= i < |log| ==> h[i].role in {Groq.User, Groq.Assistant}
  {
    seq(|log|, i requires 0 <= i < |log| =>
      Groq.ChatMessage(if log[i].speaker == UserSpeaker then Groq.User else Groq.Assistant, log[i].content))
  }

  /** `processMessage` up to the request: refused for empty text or while a
      request is in flight; otherwise the user's entry is appended and the
      request is sent with the log as it was before that entry. */
  function ProcessMessage(s: Session, origin: Origin, text: string, now: int): (r: Session)
    ensures text == "" || s.IsLoading() ==> r == s
    ensures text != "" && !s.IsLoading() ==>
              && r.messages == s.messages + [Message(now, UserSpeaker, text, now, None, false)]
              && r.inFlight == Some(Request(origin, text, EffectiveGoal(s.preferences), OutboundHistory(s.messages)))
              && r == s.(messages := r.messages, inFlight := r.inFlight)
  {
    if text == "" || s.IsLoading() then s
    else
      var entry := Message(now, UserSpeaker, text, now, None, false);
      s.(messages := s.messages + [entry],
         inFlight := Some(Request(origin, text, EffectiveGoal(s.preferences), OutboundHistory(s.messages))))
  }

  /** `handleAutoSubmit` up to the request: refused for empty text or while a
      request is in flight; otherwise capture stops and the turn starts. */
  function AutoSubmit(s: Session, text: string, now: int): (r: Session)
    ensures text == "" || s.IsLoading() ==> r == s
    ensures text != "" && !s.IsLoading() ==>
              && r.isProcessingVoice && !r.capturing && !r.isListening && r.silenceTimer.None?
              && r.inFlight.Some? && r.inFlight.value.origin == Voice && r.inFlight.value.text == text
  {
    if text == "" || s.IsLoading() then s
    else ProcessMessage(StopListening(s.(isProcessingVoice := true)), Voice, text, now)
  }

  /** `handleSendMessage` up to the request: the trimmed draft is the turn's text. */
  function SendMessage(s: Session, now: int): (r: Session)
    ensures Trim(s.inputText) == [] || s.IsLoading() ==> r == s
    ensures Trim(s.inputText) != [] && !s.IsLoading() ==>
              r.inFlight.Some? && r.inFlight.value.origin == Keyboard && r.inFlight.value.text == Trim(s.inputText)
  {
    var text := Trim(s.inputText);
    if text == [] || s.IsLoading() then s else ProcessMessage(s, Keyboard, text, now)
  }

  const Apology: string := "I'm having trouble connecting right now. Could you try saying that again?"

  /** What one reply adds to the stats: one message; one correct-grammar mark
      when the feedback's grammar fix is "None"; one improvement unless the
      feedback's better phrase is "None", so a reply without feedback counts. */
  function Tally(feedback: Option<Groq.Feedback>): (t: Stats)
    ensures t.messagesCount == 1
    ensures t.correctGrammar == 1 <==> feedback.Some? && feedback.value.grammarFix == Some("None")
    ensures t.correctGrammar <= 1
    ensures t.improvements == 0 <==> feedback.Some? && feedback.value.betterPhrase == Some("None")
    ensures t.improvements <= 1
  {
    Stats(1,
          if feedback.Some? && feedback.value.grammarFix == Some("None") then 1 else 0,
          if feedback.Some? && feedback.value.betterPhrase == Some("None") then 0 else 1)
  }

  /** What a log entry adds to the stats given the entry before it: a reply
      (not an apology) that answers a user's entry is tallied. */
  function Credit(previous: Message, m: Message): Stats {
    if previous.speaker == UserSpeaker && m.speaker == AiSpeaker && !m.isError then Tally(m.feedback) else NoStats
  }

  /** The stats recomputed from a log: the sum of the credits of its entries. */
  function StatsOf(log: seq<Message>): Stats
    decreases |log|
  {
    if |log| < 2 then NoStats else Add(StatsOf(log[..|log| - 1]), Credit(log[|log| - 2], log[|log| - 1]))
  }

  lemma StatsOfAppend(log: seq<Message>, m: Message)
    ensures StatsOf(log + [m]) == if log == [] then NoStats else Add(StatsOf(log), Credit(log[|log| - 1], m))
  {
    var l := log + [m];
    if log != [] {
      assert l[..|l| - 1] == log;
    }
  }

  /** A user's entry adds nothing to the stats. */
  lemma StatsOfUserEntry(log: seq<Message>, m: Message)
    requires m.speaker == UserSpeaker
    ensures StatsOf(log + [m]) == StatsOf(log)
  {
    StatsOfAppend(log, m);
    if log != [] {
      NoCreditForUser(log[|log| - 1], m);
      AddNothing(StatsOf(log));
    }
  }

  lemma NoCreditForUser(previous: Message, m: Message)
    requires m.speaker == UserSpeaker
    ensures Credit(previous, m) == NoStats
  {
  }

  lemma AddNothing(a: Stats)
    ensures Add(a, NoStats) == a
  {
  }

  /** An answer to a user's entry adds its tally, or nothing when it is an apology. */
  lemma StatsOfAnswer(log: seq<Message>, m: Message)
    requires log != [] && log[|log| - 1].speaker == UserSpeaker && m.speaker == AiSpeaker
    ensures StatsOf(log + [m]) == if m.isError then StatsOf(log) else Add(StatsOf(log), Tally(m.feedback))
  {
    StatsOfAppend(log, m);
    if m.isError {
      AddNothing(StatsOf(log));
    }
  }

  /** The AI's entry for the reply to `req`: the reply with its feedback cut
      out and parsed, or the apology, marked as an error, when the request fails. */
  function Answer(req: Request, client: Groq.Client, parse: string -> Option<Groq.Feedback>, now: int): (m: Message)
    ensures m.speaker == AiSpeaker && m.id == now + 1 && m.timestamp == now
    ensures var call := Groq.StartPractice(client, req.text, Some(req.goal), req.history);
            && (m.isError <==> call.result.Failure?)
            && (call.result.Success? ==>
                  var p := Groq.ParseFeedback(call.result.value, parse);
                  m.content == p.response && m.feedback == p.feedback)
            && (call.result.Failure? ==> m.content == Apology && m.feedback.None?)
  {
    var call := Groq.StartPractice(client, req.text, Some(req.goal), req.history);
    match call.result
    case Success(raw) =>
      var p := Groq.ParseFeedback(raw, parse);
      Message(now + 1, AiSpeaker, p.response, now, p.feedback, false)
    case Failure(_) =>
      Message(now + 1, AiSpeaker, Apology, now, None, true)
  }

  /** The session once the answer `m` to the request in flight is in. */
  function Record(s: Session, m: Message): (r: Session)
    ensures r.messages == s.messages + [m]
    ensures r.stats == (if m.isError then s.stats else Add(s.stats, Tally(m.feedback)))
    ensures r.speechQueue == (if m.isError then s.speechQueue else s.speechQueue + [m.content])
    ensures !r.IsLoading() && r.inputText == ""
    ensures r.capturing == s.capturing && r.isListening == s.isListening && r.playback == s.playback
    ensures r.isProcessingVoice == s.isProcessingVoice && r.pendingStarts == s.pendingStarts && r.voiceMode == s.voiceMode
  {
    s.(messages := s.messages + [m],
       speechQueue := if m.isError then s.speechQueue else s.speechQueue + [m.content],
       stats := if m.isError then s.stats else Add(s.stats, Tally(m.feedback)),
       inFlight := None, inputText := "")
  }

  /** The reply to the request in flight arrives (the rest of `processMessage`,
      then of `handleAutoSubmit` or `handleSendMessage`). The answer is
      appended; a successful one is also queued for playback, whatever the
      mode, and tallied, while an apology leaves the stats as they were. Either
      way the request is over and the draft is cleared; a spoken turn also
      clears "processing voice" and, in voice mode, arms the restart of capture. */
  function Complete(s: Session, client: Groq.Client, parse: string -> Option<Groq.Feedback>, now: int): (r: Session)
    ensures s.inFlight.None? ==> r == s
    ensures s.inFlight.Some? ==>
              var m := Answer(s.inFlight.value, client, parse, now);
              && r.messages == s.messages + [m]
              && !r.IsLoading() && r.inputText == ""
              && r.stats == (if m.isError then s.stats else Add(s.stats, Tally(m.feedback)))
              && r.speechQueue == (if m.isError then s.speechQueue else s.speechQueue + [m.content])
              && r.capturing == s.capturing && r.isListening == s.isListening && r.playback == s.playback
    ensures s.inFlight.Some? && s.inFlight.value.origin == Voice ==>
              !r.isProcessingVoice && r.pendingStarts == (if s.voiceMode then s.pendingStarts + 1 else s.pendingStarts)
    ensures s.inFlight.Some? && s.inFlight.value.origin == Keyboard ==>
              r.isProcessingVoice == s.isProcessingVoice && r.pendingStarts == s.pendingStarts
  {
    if s.inFlight.None? then s
    else
      var req := s.inFlight.value;
      EndTurn(Record(s, Answer(req, client, parse, now)), req.origin)
  }

  /** The end of the turn's handler: a spoken turn clears "processing voice"
      and, in voice mode, arms the restart of capture. */
  function EndTurn(s: Session, origin: Origin): (r: Session)
    ensures origin == Voice ==> !r.isProcessingVoice && r.pendingStarts == (if s.voiceMode then s.pendingStarts + 1 else s.pendingStarts)
    ensures origin == Keyboard ==> r == s
    ensures r.messages == s.messages && r.stats == s.stats && r.speechQueue == s.speechQueue && r.inFlight == s.inFlight && r.inputText == s.inputText
    ensures r.capturing == s.capturing && r.isListening == s.isListening && r.playback == s.playback
  {
    if origin == Voice then
      s.(isProcessingVoice := false, pendingStarts := if s.voiceMode then s.pendingStarts + 1 else s.pendingStarts)
    else s
  }

  // ---------------------------------------------------------------------------
  // Playback

  /** `speakText` as written: capture stops first only if the on-screen flag
      is up, and capture resumes after playback only in that case. */
  function SpeakTextAsWritten(s: Session, text: string): (r: Session)
    ensures r.playback == Some(Utterance(text, s.isListening))
    ensures r.capturing == (s.capturing && !s.isListening) && !r.isListening
    ensures SameTurn(s, r)
  {
    var t := if s.isListening then StopListening(s) else s;
    t.(playback := Some(Utterance(text, s.isListening)))
  }

  /** The playback routine the session uses: capture stops whenever the
      recognizer runs, and capture resumes afterwards if it ran or if an
      earlier start was deferred until playback ended. */
  function SpeakText(s: Session, text: string): (r: Session)
    ensures !r.capturing
    ensures s.capturing ==> !r.isListening && r.silenceTimer.None?
    ensures !s.capturing ==> r.isListening == s.isListening
    ensures r.playback.Some? && r.playback.value.text == text
    ensures r.playback.value.resumeAfter <==> s.capturing || (s.playback.Some? && s.playback.value.resumeAfter)
    ensures SameTurn(s, r)
  {
    var t := if s.capturing then StopListening(s) else s;
    t.(playback := Some(Utterance(text, s.capturing || (s.playback.Some? && s.playback.value.resumeAfter))))
  }

  /** The 100 ms playback timer of the oldest queued reply fires. */
  function SpeakTimerFires(s: Session): (r: Session)
    ensures s.speechQueue == [] ==> r == s
    ensures s.speechQueue != [] ==> r.speechQueue == s.speechQueue[1..] && r.playback.Some? && r.playback.value.text == s.speechQueue[0]
    ensures SameTurn(s, r)
  {
    if s.speechQueue == [] then s else SpeakText(s.(speechQueue := s.speechQueue[1..]), s.speechQueue[0])
  }

  function SpeakTimerFiresAsWritten(s: Session): (r: Session)
    ensures s.speechQueue == [] ==> r == s
    ensures s.speechQueue != [] ==> r.playback == Some(Utterance(s.speechQueue[0], s.isListening))
    ensures s.speechQueue != [] ==> r.speechQueue == s.speechQueue[1..] && r.capturing == (s.capturing && !s.isListening) && !r.isListening
    ensures SameTurn(s, r)
  {
    if s.speechQueue == [] then s else SpeakTextAsWritten(s.(speechQueue := s.speechQueue[1..]), s.speechQueue[0])
  }

  /** The utterance's end: arms the 500 ms restart of capture if it asked for
      one and voice mode and the microphone are still on. */
  function SpeechEnded(s: Session): (r: Session)
    ensures r.playback.None?
    ensures r.pendingStarts == (if s.playback.Some? && s.playback.value.resumeAfter && s.voiceMode && s.micEnabled
                                then s.pendingStarts + 1 else s.pendingStarts)
    ensures r == s.(playback := None, pendingStarts := r.pendingStarts)
  {
    match s.playback
    case None => s
    case Some(u) =>
      var t := s.(playback := None);
      if u.resumeAfter && t.voiceMode && t.micEnabled then t.(pendingStarts := t.pendingStarts + 1) else t
  }

  /** One armed start timer fires and calls the start routine. */
  function StartTimerFires(s: Session): (r: Session)
    ensures s.pendingStarts == 0 ==> r == s
    ensures s.pendingStarts > 0 ==> r.pendingStarts == s.pendingStarts - 1
    ensures r.capturing <==> s.capturing || (s.pendingStarts > 0 && s.voiceMode && s.micEnabled && s.playback.None?)
    ensures s.pendingStarts > 0 && s.voiceMode && s.micEnabled && s.playback.None? ==> r.isListening
    ensures s.playback.Some? ==> r.capturing == s.capturing && r.isListening == s.isListening
    ensures s.pendingStarts > 0 && s.voiceMode && s.micEnabled && s.playback.Some? ==>
              r.playback == Some(s.playback.value.(resumeAfter := true))
    ensures r.voiceMode == s.voiceMode && r.micEnabled == s.micEnabled && SameTurn(s, r)
  {
    if s.pendingStarts == 0 then s else StartListening(s.(pendingStarts := s.pendingStarts - 1))
  }

  function StartTimerFiresAsWritten(s: Session): (r: Session)
    ensures s.pendingStarts == 0 ==> r == s
    ensures s.pendingStarts > 0 && s.voiceMode && s.micEnabled ==> r.capturing && r.isListening && r.playback == s.playback
    ensures s.pendingStarts > 0 && !(s.voiceMode && s.micEnabled) ==> r == s.(pendingStarts := s.pendingStarts - 1)
    ensures SameTurn(s, r)
  {
    if s.pendingStarts == 0 then s
    else var t := s.(pendingStarts := s.pendingStarts - 1); StartListeningAsWritten(t, t)
  }

  // ---------------------------------------------------------------------------
  // Recognizer callbacks

  /** `onerror`: "no-speech" arms a restart after a pause; any other error only
      drops the on-screen flag. */
  function OnError(s: Session, error: string): (r: Session)
    ensures error == "no-speech" ==> r == s.(pendingRestarts := s.pendingRestarts + 1)
    ensures error != "no-speech" ==> r == s.(isListening := false)
    ensures SameTurn(s, r) && r.capturing == s.capturing
  {
    if error == "no-speech" then s.(pendingRestarts := s.pendingRestarts + 1) else s.(isListening := false)
  }

  /** The restart after "no-speech" as written: in voice mode the recognizer is
      started directly, without raising the flag and whatever is playing. */
  function RestartTimerFiresAsWritten(s: Session): (r: Session)
    ensures s.pendingRestarts > 0 && s.voiceMode ==> r.capturing && r.playback == s.playback
    ensures s.pendingRestarts == 0 ==> r == s
    ensures r.isListening == s.isListening && (s.capturing ==> r.capturing)
    ensures SameTurn(s, r)
  {
    if s.pendingRestarts == 0 then s
    else
      var t := s.(pendingRestarts := s.pendingRestarts - 1);
      if t.voiceMode then t.(capturing := true) else t
  }

  /** The restart the session uses: in voice mode the recognizer is started
      unless a reply is being spoken, in which case it resumes when playback ends. */
  function RestartTimerFires(s: Session): (r: Session)
    ensures s.pendingRestarts == 0 ==> r == s
    ensures s.pendingRestarts > 0 ==> r.pendingRestarts == s.pendingRestarts - 1
    ensures r.capturing <==> s.capturing || (s.pendingRestarts > 0 && s.voiceMode && s.playback.None?)
    ensures r.isListening == s.isListening
    ensures SameTurn(s, r)
  {
    if s.pendingRestarts == 0 then s
    else
      var t := s.(pendingRestarts := s.pendingRestarts - 1);
      if !t.voiceMode then t
      else if t.playback.Some? then t.(playback := Some(t.playback.value.(resumeAfter := true)))
      else t.(capturing := true)
  }

  /** `onend`: the recognizer has stopped. */
  function OnEnd(s: Session): (r: Session)
    ensures !r.capturing && !r.isListening
    ensures r == s.(capturing := false, isListening := false)
    ensures SameTurn(s, r)
  {
    s.(capturing := false, isListening := false)
  }

  // ---------------------------------------------------------------------------
  // Welcome message

  const FluencyWelcome: string := "Hi! I'm excited to practice English with you today. Let's start with something simple - how has your day been so far?"

  /** The opening line for each learning goal; any other goal gets the fluency one. */
  function WelcomeFor(goal: string): (m: string)
    ensures goal !in {"interview", "travel", "academic"} ==> m == FluencyWelcome
  {
    match goal
    case "interview" => "Hello! I'm here to help you practice for job interviews. Let's begin with a common question: Can you tell me a bit about yourself and your background?"
    case "travel" => "Hi there! Let's practice English for travel situations. Imagine you just arrived at a hotel - can you tell me about your reservation?"
    case "academic" => "Hello! I'm here to help you practice academic English. Let's start by discussing a topic you're studying - what subject interests you most right now?"
    case _ => FluencyWelcome
  }

  /** The stored preferences arrive: they are kept, and an empty conversation
      opens with the welcome line for the goal. */
  function LoadPreferences(s: Session, goal: string, now: int): (r: Session)
    ensures r.preferences == Some(goal)
    ensures s.messages == [] ==> r.messages == [Message(1, AiSpeaker, WelcomeFor(EffectiveGoal(Some(goal))), now, None, false)]
    ensures s.messages != [] ==> r.messages == s.messages
    ensures r == s.(preferences := Some(goal), messages := r.messages)
  {
    var t := s.(preferences := Some(goal));
    if s.messages == [] then t.(messages := [Message(1, AiSpeaker, WelcomeFor(EffectiveGoal(Some(goal))), now, None, false)])
    else t
  }

  // ---------------------------------------------------------------------------
  // Ending

  /** What is handed to the dashboard when the session ends. */
  datatype Summary = Summary(duration: int, messagesCount: nat, correctGrammar: nat, improvements: nat)

  /** The counters added to the stored progress. */
  datatype Increment = Increment(totalMinutes: int, totalSessions: int, currentStreak: int)

  datatype Ending = Ending(session: Session, summary: Summary, write: Option<Increment>)

  const MillisPerMinute: int := 60000

  /** `Math.round(ms / 60000)`: the nearest whole number of minutes, halves up. */
  function RoundMinutes(elapsed: int): (m: int)
    ensures m * MillisPerMinute - MillisPerMinute / 2 <= elapsed < m * MillisPerMinute + MillisPerMinute / 2
  {
    (elapsed + MillisPerMinute / 2) / MillisPerMinute
  }

  /** `handleEndSession`: capture stops; the summary carries the rounded
      duration and the running stats; outside demo mode the progress counters
      are incremented. The summary is delivered whether or not that write succeeds. */
  function EndSession(s: Session, now: int, demoMode: bool): (e: Ending)
    ensures e.session == StopListening(s)
    ensures e.summary == Summary(RoundMinutes(now - s.startedAt), s.stats.messagesCount, s.stats.correctGrammar, s.stats.improvements)
    ensures demoMode <==> e.write.None?
    ensures !demoMode ==> e.write == Some(Increment(e.summary.duration, 1, 1))
  {
    var summary := Summary(RoundMinutes(now - s.startedAt), s.stats.messagesCount, s.stats.correctGrammar, s.stats.improvements);
    Ending(StopListening(s), summary, if demoMode then None else Some(Increment(summary.duration, 1, 1)))
  }

  // ---------------------------------------------------------------------------
  // Events

  /** Everything that can happen to a session. `Heard` arrives only while the
      recognizer runs; the microphone switch and the text box exist only in the
      mode that shows them, and the text box is disabled while loading. `End`
      is the end-session button; the summary and the store write it produces
      are those of `EndSession`, and the component stays mounted until the
      parent reacts. */
  datatype Event =
    | Heard(results: seq<SpeechResult>, resultIndex: nat)
    | SilenceTimeout(now: int)
    | RecognitionError(error: string)
    | RestartTimeout
    | RecognitionEnd
    | MicToggle
    | VoiceToggle
    | Edit(text: string)
    | Send(now: int)
    | Reply(client: Groq.Client, now: int)
    | SpeakTimeout
    | SpeechEnd
    | StartTimeout
    | PreferencesLoaded(goal: string, now: int)
    | End(now: int, demoMode: bool)

  function Step(s: Session, e: Event, parse: string -> Option<Groq.Feedback>): Session {
    match e
    case Heard(results, from) => if s.capturing then OnResult(s, results, from) else s
    case SilenceTimeout(now) => SilenceTimerFires(s, now)
    case RecognitionError(error) => OnError(s, error)
    case RestartTimeout => RestartTimerFires(s)
    case RecognitionEnd => OnEnd(s)
    case MicToggle => if s.voiceMode then ToggleMicrophone(s) else s
    case VoiceToggle => ToggleVoiceMode(s)
    case Edit(text) => if s.voiceMode || s.IsLoading() then s else s.(inputText := text)
    case Send(now) => if s.voiceMode then s else SendMessage(s, now)
    case Reply(client, now) => Complete(s, client, parse, now)
    case SpeakTimeout => SpeakTimerFires(s)
    case SpeechEnd => SpeechEnded(s)
    case StartTimeout => StartTimerFires(s)
    case PreferencesLoaded(goal, now) => LoadPreferences(s, goal, now)
    case End(now, demoMode) => EndSession(s, now, demoMode).session
  }

  /** The engine as the component is written: the switches, the playback
      timer and both restart timers run the as-written routines; every other
      event is handled as in `Step`. */
  function StepAsWritten(s: Session, e: Event, parse: string -> Option<Groq.Feedback>): Session {
    match e
    case MicToggle => if s.voiceMode then ToggleMicrophoneAsWritten(s) else s
    case VoiceToggle => ToggleVoiceModeAsWritten(s)
    case RestartTimeout => RestartTimerFiresAsWritten(s)
    case SpeakTimeout => SpeakTimerFiresAsWritten(s)
    case StartTimeout => StartTimerFiresAsWritten(s)
    case _ => Step(s, e, parse)
  }

  function Run(s: Session, events: seq<Event>, parse: string -> Option<Groq.Feedback>): Session
    decreases |events|
  {
    if events == [] then s else Run(Step(s, events[0], parse), events[1..], parse)
  }

  function RunAsWritten(s: Session, events: seq<Event>, parse: string -> Option<Groq.Feedback>): Session
    decreases |events|
  {
    if events == [] then s else RunAsWritten(StepAsWritten(s, events[0], parse), events[1..], parse)
  }
}
