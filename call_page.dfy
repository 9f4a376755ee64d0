/**
 * The voice-call page (Frontend/src/pages/CallPage.jsx) as a state machine.
 * Each event is run to completion: a recognition result or error, the
 * recognition control effect, the 300 ms start timer it schedules, the 1500 ms
 * debounce that begins a turn, the reply that ends it, the end of playback and
 * the 500 ms re-arm timer it schedules, the mute and speaker toggles, and the
 * start and end of the call. The page is taken to run in a browser that
 * provides speech recognition.
 */
module CallPage {
  import opened Common
  import opened JsString
  import opened Conversation
  import opened Http
  import CallSchema
  import Transcript
  import Completion
  import CallService

  /** `formatTime`: minutes, a colon, and the seconds padded to two digits. */
  function FormatTime(seconds: nat): string {
    var secs := seconds % 60;
    NatToString(seconds / 60) + ":" + (if secs < 10 then "0" else "") + NatToString(secs)
  }

  /** Reading a clock back: the digits before the colon are minutes, the two after it seconds below 60. */
  function ReadTime(t: string): Option<nat> {
    if |t| >= 4 && t[|t| - 3] == ':'
       && (forall i :: 0 <= i < |t| - 3 ==> IsDigit(t[i]))
       && IsDigit(t[|t| - 2]) && IsDigit(t[|t| - 1]) && DigitValue(t[|t| - 2]) < 6
    then Some(DigitsValue(t[..|t| - 3]) * 60 + DigitValue(t[|t| - 2]) * 10 + DigitValue(t[|t| - 1]))
    else None
  }

  /** The minutes are `seconds / 60` in decimal; the seconds field is always exactly two digits. */
  lemma FormatTimeFields(seconds: nat)
    ensures FormatTime(seconds) == NatToString(seconds / 60) + ":" + [DigitChar(seconds % 60 / 10), DigitChar(seconds % 60 % 10)]
  {
    var secs := seconds % 60;
    if secs < 10 {
      assert DigitChar(0) == '0';
    } else {
      assert NatToString(secs) == NatToString(secs / 10) + [DigitChar(secs % 10)];
    }
  }

  /** `mins * 60 + secs` of the rendered clock is the number of seconds rendered. */
  lemma FormatTimeRoundTrip(seconds: nat)
    ensures ReadTime(FormatTime(seconds)) == Some(seconds)
  {
    FormatTimeFields(seconds);
    var t := FormatTime(seconds);
    var mins := NatToString(seconds / 60);
    assert t[..|t| - 3] == mins;
    DigitsValueOfNatToString(seconds / 60);
    assert DigitValue(DigitChar(seconds % 60 / 10)) == seconds % 60 / 10;
    assert DigitValue(DigitChar(seconds % 60 % 10)) == seconds % 60 % 10;
  }

  datatype CallStatus = Connecting | Active | Ended

  /** What the control effect does to the recognizer. */
  datatype Decision = StartListening | StopListening | Keep

  /** The control effect as written: mute plays no part in it. */
  function ControlAsWritten(status: CallStatus, aiSpeaking: bool, processing: bool, recording: bool): (d: Decision)
    ensures d == StartListening <==> status == Active && !aiSpeaking && !processing && !recording
    ensures d == StopListening <==> recording && (status != Active || aiSpeaking || processing)
  {
    if status == Active && !aiSpeaking && !processing && !recording then StartListening
    else if (status != Active || aiSpeaking || processing) && recording then StopListening
    else Keep
  }

  /** The control effect that keeps a muted microphone off. */
  function Control(status: CallStatus, aiSpeaking: bool, processing: bool, recording: bool, muted: bool): (d: Decision)
    ensures d == StartListening <==> status == Active && !aiSpeaking && !processing && !recording && !muted
    ensures d == StopListening <==> recording && (status != Active || aiSpeaking || processing || muted)
  {
    if status == Active && !aiSpeaking && !processing && !recording && !muted then StartListening
    else if (status != Active || aiSpeaking || processing || muted) && recording then StopListening
    else Keep
  }

  /** The start and stop conditions never hold together, so the effect never does both. */
  lemma StartAndStopExclusive(status: CallStatus, aiSpeaking: bool, processing: bool, recording: bool, muted: bool)
    ensures !(status == Active && !aiSpeaking && !processing && !recording && !muted
              && recording && (status != Active || aiSpeaking || processing || muted))
    ensures Control(status, aiSpeaking, processing, recording, false) == ControlAsWritten(status, aiSpeaking, processing, recording)
  {
  }

  /** `{success, call}` as `POST /calls` answers. */
  datatype CallPayload = CallPayload(success: bool, call: CallSchema.CallDoc)

  /** `callDetails.callId` as written: neither the server payload nor the local stand-in has that field. */
  function CallIdAsWritten(v: CallService.CallValue<CallPayload>): (id: Option<string>)
    ensures id.None?
  {
    None
  }

  /** `callDetails.call._id`: the id of the call that was started, on the server or locally. */
  function CallIdOf(v: CallService.CallValue<CallPayload>): (id: Option<string>)
    ensures v.FromServer? ==> id == Some(v.data.call.id)
    ensures v.Offline? ==> id == Some(v.call.id)
  {
    match v
    case FromServer(p) => Some(p.call.id)
    case Offline(c) => Some(c.id)
  }

  /** The page's state between events. */
  datatype Session = Session(
    status: CallStatus, isMuted: bool, isSpeakerOn: bool, callId: Option<string>,
    isProcessing: bool, transcript: string, messages: seq<CallSchema.CallMessage>,
    isAiSpeaking: bool, isRecording: bool,
    startTimers: nat, rearmTimers: nat, pendingTurn: Option<string>, endRequests: seq<string>)

  /**
   * What every event preserves: a turn is awaiting its reply exactly while
   * processing, nothing is pending before the call starts, and the AI is never
   * speaking with the speaker off.
   */
  predicate Inv(s: Session) {
    && (s.pendingTurn.Some? <==> s.isProcessing)
    && (s.status == Connecting ==> s.pendingTurn.None?)
    && (s.isAiSpeaking ==> s.isSpeakerOn)
  }

  function Initial(): Session {
    Session(Connecting, false, true, None, false, "", [], false, false, 0, 0, None, [])
  }

  /** `onresult`: ignored while the AI speaks, otherwise the assembled transcript replaces the last one. */
  function Heard(s: Session, current: string): Session {
    if s.isAiSpeaking then s else s.(transcript := current)
  }

  /** `onerror`. */
  function RecognitionFailed(s: Session): Session {
    s.(isRecording := false)
  }

  function ApplyDecision(s: Session, d: Decision): Session {
    match d
    case StartListening => s.(startTimers := s.startTimers + 1)
    case StopListening => s.(isRecording := false)
    case Keep => s
  }

  /** The control effect as written. */
  function ControlStepAsWritten(s: Session): Session {
    ApplyDecision(s, ControlAsWritten(s.status, s.isAiSpeaking, s.isProcessing, s.isRecording))
  }

  function ControlStep(s: Session): Session {
    ApplyDecision(s, Control(s.status, s.isAiSpeaking, s.isProcessing, s.isRecording, s.isMuted))
  }

  /** The control effect's 300 ms timer: the recognizer starts. */
  function StartFired(s: Session): Session {
    if s.startTimers == 0 then s else s.(isRecording := true, startTimers := s.startTimers - 1)
  }

  /** The transcript is worth a turn: more than ten characters once trimmed. */
  predicate Substantial(transcript: string) {
    |Trim(transcript)| > 10
  }

  /** The guard of `processTranscript`. */
  predicate Ready(s: Session) {
    !IsBlank(s.transcript) && !s.isProcessing && !s.isAiSpeaking && s.status == Active && Substantial(s.transcript)
  }

  /** The debounce timer: when ready, the turn begins with the user's words listed and the transcript cleared. */
  function DebounceFired(s: Session, now: int): Session {
    if !Ready(s) then s
    else s.(isProcessing := true, isRecording := false, transcript := "", pendingTurn := Some(s.transcript),
            messages := s.messages + [CallSchema.CallMessage(s.transcript, User, now, None)])
  }

  /**
   * The reply to the pending turn: the AI message is listed, playback starts
   * only for a non-empty audio URL with the speaker on (`canSpeak`: the audio
   * element played it, or the browser's speech synthesis took over), and
   * processing ends.
   */
  function Reply(s: Session, llm: Completion.Llm, cfg: CallService.ClientTtsConfig,
                 synth: CallService.Synthesis -> Option<string>, canSpeak: bool, now: int): Session {
    match s.pendingTurn
    case None => s
    case Some(words) =>
      var r := CallService.SendVoiceMessage(s.callId, words, llm, cfg, synth, now);
      s.(messages := s.messages + [CallSchema.CallMessage(r.content, Ai, now, r.audioUrl)],
         isAiSpeaking := Truthy(r.audioUrl) && s.isSpeakerOn && canSpeak,
         isProcessing := false, pendingTurn := None)
  }

  /**
   * The reply as written: playback is decided on `speakerOnWhenScheduled`, the
   * speaker flag of the render that scheduled the debounce, since the effect
   * that schedules it does not depend on the speaker.
   */
  function ReplyAsWritten(s: Session, speakerOnWhenScheduled: bool, llm: Completion.Llm, cfg: CallService.ClientTtsConfig,
                          synth: CallService.Synthesis -> Option<string>, canSpeak: bool, now: int): Session {
    match s.pendingTurn
    case None => s
    case Some(words) =>
      var r := CallService.SendVoiceMessage(s.callId, words, llm, cfg, synth, now);
      s.(messages := s.messages + [CallSchema.CallMessage(r.content, Ai, now, r.audioUrl)],
         isAiSpeaking := Truthy(r.audioUrl) && speakerOnWhenScheduled && canSpeak,
         isProcessing := false, pendingTurn := None)
  }

  /** The audio element's `onEnded`. */
  function AudioEnded(s: Session): Session {
    s.(isAiSpeaking := false,
       rearmTimers := if s.status == Active && !s.isRecording then s.rearmTimers + 1 else s.rearmTimers)
  }

  /** The 500 ms re-arm timer after playback. */
  function RearmFired(s: Session): Session {
    if s.rearmTimers == 0 then s else s.(isRecording := true, rearmTimers := s.rearmTimers - 1)
  }

  /** `toggleMute`: unmuting an idle active call starts listening; muting stops it. */
  function ToggleMute(s: Session): Session {
    var s1 := s.(isMuted := !s.isMuted);
    if s.isMuted && s.status == Active && !s.isAiSpeaking && !s.isProcessing && !s.isRecording then s1.(isRecording := true)
    else if !s.isMuted && s.isRecording then s1.(isRecording := false)
    else s1
  }

  /** `toggleSpeaker`: turning the speaker off silences the AI and, in an active call, listening resumes. */
  function ToggleSpeaker(s: Session): Session {
    if s.isSpeakerOn && s.isAiSpeaking then
      s.(isSpeakerOn := false, isAiSpeaking := false, isRecording := s.isRecording || s.status == Active)
    else s.(isSpeakerOn := !s.isSpeakerOn)
  }

  /** `handleEndCall`: stop listening, end the call, silence the AI, and ask the backend to end it only when an id is known. */
  function EndCall(s: Session): Session {
    s.(isRecording := false, status := Ended, isAiSpeaking := false,
       endRequests := if Truthy(s.callId) then s.endRequests + [s.callId.value] else s.endRequests)
  }

  /**
   * `handleStartCall` as written, once `startCall` has settled: it keeps no call
   * id. Nothing checks the status first, and the page has two identical mount
   * effects, so this runs twice per visit.
   */
  function StartCallAsWritten(s: Session, v: CallService.CallValue<CallPayload>): Session {
    s.(callId := CallIdAsWritten(v), status := Active, isProcessing := false)
  }

  /** `handleStartCall` keeping the id of the call it started, still without a status check. */
  function StartCall(s: Session, v: CallService.CallValue<CallPayload>): Session {
    s.(callId := CallIdOf(v), status := Active, isProcessing := false)
  }

  /** The recognizer's events keep the invariant and leave the call id alone. */
  lemma ListeningKeepsInvariant(s: Session, current: string)
    requires Inv(s)
    ensures Inv(Heard(s, current)) && Heard(s, current).callId == s.callId
    ensures Inv(RecognitionFailed(s)) && RecognitionFailed(s).callId == s.callId
    ensures Inv(ControlStep(s)) && ControlStep(s).callId == s.callId
    ensures Inv(StartFired(s)) && StartFired(s).callId == s.callId
    ensures Inv(RearmFired(s)) && RearmFired(s).callId == s.callId
  {
  }

  /** The events of a turn keep the invariant and leave the call id alone. */
  lemma TurnKeepsInvariant(s: Session, now: int, llm: Completion.Llm, cfg: CallService.ClientTtsConfig,
                           synth: CallService.Synthesis -> Option<string>, canSpeak: bool)
    requires Inv(s)
    ensures Inv(DebounceFired(s, now)) && DebounceFired(s, now).callId == s.callId
    ensures Inv(Reply(s, llm, cfg, synth, canSpeak, now)) && Reply(s, llm, cfg, synth, canSpeak, now).callId == s.callId
    ensures Inv(AudioEnded(s)) && AudioEnded(s).callId == s.callId
  {
  }

  /**
   * The buttons keep the invariant, and so does the start of the call unless a
   * turn is awaiting its reply; only the start of the call sets the call id.
   */
  lemma ControlsKeepInvariant(s: Session, v: CallService.CallValue<CallPayload>)
    requires Inv(s)
    ensures Inv(ToggleMute(s)) && ToggleMute(s).callId == s.callId
    ensures Inv(ToggleSpeaker(s)) && ToggleSpeaker(s).callId == s.callId
    ensures Inv(EndCall(s)) && EndCall(s).callId == s.callId
    ensures Inv(StartCall(s, v)) <==> s.pendingTurn.None?
  {
  }

  /**
   * A start that settles while a turn awaits its reply clears `isProcessing`
   * under it, so the debounce may begin a second turn before the first is answered.
   */
  lemma LateStartReleasesProcessing(s: Session, v: CallService.CallValue<CallPayload>)
    requires Inv(s) && s.pendingTurn.Some?
    ensures var q := StartCall(s, v);
      && q.pendingTurn == s.pendingTurn && !q.isProcessing && !Inv(q)
      && (Substantial(q.transcript) && !q.isAiSpeaking ==> Ready(q))
  {
  }

  /**
   * Ending the call while it is still connecting does not stick: no end request
   * can be sent yet, and the start that settles afterwards makes the call active
   * again, with its id, and nothing asks the backend to end it.
   */
  lemma EarlyEndUndoneByStart(s: Session, v: CallService.CallValue<CallPayload>)
    requires s.status == Connecting && s.callId.None?
    ensures var q := StartCall(EndCall(s), v);
      && EndCall(s).status == Ended && EndCall(s).endRequests == s.endRequests
      && q.status == Active && q.callId == CallIdOf(v) && q.endRequests == s.endRequests
  {
  }

  /**
   * Both mount effects start a call. Keeping the id of the start that settles
   * last, ending the page asks the backend to end that call only; the other
   * call stays active on the backend.
   */
  lemma DoubleStartEndsOnlyLast(s: Session, v1: CallService.CallValue<CallPayload>, v2: CallService.CallValue<CallPayload>)
    requires s.status == Connecting
    requires v2.FromServer? ==> IsObjectId(v2.data.call.id)
    requires v2.Offline? ==> StartsWith(v2.call.id, "local-")
    ensures var q := EndCall(StartCall(StartCall(s, v1), v2));
      && q.endRequests == s.endRequests + [CallIdOf(v2).value]
      && (CallIdOf(v1) != CallIdOf(v2) ==> CallIdOf(v1).value !in q.endRequests[|s.endRequests|..])
  {
  }

  /** As written, neither of the two calls started on mount is ever ended on the backend. */
  lemma DoubleStartNeverEndedAsWritten(s: Session, v1: CallService.CallValue<CallPayload>, v2: CallService.CallValue<CallPayload>)
    ensures EndCall(StartCallAsWritten(StartCallAsWritten(s, v1), v2)).endRequests == s.endRequests
  {
  }

  /** Results that arrive while the AI speaks leave the session as it was. */
  lemma ResultsIgnoredWhileAiSpeaks(s: Session, current: string)
    ensures s.isAiSpeaking ==> Heard(s, current) == s
    ensures !s.isAiSpeaking ==> Heard(s, current) == s.(transcript := current)
  {
  }

  /** A substantial transcript is never blank, so the guard's first test is implied by its last. */
  lemma SubstantialIsNotBlank(t: string)
    requires Substantial(t)
    ensures !IsBlank(t)
  {
  }

  /** The debounce begins a turn exactly when the guard holds, and does nothing otherwise. */
  lemma DebounceGuard(s: Session, now: int)
    ensures !Ready(s) ==> DebounceFired(s, now) == s
    ensures Ready(s) ==> var q := DebounceFired(s, now);
      && q.isProcessing && !q.isRecording && q.transcript == "" && q.pendingTurn == Some(s.transcript)
      && q.messages == s.messages + [CallSchema.CallMessage(s.transcript, User, now, None)]
  {
  }

  /**
   * A whole turn lists the user's words and then the reply, exactly the two
   * messages the call client reports for it, and ends with nothing processing
   * and the transcript cleared.
   */
  lemma TurnListsUserThenAi(s: Session, now: int, llm: Completion.Llm, cfg: CallService.ClientTtsConfig,
                            synth: CallService.Synthesis -> Option<string>, canSpeak: bool)
    requires Ready(s)
    ensures var q := Reply(DebounceFired(s, now), llm, cfg, synth, canSpeak, now);
      var r := CallService.SendVoiceMessage(s.callId, s.transcript, llm, cfg, synth, now);
      && q.messages == s.messages + r.messages
      && q.messages[|s.messages| + 1].content == CallService.GenerateAIResponse(s.transcript, llm)
      && q.transcript == "" && !q.isProcessing && q.pendingTurn.None?
  {
  }

  /** Playback follows the reply only with a non-empty audio URL and the speaker on; processing always ends. */
  lemma PlaybackRule(s: Session, llm: Completion.Llm, cfg: CallService.ClientTtsConfig,
                     synth: CallService.Synthesis -> Option<string>, canSpeak: bool, now: int)
    requires s.pendingTurn.Some?
    ensures var q := Reply(s, llm, cfg, synth, canSpeak, now);
      var audio := CallService.SendVoiceMessage(s.callId, s.pendingTurn.value, llm, cfg, synth, now).audioUrl;
      && (q.isAiSpeaking <==> Truthy(audio) && s.isSpeakerOn && canSpeak)
      && !q.isProcessing
  {
  }

  /** The end of playback silences the AI and re-arms listening only in an active call that is not listening. */
  lemma AudioEndRule(s: Session)
    ensures !AudioEnded(s).isAiSpeaking
    ensures AudioEnded(s).rearmTimers == s.rearmTimers + 1 <==> s.status == Active && !s.isRecording
    ensures AudioEnded(s).rearmTimers == s.rearmTimers || AudioEnded(s).rearmTimers == s.rearmTimers + 1
  {
  }

  /** Ending the call stops listening and playback, and requests the backend's end exactly when a call id is known. */
  lemma EndCallRule(s: Session)
    ensures var q := EndCall(s);
      && q.status == Ended && !q.isRecording && !q.isAiSpeaking
      && (Truthy(s.callId) ==> q.endRequests == s.endRequests + [s.callId.value])
      && (!Truthy(s.callId) ==> q.endRequests == s.endRequests)
  {
  }

  /** As written, a started call is never ended on the backend: the id read back is always missing. */
  lemma StartedCallNeverEndedAsWritten(s: Session, v: CallService.CallValue<CallPayload>)
    requires s.status == Connecting
    ensures EndCall(StartCallAsWritten(s, v)).endRequests == s.endRequests
  {
  }

  /** Keeping `call._id`, ending the call asks the backend to end exactly the call that was started. */
  lemma StartedCallIsEnded(s: Session, v: CallService.CallValue<CallPayload>)
    requires s.status == Connecting
    requires v.FromServer? ==> IsObjectId(v.data.call.id)
    requires v.Offline? ==> StartsWith(v.call.id, "local-")
    ensures var q := EndCall(StartCall(s, v));
      && (v.FromServer? ==> q.endRequests == s.endRequests + [v.data.call.id])
      && (v.Offline? ==> q.endRequests == s.endRequests + [v.call.id])
  {
  }

  /** As written, muting is undone: right after the mute stops listening, the effect schedules a restart and the timer turns the microphone back on. */
  lemma MuteUndoneAsWritten(s: Session)
    requires s.status == Active && !s.isAiSpeaking && !s.isProcessing && s.isRecording && !s.isMuted
    ensures var m := ToggleMute(s);
      && m.isMuted && !m.isRecording
      && ControlStepAsWritten(m).startTimers == m.startTimers + 1
      && StartFired(ControlStepAsWritten(m)).isRecording && StartFired(ControlStepAsWritten(m)).isMuted
  {
  }

  /**
   * With mute taken into account, the effect never schedules a start for a
   * muted microphone and stops one that is on, and running it again on the
   * state it leaves changes nothing more.
   */
  lemma MuteIsKept(s: Session)
    ensures s.isMuted ==> !ControlStep(s).isRecording && ControlStep(s).startTimers == s.startTimers
    ensures s.isMuted ==> ControlStep(ControlStep(s)) == ControlStep(s)
    ensures var m := ToggleMute(s);
      !s.isMuted ==> m.isMuted && !m.isRecording && ControlStep(m) == m
  {
  }

  /**
   * As written, turning the speaker off while a reply is awaited does not stop
   * it: the reply still plays, so the AI speaks with the speaker off.
   */
  lemma SpeakerOffIgnoredAsWritten(s: Session, now: int, llm: Completion.Llm, cfg: CallService.ClientTtsConfig,
                                   synth: CallService.Synthesis -> Option<string>)
    requires Ready(s) && s.isSpeakerOn
    ensures var q := ToggleSpeaker(DebounceFired(s, now));
      var r := ReplyAsWritten(q, s.isSpeakerOn, llm, cfg, synth, true, now);
      var audio := CallService.SendVoiceMessage(s.callId, s.transcript, llm, cfg, synth, now).audioUrl;
      && !q.isSpeakerOn && q.isProcessing
      && (Truthy(audio) ==> r.isAiSpeaking && !r.isSpeakerOn && !Inv(r))
  {
  }

  /** Deciding on the current speaker flag, a reply that arrives after the speaker was turned off stays silent. */
  lemma SpeakerOffSilencesReply(s: Session, now: int, llm: Completion.Llm, cfg: CallService.ClientTtsConfig,
                                synth: CallService.Synthesis -> Option<string>, canSpeak: bool)
    requires Ready(s) && s.isSpeakerOn
    ensures var q := ToggleSpeaker(DebounceFired(s, now));
      var r := Reply(q, llm, cfg, synth, canSpeak, now);
      && !q.isSpeakerOn && q.isProcessing
      && !r.isAiSpeaking && !r.isSpeakerOn && !r.isProcessing
  {
  }

  /** The page object: React's state cells as fields. */
  class CallScreen {
    var callStatus: CallStatus
    var isMuted: bool
    var isSpeakerOn: bool
    var currentCallId: Option<string>
    var isProcessing: bool
    var transcript: string
    var messages: seq<CallSchema.CallMessage>
    var isAiSpeaking: bool
    var isRecording: bool
    var startTimers: nat
    var rearmTimers: nat
    var pendingTurn: Option<string>
    var endRequests: seq<string>

    function State(): Session
      reads this
    {
      Session(callStatus, isMuted, isSpeakerOn, currentCallId, isProcessing, transcript, messages,
              isAiSpeaking, isRecording, startTimers, rearmTimers, pendingTurn, endRequests)
    }

    predicate Valid()
      reads this
    {
      Inv(State())
    }

    constructor()
      ensures Valid() && State() == Initial()
    {
      callStatus, isMuted, isSpeakerOn, currentCallId := Connecting, false, true, None;
      isProcessing, transcript, messages := false, "", [];
      isAiSpeaking, isRecording := false, false;
      startTimers, rearmTimers, pendingTurn, endRequests := 0, 0, None, [];
    }

    method OnResult(results: seq<Transcript.RecognitionResult>, resultIndex: nat)
      requires Valid()
      modifies this
      ensures Valid()
      ensures State() == Heard(old(State()), Transcript.CurrentTranscript(results, resultIndex))
    {
      if isAiSpeaking {
        return;
      }
      var current := Transcript.Assemble(results, resultIndex);
      transcript := current;
    }

    method OnError()
      requires Valid()
      modifies this
      ensures Valid() && State() == RecognitionFailed(old(State()))
    {
      isRecording := false;
    }

    method ControlEffect() returns (d: Decision)
      requires Valid()
      modifies this
      ensures d == Control(old(callStatus), old(isAiSpeaking), old(isProcessing), old(isRecording), old(isMuted))
      ensures Valid() && State() == ControlStep(old(State()))
    {
      if callStatus == Active && !isAiSpeaking && !isProcessing && !isRecording && !isMuted {
        d := StartListening;
        startTimers := startTimers + 1;
      } else if (callStatus != Active || isAiSpeaking || isProcessing || isMuted) && isRecording {
        d := StopListening;
        isRecording := false;
      } else {
        d := Keep;
      }
    }

    method StartTimerFired()
      requires Valid()
      modifies this
      ensures Valid() && State() == StartFired(old(State()))
    {
      if startTimers > 0 {
        isRecording := true;
        startTimers := startTimers - 1;
      }
    }

    method DebounceTimerFired(now: int)
      requires Valid()
      modifies this
      ensures Valid() && State() == DebounceFired(old(State()), now)
    {
      if !Ready(State()) {
        return;
      }
      isProcessing := true;
      isRecording := false;
      messages := messages + [CallSchema.CallMessage(transcript, User, now, None)];
      pendingTurn := Some(transcript);
      transcript := "";
    }

    method ReplyArrived(llm: Completion.Llm, cfg: CallService.ClientTtsConfig,
                        synth: CallService.Synthesis -> Option<string>, canSpeak: bool, now: int)
      requires Valid()
      modifies this
      ensures Valid() && State() == Reply(old(State()), llm, cfg, synth, canSpeak, now)
    {
      if pendingTurn.None? {
        return;
      }
      var response := CallService.SendVoiceMessage(currentCallId, pendingTurn.value, llm, cfg, synth, now);
      // the reply entry carries `response.message`'s content and audio URL, stamped now
      var aiMessage := response.messages[1];
      messages := messages + [aiMessage];
      if Truthy(aiMessage.audioUrl) && isSpeakerOn {
        isAiSpeaking := canSpeak;
      } else {
        isAiSpeaking := false;
      }
      isProcessing := false;
      pendingTurn := None;
    }

    method PlaybackEnded()
      requires Valid()
      modifies this
      ensures Valid() && State() == AudioEnded(old(State()))
    {
      isAiSpeaking := false;
      if callStatus == Active && !isRecording {
        rearmTimers := rearmTimers + 1;
      }
    }

    method RearmTimerFired()
      requires Valid()
      modifies this
      ensures Valid() && State() == RearmFired(old(State()))
    {
      if rearmTimers > 0 {
        isRecording := true;
        rearmTimers := rearmTimers - 1;
      }
    }

    method HandleToggleMute()
      requires Valid()
      modifies this
      ensures Valid() && State() == ToggleMute(old(State()))
    {
      var wasMuted := isMuted;
      var wasRecording := isRecording;
      isMuted := !isMuted;
      if wasMuted && callStatus == Active && !isAiSpeaking && !isProcessing && !wasRecording {
        isRecording := true;
      }
      if !wasMuted && wasRecording {
        isRecording := false;
      }
    }

    method HandleToggleSpeaker()
      requires Valid()
      modifies this
      ensures Valid() && State() == ToggleSpeaker(old(State()))
    {
      var wasOn := isSpeakerOn;
      isSpeakerOn := !isSpeakerOn;
      if wasOn && isAiSpeaking {
        isAiSpeaking := false;
        if callStatus == Active && !isRecording {
          isRecording := true;
        }
      }
    }

    method HandleEndCall() returns (request: Option<string>)
      requires Valid()
      modifies this
      ensures request == if Truthy(old(currentCallId)) then old(currentCallId) else None
      ensures Valid() && State() == EndCall(old(State()))
    {
      if isRecording {
        isRecording := false;
      }
      callStatus := Ended;
      isAiSpeaking := false;
      request := None;
      if Truthy(currentCallId) {
        request := currentCallId;
        endRequests := endRequests + [currentCallId.value];
      }
    }

    method HandleStartCall(v: CallService.CallValue<CallPayload>)
      requires Valid()
      modifies this
      ensures State() == StartCall(old(State()), v)
      ensures Valid() <==> old(pendingTurn).None?
    {
      currentCallId := CallIdOf(v);
      callStatus := Active;
      isProcessing := false;
    }
  }
}
