/**
 * The voice-call client (Frontend/src/services/callService.js). Unlike the
 * chat client it never rethrows: every failure turns into a demo value. Its
 * `sendVoiceMessage` does not contact the backend at all; it asks the
 * completion and speech endpoints directly from the browser.
 */
module CallService {
  import opened Common
  import opened JsString
  import opened Conversation
  import opened CallSchema
  import opened Http
  import Completion
  import CallController
  import ChatService

  /** What `startCall` resolves with: the server payload, or a local call record. */
  datatype CallValue<P> = FromServer(data: P) | Offline(call: CallDoc)

  /** `startCall`: the payload on success; on any failure an active, empty local call for the user. */
  function StartCall<P>(userId: string, t: Transport<P>, now: nat): (r: CallValue<P>)
    ensures t.Delivered? ==> r == FromServer(t.data)
    ensures r.FromServer? <==> t.Delivered?
    ensures t.Failed? ==>
      && r.Offline? && StartsWith(r.call.id, ChatService.LocalPrefix)
      && r.call.userId == userId && r.call.title == CallController.VoiceCallTitle
      && r.call.status == Active && r.call.messages == [] && r.call.endedAt == None
      && r.call.createdAt == now && r.call.updatedAt == now
  {
    match t
    case Delivered(data) => FromServer(data)
    case Failed(_) => Offline(NewCall(ChatService.LocalId(now), userId, CallController.VoiceCallTitle, [], now))
  }

  /** The local stand-in is, apart from its id, exactly the record the server would have stored at that instant. */
  lemma OfflineCallMatchesServerCall(docs: seq<CallDoc>, userId: string, newId: string, f: Failure, now: nat)
    ensures var (_, resp) := CallController.StartCallSpec(docs, Some(userId), newId, now);
      resp.CallCreated? ==> resp.call == StartCall<()>(userId, Failed(f), now).call.(id := newId)
  {
  }

  const MockReply := "I understand how you're feeling. Would you like to tell me more about what's on your mind?"
  const FallbackReply := "I'm here to listen and support you. How can I help you today?"
  const ClientMaxTokens: nat := 150

  /** The request the browser sends: the companion prompt, then the user's words alone. */
  function ClientRequest(userMessage: string): Completion.Request {
    Completion.Request(
      [Completion.Entry(Completion.SystemRole, Completion.Instructions(Completion.ClientCompanionPrompt)),
       Completion.Entry(Completion.UserRole, Completion.Text(userMessage))],
      ClientMaxTokens, Completion.Temperature)
  }

  /**
   * Apart from the system prompt, the browser's request is the one the server's
   * voice controller builds for a history holding just this user message.
   */
  lemma ClientRequestIsSingleTurnVoiceRequest(userMessage: string)
    ensures var server := Completion.ReplyRequest(Completion.VoiceCall, [Turn(User, userMessage)]);
      && ClientRequest(userMessage).messages[1..] == server.messages[1..]
      && ClientRequest(userMessage).maxTokens == server.maxTokens
      && ClientRequest(userMessage).temperature == server.temperature
  {
    var server := Completion.ReplyRequest(Completion.VoiceCall, [Turn(User, userMessage)]);
    assert server.messages[1] == Completion.Entry(Completion.RoleOf(User), Completion.Text(userMessage));
    assert server.messages[1..] == [server.messages[1]];
  }

  /** `generateAIResponse`: never throws; the mock reply without a key, the endpoint's text, or the fixed fallback. */
  function GenerateAIResponse(userMessage: string, llm: Completion.Llm): (reply: string)
    ensures !llm.hasKey ==> reply == MockReply
    ensures llm.hasKey && llm.complete(ClientRequest(userMessage)).Some? ==>
      reply == llm.complete(ClientRequest(userMessage)).value
    ensures llm.hasKey && llm.complete(ClientRequest(userMessage)).None? ==> reply == FallbackReply
  {
    if !llm.hasKey then MockReply else llm.complete(ClientRequest(userMessage)).GetOr(FallbackReply)
  }

  /** Every reply is either one of the two fixed texts or exactly what the endpoint answered. */
  lemma ReplyIsFixedOrFromEndpoint(userMessage: string, llm: Completion.Llm)
    ensures var reply := GenerateAIResponse(userMessage, llm);
      reply == MockReply || reply == FallbackReply || llm.complete(ClientRequest(userMessage)) == Some(reply)
  {
  }

  /** The two settings the browser reads from its build environment. */
  datatype ClientTtsConfig = ClientTtsConfig(apiKey: Option<string>, voiceId: Option<string>)

  const DefaultVoiceId := "21m00Tcm4TlvDq8ikWAM"

  /** `VITE_ELEVENLABS_VOICE_ID || "21m00Tcm4TlvDq8ikWAM"`. */
  function VoiceOf(cfg: ClientTtsConfig): (v: string)
    ensures Truthy(cfg.voiceId) ==> v == cfg.voiceId.value
    ensures !Truthy(cfg.voiceId) ==> v == DefaultVoiceId
  {
    if Truthy(cfg.voiceId) then cfg.voiceId.value else DefaultVoiceId
  }

  /** One request to the speech endpoint: the voice in the URL and the text in the body. */
  datatype Synthesis = Synthesis(voiceId: string, text: string)

  /** The URL handed back (an object URL for the audio blob) and the request made, if any. */
  datatype TtsResult = TtsResult(audioUrl: Option<string>, request: Option<Synthesis>)

  /** `textToSpeech`: `null` without a key (and no request), otherwise the endpoint's audio or `null` on failure. */
  function TextToSpeech(cfg: ClientTtsConfig, text: string, synth: Synthesis -> Option<string>): (r: TtsResult)
    ensures r.request.None? <==> !Truthy(cfg.apiKey)
    ensures r.request.None? ==> r.audioUrl.None?
    ensures r.request.Some? ==> r.request.value == Synthesis(VoiceOf(cfg), text) && r.audioUrl == synth(r.request.value)
  {
    if !Truthy(cfg.apiKey) then TtsResult(None, None)
    else
      var q := Synthesis(VoiceOf(cfg), text);
      TtsResult(synth(q), Some(q))
  }

  /** What `sendVoiceMessage` resolves with: the reply, its audio, and the two messages of the turn. */
  datatype VoiceResult = VoiceResult(content: string, audioUrl: Option<string>, callId: Option<string>, messages: seq<CallMessage>)

  /**
   * `sendVoiceMessage`: first the reply text for the transcription, then the
   * speech for that reply; the turn is the user's words and the reply carrying
   * the audio, and the top-level message repeats the reply's fields.
   */
  function SendVoiceMessage(callId: Option<string>, transcription: string, llm: Completion.Llm,
                            cfg: ClientTtsConfig, synth: Synthesis -> Option<string>, now: int): (r: VoiceResult)
    ensures r.content == GenerateAIResponse(transcription, llm)
    ensures r.audioUrl == TextToSpeech(cfg, r.content, synth).audioUrl
    ensures r.callId == callId
    ensures |r.messages| == 2
    ensures r.messages[0] == CallMessage(transcription, User, now, None)
    ensures r.messages[1] == CallMessage(r.content, Ai, now, r.audioUrl)
  {
    var reply := GenerateAIResponse(transcription, llm);
    var audio := TextToSpeech(cfg, reply, synth).audioUrl;
    VoiceResult(reply, audio, callId, [NewCallMessage(transcription, User, None, now), NewCallMessage(reply, Ai, audio, now)])
  }

  /** Any audio in a voice turn was produced from that turn's reply text, with the configured voice. */
  lemma VoiceAudioSpeaksTheReply(callId: Option<string>, transcription: string, llm: Completion.Llm,
                                 cfg: ClientTtsConfig, synth: Synthesis -> Option<string>, now: int)
    ensures var r := SendVoiceMessage(callId, transcription, llm, cfg, synth, now);
      r.audioUrl.Some? ==> Truthy(cfg.apiKey) && synth(Synthesis(VoiceOf(cfg), r.content)) == r.audioUrl
  {
  }

  /** The part of the `GET /calls/user/:id` payload the client reads. */
  datatype CallsPayload<C> = CallsPayload(calls: Option<seq<C>>)

  datatype CallListing<C> = CallListing(success: bool, calls: seq<C>)

  /** `getUserCalls`: always reports success with an array, empty when the request failed. */
  function GetUserCalls<C>(t: Transport<CallsPayload<C>>): (r: CallListing<C>)
    ensures r.success
    ensures t.Delivered? && t.data.calls.Some? ==> r.calls == t.data.calls.value
    ensures (t.Delivered? && t.data.calls.None?) || t.Failed? ==> r.calls == []
  {
    match t
    case Delivered(data) => CallListing(true, data.calls.GetOr([]))
    case Failed(_) => CallListing(true, [])
  }

  /** The local answer of `endCall`: the same id, ended now. */
  datatype EndValue<P> = EndedOnServer(data: P) | EndedLocally(id: string, status: Status, endedAt: int, message: string)

  const CallEndedMessage := "Call ended successfully"

  /** `endCall`: the payload on success, otherwise a local record saying the call ended now. */
  function EndCall<P>(callId: string, t: Transport<P>, now: int): (r: EndValue<P>)
    ensures t.Delivered? ==> r == EndedOnServer(t.data)
    ensures r.EndedOnServer? <==> t.Delivered?
    ensures t.Failed? ==> r == EndedLocally(callId, Ended, now, CallEndedMessage)
  {
    match t
    case Delivered(data) => EndedOnServer(data)
    case Failed(_) => EndedLocally(callId, Ended, now, CallEndedMessage)
  }

  /** The local answer agrees with what the server would have written: the same ObjectId, status ended and `endedAt` the same instant. */
  lemma LocalEndMatchesServerEnd(docs: seq<CallDoc>, callId: string, f: Failure, now: int)
    ensures var (_, resp) := CallController.EndCallSpec(docs, callId, now);
      var local := EndCall<()>(callId, Failed(f), now);
      resp.CallEnded? ==> resp.call.id == CanonicalId(local.id) && resp.call.status == local.status && resp.call.endedAt == Some(local.endedAt)
  {
  }
}
