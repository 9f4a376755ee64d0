/**
 * The voice-call handlers of the server (Backend/controllers/call.controller.js)
 * over an in-memory Call collection, in the same style as the chat handlers:
 * a specification function per handler and lemmas for what it promises.
 * Unlike `sendMessage`, `sendVoiceMessage` checks the transcription before
 * looking the call up, and the AI message carries the synthesised audio.
 */
module CallController {
  import opened Common
  import opened Conversation
  import opened CallSchema
  import Completion
  import Speech
  import JsString
  import Query
  import Base64

  /** The text-to-speech side of the server: its configuration and the providers. */
  datatype Tts = Tts(cfg: Speech.TtsConfig, synth: Speech.Attempt -> Option<seq<Base64.byte>>)

  datatype CallResponse =
    | CallCreated(call: CallDoc)
    | CallFound(call: CallDoc)
    | VoiceReply(content: string, audioUrl: Option<string>, call: CallDoc)
    | CallEnded(call: CallDoc)
    | CallList(calls: seq<CallDoc>)
    | CallDeleted
    | Failure(status: nat, message: string)

  const TranscriptionRequired: string := "Transcription is required"
  const CallNotFound: string := "Call not found"
  const VoiceCallTitle: string := "Voice Call"

  function IdOf(d: CallDoc): string {
    d.id
  }


  ghost predicate StoreInvariant(docs: seq<CallDoc>) {
    && Query.UniqueIds(docs, IdOf)
    && forall k :: 0 <= k < |docs| ==> IsStoredId(docs[k].id) && ValidCall(docs[k])
  }

  /** `startCall`: a new call titled "Voice Call" with no messages, saved under the assigned id. */
  function StartCallSpec(docs: seq<CallDoc>, userId: Option<string>, newId: string, now: int): (seq<CallDoc>, CallResponse) {
    var call := NewCall(newId, userId.GetOr([]), VoiceCallTitle, [], now);
    match Save(call, now)
    case None => (docs, Failure(500, "Server error while starting call"))
    case Some(saved) =>
      if Query.IndexOfId(docs, newId, IdOf).Some? then (docs, Failure(500, "Server error while starting call"))
      else (docs + [saved], CallCreated(saved))
  }

  function AppendTurn(d: CallDoc, user: CallMessage, ai: CallMessage, now: int): CallDoc {
    d.(messages := d.messages + [user, ai], updatedAt := now)
  }

  /** `sendVoiceMessage`: the transcription check, then the lookup, then the turn. */
  function SendVoiceMessageSpec(docs: seq<CallDoc>, callId: string, transcription: Option<string>, now: int,
                                llm: Completion.Llm, tts: Tts): (seq<CallDoc>, CallResponse) {
    if JsString.MissingOrBlank(transcription) then (docs, Failure(400, TranscriptionRequired))
    else if !IsObjectId(callId) then (docs, Failure(500, "Server error while sending voice message"))
    else match Query.IndexOfId(docs, CanonicalId(callId), IdOf)
      case None => (docs, Failure(404, CallNotFound))
      case Some(i) =>
        var user := NewCallMessage(transcription.value, User, None, now);
        var reply := Completion.AIReply(Completion.VoiceCall, llm, Turns(docs[i].messages + [user], TurnOf));
        var audioUrl := Speech.TextToSpeech(tts.cfg, reply, tts.synth).audioUrl;
        match Save(AppendTurn(docs[i], user, NewCallMessage(reply, Ai, audioUrl, now), now), now)
        case None => (docs, Failure(500, "Server error while sending voice message"))
        case Some(saved) => (docs[i := saved], VoiceReply(reply, audioUrl, saved))
  }

  /** `endCall`: status "ended" and `endedAt` now; nothing else but the save stamp changes. */
  function EndCallSpec(docs: seq<CallDoc>, callId: string, now: int): (seq<CallDoc>, CallResponse) {
    if !IsObjectId(callId) then (docs, Failure(500, "Server error while ending call"))
    else match Query.IndexOfId(docs, CanonicalId(callId), IdOf)
      case None => (docs, Failure(404, CallNotFound))
      case Some(i) =>
        match Save(docs[i].(status := Ended, endedAt := Some(now)), now)
        case None => (docs, Failure(500, "Server error while ending call"))
        case Some(saved) => (docs[i := saved], CallEnded(saved))
  }

  function UpdatedAt(d: CallDoc): int {
    d.updatedAt
  }

  function UserCalls(docs: seq<CallDoc>, userId: string): seq<CallDoc> {
    Query.SortDesc(Query.Filter(docs, (d: CallDoc) => d.userId == userId), UpdatedAt)
  }

  function GetCallSpec(docs: seq<CallDoc>, callId: string): CallResponse {
    if !IsObjectId(callId) then Failure(500, "Server error while getting call")
    else match Query.IndexOfId(docs, CanonicalId(callId), IdOf)
      case None => Failure(404, CallNotFound)
      case Some(i) => CallFound(docs[i])
  }

  function DeleteCallSpec(docs: seq<CallDoc>, callId: string): (seq<CallDoc>, CallResponse) {
    if !IsObjectId(callId) then (docs, Failure(500, "Server error while deleting call"))
    else match Query.IndexOfId(docs, CanonicalId(callId), IdOf)
      case None => (docs, Failure(404, CallNotFound))
      case Some(i) => (docs[..i] + docs[i + 1..], CallDeleted)
  }

  // ---- What the handlers promise ----

  /** A started call is active, titled "Voice Call", has no messages and no end time. */
  lemma StartCallCreatesEmptyCall(docs: seq<CallDoc>, userId: Option<string>, newId: string, now: int)
    ensures var (docs', resp) := StartCallSpec(docs, userId, newId, now);
      resp.CallCreated? ==>
        && docs' == docs + [resp.call]
        && resp.call.id == newId && resp.call.userId == userId.value
        && resp.call.title == VoiceCallTitle && resp.call.status == Active
        && resp.call.messages == [] && resp.call.endedAt == None
    ensures var (docs', resp) := StartCallSpec(docs, userId, newId, now);
      resp.Failure? ==> docs' == docs && (userId.None? || userId.value == [] || Query.IndexOfId(docs, newId, IdOf).Some?)
  {
  }

  /** Blank transcription: 400, before the call is even looked up (so also for an unknown call). */
  lemma SendVoiceRejectsBlankFirst(docs: seq<CallDoc>, callId: string, transcription: Option<string>, now: int,
                                   llm: Completion.Llm, tts: Tts)
    requires JsString.MissingOrBlank(transcription)
    ensures SendVoiceMessageSpec(docs, callId, transcription, now, llm, tts) == (docs, Failure(400, TranscriptionRequired))
  {
  }

  lemma SendVoiceUnknownCall(docs: seq<CallDoc>, callId: string, transcription: Option<string>, now: int,
                             llm: Completion.Llm, tts: Tts)
    requires !JsString.MissingOrBlank(transcription) && IsObjectId(callId)
    requires forall k :: 0 <= k < |docs| ==> docs[k].id != CanonicalId(callId)
    ensures SendVoiceMessageSpec(docs, callId, transcription, now, llm, tts) == (docs, Failure(404, CallNotFound))
  {
  }

  /**
   * A successful voice turn appends exactly the user message and then the AI
   * message with the synthesised audio URL (possibly none); the response's
   * content and audioUrl are the appended AI message's; the reply was computed
   * from the history ending with the new user message; every other call and
   * every earlier message is unchanged.
   */
  lemma SendVoiceAppendsTurn(docs: seq<CallDoc>, callId: string, transcription: Option<string>, now: int,
                             llm: Completion.Llm, tts: Tts)
    requires SendVoiceMessageSpec(docs, callId, transcription, now, llm, tts).1.VoiceReply?
    ensures var (docs', resp) := SendVoiceMessageSpec(docs, callId, transcription, now, llm, tts);
      exists i :: 0 <= i < |docs| && docs[i].id == CanonicalId(callId) && |docs'| == |docs|
        && (forall k :: 0 <= k < |docs| && k != i ==> docs'[k] == docs[k])
        && docs'[i] == resp.call
        && resp.call.(messages := docs[i].messages, updatedAt := docs[i].updatedAt) == docs[i]
        && |resp.call.messages| == |docs[i].messages| + 2
        && resp.call.messages[..|docs[i].messages|] == docs[i].messages
        && resp.call.messages[|docs[i].messages|] == NewCallMessage(transcription.value, User, None, now)
        && resp.call.messages[|docs[i].messages| + 1] == NewCallMessage(resp.content, Ai, resp.audioUrl, now)
        && resp.content == Completion.AIReply(Completion.VoiceCall, llm,
             Turns(docs[i].messages + [NewCallMessage(transcription.value, User, None, now)], TurnOf))
        && resp.audioUrl == Speech.TextToSpeech(tts.cfg, resp.content, tts.synth).audioUrl
        && resp.call.updatedAt == now
  {
    var i := Query.IndexOfId(docs, CanonicalId(callId), IdOf).value;
    var (docs', resp) := SendVoiceMessageSpec(docs, callId, transcription, now, llm, tts);
    assert docs'[i] == resp.call;
    assert resp.call.messages[..|docs[i].messages|] == docs[i].messages;
  }

  /** Ending a stored call always succeeds: status ended, endedAt now, messages and the rest untouched. */
  lemma EndCallMarksEnded(docs: seq<CallDoc>, callId: string, now: int)
    requires StoreInvariant(docs) && IsObjectId(callId)
    ensures var (docs', resp) := EndCallSpec(docs, callId, now);
      (forall k :: 0 <= k < |docs| ==> docs[k].id != CanonicalId(callId)) ==> resp == Failure(404, CallNotFound) && docs' == docs
    ensures var (docs', resp) := EndCallSpec(docs, callId, now);
      (exists k :: 0 <= k < |docs| && docs[k].id == CanonicalId(callId)) ==>
        exists i :: 0 <= i < |docs| && docs[i].id == CanonicalId(callId)
          && resp == CallEnded(docs[i].(status := Ended, endedAt := Some(now), updatedAt := now))
          && docs' == docs[i := resp.call]
          && resp.call.messages == docs[i].messages
  {
    match Query.IndexOfId(docs, CanonicalId(callId), IdOf)
    case None =>
    case Some(i) =>
      assert ValidCall(docs[i]);
      assert ValidCall(docs[i].(status := Ended, endedAt := Some(now)));
  }

  lemma UserCallsAreOwnedAndSorted(docs: seq<CallDoc>, userId: string)
    ensures forall k :: 0 <= k < |UserCalls(docs, userId)| ==> UserCalls(docs, userId)[k].userId == userId
    ensures forall d :: d in docs && d.userId == userId <==> d in UserCalls(docs, userId)
    ensures forall d: CallDoc :: d.userId == userId ==> multiset(UserCalls(docs, userId))[d] == multiset(docs)[d]
    ensures Query.SortedDesc(UserCalls(docs, userId), UpdatedAt)
  {
    Query.SortedFilter(docs, (d: CallDoc) => d.userId == userId, UpdatedAt);
  }

  lemma DeleteCallRemovesOnlyIt(docs: seq<CallDoc>, callId: string)
    requires Query.UniqueIds(docs, IdOf) && IsObjectId(callId)
    ensures var (docs', resp) := DeleteCallSpec(docs, callId);
      (forall k :: 0 <= k < |docs| ==> docs[k].id != CanonicalId(callId)) ==> resp == Failure(404, CallNotFound) && docs' == docs
    ensures var (docs', resp) := DeleteCallSpec(docs, callId);
      (exists k :: 0 <= k < |docs| && docs[k].id == CanonicalId(callId)) ==>
        resp == CallDeleted && |docs'| == |docs| - 1
        && (forall d :: d in docs' <==> d in docs && d.id != CanonicalId(callId))
  {
    match Query.IndexOfId(docs, CanonicalId(callId), IdOf)
    case None =>
    case Some(i) =>
      Query.RemoveAt(docs, i, IdOf);
  }

  /** Ids that differ only in the case of their hex letters address the same call in every lookup. */
  lemma LookupIgnoresHexCase(docs: seq<CallDoc>, a: string, b: string, transcription: Option<string>, now: int,
                             llm: Completion.Llm, tts: Tts)
    requires IsObjectId(a) && IsObjectId(b) && CanonicalId(a) == CanonicalId(b)
    ensures GetCallSpec(docs, a) == GetCallSpec(docs, b)
    ensures SendVoiceMessageSpec(docs, a, transcription, now, llm, tts) == SendVoiceMessageSpec(docs, b, transcription, now, llm, tts)
    ensures EndCallSpec(docs, a, now) == EndCallSpec(docs, b, now)
    ensures DeleteCallSpec(docs, a) == DeleteCallSpec(docs, b)
  {
  }

  /** A stored call is found under its id written with upper-case hex letters too. */
  lemma StoredCallFoundInAnyCase(docs: seq<CallDoc>, i: nat, callId: string)
    requires StoreInvariant(docs) && i < |docs|
    requires IsObjectId(callId) && CanonicalId(callId) == docs[i].id
    ensures GetCallSpec(docs, callId) == CallFound(docs[i])
  {
    var j := Query.IndexOfId(docs, CanonicalId(callId), IdOf).value;
    assert docs[j].id == docs[i].id;
  }

  // ---- The collection ----

  class CallStore {
    var docs: seq<CallDoc>

    ghost predicate Valid()
      reads this
    {
      StoreInvariant(docs)
    }

    constructor ()
      ensures Valid() && docs == []
    {
      docs := [];
    }

    method StartCall(userId: Option<string>, newId: string, now: int) returns (resp: CallResponse)
      requires Valid() && IsStoredId(newId)
      modifies this
      ensures Valid()
      ensures (docs, resp) == StartCallSpec(old(docs), userId, newId, now)
    {
      var call := NewCall(newId, userId.GetOr([]), VoiceCallTitle, [], now);
      match Save(call, now)
      case None =>
        resp := Failure(500, "Server error while starting call");
      case Some(saved) =>
        if Query.IndexOfId(docs, newId, IdOf).Some? {
          resp := Failure(500, "Server error while starting call");
        } else {
          docs := docs + [saved];
          resp := CallCreated(saved);
        }
    }

    method SendVoiceMessage(callId: string, transcription: Option<string>, now: int, llm: Completion.Llm, tts: Tts)
      returns (resp: CallResponse)
      requires Valid()
      modifies this
      ensures Valid()
      ensures (docs, resp) == SendVoiceMessageSpec(old(docs), callId, transcription, now, llm, tts)
    {
      if JsString.MissingOrBlank(transcription) {
        return Failure(400, TranscriptionRequired);
      }
      if !IsObjectId(callId) {
        return Failure(500, "Server error while sending voice message");
      }
      var found := Query.IndexOfId(docs, CanonicalId(callId), IdOf);
      if found.None? {
        return Failure(404, CallNotFound);
      }
      var i := found.value;
      var call := docs[i];
      var user := NewCallMessage(transcription.value, User, None, now);
      call := call.(messages := call.messages + [user]);
      var reply, _ := Completion.GetAIResponse(Completion.VoiceCall, llm, Turns(call.messages, TurnOf));
      var audioUrl := Speech.TextToSpeech(tts.cfg, reply, tts.synth).audioUrl;
      call := call.(messages := call.messages + [NewCallMessage(reply, Ai, audioUrl, now)]);
      call := call.(updatedAt := now);
      assert call == AppendTurn(docs[i], user, NewCallMessage(reply, Ai, audioUrl, now), now);
      match Save(call, now)
      case None =>
        resp := Failure(500, "Server error while sending voice message");
      case Some(saved) =>
        docs := docs[i := saved];
        resp := VoiceReply(reply, audioUrl, saved);
    }

    method EndCall(callId: string, now: int) returns (resp: CallResponse)
      requires Valid()
      modifies this
      ensures Valid()
      ensures (docs, resp) == EndCallSpec(old(docs), callId, now)
    {
      if !IsObjectId(callId) {
        return Failure(500, "Server error while ending call");
      }
      var found := Query.IndexOfId(docs, CanonicalId(callId), IdOf);
      if found.None? {
        return Failure(404, CallNotFound);
      }
      var i := found.value;
      var call := docs[i];
      call := call.(status := Ended);
      call := call.(endedAt := Some(now));
      match Save(call, now)
      case None =>
        resp := Failure(500, "Server error while ending call");
      case Some(saved) =>
        docs := docs[i := saved];
        resp := CallEnded(saved);
    }

    method GetUserCalls(userId: string) returns (resp: CallResponse)
      requires Valid()
      ensures resp.CallList?
      ensures forall k :: 0 <= k < |resp.calls| ==> resp.calls[k].userId == userId
      ensures forall d :: d in docs && d.userId == userId <==> d in resp.calls
      ensures Query.SortedDesc(resp.calls, UpdatedAt)
    {
      UserCallsAreOwnedAndSorted(docs, userId);
      resp := CallList(UserCalls(docs, userId));
    }

    method GetCall(callId: string) returns (resp: CallResponse)
      requires Valid()
      ensures resp == GetCallSpec(docs, callId)
      ensures resp.CallFound? ==> resp.call in docs && resp.call.id == CanonicalId(callId)
      ensures IsObjectId(callId) && (forall k :: 0 <= k < |docs| ==> docs[k].id != CanonicalId(callId)) ==> resp == Failure(404, CallNotFound)
    {
      resp := GetCallSpec(docs, callId);
    }

    method DeleteCall(callId: string) returns (resp: CallResponse)
      requires Valid()
      modifies this
      ensures Valid()
      ensures (docs, resp) == DeleteCallSpec(old(docs), callId)
    {
      if !IsObjectId(callId) {
        return Failure(500, "Server error while deleting call");
      }
      match Query.IndexOfId(docs, CanonicalId(callId), IdOf)
      case None =>
        resp := Failure(404, CallNotFound);
      case Some(i) =>
        DeleteCallRemovesOnlyIt(docs, callId);
        docs := docs[..i] + docs[i + 1..];
        resp := CallDeleted;
    }
  }
}
