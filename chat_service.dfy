/**
 * The chat client (Frontend/src/services/chatService.js). Each function maps the
 * outcome of one backend request to what it resolves with: the server payload
 * unchanged, an offline stand-in built in the browser, or the error rethrown.
 */
module ChatService {
  import opened Common
  import opened JsString
  import opened Conversation
  import opened Http

  /** The request body the chat page posts. */
  datatype ChatBody = ChatBody(message: Option<string>, transcription: Option<string>, isVoice: Option<bool>)

  /** A message built in the browser; fields the source may leave `undefined` are optional. */
  datatype LocalMessage = LocalMessage(content: Option<string>, sender: Sender, timestamp: int, isVoice: Option<bool>)

  /** An offline chat; the `sendMessage` stand-in has no title. */
  datatype LocalChat = LocalChat(id: string, title: Option<string>, messages: seq<LocalMessage>)

  /** What a successful call resolves with: the server's payload, or `{success: true, chat}` made up locally. */
  datatype ChatValue<P> = FromServer(data: P) | Offline(chat: LocalChat)

  const LocalPrefix := "local-"
  const NewConversationTitle := "New Conversation"
  const OfflineGreeting := "I'm here to help with your mental health questions. How are you feeling today?"
  const OfflineReply := "I understand you're feeling that way. Would you like to talk more about it?"

  /** `"local-" + Date.now()`: the id of a chat (or call) made up in the browser. */
  function LocalId(now: nat): (id: string)
    ensures StartsWith(id, LocalPrefix)
    ensures forall i :: |LocalPrefix| <= i < |id| ==> IsDigit(id[i])
  {
    LocalPrefix + NatToString(now)
  }

  /** Two offline records made at different instants never share an id. */
  lemma LocalIdsDistinct(t1: nat, t2: nat)
    requires t1 != t2
    ensures LocalId(t1) != LocalId(t2)
  {
    DigitsValueOfNatToString(t1);
    DigitsValueOfNatToString(t2);
    assert LocalId(t1)[|LocalPrefix|..] == NatToString(t1);
    assert LocalId(t2)[|LocalPrefix|..] == NatToString(t2);
  }

  /** No ObjectId issued by the server looks like an offline id, since 'l' is not a hex digit. */
  lemma ObjectIdsAreNotLocal(id: string)
    requires IsObjectId(id)
    ensures !StartsWith(id, LocalPrefix)
  {
    assert IsHexDigit(id[0]) && id[..|LocalPrefix|][0] == id[0];
  }

  /** `data.message || data.transcription`: the typed text unless it is absent or empty. */
  function UserContent(body: ChatBody): Option<string> {
    if Truthy(body.message) then body.message else body.transcription
  }

  /** The two stand-in messages: the user's own content and `isVoice` flag, then the fixed AI text. */
  function OfflineTurn(body: ChatBody, aiText: string, now: int): seq<LocalMessage> {
    [LocalMessage(UserContent(body), User, now, body.isVoice), LocalMessage(Some(aiText), Ai, now, None)]
  }

  /** `createChat`: the payload on success, a local chat when the server is unreachable, otherwise rethrow. */
  function CreateChat<P>(body: ChatBody, t: Transport<P>, now: nat): (r: Settled<ChatValue<P>>)
    ensures t.Delivered? ==> r == Returned(FromServer(t.data))
    ensures t.Failed? && t.failure.HttpFailure? ==> r == Rethrown(t.failure)
    ensures t.Failed? && t.failure.NoResponse? ==>
      && r.Returned? && r.value.Offline?
      && StartsWith(r.value.chat.id, LocalPrefix)
      && r.value.chat.title == Some(NewConversationTitle)
      && |r.value.chat.messages| == 2
      && r.value.chat.messages[0].sender == User && r.value.chat.messages[1].sender == Ai
      && r.value.chat.messages[1].content == Some(OfflineGreeting)
  {
    match t
    case Delivered(data) => Returned(FromServer(data))
    case Failed(f) =>
      if f.NoResponse? then
        Returned(Offline(LocalChat(LocalId(now), Some(NewConversationTitle), OfflineTurn(body, OfflineGreeting, now))))
      else Rethrown(f)
  }

  /** The offline user message keeps what was typed, or the transcription when nothing was typed, and the voice flag. */
  lemma OfflineUserMessage(body: ChatBody, m: string, now: nat)
    ensures var r := CreateChat<()>(body, Failed(NoResponse(m)), now);
      && r.value.chat.messages[0].isVoice == body.isVoice
      && (body.message.Some? && body.message.value != [] ==> r.value.chat.messages[0].content == body.message)
      && (body.message == None || body.message == Some([]) ==> r.value.chat.messages[0].content == body.transcription)
  {
  }

  /** `sendMessage`: falls back only for an offline chat that cannot reach the server; any other failure is rethrown. */
  function SendMessage<P>(chatId: string, body: ChatBody, t: Transport<P>, now: nat): (r: Settled<ChatValue<P>>)
    ensures t.Delivered? ==> r == Returned(FromServer(t.data))
    ensures r.Returned? && r.value.Offline? <==> t.Failed? && t.failure.NoResponse? && StartsWith(chatId, LocalPrefix)
    ensures r.Returned? && r.value.Offline? ==>
      && r.value.chat.id == chatId && r.value.chat.title == None
      && |r.value.chat.messages| == 2
      && r.value.chat.messages[0] == LocalMessage(UserContent(body), User, now, body.isVoice)
      && r.value.chat.messages[1].content == Some(OfflineReply)
    ensures r.Rethrown? <==> t.Failed? && !(t.failure.NoResponse? && StartsWith(chatId, LocalPrefix))
    ensures r.Rethrown? ==> r.failure == t.failure
  {
    match t
    case Delivered(data) => Returned(FromServer(data))
    case Failed(f) =>
      if f.NoResponse? && StartsWith(chatId, LocalPrefix) then
        Returned(Offline(LocalChat(chatId, None, OfflineTurn(body, OfflineReply, now))))
      else Rethrown(f)
  }

  /** A chat created while offline goes on answering offline under the same id. */
  lemma OfflineChatStaysOffline(first: ChatBody, next: ChatBody, m1: string, m2: string, t1: nat, t2: nat)
    ensures var created := CreateChat<()>(first, Failed(NoResponse(m1)), t1);
      var sent := SendMessage<()>(created.value.chat.id, next, Failed(NoResponse(m2)), t2);
      sent.Returned? && sent.value.Offline? && sent.value.chat.id == created.value.chat.id
  {
  }

  /** A chat the server created is never answered locally: an unreachable server makes `sendMessage` throw. */
  lemma ServerChatNeverFallsBack(chatId: string, body: ChatBody, f: Failure, now: nat)
    requires IsObjectId(chatId)
    ensures SendMessage<()>(chatId, body, Failed(f), now) == Rethrown(f)
  {
    ObjectIdsAreNotLocal(chatId);
  }

  /** The part of the `GET /chats/user/:id` payload the client reads. */
  datatype ChatsPayload<C> = ChatsPayload(chats: Option<seq<C>>)

  datatype ChatListing<C> = ChatListing(success: bool, chats: seq<C>, error: Option<string>)

  /** `getUserChats`: never throws and always yields an array; a failure is reported with its message. */
  function GetUserChats<C>(t: Transport<ChatsPayload<C>>): (r: ChatListing<C>)
    ensures r.success <==> t.Delivered?
    ensures r.error.Some? <==> !r.success
    ensures t.Delivered? && t.data.chats.Some? ==> r.chats == t.data.chats.value
    ensures t.Delivered? && t.data.chats.None? ==> r.chats == []
    ensures t.Failed? ==> r.chats == [] && r.error == Some(t.failure.message)
  {
    match t
    case Delivered(data) => ChatListing(true, data.chats.GetOr([]), None)
    case Failed(f) => ChatListing(false, [], Some(f.message))
  }
}
