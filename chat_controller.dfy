/**
 * The chat handlers of the server (Backend/controllers/chat.controller.js)
 * over an in-memory Chat collection. Each handler's effect on the collection
 * and its response are given by a specification function of the old
 * collection and the inputs; the lemmas state what the handlers promise.
 *
 * Inputs that the source obtains from elsewhere are parameters: the current
 * time `now`, the id the database assigns to a new document, and the
 * completion endpoint `llm`.
 */
module ChatController {
  import opened Common
  import opened Conversation
  import opened ChatSchema
  import Completion
  import JsString
  import Query

  datatype CreateChatBody = CreateChatBody(userId: Option<string>, message: Option<string>, isVoice: Option<bool>, transcription: Option<string>)

  datatype SendMessageBody = SendMessageBody(message: Option<string>, isVoice: Option<bool>, transcription: Option<string>)

  /** The JSON responses: 201/200 with a chat, 200 with a list, 200 on deletion, or an error status with its message. */
  datatype ChatResponse =
    | ChatCreated(chat: ChatDoc)
    | ChatFound(chat: ChatDoc)
    | ChatList(chats: seq<ChatDoc>)
    | ChatDeleted
    | Failure(status: nat, message: string)

  const ContentRequired: string := "Message content is required"
  const ChatNotFound: string := "Chat not found"

  /** `isVoice ? transcription : message`. */
  function MessageContent(isVoice: Option<bool>, message: Option<string>, transcription: Option<string>): (c: Option<string>)
    ensures isVoice == Some(true) ==> c == transcription
    ensures isVoice != Some(true) ==> c == message
  {
    if isVoice == Some(true) then transcription else message
  }

  function IdOf(d: ChatDoc): string {
    d.id
  }


  /** What the collection always satisfies: distinct ObjectIds and documents that passed validation. */
  ghost predicate StoreInvariant(docs: seq<ChatDoc>) {
    && Query.UniqueIds(docs, IdOf)
    && forall k :: 0 <= k < |docs| ==> IsStoredId(docs[k].id) && ValidChat(docs[k])
  }

  /** Saving a new document: validation, pre-save, and the unique index on `_id`. */
  function InsertNew(docs: seq<ChatDoc>, d: ChatDoc, now: int): (seq<ChatDoc>, ChatResponse) {
    match Save(d, now)
    case None => (docs, Failure(500, "Server error while creating chat"))
    case Some(saved) =>
      if Query.IndexOfId(docs, d.id, IdOf).Some? then (docs, Failure(500, "Server error while creating chat"))
      else (docs + [saved], ChatCreated(saved))
  }

  /** The stored user message of a turn. */
  function UserMessage(content: string, isVoice: Option<bool>, now: int): Message {
    NewMessage(content, User, isVoice, now)
  }

  /** The stored AI message of a turn: no isVoice given, so it takes the default. */
  function AiMessage(reply: string, now: int): Message {
    NewMessage(reply, Ai, None, now)
  }

  /** `createChat`. */
  function CreateChatSpec(docs: seq<ChatDoc>, body: CreateChatBody, newId: string, now: int, llm: Completion.Llm): (seq<ChatDoc>, ChatResponse) {
    var content := MessageContent(body.isVoice, body.message, body.transcription);
    if JsString.MissingOrBlank(content) then (docs, Failure(400, ContentRequired))
    else
      var title := Completion.GenerateChatTitle(llm, content.value);
      var reply := Completion.AIReply(Completion.TextChat, llm, [Turn(User, content.value)]);
      var chat := NewChat(newId, body.userId.GetOr([]), title,
                          [UserMessage(content.value, body.isVoice, now), AiMessage(reply, now)], now);
      InsertNew(docs, chat, now)
  }

  /** A turn appended to a chat: the two new messages after all old ones, and a fresh `updatedAt`. */
  function AppendTurn(d: ChatDoc, user: Message, ai: Message, now: int): ChatDoc {
    d.(messages := d.messages + [user, ai], updatedAt := now)
  }

  /** `sendMessage`: the lookup comes first, then the content check. */
  function SendMessageSpec(docs: seq<ChatDoc>, chatId: string, body: SendMessageBody, now: int, llm: Completion.Llm): (seq<ChatDoc>, ChatResponse) {
    if !IsObjectId(chatId) then (docs, Failure(500, "Server error while sending message"))
    else match Query.IndexOfId(docs, CanonicalId(chatId), IdOf)
      case None => (docs, Failure(404, ChatNotFound))
      case Some(i) =>
        var content := MessageContent(body.isVoice, body.message, body.transcription);
        if JsString.MissingOrBlank(content) then (docs, Failure(400, ContentRequired))
        else
          var user := UserMessage(content.value, body.isVoice, now);
          var reply := Completion.AIReply(Completion.TextChat, llm, Turns(docs[i].messages + [user], TurnOf));
          match Save(AppendTurn(docs[i], user, AiMessage(reply, now), now), now)
          case None => (docs, Failure(500, "Server error while sending message"))
          case Some(saved) => (docs[i := saved], ChatFound(saved))
  }

  function UpdatedAt(d: ChatDoc): int {
    d.updatedAt
  }

  /** `find({ userId }).sort({ updatedAt: -1 })`. */
  function UserChats(docs: seq<ChatDoc>, userId: string): seq<ChatDoc> {
    Query.SortDesc(Query.Filter(docs, (d: ChatDoc) => d.userId == userId), UpdatedAt)
  }

  function GetChatSpec(docs: seq<ChatDoc>, chatId: string): ChatResponse {
    if !IsObjectId(chatId) then Failure(500, "Server error while getting chat")
    else match Query.IndexOfId(docs, CanonicalId(chatId), IdOf)
      case None => Failure(404, ChatNotFound)
      case Some(i) => ChatFound(docs[i])
  }

  /** `findByIdAndDelete`. */
  function DeleteChatSpec(docs: seq<ChatDoc>, chatId: string): (seq<ChatDoc>, ChatResponse) {
    if !IsObjectId(chatId) then (docs, Failure(500, "Server error while deleting chat"))
    else match Query.IndexOfId(docs, CanonicalId(chatId), IdOf)
      case None => (docs, Failure(404, ChatNotFound))
      case Some(i) => (docs[..i] + docs[i + 1..], ChatDeleted)
  }

  // ---- What the handlers promise ----

  /** Absent or whitespace-only content is refused with 400 before anything is generated or saved. */
  lemma CreateChatRejectsMissingContent(docs: seq<ChatDoc>, body: CreateChatBody, newId: string, now: int, llm: Completion.Llm)
    requires JsString.MissingOrBlank(MessageContent(body.isVoice, body.message, body.transcription))
    ensures CreateChatSpec(docs, body, newId, now, llm) == (docs, Failure(400, ContentRequired))
  {
  }

  /**
   * A created chat holds exactly the user message (with its isVoice flag) and
   * then the AI reply, and the reply is computed from that single message.
   * On any failure the collection is unchanged; on success it gains exactly
   * the new chat.
   */
  lemma CreateChatBuildsTwoMessages(docs: seq<ChatDoc>, body: CreateChatBody, newId: string, now: int, llm: Completion.Llm)
    ensures var (docs', resp) := CreateChatSpec(docs, body, newId, now, llm);
      resp.Failure? ==> docs' == docs
    ensures var (docs', resp) := CreateChatSpec(docs, body, newId, now, llm);
      var content := MessageContent(body.isVoice, body.message, body.transcription);
      resp.ChatCreated? ==>
        && !JsString.MissingOrBlank(content)
        && docs' == docs + [resp.chat]
        && resp.chat.id == newId && resp.chat.userId == body.userId.value
        && resp.chat.title == Completion.GenerateChatTitle(llm, content.value)
        && |resp.chat.messages| == 2
        && resp.chat.messages[0].sender == User && resp.chat.messages[0].content == content.value
        && (resp.chat.messages[0].isVoice <==> body.isVoice == Some(true))
        && resp.chat.messages[1].sender == Ai && !resp.chat.messages[1].isVoice
        && resp.chat.messages[1].content == Completion.AIReply(Completion.TextChat, llm, [Turn(User, content.value)])
        && resp.chat.createdAt == now && resp.chat.updatedAt == now
    ensures var (_, resp) := CreateChatSpec(docs, body, newId, now, llm);
      resp.Failure? || resp.ChatCreated?
  {
  }

  /** An unknown chat id gives 404 and no change, whatever the content: the lookup comes before validation. */
  lemma SendMessageUnknownChat(docs: seq<ChatDoc>, chatId: string, body: SendMessageBody, now: int, llm: Completion.Llm)
    requires IsObjectId(chatId) && forall k :: 0 <= k < |docs| ==> docs[k].id != CanonicalId(chatId)
    ensures SendMessageSpec(docs, chatId, body, now, llm) == (docs, Failure(404, ChatNotFound))
  {
  }

  /** For a chat that exists, blank content is refused with 400 and nothing changes. */
  lemma SendMessageRejectsMissingContent(docs: seq<ChatDoc>, chatId: string, body: SendMessageBody, now: int, llm: Completion.Llm)
    requires IsObjectId(chatId) && Query.IndexOfId(docs, CanonicalId(chatId), IdOf).Some?
    requires JsString.MissingOrBlank(MessageContent(body.isVoice, body.message, body.transcription))
    ensures SendMessageSpec(docs, chatId, body, now, llm) == (docs, Failure(400, ContentRequired))
  {
  }

  /**
   * A successful turn replaces only the addressed chat; in it, every earlier
   * message is kept, exactly two are appended (the user's, then the AI's),
   * the reply was computed from the whole history ending with the new user
   * message, and `updatedAt` is the current time.
   */
  lemma SendMessageAppendsTurn(docs: seq<ChatDoc>, chatId: string, body: SendMessageBody, now: int, llm: Completion.Llm)
    requires SendMessageSpec(docs, chatId, body, now, llm).1.ChatFound?
    ensures var (docs', resp) := SendMessageSpec(docs, chatId, body, now, llm);
      var content := MessageContent(body.isVoice, body.message, body.transcription);
      exists i :: 0 <= i < |docs| && docs[i].id == CanonicalId(chatId) && |docs'| == |docs|
        && (forall k :: 0 <= k < |docs| && k != i ==> docs'[k] == docs[k])
        && docs'[i] == resp.chat
        && resp.chat.(messages := docs[i].messages, updatedAt := docs[i].updatedAt) == docs[i]
        && |resp.chat.messages| == |docs[i].messages| + 2
        && resp.chat.messages[..|docs[i].messages|] == docs[i].messages
        && resp.chat.messages[|docs[i].messages|] == UserMessage(content.value, body.isVoice, now)
        && resp.chat.messages[|docs[i].messages| + 1] ==
             AiMessage(Completion.AIReply(Completion.TextChat, llm,
               Turns(docs[i].messages + [UserMessage(content.value, body.isVoice, now)], TurnOf)), now)
        && resp.chat.updatedAt == now
  {
    var i := Query.IndexOfId(docs, CanonicalId(chatId), IdOf).value;
    var (docs', resp) := SendMessageSpec(docs, chatId, body, now, llm);
    assert docs'[i] == resp.chat;
    assert resp.chat.messages[..|docs[i].messages|] == docs[i].messages;
  }

  /** The history the reply is computed from ends with the message just appended. */
  lemma HistoryEndsWithUserMessage(ms: seq<Message>, user: Message)
    ensures var h := Turns(ms + [user], TurnOf);
      |h| == |ms| + 1 && h[|ms|] == Turn(user.sender, user.content) && h[..|ms|] == Turns(ms, TurnOf)
  {
    var h := Turns(ms + [user], TurnOf);
    assert forall k :: 0 <= k < |ms| ==> h[..|ms|][k] == Turns(ms, TurnOf)[k];
  }

  /** The user's chats, newest first: only the owner's documents, each once, sorted by updatedAt descending. */
  lemma UserChatsAreOwnedAndSorted(docs: seq<ChatDoc>, userId: string)
    ensures forall k :: 0 <= k < |UserChats(docs, userId)| ==> UserChats(docs, userId)[k].userId == userId
    ensures forall d :: d in docs && d.userId == userId <==> d in UserChats(docs, userId)
    ensures forall d: ChatDoc :: d.userId == userId ==> multiset(UserChats(docs, userId))[d] == multiset(docs)[d]
    ensures Query.SortedDesc(UserChats(docs, userId), UpdatedAt)
  {
    Query.SortedFilter(docs, (d: ChatDoc) => d.userId == userId, UpdatedAt);
  }

  /** Deleting removes exactly the addressed chat; an absent id gives 404 and no change. */
  lemma DeleteChatRemovesOnlyIt(docs: seq<ChatDoc>, chatId: string)
    requires Query.UniqueIds(docs, IdOf) && IsObjectId(chatId)
    ensures var (docs', resp) := DeleteChatSpec(docs, chatId);
      (forall k :: 0 <= k < |docs| ==> docs[k].id != CanonicalId(chatId)) ==> resp == Failure(404, ChatNotFound) && docs' == docs
    ensures var (docs', resp) := DeleteChatSpec(docs, chatId);
      (exists k :: 0 <= k < |docs| && docs[k].id == CanonicalId(chatId)) ==>
        resp == ChatDeleted && |docs'| == |docs| - 1
        && (forall d :: d in docs' <==> d in docs && d.id != CanonicalId(chatId))
  {
    match Query.IndexOfId(docs, CanonicalId(chatId), IdOf)
    case None =>
    case Some(i) =>
      Query.RemoveAt(docs, i, IdOf);
  }

  /** Ids that differ only in the case of their hex letters address the same chat in every lookup. */
  lemma LookupIgnoresHexCase(docs: seq<ChatDoc>, a: string, b: string, body: SendMessageBody, now: int, llm: Completion.Llm)
    requires IsObjectId(a) && IsObjectId(b) && CanonicalId(a) == CanonicalId(b)
    ensures GetChatSpec(docs, a) == GetChatSpec(docs, b)
    ensures SendMessageSpec(docs, a, body, now, llm) == SendMessageSpec(docs, b, body, now, llm)
    ensures DeleteChatSpec(docs, a) == DeleteChatSpec(docs, b)
  {
  }

  /** A stored chat is found under its id written with upper-case hex letters too. */
  lemma StoredChatFoundInAnyCase(docs: seq<ChatDoc>, i: nat, chatId: string)
    requires StoreInvariant(docs) && i < |docs|
    requires IsObjectId(chatId) && CanonicalId(chatId) == docs[i].id
    ensures GetChatSpec(docs, chatId) == ChatFound(docs[i])
  {
    var j := Query.IndexOfId(docs, CanonicalId(chatId), IdOf).value;
    assert docs[j].id == docs[i].id;
  }

  /** `findById("AAAAAAAAAAAAAAAAAAAAAAAA")` finds the chat stored as `aaaaaaaaaaaaaaaaaaaaaaaa`. */
  lemma UpperCaseIdExample(d: ChatDoc)
    requires d.id == "aaaaaaaaaaaaaaaaaaaaaaaa" && ValidChat(d)
    ensures GetChatSpec([d], "AAAAAAAAAAAAAAAAAAAAAAAA") == ChatFound(d)
  {
    var upper := "AAAAAAAAAAAAAAAAAAAAAAAA";
    assert IsObjectId(upper);
    assert CanonicalId(upper) == d.id;
  }

  // ---- The collection ----

  class ChatStore {
    var docs: seq<ChatDoc>

    ghost predicate Valid()
      reads this
    {
      StoreInvariant(docs)
    }

    constructor ()
      ensures Valid() && docs == []
    {
      docs := [];
    }

    method CreateChat(body: CreateChatBody, newId: string, now: int, llm: Completion.Llm) returns (resp: ChatResponse)
      requires Valid() && IsStoredId(newId)
      modifies this
      ensures Valid()
      ensures (docs, resp) == CreateChatSpec(old(docs), body, newId, now, llm)
    {
      var content := MessageContent(body.isVoice, body.message, body.transcription);
      if JsString.MissingOrBlank(content) {
        return Failure(400, ContentRequired);
      }
      var title := Completion.GenerateChatTitle(llm, content.value);
      var chat := NewChat(newId, body.userId.GetOr([]), title, [UserMessage(content.value, body.isVoice, now)], now);
      var reply, _ := Completion.GetAIResponse(Completion.TextChat, llm, [Turn(User, content.value)]);
      chat := chat.(messages := chat.messages + [AiMessage(reply, now)]);
      assert chat == NewChat(newId, body.userId.GetOr([]), title,
                             [UserMessage(content.value, body.isVoice, now), AiMessage(reply, now)], now);
      match Save(chat, now)
      case None =>
        resp := Failure(500, "Server error while creating chat");
      case Some(saved) =>
        if Query.IndexOfId(docs, newId, IdOf).Some? {
          resp := Failure(500, "Server error while creating chat");
        } else {
          docs := docs + [saved];
          resp := ChatCreated(saved);
        }
    }

    method SendMessage(chatId: string, body: SendMessageBody, now: int, llm: Completion.Llm) returns (resp: ChatResponse)
      requires Valid()
      modifies this
      ensures Valid()
      ensures (docs, resp) == SendMessageSpec(old(docs), chatId, body, now, llm)
    {
      if !IsObjectId(chatId) {
        return Failure(500, "Server error while sending message");
      }
      var found := Query.IndexOfId(docs, CanonicalId(chatId), IdOf);
      if found.None? {
        return Failure(404, ChatNotFound);
      }
      var i := found.value;
      var content := MessageContent(body.isVoice, body.message, body.transcription);
      if JsString.MissingOrBlank(content) {
        return Failure(400, ContentRequired);
      }
      var chat := docs[i];
      var user := UserMessage(content.value, body.isVoice, now);
      chat := chat.(messages := chat.messages + [user]);
      var reply, _ := Completion.GetAIResponse(Completion.TextChat, llm, Turns(chat.messages, TurnOf));
      chat := chat.(messages := chat.messages + [AiMessage(reply, now)]);
      chat := chat.(updatedAt := now);
      assert chat == AppendTurn(docs[i], user, AiMessage(reply, now), now);
      match Save(chat, now)
      case None =>
        resp := Failure(500, "Server error while sending message");
      case Some(saved) =>
        docs := docs[i := saved];
        resp := ChatFound(saved);
    }

    method GetUserChats(userId: string) returns (resp: ChatResponse)
      requires Valid()
      ensures resp.ChatList?
      ensures forall k :: 0 <= k < |resp.chats| ==> resp.chats[k].userId == userId
      ensures forall d :: d in docs && d.userId == userId <==> d in resp.chats
      ensures Query.SortedDesc(resp.chats, UpdatedAt)
    {
      UserChatsAreOwnedAndSorted(docs, userId);
      resp := ChatList(UserChats(docs, userId));
    }

    method GetChat(chatId: string) returns (resp: ChatResponse)
      requires Valid()
      ensures resp == GetChatSpec(docs, chatId)
      ensures resp.ChatFound? ==> resp.chat in docs && resp.chat.id == CanonicalId(chatId)
      ensures IsObjectId(chatId) && (forall k :: 0 <= k < |docs| ==> docs[k].id != CanonicalId(chatId)) ==> resp == Failure(404, ChatNotFound)
    {
      resp := GetChatSpec(docs, chatId);
    }

    method DeleteChat(chatId: string) returns (resp: ChatResponse)
      requires Valid()
      modifies this
      ensures Valid()
      ensures (docs, resp) == DeleteChatSpec(old(docs), chatId)
    {
      if !IsObjectId(chatId) {
        return Failure(500, "Server error while deleting chat");
      }
      match Query.IndexOfId(docs, CanonicalId(chatId), IdOf)
      case None =>
        resp := Failure(404, ChatNotFound);
      case Some(i) =>
        DeleteChatRemovesOnlyIt(docs, chatId);
        docs := docs[..i] + docs[i + 1..];
        resp := ChatDeleted;
    }
  }
}
