/**
 * The chat page's conversation state (Frontend/src/pages/ChatPage.jsx): the
 * input box, the last transcript, the listed messages, the current chat, and
 * the recording flags that the speech-recognition handlers and the send
 * guards flip. Every handler runs to completion before the next event; the
 * 300 ms timers the page schedules are events of their own.
 */
module ChatPage {
  import opened Common
  import opened JsString
  import opened Conversation
  import opened ChatSchema
  import opened Http
  import Transcript
  import ChatService

  /** What `createChat`/`sendMessage` resolve with on success: `{success, chat}`. */
  datatype ChatPayload = ChatPayload(chat: ChatDoc)

  /** A listed message: server messages and browser-made ones, with the fields the page reads. */
  type UiMessage = ChatService.LocalMessage

  function Shown(m: Message): UiMessage {
    ChatService.LocalMessage(Some(m.content), m.sender, m.timestamp, Some(m.isVoice))
  }

  function ShownAll(ms: seq<Message>): (r: seq<UiMessage>)
    ensures |r| == |ms|
    ensures forall i :: 0 <= i < |ms| ==> r[i] == Shown(ms[i])
  {
    seq(|ms|, i requires 0 <= i < |ms| => Shown(ms[i]))
  }

  /** `response.chat._id` and `response.chat.messages`, whichever kind of chat came back. */
  function ChatIdOf(v: ChatService.ChatValue<ChatPayload>): string {
    match v
    case FromServer(p) => p.chat.id
    case Offline(c) => c.id
  }

  function MessagesOf(v: ChatService.ChatValue<ChatPayload>): seq<UiMessage> {
    match v
    case FromServer(p) => ShownAll(p.chat.messages)
    case Offline(c) => c.messages
  }

  /** The body `handleSendMessage` posts, or none when the guard returns early. */
  function TextRequest(message: string): (r: Option<ChatService.ChatBody>)
    ensures r.None? <==> IsBlank(message)
    ensures r.Some? ==> r.value.message == Some(message) && r.value.isVoice == Some(false) && r.value.transcription == None
  {
    if IsBlank(message) then None else Some(ChatService.ChatBody(Some(message), None, Some(false)))
  }

  /** The body `handleSendVoiceMessage` posts: an empty message with the transcript as transcription. */
  function VoiceRequest(transcript: string): (r: Option<ChatService.ChatBody>)
    ensures r.None? <==> IsBlank(transcript)
    ensures r.Some? ==> r.value.message == Some("") && r.value.isVoice == Some(true) && r.value.transcription == Some(transcript)
  {
    if IsBlank(transcript) then None else Some(ChatService.ChatBody(Some(""), Some(transcript), Some(true)))
  }

  /** The message listed before the server answers. */
  function Optimistic(body: ChatService.ChatBody, now: int): UiMessage {
    if body.isVoice == Some(true) then ChatService.LocalMessage(body.transcription, User, now, Some(true))
    else ChatService.LocalMessage(body.message, User, now, None)
  }

  /** The request itself: a new chat when there is no current one, otherwise a message to it. */
  function Post(chatId: Option<string>, body: ChatService.ChatBody, t: Transport<ChatPayload>, now: nat): Settled<ChatService.ChatValue<ChatPayload>> {
    if Truthy(chatId) then ChatService.SendMessage(chatId.value, body, t, now)
    else ChatService.CreateChat(body, t, now)
  }

  /** The page's state between events. */
  datatype Page = Page(
    message: string, transcript: string, messages: seq<UiMessage>, chatId: Option<string>,
    isRecording: bool, isVoiceMode: bool, isLoading: bool,
    restartTimers: nat, stopTimers: seq<string>)

  /** One send, from the optimistic append to the `finally`: the listed messages become the ones returned, or stay as they were on a failure. */
  function Send(p: Page, body: ChatService.ChatBody, t: Transport<ChatPayload>, now: nat): Page {
    var listed := p.messages + [Optimistic(body, now)];
    match Post(p.chatId, body, t, now)
    case Returned(v) =>
      p.(message := "", messages := MessagesOf(v), isLoading := false,
         chatId := if Truthy(p.chatId) then p.chatId else Some(ChatIdOf(v)))
    case Rethrown(_) =>
      p.(message := "", messages := listed, isLoading := false)
  }

  /** `handleSendMessage`. */
  function SendText(p: Page, t: Transport<ChatPayload>, now: nat): Page {
    match TextRequest(p.message)
    case None => p
    case Some(body) => Send(p, body, t, now)
  }

  /** `handleSendVoiceMessage` on the transcript its closure holds. */
  function SendVoice(p: Page, transcript: string, t: Transport<ChatPayload>, now: nat): Page {
    match VoiceRequest(transcript)
    case None => p
    case Some(body) => Send(p, body, t, now).(transcript := "", isVoiceMode := false)
  }

  /** `onresult`: the assembled transcript fills both the transcript and the input box. */
  function Heard(p: Page, current: string): Page {
    p.(transcript := current, message := current)
  }

  /** `onerror`: recording and voice mode end. */
  function RecognitionFailed(p: Page): Page {
    p.(isRecording := false, isVoiceMode := false)
  }

  /** `startRecording`: clear the transcript and start, or stop and schedule a restart when already recording. */
  function StartRecording(p: Page, available: bool): Page {
    if !available then p.(isVoiceMode := false)
    else if p.isRecording then p.(transcript := "", restartTimers := p.restartTimers + 1)
    else p.(transcript := "", isRecording := true)
  }

  /** The restart timer of `startRecording`. */
  function RestartFired(p: Page): Page {
    if p.restartTimers == 0 then p else p.(isRecording := true, restartTimers := p.restartTimers - 1)
  }

  /** `stopRecording`: only while recording; the timer it schedules keeps the transcript of that moment. */
  function StopRecording(p: Page, available: bool): Page {
    if available && p.isRecording then p.(stopTimers := p.stopTimers + [p.transcript]) else p
  }

  /** `toggleVoiceMode`. */
  function Toggle(p: Page, available: bool): Page {
    if !p.isVoiceMode then StartRecording(p.(isVoiceMode := true), available) else StopRecording(p, available)
  }

  /** The oldest stop timer: the captured transcript is sent when it is not blank, then recording and voice mode end. */
  function StopFired(p: Page, t: Transport<ChatPayload>, now: nat): Page {
    if p.stopTimers == [] then p
    else SendVoice(p.(stopTimers := p.stopTimers[1..]), p.stopTimers[0], t, now).(isRecording := false, isVoiceMode := false)
  }

  /** `handleNewChat`: the list empties and no chat is current (the drawer is not modelled). */
  function StartNewChat(p: Page): Page {
    p.(messages := [], chatId := None)
  }

  /**
   * `handleDeleteChat` after `deleteChat(target)` settled: when the delete
   * went through and the target is the current chat, the page resets as for a
   * new chat; a failed delete or another chat leaves it as it was.
   */
  function DeletedChat(p: Page, target: string, deleted: bool): Page {
    if deleted && p.chatId == Some(target) then p.(messages := [], chatId := None) else p
  }

  /**
   * `loadChat(chatId)` after `getChat(chatId)` settled: the chat's stored
   * messages are listed and it becomes current; when the request fails the
   * page resets to a new chat. Loading ends either way.
   */
  function LoadedChat(p: Page, chatId: string, t: Transport<ChatPayload>): Page {
    match t
    case Delivered(payload) => p.(messages := ShownAll(payload.chat.messages), chatId := Some(chatId), isLoading := false)
    case Failed(_) => p.(messages := [], chatId := None, isLoading := false)
  }

  /**
   * After a load, the list shows that chat's messages and the next message
   * goes to it; after a failed load the page is as after a new chat, and the
   * next message creates one.
   */
  lemma LoadChatTargetsNextSend(p: Page, chatId: string, t: Transport<ChatPayload>,
                                body: ChatService.ChatBody, t': Transport<ChatPayload>, now: nat)
    ensures t.Delivered? ==> LoadedChat(p, chatId, t).messages == ShownAll(t.data.chat.messages)
    ensures t.Delivered? && chatId != "" ==>
      Post(LoadedChat(p, chatId, t).chatId, body, t', now) == ChatService.SendMessage(chatId, body, t', now)
    ensures t.Failed? ==> LoadedChat(p, chatId, t) == StartNewChat(p).(isLoading := false)
    ensures t.Failed? ==> Post(LoadedChat(p, chatId, t).chatId, body, t', now) == ChatService.CreateChat(body, t', now)
  {
  }

  /** After a new chat, the list is empty and the next message creates a chat instead of posting to the old one. */
  lemma NewChatCreatesOnNextSend(p: Page, body: ChatService.ChatBody, t: Transport<ChatPayload>, now: nat)
    ensures StartNewChat(p).messages == [] && StartNewChat(p).chatId.None?
    ensures Post(StartNewChat(p).chatId, body, t, now) == ChatService.CreateChat(body, t, now)
    ensures StartNewChat(p).(messages := p.messages, chatId := p.chatId) == p
  {
  }

  /** Deleting resets the page exactly when the delete succeeded on the current chat, and then as a new chat does. */
  lemma DeleteResetsOnlyCurrent(p: Page, target: string, deleted: bool)
    ensures deleted && p.chatId == Some(target) ==> DeletedChat(p, target, deleted) == StartNewChat(p)
    ensures !deleted || p.chatId != Some(target) ==> DeletedChat(p, target, deleted) == p
  {
  }

  /** A blank input sends nothing and changes nothing. */
  lemma BlankTextNeverSent(p: Page, t: Transport<ChatPayload>, now: nat)
    requires IsBlank(p.message)
    ensures SendText(p, t, now) == p
  {
  }

  /** A blank captured transcript sends nothing: the list, the chat and the input box stay as they were. */
  lemma BlankTranscriptNeverSent(p: Page, t: Transport<ChatPayload>, now: nat)
    requires p.stopTimers != [] && IsBlank(p.stopTimers[0])
    ensures StopFired(p, t, now) == p.(stopTimers := p.stopTimers[1..], isRecording := false, isVoiceMode := false)
  {
  }

  /** `stopRecording` does nothing unless recording; when recording it schedules exactly one timer holding the current transcript. */
  lemma StopActsOnlyWhileRecording(p: Page, available: bool)
    ensures !(available && p.isRecording) ==> StopRecording(p, available) == p
    ensures available && p.isRecording ==> StopRecording(p, available) == p.(stopTimers := p.stopTimers + [p.transcript])
  {
  }

  /** Turning voice mode on starts a fresh recording when recognition is available, and leaves voice mode off when it is not. */
  lemma ToggleOnStartsListening(p: Page, available: bool)
    requires !p.isVoiceMode && !p.isRecording
    ensures available ==> Toggle(p, available) == p.(isVoiceMode := true, isRecording := true, transcript := "")
    ensures !available ==> Toggle(p, available) == p
  {
  }

  /** After a stop timer, the page is never left recording or in voice mode, whatever the request did. */
  lemma StopTimerEndsVoiceMode(p: Page, t: Transport<ChatPayload>, now: nat)
    requires p.stopTimers != []
    ensures !StopFired(p, t, now).isRecording && !StopFired(p, t, now).isVoiceMode
    ensures StopFired(p, t, now).stopTimers == p.stopTimers[1..]
  {
  }

  /** A rejected request leaves the optimistic message listed after the earlier ones, and the chat as it was. */
  lemma FailureKeepsOptimisticMessage(p: Page, body: ChatService.ChatBody, f: Failure, now: nat)
    requires f.HttpFailure?
    ensures Send(p, body, Failed(f), now).messages == p.messages + [Optimistic(body, now)]
    ensures Send(p, body, Failed(f), now).chatId == p.chatId
    ensures !Send(p, body, Failed(f), now).isLoading && Send(p, body, Failed(f), now).message == ""
  {
  }

  /** A server answer replaces the list with the chat's stored messages; a new chat becomes the current one. */
  lemma ServerAnswerIsListed(p: Page, body: ChatService.ChatBody, payload: ChatPayload, now: nat)
    ensures Send(p, body, Delivered(payload), now).messages == ShownAll(payload.chat.messages)
    ensures !Truthy(p.chatId) ==> Send(p, body, Delivered(payload), now).chatId == Some(payload.chat.id)
    ensures Truthy(p.chatId) ==> Send(p, body, Delivered(payload), now).chatId == p.chatId
  {
  }

  /** A first message while offline opens a local chat listing exactly the user's text and the greeting. */
  lemma OfflineFirstMessage(p: Page, m: string, now: nat)
    requires !Truthy(p.chatId) && !IsBlank(p.message)
    ensures var q := SendText(p, Failed(NoResponse(m)), now);
      && q.chatId.Some? && StartsWith(q.chatId.value, ChatService.LocalPrefix)
      && |q.messages| == 2
      && q.messages[0] == ChatService.LocalMessage(Some(p.message), User, now, Some(false))
      && q.messages[1].content == Some(ChatService.OfflineGreeting)
  {
    assert p.message != [];
  }

  /** A voice turn sent while offline lists the transcript itself as the user's message. */
  lemma OfflineVoiceListsTranscript(p: Page, transcript: string, m: string, now: nat)
    requires !Truthy(p.chatId) && !IsBlank(transcript)
    ensures var q := SendVoice(p, transcript, Failed(NoResponse(m)), now);
      && |q.messages| == 2
      && q.messages[0] == ChatService.LocalMessage(Some(transcript), User, now, Some(true))
      && q.transcript == "" && !q.isVoiceMode
  {
  }

  /**
   * An offline chat answers with the stand-in turn alone: the list is replaced by those two
   * messages and the earlier ones are no longer shown.
   */
  lemma OfflineReplyReplacesList(p: Page, m: string, now: nat)
    requires Truthy(p.chatId) && StartsWith(p.chatId.value, ChatService.LocalPrefix) && !IsBlank(p.message)
    ensures var q := SendText(p, Failed(NoResponse(m)), now);
      && q.chatId == p.chatId
      && |q.messages| == 2
      && q.messages[1].content == Some(ChatService.OfflineReply)
  {
  }

  /** The page object: React's state cells as fields. */
  class ChatScreen {
    var message: string
    var transcript: string
    var messages: seq<UiMessage>
    var currentChatId: Option<string>
    var isRecording: bool
    var isVoiceMode: bool
    var isLoading: bool
    var restartTimers: nat
    var stopTimers: seq<string>
    /** Whether the browser provides a speech recognizer. */
    const recognitionAvailable: bool

    function State(): Page
      reads this
    {
      Page(message, transcript, messages, currentChatId, isRecording, isVoiceMode, isLoading, restartTimers, stopTimers)
    }

    method SetState(p: Page)
      modifies this
      ensures State() == p
    {
      message, transcript, messages, currentChatId := p.message, p.transcript, p.messages, p.chatId;
      isRecording, isVoiceMode, isLoading := p.isRecording, p.isVoiceMode, p.isLoading;
      restartTimers, stopTimers := p.restartTimers, p.stopTimers;
    }

    constructor(available: bool)
      ensures State() == Page("", "", [], None, false, false, false, 0, [])
      ensures recognitionAvailable == available
    {
      message, transcript, messages, currentChatId := "", "", [], None;
      isRecording, isVoiceMode, isLoading := false, false, false;
      restartTimers, stopTimers := 0, [];
      recognitionAvailable := available;
    }

    method OnResult(results: seq<Transcript.RecognitionResult>, resultIndex: nat)
      modifies this
      ensures State() == Heard(old(State()), Transcript.CurrentTranscript(results, resultIndex))
    {
      var current := Transcript.Assemble(results, resultIndex);
      transcript := current;
      message := current;
    }

    method OnError()
      modifies this
      ensures State() == RecognitionFailed(old(State()))
    {
      isRecording := false;
      isVoiceMode := false;
    }

    method HandleSendMessage(t: Transport<ChatPayload>, now: nat) returns (sent: Option<ChatService.ChatBody>)
      modifies this
      ensures sent == TextRequest(old(message))
      ensures State() == SendText(old(State()), t, now)
    {
      sent := TextRequest(message);
      if sent.None? {
        return;
      }
      SetState(Send(State(), sent.value, t, now));
    }

    method ToggleVoiceMode()
      modifies this
      ensures State() == Toggle(old(State()), recognitionAvailable)
    {
      if !isVoiceMode {
        isVoiceMode := true;
        if !recognitionAvailable {
          isVoiceMode := false;
        } else if isRecording {
          transcript := "";
          restartTimers := restartTimers + 1;
        } else {
          transcript := "";
          isRecording := true;
        }
      } else if recognitionAvailable && isRecording {
        stopTimers := stopTimers + [transcript];
      }
    }

    method RestartTimerFired()
      modifies this
      ensures State() == RestartFired(old(State()))
    {
      if restartTimers > 0 {
        isRecording := true;
        restartTimers := restartTimers - 1;
      }
    }

    /** `loadChat(chatId)`, given how `getChat(chatId)` settled. */
    method LoadChat(chatId: string, t: Transport<ChatPayload>)
      modifies this
      ensures State() == LoadedChat(old(State()), chatId, t)
    {
      isLoading := true;
      if t.Delivered? {
        messages := ShownAll(t.data.chat.messages);
        currentChatId := Some(chatId);
      } else {
        messages := [];
        currentChatId := None;
      }
      isLoading := false;
    }

    method HandleNewChat()
      modifies this
      ensures State() == StartNewChat(old(State()))
    {
      messages := [];
      currentChatId := None;
    }

    /** `deleted` says whether `deleteChat(target)` resolved. */
    method HandleDeleteChat(target: string, deleted: bool)
      modifies this
      ensures State() == DeletedChat(old(State()), target, deleted)
    {
      if deleted && currentChatId == Some(target) {
        messages := [];
        currentChatId := None;
      }
    }

    method StopTimerFired(t: Transport<ChatPayload>, now: nat) returns (sent: Option<ChatService.ChatBody>)
      modifies this
      ensures sent == if old(stopTimers) == [] then None else VoiceRequest(old(stopTimers)[0])
      ensures State() == StopFired(old(State()), t, now)
    {
      if stopTimers == [] {
        return None;
      }
      var captured := stopTimers[0];
      stopTimers := stopTimers[1..];
      sent := VoiceRequest(captured);
      if sent.Some? {
        SetState(Send(State(), sent.value, t, now).(transcript := "", isVoiceMode := false));
      }
      isRecording := false;
      isVoiceMode := false;
    }
  }
}
