/**
 * The Chat collection's records (Backend/models/Chat.js): a chat owns an
 * ordered list of messages; `content`, `sender`, `userId` and `title` are
 * required, `sender` is the user/ai enum, `isVoice` defaults to false,
 * `audioUrl` is optional, timestamps default to the current time, and every
 * save stamps `updatedAt` with the current time.
 *
 * Mongoose's `required` rejects a missing value and, for strings, the empty
 * string; the model writes a missing string as "" because both fail the same
 * check.
 */
module ChatSchema {
  import opened Common
  import opened Conversation

  datatype Message = Message(content: string, sender: Sender, timestamp: int, audioUrl: Option<string>, isVoice: bool)

  datatype ChatDoc = ChatDoc(id: string, userId: string, title: string, messages: seq<Message>, createdAt: int, updatedAt: int)

  /** A message as a handler pushes it: only content, sender and (maybe) isVoice are given. */
  function NewMessage(content: string, sender: Sender, isVoice: Option<bool>, now: int): (m: Message)
    ensures m.content == content && m.sender == sender
    ensures m.timestamp == now && m.audioUrl == None
    ensures m.isVoice <==> isVoice == Some(true)
  {
    Message(content, sender, now, None, isVoice.GetOr(false))
  }

  /** `new Chat({...})`: createdAt and updatedAt take their default, the current time. */
  function NewChat(id: string, userId: string, title: string, messages: seq<Message>, now: int): (d: ChatDoc)
    ensures d.id == id && d.userId == userId && d.title == title && d.messages == messages
    ensures d.createdAt == now && d.updatedAt == now
  {
    ChatDoc(id, userId, title, messages, now, now)
  }

  predicate ValidMessage(m: Message) {
    m.content != []
  }

  /** The schema's validators: required userId and title, and required content in every message. */
  predicate ValidChat(d: ChatDoc) {
    d.userId != [] && d.title != [] && forall i :: 0 <= i < |d.messages| ==> ValidMessage(d.messages[i])
  }

  /** `save()`: validation, then the pre-save hook. A document that fails validation is not written. */
  function Save(d: ChatDoc, now: int): (r: Option<ChatDoc>)
  {
    if ValidChat(d) then Some(d.(updatedAt := now)) else None
  }

  /** A save succeeds exactly for valid documents, changes only `updatedAt`, and sets it to the save time. */
  lemma SaveStampsUpdatedAt(d: ChatDoc, now: int)
    ensures Save(d, now).Some? <==> ValidChat(d)
    ensures Save(d, now).Some? ==> ValidChat(Save(d, now).value)
    ensures Save(d, now).Some? ==> Save(d, now).value.updatedAt == now
    ensures Save(d, now).Some? ==> Save(d, now).value.(updatedAt := d.updatedAt) == d
  {
  }

  /** Saving again later changes nothing but the stamp; the last save's time wins. */
  lemma SaveTwice(d: ChatDoc, t1: int, t2: int)
    requires Save(d, t1).Some?
    ensures Save(Save(d, t1).value, t2) == Save(d, t2)
  {
  }

  /** The (sender, content) pair of a message, as the controllers' `map` builds it. */
  function TurnOf(m: Message): Turn {
    Turn(m.sender, m.content)
  }
}
