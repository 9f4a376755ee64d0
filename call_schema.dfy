/**
 * The Call collection's records (Backend/models/Call.js): like a chat, but the
 * messages carry no `isVoice` flag, the call has a `status` enum
 * ("active" | "ended", default "active") and an optional `endedAt`.
 */
module CallSchema {
  import opened Common
  import opened Conversation

  datatype CallMessage = CallMessage(content: string, sender: Sender, timestamp: int, audioUrl: Option<string>)

  datatype Status = Active | Ended

  function StatusName(s: Status): string {
    match s
    case Active => "active"
    case Ended => "ended"
  }

  /** Enum validation of a raw `status` value. */
  function ParseStatus(name: string): (r: Option<Status>)
    ensures r.Some? <==> name == "active" || name == "ended"
    ensures r.Some? ==> StatusName(r.value) == name
  {
    if name == "active" then Some(Active)
    else if name == "ended" then Some(Ended)
    else None
  }

  lemma ParseStatusName(s: Status)
    ensures ParseStatus(StatusName(s)) == Some(s)
  {
  }

  datatype CallDoc = CallDoc(
    id: string, userId: string, title: string, status: Status,
    messages: seq<CallMessage>, createdAt: int, updatedAt: int, endedAt: Option<int>)

  function NewCallMessage(content: string, sender: Sender, audioUrl: Option<string>, now: int): (m: CallMessage)
    ensures m.content == content && m.sender == sender && m.audioUrl == audioUrl && m.timestamp == now
  {
    CallMessage(content, sender, now, audioUrl)
  }

  /** `new Call({...})`: status defaults to active, endedAt is absent, timestamps are the current time. */
  function NewCall(id: string, userId: string, title: string, messages: seq<CallMessage>, now: int): (d: CallDoc)
    ensures d.id == id && d.userId == userId && d.title == title && d.messages == messages
    ensures d.status == Active && d.endedAt == None
    ensures d.createdAt == now && d.updatedAt == now
  {
    CallDoc(id, userId, title, Active, messages, now, now, None)
  }

  predicate ValidMessage(m: CallMessage) {
    m.content != []
  }

  predicate ValidCall(d: CallDoc) {
    d.userId != [] && d.title != [] && forall i :: 0 <= i < |d.messages| ==> ValidMessage(d.messages[i])
  }

  function Save(d: CallDoc, now: int): (r: Option<CallDoc>)
  {
    if ValidCall(d) then Some(d.(updatedAt := now)) else None
  }

  lemma SaveStampsUpdatedAt(d: CallDoc, now: int)
    ensures Save(d, now).Some? <==> ValidCall(d)
    ensures Save(d, now).Some? ==> ValidCall(Save(d, now).value)
    ensures Save(d, now).Some? ==> Save(d, now).value.updatedAt == now
    ensures Save(d, now).Some? ==> Save(d, now).value.(updatedAt := d.updatedAt) == d
  {
  }

  lemma SaveTwice(d: CallDoc, t1: int, t2: int)
    requires Save(d, t1).Some?
    ensures Save(Save(d, t1).value, t2) == Save(d, t2)
  {
  }

  /** The (sender, content) pair of a message, as the controllers' `map` builds it. */
  function TurnOf(m: CallMessage): Turn {
    Turn(m.sender, m.content)
  }
}
