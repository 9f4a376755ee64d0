/**
 * What the chat and call records have in common: who sent a message, the
 * (sender, content) view of a message that the completion helper reads, and
 * the shape of a MongoDB ObjectId in its 24-hex-digit string form.
 */
module Conversation {
  import opened Common

  /** The `sender` enum of both message schemas: "user" or "ai". */
  datatype Sender = User | Ai

  function SenderName(s: Sender): string {
    match s
    case User => "user"
    case Ai => "ai"
  }

  /** Enum validation of a raw `sender` value. */
  function ParseSender(name: string): (r: Option<Sender>)
    ensures r.Some? <==> name == "user" || name == "ai"
    ensures r.Some? ==> SenderName(r.value) == name
  {
    if name == "user" then Some(User)
    else if name == "ai" then Some(Ai)
    else None
  }

  lemma ParseSenderName(s: Sender)
    ensures ParseSender(SenderName(s)) == Some(s)
  {
  }

  /** One stored message as the completion helper sees it. */
  datatype Turn = Turn(sender: Sender, content: string)

  /** The view of a list of messages, one turn per message, in order. */
  function Turns<M>(ms: seq<M>, turnOf: M -> Turn): (ts: seq<Turn>)
    ensures |ts| == |ms|
    ensures forall i :: 0 <= i < |ms| ==> ts[i] == turnOf(ms[i])
  {
    if ms == [] then [] else [turnOf(ms[0])] + Turns(ms[1..], turnOf)
  }

  predicate IsHexDigit(c: char) {
    ('0' <= c <= '9') || ('a' <= c <= 'f') || ('A' <= c <= 'F')
  }

  /** A string that casts to an ObjectId; any other id makes `findById` fail with a CastError. */
  predicate IsObjectId(s: string) {
    |s| == 24 && forall i :: 0 <= i < |s| ==> IsHexDigit(s[i])
  }

  /** A hex digit as an ObjectId's string form writes it: `A`-`F` become `a`-`f`. */
  function LowerHex(c: char): (d: char)
    ensures 'A' <= c <= 'F' ==> d as int == c as int + 32
    ensures !('A' <= c <= 'F') ==> d == c
  {
    if 'A' <= c <= 'F' then (c as int + 32) as char else c
  }

  /**
   * The string form of the ObjectId an id casts to: the cast reads the 24 hex
   * digits in either case and the stored id prints them in lower case.
   */
  function CanonicalId(s: string): (r: string)
    ensures |r| == |s|
    ensures forall i :: 0 <= i < |s| ==> r[i] == LowerHex(s[i])
  {
    seq(|s|, i requires 0 <= i < |s| => LowerHex(s[i]))
  }

  /** An id in the string form a stored document carries. */
  predicate IsStoredId(s: string) {
    IsObjectId(s) && forall i :: 0 <= i < |s| ==> !('A' <= s[i] <= 'F')
  }

  /** The string form of a valid id is a stored id, and a stored id is its own string form. */
  lemma CanonicalIdIsStored(s: string)
    requires IsObjectId(s)
    ensures IsStoredId(CanonicalId(s))
    ensures IsStoredId(s) ==> CanonicalId(s) == s
  {
  }
}
