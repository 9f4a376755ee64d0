/**
 * Transcript assembly from speech-recognition results, shared by the
 * `onresult` handlers of Frontend/src/pages/ChatPage.jsx and
 * Frontend/src/pages/CallPage.jsx: from `event.resultIndex` on, every final
 * result's best alternative is appended followed by a space, every interim
 * one as it is, and the final text wins when there is any.
 */
module Transcript {

  /** `event.results[i]`: its first alternative's text and whether the engine committed to it. */
  datatype RecognitionResult = RecognitionResult(transcript: string, isFinal: bool)

  /** The final text accumulated over results `from .. i-1`. */
  function FinalUpTo(rs: seq<RecognitionResult>, from: nat, i: nat): string
    requires i <= |rs|
    decreases i
  {
    if i <= from then []
    else FinalUpTo(rs, from, i - 1) + (if rs[i - 1].isFinal then rs[i - 1].transcript + " " else [])
  }

  /** The interim text accumulated over results `from .. i-1`. */
  function InterimUpTo(rs: seq<RecognitionResult>, from: nat, i: nat): string
    requires i <= |rs|
    decreases i
  {
    if i <= from then []
    else InterimUpTo(rs, from, i - 1) + (if rs[i - 1].isFinal then [] else rs[i - 1].transcript)
  }

  /** `finalTranscript || interimTranscript` over the whole event. */
  function CurrentTranscript(rs: seq<RecognitionResult>, from: nat): string {
    var f := FinalUpTo(rs, from, |rs|);
    if f != [] then f else InterimUpTo(rs, from, |rs|)
  }

  /** The handler's loop. */
  method Assemble(results: seq<RecognitionResult>, resultIndex: nat) returns (current: string)
    ensures current == CurrentTranscript(results, resultIndex)
  {
    var interimTranscript := "";
    var finalTranscript := "";
    var i := resultIndex;
    while i < |results|
      invariant resultIndex <= i
      invariant i <= |results| ==> finalTranscript == FinalUpTo(results, resultIndex, i)
      invariant i <= |results| ==> interimTranscript == InterimUpTo(results, resultIndex, i)
      invariant i > |results| ==> i == resultIndex && finalTranscript == [] && interimTranscript == []
    {
      var transcript := results[i].transcript;
      if results[i].isFinal {
        finalTranscript := finalTranscript + transcript + " ";
      } else {
        interimTranscript := interimTranscript + transcript;
      }
      i := i + 1;
    }
    current := if finalTranscript != [] then finalTranscript else interimTranscript;
  }

  /** The final text is non-empty exactly when some result in range is final. */
  lemma {:induction false} FinalNonEmptyIff(rs: seq<RecognitionResult>, from: nat, i: nat)
    requires i <= |rs|
    ensures FinalUpTo(rs, from, i) != [] <==> exists j :: from <= j < i && rs[j].isFinal
    decreases i
  {
    if i > from {
      FinalNonEmptyIff(rs, from, i - 1);
      if rs[i - 1].isFinal {
        assert |FinalUpTo(rs, from, i)| >= 1;
      } else {
        assert forall j :: from <= j < i && rs[j].isFinal ==> j < i - 1;
      }
    }
  }

  /** When some result in range is final, the final text ends with the space appended after the last final result. */
  lemma {:induction false} FinalEndsWithSpace(rs: seq<RecognitionResult>, from: nat, i: nat)
    requires i <= |rs|
    requires FinalUpTo(rs, from, i) != []
    ensures FinalUpTo(rs, from, i)[|FinalUpTo(rs, from, i)| - 1] == ' '
    decreases i
  {
    if !rs[i - 1].isFinal {
      FinalEndsWithSpace(rs, from, i - 1);
    }
  }

  /** Interim text is shown only when no result in range is final; otherwise the final text is. */
  lemma InterimOnlyWithoutFinals(rs: seq<RecognitionResult>, from: nat)
    ensures (exists j :: from <= j < |rs| && rs[j].isFinal) ==> CurrentTranscript(rs, from) == FinalUpTo(rs, from, |rs|)
    ensures (forall j :: from <= j < |rs| ==> !rs[j].isFinal) ==> CurrentTranscript(rs, from) == InterimUpTo(rs, from, |rs|)
  {
    FinalNonEmptyIff(rs, from, |rs|);
  }

  /** Results before `resultIndex` are not looked at. */
  lemma {:induction false} EarlierResultsIgnored(rs: seq<RecognitionResult>, rs': seq<RecognitionResult>, from: nat, i: nat)
    requires i <= |rs| == |rs'|
    requires forall j :: from <= j < i ==> rs[j] == rs'[j]
    ensures FinalUpTo(rs, from, i) == FinalUpTo(rs', from, i)
    ensures InterimUpTo(rs, from, i) == InterimUpTo(rs', from, i)
    decreases i
  {
    if i > from {
      EarlierResultsIgnored(rs, rs', from, i - 1);
    }
  }
}
