/**
 * The chat page's bold tokenizer (`formatTextWithBold` in
 * Frontend/src/pages/ChatPage.jsx). It runs the global regular expression
 * `/(\*\*|__)(.*?)\1/g` over a line and cuts it into plain runs and bold
 * spans. The regular expression engine's `exec` is modelled here as the
 * function `FirstMatch`: the leftmost position where a span opens, together
 * with the shortest closing the lazy `.*?` (which does not cross a line
 * terminator) can reach.
 */
module BoldText {
  import opened Common
  import opened JsString

  /** A plain run, or a `<strong>` span; `delim` is the matched opener (`match[1]`). */
  datatype Part = Plain(text: string) | Bold(delim: string, content: string)

  /** `null` for empty text, the parts array, or the text itself when no part was pushed. */
  datatype Rendered = Null | Parts(parts: seq<Part>) | Unchanged(text: string)

  predicate IsDelimChar(c: char) {
    c == '*' || c == '_'
  }

  predicate NoTerminatorIn(text: string, a: nat, b: nat)
    requires a <= b <= |text|
  {
    forall m :: a <= m < b ==> !IsLineTerminator(text[m])
  }

  /** A closing `cc` at `k` that `.*?` can reach from `q`: nothing in between is a line terminator. */
  predicate Closes(text: string, c: char, q: nat, k: nat) {
    q <= k && k + 1 < |text| && text[k] == c && text[k + 1] == c && NoTerminatorIn(text, q, k)
  }

  /** Where the lazy `.*?` followed by `\1` stops when the content starts at `q`: the first reachable closing. */
  function CloseFrom(text: string, c: char, q: nat): (r: Option<nat>)
    ensures r.Some? ==> q <= r.value && r.value + 1 < |text|
    decreases |text| - q
  {
    if q + 1 >= |text| then None
    else if text[q] == c && text[q + 1] == c then Some(q)
    else if IsLineTerminator(text[q]) then None
    else CloseFrom(text, c, q + 1)
  }

  /** `CloseFrom` finds a reachable closing exactly when there is one, and then the nearest. */
  lemma {:induction false} CloseFromIsNearest(text: string, c: char, q: nat)
    ensures var r := CloseFrom(text, c, q);
      && (r.Some? ==> Closes(text, c, q, r.value))
      && (r.Some? ==> forall k :: q <= k < r.value ==> !Closes(text, c, q, k))
      && (r.None? ==> forall k :: q <= k ==> !Closes(text, c, q, k))
    decreases |text| - q
  {
    if q + 1 < |text| && !(text[q] == c && text[q + 1] == c) && !IsLineTerminator(text[q]) {
      CloseFromIsNearest(text, c, q + 1);
      assert forall k :: q + 1 <= k ==> Closes(text, c, q, k) == Closes(text, c, q + 1, k);
    }
  }

  /** Two equal delimiter characters at `p`: the regular expression's `(\*\*|__)`. */
  predicate OpensAt(text: string, p: nat) {
    p + 1 < |text| && text[p] == text[p + 1] && IsDelimChar(text[p])
  }

  /** A closing at `k` for a span whose opener pair sits at `p`. */
  predicate ClosesOpener(text: string, p: nat, k: nat) {
    p + 1 < |text| && Closes(text, text[p], p + 2, k)
  }

  /** The closing index of a span opening at `p`, if `(\*\*|__)(.*?)\1` matches there. */
  function MatchAt(text: string, p: nat): (r: Option<nat>)
    ensures r.Some? ==> OpensAt(text, p) && p + 2 <= r.value && r.value + 1 < |text|
  {
    if OpensAt(text, p) then CloseFrom(text, text[p], p + 2) else None
  }

  /** A match opens with a delimiter pair and ends at the nearest reachable closing pair; without one there is no match. */
  lemma MatchAtIsNearest(text: string, p: nat)
    ensures MatchAt(text, p).Some? ==> ClosesOpener(text, p, MatchAt(text, p).value)
    ensures MatchAt(text, p).Some? ==> forall k: nat :: k < MatchAt(text, p).value ==> !ClosesOpener(text, p, k)
    ensures MatchAt(text, p).None? <==> !OpensAt(text, p) || forall k: nat :: !ClosesOpener(text, p, k)
  {
    if OpensAt(text, p) {
      CloseFromIsNearest(text, text[p], p + 2);
      if MatchAt(text, p).None? {
        forall k: nat
          ensures !ClosesOpener(text, p, k)
        {
          assert !Closes(text, text[p], p + 2, k);
        }
      } else {
        assert ClosesOpener(text, p, MatchAt(text, p).value);
      }
    }
  }

  /** A match is never shorter than four characters (`****`), so each `exec` moves past the previous one. */
  lemma MatchIsAtLeastFourLong(text: string, p: nat)
    requires MatchAt(text, p).Some?
    ensures MatchAt(text, p).value + 2 - p >= 4
  {
  }

  /** What `exec` finds from `from`: the leftmost opening position and its closing index. */
  function FirstMatch(text: string, from: nat): (r: Option<(nat, nat)>)
    ensures r.Some? ==> from <= r.value.0 && MatchAt(text, r.value.0) == Some(r.value.1)
    decreases |text| - from
  {
    if from >= |text| then None
    else match MatchAt(text, from)
      case Some(k) => Some((from, k))
      case None => FirstMatch(text, from + 1)
  }

  /** `exec` returns the leftmost match, and `null` only when no position from `from` on matches. */
  lemma {:induction false} FirstMatchIsLeftmost(text: string, from: nat)
    ensures FirstMatch(text, from).Some? ==> forall p :: from <= p < FirstMatch(text, from).value.0 ==> MatchAt(text, p).None?
    ensures FirstMatch(text, from).None? <==> forall p :: from <= p ==> MatchAt(text, p).None?
    decreases |text| - from
  {
    if from < |text| && MatchAt(text, from).None? {
      FirstMatchIsLeftmost(text, from + 1);
    }
    if from >= |text| {
      assert forall p :: from <= p ==> !OpensAt(text, p);
    }
  }

  /** `text.substring(a, b)`. */
  function Substring(text: string, a: nat, b: nat): string
    requires a <= b <= |text|
  {
    text[a..b]
  }

  /** The parts one match contributes: the run before it (when there is one) and the bold span. */
  function MatchParts(text: string, from: nat, p: nat, k: nat): seq<Part>
    requires from <= p && p + 2 <= k <= |text|
  {
    (if p > from then [Plain(Substring(text, from, p))] else []) + [Bold([text[p], text[p]], Substring(text, p + 2, k))]
  }

  /** What is left after the last match: the rest of the text as one run, if any. */
  function TailParts(text: string, from: nat): seq<Part>
    requires from <= |text|
  {
    if from < |text| then [Plain(Substring(text, from, |text|))] else []
  }

  /** The parts the scan emits from `from` on: the specification of the loop. */
  function Scan(text: string, from: nat): seq<Part>
    requires from <= |text|
    decreases |text| - from
  {
    match FirstMatch(text, from)
    case None => TailParts(text, from)
    case Some((p, k)) => MatchParts(text, from, p, k) + Scan(text, k + 2)
  }

  /**
   * One turn of the loop: from a position whose leftmost match is (p, k), the
   * scan emits that match's parts and carries on after the closing delimiter.
   */
  lemma ScanStep(text: string, from: nat, p: nat, k: nat)
    requires from <= |text| && FirstMatch(text, from) == Some((p, k))
    ensures Scan(text, from) == MatchParts(text, from, p, k) + Scan(text, k + 2)
  {
  }

  lemma Regroup(a: seq<Part>, b: seq<Part>, c: seq<Part>)
    ensures (a + b) + c == a + (b + c)
  {
  }

  /** After the last match the scan emits only the rest of the text. */
  lemma ScanEnd(text: string, from: nat)
    requires from <= |text| && FirstMatch(text, from).None?
    ensures Scan(text, from) == TailParts(text, from)
  {
  }

  /** The specification of `formatTextWithBold` as a value. */
  function BoldSpec(text: string): Rendered {
    if text == [] then Null else Parts(Scan(text, 0))
  }

  /** The scan from `from` with `acc` already emitted: the loop's own view of `Scan`. */
  function ScanAfter(text: string, from: nat, acc: seq<Part>): seq<Part>
    requires from <= |text|
    decreases |text| - from
  {
    match FirstMatch(text, from)
    case None => acc + TailParts(text, from)
    case Some((p, k)) => ScanAfter(text, k + 2, acc + MatchParts(text, from, p, k))
  }

  lemma {:induction false} ScanAfterIsAppend(text: string, from: nat, acc: seq<Part>)
    requires from <= |text|
    ensures ScanAfter(text, from, acc) == acc + Scan(text, from)
    decreases |text| - from
  {
    match FirstMatch(text, from)
    case None =>
    case Some((p, k)) =>
      ScanAfterIsAppend(text, k + 2, acc + MatchParts(text, from, p, k));
      Regroup(acc, MatchParts(text, from, p, k), Scan(text, k + 2));
  }

  /** The loop body: the run before the match, when there is one, then the bold span. */
  method PushMatch(text: string, parts: seq<Part>, lastIndex: nat, p: nat, k: nat) returns (r: seq<Part>)
    requires lastIndex <= p && MatchAt(text, p) == Some(k)
    ensures r == parts + MatchParts(text, lastIndex, p, k)
  {
    r := parts;
    if p > lastIndex {
      r := r + [Plain(Substring(text, lastIndex, p))];
    }
    r := r + [Bold([text[p], text[p]], Substring(text, p + 2, k))];
  }

  /** After the loop: the text after the last match, when there is any, as one more run. */
  method PushTail(text: string, parts: seq<Part>, lastIndex: nat) returns (r: seq<Part>)
    requires lastIndex <= |text|
    ensures r == parts + TailParts(text, lastIndex)
  {
    r := parts;
    if lastIndex < |text| {
      r := r + [Plain(Substring(text, lastIndex, |text|))];
    }
  }

  /** The `while ((match = regex.exec(text)) !== null)` loop and the push of the remaining text. */
  method CollectParts(text: string) returns (parts: seq<Part>)
    ensures parts == Scan(text, 0)
  {
    parts := [];
    var lastIndex: nat := 0;
    var m := FirstMatch(text, lastIndex);
    while m.Some?
      invariant lastIndex <= |text|
      invariant m == FirstMatch(text, lastIndex)
      invariant ScanAfter(text, lastIndex, parts) == ScanAfter(text, 0, [])
      decreases |text| - lastIndex
    {
      var (p, k) := m.value;
      parts := PushMatch(text, parts, lastIndex, p, k);
      lastIndex := k + 2;
      m := FirstMatch(text, lastIndex);
    }
    parts := PushTail(text, parts, lastIndex);
    ScanAfterIsAppend(text, 0, []);
    assert [] + Scan(text, 0) == Scan(text, 0);
  }

  /** `formatTextWithBold`: `null` for empty text, else the collected parts (or the text, when none was pushed). */
  method FormatTextWithBold(text: string) returns (r: Rendered)
    ensures r == BoldSpec(text)
  {
    if text == [] {
      return Null;
    }
    var parts := CollectParts(text);
    ScanOfNonEmpty(text, 0);
    r := if |parts| > 0 then Parts(parts) else Unchanged(text);
  }

  /** Some part is always emitted for non-empty text, so the `: text` branch is never taken. */
  lemma ScanOfNonEmpty(text: string, from: nat)
    requires from < |text|
    ensures |Scan(text, from)| > 0
  {
  }

  /** A plain run as it is, a bold span rewrapped in its delimiter. */
  function PartText(part: Part): string {
    match part
    case Plain(s) => s
    case Bold(d, c) => d + c + d
  }

  function Render(parts: seq<Part>): string {
    if parts == [] then [] else PartText(parts[0]) + Render(parts[1..])
  }

  lemma {:induction false} RenderAppend(a: seq<Part>, b: seq<Part>)
    ensures Render(a + b) == Render(a) + Render(b)
    decreases |a|
  {
    if a != [] {
      assert (a + b)[0] == a[0];
      assert (a + b)[1..] == a[1..] + b;
      RenderAppend(a[1..], b);
    } else {
      assert a + b == b;
    }
  }

  lemma RenderSingle(part: Part)
    ensures Render([part]) == PartText(part)
  {
    assert [part][1..] == [];
  }

  /** The bold span of a match, rewrapped, is the matched text. */
  lemma BoldRender(text: string, p: nat, k: nat)
    requires MatchAt(text, p) == Some(k)
    ensures PartText(Bold([text[p], text[p]], Substring(text, p + 2, k))) == text[p..k + 2]
  {
    MatchAtIsNearest(text, p);
    var c := text[p];
    assert text[p + 1] == c && text[k] == c && text[k + 1] == c;
    assert text[p..k + 2] == [c, c] + text[p + 2..k] + [c, c];
  }

  /** The parts of one match spell the text from `from` to the end of its closing delimiter. */
  lemma MatchPartsRender(text: string, from: nat, p: nat, k: nat)
    requires from <= p && MatchAt(text, p) == Some(k)
    ensures Render(MatchParts(text, from, p, k)) == text[from..k + 2]
  {
    var bold := Bold([text[p], text[p]], Substring(text, p + 2, k));
    BoldRender(text, p, k);
    RenderSingle(bold);
    if p > from {
      var plain := Plain(Substring(text, from, p));
      RenderAppend([plain], [bold]);
      RenderSingle(plain);
      assert text[from..k + 2] == text[from..p] + text[p..k + 2];
    } else {
      assert MatchParts(text, from, p, k) == [bold];
    }
  }

  /** A match followed by a reconstructing rest spells the text from `from` on. */
  lemma MatchThenRest(text: string, from: nat, p: nat, k: nat)
    requires from <= p && MatchAt(text, p) == Some(k)
    requires Render(Scan(text, k + 2)) == text[k + 2..]
    ensures Render(MatchParts(text, from, p, k) + Scan(text, k + 2)) == text[from..]
  {
    var head := MatchParts(text, from, p, k);
    RenderAppend(head, Scan(text, k + 2));
    MatchPartsRender(text, from, p, k);
    assert text[from..] == text[from..k + 2] + text[k + 2..];
  }

  /** Reconstruction: the parts, with every bold span rewrapped, spell the text from `from` on. */
  lemma {:induction false} ScanReconstructs(text: string, from: nat)
    requires from <= |text|
    ensures Render(Scan(text, from)) == text[from..]
    decreases |text| - from
  {
    match FirstMatch(text, from)
    case None =>
      ScanEnd(text, from);
      if from < |text| {
        RenderSingle(Plain(Substring(text, from, |text|)));
      }
    case Some((p, k)) =>
      ScanStep(text, from, p, k);
      ScanReconstructs(text, k + 2);
      MatchThenRest(text, from, p, k);
  }

  /** A plain run is never empty. */
  predicate NonEmptyPlain(part: Part) {
    part.Plain? ==> part.text != []
  }

  /**
   * A bold span opens and closes with the same delimiter, `**` or `__`; its
   * content crosses no line terminator; and it is the shortest span: no
   * earlier closing occurs inside the content, also not one that would use
   * the content's last character and the first character of the closing.
   */
  predicate WellFormedBold(part: Part) {
    part.Bold? ==>
      && |part.delim| == 2 && part.delim[0] == part.delim[1] && IsDelimChar(part.delim[0])
      && (forall m :: 0 <= m < |part.content| ==> !IsLineTerminator(part.content[m]))
      && (forall j :: 0 <= j < |part.content| ==>
            !((part.content + part.delim)[j] == part.delim[0] && (part.content + part.delim)[j + 1] == part.delim[0]))
  }

  lemma BoldPartWellFormed(text: string, p: nat, k: nat)
    requires MatchAt(text, p) == Some(k)
    ensures WellFormedBold(Bold([text[p], text[p]], text[p + 2..k]))
  {
    var c := text[p];
    var content := text[p + 2..k];
    var d := [c, c];
    MatchAtIsNearest(text, p);
    forall j | 0 <= j < |content|
      ensures !((content + d)[j] == c && (content + d)[j + 1] == c)
    {
      assert (content + d)[j] == text[p + 2 + j];
      assert (content + d)[j + 1] == text[p + 2 + j + 1];
      assert !ClosesOpener(text, p, p + 2 + j);
    }
  }

  predicate AllWellFormed(parts: seq<Part>) {
    forall i :: 0 <= i < |parts| ==> NonEmptyPlain(parts[i]) && WellFormedBold(parts[i])
  }

  lemma AllWellFormedAppend(a: seq<Part>, b: seq<Part>)
    requires AllWellFormed(a) && AllWellFormed(b)
    ensures AllWellFormed(a + b)
  {
    forall i | 0 <= i < |a + b|
      ensures NonEmptyPlain((a + b)[i]) && WellFormedBold((a + b)[i])
    {
      if i < |a| {
        assert (a + b)[i] == a[i];
      } else {
        assert (a + b)[i] == b[i - |a|];
      }
    }
  }

  /** The parts of one match: a non-empty run before it, if any, and a well-formed span. */
  lemma MatchPartsWellFormed(text: string, from: nat, p: nat, k: nat)
    requires from <= p && MatchAt(text, p) == Some(k)
    ensures AllWellFormed(MatchParts(text, from, p, k))
  {
    BoldPartWellFormed(text, p, k);
    var bold := Bold([text[p], text[p]], Substring(text, p + 2, k));
    assert WellFormedBold(bold);
    if p > from {
      assert MatchParts(text, from, p, k) == [Plain(Substring(text, from, p)), bold];
    } else {
      assert MatchParts(text, from, p, k) == [bold];
    }
  }

  /** Every emitted part is a non-empty plain run or a well-formed bold span. */
  lemma {:induction false} ScanPartsWellFormed(text: string, from: nat)
    requires from <= |text|
    ensures AllWellFormed(Scan(text, from))
    decreases |text| - from
  {
    match FirstMatch(text, from)
    case None =>
      ScanEnd(text, from);
    case Some((p, k)) =>
      ScanStep(text, from, p, k);
      ScanPartsWellFormed(text, k + 2);
      MatchPartsWellFormed(text, from, p, k);
      AllWellFormedAppend(MatchParts(text, from, p, k), Scan(text, k + 2));
  }

  /** Empty text renders as `null`; any other text as a non-empty parts array. */
  lemma BoldSpecShape(text: string)
    ensures BoldSpec(text) == Null <==> text == []
    ensures text != [] ==> BoldSpec(text).Parts? && |BoldSpec(text).parts| > 0
  {
    if text != [] {
      ScanOfNonEmpty(text, 0);
    }
  }

  /** A line with no opener pair anywhere is one plain run. */
  lemma NoDelimitersIsOnePlainRun(text: string)
    requires text != []
    requires forall p :: 0 <= p < |text| ==> !IsDelimChar(text[p])
    ensures BoldSpec(text) == Parts([Plain(text)])
  {
    assert forall p :: 0 <= p ==> MatchAt(text, p).None?;
    FirstMatchIsLeftmost(text, 0);
    assert Scan(text, 0) == TailParts(text, 0);
    assert Substring(text, 0, |text|) == text;
  }

  /** The first match of `I **really** do` is the `**` pair at 2, closed at 10. */
  lemma ReallyFirstMatch(t: string)
    requires t == "I **really** do"
    ensures FirstMatch(t, 0) == Some((2, 10))
  {
    assert CloseFrom(t, '*', 10) == Some(10);
    assert CloseFrom(t, '*', 8) == CloseFrom(t, '*', 9) == CloseFrom(t, '*', 10);
    assert CloseFrom(t, '*', 6) == CloseFrom(t, '*', 7) == CloseFrom(t, '*', 8);
    assert CloseFrom(t, '*', 4) == CloseFrom(t, '*', 5) == CloseFrom(t, '*', 6);
    assert MatchAt(t, 2) == Some(10);
    assert FirstMatch(t, 0) == FirstMatch(t, 1) == FirstMatch(t, 2);
  }

  /** After the bold word only the plain run " do" is left. */
  lemma ReallyTail(t: string)
    requires t == "I **really** do"
    ensures Scan(t, 12) == [Plain(" do")]
  {
    assert FirstMatch(t, 12) == FirstMatch(t, 13) == FirstMatch(t, 14) == FirstMatch(t, 15) == None;
    assert Substring(t, 12, |t|) == " do";
    assert Scan(t, 12) == TailParts(t, 12);
  }

  /** `I **really** do` renders as a plain run, the bold word, and a plain run. */
  lemma BoldWordExample()
    ensures BoldSpec("I **really** do") == Parts([Plain("I "), Bold("**", "really"), Plain(" do")])
  {
    var t := "I **really** do";
    ReallyFirstMatch(t);
    ReallyTail(t);
    assert Substring(t, 0, 2) == "I " && Substring(t, 4, 10) == "really";
    assert Scan(t, 0) == MatchParts(t, 0, 2, 10) + Scan(t, 12);
  }
}
