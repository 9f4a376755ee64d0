/**
 * The chat page's message layout (`renderFormattedMessage` in
 * Frontend/src/pages/ChatPage.jsx): split the reply into lines, drop the
 * whitespace-only ones, classify each remaining line as a bullet item, a
 * numbered item or a plain paragraph, strip the list marker, and pass the
 * rest through the bold tokenizer.
 */
module MessageLayout {
  import opened Common
  import opened JsString
  import opened BoldText
  import Query

  datatype Kind = BulletItem | NumberedItem | Paragraph

  /** One rendered line: its kind and the bold-formatted text shown for it. */
  datatype Block = Block(kind: Kind, body: Rendered)

  /** `null` for absent or empty content, otherwise the fragment of blocks. */
  datatype Layout = Nothing | Blocks(blocks: seq<Block>)

  /** The characters `•`, `-` and `*` that start a bullet item. */
  predicate IsBulletMarker(c: char) {
    c == '\U{2022}' || c == '-' || c == '*'
  }

  /** `line.trim().startsWith("•") || … "-" || … "*"`: decided on the trimmed line. */
  predicate IsBulletLine(line: string) {
    var t := Trim(line);
    |t| > 0 && IsBulletMarker(t[0])
  }

  /** The end of the run of decimal digits starting at `i`. */
  function DigitsEnd(s: string, i: nat): (j: nat)
    requires i <= |s|
    ensures i <= j <= |s|
    ensures forall m :: i <= m < j ==> IsDigit(s[m])
    ensures j < |s| ==> !IsDigit(s[j])
    decreases |s| - i
  {
    if i < |s| && IsDigit(s[i]) then DigitsEnd(s, i + 1) else i
  }

  /** `/^\d+\.\s/.test(line)`: decided on the untrimmed line. */
  predicate IsNumberedLine(line: string) {
    var j := DigitsEnd(line, 0);
    0 < j && j + 1 < |line| && line[j] == '.' && IsWhitespace(line[j + 1])
  }

  /** `line.replace(/^[•\-*]\s*\/, "")`: only a marker in the very first position is removed, with the blanks after it. */
  function StripBullet(line: string): (r: string)
    ensures !(|line| > 0 && IsBulletMarker(line[0])) ==> r == line
    ensures |line| > 0 && IsBulletMarker(line[0]) ==>
      && |r| < |line| && r == line[|line| - |r|..]
      && AllWhitespace(line[1..|line| - |r|])
      && (r == [] || !IsWhitespace(r[0]))
  {
    if |line| > 0 && IsBulletMarker(line[0]) then line[TrimLo(line, 1)..] else line
  }

  /** `line.replace(/^\d+\.\s*\/, "")`: the digits, the dot and the blanks after it are removed. */
  function StripNumber(line: string): (r: string)
    requires IsNumberedLine(line)
    ensures |r| < |line| - 1 && r == line[|line| - |r|..]
    ensures |line| - |r| > DigitsEnd(line, 0)
    ensures var j := DigitsEnd(line, 0);
      && (forall m :: 0 <= m < j ==> IsDigit(line[m])) && line[j] == '.'
      && AllWhitespace(line[j + 1..|line| - |r|])
      && (r == [] || !IsWhitespace(r[0]))
  {
    line[TrimLo(line, DigitsEnd(line, 0) + 1)..]
  }

  /** The rendering of one kept line: the bullet test first, then the numbered test, else a paragraph. */
  function Classify(line: string): (b: Block)
    ensures b.kind == BulletItem <==> IsBulletLine(line)
    ensures b.kind == NumberedItem <==> !IsBulletLine(line) && IsNumberedLine(line)
    ensures b.kind == BulletItem ==> b.body == BoldSpec(StripBullet(line))
    ensures b.kind == NumberedItem ==> b.body == BoldSpec(StripNumber(line))
    ensures b.kind == Paragraph ==> b.body == BoldSpec(line)
  {
    if IsBulletLine(line) then Block(BulletItem, BoldSpec(StripBullet(line)))
    else if IsNumberedLine(line) then Block(NumberedItem, BoldSpec(StripNumber(line)))
    else Block(Paragraph, BoldSpec(line))
  }

  predicate NonBlank(line: string) {
    !IsBlank(line)
  }

  /** `content.split("\n").filter((p) => p.trim() !== "")`. */
  function Paragraphs(content: string): seq<string> {
    Query.Filter(Split(content, '\n'), NonBlank)
  }

  /** `renderFormattedMessage`: one block per kept line, in order. */
  function RenderFormattedMessage(content: Option<string>): (r: Layout)
    ensures r.Nothing? <==> !Truthy(content)
    ensures r.Blocks? ==> |r.blocks| == |Paragraphs(content.value)|
    ensures r.Blocks? ==> forall i :: 0 <= i < |r.blocks| ==> r.blocks[i] == Classify(Paragraphs(content.value)[i])
  {
    if !Truthy(content) then Nothing
    else
      var ps := Paragraphs(content.value);
      Blocks(seq(|ps|, i requires 0 <= i < |ps| => Classify(ps[i])))
  }

  /**
   * The paragraphs are exactly the lines that are not whitespace-only, each
   * as often as it occurs; none of them contains a line break.
   */
  lemma ParagraphsAreTheNonBlankLines(content: string)
    ensures forall i :: 0 <= i < |Paragraphs(content)| ==> NonBlank(Paragraphs(content)[i])
    ensures forall i :: 0 <= i < |Paragraphs(content)| ==> '\n' !in Paragraphs(content)[i]
    ensures forall line :: line in Split(content, '\n') && NonBlank(line) <==> line in Paragraphs(content)
    ensures forall line :: NonBlank(line) ==> multiset(Paragraphs(content))[line] == multiset(Split(content, '\n'))[line]
  {
    SplitJoin(content, '\n');
    var lines := Split(content, '\n');
    forall i | 0 <= i < |Paragraphs(content)|
      ensures '\n' !in Paragraphs(content)[i]
    {
      assert Paragraphs(content)[i] in lines;
    }
  }

  /** A filter that keeps everything changes nothing: so order is preserved. */
  lemma {:induction false} FilterKeepingAll<T(!new)>(s: seq<T>, keep: T -> bool)
    requires forall i :: 0 <= i < |s| ==> keep(s[i])
    ensures Query.Filter(s, keep) == s
    decreases |s|
  {
    if s != [] {
      FilterKeepingAll(s[1..], keep);
      assert s == [s[0]] + s[1..];
    }
  }

  /** Content without whitespace-only lines keeps every line, in order: joining the paragraphs gives it back. */
  lemma NoBlankLinesKeepsEveryLine(content: string)
    requires forall i :: 0 <= i < |Split(content, '\n')| ==> NonBlank(Split(content, '\n')[i])
    ensures Paragraphs(content) == Split(content, '\n')
    ensures Join(Paragraphs(content), '\n') == content
  {
    FilterKeepingAll(Split(content, '\n'), NonBlank);
    SplitJoin(content, '\n');
  }

  /** A bullet line wins over the numbered test. */
  lemma BulletCheckedFirst()
    ensures Classify("* 1. step").kind == BulletItem
  {
    var line := "* 1. step";
    assert !IsWhitespace(line[0]) && !IsWhitespace(line[|line| - 1]);
    TrimOfUnpadded(line);
  }

  /** "1. Breathe" is a numbered item showing "Breathe". */
  lemma NumberedItemExample()
    ensures !IsBulletLine("1. Breathe") && IsNumberedLine("1. Breathe")
    ensures StripNumber("1. Breathe") == "Breathe"
    ensures Classify("1. Breathe").kind == NumberedItem
  {
    var line := "1. Breathe";
    assert !IsWhitespace(line[0]) && !IsWhitespace(line[|line| - 1]);
    TrimOfUnpadded(line);
    assert DigitsEnd(line, 1) == 1;
    assert DigitsEnd(line, 0) == 1;
    assert TrimLo(line, 3) == 3;
    assert TrimLo(line, 2) == 3;
    assert line[3..] == "Breathe";
  }

  /**
   * The bullet test looks at the trimmed line but the strip at the untrimmed
   * one: an indented bullet is shown as a list item that still carries its marker.
   */
  lemma IndentedBulletKeepsMarker()
    ensures IsBulletLine("  - item")
    ensures StripBullet("  - item") == "  - item"
    ensures Classify("  - item").kind == BulletItem
  {
    var line := "  - item";
    assert TrimLo(line, 2) == 2;
    assert TrimLo(line, 1) == 2;
    assert TrimLo(line, 0) == 2;
    assert !IsWhitespace(line[|line| - 1]);
    assert Trim(line) == "- item";
  }

  /** The numbered test is anchored on the untrimmed line: an indented "1." stays a plain paragraph. */
  lemma IndentedNumberIsParagraph()
    ensures Classify(" 1. step").kind == Paragraph
  {
    var line := " 1. step";
    assert TrimLo(line, 1) == 1;
    assert TrimLo(line, 0) == 1;
    assert DigitsEnd(line, 0) == 0;
  }
}
