/** Text fitting (src/text.go): words are packed greedily into at most two lines of a
    pixel width, and text that does not fit is cut and marked with "...".
    Text measurement, drawer.MeasureString(s).Ceil(), is the parameter `measure`; it is
    only taken to be a whole, non-negative number of pixels (it need not grow with the
    text). */
module Text {
  import opened Strs

  /** Widths are whole pixels and never negative. */
  type Measure = string -> nat

  const Ellipsis: string := "..."

  // ---------------------------------------------------------------------------------
  // truncateWithEllipsis

  /** The loop of truncateWithEllipsis: the longest prefix of `runes`, the whole of it
      first, that fits once "..." is appended, or bare "..." when no non-empty one does. */
  function ShrinkToFit(runes: string, maxWidth: int, measure: Measure): (r: string)
    ensures HasSuffix(r, Ellipsis) && r[..|r| - |Ellipsis|] <= runes
    decreases |runes|
  {
    if |runes| == 0 then Ellipsis
    else if measure(runes + Ellipsis) <= maxWidth then runes + Ellipsis
    else ShrinkToFit(runes[..|runes| - 1], maxWidth, measure)
  }

  /** truncateWithEllipsis: "" below one pixel, bare "..." when only the ellipsis could
      fit, the text itself when it fits, else the longest prefix that fits with "...". */
  function Truncated(text: string, maxWidth: int, measure: Measure): (r: string)
    ensures maxWidth < 1 ==> r == ""
    ensures maxWidth >= 1 ==> r == text || (HasSuffix(r, Ellipsis) && r[..|r| - |Ellipsis|] <= text)
  {
    if maxWidth < 1 then ""
    else if maxWidth <= measure(Ellipsis) then Ellipsis
    else if measure(text) <= maxWidth then text
    else ShrinkToFit(text, maxWidth, measure)
  }

  /** The shrinking loop (src/text.go:80-88): drops one rune per round until the prefix
      fits with "...", and gives up with bare "..." once no rune is left. */
  method ShrinkRunes(text: string, maxWidth: int, measure: Measure) returns (r: string)
    ensures r == ShrinkToFit(text, maxWidth, measure)
  {
    var runes := text;
    while |runes| > 0
      invariant runes == text[..|runes|]
      invariant ShrinkToFit(runes, maxWidth, measure) == ShrinkToFit(text, maxWidth, measure)
      decreases |runes|
    {
      var candidate := runes + Ellipsis;
      if measure(candidate) <= maxWidth {
        return candidate;
      }
      runes := runes[..|runes| - 1];
    }
    return Ellipsis;
  }

  /** truncateWithEllipsis (src/text.go:68-89). */
  method TruncateWithEllipsis(text: string, maxWidth: int, measure: Measure) returns (r: string)
    ensures r == Truncated(text, maxWidth, measure)
  {
    if maxWidth < 1 {
      return "";
    }
    if maxWidth <= measure(Ellipsis) {
      return Ellipsis;
    }
    if measure(text) <= maxWidth {
      return text;
    }
    r := ShrinkRunes(text, maxWidth, measure);
  }

  /** ShrinkToFit yields p + "..." for a prefix p of the runes; p fits with the ellipsis
      unless it is empty, and every longer prefix fails to. */
  lemma {:induction false} ShrinkToFitLongest(runes: string, maxWidth: int, measure: Measure)
    ensures var r := ShrinkToFit(runes, maxWidth, measure);
            && HasSuffix(r, Ellipsis)
            && var p := r[..|r| - |Ellipsis|];
               && p <= runes
               && (p != "" ==> measure(r) <= maxWidth)
               && (p == "" ==> r == Ellipsis)
               && forall j :: |p| < j <= |runes| ==> measure(runes[..j] + Ellipsis) > maxWidth
    decreases |runes|
  {
    var r := ShrinkToFit(runes, maxWidth, measure);
    if |runes| == 0 {
      assert r == Ellipsis;
      assert r[..|r| - |Ellipsis|] == "";
    } else if measure(runes + Ellipsis) <= maxWidth {
      assert r[..|r| - |Ellipsis|] == runes;
    } else {
      var shorter := runes[..|runes| - 1];
      ShrinkToFitLongest(shorter, maxWidth, measure);
      assert r == ShrinkToFit(shorter, maxWidth, measure);
      assert runes[..|runes|] == runes;
      forall j | 0 <= j <= |shorter|
        ensures shorter[..j] == runes[..j]
      {
      }
    }
  }

  /** Once the ellipsis itself fits, a truncation fits. */
  lemma TruncatedFits(text: string, maxWidth: int, measure: Measure)
    requires maxWidth > measure(Ellipsis)
    ensures measure(Truncated(text, maxWidth, measure)) <= maxWidth
  {
    if measure(text) > maxWidth {
      ShrinkToFitLongest(text, maxWidth, measure);
    }
  }

  /** A text that does not fit comes back as one of its prefixes followed by "...", and no
      longer prefix would have fitted with the ellipsis. */
  lemma TruncatedIsLongestPrefix(text: string, maxWidth: int, measure: Measure)
    requires maxWidth > measure(Ellipsis) && measure(text) > maxWidth
    ensures var r := Truncated(text, maxWidth, measure);
            && HasSuffix(r, Ellipsis)
            && r[..|r| - |Ellipsis|] <= text
            && forall j :: |r| - |Ellipsis| < j <= |text| ==> measure(text[..j] + Ellipsis) > maxWidth
  {
    assert Truncated(text, maxWidth, measure) == ShrinkToFit(text, maxWidth, measure);
    ShrinkToFitLongest(text, maxWidth, measure);
  }

  /** Truncating a truncation changes nothing, for every width and every measure. */
  lemma TruncatedIdempotent(text: string, maxWidth: int, measure: Measure)
    ensures Truncated(Truncated(text, maxWidth, measure), maxWidth, measure)
            == Truncated(text, maxWidth, measure)
  {
    if maxWidth > measure(Ellipsis) {
      TruncatedFits(text, maxWidth, measure);
    }
  }

  // ---------------------------------------------------------------------------------
  // buildLine

  /** What buildLine returns: the line, the index of the first word not placed (one past a
      truncated first word), and whether it stopped because a word did not fit. */
  datatype LineFit = LineFit(line: string, next: nat, overflow: bool)

  /** A word added to a line: separated by one space unless the line is still empty. */
  function Append(line: string, word: string): string
  {
    if line == "" then word else line + " " + word
  }

  /** The words placed one after another on a line. */
  function Joined(words: seq<string>): string
  {
    if |words| == 0 then "" else Append(Joined(words[..|words| - 1]), words[|words| - 1])
  }

  /** The loop of buildLine from word i on, with `line` holding what was placed so far. */
  function PackFrom(words: seq<string>, i: nat, line: string, maxWidth: int, measure: Measure): (r: LineFit)
    requires i <= |words|
    ensures i <= r.next <= |words|
    decreases |words| - i
  {
    if i == |words| then LineFit(line, |words|, false)
    else
      var candidate := Append(line, words[i]);
      if measure(candidate) <= maxWidth then PackFrom(words, i + 1, candidate, maxWidth, measure)
      else if line == "" then LineFit(Truncated(words[i], maxWidth, measure), i + 1, true)
      else LineFit(line, i, true)
  }

  /** buildLine's result on the whole word list. */
  function Packed(words: seq<string>, maxWidth: int, measure: Measure): (r: LineFit)
    ensures r.next <= |words|
  {
    PackFrom(words, 0, "", maxWidth, measure)
  }

  /** buildLine (src/text.go:39-56). */
  method BuildLine(words: seq<string>, maxWidth: int, measure: Measure) returns (r: LineFit)
    ensures r == Packed(words, maxWidth, measure)
  {
    var line := "";
    for i := 0 to |words|
      invariant PackFrom(words, i, line, maxWidth, measure) == Packed(words, maxWidth, measure)
    {
      var candidate := words[i];
      if line != "" {
        candidate := line + " " + words[i];
      }
      if measure(candidate) <= maxWidth {
        line := candidate;
        continue;
      }
      if line == "" {
        var cut := TruncateWithEllipsis(words[i], maxWidth, measure);
        return LineFit(cut, i + 1, true);
      }
      return LineFit(line, i, true);
    }
    return LineFit(line, |words|, false);
  }

  /** Every word was placed; the line is all of them and fits unless it is empty. */
  predicate AllPlaced(words: seq<string>, r: LineFit, maxWidth: int, measure: Measure)
  {
    && !r.overflow && r.next == |words| && r.line == Joined(words)
    && (r.line != "" ==> measure(r.line) <= maxWidth)
  }

  /** The line broke before word r.next: it holds the whole words before it and fits, and
      adding the next word would not have fitted. */
  predicate BrokeBefore(words: seq<string>, r: LineFit, maxWidth: int, measure: Measure)
  {
    && r.overflow && r.next < |words|
    && r.line == Joined(words[..r.next]) && r.line != ""
    && measure(r.line) <= maxWidth
    && measure(Append(r.line, words[r.next])) > maxWidth
  }

  /** The first word to be placed did not fit alone; the line is its truncation and the
      word counts as consumed. */
  predicate CutFirstWord(words: seq<string>, r: LineFit, maxWidth: int, measure: Measure)
  {
    && r.overflow && 1 <= r.next <= |words|
    && Joined(words[..r.next - 1]) == ""
    && measure(words[r.next - 1]) > maxWidth
    && r.line == Truncated(words[r.next - 1], maxWidth, measure)
  }

  lemma {:induction false} PackFromShape(words: seq<string>, i: nat, maxWidth: int, measure: Measure)
    requires i <= |words|
    requires Joined(words[..i]) != "" ==> measure(Joined(words[..i])) <= maxWidth
    ensures var r := PackFrom(words, i, Joined(words[..i]), maxWidth, measure);
            AllPlaced(words, r, maxWidth, measure) || BrokeBefore(words, r, maxWidth, measure) ||
            CutFirstWord(words, r, maxWidth, measure)
    decreases |words| - i
  {
    var line := Joined(words[..i]);
    if i == |words| {
      assert words[..i] == words;
    } else {
      var candidate := Append(line, words[i]);
      assert words[..i + 1][..i] == words[..i];
      assert Joined(words[..i + 1]) == candidate;
      if measure(candidate) <= maxWidth {
        PackFromShape(words, i + 1, maxWidth, measure);
      }
    }
  }

  /** buildLine ends in exactly one of three ways: every word placed, a break before a
      word that would not fit, or a truncated first word. */
  lemma PackedShape(words: seq<string>, maxWidth: int, measure: Measure)
    ensures var r := Packed(words, maxWidth, measure);
            AllPlaced(words, r, maxWidth, measure) || BrokeBefore(words, r, maxWidth, measure) ||
            CutFirstWord(words, r, maxWidth, measure)
  {
    assert words[..0] == [];
    PackFromShape(words, 0, maxWidth, measure);
  }

  /** On a non-empty word list buildLine consumes at least one word, and it reports no
      overflow exactly when it placed them all. */
  lemma PackedProgress(words: seq<string>, maxWidth: int, measure: Measure)
    requires |words| > 0
    ensures var r := Packed(words, maxWidth, measure);
            && 1 <= r.next <= |words|
            && (!r.overflow ==> r.next == |words| && r.line == Joined(words))
  {
    assert Joined(words[..0]) == "" by {
      assert words[..0] == [];
    }
    PackedShape(words, maxWidth, measure);
  }

  /** A line of words is empty only when every word is. */
  lemma {:induction false} JoinedEmpty(words: seq<string>)
    requires Joined(words) == ""
    ensures forall k :: 0 <= k < |words| ==> words[k] == ""
  {
    if |words| > 0 {
      var init := words[..|words| - 1];
      JoinedEmpty(init);
      assert forall k :: 0 <= k < |words| - 1 ==> words[k] == init[k];
    }
  }

  // ---------------------------------------------------------------------------------
  // ensureEllipsis and wrapTwoLines

  /** ensureEllipsis exactly as src/text.go:58-66 has it. A line without "..." goes through
      truncateWithEllipsis, which returns a fitting line unchanged, so a fitting line is
      never marked (see EnsureEllipsisLeavesFittingLine). */
  function EnsureEllipsisAsWritten(line: string, maxWidth: int, measure: Measure): (r: string)
    ensures measure(line) <= maxWidth && maxWidth > measure(Ellipsis) ==> r == line
  {
    if HasSuffix(line, Ellipsis) then
      if measure(line) <= maxWidth then line
      else Truncated(TrimSuffix(line, Ellipsis), maxWidth, measure)
    else Truncated(line, maxWidth, measure)
  }

  /** ensureEllipsis as its callers need it: a line that already ends in "..." and fits
      is kept, and any other line is cut down to a prefix that fits with "..." appended
      (the guards of truncateWithEllipsis for tiny widths are kept). */
  function EnsureEllipsis(line: string, maxWidth: int, measure: Measure): (r: string)
    ensures maxWidth >= 1 ==> HasSuffix(r, Ellipsis) && r[..|r| - |Ellipsis|] <= line
  {
    if HasSuffix(line, Ellipsis) && measure(line) <= maxWidth then line
    else if maxWidth < 1 then ""
    else if maxWidth <= measure(Ellipsis) then Ellipsis
    else ShrinkToFit(TrimSuffix(line, Ellipsis), maxWidth, measure)
  }

  /** Once the ellipsis fits, EnsureEllipsis yields a fitting line that ends in "...",
      and its text before the ellipsis is a prefix of the line's own. */
  lemma EnsureEllipsisMarks(line: string, maxWidth: int, measure: Measure)
    requires maxWidth > measure(Ellipsis)
    ensures var r := EnsureEllipsis(line, maxWidth, measure);
            && HasSuffix(r, Ellipsis) && measure(r) <= maxWidth
            && r[..|r| - |Ellipsis|] <= line
  {
    if !(HasSuffix(line, Ellipsis) && measure(line) <= maxWidth) {
      var base := TrimSuffix(line, Ellipsis);
      ShrinkToFitLongest(base, maxWidth, measure);
      assert base <= line;
    }
  }

  /** How the second line is marked when words are left over: by ensureEllipsis as
      src/text.go:58-66 writes it, or, when `corrected`, by EnsureEllipsis. */
  function MarkSecondLine(line: string, maxWidth: int, measure: Measure, corrected: bool): string
  {
    if corrected then EnsureEllipsis(line, maxWidth, measure)
    else EnsureEllipsisAsWritten(line, maxWidth, measure)
  }

  /** The shape of wrapTwoLines (src/text.go:9-37), with the marking of the second line
      chosen by `corrected`. */
  function WrapTwoLinesWith(text: string, maxWidth: int, measure: Measure, corrected: bool): (lines: seq<string>)
    ensures |lines| <= 2
  {
    var t := TrimSpace(text);
    if t == "" || maxWidth < 1 then []
    else
      var words := Fields(t);
      if |words| == 0 then []
      else
        var first := Packed(words, maxWidth, measure);
        if first.next >= |words| ||
           (first.overflow && first.next == 1 && first.line != "" && HasSuffix(first.line, Ellipsis))
        then [first.line]
        else
          var rest := words[first.next..];
          var second := Packed(rest, maxWidth, measure);
          if second.line == "" then [first.line]
          else if second.next < |rest| || second.overflow
          then [first.line, MarkSecondLine(second.line, maxWidth, measure, corrected)]
          else [first.line, second.line]
  }

  /** wrapTwoLines as src/text.go:9-37 has it, with ensureEllipsis as written. */
  function WrapTwoLines(text: string, maxWidth: int, measure: Measure): (lines: seq<string>)
    ensures |lines| <= 2
  {
    WrapTwoLinesWith(text, maxWidth, measure, false)
  }

  /** wrapTwoLines with the second line marked by the corrected EnsureEllipsis. */
  function WrapTwoLinesIntended(text: string, maxWidth: int, measure: Measure): (lines: seq<string>)
    ensures |lines| <= 2
  {
    WrapTwoLinesWith(text, maxWidth, measure, true)
  }

  /** No lines come back exactly for blank text or a width below one pixel, however the
      second line is marked. */
  lemma WrapTwoLinesEmptyIff(text: string, maxWidth: int, measure: Measure, corrected: bool)
    ensures WrapTwoLinesWith(text, maxWidth, measure, corrected) == [] <==> AllSpace(text) || maxWidth < 1
  {
    var t := TrimSpace(text);
    TrimSpaceEmptyIff(text);
    if t != "" && maxWidth >= 1 {
      FieldsEmptyIff(t);
      assert !AllSpace(t) by {
        assert !IsSpace(t[0]);
      }
      var words := Fields(t);
      PackedProgress(words, maxWidth, measure);
    }
  }

  /** A line built from Fields words fits: such words are never empty. */
  lemma PackedFieldsFit(words: seq<string>, maxWidth: int, measure: Measure)
    requires |words| > 0 && forall k :: 0 <= k < |words| ==> words[k] != ""
    requires maxWidth > measure(Ellipsis)
    ensures var r := Packed(words, maxWidth, measure);
            r.line != "" && measure(r.line) <= maxWidth
  {
    PackedShape(words, maxWidth, measure);
    var r := Packed(words, maxWidth, measure);
    if AllPlaced(words, r, maxWidth, measure) && r.line == "" {
      JoinedEmpty(words);
    }
    if CutFirstWord(words, r, maxWidth, measure) {
      TruncatedFits(words[r.next - 1], maxWidth, measure);
      ShrinkToFitLongest(words[r.next - 1], maxWidth, measure);
    }
  }

  /** The second line fits and is not empty, and so is what either marking makes of it;
      ensureEllipsis as written hands it back unchanged. */
  lemma SecondLineFits(rest: seq<string>, maxWidth: int, measure: Measure, corrected: bool)
    requires |rest| > 0 && forall k :: 0 <= k < |rest| ==> rest[k] != ""
    requires maxWidth > measure(Ellipsis)
    ensures var line := Packed(rest, maxWidth, measure).line;
            && line != "" && measure(line) <= maxWidth
            && MarkSecondLine(line, maxWidth, measure, corrected) != ""
            && measure(MarkSecondLine(line, maxWidth, measure, corrected)) <= maxWidth
            && MarkSecondLine(line, maxWidth, measure, false) == line
  {
    var line := Packed(rest, maxWidth, measure).line;
    PackedFieldsFit(rest, maxWidth, measure);
    EnsureEllipsisMarks(line, maxWidth, measure);
  }

  /** The words of a trimmed text are never empty. */
  lemma FieldsNonEmpty(t: string)
    ensures forall k :: 0 <= k < |Fields(t)| ==> Fields(t)[k] != ""
  {
    forall k | 0 <= k < |Fields(t)|
      ensures Fields(t)[k] != ""
    {
      FieldIsWord(t, k);
    }
  }

  /** Once the ellipsis fits, every line fits the width and none is empty, whether the
      code as written or the corrected marking produced it. */
  lemma WrapTwoLinesFit(text: string, maxWidth: int, measure: Measure, corrected: bool)
    requires maxWidth > measure(Ellipsis)
    ensures var lines := WrapTwoLinesWith(text, maxWidth, measure, corrected);
            forall k :: 0 <= k < |lines| ==> lines[k] != "" && measure(lines[k]) <= maxWidth
  {
    var t := TrimSpace(text);
    var lines := WrapTwoLinesWith(text, maxWidth, measure, corrected);
    if t != "" && maxWidth >= 1 {
      var words := Fields(t);
      if |words| > 0 {
        FieldsNonEmpty(t);
        PackedFieldsFit(words, maxWidth, measure);
        var first := Packed(words, maxWidth, measure);
        assert lines[0] == first.line;
        if |lines| == 2 {
          var rest := words[first.next..];
          SecondLineFits(rest, maxWidth, measure, corrected);
          var second := Packed(rest, maxWidth, measure);
          assert lines[1] == second.line || lines[1] == MarkSecondLine(second.line, maxWidth, measure, corrected);
        }
      }
    }
  }

  /** The code as written never marks the second line once the ellipsis fits: the line
      buildLine returns already fits, so ensureEllipsis hands it back, words left over or
      not. */
  lemma WrapTwoLinesKeepsSecondLine(text: string, maxWidth: int, measure: Measure)
    requires maxWidth > measure(Ellipsis)
    ensures var words := Fields(TrimSpace(text));
            var lines := WrapTwoLines(text, maxWidth, measure);
            |lines| == 2 ==>
              var first := Packed(words, maxWidth, measure);
              first.next <= |words| &&
              lines[1] == Packed(words[first.next..], maxWidth, measure).line
  {
    var t := TrimSpace(text);
    var words := Fields(t);
    var lines := WrapTwoLines(text, maxWidth, measure);
    if |lines| == 2 {
      FieldsNonEmpty(t);
      PackedProgress(words, maxWidth, measure);
      var first := Packed(words, maxWidth, measure);
      var rest := words[first.next..];
      SecondLineFits(rest, maxWidth, measure, false);
    }
  }

  /** With the corrected marking, when words are left over after the second line, that
      line ends in "...". */
  lemma WrapTwoLinesMarksDroppedWords(text: string, maxWidth: int, measure: Measure)
    requires maxWidth > measure(Ellipsis)
    ensures var t := TrimSpace(text);
            var words := Fields(t);
            var lines := WrapTwoLinesIntended(text, maxWidth, measure);
            |lines| == 2 ==>
              var first := Packed(words, maxWidth, measure);
              first.next <= |words| &&
              var second := Packed(words[first.next..], maxWidth, measure);
              second.next < |words| - first.next ==> HasSuffix(lines[1], Ellipsis)
  {
    var t := TrimSpace(text);
    var words := Fields(t);
    var lines := WrapTwoLinesIntended(text, maxWidth, measure);
    if |lines| == 2 {
      var first := Packed(words, maxWidth, measure);
      var second := Packed(words[first.next..], maxWidth, measure);
      EnsureEllipsisMarks(second.line, maxWidth, measure);
    }
  }

  // ---------------------------------------------------------------------------------
  // The unmarked second line of the code as written

  /** Width in runes: a measure for the counterexample below. */
  function RuneCount(s: string): nat
  {
    |s|
  }

  /** With one pixel per rune and a width of 4, "ab cd ef" wraps to "ab" and "cd": the
      second line stops before "ef", yet ensureEllipsis as written returns it unmarked,
      while EnsureEllipsis marks it. */
  lemma EnsureEllipsisLeavesFittingLine()
    ensures var words := ["cd", "ef"];
            var second := Packed(words, 4, RuneCount);
            && second.line == "cd" && second.next == 1 && second.overflow
            && EnsureEllipsisAsWritten(second.line, 4, RuneCount) == "cd"
            && !HasSuffix(EnsureEllipsisAsWritten(second.line, 4, RuneCount), Ellipsis)
            && EnsureEllipsis(second.line, 4, RuneCount) == "c..."
  {
    var words := ["cd", "ef"];
    assert Append("", "cd") == "cd";
    assert Append("cd", "ef") == "cd ef";
    assert |"cd ef"| == 5;
    assert PackFrom(words, 1, "cd", 4, RuneCount) == LineFit("cd", 1, true);
    assert Packed(words, 4, RuneCount) == LineFit("cd", 1, true);
    assert !HasSuffix("cd", Ellipsis);
    assert TrimSuffix("cd", Ellipsis) == "cd";
    assert "cd"[..|"cd"| - 1] == "c";
    assert "cd" + Ellipsis == "cd...";
    assert RuneCount("cd...") == 5;
    assert "c" + Ellipsis == "c...";
    assert RuneCount("c...") == 4;
    assert ShrinkToFit("c", 4, RuneCount) == "c...";
  }

  /** "ab cd ef" is already trimmed and splits into three words. */
  lemma ExampleWords()
    ensures TrimSpace("ab cd ef") == "ab cd ef"
    ensures Fields("ab cd ef") == ["ab", "cd", "ef"]
  {
    ExampleTrimmed();
    ExampleTail();
    ExampleHead();
  }

  /** The first word of "ab cd ef" is two runes long. */
  lemma ExampleFirstWord()
    ensures WordLen("ab cd ef") == 2
  {
    var text := "ab cd ef";
    assert text[1..] == "b cd ef" && "b cd ef"[1..] == " cd ef";
    assert IsSpace(" cd ef"[0]) && WordLen(" cd ef") == 0;
    assert !IsSpace("b cd ef"[0]) && WordLen("b cd ef") == 1;
  }

  /** The first word of "ab cd ef" is "ab", and the rest of it is " cd ef". */
  lemma ExampleHead()
    requires Fields(" cd ef") == ["cd", "ef"]
    ensures Fields("ab cd ef") == ["ab", "cd", "ef"]
  {
    var text := "ab cd ef";
    ExampleFirstWord();
    assert !IsSpace(text[0]);
    assert text[..2] == "ab" && text[2..] == " cd ef";
  }

  /** "ab cd ef" neither starts nor ends with white space. */
  lemma ExampleTrimmed()
    ensures TrimSpace("ab cd ef") == "ab cd ef"
  {
    var text := "ab cd ef";
    assert !IsSpace(text[0]) && !IsSpace(text[|text| - 1]);
    assert TrimLeftSpace(text) == text;
  }

  /** " cd ef" splits into its two words. */
  lemma ExampleTail()
    ensures Fields(" cd ef") == ["cd", "ef"]
  {
    assert WordLen("ef") == 2;
    assert Fields("ef") == ["ef"] by {
      assert !IsSpace("ef"[0]);
      assert "ef"[..2] == "ef" && "ef"[2..] == "";
      assert Fields("") == [];
    }
    assert " ef"[1..] == "ef";
    assert Fields(" ef") == ["ef"];
    assert WordLen("cd ef") == 2;
    assert Fields("cd ef") == ["cd", "ef"] by {
      assert !IsSpace("cd ef"[0]);
      assert "cd ef"[..2] == "cd" && "cd ef"[2..] == " ef";
    }
    assert " cd ef"[1..] == "cd ef";
  }

  /** With one pixel per rune, the first line of "ab cd ef" at width 4 is "ab": "ab cd"
      is five wide. */
  lemma ExampleFirstLine()
    ensures Packed(["ab", "cd", "ef"], 4, RuneCount) == LineFit("ab", 1, true)
  {
    var words := ["ab", "cd", "ef"];
    assert Append("", "ab") == "ab";
    assert Append("ab", "cd") == "ab cd";
    assert |"ab cd"| == 5;
    assert PackFrom(words, 1, "ab", 4, RuneCount) == LineFit("ab", 1, true);
  }

  /** "ab cd ef" at four runes wraps to "ab" and the marked "cd", whichever marking. */
  lemma ExampleWrap(corrected: bool)
    ensures WrapTwoLinesWith("ab cd ef", 4, RuneCount, corrected) ==
            ["ab", MarkSecondLine("cd", 4, RuneCount, corrected)]
  {
    ExampleWords();
    ExampleFirstLine();
    EnsureEllipsisLeavesFittingLine();
    var words := ["ab", "cd", "ef"];
    assert !HasSuffix("ab", Ellipsis);
    assert words[1..] == ["cd", "ef"];
  }

  /** The same input at the level of wrapTwoLines: "ab cd ef" at four runes wraps to "ab"
      and an unmarked "cd" as written, though "ef" is dropped; the corrected marking gives
      "ab" and "c...". */
  lemma WrapTwoLinesDropsUnmarked()
    ensures WrapTwoLines("ab cd ef", 4, RuneCount) == ["ab", "cd"]
    ensures WrapTwoLinesIntended("ab cd ef", 4, RuneCount) == ["ab", "c..."]
  {
    ExampleWrap(false);
    ExampleWrap(true);
    EnsureEllipsisLeavesFittingLine();
  }
}
