/** The line normaliser applied before scoring with the ZIX model
    (`_punctuate_lines`): blank lines are dropped, every line gets sentence-final
    punctuation, a leading bullet is removed, whitespace runs shrink to one space,
    and the lines are joined with single spaces. */
module LinePunctuation {
  import opened Text

  /** The characters accepted as the end of a sentence. */
  predicate IsTerminal(c: char)
  {
    c == '.' || c == '?' || c == '!'
  }

  /** The characters removed as a bullet point at the start of a line. */
  predicate IsBullet(c: char)
  {
    c == '-' || c == '\U{2022}'
  }

  /** `[x.strip() for x in lines]`. */
  function StripAll(lines: seq<string>): (r: seq<string>)
    ensures |r| == |lines|
    ensures forall k :: 0 <= k < |r| ==> r[k] == Strip(lines[k])
  {
    if lines == [] then [] else [Strip(lines[0])] + StripAll(lines[1..])
  }

  /** `[x for x in lines if x != ""]`. */
  function DropEmpty(lines: seq<string>): (r: seq<string>)
    ensures |r| <= |lines|
    ensures forall k :: 0 <= k < |r| ==> r[k] != []
  {
    if lines == [] then []
    else (if lines[0] == [] then [] else [lines[0]]) + DropEmpty(lines[1..])
  }

  /** Dropping the empty strings keeps every kept string stripped when all of them were. */
  lemma {:induction false} DropEmptyStripped(lines: seq<string>)
    requires forall k :: 0 <= k < |lines| ==> Stripped(lines[k])
    ensures forall k :: 0 <= k < |DropEmpty(lines)| ==> Stripped(DropEmpty(lines)[k])
  {
    if lines != [] {
      DropEmptyStripped(lines[1..]);
    }
  }

  /** Nothing is left exactly when every string was empty. */
  lemma {:induction false} DropEmptyNone(lines: seq<string>)
    ensures DropEmpty(lines) == [] <==> forall k :: 0 <= k < |lines| ==> lines[k] == []
  {
    if lines != [] {
      DropEmptyNone(lines[1..]);
      assert forall k :: 1 <= k < |lines| ==> lines[k] == lines[1..][k - 1];
    }
  }

  /** A list of non-empty strings is kept as it is. */
  lemma {:induction false} DropEmptyKeeps(lines: seq<string>)
    requires forall k :: 0 <= k < |lines| ==> lines[k] != []
    ensures DropEmpty(lines) == lines
  {
    if lines != [] {
      DropEmptyKeeps(lines[1..]);
    }
  }

  /** The non-blank lines of `text`, each stripped: the list the loop runs over. */
  function NonBlankLines(text: string): (r: seq<string>)
    ensures forall k :: 0 <= k < |r| ==> r[k] != [] && Stripped(r[k])
  {
    var stripped := StripAll(SplitLines(text));
    DropEmptyStripped(stripped);
    DropEmpty(stripped)
  }

  /** First step of the loop body: a line not ending in '.', '?' or '!' gets a '.'. */
  function Dotted(line: string): (r: string)
    requires line != []
    ensures r != [] && IsTerminal(r[|r| - 1]) && r[0] == line[0]
    ensures IsTerminal(line[|line| - 1]) ==> r == line
    ensures Stripped(line) ==> Stripped(r)
  {
    if IsTerminal(line[|line| - 1]) then line else line + "."
  }

  /** Second step: a leading bullet is cut off and the rest stripped again. */
  function Unbulleted(line: string): (r: string)
    requires line != [] && IsTerminal(line[|line| - 1])
    ensures r != [] && IsTerminal(r[|r| - 1])
    ensures !IsBullet(line[0]) ==> r == line
    ensures Stripped(line) ==> Stripped(r)
  {
    if IsBullet(line[0]) then
      StripFromKeepsLast(line, 1);
      StripFrom(line, 1)
    else line
  }

  /** A non-empty flat string that ends in sentence-final punctuation. */
  ghost predicate Sentence(s: string)
  {
    s != [] && Flat(s) && IsTerminal(s[|s| - 1])
  }

  /** The body of the loop over the lines: punctuate, drop a bullet, collapse whitespace. */
  function PunctuateLine(line: string): (r: string)
    requires line != []
    ensures Sentence(r)
    ensures Stripped(line) ==> Stripped(r)
  {
    Collapse(Unbulleted(Dotted(line)))
  }

  /** A flat line that already ends in punctuation and has no bullet is left as it is. */
  lemma PunctuateLineFixed(line: string)
    requires line != [] && Flat(line) && IsTerminal(line[|line| - 1]) && !IsBullet(line[0])
    ensures PunctuateLine(line) == line
  {
    assert Unbulleted(Dotted(line)) == line;
    CollapseFlat(line);
  }

  /** `PunctuateLine` applied to each of the given lines. */
  function PunctuateAll(lines: seq<string>): (r: seq<string>)
    requires forall k :: 0 <= k < |lines| ==> lines[k] != []
    ensures |r| == |lines|
    ensures forall k :: 0 <= k < |r| ==> r[k] == PunctuateLine(lines[k])
  {
    seq(|lines|, k requires 0 <= k < |lines| => PunctuateLine(lines[k]))
  }

  /** What `_punctuate_lines(text)` returns. */
  function Punctuated(text: string): string
  {
    var lines := NonBlankLines(text);
    Join(PunctuateAll(lines), " ")
  }

  /** The body of the loop: the three steps applied to one line in turn. */
  method PunctuateOne(line: string) returns (r: string)
    requires line != []
    ensures r == PunctuateLine(line)
  {
    r := line;
    if !IsTerminal(r[|r| - 1]) {
      r := r + ".";
    }
    if IsBullet(r[0]) {
      r := StripFrom(r, 1);
    }
    r := Collapse(r);
  }

  /** Appending the next punctuated line extends a punctuated prefix by one. */
  lemma PunctuatedPrefix(lines: seq<string>, done: seq<string>, line: string)
    requires |done| < |lines| && lines[|done|] != []
    requires forall k :: 0 <= k < |done| ==> lines[k] != [] && done[k] == PunctuateLine(lines[k])
    requires line == PunctuateLine(lines[|done|])
    ensures forall k :: 0 <= k < |done| + 1 ==> (done + [line])[k] == PunctuateLine(lines[k])
  {
    forall k | 0 <= k < |done| + 1
      ensures (done + [line])[k] == PunctuateLine(lines[k])
    {
      if k < |done| {
        assert (done + [line])[k] == done[k];
      }
    }
  }

  /** `_punctuate_lines`, with its loop over the non-blank lines. */
  method PunctuateLines(text: string) returns (r: string)
    ensures r == Punctuated(text)
  {
    var lines := NonBlankLines(text);
    var linesPunct: seq<string> := [];
    for i := 0 to |lines|
      invariant |linesPunct| == i
      invariant forall k :: 0 <= k < i ==> linesPunct[k] == PunctuateLine(lines[k])
    {
      var line := PunctuateOne(lines[i]);
      PunctuatedPrefix(lines, linesPunct, line);
      linesPunct := linesPunct + [line];
    }
    assert linesPunct == PunctuateAll(lines);
    r := Join(linesPunct, " ");
  }

  /** The output is one flat, stripped line whose every sentence-piece ends in punctuation. */
  lemma PunctuatedShape(text: string)
    ensures Flat(Punctuated(text)) && Stripped(Punctuated(text))
    ensures Punctuated(text) != [] ==> IsTerminal(Punctuated(text)[|Punctuated(text)| - 1])
    ensures Punctuated(text) == [] <==> NonBlankLines(text) == []
  {
    var lines := NonBlankLines(text);
    JoinSpacedFlat(PunctuateAll(lines));
  }

  /** The normaliser returns the empty string exactly when the text is only whitespace. */
  lemma PunctuatedEmpty(text: string)
    ensures Punctuated(text) == [] <==> Blank(text)
  {
    if Blank(text) {
      BlankTextNoLines(text);
    } else {
      var i :| 0 <= i < |text| && !IsSpace(text[i]);
      VisibleCharGivesLine(text, i);
      PunctuatedShape(text);
    }
  }

  /** Text made only of whitespace has no non-blank line. */
  lemma BlankTextNoLines(text: string)
    requires Blank(text)
    ensures Punctuated(text) == []
  {
    var split := SplitLines(text);
    var stripped := StripAll(split);
    SplitLinesFromBlank(text, 0);
    forall k | 0 <= k < |stripped| ensures stripped[k] == [] {
      StripEmpty(split[k]);
    }
    DropEmptyNone(stripped);
  }

  /** A character that is not whitespace keeps the output from being empty. */
  lemma VisibleCharGivesLine(text: string, i: nat)
    requires i < |text| && !IsSpace(text[i])
    ensures NonBlankLines(text) != []
  {
    var split := SplitLines(text);
    var stripped := StripAll(split);
    SplitLinesFromVisible(text, 0, i);
    var k :| 0 <= k < |split| && !Blank(split[k]);
    StripEmpty(split[k]);
    assert stripped[k] != [];
    DropEmptyNone(stripped);
  }

  /** A stripped text on a single line is that one line, punctuated. */
  lemma OneLinePunctuated(s: string)
    requires s != [] && Stripped(s)
    requires forall i :: 0 <= i < |s| ==> !IsLineBoundary(s[i])
    ensures Punctuated(s) == PunctuateLine(s)
  {
    SplitLinesSingle(s);
    StripStripped(s);
    assert StripAll([s]) == [s];
    DropEmptyKeeps([s]);
    assert NonBlankLines(s) == [s];
    assert PunctuateAll([s]) == [PunctuateLine(s)];
  }

  /** A text that is already one flat, stripped sentence without a leading bullet is
      left as it is. */
  lemma PunctuatedFixed(s: string)
    requires s == [] || (Flat(s) && Stripped(s) && IsTerminal(s[|s| - 1]) && !IsBullet(s[0]))
    ensures Punctuated(s) == s
  {
    if s == [] {
      BlankTextNoLines(s);
    } else {
      forall i | 0 <= i < |s| ensures !IsLineBoundary(s[i]) {
        assert SpaceOk(s, i);
      }
      OneLinePunctuated(s);
      PunctuateLineFixed(s);
    }
  }

  /** Normalising twice is normalising once, unless a bullet survived at the very start
      (a doubled bullet such as "--a" loses one per pass). */
  lemma PunctuatedIdempotent(text: string)
    requires Punctuated(text) == [] || !IsBullet(Punctuated(text)[0])
    ensures Punctuated(Punctuated(text)) == Punctuated(text)
  {
    PunctuatedShape(text);
    PunctuatedFixed(Punctuated(text));
  }

  /** A string without whitespace is flat. */
  lemma NoSpaceFlat(s: string)
    requires forall i :: 0 <= i < |s| ==> !IsSpace(s[i])
    ensures Flat(s) && Stripped(s)
  {
    forall i: nat | i < |s| ensures SpaceOk(s, i) { }
  }

  /** One pass over a line without whitespace, as the loop body sees it. */
  lemma SingleWordText(s: string)
    requires s != [] && forall i :: 0 <= i < |s| ==> !IsSpace(s[i])
    ensures Punctuated(s) == PunctuateLine(s)
  {
    NoSpaceFlat(s);
    forall i | 0 <= i < |s| ensures !IsLineBoundary(s[i]) { BoundaryIsSpace(s[i]); }
    OneLinePunctuated(s);
  }

  /** A single word without a sentence mark at its end or a bullet at its start just
      gets a '.' appended. */
  lemma PlainWordPunctuated(s: string)
    requires s != [] && forall i :: 0 <= i < |s| ==> !IsSpace(s[i])
    requires !IsTerminal(s[|s| - 1]) && !IsBullet(s[0])
    ensures Punctuated(s) == s + "."
  {
    SingleWordText(s);
    var dotted := s + ".";
    assert Dotted(s) == dotted;
    assert forall i :: 0 <= i < |dotted| ==> !IsSpace(dotted[i]) by {
      forall i | 0 <= i < |dotted| ensures !IsSpace(dotted[i]) {
        if i < |s| { assert dotted[i] == s[i]; }
      }
    }
    assert Unbulleted(dotted) == dotted;
    NoSpaceFlat(dotted);
    CollapseFlat(dotted);
  }

  /** The loop body removes one of two bullets. */
  lemma DoubledBulletLine()
    ensures PunctuateLine("--a") == "-a."
    ensures PunctuateLine("-a.") == "a."
  {
    var dotted := Dotted("--a");
    assert dotted == "--a.";
    StripFromNoSpace(dotted, 1);
    assert dotted[1..] == "-a.";
    NoSpaceFlat("-a.");
    CollapseFlat("-a.");
    var dotted2 := Dotted("-a.");
    assert dotted2 == "-a.";
    StripFromNoSpace(dotted2, 1);
    assert dotted2[1..] == "a.";
    NoSpaceFlat("a.");
    CollapseFlat("a.");
  }

  /** On whole texts: normalising "--a" leaves "-a.", and normalising that again removes
      the second bullet, so normalising is not idempotent on such texts. */
  lemma DoubledBulletText()
    ensures Punctuated("--a") == "-a."
    ensures Punctuated("-a.") == "a."
  {
    var once, twice := "--a", "-a.";
    assert forall i :: 0 <= i < |once| ==> !IsSpace(once[i]);
    assert forall i :: 0 <= i < |twice| ==> !IsSpace(twice[i]);
    SingleWordText(once);
    SingleWordText(twice);
    DoubledBulletLine();
  }
}
