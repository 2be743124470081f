/** The Python string primitives the normalisers and helpers are built from:
    `str.isspace`, `str.strip`, `str.splitlines`, `str.replace` of one character,
    `sep.join`, and `re.sub(r"\s+", " ", s)`.  The recursive definitions walk an
    index through one fixed string rather than slicing it. */
module Text {

  /** `str.isspace()` on one character; also the class `\s` of Python's `re` on str patterns:
      the Unicode whitespace characters. */
  predicate IsSpace(c: char)
  {
    ('\t' <= c <= '\r') || ('\U{1C}' <= c <= ' ') || c == '\U{85}' || c == '\U{A0}' || c == '\U{1680}'
    || ('\U{2000}' <= c <= '\U{200A}') || c == '\U{2028}' || c == '\U{2029}' || c == '\U{202F}'
    || c == '\U{205F}' || c == '\U{3000}'
  }

  /** The characters at which `str.splitlines()` ends a line ("\r\n" is one boundary). */
  predicate IsLineBoundary(c: char)
  {
    ('\n' <= c <= '\r') || ('\U{1C}' <= c <= '\U{1E}') || c == '\U{85}' || c == '\U{2028}' || c == '\U{2029}'
  }

  /** Every line boundary is whitespace. */
  lemma BoundaryIsSpace(c: char)
    ensures IsLineBoundary(c) ==> IsSpace(c)
  {
  }

  /** Neither end of `s` is whitespace: what `strip()` leaves. */
  predicate Stripped(s: string)
  {
    s == [] || (!IsSpace(s[0]) && !IsSpace(s[|s| - 1]))
  }

  /** Position `i` of `s` is not whitespace, or it is a plain space followed by a character
      that is not whitespace. */
  predicate SpaceOk(s: string, i: nat)
    requires i < |s|
  {
    IsSpace(s[i]) ==> s[i] == ' ' && (i + 1 < |s| ==> !IsSpace(s[i + 1]))
  }

  /** What `re.sub(r"\s+", " ", s)` leaves: every whitespace character is a plain
      space and no two whitespace characters are adjacent. */
  ghost predicate Flat(s: string)
  {
    forall i: nat :: i < |s| ==> SpaceOk(s, i)
  }

  /** The index of the first character at or after `i` that is not whitespace. */
  function SkipSpaces(s: string, i: nat): (j: nat)
    requires i <= |s|
    ensures i <= j <= |s|
    ensures j < |s| ==> !IsSpace(s[j])
    decreases |s| - i
  {
    if i < |s| && IsSpace(s[i]) then SkipSpaces(s, i + 1) else i
  }

  /** Everything `SkipSpaces` passes over is whitespace. */
  lemma {:induction false} SkipSpacesSkipped(s: string, i: nat)
    requires i <= |s|
    ensures forall k :: i <= k < SkipSpaces(s, i) ==> IsSpace(s[k])
    decreases |s| - i
  {
    if i < |s| && IsSpace(s[i]) {
      SkipSpacesSkipped(s, i + 1);
    }
  }

  /** The end of `s[..j]` once its trailing whitespace is dropped. */
  function TrimEnd(s: string, j: nat): (e: nat)
    requires j <= |s|
    ensures e <= j
    ensures e > 0 ==> !IsSpace(s[e - 1])
  {
    if j > 0 && IsSpace(s[j - 1]) then TrimEnd(s, j - 1) else j
  }

  /** Everything `TrimEnd` drops is whitespace. */
  lemma {:induction false} TrimEndDropped(s: string, j: nat)
    requires j <= |s|
    ensures forall k :: TrimEnd(s, j) <= k < j ==> IsSpace(s[k])
  {
    if j > 0 && IsSpace(s[j - 1]) {
      TrimEndDropped(s, j - 1);
    }
  }

  /** The Python slice `s[b:e]`, built one character at a time. */
  function Slice(s: string, b: nat, e: nat): (r: string)
    requires b <= e <= |s|
    ensures |r| == e - b
    decreases e - b
  {
    if b == e then [] else [s[b]] + Slice(s, b + 1, e)
  }

  /** `Slice` agrees with Dafny's own subsequence. */
  lemma {:induction false} SliceIsSubsequence(s: string, b: nat, e: nat)
    requires b <= e <= |s|
    ensures Slice(s, b, e) == s[b..e]
    decreases e - b
  {
    if b < e {
      SliceIsSubsequence(s, b + 1, e);
      assert s[b..e] == [s[b]] + s[b + 1..e];
    }
  }

  /** `s[b:].strip()`: what lies between the whitespace after position `b` and the
      trailing whitespace. */
  function StripFrom(s: string, b: nat): (r: string)
    requires b <= |s|
    ensures Stripped(r)
  {
    var lo := SkipSpaces(s, b);
    var hi := TrimEnd(s, |s|);
    if lo < hi then SliceIsSubsequence(s, lo, hi); Slice(s, lo, hi) else []
  }

  /** `s.strip()`. */
  function Strip(s: string): (r: string)
    ensures Stripped(r)
  {
    StripFrom(s, 0)
  }

  /** Every character of `s` is whitespace. */
  predicate Blank(s: string)
  {
    forall i :: 0 <= i < |s| ==> IsSpace(s[i])
  }

  /** `s[b:].strip()` is empty exactly when `s[b:]` is all whitespace. */
  lemma StripFromEmpty(s: string, b: nat)
    requires b <= |s|
    ensures StripFrom(s, b) == [] <==> forall k :: b <= k < |s| ==> IsSpace(s[k])
  {
    var lo := SkipSpaces(s, b);
    SkipSpacesSkipped(s, b);
    TrimEndDropped(s, |s|);
    if lo < |s| {
      assert !IsSpace(s[lo]);
      assert lo < TrimEnd(s, |s|);
    }
  }

  /** `strip()` returns the empty string exactly when every character is whitespace. */
  lemma StripEmpty(s: string)
    ensures Strip(s) == [] <==> Blank(s)
  {
    StripFromEmpty(s, 0);
  }

  /** Stripping leaves a stripped string alone. */
  lemma StripStripped(s: string)
    requires Stripped(s)
    ensures Strip(s) == s
  {
    if s != [] {
      assert SkipSpaces(s, 0) == 0;
      assert TrimEnd(s, |s|) == |s|;
      SliceIsSubsequence(s, 0, |s|);
      assert s[0..|s|] == s;
    }
  }

  /** `s[b:].strip()` is `s[b:]` itself when it holds no whitespace. */
  lemma StripFromNoSpace(s: string, b: nat)
    requires b <= |s|
    requires forall k :: b <= k < |s| ==> !IsSpace(s[k])
    ensures StripFrom(s, b) == s[b..]
  {
    if b < |s| {
      assert SkipSpaces(s, b) == b;
      assert TrimEnd(s, |s|) == |s|;
      SliceIsSubsequence(s, b, |s|);
    }
  }

  /** Stripping `s[b:]` keeps a last character that is not whitespace. */
  lemma StripFromKeepsLast(s: string, b: nat)
    requires b < |s| && !IsSpace(s[|s| - 1])
    ensures StripFrom(s, b) != [] && StripFrom(s, b)[|StripFrom(s, b)| - 1] == s[|s| - 1]
  {
    assert TrimEnd(s, |s|) == |s|;
    SkipSpacesSkipped(s, b);
    assert SkipSpaces(s, b) < |s|;
    SliceIsSubsequence(s, SkipSpaces(s, b), |s|);
  }

  /** Any slice of a flat string is flat. */
  lemma FlatSlice(s: string, a: nat, b: nat)
    requires Flat(s) && a <= b <= |s|
    ensures Flat(s[a..b])
  {
    var t := s[a..b];
    forall i: nat | i < |t|
      ensures SpaceOk(t, i)
    {
      assert SpaceOk(s, a + i);
      assert t[i] == s[a + i];
      if i + 1 < |t| { assert t[i + 1] == s[a + i + 1]; }
    }
  }

  /** Stripping keeps a flat string flat. */
  lemma StripFlat(s: string)
    requires Flat(s)
    ensures Flat(Strip(s))
  {
    var lo := SkipSpaces(s, 0);
    var hi := TrimEnd(s, |s|);
    if lo < hi {
      SliceIsSubsequence(s, lo, hi);
      FlatSlice(s, lo, hi);
    }
  }

  /** Two flat strings stay flat when glued, unless whitespace meets whitespace at the seam. */
  lemma FlatConcat(a: string, b: string)
    requires Flat(a) && Flat(b)
    requires a != [] && b != [] ==> !IsSpace(a[|a| - 1]) || !IsSpace(b[0])
    ensures Flat(a + b)
  {
    var r := a + b;
    forall i: nat | i < |r|
      ensures SpaceOk(r, i)
    {
      if i < |a| {
        assert SpaceOk(a, i);
        assert r[i] == a[i];
        if i + 1 < |a| { assert r[i + 1] == a[i + 1]; }
        else if i + 1 < |r| { assert r[i + 1] == b[0]; }
      } else {
        assert SpaceOk(b, i - |a|);
        assert r[i] == b[i - |a|];
        if i + 1 < |r| { assert r[i + 1] == b[i + 1 - |a|]; }
      }
    }
  }

  /** A single character that is a plain space or not whitespace at all is flat. */
  lemma FlatChar(c: char)
    requires IsSpace(c) ==> c == ' '
    ensures Flat([c])
  {
    assert SpaceOk([c], 0);
  }

  /** `re.sub(r"\s+", " ", s[i..])`: each maximal run of whitespace becomes one space. */
  function CollapseFrom(s: string, i: nat): (r: string)
    requires i <= |s|
    ensures Flat(r)
    ensures i < |s| && !IsSpace(s[i]) ==> r != [] && r[0] == s[i]
    ensures i < |s| && !IsSpace(s[|s| - 1]) ==> r != [] && r[|r| - 1] == s[|s| - 1]
    decreases |s| - i
  {
    if i == |s| then []
    else if IsSpace(s[i]) then
      SkipSpacesSkipped(s, i);
      var rest := CollapseFrom(s, SkipSpaces(s, i));
      FlatChar(' ');
      FlatConcat(" ", rest);
      " " + rest
    else
      var rest := CollapseFrom(s, i + 1);
      FlatChar(s[i]);
      FlatConcat([s[i]], rest);
      [s[i]] + rest
  }

  /** `re.sub(r"\s+", " ", s)`. */
  function Collapse(s: string): (r: string)
    ensures Flat(r)
    ensures Stripped(s) ==> Stripped(r) && (s != [] ==> r != [])
    ensures s != [] && !IsSpace(s[|s| - 1]) ==> r != [] && r[|r| - 1] == s[|s| - 1]
  {
    CollapseFrom(s, 0)
  }

  /** Collapsing whitespace changes nothing in a flat string. */
  lemma {:induction false} CollapseFromFlat(s: string, i: nat)
    requires Flat(s) && i <= |s|
    ensures CollapseFrom(s, i) == s[i..]
    decreases |s| - i
  {
    if i < |s| {
      CollapseFromFlat(s, i + 1);
      if IsSpace(s[i]) {
        assert SpaceOk(s, i);
        assert SkipSpaces(s, i) == i + 1;
      }
      assert s[i..] == [s[i]] + s[i + 1..];
    }
  }

  /** Collapsing whitespace changes nothing in a flat string. */
  lemma CollapseFlat(s: string)
    requires Flat(s)
    ensures Collapse(s) == s
  {
    CollapseFromFlat(s, 0);
  }

  /** `s.replace(from, to)` for single characters. */
  function Replace(s: string, from: char, to: char): (r: string)
    ensures |r| == |s|
    ensures forall i :: 0 <= i < |s| ==> r[i] == (if s[i] == from then to else s[i])
  {
    if s == [] then [] else [if s[0] == from then to else s[0]] + Replace(s[1..], from, to)
  }

  /** `sep.join(parts)`. */
  function Join(parts: seq<string>, sep: string): string
  {
    if parts == [] then []
    else if |parts| == 1 then parts[0]
    else parts[0] + sep + Join(parts[1..], sep)
  }

  /** Joining non-empty, stripped, flat pieces with single spaces gives a stripped, flat string. */
  lemma {:induction false} JoinSpacedFlat(parts: seq<string>)
    requires forall k :: 0 <= k < |parts| ==> parts[k] != [] && Stripped(parts[k]) && Flat(parts[k])
    ensures Flat(Join(parts, " ")) && Stripped(Join(parts, " "))
    ensures parts != [] ==> Join(parts, " ") != []
    ensures parts != [] ==> Join(parts, " ")[|Join(parts, " ")| - 1] == parts[|parts| - 1][|parts[|parts| - 1]| - 1]
  {
    if |parts| > 1 {
      var rest := Join(parts[1..], " ");
      JoinSpacedFlat(parts[1..]);
      var p := parts[0];
      FlatChar(' ');
      FlatConcat(p, " ");
      FlatConcat(p + " ", rest);
      assert p + " " + rest == Join(parts, " ");
    }
  }

  /** The index of the first line boundary at or after `i`, or `|s|` when there is none. */
  function LineEnd(s: string, i: nat): (e: nat)
    requires i <= |s|
    ensures i <= e <= |s|
    ensures e < |s| ==> IsLineBoundary(s[e])
    decreases |s| - i
  {
    if i == |s| || IsLineBoundary(s[i]) then i else LineEnd(s, i + 1)
  }

  /** No line boundary lies before `LineEnd`. */
  lemma {:induction false} LineEndClear(s: string, i: nat)
    requires i <= |s|
    ensures forall k :: i <= k < LineEnd(s, i) ==> !IsLineBoundary(s[k])
    decreases |s| - i
  {
    if i < |s| && !IsLineBoundary(s[i]) {
      LineEndClear(s, i + 1);
    }
  }

  /** Where the next line starts after the boundary at `e`: "\r\n" counts as one boundary. */
  function NextLineStart(s: string, e: nat): (n: nat)
    requires e < |s|
    ensures e < n <= |s|
  {
    if s[e] == '\r' && e + 1 < |s| && s[e + 1] == '\n' then e + 2 else e + 1
  }

  /** `s[i..].splitlines()`. */
  function SplitLinesFrom(s: string, i: nat): (lines: seq<string>)
    requires i <= |s|
    ensures forall k, j :: 0 <= k < |lines| && 0 <= j < |lines[k]| ==> !IsLineBoundary(lines[k][j])
    decreases |s| - i
  {
    if i == |s| then []
    else
      var e := LineEnd(s, i);
      var line := Slice(s, i, e);
      LineEndClear(s, i);
      SliceIsSubsequence(s, i, e);
      if e == |s| then [line] else [line] + SplitLinesFrom(s, NextLineStart(s, e))
  }

  /** `s.splitlines()`. */
  function SplitLines(s: string): (lines: seq<string>)
    ensures forall k, j :: 0 <= k < |lines| && 0 <= j < |lines[k]| ==> !IsLineBoundary(lines[k][j])
  {
    SplitLinesFrom(s, 0)
  }

  /** When `s[i..]` is all whitespace, so is every line of it. */
  lemma {:induction false} SplitLinesFromBlank(s: string, i: nat)
    requires i <= |s|
    requires forall k :: i <= k < |s| ==> IsSpace(s[k])
    ensures forall k :: 0 <= k < |SplitLinesFrom(s, i)| ==> Blank(SplitLinesFrom(s, i)[k])
    decreases |s| - i
  {
    if i < |s| {
      var e := LineEnd(s, i);
      SliceIsSubsequence(s, i, e);
      if e < |s| {
        SplitLinesFromBlank(s, NextLineStart(s, e));
      }
    }
  }

  /** A character of `s[i..]` that is not whitespace lands on a line that is not blank. */
  lemma {:induction false} SplitLinesFromVisible(s: string, i: nat, p: nat)
    requires i <= p < |s| && !IsSpace(s[p])
    ensures exists k :: 0 <= k < |SplitLinesFrom(s, i)| && !Blank(SplitLinesFrom(s, i)[k])
    decreases |s| - i
  {
    var e := LineEnd(s, i);
    var lines := SplitLinesFrom(s, i);
    if p < e {
      SliceIsSubsequence(s, i, e);
      assert lines[0][p - i] == s[p];
    } else {
      BoundaryIsSpace(s[p]);
      var n := NextLineStart(s, e);
      assert p >= n by {
        if n == e + 2 { BoundaryIsSpace(s[e + 1]); }
      }
      SplitLinesFromVisible(s, n, p);
      var k :| 0 <= k < |SplitLinesFrom(s, n)| && !Blank(SplitLinesFrom(s, n)[k]);
      assert lines[k + 1] == SplitLinesFrom(s, n)[k];
    }
  }

  /** A non-empty string without line boundaries is a single line. */
  lemma SplitLinesSingle(s: string)
    requires s != []
    requires forall i :: 0 <= i < |s| ==> !IsLineBoundary(s[i])
    ensures SplitLines(s) == [s]
  {
    assert LineEnd(s, 0) == |s|;
    SliceIsSubsequence(s, 0, |s|);
    assert s[0..|s|] == s;
  }
}
