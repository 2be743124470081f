/** The normaliser of the earlier 0-20 scorer (`punctuate_paragraphs_and_bulleted_lists`),
    taken as its regular expressions actually behave: one space is appended, a '.' is
    inserted after the last character of every line whose second-to-last character is
    not '.', a bullet after leading whitespace is removed at every line start (the
    whitespace class also matches line breaks, so blank lines just before a bullet line
    are removed with it), line breaks become spaces, whitespace runs shrink to one space,
    and the ends are stripped. */
module ParagraphPunctuation {
  import opened Text
  import LinePunctuation

  /** No line break occurs in `s`. */
  predicate SingleLine(s: string)
  {
    forall i :: 0 <= i < |s| ==> s[i] != '\n'
  }

  /** `(?<!(\.))[^\n]$` under `re.MULTILINE` matches the character at `p`: it is not a
      line break, the string ends or a line break follows, and the character before it,
      if any, is not '.'. */
  predicate DotAfter(s: string, p: nat)
    requires p < |s|
  {
    s[p] != '\n' && (p + 1 == |s| || s[p + 1] == '\n') && !(p > 0 && s[p - 1] == '.')
  }

  /** The substitution by `\g<0>.` on `s[i..]`: every matched character is followed by '.'. */
  function InsertDotsFrom(s: string, i: nat): string
    requires i <= |s|
    decreases |s| - i
  {
    if i == |s| then []
    else [s[i]] + (if DotAfter(s, i) then "." else "") + InsertDotsFrom(s, i + 1)
  }

  /** `re.sub(r"(?<!(\.))[^\n]$", r"\g<0>.", s, flags=re.MULTILINE)`. */
  function InsertDots(s: string): string
  {
    InsertDotsFrom(s, 0)
  }

  /** On one line only the last character can be matched. */
  lemma {:induction false} InsertDotsFromLine(s: string, i: nat)
    requires SingleLine(s) && i <= |s|
    ensures InsertDotsFrom(s, i) == s[i..] + (if i < |s| && DotAfter(s, |s| - 1) then "." else "")
    decreases |s| - i
  {
    if i < |s| {
      InsertDotsFromLine(s, i + 1);
      if i + 1 < |s| {
        assert !DotAfter(s, i);
      }
      assert s[i..] == [s[i]] + s[i + 1..];
    }
  }

  /** A single line gets a '.' at its end unless its second-to-last character is '.':
      the look-behind inspects the character before the last one, not the last one. */
  lemma InsertDotsLine(s: string)
    requires SingleLine(s)
    ensures InsertDots(s) == if s == [] then [] else if |s| >= 2 && s[|s| - 2] == '.' then s else s + "."
  {
    InsertDotsFromLine(s, 0);
    assert s[0..] == s;
  }

  /** Positions inside the first line see the same neighbours whatever follows its line break. */
  lemma {:induction false} InsertDotsFromPrefix(a: string, b: string, i: nat)
    requires i <= |a|
    ensures InsertDotsFrom(a + "\n" + b, i) == InsertDotsFrom(a, i) + InsertDotsFrom(a + "\n" + b, |a|)
    decreases |a| - i
  {
    var s := a + "\n" + b;
    if i < |a| {
      InsertDotsFromPrefix(a, b, i + 1);
      assert DotAfter(s, i) == DotAfter(a, i);
    }
  }

  /** Positions of the second part see the same neighbours as in the second part alone:
      the look-behind at its start finds a line break, which is not '.'. */
  lemma {:induction false} InsertDotsFromSuffix(a: string, b: string, j: nat)
    requires j <= |b|
    ensures InsertDotsFrom(a + "\n" + b, |a| + 1 + j) == InsertDotsFrom(b, j)
    decreases |b| - j
  {
    var s := a + "\n" + b;
    if j < |b| {
      InsertDotsFromSuffix(a, b, j + 1);
      assert s[|a| + 1 + j] == b[j];
      assert DotAfter(s, |a| + 1 + j) == DotAfter(b, j);
    }
  }

  /** The substitution works line by line. */
  lemma InsertDotsLines(a: string, b: string)
    ensures InsertDots(a + "\n" + b) == InsertDots(a) + "\n" + InsertDots(b)
  {
    var s := a + "\n" + b;
    InsertDotsFromPrefix(a, b, 0);
    InsertDotsFromSuffix(a, b, 0);
    assert s[|a|] == '\n';
    assert InsertDotsFrom(s, |a|) == "\n" + InsertDotsFrom(s, |a| + 1);
  }

  /** After the trailing space is appended: an inner line "Ja." gets a second dot, an inner
      line "Ja" gets one, and the last line "Ja" ends in " ." because its last character
      is the appended space. */
  lemma InsertDotsExample()
    ensures InsertDots("Ja.\nJa\nJa ") == "Ja..\nJa.\nJa ."
  {
    var inner1, inner2, last := "Ja.", "Ja", "Ja ";
    InsertDotsLine(inner1);
    InsertDotsLine(inner2);
    InsertDotsLine(last);
    InsertDotsLines(inner2, last);
    InsertDotsLines(inner1, inner2 + "\n" + last);
    assert "Ja.\nJa\nJa " == inner1 + "\n" + (inner2 + "\n" + last);
    assert "Ja..\nJa.\nJa ." == InsertDots(inner1) + "\n" + (InsertDots(inner2) + "\n" + InsertDots(last));
  }

  /** `^[\s]*[-•]` under `re.MULTILINE` matches at `i`: `i` starts a line and the first
      character after the whitespace from `i` on (line breaks included) is a bullet. */
  predicate BulletAt(s: string, i: nat)
    requires i <= |s|
  {
    (i == 0 || s[i - 1] == '\n') && SkipSpaces(s, i) < |s| && LinePunctuation.IsBullet(s[SkipSpaces(s, i)])
  }

  /** The substitution by "" on `s[i..]`: a match is dropped and the scan resumes after it. */
  function RemoveBulletsFrom(s: string, i: nat): string
    requires i <= |s|
    decreases |s| - i
  {
    if i == |s| then []
    else if BulletAt(s, i) then RemoveBulletsFrom(s, SkipSpaces(s, i) + 1)
    else [s[i]] + RemoveBulletsFrom(s, i + 1)
  }

  /** `re.sub(r"^[\s]*[-•]", "", s, flags=re.MULTILINE)`. */
  function RemoveBullets(s: string): string
  {
    RemoveBulletsFrom(s, 0)
  }

  /** Past the start of a single line nothing matches. */
  lemma {:induction false} RemoveBulletsFromLine(s: string, i: nat)
    requires SingleLine(s) && 0 < i <= |s|
    ensures RemoveBulletsFrom(s, i) == s[i..]
    decreases |s| - i
  {
    if i < |s| {
      RemoveBulletsFromLine(s, i + 1);
      assert s[i..] == [s[i]] + s[i + 1..];
    }
  }

  /** A single line loses its leading whitespace and one bullet, if the first character
      after the whitespace is a bullet, and is otherwise unchanged. */
  lemma RemoveBulletsLine(s: string)
    requires SingleLine(s)
    ensures RemoveBullets(s) == if BulletAt(s, 0) then s[SkipSpaces(s, 0) + 1..] else s
  {
    if s != [] {
      if BulletAt(s, 0) {
        RemoveBulletsFromLine(s, SkipSpaces(s, 0) + 1);
      } else {
        RemoveBulletsFromLine(s, 1);
        assert s == [s[0]] + s[1..];
      }
    }
  }

  /** Skipping whitespace from inside `a` ends at the same place in `a + t` when it ends
      inside `a`. */
  lemma {:induction false} SkipSpacesPrefix(a: string, t: string, i: nat)
    requires i <= |a| && SkipSpaces(a, i) < |a|
    ensures SkipSpaces(a + t, i) == SkipSpaces(a, i)
    decreases |a| - i
  {
    assert (a + t)[i] == a[i];
    if IsSpace(a[i]) {
      SkipSpacesPrefix(a, t, i + 1);
    }
  }

  /** Skipping whitespace inside the second part of `a + b` is skipping it in `b`. */
  lemma {:induction false} SkipSpacesSuffix(a: string, b: string, j: nat)
    requires j <= |b|
    ensures SkipSpaces(a + b, |a| + j) == |a| + SkipSpaces(b, j)
    decreases |b| - j
  {
    if j < |b| {
      assert (a + b)[|a| + j] == b[j];
      if IsSpace(b[j]) {
        SkipSpacesSuffix(a, b, j + 1);
      }
    }
  }

  /** The last line of `a` holds the non-whitespace character at `p`. */
  predicate LastLineVisible(a: string, p: nat)
  {
    p < |a| && !IsSpace(a[p]) && forall k :: p < k < |a| ==> a[k] != '\n'
  }

  /** At a position inside `a`, a match is found, and ends, as in `a` alone, whatever
      follows, when the last line of `a` holds a non-whitespace character: a match from a
      line start of `a` ends at that character at the latest. */
  lemma BulletAtPrefix(a: string, t: string, p: nat, i: nat)
    requires LastLineVisible(a, p) && i < |a|
    ensures BulletAt(a + t, i) == BulletAt(a, i)
    ensures BulletAt(a, i) ==> SkipSpaces(a + t, i) == SkipSpaces(a, i)
  {
    var s := a + t;
    if i > 0 {
      assert s[i - 1] == a[i - 1];
    }
    if i == 0 || a[i - 1] == '\n' {
      assert i <= p;
      SkipSpacesSkipped(a, i);
      SkipSpacesPrefix(a, t, i);
      assert s[SkipSpaces(a, i)] == a[SkipSpaces(a, i)];
    }
  }

  /** Positions inside `a` see the same matches whatever follows it, when its last line
      holds a non-whitespace character. */
  lemma {:induction false} RemoveBulletsFromPrefix(a: string, t: string, p: nat, i: nat)
    requires LastLineVisible(a, p) && i <= |a|
    ensures RemoveBulletsFrom(a + t, i) == RemoveBulletsFrom(a, i) + RemoveBulletsFrom(a + t, |a|)
    decreases |a| - i
  {
    var s := a + t;
    if i < |a| {
      BulletAtPrefix(a, t, p, i);
      if BulletAt(a, i) {
        RemoveBulletsFromPrefix(a, t, p, SkipSpaces(a, i) + 1);
        assert RemoveBulletsFrom(s, i) == RemoveBulletsFrom(s, SkipSpaces(s, i) + 1);
        assert RemoveBulletsFrom(a, i) == RemoveBulletsFrom(a, SkipSpaces(a, i) + 1);
      } else {
        assert s[i] == a[i];
        RemoveBulletsFromPrefix(a, t, p, i + 1);
        assert RemoveBulletsFrom(s, i) == [s[i]] + RemoveBulletsFrom(s, i + 1);
        assert RemoveBulletsFrom(a, i) == [a[i]] + RemoveBulletsFrom(a, i + 1);
      }
    }
  }

  /** After a line break, a match is found, and ends, as in the text that follows it
      alone: the first position after the break starts a line, as it does in `b`. */
  lemma BulletAtSuffix(pre: string, b: string, j: nat)
    requires pre != [] && pre[|pre| - 1] == '\n' && j < |b|
    ensures BulletAt(pre + b, |pre| + j) == BulletAt(b, j)
    ensures SkipSpaces(pre + b, |pre| + j) == |pre| + SkipSpaces(b, j)
  {
    var s := pre + b;
    SkipSpacesSuffix(pre, b, j);
    if j == 0 {
      assert s[|pre| - 1] == '\n';
    } else {
      assert s[|pre| + j - 1] == b[j - 1];
    }
    if SkipSpaces(b, j) < |b| {
      assert s[|pre| + SkipSpaces(b, j)] == b[SkipSpaces(b, j)];
    }
  }

  /** After a line break, positions see the same matches as in the text that follows it
      alone. */
  lemma {:induction false} RemoveBulletsFromSuffix(pre: string, b: string, j: nat)
    requires pre != [] && pre[|pre| - 1] == '\n' && j <= |b|
    ensures RemoveBulletsFrom(pre + b, |pre| + j) == RemoveBulletsFrom(b, j)
    decreases |b| - j
  {
    var s := pre + b;
    var i := |pre| + j;
    if j == |b| {
      assert i == |s|;
    } else {
      BulletAtSuffix(pre, b, j);
      if BulletAt(b, j) {
        RemoveBulletsFromSuffix(pre, b, SkipSpaces(b, j) + 1);
        assert RemoveBulletsFrom(s, i) == RemoveBulletsFrom(s, SkipSpaces(s, i) + 1);
        assert RemoveBulletsFrom(b, j) == RemoveBulletsFrom(b, SkipSpaces(b, j) + 1);
      } else {
        assert s[i] == b[j];
        RemoveBulletsFromSuffix(pre, b, j + 1);
        assert RemoveBulletsFrom(s, i) == [s[i]] + RemoveBulletsFrom(s, i + 1);
        assert RemoveBulletsFrom(b, j) == [b[j]] + RemoveBulletsFrom(b, j + 1);
      }
    }
  }

  /** The substitution works line by line, at every line start, as long as the first
      part's last line is not blank. */
  lemma RemoveBulletsLines(a: string, b: string, p: nat)
    requires LastLineVisible(a, p)
    ensures RemoveBullets(a + "\n" + b) == RemoveBullets(a) + "\n" + RemoveBullets(b)
  {
    var s := a + "\n" + b;
    assert s == a + ("\n" + b) == (a + "\n") + b;
    RemoveBulletsFromPrefix(a, "\n" + b, p, 0);
    RemoveBulletsFromSuffix(a + "\n", b, 0);
    assert s[|a|] == '\n' && s[|a| - 1] == a[|a| - 1];
    assert !BulletAt(s, |a|);
    assert RemoveBulletsFrom(s, |a|) == "\n" + RemoveBulletsFrom(s, |a| + 1);
  }

  /** `[\s]*` runs across line breaks: a blank line before a bullet line is removed with
      the bullet. */
  lemma BlankLineSwallowed()
    ensures RemoveBullets("x\n \n-y") == "x\ny"
  {
    var a, b := "x", " \n-y";
    RemoveBulletsLines(a, b, 0);
    RemoveBulletsFromNoBullet(a, 0);
    assert a[0..] == a;
    assert SkipSpaces(b, 0) == 2;
    assert BulletAt(b, 0);
    assert RemoveBulletsFrom(b, 3) == "y";
    assert "x\n \n-y" == a + "\n" + b;
  }

  /** Text without a bullet character is left alone. */
  lemma {:induction false} RemoveBulletsFromNoBullet(s: string, i: nat)
    requires i <= |s|
    requires forall k :: 0 <= k < |s| ==> !LinePunctuation.IsBullet(s[k])
    ensures RemoveBulletsFrom(s, i) == s[i..]
    decreases |s| - i
  {
    if i < |s| {
      RemoveBulletsFromNoBullet(s, i + 1);
      assert s[i..] == [s[i]] + s[i + 1..];
    }
  }

  /** `punctuate_paragraphs_and_bulleted_lists(text)`. */
  function Normalise(text: string): (r: string)
    ensures Flat(r) && Stripped(r)
  {
    var dotted := InsertDots(text + " ");
    var unbulleted := RemoveBullets(dotted);
    var collapsed := Collapse(Replace(unbulleted, '\n', ' '));
    StripFlat(collapsed);
    Strip(collapsed)
  }

  /** The output has no line break and no whitespace other than single spaces between
      other characters. */
  lemma NormaliseShape(text: string)
    ensures forall i :: 0 <= i < |Normalise(text)| ==> Normalise(text)[i] != '\n'
    ensures forall i :: 0 <= i && i + 1 < |Normalise(text)| ==> !(IsSpace(Normalise(text)[i]) && IsSpace(Normalise(text)[i + 1]))
  {
    var r := Normalise(text);
    forall i | 0 <= i < |r| ensures r[i] != '\n' {
      assert SpaceOk(r, i);
    }
    forall i | 0 <= i && i + 1 < |r| ensures !(IsSpace(r[i]) && IsSpace(r[i + 1])) {
      assert SpaceOk(r, i);
    }
  }

  /** A word that does not end in '.' and does not start with a bullet gets " ." appended:
      the last line is always followed by the appended space, which is what the dot lands
      after, so a '.' elsewhere in the word does not matter. */
  lemma NormaliseWord(w: string)
    requires w != [] && forall i :: 0 <= i < |w| ==> !IsSpace(w[i])
    requires w[|w| - 1] != '.' && !LinePunctuation.IsBullet(w[0])
    ensures Normalise(w) == w + " ."
  {
    var padded := w + " ";
    assert SingleLine(padded) by {
      forall i | 0 <= i < |padded| ensures padded[i] != '\n' {
        if i < |w| { assert padded[i] == w[i]; }
      }
    }
    InsertDotsLine(padded);
    var dotted := w + " .";
    assert InsertDots(padded) == dotted;
    assert SingleLine(dotted) by {
      forall k | 0 <= k < |dotted| ensures dotted[k] != '\n' {
        if k < |w| { assert dotted[k] == w[k]; }
      }
    }
    assert dotted[0] == w[0];
    assert SkipSpaces(dotted, 0) == 0;
    RemoveBulletsLine(dotted);
    var replaced := Replace(dotted, '\n', ' ');
    assert replaced == dotted by {
      forall k | 0 <= k < |dotted| ensures replaced[k] == dotted[k] {
        if k < |w| { assert dotted[k] == w[k]; }
      }
    }
    assert Flat(dotted) by {
      forall k: nat | k < |dotted| ensures SpaceOk(dotted, k) {
        if k < |w| { assert dotted[k] == w[k]; }
        if k + 1 < |w| { assert dotted[k + 1] == w[k + 1]; }
      }
    }
    CollapseFlat(dotted);
    StripStripped(dotted);
  }
}
