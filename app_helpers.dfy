/** The string helpers of the simplification apps: choosing the prompt and system message,
    extracting the tagged answer from a model response, removing Markdown emphasis and
    headers, cleaning log messages, the post-processing of a model reply, and the traffic
    light banding of a score. The app-wide switches `leichte_sprache` and `condense_text`
    are parameters. */
module AppHelpers {
  import opened PyValues
  import opened Text

  /** The rule sets of `utils_prompts`: Einfache Sprache or Leichte Sprache. */
  datatype Rules = RulesEs | RulesLs

  /** The completeness instructions of `utils_prompts`. */
  datatype Completeness = RewriteComplete | RewriteCondensed

  /** The two system messages of `utils_prompts`. */
  datatype SystemMessage = SystemMessageEs | SystemMessageLs

  /** A template filled by `.format`: which template, with which rules, which completeness
      instruction (analysis templates take none) and which text. The templates' wording is
      not modelled; `T` is whatever names them. */
  datatype Prompt<T> = Prompt(template: T, rules: Rules, completeness: Option<Completeness>, text: string)

  /** `create_prompt` as the nested `if` statements of the multi-model apps write it. */
  function CreatePromptNested<T>(text: string, promptEs: T, promptLs: T, analysisEs: T, analysisLs: T,
                                 analysis: bool, leichteSprache: bool, condenseText: bool): (Prompt<T>, SystemMessage)
  {
    if analysis then
      if leichteSprache then (Prompt(analysisLs, RulesLs, None, text), SystemMessageLs)
      else (Prompt(analysisEs, RulesEs, None, text), SystemMessageEs)
    else
      if leichteSprache then
        if condenseText then (Prompt(promptLs, RulesLs, Some(RewriteCondensed), text), SystemMessageLs)
        else (Prompt(promptLs, RulesLs, Some(RewriteComplete), text), SystemMessageLs)
      else (Prompt(promptEs, RulesEs, Some(RewriteComplete), text), SystemMessageEs)
  }

  /** `create_prompt` as the conditional expressions of the Anthropic and OpenAI apps
      write it. */
  function CreatePromptConditional<T>(text: string, promptEs: T, promptLs: T, analysisEs: T, analysisLs: T,
                                      analysis: bool, leichteSprache: bool, condenseText: bool): (Prompt<T>, SystemMessage)
  {
    if analysis then
      var finalPrompt := if leichteSprache then Prompt(analysisLs, RulesLs, None, text) else Prompt(analysisEs, RulesEs, None, text);
      var system := if leichteSprache then SystemMessageLs else SystemMessageEs;
      (finalPrompt, system)
    else if leichteSprache then
      var completeness := if condenseText then RewriteCondensed else RewriteComplete;
      (Prompt(promptLs, RulesLs, Some(completeness), text), SystemMessageLs)
    else
      (Prompt(promptEs, RulesEs, Some(RewriteComplete), text), SystemMessageEs)
  }

  /** The fixed templates of the OpenAI-only app. */
  datatype TemplateConstant = TemplateEs | TemplateLs | TemplateAnalysisEs | TemplateAnalysisLs

  /** `create_prompt(text, analysis)` of the OpenAI-only app: the conditional form with the
      `TEMPLATE_*` constants. */
  function CreatePromptFixed(text: string, analysis: bool, leichteSprache: bool, condenseText: bool): (Prompt<TemplateConstant>, SystemMessage)
  {
    CreatePromptConditional(text, TemplateEs, TemplateLs, TemplateAnalysisEs, TemplateAnalysisLs, analysis, leichteSprache, condenseText)
  }

  /** Both ways of writing `create_prompt` choose the same prompt and system message. */
  lemma CreatePromptFormsAgree<T>(text: string, promptEs: T, promptLs: T, analysisEs: T, analysisLs: T,
                                  analysis: bool, leichteSprache: bool, condenseText: bool)
    ensures CreatePromptNested(text, promptEs, promptLs, analysisEs, analysisLs, analysis, leichteSprache, condenseText)
         == CreatePromptConditional(text, promptEs, promptLs, analysisEs, analysisLs, analysis, leichteSprache, condenseText)
  {
  }

  /** The selection rules: the Leichte Sprache system message exactly when that switch is
      set, its rules with it; analysis templates take rules and text only; rewriting is
      condensed only for Leichte Sprache with `condense_text`; the text is passed on. */
  lemma CreatePromptSelection<T>(text: string, promptEs: T, promptLs: T, analysisEs: T, analysisLs: T,
                                 analysis: bool, leichteSprache: bool, condenseText: bool)
    ensures var (p, system) := CreatePromptNested(text, promptEs, promptLs, analysisEs, analysisLs, analysis, leichteSprache, condenseText);
            && (system == SystemMessageLs <==> leichteSprache)
            && (p.rules == RulesLs <==> leichteSprache)
            && p.text == text
            && (analysis ==> p.completeness == None && p.template == (if leichteSprache then analysisLs else analysisEs))
            && (!analysis ==> p.template == (if leichteSprache then promptLs else promptEs))
            && (!analysis ==> p.completeness == Some(if leichteSprache && condenseText then RewriteCondensed else RewriteComplete))
  {
  }

  /** The OpenAI-only app picks its fixed templates by the same rules: the analysis
      templates exactly when `analysis` is set, the Leichte Sprache ones exactly when that
      switch is set. */
  lemma CreatePromptFixedTemplates(text: string, analysis: bool, leichteSprache: bool, condenseText: bool)
    ensures var (p, system) := CreatePromptFixed(text, analysis, leichteSprache, condenseText);
            && (p.template in {TemplateAnalysisEs, TemplateAnalysisLs} <==> analysis)
            && (p.template in {TemplateLs, TemplateAnalysisLs} <==> leichteSprache)
            && (system == SystemMessageLs <==> leichteSprache)
            && p.text == text
            && (p.completeness == Some(RewriteCondensed) <==> !analysis && leichteSprache && condenseText)
  {
    CreatePromptFormsAgree(text, TemplateEs, TemplateLs, TemplateAnalysisEs, TemplateAnalysisLs, analysis, leichteSprache, condenseText);
    CreatePromptSelection(text, TemplateEs, TemplateLs, TemplateAnalysisEs, TemplateAnalysisLs, analysis, leichteSprache, condenseText);
  }

  /** `pat` occurs in `s` at position `i`. */
  predicate StartsAt(s: string, pat: string, i: nat)
  {
    i + |pat| <= |s| && s[i..i + |pat|] == pat
  }

  /** The first position at or after `i` where `pat` occurs. */
  function IndexOf(s: string, pat: string, i: nat): (k: Option<nat>)
    requires i <= |s|
    ensures k.Some? ==> i <= k.value <= |s| && StartsAt(s, pat, k.value)
    decreases |s| - i
  {
    if StartsAt(s, pat, i) then Some(i)
    else if i == |s| then None
    else IndexOf(s, pat, i + 1)
  }

  /** `IndexOf` finds the first occurrence, and `None` means there is none. */
  lemma {:induction false} IndexOfFirst(s: string, pat: string, i: nat)
    requires i <= |s|
    ensures IndexOf(s, pat, i).Some? ==> forall j :: i <= j < IndexOf(s, pat, i).value ==> !StartsAt(s, pat, j)
    ensures IndexOf(s, pat, i).None? ==> forall j :: i <= j ==> !StartsAt(s, pat, j)
    decreases |s| - i
  {
    if !StartsAt(s, pat, i) && i < |s| {
      IndexOfFirst(s, pat, i + 1);
    }
  }

  /** `re.findall(open + "(.*?)" + close, s[i..], re.DOTALL)`: the leftmost opening tag,
      the shortest stretch up to the next closing tag, and the search resumes after it. */
  function FindTagged(s: string, open: string, close: string, i: nat): seq<string>
    requires i <= |s|
    decreases |s| - i
  {
    match IndexOf(s, open, i)
    case None => []
    case Some(p) =>
      if p + |open| > |s| then []
      else
        match IndexOf(s, close, p + |open|)
        case None => []
        case Some(q) =>
          if q + |close| > |s| || q + |close| <= i then []
          else [s[p + |open|..q]] + FindTagged(s, open, close, q + |close|)
  }

  /** The tag the answer is wrapped in. */
  function Tag(leichteSprache: bool): string
  {
    if leichteSprache then "leichtesprache" else "einfachesprache"
  }

  /** `get_result_from_response` with the tag chosen first: the segments joined by line
      breaks, stripped. */
  function ResultFromResponse(response: string, leichteSprache: bool): string
  {
    var tag := Tag(leichteSprache);
    Strip(Join(FindTagged(response, "<" + tag + ">", "</" + tag + ">", 0), "\n"))
  }

  /** `get_result_from_response` with one `re.findall` per branch, as in the Azure and
      OpenAI multi-model apps. */
  function ResultFromResponseBranches(response: string, leichteSprache: bool): string
  {
    var result := if leichteSprache then FindTagged(response, "<leichtesprache>", "</leichtesprache>", 0)
                  else FindTagged(response, "<einfachesprache>", "</einfachesprache>", 0);
    Strip(Join(result, "\n"))
  }

  /** Both ways of writing `get_result_from_response` agree. */
  lemma ResultFormsAgree(response: string, leichteSprache: bool)
    ensures ResultFromResponse(response, leichteSprache) == ResultFromResponseBranches(response, leichteSprache)
  {
    assert "<" + Tag(true) + ">" == "<leichtesprache>";
    assert "</" + Tag(true) + ">" == "</leichtesprache>";
    assert "<" + Tag(false) + ">" == "<einfachesprache>";
    assert "</" + Tag(false) + ">" == "</einfachesprache>";
  }

  /** Without an opening tag followed somewhere by a closing tag there is no segment and
      the result is empty. */
  lemma NoPairNoResult(response: string, leichteSprache: bool)
    requires var open := "<" + Tag(leichteSprache) + ">";
             var close := "</" + Tag(leichteSprache) + ">";
             forall p, q :: 0 <= p && p + |open| <= q && StartsAt(response, open, p) ==> !StartsAt(response, close, q)
    ensures ResultFromResponse(response, leichteSprache) == ""
  {
    var open := "<" + Tag(leichteSprache) + ">";
    var close := "</" + Tag(leichteSprache) + ">";
    IndexOfFirst(response, open, 0);
    match IndexOf(response, open, 0)
    case None =>
    case Some(p) =>
      if p + |open| <= |response| {
        IndexOfFirst(response, close, p + |open|);
      }
  }

  /** One opening tag, a body without '<', and a closing tag starting with '<' form
      exactly one segment: the body. */
  lemma SingleTaggedSegment(open: string, body: string, close: string)
    requires open != [] && close != [] && close[0] == '<'
    requires forall i :: 0 <= i < |body| ==> body[i] != '<'
    ensures FindTagged(open + body + close, open, close, 0) == [body]
  {
    var s := open + body + close;
    assert StartsAt(s, open, 0) by { assert s[0..|open|] == open; }
    var q := |open| + |body|;
    assert StartsAt(s, close, q) by { assert s[q..q + |close|] == close; }
    forall j | |open| <= j < q
      ensures !StartsAt(s, close, j)
    {
      assert s[j] == body[j - |open|];
    }
    IndexOfNotBefore(s, close, |open|, q);
    assert s[|open|..q] == body;
    assert FindTagged(s, open, close, |s|) == [] by {
      assert !StartsAt(s, open, |s|);
    }
  }

  /** A response that is exactly one tagged answer without '<' inside gives that answer,
      stripped. */
  lemma SingleTaggedAnswer(body: string, leichteSprache: bool)
    requires forall i :: 0 <= i < |body| ==> body[i] != '<'
    ensures var tag := Tag(leichteSprache);
            ResultFromResponse("<" + tag + ">" + body + "</" + tag + ">", leichteSprache) == Strip(body)
  {
    var tag := Tag(leichteSprache);
    var open := "<" + tag + ">";
    var close := "</" + tag + ">";
    SingleTaggedSegment(open, body, close);
    assert open + body + close == "<" + tag + ">" + body + "</" + tag + ">";
  }

  /** When `pat` does not occur from `i` up to `q` but occurs at `q`, `IndexOf` finds `q`. */
  lemma {:induction false} IndexOfNotBefore(s: string, pat: string, i: nat, q: nat)
    requires i <= q <= |s|
    requires forall j :: i <= j < q ==> !StartsAt(s, pat, j)
    requires StartsAt(s, pat, q)
    ensures IndexOf(s, pat, i) == Some(q)
    decreases q - i
  {
    if i < q {
      IndexOfNotBefore(s, pat, i + 1, q);
    }
  }

  /** The end of the run of '#' starting at `i`. */
  function SkipHashes(s: string, i: nat): (j: nat)
    requires i <= |s|
    ensures i <= j <= |s| && (j < |s| ==> s[j] != '#')
    decreases |s| - i
  {
    if i < |s| && s[i] == '#' then SkipHashes(s, i + 1) else i
  }

  /** `re.sub(r"#+\s", "", s[i..])`: a run of '#' followed by one whitespace character is
      dropped, wherever it occurs; a run followed by anything else is kept. */
  function RemoveHeadersFrom(s: string, i: nat): string
    requires i <= |s|
    decreases |s| - i
  {
    if i == |s| then []
    else if s[i] == '#' && SkipHashes(s, i) < |s| && IsSpace(s[SkipHashes(s, i)]) then
      RemoveHeadersFrom(s, SkipHashes(s, i) + 1)
    else [s[i]] + RemoveHeadersFrom(s, i + 1)
  }

  /** `re.sub(r"\*\*|\*|__|_", "", s[i..])`: the alternatives tried in order at each position. */
  function RemoveEmphasisFrom(s: string, i: nat): string
    requires i <= |s|
    decreases |s| - i
  {
    if i == |s| then []
    else if StartsAt(s, "**", i) || StartsAt(s, "__", i) then RemoveEmphasisFrom(s, i + 2)
    else if s[i] == '*' || s[i] == '_' then RemoveEmphasisFrom(s, i + 1)
    else [s[i]] + RemoveEmphasisFrom(s, i + 1)
  }

  /** Emphasis marks. */
  predicate IsEmphasis(c: char)
  {
    c == '*' || c == '_'
  }

  /** The characters of `s[i..]` that are not emphasis marks, in order. */
  function WithoutEmphasis(s: string, i: nat): (r: string)
    requires i <= |s|
    ensures forall k :: 0 <= k < |r| ==> !IsEmphasis(r[k])
    decreases |s| - i
  {
    if i == |s| then []
    else if IsEmphasis(s[i]) then WithoutEmphasis(s, i + 1)
    else [s[i]] + WithoutEmphasis(s, i + 1)
  }

  /** However the alternation splits a run of marks, every '*' and '_' goes and nothing
      else does. */
  lemma {:induction false} RemoveEmphasisDeletesMarks(s: string, i: nat)
    requires i <= |s|
    ensures RemoveEmphasisFrom(s, i) == WithoutEmphasis(s, i)
    decreases |s| - i
  {
    if i < |s| {
      if StartsAt(s, "**", i) || StartsAt(s, "__", i) {
        assert s[i..i + 2][0] == s[i] && s[i..i + 2][1] == s[i + 1];
        RemoveEmphasisDeletesMarks(s, i + 2);
        assert WithoutEmphasis(s, i + 1) == WithoutEmphasis(s, i + 2);
      } else {
        RemoveEmphasisDeletesMarks(s, i + 1);
      }
    }
  }

  /** `strip_markdown`: header marks first, then emphasis marks. */
  function StripMarkdown(text: string): (r: string)
    ensures forall k :: 0 <= k < |r| ==> !IsEmphasis(r[k])
  {
    var noHeaders := RemoveHeadersFrom(text, 0);
    RemoveEmphasisDeletesMarks(noHeaders, 0);
    RemoveEmphasisFrom(noHeaders, 0)
  }

  /** Text without '#' keeps its headers pass unchanged. */
  lemma {:induction false} RemoveHeadersNoHash(s: string, i: nat)
    requires i <= |s|
    requires forall k :: 0 <= k < |s| ==> s[k] != '#'
    ensures RemoveHeadersFrom(s, i) == s[i..]
    decreases |s| - i
  {
    if i < |s| {
      RemoveHeadersNoHash(s, i + 1);
      assert s[i..] == [s[i]] + s[i + 1..];
    }
  }

  /** Text without emphasis marks is left alone by the emphasis pass. */
  lemma {:induction false} WithoutEmphasisNone(s: string, i: nat)
    requires i <= |s|
    requires forall k :: 0 <= k < |s| ==> !IsEmphasis(s[k])
    ensures WithoutEmphasis(s, i) == s[i..]
    decreases |s| - i
  {
    if i < |s| {
      WithoutEmphasisNone(s, i + 1);
      assert s[i..] == [s[i]] + s[i + 1..];
    }
  }

  /** Text without '#', '*' and '_' is returned unchanged. */
  lemma StripMarkdownPlain(text: string)
    requires forall k :: 0 <= k < |text| ==> text[k] != '#' && !IsEmphasis(text[k])
    ensures StripMarkdown(text) == text
  {
    RemoveHeadersNoHash(text, 0);
    assert text[0..] == text;
    RemoveEmphasisDeletesMarks(text, 0);
    WithoutEmphasisNone(text, 0);
  }

  /** A header mark is removed together with the space after it. */
  lemma StripMarkdownHeader()
    ensures StripMarkdown("## Titel") == "Titel"
  {
    var s := "## Titel";
    assert SkipHashes(s, 0) == 2;
    assert RemoveHeadersFrom(s, 0) == RemoveHeadersFrom(s, 3);
    assert forall k :: 3 <= k < |s| ==> s[k] != '#';
    RemoveHeadersTail(s, 3);
    assert s[3..] == "Titel";
    StripMarkdownPlainTail("Titel");
  }

  /** Past the last '#' the headers pass copies the rest. */
  lemma {:induction false} RemoveHeadersTail(s: string, i: nat)
    requires i <= |s|
    requires forall k :: i <= k < |s| ==> s[k] != '#'
    ensures RemoveHeadersFrom(s, i) == s[i..]
    decreases |s| - i
  {
    if i < |s| {
      RemoveHeadersTail(s, i + 1);
      assert s[i..] == [s[i]] + s[i + 1..];
    }
  }

  /** The emphasis pass leaves a plain word alone. */
  lemma StripMarkdownPlainTail(w: string)
    requires forall k :: 0 <= k < |w| ==> !IsEmphasis(w[k])
    ensures RemoveEmphasisFrom(w, 0) == w
  {
    RemoveEmphasisDeletesMarks(w, 0);
    WithoutEmphasisNone(w, 0);
  }

  /** `clean_log`: line breaks, then tabs, become spaces. */
  function CleanLog(text: string): string
  {
    Replace(Replace(text, '\n', ' '), '\t', ' ')
  }

  /** The result has the input's length, no line break and no tab, and every other
      character is kept in place. */
  lemma CleanLogSpec(text: string)
    ensures |CleanLog(text)| == |text|
    ensures forall i :: 0 <= i < |text| ==>
              CleanLog(text)[i] == (if text[i] == '\n' || text[i] == '\t' then ' ' else text[i])
    ensures forall i :: 0 <= i < |text| ==> CleanLog(text)[i] != '\n' && CleanLog(text)[i] != '\t'
  {
  }

  /** What the model API call ended with: an exception with its message, or a message
      whose content may be `None`. */
  datatype Reply = Raised(message: string) | Answered(content: Option<string>)

  /** The post-processing in `invoke_model` of the OpenAI-only app: the success flag and
      the text. */
  function InvokeOutcome(reply: Reply, leichteSprache: bool): (bool, string)
  {
    match reply
    case Raised(message) => (false, message)
    case Answered(None) => (false, "No content received from API")
    case Answered(Some(content)) => (true, StripMarkdown(ResultFromResponse(Strip(content), leichteSprache)))
  }

  /** The call succeeds exactly when content arrives; its text is then free of emphasis
      marks, and is empty when the content holds no tagged answer. */
  lemma InvokeOutcomeSpec(reply: Reply, leichteSprache: bool)
    ensures InvokeOutcome(reply, leichteSprache).0 <==> reply.Answered? && reply.content.Some?
    ensures reply == Answered(None) ==> InvokeOutcome(reply, leichteSprache).1 == "No content received from API"
    ensures reply.Raised? ==> InvokeOutcome(reply, leichteSprache).1 == reply.message
    ensures var r := InvokeOutcome(reply, leichteSprache);
            r.0 ==> forall k :: 0 <= k < |r.1| ==> !IsEmphasis(r.1[k])
  {
  }

  /** The three messages shown for a score. */
  datatype Band = Hard | Medium | Good

  /** The banding of the apps: below `limitHard` is hard to understand, from `limitHard`
      up to `limitMedium` medium, otherwise good. */
  function ScoreBand(score: real, limitHard: real, limitMedium: real): Band
  {
    if score < limitHard then Hard
    else if score >= limitHard && score < limitMedium then Medium
    else Good
  }

  /** The limits of the ZIX apps (-10..10 scale). */
  const ZixLimitHard := 0.0
  const ZixLimitMedium := -2.0

  /** The limits of the Azure app (0..20 scale). */
  const TwentyLimitHard := 13.0
  const TwentyLimitMedium := 16.0

  /** With the medium limit not above the hard one, the medium band is empty. */
  lemma NoMediumBandWhenLimitsCross(score: real, limitHard: real, limitMedium: real)
    requires limitMedium <= limitHard
    ensures ScoreBand(score, limitHard, limitMedium) != Medium
    ensures ScoreBand(score, limitHard, limitMedium) == Hard <==> score < limitHard
  {
  }

  /** In the ZIX apps a score is hard below 0 and good otherwise; "medium" never shows. */
  lemma ZixBands(score: real)
    ensures ScoreBand(score, ZixLimitHard, ZixLimitMedium) == (if score < 0.0 then Hard else Good)
  {
    NoMediumBandWhenLimitsCross(score, ZixLimitHard, ZixLimitMedium);
  }

  /** With the two ZIX limits the other way round, all three bands show: hard below -2,
      medium from -2 below 0, good from 0 on. */
  lemma ZixBandsCorrected(score: real)
    ensures ScoreBand(score, ZixLimitMedium, ZixLimitHard) == Hard <==> score < -2.0
    ensures ScoreBand(score, ZixLimitMedium, ZixLimitHard) == Medium <==> -2.0 <= score < 0.0
    ensures ScoreBand(score, ZixLimitMedium, ZixLimitHard) == Good <==> score >= 0.0
  {
  }

  /** In the Azure app the three bands are below 13, from 13 below 16, and from 16 on. */
  lemma TwentyBands(score: real)
    ensures ScoreBand(score, TwentyLimitHard, TwentyLimitMedium) == Hard <==> score < 13.0
    ensures ScoreBand(score, TwentyLimitHard, TwentyLimitMedium) == Medium <==> 13.0 <= score < 16.0
    ensures ScoreBand(score, TwentyLimitHard, TwentyLimitMedium) == Good <==> score >= 16.0
  {
  }
}
