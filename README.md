# Understandability scoring and simplification helpers, in Dafny

This project models the computational core of a German text simplification tool. It
covers four parts:

- **The ZIX understandability score** (`_streamlit_app/utils_understandability.py`).
  1. A text is normalised line by line: strip, drop blank lines, end each line with a
     sentence mark, drop a leading bullet, collapse whitespace, join with spaces.
  2. A spaCy-style document is built, and the metrics component writes seven features
     into the document's `user_data`:
     - mean token length;
     - mean sentence length;
     - the RIX long-word ratio;
     - three cumulative CEFR vocabulary ratios;
     - the common word score.
  3. The features are read back by name, standardised, weighted and clipped to -10..10.
  4. `get_cefr` maps the score to a CEFR level, A1 to C2.
- **The earlier 0..20 score**. This covers `common_word_score` and the paragraph and
  bullet normaliser of `promptflow/eval-simplify/calculate_score.py` and of the Azure
  app. It also covers `calculate_understandability`, clipped to 0..20, and the
  eight-label `get_cefr_level`.
- **The app helpers** of the Streamlit apps:
  - `create_prompt`, in its nested and its conditional form;
  - extracting the answer between `<einfachesprache>` or `<leichtesprache>` tags;
  - `strip_markdown` and `clean_log`;
  - the post-processing of a model reply;
  - the traffic-light banding of a score against the two limits.
- **The promptflow evaluation arithmetic**:
  - both `estimate_cost` variants;
  - `calculate_levels`;
  - both `aggregate` variants;
  - `create_flow_config` and the evaluation run name of the notebooks' helpers.

The models are kept in the form the source has:

- Pure Python helpers are Dafny functions, with lemmas that state what they promise.
- Each loop becomes a method proved against the function that specifies it:
  - the loop of `_punctuate_lines`;
  - the loops of the metrics and `common_word_score` components;
  - the read-back loop of `_extract_features`;
  - `get_zix` itself.
- The spaCy document is a class. Its `user_data` dictionary is a `map` field, which the
  pipeline components update in place.

The modules are:

- `PyValues`: Python values and errors, `sum`, mean, round half to even.
- `Text`: `str.strip`, `splitlines`, whitespace collapsing, `replace` and `join`.
- `SpacyDoc`: tokens, sentences and the document.
- `Metrics`, `LinePunctuation` and `Zix`: the ZIX score.
- `ParagraphPunctuation`, `ScoreTwenty` and `CefrLevel`: the 0..20 score.
- `AppHelpers`: the app helpers.
- `Evaluation`: the evaluation arithmetic.

Python's semantics are written out where they matter:

- `re.findall` finds non-overlapping, shortest matches from the left.
- The alternation `\*\*|\*|__|_` is applied left to right.
- `variant or "default"` treats the empty string as false.
- `isinstance(x, (int, float))` accepts `bool`.
- Division by zero raises `ZeroDivisionError`, and a missing dictionary key raises
  `KeyError`.
- `round` rounds half to even.

Where the prose description of the system and the code differ, the model follows the
code:

- The vocabulary and word-score loop of `_additional_metrics` runs over all tokens,
  punctuation and numbers included, but divides by the number of countable tokens
  (neither punctuation nor number-like).
- The `None` check in `get_cefr` comes after the type check, so it is never reached.
- `calculate_levels` computes a score difference that it never uses.
- The length guard of `get_zix` measures the text before it is normalised, and
  normalising can add a '.', so a text that passes the guard can still exceed spaCy's
  limit (`Zix.GuardBeforeNormalising`). The 0..20 score has no guard at all, so spaCy's
  own check is what fails there.
- The bullet pattern `^[\s]*[-•]` lets its whitespace class cross line breaks, so blank
  lines right before a bullet line are removed with the bullet.

## Model

| member | source | states |
|---|---|---|
| SpacyDoc.Tokenise | _streamlit_app/utils_understandability.py:268-269 | the pipeline raises `ValueError` exactly for a text over its `max_length` of 1,000,000 characters, and otherwise gives the tokeniser's sentences |
| SpacyDoc.CountCountableZero | _streamlit_app/utils_understandability.py:50 | the number of countable tokens is 0 exactly when no token is countable |
| Metrics.VocabCountMonotone | _streamlit_app/utils_understandability.py:71-80 | counting against a larger word list never gives fewer hits |
| Metrics.VocabCountAtMostCountable | _streamlit_app/utils_understandability.py:68-86 | when every listed lemma belongs to a countable token, the hits are at most the countable tokens |
| Metrics.WordScoreSumBounds | _streamlit_app/utils_understandability.py:81-83 | with lexicon scores in lo..hi (lo ≤ 0 ≤ hi), the summed word score lies between n·lo and n·hi for n tokens |
| Metrics.CountVocabulary | _streamlit_app/utils_understandability.py:62-83 | the loop leaves the B1, A2 and A1 counters at the number of tokens whose lowered lemma is in A1∪A2∪B1, A1∪A2 and A1, and the score accumulator at the lexicon total over all tokens |
| Metrics.CumulativeCounts | _streamlit_app/utils_understandability.py:71-80 | the A1 count ≤ the A2 count ≤ the B1 count |
| Metrics.CountableHasLength | _streamlit_app/utils_understandability.py:95-96 | the list of token lengths is at least as long as the number of countable tokens, so its mean is defined when that number is not 0 |
| Metrics.SentenceLengths | _streamlit_app/utils_understandability.py:99-102 | one length per sentence, each between 0 and the sentence's token count |
| Metrics.CountedFeatures | _streamlit_app/utils_understandability.py:86-110 | with a countable token, all seven features are present |
| Metrics.MissingIffNoCountableToken | _streamlit_app/utils_understandability.py:50-60 | a feature is missing exactly when the document has no countable token, and then all seven are None |
| Metrics.CumulativeRatios | _streamlit_app/utils_understandability.py:86-92 | 0 ≤ vocab_a1 ≤ vocab_a2 ≤ vocab_b1 |
| Metrics.VocabRatioAtMostOne | _streamlit_app/utils_understandability.py:68-92 | vocab_b1 ≤ 1 when every listed lemma belongs to a countable token (the counts run over all tokens) |
| Metrics.SentenceLengthMeanBounds | _streamlit_app/utils_understandability.py:99-103 | the mean sentence length lies between 0 and the longest sentence |
| Metrics.WriteOrder | _streamlit_app/utils_understandability.py:89-110 | the component's seven writes in order give the old user data updated with the seven features |
| Metrics.AdditionalMetrics | _streamlit_app/utils_understandability.py:38-112 | `user_data` afterwards is the old one with the seven feature entries of the document written over it (all None when no token is countable); other keys are kept |
| Metrics.HasAllFeaturesIff | _streamlit_app/utils_understandability.py:10-18 | the read-back succeeds exactly when every feature name is a key |
| Metrics.ReadBackAfterMetrics | _streamlit_app/utils_understandability.py:144-148 | reading the features back after the component yields exactly the features it wrote |
| Metrics.ExtractFeatures | _streamlit_app/utils_understandability.py:134-148 | the read-back loop gives the feature row: `KeyError` when a name is missing, otherwise the features in order |
| Text.StripEmpty | _streamlit_app/utils_understandability.py:162-163 | `strip()` gives "" exactly for a text of whitespace only |
| Text.StripStripped | _streamlit_app/utils_understandability.py:162 | a stripped line is left unchanged by stripping again |
| Text.Collapse | _streamlit_app/utils_understandability.py:173 | `re.sub(r"\s+", " ", s)` leaves no whitespace but single spaces, and keeps a stripped text stripped |
| Text.CollapseFlat | _streamlit_app/utils_understandability.py:173 | collapsing a text that already has only single spaces changes nothing |
| Text.SplitLines | _streamlit_app/utils_understandability.py:161 | `splitlines()` gives lines without line-boundary characters |
| Text.SplitLinesSingle | _streamlit_app/utils_understandability.py:161 | a non-empty text without a line boundary is one line |
| Text.Replace | promptflow/eval-simplify/calculate_score.py:97 | `replace` of one character keeps the length and changes exactly that character at each position |
| Text.JoinSpacedFlat | _streamlit_app/utils_understandability.py:176 | joining stripped lines with single spaces gives a text with only single spaces |
| LinePunctuation.StripAll | _streamlit_app/utils_understandability.py:162 | every line stripped, none dropped |
| LinePunctuation.DropEmpty | _streamlit_app/utils_understandability.py:163 | no empty line remains |
| LinePunctuation.DropEmptyNone | _streamlit_app/utils_understandability.py:163 | nothing remains exactly when every line was empty |
| LinePunctuation.NonBlankLines | _streamlit_app/utils_understandability.py:161-163 | every remaining line is non-empty and stripped |
| LinePunctuation.Dotted | _streamlit_app/utils_understandability.py:167-168 | the line ends with '.', '?' or '!'; one that already did is unchanged |
| LinePunctuation.Unbulleted | _streamlit_app/utils_understandability.py:170-171 | a leading '-' or '•' is removed and the rest stripped; the sentence mark stays |
| LinePunctuation.PunctuateLine | _streamlit_app/utils_understandability.py:165-174 | each processed line is non-empty, ends with a sentence mark and has only single spaces |
| LinePunctuation.PunctuateLineFixed | _streamlit_app/utils_understandability.py:165-174 | a line already punctuated, unbulleted and flat is unchanged |
| LinePunctuation.DoubledBulletLine | _streamlit_app/utils_understandability.py:170-171 | only one bullet is removed: "--a" becomes "-a." |
| LinePunctuation.PunctuateAll | _streamlit_app/utils_understandability.py:164-174 | one processed line per input line |
| LinePunctuation.PunctuateOne | _streamlit_app/utils_understandability.py:166-173 | the loop body computes the processed line |
| LinePunctuation.PunctuateLines | _streamlit_app/utils_understandability.py:151-176 | the loop's result is the normalised text |
| LinePunctuation.PunctuatedShape | _streamlit_app/utils_understandability.py:151-176 | the normalised text is stripped, has only single spaces and ends with a sentence mark unless empty |
| LinePunctuation.PunctuatedEmpty | _streamlit_app/utils_understandability.py:161-176 | the normalised text is empty exactly when the input is whitespace only |
| LinePunctuation.VisibleCharGivesLine | _streamlit_app/utils_understandability.py:161-163 | a non-whitespace character leaves a line behind |
| LinePunctuation.OneLinePunctuated | _streamlit_app/utils_understandability.py:151-176 | a stripped one-line text is normalised as one line |
| LinePunctuation.PunctuatedFixed | _streamlit_app/utils_understandability.py:151-176 | a text already in normal form is unchanged |
| LinePunctuation.PunctuatedIdempotent | _streamlit_app/utils_understandability.py:151-176 | normalising twice equals normalising once unless the result starts with a bullet |
| LinePunctuation.SingleWordText | _streamlit_app/utils_understandability.py:151-176 | a text without whitespace is normalised as one line |
| LinePunctuation.PlainWordPunctuated | _streamlit_app/utils_understandability.py:151-176 | a word without whitespace, sentence mark at its end or bullet at its start only gets a '.' appended |
| LinePunctuation.DoubledBulletText | _streamlit_app/utils_understandability.py:151-176 | on whole texts, "--a" is normalised to "-a." and that to "a.", so normalising is not idempotent |
| Zix.WeightsSumToOne | _streamlit_app/utils_understandability.py:223-232 | the weights 0.2, 0.2, 0.1 and four times 0.125 add up to 1 |
| Zix.CalculateScore | _streamlit_app/utils_understandability.py:200-244 | the score lies in -10..10, equals the raw formula inside that range and is clipped at either end |
| Zix.ReferenceScore | _streamlit_app/utils_understandability.py:212-236 | features at the reference means score -2.5 |
| Zix.ScoreMonotone | _streamlit_app/utils_understandability.py:212-243 | shorter words and sentences, fewer long words, higher vocabulary coverage and word score never lower the score |
| Zix.ZixLevelCountsThresholds | _streamlit_app/utils_understandability.py:299-310 | the level's rank is the number of thresholds 4, 2, 0, -2, -4 the score lies below; each threshold belongs to the easier level |
| Zix.ZixLevelMonotone | _streamlit_app/utils_understandability.py:299-310 | a higher score never gives a harder level |
| Zix.GetCefr | _streamlit_app/utils_understandability.py:285-310 | `TypeError` exactly for a value that is not an int, float or bool |
| Zix.GetCefrNeverNone | _streamlit_app/utils_understandability.py:295-298 | `get_cefr` never returns None: None is a `TypeError`, and every number gets a level |
| Zix.GetZix | _streamlit_app/utils_understandability.py:247-282 | the step-by-step pipeline (normaliser loop, spaCy's length check on the normalised text, fresh document, metrics component, read-back loop) returns the specified outcome |
| Zix.ExtractedFeaturesAreMetrics | _streamlit_app/utils_understandability.py:134-148 | `ValueError` from spaCy exactly for a text over 1,000,000 characters; otherwise the features read back are those the component computed, and the read-back never fails |
| Zix.ScoreNormalisedOutcome | _streamlit_app/utils_understandability.py:276-282 | scoring fails exactly when the normalised text is over spaCy's 1,000,000 characters, with `ValueError`; otherwise it gives `(None, None)` exactly when no token is countable, and else the clipped score with its log-likelihood |
| Zix.ZixOutcomes | _streamlit_app/utils_understandability.py:259-282 | `TypeError` for a non-string, None for "", `ValueError` from the guard above 1,000,000 characters; below it, the score of the normalised text, which is a result exactly when the normalised text is within spaCy's limit and `ValueError` otherwise |
| Zix.GuardBeforeNormalising | _streamlit_app/utils_understandability.py:268-276 | the guard measures the raw text: a word of exactly 1,000,000 characters passes it, is normalised to 1,000,001 characters, and spaCy then raises `ValueError` |
| Zix.BlankTextHasNoScore | _streamlit_app/utils_understandability.py:264-279 | a non-empty text of whitespace only gets no score |
| Zix.ScoredTextHasLevel | _streamlit_app/utils_understandability.py:280-310 | every score `get_zix` returns gets a CEFR level |
| ScoreTwenty.CommonWordScoreComponent | promptflow/eval-simplify/calculate_score.py:32-47 | the loop sums the lexicon scores; `user_data` gains the average over countable tokens divided by 1000, or the call fails with `ZeroDivisionError` and leaves `user_data` unchanged when no token is countable; the same code is at _streamlit_app/sprache-vereinfachen_azure.py:143-158 |
| ScoreTwenty.CommonWordScoreAgrees | promptflow/eval-simplify/calculate_score.py:37-45 | the component fails exactly when the ZIX features are missing; otherwise it equals the ZIX common word score |
| ScoreTwenty.WeightsSum | promptflow/eval-simplify/calculate_score.py:118 | the four weights add up to 0.9 |
| ScoreTwenty.CalculateUnderstandability | promptflow/eval-simplify/calculate_score.py:103-126 | the score lies in 0..20, equals 20 minus the difficulty inside that range and is clipped at either end; the same code is at _streamlit_app/sprache-vereinfachen_azure.py:214-237 |
| ScoreTwenty.UnderstandabilityMonotone | promptflow/eval-simplify/calculate_score.py:112-125 | a higher word score and lower RIX and sentence-length statistics never lower the score |
| ScoreTwenty.GetUnderstandabilityOutcome | promptflow/eval-simplify/calculate_score.py:132-148 | `ValueError` from spaCy when the normalised text is over 1,000,000 characters (there is no guard); within that limit, `ZeroDivisionError` exactly when the normalised text has no countable token; every result is a score in 0..20; the same code is at _streamlit_app/sprache-vereinfachen_azure.py:263-270 |
| ParagraphPunctuation.InsertDotsLine | promptflow/eval-simplify/calculate_score.py:84-91 | on one line, a dot is appended unless the character before the last is a dot |
| ParagraphPunctuation.InsertDotsLines | promptflow/eval-simplify/calculate_score.py:87-91 | the multiline substitution works line by line |
| ParagraphPunctuation.InsertDotsExample | promptflow/eval-simplify/calculate_score.py:84-91 | "Ja.\nJa\nJa " becomes "Ja..\nJa.\nJa ." |
| ParagraphPunctuation.RemoveBulletsLine | promptflow/eval-simplify/calculate_score.py:94 | on one line, leading whitespace and one '-' or '•' are removed |
| ParagraphPunctuation.RemoveBulletsLines | promptflow/eval-simplify/calculate_score.py:93-94 | the substitution works line by line after a line that holds a non-whitespace character; the same code is at _streamlit_app/sprache-vereinfachen_azure.py:204-205 |
| ParagraphPunctuation.BlankLineSwallowed | promptflow/eval-simplify/calculate_score.py:94 | `[\s]*` also matches line breaks: "x\n \n-y" becomes "x\ny", so the blank line before a bullet line goes with the bullet |
| ParagraphPunctuation.RemoveBulletsFromNoBullet | promptflow/eval-simplify/calculate_score.py:94 | a text without bullets is unchanged |
| ParagraphPunctuation.Normalise | promptflow/eval-simplify/calculate_score.py:77-100 | the result is stripped and has only single spaces; the same code is at _streamlit_app/sprache-vereinfachen_azure.py:188-211 |
| ParagraphPunctuation.NormaliseShape | promptflow/eval-simplify/calculate_score.py:96-100 | no line breaks and no two adjacent whitespace characters remain |
| ParagraphPunctuation.NormaliseWord | promptflow/eval-simplify/calculate_score.py:84-100 | a word without whitespace that does not end in '.' or start with a bullet becomes "w .": the dot lands after the appended space |
| CefrLevel.GetCefrLevel | promptflow/eval-simplify/cefr_level.py:4-25 | every score gets a label; the same code is at promptflow/eval-simplify-es/cefr_level.py:7-27 and _streamlit_app/sprache-vereinfachen_azure.py:240-260 |
| CefrLevel.UpperBoundsRedundant | promptflow/eval-simplify/cefr_level.py:10-25 | the upper bounds of the chain never decide: the lower bounds alone give the same label |
| CefrLevel.BoundariesLowerInclusive | promptflow/eval-simplify/cefr_level.py:10-25 | each boundary score belongs to the easier label |
| CefrLevel.LevelCountsThresholds | promptflow/eval-simplify/cefr_level.py:10-25 | the label's rank is the number of thresholds the score lies below |
| CefrLevel.LevelMonotone | promptflow/eval-simplify/cefr_level.py:10-25 | a higher score never gives a harder label |
| CefrLevel.RankOfLabel | promptflow/eval-simplify/cefr_level.py:31-40 | the rank dictionary holds every label, at its rank |
| CefrLevel.CalculateLevelsOutcome | promptflow/eval-simplify/cefr_level.py:28-58 | never fails; returns both labels and the rank drop, which lies in -7..7, is ≥ 0 when the simplified text scores at least as high, and is 0 for equal labels |
| AppHelpers.CreatePromptFormsAgree | _streamlit_app/sprache-vereinfachen.py:148-169 | the conditional-expression form selects the same prompt and system message as the nested form written at _streamlit_app/sprache-vereinfachen_google.py:119-144 |
| AppHelpers.CreatePromptSelection | _streamlit_app/sprache-vereinfachen_openai.py:123-148 | the Leichte Sprache system message and rules exactly when that switch is set; analysis templates take no completeness; rewriting is condensed only for Leichte Sprache with `condense_text`; the text is passed through; the same code is at _streamlit_app/sprache-vereinfachen_azure.py:273-298 |
| AppHelpers.CreatePromptFixedTemplates | _streamlit_app/sprache-vereinfachen-openai.py:109-130 | the OpenAI-only app picks an analysis template exactly when `analysis` is set and a Leichte Sprache template exactly when that switch is set |
| AppHelpers.IndexOfFirst | _streamlit_app/sprache-vereinfachen.py:175 | the search finds the first occurrence, or reports none when there is none |
| AppHelpers.ResultFormsAgree | _streamlit_app/sprache-vereinfachen_openai.py:151-162 | the if/else form of `get_result_from_response` gives the same result as the conditional form; the same code is at _streamlit_app/sprache-vereinfachen_azure.py:301-312 |
| AppHelpers.NoPairNoResult | _streamlit_app/sprache-vereinfachen.py:172-176 | without an opening tag followed by a closing one, the result is "" |
| AppHelpers.SingleTaggedSegment | _streamlit_app/sprache-vereinfachen.py:175 | a single tagged body without '<' is found exactly once |
| AppHelpers.SingleTaggedAnswer | _streamlit_app/sprache-vereinfachen.py:172-176 | a response that is one tagged answer gives that answer stripped; the same code is at _streamlit_app/sprache-vereinfachen_google.py:147-151 and _streamlit_app/sprache-vereinfachen-openai.py:133-137 |
| AppHelpers.WithoutEmphasis | _streamlit_app/sprache-vereinfachen.py:184 | the result contains no '*' or '_' |
| AppHelpers.RemoveEmphasisDeletesMarks | _streamlit_app/sprache-vereinfachen.py:184 | the left-to-right alternation of `**`, `*`, `__` and `_` removes exactly the '*' and '_' characters and keeps every other one |
| AppHelpers.StripMarkdown | _streamlit_app/sprache-vereinfachen.py:179-185 | the result contains no '*' or '_'; the same code is at _streamlit_app/sprache-vereinfachen_google.py:154-160 and _streamlit_app/sprache-vereinfachen-openai.py:140-146 |
| AppHelpers.RemoveHeadersNoHash | _streamlit_app/sprache-vereinfachen.py:182 | on a text without '#', the header removal changes nothing |
| AppHelpers.StripMarkdownPlain | _streamlit_app/sprache-vereinfachen.py:179-185 | a text without '#', '*' or '_' is unchanged |
| AppHelpers.StripMarkdownHeader | _streamlit_app/sprache-vereinfachen.py:182 | "## Titel" becomes "Titel" |
| AppHelpers.CleanLogSpec | _streamlit_app/sprache-vereinfachen.py:456-459 | the length is kept; line breaks and tabs become spaces and every other character is kept; no '\n' or '\t' remains; the same code is at _streamlit_app/sprache-vereinfachen_google.py:269-271 and _streamlit_app/sprache-vereinfachen_openai.py:266-270 (in two statements), _streamlit_app/sprache-vereinfachen_azure.py:428-432 and _streamlit_app/sprache-vereinfachen-openai.py:290-293 |
| AppHelpers.InvokeOutcomeSpec | _streamlit_app/sprache-vereinfachen-openai.py:175-185 | success exactly when content is received; a None content gives "No content received from API"; an exception gives its message; a successful answer contains no '*' or '_' |
| AppHelpers.NoMediumBandWhenLimitsCross | _streamlit_app/sprache-vereinfachen-openai.py:435-445 | with limits from the configuration, the medium band is empty whenever the medium limit is not above the hard limit |
| AppHelpers.ZixBands | _streamlit_app/sprache-vereinfachen.py:606-616 | with LIMIT_HARD 0 and LIMIT_MEDIUM -2, a score is hard below 0 and good otherwise; medium never shows; the same code is at _streamlit_app/sprache-vereinfachen_google.py:405-415 and _streamlit_app/sprache-vereinfachen_openai.py:390-400 |
| AppHelpers.ZixBandsCorrected | _streamlit_app/sprache-vereinfachen.py:122-123 | with the two limits swapped, all three bands show: hard below -2, medium from -2 below 0, good from 0 |
| AppHelpers.TwentyBands | _streamlit_app/sprache-vereinfachen_azure.py:553-563 | hard below 13, medium from 13 below 16, good from 16 |
| PyValues.SumBounds | promptflow/eval-simplify/aggregate.py:24 | a sum of n values in lo..hi lies between n·lo and n·hi |
| PyValues.MeanBetweenBounds | promptflow/eval-simplify/aggregate.py:21-22 | a mean of values in lo..hi lies in lo..hi |
| PyValues.RoundHalfEven | promptflow/eval-simplify/estimate_cost.py:66-67 | `round` gives the nearest integer, and an even one on a tie |
| Evaluation.EstimateCostOutcome | promptflow/eval-simplify/estimate_cost.py:55-76 | `ZeroDivisionError` exactly when the total cost is 0; otherwise the total is the prompt cost plus the completion cost, the prompt cost is the instructions' cost plus the original's, and both ratios are within 0.5 of the exact ratios |
| Evaluation.QuotientNonNegative | promptflow/eval-simplify/estimate_cost.py:66-67 | a non-negative amount over a positive cost rounds to a non-negative integer |
| Evaluation.PricesPositive | promptflow/eval-simplify-es/estimate_cost.py:9-24 | both price tables cover the same five models at positive prices |
| Evaluation.EstimateCostValueOutcome | promptflow/eval-simplify-es/estimate_cost.py:42-57 | `KeyError` exactly for an unknown model; otherwise the cost is ≥ 0, is 0 exactly without tokens, value times cost is the score improvement when the cost is not 0, the value is 0 when the cost is 0, and it is ≥ 0 when the score improves |
| Evaluation.AverageSpec | promptflow/eval-simplify/aggregate.py:21-25 | `ZeroDivisionError` exactly for an empty list; otherwise the average times the length is the sum, and it lies within the values' bounds |
| Evaluation.AverageOfConstant | promptflow/eval-simplify-es/aggregate.py:17 | scores that are all the same average to that score |
| Evaluation.AggregateOutcome | promptflow/eval-simplify/aggregate.py:19-38 | fails exactly when a list it averages is empty; otherwise returns the two averages, the total cost and the average value, and logs the four metrics in order |
| Evaluation.AggregateScoresOutcome | promptflow/eval-simplify-es/aggregate.py:15-22 | fails exactly for an empty list; otherwise returns the average, which lies within the scores' bounds, and logs it as "avg" |
| Evaluation.DropTemplateChars | promptflow/notebooks/helpers.py:18 | no '$', '{' or '}' remains and the name gets no longer |
| Evaluation.DropTemplateCharsPlain | promptflow/notebooks/helpers.py:18 | a name without them is unchanged |
| Evaluation.DropTemplateCharsConcat | promptflow/notebooks/helpers.py:18 | the removal commutes with concatenation |
| Evaluation.DefaultVariantName | promptflow/notebooks/helpers.py:18 | without a variant (None or "") the name is "default" |
| Evaluation.VariantNameSpec | promptflow/notebooks/helpers.py:18 | the variant name has no template characters; it is "default" without a variant and the cleaned variant otherwise |
| Evaluation.CreateFlowConfigFields | promptflow/notebooks/helpers.py:12-27 | the configuration stores the variant exactly when one is given, passes the model and paths through, and maps the columns `original_text` and `model` |
| Evaluation.CreateFlowConfigNames | promptflow/notebooks/helpers.py:21-22 | the display and run names are built from the model and the variant name |
| Evaluation.DefaultRunName | promptflow/notebooks/helpers.py:12-27 | with the defaults, the run is "run_simplify_es_gpt-4o_default" |
| Evaluation.DefaultEvalRunName | promptflow/notebooks/helpers.py:70 | its evaluation run is "eval_run_simplify_es_gpt-4o_default" |
| Evaluation.TemplateReferenceVariant | promptflow/notebooks/helpers.py:18 | the variant "${summarize.variant_1}" is named "summarize.variant_1" |
| Evaluation.TemplateReferenceName | promptflow/notebooks/helpers.py:18 | removing the template characters from "${" + name + "}" leaves the name |

## Left out

- The spaCy tokeniser, lemmatiser and sentence splitter are not modelled. The tokeniser
  is a function parameter (`nlp`) from the text to sentences of tokens. A token carries
  its text, lowered lemma and the `is_punct` and `like_num` flags. Only spaCy's default
  `max_length` check is modelled around it (`SpacyDoc.Tokenise`): a text over 1,000,000
  characters raises `ValueError`.
- The TextDescriptives readability component is a parameter (`readability`) that gives
  RIX and the sentence-length mean and standard deviation. `extract_text_features` of the
  0..20 score is left out beyond that.
- Loading the CEFR word lists, the word-score lexicon and the fitted mixture model from
  files is left out. The lists and lexicon are inputs (`Vocabulary`).
- `_get_outliers` is the function parameter `outlier`. The Gaussian mixture model's
  log-likelihood is floating point and library code.
- All scores are exact reals, not IEEE doubles. pandas DataFrames are a record of
  optional features, with None for NaN.
- The display rounding with `np.round` is not modelled.
- The model calls and the thread pool of the apps are left out. A reply is a value
  (`Reply`): an exception's message, or a possibly missing content.
- The Streamlit user interface, logging to files, timestamps, the download links and
  YAML configuration loading are left out. The OpenAI-only app reads its limits from
  the configuration, so `ScoreBand` takes the limits as parameters.
- The prompt templates, rules and system messages are opaque names. `.format` is the
  structured value `Prompt`, so the wording of the templates is not modelled.
- `warnings.warn` on an empty text is left out; only the returned None is modelled.
- tiktoken's token counts are inputs to the cost estimates.
- `log_metric` is modelled as the list of metrics `aggregate` returns beside its result.
- The promptflow client, `execute_run` and the other run-management helpers of the
  notebooks are left out. They call a service.
- In some apps, `get_zix`'s result goes to `get_cefr` and `np.round` without being
  unpacked (sprache-vereinfachen.py:373-375 and 599-602, sprache-vereinfachen_openai.py:116-120,
  sprache-vereinfachen_google.py:398-401 and 466-468). These call chains inside the user
  interface are not modelled. `Zix.ScoredTextHasLevel` states the intended composition on
  the score itself.
- Metrics.VocabRatioAtMostOne: assumes every listed lemma belongs to a countable token.
  The code counts hits over all tokens but divides by the countable ones, so without
  that assumption the ratio can exceed 1.
- LinePunctuation.PunctuatedIdempotent: stated only when the normalised text does not
  start with a bullet, because a line like "--a" keeps one bullet after one pass.

## Findings

| source | as written | input that shows it | evidently intended | confidence | as-written member | corrected member |
|---|---|---|---|---|---|---|
| _streamlit_app/sprache-vereinfachen.py:122-123 | LIMIT_HARD = 0 and LIMIT_MEDIUM = -2 with the banding "hard below LIMIT_HARD, medium from LIMIT_HARD below LIMIT_MEDIUM", so the medium band is empty (the same in sprache-vereinfachen_google.py:93-94 and sprache-vereinfachen_openai.py:92-93) | a score of -1.0 is shown as hard to understand, and no score is shown as medium | three bands on the -10..10 scale, as the Azure app has on 0..20: hard below -2, medium from -2 below 0, good from 0 | medium; not executed | AppHelpers.ZixBands | AppHelpers.ZixBandsCorrected |
