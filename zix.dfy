/** The ZIX understandability score: seven document features standardised, weighted,
    spread and shifted onto a scale centred on 0, clipped to -10..10, and the CEFR level
    read off the score. `get_zix` puts the line normaliser, the tokeniser, the metrics
    component, the feature read-back, the score and the outlier model together. */
module Zix {
  import opened PyValues
  import opened Text
  import opened SpacyDoc
  import opened Metrics
  import opened LinePunctuation

  /** The weights of the seven standardised features. */
  const SentenceLengthWeight := 0.2
  const RixWeight := 0.2
  const TokenLengthWeight := 0.1
  const VocabWeight := 0.125

  /** The weights add up to one, so the weighted sum is an average of the standardised features. */
  lemma WeightsSumToOne()
    ensures SentenceLengthWeight + RixWeight + TokenLengthWeight + 4.0 * VocabWeight == 1.0
  {
  }

  /** `(x - mean) / sd`. */
  function Standardise(x: real, mean: real, sd: real): real
    requires sd > 0.0
  {
    (x - mean) / sd
  }

  /** The score before clipping: the weighted standardised features, with token length,
      sentence length and RIX reversed so that larger always means easier, times 3.4,
      plus 5.8, minus 10. */
  function RawScore(f: Features): real
    requires !f.AnyMissing()
  {
    var tlm := 1.0 - Standardise(f.tokenLengthMean.value, 5.8, 0.7);
    var slm := 1.0 - Standardise(f.sentenceLengthMean.value, 13.5, 4.6);
    var rix := 1.0 - Standardise(f.rix.value, 4.6, 2.2);
    var a1 := Standardise(f.vocabA1.value, 0.6, 0.1);
    var a2 := Standardise(f.vocabA2.value, 0.6, 0.1);
    var b1 := Standardise(f.vocabB1.value, 0.7, 0.1);
    var cws := Standardise(f.commonWordScore.value, 7.3, 1.0);
    (slm * SentenceLengthWeight + rix * RixWeight + tlm * TokenLengthWeight
     + (a1 + a2 + b1 + cws) * VocabWeight) * 3.4 + 5.8 - 10.0
  }

  /** `_calculate_score`: the raw score clipped to -10..10. */
  function CalculateScore(f: Features): (r: real)
    requires !f.AnyMissing()
    ensures -10.0 <= r <= 10.0
    ensures -10.0 <= RawScore(f) <= 10.0 ==> r == RawScore(f)
    ensures RawScore(f) > 10.0 ==> r == 10.0
    ensures RawScore(f) < -10.0 ==> r == -10.0
  {
    var score := RawScore(f);
    if score > 10.0 then 10.0
    else if score < -10.0 then -10.0
    else score
  }

  /** A text whose features sit exactly at the reference means scores -2.5. */
  lemma ReferenceScore()
    ensures CalculateScore(Features(Some(5.8), Some(13.5), Some(4.6), Some(0.6), Some(0.6), Some(0.7), Some(7.3))) == -2.5
  {
  }

  /** `easy` is at least as easy as `hard` in every feature: words and sentences no longer,
      no more long words, and at least the same vocabulary coverage and word score. */
  predicate AtLeastAsEasy(easy: Features, hard: Features)
    requires !easy.AnyMissing() && !hard.AnyMissing()
  {
    easy.tokenLengthMean.value <= hard.tokenLengthMean.value
    && easy.sentenceLengthMean.value <= hard.sentenceLengthMean.value
    && easy.rix.value <= hard.rix.value
    && easy.vocabA1.value >= hard.vocabA1.value
    && easy.vocabA2.value >= hard.vocabA2.value
    && easy.vocabB1.value >= hard.vocabB1.value
    && easy.commonWordScore.value >= hard.commonWordScore.value
  }

  /** Every feature moves the score in the direction its comment promises: a text that is
      at least as easy in every feature scores at least as high. */
  lemma ScoreMonotone(easy: Features, hard: Features)
    requires !easy.AnyMissing() && !hard.AnyMissing()
    requires AtLeastAsEasy(easy, hard)
    ensures CalculateScore(easy) >= CalculateScore(hard)
  {
    assert RawScore(easy) >= RawScore(hard);
  }

  /** The CEFR levels `get_cefr` returns, from easiest to hardest. */
  datatype Level = A1 | A2 | B1 | B2 | C1 | C2
  {
    /** The level's position, 0 for A1 up to 5 for C2. */
    function Rank(): nat
    {
      match this
      case A1 => 0
      case A2 => 1
      case B1 => 2
      case B2 => 3
      case C1 => 4
      case C2 => 5
    }

    /** The label `get_cefr` returns. */
    function Name(): string
    {
      match this
      case A1 => "A1"
      case A2 => "A2"
      case B1 => "B1"
      case B2 => "B2"
      case C1 => "C1"
      case C2 => "C2"
    }
  }

  /** The lower bounds of A1, A2, B1, B2 and C1, each included in its level. */
  const LevelThresholds: seq<real> := [4.0, 2.0, 0.0, -2.0, -4.0]

  /** The threshold chain of `get_cefr` on a number. */
  function ZixLevel(score: real): Level
  {
    if score >= 4.0 then A1
    else if score >= 2.0 then A2
    else if score >= 0.0 then B1
    else if score >= -2.0 then B2
    else if score >= -4.0 then C1
    else C2
  }

  /** The rank of the level is the number of thresholds the score falls below: each
      threshold belongs to the easier level, and every score gets a level. */
  lemma ZixLevelCountsThresholds(score: real)
    ensures forall k :: 0 <= k < |LevelThresholds| ==> (k < ZixLevel(score).Rank() <==> score < LevelThresholds[k])
  {
  }

  /** A higher score never gives a harder level. */
  lemma ZixLevelMonotone(lower: real, higher: real)
    requires lower <= higher
    ensures ZixLevel(higher).Rank() <= ZixLevel(lower).Rank()
  {
  }

  /** `isinstance(zix_score, (int, float))`: Python counts a bool as an int. */
  predicate IsNumber(v: PyValue)
  {
    v.PyInt? || v.PyFloat? || v.PyBool?
  }

  /** The number a numeric value stands for. */
  function NumberValue(v: PyValue): real
    requires IsNumber(v)
  {
    match v
    case PyInt(i) => i as real
    case PyFloat(x) => x
    case PyBool(b) => if b then 1.0 else 0.0
  }

  /** `get_cefr`: a `TypeError` for anything but a number, otherwise the level. The
      `None` check comes after the type check and is never reached. */
  function GetCefr(zixScore: PyValue): (r: Result<Option<Level>, PyError>)
    ensures r.Err? <==> !IsNumber(zixScore)
    ensures r.Err? ==> r.error == TypeError
  {
    if !IsNumber(zixScore) then Err(TypeError)
    else if zixScore.PyNone? then Ok(None)
    else Ok(Some(ZixLevel(NumberValue(zixScore))))
  }

  /** `get_cefr` never returns `None`: `None` itself is a `TypeError`, every number a level. */
  lemma GetCefrNeverNone(zixScore: PyValue)
    ensures GetCefr(zixScore) != Ok(None)
    ensures zixScore == PyNone ==> GetCefr(zixScore) == Err(TypeError)
    ensures IsNumber(zixScore) ==> GetCefr(zixScore) == Ok(Some(ZixLevel(NumberValue(zixScore))))
  {
  }

  /** What `get_zix` returns: `None` for the empty string, `(None, None)` when a feature is
      missing, and otherwise the score with the outlier model's log-likelihood. */
  datatype ZixOutcome = NoText | NoScore | Scored(score: real, logLikelihood: real)

  /** The longest text `get_zix` accepts. */
  const MaxTextLength := 1000000

  /** The features `_extract_features` reads back for a normalised text: the pipeline
      refuses a text over spaCy's limit; otherwise the tokeniser `nlp` builds the
      document, the metrics component fills its empty `user_data`, and the row is read by
      name. */
  function ExtractedFeatures(text: string, nlp: string -> seq<Sentence>, vocab: Vocabulary): Result<Features, PyError>
  {
    match Tokenise(nlp, text)
    case Err(e) => Err(e)
    case Ok(sents) => FeatureRow(UserDataOf(DocMetrics(sents, vocab)))
  }

  /** `get_zix`, as a value: the type check, the empty string, the length guard on the raw
      text, then the normalised text's features, scored unless one is missing. `outlier` is the
      log-likelihood of the fitted mixture model. */
  function Zix(text: PyValue, nlp: string -> seq<Sentence>, vocab: Vocabulary, outlier: Features -> real): Result<ZixOutcome, PyError>
  {
    if !text.PyStr? then Err(TypeError)
    else if text.s == "" then Ok(NoText)
    else if |text.s| > MaxTextLength then Err(ValueError)
    else ScoreNormalised(Punctuated(text.s), nlp, vocab, outlier)
  }

  /** The second half of `get_zix`, on the normalised text: extract the features and
      score them unless one is missing. */
  function ScoreNormalised(text: string, nlp: string -> seq<Sentence>, vocab: Vocabulary, outlier: Features -> real): Result<ZixOutcome, PyError>
  {
    match ExtractedFeatures(text, nlp, vocab)
    case Err(e) => Err(e)
    case Ok(f) =>
      if f.AnyMissing() then Ok(NoScore)
      else Ok(Scored(CalculateScore(f), outlier(f)))
  }

  /** `get_zix` step by step: the normaliser's loop, the pipeline's length check, a fresh
      document, the metrics component writing `user_data`, and the loop reading the
      features back. */
  method GetZix(text: PyValue, nlp: string -> seq<Sentence>, vocab: Vocabulary, outlier: Features -> real)
    returns (r: Result<ZixOutcome, PyError>)
    ensures r == Zix(text, nlp, vocab, outlier)
  {
    if !text.PyStr? {
      return Err(TypeError);
    }
    if text.s == "" {
      return Ok(NoText);
    }
    if |text.s| > MaxTextLength {
      return Err(ValueError);
    }
    var punctuated := PunctuateLines(text.s);
    if |punctuated| > MaxLength {
      return Err(ValueError);
    }
    var doc := new Document(nlp(punctuated));
    AdditionalMetrics(doc, vocab);
    assert doc.userData == UserDataOf(DocMetrics(nlp(punctuated), vocab));
    var features := ExtractFeatures(doc);
    match features
    case Err(e) =>
      return Err(e);
    case Ok(f) =>
      if f.AnyMissing() {
        return Ok(NoScore);
      }
      return Ok(Scored(CalculateScore(f), outlier(f)));
  }

  /** Only the pipeline's length check fails; the read-back never does: the row holds
      exactly the features the component computed. */
  lemma ExtractedFeaturesAreMetrics(text: string, nlp: string -> seq<Sentence>, vocab: Vocabulary)
    ensures |text| > MaxLength ==> ExtractedFeatures(text, nlp, vocab) == Err(ValueError)
    ensures |text| <= MaxLength ==> ExtractedFeatures(text, nlp, vocab) == Ok(DocMetrics(nlp(text), vocab))
  {
    ReadBackAfterMetrics(map[], DocMetrics(nlp(text), vocab));
    assert map[] + UserDataOf(DocMetrics(nlp(text), vocab)) == UserDataOf(DocMetrics(nlp(text), vocab));
  }

  /** Scoring a normalised text fails exactly when it is longer than spaCy's limit, with
      `ValueError`; otherwise it gives no score exactly when the document has no countable
      token, and else the clipped score of the document's features with their
      log-likelihood. */
  lemma ScoreNormalisedOutcome(text: string, nlp: string -> seq<Sentence>, vocab: Vocabulary, outlier: Features -> real)
    ensures var r := ScoreNormalised(text, nlp, vocab, outlier);
            && (r.Err? <==> |text| > MaxLength)
            && (r.Err? ==> r.error == ValueError)
            && (r.Ok? ==> (r.value == NoScore <==> forall i :: 0 <= i < |Flatten(nlp(text))| ==> !Countable(Flatten(nlp(text))[i])))
            && (r.Ok? && r.value.Scored? ==>
                  -10.0 <= r.value.score <= 10.0
                  && r.value == Scored(CalculateScore(DocMetrics(nlp(text), vocab)), outlier(DocMetrics(nlp(text), vocab))))
  {
    ExtractedFeaturesAreMetrics(text, nlp, vocab);
    MissingIffNoCountableToken(nlp(text), vocab);
  }

  /** Every outcome of `get_zix`: a `TypeError` for a non-string, no result for the empty
      string, a `ValueError` from the guard above its length limit, and otherwise the
      outcome of scoring the normalised text, which fails, with spaCy's `ValueError`,
      exactly when normalising made the text longer than spaCy's limit. */
  lemma ZixOutcomes(text: PyValue, nlp: string -> seq<Sentence>, vocab: Vocabulary, outlier: Features -> real)
    ensures !text.PyStr? ==> Zix(text, nlp, vocab, outlier) == Err(TypeError)
    ensures text == PyStr("") ==> Zix(text, nlp, vocab, outlier) == Ok(NoText)
    ensures text.PyStr? && |text.s| > MaxTextLength ==> Zix(text, nlp, vocab, outlier) == Err(ValueError)
    ensures text.PyStr? && 0 < |text.s| <= MaxTextLength ==>
              && Zix(text, nlp, vocab, outlier) == ScoreNormalised(Punctuated(text.s), nlp, vocab, outlier)
              && (Zix(text, nlp, vocab, outlier).Ok? <==> |Punctuated(text.s)| <= MaxLength)
              && (Zix(text, nlp, vocab, outlier).Err? ==> Zix(text, nlp, vocab, outlier).error == ValueError)
  {
    if text.PyStr? && 0 < |text.s| <= MaxTextLength {
      ScoreNormalisedOutcome(Punctuated(text.s), nlp, vocab, outlier);
    }
  }

  /** The guard measures the text before it is normalised, and normalising can lengthen
      it: a single word of exactly `MaxTextLength` characters passes the guard, gets a
      '.' appended, and is refused by spaCy. */
  lemma GuardBeforeNormalising(word: string, nlp: string -> seq<Sentence>, vocab: Vocabulary, outlier: Features -> real)
    requires |word| == MaxTextLength
    requires forall i :: 0 <= i < |word| ==> !IsSpace(word[i])
    requires !IsTerminal(word[|word| - 1]) && !IsBullet(word[0])
    ensures |Punctuated(word)| == MaxLength + 1
    ensures Zix(PyStr(word), nlp, vocab, outlier) == Err(ValueError)
  {
    PlainWordPunctuated(word);
    ScoreNormalisedOutcome(Punctuated(word), nlp, vocab, outlier);
  }

  /** A text of whitespace only is normalised to the empty string, so when the tokeniser
      finds no sentence in "" it gets no score. */
  lemma BlankTextHasNoScore(text: string, nlp: string -> seq<Sentence>, vocab: Vocabulary, outlier: Features -> real)
    requires nlp("") == []
    requires text != [] && |text| <= MaxTextLength && Blank(text)
    ensures Zix(PyStr(text), nlp, vocab, outlier) == Ok(NoScore)
  {
    PunctuatedEmpty(text);
    ScoreNormalisedOutcome([], nlp, vocab, outlier);
  }

  /** A scored text has a level: `get_cefr` accepts every score `get_zix` returns. */
  lemma ScoredTextHasLevel(text: PyValue, nlp: string -> seq<Sentence>, vocab: Vocabulary, outlier: Features -> real)
    requires Zix(text, nlp, vocab, outlier).Ok? && Zix(text, nlp, vocab, outlier).value.Scored?
    ensures GetCefr(PyFloat(Zix(text, nlp, vocab, outlier).value.score)).Ok?
    ensures GetCefr(PyFloat(Zix(text, nlp, vocab, outlier).value.score)).value.Some?
  {
  }
}
