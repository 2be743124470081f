/** The earlier understandability score on the 0-20 scale: the common-word-score pipeline
    component, the linear formula over four metrics clipped to 0..20, and the composition
    normalise, tokenise, measure, score. Its calibration is unrelated to the ZIX one. */
module ScoreTwenty {
  import opened PyValues
  import opened SpacyDoc
  import opened Metrics
  import opened ParagraphPunctuation

  /** `common_word_score` as the component computes it: the lexicon scores of all tokens'
      lemmas, divided by the number of countable tokens and by 1000, with no guard
      against a document without countable tokens. */
  function CommonWordScore(tokens: seq<Token>, lexicon: map<string, real>): Result<real, PyError>
  {
    var docLen := CountCountable(tokens);
    if docLen == 0 then Err(ZeroDivisionError)
    else Ok(AverageWordScore(tokens, lexicon))
  }

  /** The `common_word_score` pipeline component: sums the lexicon scores in a loop over
      the tokens and writes the average into `doc.user_data`, or fails with
      `ZeroDivisionError`, leaving `user_data` as it was, when no token is countable. */
  method CommonWordScoreComponent(doc: Document, lexicon: map<string, real>) returns (failure: Option<PyError>)
    modifies doc
    ensures failure.Some? <==> CommonWordScore(doc.Tokens(), lexicon).Err?
    ensures failure.Some? ==> failure.value == ZeroDivisionError && doc.userData == old(doc.userData)
    ensures failure.None? ==>
              doc.userData == old(doc.userData)["common_word_score" := Some(CommonWordScore(doc.Tokens(), lexicon).value)]
  {
    var tokens := doc.Tokens();
    var docLen := CountCountable(tokens);
    var docScores := 0.0;
    for i := 0 to |tokens|
      invariant docScores == WordScoreSum(tokens[..i], lexicon)
    {
      var word := tokens[i].lemmaLower;
      if word in lexicon {
        docScores := docScores + lexicon[word];
      }
      assert tokens[..i + 1][..i] == tokens[..i];
    }
    assert tokens[..|tokens|] == tokens;
    if docLen == 0 {
      return Some(ZeroDivisionError);
    }
    docScores := docScores / docLen as real;
    doc.userData := doc.userData["common_word_score" := Some(docScores / 1000.0)];
    return None;
  }

  /** The component computes the same common word score as the ZIX metrics component,
      and fails exactly when the ZIX features are missing. */
  lemma CommonWordScoreAgrees(sents: seq<Sentence>, vocab: Vocabulary)
    ensures CommonWordScore(Flatten(sents), vocab.wordScores).Err? <==> DocMetrics(sents, vocab).AnyMissing()
    ensures !DocMetrics(sents, vocab).AnyMissing() ==>
              CommonWordScore(Flatten(sents), vocab.wordScores) == Ok(DocMetrics(sents, vocab).commonWordScore.value)
  {
    var tokens := Flatten(sents);
    if CountCountable(tokens) == 0 {
      assert DocMetrics(sents, vocab) == NoFeatures;
    } else {
      assert DocMetrics(sents, vocab) == CountedFeatures(sents, vocab);
    }
  }

  /** The four metrics `calculate_understandability` reads: `common_word_score` and the
      TextDescriptives `rix`, `sentence_length_std` and `sentence_length_mean`. */
  datatype TwentyFeatures = TwentyFeatures(commonWordScore: real, rix: real, sentenceLengthStd: real, sentenceLengthMean: real)

  /** The TextDescriptives readability and descriptive statistics of a document. */
  datatype Readability = Readability(rix: real, sentenceLengthStd: real, sentenceLengthMean: real)

  /** The weights of the four standardised metrics. */
  const CommonWordWeight := 0.2
  const RixWeight := 0.325
  const SentenceLengthStdWeight := 0.225
  const SentenceLengthMeanWeight := 0.15

  /** The four weights add up to 0.9, not to 1. */
  lemma WeightsSum()
    ensures CommonWordWeight + RixWeight + SentenceLengthStdWeight + SentenceLengthMeanWeight == 0.9
  {
  }

  /** The difficulty before it is subtracted from 20: the weighted standardised metrics,
      with the common word score reversed so that larger always means harder, plus 1.3,
      times 3.5. */
  function Difficulty(d: TwentyFeatures): real
  {
    var cws := 1.0 - (d.commonWordScore - 7.8) / 1.1;
    var rix := (d.rix - 3.9) / 1.7;
    var sls := (d.sentenceLengthStd - 6.4) / 4.2;
    var slm := (d.sentenceLengthMean - 11.7) / 3.7;
    ((cws * CommonWordWeight + rix * RixWeight + sls * SentenceLengthStdWeight + slm * SentenceLengthMeanWeight) + 1.3) * 3.5
  }

  /** `calculate_understandability`: 20 minus the difficulty, clipped to 0..20. */
  function CalculateUnderstandability(d: TwentyFeatures): (r: real)
    ensures 0.0 <= r <= 20.0
    ensures 0.0 <= 20.0 - Difficulty(d) <= 20.0 ==> r == 20.0 - Difficulty(d)
    ensures 20.0 - Difficulty(d) < 0.0 ==> r == 0.0
    ensures 20.0 - Difficulty(d) > 20.0 ==> r == 20.0
  {
    var score := 20.0 - Difficulty(d);
    var score := if score < 0.0 then 0.0 else score;
    if score > 20.0 then 20.0 else score
  }

  /** `easy` is at least as easy as `hard` in every metric: at least the same common word
      score and no larger RIX or sentence-length statistics. */
  predicate AtLeastAsEasy(easy: TwentyFeatures, hard: TwentyFeatures)
  {
    easy.commonWordScore >= hard.commonWordScore && easy.rix <= hard.rix
    && easy.sentenceLengthStd <= hard.sentenceLengthStd && easy.sentenceLengthMean <= hard.sentenceLengthMean
  }

  /** A text at least as easy in every metric scores at least as high. */
  lemma UnderstandabilityMonotone(easy: TwentyFeatures, hard: TwentyFeatures)
    requires AtLeastAsEasy(easy, hard)
    ensures CalculateUnderstandability(easy) >= CalculateUnderstandability(hard)
  {
    assert Difficulty(easy) <= Difficulty(hard);
  }

  /** `get_understandability(text)` (and `calculate_score`, which converts it to float): the
      text is normalised first, then passed to the pipeline, which refuses a text longer
      than spaCy's limit with `ValueError`; otherwise `nlp` tokenises it, the pipeline's
      components measure the document, and the component's `ZeroDivisionError` escapes. */
  function GetUnderstandability(text: string, nlp: string -> seq<Sentence>, readability: seq<Sentence> -> Readability,
                                lexicon: map<string, real>): Result<real, PyError>
  {
    match Tokenise(nlp, Normalise(text))
    case Err(e) => Err(e)
    case Ok(sents) =>
      match CommonWordScore(Flatten(sents), lexicon)
      case Err(e) => Err(e)
      case Ok(cws) =>
        var m := readability(sents);
        Ok(CalculateUnderstandability(TwentyFeatures(cws, m.rix, m.sentenceLengthStd, m.sentenceLengthMean)))
  }

  /** A normalised text longer than spaCy's limit fails with `ValueError`; nothing guards
      against that before the pipeline is called. Otherwise the text fails with
      `ZeroDivisionError` exactly when its normalised form has no countable token, and
      gets a score in 0..20 when it does not fail. */
  lemma GetUnderstandabilityOutcome(text: string, nlp: string -> seq<Sentence>, readability: seq<Sentence> -> Readability,
                                    lexicon: map<string, real>)
    ensures var normalised := Normalise(text);
            var r := GetUnderstandability(text, nlp, readability, lexicon);
            && (|normalised| > MaxLength ==> r == Err(ValueError))
            && (|normalised| <= MaxLength ==>
                  var tokens := Flatten(nlp(normalised));
                  && (r.Err? <==> forall i :: 0 <= i < |tokens| ==> !Countable(tokens[i]))
                  && (r.Err? ==> r.error == ZeroDivisionError))
            && (r.Ok? ==> 0.0 <= r.value <= 20.0)
  {
    CountCountableZero(Flatten(nlp(Normalise(text))));
  }
}
