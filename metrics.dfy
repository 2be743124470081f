/** The `additional_metrics` pipeline component of the ZIX scorer and the feature read-out
    `_extract_features`: vocabulary coverage against the A1/A2/B1 word lists, the
    common-word score, mean token length, mean sentence length and the RIX index, written
    into `doc.user_data` and read back in the order of `FEATURES`. */
module Metrics {
  import opened PyValues
  import opened SpacyDoc

  /** The resources loaded at import time: the A1, A2 and B1 lemma lists and the
      common-word lexicon (lemma to score). */
  datatype Vocabulary = Vocabulary(a1: set<string>, a2: set<string>, b1: set<string>, wordScores: map<string, real>)

  /** The seven features; `None` is a feature the component set to `None`. */
  datatype Features = Features(
    tokenLengthMean: Option<real>,
    sentenceLengthMean: Option<real>,
    rix: Option<real>,
    vocabA1: Option<real>,
    vocabA2: Option<real>,
    vocabB1: Option<real>,
    commonWordScore: Option<real>)
  {
    /** `features.isnull().values.any()`. */
    predicate AnyMissing()
    {
      tokenLengthMean.None? || sentenceLengthMean.None? || rix.None? || vocabA1.None?
      || vocabA2.None? || vocabB1.None? || commonWordScore.None?
    }
  }

  /** What the component records for a document without a countable token. */
  const NoFeatures := Features(None, None, None, None, None, None, None)

  /** The keys of `FEATURES`, in their order. */
  const FeatureNames: seq<string> := ["token_length_mean", "sentence_length_mean", "rix", "vocab_a1", "vocab_a2", "vocab_b1", "common_word_score"]

  /** The number of tokens whose lemma is in `words`. */
  function VocabCount(tokens: seq<Token>, words: set<string>): (n: nat)
    ensures n <= |tokens|
  {
    if tokens == [] then 0
    else VocabCount(tokens[..|tokens| - 1], words) + (if tokens[|tokens| - 1].lemmaLower in words then 1 else 0)
  }

  /** A larger word list never counts fewer tokens. */
  lemma {:induction false} VocabCountMonotone(tokens: seq<Token>, small: set<string>, large: set<string>)
    requires small <= large
    ensures VocabCount(tokens, small) <= VocabCount(tokens, large)
  {
    if tokens != [] {
      VocabCountMonotone(tokens[..|tokens| - 1], small, large);
    }
  }

  /** Tokens whose lemma is in a list are counted at most once per countable token when
      no listed lemma belongs to a punctuation or number-like token. */
  lemma {:induction false} VocabCountAtMostCountable(tokens: seq<Token>, words: set<string>)
    requires forall i :: 0 <= i < |tokens| && tokens[i].lemmaLower in words ==> Countable(tokens[i])
    ensures VocabCount(tokens, words) <= CountCountable(tokens)
  {
    if tokens != [] {
      var init := tokens[..|tokens| - 1];
      assert forall i :: 0 <= i < |init| ==> init[i] == tokens[i];
      VocabCountAtMostCountable(init, words);
    }
  }

  /** `word_scores[lemma]` when the lemma is in the lexicon, nothing otherwise. */
  function WordScore(lexicon: map<string, real>, word: string): real
  {
    if word in lexicon then lexicon[word] else 0.0
  }

  /** The lexicon scores of the lemmas of all tokens, absent lemmas adding nothing. */
  function WordScoreSum(tokens: seq<Token>, lexicon: map<string, real>): real
  {
    if tokens == [] then 0.0
    else WordScoreSum(tokens[..|tokens| - 1], lexicon) + WordScore(lexicon, tokens[|tokens| - 1].lemmaLower)
  }

  /** With a lexicon of scores in [lo, hi], the sum over `n` tokens lies in [n lo, n hi]
      whenever lo <= 0 <= hi (a lemma missing from the lexicon adds 0). */
  lemma {:induction false} WordScoreSumBounds(tokens: seq<Token>, lexicon: map<string, real>, lo: real, hi: real)
    requires lo <= 0.0 <= hi
    requires forall w :: w in lexicon ==> lo <= lexicon[w] <= hi
    ensures |tokens| as real * lo <= WordScoreSum(tokens, lexicon) <= |tokens| as real * hi
  {
    if tokens != [] {
      WordScoreSumBounds(tokens[..|tokens| - 1], lexicon, lo, hi);
    }
  }

  /** The loop of the component over all tokens: `vocab_scores` holds the B1, A2 and A1
      counters, in that order, and `doc_word_scores` the lexicon total. An A1 lemma
      increments all three counters, an A2 lemma the A2 and B1 counters, a B1 lemma the
      B1 counter only, so the counters count lemmas of the cumulative lists. */
  method CountVocabulary(tokens: seq<Token>, vocab: Vocabulary) returns (vocabScores: seq<nat>, docWordScores: real)
    ensures |vocabScores| == 3
    ensures vocabScores[0] == VocabCount(tokens, vocab.a1 + vocab.a2 + vocab.b1)
    ensures vocabScores[1] == VocabCount(tokens, vocab.a1 + vocab.a2)
    ensures vocabScores[2] == VocabCount(tokens, vocab.a1)
    ensures docWordScores == WordScoreSum(tokens, vocab.wordScores)
  {
    vocabScores := [0, 0, 0];
    docWordScores := 0.0;
    for i := 0 to |tokens|
      invariant |vocabScores| == 3
      invariant vocabScores[0] == VocabCount(tokens[..i], vocab.a1 + vocab.a2 + vocab.b1)
      invariant vocabScores[1] == VocabCount(tokens[..i], vocab.a1 + vocab.a2)
      invariant vocabScores[2] == VocabCount(tokens[..i], vocab.a1)
      invariant docWordScores == WordScoreSum(tokens[..i], vocab.wordScores)
    {
      var word := tokens[i].lemmaLower;
      if word in vocab.a1 {
        vocabScores := [vocabScores[0] + 1, vocabScores[1] + 1, vocabScores[2] + 1];
      } else if word in vocab.a2 {
        vocabScores := [vocabScores[0] + 1, vocabScores[1] + 1, vocabScores[2]];
      } else if word in vocab.b1 {
        vocabScores := vocabScores[0 := vocabScores[0] + 1];
      }
      if word in vocab.wordScores {
        docWordScores := docWordScores + vocab.wordScores[word];
      }
      assert tokens[..i + 1][..i] == tokens[..i];
    }
    assert tokens[..|tokens|] == tokens;
  }

  /** The counters are cumulative: A1 coverage never exceeds A2 coverage, which never
      exceeds B1 coverage. */
  lemma CumulativeCounts(tokens: seq<Token>, vocab: Vocabulary)
    ensures VocabCount(tokens, vocab.a1) <= VocabCount(tokens, vocab.a1 + vocab.a2)
              <= VocabCount(tokens, vocab.a1 + vocab.a2 + vocab.b1)
  {
    VocabCountMonotone(tokens, vocab.a1, vocab.a1 + vocab.a2);
    VocabCountMonotone(tokens, vocab.a1 + vocab.a2, vocab.a1 + vocab.a2 + vocab.b1);
  }

  /** `[len(token) for token in doc if not token.is_punct]`. */
  function NonPunctLengths(tokens: seq<Token>): (r: seq<real>)
    ensures |r| <= |tokens|
  {
    if tokens == [] then []
    else
      var last := tokens[|tokens| - 1];
      NonPunctLengths(tokens[..|tokens| - 1]) + (if last.isPunct then [] else [|last.text| as real])
  }

  /** Every countable token is a non-punctuation token, so the length list is at least
      as long as the document length. */
  lemma {:induction false} CountableHasLength(tokens: seq<Token>)
    ensures CountCountable(tokens) <= |NonPunctLengths(tokens)|
  {
    if tokens != [] {
      CountableHasLength(tokens[..|tokens| - 1]);
    }
  }

  /** The number of tokens of a sentence that are not punctuation. */
  function CountNonPunct(tokens: seq<Token>): (n: nat)
    ensures n <= |tokens|
  {
    if tokens == [] then 0
    else CountNonPunct(tokens[..|tokens| - 1]) + (if tokens[|tokens| - 1].isPunct then 0 else 1)
  }

  /** `[len(sentence) for sentence in sentences_clean]`: the non-punctuation length of
      each sentence. */
  function SentenceLengths(sents: seq<Sentence>): (r: seq<real>)
    ensures |r| == |sents|
    ensures forall k :: 0 <= k < |r| ==> 0.0 <= r[k] <= |sents[k]| as real
  {
    if sents == [] then []
    else SentenceLengths(sents[..|sents| - 1]) + [CountNonPunct(sents[|sents| - 1]) as real]
  }

  /** `len([token for token in doc if len(token) > 6])`, punctuation included. */
  function LongWords(tokens: seq<Token>): (n: nat)
    ensures n <= |tokens|
  {
    if tokens == [] then 0
    else LongWords(tokens[..|tokens| - 1]) + (if |tokens[|tokens| - 1].text| > 6 then 1 else 0)
  }

  /** The share of a word list in a document: its token count over the document length. */
  function Coverage(tokens: seq<Token>, words: set<string>): real
    requires CountCountable(tokens) > 0
  {
    VocabCount(tokens, words) as real / CountCountable(tokens) as real
  }

  /** `common_word_score`: the lexicon total of all tokens divided by the number of
      countable tokens and by 1000. */
  function AverageWordScore(tokens: seq<Token>, lexicon: map<string, real>): real
    requires CountCountable(tokens) > 0
  {
    WordScoreSum(tokens, lexicon) / CountCountable(tokens) as real / 1000.0
  }

  /** The seven features of a document with at least one countable token. */
  function CountedFeatures(sents: seq<Sentence>, vocab: Vocabulary): (f: Features)
    requires CountCountable(Flatten(sents)) > 0
    ensures !f.AnyMissing()
  {
    var tokens := Flatten(sents);
    CountableHasLength(tokens);
    Features(
      Some(Mean(NonPunctLengths(tokens))),
      Some(Mean(SentenceLengths(sents))),
      Some(LongWords(tokens) as real / |sents| as real),
      Some(Coverage(tokens, vocab.a1)),
      Some(Coverage(tokens, vocab.a1 + vocab.a2)),
      Some(Coverage(tokens, vocab.a1 + vocab.a2 + vocab.b1)),
      Some(AverageWordScore(tokens, vocab.wordScores)))
  }

  /** The features the component records for a document made of `sents`. */
  function DocMetrics(sents: seq<Sentence>, vocab: Vocabulary): Features
  {
    if CountCountable(Flatten(sents)) == 0 then NoFeatures else CountedFeatures(sents, vocab)
  }

  /** The entries the component writes into `doc.user_data`. */
  function UserDataOf(f: Features): map<string, Option<real>>
  {
    map["vocab_b1" := f.vocabB1, "vocab_a2" := f.vocabA2, "vocab_a1" := f.vocabA1,
        "common_word_score" := f.commonWordScore, "token_length_mean" := f.tokenLengthMean,
        "sentence_length_mean" := f.sentenceLengthMean, "rix" := f.rix]
  }

  /** A feature is missing exactly when the document has no countable token, and then
      all seven are. */
  lemma MissingIffNoCountableToken(sents: seq<Sentence>, vocab: Vocabulary)
    ensures DocMetrics(sents, vocab).AnyMissing()
            <==> forall i :: 0 <= i < |Flatten(sents)| ==> !Countable(Flatten(sents)[i])
    ensures DocMetrics(sents, vocab).AnyMissing() ==> DocMetrics(sents, vocab) == NoFeatures
  {
    var tokens := Flatten(sents);
    CountCountableZero(tokens);
    if CountCountable(tokens) == 0 {
      assert DocMetrics(sents, vocab) == NoFeatures;
    } else {
      assert DocMetrics(sents, vocab) == CountedFeatures(sents, vocab);
    }
  }

  /** Dividing by the same positive number keeps the order. */
  lemma DivideMonotone(a: real, b: real, n: real)
    requires a <= b && n > 0.0
    ensures a / n <= b / n
  {
    assert b / n - a / n == (b - a) / n;
  }

  /** A part divided by a positive whole is at most one. */
  lemma DivideAtMostOne(a: real, n: real)
    requires a <= n && n > 0.0
    ensures a / n <= 1.0
  {
    DivideMonotone(a, n, n);
  }

  /** The recorded vocabulary ratios are ordered A1 <= A2 <= B1 and not negative. */
  lemma CumulativeRatios(tokens: seq<Token>, vocab: Vocabulary)
    requires CountCountable(tokens) > 0
    ensures 0.0 <= Coverage(tokens, vocab.a1) <= Coverage(tokens, vocab.a1 + vocab.a2)
              <= Coverage(tokens, vocab.a1 + vocab.a2 + vocab.b1)
  {
    CumulativeCounts(tokens, vocab);
    var n := CountCountable(tokens) as real;
    var a1 := VocabCount(tokens, vocab.a1) as real;
    var a2 := VocabCount(tokens, vocab.a1 + vocab.a2) as real;
    var b1 := VocabCount(tokens, vocab.a1 + vocab.a2 + vocab.b1) as real;
    DivideMonotone(0.0, a1, n);
    DivideMonotone(a1, a2, n);
    DivideMonotone(a2, b1, n);
  }

  /** The B1 ratio divides a count over all tokens by a count over countable tokens only;
      it stays within 1 when every token with a listed lemma is countable. */
  lemma VocabRatioAtMostOne(tokens: seq<Token>, vocab: Vocabulary)
    requires CountCountable(tokens) > 0
    requires forall i :: 0 <= i < |tokens| && tokens[i].lemmaLower in vocab.a1 + vocab.a2 + vocab.b1
               ==> Countable(tokens[i])
    ensures Coverage(tokens, vocab.a1 + vocab.a2 + vocab.b1) <= 1.0
  {
    VocabCountAtMostCountable(tokens, vocab.a1 + vocab.a2 + vocab.b1);
    var n := CountCountable(tokens) as real;
    var b1 := VocabCount(tokens, vocab.a1 + vocab.a2 + vocab.b1) as real;
    DivideAtMostOne(b1, n);
  }

  /** The mean sentence length lies between 0 and the longest sentence. */
  lemma SentenceLengthMeanBounds(sents: seq<Sentence>, vocab: Vocabulary, longest: nat)
    requires !DocMetrics(sents, vocab).AnyMissing()
    requires forall k :: 0 <= k < |sents| ==> |sents[k]| <= longest
    ensures 0.0 <= DocMetrics(sents, vocab).sentenceLengthMean.value <= longest as real
  {
    var lengths := SentenceLengths(sents);
    MeanBetweenBounds(lengths, 0.0, longest as real);
  }

  /** Writing the seven entries one by one, in the order the component does, adds
      `UserDataOf(f)` to what was there. */
  lemma WriteOrder(base: map<string, Option<real>>, f: Features)
    ensures base["vocab_b1" := f.vocabB1]["vocab_a2" := f.vocabA2]["vocab_a1" := f.vocabA1]
              ["common_word_score" := f.commonWordScore]["token_length_mean" := f.tokenLengthMean]
              ["sentence_length_mean" := f.sentenceLengthMean]["rix" := f.rix]
            == base + UserDataOf(f)
  {
  }

  /** `_additional_metrics`: computes the seven features of `doc` and writes them into
      `doc.user_data`, or writes `None` for all seven when no token is countable. Other
      entries of `user_data` are kept. */
  method AdditionalMetrics(doc: Document, vocab: Vocabulary)
    modifies doc
    ensures doc.userData == old(doc.userData) + UserDataOf(DocMetrics(doc.sents, vocab))
  {
    ghost var f := DocMetrics(doc.sents, vocab);
    WriteOrder(doc.userData, f);
    var tokens := doc.Tokens();
    var docLen := CountCountable(tokens);
    if docLen == 0 {
      doc.userData := doc.userData["vocab_b1" := None]["vocab_a2" := None]["vocab_a1" := None]
        ["common_word_score" := None]["token_length_mean" := None]["sentence_length_mean" := None]["rix" := None];
      return;
    }
    var vocabScores, docWordScores := CountVocabulary(tokens, vocab);
    var n := docLen as real;
    var ratios := [vocabScores[0] as real / n, vocabScores[1] as real / n, vocabScores[2] as real / n];
    docWordScores := docWordScores / n;
    assert Some(ratios[0]) == f.vocabB1 && Some(ratios[1]) == f.vocabA2 && Some(ratios[2]) == f.vocabA1;
    assert Some(docWordScores / 1000.0) == f.commonWordScore;
    doc.userData := doc.userData["vocab_b1" := Some(ratios[0])]["vocab_a2" := Some(ratios[1])]
      ["vocab_a1" := Some(ratios[2])]["common_word_score" := Some(docWordScores / 1000.0)];
    var tokenLengths := NonPunctLengths(tokens);
    CountableHasLength(tokens);
    doc.userData := doc.userData["token_length_mean" := Some(Mean(tokenLengths))];
    var sentenceLengths := SentenceLengths(doc.sents);
    doc.userData := doc.userData["sentence_length_mean" := Some(Mean(sentenceLengths))];
    var longWords := LongWords(tokens);
    var nSentences := |doc.sents|;
    var rix := longWords as real / nSentences as real;
    doc.userData := doc.userData["rix" := Some(rix)];
  }

  /** Every name of `FEATURES` is a key of `userData`. */
  predicate HasAllFeatures(userData: map<string, Option<real>>)
  {
    forall k :: 0 <= k < |FeatureNames| ==> FeatureNames[k] in userData
  }

  /** The names of `FEATURES`, one by one. */
  lemma HasAllFeaturesIff(userData: map<string, Option<real>>)
    ensures HasAllFeatures(userData)
            <==> "token_length_mean" in userData && "sentence_length_mean" in userData && "rix" in userData
                 && "vocab_a1" in userData && "vocab_a2" in userData && "vocab_b1" in userData
                 && "common_word_score" in userData
  {
    if HasAllFeatures(userData) {
      assert FeatureNames[0] in userData && FeatureNames[1] in userData && FeatureNames[2] in userData;
      assert FeatureNames[3] in userData && FeatureNames[4] in userData && FeatureNames[5] in userData;
      assert FeatureNames[6] in userData;
    } else {
      var k :| 0 <= k < |FeatureNames| && FeatureNames[k] !in userData;
      assert k == 0 || k == 1 || k == 2 || k == 3 || k == 4 || k == 5 || k == 6;
    }
  }

  /** `FEATURES` read out of `user_data` by name; a missing name is a `KeyError`. */
  function FeatureRow(userData: map<string, Option<real>>): Result<Features, PyError>
  {
    if HasAllFeatures(userData) then
      HasAllFeaturesIff(userData);
      Ok(Features(userData["token_length_mean"], userData["sentence_length_mean"], userData["rix"],
                  userData["vocab_a1"], userData["vocab_a2"], userData["vocab_b1"], userData["common_word_score"]))
    else Err(KeyError)
  }

  /** Reading the features back after the component ran gives exactly the features it
      computed, whatever else `user_data` held. */
  lemma ReadBackAfterMetrics(base: map<string, Option<real>>, f: Features)
    ensures FeatureRow(base + UserDataOf(f)) == Ok(f)
  {
    HasAllFeaturesIff(base + UserDataOf(f));
  }

  /** `_extract_features` after the pipeline: the loop over `FEATURES` copying each entry of
      `doc.user_data` into the row, stopping with a `KeyError` at the first missing one. */
  method ExtractFeatures(doc: Document) returns (r: Result<Features, PyError>)
    ensures r == FeatureRow(doc.userData)
  {
    var row: map<string, Option<real>> := map[];
    for i := 0 to |FeatureNames|
      invariant forall k :: 0 <= k < i ==> FeatureNames[k] in doc.userData && FeatureNames[k] in row
                                           && row[FeatureNames[k]] == doc.userData[FeatureNames[k]]
    {
      var feature := FeatureNames[i];
      if feature !in doc.userData {
        assert !HasAllFeatures(doc.userData);
        return Err(KeyError);
      }
      row := row[feature := doc.userData[feature]];
    }
    assert row[FeatureNames[0]] == doc.userData[FeatureNames[0]] && row[FeatureNames[1]] == doc.userData[FeatureNames[1]];
    assert row[FeatureNames[2]] == doc.userData[FeatureNames[2]] && row[FeatureNames[3]] == doc.userData[FeatureNames[3]];
    assert row[FeatureNames[4]] == doc.userData[FeatureNames[4]] && row[FeatureNames[5]] == doc.userData[FeatureNames[5]];
    assert row[FeatureNames[6]] == doc.userData[FeatureNames[6]];
    HasAllFeaturesIff(row);
    HasAllFeaturesIff(doc.userData);
    r := Ok(Features(row["token_length_mean"], row["sentence_length_mean"], row["rix"],
                     row["vocab_a1"], row["vocab_a2"], row["vocab_b1"], row["common_word_score"]));
  }
}
