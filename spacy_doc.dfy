/** The part of a spaCy `Doc` the scorers read: the tokens, their split into sentences,
    and the `user_data` dictionary that pipeline components write their metrics into.
    Tokenisation, lemmatisation and sentence segmentation happen before this model starts:
    a document is built from sentences that are already split. */
module SpacyDoc {
  import opened PyValues

  /** One token with the attributes the scorers read: its text (`len(token)` is its
      length), its lemma already lower-cased (`token.lemma_.lower()`), `is_punct` and
      `like_num`. */
  datatype Token = Token(text: string, lemmaLower: string, isPunct: bool, likeNum: bool)

  /** A sentence of `doc.sents`: a non-empty run of tokens. */
  type Sentence = s: seq<Token> | |s| > 0 witness [Token("", "", false, false)]

  /** The tokens of the sentences in order: what `for token in doc` visits. */
  function Flatten(sents: seq<Sentence>): (tokens: seq<Token>)
    ensures sents != [] ==> |tokens| > 0
    ensures |tokens| >= |sents|
  {
    if sents == [] then [] else sents[0] + Flatten(sents[1..])
  }

  /** A token that counts towards the document length: neither punctuation nor number-like. */
  predicate Countable(t: Token)
  {
    !t.isPunct && !t.likeNum
  }

  /** `len([t for t in tokens if not t.is_punct and not t.like_num])`. */
  function CountCountable(tokens: seq<Token>): (n: nat)
    ensures n <= |tokens|
  {
    if tokens == [] then 0
    else CountCountable(tokens[..|tokens| - 1]) + (if Countable(tokens[|tokens| - 1]) then 1 else 0)
  }

  /** The count is zero exactly when no token is countable. */
  lemma {:induction false} CountCountableZero(tokens: seq<Token>)
    ensures CountCountable(tokens) == 0 <==> forall i :: 0 <= i < |tokens| ==> !Countable(tokens[i])
  {
    if tokens != [] {
      var init := tokens[..|tokens| - 1];
      CountCountableZero(init);
      assert forall i :: 0 <= i < |init| ==> init[i] == tokens[i];
    }
  }

  /** spaCy's default `nlp.max_length`: the pipeline refuses a longer text. */
  const MaxLength := 1000000

  /** Calling the pipeline on `text`: a `ValueError` for a text longer than `MaxLength`,
      otherwise the sentences the tokeniser `nlp` splits it into. */
  function Tokenise(nlp: string -> seq<Sentence>, text: string): (r: Result<seq<Sentence>, PyError>)
    ensures r.Err? <==> |text| > MaxLength
    ensures r.Err? ==> r.error == ValueError
    ensures r.Ok? ==> r.value == nlp(text)
  {
    if |text| > MaxLength then Err(ValueError) else Ok(nlp(text))
  }

  /** A spaCy document after tokenisation. The sentences never change; `user_data`
      is the dictionary the pipeline components fill in place. */
  class Document {
    const sents: seq<Sentence>
    var userData: map<string, Option<real>>

    /** A freshly tokenised document: `user_data` starts empty. */
    constructor (sents: seq<Sentence>)
      ensures this.sents == sents && userData == map[]
    {
      this.sents := sents;
      userData := map[];
    }

    /** The tokens of the document, in order. */
    function Tokens(): seq<Token>
    {
      Flatten(sents)
    }
  }
}
