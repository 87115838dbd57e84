/** The retrieval chain of CoT_ver2.py: translate the question to English,
    look up the best-scoring question of a fixed question-and-reasoning
    corpus, translate its reasoning to Vietnamese, and answer with that
    translation as context. Tokenisation and BM25 scoring are functions
    given to the model; so is the language model. */
module LexicalMatch {
  import opened Common

  /** The corpus read from the dataset: a question cell (missing cells
      are `None`) and a reasoning text per row. Reasoning cells are not
      filled, so a missing one would be NaN; that case is not modelled. */
  datatype Corpus = Corpus(questions: seq<Option<string>>, reasonings: seq<string>)

  predicate WellFormed(c: Corpus) {
    |c.questions| == |c.reasonings|
  }

  /** `fillna("")`: a missing question reads as the empty text. */
  function FillMissing(questions: seq<Option<string>>): (texts: seq<string>)
    ensures |texts| == |questions|
    ensures forall i :: 0 <= i < |questions| ==>
              texts[i] == (if questions[i].Some? then questions[i].value else "")
  {
    seq(|questions|, i requires 0 <= i < |questions| =>
      if questions[i].Some? then questions[i].value else "")
  }

  /** The tokenised corpus BM25 is built over. */
  function TokenizedCorpus(c: Corpus, tokenize: string -> seq<string>): (docs: seq<seq<string>>)
    ensures |docs| == |c.questions|
    ensures forall i :: 0 <= i < |docs| ==> docs[i] == tokenize(FillMissing(c.questions)[i])
  {
    var texts := FillMissing(c.questions);
    seq(|texts|, i requires 0 <= i < |texts| => tokenize(texts[i]))
  }

  /** `argmax`: the first index of a greatest score. */
  function FirstArgMax(scores: seq<real>): (k: nat)
    requires |scores| > 0
    ensures k < |scores|
    ensures forall j :: 0 <= j < |scores| ==> scores[j] <= scores[k]
    ensures forall j :: 0 <= j < k ==> scores[j] < scores[k]
  {
    if |scores| == 1 then 0
    else
      var k := FirstArgMax(scores[..|scores| - 1]);
      if scores[|scores| - 1] > scores[k] then |scores| - 1 else k
  }

  const MatchThreshold: real := 0.5

  /** `find_best_match` on the scores of the query against every corpus
      row: the reasoning of the first best row when its score is above 0.5,
      otherwise the empty text. An empty corpus has no `argmax`; the
      script itself fails earlier on one, when the BM25 index is built at
      import, and this error stands for that failure. */
  function FindBestMatch(reasonings: seq<string>, scores: seq<real>): (r: Result<string>)
    requires |scores| == |reasonings|
    ensures r.Err? <==> scores == []
    ensures r.Ok? ==> r.value == "" || r.value in reasonings
    ensures r.Ok? && (forall j :: 0 <= j < |scores| ==> scores[j] <= MatchThreshold) ==> r.value == ""
    ensures r.Ok? && (exists j :: 0 <= j < |scores| && scores[j] > MatchThreshold) ==>
              exists k :: 0 <= k < |scores| && r.value == reasonings[k] && scores[k] > MatchThreshold &&
                (forall j :: 0 <= j < |scores| ==> scores[j] <= scores[k]) &&
                (forall j :: 0 <= j < k ==> scores[j] < scores[k])
  {
    if scores == [] then Err("attempt to get argmax of an empty sequence")
    else
      var k := FirstArgMax(scores);
      if scores[k] > MatchThreshold then Ok(reasonings[k]) else Ok("")
  }

  /** The scores of a tokenised query against every corpus row. */
  function Scores(docs: seq<seq<string>>, query: seq<string>,
                  bm25: (seq<seq<string>>, nat, seq<string>) -> real): (scores: seq<real>)
    ensures |scores| == |docs|
    ensures forall i :: 0 <= i < |docs| ==> scores[i] == bm25(docs, i, query)
  {
    seq(|docs|, i requires 0 <= i < |docs| => bm25(docs, i, query))
  }

  /** The prompts the chain sends, in stage order. */
  datatype StagePrompt =
    | TranslateToEnglish(question: string)
    | TranslateToVietnamese(text: string)
    | FinalAnswer(context: string, input: string)

  /** What `chain_of_thought` returns: the answer, the English question,
      the Vietnamese context and the matched reasoning. */
  datatype ChainAnswer = ChainAnswer(final: string, english: string, vietnamese: string, raw: string)

  /** The validation error the final chain's construction raises (its
      wording is the library's and is not modelled). */
  const PromptMissing := "ValidationError"

  /** `chain_of_thought` as written: the final chain is built with a
      `prompt_template` argument instead of the `prompt` it requires, so its
      construction raises after the two translation stages. The prompts
      sent are returned with the outcome. */
  function ChainOfThoughtAsWritten(llm: StagePrompt -> string, userQuery: string, c: Corpus,
                                   tokenize: string -> seq<string>,
                                   bm25: (seq<seq<string>>, nat, seq<string>) -> real)
    : (r: (Result<ChainAnswer>, seq<StagePrompt>))
    requires WellFormed(c)
  {
    var english := llm(TranslateToEnglish(userQuery));
    var found := FindBestMatch(c.reasonings, Scores(TokenizedCorpus(c, tokenize), tokenize(english), bm25));
    if found.Err? then (Err(found.error), [TranslateToEnglish(userQuery)])
    else
      var vietnamese := llm(TranslateToVietnamese(found.value));
      (Err(PromptMissing), [TranslateToEnglish(userQuery), TranslateToVietnamese(found.value)])
  }

  /** As written, the chain never answers: every call ends in an error and
      the final prompt is never sent. */
  lemma AsWrittenNeverAnswers(llm: StagePrompt -> string, userQuery: string, c: Corpus,
                              tokenize: string -> seq<string>,
                              bm25: (seq<seq<string>>, nat, seq<string>) -> real)
    requires WellFormed(c)
    ensures ChainOfThoughtAsWritten(llm, userQuery, c, tokenize, bm25).0.Err?
    ensures forall p :: p in ChainOfThoughtAsWritten(llm, userQuery, c, tokenize, bm25).1 ==> !p.FinalAnswer?
  {
  }

  /** `chain_of_thought` with the final chain built from its prompt. */
  function ChainOfThought(llm: StagePrompt -> string, userQuery: string, c: Corpus,
                          tokenize: string -> seq<string>,
                          bm25: (seq<seq<string>>, nat, seq<string>) -> real)
    : (r: (Result<ChainAnswer>, seq<StagePrompt>))
    requires WellFormed(c)
  {
    var english := llm(TranslateToEnglish(userQuery));
    var found := FindBestMatch(c.reasonings, Scores(TokenizedCorpus(c, tokenize), tokenize(english), bm25));
    if found.Err? then (Err(found.error), [TranslateToEnglish(userQuery)])
    else
      var vietnamese := llm(TranslateToVietnamese(found.value));
      var final := llm(FinalAnswer(vietnamese, userQuery));
      (Ok(ChainAnswer(final, english, vietnamese, found.value)),
       [TranslateToEnglish(userQuery), TranslateToVietnamese(found.value), FinalAnswer(vietnamese, userQuery)])
  }

  /** On a non-empty corpus the chain answers after exactly three stages:
      the English translation of the query, the Vietnamese translation of
      the reasoning matched against that English text, and the final answer
      with that translation as context and the original query as input. */
  lemma StageOrder(llm: StagePrompt -> string, userQuery: string, c: Corpus,
                   tokenize: string -> seq<string>,
                   bm25: (seq<seq<string>>, nat, seq<string>) -> real)
    requires WellFormed(c) && |c.questions| > 0
    ensures var (r, prompts) := ChainOfThought(llm, userQuery, c, tokenize, bm25);
            var english := llm(TranslateToEnglish(userQuery));
            var scores := Scores(TokenizedCorpus(c, tokenize), tokenize(english), bm25);
            r.Ok? && r.value.english == english &&
            Ok(r.value.raw) == FindBestMatch(c.reasonings, scores) &&
            (r.value.raw == "" || r.value.raw in c.reasonings) &&
            prompts == [TranslateToEnglish(userQuery), TranslateToVietnamese(r.value.raw),
                        FinalAnswer(r.value.vietnamese, userQuery)] &&
            r.value.vietnamese == llm(prompts[1]) && r.value.final == llm(prompts[2])
  {
  }

  /** A row whose question cell is missing is scored as an empty question. */
  lemma MissingQuestionScoredAsEmpty(c: Corpus, tokenize: string -> seq<string>, i: nat)
    requires i < |c.questions| && c.questions[i].None?
    ensures TokenizedCorpus(c, tokenize)[i] == tokenize("")
  {
  }
}
