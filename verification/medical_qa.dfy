/** The chain-of-thought dispatcher of CoT.py: classify the question, pick
    the analysis chain for the normalised category, then the
    recommendation chain for the same category. The language model is a
    function from prompts to text, and the prompts a run issues are
    returned in order so that calls can be counted. */
module MedicalQa {
  import opened Common

  /** The five question kinds the classifier is asked to choose from. */
  datatype Category = Social | Symptom | Treatment | Knowledge | Prevention

  /** The prompts the chains send: the prompt templates' wording is not
      modelled, only which template is filled and with what. */
  datatype CotPrompt =
    | ClassifyPrompt(question: string)
    | AnalysisPrompt(category: Category, question: string)
    | RecommendationPrompt(category: Category, question: string, analysis: string)

  /** `chain_map` inside `select_chain`. */
  const AnalysisChains: map<string, Category> :=
    map["triệu chứng" := Symptom, "điều trị" := Treatment, "kiến thức y học" := Knowledge,
        "dự phòng" := Prevention, "xã giao" := Social]

  /** `recommendation_chains`. */
  const RecommendationChains: map<string, Category> :=
    map["triệu chứng" := Symptom, "điều trị" := Treatment, "kiến thức y học" := Knowledge,
        "dự phòng" := Prevention, "xã giao" := Social]

  const UndeterminedAnalysis := "Không thể xác định loại câu hỏi phù hợp."
  const NoRecommendation := "Không có đề xuất."
  const NoSpecificRecommendation := "Không có đề xuất cụ thể."

  /** The normalisation both lookups apply: `strip().lower()`. */
  function CategoryKey(category: string): string {
    Lower(Strip(category))
  }

  /** `select_chain`: the analysis chain for the normalised category. */
  function SelectChain(category: string): (r: Option<Category>)
    ensures r.Some? <==> CategoryKey(category) in AnalysisChains
    ensures r.Some? ==> r.value == AnalysisChains[CategoryKey(category)]
  {
    var key := CategoryKey(category);
    if key in AnalysisChains then Some(AnalysisChains[key]) else None
  }

  /** Both maps have the same five keys and send each key to the same kind
      of question, so the recommendation always matches the analysis. */
  lemma ChainMapsAgree()
    ensures AnalysisChains.Keys == RecommendationChains.Keys
    ensures forall k :: k in AnalysisChains ==> AnalysisChains[k] == RecommendationChains[k]
    ensures |AnalysisChains.Keys| == 5
  {
    assert AnalysisChains == RecommendationChains;
    var keys := {"triệu chứng", "điều trị", "kiến thức y học", "dự phòng", "xã giao"};
    assert AnalysisChains.Keys == keys;
    assert |keys| == 5 by {
      assert "triệu chứng" != "điều trị" && "triệu chứng" != "kiến thức y học";
    }
  }

  /** The answer of `combine_chains`. */
  datatype CotAnswer = CotAnswer(category: string, analysis: string, recommendation: string)

  /** `combine_chains`: the answer and the prompts sent to the model, in
      order. */
  function CombineChains(question: string, llm: CotPrompt -> string): (r: (CotAnswer, seq<CotPrompt>))
    ensures |r.1| > 0 && r.1[0] == ClassifyPrompt(question)
    ensures r.0.category == llm(ClassifyPrompt(question))
  {
    var category := llm(ClassifyPrompt(question));
    var selected := SelectChain(category);
    if selected.None? then
      (CotAnswer(category, UndeterminedAnalysis, NoRecommendation), [ClassifyPrompt(question)])
    else
      var analysisPrompt := AnalysisPrompt(selected.value, question);
      var analysis := llm(analysisPrompt);
      var key := CategoryKey(category);
      if key in RecommendationChains then
        var recommendation := llm(RecommendationPrompt(RecommendationChains[key], question, analysis));
        (CotAnswer(category, analysis, recommendation),
         [ClassifyPrompt(question), analysisPrompt,
          RecommendationPrompt(RecommendationChains[key], question, analysis)])
      else
        (CotAnswer(category, analysis, NoSpecificRecommendation), [ClassifyPrompt(question), analysisPrompt])
  }

  /** An unrecognised category stops after the one classification call,
      with the two fixed texts. */
  lemma UnknownCategoryShortCircuits(question: string, llm: CotPrompt -> string)
    requires CategoryKey(llm(ClassifyPrompt(question))) !in AnalysisChains
    ensures CombineChains(question, llm).1 == [ClassifyPrompt(question)]
    ensures CombineChains(question, llm).0 ==
            CotAnswer(llm(ClassifyPrompt(question)), UndeterminedAnalysis, NoRecommendation)
  {
  }

  /** A recognised category makes exactly three calls: classify, analyse
      the question, then recommend on the question and that analysis, both
      with the category the key names. */
  lemma KnownCategoryThreeCalls(question: string, llm: CotPrompt -> string)
    requires CategoryKey(llm(ClassifyPrompt(question))) in AnalysisChains
    ensures var (answer, calls) := CombineChains(question, llm);
            var c := AnalysisChains[CategoryKey(llm(ClassifyPrompt(question)))];
            calls == [ClassifyPrompt(question), AnalysisPrompt(c, question),
                      RecommendationPrompt(c, question, answer.analysis)] &&
            answer.analysis == llm(calls[1]) && answer.recommendation == llm(calls[2])
  {
    ChainMapsAgree();
  }

  /** The "no specific recommendation" branch is never taken: every run
      makes one call or three, never two. */
  lemma NoSpecificRecommendationUnreachable(question: string, llm: CotPrompt -> string)
    ensures |CombineChains(question, llm).1| in {1, 3}
  {
    ChainMapsAgree();
  }

  /** The lookup ignores the white space around the classifier's label
      and its letter case, Vietnamese letters included. */
  lemma SelectChainNormalises(pre: string, word: string, post: string)
    requires AllSpace(pre) && AllSpace(post)
    requires word != [] && !IsSpace(word[0]) && !IsSpace(word[|word| - 1])
    requires Lower(word) in AnalysisChains
    ensures SelectChain(pre + word + post) == Some(AnalysisChains[Lower(word)])
  {
    StripPadded(pre, word, post);
  }
}
