/** The retrieval-augmented answering service of
    backend/services/rag_service.py: it resolves the generation settings
    from an optional model configuration, searches the vector store with
    the dialog's chunk budget and similarity threshold, turns the hits into
    numbered context blocks, picks one of two prompt templates depending on
    whether there is any context, and asks the language model. The model
    itself, the embedding, the similarity measure, JSON text decoding and
    the two-decimal score formatting are parameters. */
module Rag {
  import opened Common
  import opened VectorIndex

  const DefaultModelName := "gemini-2.0-flash"

  const DefaultSystemPrompt :=
    "You are a knowledgeable and helpful chatbot specializing in Traditional Eastern Medicine.\n" +
    "You answer user questions by retrieving and reasoning over information from the following six classical medical texts:\n\n" +
    "Shennong Bencao Jing (Thần Nông Bản Thảo)\nShanghan Lun (Thương Hàn Luận)\nNanjing (Nan Kinh)\n" +
    "Huangdi Neijing – Lingshu (Hoàng Đế Nội Kinh - Linh Khu)\nJingui Yaolue (Kim Quỹ Yếu Lược)\n" +
    "Qianjin Yaofang (Thiên Kim Yếu Phương)\n\nLanguage Handling Rules:\n" +
    "If the user asks a question in Classical Chinese (chữ Hán), you must respond in Classical Chinese.\n" +
    "If the user uses Vietnamese, Modern Chinese, or English, respond in that language accordingly.\n" +
    "Always adapt your language based on the user's current usage.\n\nYour Role:\n" +
    "Provide accurate, faithful answers based only on the content from the six books listed above.\n" +
    "Quote, summarize, or explain relevant passages as needed, but never fabricate information.\n" +
    "If a question cannot be sufficiently answered using the available knowledge base, respond politely and gently, acknowledging the limitation and expressing your intent to help as much as possible."

  /** The generation settings handed to the model. */
  datatype Settings = Settings(model: Json, temperature: Json, maxTokens: Json)

  /** The settings read from a configuration object; absent keys fall back
      to the model name, temperature 0.7 and 1000 output tokens. */
  function SettingsFrom(fields: map<string, Json>): (s: Settings)
    ensures "temperature" !in fields ==> s.temperature == JFloat(Finite(0.7))
    ensures "model" !in fields ==> s.model == JString(DefaultModelName)
    ensures "max_tokens" !in fields ==> s.maxTokens == JInt(1000)
    ensures "temperature" in fields ==> s.temperature == fields["temperature"]
    ensures "model" in fields ==> s.model == fields["model"]
    ensures "max_tokens" in fields ==> s.maxTokens == fields["max_tokens"]
  {
    Settings(Get(fields, "model", JString(DefaultModelName)),
             Get(fields, "temperature", JFloat(Finite(0.7))),
             Get(fields, "max_tokens", JInt(1000)))
  }

  /** The settings used without a configuration. */
  const NoConfigSettings := Settings(JString(DefaultModelName), JFloat(Finite(0.1)), JInt(1000))

  /** The defaulting at the top of the constructor: a missing or falsy
      configuration gives temperature 0.1; a JSON text is decoded first; a
      decoded value that is not an object has no `.get` and raises. */
  function ModelSettings(config: Option<Json>, decode: string -> Option<Json>): (r: Result<Settings>)
    ensures (config.None? || !Truthy(config.value)) ==> r == Ok(NoConfigSettings)
    ensures config.Some? && config.value.JObject? && Truthy(config.value) ==> r == Ok(SettingsFrom(config.value.fields))
    ensures config.Some? && config.value.JString? && Truthy(config.value) ==>
              (decode(config.value.s).None? ==> r.Err?) &&
              (decode(config.value.s).Some? && decode(config.value.s).value.JObject? ==>
                 r == Ok(SettingsFrom(decode(config.value.s).value.fields))) &&
              (decode(config.value.s).Some? && !decode(config.value.s).value.JObject? ==> r.Err?)
    ensures config.Some? && Truthy(config.value) && !config.value.JString? && !config.value.JObject? ==> r.Err?
    ensures r.Ok? && config.Some? && Truthy(config.value) ==>
              config.value.JObject? || (config.value.JString? && decode(config.value.s).Some? &&
                                        decode(config.value.s).value.JObject?)
  {
    if config.None? || !Truthy(config.value) then Ok(NoConfigSettings)
    else match config.value
      case JString(text) =>
        (match decode(text)
         case None => Err("JSONDecodeError")
         case Some(JObject(fields)) => Ok(SettingsFrom(fields))
         case Some(_) => Err("AttributeError: object has no attribute 'get'"))
      case JObject(fields) => Ok(SettingsFrom(fields))
      case _ => Err("AttributeError: object has no attribute 'get'")
  }

  /** The two temperature defaults: 0.1 without a configuration, 0.7 with
      one that does not set it. An empty object is falsy and so counts as
      no configuration, while the text `"{}"` is truthy, decodes to the
      empty object and gets the 0.7 default. */
  lemma TemperatureDefaults(decode: string -> Option<Json>, fields: map<string, Json>)
    requires "temperature" !in fields
    requires decode("{}") == Some(JObject(map[]))
    ensures ModelSettings(None, decode).value.temperature == JFloat(Finite(0.1))
    ensures ModelSettings(Some(JObject(map[])), decode).value.temperature == JFloat(Finite(0.1))
    ensures fields != map[] ==> ModelSettings(Some(JObject(fields)), decode).value.temperature == JFloat(Finite(0.7))
    ensures ModelSettings(Some(JString("{}")), decode).value.temperature == JFloat(Finite(0.7))
  {
  }

  /** The system prompt kept by the service: a missing or empty prompt is
      replaced by the built-in one. */
  function ResolveSystemPrompt(prompt: Option<string>): (r: string)
    ensures prompt.Some? && prompt.value != "" ==> r == prompt.value
    ensures prompt.None? || prompt.value == "" ==> r == DefaultSystemPrompt
    ensures r != ""
  {
    if prompt.Some? && prompt.value != "" then prompt.value else DefaultSystemPrompt
  }

  /** One formatted knowledge-base result. */
  datatype KbResult = KbResult(content: string, source: string, score: real,
                               chunkId: int, kbId: int, rowIndex: int, headers: seq<string>)

  function SourceLabel(kbId: int): string {
    "KB_" + IntToString(kbId)
  }

  /** Two results carry the same source label exactly when they come from
      the same knowledge base. */
  lemma SourceLabelInjective(a: int, b: int)
    ensures SourceLabel(a) == SourceLabel(b) <==> a == b
  {
    if SourceLabel(a) == SourceLabel(b) {
      assert IntToString(a) == SourceLabel(a)[3..];
      assert IntToString(b) == SourceLabel(b)[3..];
      IntToStringInjective(a, b);
    }
  }

  function Format(h: Hit): KbResult {
    KbResult(h.text, SourceLabel(h.kbId), h.score, h.chunkId, h.kbId, h.rowIndex, h.headers)
  }

  function FormatAll(hits: seq<Hit>): (rs: seq<KbResult>)
    ensures |rs| == |hits|
    ensures forall i :: 0 <= i < |hits| ==> rs[i] == Format(hits[i])
  {
    seq(|hits|, i requires 0 <= i < |hits| => Format(hits[i]))
  }

  /** The sources listed in a chat answer, in result order. */
  function Sources(rs: seq<KbResult>): (ss: seq<string>)
    ensures |ss| == |rs|
    ensures forall i :: 0 <= i < |rs| ==> ss[i] == rs[i].source
  {
    seq(|rs|, i requires 0 <= i < |rs| => rs[i].source)
  }

  /** Whether the store can run the search at all: a missing or negative
      limit and a non-finite threshold make the client refuse. A missing
      threshold is no threshold. */
  predicate Searchable(limit: Option<int>, threshold: Option<Float>) {
    limit.Some? && limit.value >= 0 && (threshold.None? || threshold.value.Finite?)
  }

  /** The score cut-off the store applies for a searchable threshold. */
  function Cutoff(threshold: Option<Float>): (t: Option<real>)
    requires threshold.None? || threshold.value.Finite?
    ensures t.None? <==> threshold.None?
    ensures t.Some? ==> threshold.value == Finite(t.value)
  {
    if threshold.None? then None else Some(threshold.value.r)
  }

  /** The possible outcomes of `search_knowledge_base`: a refused or failed
      search gives no results, otherwise the store's answer formatted hit
      by hit. */
  ghost predicate Retrieved(m: map<int, Point>, query: string, embed: string -> Vector,
                            sim: (Vector, Vector) -> real, limit: Option<int>, threshold: Option<Float>,
                            failure: Option<string>, results: seq<KbResult>) {
    if Searchable(limit, threshold) && failure.None? then
      exists hits :: SearchAnswer(m, embed(query), sim, Cutoff(threshold), limit.value, hits) &&
                     results == FormatAll(hits)
    else results == []
  }

  /** Retrieved results respect the chunk budget and the threshold, best
      first, and are labelled by their knowledge base; without a threshold
      a successful search fills the budget from all stored points. */
  lemma RetrievedShape(m: map<int, Point>, query: string, embed: string -> Vector,
                       sim: (Vector, Vector) -> real, limit: Option<int>, threshold: Option<Float>,
                       failure: Option<string>, results: seq<KbResult>)
    requires Retrieved(m, query, embed, sim, limit, threshold, failure, results)
    ensures results != [] ==> Searchable(limit, threshold) && failure.None? && |results| <= limit.value
    ensures threshold.Some? && threshold.value.Finite? ==>
              forall i :: 0 <= i < |results| ==> results[i].score >= threshold.value.r
    ensures Searchable(limit, threshold) && failure.None? && threshold.None? ==>
              |results| == Min(limit.value, |m|)
    ensures forall i, j :: 0 <= i < j < |results| ==> results[i].score >= results[j].score
    ensures forall i :: 0 <= i < |results| ==> results[i].source == SourceLabel(results[i].kbId)
  {
    if Searchable(limit, threshold) && failure.None? {
      var hits :| SearchAnswer(m, embed(query), sim, Cutoff(threshold), limit.value, hits) &&
                  results == FormatAll(hits);
      SearchAnswerShape(m, embed(query), sim, Cutoff(threshold), limit.value, hits);
    }
  }

  // ---------------------------------------------------------------------
  // Context blocks

  function Dashes(n: nat): (s: string)
    ensures |s| == n && forall i :: 0 <= i < n ==> s[i] == '-'
  {
    if n == 0 then "" else Dashes(n - 1) + "-"
  }

  /** The four parts of the block for the `i`-th result (counting from 1). */
  function Block(i: int, r: KbResult, formatScore: real -> string): (b: seq<string>)
    ensures |b| == 4
  {
    ["**Tài liệu " + IntToString(i) + "** (Độ liên quan: " + formatScore(r.score) + ")\n",
     "Nguồn: " + r.source + "\n",
     "Nội dung: " + r.content + "\n",
     Dashes(50) + "\n"]
  }

  /** The parts of all blocks, results numbered from 1 in order. */
  function ContextParts(rs: seq<KbResult>, formatScore: real -> string): seq<string> {
    if rs == [] then [] else ContextParts(rs[..|rs| - 1], formatScore) + Block(|rs|, rs[|rs| - 1], formatScore)
  }

  /** Four parts per result; the `i`-th result's block sits at `4 * i` and
      carries the number `i + 1`. */
  lemma {:induction false} ContextPartsLayout(rs: seq<KbResult>, formatScore: real -> string)
    ensures |ContextParts(rs, formatScore)| == 4 * |rs|
    ensures forall i :: 0 <= i < |rs| ==>
              ContextParts(rs, formatScore)[4 * i..4 * i + 4] == Block(i + 1, rs[i], formatScore)
  {
    if rs != [] {
      var init := rs[..|rs| - 1];
      ContextPartsLayout(init, formatScore);
      var prev := ContextParts(init, formatScore);
      var block := Block(|rs|, rs[|rs| - 1], formatScore);
      assert ContextParts(rs, formatScore) == prev + block;
      forall i | 0 <= i < |rs| ensures (prev + block)[4 * i..4 * i + 4] == Block(i + 1, rs[i], formatScore) {
        if i < |init| {
          SliceOfPrefix(prev, block, 4 * i, 4 * i + 4);
          assert init[i] == rs[i];
          assert prev[4 * i..4 * i + 4] == Block(i + 1, init[i], formatScore);
        } else {
          SliceOfSuffix(prev, block);
          assert 4 * i == |prev|;
        }
      }
    }
  }

  /** A slice that lies inside the first of two joined sequences. */
  lemma SliceOfPrefix<T>(a: seq<T>, b: seq<T>, lo: nat, hi: nat)
    requires lo <= hi <= |a|
    ensures (a + b)[lo..hi] == a[lo..hi]
  {
  }

  /** The second of two joined sequences, sliced back out. */
  lemma SliceOfSuffix<T>(a: seq<T>, b: seq<T>)
    ensures (a + b)[|a|..|a| + |b|] == b
  {
  }

  /** The context text: empty without results, otherwise the parts joined
      by newlines. */
  function ContextText(rs: seq<KbResult>, formatScore: real -> string): string {
    if rs == [] then "" else Join("\n", ContextParts(rs, formatScore))
  }

  /** There is context exactly when there are results, and then it opens
      with the block of result number 1. */
  lemma ContextNonEmptyIffResults(rs: seq<KbResult>, formatScore: real -> string)
    ensures ContextText(rs, formatScore) != "" <==> rs != []
    ensures rs != [] ==> Block(1, rs[0], formatScore)[0] <= ContextText(rs, formatScore)
  {
    if rs != [] {
      ContextPartsLayout(rs, formatScore);
      var parts := ContextParts(rs, formatScore);
      assert parts[0] == parts[0..4][0] == Block(1, rs[0], formatScore)[0];
      JoinStartsWithFirst("\n", parts);
    }
  }

  // ---------------------------------------------------------------------
  // Prompts and the model call

  const KbPromptHead := "Dựa trên thông tin từ knowledge base"

  function KbPrompt(userMessage: string, context: string): string {
    KbPromptHead + " và kiến thức y học cổ truyền, hãy trả lời câu hỏi sau:\n\n" +
    "**Thông tin từ Knowledge Base:**\n" + context + "\n\n" +
    "**Câu hỏi của người dùng:**\n" + userMessage + "\n\n" +
    "Hãy trả lời dựa trên thông tin có sẵn và kiến thức y học cổ truyền."
  }

  const PlainPromptHead := "Dựa trên kiến thức"

  function PlainPrompt(userMessage: string): string {
    PlainPromptHead + " y học cổ truyền, hãy trả lời câu hỏi sau:\n\n" +
    "**Câu hỏi của người dùng:**\n" + userMessage + "\n\n" +
    "Hãy trả lời dựa trên kiến thức y học cổ truyền."
  }

  function Prompt(userMessage: string, context: string): string {
    if context != "" then KbPrompt(userMessage, context) else PlainPrompt(userMessage)
  }

  /** The knowledge-base template is used exactly when there is context,
      and the prompt carries the user's message either way. */
  lemma KbPromptIffContext(userMessage: string, context: string)
    ensures KbPromptHead <= Prompt(userMessage, context) <==> context != ""
  {
    if context == "" {
      var p := PlainPrompt(userMessage);
      assert PlainPromptHead <= p;
      assert p[9] == PlainPromptHead[9] == 'k';
      assert KbPromptHead[9] == 't';
    }
  }

  /** What the model call gives back: text (possibly empty) or a failure. */
  datatype Reply = Text(text: string) | Failure(message: string)

  const Apology := "Xin lỗi, tôi không thể tạo câu trả lời. Vui lòng thử lại."

  const ErrorPrefix := "Xin lỗi, có lỗi xảy ra: "

  /** `generate_response`: the model's non-empty text, the fixed apology for
      empty text, or the error prefix followed by the failure message. */
  function GenerateResponse(settings: Settings, userMessage: string, context: string,
                            llm: (Settings, string) -> Reply): (r: string)
    ensures llm(settings, Prompt(userMessage, context)).Text? &&
            llm(settings, Prompt(userMessage, context)).text != "" ==>
              r == llm(settings, Prompt(userMessage, context)).text
    ensures llm(settings, Prompt(userMessage, context)) == Text("") ==> r == Apology
    ensures llm(settings, Prompt(userMessage, context)).Failure? ==>
              r == ErrorPrefix + llm(settings, Prompt(userMessage, context)).message
  {
    match llm(settings, Prompt(userMessage, context))
    case Text(text) => if text != "" then text else Apology
    case Failure(message) => ErrorPrefix + message
  }

  /** The dictionary `chat_with_rag` returns. */
  datatype RagAnswer = RagAnswer(response: string, contextUsed: string, sources: seq<string>,
                                 searchResultsCount: nat)

  function AnswerFor(settings: Settings, userMessage: string, results: seq<KbResult>,
                     formatScore: real -> string, llm: (Settings, string) -> Reply): (a: RagAnswer)
    ensures a.searchResultsCount == |a.sources| == |results|
    ensures forall i :: 0 <= i < |results| ==> a.sources[i] == results[i].source
    ensures a.contextUsed == ContextText(results, formatScore)
    ensures a.response == GenerateResponse(settings, userMessage, a.contextUsed, llm)
  {
    var context := ContextText(results, formatScore);
    RagAnswer(GenerateResponse(settings, userMessage, context, llm), context, Sources(results), |results|)
  }

  /** The answer is grounded exactly when something was retrieved: the
      knowledge-base prompt is used iff the result count is positive. */
  lemma AnswerGroundedIffResults(settings: Settings, userMessage: string, results: seq<KbResult>,
                                 formatScore: real -> string)
    ensures KbPromptHead <= Prompt(userMessage, ContextText(results, formatScore)) <==> |results| > 0
  {
    ContextNonEmptyIffResults(results, formatScore);
    KbPromptIffContext(userMessage, ContextText(results, formatScore));
  }

  /** `answer` is the service's answer for some retrieval made with that
      chunk budget and threshold. */
  ghost predicate RagAnswered(points: map<int, Point>, query: string, embed: string -> Vector,
                              sim: (Vector, Vector) -> real, maxChunks: Option<int>, threshold: Option<Float>,
                              failure: Option<string>, settings: Settings, formatScore: real -> string,
                              llm: (Settings, string) -> Reply, answer: RagAnswer)
  {
    exists results :: Retrieved(points, query, embed, sim, maxChunks, threshold, failure, results) &&
                      answer == AnswerFor(settings, query, results, formatScore, llm)
  }

  class RagService {
    var settings: Settings
    var maxChunks: Option<int>
    var cosineThreshold: Option<Float>
    var systemPrompt: string

    /** The constructor; a configuration for which `ModelSettings` reports
        an error raises in the source instead, and callers handle that case
        before constructing. */
    constructor (systemPrompt: Option<string>, modelConfig: Option<Json>, decode: string -> Option<Json>,
                 maxChunks: Option<int> := Some(8), cosineThreshold: Option<Float> := Some(Finite(0.5)))
      requires ModelSettings(modelConfig, decode).Ok?
      ensures settings == ModelSettings(modelConfig, decode).value
      ensures this.maxChunks == maxChunks && this.cosineThreshold == cosineThreshold
      ensures this.systemPrompt == ResolveSystemPrompt(systemPrompt)
    {
      settings := ModelSettings(modelConfig, decode).value;
      this.maxChunks := maxChunks;
      this.cosineThreshold := cosineThreshold;
      this.systemPrompt := if systemPrompt.Some? && systemPrompt.value != "" then systemPrompt.value
                           else DefaultSystemPrompt;
    }

    /** `search_knowledge_base`: the limit defaults to the service's chunk
        budget, the threshold is the service's; a refused or failed search
        gives `[]`, otherwise each hit is formatted with a `KB_<id>` source. */
    method SearchKnowledgeBase(store: VectorStore, query: string, userId: int, limit: Option<int>,
                               embed: string -> Vector, sim: (Vector, Vector) -> real,
                               failure: Option<string>) returns (results: seq<KbResult>)
      ensures Retrieved(store.points, query, embed, sim, if limit.None? then maxChunks else limit,
                        cosineThreshold, failure, results)
    {
      var effective := if limit.None? then maxChunks else limit;
      if !Searchable(effective, cosineThreshold) {
        return [];
      }
      var found := store.SearchChunks(query, userId, effective.value, Cutoff(cosineThreshold),
                                      embed, sim, failure);
      if found.Err? {
        return [];
      }
      results := FormatHits(found.value);
    }

    /** The formatting loop of `search_knowledge_base`. */
    method FormatHits(hits: seq<Hit>) returns (results: seq<KbResult>)
      ensures results == FormatAll(hits)
    {
      results := [];
      for i := 0 to |hits|
        invariant results == FormatAll(hits[..i])
      {
        var h := hits[i];
        results := results + [KbResult(h.text, "KB_" + IntToString(h.kbId), h.score,
                                       h.chunkId, h.kbId, h.rowIndex, h.headers)];
      }
      assert hits[..|hits|] == hits;
    }

    /** `generate_context`: the context text of the results. */
    method GenerateContext(results: seq<KbResult>, formatScore: real -> string) returns (context: string)
      ensures context == ContextText(results, formatScore)
    {
      if results == [] {
        return "";
      }
      var parts: seq<string> := [];
      for i := 0 to |results|
        invariant parts == ContextParts(results[..i], formatScore)
      {
        var r := results[i];
        assert results[..i + 1][..i] == results[..i];
        parts := parts + ["**Tài liệu " + IntToString(i + 1) + "** (Độ liên quan: " + formatScore(r.score) + ")\n"];
        parts := parts + ["Nguồn: " + r.source + "\n"];
        parts := parts + ["Nội dung: " + r.content + "\n"];
        parts := parts + [Dashes(50) + "\n"];
      }
      assert results[..|results|] == results;
      context := Join("\n", parts);
    }

    /** `chat_with_rag`: search with the service's budget, build the
        context, answer, and report the sources in result order with their
        count. The system prompt takes no part. */
    method ChatWithRag(store: VectorStore, userMessage: string, userId: int,
                       embed: string -> Vector, sim: (Vector, Vector) -> real, failure: Option<string>,
                       formatScore: real -> string, llm: (Settings, string) -> Reply)
      returns (answer: RagAnswer)
      ensures RagAnswered(store.points, userMessage, embed, sim, maxChunks, cosineThreshold, failure,
                          settings, formatScore, llm, answer)
    {
      var results := SearchKnowledgeBase(store, userMessage, userId, None, embed, sim, failure);
      var context := GenerateContext(results, formatScore);
      var response := GenerateResponse(settings, userMessage, context, llm);
      answer := RagAnswer(response, context, Sources(results), |results|);
    }

    /** `get_system_prompt`. */
    method GetSystemPrompt() returns (prompt: string)
      ensures prompt == systemPrompt
    {
      prompt := systemPrompt;
    }

    /** `update_system_prompt`: replaces the prompt and nothing else. */
    method UpdateSystemPrompt(newPrompt: string)
      modifies this
      ensures systemPrompt == newPrompt
      ensures settings == old(settings) && maxChunks == old(maxChunks) && cosineThreshold == old(cosineThreshold)
    {
      systemPrompt := newPrompt;
    }
  }
}
