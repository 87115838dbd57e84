/** The evaluation endpoint of backend/app/eval.py: every submitted item's
    question is answered by a RAG service built from the evaluation's
    default configuration, the answered items are reshaped into the
    records the metrics library reads, and the scores it returns are
    paired back with the items. The metrics library and the language model
    behind it are a parameter. */
module Evaluation {
  import opened Common
  import opened Requests
  import opened VectorIndex
  import opened Rag

  /** A JSON object as a Python dictionary. */
  type Record = map<string, Json>

  /** `get_default_config`: there is no `model_config` key. */
  const DefaultConfig: Record :=
    map["system_prompt" := JString(DefaultSystemPrompt),
        "model" := JString(DefaultModelName),
        "temperature" := JFloat(Finite(0.1)),
        "max_tokens" := JInt(1000),
        "max_chunks" := JInt(8),
        "cosine_threshold" := JFloat(Finite(0.5))]

  /** `config.get(key)` read as the optional value the service takes. */
  function OptionalField(config: Record, key: string): Option<Json> {
    if key in config then Some(config[key]) else None
  }

  function AsString(j: Option<Json>): Option<string> {
    if j.Some? && j.value.JString? then Some(j.value.s) else None
  }

  function AsInt(j: Json): Option<int> {
    if j.JInt? then Some(j.i) else None
  }

  function AsFloat(j: Json): Option<Float> {
    if j.JFloat? then Some(j.f) else None
  }

  /** The settings a RAG service built from the default configuration
      ends up with: no model configuration, so the no-configuration
      defaults with temperature 0.1; the built-in system prompt; a budget
      of 8 chunks and a threshold of 0.5. */
  lemma DefaultConfigPassing(decode: string -> Option<Json>)
    ensures OptionalField(DefaultConfig, "model_config") == None
    ensures ModelSettings(OptionalField(DefaultConfig, "model_config"), decode) == Ok(NoConfigSettings)
    ensures NoConfigSettings.temperature == JFloat(Finite(0.1))
    ensures ResolveSystemPrompt(AsString(OptionalField(DefaultConfig, "system_prompt"))) == DefaultSystemPrompt
    ensures AsInt(Get(DefaultConfig, "max_chunks", JInt(8))) == Some(8)
    ensures AsFloat(Get(DefaultConfig, "cosine_threshold", JFloat(Finite(0.5)))) == Some(Finite(0.5))
  {
    var prompt := DefaultConfig["system_prompt"];
    assert prompt == JString(DefaultSystemPrompt);
    assert AsString(OptionalField(DefaultConfig, "system_prompt")) == Some(DefaultSystemPrompt);
  }

  /** The answer the evaluation gets for a question: the response of a
      service with the no-configuration settings, a budget of 8 chunks and
      a threshold of 0.5. */
  ghost predicate AnsweredByDefault(points: map<int, Point>, question: string, embed: string -> Vector,
                                    sim: (Vector, Vector) -> real, failure: Option<string>,
                                    formatScore: real -> string, llm: (Settings, string) -> Reply,
                                    answer: string) {
    exists a :: RagAnswered(points, question, embed, sim, Some(8), Some(Finite(0.5)), failure, NoConfigSettings,
                            formatScore, llm, a) && answer == a.response
  }

  /** `get_assistant_response`. */
  method GetAssistantResponse(store: VectorStore, userId: int, question: string,
                              decode: string -> Option<Json>, embed: string -> Vector,
                              sim: (Vector, Vector) -> real, failure: Option<string>,
                              formatScore: real -> string, llm: (Settings, string) -> Reply)
    returns (answer: string)
    ensures AnsweredByDefault(store.points, question, embed, sim, failure, formatScore, llm, answer)
  {
    var config := DefaultConfig;
    DefaultConfigPassing(decode);
    var rag := new RagService(AsString(OptionalField(config, "system_prompt")), OptionalField(config, "model_config"),
                              decode, AsInt(Get(config, "max_chunks", JInt(8))),
                              AsFloat(Get(config, "cosine_threshold", JFloat(Finite(0.5)))));
    var result := rag.ChatWithRag(store, question, userId, embed, sim, failure, formatScore, llm);
    answer := result.response;
  }

  // ---------------------------------------------------------------------
  // Records

  /** The record kept for an answered item. */
  function ItemRecord(question: string, expectedAnswer: string, answer: string): Record {
    map["question" := JString(question), "expected_answer" := JString(expectedAnswer), "answer" := JString(answer)]
  }

  /** The keys `normalize_data` sets on every record. */
  const NormalizedKeys := {"retrieved_contexts", "response", "ground_truth", "reference", "user_input"}

  /** One record of `normalize_data`: the item's own keys, then the five
      keys the metrics read; a key the item lacks reads as `""`, one it
      holds as null stays null. */
  function NormalizedRecord(item: Record): (r: Record)
    ensures r.Keys == item.Keys + NormalizedKeys
    ensures forall k :: k in item && k !in NormalizedKeys ==> r[k] == item[k]
    ensures r["retrieved_contexts"] == JArray([])
    ensures r["response"] == (if "answer" in item then item["answer"] else JString(""))
    ensures r["ground_truth"] == r["reference"] ==
            (if "expected_answer" in item then item["expected_answer"] else JString(""))
    ensures r["user_input"] == (if "question" in item then item["question"] else JString(""))
  {
    item["retrieved_contexts" := JArray([])]
        ["response" := Get(item, "answer", JString(""))]
        ["ground_truth" := Get(item, "expected_answer", JString(""))]
        ["reference" := Get(item, "expected_answer", JString(""))]
        ["user_input" := Get(item, "question", JString(""))]
  }

  /** The records of an answered item carry its question, answer and
      expected answer under the names the metrics read, and no retrieved
      context. */
  lemma NormalizedItemRecord(question: string, expectedAnswer: string, answer: string)
    ensures var r := NormalizedRecord(ItemRecord(question, expectedAnswer, answer));
            r["user_input"] == r["question"] == JString(question) &&
            r["response"] == r["answer"] == JString(answer) &&
            r["reference"] == r["ground_truth"] == r["expected_answer"] == JString(expectedAnswer) &&
            r["retrieved_contexts"] == JArray([])
  {
    var item := ItemRecord(question, expectedAnswer, answer);
    assert item["question"] == JString(question) && item["answer"] == JString(answer) &&
           item["expected_answer"] == JString(expectedAnswer);
    assert "question" !in NormalizedKeys && "answer" !in NormalizedKeys && "expected_answer" !in NormalizedKeys;
  }

  /** Such a record has exactly eight keys: the item's three and the five
      the metrics read. */
  lemma NormalizedItemKeyCount(question: string, expectedAnswer: string, answer: string)
    ensures |NormalizedRecord(ItemRecord(question, expectedAnswer, answer)).Keys| == 8
  {
    var own: set<string> := {"question", "expected_answer", "answer"};
    assert ItemRecord(question, expectedAnswer, answer).Keys == own;
    OwnKeyCount();
    NormalizedKeyCount();
    assert own * NormalizedKeys == {} by {
      forall k | k in own ensures k !in NormalizedKeys {
        assert k[0] == 'q' || k[0] == 'e' || k[0] == 'a' || k == "question";
      }
    }
  }

  lemma OwnKeyCount()
    ensures |{"question", "expected_answer", "answer"}| == 3
  {
    var a: set<string> := {"question"};
    assert "expected_answer" !in a;
    var b := a + {"expected_answer"};
    assert "answer" !in b;
    assert b + {"answer"} == {"question", "expected_answer", "answer"};
  }

  lemma NormalizedKeyCount()
    ensures |NormalizedKeys| == 5
  {
    var a: set<string> := {"retrieved_contexts"};
    assert "response" !in a;
    var b := a + {"response"};
    assert "ground_truth" !in b;
    var c := b + {"ground_truth"};
    assert "reference" !in c;
    var d := c + {"reference"};
    assert "user_input" !in d;
    assert d + {"user_input"} == NormalizedKeys;
  }

  /** The records in order, one per item. */
  function NormalizedAll(items: seq<Record>): (rs: seq<Record>)
    ensures |rs| == |items|
    ensures forall i :: 0 <= i < |items| ==> rs[i] == NormalizedRecord(items[i])
  {
    seq(|items|, i requires 0 <= i < |items| => NormalizedRecord(items[i]))
  }

  /** `normalize_data`: the loop that builds the records; the dataset
      object built from them is the metrics library's. */
  method NormalizeData(input: seq<Record>) returns (formatted: seq<Record>)
    ensures formatted == NormalizedAll(input)
  {
    formatted := [];
    for i := 0 to |input|
      invariant |formatted| == i
      invariant forall k :: 0 <= k < i ==> formatted[k] == NormalizedRecord(input[k])
    {
      formatted := formatted + [NormalizedRecord(input[i])];
    }
  }

  /** The zip of the records with the scores: the shorter of the two
      decides the length. */
  function WithScores(records: seq<Record>, scores: seq<Json>): (rs: seq<Record>)
    ensures |rs| == Min(|records|, |scores|)
    ensures forall i :: 0 <= i < |rs| ==> rs[i] == records[i]["score" := scores[i]]
  {
    seq(Min(|records|, |scores|), i requires 0 <= i < Min(|records|, |scores|) => records[i]["score" := scores[i]])
  }

  // ---------------------------------------------------------------------
  // The endpoint

  const EvalErrorPrefix := "An error occurred during evaluation: "

  /** `dict(item)` for an item that is an object; anything else is refused
      with the message Python gives for it. */
  function DictOf(item: Json): Result<Record> {
    match item
    case JObject(fields) => Ok(fields)
    case JString(s) => if s == "" then Ok(map[]) else Err("dictionary update sequence element #0 has length 1; 2 is required")
    case JArray(items) =>
      if items == [] then Ok(map[]) else Err("cannot convert dictionary update sequence element #0 to a sequence")
    case _ => Err("object is not iterable")
  }

  /** `d.get(key).strip()`: a missing key or a value that is not a string
      has no `strip`. */
  function StrippedField(fields: Record, key: string): (r: Result<string>)
    ensures r.Ok? <==> key in fields && fields[key].JString?
    ensures r.Ok? ==> r.value == Strip(fields[key].s)
  {
    if key in fields && fields[key].JString? then Ok(Strip(fields[key].s))
    else Err("object has no attribute 'strip'")
  }

  /** An item the loop gets through. */
  predicate ItemValid(item: Json) {
    DictOf(item).Ok? && StrippedField(DictOf(item).value, "question").Ok? &&
    StrippedField(DictOf(item).value, "expected_answer").Ok?
  }

  /** The record kept for a valid item: its stripped question and
      expected answer, and the answer to the stripped question. */
  ghost predicate ItemRecorded(points: map<int, Point>, item: Json, embed: string -> Vector,
                               sim: (Vector, Vector) -> real, failure: Option<string>,
                               formatScore: real -> string, llm: (Settings, string) -> Reply, record: Record) {
    ItemValid(item) &&
    var question := StrippedField(DictOf(item).value, "question").value;
    exists answer :: AnsweredByDefault(points, question, embed, sim, failure, formatScore, llm, answer) &&
                     record == ItemRecord(question, StrippedField(DictOf(item).value, "expected_answer").value, answer)
  }

  /** One pass of the item loop. */
  method RecordItem(store: VectorStore, userId: int, item: Json, decode: string -> Option<Json>,
                    embed: string -> Vector, sim: (Vector, Vector) -> real, failure: Option<string>,
                    formatScore: real -> string, llm: (Settings, string) -> Reply)
    returns (record: Result<Record>)
    ensures record.Ok? <==> ItemValid(item)
    ensures record.Ok? ==> ItemRecorded(store.points, item, embed, sim, failure, formatScore, llm, record.value)
  {
    var fields := DictOf(item);
    if fields.Err? {
      return Err(fields.error);
    }
    var question := StrippedField(fields.value, "question");
    if question.Err? {
      return Err(question.error);
    }
    var answer := GetAssistantResponse(store, userId, question.value, decode, embed, sim, failure, formatScore, llm);
    var expected := StrippedField(fields.value, "expected_answer");
    if expected.Err? {
      return Err(expected.error);
    }
    record := Ok(ItemRecord(question.value, expected.value, answer));
  }

  datatype EvalReply = EvalFailed(status: int, error: string) | Evaluated(results: seq<Record>)

  /** `records` holds one record for each item of a prefix of `items`, in
      order, the `k`-th related to its item by `recorded`. */
  ghost predicate EachRecorded(items: seq<Json>, records: seq<Record>, recorded: (nat, Json, Record) -> bool) {
    |records| <= |items| && forall k :: 0 <= k < |records| ==> recorded(k, items[k], records[k])
  }

  /** A record for the next item extends the prefix. */
  lemma EachRecordedSnoc(items: seq<Json>, records: seq<Record>, record: Record,
                         recorded: (nat, Json, Record) -> bool)
    requires EachRecorded(items, records, recorded) && |records| < |items|
    requires recorded(|records|, items[|records|], record)
    ensures EachRecorded(items, records + [record], recorded)
  {
    var next := records + [record];
    forall k | 0 <= k < |next|
      ensures recorded(k, items[k], next[k])
    {
      if k < |records| {
        assert next[k] == records[k];
      }
    }
  }

  /** The relation between an item and its record when the search for
      item `k` fails with `failure(k)`. */
  ghost function ItemRecordedWith(points: map<int, Point>, embed: string -> Vector, sim: (Vector, Vector) -> real,
                                  failure: nat -> Option<string>, formatScore: real -> string,
                                  llm: (Settings, string) -> Reply): (nat, Json, Record) -> bool {
    (k: nat, item: Json, record: Record) =>
      ItemRecorded(points, item, embed, sim, failure(k), formatScore, llm, record)
  }

  /** The records are those of the first items, one each, in order. */
  ghost predicate AllRecorded(points: map<int, Point>, items: seq<Json>, embed: string -> Vector,
                              sim: (Vector, Vector) -> real, failure: nat -> Option<string>,
                              formatScore: real -> string, llm: (Settings, string) -> Reply,
                              records: seq<Record>) {
    EachRecorded(items, records, ItemRecordedWith(points, embed, sim, failure, formatScore, llm))
  }

  /** Every recorded item is valid. */
  lemma AllRecordedValid(points: map<int, Point>, items: seq<Json>, embed: string -> Vector,
                         sim: (Vector, Vector) -> real, failure: nat -> Option<string>,
                         formatScore: real -> string, llm: (Settings, string) -> Reply,
                         records: seq<Record>)
    requires AllRecorded(points, items, embed, sim, failure, formatScore, llm, records)
    ensures forall k :: 0 <= k < |records| ==> ItemValid(items[k])
  {
    var recorded := ItemRecordedWith(points, embed, sim, failure, formatScore, llm);
    forall k | 0 <= k < |records| ensures ItemValid(items[k]) {
      assert recorded(k, items[k], records[k]);
      assert ItemRecorded(points, items[k], embed, sim, failure(k), formatScore, llm, records[k]);
    }
  }

  /** The item loop of `evaluate_data`: one record per item, in order, or
      the first item's failure. The search for item `k` fails with
      `failure(k)`. */
  method AnswerItems(store: VectorStore, userId: int, items: seq<Json>, decode: string -> Option<Json>,
                     embed: string -> Vector, sim: (Vector, Vector) -> real, failure: nat -> Option<string>,
                     formatScore: real -> string, llm: (Settings, string) -> Reply)
    returns (fully: Result<seq<Record>>)
    ensures fully.Ok? <==> forall k :: 0 <= k < |items| ==> ItemValid(items[k])
    ensures fully.Ok? ==>
              (|fully.value| == |items| &&
               AllRecorded(store.points, items, embed, sim, failure, formatScore, llm, fully.value))
  {
    var records: seq<Record> := [];
    for i := 0 to |items|
      invariant |records| == i
      invariant AllRecorded(store.points, items, embed, sim, failure, formatScore, llm, records)
    {
      var record := RecordItem(store, userId, items[i], decode, embed, sim, failure(i), formatScore, llm);
      if record.Err? {
        return Err(record.error);
      }
      ghost var recorded := ItemRecordedWith(store.points, embed, sim, failure, formatScore, llm);
      assert recorded(i, items[i], record.value);
      EachRecordedSnoc(items, records, record.value, recorded);
      records := records + [record.value];
    }
    AllRecordedValid(store.points, items, embed, sim, failure, formatScore, llm, records);
    fully := Ok(records);
  }

  /** `evaluate_data`: without a session user 401; a falsy body 400; then
      every item is answered in order, the records are normalised and
      scored, and each record is returned with its score. A body that is
      not a list, an item the loop cannot read and a failing metrics run
      all end in 500. */
  method EvaluateData(store: VectorStore, sessionUser: Option<int>, input: Json, decode: string -> Option<Json>,
                      embed: string -> Vector, sim: (Vector, Vector) -> real, failure: nat -> Option<string>,
                      formatScore: real -> string, llm: (Settings, string) -> Reply,
                      evaluate: seq<Record> -> Result<seq<Json>>)
    returns (reply: EvalReply)
    ensures sessionUser.None? ==> reply == EvalFailed(401, "Authentication required")
    ensures sessionUser.Some? && !Truthy(input) ==> reply == EvalFailed(400, "Input data is required")
    ensures sessionUser.Some? && Truthy(input) && !input.JArray? ==>
              reply.EvalFailed? && reply.status == 500 && EvalErrorPrefix <= reply.error
    ensures sessionUser.Some? && input.JArray? && (exists k :: 0 <= k < |input.items| && !ItemValid(input.items[k])) ==>
              reply.EvalFailed? && reply.status == 500 && EvalErrorPrefix <= reply.error
    ensures reply.Evaluated? ==>
              sessionUser.Some? && input.JArray? && input.items != [] &&
              forall k :: 0 <= k < |input.items| ==> ItemValid(input.items[k])
    ensures sessionUser.Some? && input.JArray? && input.items != [] &&
            (forall k :: 0 <= k < |input.items| ==> ItemValid(input.items[k])) ==>
              exists fully: seq<Record> ::
                |fully| == |input.items| &&
                AllRecorded(store.points, input.items, embed, sim, failure, formatScore, llm, fully) &&
                reply == (if evaluate(NormalizedAll(fully)).Ok?
                          then Evaluated(WithScores(fully, evaluate(NormalizedAll(fully)).value))
                          else EvalFailed(500, EvalErrorPrefix + evaluate(NormalizedAll(fully)).error))
  {
    var auth := RequireAuth(sessionUser);
    if auth.Err? {
      return EvalFailed(401, "Authentication required");
    }
    if !Truthy(input) {
      return EvalFailed(400, "Input data is required");
    }
    if !input.JArray? {
      return EvalFailed(500, EvalErrorPrefix + "object is not a list of items");
    }
    var fully := AnswerItems(store, auth.value, input.items, decode, embed, sim, failure, formatScore, llm);
    if fully.Err? {
      return EvalFailed(500, EvalErrorPrefix + fully.error);
    }
    var dataset := NormalizeData(fully.value);
    var scores := evaluate(dataset);
    if scores.Err? {
      return EvalFailed(500, EvalErrorPrefix + scores.error);
    }
    reply := Evaluated(WithScores(fully.value, scores.value));
  }
}
