/** The single-process chat server of main.py: module-level state (the
    Gemini client, the patient information captured from the first
    message, the one-shot flag that captures it and the conversation so
    far) updated by the `/get-response` and `/get-gemini-apikey`
    handlers. The embedding model, the vector search of the "doctor"
    collection and the compiled conversation graph are parameters. */
module LegacyChat {
  import opened Common
  import opened VectorIndex

  /** A message of the conversation list. */
  datatype ChatMessage = Human(content: string) | Ai(content: string)

  /** The settings the Gemini client is built with. */
  datatype GeminiClient = GeminiClient(model: string, temperature: int, maxRetries: nat, apiKey: Json)

  /** The greeting appended to the conversation when the server is
      started as a script. */
  const FirstMessage :=
    "\nXin chào, tôi là DoctorGPT, một trợ lý ảo thông minh có thể hỗ trợ bạn trả lời và giải đáp những câu hỏi liên quan đến Y học.\n\n\n" +
    "Trước khi bắt đầu, bạn có thể cho tôi một số thông tin về tên, tuổi, năm sinh và giới tính của bạn được không?\n"

  // ---------------------------------------------------------------------
  // Retrieval

  /** The vector query sent to the search service. */
  datatype PointQuery = PointQuery(collection: string, vector: Vector, limit: nat, withPayload: bool,
                                   scoreThreshold: real)

  /** A hit of that query: its score and the `chunks` field of its payload. */
  datatype DocHit = DocHit(score: real, chunks: string)

  const DoctorCollection := "doctor"
  const RetrieveTopN: nat := 3
  const RetrieveThreshold: real := 0.5

  /** `retrieve_relevant_chunks`: the payload texts of the hits, in the
      order the search returns them. */
  function RetrieveRelevantChunks(question: string, encode: string -> Vector,
                                  queryPoints: PointQuery -> seq<DocHit>, collection: string, topN: nat)
    : (contents: seq<string>)
    ensures var hits := queryPoints(PointQuery(collection, encode(question), topN, true, RetrieveThreshold));
            |contents| == |hits| && forall i :: 0 <= i < |hits| ==> contents[i] == hits[i].chunks
  {
    var hits := queryPoints(PointQuery(collection, encode(question), topN, true, RetrieveThreshold));
    seq(|hits|, i requires 0 <= i < |hits| => hits[i].chunks)
  }

  /** `retriever`: the top three texts of the "doctor" collection, one
      blank line between two of them. */
  function Retriever(inputText: string, encode: string -> Vector, queryPoints: PointQuery -> seq<DocHit>): string {
    Join("\n\n", RetrieveRelevantChunks(inputText, encode, queryPoints, DoctorCollection, RetrieveTopN))
  }

  /** The context is empty without hits; otherwise it starts with the best
      hit's text, and its length is the texts' lengths plus two characters
      per separator. */
  lemma RetrieverContext(inputText: string, encode: string -> Vector, queryPoints: PointQuery -> seq<DocHit>)
    ensures var hits := queryPoints(PointQuery(DoctorCollection, encode(inputText), RetrieveTopN, true, RetrieveThreshold));
            var texts := RetrieveRelevantChunks(inputText, encode, queryPoints, DoctorCollection, RetrieveTopN);
            var context := Retriever(inputText, encode, queryPoints);
            (hits == [] ==> context == "") &&
            (|hits| == 1 ==> context == hits[0].chunks) &&
            (|hits| > 0 ==> hits[0].chunks <= context &&
                            |context| == SumLengths(texts) + 2 * (|hits| - 1))
  {
    var texts := RetrieveRelevantChunks(inputText, encode, queryPoints, DoctorCollection, RetrieveTopN);
    if |texts| > 0 {
      JoinStartsWithFirst("\n\n", texts);
      JoinLength("\n\n", texts);
    }
  }

  // ---------------------------------------------------------------------
  // The streamed answer

  /** What the graph streams back: message chunks of the model, or
      anything else. */
  datatype StreamChunk = AiChunk(content: string) | OtherChunk

  /** The text a chunk that is not the model's resets the answer to. */
  const ResetText := "Tôi bị khùm"

  /** The answer after a stream: each model chunk is appended, any other
      chunk replaces everything so far with the reset text. */
  function Accumulate(stream: seq<StreamChunk>): string {
    if stream == [] then ""
    else
      var last := stream[|stream| - 1];
      if last.AiChunk? then Accumulate(stream[..|stream| - 1]) + last.content else ResetText
  }

  /** The model chunks' texts concatenated in order, read from the front. */
  function AiText(stream: seq<StreamChunk>): string {
    if stream == [] then ""
    else (if stream[0].AiChunk? then stream[0].content else "") + AiText(stream[1..])
  }

  predicate AllAi(stream: seq<StreamChunk>) {
    forall i :: 0 <= i < |stream| ==> stream[i].AiChunk?
  }

  lemma {:induction false} AiTextSnoc(stream: seq<StreamChunk>, c: StreamChunk)
    requires c.AiChunk?
    ensures AiText(stream + [c]) == AiText(stream) + c.content
  {
    if stream == [] {
      assert stream + [c] == [c] && [c][1..] == [];
      assert AiText([c]) == c.content + "";
      assert c.content + "" == c.content;
    } else {
      var rest := stream[1..];
      var head := if stream[0].AiChunk? then stream[0].content else "";
      assert (stream + [c])[0] == stream[0];
      assert (stream + [c])[1..] == rest + [c];
      AiTextSnoc(rest, c);
      assert AiText(stream + [c]) == head + (AiText(rest) + c.content);
      assert head + (AiText(rest) + c.content) == (head + AiText(rest)) + c.content;
    }
  }

  /** Without any other chunk the answer is all the model's text, in
      order. */
  lemma {:induction false} AccumulateWithoutReset(stream: seq<StreamChunk>)
    requires AllAi(stream)
    ensures Accumulate(stream) == AiText(stream)
  {
    if stream != [] {
      var init := stream[..|stream| - 1];
      AccumulateWithoutReset(init);
      AiTextSnoc(init, stream[|stream| - 1]);
      assert init + [stream[|stream| - 1]] == stream;
    }
  }

  /** Whatever came before a chunk that is not the model's is forgotten. */
  lemma {:induction false} ResetForgetsPrefix(before: seq<StreamChunk>, after: seq<StreamChunk>)
    ensures Accumulate(before + [OtherChunk] + after) == Accumulate([OtherChunk] + after)
  {
    if after != [] {
      var last := after[|after| - 1];
      var init := after[..|after| - 1];
      assert before + [OtherChunk] + after == (before + [OtherChunk] + init) + [last];
      assert [OtherChunk] + after == ([OtherChunk] + init) + [last];
      ResetForgetsPrefix(before, init);
    }
  }

  /** The answer is the reset text followed by the model text streamed
      after the last chunk that is not the model's. */
  lemma AfterLastReset(before: seq<StreamChunk>, after: seq<StreamChunk>)
    requires AllAi(after)
    ensures Accumulate(before + [OtherChunk] + after) == ResetText + AiText(after)
  {
    ResetForgetsPrefix(before, after);
    ResetThenAi(after);
  }

  lemma {:induction false} ResetThenAi(after: seq<StreamChunk>)
    requires AllAi(after)
    ensures Accumulate([OtherChunk] + after) == ResetText + AiText(after)
  {
    if after != [] {
      var last := after[|after| - 1];
      var init := after[..|after| - 1];
      assert [OtherChunk] + after == ([OtherChunk] + init) + [last];
      ResetThenAi(init);
      AiTextSnoc(init, last);
      assert init + [last] == after;
    }
  }

  /** `full_response` after the `for` loop over the stream. */
  method CollectStream(stream: seq<StreamChunk>) returns (full: string)
    ensures full == Accumulate(stream)
  {
    full := "";
    var i := 0;
    while i < |stream|
      invariant 0 <= i <= |stream|
      invariant full == Accumulate(stream[..i])
    {
      assert stream[..i + 1][..i] == stream[..i];
      if stream[i].AiChunk? {
        full := full + stream[i].content;
      } else {
        full := ResetText;
      }
      i := i + 1;
    }
    assert stream[..|stream|] == stream;
  }

  // ---------------------------------------------------------------------
  // The server state

  /** The input the graph's model node is run on: the client, the
      retrieved context, the query, the conversation and the patient
      information. */
  datatype GraphPrompt = GraphPrompt(client: GeminiClient, context: string, input: string,
                                     history: seq<ChatMessage>, patientInfo: string)

  /** The text of the first human message, if there is one. */
  function FirstHuman(messages: seq<ChatMessage>): Option<string> {
    if messages == [] then None
    else if messages[0].Human? then Some(messages[0].content)
    else FirstHuman(messages[1..])
  }

  lemma {:induction false} FirstHumanSnoc(messages: seq<ChatMessage>, m: ChatMessage)
    ensures FirstHuman(messages + [m]) ==
            if FirstHuman(messages).Some? then FirstHuman(messages)
            else if m.Human? then Some(m.content) else None
  {
    if messages != [] {
      assert (messages + [m])[1..] == messages[1..] + [m];
      FirstHumanSnoc(messages[1..], m);
    } else {
      assert [m][1..] == [];
    }
  }

  /** The text of the `message` field, `""` when it is absent. Any other
      value is `None`, which the endpoint answers with 500; list content,
      which a human message would accept, is not modelled. */
  function MessageText(fields: map<string, Json>): Option<string> {
    match Get(fields, "message", JString(""))
    case JString(s) => Some(s)
    case _ => None
  }

  datatype ChatResponse = Responded(response: string) | Failed(status: int, error: string)

  datatype KeyResponse = KeyAccepted(apiKey: Json) | KeyRefused(status: int, error: string)

  const InternalError := "Internal Server Error"

  class LegacyChat {
    var apiKey: Json
    var llm: Option<GeminiClient>
    var patientInfo: string
    var checkFirst: bool
    var messages: seq<ChatMessage>

    /** The patient information is the first human message once one has
        been received, and empty before. */
    predicate Valid()
      reads this
    {
      (checkFirst ==> FirstHuman(messages) == Some(patientInfo)) &&
      (!checkFirst ==> FirstHuman(messages) == None && patientInfo == "")
    }

    /** The module-level initial state; run as a script, the conversation
        starts with the greeting. */
    constructor (startedAsScript: bool)
      ensures Valid()
      ensures apiKey == JString("") && llm == None && patientInfo == "" && !checkFirst
      ensures messages == if startedAsScript then [Ai(FirstMessage)] else []
    {
      apiKey := JString("");
      llm := None;
      patientInfo := "";
      checkFirst := false;
      messages := if startedAsScript then [Ai(FirstMessage)] else [];
      assert FirstHuman([Ai(FirstMessage)]) == FirstHuman([]);
    }

    /** `get_gemini_apikey`: a truthy object holding `apiKey` installs a new
        client with that key; a body without the key is refused with 400
        and changes nothing; a truthy non-object body raises. */
    method GetGeminiApiKey(data: Json) returns (r: KeyResponse)
      requires Valid()
      modifies this
      ensures Valid()
      ensures patientInfo == old(patientInfo) && checkFirst == old(checkFirst) && messages == old(messages)
      ensures (!Truthy(data) || Contains(data, "apiKey") == Some(false)) ==>
                r == KeyRefused(400, "API key is missing") && apiKey == old(apiKey) && llm == old(llm)
      ensures Truthy(data) && data.JObject? && "apiKey" in data.fields ==>
                r == KeyAccepted(data.fields["apiKey"]) && apiKey == data.fields["apiKey"] &&
                llm == Some(GeminiClient("gemini-1.5-pro", 0, 2, data.fields["apiKey"]))
      ensures r.KeyAccepted? ==> data.JObject? && llm.Some?
      ensures Truthy(data) && !data.JObject? && Contains(data, "apiKey") != Some(false) ==>
                r == KeyRefused(500, InternalError) && apiKey == old(apiKey) && llm == old(llm)
    {
      if !Truthy(data) {
        return KeyRefused(400, "API key is missing");
      }
      var present := Contains(data, "apiKey");
      if present.None? {
        return KeyRefused(500, InternalError);
      }
      if !present.value {
        return KeyRefused(400, "API key is missing");
      }
      if !data.JObject? {
        return KeyRefused(500, InternalError);
      }
      apiKey := data.fields["apiKey"];
      llm := Some(GeminiClient("gemini-1.5-pro", 0, 2, apiKey));
      r := KeyAccepted(apiKey);
    }

    /** `get_response`. Without a client the request is refused and nothing
        changes. Otherwise the first message becomes the patient
        information, the query is appended, the graph is streamed over the
        conversation and the answer accumulated from the stream is
        appended. A failing graph leaves the query appended without an
        answer. */
    method GetResponse(body: Json, encode: string -> Vector, queryPoints: PointQuery -> seq<DocHit>,
                       graph: GraphPrompt -> Result<seq<StreamChunk>>)
      returns (r: ChatResponse)
      requires Valid()
      modifies this
      ensures Valid()
      ensures apiKey == old(apiKey) && llm == old(llm)
      ensures old(checkFirst) ==> patientInfo == old(patientInfo)
      ensures !body.JObject? ==>
                r == Failed(500, InternalError) && patientInfo == old(patientInfo) &&
                checkFirst == old(checkFirst) && messages == old(messages)
      ensures body.JObject? && old(llm).None? ==>
                r == Failed(400, "Gemini API key is not set.") && patientInfo == old(patientInfo) &&
                checkFirst == old(checkFirst) && messages == old(messages)
      ensures body.JObject? && old(llm).Some? && MessageText(body.fields).None? ==>
                r == Failed(500, InternalError) && patientInfo == old(patientInfo) &&
                checkFirst == old(checkFirst) && messages == old(messages)
      ensures body.JObject? && old(llm).Some? && MessageText(body.fields).Some? ==>
                var text := MessageText(body.fields).value;
                var prompt := GraphPrompt(old(llm).value, Retriever(text, encode, queryPoints), text,
                                          old(messages) + [Human(text)], patientInfo);
                checkFirst && patientInfo == (if old(checkFirst) then old(patientInfo) else text) &&
                (graph(prompt).Err? ==> r == Failed(500, InternalError) && messages == old(messages) + [Human(text)]) &&
                (graph(prompt).Ok? ==> r == Responded(Accumulate(graph(prompt).value)) &&
                                       messages == old(messages) + [Human(text)] + [Ai(r.response)])
    {
      if !body.JObject? {
        return Failed(500, InternalError);
      }
      if llm.None? {
        return Failed(400, "Gemini API key is not set.");
      }
      var message := MessageText(body.fields);
      if message.None? {
        return Failed(500, InternalError);
      }
      var text := message.value;
      if !checkFirst {
        patientInfo := text;
        checkFirst := true;
      }
      FirstHumanSnoc(messages, Human(text));
      messages := messages + [Human(text)];
      var context := Retriever(text, encode, queryPoints);
      var stream := graph(GraphPrompt(llm.value, context, text, messages, patientInfo));
      if stream.Err? {
        return Failed(500, InternalError);
      }
      var full := CollectStream(stream.value);
      FirstHumanSnoc(messages, Ai(full));
      messages := messages + [Ai(full)];
      r := Responded(full);
    }
  }

  /** Once the first human message has been received, later requests
      never change the patient information: every state reachable from a
      valid one keeps the first human message, and with it the patient
      information. */
  lemma {:induction false} PatientInfoIsFirstHumanMessage(before: seq<ChatMessage>, added: seq<ChatMessage>, info: string)
    requires FirstHuman(before) == Some(info)
    ensures FirstHuman(before + added) == Some(info)
  {
    if before != [] && !before[0].Human? {
      assert (before + added)[1..] == before[1..] + added;
      PatientInfoIsFirstHumanMessage(before[1..], added, info);
    }
  }
}
