/** The dialog endpoints of backend/app/dialog.py: chatting with the
    knowledge base inside a dialog (the user's message is stored, the RAG
    service answers with the dialog's own settings, the answer is stored),
    and updating a dialog's configuration, which is a chain of early-return
    validations in front of a partial UPDATE. */
module DialogRoutes {
  import opened Common
  import opened Requests
  import opened DialogStore
  import opened VectorIndex
  import opened Rag

  // ---------------------------------------------------------------------
  // Python's int() and float() on decoded JSON values

  /** A conversion either yields a value, raises ValueError/TypeError
      (`Invalid`), or raises OverflowError. */
  datatype Conversion<T> = Converted(value: T) | Invalid | Overflow

  /** `int(x)` on a finite float truncates toward zero. */
  function Truncate(r: real): (n: int)
    ensures r >= 0.0 ==> n as real <= r < n as real + 1.0
    ensures r < 0.0 ==> n as real - 1.0 < r <= n as real
  {
    if r >= 0.0 then r.Floor else -((-r).Floor)
  }

  /** `int(v)`: NaN raises ValueError, an infinity raises OverflowError,
      booleans count as 0 and 1, strings go through the decimal parser,
      containers raise TypeError. */
  function ToInt(v: Json): (c: Conversion<int>)
    ensures c.Overflow? <==> v == JFloat(PosInf) || v == JFloat(NegInf)
    ensures v.JInt? ==> c == Converted(v.i)
    ensures v.JString? ==> (c.Converted? <==> ParseInt(v.s).Some?)
  {
    match v
    case JInt(i) => Converted(i)
    case JBool(b) => Converted(if b then 1 else 0)
    case JFloat(f) =>
      (match f
       case Finite(r) => Converted(Truncate(r))
       case NaN => Invalid
       case _ => Overflow)
    case JString(s) =>
      (match ParseInt(s)
       case Some(n) => Converted(n)
       case None => Invalid)
    case _ => Invalid
  }

  /** The smallest magnitude of an int that `float()` cannot convert:
      2^1024 - 2^970, the midpoint between the largest double and 2^1024,
      which rounds up (to even) and so overflows. */
  const FloatOverflowBound: int := 179769313486231580793728971405303415079934132710037826936173778980444968292764750946649017977587207096330286416692887910946555547851940402630657488671505820681908902000708383676273854845817711531764475730270069855571366959622842914819860834936475292719074168444365510704342711559699508093042880177904174497792

  /** `float(v)`: numbers and booleans convert, except an int too large
      for a double, which raises OverflowError; strings go through
      `parseFloat` (which may give NaN or an infinity, never an error for
      size), containers raise TypeError. */
  function ToFloat(v: Json, parseFloat: string -> Option<Float>): (c: Conversion<Float>)
    ensures c.Overflow? <==> v.JInt? && (v.i >= FloatOverflowBound || v.i <= -FloatOverflowBound)
    ensures v.JFloat? ==> c == Converted(v.f)
    ensures v.JInt? && -FloatOverflowBound < v.i < FloatOverflowBound ==> c == Converted(Finite(v.i as real))
    ensures c.Converted? && !v.JString? ==> c.value.Finite? || v.JFloat?
  {
    match v
    case JInt(i) =>
      if i >= FloatOverflowBound || i <= -FloatOverflowBound then Overflow else Converted(Finite(i as real))
    case JBool(b) => Converted(Finite(if b then 1.0 else 0.0))
    case JFloat(f) => Converted(f)
    case JString(s) =>
      (match parseFloat(s)
       case Some(f) => Converted(f)
       case None => Invalid)
    case _ => Invalid
  }

  // ---------------------------------------------------------------------
  // Configuration validation

  /** Which range checks to apply: the ones the handler has, or the ones
      it evidently intends (see `OutOfRange`). */
  datatype Checks = AsWritten | Corrected

  /** `x < lo or x > hi`. As written, every comparison with NaN is false,
      so NaN is never out of range; corrected, only finite values inside
      the interval pass. */
  predicate OutOfRange(checks: Checks, f: Float, lo: real, hi: real) {
    match checks
    case AsWritten =>
      (match f
       case Finite(r) => r < lo || r > hi
       case NaN => false
       case _ => true)
    case Corrected => !(f.Finite? && lo <= f.r <= hi)
  }

  /** The corrected check accepts exactly the finite values of the
      interval. */
  lemma CorrectedRangeIsInterval(f: Float, lo: real, hi: real)
    ensures !OutOfRange(Corrected, f, lo, hi) <==> f.Finite? && lo <= f.r <= hi
  {
  }

  /** The two checks differ on NaN alone. */
  lemma ChecksDifferOnlyOnNaN(f: Float, lo: real, hi: real)
    ensures OutOfRange(AsWritten, f, lo, hi) != OutOfRange(Corrected, f, lo, hi) <==> f == NaN
  {
  }

  /** The result of one validation step: go on (with the converted value,
      if the field was given) or stop with a status and a message. */
  datatype Step<T> = Pass(value: Option<T>) | Stop(status: int, error: string)

  const DatabaseError := "Database error"

  function MaxChunksStep(checks: Checks, given: Option<Json>): Step<int> {
    if given.None? then Pass(None)
    else match ToInt(given.value)
      case Invalid => Stop(400, "max_chunks must be a valid integer")
      case Overflow =>
        if checks == AsWritten then Stop(500, DatabaseError)
        else Stop(400, "max_chunks must be a valid integer")
      case Converted(n) =>
        if n < 1 || n > 30 then Stop(400, "max_chunks must be between 1 and 30") else Pass(Some(n))
  }

  function ThresholdStep(checks: Checks, given: Option<Json>, parseFloat: string -> Option<Float>): Step<Float> {
    if given.None? then Pass(None)
    else match ToFloat(given.value, parseFloat)
      case Converted(f) =>
        if OutOfRange(checks, f, 0.0, 1.0) then Stop(400, "cosine_threshold must be between 0.0 and 1.0")
        else Pass(Some(f))
      case Invalid => Stop(400, "cosine_threshold must be a valid float")
      case Overflow =>
        if checks == AsWritten then Stop(500, DatabaseError)
        else Stop(400, "cosine_threshold must be between 0.0 and 1.0")
  }

  const InvalidModelConfig := "Invalid model_config format"

  /** The temperature check on `model_config`: a JSON text is decoded
      first; a decoding error, a TypeError on `in` or on indexing, and a
      temperature that does not convert all give the format error. */
  function ModelConfigStep(checks: Checks, given: Option<Json>, decode: string -> Option<Json>,
                           parseFloat: string -> Option<Float>): Step<Json> {
    if given.None? then Pass(None)
    else
      var decoded := if given.value.JString? then decode(given.value.s) else Some(given.value);
      if decoded.None? then Stop(400, InvalidModelConfig)
      else match Contains(decoded.value, "temperature")
        case None => Stop(400, InvalidModelConfig)
        case Some(false) => Pass(given)
        case Some(true) =>
          if !decoded.value.JObject? then Stop(400, InvalidModelConfig)
          else match ToFloat(decoded.value.fields["temperature"], parseFloat)
            case Converted(t) =>
              if OutOfRange(checks, t, 0.0, 1.0) then Stop(400, "temperature must be between 0.0 and 1.0")
              else Pass(given)
            case Invalid => Stop(400, InvalidModelConfig)
            case Overflow =>
              if checks == AsWritten then Stop(500, DatabaseError)
              else Stop(400, "temperature must be between 0.0 and 1.0")
  }

  /** What the `system_prompt TEXT` column holds after `SET system_prompt
      = %s`: a text is stored as it is; an int or a boolean is sent as a
      literal that PostgreSQL's assignment cast turns into its text form; an
      object cannot be adapted by the driver, which raises. */
  function PromptColumn(v: Json): (stored: Option<string>)
    ensures v.JString? ==> stored == Some(v.s)
    ensures v.JObject? ==> stored.None?
    ensures v.JInt? ==> stored.Some? && ParseInt(stored.value) == Some(v.i)
  {
    match v
    case JString(s) => Some(s)
    case JInt(i) => ParseIntOfIntToString(i); Some(IntToString(i))
    case JBool(b) => Some(if b then "true" else "false")
    case _ => None
  }

  /** The verdict on a configuration request: an update to run, or an
      error response. */
  datatype Verdict = Accept(patch: ConfigPatch) | Reject(status: int, error: string)

  const NothingToUpdate := "At least one configuration parameter must be provided"

  predicate AllAbsent(fields: map<string, Json>) {
    Field(fields, "system_prompt").None? && Field(fields, "model_config").None? &&
    Field(fields, "max_chunks").None? && Field(fields, "cosine_threshold").None?
  }

  /** The checks of `update_dialog_config_endpoint`, in order: something
      must be given, the dialog must exist, then `max_chunks`,
      `cosine_threshold` and the temperature inside `model_config`. A
      system prompt that is not text cannot be stored. */
  function ValidateConfig(checks: Checks, dialogExists: bool, fields: map<string, Json>,
                          decode: string -> Option<Json>, parseFloat: string -> Option<Float>): Verdict {
    if AllAbsent(fields) then Reject(400, NothingToUpdate)
    else if !dialogExists then Reject(404, "Dialog not found")
    else
      var maxChunks := MaxChunksStep(checks, Field(fields, "max_chunks"));
      var threshold := ThresholdStep(checks, Field(fields, "cosine_threshold"), parseFloat);
      var modelConfig := ModelConfigStep(checks, Field(fields, "model_config"), decode, parseFloat);
      var prompt := Field(fields, "system_prompt");
      if maxChunks.Stop? then Reject(maxChunks.status, maxChunks.error)
      else if threshold.Stop? then Reject(threshold.status, threshold.error)
      else if modelConfig.Stop? then Reject(modelConfig.status, modelConfig.error)
      else if prompt.Some? && PromptColumn(prompt.value).None? then Reject(500, DatabaseError)
      else Accept(ConfigPatch(if prompt.Some? then PromptColumn(prompt.value) else None,
                              modelConfig.value, maxChunks.value, threshold.value))
  }

  /** With nothing to update the request is refused before the dialog is
      looked up, whatever the dialog. */
  lemma NothingGivenRefusedFirst(checks: Checks, exists_: bool, fields: map<string, Json>,
                                 decode: string -> Option<Json>, parseFloat: string -> Option<Float>)
    requires AllAbsent(fields)
    ensures ValidateConfig(checks, exists_, fields, decode, parseFloat) == Reject(400, NothingToUpdate)
  {
  }

  /** An accepted request names an existing dialog and sets at least one
      column, so the UPDATE it leads to is never the empty one. */
  lemma AcceptedPatchSetsAColumn(checks: Checks, dialogExists: bool, fields: map<string, Json>,
                                 decode: string -> Option<Json>, parseFloat: string -> Option<Float>)
    ensures var verdict := ValidateConfig(checks, dialogExists, fields, decode, parseFloat);
            verdict.Accept? ==> dialogExists && !EmptyPatch(verdict.patch)
  {
  }

  /** An unknown dialog gives 404 even when the values are out of range. */
  lemma UnknownDialogBeforeRangeChecks(checks: Checks, fields: map<string, Json>,
                                       decode: string -> Option<Json>, parseFloat: string -> Option<Float>)
    requires !AllAbsent(fields)
    ensures ValidateConfig(checks, false, fields, decode, parseFloat) == Reject(404, "Dialog not found")
  {
  }

  /** A lone `max_chunks` is accepted exactly when it converts to an
      integer between 1 and 30, and is then stored as that integer. */
  lemma MaxChunksAcceptedIffInRange(v: Json, decode: string -> Option<Json>, parseFloat: string -> Option<Float>)
    requires v != JNull
    ensures var verdict := ValidateConfig(Corrected, true, map["max_chunks" := v], decode, parseFloat);
            verdict.Accept? <==> (ToInt(v).Converted? && 1 <= ToInt(v).value <= 30)
    ensures var verdict := ValidateConfig(Corrected, true, map["max_chunks" := v], decode, parseFloat);
            verdict.Accept? ==> verdict.patch == ConfigPatch(None, None, Some(ToInt(v).value), None)
  {
    var fields := map["max_chunks" := v];
    assert Field(fields, "max_chunks") == Some(v);
    assert Field(fields, "cosine_threshold").None? && Field(fields, "model_config").None?;
    assert Field(fields, "system_prompt").None?;
    assert ThresholdStep(Corrected, None, parseFloat) == Pass(None);
    assert ModelConfigStep(Corrected, None, decode, parseFloat) == Pass(None);
  }

  /** A lone `cosine_threshold` is accepted exactly when it converts to a
      finite number in [0, 1]. */
  lemma ThresholdAcceptedIffInUnitInterval(v: Json, decode: string -> Option<Json>,
                                           parseFloat: string -> Option<Float>)
    requires v != JNull
    ensures var verdict := ValidateConfig(Corrected, true, map["cosine_threshold" := v], decode, parseFloat);
            verdict.Accept? <==> (ToFloat(v, parseFloat).Converted? && ToFloat(v, parseFloat).value.Finite? &&
                                  0.0 <= ToFloat(v, parseFloat).value.r <= 1.0)
  {
    var fields := map["cosine_threshold" := v];
    assert Field(fields, "max_chunks").None? && Field(fields, "model_config").None?;
    assert Field(fields, "system_prompt").None?;
  }

  /** A configuration object whose temperature is a number is accepted
      exactly when that number is finite and in [0, 1]. */
  lemma TemperatureAcceptedIffInUnitInterval(config: map<string, Json>, t: Float,
                                             decode: string -> Option<Json>, parseFloat: string -> Option<Float>)
    requires "temperature" in config && config["temperature"] == JFloat(t)
    ensures var verdict := ValidateConfig(Corrected, true, map["model_config" := JObject(config)], decode, parseFloat);
            verdict.Accept? <==> t.Finite? && 0.0 <= t.r <= 1.0
  {
    var fields := map["model_config" := JObject(config)];
    assert Field(fields, "max_chunks").None? && Field(fields, "cosine_threshold").None?;
    assert Field(fields, "system_prompt").None?;
  }

  /** As written, a NaN similarity threshold passes validation, because
      both comparisons with NaN are false; the corrected check refuses it. */
  lemma NaNThresholdAcceptedAsWritten(decode: string -> Option<Json>, parseFloat: string -> Option<Float>)
    ensures ValidateConfig(AsWritten, true, map["cosine_threshold" := JFloat(NaN)], decode, parseFloat) ==
            Accept(ConfigPatch(None, None, None, Some(NaN)))
    ensures ValidateConfig(Corrected, true, map["cosine_threshold" := JFloat(NaN)], decode, parseFloat) ==
            Reject(400, "cosine_threshold must be between 0.0 and 1.0")
  {
    var fields := map["cosine_threshold" := JFloat(NaN)];
    assert Field(fields, "max_chunks").None? && Field(fields, "model_config").None?;
    assert Field(fields, "system_prompt").None?;
  }

  /** As written, an infinite `max_chunks` makes `int()` raise
      OverflowError, which the handler does not catch as a validation error,
      so the client gets 500; the corrected check gives the 400 the other
      non-integers get. */
  lemma InfiniteMaxChunksAsWritten(decode: string -> Option<Json>, parseFloat: string -> Option<Float>)
    ensures ValidateConfig(AsWritten, true, map["max_chunks" := JFloat(PosInf)], decode, parseFloat) ==
            Reject(500, DatabaseError)
    ensures ValidateConfig(Corrected, true, map["max_chunks" := JFloat(PosInf)], decode, parseFloat) ==
            Reject(400, "max_chunks must be a valid integer")
  {
    var fields := map["max_chunks" := JFloat(PosInf)];
    assert Field(fields, "max_chunks") == Some(JFloat(PosInf));
  }

  /** As written, a threshold given as an int too large for a double makes
      `float()` raise OverflowError, which the handler does not catch as a
      validation error, so the client gets 500; the corrected check refuses
      it as out of range. The same holds for a model configuration's
      temperature. */
  lemma HugeThresholdAsWritten(decode: string -> Option<Json>, parseFloat: string -> Option<Float>)
    ensures ValidateConfig(AsWritten, true, map["cosine_threshold" := JInt(FloatOverflowBound)], decode, parseFloat) ==
            Reject(500, DatabaseError)
    ensures ValidateConfig(Corrected, true, map["cosine_threshold" := JInt(FloatOverflowBound)], decode, parseFloat) ==
            Reject(400, "cosine_threshold must be between 0.0 and 1.0")
    ensures ValidateConfig(AsWritten, true, map["model_config" := JObject(map["temperature" := JInt(-FloatOverflowBound)])],
                           decode, parseFloat) == Reject(500, DatabaseError)
    ensures ValidateConfig(Corrected, true, map["model_config" := JObject(map["temperature" := JInt(-FloatOverflowBound)])],
                           decode, parseFloat) == Reject(400, "temperature must be between 0.0 and 1.0")
  {
    var fields := map["cosine_threshold" := JInt(FloatOverflowBound)];
    assert Field(fields, "cosine_threshold") == Some(JInt(FloatOverflowBound));
    assert Field(fields, "max_chunks").None? && Field(fields, "model_config").None?;
    var config := JObject(map["temperature" := JInt(-FloatOverflowBound)]);
    var fields2 := map["model_config" := config];
    assert Field(fields2, "model_config") == Some(config);
    assert Field(fields2, "max_chunks").None? && Field(fields2, "cosine_threshold").None?;
    assert Contains(config, "temperature") == Some(true);
  }

  /** With the corrected checks, no value of `max_chunks`,
      `cosine_threshold` or `model_config` ends in a server error: the only
      500 validation gives is for a system prompt the column cannot hold. */
  lemma CorrectedServerErrorOnlyForPrompt(dialogExists: bool, fields: map<string, Json>,
                                          decode: string -> Option<Json>, parseFloat: string -> Option<Float>)
    ensures var verdict := ValidateConfig(Corrected, dialogExists, fields, decode, parseFloat);
            verdict.Reject? ==>
              (verdict.status == 500 <==>
                 dialogExists && MaxChunksStep(Corrected, Field(fields, "max_chunks")).Pass? &&
                 ThresholdStep(Corrected, Field(fields, "cosine_threshold"), parseFloat).Pass? &&
                 ModelConfigStep(Corrected, Field(fields, "model_config"), decode, parseFloat).Pass? &&
                 Field(fields, "system_prompt").Some? && PromptColumn(Field(fields, "system_prompt").value).None?)
    ensures var verdict := ValidateConfig(Corrected, dialogExists, fields, decode, parseFloat);
            verdict.Reject? && verdict.status != 500 ==> verdict.status == 400 || verdict.status == 404
  {
  }

  /** The corrected validator only ever stores finite thresholds and
      temperatures in [0, 1] and chunk budgets in 1..30. */
  lemma CorrectedVerdictInRange(dialogExists: bool, fields: map<string, Json>,
                                decode: string -> Option<Json>, parseFloat: string -> Option<Float>)
    ensures var verdict := ValidateConfig(Corrected, dialogExists, fields, decode, parseFloat);
            verdict.Accept? ==>
              (verdict.patch.maxChunks.Some? ==> 1 <= verdict.patch.maxChunks.value <= 30) &&
              (verdict.patch.cosineThreshold.Some? ==>
                 verdict.patch.cosineThreshold.value.Finite? &&
                 0.0 <= verdict.patch.cosineThreshold.value.r <= 1.0)
  {
  }

  // ---------------------------------------------------------------------
  // The endpoints

  /** The response of `update_dialog_config_endpoint`. */
  datatype ConfigReply = ConfigReply(status: int, message: string)

  /** `update_dialog_config_endpoint`; `checks` selects the range checks as
      written or as corrected. */
  method UpdateDialogConfigEndpoint(checks: Checks, db: Database, sessionUser: Option<int>, dialogId: int, body: Json,
                                    decode: string -> Option<Json>, parseFloat: string -> Option<Float>)
    returns (reply: ConfigReply)
    requires db.Valid()
    modifies db
    ensures db.Valid()
    ensures db.messages == old(db.messages) && db.files == old(db.files)
    ensures sessionUser.None? ==> reply == ConfigReply(401, "Authentication required") && db.dialogs == old(db.dialogs)
    ensures sessionUser.Some? && !body.JObject? ==> reply.status == 500 && db.dialogs == old(db.dialogs)
    ensures sessionUser.Some? && body.JObject? ==>
              var verdict := ValidateConfig(checks, dialogId in old(db.dialogs), body.fields, decode, parseFloat);
              (verdict.Reject? ==> reply == ConfigReply(verdict.status, verdict.error) && db.dialogs == old(db.dialogs)) &&
              (verdict.Accept? && verdict.patch.modelConfig.Some? && !JsonbStorable(verdict.patch.modelConfig.value) ==>
                 reply == ConfigReply(500, DatabaseError) && db.dialogs == old(db.dialogs)) &&
              (verdict.Accept? && (verdict.patch.modelConfig.None? || JsonbStorable(verdict.patch.modelConfig.value)) ==>
                 reply == ConfigReply(200, "Dialog configuration updated successfully") &&
                 db.dialogs == old(db.dialogs)[dialogId := ApplyPatch(old(db.dialogs)[dialogId], verdict.patch)])
  {
    var auth := RequireAuth(sessionUser);
    if auth.Err? {
      return ConfigReply(401, "Authentication required");
    }
    if !body.JObject? {
      return ConfigReply(500, "Internal Server Error");
    }
    if AllAbsent(body.fields) {
      return ConfigReply(400, NothingToUpdate);
    }
    var dialog := db.GetDialogById(dialogId, auth.value);
    var verdict := ValidateConfig(checks, dialog.Some?, body.fields, decode, parseFloat);
    if verdict.Reject? {
      return ConfigReply(verdict.status, verdict.error);
    }
    AcceptedPatchSetsAColumn(checks, dialog.Some?, body.fields, decode, parseFloat);
    var updated := db.UpdateDialogConfig(dialogId, auth.value, verdict.patch);
    if updated.Err? {
      reply := ConfigReply(500, DatabaseError);
    } else if updated.value {
      reply := ConfigReply(200, "Dialog configuration updated successfully");
    } else {
      reply := ConfigReply(500, "Failed to update dialog configuration");
    }
  }

  /** The response of `chat_with_kb`. */
  datatype ChatReply =
    | ChatFailed(status: int, error: string)
    | ChatSent(userMessage: Receipt, content: string, botMessage: Receipt, botContent: string,
               searchResultsCount: nat, sources: seq<string>, ragQuery: string,
               chunksUsed: seq<KbResult>, contextUsed: string, usedRag: bool)

  /** The RAG service's answer for some retrieval made with the dialog's
      own chunk budget and threshold. */
  ghost predicate DialogAnswered(points: map<int, Point>, d: Dialog, settings: Settings, text: string,
                                 embed: string -> Vector, sim: (Vector, Vector) -> real,
                                 failure: Option<string>, formatScore: real -> string,
                                 llm: (Settings, string) -> Reply, answer: RagAnswer)
  {
    RagAnswered(points, text, embed, sim, d.maxChunks, d.cosineThreshold, failure, settings, formatScore, llm, answer)
  }

  /** The answer fields a sent reply carries. */
  function AnswerOfReply(reply: ChatReply): RagAnswer
    requires reply.ChatSent?
  {
    RagAnswer(reply.botContent, reply.contextUsed, reply.sources, reply.searchResultsCount)
  }

  /** The answer part of a sent reply is the RAG service's answer for some
      retrieval made with the dialog's own chunk budget and threshold. */
  ghost predicate AnsweredWithDialogSettings(points: map<int, Point>, d: Dialog, settings: Settings, text: string,
                                            embed: string -> Vector, sim: (Vector, Vector) -> real,
                                            failure: Option<string>, formatScore: real -> string,
                                            llm: (Settings, string) -> Reply, reply: ChatReply)
  {
    reply.ChatSent? && DialogAnswered(points, d, settings, text, embed, sim, failure, formatScore, llm,
                                      AnswerOfReply(reply))
  }

  /** The RAG service built from a dialog's row, asked one question. */
  method DialogAnswer(store: VectorStore, d: Dialog, text: string, userId: int,
                      decode: string -> Option<Json>, embed: string -> Vector, sim: (Vector, Vector) -> real,
                      searchFailure: Option<string>, formatScore: real -> string,
                      llm: (Settings, string) -> Reply)
    returns (answer: RagAnswer)
    requires ModelSettings(d.modelConfig, decode).Ok?
    ensures DialogAnswered(store.points, d, ModelSettings(d.modelConfig, decode).value, text, embed, sim,
                           searchFailure, formatScore, llm, answer)
  {
    var rag := new RagService(d.systemPrompt, d.modelConfig, decode, d.maxChunks, d.cosineThreshold);
    answer := rag.ChatWithRag(store, text, userId, embed, sim, searchFailure, formatScore, llm);
  }

  /** Once the user's message is stored: answer with a RAG service built
      from the dialog's row and store the answer as the bot's message; the
      reply carries both messages' receipts and the answer's fields. */
  method AnswerAndStore(db: Database, store: VectorStore, d: Dialog, text: string, userId: int, userMsg: Receipt,
                        decode: string -> Option<Json>, embed: string -> Vector, sim: (Vector, Vector) -> real,
                        searchFailure: Option<string>, formatScore: real -> string,
                        llm: (Settings, string) -> Reply)
    returns (reply: ChatReply)
    requires db.Valid() && d.id in db.dialogs
    requires ModelSettings(d.modelConfig, decode).Ok?
    modifies db
    ensures db.Valid()
    ensures db.dialogs == old(db.dialogs) && db.files == old(db.files)
    ensures reply.ChatSent? &&
            reply == ChatSent(userMsg, text, reply.botMessage, reply.botContent, reply.searchResultsCount,
                              reply.sources, text, [], reply.contextUsed, true)
    ensures db.messages == old(db.messages) +
              [Message(reply.botMessage.id, d.id, "bot", reply.botContent, reply.botMessage.timestamp)]
    ensures DialogAnswered(store.points, d, ModelSettings(d.modelConfig, decode).value, text, embed, sim,
                           searchFailure, formatScore, llm, AnswerOfReply(reply))
  {
    var answer := DialogAnswer(store, d, text, userId, decode, embed, sim, searchFailure, formatScore, llm);
    var botMsg := db.AddMessage(d.id, "bot", answer.response);
    reply := ChatSent(userMsg, text, botMsg.value, answer.response, answer.searchResultsCount,
                      answer.sources, text, [], answer.contextUsed, true);
    assert AnswerOfReply(reply) == answer;
  }

  /** The part of `chat_with_kb` after the dialog is found: store the
      user's message, answer with a RAG service built from the dialog's row,
      store the answer as the bot's message. */
  method AnswerInDialog(db: Database, store: VectorStore, d: Dialog, text: string, userId: int,
                        decode: string -> Option<Json>, embed: string -> Vector, sim: (Vector, Vector) -> real,
                        searchFailure: Option<string>, formatScore: real -> string,
                        llm: (Settings, string) -> Reply)
    returns (reply: ChatReply)
    requires db.Valid() && d.id in db.dialogs && db.dialogs[d.id] == d
    modifies db
    ensures db.Valid()
    ensures db.dialogs == old(db.dialogs) && db.files == old(db.files)
    ensures ModelSettings(d.modelConfig, decode).Err? ==>
              reply == ChatFailed(500, DatabaseError) &&
              exists receipt: Receipt :: db.messages == old(db.messages) + [Message(receipt.id, d.id, "user", text, receipt.timestamp)]
    ensures ModelSettings(d.modelConfig, decode).Ok? ==>
              reply.ChatSent? && reply.content == text && reply.ragQuery == text &&
              reply.chunksUsed == [] && reply.usedRag &&
              db.messages == old(db.messages) +
                [Message(reply.userMessage.id, d.id, "user", text, reply.userMessage.timestamp)] +
                [Message(reply.botMessage.id, d.id, "bot", reply.botContent, reply.botMessage.timestamp)] &&
              AnsweredWithDialogSettings(store.points, d, ModelSettings(d.modelConfig, decode).value, text,
                                         embed, sim, searchFailure, formatScore, llm, reply)
  {
    var userMsg := db.AddMessage(d.id, "user", text);
    if ModelSettings(d.modelConfig, decode).Err? {
      assert db.messages == old(db.messages) + [Message(userMsg.value.id, d.id, "user", text, userMsg.value.timestamp)];
      return ChatFailed(500, DatabaseError);
    }
    reply := AnswerAndStore(db, store, d, text, userId, userMsg.value, decode, embed, sim, searchFailure,
                            formatScore, llm);
  }

  /** `chat_with_kb`: a blank message is refused and nothing is stored; an
      unknown dialog gives 404 and nothing is stored; otherwise the user's
      message is stored, the RAG service is built from the dialog's row (its
      stored chunk budget and threshold are passed as they are, so the 8 and
      0.5 fallbacks never apply), and its answer is stored as the bot's
      message. The answer carries no search results, so `chunks_used` is
      always empty, and `used_rag` is always true. A model configuration
      the service cannot read fails after the user's message is stored. */
  method ChatWithKb(db: Database, store: VectorStore, sessionUser: Option<int>, dialogId: int, body: Json,
                    decode: string -> Option<Json>, embed: string -> Vector, sim: (Vector, Vector) -> real,
                    searchFailure: Option<string>, formatScore: real -> string,
                    llm: (Settings, string) -> Reply)
    returns (reply: ChatReply)
    requires db.Valid()
    modifies db
    ensures db.Valid()
    ensures db.dialogs == old(db.dialogs) && db.files == old(db.files)
    ensures sessionUser.None? ==> reply == ChatFailed(401, "Authentication required") && db.messages == old(db.messages)
    ensures sessionUser.Some? && MessageOf(body).None? ==>
              (reply.ChatFailed? && reply.status == 500 && db.messages == old(db.messages))
    ensures sessionUser.Some? && MessageOf(body) == Some("") ==>
              reply == ChatFailed(400, "Message is required") && db.messages == old(db.messages)
    ensures sessionUser.Some? && MessageOf(body).Some? && MessageOf(body).value != "" && dialogId !in old(db.dialogs) ==>
              reply == ChatFailed(404, "Dialog not found") && db.messages == old(db.messages)
    ensures sessionUser.Some? && MessageOf(body).Some? && MessageOf(body).value != "" && dialogId in old(db.dialogs) ==>
              var d := old(db.dialogs)[dialogId];
              (ModelSettings(d.modelConfig, decode).Err? ==>
                 (reply == ChatFailed(500, DatabaseError) &&
                  exists receipt: Receipt :: db.messages == old(db.messages) +
                    [Message(receipt.id, dialogId, "user", MessageOf(body).value, receipt.timestamp)])) &&
              (ModelSettings(d.modelConfig, decode).Ok? ==>
                 (reply.ChatSent? && reply.content == MessageOf(body).value && reply.chunksUsed == [] && reply.usedRag &&
                  db.messages == old(db.messages) +
                    [Message(reply.userMessage.id, dialogId, "user", MessageOf(body).value, reply.userMessage.timestamp)] +
                    [Message(reply.botMessage.id, dialogId, "bot", reply.botContent, reply.botMessage.timestamp)] &&
                  AnsweredWithDialogSettings(store.points, d, ModelSettings(d.modelConfig, decode).value,
                                             MessageOf(body).value, embed, sim, searchFailure, formatScore, llm, reply)))
  {
    var auth := RequireAuth(sessionUser);
    if auth.Err? {
      return ChatFailed(401, "Authentication required");
    }
    var message := MessageOf(body);
    if message.None? {
      return ChatFailed(500, "Internal Server Error");
    }
    if message.value == "" {
      return ChatFailed(400, "Message is required");
    }
    var dialog := db.GetDialogById(dialogId, auth.value);
    if dialog.None? {
      return ChatFailed(404, "Dialog not found");
    }
    reply := AnswerInDialog(db, store, dialog.value, message.value, auth.value, decode, embed, sim,
                            searchFailure, formatScore, llm);
  }
}
