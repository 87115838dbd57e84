/** The relational store of backend/db/database.py: the `dialogs` table, the
    `messages` table (whose `dialog_id` references a dialog and cascades on
    delete) and the `knowledge_base_files` table, held in memory. Row ids
    come from per-table counters, as SERIAL columns do, and `created_at`,
    `timestamp` and `uploaded_at` come from a logical clock that ticks on
    every insert, so later rows always carry later timestamps. */
module DialogStore {
  import opened Common

  /** The default `limit` of `get_chat_history`. */
  const DefaultHistoryLimit := 50

  /** A row of `dialogs`; NULL columns are `None`. */
  datatype Dialog = Dialog(id: int, name: Option<string>, createdAt: int,
                           systemPrompt: Option<string>, modelConfig: Option<Json>,
                           maxChunks: Option<int>, cosineThreshold: Option<Float>)

  /** A row of `messages`. */
  datatype Message = Message(id: int, dialogId: int, sender: string, text: string, timestamp: int)

  /** A row of `knowledge_base_files`. */
  datatype KbFile = KbFile(id: int, filename: string, storagePath: string, numChunks: int,
                           fileSize: Option<int>, description: Option<string>,
                           userId: Option<int>, uploadedAt: int)

  /** What an INSERT ... RETURNING id, timestamp hands back. */
  datatype Receipt = Receipt(id: int, timestamp: int)

  /** One entry of the chat history as `get_chat_history` shapes it. */
  datatype HistoryEntry = HistoryEntry(role: string, content: string, timestamp: int)

  /** The optional arguments of `update_dialog_config`; `None` means "leave
      this column alone". */
  datatype ConfigPatch = ConfigPatch(systemPrompt: Option<string>, modelConfig: Option<Json>,
                                     maxChunks: Option<int>, cosineThreshold: Option<Float>)

  /** The columns an UPDATE can set, in the order the query lists them. */
  datatype Column = SystemPromptColumn | ModelConfigColumn | MaxChunksColumn | CosineThresholdColumn

  predicate EmptyPatch(p: ConfigPatch) {
    p.systemPrompt.None? && p.modelConfig.None? && p.maxChunks.None? && p.cosineThreshold.None?
  }

  /** The row after the UPDATE: exactly the non-`None` fields change. */
  function ApplyPatch(d: Dialog, p: ConfigPatch): (r: Dialog)
    ensures r.id == d.id && r.name == d.name && r.createdAt == d.createdAt
    ensures r.systemPrompt == (if p.systemPrompt.Some? then p.systemPrompt else d.systemPrompt)
    ensures r.modelConfig == (if p.modelConfig.Some? then p.modelConfig else d.modelConfig)
    ensures r.maxChunks == (if p.maxChunks.Some? then p.maxChunks else d.maxChunks)
    ensures r.cosineThreshold == (if p.cosineThreshold.Some? then p.cosineThreshold else d.cosineThreshold)
  {
    d.(systemPrompt := if p.systemPrompt.Some? then p.systemPrompt else d.systemPrompt,
       modelConfig := if p.modelConfig.Some? then p.modelConfig else d.modelConfig,
       maxChunks := if p.maxChunks.Some? then p.maxChunks else d.maxChunks,
       cosineThreshold := if p.cosineThreshold.Some? then p.cosineThreshold else d.cosineThreshold)
  }

  /** Applying the same patch twice is the same as applying it once. */
  lemma ApplyPatchIdempotent(d: Dialog, p: ConfigPatch)
    ensures ApplyPatch(ApplyPatch(d, p), p) == ApplyPatch(d, p)
  {
  }

  /** The empty patch changes nothing. */
  lemma EmptyPatchIsIdentity(d: Dialog, p: ConfigPatch)
    requires EmptyPatch(p)
    ensures ApplyPatch(d, p) == d
  {
  }

  /** The SET columns, listed in the order the query builds them. */
  function SetColumns(p: ConfigPatch): (cols: seq<Column>)
    ensures cols == [] <==> EmptyPatch(p)
    ensures SystemPromptColumn in cols <==> p.systemPrompt.Some?
    ensures ModelConfigColumn in cols <==> p.modelConfig.Some?
    ensures MaxChunksColumn in cols <==> p.maxChunks.Some?
    ensures CosineThresholdColumn in cols <==> p.cosineThreshold.Some?
  {
    (if p.systemPrompt.Some? then [SystemPromptColumn] else []) +
    (if p.modelConfig.Some? then [ModelConfigColumn] else []) +
    (if p.maxChunks.Some? then [MaxChunksColumn] else []) +
    (if p.cosineThreshold.Some? then [CosineThresholdColumn] else [])
  }

  /** A value a `jsonb` column takes: JSON text has no NaN or infinity, so
      a document holding one is refused by the database. */
  predicate JsonbStorable(j: Json)
    decreases j
  {
    match j
    case JFloat(f) => f.Finite?
    case JArray(items) => forall i :: 0 <= i < |items| ==> JsonbStorable(items[i])
    case JObject(fields) => forall k :: k in fields ==> JsonbStorable(fields[k])
    case _ => true
  }

  /** The user-facing role of a stored sender: `'user'` stays `user`, every
      other sender (the bot's `'bot'` among them) reads as `assistant`. */
  function Role(sender: string): (role: string)
    ensures role == "user" || role == "assistant"
    ensures role == "user" <==> sender == "user"
  {
    if sender == "user" then "user" else "assistant"
  }

  function Entry(m: Message): HistoryEntry {
    HistoryEntry(Role(m.sender), m.text, m.timestamp)
  }

  function Entries(ms: seq<Message>): (es: seq<HistoryEntry>)
    ensures |es| == |ms|
    ensures forall i :: 0 <= i < |ms| ==> es[i] == Entry(ms[i])
  {
    seq(|ms|, i requires 0 <= i < |ms| => Entry(ms[i]))
  }

  /** The messages of one dialog, in table order. */
  function DialogMessages(ms: seq<Message>, dialogId: int): (r: seq<Message>)
    ensures |r| <= |ms|
    ensures forall m :: m in r <==> m in ms && m.dialogId == dialogId
  {
    if ms == [] then []
    else if ms[|ms| - 1].dialogId == dialogId then DialogMessages(ms[..|ms| - 1], dialogId) + [ms[|ms| - 1]]
    else DialogMessages(ms[..|ms| - 1], dialogId)
  }

  /** The table after the cascade of deleting a dialog. */
  function WithoutDialog(ms: seq<Message>, dialogId: int): (r: seq<Message>)
    ensures forall m :: m in r <==> m in ms && m.dialogId != dialogId
  {
    if ms == [] then []
    else if ms[|ms| - 1].dialogId != dialogId then WithoutDialog(ms[..|ms| - 1], dialogId) + [ms[|ms| - 1]]
    else WithoutDialog(ms[..|ms| - 1], dialogId)
  }

  /** Timestamps strictly increase along the sequence. */
  predicate Chronological(ms: seq<Message>) {
    forall i, j :: 0 <= i < j < |ms| ==> ms[i].timestamp < ms[j].timestamp
  }

  /** Ids and timestamps both strictly increase along the sequence, as
      they do in a table that is only appended to. */
  predicate Ordered(ms: seq<Message>) {
    forall i, j :: 0 <= i < j < |ms| ==> ms[i].id < ms[j].id && ms[i].timestamp < ms[j].timestamp
  }

  /** The cascade keeps the surviving rows in order. */
  lemma {:induction false} WithoutDialogOrdered(ms: seq<Message>, dialogId: int)
    requires Ordered(ms)
    ensures Ordered(WithoutDialog(ms, dialogId))
  {
    if ms != [] {
      var init := ms[..|ms| - 1];
      assert Ordered(init);
      WithoutDialogOrdered(init, dialogId);
      forall m | m in WithoutDialog(init, dialogId)
        ensures m.id < ms[|ms| - 1].id && m.timestamp < ms[|ms| - 1].timestamp
      {
        var i :| 0 <= i < |init| && init[i] == m;
      }
    }
  }

  /** Filtering a chronological table keeps it chronological. */
  lemma {:induction false} DialogMessagesChronological(ms: seq<Message>, dialogId: int)
    requires Chronological(ms)
    ensures Chronological(DialogMessages(ms, dialogId))
  {
    if ms != [] {
      var init := ms[..|ms| - 1];
      assert Chronological(init);
      DialogMessagesChronological(init, dialogId);
      forall m | m in DialogMessages(init, dialogId) ensures m.timestamp < ms[|ms| - 1].timestamp {
        var i :| 0 <= i < |init| && init[i] == m;
      }
    }
  }

  /** The cascade removes exactly the deleted dialog's messages: its
      history is empty afterwards and every other dialog's is intact. */
  lemma {:induction false} CascadeOnlyTouchesThatDialog(ms: seq<Message>, deleted: int, other: int)
    ensures DialogMessages(WithoutDialog(ms, deleted), deleted) == []
    ensures other != deleted ==> DialogMessages(WithoutDialog(ms, deleted), other) == DialogMessages(ms, other)
  {
    if ms != [] {
      var init := ms[..|ms| - 1];
      var last := ms[|ms| - 1];
      CascadeOnlyTouchesThatDialog(init, deleted, other);
      if last.dialogId != deleted {
        assert (WithoutDialog(init, deleted) + [last])[..|WithoutDialog(init, deleted) + [last]| - 1]
            == WithoutDialog(init, deleted);
      }
    }
  }

  /** Appending a message to the table appends it to its own dialog's
      history and leaves every other dialog's history alone. */
  lemma AppendToDialog(ms: seq<Message>, m: Message, dialogId: int)
    ensures DialogMessages(ms + [m], dialogId) ==
            DialogMessages(ms, dialogId) + (if m.dialogId == dialogId then [m] else [])
  {
    assert (ms + [m])[..|ms + [m]| - 1] == ms;
  }

  /** What `get_chat_history` returns for a chronological table: that
      dialog's first `limit` messages, so the oldest ones are kept. */
  function History(ms: seq<Message>, dialogId: int, limit: nat): seq<HistoryEntry> {
    Entries(Take(DialogMessages(ms, dialogId), limit))
  }

  /** The history holds only messages of that dialog, oldest first, at most
      `limit` of them, and it is a prefix of the dialog's whole history. */
  lemma HistoryShape(ms: seq<Message>, dialogId: int, limit: nat)
    requires Chronological(ms)
    ensures |History(ms, dialogId, limit)| == Min(limit, |DialogMessages(ms, dialogId)|)
    ensures forall i, j :: 0 <= i < j < |History(ms, dialogId, limit)| ==>
              History(ms, dialogId, limit)[i].timestamp < History(ms, dialogId, limit)[j].timestamp
    ensures History(ms, dialogId, limit) <= Entries(DialogMessages(ms, dialogId))
  {
    DialogMessagesChronological(ms, dialogId);
    var all := DialogMessages(ms, dialogId);
    var h := History(ms, dialogId, limit);
    forall i, j | 0 <= i < j < |h| ensures h[i].timestamp < h[j].timestamp {
      assert h[i].timestamp == all[i].timestamp && h[j].timestamp == all[j].timestamp;
    }
  }

  /** Reading the table one more row further extends the history by that
      row exactly when it belongs to the dialog and the limit is not yet
      reached. */
  lemma HistoryStep(ms: seq<Message>, m: Message, dialogId: int, limit: nat)
    ensures History(ms + [m], dialogId, limit) ==
            History(ms, dialogId, limit) +
            (if m.dialogId == dialogId && |History(ms, dialogId, limit)| < limit then [Entry(m)] else [])
  {
    AppendToDialog(ms, m, dialogId);
    var before := DialogMessages(ms, dialogId);
    if m.dialogId == dialogId {
      TakeSnoc(before, m, limit);
      EntriesSnoc(Take(before, limit), m);
    }
  }

  /** One row more of the scan `get_chat_history` performs. */
  lemma HistoryLoopStep(ms: seq<Message>, i: nat, dialogId: int, limit: nat, rows: seq<HistoryEntry>)
    requires i < |ms| && rows == History(ms[..i], dialogId, limit)
    ensures History(ms[..i + 1], dialogId, limit) ==
            if ms[i].dialogId == dialogId && |rows| < limit then rows + [Entry(ms[i])] else rows
  {
    var prefix, m := ms[..i], ms[i];
    assert ms[..i + 1] == prefix + [m];
    HistoryStep(prefix, m, dialogId, limit);
  }

  lemma EntriesSnoc(ms: seq<Message>, m: Message)
    ensures Entries(ms + [m]) == Entries(ms) + [Entry(m)]
  {
  }

  /** The files of one user, in table (upload) order. */
  function FilesOf(fs: seq<KbFile>, userId: int): (r: seq<KbFile>)
    ensures |r| <= |fs|
    ensures forall f :: f in r <==> f in fs && f.userId == Some(userId)
  {
    if fs == [] then []
    else if fs[|fs| - 1].userId == Some(userId) then FilesOf(fs[..|fs| - 1], userId) + [fs[|fs| - 1]]
    else FilesOf(fs[..|fs| - 1], userId)
  }

  function Reverse<T>(s: seq<T>): (r: seq<T>)
    ensures |r| == |s|
    ensures forall i :: 0 <= i < |s| ==> r[i] == s[|s| - 1 - i]
  {
    if s == [] then [] else Reverse(s[1..]) + [s[0]]
  }

  predicate FilesChronological(fs: seq<KbFile>) {
    forall i, j :: 0 <= i < j < |fs| ==> fs[i].uploadedAt < fs[j].uploadedAt
  }

  lemma {:induction false} FilesOfChronological(fs: seq<KbFile>, userId: int)
    requires FilesChronological(fs)
    ensures FilesChronological(FilesOf(fs, userId))
  {
    if fs != [] {
      var init := fs[..|fs| - 1];
      assert FilesChronological(init);
      FilesOfChronological(init, userId);
      forall f | f in FilesOf(init, userId) ensures f.uploadedAt < fs[|fs| - 1].uploadedAt {
        var i :| 0 <= i < |init| && init[i] == f;
      }
    }
  }

  /** `get_knowledge_base_files_by_user` returns exactly that user's files,
      newest upload first. */
  lemma FilesByUserNewestFirst(fs: seq<KbFile>, userId: int)
    requires FilesChronological(fs)
    ensures forall f :: f in Reverse(FilesOf(fs, userId)) <==> f in fs && f.userId == Some(userId)
    ensures forall i, j :: 0 <= i < j < |FilesOf(fs, userId)| ==>
              Reverse(FilesOf(fs, userId))[i].uploadedAt > Reverse(FilesOf(fs, userId))[j].uploadedAt
  {
    var own := FilesOf(fs, userId);
    FilesOfChronological(fs, userId);
    ReverseSameElements(own);
    ReverseDescending(own);
  }

  /** Every dialog is stored under its own id, below the next id to be
      given out, and was created no later than `clock`. */
  ghost predicate DialogsValid(dialogs: map<int, Dialog>, nextId: int, clock: int) {
    forall k :: k in dialogs ==> dialogs[k].id == k && k < nextId && dialogs[k].createdAt <= clock
  }

  /** Every message has an id below the next one, a timestamp no later than
      `clock` and a dialog among `dialogIds`, and the table is in insertion
      order. */
  ghost predicate MessagesValid(ms: seq<Message>, dialogIds: set<int>, nextId: int, clock: int) {
    && (forall i :: 0 <= i < |ms| ==> ms[i].id < nextId && ms[i].timestamp <= clock && ms[i].dialogId in dialogIds)
    && Ordered(ms)
  }

  /** Every file has an id below the next one and an upload time no later
      than `clock`, and ids and upload times grow along the table. */
  ghost predicate FilesValid(fs: seq<KbFile>, nextId: int, clock: int) {
    && (forall i :: 0 <= i < |fs| ==> fs[i].id < nextId && fs[i].uploadedAt <= clock)
    && (forall i, j :: 0 <= i < j < |fs| ==> fs[i].id < fs[j].id)
    && FilesChronological(fs)
  }

  class Database {
    var dialogs: map<int, Dialog>
    var messages: seq<Message>
    var files: seq<KbFile>
    var nextDialogId: int
    var nextMessageId: int
    var nextFileId: int
    /** The logical clock behind CURRENT_TIMESTAMP. */
    var clock: int

    /** Ids are fresh and keyed, timestamps follow insertion order, and
        every message references an existing dialog. */
    ghost predicate Valid()
      reads this
    {
      && DialogsValid(dialogs, nextDialogId, clock)
      && MessagesValid(messages, dialogs.Keys, nextMessageId, clock)
      && FilesValid(files, nextFileId, clock)
    }

    constructor ()
      ensures Valid()
      ensures dialogs == map[] && messages == [] && files == []
    {
      dialogs := map[];
      messages := [];
      files := [];
      nextDialogId := 1;
      nextMessageId := 1;
      nextFileId := 1;
      clock := 0;
    }

    /** `create_dialog`: every argument is written as given, so a `None`
        prompt or model configuration is stored as NULL and the column
        defaults never apply; `max_chunks` and `cosine_threshold` default
        to 8 and 0.5 at the call. */
    method CreateDialog(name: Option<string> := None, systemPrompt: Option<string> := None,
                        modelConfig: Option<Json> := None, maxChunks: Option<int> := Some(8),
                        cosineThreshold: Option<Float> := Some(Finite(0.5)))
      returns (d: Dialog)
      requires Valid()
      modifies this
      ensures Valid()
      ensures d.id !in old(dialogs)
      ensures d == Dialog(d.id, name, d.createdAt, systemPrompt, modelConfig, maxChunks, cosineThreshold)
      ensures dialogs == old(dialogs)[d.id := d]
      ensures messages == old(messages) && files == old(files)
    {
      clock := clock + 1;
      d := Dialog(nextDialogId, name, clock, systemPrompt, modelConfig, maxChunks, cosineThreshold);
      dialogs := dialogs[nextDialogId := d];
      nextDialogId := nextDialogId + 1;
    }

    /** `add_message`: one new row at the end of the table with a fresh id
        and the latest timestamp; a dialog id that does not exist violates
        the foreign key and nothing is written. */
    method AddMessage(dialogId: int, sender: string, text: string) returns (r: Result<Receipt>)
      requires Valid()
      modifies this
      ensures Valid()
      ensures dialogs == old(dialogs) && files == old(files)
      ensures dialogId !in old(dialogs) ==> r.Err? && messages == old(messages)
      ensures dialogId in old(dialogs) ==>
                r.Ok? && r.value.id >= old(nextMessageId) && r.value.timestamp > old(clock) &&
                messages == old(messages) + [Message(r.value.id, dialogId, sender, text, r.value.timestamp)]
    {
      if dialogId !in dialogs {
        return Err("insert or update on table \"messages\" violates foreign key constraint");
      }
      clock := clock + 1;
      var m := Message(nextMessageId, dialogId, sender, text, clock);
      messages := messages + [m];
      nextMessageId := nextMessageId + 1;
      r := Ok(Receipt(m.id, m.timestamp));
    }

    /** `get_dialog_by_id`: the row with that id; `user_id` takes no part. */
    method GetDialogById(dialogId: int, userId: int) returns (r: Option<Dialog>)
      requires Valid()
      ensures r.Some? <==> dialogId in dialogs
      ensures r.Some? ==> r.value == dialogs[dialogId] && r.value.id == dialogId
    {
      if dialogId in dialogs {
        r := Some(dialogs[dialogId]);
      } else {
        r := None;
      }
    }

    /** `update_dialog_config`: the SET list is built from the non-`None`
        arguments; with none of them nothing is run and the answer is
        false, otherwise the answer is whether a row had that id (`user_id`
        takes no part). A model configuration holding NaN or an infinity
        is refused by the `jsonb` column and the UPDATE fails. */
    method UpdateDialogConfig(dialogId: int, userId: int, patch: ConfigPatch) returns (r: Result<bool>)
      requires Valid()
      modifies this
      ensures Valid()
      ensures messages == old(messages) && files == old(files)
      ensures EmptyPatch(patch) ==> r == Ok(false) && dialogs == old(dialogs)
      ensures !EmptyPatch(patch) && patch.modelConfig.Some? && !JsonbStorable(patch.modelConfig.value) ==>
                r.Err? && dialogs == old(dialogs)
      ensures !EmptyPatch(patch) && (patch.modelConfig.None? || JsonbStorable(patch.modelConfig.value)) ==>
                r == Ok(dialogId in old(dialogs)) &&
                dialogs == if dialogId in old(dialogs)
                           then old(dialogs)[dialogId := ApplyPatch(old(dialogs)[dialogId], patch)]
                           else old(dialogs)
    {
      var updates: seq<Column> := if patch.systemPrompt.Some? then [SystemPromptColumn] else [];
      updates := updates + if patch.modelConfig.Some? then [ModelConfigColumn] else [];
      updates := updates + if patch.maxChunks.Some? then [MaxChunksColumn] else [];
      updates := updates + if patch.cosineThreshold.Some? then [CosineThresholdColumn] else [];
      assert updates == SetColumns(patch);
      if updates == [] {
        return Ok(false);
      }
      if patch.modelConfig.Some? && !JsonbStorable(patch.modelConfig.value) {
        return Err("invalid input syntax for type json");
      }
      if dialogId in dialogs {
        dialogs := dialogs[dialogId := ApplyPatch(dialogs[dialogId], patch)];
        r := Ok(true);
      } else {
        r := Ok(false);
      }
    }

    /** `delete_dialog`: removes the row with that id (`user_id` takes no
        part) and, by the cascade, all of its messages; the answer is
        whether the row existed. */
    method DeleteDialog(dialogId: int, userId: int) returns (deleted: bool)
      requires Valid()
      modifies this
      ensures Valid()
      ensures deleted <==> dialogId in old(dialogs)
      ensures dialogs == old(dialogs) - {dialogId}
      ensures messages == WithoutDialog(old(messages), dialogId)
      ensures files == old(files)
    {
      deleted := dialogId in dialogs;
      WithoutDialogOrdered(messages, dialogId);
      dialogs := dialogs - {dialogId};
      messages := WithoutDialog(messages, dialogId);
    }

    /** `get_chat_history`: that dialog's messages in timestamp order, the
        first `limit` of them, with senders mapped to roles; a negative
        limit is refused by the database. */
    method GetChatHistory(dialogId: int, limit: int := DefaultHistoryLimit) returns (r: Result<seq<HistoryEntry>>)
      ensures limit < 0 ==> r.Err?
      ensures limit >= 0 ==> r == Ok(History(messages, dialogId, limit))
    {
      if limit < 0 {
        return Err("LIMIT must not be negative");
      }
      var ms, lim: nat := messages, limit;
      var rows: seq<HistoryEntry> := [];
      for i := 0 to |ms|
        invariant rows == History(ms[..i], dialogId, lim)
      {
        HistoryLoopStep(ms, i, dialogId, lim, rows);
        if ms[i].dialogId == dialogId && |rows| < lim {
          rows := rows + [Entry(ms[i])];
        }
      }
      assert ms[..|ms|] == ms;
      r := Ok(rows);
    }

    /** `insert_knowledge_base_file`: one new row with a fresh id and the
        latest upload time. */
    method InsertKbFile(filename: string, storagePath: string, numChunks: int, fileSize: Option<int>,
                        description: Option<string> := None, userId: Option<int> := None)
      returns (receipt: Receipt)
      requires Valid()
      modifies this
      ensures Valid()
      ensures dialogs == old(dialogs) && messages == old(messages)
      ensures receipt.id >= old(nextFileId) && receipt.timestamp > old(clock)
      ensures files == old(files) + [KbFile(receipt.id, filename, storagePath, numChunks, fileSize,
                                            description, userId, receipt.timestamp)]
    {
      clock := clock + 1;
      var f := KbFile(nextFileId, filename, storagePath, numChunks, fileSize, description, userId, clock);
      files := files + [f];
      nextFileId := nextFileId + 1;
      receipt := Receipt(f.id, f.uploadedAt);
    }

    /** `get_knowledge_base_files_by_user`: that user's files, newest
        `uploaded_at` first. */
    method GetKbFilesByUser(userId: int) returns (result: seq<KbFile>)
      ensures result == Reverse(FilesOf(files, userId))
    {
      result := [];
      var i := |files|;
      assert files[..i] == files;
      while i > 0
        invariant 0 <= i <= |files|
        invariant FilesOf(files, userId) == FilesOf(files[..i], userId) + Reverse(result)
      {
        FilesOfStep(files, i - 1, userId);
        i := i - 1;
        if files[i].userId == Some(userId) {
          ReverseSnoc(result, files[i]);
          assert FilesOf(files, userId) == FilesOf(files[..i], userId) + ([files[i]] + Reverse(result));
          result := result + [files[i]];
        }
      }
      ReverseInvolutive(result);
    }
  }

  lemma FilesOfStep(fs: seq<KbFile>, i: int, userId: int)
    requires 0 <= i < |fs|
    ensures FilesOf(fs[..i + 1], userId) ==
            FilesOf(fs[..i], userId) + (if fs[i].userId == Some(userId) then [fs[i]] else [])
  {
    assert fs[..i + 1][..i] == fs[..i];
  }

  lemma ReverseSameElements<T>(s: seq<T>)
    ensures forall x :: x in Reverse(s) <==> x in s
  {
    var r := Reverse(s);
    forall x | x in r ensures x in s {
      var i :| 0 <= i < |r| && r[i] == x;
      assert s[|s| - 1 - i] == x;
    }
    forall x | x in s ensures x in r {
      var i :| 0 <= i < |s| && s[i] == x;
      assert r[|r| - 1 - i] == x;
    }
  }

  lemma ReverseDescending(fs: seq<KbFile>)
    requires FilesChronological(fs)
    ensures forall i, j :: 0 <= i < j < |fs| ==> Reverse(fs)[i].uploadedAt > Reverse(fs)[j].uploadedAt
  {
    var r := Reverse(fs);
    forall i, j | 0 <= i < j < |fs| ensures r[i].uploadedAt > r[j].uploadedAt {
      assert r[i] == fs[|fs| - 1 - i] && r[j] == fs[|fs| - 1 - j];
    }
  }

  lemma ReverseInvolutive<T>(s: seq<T>)
    ensures Reverse(Reverse(s)) == s
  {
    assert forall i :: 0 <= i < |s| ==> Reverse(Reverse(s))[i] == s[i];
  }

  lemma ReverseSnoc<T>(s: seq<T>, x: T)
    ensures Reverse(s + [x]) == [x] + Reverse(s)
  {
  }
}
