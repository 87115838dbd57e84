/** The knowledge-base endpoints of backend/app/kb.py that feed the chat
    pipeline: uploading a table (stored raw, chunked, its chunk dump
    stored next to it, its metadata row inserted, its chunks vectorised)
    and paging through an uploaded table's chunks. */
module KbRoutes {
  import opened Common
  import opened Chunking
  import opened DialogStore
  import opened VectorIndex

  /** An object in the file bucket: an uploaded file, or the JSON dump of
      an upload's chunks. */
  datatype StoredObject =
    | RawFile(size: nat)
    | ChunkDump(filename: string, totalChunks: nat, chunks: seq<Chunk>)

  /** The object bucket the uploads go to, keyed by object name. */
  class ObjectStore {
    var objects: map<string, StoredObject>

    constructor ()
      ensures objects == map[]
    {
      objects := map[];
    }

    /** `upload_file`: the object is stored under its name, replacing any
        object of that name. */
    method Put(name: string, obj: StoredObject)
      modifies this
      ensures objects == old(objects)[name := obj]
    {
      objects := objects[name := obj];
    }
  }

  /** The chunks `perform_chunking` makes of a table: row `i` becomes chunk
      `i`. */
  ghost function TableChunks(t: Table): (chunks: seq<Chunk>)
    ensures |chunks| == |t.rows|
  {
    seq(|t.rows|, i requires 0 <= i < |t.rows| => Chunk(i, RowText(t.headers, t.rows[i]), i, t.headers))
  }

  /** The uploaded file as the request carries it. */
  datatype Upload = Upload(filename: string, size: nat)

  datatype UploadReply =
    | UploadFailed(status: int, error: string)
    | Uploaded(filename: string, numChunks: nat, fileSize: nat, metadata: Receipt)

  const ExtensionRefused := "Only Excel (.xlsx, .xls) and CSV (.csv) files are allowed"

  /** The checks in front of `upload_kb`, in order: a file part, a
      non-empty name, an accepted extension of the sanitised name. */
  function UploadRefusal(file: Option<Upload>, secureFilename: string -> string): (r: Option<string>)
    ensures r.None? <==> file.Some? && file.value.filename != "" && AllowedExtension(secureFilename(file.value.filename))
  {
    if file.None? then Some("No file part")
    else if file.value.filename == "" then Some("No selected file")
    else if !AllowedExtension(secureFilename(file.value.filename)) then Some(ExtensionRefused)
    else None
  }

  /** The steps of `upload_kb` after the file is stored and parsed: the
      chunk dump is written (a failure is only logged), the metadata row is
      inserted, and the chunks are vectorised under the new row's id (a
      failure is only logged). */
  method StoreChunks(db: Database, bucket: ObjectStore, store: VectorStore, filename: string, size: nat,
                     userId: int, chunks: seq<Chunk>, embed: string -> Vector,
                     dumpFailure: Option<string>, vectorFailure: Option<string>)
    returns (meta: Receipt)
    requires db.Valid()
    modifies db, bucket, store
    ensures db.Valid()
    ensures db.dialogs == old(db.dialogs) && db.messages == old(db.messages)
    ensures db.files == old(db.files) + [KbFile(meta.id, filename, filename, |chunks|, Some(size), None,
                                                Some(userId), meta.timestamp)]
    ensures bucket.objects == if dumpFailure.Some? then old(bucket.objects)
                              else old(bucket.objects)[ChunksFileName(filename) := ChunkDump(filename, |chunks|, chunks)]
    ensures store.points == if chunks == [] || vectorFailure.Some? then old(store.points)
                            else UpsertAll(old(store.points), PointsOf(chunks, meta.id, userId, embed))
  {
    if dumpFailure.None? {
      bucket.Put(ChunksFileName(filename), ChunkDump(filename, |chunks|, chunks));
    }
    meta := db.InsertKbFile(filename, filename, |chunks|, Some(size), None, Some(userId));
    var vectorised := store.VectorizeChunks(chunks, meta.id, userId, embed, vectorFailure);
  }

  /** `upload_kb`. The table the parser reads from the file is a parameter
      (`parsed`), and so are the outcomes of the bucket and vector-store
      calls. Before the file is stored, a refusal changes nothing; a file
      that does not parse stays stored; after parsing, the upload answers
      200 with the chunk count whatever the dump and the vectorisation
      do. */
  method UploadKb(db: Database, bucket: ObjectStore, store: VectorStore, sessionUser: Option<int>,
                  file: Option<Upload>, secureFilename: string -> string, parsed: Result<Table>,
                  rawFailure: Option<string>, dumpFailure: Option<string>,
                  embed: string -> Vector, vectorFailure: Option<string>)
    returns (reply: UploadReply)
    requires db.Valid()
    modifies db, bucket, store
    ensures db.Valid()
    ensures db.dialogs == old(db.dialogs) && db.messages == old(db.messages)
    ensures sessionUser.None? ==>
              reply == UploadFailed(401, "Authentication required") &&
              db.files == old(db.files) && bucket.objects == old(bucket.objects) && store.points == old(store.points)
    ensures sessionUser.Some? && UploadRefusal(file, secureFilename).Some? ==>
              reply == UploadFailed(400, UploadRefusal(file, secureFilename).value) &&
              db.files == old(db.files) && bucket.objects == old(bucket.objects) && store.points == old(store.points)
    ensures sessionUser.Some? && UploadRefusal(file, secureFilename).None? && rawFailure.Some? ==>
              reply == UploadFailed(500, "Failed to upload to MinIO: " + rawFailure.value) &&
              db.files == old(db.files) && bucket.objects == old(bucket.objects) && store.points == old(store.points)
    ensures sessionUser.Some? && UploadRefusal(file, secureFilename).None? && rawFailure.None? ==>
              var name := secureFilename(file.value.filename);
              var raw := old(bucket.objects)[name := RawFile(file.value.size)];
              (parsed.Err? ==>
                 reply == UploadFailed(400, "Failed to process file: " + parsed.error) &&
                 db.files == old(db.files) && bucket.objects == raw && store.points == old(store.points)) &&
              (parsed.Ok? ==>
                 var chunks := TableChunks(parsed.value);
                 reply.Uploaded? && reply.filename == name && reply.numChunks == |parsed.value.rows| &&
                 reply.fileSize == file.value.size &&
                 db.files == old(db.files) + [KbFile(reply.metadata.id, name, name, |chunks|, Some(file.value.size),
                                                     None, sessionUser, reply.metadata.timestamp)] &&
                 bucket.objects == (if dumpFailure.Some? then raw
                                    else raw[ChunksFileName(name) := ChunkDump(name, |chunks|, chunks)]) &&
                 store.points == (if chunks == [] || vectorFailure.Some? then old(store.points)
                                  else UpsertAll(old(store.points), PointsOf(chunks, reply.metadata.id,
                                                                             sessionUser.value, embed))))
  {
    if sessionUser.None? {
      return UploadFailed(401, "Authentication required");
    }
    var refusal := UploadRefusal(file, secureFilename);
    if refusal.Some? {
      return UploadFailed(400, refusal.value);
    }
    var name := secureFilename(file.value.filename);
    if rawFailure.Some? {
      return UploadFailed(500, "Failed to upload to MinIO: " + rawFailure.value);
    }
    bucket.Put(name, RawFile(file.value.size));
    if parsed.Err? {
      return UploadFailed(400, "Failed to process file: " + parsed.error);
    }
    var chunks := PerformChunking(parsed.value);
    assert chunks == TableChunks(parsed.value);
    var meta := StoreChunks(db, bucket, store, name, file.value.size, sessionUser.value, chunks, embed,
                            dumpFailure, vectorFailure);
    reply := Uploaded(name, |chunks|, file.value.size, meta);
  }

  // ---------------------------------------------------------------------
  // Paging through an upload's chunks

  /** The row `SELECT ... WHERE id = kb_id AND user_id = user_id` finds. */
  function OwnedFile(files: seq<KbFile>, kbId: int, userId: int): (r: Option<KbFile>)
    ensures r.Some? ==> r.value in files && r.value.id == kbId && r.value.userId == Some(userId)
    ensures r.None? ==> forall f :: f in files ==> !(f.id == kbId && f.userId == Some(userId))
  {
    if files == [] then None
    else if files[0].id == kbId && files[0].userId == Some(userId) then Some(files[0])
    else OwnedFile(files[1..], kbId, userId)
  }

  /** The response of `get_kb_chunks`. */
  datatype ChunksReply =
    | ChunksFailed(status: int, error: string)
    | ChunksPage(filename: string, page: Page<Chunk>)

  /** `request.args.get(name, default, type=int)`: a missing or non-integer
      argument reads as the default. */
  function ArgOr(arg: Option<int>, default: int): int {
    if arg.Some? then arg.value else default
  }

  /** `get_kb_chunks`: only the owner's upload is found; its chunks are read
      back from the dump named after the upload and paged. */
  function GetKbChunks(sessionUser: Option<int>, files: seq<KbFile>, objects: map<string, StoredObject>,
                       kbId: int, pageArg: Option<int>, sizeArg: Option<int>): (r: ChunksReply)
    ensures sessionUser.None? ==> r == ChunksFailed(401, "Authentication required")
    ensures sessionUser.Some? && (forall f :: f in files ==> !(f.id == kbId && f.userId == sessionUser)) ==>
              r == ChunksFailed(404, "Knowledge base not found or access denied")
    ensures r.ChunksPage? ==>
              sessionUser.Some? && ChunksFileName(r.filename) in objects &&
              objects[ChunksFileName(r.filename)].ChunkDump? &&
              r.page == Paginate(objects[ChunksFileName(r.filename)].chunks, ArgOr(pageArg, 1),
                                 ArgOr(sizeArg, DefaultPageSize)) &&
              exists f :: f in files && f.id == kbId && f.userId == sessionUser && f.filename == r.filename
  {
    if sessionUser.None? then ChunksFailed(401, "Authentication required")
    else
      var owned := OwnedFile(files, kbId, sessionUser.value);
      if owned.None? then ChunksFailed(404, "Knowledge base not found or access denied")
      else
        var dumpName := ChunksFileName(owned.value.filename);
        if dumpName !in objects then ChunksFailed(404, "Chunks file not found in MinIO")
        else match objects[dumpName]
          case ChunkDump(_, _, chunks) =>
            ChunksPage(owned.value.filename, Paginate(chunks, ArgOr(pageArg, 1), ArgOr(sizeArg, DefaultPageSize)))
          case RawFile(_) => ChunksFailed(500, "Failed to get chunks")
  }

  /** What an upload leaves behind is what paging serves back: the owner
      asking for the new row's id gets the uploaded chunks, paged. */
  lemma UploadedChunksArePaged(files: seq<KbFile>, objects: map<string, StoredObject>, f: KbFile,
                               chunks: seq<Chunk>, pageArg: Option<int>, sizeArg: Option<int>)
    requires f in files && f.userId.Some?
    requires forall i, j :: 0 <= i < j < |files| ==> files[i].id < files[j].id
    requires ChunksFileName(f.filename) in objects
    requires objects[ChunksFileName(f.filename)] == ChunkDump(f.filename, |chunks|, chunks)
    ensures GetKbChunks(f.userId, files, objects, f.id, pageArg, sizeArg) ==
            ChunksPage(f.filename, Paginate(chunks, ArgOr(pageArg, 1), ArgOr(sizeArg, DefaultPageSize)))
  {
    var owned := OwnedFile(files, f.id, f.userId.value);
    assert owned.Some?;
    var i :| 0 <= i < |files| && files[i] == owned.value;
    var j :| 0 <= j < |files| && files[j] == f;
    assert i == j;
  }

  /** Asking for another user's upload is refused as if it did not exist. */
  lemma OthersUploadsDenied(files: seq<KbFile>, objects: map<string, StoredObject>, kbId: int, userId: int,
                            pageArg: Option<int>, sizeArg: Option<int>)
    requires forall f :: f in files && f.id == kbId ==> f.userId != Some(userId)
    ensures GetKbChunks(Some(userId), files, objects, kbId, pageArg, sizeArg) ==
            ChunksFailed(404, "Knowledge base not found or access denied")
  {
  }
}
