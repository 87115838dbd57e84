# DaoMed retrieval-augmented chat backend, modelled in Dafny

DaoMed is a medical question-answering service. This project models and verifies its backend pipeline:

- **Knowledge bases.** Users upload spreadsheets as knowledge bases. Each data row becomes one text chunk (`"header: value | header: value"`).
- **Vector store.** Chunks are embedded and kept in a vector store under the key `kb_id * 10000 + chunk_id`.
- **Answering.** A RAG service answers a chat message in three steps:
  - it searches that store under a chunk budget and a similarity threshold;
  - it formats the hits into a numbered context;
  - it asks a language model with one of two prompt templates.
- **Dialogs.** Messages live in a dialog. A dialog carries its own RAG settings (system prompt, model configuration, chunk budget, threshold), which a validating endpoint updates. The user message is stored before the answer, and the bot message after it.
- **Older entry points:**
  - a legacy search-only reply (`send_message`);
  - a single-process chat server whose state is kept in module globals (`main.py`);
  - a chain-of-thought dispatcher (`CoT.py`);
  - a lexical best-match chain (`CoT_ver2.py`);
  - an evaluation endpoint that answers a list of questions and reshapes them into metric records.

One Dafny module per source file:

| module | file | source |
|---|---|---|
| `Common` | common.dfy | Python's `str.strip`, `lower`, `str(int)`, `int(str)`, `join`; JSON values and Python floats (NaN, ±inf) |
| `Requests` | requests.dfy | `require_auth` and the request-body reads shared by the handlers |
| `Chunking` | chunking.dfy | `perform_chunking`, pagination arithmetic, extension check and chunk-dump name (backend/app/kb.py) |
| `KbRoutes` | kb_routes.dfy | `upload_kb` and `get_kb_chunks` (backend/app/kb.py) |
| `VectorIndex` | vector_index.dfy | `QdrantService`: point keys, upsert, search, lookup, delete |
| `Rag` | rag.dfy | `RAGService`: settings defaulting, search, context, prompt, answer |
| `DialogStore` | dialog_store.dfy | backend/db/database.py: dialogs, messages and knowledge-base file tables |
| `DialogRoutes` | dialog_routes.dfy | `chat_with_kb` and `update_dialog_config_endpoint` (backend/app/dialog.py) |
| `ChatRoutes` | chat_routes.dfy | `send_message` (backend/app/chat.py) |
| `MedicalQa` | medical_qa.dfy | `create_medical_qa_chain` / `combine_chains` (CoT.py) |
| `LexicalMatch` | lexical_match.dfy | `find_best_match` and `chain_of_thought` (CoT_ver2.py) |
| `LegacyChat` | legacy_chat.dfy | `get_response`, `get_gemini_apikey`, `retriever` (main.py) |
| `Evaluation` | evaluation.dfy | `normalize_data`, `evaluate_data`, `get_assistant_response` (backend/app/eval.py) |

Where the source mutates state, the model does too:

- **Classes.**
  - The database is `DialogStore.Database`, a class. Its `dialogs` map and its `messages` and `files` sequences are changed by `modifies` methods.
  - The vector store is `VectorIndex.VectorStore`, holding a `map<int, Point>`.
  - The RAG service is `Rag.RagService`, holding its chunk budget, threshold and system prompt.
  - The module globals of `main.py` are the fields of `LegacyChat.LegacyChat`.
  - The object bucket is `KbRoutes.ObjectStore`.
- **Loops.** Each of these is a method with a loop, proved against a specification function:
  - the chunking, formatting and context-building loops;
  - the SET-list building;
  - the history scan;
  - the stream accumulation;
  - the evaluation item loop.
- **Pure code.** Validation, prompt choice and the chain-of-thought dispatch are pure, and are modelled as functions.

Everything outside the process is a parameter:

- the embedding model;
- the similarity the vector store computes;
- the language model;
- score formatting;
- JSON decoding of strings;
- BM25 scores;
- the metrics library;
- the success or failure of a storage call.

## Model

| member | source | states |
|---|---|---|
| Common.TrimStart | backend/app/kb.py:187 | `lstrip` leaves a suffix of the input. Everything removed is white space, and the result does not start with white space. |
| Common.TrimEnd | backend/app/kb.py:187 | `rstrip` leaves a prefix of the input. Everything removed is white space, and the result does not end with white space. |
| Common.Strip | backend/app/kb.py:187 | `strip()` is a contiguous slice of its input that neither starts nor ends with white space. |
| Common.StripSurroundings | backend/app/kb.py:187 | Every character `strip()` drops, before or after the kept slice, is white space. |
| Common.StripIdempotent | backend/app/dialog.py:35 | Stripping a stripped text changes nothing. |
| Common.StripPadded | CoT.py:176 | Stripping a text padded with white space gives back exactly the text, if the text neither starts nor ends with white space. |
| Common.StripEmptyIffBlank | backend/app/chat.py:352-355 | A text is empty after `strip()` exactly when it is all white space. |
| Common.LowerChar | CoT.py:176 | Lower-casing maps ASCII capitals to ASCII small letters, changes every upper-case letter and leaves every other character alone. |
| Common.LowerCharIdempotent | CoT.py:176 | Lower-casing a character twice is the same as once. |
| Common.Lower | backend/app/kb.py:60 | `lower()` keeps the length and lower-cases character by character. |
| Common.Take | backend/db/database.py:67 | `LIMIT n` keeps a prefix of length `min(n, total)`. |
| Common.TakeSnoc | backend/db/database.py:67 | One more row reaches the result of `LIMIT n` exactly when fewer than `n` rows are already there. |
| Common.JoinSnoc | backend/app/kb.py:192 | Joining one more part appends the separator and that part. |
| Common.JoinStartsWithFirst | backend/app/kb.py:192 | A joined text starts with its first part. |
| Common.JoinLength | backend/app/kb.py:192 | A joined text's length is the sum of the parts' lengths plus one separator between each two parts. |
| Common.NatToString | backend/services/rag_service.py:90 | `str(n)` is a non-empty string of decimal digits with no leading zero. |
| Common.IntToString | backend/services/qdrant_service.py:186 | `str(i)` is non-empty, and starts with a digit for `i >= 0` and with `-` for `i < 0`. |
| Common.DigitsValueOfNatToString | backend/services/rag_service.py:90 | Reading back the digits `str(n)` prints gives `n`. |
| Common.IntToStringInjective | backend/services/rag_service.py:90 | Two integers print alike only when they are equal. |
| Common.ParseInt | backend/app/dialog.py:117 | `int(text)` succeeds only on a text that is not blank. |
| Common.StripOfIntToString | backend/app/dialog.py:117 | What `str` prints has no surrounding white space. |
| Common.ParseIntOfIntToString | backend/app/dialog.py:117 | `int(str(i)) == i`. |
| Requests.RequireAuth | backend/app/chat.py:24-28 | The result is the session's user id exactly when the session has one. Otherwise it is the refusal "User not authenticated". |
| Requests.Field | backend/app/dialog.py:100-103 | `data.get(key)` is absent exactly when the key is missing or null. |
| Requests.MessageOf | backend/app/chat.py:351-352 | The message is the stripped `message` field, or `""` when the field is missing. A non-object body or a non-text message has no message. |
| Requests.BlankMessagesRefused | backend/app/chat.py:352-355 | A message field reads as empty exactly when it is all white space. |
| Chunking.PerformChunking | backend/app/kb.py:166-201 | One chunk per data row, in row order. Chunk `i` has `id == row_index == i`, the table's header list, and the text of its row. |
| Chunking.FragmentsOfRow | backend/app/kb.py:182-189 | One `"header: value"` fragment per column, in column order. A missing cell renders as `"header: "`. |
| Chunking.RowText | backend/app/kb.py:182-192 | Defines a row's chunk text. `RowTextSnoc` and `RowTextShape` state its shape. |
| Chunking.RowTextSnoc | backend/app/kb.py:189-192 | One more column adds `" \| header: value"` at the end of the chunk text. |
| Chunking.RowTextShape | backend/app/kb.py:192 | The chunk text starts with the first fragment. Its length is the fragments' lengths plus three characters per separator. |
| Chunking.ClampPage | backend/app/kb.py:264-265 | The page is at least 1. A page below 1 becomes 1, and any other page is kept. |
| Chunking.ClampPageSize | backend/app/kb.py:266-267 | A page size in 1..1000 is kept. Any other size becomes 100. |
| Chunking.TotalPages | backend/app/kb.py:304 | `(total + size - 1) // size` is the ceiling of `total / size`. |
| Chunking.Paginate | backend/app/kb.py:259-322 | The page holds at most `page_size` items: those of `all` from the page start. `total_pages` is the ceiling division. `has_next` holds iff `page < total_pages`, and `has_prev` iff `page > 1`. `end_idx` is `min(end, total)`. |
| Chunking.ElementOnItsPage | backend/app/kb.py:299-301 | The chunk at position `i` is item `i % size` of page `i / size + 1`. |
| Chunking.ItemOfPage | backend/app/kb.py:299-301 | Item `m` of page `q + 1` is the chunk at position `q * size + m`. |
| Chunking.PagesUpToIsPrefix | backend/app/kb.py:299-301 | Pages `1..k`, read in order, are the first `k * size` chunks. |
| Chunking.PageItems | backend/app/kb.py:299-301 | Page `k` is the slice `[(k-1)*size, k*size)`, clamped to the list. |
| Chunking.PagesCoverAll | backend/app/kb.py:299-305 | Reading pages `1..total_pages` in order gives back every chunk exactly once. |
| Chunking.LastIndexOf | backend/app/kb.py:60 | The index of the last occurrence of a character, or -1. |
| Chunking.SplitExt | backend/app/kb.py:60 | `os.path.splitext`: stem plus extension is the name. The extension is empty, or a single dot-led part. Leading dots are not an extension. |
| Chunking.AllowedExtension | backend/app/kb.py:60-63 | Defines the extension check. `SplitExtOfStemAndExt` and the three acceptance lemmas below state its behaviour. |
| Chunking.ChunksFileName | backend/app/kb.py:110 | The dump name ends in `_chunks.json`, and removing that suffix gives back the upload's stem. |
| Chunking.DumpNameSharedIffSameStem | backend/app/kb.py:110 | Two uploads share a dump name exactly when their names have the same stem. |
| Chunking.SplitExtOfStemAndExt | backend/app/kb.py:60-64 | On `stem + ".ext"` the extension is `.ext`. Acceptance depends on the lower-cased extension only, and the dump name is `stem_chunks.json`. |
| Chunking.ChunkDumpNamesCollide | backend/app/kb.py:110 | Two uploads that differ only in extension share one dump name. |
| Chunking.UpperCaseExtensionAccepted | backend/app/kb.py:60-63 | `.CSV` is accepted. |
| Chunking.CompressedCsvRejected | backend/app/kb.py:60-63 | `x.csv.gz` is rejected: only the last extension counts. |
| Chunking.DotFileRejected | backend/app/kb.py:60-63 | A file named `.csv` has no extension and is rejected. |
| KbRoutes.ObjectStore.Put | backend/app/kb.py:77 | Storing an object replaces whatever had that name. |
| KbRoutes.TableChunks | backend/app/kb.py:97-98 | The chunk count is the row count. |
| KbRoutes.UploadRefusal | backend/app/kb.py:52-64 | An upload is refused exactly when the file part is missing, the name is empty, or the secured name's extension is not allowed. |
| KbRoutes.StoreChunks | backend/app/kb.py:106-156 | The chunk dump is written unless that write fails. The metadata row is appended. The chunks are then upserted under the new row's id, unless there are none or vectorisation fails. Nothing else changes. |
| KbRoutes.UploadKb | backend/app/kb.py:46-164 | The response is 401, 400 or 500 at each check before the file is stored, and then nothing changes. A file that does not parse gives 400 and stays stored. After parsing, the metadata is always inserted before vectorisation, and the response is 200 with the row count, whatever the dump and vectorisation outcomes. |
| KbRoutes.OwnedFile | backend/app/kb.py:275-279 | The row found has that id and that owner. No row means no such owned row exists. |
| KbRoutes.GetKbChunks | backend/app/kb.py:249-327 | 401 without a session. 404 unless the user owns a row with that id. A page is served only from that row's dump, paged with the clamped arguments. |
| KbRoutes.UploadedChunksArePaged | backend/app/kb.py:284-301 | What an upload stored is what paging serves back to its owner. The dump name is derived identically at write (line 110) and read (line 284). |
| KbRoutes.OthersUploadsDenied | backend/app/kb.py:275-279 | Another user's upload gives 404, as if it did not exist. |
| VectorIndex.PointKeyInjective | backend/services/qdrant_service.py:75 | `kb*10000 + chunk` is injective for chunk ids in `0..9999`. |
| VectorIndex.PointKey | backend/services/qdrant_service.py:75 | Defines the point id `kb_id * 10000 + chunk_id`. The `PointKey*` lemmas state when it is injective and when it collides. |
| VectorIndex.PointOf | backend/services/qdrant_service.py:76-88 | Defines one chunk's point: the embedded text and its six payload fields. `PointsOf` and `StoreThenRetrieve` state what it carries. |
| VectorIndex.UpsertAll | backend/services/qdrant_service.py:93-96 | Defines an upsert of a batch. `UpsertAllSpec` and `UpsertAllIdempotent` state its effect. |
| VectorIndex.SearchAnswer | backend/services/qdrant_service.py:114-120 | Defines the answers a search may give: the top-`k` qualifying points, best first. `SearchAnswerShape`, `RaisingThresholdNeverAddsResults` and `RankingDone` state its properties. |
| VectorIndex.PointKeyInjectiveWithinKb | backend/services/qdrant_service.py:75 | Within one knowledge base, distinct chunk ids give distinct keys. |
| VectorIndex.PointKeyCollision | backend/services/qdrant_service.py:75 | Chunk 10000 of knowledge base 0 and chunk 0 of knowledge base 1 share a key. No guard prevents this. |
| VectorIndex.PointsOf | backend/services/qdrant_service.py:68-90 | One point per chunk, in order. Its payload copies `chunk_id`, `kb_id`, `user_id`, `text`, `row_index` and `headers`. |
| VectorIndex.UpsertAllSpec | backend/services/qdrant_service.py:93-96 | After an upsert, the keys are the old keys plus the batch's. A key outside the batch keeps its point. A batch key holds the last point the batch gives it. |
| VectorIndex.UpsertAllIdempotent | backend/services/qdrant_service.py:93-96 | Re-indexing the same batch changes nothing. |
| VectorIndex.IndexedChunkStored | backend/services/qdrant_service.py:75-90 | After indexing chunks with distinct ids, the point under each chunk's key is that chunk's point. |
| VectorIndex.UpsertKeepsWellKeyed | backend/services/qdrant_service.py:75-96 | With in-band chunk ids, every point stays under the key of its own `(kb_id, chunk_id)`. |
| VectorIndex.RemoveKb | backend/services/qdrant_service.py:141-152 | Intended deletion keeps exactly the points of other knowledge bases, unchanged. |
| VectorIndex.DeleteUndoesIndex | backend/services/qdrant_service.py:56-152 | Indexing a knowledge base and then deleting it leaves every other knowledge base's points as they were. |
| VectorIndex.Retrieve | backend/services/qdrant_service.py:169-204 | Lookup succeeds exactly when the key is present, and returns that point's vector and metadata. Otherwise it fails with "Chunk c not found in KB k". |
| VectorIndex.StoreThenRetrieve | backend/services/qdrant_service.py:169-201 | After indexing, fetching `(kb_id, chunk.id)` gives back the chunk's text, row index, headers, ids and owner. |
| VectorIndex.RaisingThresholdNeverAddsResults | backend/services/qdrant_service.py:114-120 | A higher score threshold, or a threshold where there was none, never yields more results. |
| VectorIndex.NoThresholdQualifiesAll | backend/services/qdrant_service.py:114-120 | Without a threshold every stored point qualifies. |
| VectorIndex.SearchAnswerShape | backend/services/qdrant_service.py:114-135 | A search answer has at most `top_k` hits, each scoring at least the threshold if one is given, best first. Every hit is a stored point. Without a threshold there are exactly `min(top_k, #points)` hits. |
| VectorIndex.RankingStep | backend/services/qdrant_service.py:114-120 | Appending the best remaining point keeps the selection ranked and complete. |
| VectorIndex.RankingDone | backend/services/qdrant_service.py:114-120 | A finished selection is the top `min(k, #qualifying)` qualifying points, best first. |
| VectorIndex.VectorStore.constructor | backend/services/qdrant_service.py:56 | The store starts empty. |
| VectorIndex.VectorStore.VectorizeChunks | backend/services/qdrant_service.py:56-103 | No chunks gives `(False, "No chunks provided")`, and a failure its message; the store is untouched in both cases. Otherwise every point is upserted at once and the reply is "Vectorized n chunks". |
| VectorIndex.VectorStore.SelectBest | backend/services/qdrant_service.py:114-120 | The loop picks a candidate with the greatest similarity. |
| VectorIndex.VectorStore.RankTopK | backend/services/qdrant_service.py:114-120 | The selection loop returns the ranked top-`k` qualifying keys. |
| VectorIndex.VectorStore.SearchChunks | backend/services/qdrant_service.py:105-139 | A failure is returned as the error. Otherwise the results are the formatted ranked top-`k` hits at the threshold (or among all points when it is `None`), with no owner filter. |
| VectorIndex.VectorStore.GetChunkVector | backend/services/qdrant_service.py:169-208 | A client exception is returned as the error. Otherwise the result is exactly what `Retrieve` specifies for the current store. |
| VectorIndex.VectorStore.DeleteKbChunks | backend/services/qdrant_service.py:141-156 | On success, exactly the knowledge base's points are removed and the reply is "Deleted chunks for KB k". On failure the store is unchanged. |
| Rag.SettingsFrom | backend/services/rag_service.py:21-23 | A present `model`, `temperature` or `max_tokens` is used as given. A missing one defaults to `gemini-2.0-flash`, 0.7 or 1000. |
| Rag.ModelSettings | backend/services/rag_service.py:16-27 | A missing or falsy configuration gives the no-config settings. An object gives `SettingsFrom` of its fields. A JSON text that decodes to an object gives `SettingsFrom` of the decoded fields. A text that does not decode, or decodes to something else, is an error, and so is any other truthy value. |
| Rag.TemperatureDefaults | backend/services/rag_service.py:16-27 | The temperature is 0.1 without a configuration (or with an empty one), and 0.7 when a non-empty configuration lacks it. |
| Rag.ResolveSystemPrompt | backend/services/rag_service.py:46 | A non-empty prompt is kept, and a missing or empty one is replaced by the built-in prompt. The result is never empty. |
| Rag.SourceLabelInjective | backend/services/rag_service.py:90 | Two results carry the same `KB_<id>` source exactly when their knowledge bases are the same. |
| Rag.FormatAll | backend/services/rag_service.py:86-100 | One formatted result per hit, in order. |
| Rag.Format | backend/services/rag_service.py:87-97 | Defines one formatted result: the hit's text as content, the `KB_<kb_id>` source, the score, and the chunk id, knowledge-base id, row index and headers as metadata. `SourceLabelInjective` states that the source names the knowledge base. |
| Rag.Sources | backend/services/rag_service.py:176 | The sources, in result order. |
| Rag.RetrievedShape | backend/services/rag_service.py:66-103 | Retrieved results respect the chunk budget and the threshold, best first. Each carries source `KB_<kb_id>`. A failed search, an unusable budget or a non-finite threshold yields `[]`. A `None` threshold filters nothing: a successful search returns `min(limit, #points)` results. |
| Rag.Retrieved | backend/services/rag_service.py:66-103 | Defines the results `search_knowledge_base` may return, with a `None` threshold passed on as no threshold. `RetrievedShape` states their shape. |
| Rag.Dashes | backend/services/rag_service.py:119 | `"-" * n` is `n` dashes. |
| Rag.Block | backend/services/rag_service.py:116-119 | Each result contributes four parts. |
| Rag.ContextPartsLayout | backend/services/rag_service.py:110-119 | Four parts per result. The block of the `i`-th result sits at `4*i` and is numbered `i + 1`. |
| Rag.ContextNonEmptyIffResults | backend/services/rag_service.py:107-121 | The context is non-empty exactly when there are results. It then opens with the header of result 1. |
| Rag.ContextText | backend/services/rag_service.py:105-121 | Defines the numbered context. `ContextPartsLayout` and `ContextNonEmptyIffResults` state its layout. |
| Rag.KbPrompt | backend/services/rag_service.py:127-136 | Defines the knowledge-base template around the context and the question. |
| Rag.PlainPrompt | backend/services/rag_service.py:137-143 | Defines the template without context. |
| Rag.Prompt | backend/services/rag_service.py:127-143 | Defines the choice between the two templates. `KbPromptIffContext` states it. |
| Rag.KbPromptIffContext | backend/services/rag_service.py:127-143 | The knowledge-base template is used exactly when the context is non-empty. |
| Rag.GenerateResponse | backend/services/rag_service.py:123-155 | The model's non-empty text is returned as is. Empty text gives the fixed apology, and a failure gives the error apology. |
| Rag.AnswerFor | backend/services/rag_service.py:157-178 | `search_results_count` is the number of results. Source `i` is result `i`'s source. `context_used` is their context, and `response` is the model's response to the prompt built from that context. |
| Rag.AnswerGroundedIffResults | backend/services/rag_service.py:127-178 | The knowledge-base prompt is used exactly when something was retrieved. |
| Rag.RagService.constructor | backend/services/rag_service.py:11-64 | The settings come from the model configuration's defaulting. The budget and threshold are kept as given, and the system prompt is resolved. |
| Rag.RagService.SearchKnowledgeBase | backend/services/rag_service.py:66-103 | `limit` defaults to `max_chunks`, and the threshold is the instance's (`None` meaning no threshold). The results are a possible retrieval for these. |
| Rag.RagService.FormatHits | backend/services/rag_service.py:86-100 | The loop builds exactly the formatted list. |
| Rag.RagService.GenerateContext | backend/services/rag_service.py:105-121 | The loop builds exactly the context text. |
| Rag.RagService.ChatWithRag | backend/services/rag_service.py:157-178 | The answer is the service's answer for some retrieval made with its own budget and threshold. |
| Rag.RagService.GetSystemPrompt | backend/services/rag_service.py:189-191 | Returns the current system prompt. |
| Rag.RagService.UpdateSystemPrompt | backend/services/rag_service.py:193-196 | Sets the system prompt and leaves every other field unchanged. |
| DialogStore.ApplyPatch | backend/db/database.py:212-239 | Exactly the non-`None` fields change. Id, name and creation time stay. |
| DialogStore.ApplyPatchIdempotent | backend/db/database.py:212-239 | Applying a patch twice equals applying it once. |
| DialogStore.EmptyPatchIsIdentity | backend/db/database.py:228-229 | The empty patch changes nothing. |
| DialogStore.SetColumns | backend/db/database.py:209-226 | A column is in the SET list exactly when its argument is not `None`. The list is empty exactly for the all-`None` call. |
| DialogStore.Role | backend/db/database.py:70 | `'user'` maps to `user`, and every other sender to `assistant`. |
| DialogStore.Entries | backend/db/database.py:70 | One history entry per row, in order. |
| DialogStore.DialogMessages | backend/db/database.py:64-65 | Exactly that dialog's messages. |
| DialogStore.WithoutDialog | backend/db/database.py:100 | The cascade keeps exactly the other dialogs' messages. |
| DialogStore.WithoutDialogOrdered | backend/db/database.py:100 | The cascade keeps ids and timestamps increasing. |
| DialogStore.DialogMessagesChronological | backend/db/database.py:64-66 | Filtering a chronological table keeps it chronological. |
| DialogStore.CascadeOnlyTouchesThatDialog | backend/db/database.py:248-259 | After deletion the dialog has no messages, and every other dialog's history is unchanged. |
| DialogStore.AppendToDialog | backend/db/database.py:134-146 | A new message extends only its own dialog's history. |
| DialogStore.HistoryShape | backend/db/database.py:62-70 | The history holds `min(limit, n)` entries of that dialog, oldest first. It is a prefix of the whole history, so the oldest messages are kept. |
| DialogStore.History | backend/db/database.py:62-70 | Defines the history query. `HistoryShape` and `HistoryStep` state its meaning. |
| DialogStore.HistoryStep | backend/db/database.py:62-70 | One more row extends the history exactly when the row is that dialog's and the limit is not yet reached. |
| DialogStore.HistoryLoopStep | backend/db/database.py:62-70 | The same, one step of the scan. |
| DialogStore.FilesOf | backend/db/database.py:297-302 | Exactly the user's files. |
| DialogStore.Reverse | backend/db/database.py:301 | Reversal. |
| DialogStore.FilesOfChronological | backend/db/database.py:297-302 | Filtering keeps upload order. |
| DialogStore.FilesByUserNewestFirst | backend/db/database.py:294-317 | Exactly the user's files, newest `uploaded_at` first. |
| DialogStore.Database.constructor | backend/db/database.py:74-108 | The tables start empty. |
| DialogStore.Database.CreateDialog | backend/db/database.py:112-132 | A new row with a fresh id and the given columns is inserted, and nothing else changes. |
| DialogStore.Database.AddMessage | backend/db/database.py:134-146 | Exactly one message is appended, with a fresh id and a later timestamp. An unknown dialog fails (foreign key) and changes nothing. |
| DialogStore.Database.GetDialogById | backend/db/database.py:179-202 | The row with that id, whatever the user. |
| DialogStore.Database.UpdateDialogConfig | backend/db/database.py:204-244 | An all-`None` call returns `False` and changes nothing. Otherwise it returns whether the id exists, and exactly that row is patched. `user_id` is unused. A non-storable JSON configuration is a database error. |
| DialogStore.Database.DeleteDialog | backend/db/database.py:248-259 | Returns true iff the row existed. The row is removed and its messages cascade. |
| DialogStore.Database.GetChatHistory | backend/db/database.py:62-70 | The scan returns exactly `History(messages, dialog, limit)`. A negative limit is an error. |
| DialogStore.Database.InsertKbFile | backend/db/database.py:280-292 | Exactly one file row is appended, with a fresh id and a later upload time. |
| DialogStore.Database.GetKbFilesByUser | backend/db/database.py:294-317 | The scan returns the user's files, newest first. |
| DialogRoutes.Truncate | backend/app/dialog.py:117 | `int(float)` truncates toward zero. |
| DialogRoutes.ToInt | backend/app/dialog.py:117 | `int(v)`: ints convert, strings convert iff they parse, and only an infinity overflows. |
| DialogRoutes.ToFloat | backend/app/dialog.py:126 | `float(v)` overflows exactly on an int whose magnitude is at least 2^1024 - 2^970. Floats are kept, and smaller ints give a finite value. Apart from floats and strings, a converted value is finite. |
| DialogRoutes.CorrectedRangeIsInterval | backend/app/dialog.py:127 | The corrected check accepts exactly the finite values in `[lo, hi]`. |
| DialogRoutes.ChecksDifferOnlyOnNaN | backend/app/dialog.py:127 | The written and corrected checks differ on NaN alone. |
| DialogRoutes.OutOfRange | backend/app/dialog.py:127 | Defines `x < lo or x > hi`, both as written (false on NaN) and corrected. `CorrectedRangeIsInterval` and `ChecksDifferOnlyOnNaN` state its meaning. |
| DialogRoutes.MaxChunksStep | backend/app/dialog.py:115-121 | Defines the `max_chunks` check: `int()`, then the 1..30 range. `MaxChunksAcceptedIffInRange` and `InfiniteMaxChunksAsWritten` state its outcomes. |
| DialogRoutes.ThresholdStep | backend/app/dialog.py:124-130 | Defines the `cosine_threshold` check: `float()`, then the `[0, 1]` range. `ThresholdAcceptedIffInUnitInterval`, `NaNThresholdAcceptedAsWritten` and `HugeThresholdAsWritten` state its outcomes. |
| DialogRoutes.ModelConfigStep | backend/app/dialog.py:133-145 | Defines the `model_config` check: decode a text, look for `temperature`, then convert and range-check it. `TemperatureAcceptedIffInUnitInterval` states its outcome. |
| DialogRoutes.PromptColumn | backend/db/database.py:211-213 | What the `system_prompt TEXT` column receives. A text is stored unchanged. An int is stored as its decimal text, which reads back as the same int. An object cannot be stored. |
| DialogRoutes.ValidateConfig | backend/app/dialog.py:105-152 | Defines the handler's checks in order: something given, the dialog exists, then `max_chunks`, `cosine_threshold` and `model_config`. `NothingGivenRefusedFirst`, `UnknownDialogBeforeRangeChecks`, `AcceptedPatchSetsAColumn` and `CorrectedVerdictInRange` state its order and outcomes. |
| DialogRoutes.NothingGivenRefusedFirst | backend/app/dialog.py:105-106 | All four fields absent gives 400, whatever the dialog. |
| DialogRoutes.AcceptedPatchSetsAColumn | backend/app/dialog.py:105-152 | An accepted request names an existing dialog and sets at least one column. |
| DialogRoutes.UnknownDialogBeforeRangeChecks | backend/app/dialog.py:110-121 | An unknown dialog gives 404, even with invalid values. |
| DialogRoutes.MaxChunksAcceptedIffInRange | backend/app/dialog.py:115-121 | A lone `max_chunks` is accepted iff it converts to `n` with `1 <= n <= 30`. It is then stored as `n`. |
| DialogRoutes.ThresholdAcceptedIffInUnitInterval | backend/app/dialog.py:124-130 | A lone `cosine_threshold` is accepted iff it converts to a finite value in `[0, 1]`. |
| DialogRoutes.TemperatureAcceptedIffInUnitInterval | backend/app/dialog.py:133-145 | A model configuration with a numeric temperature is accepted iff that temperature lies in `[0, 1]`. |
| DialogRoutes.NaNThresholdAcceptedAsWritten | backend/app/dialog.py:126-127 | As written, a NaN threshold is accepted. The corrected check refuses it. |
| DialogRoutes.InfiniteMaxChunksAsWritten | backend/app/dialog.py:116-121 | As written, an infinite `max_chunks` gives 500. The corrected check gives 400. |
| DialogRoutes.CorrectedServerErrorOnlyForPrompt | backend/app/dialog.py:114-152 | Under the corrected checks, validation answers 500 only for a system prompt the column cannot hold. Every bad value of `max_chunks`, `cosine_threshold` or `model_config` gives a 4xx. |
| DialogRoutes.HugeThresholdAsWritten | backend/app/dialog.py:124-145 | As written, a threshold or temperature given as an int beyond the double range gives 500. The corrected check gives the 400 range error. |
| DialogRoutes.CorrectedVerdictInRange | backend/app/dialog.py:114-145 | Every accepted patch has `max_chunks` in 1..30 and a finite threshold in `[0, 1]`. |
| DialogRoutes.UpdateDialogConfigEndpoint | backend/app/dialog.py:90-164 | Stated for both the as-written and the corrected range checks. 401 without a session, and 500 for a non-object body. Otherwise that check's verdict decides: an error response and nothing changed, or exactly that row patched and 200. Messages and files never change. |
| DialogRoutes.DialogAnswer | backend/app/dialog.py:50-57 | The service built from the dialog row answers with the row's budget and threshold. |
| DialogRoutes.AnswerAndStore | backend/app/dialog.py:57-84 | After the answer, exactly one bot message with the answer text is appended. The reply carries the answer's count, sources and context, `chunks_used == []` and `used_rag == true`. |
| DialogRoutes.AnswerInDialog | backend/app/dialog.py:46-88 | The user message is stored first. An unusable configuration then gives 500 with only the user message stored. Otherwise the reply is as `AnswerAndStore` states. |
| DialogRoutes.ChatWithKb | backend/app/dialog.py:24-88 | 401, 500 or 400 before anything is stored, and 404 for an unknown dialog. An unreadable model configuration gives 500 after exactly the user message is appended. Otherwise exactly the user message, then the bot message with the answer text, are appended to that dialog. |
| ChatRoutes.HitTexts | backend/app/chat.py:372 | The hits' texts, in order. |
| ChatRoutes.ComposeReply | backend/app/chat.py:370-375 | Defines the reply for a search outcome. `NotFoundIffNoHits`, `ReplyQuotesFirstTwoHits` and `ReplyIgnoresLaterHits` state its meaning. |
| ChatRoutes.NotFoundIffNoHits | backend/app/chat.py:370-375 | The "not found" text is the reply exactly when the search failed or found nothing. |
| ChatRoutes.ReplyQuotesFirstTwoHits | backend/app/chat.py:370-373 | With hits, the reply is the prefix, then the first hit or the first two hits joined by a newline, then the suffix. |
| ChatRoutes.ReplyIgnoresLaterHits | backend/app/chat.py:372 | Hits after the second never change the reply. |
| ChatRoutes.QuotedHitsQualify | backend/app/chat.py:368-373 | A quoting reply comes from a successful search with one to three hits, each scoring at least 0.5. |
| ChatRoutes.FailedSearchNotFound | backend/app/chat.py:374-375 | A failed search always gives the "not found" text. |
| ChatRoutes.SearchReply | backend/app/chat.py:367-375 | The reply is the template applied to a search with `top_k = 3` and threshold 0.5. |
| ChatRoutes.SearchAndStore | backend/app/chat.py:367-378 | The reply is built from the search, and exactly one bot message with that reply is appended. |
| ChatRoutes.ReplyInDialog | backend/app/chat.py:363-392 | The user message, then the bot message, are appended. |
| ChatRoutes.SendMessage | backend/app/chat.py:344-396 | 401, 500 or 400 before anything is stored, and 404 for an unknown dialog. Otherwise the user message, then the bot reply, are appended. |
| MedicalQa.SelectChain | CoT.py:168-176 | A chain is chosen exactly when the normalised category is a key of the map. |
| MedicalQa.CategoryKey | CoT.py:176 | Defines `category.strip().lower()`. `SelectChainNormalises` states that surrounding white space and case do not matter. |
| MedicalQa.ChainMapsAgree | CoT.py:159-175 | The analysis and recommendation maps have the same five keys and agree on every key. |
| MedicalQa.CombineChains | CoT.py:178-209 | The first call is the classification. The returned category is the raw classifier output. |
| MedicalQa.UnknownCategoryShortCircuits | CoT.py:185-193 | An unknown category makes one call and returns the two sentinel texts. |
| MedicalQa.KnownCategoryThreeCalls | CoT.py:182-201 | A known category makes exactly three calls, in order: classify, analyse, then recommend with the analysis. |
| MedicalQa.NoSpecificRecommendationUnreachable | CoT.py:196-203 | Every run makes one call or three, so the "no specific recommendation" branch is dead. |
| MedicalQa.SelectChainNormalises | CoT.py:176 | White space around the label and letter case do not matter. |
| LexicalMatch.FillMissing | CoT_ver2.py:15 | A missing question cell reads as `""`. |
| LexicalMatch.TokenizedCorpus | CoT_ver2.py:16 | One token list per corpus row. |
| LexicalMatch.FirstArgMax | CoT_ver2.py:24 | `argmax` is the first index of a greatest score. |
| LexicalMatch.FindBestMatch | CoT_ver2.py:21-25 | An empty corpus is an error. The result is `""` or a reasoning. It is `""` unless some score exceeds 0.5, and otherwise the reasoning at the first best index. |
| LexicalMatch.Scores | CoT_ver2.py:23 | One score per corpus row: score `i` is BM25 of the query against row `i`. |
| LexicalMatch.AsWrittenNeverAnswers | CoT_ver2.py:65-67 | As written, the chain always ends in an error and never sends the final prompt. |
| LexicalMatch.ChainOfThoughtAsWritten | CoT_ver2.py:48-68 | Defines the chain as written. `AsWrittenNeverAnswers` states that it never answers. |
| LexicalMatch.ChainOfThought | CoT_ver2.py:48-68 | Defines the chain with the final stage built from its prompt. `StageOrder` states its stages and result. |
| LexicalMatch.StageOrder | CoT_ver2.py:48-68 | Corrected: translate to English, match on the English text, translate the match to Vietnamese, then answer with it as context and the original query as input. The chain returns these four values. |
| LexicalMatch.MissingQuestionScoredAsEmpty | CoT_ver2.py:15-16 | A missing question is tokenised as `""`. |
| LegacyChat.RetrieveRelevantChunks | main.py:40-53 | The payload texts of the query's hits, in order, queried with threshold 0.5. |
| LegacyChat.RetrieverContext | main.py:55-59 | The top-3 texts joined by blank lines. The context is empty without hits and opens with the best hit's text. |
| LegacyChat.Retriever | main.py:55-59 | Defines the retriever's context text. `RetrieverContext` states its meaning. |
| LegacyChat.AccumulateWithoutReset | main.py:183-188 | Without other chunks, the answer is the model chunks' texts concatenated in order. |
| LegacyChat.ResetForgetsPrefix | main.py:187-188 | A non-model chunk forgets everything before it. |
| LegacyChat.AfterLastReset | main.py:183-188 | The answer is the reset text followed by the model text after the last reset. |
| LegacyChat.ResetThenAi | main.py:185-188 | Model chunks after a reset are appended to the reset text. |
| LegacyChat.CollectStream | main.py:183-188 | The stream loop computes exactly `Accumulate(stream)`. |
| LegacyChat.Accumulate | main.py:183-188 | Defines the answer accumulated from a stream. `AccumulateWithoutReset`, `ResetForgetsPrefix` and `AfterLastReset` state its meaning. |
| LegacyChat.LegacyChat.constructor | main.py:18-24 | No key and no client, empty patient information, flag off. A script start appends the greeting. |
| LegacyChat.LegacyChat.GetGeminiApiKey | main.py:197-213 | A body with `apiKey` installs a `gemini-1.5-pro` client with that key. A body without it gives 400 and changes nothing. The conversation is never touched. |
| LegacyChat.LegacyChat.GetResponse | main.py:167-190 | Without a client, 400 and nothing changes. Otherwise the first message becomes the patient information and is never overwritten. The query and then the accumulated answer are appended: exactly two messages. |
| LegacyChat.PatientInfoIsFirstHumanMessage | main.py:175-178 | Once captured, the patient information stays the first human message whatever is appended. |
| Evaluation.DefaultConfigPassing | backend/app/eval.py:33-60 | The default configuration has no `model_config`, so the service uses the no-config settings (temperature 0.1), the built-in prompt, 8 chunks and threshold 0.5. |
| Evaluation.GetAssistantResponse | backend/app/eval.py:110-122 | The answer is the response of a service with those defaults. |
| Evaluation.NormalizedRecord | backend/app/eval.py:67-75 | The input keys plus the five metric keys. `retrieved_contexts == []`, `response = answer or ""`, `ground_truth == reference == expected_answer or ""` and `user_input = question or ""`. Other keys are kept. |
| Evaluation.NormalizedItemRecord | backend/app/eval.py:142-149 | An answered item's record carries its question, answer and expected answer under both sets of names. |
| Evaluation.NormalizedItemKeyCount | backend/app/eval.py:142-149 | Such a record has exactly eight keys. |
| Evaluation.NormalizedAll | backend/app/eval.py:63-80 | One record per item, in order: length and order preserved. |
| Evaluation.NormalizeData | backend/app/eval.py:63-77 | The loop builds exactly `NormalizedAll(input)`. |
| Evaluation.WithScores | backend/app/eval.py:165-168 | `min(#items, #scores)` records, each with its score added. |
| Evaluation.StrippedField | backend/app/eval.py:139-141 | `get(key).strip()` succeeds iff the key holds text, and is then the stripped text. |
| Evaluation.DictOf | backend/app/eval.py:139 | Defines `dict(item)`: an object gives its fields, and an empty text or list gives no fields. Any other value is refused. |
| Evaluation.RecordItem | backend/app/eval.py:139-148 | A readable item gives one record of its stripped question and expected answer with the default-config answer. An unreadable one is an error. |
| Evaluation.EachRecordedSnoc | backend/app/eval.py:138-148 | A record for the next item extends the recorded prefix. |
| Evaluation.AllRecordedValid | backend/app/eval.py:138-148 | Every recorded item is readable. |
| Evaluation.AnswerItems | backend/app/eval.py:138-148 | Succeeds iff every item is readable, and then gives exactly one record per item, in input order. |
| Evaluation.EvaluateData | backend/app/eval.py:125-172 | 401 without a session and 400 for a falsy body. 500 for a non-list body or an unreadable item. Otherwise one answer per item, normalised, scored and zipped. |

## Left out

- **Outside the process.** Postgres, MinIO, Qdrant, Gemini, langchain and langgraph, and the ragas metrics are parameters or abstract stores. So are the SentenceTransformer embedding, BM25 scores, jieba tokenisation and pandas parsing. The parsed table is given as headers plus rows.
- **Clock.** Time is a logical clock inside `DialogStore.Database`, so timestamps strictly increase and `ORDER BY timestamp` is insertion order. Equal wall-clock timestamps are not modelled.
- **Search order.** The vector store's search is modelled as "qualifying points, best score first, top `k`", which is what the client library returns. The tie order between equal scores is left open.
- **Bulk delete.** `VectorIndex.VectorStore.DeleteKbChunks` states the intended "remove every point of this knowledge base". The effect of the string selector `"kb_id:{kb_id}"` depends on the client library and is not modelled.
- **Secured file names.** `secure_filename` is a parameter, and the file bytes are reduced to their size.
- **Prompt wording.** The prompt wording of the category chains is not modelled; prompts record which template and which values they carry. The sentinel texts and the RAG prompt heads are modelled verbatim.
- **Character handling.** `Common.Lower` lower-cases ASCII, Latin-1 and the Vietnamese letters only, not all of Unicode. `Common.ParseInt` reads ASCII decimal integers with surrounding white space. It does not read `_` digit separators or the non-ASCII Unicode decimal digits that Python's `int()` also accepts.
- **Score formatting.** `{score:.2f}` is a parameter.
- **Conversation memory.** `trim_messages` and the langgraph memory in main.py are folded into the graph parameter, which sees the whole conversation.
- **Unused global.** `LegacyChat.LegacyChat.GetGeminiApiKey` does not record that the `GEMINI_API_KEY` global is set before the client is built. The client construction cannot fail in the model.
- **Request bodies.**
  - A body that `request.get_json()` cannot parse is not modelled. A body that parses to a non-object is the 500 of an attribute error.
  - `Evaluation.DictOf` refuses a non-empty list, although `dict()` also accepts a list of key/value pairs.
- **Chat reply.** `Rag.RagService.ChatWithRag` does not model the exception fallback of `chat_with_rag`: every step it calls already catches its own exceptions, so the fallback is unreachable.
- **Database errors.** A system prompt that is an object, and a model configuration containing NaN or infinity, become the database error. Other database exceptions (connection loss) are not modelled.
- PromptColumn: a system prompt given as a float or a list is modelled as the database error. PostgreSQL would store its text rendering instead; that rendering is not modelled.
- ToFloat: an int inside the double range converts to its exact value rather than to the nearest double. The checks against 0 and 1 give the same verdict either way, because that rounding is monotone and keeps 0 and 1.
- **Lexical corpus.**
  - An empty corpus already fails in CoT_ver2.py when the BM25 index is built at import. `LexicalMatch.FindBestMatch` reports it as an error at the lookup instead.
  - Only the question column is filled with `""`. A missing reasoning cell would reach the chain as NaN; the model's reasonings are always texts.
- LegacyChat.LegacyChat.GetResponse: a `message` that is not a string answers 500. A list `message` would in fact be accepted as human-message content; list content is not modelled.
- **Missing imports.** backend/app/chat.py imports functions that backend/db/database.py no longer defines. The model follows `send_message` as if its imports resolved.
- **Other entry points.** The conversation/dialog CRUD, login and registration in backend/app/chat.py, `get_dialogs_by_user`, `delete_kb` and `get_chunk_vector`'s HTTP wrapper are not part of this model.

## Findings

| source | as written | input that shows it | evidently intended | confidence | as-written member | corrected member |
|---|---|---|---|---|---|---|
| backend/app/dialog.py:126-127 | `cosine_threshold < 0.0 or cosine_threshold > 1.0` is false for NaN, so NaN passes the range check and is stored | `{"cosine_threshold": "nan"}` (or a NaN float) | only finite values in `[0, 1]` are accepted; the same holds for `temperature` at line 142 | high; not executed | DialogRoutes.NaNThresholdAcceptedAsWritten | DialogRoutes.ThresholdAcceptedIffInUnitInterval |
| backend/app/dialog.py:116-121 | `int(float('inf'))` raises OverflowError, which the `except (ValueError, TypeError)` does not catch, so the request ends in the generic 500 | `{"max_chunks": Infinity}` | 400 "max_chunks must be a valid integer" | high; not executed | DialogRoutes.InfiniteMaxChunksAsWritten | DialogRoutes.MaxChunksAcceptedIffInRange |
| backend/app/dialog.py:124-145 | `float()` of an int beyond the double range raises OverflowError, which the inner `except` clauses do not catch, so the request ends in the generic 500 | `{"cosine_threshold": <a 309-digit integer>}`, or such a `temperature` in `model_config` | the 400 range error | high; not executed | DialogRoutes.HugeThresholdAsWritten | DialogRoutes.CorrectedServerErrorOnlyForPrompt |
| CoT_ver2.py:65 | `LLMChain(llm=llm, prompt_template=prompt, ...)` omits the required `prompt` field, so construction raises after the two translation calls and no answer is ever produced | any query on a non-empty corpus | the final chain built with `prompt=prompt`, answering with the Vietnamese context | high; not executed | LexicalMatch.AsWrittenNeverAnswers | LexicalMatch.StageOrder |
