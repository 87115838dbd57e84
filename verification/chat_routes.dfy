/** `send_message` of backend/app/chat.py: the older dialog chat endpoint,
    which stores the user's message, searches the vector store directly
    and answers with a fixed template around the texts of the first two
    hits. */
module ChatRoutes {
  import opened Common
  import opened Requests
  import opened DialogStore
  import opened VectorIndex

  const SearchTopK: nat := 3
  const SearchThreshold: real := 0.5

  /** The first words of the two replies, which tell them apart. */
  const FoundHead := "Dựa trên"
  const NotFoundHead := "Tôi không"

  const ReplyPrefix := FoundHead + " knowledge base của bạn, tôi tìm thấy thông tin liên quan:\n\n"
  const ReplySuffix := "\n\nBạn có cần thêm thông tin gì không?"
  const NotFoundReply := NotFoundHead + " tìm thấy thông tin liên quan trong knowledge base. Bạn có thể thử câu hỏi khác hoặc upload thêm tài liệu vào knowledge base."

  /** The texts of the hits, in order. */
  function HitTexts(hits: seq<Hit>): (texts: seq<string>)
    ensures |texts| == |hits|
    ensures forall i :: 0 <= i < |hits| ==> texts[i] == hits[i].text
  {
    seq(|hits|, i requires 0 <= i < |hits| => hits[i].text)
  }

  /** The bot's reply for a search outcome. */
  function ComposeReply(search: Result<seq<Hit>>): string {
    if search.Ok? && |search.value| > 0 then ReplyPrefix + Join("\n", HitTexts(Take(search.value, 2))) + ReplySuffix
    else NotFoundReply
  }

  /** The fixed "not found" text is the reply exactly when the search
      failed or found nothing. */
  lemma NotFoundIffNoHits(search: Result<seq<Hit>>)
    ensures ComposeReply(search) == NotFoundReply <==> search.Err? || search.value == []
  {
    if search.Ok? && |search.value| > 0 {
      var r := ComposeReply(search);
      assert FoundHead <= r;
      assert NotFoundHead <= NotFoundReply;
      assert FoundHead[0] != NotFoundHead[0];
    }
  }

  /** With hits, the reply quotes the first hit alone, or the first two
      hits one per line; later hits never appear. */
  lemma ReplyQuotesFirstTwoHits(hits: seq<Hit>)
    requires |hits| > 0
    ensures |hits| == 1 ==> ComposeReply(Ok(hits)) == ReplyPrefix + hits[0].text + ReplySuffix
    ensures |hits| >= 2 ==> ComposeReply(Ok(hits)) == ReplyPrefix + hits[0].text + "\n" + hits[1].text + ReplySuffix
  {
    var texts := HitTexts(Take(hits, 2));
    if |hits| == 1 {
      assert texts == [hits[0].text];
    } else {
      assert texts == [hits[0].text, hits[1].text];
      assert texts[1..] == [hits[1].text];
      assert Join("\n", texts) == hits[0].text + "\n" + hits[1].text;
    }
  }

  /** Two searches that agree on their first two hits give the same reply. */
  lemma ReplyIgnoresLaterHits(a: seq<Hit>, b: seq<Hit>)
    requires |a| > 0 && |b| > 0
    requires Take(a, 2) == Take(b, 2)
    ensures ComposeReply(Ok(a)) == ComposeReply(Ok(b))
  {
  }

  /** What `search_chunks` reports for this query: the error when the
      client fails, otherwise the ranked hits. */
  ghost predicate SearchOutcome(points: map<int, Point>, query: string, embed: string -> Vector,
                                sim: (Vector, Vector) -> real, failure: Option<string>,
                                search: Result<seq<Hit>>) {
    (failure.Some? ==> search == Err(failure.value)) &&
    (failure.None? ==> search.Ok? && SearchAnswer(points, embed(query), sim, Some(SearchThreshold), SearchTopK, search.value))
  }

  /** The reply is the template applied to the outcome of the search the
      handler makes. */
  ghost predicate RepliedFromSearch(points: map<int, Point>, query: string, embed: string -> Vector,
                                    sim: (Vector, Vector) -> real, failure: Option<string>, reply: string) {
    exists search :: SearchOutcome(points, query, embed, sim, failure, search) && reply == ComposeReply(search)
  }

  /** A reply other than the "not found" text comes from a successful
      search with one to three hits, each scoring at least 0.5. */
  lemma QuotedHitsQualify(points: map<int, Point>, query: string, embed: string -> Vector,
                          sim: (Vector, Vector) -> real, failure: Option<string>, search: Result<seq<Hit>>)
    requires SearchOutcome(points, query, embed, sim, failure, search)
    requires ComposeReply(search) != NotFoundReply
    ensures failure.None? && search.Ok?
    ensures 1 <= |search.value| <= SearchTopK
    ensures forall i :: 0 <= i < |search.value| ==> search.value[i].score >= SearchThreshold
  {
    NotFoundIffNoHits(search);
    SearchAnswerShape(points, embed(query), sim, Some(SearchThreshold), SearchTopK, search.value);
  }

  /** A failed search always gives the "not found" text. */
  lemma FailedSearchNotFound(points: map<int, Point>, query: string, embed: string -> Vector,
                             sim: (Vector, Vector) -> real, failure: Option<string>, reply: string)
    requires RepliedFromSearch(points, query, embed, sim, failure, reply)
    requires failure.Some?
    ensures reply == NotFoundReply
  {
    var search: Result<seq<Hit>> :| SearchOutcome(points, query, embed, sim, failure, search) && reply == ComposeReply(search);
  }

  /** The search and the reply of `send_message`. */
  method SearchReply(store: VectorStore, query: string, userId: int, embed: string -> Vector,
                     sim: (Vector, Vector) -> real, failure: Option<string>)
    returns (reply: string)
    ensures RepliedFromSearch(store.points, query, embed, sim, failure, reply)
  {
    var search := store.SearchChunks(query, userId, SearchTopK, Some(SearchThreshold), embed, sim, failure);
    reply := ComposeReply(search);
    assert SearchOutcome(store.points, query, embed, sim, failure, search);
  }

  /** The response of `send_message`. */
  datatype SendReply =
    | SendFailed(status: int, error: string)
    | Sent(userMessage: Receipt, content: string, botMessage: Receipt, botContent: string)

  /** The search for a reply to the user's message, and the reply stored
      as the dialog's next message. */
  method SearchAndStore(db: Database, store: VectorStore, dialogId: int, text: string, userId: int,
                        embed: string -> Vector, sim: (Vector, Vector) -> real, failure: Option<string>)
    returns (botText: string, botMsg: Receipt)
    requires db.Valid() && dialogId in db.dialogs
    modifies db
    ensures db.Valid()
    ensures db.dialogs == old(db.dialogs) && db.files == old(db.files)
    ensures RepliedFromSearch(store.points, text, embed, sim, failure, botText)
    ensures db.messages == old(db.messages) + [Message(botMsg.id, dialogId, "bot", botText, botMsg.timestamp)]
  {
    botText := SearchReply(store, text, userId, embed, sim, failure);
    var stored := db.AddMessage(dialogId, "bot", botText);
    botMsg := stored.value;
  }

  /** The part of `send_message` after the dialog is found: the user's
      message, then the reply, are stored. */
  method ReplyInDialog(db: Database, store: VectorStore, dialogId: int, text: string, userId: int,
                       embed: string -> Vector, sim: (Vector, Vector) -> real, failure: Option<string>)
    returns (reply: SendReply)
    requires db.Valid() && dialogId in db.dialogs
    modifies db
    ensures db.Valid()
    ensures db.dialogs == old(db.dialogs) && db.files == old(db.files)
    ensures reply.Sent? && reply.content == text &&
            RepliedFromSearch(store.points, text, embed, sim, failure, reply.botContent) &&
            db.messages == old(db.messages) +
              [Message(reply.userMessage.id, dialogId, "user", text, reply.userMessage.timestamp)] +
              [Message(reply.botMessage.id, dialogId, "bot", reply.botContent, reply.botMessage.timestamp)]
  {
    var userMsg := db.AddMessage(dialogId, "user", text);
    var botText, botMsg := SearchAndStore(db, store, dialogId, text, userId, embed, sim, failure);
    reply := Sent(userMsg.value, text, botMsg, botText);
  }

  /** `send_message`: a blank message or an unknown dialog is refused and
      nothing is stored; otherwise the user's message is stored, then the
      reply built from the search is stored as the bot's message. */
  method SendMessage(db: Database, store: VectorStore, sessionUser: Option<int>, dialogId: int, body: Json,
                     embed: string -> Vector, sim: (Vector, Vector) -> real, failure: Option<string>)
    returns (reply: SendReply)
    requires db.Valid()
    modifies db
    ensures db.Valid()
    ensures db.dialogs == old(db.dialogs) && db.files == old(db.files)
    ensures sessionUser.None? ==> reply == SendFailed(401, "Authentication required") && db.messages == old(db.messages)
    ensures sessionUser.Some? && MessageOf(body).None? ==>
              (reply.SendFailed? && reply.status == 500 && db.messages == old(db.messages))
    ensures sessionUser.Some? && MessageOf(body) == Some("") ==>
              reply == SendFailed(400, "Message is required") && db.messages == old(db.messages)
    ensures sessionUser.Some? && MessageOf(body).Some? && MessageOf(body).value != "" && dialogId !in old(db.dialogs) ==>
              reply == SendFailed(404, "Dialog not found") && db.messages == old(db.messages)
    ensures sessionUser.Some? && MessageOf(body).Some? && MessageOf(body).value != "" && dialogId in old(db.dialogs) ==>
              reply.Sent? && reply.content == MessageOf(body).value &&
              RepliedFromSearch(store.points, reply.content, embed, sim, failure, reply.botContent) &&
              db.messages == old(db.messages) +
                [Message(reply.userMessage.id, dialogId, "user", reply.content, reply.userMessage.timestamp)] +
                [Message(reply.botMessage.id, dialogId, "bot", reply.botContent, reply.botMessage.timestamp)]
  {
    var auth := RequireAuth(sessionUser);
    if auth.Err? {
      return SendFailed(401, "Authentication required");
    }
    var message := MessageOf(body);
    if message.None? {
      return SendFailed(500, "Internal Server Error");
    }
    var text := message.value;
    if text == "" {
      return SendFailed(400, "Message is required");
    }
    var dialog := db.GetDialogById(dialogId, auth.value);
    if dialog.None? {
      return SendFailed(404, "Dialog not found");
    }
    reply := ReplyInDialog(db, store, dialogId, text, auth.value, embed, sim, failure);
  }
}
