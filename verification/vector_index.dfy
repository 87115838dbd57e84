/** The vector store service of backend/services/qdrant_service.py: every
    chunk becomes one point keyed by `kb_id * 10000 + chunk_id`, carrying its
    embedding and a payload copy of the chunk; search ranks points by
    similarity, drops those under the threshold (if one is given) and keeps
    the best `top_k`;
    lookup and bulk deletion act on the same keyed store. The embedding
    model and the similarity measure are parameters. */
module VectorIndex {
  import opened Common
  import opened Chunking

  type Vector = seq<real>

  /** The multiplier of the knowledge-base id in a point key. */
  const KeyStride := 10000

  function PointKey(kbId: int, chunkId: int): int {
    kbId * KeyStride + chunkId
  }

  /** Keys are distinct for distinct `(kb_id, chunk_id)` pairs as long as
      chunk ids stay below 10000. */
  lemma PointKeyInjective(kb1: int, c1: int, kb2: int, c2: int)
    requires 0 <= c1 < KeyStride && 0 <= c2 < KeyStride
    ensures PointKey(kb1, c1) == PointKey(kb2, c2) <==> kb1 == kb2 && c1 == c2
  {
  }

  /** Within one knowledge base, distinct chunk ids always give distinct keys. */
  lemma PointKeyInjectiveWithinKb(kb: int, c1: int, c2: int)
    ensures PointKey(kb, c1) == PointKey(kb, c2) <==> c1 == c2
  {
  }

  /** Nothing stops a chunk id from reaching 10000: chunk 10000 of knowledge
      base 0 gets the key of chunk 0 of knowledge base 1. */
  lemma PointKeyCollision()
    ensures PointKey(0, KeyStride) == PointKey(1, 0)
  {
  }

  /** The point payload: a copy of the chunk plus its owner. */
  datatype Payload = Payload(chunkId: int, kbId: int, userId: int, text: string,
                             rowIndex: int, headers: seq<string>)

  datatype Point = Point(id: int, vector: Vector, payload: Payload)

  /** One search result as `search_chunks` formats it. */
  datatype Hit = Hit(chunkId: int, kbId: int, text: string, rowIndex: int,
                     headers: seq<string>, score: real)

  /** What `get_chunk_vector` returns on success: the vector and the metadata. */
  datatype VectorData = VectorData(vector: Vector, metadata: Payload)

  /** The point built for one chunk of knowledge base `kbId`. */
  function PointOf(c: Chunk, kbId: int, userId: int, embed: string -> Vector): Point {
    Point(PointKey(kbId, c.id), embed(c.text),
          Payload(c.id, kbId, userId, c.text, c.rowIndex, c.headers))
  }

  function PointsOf(chunks: seq<Chunk>, kbId: int, userId: int, embed: string -> Vector): (ps: seq<Point>)
    ensures |ps| == |chunks|
    ensures forall i :: 0 <= i < |chunks| ==> ps[i] == PointOf(chunks[i], kbId, userId, embed)
  {
    seq(|chunks|, i requires 0 <= i < |chunks| => PointOf(chunks[i], kbId, userId, embed))
  }

  /** Upserting a batch: each point replaces whatever had its key. */
  function UpsertAll(m: map<int, Point>, ps: seq<Point>): map<int, Point>
    decreases |ps|
  {
    if ps == [] then m else UpsertAll(m[ps[0].id := ps[0]], ps[1..])
  }

  predicate HasId(ps: seq<Point>, k: int) {
    exists i :: 0 <= i < |ps| && ps[i].id == k
  }

  /** After an upsert the keys are the old ones plus the batch's; a key the
      batch does not name keeps its point; a key the batch names holds the
      batch's last point with that key. */
  lemma {:induction false} UpsertAllSpec(m: map<int, Point>, ps: seq<Point>, k: int)
    ensures k in UpsertAll(m, ps) <==> k in m || HasId(ps, k)
    ensures !HasId(ps, k) && k in m ==> UpsertAll(m, ps)[k] == m[k]
    ensures forall i :: 0 <= i < |ps| && ps[i].id == k && (forall j :: i < j < |ps| ==> ps[j].id != k) ==>
              k in UpsertAll(m, ps) && UpsertAll(m, ps)[k] == ps[i]
    decreases |ps|
  {
    if ps != [] {
      var m' := m[ps[0].id := ps[0]];
      UpsertAllSpec(m', ps[1..], k);
      if HasId(ps[1..], k) {
        var i :| 0 <= i < |ps[1..]| && ps[1..][i].id == k;
        assert ps[i + 1].id == k;
      }
      if HasId(ps, k) && ps[0].id != k {
        var i :| 0 <= i < |ps| && ps[i].id == k;
        assert ps[1..][i - 1].id == k;
      }
      forall i | 0 <= i < |ps| && ps[i].id == k && (forall j :: i < j < |ps| ==> ps[j].id != k)
        ensures k in UpsertAll(m, ps) && UpsertAll(m, ps)[k] == ps[i]
      {
        if i > 0 {
          assert ps[1..][i - 1] == ps[i];
          assert forall j :: i - 1 < j < |ps[1..]| ==> ps[1..][j].id != k by {
            forall j | i - 1 < j < |ps[1..]| ensures ps[1..][j].id != k { assert ps[1..][j] == ps[j + 1]; }
          }
        } else {
          assert !HasId(ps[1..], k) by {
            forall j | 0 <= j < |ps[1..]| ensures ps[1..][j].id != k { assert ps[1..][j] == ps[j + 1]; }
          }
        }
      }
    }
  }

  /** Re-indexing the same batch changes nothing: upsert overwrites in
      place and never duplicates. */
  lemma UpsertAllIdempotent(m: map<int, Point>, ps: seq<Point>)
    ensures UpsertAll(UpsertAll(m, ps), ps) == UpsertAll(m, ps)
  {
    var once := UpsertAll(m, ps);
    var twice := UpsertAll(once, ps);
    forall k ensures (k in twice <==> k in once) && (k in once ==> twice[k] == once[k]) {
      UpsertAllSpec(m, ps, k);
      UpsertAllSpec(once, ps, k);
      if HasId(ps, k) {
        var i := LastWithId(ps, k);
      }
    }
  }

  /** The last position of a key the batch names. */
  lemma LastWithId(ps: seq<Point>, k: int) returns (i: int)
    requires HasId(ps, k)
    ensures 0 <= i < |ps| && ps[i].id == k && forall j :: i < j < |ps| ==> ps[j].id != k
  {
    var n :| 0 <= n < |ps| && ps[n].id == k;
    i := n;
    var j := n + 1;
    while j < |ps|
      invariant n <= i < j <= |ps| && ps[i].id == k
      invariant forall l :: i < l < j ==> ps[l].id != k
    {
      if ps[j].id == k { i := j; }
      j := j + 1;
    }
  }

  /** A store is well keyed when each point sits under the key of its own
      `(kb_id, chunk_id)` and chunk ids are in the supported band. */
  ghost predicate WellKeyed(m: map<int, Point>) {
    forall k :: k in m ==>
      m[k].id == k && 0 <= m[k].payload.chunkId < KeyStride &&
      k == PointKey(m[k].payload.kbId, m[k].payload.chunkId)
  }

  predicate DistinctIds(chunks: seq<Chunk>) {
    forall i, j :: 0 <= i < j < |chunks| ==> chunks[i].id != chunks[j].id
  }

  /** After indexing a batch with distinct chunk ids, the point under each
      chunk's key is that chunk's point. */
  lemma IndexedChunkStored(m: map<int, Point>, chunks: seq<Chunk>, kbId: int, userId: int,
                           embed: string -> Vector, i: int)
    requires DistinctIds(chunks) && 0 <= i < |chunks|
    ensures var k := PointKey(kbId, chunks[i].id);
            k in UpsertAll(m, PointsOf(chunks, kbId, userId, embed)) &&
            UpsertAll(m, PointsOf(chunks, kbId, userId, embed))[k] == PointOf(chunks[i], kbId, userId, embed)
  {
    var ps := PointsOf(chunks, kbId, userId, embed);
    var k := PointKey(kbId, chunks[i].id);
    forall j | i < j < |ps| ensures ps[j].id != k {
      PointKeyInjectiveWithinKb(kbId, chunks[i].id, chunks[j].id);
    }
    UpsertAllSpec(m, ps, k);
  }

  /** Indexing a well-keyed store with in-band chunk ids keeps it well keyed. */
  lemma UpsertKeepsWellKeyed(m: map<int, Point>, chunks: seq<Chunk>, kbId: int, userId: int,
                             embed: string -> Vector)
    requires WellKeyed(m)
    requires forall i :: 0 <= i < |chunks| ==> 0 <= chunks[i].id < KeyStride
    ensures WellKeyed(UpsertAll(m, PointsOf(chunks, kbId, userId, embed)))
  {
    var ps := PointsOf(chunks, kbId, userId, embed);
    var m' := UpsertAll(m, ps);
    forall k | k in m'
      ensures m'[k].id == k && 0 <= m'[k].payload.chunkId < KeyStride &&
              k == PointKey(m'[k].payload.kbId, m'[k].payload.chunkId)
    {
      UpsertAllSpec(m, ps, k);
      if HasId(ps, k) {
        var i := LastWithId(ps, k);
      }
    }
  }

  /** The points of other knowledge bases, as bulk deletion leaves them. */
  function RemoveKb(m: map<int, Point>, kbId: int): (r: map<int, Point>)
    ensures forall k :: k in r <==> k in m && m[k].payload.kbId != kbId
    ensures forall k :: k in r ==> r[k] == m[k]
  {
    map k | k in m && m[k].payload.kbId != kbId :: m[k]
  }

  /** Indexing a knowledge base and then deleting it restores every other
      knowledge base's points, provided the store is well keyed and chunk
      ids stay in the band (otherwise indexing may overwrite another base's
      point, which the deletion then loses). */
  lemma DeleteUndoesIndex(m: map<int, Point>, chunks: seq<Chunk>, kbId: int, userId: int,
                          embed: string -> Vector)
    requires WellKeyed(m)
    requires forall i :: 0 <= i < |chunks| ==> 0 <= chunks[i].id < KeyStride
    ensures RemoveKb(UpsertAll(m, PointsOf(chunks, kbId, userId, embed)), kbId) == RemoveKb(m, kbId)
  {
    var ps := PointsOf(chunks, kbId, userId, embed);
    var m' := UpsertAll(m, ps);
    forall k
      ensures (k in RemoveKb(m', kbId) <==> k in RemoveKb(m, kbId)) &&
              (k in RemoveKb(m, kbId) ==> RemoveKb(m', kbId)[k] == RemoveKb(m, kbId)[k])
    {
      UpsertAllSpec(m, ps, k);
      if HasId(ps, k) {
        var i := LastWithId(ps, k);
        if k in m {
          PointKeyInjective(kbId, chunks[i].id, m[k].payload.kbId, m[k].payload.chunkId);
        }
      }
    }
  }

  /** What `get_chunk_vector(kb_id, chunk_id)` gives for a store. */
  function Retrieve(m: map<int, Point>, kbId: int, chunkId: int): (r: Result<VectorData>)
    ensures r.Ok? <==> PointKey(kbId, chunkId) in m
    ensures r.Ok? ==> r.value == VectorData(m[PointKey(kbId, chunkId)].vector, m[PointKey(kbId, chunkId)].payload)
    ensures r.Err? ==> r.error == "Chunk " + IntToString(chunkId) + " not found in KB " + IntToString(kbId)
  {
    var key := PointKey(kbId, chunkId);
    if key in m then Ok(VectorData(m[key].vector, m[key].payload))
    else Err("Chunk " + IntToString(chunkId) + " not found in KB " + IntToString(kbId))
  }

  /** Storing a chunk and fetching it by `(kb_id, chunk.id)` gives back the
      chunk's embedding and fields. */
  lemma StoreThenRetrieve(m: map<int, Point>, chunks: seq<Chunk>, kbId: int, userId: int,
                          embed: string -> Vector, i: int)
    requires DistinctIds(chunks) && 0 <= i < |chunks|
    ensures var c := chunks[i];
            Retrieve(UpsertAll(m, PointsOf(chunks, kbId, userId, embed)), kbId, c.id) ==
            Ok(VectorData(embed(c.text), Payload(c.id, kbId, userId, c.text, c.rowIndex, c.headers)))
  {
    IndexedChunkStored(m, chunks, kbId, userId, embed, i);
  }

  // ---------------------------------------------------------------------
  // Search

  /** The keys whose similarity to `q` reaches the threshold. */
  ghost function Qualifying(m: map<int, Point>, q: Vector, sim: (Vector, Vector) -> real, t: Option<real>): set<int> {
    set k | k in m && (t.None? || sim(q, m[k].vector) >= t.value)
  }

  /** `keys` is a correct answer of the client's search: the best
      `min(top_k, #qualifying)` qualifying points, each once, by score
      descending. */
  ghost predicate RankedTopK(m: map<int, Point>, q: Vector, sim: (Vector, Vector) -> real,
                             t: Option<real>, k: nat, keys: seq<int>) {
    && |keys| == Min(k, |Qualifying(m, q, sim, t)|)
    && (forall i :: 0 <= i < |keys| ==> keys[i] in Qualifying(m, q, sim, t))
    && (forall i, j :: 0 <= i < j < |keys| ==> keys[i] != keys[j])
    && (forall i, j :: 0 <= i < j < |keys| ==> sim(q, m[keys[i]].vector) >= sim(q, m[keys[j]].vector))
    && (forall x, i :: x in Qualifying(m, q, sim, t) && x !in keys && 0 <= i < |keys| ==>
          sim(q, m[x].vector) <= sim(q, m[keys[i]].vector))
  }

  lemma SubsetCard(a: set<int>, b: set<int>)
    requires a <= b
    ensures |a| <= |b|
  {
    if x :| x in a {
      SubsetCard(a - {x}, b - {x});
    } else {
      assert a == {} by { assert forall x :: x in a <==> x in {}; }
    }
  }

  /** Raising the threshold, or setting one where there was none, never
      increases the number of results. */
  lemma RaisingThresholdNeverAddsResults(m: map<int, Point>, q: Vector, sim: (Vector, Vector) -> real,
                                         t1: Option<real>, t2: Option<real>, k: nat, keys1: seq<int>, keys2: seq<int>)
    requires t1.None? || (t2.Some? && t1.value <= t2.value)
    requires RankedTopK(m, q, sim, t1, k, keys1) && RankedTopK(m, q, sim, t2, k, keys2)
    ensures |keys2| <= |keys1|
  {
    SubsetCard(Qualifying(m, q, sim, t2), Qualifying(m, q, sim, t1));
  }

  /** Without a threshold every stored point qualifies. */
  lemma NoThresholdQualifiesAll(m: map<int, Point>, q: Vector, sim: (Vector, Vector) -> real)
    ensures |Qualifying(m, q, sim, None)| == |m|
  {
    assert Qualifying(m, q, sim, None) == m.Keys;
  }

  function HitOf(p: Point, score: real): Hit {
    Hit(p.payload.chunkId, p.payload.kbId, p.payload.text, p.payload.rowIndex, p.payload.headers, score)
  }

  /** `hits` is what a search may answer: the ranked top-`k` points,
      formatted from their payloads with their scores. */
  ghost predicate SearchAnswer(m: map<int, Point>, q: Vector, sim: (Vector, Vector) -> real,
                               t: Option<real>, k: nat, hits: seq<Hit>) {
    exists keys :: RankedTopK(m, q, sim, t, k, keys) && |keys| == |hits| &&
      forall i :: 0 <= i < |keys| ==> hits[i] == HitOf(m[keys[i]], sim(q, m[keys[i]].vector))
  }

  /** A search answer holds at most `top_k` hits, each at or above the
      threshold, best first, each taken from a stored point; without a
      threshold it holds the best `top_k` of all stored points. */
  lemma SearchAnswerShape(m: map<int, Point>, q: Vector, sim: (Vector, Vector) -> real,
                          t: Option<real>, k: nat, hits: seq<Hit>)
    requires SearchAnswer(m, q, sim, t, k, hits)
    ensures |hits| <= k
    ensures t.None? ==> |hits| == Min(k, |m|)
    ensures t.Some? ==> forall i :: 0 <= i < |hits| ==> hits[i].score >= t.value
    ensures forall i, j :: 0 <= i < j < |hits| ==> hits[i].score >= hits[j].score
    ensures forall i :: 0 <= i < |hits| ==> exists key :: key in m && hits[i] == HitOf(m[key], hits[i].score)
  {
    var keys :| RankedTopK(m, q, sim, t, k, keys) && |keys| == |hits| &&
      forall i :: 0 <= i < |keys| ==> hits[i] == HitOf(m[keys[i]], sim(q, m[keys[i]].vector));
    if t.None? {
      NoThresholdQualifiesAll(m, q, sim);
    }
    forall i | 0 <= i < |hits| ensures exists key :: key in m && hits[i] == HitOf(m[key], hits[i].score) {
      assert keys[i] in Qualifying(m, q, sim, t);
      var key := keys[i];
      assert key in m && hits[i] == HitOf(m[key], hits[i].score);
      assert exists key :: key in m && hits[i] == HitOf(m[key], hits[i].score);
    }
  }

  /** The state of a selection that has ranked `keys` (the set `chosen`)
      out of `all` and still has `remaining` to consider. */
  ghost predicate RankingSoFar(m: map<int, Point>, q: Vector, sim: (Vector, Vector) -> real,
                               all: set<int>, keys: seq<int>, chosen: set<int>, remaining: set<int>) {
    && all <= m.Keys
    && Bookkeeping(all, keys, chosen, remaining)
    && (forall i :: 0 <= i < |keys| ==> keys[i] in m)
    && RankedKeys(m, q, sim, keys)
    && Dominated(m, q, sim, keys, remaining)
  }

  /** `keys` lists `chosen` without repeats, and `remaining` is the rest of
      `all`. */
  ghost predicate Bookkeeping(all: set<int>, keys: seq<int>, chosen: set<int>, remaining: set<int>) {
    && (forall x :: x in chosen <==> x in keys)
    && remaining == all - chosen && chosen <= all
    && |chosen| == |keys|
    && |remaining| == |all| - |chosen|
    && (forall i, j :: 0 <= i < j < |keys| ==> keys[i] != keys[j])
  }

  /** `keys` is in order of descending similarity. */
  ghost predicate RankedKeys(m: map<int, Point>, q: Vector, sim: (Vector, Vector) -> real, keys: seq<int>)
    requires forall i :: 0 <= i < |keys| ==> keys[i] in m
  {
    forall i, j :: 0 <= i < j < |keys| ==> sim(q, m[keys[i]].vector) >= sim(q, m[keys[j]].vector)
  }

  /** No key of `others` scores above a key of `keys`. */
  ghost predicate Dominated(m: map<int, Point>, q: Vector, sim: (Vector, Vector) -> real,
                            keys: seq<int>, others: set<int>)
    requires forall i :: 0 <= i < |keys| ==> keys[i] in m
    requires others <= m.Keys
  {
    forall x, i :: x in others && 0 <= i < |keys| ==> sim(q, m[x].vector) <= sim(q, m[keys[i]].vector)
  }

  /** Appending the best remaining key keeps the selection ranked. */
  lemma RankingStep(m: map<int, Point>, q: Vector, sim: (Vector, Vector) -> real,
                    all: set<int>, keys: seq<int>, chosen: set<int>, remaining: set<int>, best: int)
    requires RankingSoFar(m, q, sim, all, keys, chosen, remaining)
    requires best in remaining
    requires forall x :: x in remaining ==> sim(q, m[x].vector) <= sim(q, m[best].vector)
    ensures RankingSoFar(m, q, sim, all, keys + [best], chosen + {best}, remaining - {best})
  {
    BookkeepingStep(all, keys, chosen, remaining, best);
    RankedStep(m, q, sim, keys, best);
    DominatedStep(m, q, sim, keys, remaining, best);
  }

  lemma BookkeepingStep(all: set<int>, keys: seq<int>, chosen: set<int>, remaining: set<int>, best: int)
    requires Bookkeeping(all, keys, chosen, remaining)
    requires best in remaining
    ensures Bookkeeping(all, keys + [best], chosen + {best}, remaining - {best})
    ensures forall i :: 0 <= i < |keys| + 1 ==> (keys + [best])[i] in all
  {
    var keys' := keys + [best];
    assert best !in chosen;
    forall x
      ensures x in chosen + {best} <==> x in keys'
    {
      assert x in keys' <==> x in keys || x == best;
    }
    forall i | 0 <= i < |keys'|
      ensures keys'[i] in all
    {
      assert keys'[i] in keys';
    }
    forall i, j | 0 <= i < j < |keys'|
      ensures keys'[i] != keys'[j]
    {
      assert keys'[i] == keys[i] && keys[i] in chosen;
      if j < |keys| {
        assert keys'[j] == keys[j];
      }
    }
  }

  lemma RankedStep(m: map<int, Point>, q: Vector, sim: (Vector, Vector) -> real, keys: seq<int>, best: int)
    requires forall i :: 0 <= i < |keys| ==> keys[i] in m
    requires best in m
    requires RankedKeys(m, q, sim, keys)
    requires forall i :: 0 <= i < |keys| ==> sim(q, m[best].vector) <= sim(q, m[keys[i]].vector)
    ensures RankedKeys(m, q, sim, keys + [best])
  {
    var keys' := keys + [best];
    forall i, j | 0 <= i < j < |keys'|
      ensures sim(q, m[keys'[i]].vector) >= sim(q, m[keys'[j]].vector)
    {
      assert keys'[i] == keys[i];
      if j < |keys| {
        assert keys'[j] == keys[j];
      }
    }
  }

  lemma DominatedStep(m: map<int, Point>, q: Vector, sim: (Vector, Vector) -> real,
                      keys: seq<int>, remaining: set<int>, best: int)
    requires forall i :: 0 <= i < |keys| ==> keys[i] in m
    requires remaining <= m.Keys && best in remaining
    requires Dominated(m, q, sim, keys, remaining)
    requires forall x :: x in remaining ==> sim(q, m[x].vector) <= sim(q, m[best].vector)
    ensures forall i :: 0 <= i < |keys| ==> sim(q, m[best].vector) <= sim(q, m[keys[i]].vector)
    ensures Dominated(m, q, sim, keys + [best], remaining - {best})
  {
    var keys' := keys + [best];
    forall x, i | x in remaining - {best} && 0 <= i < |keys'|
      ensures sim(q, m[x].vector) <= sim(q, m[keys'[i]].vector)
    {
      if i < |keys| {
        assert keys'[i] == keys[i];
      }
    }
  }

  /** A finished selection is a correct top-`k` answer. */
  lemma RankingDone(m: map<int, Point>, q: Vector, sim: (Vector, Vector) -> real, t: Option<real>, k: nat,
                    keys: seq<int>, chosen: set<int>, remaining: set<int>)
    requires RankingSoFar(m, q, sim, Qualifying(m, q, sim, t), keys, chosen, remaining)
    requires |keys| <= k
    requires |keys| == k || remaining == {}
    ensures RankedTopK(m, q, sim, t, k, keys)
  {
    var all := Qualifying(m, q, sim, t);
    assert Bookkeeping(all, keys, chosen, remaining);
    assert forall x :: x in chosen <==> x in keys;
    forall i | 0 <= i < |keys|
      ensures keys[i] in all
    {
      assert keys[i] in keys;
      assert keys[i] in chosen;
    }
    SubsetCard(chosen, all);
    forall x, i | x in all && x !in keys && 0 <= i < |keys|
      ensures sim(q, m[x].vector) <= sim(q, m[keys[i]].vector)
    {
      assert x in remaining;
    }
  }

  class VectorStore {
    /** The collection: point id to point. */
    var points: map<int, Point>

    constructor ()
      ensures points == map[]
    {
      points := map[];
    }

    /** `vectorize_chunks`: an empty batch is refused without touching the
        store; otherwise one point per chunk is built and the batch is
        upserted in one call, so a failure of the embedding model or of the
        store (`failure`) leaves the store as it was. */
    method VectorizeChunks(chunks: seq<Chunk>, kbId: int, userId: int, embed: string -> Vector,
                           failure: Option<string>) returns (r: Result<string>)
      modifies this
      ensures chunks == [] ==> r == Err("No chunks provided") && points == old(points)
      ensures chunks != [] && failure.Some? ==> r == Err(failure.value) && points == old(points)
      ensures chunks != [] && failure.None? ==>
                r == Ok("Vectorized " + IntToString(|chunks|) + " chunks") &&
                points == UpsertAll(old(points), PointsOf(chunks, kbId, userId, embed))
    {
      if chunks == [] {
        return Err("No chunks provided");
      }
      var batch: seq<Point> := [];
      for i := 0 to |chunks|
        invariant batch == PointsOf(chunks[..i], kbId, userId, embed)
      {
        var chunk := chunks[i];
        var vector := embed(chunk.text);
        var pointId := kbId * KeyStride + chunk.id;
        var point := Point(pointId, vector,
                           Payload(chunk.id, kbId, userId, chunk.text, chunk.rowIndex, chunk.headers));
        batch := batch + [point];
      }
      assert chunks[..|chunks|] == chunks;
      if failure.Some? {
        return Err(failure.value);
      }
      points := UpsertAll(points, batch);
      r := Ok("Vectorized " + IntToString(|batch|) + " chunks");
    }

    /** The best-scoring key of `candidates`, starting from `first`. */
    method SelectBest(candidates: set<int>, first: int, q: Vector, sim: (Vector, Vector) -> real)
      returns (best: int)
      requires first in candidates && candidates <= points.Keys
      ensures best in candidates
      ensures forall x :: x in candidates ==> sim(q, points[x].vector) <= sim(q, points[best].vector)
    {
      best := first;
      var rest := candidates - {first};
      while true
        invariant best in candidates && rest <= candidates
        invariant forall x :: x in candidates && x !in rest ==> sim(q, points[x].vector) <= sim(q, points[best].vector)
        decreases |rest|
      {
        if x :| x in rest {
          if sim(q, points[x].vector) > sim(q, points[best].vector) {
            best := x;
          }
          rest := rest - {x};
        } else {
          break;
        }
      }
    }

    /** The client's search: rank the qualifying points by score and keep
        the first `k`. */
    method RankTopK(q: Vector, sim: (Vector, Vector) -> real, t: Option<real>, k: nat) returns (keys: seq<int>)
      ensures RankedTopK(points, q, sim, t, k, keys)
    {
      var remaining := set x | x in points && (t.None? || sim(q, points[x].vector) >= t.value);
      ghost var all := remaining;
      ghost var chosen: set<int> := {};
      keys := [];
      while |keys| < k
        invariant all == Qualifying(points, q, sim, t)
        invariant RankingSoFar(points, q, sim, all, keys, chosen, remaining) && |keys| <= k
        decreases k - |keys|
      {
        if x :| x in remaining {
          var best := SelectBest(remaining, x, q, sim);
          RankingStep(points, q, sim, all, keys, chosen, remaining, best);
          keys := keys + [best];
          chosen := chosen + {best};
          remaining := remaining - {best};
        } else {
          assert remaining == {} by { assert forall x :: x in remaining <==> x in {}; }
          break;
        }
      }
      RankingDone(points, q, sim, t, k, keys, chosen, remaining);
    }

    /** `search_chunks`: `user_id` takes no part in the search (no owner
        filter is applied); on success the hits are the best `top_k`
        qualifying points, best first, formatted from their payloads. */
    method SearchChunks(query: string, userId: int, topK: nat, threshold: Option<real>,
                        embed: string -> Vector, sim: (Vector, Vector) -> real,
                        failure: Option<string>) returns (r: Result<seq<Hit>>)
      ensures failure.Some? ==> r == Err(failure.value)
      ensures failure.None? ==> r.Ok? && SearchAnswer(points, embed(query), sim, threshold, topK, r.value)
    {
      if failure.Some? {
        return Err(failure.value);
      }
      var queryVector := embed(query);
      var keys := RankTopK(queryVector, sim, threshold, topK);
      var results: seq<Hit> := [];
      for i := 0 to |keys|
        invariant |results| == i
        invariant forall j :: 0 <= j < i ==>
                    results[j] == HitOf(points[keys[j]], sim(queryVector, points[keys[j]].vector))
      {
        var p := points[keys[i]];
        results := results + [Hit(p.payload.chunkId, p.payload.kbId, p.payload.text,
                                  p.payload.rowIndex, p.payload.headers, sim(queryVector, p.vector))];
      }
      r := Ok(results);
    }

    /** `get_chunk_vector`: the point under `kb_id * 10000 + chunk_id`;
        `failure` is the message of an exception the client raises (the
        store unreachable, a key it refuses), which is returned as the
        error. */
    method GetChunkVector(kbId: int, chunkId: int, failure: Option<string>) returns (r: Result<VectorData>)
      ensures failure.Some? ==> r == Err(failure.value)
      ensures failure.None? ==> r == Retrieve(points, kbId, chunkId)
    {
      if failure.Some? {
        return Err(failure.value);
      }
      var pointId := kbId * KeyStride + chunkId;
      if pointId !in points {
        return Err("Chunk " + IntToString(chunkId) + " not found in KB " + IntToString(kbId));
      }
      var point := points[pointId];
      r := Ok(VectorData(point.vector, point.payload));
    }

    /** `delete_kb_chunks`, as intended: every point whose payload names the
        knowledge base goes, every other point stays. */
    method DeleteKbChunks(kbId: int, failure: Option<string>) returns (r: Result<string>)
      modifies this
      ensures failure.Some? ==> r == Err(failure.value) && points == old(points)
      ensures failure.None? ==> r == Ok("Deleted chunks for KB " + IntToString(kbId)) &&
                                points == RemoveKb(old(points), kbId)
    {
      if failure.Some? {
        return Err(failure.value);
      }
      points := map k | k in points && points[k].payload.kbId != kbId :: points[k];
      r := Ok("Deleted chunks for KB " + IntToString(kbId));
    }
  }
}
