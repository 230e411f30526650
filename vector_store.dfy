/**
 * The vector store adapter: one collection of points, each with a vector and a payload naming
 * its document and chunk; a process-wide "collection ready" flag gates queries and deletes.
 * The store's similarity ranking and the embedding of texts are oracle inputs.
 */
module VectorStore {
  import opened Wrappers
  import opened Seqs
  import opened Strings

  const CollectionName: string := "insightai_chunks"
  const DefaultBatchSize: nat := 512

  type Vector = seq<real>

  /** The chunk metadata the adapter copies into payloads. */
  datatype Metadata = Metadata(chunk_index: Option<int>, page_start: Option<int>, page_end: Option<int>,
                               section_title: Option<string>)

  /** A chunk handed to `upsert_document_chunks`; None stands for an absent key. */
  datatype ChunkInput = ChunkInput(id: int, text: string, metadata: Option<Metadata>, keywords: Option<seq<string>>)

  datatype Payload = Payload(document_id: int, chunk_db_id: int, text: string, chunk_index: Option<int>,
                             page_start: Option<int>, page_end: Option<int>, section_title: Option<string>,
                             keywords: seq<string>)

  datatype Point = Point(vector: Vector, payload: Payload)

  /** A query hit as returned to callers. */
  datatype Hit = Hit(id: string, text: string, metadata: Metadata, distance: real)

  /** A request to the store service, in order. */
  datatype StoreCall =
    | GetCollections
    | CreateCollection(name: string, size: nat)
    | UpsertBatch(ids: seq<string>)
    | QueryPoints(limit: int, documentId: int)
    | DeleteByDocument(documentId: int)

  /** The key `f"doc{document_id}_chunk{chunk_id}"` a point id is derived from. */
  function PointKey(documentId: int, chunkId: int): string {
    "doc" + IntToString(documentId) + "_chunk" + IntToString(chunkId)
  }

  /**
   * The point id of a chunk. The name-based UUID of the key stands in as the key itself, an
   * injective function of it.
   */
  function PointId(documentId: int, chunkId: int): string {
    PointKey(documentId, chunkId)
  }

  /** The ids of the chunks, position by position. */
  function PointIds(documentId: int, chunks: seq<ChunkInput>): (r: seq<string>)
    ensures |r| == |chunks|
    ensures forall i :: 0 <= i < |chunks| ==> r[i] == PointId(documentId, chunks[i].id)
  {
    seq(|chunks|, i requires 0 <= i < |chunks| => PointId(documentId, chunks[i].id))
  }

  /** The payload of one chunk: absent metadata gives None fields, absent keywords `[]`. */
  function PayloadOf(documentId: int, c: ChunkInput): (p: Payload)
    ensures p.document_id == documentId && p.chunk_db_id == c.id && p.text == c.text
    ensures c.metadata.None? ==> p.chunk_index.None? && p.page_start.None? && p.page_end.None? && p.section_title.None?
    ensures c.metadata.Some? ==>
              p.chunk_index == c.metadata.value.chunk_index && p.page_start == c.metadata.value.page_start
              && p.page_end == c.metadata.value.page_end && p.section_title == c.metadata.value.section_title
    ensures p.keywords == (if c.keywords.Some? then c.keywords.value else [])
  {
    var md := c.metadata.GetOr(Metadata(None, None, None, None));
    Payload(documentId, c.id, c.text, md.chunk_index, md.page_start, md.page_end, md.section_title,
            c.keywords.GetOr([]))
  }

  /** The points after writing `ids[i]` with vector `vectors[i]` and payload `payloads[i]`, in order. */
  function Written(points: map<string, Point>, ids: seq<string>, vectors: seq<Vector>, payloads: seq<Payload>): (r: map<string, Point>)
    requires |vectors| == |ids| && |payloads| == |ids|
    decreases |ids|
  {
    if ids == [] then points
    else
      var n := |ids| - 1;
      Written(points, ids[..n], vectors[..n], payloads[..n])[ids[n] := Point(vectors[n], payloads[n])]
  }

  /** The points that stay when a document's points are deleted. */
  function WithoutDocument(points: map<string, Point>, documentId: int): (r: map<string, Point>)
    ensures forall id :: id in r <==> id in points && points[id].payload.document_id != documentId
    ensures forall id :: id in r ==> r[id] == points[id]
  {
    map id | id in points && points[id].payload.document_id != documentId :: points[id]
  }

  /** `min(k, n)` first elements; a limit below one gives none. */
  function Take<T>(s: seq<T>, k: int): (r: seq<T>)
    ensures |r| == if k <= 0 then 0 else Min(k, |s|)
    ensures r <= s
    ensures forall x :: x in r ==> x in s
  {
    if k <= 0 then [] else s[..Min(k, |s|)]
  }

  /**
   * The store's answer to a filtered query: the ids in the ranking `order` whose points belong to
   * the document, best first, at most `limit` of them.
   */
  function QueryIds(points: map<string, Point>, documentId: int, order: seq<string>, limit: int): (r: seq<string>)
    ensures |r| <= (if limit <= 0 then 0 else limit)
    ensures forall id :: id in r ==> id in points && points[id].payload.document_id == documentId
  {
    Take(Filter(order, (id: string) => id in points && points[id].payload.document_id == documentId), limit)
  }

  /** A hit for a stored point. */
  function HitOf(id: string, p: Point, score: real): Hit {
    Hit(id, p.payload.text, Metadata(p.payload.chunk_index, p.payload.page_start, p.payload.page_end, p.payload.section_title), score)
  }

  // ---------------------------------------------------------------------------------------------
  // Properties

  /** A prefix before the first `c` is determined by the string. */
  lemma SplitAtSeparator(p: string, q: string, p': string, q': string, c: char)
    requires c !in p && c !in p'
    requires |q| > 0 && q[0] == c && |q'| > 0 && q'[0] == c
    requires p + q == p' + q'
    ensures p == p' && q == q'
  {
    assert (p + q)[|p|] == c && (p' + q')[|p'|] == c;
    assert forall i :: 0 <= i < |p| ==> (p + q)[i] == p[i] != c;
    assert forall i :: 0 <= i < |p'| ==> (p' + q')[i] == p'[i] != c;
    assert p == (p + q)[..|p|];
    assert p' == (p' + q')[..|p'|];
    assert q == (p + q)[|p|..];
    assert q' == (p' + q')[|p'|..];
  }

  lemma NoUnderscore(i: int)
    ensures '_' !in IntToString(i)
  {
  }

  /** The key after its `doc` prefix: the document id, then the `_chunk` part. */
  lemma KeySuffix(d: int, c: int)
    ensures PointKey(d, c)[3..] == IntToString(d) + ("_chunk" + IntToString(c))
  {
    assert PointKey(d, c) == "doc" + (IntToString(d) + ("_chunk" + IntToString(c)));
  }

  /** The `_chunk` part starts with the separator and ends with the chunk id. */
  lemma ChunkSuffix(c: int)
    ensures |"_chunk" + IntToString(c)| > 6 && ("_chunk" + IntToString(c))[0] == '_'
    ensures ("_chunk" + IntToString(c))[6..] == IntToString(c)
  {
  }

  /** Equal point ids come from equal documents and chunk ids. */
  lemma PointIdInjective(d: int, c: int, d': int, c': int)
    requires PointId(d, c) == PointId(d', c')
    ensures d == d' && c == c'
  {
    var a, a' := IntToString(d), IntToString(d');
    var b, b' := "_chunk" + IntToString(c), "_chunk" + IntToString(c');
    KeySuffix(d, c);
    KeySuffix(d', c');
    ChunkSuffix(c);
    ChunkSuffix(c');
    NoUnderscore(d);
    NoUnderscore(d');
    SplitAtSeparator(a, b, a', b', '_');
    IntToStringInjective(d, d');
    IntToStringInjective(c, c');
  }

  /** Writing points: the stored ids are the old ones and the ones written. */
  lemma {:induction false} WrittenKeys(points: map<string, Point>, ids: seq<string>, vectors: seq<Vector>, payloads: seq<Payload>)
    requires |vectors| == |ids| && |payloads| == |ids|
    ensures forall id :: id in Written(points, ids, vectors, payloads) <==> id in points || id in ids
    decreases |ids|
  {
    if ids != [] {
      var n := |ids| - 1;
      WrittenKeys(points, ids[..n], vectors[..n], payloads[..n]);
      assert forall id :: id in ids <==> id in ids[..n] || id == ids[n];
    }
  }

  /** Writing points leaves an id that is not written with its point. */
  lemma {:induction false} WrittenOthers(points: map<string, Point>, ids: seq<string>, vectors: seq<Vector>, payloads: seq<Payload>)
    requires |vectors| == |ids| && |payloads| == |ids|
    ensures forall id :: id in points && id !in ids ==>
              id in Written(points, ids, vectors, payloads) && Written(points, ids, vectors, payloads)[id] == points[id]
    decreases |ids|
  {
    if ids != [] {
      var n := |ids| - 1;
      WrittenOthers(points, ids[..n], vectors[..n], payloads[..n]);
      assert forall id :: id !in ids ==> id !in ids[..n] && id != ids[n];
    }
  }

  /** Writing points: an id's point comes from its last position in `ids`. */
  lemma {:induction false} WrittenLast(points: map<string, Point>, ids: seq<string>, vectors: seq<Vector>, payloads: seq<Payload>, i: nat)
    requires |vectors| == |ids| && |payloads| == |ids|
    requires i < |ids| && forall j :: i < j < |ids| ==> ids[j] != ids[i]
    ensures ids[i] in Written(points, ids, vectors, payloads)
    ensures Written(points, ids, vectors, payloads)[ids[i]] == Point(vectors[i], payloads[i])
    decreases |ids|
  {
    var n := |ids| - 1;
    if i < n {
      assert ids[..n][i] == ids[i] && vectors[..n][i] == vectors[i] && payloads[..n][i] == payloads[i];
      assert forall j :: i < j < n ==> ids[..n][j] == ids[j];
      WrittenLast(points, ids[..n], vectors[..n], payloads[..n], i);
    }
  }

  /**
   * Writing points: the ids written and the old ids are stored; an id not written keeps its point;
   * an id's point comes from its last position in `ids`.
   */
  lemma WrittenSpec(points: map<string, Point>, ids: seq<string>, vectors: seq<Vector>, payloads: seq<Payload>)
    requires |vectors| == |ids| && |payloads| == |ids|
    ensures var r := Written(points, ids, vectors, payloads);
            (forall id :: id in r <==> id in points || id in ids)
            && (forall id :: id in points && id !in ids ==> r[id] == points[id])
            && (forall i :: 0 <= i < |ids| && (forall j :: i < j < |ids| ==> ids[j] != ids[i]) ==>
                  r[ids[i]] == Point(vectors[i], payloads[i]))
  {
    WrittenKeys(points, ids, vectors, payloads);
    WrittenOthers(points, ids, vectors, payloads);
    forall i | 0 <= i < |ids| && (forall j :: i < j < |ids| ==> ids[j] != ids[i]) {
      WrittenLast(points, ids, vectors, payloads, i);
    }
  }

  lemma WrittenSnoc(points: map<string, Point>, ids: seq<string>, vectors: seq<Vector>, payloads: seq<Payload>)
    requires |vectors| == |ids| && |payloads| == |ids| && |ids| > 0
    ensures var n := |ids| - 1;
            Written(points, ids, vectors, payloads)
            == Written(points, ids[..n], vectors[..n], payloads[..n])[ids[n] := Point(vectors[n], payloads[n])]
  {
  }

  lemma {:induction false} WrittenAppend(points: map<string, Point>, ids: seq<string>, vectors: seq<Vector>, payloads: seq<Payload>,
                      ids': seq<string>, vectors': seq<Vector>, payloads': seq<Payload>)
    requires |vectors| == |ids| && |payloads| == |ids|
    requires |vectors'| == |ids'| && |payloads'| == |ids'|
    ensures Written(points, ids + ids', vectors + vectors', payloads + payloads')
         == Written(Written(points, ids, vectors, payloads), ids', vectors', payloads')
    decreases |ids'|
  {
    if ids' == [] {
      assert ids + ids' == ids;
      assert vectors + vectors' == vectors;
      assert payloads + payloads' == payloads;
    } else {
      var n := |ids'| - 1;
      WrittenAppend(points, ids, vectors, payloads, ids'[..n], vectors'[..n], payloads'[..n]);
      ConcatButLast(ids, ids');
      ConcatButLast(vectors, vectors');
      ConcatButLast(payloads, payloads');
      WrittenSnoc(points, ids + ids', vectors + vectors', payloads + payloads');
      WrittenSnoc(Written(points, ids, vectors, payloads), ids', vectors', payloads');
    }
  }


  /** Written twice with the same distinct ids, the points are as after one write. */
  lemma WrittenIdempotent(points: map<string, Point>, ids: seq<string>, vectors: seq<Vector>, payloads: seq<Payload>)
    requires |vectors| == |ids| && |payloads| == |ids| && Distinct(ids)
    ensures var once := Written(points, ids, vectors, payloads);
            Written(once, ids, vectors, payloads) == once
  {
    var once := Written(points, ids, vectors, payloads);
    var twice := Written(once, ids, vectors, payloads);
    WrittenSpec(points, ids, vectors, payloads);
    WrittenSpec(once, ids, vectors, payloads);
    forall id | id in ids
      ensures twice[id] == once[id]
    {
      var i :| 0 <= i < |ids| && ids[i] == id;
      assert forall j :: i < j < |ids| ==> ids[j] != ids[i];
    }
    assert twice.Keys == once.Keys;
  }

  /** The payloads of the chunks, position by position. */
  function Payloads(documentId: int, chunks: seq<ChunkInput>): (r: seq<Payload>)
    ensures |r| == |chunks|
  {
    seq(|chunks|, i requires 0 <= i < |chunks| => PayloadOf(documentId, chunks[i]))
  }

  /**
   * After the chunks of a document are written with their vectors, each chunk (chunk ids
   * distinct) is stored under its point id with its own vector and payload, one that names the
   * document; a point whose id is not one of theirs is unchanged.
   */
  lemma ChunksStored(points: map<string, Point>, documentId: int, chunks: seq<ChunkInput>, vectors: seq<Vector>)
    requires |vectors| == |chunks|
    requires forall i, j :: 0 <= i < j < |chunks| ==> chunks[i].id != chunks[j].id
    ensures var r := Written(points, PointIds(documentId, chunks), vectors, Payloads(documentId, chunks));
            (forall i :: 0 <= i < |chunks| ==>
               PointId(documentId, chunks[i].id) in r
               && r[PointId(documentId, chunks[i].id)] == Point(vectors[i], PayloadOf(documentId, chunks[i]))
               && r[PointId(documentId, chunks[i].id)].payload.document_id == documentId)
            && (forall id :: id in points && id !in PointIds(documentId, chunks) ==> id in r && r[id] == points[id])
  {
    var ids := PointIds(documentId, chunks);
    var payloads := Payloads(documentId, chunks);
    var r := Written(points, ids, vectors, payloads);
    WrittenSpec(points, ids, vectors, payloads);
    forall i | 0 <= i < |chunks|
      ensures ids[i] in r && r[ids[i]] == Point(vectors[i], payloads[i])
    {
      assert forall j :: i < j < |ids| ==> ids[j] != ids[i] by {
        forall j | i < j < |ids|
          ensures ids[j] != ids[i]
        {
          if ids[j] == ids[i] {
            PointIdInjective(documentId, chunks[i].id, documentId, chunks[j].id);
          }
        }
      }
    }
    assert forall i :: 0 <= i < |chunks| ==> ids[i] == PointId(documentId, chunks[i].id)
                                             && payloads[i] == PayloadOf(documentId, chunks[i]);
  }

  /** The requests `ensure_collection` makes in a given state. */
  function EnsureCalls(ready: bool, collections: map<string, nat>, vectorSize: nat): seq<StoreCall> {
    if ready then []
    else if CollectionName in collections then [GetCollections]
    else [GetCollections, CreateCollection(CollectionName, vectorSize)]
  }

  /** One upsert request per batch, in order. */
  function UpsertCalls(batches: seq<seq<string>>): (r: seq<StoreCall>)
    ensures |r| == |batches|
    ensures forall k :: 0 <= k < |batches| ==> r[k] == UpsertBatch(batches[k])
  {
    seq(|batches|, k requires 0 <= k < |batches| => UpsertBatch(batches[k]))
  }

  lemma UpsertCallsSnoc(batches: seq<seq<string>>, k: nat)
    requires k < |batches|
    ensures UpsertCalls(batches[..k + 1]) == UpsertCalls(batches[..k]) + [UpsertBatch(batches[k])]
  {
  }

  /** The hits for the ids a query answered, with their scores. */
  function Hits(points: map<string, Point>, ids: seq<string>, score: string -> real): (r: seq<Hit>)
    requires forall id :: id in ids ==> id in points
    ensures |r| == |ids|
  {
    seq(|ids|, i requires 0 <= i < |ids| => HitOf(ids[i], points[ids[i]], score(ids[i])))
  }

  /**
   * A query: at most `k` hits, each a point of the document with its id, text, chunk index, pages,
   * section title and score; fewer than `k` hits only when every point of the document that the
   * ranking lists is among them; none for a document without points.
   */
  lemma QueryHitsSpec(points: map<string, Point>, documentId: int, order: seq<string>, k: int, score: string -> real)
    ensures var ids := QueryIds(points, documentId, order, k);
            var hits := Hits(points, ids, score);
            |hits| <= (if k <= 0 then 0 else k)
            && (forall i :: 0 <= i < |hits| ==>
                  hits[i].id == ids[i] && ids[i] in points && points[ids[i]].payload.document_id == documentId
                  && hits[i].text == points[ids[i]].payload.text
                  && hits[i].metadata.chunk_index == points[ids[i]].payload.chunk_index
                  && hits[i].metadata.page_start == points[ids[i]].payload.page_start
                  && hits[i].metadata.page_end == points[ids[i]].payload.page_end
                  && hits[i].metadata.section_title == points[ids[i]].payload.section_title
                  && hits[i].distance == score(ids[i]))
            && (0 < k && |hits| < k ==>
                  forall id :: id in order && id in points && points[id].payload.document_id == documentId ==> id in ids)
            && ((forall id :: id in points ==> points[id].payload.document_id != documentId) ==> hits == [])
  {
    if forall id :: id in points ==> points[id].payload.document_id != documentId {
      FilterNone(order, (id: string) => id in points && points[id].payload.document_id == documentId);
    }
  }

  /** A query answers in ranking order: any two hits appear in the ranking in the order they are listed. */
  lemma QueryOrdered(points: map<string, Point>, documentId: int, order: seq<string>, k: int)
    ensures var ids := QueryIds(points, documentId, order, k);
            forall i, j :: 0 <= i < j < |ids| ==>
              exists a, b :: 0 <= a < b < |order| && order[a] == ids[i] && order[b] == ids[j]
  {
    var inDoc := (id: string) => id in points && points[id].payload.document_id == documentId;
    var f := Filter(order, inDoc);
    var ids := QueryIds(points, documentId, order, k);
    if k > 0 {
      assert ids == f[..Min(k, |f|)];
      FilterOrdered(order, inDoc);
      forall i, j | 0 <= i < j < |ids|
        ensures exists a, b :: 0 <= a < b < |order| && order[a] == ids[i] && order[b] == ids[j]
      {
        assert ids[i] == f[i] && ids[j] == f[j];
      }
    }
  }

  /**
   * When the ranking lists each id once, a query's hits are the best-ranked points of the
   * document: a point of the document ranked above a hit is itself a hit.
   */
  lemma QueryTopRanked(points: map<string, Point>, documentId: int, order: seq<string>, k: int)
    requires Distinct(order)
    ensures var ids := QueryIds(points, documentId, order, k);
            forall a, b :: 0 <= a < b < |order| && InDocument(points, documentId, order[a]) && order[b] in ids
                           ==> order[a] in ids
  {
    var inDoc := (id: string) => id in points && points[id].payload.document_id == documentId;
    var f := Filter(order, inDoc);
    if k > 0 {
      assert QueryIds(points, documentId, order, k) == f[..Min(k, |f|)];
      FilterPrefixClosed(order, inDoc, Min(k, |f|));
    }
  }

  /** The point stored under `id` belongs to the document. */
  predicate InDocument(points: map<string, Point>, documentId: int, id: string) {
    id in points && points[id].payload.document_id == documentId
  }

  /** Once a document's points are deleted, a query for it finds nothing. */
  lemma DeletedDocumentNotFound(points: map<string, Point>, documentId: int, order: seq<string>, k: int)
    ensures QueryIds(WithoutDocument(points, documentId), documentId, order, k) == []
  {
    var rest := WithoutDocument(points, documentId);
    FilterNone(order, (id: string) => id in rest && rest[id].payload.document_id == documentId);
  }

  /** Writing the first `j` ids is writing the first `i`, then those from `i` to `j`. */
  lemma WrittenSplit(points: map<string, Point>, ids: seq<string>, vectors: seq<Vector>, payloads: seq<Payload>, i: nat, j: nat)
    requires |vectors| == |ids| && |payloads| == |ids| && i <= j <= |ids|
    ensures Written(points, ids[..j], vectors[..j], payloads[..j])
         == Written(Written(points, ids[..i], vectors[..i], payloads[..i]), ids[i..j], vectors[i..j], payloads[i..j])
  {
    WrittenAppend(points, ids[..i], vectors[..i], payloads[..i], ids[i..j], vectors[i..j], payloads[i..j]);
    SliceJoin(ids, i, j);
    SliceJoin(vectors, i, j);
    SliceJoin(payloads, i, j);
  }

  /** Writing the next batch extends the written prefix. */
  lemma WrittenStep(basePoints: map<string, Point>, ids: seq<string>, vectors: seq<Vector>, payloads: seq<Payload>,
                    start: nat, next: nat, current: map<string, Point>)
    requires |vectors| == |ids| && |payloads| == |ids| && start <= next <= |ids|
    requires current == Written(basePoints, ids[..start], vectors[..start], payloads[..start])
    ensures Written(current, ids[start..next], vectors[start..next], payloads[start..next])
         == Written(basePoints, ids[..next], vectors[..next], payloads[..next])
  {
    WrittenSplit(basePoints, ids, vectors, payloads, start, next);
  }

  /** Recording the next batch's upsert extends the recorded calls. */
  lemma CallsStep(baseCalls: seq<StoreCall>, batches: seq<seq<string>>, k: nat, current: seq<StoreCall>)
    requires k < |batches| && current == baseCalls + UpsertCalls(batches[..k])
    ensures current + [UpsertBatch(batches[k])] == baseCalls + UpsertCalls(batches[..k + 1])
  {
    UpsertCallsSnoc(batches, k);
    AppendAssoc(baseCalls, UpsertCalls(batches[..k]), [UpsertBatch(batches[k])]);
  }

  /** Batch `k` of the upsert loop runs from `k * size` to the next batch or the end. */
  lemma BatchBounds(ids: seq<string>, size: nat, k: nat)
    requires size > 0 && k < |Chunked(ids, size)|
    ensures var next := Min(k * size + size, |ids|);
            k * size < next <= |ids|
            && Chunked(ids, size)[k] == ids[k * size..next]
            && (k + 1 < |Chunked(ids, size)| <==> next < |ids|)
            && (k + 1 < |Chunked(ids, size)| ==> next == (k + 1) * size)
  {
    ChunkedAt(ids, size, k);
    WindowCountBound(|ids|, size, k + 1);
    MulStep(k, k + 1, size);
  }

  // ---------------------------------------------------------------------------------------------
  // The adapter

  /** The store service and the module-level `_COLLECTION_READY` flag. */
  class QdrantStore {
    var ready: bool
    /** Existing collections and their vector sizes. */
    var collections: map<string, nat>
    /** The points of `insightai_chunks`. */
    var points: map<string, Point>
    /** Every request made to the service, in order. */
    var calls: seq<StoreCall>

    /** The flag is set only once the collection exists. */
    predicate Valid()
      reads this
    {
      ready ==> CollectionName in collections
    }

    constructor (collections: map<string, nat>, points: map<string, Point>)
      ensures Valid() && !ready && this.collections == collections && this.points == points && calls == []
    {
      ready := false;
      this.collections := collections;
      this.points := points;
      calls := [];
    }

    /**
     * `ensure_collection(vector_size)`: once ready it makes no request; otherwise it lists the
     * collections and creates ours with the given size only when it is missing. The collection
     * exists and the flag is set afterwards.
     */
    method EnsureCollection(vectorSize: nat)
      requires Valid()
      modifies this
      ensures Valid() && ready && CollectionName in collections && points == old(points)
      ensures calls == old(calls) + EnsureCalls(old(ready), old(collections), vectorSize)
      ensures collections == if old(ready) || CollectionName in old(collections) then old(collections)
                             else old(collections)[CollectionName := vectorSize]
    {
      if ready {
        return;
      }
      calls := calls + [GetCollections];
      if CollectionName in collections {
        ready := true;
        return;
      }
      calls := calls + [CreateCollection(CollectionName, vectorSize)];
      collections := collections[CollectionName := vectorSize];
      ready := true;
    }

    /** The payload loop: one payload per chunk, in order. */
    static method BuildPayloads(documentId: int, chunks: seq<ChunkInput>) returns (payloads: seq<Payload>)
      ensures payloads == Payloads(documentId, chunks)
    {
      payloads := [];
      var i := 0;
      while i < |chunks|
        invariant 0 <= i <= |chunks|
        invariant |payloads| == i
        invariant forall j :: 0 <= j < i ==> payloads[j] == PayloadOf(documentId, chunks[j])
      {
        var c := chunks[i];
        var md := if c.metadata.Some? then c.metadata.value else Metadata(None, None, None, None);
        var keywords := if c.keywords.Some? then c.keywords.value else [];
        payloads := payloads + [Payload(documentId, c.id, c.text, md.chunk_index, md.page_start, md.page_end,
                                        md.section_title, keywords)];
        i := i + 1;
      }
    }

    /** One batch of the upsert loop: writes batch `k`, which starts at `start`, after the ones before it. */
    method UpsertOneBatch(ids: seq<string>, vectors: seq<Vector>, payloads: seq<Payload>, batchSize: nat,
                          start: nat, k: nat, ghost basePoints: map<string, Point>, ghost baseCalls: seq<StoreCall>)
      returns (next: nat)
      requires batchSize > 0 && |vectors| == |ids| && |payloads| == |ids|
      requires k < |Chunked(ids, batchSize)| && start == k * batchSize
      requires start <= |ids|
      requires points == Written(basePoints, ids[..start], vectors[..start], payloads[..start])
      requires calls == baseCalls + UpsertCalls(Chunked(ids, batchSize)[..k])
      modifies this
      ensures start < next <= |ids|
      ensures k + 1 < |Chunked(ids, batchSize)| <==> next < |ids|
      ensures next == if k + 1 < |Chunked(ids, batchSize)| then (k + 1) * batchSize else |ids|
      ensures points == Written(basePoints, ids[..next], vectors[..next], payloads[..next])
      ensures calls == baseCalls + UpsertCalls(Chunked(ids, batchSize)[..k + 1])
      ensures ready == old(ready) && collections == old(collections)
    {
      BatchBounds(ids, batchSize, k);
      next := Min(start + batchSize, |ids|);
      var batch := ids[start..next];
      WrittenStep(basePoints, ids, vectors, payloads, start, next, points);
      points := Written(points, batch, vectors[start..next], payloads[start..next]);
      CallsStep(baseCalls, Chunked(ids, batchSize), k, calls);
      calls := calls + [UpsertBatch(batch)];
    }

    /**
     * `upsert_document_chunks`, given the embedding of the chunk texts: nothing for no chunks or
     * an empty embedding; otherwise the collection is ensured with the first vector's size and
     * every chunk is written under its point id with its vector and payload, in batches of
     * `batchSize` ids.
     */
    method UpsertDocumentChunks(documentId: int, chunks: seq<ChunkInput>, vectors: seq<Vector>, batchSize: nat)
      requires Valid()
      requires batchSize > 0
      requires vectors == [] || |vectors| == |chunks|
      modifies this
      ensures Valid()
      ensures chunks == [] || vectors == [] || vectors[0] == [] ==>
                ready == old(ready) && collections == old(collections) && points == old(points) && calls == old(calls)
      ensures chunks != [] && vectors != [] && vectors[0] != [] ==>
                ready
                && points == Written(old(points), PointIds(documentId, chunks), vectors, Payloads(documentId, chunks))
                && calls == old(calls) + EnsureCalls(old(ready), old(collections), |vectors[0]|)
                                       + UpsertCalls(Chunked(PointIds(documentId, chunks), batchSize))
    {
      if |chunks| == 0 {
        return;
      }
      var ids := PointIds(documentId, chunks);
      if |vectors| == 0 || |vectors[0]| == 0 {
        return;
      }
      EnsureCollection(|vectors[0]|);
      var payloads := BuildPayloads(documentId, chunks);
      UpsertBatches(ids, vectors, payloads, batchSize);
    }

    /** The batch loop of `upsert_document_chunks`: every id written, one upsert per batch. */
    method UpsertBatches(ids: seq<string>, vectors: seq<Vector>, payloads: seq<Payload>, batchSize: nat)
      requires batchSize > 0 && |vectors| == |ids| && |payloads| == |ids|
      requires ready && CollectionName in collections
      modifies this
      ensures ready && collections == old(collections)
      ensures points == Written(old(points), ids, vectors, payloads)
      ensures calls == old(calls) + UpsertCalls(Chunked(ids, batchSize))
    {
      ghost var basePoints := points;
      ghost var baseCalls := calls;
      WindowCountBound(|ids|, batchSize, 0);
      assert ids[..0] == [] && vectors[..0] == [] && payloads[..0] == [];
      var start := 0;
      var k := 0;
      while start < |ids|
        invariant start <= |ids| && k <= |Chunked(ids, batchSize)|
        invariant k < |Chunked(ids, batchSize)| ==> start == k * batchSize
        invariant k < |Chunked(ids, batchSize)| <==> start < |ids|
        invariant points == Written(basePoints, ids[..start], vectors[..start], payloads[..start])
        invariant calls == baseCalls + UpsertCalls(Chunked(ids, batchSize)[..k])
        invariant ready && collections == old(collections)
        decreases |ids| - start
      {
        start := UpsertOneBatch(ids, vectors, payloads, batchSize, start, k, basePoints, baseCalls);
        k := k + 1;
      }
      assert ids[..start] == ids && vectors[..start] == vectors && payloads[..start] == payloads;
      assert Chunked(ids, batchSize)[..k] == Chunked(ids, batchSize);
    }

    /**
     * `query_similar_chunks`, given the query's embedding, the store's ranking of point ids and
     * their scores: no hits and no request for an empty embedding or before the collection is
     * ready; otherwise one filtered query for at most `k` points of the document.
     */
    method QuerySimilarChunks(documentId: int, queryVector: Vector, k: int, order: seq<string>, score: string -> real)
      returns (hits: seq<Hit>)
      requires Valid()
      modifies this
      ensures Valid() && ready == old(ready) && collections == old(collections) && points == old(points)
      ensures queryVector == [] || !ready ==> hits == [] && calls == old(calls)
      ensures queryVector != [] && ready ==>
                calls == old(calls) + [QueryPoints(k, documentId)]
                && hits == Hits(points, QueryIds(points, documentId, order, k), score)
    {
      if |queryVector| == 0 {
        return [];
      }
      if !ready {
        return [];
      }
      calls := calls + [QueryPoints(k, documentId)];
      var found := QueryIds(points, documentId, order, k);
      hits := [];
      var i := 0;
      while i < |found|
        invariant 0 <= i <= |found|
        invariant |hits| == i
        invariant forall j :: 0 <= j < i ==> hits[j] == HitOf(found[j], points[found[j]], score(found[j]))
      {
        var p := points[found[i]];
        hits := hits + [Hit(found[i], p.payload.text,
                            Metadata(p.payload.chunk_index, p.payload.page_start, p.payload.page_end, p.payload.section_title),
                            score(found[i]))];
        i := i + 1;
      }
    }

    /**
     * `delete_document_chunks`: nothing before the collection is ready; otherwise one filtered
     * delete that removes exactly the points of the document.
     */
    method DeleteDocumentChunks(documentId: int)
      requires Valid()
      modifies this
      ensures Valid() && ready == old(ready) && collections == old(collections)
      ensures !ready ==> points == old(points) && calls == old(calls)
      ensures ready ==> points == WithoutDocument(old(points), documentId)
                        && calls == old(calls) + [DeleteByDocument(documentId)]
    {
      if !ready {
        return;
      }
      calls := calls + [DeleteByDocument(documentId)];
      points := WithoutDocument(points, documentId);
    }
  }
}
