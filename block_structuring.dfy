/**
 * `structure_blocks`: each block of one parse, in `block_index` order, goes to the language model;
 * the JSON object it answers (or a fixed fallback object when the answer is not JSON) sets the
 * block's label, title and summary, and the objects are returned in block order. A request that
 * raises ends the run with its error, after the earlier blocks were committed.
 */
module BlockStructuring {
  import opened Wrappers
  import opened Seqs
  import opened Strings
  import opened Records

  /** Longest fallback summary, `block.content[:500]`. */
  const SummaryLength: nat := 500

  /** A parsed JSON object whose values are strings or `null`. */
  type JsonObject = map<string, Option<string>>

  /**
   * The model's answer for one block: a JSON object, text `json.loads` rejects, a raising
   * `chat.completions.create`, or a message whose content is None (`json.loads` raises a TypeError
   * the `except` clause does not catch).
   */
  datatype Reply = Object(fields: JsonObject) | NotJson | CallRaised | NoContent

  /** An answer on which `structure_blocks` raises. */
  predicate Raises(reply: Reply) {
    reply.CallRaised? || reply.NoContent?
  }

  /** What `structure_blocks` raises, for the request it was raised on. */
  datatype StructureError =
    | ClientError(request: nat)  // `chat.completions.create` raised
    | ContentNone(request: nat)  // `json.loads(None)` raised a TypeError

  function RaisedError(reply: Reply, k: nat): StructureError
    requires Raises(reply)
  {
    if reply.CallRaised? then ClientError(k) else ContentNone(k)
  }

  /** The first of the requests `0..n-1` that raises, or `n` when none does. */
  function FirstRaise(reply: nat -> Reply, n: nat): (f: nat)
    ensures f <= n
    ensures forall k :: 0 <= k < f ==> !Raises(reply(k))
    ensures f < n ==> Raises(reply(f))
    decreases n
  {
    if n == 0 then 0
    else
      var f := FirstRaise(reply, n - 1);
      if f < n - 1 || Raises(reply(n - 1)) then f else n
  }

  /** A request that returns, at or before the first raising one, is not the first raising one. */
  lemma FirstRaisePast(reply: nat -> Reply, n: nat, k: nat)
    requires k < n && k <= FirstRaise(reply, n) && !Raises(reply(k))
    ensures k + 1 <= FirstRaise(reply, n)
  {
  }

  /** Answers `0..|ps|-1` all return. */
  predicate Answered(ps: seq<nat>, reply: nat -> Reply) {
    forall k :: 0 <= k < |ps| ==> !Raises(reply(k))
  }

  /** No request of `ps` raises exactly when the first raising one is past them all. */
  lemma FirstRaiseAll(ps: seq<nat>, reply: nat -> Reply)
    ensures FirstRaise(reply, |ps|) == |ps| <==> Answered(ps, reply)
  {
  }

  /** `obj.get(key)`: the value, or None when the key is absent. */
  function Get(obj: JsonObject, key: string): Option<string> {
    if key in obj then obj[key] else None
  }

  /** The object used when the answer is not valid JSON. */
  function Fallback(content: string): (r: JsonObject)
    ensures Get(r, "section_type") == Some("other") && Get(r, "title") == None
    ensures Get(r, "content") == Some(content)
    ensures Get(r, "summary") == Some(Prefix(content, SummaryLength))
  {
    map["section_type" := Some("other"), "title" := None, "content" := Some(content),
        "summary" := Some(Prefix(content, SummaryLength))]
  }

  /**
   * The object `structure_blocks` works with for an answer that returns; the loop stops before a
   * raising answer, so the value given for one is never used.
   */
  function Parsed(reply: Reply, content: string): JsonObject {
    if reply.Object? then reply.fields else Fallback(content)
  }

  /** The block with its label, title and summary taken from `obj`. */
  function Structured(b: DocumentBlock, obj: JsonObject): (r: DocumentBlock)
    ensures r.semantic_label == Get(obj, "section_type") && r.title == Get(obj, "title")
    ensures r.summary == Get(obj, "summary")
    ensures r.document_id == b.document_id && r.parse_id == b.parse_id && r.block_index == b.block_index
    ensures r.block_type == b.block_type && r.content == b.content && r.confidence == b.confidence
  {
    b.(semantic_label := Get(obj, "section_type"), title := Get(obj, "title"), summary := Get(obj, "summary"))
  }

  predicate OfParse(b: DocumentBlock, documentId: int, parseId: int) {
    b.document_id == documentId && b.parse_id == Some(parseId)
  }

  /** `block_index` of the stored block at `p`, the key the query orders by. */
  function IndexAt(blocks: seq<DocumentBlock>, p: nat): int {
    if p < |blocks| then blocks[p].block_index else 0
  }

  /** The sort key of the query on positions. */
  function IndexKey(blocks: seq<DocumentBlock>): nat -> int {
    (p: nat) => IndexAt(blocks, p)
  }

  /** The positions of the blocks of the parse, in store order, each once. */
  function Matching(blocks: seq<DocumentBlock>, documentId: int, parseId: int): (r: seq<nat>)
    ensures forall p: nat :: p in r <==> p < |blocks| && OfParse(blocks[p], documentId, parseId)
    ensures forall x :: multiset(r)[x] <= 1
  {
    var all := Range(|blocks|);
    var r := Filter<nat>(all, (p: nat) => p < |blocks| && OfParse(blocks[p], documentId, parseId));
    forall p: nat | p < |blocks| && OfParse(blocks[p], documentId, parseId) ensures p in r {
      assert all[p] == p;
    }
    forall x: nat ensures multiset(all)[x] <= 1 {
      DistinctCount(all, x);
    }
    r
  }

  /**
   * The query, as positions in the store: the blocks of the parse, each once, ordered by
   * `block_index`.
   */
  function QueryPositions(blocks: seq<DocumentBlock>, documentId: int, parseId: int): (r: seq<nat>)
    ensures forall k :: 0 <= k < |r| ==> r[k] < |blocks| && OfParse(blocks[r[k]], documentId, parseId)
    ensures forall p :: 0 <= p < |blocks| && OfParse(blocks[p], documentId, parseId) ==> p in r
    ensures Distinct(r)
    ensures forall i, j :: 0 <= i < j < |r| ==> blocks[r[i]].block_index <= blocks[r[j]].block_index
  {
    var r := SortBy<nat>(Matching(blocks, documentId, parseId), IndexKey(blocks));
    SortedMatching(blocks, documentId, parseId);
    SortedPositions(blocks, r);
    r
  }

  /** Sorting the matching positions keeps exactly them, each once. */
  lemma SortedMatching(blocks: seq<DocumentBlock>, documentId: int, parseId: int)
    ensures var r := SortBy<nat>(Matching(blocks, documentId, parseId), IndexKey(blocks));
            (forall k :: 0 <= k < |r| ==> r[k] < |blocks| && OfParse(blocks[r[k]], documentId, parseId))
            && (forall p :: 0 <= p < |blocks| && OfParse(blocks[p], documentId, parseId) ==> p in r)
            && Distinct(r)
  {
    var matching := Matching(blocks, documentId, parseId);
    var r := SortBy<nat>(matching, IndexKey(blocks));
    forall k | 0 <= k < |r| ensures r[k] < |blocks| && OfParse(blocks[r[k]], documentId, parseId) {
      assert r[k] in multiset(r);
    }
    forall p | 0 <= p < |blocks| && OfParse(blocks[p], documentId, parseId) ensures p in r {
      assert p in multiset(matching);
    }
    CountDistinct(r);
  }

  lemma SortedPositions(blocks: seq<DocumentBlock>, r: seq<nat>)
    requires SortedBy(r, IndexKey(blocks))
    requires forall k :: 0 <= k < |r| ==> r[k] < |blocks|
    ensures forall i, j :: 0 <= i < j < |r| ==> blocks[r[i]].block_index <= blocks[r[j]].block_index
  {
    forall i, j | 0 <= i < j < |r| ensures blocks[r[i]].block_index <= blocks[r[j]].block_index {
      assert IndexKey(blocks)(r[i]) <= IndexKey(blocks)(r[j]);
    }
  }

  /**
   * The store after the first `|ps|` answers: the blocks at `ps[k]` structured by answer `k`,
   * in order.
   */
  function ApplyReplies(blocks: seq<DocumentBlock>, ps: seq<nat>, reply: nat -> Reply): (r: seq<DocumentBlock>)
    requires forall k :: 0 <= k < |ps| ==> ps[k] < |blocks|
    ensures |r| == |blocks|
    ensures forall p :: 0 <= p < |blocks| ==> r[p].content == blocks[p].content
    decreases |ps|
  {
    if ps == [] then blocks
    else
      var prev := ApplyReplies(blocks, ps[..|ps| - 1], reply);
      var p := ps[|ps| - 1];
      prev[p := Structured(prev[p], Parsed(reply(|ps| - 1), prev[p].content))]
  }

  /** The objects returned for the blocks at `ps`, answer `k` for the block at `ps[k]`. */
  function Results(blocks: seq<DocumentBlock>, ps: seq<nat>, reply: nat -> Reply): (r: seq<JsonObject>)
    requires forall k :: 0 <= k < |ps| ==> ps[k] < |blocks|
    ensures |r| == |ps|
  {
    seq(|ps|, k requires 0 <= k < |ps| => Parsed(reply(k), blocks[ps[k]].content))
  }

  /** The outcome of the block loop over `ps`: every result, or the first raising request's error. */
  function Outcome(blocks: seq<DocumentBlock>, ps: seq<nat>, reply: nat -> Reply): Result<seq<JsonObject>, StructureError>
    requires forall k :: 0 <= k < |ps| ==> ps[k] < |blocks|
  {
    var f := FirstRaise(reply, |ps|);
    if f < |ps| then Failure(RaisedError(reply(f), f)) else Success(Results(blocks, ps, reply))
  }

  /** The store after the block loop over `ps`: the blocks before the first raising request structured. */
  function Applied(blocks: seq<DocumentBlock>, ps: seq<nat>, reply: nat -> Reply): seq<DocumentBlock>
    requires forall k :: 0 <= k < |ps| ==> ps[k] < |blocks|
  {
    ApplyReplies(blocks, ps[..FirstRaise(reply, |ps|)], reply)
  }

  /** The store after `structure_blocks`, which commits block by block. */
  function StructuredStore(blocks: seq<DocumentBlock>, documentId: int, parseId: int, reply: nat -> Reply): seq<DocumentBlock> {
    Applied(blocks, QueryPositions(blocks, documentId, parseId), reply)
  }

  /**
   * What `structure_blocks` returns or raises. It raises exactly when some request raises, with the
   * first such request's error. Otherwise it returns nothing when the parse has no block, and else
   * one object per block of the parse, in `block_index` order: the answer's object, or the fallback
   * (`other`, no title, the content, its first 500 characters) when the answer is not JSON.
   */
  function StructuredResults(blocks: seq<DocumentBlock>, documentId: int, parseId: int, reply: nat -> Reply)
    : (r: Result<seq<JsonObject>, StructureError>)
    ensures var ps := QueryPositions(blocks, documentId, parseId);
            var f := FirstRaise(reply, |ps|);
            (r.Success? <==> Answered(ps, reply))
            && (r.Failure? ==> f < |ps| && r.error == RaisedError(reply(f), f))
            && (r.Success? ==>
                  |r.value| == |ps|
                  && (r.value == [] <==> forall p :: 0 <= p < |blocks| ==> !OfParse(blocks[p], documentId, parseId))
                  && (forall k :: 0 <= k < |ps| ==>
                        OfParse(blocks[ps[k]], documentId, parseId)
                        && r.value[k] == (if reply(k).Object? then reply(k).fields else Fallback(blocks[ps[k]].content))))
  {
    var ps := QueryPositions(blocks, documentId, parseId);
    var r := Outcome(blocks, ps, reply);
    FirstRaiseAll(ps, reply);
    if r.Success? then
      QueryResults(blocks, documentId, parseId, reply, ps, r.value);
      r
    else
      r
  }

  /** The objects for the queried positions when every request returns: one per block of the parse. */
  lemma QueryResults(blocks: seq<DocumentBlock>, documentId: int, parseId: int, reply: nat -> Reply,
                     ps: seq<nat>, results: seq<JsonObject>)
    requires ps == QueryPositions(blocks, documentId, parseId)
    requires Answered(ps, reply)
    requires results == Results(blocks, ps, reply)
    ensures |results| == |ps|
    ensures results == [] <==> forall p :: 0 <= p < |blocks| ==> !OfParse(blocks[p], documentId, parseId)
    ensures forall k :: 0 <= k < |ps| ==>
              OfParse(blocks[ps[k]], documentId, parseId)
              && results[k] == (if reply(k).Object? then reply(k).fields else Fallback(blocks[ps[k]].content))
  {
    if results != [] {
      assert OfParse(blocks[ps[0]], documentId, parseId);
    }
    forall k | 0 <= k < |ps|
      ensures results[k] == (if reply(k).Object? then reply(k).fields else Fallback(blocks[ps[k]].content))
    {
      assert results[k] == Parsed(reply(k), blocks[ps[k]].content);
    }
  }

  // ---------------------------------------------------------------------------------------------
  // Properties

  /**
   * With distinct positions, the block at `ps[k]` ends up structured by answer `k` and every other
   * block is as it was.
   */
  lemma {:induction false} ApplyRepliesSpec(blocks: seq<DocumentBlock>, ps: seq<nat>, reply: nat -> Reply)
    requires forall k :: 0 <= k < |ps| ==> ps[k] < |blocks|
    requires Distinct(ps)
    ensures forall p :: 0 <= p < |blocks| && p !in ps ==> ApplyReplies(blocks, ps, reply)[p] == blocks[p]
    ensures forall k :: 0 <= k < |ps| ==>
              ApplyReplies(blocks, ps, reply)[ps[k]] == Structured(blocks[ps[k]], Results(blocks, ps, reply)[k])
    decreases |ps|
  {
    ApplyRepliesKeeps(blocks, ps, reply);
    ApplyRepliesAt(blocks, ps, reply);
    forall k | 0 <= k < |ps| ensures Results(blocks, ps, reply)[k] == Parsed(reply(k), blocks[ps[k]].content) {
    }
  }

  /** A block at no position of `ps` is left as it was. */
  lemma {:induction false} ApplyRepliesKeeps(blocks: seq<DocumentBlock>, ps: seq<nat>, reply: nat -> Reply)
    requires forall k :: 0 <= k < |ps| ==> ps[k] < |blocks|
    ensures forall p :: 0 <= p < |blocks| && p !in ps ==> ApplyReplies(blocks, ps, reply)[p] == blocks[p]
    decreases |ps|
  {
    if ps != [] {
      var init := ps[..|ps| - 1];
      ApplyRepliesKeeps(blocks, init, reply);
      assert forall p :: p in init ==> p in ps;
    }
  }

  /** With distinct positions, the block at `ps[k]` is structured by answer `k`. */
  lemma {:induction false} ApplyRepliesAt(blocks: seq<DocumentBlock>, ps: seq<nat>, reply: nat -> Reply)
    requires forall k :: 0 <= k < |ps| ==> ps[k] < |blocks|
    requires Distinct(ps)
    ensures forall k :: 0 <= k < |ps| ==>
              ApplyReplies(blocks, ps, reply)[ps[k]] == Structured(blocks[ps[k]], Parsed(reply(k), blocks[ps[k]].content))
    decreases |ps|
  {
    if ps != [] {
      var n := |ps| - 1;
      var init := ps[..n];
      var last := ps[n];
      var prev := ApplyReplies(blocks, init, reply);
      var after := ApplyReplies(blocks, ps, reply);
      assert Distinct(init);
      ApplyRepliesAt(blocks, init, reply);
      ApplyRepliesKeeps(blocks, init, reply);
      assert last !in init;
      assert prev[last] == blocks[last];
      assert after == prev[last := Structured(blocks[last], Parsed(reply(n), blocks[last].content))];
      forall k | 0 <= k < n
        ensures after[ps[k]] == Structured(blocks[ps[k]], Parsed(reply(k), blocks[ps[k]].content))
      {
        assert init[k] == ps[k] && ps[k] != last;
      }
    }
  }

  /**
   * With distinct positions, the loop cut at the first raising request leaves the blocks it
   * reached structured by their answers and every other block as it was.
   */
  lemma AppliedSpec(blocks: seq<DocumentBlock>, ps: seq<nat>, reply: nat -> Reply)
    requires forall k :: 0 <= k < |ps| ==> ps[k] < |blocks|
    requires Distinct(ps)
    ensures var f := FirstRaise(reply, |ps|);
            var after := Applied(blocks, ps, reply);
            |after| == |blocks|
            && (forall p :: 0 <= p < |blocks| && p !in ps ==> after[p] == blocks[p])
            && (forall k :: 0 <= k < f ==> after[ps[k]] == Structured(blocks[ps[k]], Parsed(reply(k), blocks[ps[k]].content)))
            && (forall k :: f <= k < |ps| ==> after[ps[k]] == blocks[ps[k]])
  {
    var f := FirstRaise(reply, |ps|);
    var done := ps[..f];
    forall i, j | 0 <= i < j < |done| ensures done[i] != done[j] {
      assert done[i] == ps[i] && done[j] == ps[j];
    }
    ApplyRepliesKeeps(blocks, done, reply);
    ApplyRepliesAt(blocks, done, reply);
    forall k | 0 <= k < f
      ensures ApplyReplies(blocks, done, reply)[ps[k]] == Structured(blocks[ps[k]], Parsed(reply(k), blocks[ps[k]].content))
    {
      assert done[k] == ps[k];
    }
    forall p | p in done ensures p in ps {
      var i :| 0 <= i < |done| && done[i] == p;
      assert ps[i] == p;
    }
    forall k | f <= k < |ps| ensures ps[k] !in done {
      forall i | 0 <= i < |done| ensures done[i] != ps[k] {
        assert done[i] == ps[i];
      }
    }
  }

  /**
   * The store after `structure_blocks`: the blocks of the parse queried before the first raising
   * request have their label, title and summary from their answer's object (None for an absent
   * key) and every other field, the content among them, unchanged; the blocks from that request
   * on, and the blocks of other documents or parses, are unchanged.
   */
  lemma StructuredStoreSpec(blocks: seq<DocumentBlock>, documentId: int, parseId: int, reply: nat -> Reply)
    ensures var ps := QueryPositions(blocks, documentId, parseId);
            var f := FirstRaise(reply, |ps|);
            var after := StructuredStore(blocks, documentId, parseId, reply);
            |after| == |blocks|
            && (forall k :: 0 <= k < f ==> after[ps[k]] == Structured(blocks[ps[k]], Parsed(reply(k), blocks[ps[k]].content)))
            && (forall k :: f <= k < |ps| ==> after[ps[k]] == blocks[ps[k]])
            && (forall p :: 0 <= p < |blocks| && !OfParse(blocks[p], documentId, parseId) ==> after[p] == blocks[p])
  {
    var ps := QueryPositions(blocks, documentId, parseId);
    AppliedSpec(blocks, ps, reply);
  }

  // ---------------------------------------------------------------------------------------------
  // The service

  lemma ResultsSnoc(blocks: seq<DocumentBlock>, ps: seq<nat>, k: nat, reply: nat -> Reply)
    requires forall j :: 0 <= j < |ps| ==> ps[j] < |blocks|
    requires k < |ps|
    ensures Results(blocks, ps[..k + 1], reply)
         == Results(blocks, ps[..k], reply) + [Parsed(reply(k), blocks[ps[k]].content)]
  {
  }

  /**
   * One pass of the block loop: request `k` either raises, with nothing changed, or its answer
   * structures the block at `ps[k]`, which is committed.
   */
  method StructureOne(db: Database, ghost stored: seq<DocumentBlock>, ps: seq<nat>, k: nat, reply: nat -> Reply)
    returns (r: Result<JsonObject, StructureError>)
    requires forall j :: 0 <= j < |ps| ==> ps[j] < |stored|
    requires k < |ps| && db.blocks == ApplyReplies(stored, ps[..k], reply)
    modifies db
    ensures r.Failure? <==> Raises(reply(k))
    ensures Raises(reply(k)) ==> r == Failure(RaisedError(reply(k), k)) && db.blocks == old(db.blocks)
    ensures !Raises(reply(k)) ==>
              r == Success(Parsed(reply(k), stored[ps[k]].content))
              && db.blocks == ApplyReplies(stored, ps[..k + 1], reply)
    ensures db.chunks == old(db.chunks) && db.documents == old(db.documents)
  {
    var p := ps[k];
    var block := db.blocks[p];
    var structuredJson: JsonObject;
    match reply(k) {
      case CallRaised =>
        return Failure(ClientError(k));
      case NoContent =>
        return Failure(ContentNone(k));
      case Object(fields) =>
        structuredJson := fields;
      case NotJson =>
        structuredJson := map["section_type" := Some("other"), "title" := None, "content" := Some(block.content),
                              "summary" := Some(Prefix(block.content, SummaryLength))];
    }
    assert ps[..k + 1][..k] == ps[..k];
    db.UpdateBlock(p, block.(semantic_label := Get(structuredJson, "section_type"),
                             title := Get(structuredJson, "title"),
                             summary := Get(structuredJson, "summary")));
    r := Success(structuredJson);
  }

  /** The loop over `ps` stopped by request `k`, the first that raises. */
  lemma OutcomeAt(blocks: seq<DocumentBlock>, ps: seq<nat>, reply: nat -> Reply, k: nat)
    requires forall j :: 0 <= j < |ps| ==> ps[j] < |blocks|
    requires k < |ps| && Raises(reply(k)) && k <= FirstRaise(reply, |ps|)
    ensures Outcome(blocks, ps, reply) == Failure(RaisedError(reply(k), k))
    ensures Applied(blocks, ps, reply) == ApplyReplies(blocks, ps[..k], reply)
  {
    assert FirstRaise(reply, |ps|) == k;
  }

  /** The loop over `ps` when no request raises. */
  lemma OutcomeAll(blocks: seq<DocumentBlock>, ps: seq<nat>, reply: nat -> Reply)
    requires forall j :: 0 <= j < |ps| ==> ps[j] < |blocks|
    requires FirstRaise(reply, |ps|) == |ps|
    ensures Outcome(blocks, ps, reply) == Success(Results(blocks, ps, reply))
    ensures Applied(blocks, ps, reply) == ApplyReplies(blocks, ps, reply)
  {
    assert ps[..|ps|] == ps;
  }

  /** The block loop over the positions `ps`, in order, until a request raises. */
  method StructureAll(db: Database, ps: seq<nat>, reply: nat -> Reply) returns (r: Result<seq<JsonObject>, StructureError>)
    requires forall j :: 0 <= j < |ps| ==> ps[j] < |db.blocks|
    modifies db
    ensures r == Outcome(old(db.blocks), ps, reply)
    ensures db.blocks == Applied(old(db.blocks), ps, reply)
    ensures db.chunks == old(db.chunks) && db.documents == old(db.documents)
  {
    ghost var stored := db.blocks;
    var structuredResults := [];
    var k := 0;
    while k < |ps|
      invariant k <= FirstRaise(reply, |ps|)
      invariant db.blocks == ApplyReplies(stored, ps[..k], reply)
      invariant structuredResults == Results(stored, ps[..k], reply)
      invariant db.chunks == old(db.chunks) && db.documents == old(db.documents)
    {
      var one := StructureOne(db, stored, ps, k, reply);
      if one.Failure? {
        OutcomeAt(stored, ps, reply, k);
        return Failure(one.error);
      }
      FirstRaisePast(reply, |ps|, k);
      ResultsSnoc(stored, ps, k, reply);
      structuredResults := structuredResults + [one.value];
      k := k + 1;
    }
    assert ps[..k] == ps;
    OutcomeAll(stored, ps, reply);
    r := Success(structuredResults);
  }

  /**
   * `structure_blocks(document_id, parse_id)`; `reply(k)` is the model's answer to the `k`-th
   * request.
   */
  method StructureBlocks(db: Database, documentId: int, parseId: int, reply: nat -> Reply)
    returns (r: Result<seq<JsonObject>, StructureError>)
    modifies db
    ensures r == StructuredResults(old(db.blocks), documentId, parseId, reply)
    ensures db.blocks == StructuredStore(old(db.blocks), documentId, parseId, reply)
    ensures db.chunks == old(db.chunks) && db.documents == old(db.documents)
  {
    var blocks := QueryPositions(db.blocks, documentId, parseId);
    if |blocks| == 0 {
      assert blocks[..0] == [];
      return Success([]);
    }
    r := StructureAll(db, blocks, reply);
  }
}
