/**
 * `create_blocks_from_chunks`: the chunks of one parse, in `chunk_index` order, grouped five at a
 * time into section blocks numbered from 0.
 */
module DocumentBlocks {
  import opened Wrappers
  import opened Seqs
  import opened Strings
  import opened Records

  const ChunksPerBlock: nat := 5

  /** Longest block summary, `content[:500]`. */
  const SummaryLength: nat := 500

  predicate OfParse(c: DocumentChunk, documentId: int, parseId: int) {
    c.document_id == documentId && c.parse_id == Some(parseId)
  }

  /**
   * The query: the chunks of `document_id` and `parse_id`, ordered by `chunk_index`; it holds
   * each matching chunk as many times as the table does, and nothing else.
   */
  function ParseChunks(chunks: seq<DocumentChunk>, documentId: int, parseId: int): (r: seq<DocumentChunk>)
    ensures SortedBy(r, (c: DocumentChunk) => c.chunk_index)
    ensures forall c :: c in r <==> c in chunks && OfParse(c, documentId, parseId)
    ensures forall c :: multiset(r)[c] == if OfParse(c, documentId, parseId) then multiset(chunks)[c] else 0
  {
    var matching := Filter(chunks, (c: DocumentChunk) => OfParse(c, documentId, parseId));
    var r := SortBy(matching, (c: DocumentChunk) => c.chunk_index);
    assert forall c :: c in r <==> c in multiset(r);
    assert forall c :: c in matching <==> c in multiset(matching);
    r
  }

  /** `"\n\n".join(c.text for c in group)`. */
  function GroupText(group: seq<DocumentChunk>): string {
    Join("\n\n", seq(|group|, j requires 0 <= j < |group| => group[j].text))
  }

  /** The block made of one group of chunks. */
  function SectionBlock(documentId: int, parseId: int, index: int, group: seq<DocumentChunk>): DocumentBlock {
    var text := GroupText(group);
    DocumentBlock(documentId, Some(parseId), index, "section", None, None, text, Some(Prefix(text, SummaryLength)), None)
  }

  /** The blocks for consecutive groups, the group at position `k` giving block `k`. */
  function SectionBlocks(documentId: int, parseId: int, groups: seq<seq<DocumentChunk>>): (r: seq<DocumentBlock>)
    ensures |r| == |groups|
    ensures forall k :: 0 <= k < |groups| ==> r[k] == SectionBlock(documentId, parseId, k, groups[k])
  {
    if groups == [] then []
    else SectionBlocks(documentId, parseId, groups[..|groups| - 1])
         + [SectionBlock(documentId, parseId, |groups| - 1, groups[|groups| - 1])]
  }

  /** The blocks `create_blocks_from_chunks` adds when the store holds `chunks`. */
  function BlocksFromChunks(chunks: seq<DocumentChunk>, documentId: int, parseId: int): seq<DocumentBlock> {
    SectionBlocks(documentId, parseId, Chunked(ParseChunks(chunks, documentId, parseId), ChunksPerBlock))
  }

  lemma SectionBlocksSnoc(documentId: int, parseId: int, groups: seq<seq<DocumentChunk>>, k: nat)
    requires k < |groups|
    ensures SectionBlocks(documentId, parseId, groups[..k + 1])
         == SectionBlocks(documentId, parseId, groups[..k]) + [SectionBlock(documentId, parseId, k, groups[k])]
  {
    assert groups[..k + 1][..k] == groups[..k];
  }

  /** One step of the group loop: the group at `k` starts at chunk `5k`, and its block extends the blocks before it. */
  lemma GroupStep(documentId: int, parseId: int, chunks: seq<DocumentChunk>, k: nat)
    requires k < |Chunked(chunks, ChunksPerBlock)|
    ensures k * 5 < |chunks|
    ensures SectionBlocks(documentId, parseId, Chunked(chunks, ChunksPerBlock)[..k + 1])
         == SectionBlocks(documentId, parseId, Chunked(chunks, ChunksPerBlock)[..k])
            + [SectionBlock(documentId, parseId, k, chunks[k * 5..Min(k * 5 + ChunksPerBlock, |chunks|)])]
    ensures k + 1 < |Chunked(chunks, ChunksPerBlock)| <==> (k + 1) * 5 < |chunks|
  {
    ChunkedAt(chunks, ChunksPerBlock, k);
    SectionBlocksSnoc(documentId, parseId, Chunked(chunks, ChunksPerBlock), k);
    WindowCountBound(|chunks|, ChunksPerBlock, k + 1);
  }

  /**
   * The body of the group loop: adds the block for group `k`, which starts at chunk `i`, after
   * the blocks for the groups before it.
   */
  method AddSectionBlock(db: Database, documentId: int, parseId: int, chunks: seq<DocumentChunk>,
                         i: nat, k: nat, ghost base: seq<DocumentBlock>)
    requires k < |Chunked(chunks, ChunksPerBlock)| && i == k * 5
    requires db.blocks == base + SectionBlocks(documentId, parseId, Chunked(chunks, ChunksPerBlock)[..k])
    modifies db
    ensures db.blocks == base + SectionBlocks(documentId, parseId, Chunked(chunks, ChunksPerBlock)[..k + 1])
    ensures k + 1 < |Chunked(chunks, ChunksPerBlock)| <==> i + ChunksPerBlock < |chunks|
    ensures db.chunks == old(db.chunks) && db.documents == old(db.documents)
  {
    GroupStep(documentId, parseId, chunks, k);
    var group := chunks[i..Min(i + ChunksPerBlock, |chunks|)];
    var combinedText := GroupText(group);
    var block := DocumentBlock(documentId, Some(parseId), k, "section", None, None,
                               combinedText, Some(Prefix(combinedText, SummaryLength)), None);
    assert block == SectionBlock(documentId, parseId, k, group);
    db.AddBlock(block);
    AppendAssoc(base, SectionBlocks(documentId, parseId, Chunked(chunks, ChunksPerBlock)[..k]), [block]);
  }

  /** The group loop: one block per run of five of `chunks`, numbered from 0; returns their number. */
  method AddGroupBlocks(db: Database, documentId: int, parseId: int, chunks: seq<DocumentChunk>) returns (blocksCreated: nat)
    modifies db
    ensures db.blocks == old(db.blocks) + SectionBlocks(documentId, parseId, Chunked(chunks, ChunksPerBlock))
    ensures blocksCreated == |Chunked(chunks, ChunksPerBlock)|
    ensures db.chunks == old(db.chunks) && db.documents == old(db.documents)
  {
    ghost var groups := Chunked(chunks, ChunksPerBlock);
    WindowCountBound(|chunks|, ChunksPerBlock, 0);
    blocksCreated := 0;
    var i := 0;
    while i < |chunks|
      invariant i == blocksCreated * 5
      invariant blocksCreated <= |groups|
      invariant blocksCreated < |groups| <==> i < |chunks|
      invariant db.blocks == old(db.blocks) + SectionBlocks(documentId, parseId, groups[..blocksCreated])
      invariant db.chunks == old(db.chunks) && db.documents == old(db.documents)
      decreases |chunks| - i
    {
      AddSectionBlock(db, documentId, parseId, chunks, i, blocksCreated, old(db.blocks));
      blocksCreated := blocksCreated + 1;
      i := i + ChunksPerBlock;
    }
    assert groups[..blocksCreated] == groups;
  }

  /**
   * `create_blocks_from_chunks`: a block per run of five chunks of the parse (the last run may be
   * shorter), added in order; returns the number of blocks.
   */
  method CreateBlocksFromChunks(db: Database, documentId: int, parseId: int) returns (blocksCreated: nat)
    modifies db
    ensures db.blocks == old(db.blocks) + BlocksFromChunks(old(db.chunks), documentId, parseId)
    ensures blocksCreated == |BlocksFromChunks(old(db.chunks), documentId, parseId)|
    ensures db.chunks == old(db.chunks) && db.documents == old(db.documents)
  {
    var chunks := ParseChunks(db.chunks, documentId, parseId);
    if |chunks| == 0 {
      return 0;
    }
    blocksCreated := AddGroupBlocks(db, documentId, parseId, chunks);
  }

  /** Block `k` of the blocks for the ordered chunks `cs`. */
  lemma SectionBlockAt(documentId: int, parseId: int, cs: seq<DocumentChunk>, k: nat)
    requires k < |SectionBlocks(documentId, parseId, Chunked(cs, ChunksPerBlock))|
    ensures var b := SectionBlocks(documentId, parseId, Chunked(cs, ChunksPerBlock))[k];
            k * ChunksPerBlock < |cs|
            && b == SectionBlock(documentId, parseId, k, cs[k * ChunksPerBlock .. Min(k * ChunksPerBlock + ChunksPerBlock, |cs|)])
  {
    ChunkedAt(cs, ChunksPerBlock, k);
  }

  /**
   * The blocks: ceil(n / 5) of them for the n matching chunks, none when there are none; block
   * `k` is numbered `k`, is a `section` block of the parse with no label, title or confidence,
   * holds the texts of chunks `5k .. 5k+4` joined by blank lines, and its summary is the first 500
   * characters of that content.
   */
  lemma BlocksFromChunksSpec(chunks: seq<DocumentChunk>, documentId: int, parseId: int)
    ensures var cs := ParseChunks(chunks, documentId, parseId);
            var bs := BlocksFromChunks(chunks, documentId, parseId);
            |bs| == CeilDiv(|cs|, ChunksPerBlock)
            && (bs == [] <==> cs == [])
            && forall k :: 0 <= k < |bs| ==>
                 k * ChunksPerBlock < |cs|
                 && bs[k].block_index == k && bs[k].document_id == documentId && bs[k].parse_id == Some(parseId)
                 && bs[k].block_type == "section"
                 && bs[k].semantic_label.None? && bs[k].title.None? && bs[k].confidence.None?
                 && bs[k].content == GroupText(cs[k * ChunksPerBlock .. Min(k * ChunksPerBlock + ChunksPerBlock, |cs|)])
                 && bs[k].summary == Some(bs[k].content[..Min(SummaryLength, |bs[k].content|)])
  {
    var cs := ParseChunks(chunks, documentId, parseId);
    WindowCountIsCeiling(|cs|, ChunksPerBlock);
    WindowCountBound(|cs|, ChunksPerBlock, 0);
    forall k | 0 <= k < |BlocksFromChunks(chunks, documentId, parseId)| {
      SectionBlockAt(documentId, parseId, cs, k);
    }
  }
}
