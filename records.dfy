/**
 * Rows of the document store (documents, chunks, blocks) and the store itself.
 * A session's `db.add` appends a row; commits, rollbacks and closing are storage plumbing.
 */
module Records {
  import opened Wrappers

  /** A `documents` row as far as the pipeline reads it. */
  datatype Document = Document(id: int, filename: string, language: Option<string>)

  /** A `document_chunks` row (summary, keywords and topics are always None when created). */
  datatype DocumentChunk = DocumentChunk(
    document_id: int,
    parse_id: Option<int>,
    chunk_index: int,
    token_count: int,
    text: string,
    section_title: Option<string>,
    page_start: Option<int>,
    page_end: Option<int>)

  /** A `document_blocks` row. */
  datatype DocumentBlock = DocumentBlock(
    document_id: int,
    parse_id: Option<int>,
    block_index: int,
    block_type: string,
    semantic_label: Option<string>,
    title: Option<string>,
    content: string,
    summary: Option<string>,
    confidence: Option<real>)

  /** One `key: value` entry of a parsed CSV row (a `csv.DictReader` dict), in the row's key order. */
  datatype Field = Field(key: string, value: string)

  type Row = seq<Field>

  /** The row's keys in order (`list(row.keys())`). */
  function Keys(row: Row): (r: seq<string>)
    ensures |r| == |row|
  {
    seq(|row|, i requires 0 <= i < |row| => row[i].key)
  }

  /** `row.get(key)`: the value of the first entry with that key. */
  function Lookup(row: Row, key: string): (r: Option<string>)
    ensures r.None? <==> key !in Keys(row)
    ensures r.Some? ==> exists i :: 0 <= i < |row| && row[i] == Field(key, r.value)
  {
    if row == [] then None
    else if row[0].key == key then (assert Keys(row)[0] == key; Some(row[0].value))
    else (assert Keys(row[1..]) == Keys(row)[1..]; Lookup(row[1..], key))
  }

  /** Rows are only ever appended here, so the autoincrement key of the row at `position` is `position + 1`. */
  function RowId(position: nat): int {
    position + 1
  }

  /** The document store shared by all sessions. */
  class Database {
    var documents: seq<Document>
    var chunks: seq<DocumentChunk>
    var blocks: seq<DocumentBlock>

    constructor (documents: seq<Document>)
      ensures this.documents == documents && chunks == [] && blocks == []
    {
      this.documents := documents;
      chunks := [];
      blocks := [];
    }

    /** `db.add(DocumentChunk(...))`. */
    method AddChunk(c: DocumentChunk)
      modifies this
      ensures chunks == old(chunks) + [c]
      ensures documents == old(documents) && blocks == old(blocks)
    {
      chunks := chunks + [c];
    }

    /** `db.add(DocumentBlock(...))`. */
    method AddBlock(b: DocumentBlock)
      modifies this
      ensures blocks == old(blocks) + [b]
      ensures documents == old(documents) && chunks == old(chunks)
    {
      blocks := blocks + [b];
    }

    /** `db.add_all(blocks)`. */
    method AddAll(bs: seq<DocumentBlock>)
      modifies this
      ensures blocks == old(blocks) + bs
      ensures documents == old(documents) && chunks == old(chunks)
    {
      blocks := blocks + bs;
    }

    /** Assignment to fields of an already stored block. */
    method UpdateBlock(position: nat, b: DocumentBlock)
      requires position < |blocks|
      modifies this
      ensures blocks == old(blocks)[position := b]
      ensures documents == old(documents) && chunks == old(chunks)
    {
      blocks := blocks[position := b];
    }
  }
}
