/**
 * The ingestion chunking service: compact JSON lines for CSV rows, token-window chunking of text
 * with a carried-forward chunk index, PDF chunking that threads that index across structural
 * chunks, the streaming CSV chunker with row overlap, and the older fixed-size CSV row windows.
 */
module IngestionChunking {
  import opened Wrappers
  import opened Seqs
  import opened Strings
  import opened Records
  import opened TextChunking

  // ---------------------------------------------------------------- CSV helpers

  function HexDigit(d: nat): char
    requires d < 16
  {
    if d < 10 then DigitChar(d) else ('a' as int + d - 10) as char
  }

  /** `json.dumps` escaping of one character with `ensure_ascii=False`. */
  function EscapeChar(c: char): (r: string)
    ensures '\n' !in r
  {
    var n := c as int;
    if c == '\"' then ['\\', '\"']
    else if c == '\\' then ['\\', '\\']
    else if c == '\n' then ['\\', 'n']
    else if c == '\r' then ['\\', 'r']
    else if c == '\t' then ['\\', 't']
    else if n == 8 then ['\\', 'b']
    else if n == 12 then ['\\', 'f']
    else if n < 0x20 then ['\\', 'u', '0', '0', HexDigit(n / 16), HexDigit(n % 16)]
    else [c]
  }

  function EscapeJson(s: string): (r: string)
    ensures '\n' !in r
  {
    if s == [] then [] else EscapeChar(s[0]) + EscapeJson(s[1..])
  }

  /** A JSON string literal. */
  function JsonString(s: string): string {
    "\"" + EscapeJson(s) + "\""
  }

  function JsonMember(f: Field): (r: string)
    ensures '\n' !in r
  {
    JsonString(f.key) + ":" + JsonString(f.value)
  }

  /** The members of a JSON object, comma-separated, in the row's key order. */
  function JsonMembers(row: Row): (r: string)
    ensures '\n' !in r
  {
    if row == [] then ""
    else if |row| == 1 then JsonMember(row[0])
    else JsonMember(row[0]) + "," + JsonMembers(row[1..])
  }

  /**
   * `row_to_json_line`: `json.dumps(row, ensure_ascii=False, separators=(",", ":"))`; control
   * characters are escaped, so the line holds no newline.
   */
  function RowToJsonLine(row: Row): (r: string)
    ensures '\n' !in r
  {
    "{" + JsonMembers(row) + "}"
  }

  /** The members are the `Join` of the per-field members with a comma. */
  lemma {:induction false} JsonMembersIsJoin(row: Row)
    ensures JsonMembers(row) == Join(",", seq(|row|, i requires 0 <= i < |row| => JsonMember(row[i])))
  {
    if |row| > 1 {
      JsonMembersIsJoin(row[1..]);
      var ms := seq(|row|, i requires 0 <= i < |row| => JsonMember(row[i]));
      assert ms[1..] == seq(|row[1..]|, i requires 0 <= i < |row[1..]| => JsonMember(row[1..][i]));
    }
  }

  // ---------------------------------------------------------------- text chunking

  /**
   * `chunk_text_from_text`: adds one chunk row per token window of `text`, numbered from
   * `startIndex`, and returns the number of rows and the next free index.
   */
  method ChunkTextFromText(db: Database, tok: Tokenizer, documentId: int, parseId: Option<int>,
                           text: string, maxTokens: nat, meta: SectionMeta, startIndex: int)
    returns (created: nat, nextIndex: int)
    requires maxTokens > 0
    modifies db
    ensures db.chunks == old(db.chunks) + TextChunks(tok, documentId, parseId, text, maxTokens, meta, startIndex)
    ensures created == |TextChunks(tok, documentId, parseId, text, maxTokens, meta, startIndex)|
    ensures nextIndex == startIndex + created
    ensures db.documents == old(db.documents) && db.blocks == old(db.blocks)
  {
    if IsBlank(text) {
      return 0, startIndex;
    }
    var chunks := TextWindows(tok, text, maxTokens);
    ghost var spec := TextChunks(tok, documentId, parseId, text, maxTokens, meta, startIndex);
    var i := 0;
    while i < |chunks|
      invariant 0 <= i <= |chunks| == |spec|
      invariant db.chunks == old(db.chunks) + spec[..i]
      invariant db.documents == old(db.documents) && db.blocks == old(db.blocks)
    {
      db.AddChunk(WindowChunk(tok, documentId, parseId, chunks[i], meta, startIndex + i));
      assert spec[..i + 1] == spec[..i] + [spec[i]];
      i := i + 1;
    }
    assert spec[..i] == spec;
    created := |chunks|;
    nextIndex := startIndex + |chunks|;
  }

  // ---------------------------------------------------------------- PDF chunking

  /** An entry of a structural chunk's heading context. */
  datatype Heading = Heading(title: Option<string>)

  /**
   * A chunk of the heading-aware structural chunker: its contextualized (heading-enriched) text,
   * its heading context if it has one, and its pages if known.
   */
  datatype StructuralChunk = StructuralChunk(
    enriched_text: string,
    heading_context: Option<seq<Heading>>,
    page_start: Option<int>,
    page_end: Option<int>)

  /** The non-empty heading titles, in order. */
  function HeadingTitles(hs: seq<Heading>): (r: seq<string>)
    ensures |r| <= |hs|
    ensures forall k :: 0 <= k < |r| ==> r[k] != ""
  {
    if hs == [] then []
    else (if Truthy(hs[0].title) then [hs[0].title.value] else []) + HeadingTitles(hs[1..])
  }

  /** A heading whose title is truthy (present and not empty). */
  predicate Titled(h: Heading) {
    Truthy(h.title)
  }

  /** The title of each heading, `""` for none. */
  function TitlesOf(hs: seq<Heading>): (r: seq<string>)
    ensures |r| == |hs| && forall i :: 0 <= i < |hs| ==> r[i] == hs[i].title.GetOr("")
  {
    seq(|hs|, i requires 0 <= i < |hs| => hs[i].title.GetOr(""))
  }

  /** The titles kept are exactly the titles of the titled headings, in order. */
  lemma {:induction false} HeadingTitlesSpec(hs: seq<Heading>)
    ensures HeadingTitles(hs) == TitlesOf(Filter(hs, Titled))
  {
    HeadingTitlesKept(hs);
    KeepIsFilter(hs, Titled);
  }

  lemma {:induction false} HeadingTitlesKept(hs: seq<Heading>)
    ensures HeadingTitles(hs) == TitlesOf(Keep(hs, Titled))
  {
    if hs != [] {
      HeadingTitlesKept(hs[1..]);
      if Titled(hs[0]) {
        TitlesOfCons(hs[0], Keep(hs[1..], Titled));
      } else {
        assert Keep(hs, Titled) == Keep(hs[1..], Titled);
      }
    }
  }

  lemma TitlesOfCons(h: Heading, rest: seq<Heading>)
    ensures TitlesOf([h] + rest) == [h.title.GetOr("")] + TitlesOf(rest)
  {
    var l := TitlesOf([h] + rest);
    var r := [h.title.GetOr("")] + TitlesOf(rest);
    forall i | 0 <= i < |l| ensures l[i] == r[i] {
      if i > 0 {
        assert ([h] + rest)[i] == rest[i - 1];
      }
    }
    assert l == r;
  }

  /** Every truthy title of the headings is kept. */
  lemma {:induction false} HeadingTitlesKeep(hs: seq<Heading>)
    ensures forall k :: 0 <= k < |hs| && Titled(hs[k]) ==> hs[k].title.value in HeadingTitles(hs)
  {
    if hs != [] {
      HeadingTitlesKeep(hs[1..]);
      assert HeadingTitles(hs) == (if Titled(hs[0]) then [hs[0].title.value] else []) + HeadingTitles(hs[1..]);
      forall k | 0 <= k < |hs| && Titled(hs[k]) ensures hs[k].title.value in HeadingTitles(hs) {
        if k > 0 { assert hs[k] == hs[1..][k - 1]; }
      }
    }
  }

  /** The section title of a structural chunk: its heading titles joined with " > ", or None. */
  function SectionTitle(c: StructuralChunk): Option<string> {
    if c.heading_context.Some? && c.heading_context.value != [] then
      Some(Join(" > ", HeadingTitles(c.heading_context.value)))
    else None
  }

  function ChunkMeta(c: StructuralChunk): SectionMeta {
    SectionMeta(SectionTitle(c), c.page_start, c.page_end)
  }

  /** The outcome of parsing the PDF and running the structural chunker over it. */
  datatype ParsedPdf = ParsedPdf(parse_id: int, chunks: seq<StructuralChunk>)

  /** The rows `chunk_pdf` adds for the structural chunks `cs`, the index carried from one to the next. */
  function PdfChunks(tok: Tokenizer, documentId: int, parseId: int, cs: seq<StructuralChunk>,
                     maxTokens: nat): seq<DocumentChunk>
    requires maxTokens > 0
  {
    if cs == [] then []
    else
      var prev := PdfChunks(tok, documentId, parseId, cs[..|cs| - 1], maxTokens);
      var last := cs[|cs| - 1];
      prev + TextChunks(tok, documentId, Some(parseId), last.enriched_text, maxTokens, ChunkMeta(last), |prev|)
  }

  /** Extending the structural chunks by one appends that chunk's rows, numbered from the running total. */
  lemma PdfChunksSnoc(tok: Tokenizer, documentId: int, parseId: int, cs: seq<StructuralChunk>,
                      maxTokens: nat, k: nat)
    requires maxTokens > 0 && k < |cs|
    ensures var prev := PdfChunks(tok, documentId, parseId, cs[..k], maxTokens);
      PdfChunks(tok, documentId, parseId, cs[..k + 1], maxTokens)
        == prev + TextChunks(tok, documentId, Some(parseId), cs[k].enriched_text, maxTokens, ChunkMeta(cs[k]), |prev|)
  {
    assert cs[..k + 1][..k] == cs[..k];
  }

  /** The rows are numbered 0 .. |rows| - 1 in order. */
  ghost predicate IndexedFromZero(rows: seq<DocumentChunk>) {
    forall j :: 0 <= j < |rows| ==> rows[j].chunk_index == j
  }

  /** Rows numbered 0 .. n - 1 followed by rows numbered n .. are numbered contiguously from 0. */
  lemma AppendNumbered(prev: seq<DocumentChunk>, tail: seq<DocumentChunk>)
    requires IndexedFromZero(prev)
    requires forall i :: 0 <= i < |tail| ==> tail[i].chunk_index == |prev| + i
    ensures IndexedFromZero(prev + tail)
  {
    forall j | 0 <= j < |prev + tail|
      ensures (prev + tail)[j].chunk_index == j
    {
      if j >= |prev| {
        assert (prev + tail)[j] == tail[j - |prev|];
      }
    }
  }

  /** The chunk indices over all structural chunks of one PDF are exactly 0 .. total - 1. */
  lemma {:induction false} PdfChunkIndicesContiguous(tok: Tokenizer, documentId: int, parseId: int,
                                                     cs: seq<StructuralChunk>, maxTokens: nat)
    requires maxTokens > 0
    ensures IndexedFromZero(PdfChunks(tok, documentId, parseId, cs, maxTokens))
  {
    if cs != [] {
      var init := cs[..|cs| - 1];
      var last := cs[|cs| - 1];
      var prev := PdfChunks(tok, documentId, parseId, init, maxTokens);
      PdfChunkIndicesContiguous(tok, documentId, parseId, init, maxTokens);

      var tail := TextChunks(tok, documentId, Some(parseId), last.enriched_text, maxTokens, ChunkMeta(last), |prev|);
      forall i | 0 <= i < |tail|
        ensures tail[i].chunk_index == |prev| + i
      {
        TextChunkAt(tok, documentId, Some(parseId), last.enriched_text, maxTokens, ChunkMeta(last), |prev|, i);
      }
      AppendNumbered(prev, tail);
    }
  }

  /** One pass of the loop of `chunk_pdf`: the rows of structural chunk `k`, numbered from the running total. */
  method AddStructuralChunk(db: Database, tok: Tokenizer, documentId: int, parseId: int, docChunks: seq<StructuralChunk>,
                            maxTokens: nat, k: nat, startIndex: int, ghost base: seq<DocumentChunk>)
    returns (created: nat, nextIndex: int)
    requires maxTokens > 0 && k < |docChunks|
    requires db.chunks == base + PdfChunks(tok, documentId, parseId, docChunks[..k], maxTokens)
    requires startIndex == |PdfChunks(tok, documentId, parseId, docChunks[..k], maxTokens)|
    modifies db
    ensures db.chunks == base + PdfChunks(tok, documentId, parseId, docChunks[..k + 1], maxTokens)
    ensures nextIndex == |PdfChunks(tok, documentId, parseId, docChunks[..k + 1], maxTokens)|
    ensures nextIndex == startIndex + created
    ensures db.documents == old(db.documents) && db.blocks == old(db.blocks)
  {
    var chunk := docChunks[k];
    var sectionTitle := SectionTitle(chunk);
    PdfChunksSnoc(tok, documentId, parseId, docChunks, maxTokens, k);
    ghost var prev := PdfChunks(tok, documentId, parseId, docChunks[..k], maxTokens);
    ghost var rows := TextChunks(tok, documentId, Some(parseId), chunk.enriched_text, maxTokens, ChunkMeta(chunk), startIndex);
    assert ChunkMeta(chunk) == SectionMeta(sectionTitle, chunk.page_start, chunk.page_end);
    AppendAssoc(base, prev, rows);
    created, nextIndex := ChunkTextFromText(db, tok, documentId, Some(parseId), chunk.enriched_text,
                                            maxTokens, SectionMeta(sectionTitle, chunk.page_start, chunk.page_end),
                                            startIndex);
  }

  /**
   * `chunk_pdf`: on a successful parse, chunks every structural chunk's enriched text with the
   * running index as start index, and returns the parse id and the total number of rows added.
   * A failed parse propagates and adds nothing.
   */
  method ChunkPdf(db: Database, tok: Tokenizer, documentId: int, parsed: Result<ParsedPdf, string>,
                  maxTokens: nat)
    returns (r: Result<(int, nat), string>)
    requires maxTokens > 0
    modifies db
    ensures parsed.Failure? ==> r == Failure(parsed.error) && db.chunks == old(db.chunks)
    ensures parsed.Success? ==>
      var rows := PdfChunks(tok, documentId, parsed.value.parse_id, parsed.value.chunks, maxTokens);
      && db.chunks == old(db.chunks) + rows
      && r == Success((parsed.value.parse_id, |rows|))
    ensures db.documents == old(db.documents) && db.blocks == old(db.blocks)
  {
    if parsed.Failure? {
      return Failure(parsed.error);
    }
    var parseId := parsed.value.parse_id;
    var docChunks := parsed.value.chunks;
    var totalChunks := 0;
    var globalIndex := 0;
    var k := 0;
    while k < |docChunks|
      invariant 0 <= k <= |docChunks|
      invariant db.chunks == old(db.chunks) + PdfChunks(tok, documentId, parseId, docChunks[..k], maxTokens)
      invariant globalIndex == totalChunks == |PdfChunks(tok, documentId, parseId, docChunks[..k], maxTokens)|
      invariant db.documents == old(db.documents) && db.blocks == old(db.blocks)
    {
      var created;
      created, globalIndex := AddStructuralChunk(db, tok, documentId, parseId, docChunks, maxTokens, k, globalIndex, old(db.chunks));
      totalChunks := totalChunks + created;
      k := k + 1;
    }
    assert docChunks[..k] == docChunks;
    return Success((parseId, totalChunks));
  }

  // ---------------------------------------------------------------- CSV stream chunking

  /** Token length of a row's JSON line. */
  function LineTokens(tok: Tokenizer, row: Row): nat {
    TokenLen(tok, RowToJsonLine(row))
  }

  /** Sum of the token lengths of the rows' JSON lines, accumulated front to back. */
  function SumTokens(tok: Tokenizer, rows: seq<Row>): nat {
    if rows == [] then 0 else SumTokens(tok, rows[..|rows| - 1]) + LineTokens(tok, rows[|rows| - 1])
  }

  /** The sentinel row that stands for a row too large to embed: its line's first `max(0, max_tokens - 50)` tokens. */
  function TruncatedRow(tok: Tokenizer, line: string, maxTokens: int): Row
    requires TokenLen(tok, line) > maxTokens
  {
    [Field("__truncated_row__", tok.decode(tok.encode(line)[..Max(0, maxTokens - 50)]))]
  }

  /** The row that is buffered for an input row: the row itself, or the sentinel when its line exceeds `max_tokens`. */
  function PrepareRow(tok: Tokenizer, row: Row, maxTokens: int): Row {
    var line := RowToJsonLine(row);
    if TokenLen(tok, line) > maxTokens then TruncatedRow(tok, line, maxTokens) else row
  }

  /** The input rows as buffered, in order. */
  function PreparedRows(tok: Tokenizer, rows: seq<Row>, maxTokens: int): (r: seq<Row>)
    ensures |r| == |rows|
  {
    if rows == [] then [] else PreparedRows(tok, rows[..|rows| - 1], maxTokens) + [PrepareRow(tok, rows[|rows| - 1], maxTokens)]
  }

  /** The rows the buffer keeps after a flush: the last `overlap_rows` rows, or none if `overlap_rows <= 0`. */
  function OverlapTail(buffer: seq<Row>, overlapRows: int): (r: seq<Row>)
    ensures |r| <= |buffer|
  {
    if overlapRows > 0 then buffer[|buffer| - Min(overlapRows, |buffer|)..] else []
  }

  /** The overlap is the buffer's last `min(overlap_rows, len)` rows, and nothing for a non-positive overlap. */
  lemma OverlapTailSpec(buffer: seq<Row>, overlapRows: int)
    ensures var r := OverlapTail(buffer, overlapRows);
            |r| == (if overlapRows > 0 then Min(overlapRows, |buffer|) else 0)
            && r == buffer[|buffer| - |r|..]
            && (overlapRows >= |buffer| ==> r == buffer)
  {
  }

  /**
   * A flushed buffer. `seeded` counts its leading rows that were carried over from the previous
   * buffer as overlap; the rest are rows seen for the first time.
   */
  datatype Group = Group(rows: seq<Row>, seeded: nat)

  /** The streaming chunker's state: buffer, running token count, seeded overlap rows, buffers flushed so far. */
  datatype StreamState = StreamState(buffer: seq<Row>, tokens: int, seeded: nat, flushed: seq<Group>)

  /** One loop iteration of `chunk_csv_stream` after the oversize guard, on the row `r` to buffer. */
  function StreamPush(tok: Tokenizer, st: StreamState, r: Row, maxTokens: int, overlapRows: int): StreamState {
    var lineTokens := LineTokens(tok, r);
    if st.buffer != [] && st.tokens + lineTokens > maxTokens then
      var kept := OverlapTail(st.buffer, overlapRows);
      StreamState(kept + [r], SumTokens(tok, kept) + lineTokens, |kept|, st.flushed + [Group(st.buffer, st.seeded)])
    else
      StreamState(st.buffer + [r], st.tokens + lineTokens, st.seeded, st.flushed)
  }

  /** One loop iteration of `chunk_csv_stream` on one input row. */
  function StreamStep(tok: Tokenizer, st: StreamState, row: Row, maxTokens: int, overlapRows: int): StreamState {
    StreamPush(tok, st, PrepareRow(tok, row, maxTokens), maxTokens, overlapRows)
  }

  /** The state after the loop has consumed `rows`. */
  function StreamRun(tok: Tokenizer, rows: seq<Row>, maxTokens: int, overlapRows: int): StreamState {
    if rows == [] then StreamState([], 0, 0, [])
    else StreamStep(tok, StreamRun(tok, rows[..|rows| - 1], maxTokens, overlapRows), rows[|rows| - 1], maxTokens, overlapRows)
  }

  /** Every buffer that becomes a chunk: the flushed ones and, if non-empty, the final buffer. */
  function StreamGroups(tok: Tokenizer, rows: seq<Row>, maxTokens: int, overlapRows: int): seq<Group> {
    var st := StreamRun(tok, rows, maxTokens, overlapRows);
    st.flushed + (if st.buffer != [] then [Group(st.buffer, st.seeded)] else [])
  }

  /** The JSON lines of some rows. */
  function JsonLines(rows: seq<Row>): (r: seq<string>)
    ensures |r| == |rows|
  {
    seq(|rows|, i requires 0 <= i < |rows| => RowToJsonLine(rows[i]))
  }

  /** The text of the chunk for one flushed buffer. */
  function CsvChunkText(rows: seq<Row>): string {
    Join("\n", ["CSV Records (JSON):"] + JsonLines(rows))
  }

  /** The chunk row for one flushed buffer. */
  function CsvChunk(tok: Tokenizer, documentId: int, index: int, rows: seq<Row>, sectionTitle: Option<string>): DocumentChunk {
    var text := CsvChunkText(rows);
    DocumentChunk(documentId, None, index, TokenLen(tok, text), text, sectionTitle, None, None)
  }

  /** The chunk rows for a sequence of flushed buffers, numbered from `start`. */
  function FlushChunks(tok: Tokenizer, documentId: int, fs: seq<Group>, sectionTitle: Option<string>): (r: seq<DocumentChunk>)
    ensures |r| == |fs|
  {
    seq(|fs|, i requires 0 <= i < |fs| => CsvChunk(tok, documentId, i, fs[i].rows, sectionTitle))
  }

  /** The chunk rows `chunk_csv_stream` adds. */
  function StreamChunks(tok: Tokenizer, documentId: int, rows: seq<Row>, maxTokens: int, overlapRows: int,
                        sectionTitle: Option<string>): seq<DocumentChunk>
  {
    FlushChunks(tok, documentId, StreamGroups(tok, rows, maxTokens, overlapRows), sectionTitle)
  }

  /** The nested `flush`: adds one chunk for a non-empty buffer and bumps the counter. */
  method FlushBuffer(db: Database, tok: Tokenizer, documentId: int, rows: seq<Row>, sectionTitle: Option<string>,
               created: nat)
    returns (created': nat)
    modifies db
    ensures rows == [] ==> db.chunks == old(db.chunks) && created' == created
    ensures rows != [] ==> (db.chunks == old(db.chunks) + [CsvChunk(tok, documentId, created, rows, sectionTitle)]
                            && created' == created + 1)
    ensures db.documents == old(db.documents) && db.blocks == old(db.blocks)
  {
    if rows == [] {
      return created;
    }
    var lines := ["CSV Records (JSON):"] + JsonLines(rows);
    var text := Join("\n", lines);
    var tc := TokenLen(tok, text);
    db.AddChunk(DocumentChunk(documentId, None, created, tc, text, sectionTitle, None, None));
    created' := created + 1;
  }

  /** The recount loop after a flush: the token total of the buffer's rows. */
  method RecountTokens(tok: Tokenizer, rows: seq<Row>) returns (n: nat)
    ensures n == SumTokens(tok, rows)
  {
    n := 0;
    var j := 0;
    while j < |rows|
      invariant 0 <= j <= |rows|
      invariant n == SumTokens(tok, rows[..j])
    {
      n := n + TokenLen(tok, RowToJsonLine(rows[j]));
      assert rows[..j + 1][..j] == rows[..j];
      j := j + 1;
    }
    assert rows[..j] == rows;
  }

  lemma FlushChunksSnoc(tok: Tokenizer, documentId: int, fs: seq<Group>, g: Group, sectionTitle: Option<string>)
    ensures FlushChunks(tok, documentId, fs + [g], sectionTitle)
         == FlushChunks(tok, documentId, fs, sectionTitle) + [CsvChunk(tok, documentId, |fs|, g.rows, sectionTitle)]
  {
  }

  /** The oversize guard at the top of the row loop: the row to buffer and its line's token length. */
  method Prepare(tok: Tokenizer, row: Row, maxTokens: int) returns (r: Row, lineTokens: nat)
    ensures r == PrepareRow(tok, row, maxTokens)
    ensures lineTokens == LineTokens(tok, r)
  {
    r := row;
    var line := RowToJsonLine(r);
    lineTokens := TokenLen(tok, line);
    if lineTokens > maxTokens {
      var toks := tok.encode(line);
      var truncated := tok.decode(toks[..Max(0, maxTokens - 50)]);
      r := [Field("__truncated_row__", truncated)];
      line := RowToJsonLine(r);
      lineTokens := TokenLen(tok, line);
    }
  }

  /**
   * The overflow branch of the row loop: the buffer becomes a chunk and the next buffer starts
   * with its last `overlap_rows` rows, then the new row.
   */
  method FlushAndSeed(db: Database, tok: Tokenizer, documentId: int, r: Row, lineTokens: nat, overlapRows: int,
                      sectionTitle: Option<string>, bufferRows: seq<Row>, created: nat,
                      ghost st: StreamState, ghost base: seq<DocumentChunk>)
    returns (bufferRows': seq<Row>, bufferTokenCount': int, created': nat)
    requires st.buffer == bufferRows && bufferRows != [] && created == |st.flushed|
    requires db.chunks == base + FlushChunks(tok, documentId, st.flushed, sectionTitle)
    modifies db
    ensures bufferRows' == OverlapTail(bufferRows, overlapRows) + [r]
    ensures bufferTokenCount' == SumTokens(tok, OverlapTail(bufferRows, overlapRows)) + lineTokens
    ensures created' == |st.flushed| + 1
    ensures db.chunks == base + FlushChunks(tok, documentId, st.flushed + [Group(st.buffer, st.seeded)], sectionTitle)
    ensures db.documents == old(db.documents) && db.blocks == old(db.blocks)
  {
    var kept: seq<Row>;
    if overlapRows > 0 {
      kept := bufferRows[|bufferRows| - Min(overlapRows, |bufferRows|)..];
    } else {
      kept := [];
    }
    var keptTokens := RecountTokens(tok, kept);
    bufferRows' := kept + [r];
    bufferTokenCount' := keptTokens + lineTokens;
    ghost var prev := FlushChunks(tok, documentId, st.flushed, sectionTitle);
    ghost var chunk := CsvChunk(tok, documentId, created, bufferRows, sectionTitle);
    created' := FlushBuffer(db, tok, documentId, bufferRows, sectionTitle, created);
    assert db.chunks == base + FlushChunks(tok, documentId, st.flushed + [Group(st.buffer, st.seeded)], sectionTitle) by {
      assert db.chunks == (base + prev) + [chunk];
      FlushChunksSnoc(tok, documentId, st.flushed, Group(bufferRows, st.seeded), sectionTitle);
      AppendAssoc(base, prev, [chunk]);
    }
  }

  /** One iteration of the row loop of `chunk_csv_stream`, on the state `st`. */
  method StreamRow(db: Database, tok: Tokenizer, documentId: int, row: Row, maxTokens: int, overlapRows: int,
                   sectionTitle: Option<string>, bufferRows: seq<Row>, bufferTokenCount: int, created: nat,
                   ghost st: StreamState, ghost base: seq<DocumentChunk>)
    returns (bufferRows': seq<Row>, bufferTokenCount': int, created': nat, ghost st': StreamState)
    requires st.buffer == bufferRows && st.tokens == bufferTokenCount && created == |st.flushed|
    requires db.chunks == base + FlushChunks(tok, documentId, st.flushed, sectionTitle)
    modifies db
    ensures st' == StreamStep(tok, st, row, maxTokens, overlapRows)
    ensures st'.buffer == bufferRows' && st'.tokens == bufferTokenCount' && created' == |st'.flushed|
    ensures db.chunks == base + FlushChunks(tok, documentId, st'.flushed, sectionTitle)
    ensures db.documents == old(db.documents) && db.blocks == old(db.blocks)
  {
    var r, lineTokens := Prepare(tok, row, maxTokens);
    st' := StreamPush(tok, st, r, maxTokens, overlapRows);
    if bufferRows != [] && bufferTokenCount + lineTokens > maxTokens {
      bufferRows', bufferTokenCount', created' :=
        FlushAndSeed(db, tok, documentId, r, lineTokens, overlapRows, sectionTitle, bufferRows, created, st, base);
    } else {
      created' := created;
      bufferRows' := bufferRows + [r];
      bufferTokenCount' := bufferTokenCount + lineTokens;
    }
  }

  lemma StreamRunSnoc(tok: Tokenizer, rows: seq<Row>, i: nat, maxTokens: int, overlapRows: int)
    requires i < |rows|
    ensures StreamRun(tok, rows[..i + 1], maxTokens, overlapRows)
         == StreamStep(tok, StreamRun(tok, rows[..i], maxTokens, overlapRows), rows[i], maxTokens, overlapRows)
  {
    assert rows[..i + 1][..i] == rows[..i];
  }

  /**
   * `chunk_csv_stream`: streams the rows into a token-counted buffer, flushing it as one chunk
   * when the next row would overflow `max_tokens`, seeding the next buffer with the last
   * `overlap_rows` rows; returns the number of chunks.
   */
  method ChunkCsvStream(db: Database, tok: Tokenizer, documentId: int, rows: seq<Row>, maxTokens: int,
                        overlapRows: int, sectionTitle: Option<string>)
    returns (created: nat)
    modifies db
    ensures db.chunks == old(db.chunks) + StreamChunks(tok, documentId, rows, maxTokens, overlapRows, sectionTitle)
    ensures created == |StreamChunks(tok, documentId, rows, maxTokens, overlapRows, sectionTitle)|
    ensures db.documents == old(db.documents) && db.blocks == old(db.blocks)
  {
    created := 0;
    var bufferRows: seq<Row> := [];
    var bufferTokenCount := 0;
    ghost var st := StreamState([], 0, 0, []);
    var i := 0;
    while i < |rows|
      invariant 0 <= i <= |rows|
      invariant st == StreamRun(tok, rows[..i], maxTokens, overlapRows)
      invariant st.buffer == bufferRows && st.tokens == bufferTokenCount && created == |st.flushed|
      invariant db.chunks == old(db.chunks) + FlushChunks(tok, documentId, st.flushed, sectionTitle)
      invariant db.documents == old(db.documents) && db.blocks == old(db.blocks)
    {
      StreamRunSnoc(tok, rows, i, maxTokens, overlapRows);
      bufferRows, bufferTokenCount, created, st :=
        StreamRow(db, tok, documentId, rows[i], maxTokens, overlapRows, sectionTitle, bufferRows, bufferTokenCount, created, st, old(db.chunks));
      i := i + 1;
    }
    assert rows[..i] == rows;
    created := FlushLast(db, tok, documentId, bufferRows, sectionTitle, created, st, old(db.chunks));
  }

  /** The flush after the row loop: the chunks of the flushed buffers, then the last buffer's. */
  method FlushLast(db: Database, tok: Tokenizer, documentId: int, bufferRows: seq<Row>, sectionTitle: Option<string>,
                   created: nat, ghost st: StreamState, ghost base: seq<DocumentChunk>)
    returns (created': nat)
    requires st.buffer == bufferRows && created == |st.flushed|
    requires db.chunks == base + FlushChunks(tok, documentId, st.flushed, sectionTitle)
    modifies db
    ensures db.chunks == base + FlushChunks(tok, documentId, st.flushed + Pending(st), sectionTitle)
    ensures created' == |st.flushed + Pending(st)|
    ensures db.documents == old(db.documents) && db.blocks == old(db.blocks)
  {
    created' := FlushBuffer(db, tok, documentId, bufferRows, sectionTitle, created);
    if bufferRows != [] {
      FlushChunksSnoc(tok, documentId, st.flushed, Group(bufferRows, st.seeded), sectionTitle);
      AppendAssoc(base, FlushChunks(tok, documentId, st.flushed, sectionTitle),
                  [CsvChunk(tok, documentId, |st.flushed|, bufferRows, sectionTitle)]);
    } else {
      assert st.flushed + Pending(st) == st.flushed;
    }
  }

  // ---------------------------------------------------------------- properties of the CSV stream

  /** Rows of a group that were not carried over from the previous group. */
  function FreshOf(g: Group): seq<Row> {
    if g.seeded <= |g.rows| then g.rows[g.seeded..] else []
  }

  /** The fresh rows of all groups, in order. */
  function FreshRows(gs: seq<Group>): seq<Row> {
    if gs == [] then [] else FreshRows(gs[..|gs| - 1]) + FreshOf(gs[|gs| - 1])
  }

  /**
   * A group holds at least one fresh row, and it only exceeds the token budget when it holds
   * exactly one (an overlap seed plus one row that did not fit anywhere else).
   */
  ghost predicate GroupOk(tok: Tokenizer, g: Group, maxTokens: int) {
    g.seeded < |g.rows| && (|g.rows| - g.seeded >= 2 ==> SumTokens(tok, g.rows) <= maxTokens)
  }

  /**
   * Consecutive groups: the later one starts with the overlap tail of the former, and its first
   * fresh row is the one that would have pushed the former over the budget.
   */
  ghost predicate Linked(tok: Tokenizer, prev: Group, next: Group, maxTokens: int, overlapRows: int) {
    next.seeded < |next.rows|
    && next.rows[..next.seeded] == OverlapTail(prev.rows, overlapRows)
    && SumTokens(tok, prev.rows) + LineTokens(tok, next.rows[next.seeded]) > maxTokens
  }

  ghost predicate ValidGroups(tok: Tokenizer, gs: seq<Group>, maxTokens: int, overlapRows: int) {
    (|gs| > 0 ==> gs[0].seeded == 0)
    && (forall k :: 0 <= k < |gs| ==> GroupOk(tok, gs[k], maxTokens))
    && (forall k :: 0 < k < |gs| ==> Linked(tok, gs[k - 1], gs[k], maxTokens, overlapRows))
  }

  /** The buffers the state will still produce: none, or the current one. */
  function Pending(st: StreamState): seq<Group> {
    if st.buffer != [] then [Group(st.buffer, st.seeded)] else []
  }

  /** What the loop of `chunk_csv_stream` keeps true after consuming the (prepared) rows `prepared`. */
  ghost predicate StreamInv(tok: Tokenizer, st: StreamState, prepared: seq<Row>, maxTokens: int, overlapRows: int) {
    st.tokens == SumTokens(tok, st.buffer)
    && (st.buffer == [] <==> prepared == [])
    && (st.buffer == [] ==> st.flushed == [] && st.seeded == 0)
    && FreshRows(st.flushed + Pending(st)) == prepared
    && ValidGroups(tok, st.flushed + Pending(st), maxTokens, overlapRows)
  }

  lemma SumTokensSnoc(tok: Tokenizer, rows: seq<Row>, r: Row)
    ensures SumTokens(tok, rows + [r]) == SumTokens(tok, rows) + LineTokens(tok, r)
  {
    assert (rows + [r])[..|rows|] == rows;
  }

  lemma FreshRowsSnoc(gs: seq<Group>, g: Group)
    ensures FreshRows(gs + [g]) == FreshRows(gs) + FreshOf(g)
  {
    assert (gs + [g])[..|gs|] == gs;
  }

  lemma {:induction false} FreshExtendLast(fl: seq<Group>, g: Group, r: Row)
    requires g.seeded <= |g.rows|
    ensures FreshRows(fl + [Group(g.rows + [r], g.seeded)]) == FreshRows(fl + [g]) + [r]
  {
    var g' := Group(g.rows + [r], g.seeded);
    var a := g.rows[g.seeded..];
    assert FreshOf(g) == a;
    assert FreshOf(g') == a + [r] by {
      assert (g.rows + [r])[g.seeded..] == a + [r];
    }
    FreshRowsSnoc(fl, g);
    FreshRowsSnoc(fl, g');
    assert FreshRows(fl) + (a + [r]) == (FreshRows(fl) + a) + [r];
  }

  /** A group of one fresh row is valid on its own, and that row is its only fresh row. */
  lemma SingleGroup(tok: Tokenizer, r: Row, maxTokens: int, overlapRows: int)
    ensures ValidGroups(tok, [Group([r], 0)], maxTokens, overlapRows)
    ensures FreshRows([Group([r], 0)]) == [r]
  {
    assert GroupOk(tok, Group([r], 0), maxTokens);
    FreshRowsSnoc([], Group([r], 0));
    assert [] + [Group([r], 0)] == [Group([r], 0)];
  }

  /** Pushing a row onto the empty stream gives a buffer holding it alone. */
  lemma FirstPush(tok: Tokenizer, r: Row, maxTokens: int, overlapRows: int)
    ensures StreamPush(tok, StreamState([], 0, 0, []), r, maxTokens, overlapRows)
            == StreamState([r], LineTokens(tok, r), 0, [])
  {
    assert [] + [r] == [r];
  }

  /** A buffer holding one row alone meets the stream invariant for that row. */
  lemma SingleStream(tok: Tokenizer, r: Row, maxTokens: int, overlapRows: int)
    ensures StreamInv(tok, StreamState([r], LineTokens(tok, r), 0, []), [r], maxTokens, overlapRows)
  {
    var st' := StreamState([r], LineTokens(tok, r), 0, []);
    SumTokensSnoc(tok, [], r);
    assert [] + [r] == [r];
    assert st'.flushed + Pending(st') == [Group([r], 0)];
    SingleGroup(tok, r, maxTokens, overlapRows);
  }

  /** The first row of a stream: a fresh buffer holding it alone. */
  lemma {:induction false} StreamFirstRow(tok: Tokenizer, st: StreamState, prepared: seq<Row>, r: Row, maxTokens: int, overlapRows: int)
    requires StreamInv(tok, st, prepared, maxTokens, overlapRows) && prepared == []
    ensures StreamInv(tok, StreamPush(tok, st, r, maxTokens, overlapRows), prepared + [r], maxTokens, overlapRows)
  {
    assert st == StreamState([], 0, 0, []);
    assert prepared + [r] == [r];
    FirstPush(tok, r, maxTokens, overlapRows);
    SingleStream(tok, r, maxTokens, overlapRows);
  }

  /** Growing the last group by rows keeps the groups valid, as long as the grown group is. */
  lemma {:induction false} ValidExtendLast(tok: Tokenizer, fl: seq<Group>, g: Group, g': Group, maxTokens: int, overlapRows: int)
    requires ValidGroups(tok, fl + [g], maxTokens, overlapRows)
    requires GroupOk(tok, g', maxTokens) && g'.seeded == g.seeded && g.rows <= g'.rows
    ensures ValidGroups(tok, fl + [g'], maxTokens, overlapRows)
  {
    var gs := fl + [g];
    var gs' := fl + [g'];
    assert GroupOk(tok, g, maxTokens) by { assert gs[|fl|] == g; }
    forall k | 0 <= k < |gs'|
      ensures GroupOk(tok, gs'[k], maxTokens)
    {
      if k < |fl| { assert gs'[k] == gs[k]; }
    }
    forall k | 0 < k < |gs'|
      ensures Linked(tok, gs'[k - 1], gs'[k], maxTokens, overlapRows)
    {
      assert gs'[k - 1] == gs[k - 1];
      if k < |fl| {
        assert gs'[k] == gs[k];
      } else {
        assert gs[k] == g && gs'[k] == g';
        assert Linked(tok, gs[k - 1], g, maxTokens, overlapRows);
        assert g'.rows[..g'.seeded] == g.rows[..g.seeded];
        assert g'.rows[g'.seeded] == g.rows[g.seeded];
      }
    }
    if |fl| > 0 { assert gs'[0] == gs[0]; } else { assert gs[0] == g && gs'[0] == g'; }
  }

  /** Appending a group linked to the last one keeps the groups valid. */
  lemma {:induction false} ValidSnoc(tok: Tokenizer, gs: seq<Group>, n: Group, maxTokens: int, overlapRows: int)
    requires ValidGroups(tok, gs, maxTokens, overlapRows) && gs != []
    requires GroupOk(tok, n, maxTokens) && Linked(tok, gs[|gs| - 1], n, maxTokens, overlapRows)
    ensures ValidGroups(tok, gs + [n], maxTokens, overlapRows)
  {
    var gs' := gs + [n];
    forall k | 0 <= k < |gs'|
      ensures GroupOk(tok, gs'[k], maxTokens)
    {
      if k < |gs| { assert gs'[k] == gs[k]; }
    }
    forall k | 0 < k < |gs'|
      ensures Linked(tok, gs'[k - 1], gs'[k], maxTokens, overlapRows)
    {
      if k < |gs| {
        assert gs'[k - 1] == gs[k - 1] && gs'[k] == gs[k];
      } else {
        assert gs'[k - 1] == gs[|gs| - 1] && gs'[k] == n;
      }
    }
    assert gs'[0] == gs[0];
  }

  /** Growing the last of valid groups by a row that keeps it within the budget. */
  lemma {:induction false} GrowLastGroup(tok: Tokenizer, fl: seq<Group>, g: Group, r: Row, maxTokens: int, overlapRows: int)
    requires ValidGroups(tok, fl + [g], maxTokens, overlapRows)
    requires SumTokens(tok, g.rows) + LineTokens(tok, r) <= maxTokens
    ensures ValidGroups(tok, fl + [Group(g.rows + [r], g.seeded)], maxTokens, overlapRows)
    ensures FreshRows(fl + [Group(g.rows + [r], g.seeded)]) == FreshRows(fl + [g]) + [r]
  {
    var g' := Group(g.rows + [r], g.seeded);
    assert g.seeded < |g.rows| by {
      assert GroupOk(tok, (fl + [g])[|fl|], maxTokens);
      assert (fl + [g])[|fl|] == g;
    }
    FreshExtendLast(fl, g, r);
    SumTokensSnoc(tok, g.rows, r);
    assert GroupOk(tok, g', maxTokens);
    ValidExtendLast(tok, fl, g, g', maxTokens, overlapRows);
  }

  /** A row that fits: the current buffer grows by it. */
  lemma {:induction false} StreamAppendRow(tok: Tokenizer, st: StreamState, prepared: seq<Row>, r: Row, maxTokens: int, overlapRows: int)
    requires StreamInv(tok, st, prepared, maxTokens, overlapRows) && prepared != []
    requires st.tokens + LineTokens(tok, r) <= maxTokens
    ensures StreamInv(tok, StreamPush(tok, st, r, maxTokens, overlapRows), prepared + [r], maxTokens, overlapRows)
  {
    var g := Group(st.buffer, st.seeded);
    var g' := Group(st.buffer + [r], st.seeded);
    var st' := StreamState(st.buffer + [r], st.tokens + LineTokens(tok, r), st.seeded, st.flushed);
    assert StreamPush(tok, st, r, maxTokens, overlapRows) == st';
    assert st'.flushed + Pending(st') == st.flushed + [g'];
    assert st'.tokens == SumTokens(tok, st'.buffer) by {
      SumTokensSnoc(tok, st.buffer, r);
    }
    assert FreshRows(st.flushed + [g']) == prepared + [r]
           && ValidGroups(tok, st.flushed + [g'], maxTokens, overlapRows) by {
      assert st.flushed + Pending(st) == st.flushed + [g];
      GrowLastGroup(tok, st.flushed, g, r, maxTokens, overlapRows);
    }
  }

  /** A row that does not fit: the buffer is flushed and a new one starts with the overlap tail and the row. */
  lemma {:induction false} StreamFlushRow(tok: Tokenizer, st: StreamState, prepared: seq<Row>, r: Row, maxTokens: int, overlapRows: int)
    requires StreamInv(tok, st, prepared, maxTokens, overlapRows) && prepared != []
    requires st.tokens + LineTokens(tok, r) > maxTokens
    ensures StreamInv(tok, StreamPush(tok, st, r, maxTokens, overlapRows), prepared + [r], maxTokens, overlapRows)
  {
    var st' := StreamPush(tok, st, r, maxTokens, overlapRows);
    var kept := OverlapTail(st.buffer, overlapRows);
    var g := Group(st.buffer, st.seeded);
    var n := Group(kept + [r], |kept|);
    assert st' == StreamState(kept + [r], SumTokens(tok, kept) + LineTokens(tok, r), |kept|, st.flushed + [g]);
    SumTokensSnoc(tok, kept, r);
    var gs := st.flushed + [g];
    assert Pending(st) == [g] && Pending(st') == [n];
    assert st'.flushed + Pending(st') == gs + [n];
    FreshRowsSnoc(gs, n);
    assert FreshOf(n) == [r];
    assert Linked(tok, gs[|gs| - 1], n, maxTokens, overlapRows) by {
      assert gs[|gs| - 1] == g;
      assert n.rows[..n.seeded] == kept;
      assert n.rows[n.seeded] == r;
    }
    ValidSnoc(tok, gs, n, maxTokens, overlapRows);
  }

  lemma {:induction false} StreamStepInv(tok: Tokenizer, st: StreamState, prepared: seq<Row>, row: Row, maxTokens: int, overlapRows: int)
    requires StreamInv(tok, st, prepared, maxTokens, overlapRows)
    ensures StreamInv(tok, StreamStep(tok, st, row, maxTokens, overlapRows),
                      prepared + [PrepareRow(tok, row, maxTokens)], maxTokens, overlapRows)
  {
    var r := PrepareRow(tok, row, maxTokens);
    if prepared == [] {
      StreamFirstRow(tok, st, prepared, r, maxTokens, overlapRows);
    } else if st.tokens + LineTokens(tok, r) <= maxTokens {
      StreamAppendRow(tok, st, prepared, r, maxTokens, overlapRows);
    } else {
      StreamFlushRow(tok, st, prepared, r, maxTokens, overlapRows);
    }
  }

  lemma {:induction false} StreamRunInv(tok: Tokenizer, rows: seq<Row>, maxTokens: int, overlapRows: int)
    ensures StreamInv(tok, StreamRun(tok, rows, maxTokens, overlapRows), PreparedRows(tok, rows, maxTokens), maxTokens, overlapRows)
  {
    if rows != [] {
      var init := rows[..|rows| - 1];
      StreamRunInv(tok, init, maxTokens, overlapRows);
      StreamStepInv(tok, StreamRun(tok, init, maxTokens, overlapRows), PreparedRows(tok, init, maxTokens), rows[|rows| - 1], maxTokens, overlapRows);
    }
  }

  /**
   * The groups `chunk_csv_stream` turns into chunks: their fresh rows are exactly the (prepared)
   * input rows in order; each group after the first starts with the last `overlap_rows` rows of
   * the one before and was started by a row that did not fit the one before; a group exceeds the
   * token budget only when it holds a single fresh row; no input means no group.
   */
  lemma StreamGroupsSpec(tok: Tokenizer, rows: seq<Row>, maxTokens: int, overlapRows: int)
    ensures FreshRows(StreamGroups(tok, rows, maxTokens, overlapRows)) == PreparedRows(tok, rows, maxTokens)
    ensures ValidGroups(tok, StreamGroups(tok, rows, maxTokens, overlapRows), maxTokens, overlapRows)
    ensures StreamGroups(tok, rows, maxTokens, overlapRows) == [] <==> rows == []
  {
    StreamRunInv(tok, rows, maxTokens, overlapRows);
    var st := StreamRun(tok, rows, maxTokens, overlapRows);
    assert StreamGroups(tok, rows, maxTokens, overlapRows) == st.flushed + Pending(st);
  }

  /** The running token count the loop compares against the budget is the sum over the buffer. */
  lemma StreamTokensExact(tok: Tokenizer, rows: seq<Row>, maxTokens: int, overlapRows: int)
    ensures StreamRun(tok, rows, maxTokens, overlapRows).tokens == SumTokens(tok, StreamRun(tok, rows, maxTokens, overlapRows).buffer)
  {
    StreamRunInv(tok, rows, maxTokens, overlapRows);
  }

  /** Splitting a stream chunk's text at newlines gives back the header line and one JSON line per row. */
  lemma CsvChunkTextLines(rows: seq<Row>)
    ensures Split(CsvChunkText(rows), '\n') == ["CSV Records (JSON):"] + JsonLines(rows)
  {
    var lines := ["CSV Records (JSON):"] + JsonLines(rows);
    forall k | 0 <= k < |lines|
      ensures '\n' !in lines[k]
    {
      if k > 0 {
        assert lines[k] == RowToJsonLine(rows[k - 1]);
      }
    }
    assert "\n" == ['\n'];
    SplitJoin(lines, '\n');
  }

  // ---------------------------------------------------------------- fixed-size CSV row windows

  /** `f"{h}={str(r.get(h, ''))}"` for each header, joined with `" | "`. */
  function RowRecord(headers: seq<string>, row: Row): string {
    Join(" | ", seq(|headers|, j requires 0 <= j < |headers| => headers[j] + "=" + Lookup(row, headers[j]).GetOr("")))
  }

  /** The text of the chunk for some rows: a columns line, a `Rows:` line, one record line per row. */
  function RowWindowText(headers: seq<string>, rows: seq<Row>): string {
    Join("\n", ["Columns: " + Join(", ", headers), "Rows:"]
                + seq(|rows|, i requires 0 <= i < |rows| => RowRecord(headers, rows[i])))
  }

  function RowWindowChunk(tok: Tokenizer, documentId: int, index: int, headers: seq<string>, rows: seq<Row>,
                          sectionTitle: Option<string>): DocumentChunk
  {
    var text := RowWindowText(headers, rows);
    DocumentChunk(documentId, None, index, TokenLen(tok, text), text, sectionTitle, None, None)
  }


  /** One chunk per span, numbered from 0; the headers are the first row's keys. */
  function SpanChunks(tok: Tokenizer, documentId: int, rows: seq<Row>, ws: seq<Span>, sectionTitle: Option<string>)
    : (r: seq<DocumentChunk>)
    requires rows != [] && SpansWithin(ws, |rows|)
    ensures |r| == |ws|
  {
    seq(|ws|, k requires 0 <= k < |ws| =>
      RowWindowChunk(tok, documentId, k, Keys(rows[0]), rows[ws[k].lo..ws[k].hi], sectionTitle))
  }

  /** The chunk rows `chunk_csv_rows` adds. */
  function RowChunks(tok: Tokenizer, documentId: int, rows: seq<Row>, rowsPerChunk: int, overlapRows: int,
                     sectionTitle: Option<string>): seq<DocumentChunk>
    requires rows == [] || SlideTerminates(|rows|, rowsPerChunk, overlapRows)
  {
    if rows == [] then []
    else
      var ws := Slide(|rows|, rowsPerChunk, overlapRows, 0);
      SlideShape(|rows|, rowsPerChunk, overlapRows, 0);
      SpanChunks(tok, documentId, rows, ws, sectionTitle)
  }

  lemma SpanChunksSnoc(tok: Tokenizer, documentId: int, rows: seq<Row>, ws: seq<Span>, w: Span, sectionTitle: Option<string>)
    requires rows != [] && SpansWithin(ws, |rows|) && w.lo <= w.hi <= |rows|
    ensures SpansWithin(ws + [w], |rows|)
    ensures SpanChunks(tok, documentId, rows, ws + [w], sectionTitle)
         == SpanChunks(tok, documentId, rows, ws, sectionTitle)
            + [RowWindowChunk(tok, documentId, |ws|, Keys(rows[0]), rows[w.lo..w.hi], sectionTitle)]
  {
    assert forall k :: 0 <= k < |ws| ==> (ws + [w])[k] == ws[k];
  }

  /** The line loop of `chunk_csv_rows` for one window. */
  method BuildRowWindowText(headers: seq<string>, chunkRows: seq<Row>) returns (text: string)
    ensures text == RowWindowText(headers, chunkRows)
  {
    var lines := ["Columns: " + Join(", ", headers), "Rows:"];
    var j := 0;
    while j < |chunkRows|
      invariant 0 <= j <= |chunkRows|
      invariant lines == ["Columns: " + Join(", ", headers), "Rows:"]
                         + seq(j, i requires 0 <= i < j => RowRecord(headers, chunkRows[i]))
    {
      lines := lines + [RowRecord(headers, chunkRows[j])];
      j := j + 1;
    }
    text := Join("\n", lines);
  }

  /** The body of the window loop of `chunk_csv_rows`: one chunk for the rows of one window. */
  method AddRowWindow(db: Database, tok: Tokenizer, documentId: int, headers: seq<string>, chunkRows: seq<Row>,
                      index: int, sectionTitle: Option<string>)
    modifies db
    ensures db.chunks == old(db.chunks) + [RowWindowChunk(tok, documentId, index, headers, chunkRows, sectionTitle)]
    ensures db.documents == old(db.documents) && db.blocks == old(db.blocks)
  {
    var text := BuildRowWindowText(headers, chunkRows);
    var tokenCount := TokenLen(tok, text);
    db.AddChunk(DocumentChunk(documentId, None, index, tokenCount, text, sectionTitle, None, None));
  }

  /** One window of `chunk_csv_rows`: the chunk for rows `start .. end` is added, `end` is returned. */
  method AddSlideWindow(db: Database, tok: Tokenizer, documentId: int, rows: seq<Row>, rowsPerChunk: int,
                        overlapRows: int, sectionTitle: Option<string>, start: nat, index: nat,
                        ghost done: seq<Span>, ghost base: seq<DocumentChunk>)
    returns (end: nat, ghost w: Span)
    requires SlideTerminates(|rows|, rowsPerChunk, overlapRows) && start < |rows| && SpansWithin(done, |rows|)
    requires index == |done|
    requires db.chunks == base + SpanChunks(tok, documentId, rows, done, sectionTitle)
    modifies db
    ensures w == Span(start, end) && SpansWithin(done + [w], |rows|)
    ensures db.chunks == base + SpanChunks(tok, documentId, rows, done + [w], sectionTitle)
    ensures db.documents == old(db.documents) && db.blocks == old(db.blocks)
    ensures Slide(|rows|, rowsPerChunk, overlapRows, start)
            == [w] + (if end == |rows| then [] else Slide(|rows|, rowsPerChunk, overlapRows, Max(0, end - overlapRows)))
    ensures end < |rows| ==> start < Max(0, end - overlapRows)
  {
    end := Min(start + rowsPerChunk, |rows|);
    w := Span(start, end);
    SlideUnfold(|rows|, rowsPerChunk, overlapRows, start, end);
    SpanChunksSnoc(tok, documentId, rows, done, w, sectionTitle);
    ghost var chunk := RowWindowChunk(tok, documentId, index, Keys(rows[0]), rows[start..end], sectionTitle);
    AppendAssoc(base, SpanChunks(tok, documentId, rows, done, sectionTitle), [chunk]);
    AddRowWindow(db, tok, documentId, Keys(rows[0]), rows[start..end], index, sectionTitle);
  }

  /**
   * `chunk_csv_rows`: windows of `rows_per_chunk` rows, each next window starting `overlap_rows`
   * rows before the previous one ended, one chunk per window; returns the number of chunks.
   */
  method ChunkCsvRows(db: Database, tok: Tokenizer, documentId: int, rows: seq<Row>, rowsPerChunk: int,
                      overlapRows: int, sectionTitle: Option<string>)
    returns (created: nat)
    requires rows == [] || SlideTerminates(|rows|, rowsPerChunk, overlapRows)
    modifies db
    ensures db.chunks == old(db.chunks) + RowChunks(tok, documentId, rows, rowsPerChunk, overlapRows, sectionTitle)
    ensures created == |RowChunks(tok, documentId, rows, rowsPerChunk, overlapRows, sectionTitle)|
    ensures db.documents == old(db.documents) && db.blocks == old(db.blocks)
  {
    if rows == [] {
      return 0;
    }
    ghost var all := Slide(|rows|, rowsPerChunk, overlapRows, 0);
    ghost var done: seq<Span> := [];
    created := 0;
    var start: nat := 0;
    while start < |rows|
      invariant done + Slide(|rows|, rowsPerChunk, overlapRows, start) == all
      invariant created == |done|
      invariant SpansWithin(done, |rows|)
      invariant db.chunks == old(db.chunks) + SpanChunks(tok, documentId, rows, done, sectionTitle)
      invariant db.documents == old(db.documents) && db.blocks == old(db.blocks)
      decreases |rows| - start
    {
      var end;
      ghost var w;
      end, w := AddSlideWindow(db, tok, documentId, rows, rowsPerChunk, overlapRows, sectionTitle, start, created, done, old(db.chunks));
      ghost var rest := if end == |rows| then [] else Slide(|rows|, rowsPerChunk, overlapRows, Max(0, end - overlapRows));
      AppendAssoc(done, [w], rest);
      done := done + [w];
      created := created + 1;
      if end == |rows| {
        assert done == all;
        break;
      }
      start := Max(0, end - overlapRows);
      assert rest == Slide(|rows|, rowsPerChunk, overlapRows, start);
    }
    assert done == all;
  }
}
