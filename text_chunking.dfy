/**
 * The tokenizer adapter and the token-window splitter shared by both text chunkers:
 * encode the text, slice the tokens into windows of at most `max_tokens`, decode each window.
 */
module TextChunking {
  import opened Wrappers
  import opened Seqs
  import opened Strings
  import opened Records

  /** The tokenizer, a black box: no relation between `encode` and `decode` is assumed. */
  datatype Tokenizer = Tokenizer(encode: string -> seq<int>, decode: seq<int> -> string)

  /** Token length of a string, `len(ENCODING.encode(s))`. */
  function TokenLen(tok: Tokenizer, s: string): nat {
    |tok.encode(s)|
  }

  /** Section and page metadata copied onto every chunk of one text. */
  datatype SectionMeta = SectionMeta(section_title: Option<string>, page_start: Option<int>, page_end: Option<int>)

  /** The chunk row stored for one token window. */
  function WindowChunk(tok: Tokenizer, documentId: int, parseId: Option<int>, window: seq<int>,
                       meta: SectionMeta, index: int): DocumentChunk
  {
    DocumentChunk(documentId, parseId, index, |window|, tok.decode(window),
                  meta.section_title, meta.page_start, meta.page_end)
  }

  /** The token windows of a text, `tokens[i:i + max_tokens]` for i in range(0, len(tokens), max_tokens). */
  function TextWindows(tok: Tokenizer, text: string, maxTokens: nat): seq<seq<int>>
    requires maxTokens > 0
  {
    Chunked(tok.encode(text), maxTokens)
  }

  /** The chunk rows `chunk_text_from_text` adds for `text`, numbered from `startIndex`. */
  function TextChunks(tok: Tokenizer, documentId: int, parseId: Option<int>, text: string,
                      maxTokens: nat, meta: SectionMeta, startIndex: int): seq<DocumentChunk>
    requires maxTokens > 0
  {
    if IsBlank(text) then []
    else
      var windows := TextWindows(tok, text, maxTokens);
      seq(|windows|, i requires 0 <= i < |windows| =>
        WindowChunk(tok, documentId, parseId, windows[i], meta, startIndex + i))
  }

  /**
   * How many chunk rows one text gives: none for blank text, otherwise ceil(len / max_tokens),
   * one per window, and the windows concatenated are the encoded text.
   */
  lemma TextChunksCount(tok: Tokenizer, documentId: int, parseId: Option<int>, text: string,
                        maxTokens: nat, meta: SectionMeta, startIndex: int)
    requires maxTokens > 0
    ensures var r := TextChunks(tok, documentId, parseId, text, maxTokens, meta, startIndex);
      && (IsBlank(text) ==> r == [])
      && (!IsBlank(text) ==>
           && |r| == CeilDiv(|tok.encode(text)|, maxTokens)
           && |r| == |TextWindows(tok, text, maxTokens)|
           && Flatten(TextWindows(tok, text, maxTokens)) == tok.encode(text))
  {
    WindowCountIsCeiling(|tok.encode(text)|, maxTokens);
    ChunkedFlatten(tok.encode(text), maxTokens);
  }

  /**
   * Row i of one text is numbered `startIndex + i` and holds the i-th window of the encoded text,
   * the tokens from `i * max_tokens` on (at most `max_tokens` of them, at least one), decoded,
   * with the document, parse and section/page metadata unchanged.
   */
  lemma TextChunkAt(tok: Tokenizer, documentId: int, parseId: Option<int>, text: string,
                    maxTokens: nat, meta: SectionMeta, startIndex: int, i: nat)
    requires maxTokens > 0
    requires i < |TextChunks(tok, documentId, parseId, text, maxTokens, meta, startIndex)|
    ensures i * maxTokens < |tok.encode(text)|
    ensures var c := TextChunks(tok, documentId, parseId, text, maxTokens, meta, startIndex)[i];
      var tokens := tok.encode(text);
      var window := tokens[i * maxTokens .. Min(i * maxTokens + maxTokens, |tokens|)];
      && c.chunk_index == startIndex + i
      && 0 < c.token_count <= maxTokens
      && c.token_count == |window|
      && c.text == tok.decode(window)
      && c.document_id == documentId && c.parse_id == parseId
      && c.section_title == meta.section_title
      && c.page_start == meta.page_start && c.page_end == meta.page_end
  {
    var tokens := tok.encode(text);
    var windows := TextWindows(tok, text, maxTokens);
    assert !IsBlank(text);
    assert TextChunks(tok, documentId, parseId, text, maxTokens, meta, startIndex)[i]
        == WindowChunk(tok, documentId, parseId, windows[i], meta, startIndex + i);
    ChunkedAt(tokens, maxTokens, i);
  }
}
