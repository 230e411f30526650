/**
 * The older chunking service: `chunk_text_from_text` numbers every call's rows from 0, and
 * `chunk_pdf` re-tokenizes each structural chunk in overlapping token windows and hands every
 * decoded window to `chunk_text_from_text` separately.
 */
module LegacyChunking {
  import opened Wrappers
  import opened Seqs
  import opened Strings
  import opened Records
  import opened TextChunking
  import opened IngestionChunking

  /** `chunk_text_from_text` (older service): the rows for `text`, always numbered from 0. */
  method ChunkTextFromText(db: Database, tok: Tokenizer, documentId: int, parseId: int, text: string,
                           maxTokens: nat, meta: SectionMeta)
    returns (count: nat)
    requires maxTokens > 0
    modifies db
    ensures db.chunks == old(db.chunks) + TextChunks(tok, documentId, Some(parseId), text, maxTokens, meta, 0)
    ensures count == |TextChunks(tok, documentId, Some(parseId), text, maxTokens, meta, 0)|
    ensures db.documents == old(db.documents) && db.blocks == old(db.blocks)
  {
    var next;
    count, next := IngestionChunking.ChunkTextFromText(db, tok, documentId, Some(parseId), text, maxTokens, meta, 0);
  }

  /** The window loop over one structural chunk's tokens terminates (its tokens are empty, or the windows advance). */
  predicate WindowsTerminate(tok: Tokenizer, text: string, maxTokens: int, overlap: int) {
    tok.encode(text) == [] || SlideTerminates(|tok.encode(text)|, maxTokens, overlap)
  }

  /**
   * The token windows `tokens[start:end]` the loop visits from `start` on: `end` is
   * `min(start + max_tokens, len(tokens))`, the loop stops after the window that reaches the end,
   * and otherwise continues at `end - overlap`.
   */
  function TokenWindowsFrom(tokens: seq<int>, maxTokens: int, overlap: int, start: nat): seq<seq<int>>
    requires SlideTerminates(|tokens|, maxTokens, overlap)
    decreases |tokens| - start
  {
    if start >= |tokens| then []
    else
      var end := Min(start + maxTokens, |tokens|);
      [tokens[start..end]] + (if end == |tokens| then [] else TokenWindowsFrom(tokens, maxTokens, overlap, end - overlap))
  }

  /** The first window from `start`, followed by the windows from `overlap` tokens before its end. */
  lemma TokenWindowsUnfold(tokens: seq<int>, maxTokens: int, overlap: int, start: nat, end: nat)
    requires SlideTerminates(|tokens|, maxTokens, overlap) && start < |tokens|
    requires end == Min(start + maxTokens, |tokens|)
    ensures end < |tokens| ==> start < end - overlap
    ensures TokenWindowsFrom(tokens, maxTokens, overlap, start)
            == [tokens[start..end]]
               + (if end == |tokens| then [] else TokenWindowsFrom(tokens, maxTokens, overlap, end - overlap))
  {
  }

  /** The windows from `start` are the token slices of the sliding spans from `start`. */
  lemma {:induction false} TokenWindowsSlide(tokens: seq<int>, maxTokens: int, overlap: int, start: nat)
    requires SlideTerminates(|tokens|, maxTokens, overlap)
    ensures var tw := TokenWindowsFrom(tokens, maxTokens, overlap, start);
            var ws := Slide(|tokens|, maxTokens, overlap, start);
            |tw| == |ws|
            && forall k :: 0 <= k < |ws| ==> ws[k].lo <= ws[k].hi <= |tokens| && tw[k] == tokens[ws[k].lo..ws[k].hi]
    decreases |tokens| - start
  {
    var n := |tokens|;
    if start < n {
      var hi := Min(start + maxTokens, n);
      SlideUnfold(n, maxTokens, overlap, start, hi);
      TokenWindowsUnfold(tokens, maxTokens, overlap, start, hi);
      if hi < n {
        var next := hi - overlap;
        assert Max(0, hi - overlap) == next;
        TokenWindowsSlide(tokens, maxTokens, overlap, next);
        var tw := TokenWindowsFrom(tokens, maxTokens, overlap, start);
        var ws := Slide(n, maxTokens, overlap, start);
        var rtw := TokenWindowsFrom(tokens, maxTokens, overlap, next);
        var rws := Slide(n, maxTokens, overlap, next);
        assert tw == [tokens[start..hi]] + rtw && ws == [Span(start, hi)] + rws;
        forall k | 0 <= k < |ws| ensures ws[k].lo <= ws[k].hi <= n && tw[k] == tokens[ws[k].lo..ws[k].hi] {
          if k > 0 { assert tw[k] == rtw[k - 1] && ws[k] == rws[k - 1]; }
        }
      }
    }
  }

  /**
   * The windows of the loop over a text's tokens: none for no tokens; each holds 1 to max_tokens
   * tokens and all but the last exactly max_tokens; the first starts at the first token.
   */
  lemma TokenWindowsShape(tokens: seq<int>, maxTokens: int, overlap: int)
    requires SlideTerminates(|tokens|, maxTokens, overlap)
    ensures var tw := TokenWindowsFrom(tokens, maxTokens, overlap, 0);
            (tw == [] <==> tokens == [])
            && (forall k :: 0 <= k < |tw| ==> 0 < |tw[k]| <= maxTokens)
            && (forall k :: 0 <= k < |tw| - 1 ==> |tw[k]| == maxTokens)
            && (tw != [] ==> tw[0] == tokens[..|tw[0]|])
  {
    TokenWindowsSlide(tokens, maxTokens, overlap, 0);
    SlideShape(|tokens|, maxTokens, overlap, 0);
  }

  /** With a non-negative overlap the last window ends at the last token. */
  lemma TokenWindowsLast(tokens: seq<int>, maxTokens: int, overlap: int)
    requires SlideTerminates(|tokens|, maxTokens, overlap) && 0 <= overlap && tokens != []
    ensures var tw := TokenWindowsFrom(tokens, maxTokens, overlap, 0);
            tw != [] && |tw[|tw| - 1]| <= |tokens| && tw[|tw| - 1] == tokens[|tokens| - |tw[|tw| - 1]|..]
  {
    var tw := TokenWindowsFrom(tokens, maxTokens, overlap, 0);
    var ws := Slide(|tokens|, maxTokens, overlap, 0);
    TokenWindowsSlide(tokens, maxTokens, overlap, 0);
    SlideCover(|tokens|, maxTokens, overlap, 0);
    assert tw[|tw| - 1] == tokens[ws[|ws| - 1].lo..|tokens|];
  }

  /**
   * With a non-negative overlap each window after the first begins with the previous window's
   * last `overlap` tokens (the overlap being then smaller than max_tokens).
   */
  lemma TokenWindowsOverlap(tokens: seq<int>, maxTokens: int, overlap: int)
    requires SlideTerminates(|tokens|, maxTokens, overlap) && 0 <= overlap
    ensures var tw := TokenWindowsFrom(tokens, maxTokens, overlap, 0);
            forall k, j :: 0 <= k && j == k + 1 < |tw| ==>
              |tw[k]| == maxTokens && overlap < maxTokens && overlap < |tw[j]|
              && tw[k][maxTokens - overlap..] == tw[j][..overlap]
  {
    var n := |tokens|;
    var tw := TokenWindowsFrom(tokens, maxTokens, overlap, 0);
    var ws := Slide(n, maxTokens, overlap, 0);
    TokenWindowsSlide(tokens, maxTokens, overlap, 0);
    SlideShape(n, maxTokens, overlap, 0);
    SlideInner(n, maxTokens, overlap, 0);
    if n > 0 {
      SlideCover(n, maxTokens, overlap, 0);
    }
    forall k, j | 0 <= k && j == k + 1 < |tw|
      ensures |tw[k]| == maxTokens && overlap < maxTokens && overlap < |tw[j]|
      ensures tw[k][maxTokens - overlap..] == tw[j][..overlap]
    {
      OverlapStep(tokens, maxTokens, overlap, ws, tw, k);
    }
  }

  /** One pair of neighbouring windows, from the spans they slice. */
  lemma OverlapStep(tokens: seq<int>, maxTokens: int, overlap: int, ws: seq<Span>, tw: seq<seq<int>>, k: nat)
    requires SlideTerminates(|tokens|, maxTokens, overlap) && 0 <= overlap
    requires |tw| == |ws| && k + 1 < |ws| && ws[|ws| - 1].hi == |tokens|
    requires forall i :: 0 <= i < |ws| ==> ws[i].lo <= ws[i].hi <= |tokens| && tw[i] == tokens[ws[i].lo..ws[i].hi]
    requires SpansShape(ws, |tokens|, maxTokens, overlap)
    requires forall i :: 0 <= i < |ws| - 1 ==> ws[i].hi < |tokens|
    ensures |tw[k]| == maxTokens && overlap < maxTokens && overlap < |tw[k + 1]|
    ensures tw[k][maxTokens - overlap..] == tw[k + 1][..overlap]
  {
    var n := |tokens|;
    var hi := ws[k].hi;
    assert ws[k].hi - ws[k].lo == maxTokens && hi < n;
    assert ws[k + 1].lo == hi - overlap;
    if k + 1 < |ws| - 1 {
      assert ws[k + 1].hi - ws[k + 1].lo == maxTokens;
    }
    assert tw[k][maxTokens - overlap..] == tokens[hi - overlap..hi];
    assert tw[k + 1][..overlap] == tokens[hi - overlap..hi];
  }

  /** With a non-negative overlap every token lies in some window, at its own position. */
  lemma TokenWindowsCover(tokens: seq<int>, maxTokens: int, overlap: int)
    requires SlideTerminates(|tokens|, maxTokens, overlap) && 0 <= overlap
    ensures var tw := TokenWindowsFrom(tokens, maxTokens, overlap, 0);
            var ws := Slide(|tokens|, maxTokens, overlap, 0);
            |tw| == |ws|
            && forall i :: 0 <= i < |tokens| ==>
                 exists k :: 0 <= k < |ws| && ws[k].lo <= i < ws[k].hi <= |tokens|
                             && tw[k] == tokens[ws[k].lo..ws[k].hi] && tw[k][i - ws[k].lo] == tokens[i]
  {
    var tw := TokenWindowsFrom(tokens, maxTokens, overlap, 0);
    var ws := Slide(|tokens|, maxTokens, overlap, 0);
    TokenWindowsSlide(tokens, maxTokens, overlap, 0);
    if |tokens| > 0 {
      SlideCover(|tokens|, maxTokens, overlap, 0);
      forall i | 0 <= i < |tokens|
        ensures exists k :: 0 <= k < |ws| && ws[k].lo <= i < ws[k].hi <= |tokens|
                            && tw[k] == tokens[ws[k].lo..ws[k].hi] && tw[k][i - ws[k].lo] == tokens[i]
      {
        var k := CoverStep(tokens, ws, tw, i);
      }
    }
  }

  /** The window that covers token `i`, read at the token's position in it. */
  lemma CoverStep(tokens: seq<int>, ws: seq<Span>, tw: seq<seq<int>>, i: nat) returns (k: nat)
    requires |tw| == |ws| && i < |tokens| && Covered(ws, i)
    requires forall j :: 0 <= j < |ws| ==> ws[j].lo <= ws[j].hi <= |tokens| && tw[j] == tokens[ws[j].lo..ws[j].hi]
    ensures k < |ws| && ws[k].lo <= i < ws[k].hi <= |tokens|
    ensures tw[k] == tokens[ws[k].lo..ws[k].hi] && tw[k][i - ws[k].lo] == tokens[i]
  {
    k :| 0 <= k < |ws| && ws[k].lo <= i < ws[k].hi;
  }

  /** The overlapping token windows of one structural chunk's text. */
  function LegacyWindows(tok: Tokenizer, text: string, maxTokens: int, overlap: int): seq<seq<int>>
    requires WindowsTerminate(tok, text, maxTokens, overlap)
  {
    if tok.encode(text) == [] then [] else TokenWindowsFrom(tok.encode(text), maxTokens, overlap, 0)
  }

  /** The rows for the decoded windows `ws`, each window's rows numbered from 0. */
  function WindowsChunks(tok: Tokenizer, documentId: int, parseId: int, ws: seq<seq<int>>, maxTokens: nat,
                         meta: SectionMeta): seq<DocumentChunk>
    requires maxTokens > 0
  {
    if ws == [] then []
    else WindowsChunks(tok, documentId, parseId, ws[..|ws| - 1], maxTokens, meta)
         + TextChunks(tok, documentId, Some(parseId), tok.decode(ws[|ws| - 1]), maxTokens, meta, 0)
  }

  lemma WindowsChunksSnoc(tok: Tokenizer, documentId: int, parseId: int, ws: seq<seq<int>>, w: seq<int>,
                          maxTokens: nat, meta: SectionMeta)
    requires maxTokens > 0
    ensures WindowsChunks(tok, documentId, parseId, ws + [w], maxTokens, meta)
         == WindowsChunks(tok, documentId, parseId, ws, maxTokens, meta)
            + TextChunks(tok, documentId, Some(parseId), tok.decode(w), maxTokens, meta, 0)
  {
    assert (ws + [w])[..|ws|] == ws;
  }

  predicate AllTerminate(tok: Tokenizer, cs: seq<StructuralChunk>, maxTokens: int, overlap: int) {
    forall k :: 0 <= k < |cs| ==> WindowsTerminate(tok, cs[k].enriched_text, maxTokens, overlap)
  }

  /** The rows the older `chunk_pdf` adds for the structural chunks `cs`. */
  function LegacyPdfChunks(tok: Tokenizer, documentId: int, parseId: int, cs: seq<StructuralChunk>,
                           maxTokens: nat, overlap: int): seq<DocumentChunk>
    requires maxTokens > 0 && AllTerminate(tok, cs, maxTokens, overlap)
  {
    if cs == [] then []
    else
      var last := cs[|cs| - 1];
      LegacyPdfChunks(tok, documentId, parseId, cs[..|cs| - 1], maxTokens, overlap)
      + WindowsChunks(tok, documentId, parseId, LegacyWindows(tok, last.enriched_text, maxTokens, overlap),
                      maxTokens, ChunkMeta(last))
  }

  lemma LegacyPdfChunksSnoc(tok: Tokenizer, documentId: int, parseId: int, cs: seq<StructuralChunk>,
                            maxTokens: nat, overlap: int, k: nat)
    requires maxTokens > 0 && AllTerminate(tok, cs, maxTokens, overlap) && k < |cs|
    ensures AllTerminate(tok, cs[..k], maxTokens, overlap) && AllTerminate(tok, cs[..k + 1], maxTokens, overlap)
    ensures LegacyPdfChunks(tok, documentId, parseId, cs[..k + 1], maxTokens, overlap)
         == LegacyPdfChunks(tok, documentId, parseId, cs[..k], maxTokens, overlap)
            + WindowsChunks(tok, documentId, parseId, LegacyWindows(tok, cs[k].enriched_text, maxTokens, overlap),
                            maxTokens, ChunkMeta(cs[k]))
  {
    assert cs[..k + 1][..k] == cs[..k];
  }

  /** One iteration of the window loop: the decoded window is chunked on its own. */
  method ChunkWindow(db: Database, tok: Tokenizer, documentId: int, parseId: int, ghost done: seq<seq<int>>,
                     tokenChunk: seq<int>, maxTokens: nat, meta: SectionMeta, ghost base: seq<DocumentChunk>)
    returns (n: nat)
    requires maxTokens > 0
    requires db.chunks == base + WindowsChunks(tok, documentId, parseId, done, maxTokens, meta)
    modifies db
    ensures db.chunks == base + WindowsChunks(tok, documentId, parseId, done + [tokenChunk], maxTokens, meta)
    ensures |db.chunks| == |old(db.chunks)| + n
    ensures db.documents == old(db.documents) && db.blocks == old(db.blocks)
  {
    var chunkText := tok.decode(tokenChunk);
    n := ChunkTextFromText(db, tok, documentId, parseId, chunkText, maxTokens, meta);
    AppendAssoc(base, WindowsChunks(tok, documentId, parseId, done, maxTokens, meta),
                TextChunks(tok, documentId, Some(parseId), chunkText, maxTokens, meta, 0));
    WindowsChunksSnoc(tok, documentId, parseId, done, tokenChunk, maxTokens, meta);
  }

  /** One window of the loop over a text's tokens: `tokens[start:end]` is decoded and chunked. */
  method AddTokenWindow(db: Database, tok: Tokenizer, documentId: int, parseId: int, tokens: seq<int>,
                        maxTokens: nat, overlap: int, meta: SectionMeta, start: nat,
                        ghost done: seq<seq<int>>, ghost base: seq<DocumentChunk>)
    returns (end: nat, n: nat, tokenChunk: seq<int>)
    requires maxTokens > 0 && SlideTerminates(|tokens|, maxTokens, overlap) && start < |tokens|
    requires db.chunks == base + WindowsChunks(tok, documentId, parseId, done, maxTokens, meta)
    modifies db
    ensures end == Min(start + maxTokens, |tokens|) && tokenChunk == tokens[start..end]
    ensures end < |tokens| ==> start < end - overlap
    ensures TokenWindowsFrom(tokens, maxTokens, overlap, start)
            == [tokenChunk] + (if end == |tokens| then [] else TokenWindowsFrom(tokens, maxTokens, overlap, end - overlap))
    ensures db.chunks == base + WindowsChunks(tok, documentId, parseId, done + [tokenChunk], maxTokens, meta)
    ensures |db.chunks| == |old(db.chunks)| + n
    ensures db.documents == old(db.documents) && db.blocks == old(db.blocks)
  {
    end := Min(start + maxTokens, |tokens|);
    tokenChunk := tokens[start..end];
    TokenWindowsUnfold(tokens, maxTokens, overlap, start, end);
    n := ChunkWindow(db, tok, documentId, parseId, done, tokenChunk, maxTokens, meta, base);
  }

  /**
   * The window loop of `chunk_pdf` for one structural chunk: windows of `max_tokens` tokens, each
   * next one starting `overlap` tokens before the previous end, every decoded window chunked on its own.
   */
  method ChunkWindows(db: Database, tok: Tokenizer, documentId: int, parseId: int, text: string,
                      maxTokens: nat, overlap: int, meta: SectionMeta)
    returns (total: nat)
    requires maxTokens > 0 && WindowsTerminate(tok, text, maxTokens, overlap)
    modifies db
    ensures db.chunks == old(db.chunks)
                         + WindowsChunks(tok, documentId, parseId, LegacyWindows(tok, text, maxTokens, overlap), maxTokens, meta)
    ensures total == |WindowsChunks(tok, documentId, parseId, LegacyWindows(tok, text, maxTokens, overlap), maxTokens, meta)|
    ensures db.documents == old(db.documents) && db.blocks == old(db.blocks)
  {
    var tokens := tok.encode(text);
    total := 0;
    if tokens == [] {
      return;
    }
    ghost var all := TokenWindowsFrom(tokens, maxTokens, overlap, 0);
    ghost var done: seq<seq<int>> := [];
    var start: nat := 0;
    while start < |tokens|
      invariant done + TokenWindowsFrom(tokens, maxTokens, overlap, start) == all
      invariant db.chunks == old(db.chunks) + WindowsChunks(tok, documentId, parseId, done, maxTokens, meta)
      invariant |db.chunks| == |old(db.chunks)| + total
      invariant db.documents == old(db.documents) && db.blocks == old(db.blocks)
      decreases |tokens| - start
    {
      var end, n, tokenChunk := AddTokenWindow(db, tok, documentId, parseId, tokens, maxTokens, overlap, meta, start,
                                               done, old(db.chunks));
      ghost var rest := if end == |tokens| then [] else TokenWindowsFrom(tokens, maxTokens, overlap, end - overlap);
      DoneStep(done, tokenChunk, rest, TokenWindowsFrom(tokens, maxTokens, overlap, start), all);
      total := total + n;
      done := done + [tokenChunk];
      if end == |tokens| {
        break;
      }
      start := end - overlap;
    }
    assert done == all;
  }

  /**
   * The older `chunk_pdf`, corrected to unpack the pair `parse_document` returns (see
   * `ChunkPdfAsWritten`): a failed parse propagates; otherwise every structural chunk's windows
   * are chunked in order, and the total number of rows is returned.
   */
  method ChunkPdf(db: Database, tok: Tokenizer, documentId: int, parsed: Result<ParsedPdf, string>,
                  maxTokens: nat, overlap: int)
    returns (r: Result<nat, string>)
    requires parsed.Success? ==> maxTokens > 0 && AllTerminate(tok, parsed.value.chunks, maxTokens, overlap)
    modifies db
    ensures parsed.Failure? ==> r == Failure(parsed.error) && db.chunks == old(db.chunks)
    ensures parsed.Success? ==>
      var rows := LegacyPdfChunks(tok, documentId, parsed.value.parse_id, parsed.value.chunks, maxTokens, overlap);
      db.chunks == old(db.chunks) + rows && r == Success(|rows|)
    ensures db.documents == old(db.documents) && db.blocks == old(db.blocks)
  {
    if parsed.Failure? {
      return Failure(parsed.error);
    }
    var parseId := parsed.value.parse_id;
    var docChunks := parsed.value.chunks;
    var totalChunks := 0;
    var k := 0;
    while k < |docChunks|
      invariant 0 <= k <= |docChunks|
      invariant AllTerminate(tok, docChunks[..k], maxTokens, overlap)
      invariant db.chunks == old(db.chunks) + LegacyPdfChunks(tok, documentId, parseId, docChunks[..k], maxTokens, overlap)
      invariant |db.chunks| == |old(db.chunks)| + totalChunks
      invariant db.documents == old(db.documents) && db.blocks == old(db.blocks)
    {
      var chunk := docChunks[k];
      var meta := ChunkMeta(chunk);
      ghost var before := db.chunks;
      var n := ChunkWindows(db, tok, documentId, parseId, chunk.enriched_text, maxTokens, overlap, meta);
      ghost var piece := WindowsChunks(tok, documentId, parseId, LegacyWindows(tok, chunk.enriched_text, maxTokens, overlap), maxTokens, meta);
      AppendAssoc(old(db.chunks), LegacyPdfChunks(tok, documentId, parseId, docChunks[..k], maxTokens, overlap), piece);
      totalChunks := totalChunks + n;
      LegacyPdfChunksSnoc(tok, documentId, parseId, docChunks, maxTokens, overlap, k);
      k := k + 1;
    }
    assert docChunks[..k] == docChunks;
    return Success(totalChunks);
  }

  /** The message Python raises for `doc_parse.id` when `doc_parse` is a pair. */
  const TupleHasNoId: string := "AttributeError: 'tuple' object has no attribute 'id'"

  /**
   * The older `chunk_pdf` as written: it binds the pair `(doc_parse, docling_doc)` that
   * `parse_document` returns to the single name `doc_parse`, so `doc_parse.id` raises before any
   * window is chunked. It never returns a count, and no row is added.
   */
  function ChunkPdfAsWritten(parsed: Result<ParsedPdf, string>): (r: Result<nat, string>)
    ensures r.Failure?
    ensures parsed.Failure? ==> r.error == parsed.error
  {
    if parsed.Failure? then Failure(parsed.error) else Failure(TupleHasNoId)
  }

  /**
   * Every parse that succeeds makes the older `chunk_pdf` as written raise, where the pair
   * unpacked (`ChunkPdf`) stores the windows' rows and returns their count.
   */
  lemma LegacyChunkPdfRaises(p: ParsedPdf)
    ensures ChunkPdfAsWritten(Success(p)) == Failure(TupleHasNoId)
  {
  }

  // ---------------------------------------------------------------- the index restart

  /** A window whose decoded text is not blank and encodes to some tokens contributes a row numbered 0. */
  predicate GivesRows(tok: Tokenizer, window: seq<int>) {
    !IsBlank(tok.decode(window)) && tok.encode(tok.decode(window)) != []
  }

  lemma FirstRowOfPiece(tok: Tokenizer, documentId: int, parseId: int, text: string, maxTokens: nat, meta: SectionMeta)
    requires maxTokens > 0 && !IsBlank(text) && tok.encode(text) != []
    ensures |TextChunks(tok, documentId, Some(parseId), text, maxTokens, meta, 0)| > 0
    ensures TextChunks(tok, documentId, Some(parseId), text, maxTokens, meta, 0)[0].chunk_index == 0
  {
    assert |Chunked(tok.encode(text), maxTokens)| > 0;
  }

  /** Every window that gives rows starts its rows at chunk_index 0, wherever it sits. */
  lemma {:induction false} WindowsChunksRestart(tok: Tokenizer, documentId: int, parseId: int, ws: seq<seq<int>>,
                                                maxTokens: nat, meta: SectionMeta, k: nat)
    requires maxTokens > 0 && k < |ws| && GivesRows(tok, ws[k])
    ensures var rows := WindowsChunks(tok, documentId, parseId, ws, maxTokens, meta);
      var p := |WindowsChunks(tok, documentId, parseId, ws[..k], maxTokens, meta)|;
      p < |rows| && rows[p].chunk_index == 0
  {
    var init := ws[..|ws| - 1];
    var prev := WindowsChunks(tok, documentId, parseId, init, maxTokens, meta);
    var piece := TextChunks(tok, documentId, Some(parseId), tok.decode(ws[|ws| - 1]), maxTokens, meta, 0);
    assert WindowsChunks(tok, documentId, parseId, ws, maxTokens, meta) == prev + piece;
    if k == |ws| - 1 {
      assert ws[..k] == init;
      FirstRowOfPiece(tok, documentId, parseId, tok.decode(ws[k]), maxTokens, meta);
      assert (prev + piece)[|prev|] == piece[0];
    } else {
      assert init[..k] == ws[..k];
      assert init[k] == ws[k];
      WindowsChunksRestart(tok, documentId, parseId, init, maxTokens, meta, k);
      var p := |WindowsChunks(tok, documentId, parseId, ws[..k], maxTokens, meta)|;
      assert (prev + piece)[p] == prev[p];
    }
  }

  /**
   * The older `chunk_pdf` breaks the contiguous chunk numbering whenever two token windows give
   * rows: both windows' first rows are numbered 0, so the rows are not numbered 0, 1, 2, ...
   */
  lemma LegacyIndicesRepeat(tok: Tokenizer, documentId: int, parseId: int, text: string, maxTokens: nat,
                            overlap: int, meta: SectionMeta, j: nat, k: nat)
    requires maxTokens > 0 && WindowsTerminate(tok, text, maxTokens, overlap)
    requires j < k < |LegacyWindows(tok, text, maxTokens, overlap)|
    requires GivesRows(tok, LegacyWindows(tok, text, maxTokens, overlap)[j])
    requires GivesRows(tok, LegacyWindows(tok, text, maxTokens, overlap)[k])
    ensures !IndexedFromZero(WindowsChunks(tok, documentId, parseId, LegacyWindows(tok, text, maxTokens, overlap), maxTokens, meta))
  {
    var ws := LegacyWindows(tok, text, maxTokens, overlap);
    var rows := WindowsChunks(tok, documentId, parseId, ws, maxTokens, meta);
    WindowsChunksRestart(tok, documentId, parseId, ws, maxTokens, meta, j);
    WindowsChunksRestart(tok, documentId, parseId, ws, maxTokens, meta, k);
    var pj := |WindowsChunks(tok, documentId, parseId, ws[..j], maxTokens, meta)|;
    var pk := |WindowsChunks(tok, documentId, parseId, ws[..k], maxTokens, meta)|;
    WindowsChunksGrow(tok, documentId, parseId, ws[..k], maxTokens, meta, j);
    assert ws[..k][..j] == ws[..j];
    assert ws[..k][j] == ws[j];
    assert pj < pk;
    assert rows[pk].chunk_index == 0 != pk;
  }

  /** Rows before a window that gives rows are strictly fewer than the rows up to and including it. */
  lemma {:induction false} WindowsChunksGrow(tok: Tokenizer, documentId: int, parseId: int, ws: seq<seq<int>>,
                                             maxTokens: nat, meta: SectionMeta, j: nat)
    requires maxTokens > 0 && j < |ws| && GivesRows(tok, ws[j])
    ensures |WindowsChunks(tok, documentId, parseId, ws[..j], maxTokens, meta)|
          < |WindowsChunks(tok, documentId, parseId, ws, maxTokens, meta)|
  {
    WindowsChunksRestart(tok, documentId, parseId, ws, maxTokens, meta, j);
  }
}
