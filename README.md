# InsightAI document pipeline, modelled in Dafny

InsightAI is a document-analysis backend. An uploaded PDF or CSV goes through several stages:

- It is split into token-bounded **chunks** (table `DocumentChunk`).
- The chunks are grouped into **blocks** (table `DocumentBlock`).
- A language model labels the blocks.
- The chunks are embedded and written to a Qdrant **vector store**.
- A **report** is generated section by section. Each section comes from the evidence retrieval finds, and is answered by an LLM call with an OpenAI-first, Gemini-fallback policy.

This project models those stages and proves properties of the model. Module by module:

- `Records`: the stored rows, and the database session as a class `Database` whose `db.add` calls append to its tables.
- `TextChunking`, `IngestionChunking`: `chunk_text_from_text` with a running chunk index, `chunk_pdf` over a parsed document, and the streaming CSV chunker `chunk_csv_stream` with its token budget and row overlap. Also the older fixed-window `chunk_csv_rows`.
- `LegacyChunking`: the older PDF chunker, sliding token windows with overlap.
- `CsvStreamBudget`: a reference version of the streaming chunker whose chunks respect the budget (see Findings).
- `DocumentBlocks`, `CsvBlocks`: the five-chunk section blocks and the 300-row table blocks.
- `BlockStructuring`: `structure_blocks`, which has the model label each block of a parse, with the fallback object used for non-JSON answers. A request that raises, or an answer whose content is None, ends the run with that error after the earlier blocks were committed.
- `LlmProvider`: `generate_json`, meaning the retry and fallback policy as call traces. Also `embed_texts`: 64-text batches, three attempts with a 1 s then 2 s back-off.
- `VectorStore`: the Qdrant collection as a class `QdrantStore`. Covers the collection-ready cache, uuid5 point identities, batched upserts, filtered queries and deletion by document.
- `KeyFigures`: German number parsing, currency detection, compact money formatting and `normalize_key_figure`.
- `ReportSchema`: the pydantic records and the JSON values the model answers with.
- `SectionLoop`, `ReportGeneration`: `generate_report_for_document`:
  - its five sections, with the vector-store evidence or the first twelve blocks, and the error of a retrieval that raises;
  - the 14000-character evidence cap and the sources fallback;
  - the key figures pass;
  - the defaults filled into a section dict;
  - the final wrapper call.
- `Seqs`, `Strings`, `Wrappers`: shared definitions, such as Python slicing in fixed-size steps, sliding windows, stable sort, `strip` and `join`/`split`.

Outside effects become parameters, and every one of them is an oracle:

- the tokenizer (`Tokenizer`, an encode/decode pair assumed to be nothing more than two functions);
- docling's parse result;
- the language model's answers, indexed by call;
- the embedding outcome per batch and attempt;
- Qdrant's ranking order and scores;
- the report's retrieval per section: hits, or `None` when it raises.

Stateful code is imperative Dafny. Each method is proved against a specification function, and the lemmas about that function carry the properties.

## Model

| member | source | states |
|---|---|---|
| Records.Lookup | backend/services/csv_block_service.py:26 | a row lookup finds a value exactly when the key is one of the row's keys, and the value is the one stored under it |
| TextChunking.TextChunksCount | backend/services/ingestion/chunking_service.py:39-46 | blank text gives no chunks; otherwise there are ceil(tokens / max_tokens) windows, and concatenated they are exactly the text's tokens |
| TextChunking.TextChunkAt | backend/services/ingestion/chunking_service.py:43-63 | chunk i covers tokens [i·max, min((i+1)·max, n)), has a token count between 1 and max_tokens, text decoded from its window, index start_index + i, and the section metadata passed in |
| IngestionChunking.RowToJsonLine | backend/services/ingestion/chunking_service.py:17-19 | the compact JSON line of a row never contains a newline, since `json.dumps` escapes control characters |
| IngestionChunking.JsonMembersIsJoin | backend/services/ingestion/chunking_service.py:17-19 | the object body is the row's `"key":"value"` members joined by `,` (separators `(",", ":")`) |
| IngestionChunking.ChunkTextFromText | backend/services/ingestion/chunking_service.py:23-66 | appends exactly the text's chunks to the session, returns their count and start_index + count, and leaves documents and blocks untouched |
| IngestionChunking.HeadingTitles | backend/services/ingestion/chunking_service.py:94-98 | the titles kept for the section title are non-empty, never more than the headings |
| IngestionChunking.HeadingTitlesSpec | backend/services/ingestion/chunking_service.py:94-98 | the titles kept are exactly the titles of the headings whose title is truthy, in heading order |
| IngestionChunking.HeadingTitlesKeep | backend/services/ingestion/chunking_service.py:94-98 | every heading with a truthy title contributes that title |
| IngestionChunking.PdfChunkIndicesContiguous | backend/services/ingestion/chunking_service.py:84-116 | the chunks of a whole PDF are numbered 0, 1, 2, … with no gap or repeat, because each call gets the previous call's next index |
| IngestionChunking.ChunkPdf | backend/services/ingestion/chunking_service.py:70-122 | a parse failure propagates and stores nothing; otherwise every structural chunk's token chunks are appended in order, and `(parse_id, total)` is returned |
| IngestionChunking.OverlapTailSpec | backend/services/ingestion/chunking_service.py:192-195 | the overlap kept after a flush is the buffer's suffix of min(overlap_rows, buffer length) rows, the whole buffer when overlap_rows covers it, and empty when overlap_rows <= 0 |
| IngestionChunking.FlushBuffer | backend/services/ingestion/chunking_service.py:147-173 | an empty buffer adds nothing; a non-empty one adds one chunk numbered `created`, with the JSON-lines text and its token count, and increments `created` |
| IngestionChunking.RecountTokens | backend/services/ingestion/chunking_service.py:197-200 | the recount equals the sum of the kept rows' line tokens |
| IngestionChunking.Prepare | backend/services/ingestion/chunking_service.py:176-185 | a line over max_tokens is replaced by the `__truncated_row__` row of its first max(0, max_tokens − 50) tokens; the line tokens are those of the row that is kept |
| IngestionChunking.FlushAndSeed | backend/services/ingestion/chunking_service.py:188-203 | flushing stores the buffer as the next chunk and reseeds the buffer with the overlap tail plus the new row, with the token count recomputed |
| IngestionChunking.StreamRow | backend/services/ingestion/chunking_service.py:175-203 | one row advances the buffer, token count and chunk count exactly as the stream's step function does, and the stored chunks are those of the groups flushed so far |
| IngestionChunking.ChunkCsvStream | backend/services/ingestion/chunking_service.py:126-210 | appends exactly the stream's chunks, one per group, numbered from 0, returns their count, and leaves the other tables untouched |
| IngestionChunking.StreamRunInv | backend/services/ingestion/chunking_service.py:175-203 | the loop invariant: the counter is the buffer's token sum, the buffer is empty only before the first row, the fresh rows of the flushed groups and the buffer are the prepared rows so far, and the groups are valid as below |
| IngestionChunking.StreamGroupsSpec | backend/services/ingestion/chunking_service.py:175-205 | the groups' fresh (non-overlap) rows, concatenated, are exactly the prepared input rows; the first group has no seed; each group has a fresh row and is within max_tokens when it has two or more fresh rows; each next group starts with the previous one's overlap tail, and its first fresh row is the one that would have pushed the previous group over max_tokens; there are no groups exactly when there are no rows |
| IngestionChunking.StreamTokensExact | backend/services/ingestion/chunking_service.py:197-203 | the running counter, incremented by line tokens, always equals the token sum of the buffered rows |
| IngestionChunking.CsvChunkTextLines | backend/services/ingestion/chunking_service.py:152-155 | splitting a CSV chunk's text at newlines gives back the heading line followed by one JSON line per row |
| IngestionChunking.BuildRowWindowText | backend/services/ingestion/chunking_service.py:239-245 | the loop builds the `Columns:` line, the `Rows:` line and one `h=value` record per row, joined by newlines |
| IngestionChunking.ChunkCsvRows | backend/services/ingestion/chunking_service.py:214-272 | no rows gives no chunks; otherwise one chunk per sliding window of rows_per_chunk rows restarting overlap_rows before each end, numbered from 0 |
| Seqs.SlideSpans | backend/services/ingestion/chunking_service.py:235-267 | every window is non-empty and within the rows, all but the last hold exactly rows_per_chunk rows, and each next window starts at max(0, end − overlap) |
| Seqs.SlideCover | backend/services/ingestion/chunking_service.py:235-267 | with a non-negative overlap, the last window ends at the last row and every row lies in some window |
| Seqs.Chunked | backend/services/csv_block_service.py:19-20 | `s[i:i+size]` in steps of size: ceil(n / size) pieces, each non-empty and at most size long |
| Seqs.ChunkedFlatten | backend/services/ingestion/document_block_service.py:26-27 | the pieces concatenated are the original sequence |
| Seqs.ChunkedAt | backend/services/llm/llm_provider.py:93-94 | piece k is `s[k·size : min(k·size + size, n)]` |
| Seqs.SortBy | backend/services/ingestion/document_block_service.py:17 | `order_by` gives a sequence sorted by the key that is a permutation of its input |
| Seqs.Filter | backend/services/structured_block_service.py:23-26 | a filter keeps exactly the elements that satisfy the predicate, each as many times as the input holds it, and drops every other element |
| Seqs.FilterOrdered | backend/services/vector/vector_store.py:100-116 | a filter keeps the input order: two kept elements appear in the input in the order they are kept |
| Seqs.FilterPrefixClosed | backend/services/vector/vector_store.py:110-116 | in an input without repeats, an element that satisfies the predicate and comes before an element of the first t kept is itself among the first t kept |
| Seqs.SlideInner | backend/services/chunking_service.py:104-121 | every window of the loop but the last ends before the end of the input |
| LegacyChunking.ChunkTextFromText | backend/services/chunking_service.py:15-61 | appends the text's token chunks numbered from 0 and returns their count |
| LegacyChunking.ChunkWindows | backend/services/chunking_service.py:100-122 | each overlapping token window, decoded, is re-chunked by `chunk_text_from_text` and appended in window order; the total is the number of rows added |
| LegacyChunking.ChunkPdf | backend/services/chunking_service.py:64-124 | with the pair that `parse_document` returns unpacked: a parse failure propagates; otherwise all structural chunks' window rows are appended and their count returned |
| LegacyChunking.ChunkPdfAsWritten | backend/services/chunking_service.py:70-71 | as written, `doc_parse.id` is read from the pair `(doc_parse, docling_doc)`: a parse failure propagates, and every successful parse raises AttributeError before any row is stored |
| LegacyChunking.LegacyChunkPdfRaises | backend/parsers/pdf_parser.py:41 | since `parse_document` returns a pair, every successful parse makes the legacy `chunk_pdf` raise the tuple AttributeError |
| LegacyChunking.TokenWindowsSlide | backend/services/chunking_service.py:104-121 | the token windows are exactly `tokens[lo:hi]` for the spans of the sliding-window loop, one per span and in order |
| LegacyChunking.TokenWindowsShape | backend/services/chunking_service.py:104-121 | no tokens give no windows; every window holds 1 to max_tokens tokens, all but the last exactly max_tokens; the first window starts the token list |
| LegacyChunking.TokenWindowsLast | backend/services/chunking_service.py:104-121 | with a non-negative overlap, the last window ends at the last token |
| LegacyChunking.TokenWindowsOverlap | backend/services/chunking_service.py:104-121 | with a non-negative overlap, each window after the first begins with the previous window's last `overlap` tokens, the overlap being smaller than max_tokens |
| LegacyChunking.TokenWindowsCover | backend/services/chunking_service.py:104-121 | with a non-negative overlap, every token lies in some window, at its own position there |
| LegacyChunking.WindowsChunksRestart | backend/services/chunking_service.py:45 | the first row each window contributes has chunk_index 0 |
| LegacyChunking.WindowsChunksGrow | backend/services/chunking_service.py:109-117 | a window that gives rows lies after all the rows of the windows before it |
| LegacyChunking.LegacyIndicesRepeat | backend/services/chunking_service.py:45 | as written: two windows that give rows make the PDF's chunk indices not 0, 1, 2, … (index 0 repeats) |
| CsvStreamBudget.OverlapSeedOverBudget | backend/services/ingestion/chunking_service.py:188-203 | as written: three equal rows of t tokens, with t <= max_tokens < 2t and overlap >= 2, give a third chunk of three rows, over budget by more than one row |
| CsvStreamBudget.FitTail | backend/services/ingestion/chunking_service.py:191-203 | the corrected seed is the longest suffix of the kept rows that fits beside the new row |
| CsvStreamBudget.CappedRunInv | backend/services/ingestion/chunking_service.py:175-203 | the corrected stream's loop invariant: the counter is the buffer's token sum, every flushed group and the buffer are within budget, and the fresh rows are the prepared rows so far |
| CsvStreamBudget.CappedGroupsSpec | backend/services/ingestion/chunking_service.py:126-205 | corrected: every chunk is within max_tokens (or is a single row) and the chunks' new rows are exactly the prepared input rows |
| DocumentBlocks.ParseChunks | backend/services/ingestion/document_block_service.py:11-19 | the query result holds exactly the chunks of that document and parse, each as many times as the table does, sorted by chunk_index |
| DocumentBlocks.SectionBlocks | backend/services/ingestion/document_block_service.py:26-44 | block k is the section block of group k, numbered k |
| DocumentBlocks.SectionBlockAt | backend/services/ingestion/document_block_service.py:26-41 | block k joins chunks [5k, min(5k+5, n)) of the parse |
| DocumentBlocks.BlocksFromChunksSpec | backend/services/ingestion/document_block_service.py:7-50 | ceil(n / 5) `section` blocks, none for no chunks, numbered from 0, with the group's texts joined by blank lines, the parse id, no label or title, and a summary of the first 500 characters |
| DocumentBlocks.AddGroupBlocks | backend/services/ingestion/document_block_service.py:26-44 | the loop appends exactly the section blocks and returns their count |
| DocumentBlocks.CreateBlocksFromChunks | backend/services/ingestion/document_block_service.py:7-50 | appends the parse's blocks to the session, returns their number, and changes no chunk |
| CsvBlocks.Cells | backend/services/csv_block_service.py:26 | `row[h]` for every header succeeds exactly when the row has every header, giving the values in header order; otherwise it raises KeyError for the first missing header |
| CsvBlocks.RowsTextSpec | backend/services/csv_block_service.py:25-26 | the rows' lines succeed exactly when every row has every header; the failure's key is a header that some row lacks |
| CsvBlocks.TableBlocksSuccess | backend/services/csv_block_service.py:19-39 | building the blocks succeeds exactly when every group's rows have every header |
| CsvBlocks.TableBlocksValues | backend/services/csv_block_service.py:19-39 | on success, block k is the table block of group k with the `Columns:` header and its row lines |
| CsvBlocks.TableBlocksError | backend/services/csv_block_service.py:19-39 | on failure, the error names a header missing from some row |
| CsvBlocks.TableBlocksSpec | backend/services/csv_block_service.py:19-39 | both directions of success, the blocks on success, and the error on failure |
| CsvBlocks.CsvRowBlocksSpec | backend/services/csv_block_service.py:6-42 | no rows gives no blocks; otherwise ceil(n / 300) `table` blocks numbered from 0, with the first row's columns, one line per row, no parse id and a summary of the first 500 characters, or the first row's column that some row lacks |
| CsvBlocks.BuildTableText | backend/services/csv_block_service.py:22-26 | the string-building loop gives the block text or the KeyError |
| CsvBlocks.AppendGroupBlock | backend/services/csv_block_service.py:19-39 | one iteration extends the blocks by group k or stops with the overall error |
| CsvBlocks.BuildTableBlocks | backend/services/csv_block_service.py:19-39 | the loop returns exactly the table blocks of the 300-row groups, or the error |
| CsvBlocks.CreateBlocksFromCsvRows | backend/services/csv_block_service.py:6-42 | on success adds all blocks at once; on a KeyError adds none and returns the error; chunks and documents are untouched |
| BlockStructuring.Fallback | backend/services/structured_block_service.py:59-68 | the fallback object is `other`, with no title, the block content, and a summary of its first 500 characters |
| BlockStructuring.Structured | backend/services/structured_block_service.py:70-72 | the label, title and summary come from `section_type`, `title` and `summary` (None when absent); every other field is kept |
| BlockStructuring.Matching | backend/services/structured_block_service.py:21-26 | the matching positions are exactly the blocks of that document and parse, each once |
| BlockStructuring.QueryPositions | backend/services/structured_block_service.py:21-29 | the query holds each block of the parse once and nothing else, in block_index order |
| BlockStructuring.FirstRaise | backend/services/structured_block_service.py:53-60 | the first request that raises (a raising call or a None content), every earlier one returning; `n` when none raises |
| BlockStructuring.StructuredResults | backend/services/structured_block_service.py:31-77 | raises exactly when some request raises, with the first such request's error; otherwise one result per block of the parse, in query order: the model's object or the fallback; no blocks gives `[]` |
| BlockStructuring.QueryResults | backend/services/structured_block_service.py:31-77 | when no request raises: one result per block of the parse, in query order, the object or the fallback |
| BlockStructuring.ApplyRepliesSpec | backend/services/structured_block_service.py:36-73 | each queried block is updated from its own result; every other block is unchanged |
| BlockStructuring.AppliedSpec | backend/services/structured_block_service.py:36-73 | the loop cut at the first raising request leaves the blocks before it structured by their answers, the blocks from it on and all other blocks unchanged |
| BlockStructuring.StructuredStoreSpec | backend/services/structured_block_service.py:36-73 | after the run, the blocks of the parse queried before the first raising request carry their answers; the later ones and every block of another parse are unchanged |
| BlockStructuring.StructureOne | backend/services/structured_block_service.py:36-75 | one loop iteration fails exactly when request k raises, then with its error and nothing changed; otherwise it commits the k-th block and returns its object |
| BlockStructuring.StructureAll | backend/services/structured_block_service.py:36-77 | the loop returns all results, or the first raising request's error, and leaves the store updated up to that request |
| BlockStructuring.StructureBlocks | backend/services/structured_block_service.py:13-80 | returns or raises exactly as StructuredResults, with the blocks committed before a raise kept (StructuredStore); chunks and documents are unchanged |
| LlmProvider.CallTraces | backend/services/llm/llm_provider.py:32-80 | every call sequence starts with an OpenAI call and has at most four events |
| LlmProvider.GenerateJson | backend/services/llm/llm_provider.py:20-80 | an answer is parsed, and unparsable JSON propagates; a 429 goes straight to Gemini; a transient error sleeps 1 s and retries once, then falls back to Gemini on any failure; other errors propagate |
| LlmProvider.FinalAttempt | backend/services/llm/llm_provider.py:99-112 | the attempt the retry loop ends on: the first that succeeds, raises a non-retried error, or is the third; all earlier attempts raised a retried error |
| LlmProvider.BatchRunSpec | backend/services/llm/llm_provider.py:96-112 | a batch's run is the outcome of its final attempt a, after the call trace `call, sleep 1.0, call, sleep 2.0, call` cut to its first 2a+1 events |
| LlmProvider.EmbedAll | backend/services/llm/llm_provider.py:86-113 | no texts gives `[]` and no calls |
| LlmProvider.CombineSuccess | backend/services/llm/llm_provider.py:93-106 | the batches succeed exactly when every batch does, and then the vectors and events are the batches' concatenated |
| LlmProvider.CombineFailure | backend/services/llm/llm_provider.py:107-109 | a failure is that of the first failing batch, after which no later batch runs |
| LlmProvider.EmbedBatchesSuccess | backend/services/llm/llm_provider.py:86-113 | `embed_texts` succeeds exactly when every 64-text batch does, returning their vectors in order |
| LlmProvider.EmbedBatchesFailure | backend/services/llm/llm_provider.py:86-113 | `embed_texts` raises the first failing batch's error, having run only the batches up to it |
| LlmProvider.EmbedBatch | backend/services/llm/llm_provider.py:96-112 | the retry loop computes the batch's run |
| LlmProvider.EmbedChunk | backend/services/llm/llm_provider.py:93-112 | the batch at offset i is batch k of the 64-text split |
| LlmProvider.EmbedTexts | backend/services/llm/llm_provider.py:86-113 | the batch loop computes the whole run |
| VectorStore.PointIds | backend/services/vector/vector_store.py:51-54 | one id per chunk, in order, from the document id and the chunk id |
| VectorStore.PointIdInjective | backend/services/vector/vector_store.py:52 | distinct (document, chunk) pairs get distinct point ids, so uuid5 keys never collide across documents |
| VectorStore.PayloadOf | backend/services/vector/vector_store.py:63-77 | the payload carries the document id, chunk id, text and the metadata fields (None without metadata), and keywords default to `[]` |
| VectorStore.WrittenSpec | backend/services/vector/vector_store.py:79-88 | an upsert keeps unrelated points, adds every id, and stores at each id the last vector and payload written for it |
| VectorStore.WrittenIdempotent | backend/services/vector/vector_store.py:79-88 | upserting the same batch twice gives the same store as once |
| VectorStore.ChunksStored | backend/services/vector/vector_store.py:47-88 | after an upsert every chunk is stored under its point id with its vector and payload, and every other point is unchanged |
| VectorStore.UpsertCalls | backend/services/vector/vector_store.py:79-88 | one upsert request per batch, in order |
| VectorStore.WithoutDocument | backend/services/vector/vector_store.py:139-153 | deletion removes exactly the points of that document and keeps the rest unchanged |
| VectorStore.Take | backend/services/vector/vector_store.py:113 | `limit=k` keeps a prefix of at most k (none for k <= 0) |
| VectorStore.QueryIds | backend/services/vector/vector_store.py:100-116 | a query returns at most k points, all of that document |
| VectorStore.QueryHitsSpec | backend/services/vector/vector_store.py:110-136 | at most k hits, each a point of the document with its id, text, chunk index, pages, section title and score; fewer than k hits means no matching point was left out; a document without points gets no hits |
| VectorStore.QueryOrdered | backend/services/vector/vector_store.py:110-116 | the hits come in ranking order |
| VectorStore.QueryTopRanked | backend/services/vector/vector_store.py:110-116 | with a ranking that lists each id once, a point of the document ranked above a hit is itself a hit |
| VectorStore.DeletedDocumentNotFound | backend/services/vector/vector_store.py:139-153 | after deleting a document, no query for it finds anything |
| VectorStore.QdrantStore.EnsureCollection | backend/services/vector/vector_store.py:23-44 | after the call the cache flag is set and the collection exists; it is created with the vector size only when neither the flag nor an existing collection said so |
| VectorStore.QdrantStore.UpsertOneBatch | backend/services/vector/vector_store.py:79-88 | one batch writes ids [start, end) and records its request |
| VectorStore.QdrantStore.UpsertBatches | backend/services/vector/vector_store.py:79-88 | the batch loop writes every point and issues ceil(n / batch_size) requests, in order |
| VectorStore.QdrantStore.UpsertDocumentChunks | backend/services/vector/vector_store.py:47-88 | no chunks, or empty vectors, change nothing; otherwise the collection is ensured and all chunks are written in batches |
| VectorStore.QdrantStore.QuerySimilarChunks | backend/services/vector/vector_store.py:91-136 | an empty query vector or an unready collection gives `[]` without calls; otherwise one filtered query, whose hits are the store's ranked points of the document |
| VectorStore.QdrantStore.DeleteDocumentChunks | backend/services/vector/vector_store.py:139-153 | without the ready flag nothing happens; otherwise the document's points are removed and one delete request is recorded |
| KeyFigures.ParseNumberDe | backend/services/reporting/report_service.py:110-117 | an empty value is not a number |
| KeyFigures.ParseNumberDeGrouped | backend/services/reporting/report_service.py:110-123 | digits with `.` thousands separators, optionally signed, parse to the integer their digits spell |
| KeyFigures.ParseNumberDeDecimal | backend/services/reporting/report_service.py:110-123 | `a,b` parses to the decimal with integer part a (dots removed) and fraction b |
| KeyFigures.DetectCurrencyCaseless | backend/services/reporting/report_service.py:126-132 | detection ignores ASCII case: a lowercased unit names the same currency |
| KeyFigures.DetectCurrencyEuroFirst | backend/services/reporting/report_service.py:126-132 | EUR takes precedence: any unit containing `€` is EUR, whatever else it contains, `$` included |
| KeyFigures.DetectCurrencySymbol | backend/services/reporting/report_service.py:126-136 | the symbol of a currency is detected as that currency |
| KeyFigures.FormatCompactMoneySpec | backend/services/reporting/report_service.py:139-146 | the compact text is the German mantissa, then ` Mrd.`/` Mio.` or nothing, then the symbol, with `strip` dropping only the trailing space of an unknown currency |
| KeyFigures.MantissaLarge | backend/services/reporting/report_service.py:142-145 | millions and billions show two decimals of the rounded scaled amount, with a decimal comma |
| KeyFigures.MantissaSmall | backend/services/reporting/report_service.py:146 | smaller amounts show the rounded integer with `.` thousands separators |
| KeyFigures.MantissaParses | backend/services/reporting/report_service.py:110-146 | reading a formatted mantissa back with `parse_number_de` gives the rounded amount it shows |
| KeyFigures.GroupedUngrouped | backend/services/reporting/report_service.py:146 | `f"{n:,}"` without its commas is the plain numeral |
| KeyFigures.NatToStringValue | backend/services/reporting/report_service.py:143-146 | a numeral is all digits and denotes its number |
| KeyFigures.UngroupedValue | backend/services/reporting/report_service.py:146 | the numeral of `int(round(x))` denotes that integer |
| KeyFigures.PadSpec | backend/services/reporting/report_service.py:143-145 | two-digit padding of the cents has the given width and denotes the cents |
| KeyFigures.NormalizeKeyFigure | backend/services/reporting/report_service.py:154-179 | a figure keeps its name and context, and is either unchanged or has its unit cleared |
| KeyFigures.NormalizeKeeps | backend/services/reporting/report_service.py:159-179 | an unknown currency, an unparsable value, or a small plain-currency figure is returned unchanged |
| KeyFigures.NormalizeRewrites | backend/services/reporting/report_service.py:166-177 | a thousands unit (×1000) or a plain currency of at least a million rewrites the value compactly and clears the unit |
| KeyFigures.NormalizeKeyFigureSpec | backend/services/reporting/report_service.py:154-179 | a figure changes exactly when it is rewritten, and then it gets the compact value with an empty unit |
| KeyFigures.NormalizeKeyFigureIdempotent | backend/services/reporting/report_service.py:154-179 | normalising twice is the same as once |
| ReportSchema.SectionOf | backend/services/reporting/report_service.py:344 | `ReportSection(**d)` succeeds exactly when heading and content are strings and sources, if present, is a list of dicts; it keeps those values, and missing sources default to `[]` |
| ReportSchema.ObjectsOf | backend/services/report_schema.py:7 | a `List[Dict]` field accepts a list exactly when every item is a dict, keeping them in order |
| ReportSchema.FigureOf | backend/services/reporting/report_service.py:304 | `KeyFigure(**item)` succeeds exactly when item is a dict with string name, value and unit and a string context if present; context defaults to `""` |
| SectionLoop.LoopStop | backend/services/reporting/report_service.py:213-345 | after the first raising section, nothing more happens |
| SectionLoop.LoopRequests | backend/services/reporting/report_service.py:213-333 | the calls made are the first passes' calls, in order, all of them when nothing raised |
| SectionLoop.LoopError | backend/services/reporting/report_service.py:213-345 | an error is the result of the last pass attempted |
| SectionLoop.LoopSections | backend/services/reporting/report_service.py:344-345 | the sections are the successful passes' sections, in order, one fewer than the calls after an error |
| SectionLoop.LoopFigures | backend/services/reporting/report_service.py:205-308 | the key figures are those of the key figures pass once it has run, and `[]` before |
| SectionLoop.HaltedFailure | backend/services/reporting/report_service.py:213-345 | a loop cut short before pass f by an error e ends with e after the calls of the first f passes, all successful, or as the loop itself when one of those passes raised |
| SectionLoop.HaltedIff | backend/services/reporting/report_service.py:213-345 | when no pass raises e, the cut-short loop raises e exactly when the first f passes all succeed, and then after exactly their calls |
| ReportGeneration.LanguageInstructionSpec | backend/services/reporting/report_service.py:20-38 | `de`/`german`/`deutsch` give the German rule and `en`/`english` the English one, case-insensitively after stripping (both directions); any other language gets the rule naming it |
| ReportGeneration.OtherRuleDistinct | backend/services/reporting/report_service.py:34-38 | the rule for another language is never the German or English rule |
| ReportGeneration.DefaultLanguageIsGerman | backend/services/reporting/report_service.py:188-189 | a document without a language is reported in German |
| ReportGeneration.BlankLanguage | backend/services/reporting/report_service.py:21 | every non-empty all-whitespace language is kept by `or`, stripped to `""`, and gets the rule with an empty name, not German |
| ReportGeneration.DocumentMatches | backend/services/reporting/report_service.py:223-225 | the positions of the document's blocks, each once |
| ReportGeneration.DocumentPositions | backend/services/reporting/report_service.py:222-229 | the query holds each of the document's blocks once, in block_index order |
| ReportGeneration.FallbackItems | backend/services/reporting/report_service.py:222-241 | there are at most twelve fallback items, one per block as far as there are blocks |
| ReportGeneration.FallbackItemsSpec | backend/services/reporting/report_service.py:222-241 | the fallback is the document's first min(12, n) blocks in block_index order, as `block_{id}` items with no pages and title-or-label section |
| ReportGeneration.FallbackIdsDistinct | backend/services/reporting/report_service.py:232 | the fallback items have distinct ids |
| ReportGeneration.Items | backend/services/reporting/report_service.py:220-241 | with hits the evidence is the hits, in order; without hits it is the block fallback |
| ReportGeneration.EvidenceParts | backend/services/reporting/report_service.py:244-250 | one evidence part per item |
| ReportGeneration.EvidenceText | backend/services/reporting/report_service.py:251 | the evidence text is at most 14000 characters, a prefix of the joined parts, and all of them when they fit |
| ReportGeneration.Sources | backend/services/reporting/report_service.py:256-264 | one source per item |
| ReportGeneration.SourcesSpec | backend/services/reporting/report_service.py:256-264 | source i has exactly chunk_id, page_start, page_end and section_title, from item i |
| ReportGeneration.UserPromptSpec | backend/services/reporting/report_service.py:266-272 | the user prompt is the section and instruction head, then the evidence, stripped |
| ReportGeneration.PromptCarriesEvidence | backend/services/reporting/report_service.py:266-272 | evidence that does not end in whitespace appears whole at the end of the prompt |
| ReportGeneration.ExtractedItems | backend/services/reporting/report_service.py:298-302 | at most twelve items; a list gives its first min(12, n) items; anything else gives none |
| ReportGeneration.ValidFiguresAppend | backend/services/reporting/report_service.py:302-306 | validation works item by item and commutes with concatenation |
| ReportGeneration.InvalidFigureSkipped | backend/services/reporting/report_service.py:303-306 | an item pydantic rejects is skipped, and the rest are unaffected |
| ReportGeneration.ValidFiguresLength | backend/services/reporting/report_service.py:299-306 | validation never adds figures |
| ReportGeneration.ValidFiguresFrom | backend/services/reporting/report_service.py:299-306 | every validated figure comes from some item |
| ReportGeneration.ValidFiguresAll | backend/services/reporting/report_service.py:299-306 | when every item is valid, the figures are the items parsed, one for one |
| ReportGeneration.Normalized | backend/services/reporting/report_service.py:308 | each figure is normalised in place of itself |
| ReportGeneration.FigureLines | backend/services/reporting/report_service.py:311-315 | one line per figure |
| ReportGeneration.FigureLinesAt | backend/services/reporting/report_service.py:312-315 | line i is figure i's `- name: value unit (context)` line |
| ReportGeneration.FiguresContentEmpty | backend/services/reporting/report_service.py:316 | the fixed "no key figures" text appears exactly when there are no figures |
| ReportGeneration.FiguresContentLines | backend/services/reporting/report_service.py:311-316 | splitting the content at newlines gives back the figure lines |
| ReportGeneration.ObjectValues | backend/services/reporting/report_service.py:321-342 | the sources fallback as JSON values, item by item |
| ReportGeneration.SectionDictSpec | backend/services/reporting/report_service.py:335-342 | the section dict has the answer's keys plus heading, content and sources: heading when falsy, `""` for missing or null content, and the fallback sources when they are not a list; other keys are kept |
| ReportGeneration.OtherSectionSpec | backend/services/reporting/report_service.py:325-345 | a drafted section has the answer's heading or the default, its content or `""`, and the fallback sources when the answer has none |
| ReportGeneration.KeyFiguresSectionSpec | backend/services/reporting/report_service.py:288-323 | the key figures section has its fixed heading, the normalised validated figures (at most twelve) with their readable text, and the fallback sources unless the answer lists some |
| ReportGeneration.StepsKeyFigures | backend/services/reporting/report_service.py:40-46 | exactly the third section is the key figures pass |
| ReportGeneration.SectionNeverMissing | backend/services/reporting/report_service.py:289-344 | a section's failure is from its own call `k`: the call raised, the answer was not a dict, or the dict was invalid |
| ReportGeneration.FindDocument | backend/services/reporting/report_service.py:184 | `.first()` finds nothing exactly when no document has the id; otherwise it finds the first with that id |
| ReportGeneration.ReportMissingDocument | backend/services/reporting/report_service.py:184-186 | the run fails with "not found" exactly when the document is missing, and then makes no calls |
| ReportGeneration.FirstRetrievalFailure | backend/services/reporting/report_service.py:213-215 | the first section whose retrieval raises, or five: every earlier retrieval returned hits |
| ReportGeneration.DraftingStops | backend/services/reporting/report_service.py:213-345 | a section loop that raises stops where it fails: a retrieval error for section k after the calls of sections 0..k-1, or a section error naming the last call made |
| ReportGeneration.DraftingRetrievalFailure | backend/services/reporting/report_service.py:213-345 | when section f's retrieval is the first to raise, the loop raises: the retrieval error for f, after exactly the calls of sections 0..f-1, exactly when those sections all succeed |
| ReportGeneration.DraftingPass | backend/services/reporting/report_service.py:213-345 | one pass: a failing retrieval ends the run with its error; a failing answer ends it with its error after the call; a good answer extends the sections and, on the key figures pass, sets the key figures |
| ReportGeneration.RunStopsAtFailure | backend/services/reporting/report_service.py:213-373 | a failed run on a found document stopped at its failure: a retrieval error for section k before that section's call, with all earlier retrievals successful; a section error naming the last call; or the wrapper failing validation after all six calls |
| ReportGeneration.RunRetrievalFailure | backend/services/reporting/report_service.py:213-215 | a run whose section f is the first whose retrieval raises fails; with the retrieval error for f, having made exactly the calls of sections 0..f-1, exactly when those sections all succeed |
| ReportGeneration.RunCalls | backend/services/reporting/report_service.py:213-375 | a successful run retrieved evidence for every section, made the five section calls in order and then the final call over the drafted sections, and its sections are those drafted |
| ReportGeneration.RunKeyFigures | backend/services/reporting/report_service.py:288-371 | a successful report's key figures are the normalised validated figures of the third call's answer, at most twelve |
| ReportGeneration.WrapSpec | backend/services/reporting/report_service.py:358-373 | the wrapper is valid exactly when the title, summary and conclusion it has are strings; missing ones default to `Report for {filename}` and `""`; sections and figures are kept |
| ReportGeneration.BuildEvidenceParts | backend/services/reporting/report_service.py:244-250 | the loop computes the evidence parts |
| ReportGeneration.BuildSources | backend/services/reporting/report_service.py:256-264 | the loop computes the sources fallback |
| ReportGeneration.ValidateFigures | backend/services/reporting/report_service.py:298-306 | the try/continue loop computes the validated figures |
| ReportGeneration.BuildFigureLines | backend/services/reporting/report_service.py:311-315 | the loop computes the figure lines |
| ReportGeneration.KeyFiguresDraft | backend/services/reporting/report_service.py:298-345 | the key figures branch computes the section draft of its answer |
| ReportGeneration.OtherDraft | backend/services/reporting/report_service.py:325-345 | the other branch computes the section draft of its answer |
| ReportGeneration.DraftSection | backend/services/reporting/report_service.py:213-345 | one section pass: a retrieval that raises gives the retrieval error and no call; otherwise it makes the section's call and computes its result |
| ReportGeneration.DraftAll | backend/services/reporting/report_service.py:213-345 | the section loop computes `Drafting`: the passes up to the first failing retrieval, stopping at the first error |
| ReportGeneration.GenerateReport | backend/services/reporting/report_service.py:183-375 | the whole run returns the report, or the error it raises (a missing document, a retrieval error, a failing section or an invalid wrapper), and the calls it made |
| Strings.LowerIdempotent | backend/services/reporting/report_service.py:127 | lowercasing twice is lowercasing once |
| Strings.BlankIffAllSpace | backend/services/ingestion/chunking_service.py:39 | `not text.strip()` holds exactly when every character is whitespace |
| Strings.SplitJoin | backend/services/ingestion/chunking_service.py:155 | splitting a join of separator-free parts gives the parts back |

## Left out

- I/O and infrastructure: database sessions, commits and rollbacks, and logging. The `db.add` calls become appends to the tables of `Records.Database`. A block's primary key is its table position + 1, since rows are only appended here.
- The langfuse spans, `trace_meta`, `trace_input` and `hash_text`. They change no result.
- SQL order: `order_by` is a stable sort over insertion order. SQL leaves ties unordered.
- The tokenizer (tiktoken) and docling are not modelled:
  - the tokenizer is an arbitrary pair of functions;
  - docling's `HybridChunker`, `contextualize` and `parse_document` become the input `ParsedPdf`, a parse id plus structural chunks with headings and pages, or a parse error.
- Language model and embeddings:
  - the prompt texts are abstracted to `SystemPrompt` tags; the section prompts and the language rule are modelled;
  - the LLM answers, Gemini's result and the embedding outcomes are oracle functions, by call index or by batch and attempt;
  - sleeps are events in the call trace.
- Qdrant: cosine ranking is an oracle. It is an `order` sequence plus a `score` function.
- `upsert_document_chunks` takes the embedding result as its `vectors` argument, and the embedding call is not in its event list.
- VectorStore.QdrantStore.UpsertDocumentChunks: requires `vectors == [] || |vectors| == |chunks|` and batch_size > 0. The source's zip-free slicing would pass ragged lists to Qdrant.
- VectorStore.PointIdInjective: states injectivity of its key string `doc{d}_chunk{c}`. It does not state injectivity of uuid5, which is SHA-1-based.
- IngestionChunking.ChunkTextFromText: requires max_tokens > 0. With 0, `range` raises; a negative max_tokens gives no chunks.
- LegacyChunking.ChunkTextFromText: requires max_tokens > 0, for the same reason (`range` at backend/services/chunking_service.py:36-38).
- TextChunking.TextChunksCount: requires max_tokens > 0, for the same reason.
- IngestionChunking.ChunkCsvRows: requires `SlideTerminates`, that is rows_per_chunk > 0, and overlap_rows < rows_per_chunk when the rows exceed one window. On most excluded inputs `start` never advances and the source loops forever: overlap_rows >= rows_per_chunk with rows_per_chunk <= 0 or with more rows than one window. The excluded inputs with rows_per_chunk <= 0 and overlap_rows < rows_per_chunk do terminate in the source: `start` advances by rows_per_chunk - overlap_rows per pass, and each window's end lies before its start. The model does not cover them.
- LegacyChunking.ChunkPdf: requires max_tokens > 0 and `SlideTerminates` for every structural chunk's token window loop (`AllTerminate`). As for ChunkCsvRows, this also excludes the inputs with max_tokens <= 0 and overlap < max_tokens, on which the source's loop ends.
- LegacyChunking.ChunkWindows: same requirement (`WindowsTerminate`).
- Records.Row: a row's values are strings only. On a ragged CSV line, `csv.DictReader` gives `None` for the missing fields and a list of the extra values under the key `None`; neither case is modelled. A row is a sequence of (key, value) fields, so it can repeat a key, which a `DictReader` dict cannot: with repeated headers Python keeps one key with the last value, while `Records.Lookup` takes the first and `Records.Keys` lists the key twice. Rows with repeated keys are outside the model.
- The report's retrieval per section is an oracle (`ReportGeneration.Retrieval`). Its `None` stands for `query_similar_chunks` raising, as it does when the query embedding (`embed_texts_openai`) or the Qdrant query raises. The oracle is not derived from `VectorStore.QdrantStore.QuerySimilarChunks`, so a run does not link its hits to the store's contents.
- VectorStore.QueryTopRanked: requires a ranking that lists each point id once. Qdrant returns each id at most once.
- KeyFigures.ParseNumberDe: Python's `float(...)` grammar is modelled for plain decimal numerals: an optional sign, digits, and one optional decimal point. Exponents, `inf`, `nan` and underscores are rejected, where Python would accept them.
- KeyFigures.FormatCompactMoneySpec: `:.2f` and `round` are modelled as half-up rounding on exact reals. Python rounds binary floats half-to-even.
- Lowercasing is ASCII only. `€` and `$` are unaffected either way.
- KeyFigures.NormalizeKeyFigure: the source mutates the figure in place. It is modelled as a function returning the new figure, because its only caller uses the returned object.
- `report.model_dump()` is left out; the model returns the `ReportModel`.
- Pydantic validation is strict about types: a number is not coerced to a string field.
- `structure_blocks`: answers are modelled as JSON objects with string-or-null values, as text that is not JSON, as a raising `chat.completions.create`, or as a None content. The two raising cases are distinguished only by kind (`ClientError`, `ContentNone`), not by exception message. An answer that is valid JSON but not an object makes `.get` raise in the source; that case is not modelled.
- The report loop runs over precomputed passes (`Steps`). Every pass depends only on its own retrieval and its own answer, so this asks nothing more.
- Memory-safe streaming (`Iterator[Dict]`) is modelled as a sequence of rows.

## Findings

| source | as written | input that shows it | evidently intended | confidence | as-written member | corrected member |
|---|---|---|---|---|---|---|
| backend/services/chunking_service.py:70-71 | `doc_parse = parse_document(...)` binds the pair `(doc_parse, docling_doc)` that `parse_document` returns (backend/parsers/pdf_parser.py:41), and `doc_parse.id` is then read from the pair | any PDF that parses: `doc_parse.id` raises `AttributeError: 'tuple' object has no attribute 'id'` before any chunk is stored | `doc_parse, _ = parse_document(...)`, so that the parse id is read from the database row | not executed | LegacyChunking.ChunkPdfAsWritten | LegacyChunking.ChunkPdf |
| backend/services/chunking_service.py:40-122 | once the pair above is unpacked, each overlapping window is stored by its own `chunk_text_from_text` call, which numbers its chunks from 0 | any PDF chunk whose text spans two token windows: both windows' rows get chunk_index 0 | the chunks of a document numbered 0, 1, 2, … as the newer chunker does by passing `start_index` | not executed | LegacyChunking.LegacyIndicesRepeat | IngestionChunking.PdfChunkIndicesContiguous |
| backend/services/ingestion/chunking_service.py:188-203 | after a flush the last overlap_rows rows seed the buffer, and the new row is appended with no second budget comparison | three identical rows of t line tokens, with t <= max_tokens < 2t and overlap_rows >= 2: the third chunk holds three rows, 3t tokens | "token safe" chunks: the seed trimmed so that seed plus new row fit max_tokens | not executed | CsvStreamBudget.OverlapSeedOverBudget | CsvStreamBudget.CappedGroupsSpec |

`LegacyChunking.ChunkPdfAsWritten` and `LegacyChunking.LegacyChunkPdfRaises` show that the older `chunk_pdf` as written never gets past line 71 once a parse succeeds. `LegacyChunking.ChunkPdf` is that chunker with the pair unpacked, and the index repeat of the next row is stated about it. `IngestionChunking.ChunkCsvStream` follows the code as written. `CsvStreamBudget` has the corrected reference chunker and its budget property.
