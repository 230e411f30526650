/**
 * `create_blocks_from_csv_rows`: the parsed CSV rows, three hundred at a time, as `table` blocks
 * whose content lists the first row's columns and then one line per row.
 */
module CsvBlocks {
  import opened Wrappers
  import opened Seqs
  import opened Strings
  import opened Records

  const RowsPerBlock: nat := 300

  /** Longest block summary, `text[:500]`. */
  const SummaryLength: nat := 500

  /** The `KeyError` raised by `row[h]` for a column the row does not have. */
  datatype KeyError = KeyError(key: string)

  predicate Complete(row: Row, headers: seq<string>) {
    forall h :: h in headers ==> h in Keys(row)
  }

  predicate AllComplete(rows: seq<Row>, headers: seq<string>) {
    forall r :: r in rows ==> Complete(r, headers)
  }

  /** The row's values for `headers`, in header order, for a row that has every header. */
  function Values(row: Row, headers: seq<string>): (r: seq<string>)
    ensures |r| == |headers|
  {
    seq(|headers|, j requires 0 <= j < |headers| => Lookup(row, headers[j]).GetOr(""))
  }

  /**
   * `[str(row[h]) for h in headers]`: the values in header order, or the key error of the first
   * header, in order, that the row lacks.
   */
  function Cells(row: Row, headers: seq<string>): (r: Result<seq<string>, KeyError>)
    ensures r.Success? <==> Complete(row, headers)
    ensures r.Success? ==> r.value == Values(row, headers)
    ensures r.Failure? ==> exists j :: 0 <= j < |headers| && r.error == KeyError(headers[j])
                                       && headers[j] !in Keys(row)
                                       && forall i :: 0 <= i < j ==> headers[i] in Keys(row)
    decreases |headers|
  {
    if headers == [] then Success([])
    else
      match Lookup(row, headers[0])
      case None => Failure(KeyError(headers[0]))
      case Some(v) =>
        match Cells(row, headers[1..])
        case Failure(e) =>
          (assert forall i :: 1 <= i < |headers| ==> headers[1..][i - 1] == headers[i];
           Failure(e))
        case Success(rest) =>
          (assert forall h :: h in headers ==> h == headers[0] || h in headers[1..];
           assert [v] + rest == Values(row, headers);
           Success([v] + rest))
  }

  /** One row line of the table: the cells joined by `" | "`, then a newline. */
  function Line(cells: seq<string>): string {
    Join(" | ", cells) + "\n"
  }

  function RowLine(row: Row, headers: seq<string>): Result<string, KeyError> {
    match Cells(row, headers)
    case Failure(e) => Failure(e)
    case Success(cs) => Success(Line(cs))
  }

  /** The table heading: `"Columns:\n"`, the headers joined by `", "`, then `"\n\nRows:\n"`. */
  function Header(headers: seq<string>): string {
    "Columns:\n" + Join(", ", headers) + "\n\nRows:\n"
  }

  /** The row lines of a group appended in order; the first row that lacks a header raises. */
  function RowsText(headers: seq<string>, group: seq<Row>): Result<string, KeyError>
    decreases |group|
  {
    if group == [] then Success("")
    else
      match RowsText(headers, group[..|group| - 1])
      case Failure(e) => Failure(e)
      case Success(t) =>
        match RowLine(group[|group| - 1], headers)
        case Failure(e) => Failure(e)
        case Success(l) => Success(t + l)
  }

  /** The whole `text` of one block. */
  function TableText(headers: seq<string>, group: seq<Row>): Result<string, KeyError> {
    match RowsText(headers, group)
    case Failure(e) => Failure(e)
    case Success(body) => Success(Header(headers) + body)
  }

  function TableBlockOf(documentId: int, index: int, text: string): DocumentBlock {
    DocumentBlock(documentId, None, index, "table", None, None, text, Some(Prefix(text, SummaryLength)), None)
  }

  /** The blocks so far, followed by the block for the group numbered `index`; an earlier error stays. */
  function Extend(documentId: int, headers: seq<string>, prior: Result<seq<DocumentBlock>, KeyError>,
                  index: int, group: seq<Row>): Result<seq<DocumentBlock>, KeyError> {
    match prior
    case Failure(e) => Failure(e)
    case Success(bs) =>
      match TableText(headers, group)
      case Failure(e) => Failure(e)
      case Success(text) => Success(bs + [TableBlockOf(documentId, index, text)])
  }

  /** The blocks for consecutive groups, group `k` giving block `k`; the first failing group raises. */
  function TableBlocks(documentId: int, headers: seq<string>, groups: seq<seq<Row>>): (r: Result<seq<DocumentBlock>, KeyError>)
    ensures r.Success? ==> |r.value| == |groups|
    decreases |groups|
  {
    if groups == [] then Success([])
    else Extend(documentId, headers, TableBlocks(documentId, headers, groups[..|groups| - 1]),
                |groups| - 1, groups[|groups| - 1])
  }

  /** What `create_blocks_from_csv_rows` adds for `rows`, or the key error it raises. */
  function CsvRowBlocks(documentId: int, rows: seq<Row>): Result<seq<DocumentBlock>, KeyError> {
    if rows == [] then Success([])
    else TableBlocks(documentId, Keys(rows[0]), Chunked(rows, RowsPerBlock))
  }

  /** The row lines of a group whose rows have every header. */
  function Lines(headers: seq<string>, group: seq<Row>): (r: seq<string>)
    ensures |r| == |group|
  {
    seq(|group|, i requires 0 <= i < |group| => Line(Values(group[i], headers)))
  }

  // ---------------------------------------------------------------------------------------------
  // Properties of the specification functions

  /**
   * A group's row text exists exactly when every row has every header; it is then the row lines
   * in order, and otherwise the error names a header that one of the rows lacks.
   */
  lemma {:induction false} RowsTextSpec(headers: seq<string>, group: seq<Row>)
    ensures RowsText(headers, group).Success? <==> AllComplete(group, headers)
    ensures RowsText(headers, group).Success? ==> RowsText(headers, group).value == Flatten(Lines(headers, group))
    ensures RowsText(headers, group).Failure? ==>
              exists r :: r in group && RowsText(headers, group).error.key in headers
                          && RowsText(headers, group).error.key !in Keys(r)
    decreases |group|
  {
    if group != [] {
      var init := group[..|group| - 1];
      var last := group[|group| - 1];
      RowsTextSpec(headers, init);
      assert group == init + [last];
      assert forall r :: r in group <==> r in init || r == last;
      if RowsText(headers, group).Success? {
        assert Lines(headers, group) == Lines(headers, init) + [Line(Values(last, headers))];
        FlattenAppend(Lines(headers, init), [Line(Values(last, headers))]);
        FlattenSingle(Line(Values(last, headers)));
      }
    }
  }

  lemma TableBlocksPrefixFailure(documentId: int, headers: seq<string>, groups: seq<seq<Row>>, m: nat, e: KeyError)
    requires m <= |groups| && TableBlocks(documentId, headers, groups[..m]) == Failure(e)
    ensures TableBlocks(documentId, headers, groups) == Failure(e)
    decreases |groups|
  {
    if m < |groups| {
      assert groups[..|groups| - 1][..m] == groups[..m];
      TableBlocksPrefixFailure(documentId, headers, groups[..|groups| - 1], m, e);
    } else {
      assert groups[..m] == groups;
    }
  }

  lemma TableBlocksStep(documentId: int, headers: seq<string>, groups: seq<seq<Row>>, k: nat)
    requires k < |groups|
    ensures TableBlocks(documentId, headers, groups[..k + 1])
         == Extend(documentId, headers, TableBlocks(documentId, headers, groups[..k]), k, groups[k])
  {
    assert groups[..k + 1][..k] == groups[..k];
  }

  /** All blocks exist exactly when every group's rows have every header. */
  lemma {:induction false} TableBlocksSuccess(documentId: int, headers: seq<string>, groups: seq<seq<Row>>)
    ensures TableBlocks(documentId, headers, groups).Success?
            <==> forall k :: 0 <= k < |groups| ==> AllComplete(groups[k], headers)
    decreases |groups|
  {
    if groups != [] {
      var n := |groups| - 1;
      var init := groups[..n];
      TableBlocksSuccess(documentId, headers, init);
      RowsTextSpec(headers, groups[n]);
      assert forall k :: 0 <= k < n ==> init[k] == groups[k];
    }
  }

  /** When all blocks exist, block `k` is the `table` block numbered `k` holding the heading and group `k`'s row lines. */
  lemma {:induction false} TableBlocksValues(documentId: int, headers: seq<string>, groups: seq<seq<Row>>)
    ensures TableBlocks(documentId, headers, groups).Success? ==>
              forall k :: 0 <= k < |groups| ==>
                TableBlocks(documentId, headers, groups).value[k]
                == TableBlockOf(documentId, k, Header(headers) + Flatten(Lines(headers, groups[k])))
    decreases |groups|
  {
    if groups != [] && TableBlocks(documentId, headers, groups).Success? {
      var n := |groups| - 1;
      var init := groups[..n];
      var prior := TableBlocks(documentId, headers, init);
      assert prior.Success?;
      TableBlocksValues(documentId, headers, init);
      RowsTextSpec(headers, groups[n]);
      var text := TableText(headers, groups[n]);
      assert text.Success?;
      assert text.value == Header(headers) + Flatten(Lines(headers, groups[n]));
      assert TableBlocks(documentId, headers, groups).value == prior.value + [TableBlockOf(documentId, n, text.value)];
      assert forall k :: 0 <= k < n ==> init[k] == groups[k];
    }
  }

  /** A failure names a header that some row of some group lacks. */
  lemma {:induction false} TableBlocksError(documentId: int, headers: seq<string>, groups: seq<seq<Row>>)
    ensures TableBlocks(documentId, headers, groups).Failure? ==>
              exists k, r :: 0 <= k < |groups| && r in groups[k]
                             && TableBlocks(documentId, headers, groups).error.key in headers
                             && TableBlocks(documentId, headers, groups).error.key !in Keys(r)
    decreases |groups|
  {
    if groups != [] && TableBlocks(documentId, headers, groups).Failure? {
      var n := |groups| - 1;
      var init := groups[..n];
      var e := TableBlocks(documentId, headers, groups).error;
      if TableBlocks(documentId, headers, init).Failure? {
        TableBlocksError(documentId, headers, init);
        var k, r :| 0 <= k < n && r in init[k] && e.key in headers && e.key !in Keys(r);
        assert init[k] == groups[k];
      } else {
        RowsTextSpec(headers, groups[n]);
        assert RowsText(headers, groups[n]) == Failure(e);
        var r :| r in groups[n] && e.key in headers && e.key !in Keys(r);
      }
    }
  }

  /**
   * All blocks exist exactly when every group's rows have every header; block `k` is then the
   * `table` block numbered `k` whose content is the heading and group `k`'s row lines.
   */
  lemma TableBlocksSpec(documentId: int, headers: seq<string>, groups: seq<seq<Row>>)
    ensures TableBlocks(documentId, headers, groups).Success?
            <==> forall k :: 0 <= k < |groups| ==> AllComplete(groups[k], headers)
    ensures TableBlocks(documentId, headers, groups).Success? ==>
              forall k :: 0 <= k < |groups| ==>
                TableBlocks(documentId, headers, groups).value[k]
                == TableBlockOf(documentId, k, Header(headers) + Flatten(Lines(headers, groups[k])))
    ensures TableBlocks(documentId, headers, groups).Failure? ==>
              exists k, r :: 0 <= k < |groups| && r in groups[k]
                             && TableBlocks(documentId, headers, groups).error.key in headers
                             && TableBlocks(documentId, headers, groups).error.key !in Keys(r)
  {
    TableBlocksSuccess(documentId, headers, groups);
    TableBlocksValues(documentId, headers, groups);
    TableBlocksError(documentId, headers, groups);
  }

  /**
   * `create_blocks_from_csv_rows` on `rows`:
   *  - no rows give no blocks;
   *  - otherwise it raises exactly when some row lacks one of the first row's keys, and the error
   *    names such a key;
   *  - when it does not raise there are ceil(n / 300) blocks; block `k` is the `table` block
   *    numbered `k` with no parse, label, title or confidence, its content is the column heading
   *    and the lines of rows `300k .. 300k+299` in order, and its summary is the first 500
   *    characters of that content.
   */
  lemma CsvRowBlocksSpec(documentId: int, rows: seq<Row>)
    ensures rows == [] ==> CsvRowBlocks(documentId, rows) == Success([])
    ensures rows != [] ==> (CsvRowBlocks(documentId, rows).Success? <==> AllComplete(rows, Keys(rows[0])))
    ensures CsvRowBlocks(documentId, rows).Failure? ==>
              rows != [] && CsvRowBlocks(documentId, rows).error.key in Keys(rows[0])
              && exists r :: r in rows && CsvRowBlocks(documentId, rows).error.key !in Keys(r)
    ensures CsvRowBlocks(documentId, rows).Success? ==>
              var bs := CsvRowBlocks(documentId, rows).value;
              |bs| == CeilDiv(|rows|, RowsPerBlock)
              && forall k :: 0 <= k < |bs| ==>
                   k * RowsPerBlock < |rows|
                   && var group := rows[k * RowsPerBlock .. Min(k * RowsPerBlock + RowsPerBlock, |rows|)];
                   bs[k].document_id == documentId && bs[k].parse_id.None? && bs[k].block_index == k
                   && bs[k].block_type == "table"
                   && bs[k].semantic_label.None? && bs[k].title.None? && bs[k].confidence.None?
                   && bs[k].content == Header(Keys(rows[0])) + Flatten(Lines(Keys(rows[0]), group))
                   && bs[k].summary == Some(bs[k].content[..Min(SummaryLength, |bs[k].content|)])
  {
    if rows != [] {
      var headers := Keys(rows[0]);
      var groups := Chunked(rows, RowsPerBlock);
      TableBlocksSpec(documentId, headers, groups);
      WindowCountIsCeiling(|rows|, RowsPerBlock);
      ChunkedFlatten(rows, RowsPerBlock);
      forall r | true
        ensures r in rows <==> exists k :: 0 <= k < |groups| && r in groups[k]
      {
        FlattenIn(groups, r);
      }
      forall k | 0 <= k < |groups| {
        ChunkedAt(rows, RowsPerBlock, k);
      }
    }
  }

  // ---------------------------------------------------------------------------------------------
  // The service

  /** The `text +=` loop over one group of rows. */
  method BuildTableText(headers: seq<string>, chunk: seq<Row>) returns (r: Result<string, KeyError>)
    ensures r == TableText(headers, chunk)
  {
    var text := "Columns:\n";
    text := text + Join(", ", headers) + "\n\nRows:\n";
    var j := 0;
    while j < |chunk|
      invariant j <= |chunk|
      invariant RowsText(headers, chunk[..j]).Success?
      invariant text == Header(headers) + RowsText(headers, chunk[..j]).value
    {
      assert chunk[..j + 1][..j] == chunk[..j];
      var line := RowLine(chunk[j], headers);
      if line.Failure? {
        RowsTextPrefixFailure(headers, chunk, j + 1, line.error);
        return Failure(line.error);
      }
      AppendAssoc(Header(headers), RowsText(headers, chunk[..j]).value, line.value);
      text := text + line.value;
      j := j + 1;
    }
    assert chunk[..j] == chunk;
    return Success(text);
  }

  lemma RowsTextPrefixFailure(headers: seq<string>, group: seq<Row>, m: nat, e: KeyError)
    requires m <= |group| && RowsText(headers, group[..m]) == Failure(e)
    ensures RowsText(headers, group) == Failure(e)
    decreases |group|
  {
    if m < |group| {
      assert group[..|group| - 1][..m] == group[..m];
      RowsTextPrefixFailure(headers, group[..|group| - 1], m, e);
    } else {
      assert group[..m] == group;
    }
  }

  /**
   * One pass of the group loop: the block list with the block numbered `index` for `chunk`
   * appended, or the key error of the first row of `chunk` that lacks a header.
   */
  method AppendTableBlock(documentId: int, headers: seq<string>, chunk: seq<Row>, index: int,
                          blocks: seq<DocumentBlock>) returns (r: Result<seq<DocumentBlock>, KeyError>)
    ensures r == Extend(documentId, headers, Success(blocks), index, chunk)
  {
    var text := BuildTableText(headers, chunk);
    if text.Failure? {
      return Failure(text.error);
    }
    var block := DocumentBlock(documentId, None, index, "table", None, None,
                               text.value, Some(Prefix(text.value, SummaryLength)), None);
    return Success(blocks + [block]);
  }

  /** One pass of the block loop: the block for rows `i .. i + 299`, or the key error it raises. */
  method AppendGroupBlock(documentId: int, headers: seq<string>, rows: seq<Row>, i: nat, blockIndex: nat,
                          blocks: seq<DocumentBlock>) returns (next: Result<seq<DocumentBlock>, KeyError>)
    requires i == blockIndex * 300 && i < |rows| && blockIndex < |Chunked(rows, RowsPerBlock)|
    requires TableBlocks(documentId, headers, Chunked(rows, RowsPerBlock)[..blockIndex]) == Success(blocks)
    ensures next.Failure? ==> TableBlocks(documentId, headers, Chunked(rows, RowsPerBlock)) == next
    ensures next.Success? ==> TableBlocks(documentId, headers, Chunked(rows, RowsPerBlock)[..blockIndex + 1]) == next
    ensures blockIndex + 1 < |Chunked(rows, RowsPerBlock)| <==> i + RowsPerBlock < |rows|
  {
    ghost var groups := Chunked(rows, RowsPerBlock);
    ChunkedAt(rows, RowsPerBlock, blockIndex);
    TableBlocksStep(documentId, headers, groups, blockIndex);
    WindowCountBound(|rows|, RowsPerBlock, blockIndex + 1);
    next := AppendTableBlock(documentId, headers, rows[i..Min(i + RowsPerBlock, |rows|)], blockIndex, blocks);
    if next.Failure? {
      TableBlocksPrefixFailure(documentId, headers, groups, blockIndex + 1, next.error);
    }
  }

  /** The group loop: the blocks for `rows` three hundred at a time, or the first key error. */
  method BuildTableBlocks(documentId: int, headers: seq<string>, rows: seq<Row>) returns (r: Result<seq<DocumentBlock>, KeyError>)
    ensures r == TableBlocks(documentId, headers, Chunked(rows, RowsPerBlock))
  {
    var blocks: seq<DocumentBlock> := [];
    var blockIndex := 0;
    ghost var groups := Chunked(rows, RowsPerBlock);
    WindowCountBound(|rows|, RowsPerBlock, 0);
    var i := 0;
    while i < |rows|
      invariant i == blockIndex * 300
      invariant blockIndex <= |groups|
      invariant blockIndex < |groups| <==> i < |rows|
      invariant TableBlocks(documentId, headers, groups[..blockIndex]) == Success(blocks)
      decreases |rows| - i
    {
      var next := AppendGroupBlock(documentId, headers, rows, i, blockIndex, blocks);
      if next.Failure? {
        return next;
      }
      blocks := next.value;
      blockIndex := blockIndex + 1;
      i := i + RowsPerBlock;
    }
    assert groups[..blockIndex] == groups;
    return Success(blocks);
  }

  /**
   * `create_blocks_from_csv_rows`: builds every block first and adds them together, so a key
   * error leaves the store as it was.
   */
  method CreateBlocksFromCsvRows(db: Database, documentId: int, rows: seq<Row>) returns (outcome: Result<(), KeyError>)
    modifies db
    ensures CsvRowBlocks(documentId, rows).Success? ==>
              outcome.Success? && db.blocks == old(db.blocks) + CsvRowBlocks(documentId, rows).value
    ensures CsvRowBlocks(documentId, rows).Failure? ==>
              outcome == Failure(CsvRowBlocks(documentId, rows).error) && db.blocks == old(db.blocks)
    ensures db.chunks == old(db.chunks) && db.documents == old(db.documents)
  {
    if |rows| == 0 {
      return Success(());
    }
    var headers := Keys(rows[0]);
    var blocks := BuildTableBlocks(documentId, headers, rows);
    if blocks.Failure? {
      return Failure(blocks.error);
    }
    db.AddAll(blocks.value);
    return Success(());
  }
}
