/**
 * The token budget of `chunk_csv_stream`. After a flush the next buffer is seeded with the last
 * `overlap_rows` rows whatever their tokens, and the row that did not fit is appended to that seed,
 * so a chunk can exceed `max_tokens` by several rows, not by one. This module exhibits that on the
 * stream as written and proves the budget for a stream that trims the seed until the row fits.
 */
module CsvStreamBudget {
  import opened Seqs
  import opened Records
  import opened TextChunking
  import opened IngestionChunking

  // ---------------------------------------------------------------- the stream as written

  /** A row that fits the budget is buffered unchanged. */
  lemma PrepareFitting(tok: Tokenizer, r: Row, maxTokens: int)
    requires LineTokens(tok, r) <= maxTokens
    ensures PrepareRow(tok, r, maxTokens) == r
  {
  }

  lemma StreamRunAppend(tok: Tokenizer, rows: seq<Row>, x: Row, maxTokens: int, overlapRows: int)
    ensures StreamRun(tok, rows + [x], maxTokens, overlapRows)
         == StreamPush(tok, StreamRun(tok, rows, maxTokens, overlapRows), PrepareRow(tok, x, maxTokens), maxTokens, overlapRows)
  {
    assert (rows + [x])[..|rows|] == rows;
  }

  /** A flush step of the stream as written, unfolded. */
  lemma StreamPushFlush(tok: Tokenizer, st: StreamState, r: Row, maxTokens: int, overlapRows: int)
    requires st.buffer != [] && st.tokens + LineTokens(tok, r) > maxTokens
    ensures var kept := OverlapTail(st.buffer, overlapRows);
            StreamPush(tok, st, r, maxTokens, overlapRows)
            == StreamState(kept + [r], SumTokens(tok, kept) + LineTokens(tok, r), |kept|, st.flushed + [Group(st.buffer, st.seeded)])
  {
  }

  lemma StreamOneRow(tok: Tokenizer, r: Row, maxTokens: int, overlapRows: int)
    requires LineTokens(tok, r) <= maxTokens
    ensures StreamRun(tok, [r], maxTokens, overlapRows) == StreamState([r], LineTokens(tok, r), 0, [])
  {
    PrepareFitting(tok, r, maxTokens);
    StreamRunAppend(tok, [], r, maxTokens, overlapRows);
    Repeat3(r);
  }

  lemma StreamTwoRows(tok: Tokenizer, r: Row, maxTokens: int, overlapRows: int)
    requires LineTokens(tok, r) <= maxTokens < 2 * LineTokens(tok, r) && overlapRows >= 1
    ensures StreamRun(tok, [r, r], maxTokens, overlapRows) == StreamState([r, r], 2 * LineTokens(tok, r), 1, [Group([r], 0)])
  {
    var s1 := StreamState([r], LineTokens(tok, r), 0, []);
    assert StreamRun(tok, [r, r], maxTokens, overlapRows) == StreamPush(tok, s1, r, maxTokens, overlapRows) by {
      PrepareFitting(tok, r, maxTokens);
      StreamOneRow(tok, r, maxTokens, overlapRows);
      StreamRunAppend(tok, [r], r, maxTokens, overlapRows);
      Repeat3(r);
    }
    var t := LineTokens(tok, r);
    var kept := OverlapTail([r], overlapRows);
    assert kept == [r];
    assert StreamPush(tok, s1, r, maxTokens, overlapRows)
        == StreamState(kept + [r], SumTokens(tok, kept) + t, |kept|, [] + [Group([r], 0)]) by {
      StreamPushFlush(tok, s1, r, maxTokens, overlapRows);
    }
    assert SumTokens(tok, kept) == t by { SumTokensRepeated(tok, r); }
    assert kept + [r] == [r, r] && [] + [Group([r], 0)] == [Group([r], 0)];
  }

  lemma StreamThreeRows(tok: Tokenizer, r: Row, maxTokens: int, overlapRows: int)
    requires LineTokens(tok, r) <= maxTokens < 2 * LineTokens(tok, r) && overlapRows >= 2
    ensures StreamRun(tok, [r, r, r], maxTokens, overlapRows)
         == StreamState([r, r, r], 3 * LineTokens(tok, r), 2, [Group([r], 0), Group([r, r], 1)])
  {
    var s2 := StreamState([r, r], 2 * LineTokens(tok, r), 1, [Group([r], 0)]);
    PrepareFitting(tok, r, maxTokens);
    StreamTwoRows(tok, r, maxTokens, overlapRows);
    StreamRunAppend(tok, [r, r], r, maxTokens, overlapRows);
    StreamPushFlush(tok, s2, r, maxTokens, overlapRows);
    assert OverlapTail([r, r], overlapRows) == [r, r];
    SumTokensRepeated(tok, r);
    Repeat3(r);
  }

  /**
   * Three copies of a row that fits, but not twice: with `overlap_rows >= 2` the buffers are
   * `[r]`, `[r, r]` and `[r, r, r]`, and the last one exceeds the budget by more than one row.
   */
  lemma OverlapSeedOverBudget(tok: Tokenizer, r: Row, maxTokens: int, overlapRows: int)
    requires 0 < LineTokens(tok, r) <= maxTokens < 2 * LineTokens(tok, r)
    requires overlapRows >= 2
    ensures var gs := StreamGroups(tok, [r, r, r], maxTokens, overlapRows);
            |gs| == 3 && gs[2].rows == [r, r, r]
            && SumTokens(tok, gs[2].rows) > maxTokens + LineTokens(tok, r)
  {
    StreamThreeRows(tok, r, maxTokens, overlapRows);
    SumTokensRepeated(tok, r);
  }

  lemma SumTokensRepeated(tok: Tokenizer, r: Row)
    ensures SumTokens(tok, [r]) == LineTokens(tok, r)
    ensures SumTokens(tok, [r, r]) == 2 * LineTokens(tok, r)
    ensures SumTokens(tok, [r, r, r]) == 3 * LineTokens(tok, r)
  {
    SumTokensSnoc(tok, [], r);
    SumTokensSnoc(tok, [r], r);
    SumTokensSnoc(tok, [r, r], r);
    Repeat3(r);
  }

  lemma Repeat3<T>(x: T)
    ensures [] + [x] == [x] && [x] + [x] == [x, x] && [x, x] + [x] == [x, x, x]
  {
  }

  // ---------------------------------------------------------------- the capped stream

  /** The longest suffix of `kept` that leaves room for a row of `lineTokens` tokens. */
  function FitTail(tok: Tokenizer, kept: seq<Row>, lineTokens: nat, maxTokens: int): (r: seq<Row>)
    ensures |r| <= |kept| && r == kept[|kept| - |r|..]
    ensures r == [] || SumTokens(tok, r) + lineTokens <= maxTokens
    ensures forall j :: 0 <= j < |kept| - |r| ==> SumTokens(tok, kept[j..]) + lineTokens > maxTokens
    decreases |kept|
  {
    if kept == [] || SumTokens(tok, kept) + lineTokens <= maxTokens then kept
    else
      assert forall j :: 0 < j <= |kept| ==> kept[1..][j - 1..] == kept[j..];
      FitTail(tok, kept[1..], lineTokens, maxTokens)
  }

  /** `StreamPush` with the overlap seed trimmed to the rows that leave room for the incoming row. */
  function CappedPush(tok: Tokenizer, st: StreamState, r: Row, maxTokens: int, overlapRows: int): StreamState {
    var lineTokens := LineTokens(tok, r);
    if st.buffer != [] && st.tokens + lineTokens > maxTokens then
      var kept := FitTail(tok, OverlapTail(st.buffer, overlapRows), lineTokens, maxTokens);
      StreamState(kept + [r], SumTokens(tok, kept) + lineTokens, |kept|, st.flushed + [Group(st.buffer, st.seeded)])
    else
      StreamState(st.buffer + [r], st.tokens + lineTokens, st.seeded, st.flushed)
  }

  function CappedRun(tok: Tokenizer, rows: seq<Row>, maxTokens: int, overlapRows: int): StreamState {
    if rows == [] then StreamState([], 0, 0, [])
    else
      var r := PrepareRow(tok, rows[|rows| - 1], maxTokens);
      CappedPush(tok, CappedRun(tok, rows[..|rows| - 1], maxTokens, overlapRows), r, maxTokens, overlapRows)
  }

  /** The buffers the capped stream turns into chunks. */
  function CappedGroups(tok: Tokenizer, rows: seq<Row>, maxTokens: int, overlapRows: int): seq<Group> {
    var st := CappedRun(tok, rows, maxTokens, overlapRows);
    st.flushed + Pending(st)
  }

  /** A group keeps to the budget, or holds a single row (an oversized row, already truncated). */
  ghost predicate WithinBudget(tok: Tokenizer, g: Group, maxTokens: int) {
    |g.rows| == 1 || SumTokens(tok, g.rows) <= maxTokens
  }

  ghost predicate AllWithinBudget(tok: Tokenizer, gs: seq<Group>, maxTokens: int) {
    forall k :: 0 <= k < |gs| ==> WithinBudget(tok, gs[k], maxTokens)
  }

  lemma AllWithinBudgetSnoc(tok: Tokenizer, gs: seq<Group>, g: Group, maxTokens: int)
    requires AllWithinBudget(tok, gs, maxTokens) && WithinBudget(tok, g, maxTokens)
    ensures AllWithinBudget(tok, gs + [g], maxTokens)
  {
    forall k | 0 <= k < |gs| + 1 ensures WithinBudget(tok, (gs + [g])[k], maxTokens) {
      if k < |gs| { assert (gs + [g])[k] == gs[k]; }
    }
  }

  /** The rows of the current buffer that were not carried over. */
  function PendingFresh(st: StreamState): seq<Row> {
    if st.buffer != [] && st.seeded <= |st.buffer| then st.buffer[st.seeded..] else []
  }

  lemma FreshOfPending(st: StreamState)
    ensures FreshRows(st.flushed + Pending(st)) == FreshRows(st.flushed) + PendingFresh(st)
  {
    if st.buffer != [] {
      FreshRowsSnoc(st.flushed, Group(st.buffer, st.seeded));
    } else {
      assert st.flushed + Pending(st) == st.flushed;
    }
  }

  ghost predicate CappedInv(tok: Tokenizer, st: StreamState, prepared: seq<Row>, maxTokens: int) {
    st.tokens == SumTokens(tok, st.buffer)
    && (st.buffer == [] <==> prepared == [])
    && (st.buffer == [] ==> st.flushed == [] && st.seeded == 0)
    && (st.buffer != [] ==> st.seeded < |st.buffer| && WithinBudget(tok, Group(st.buffer, st.seeded), maxTokens))
    && AllWithinBudget(tok, st.flushed, maxTokens)
    && FreshRows(st.flushed) + PendingFresh(st) == prepared
  }

  lemma {:induction false} CappedFirstRow(tok: Tokenizer, st: StreamState, r: Row, maxTokens: int, overlapRows: int)
    requires CappedInv(tok, st, [], maxTokens)
    ensures CappedInv(tok, CappedPush(tok, st, r, maxTokens, overlapRows), [r], maxTokens)
  {
    Repeat3(r);
    assert CappedPush(tok, st, r, maxTokens, overlapRows) == StreamState([r], LineTokens(tok, r), 0, []);
    SumTokensSnoc(tok, [], r);
  }

  lemma {:induction false} CappedAppendRow(tok: Tokenizer, st: StreamState, prepared: seq<Row>, r: Row,
                                           maxTokens: int, overlapRows: int)
    requires CappedInv(tok, st, prepared, maxTokens) && prepared != []
    requires st.tokens + LineTokens(tok, r) <= maxTokens
    ensures CappedInv(tok, CappedPush(tok, st, r, maxTokens, overlapRows), prepared + [r], maxTokens)
  {
    var st' := StreamState(st.buffer + [r], st.tokens + LineTokens(tok, r), st.seeded, st.flushed);
    assert CappedPush(tok, st, r, maxTokens, overlapRows) == st';
    assert st'.tokens == SumTokens(tok, st'.buffer) by { SumTokensSnoc(tok, st.buffer, r); }
    assert PendingFresh(st') == PendingFresh(st) + [r] by {
      assert (st.buffer + [r])[st.seeded..] == st.buffer[st.seeded..] + [r];
    }
    AppendAssoc(FreshRows(st.flushed), PendingFresh(st), [r]);
  }

  /** After a flush: the flushed buffer joins the groups and a new one holds the seed `kept` and the row. */
  lemma {:induction false} FlushedInv(tok: Tokenizer, st: StreamState, prepared: seq<Row>, r: Row, kept: seq<Row>,
                                      maxTokens: int)
    requires CappedInv(tok, st, prepared, maxTokens) && prepared != []
    requires kept == [] || SumTokens(tok, kept) + LineTokens(tok, r) <= maxTokens
    ensures CappedInv(tok, StreamState(kept + [r], SumTokens(tok, kept) + LineTokens(tok, r), |kept|,
                                       st.flushed + [Group(st.buffer, st.seeded)]), prepared + [r], maxTokens)
  {
    var g := Group(st.buffer, st.seeded);
    var st' := StreamState(kept + [r], SumTokens(tok, kept) + LineTokens(tok, r), |kept|, st.flushed + [g]);
    assert st'.tokens == SumTokens(tok, st'.buffer) && WithinBudget(tok, Group(st'.buffer, st'.seeded), maxTokens) by {
      SumTokensSnoc(tok, kept, r);
    }
    AllWithinBudgetSnoc(tok, st.flushed, g, maxTokens);
    assert PendingFresh(st') == [r] by {
      assert (kept + [r])[|kept|..] == [r];
    }
    assert FreshRows(st'.flushed) == FreshRows(st.flushed) + PendingFresh(st) by {
      FreshRowsSnoc(st.flushed, g);
    }
  }

  lemma CappedFlushRow(tok: Tokenizer, st: StreamState, prepared: seq<Row>, r: Row, maxTokens: int, overlapRows: int)
    requires CappedInv(tok, st, prepared, maxTokens) && prepared != []
    requires st.tokens + LineTokens(tok, r) > maxTokens
    ensures CappedInv(tok, CappedPush(tok, st, r, maxTokens, overlapRows), prepared + [r], maxTokens)
  {
    var kept := FitTail(tok, OverlapTail(st.buffer, overlapRows), LineTokens(tok, r), maxTokens);
    assert st.buffer != [];
    CappedPushFlush(tok, st, r, maxTokens, overlapRows);
    FlushedInv(tok, st, prepared, r, kept, maxTokens);
  }

  lemma CappedPushFlush(tok: Tokenizer, st: StreamState, r: Row, maxTokens: int, overlapRows: int)
    requires st.buffer != [] && st.tokens + LineTokens(tok, r) > maxTokens
    ensures var kept := FitTail(tok, OverlapTail(st.buffer, overlapRows), LineTokens(tok, r), maxTokens);
            CappedPush(tok, st, r, maxTokens, overlapRows)
            == StreamState(kept + [r], SumTokens(tok, kept) + LineTokens(tok, r), |kept|, st.flushed + [Group(st.buffer, st.seeded)])
  {
  }

  lemma {:induction false} CappedRunInv(tok: Tokenizer, rows: seq<Row>, maxTokens: int, overlapRows: int)
    ensures CappedInv(tok, CappedRun(tok, rows, maxTokens, overlapRows), PreparedRows(tok, rows, maxTokens), maxTokens)
  {
    if rows != [] {
      var init := rows[..|rows| - 1];
      var st := CappedRun(tok, init, maxTokens, overlapRows);
      var prepared := PreparedRows(tok, init, maxTokens);
      var r := PrepareRow(tok, rows[|rows| - 1], maxTokens);
      CappedRunInv(tok, init, maxTokens, overlapRows);
      if prepared == [] {
        CappedFirstRow(tok, st, r, maxTokens, overlapRows);
      } else if st.tokens + LineTokens(tok, r) <= maxTokens {
        CappedAppendRow(tok, st, prepared, r, maxTokens, overlapRows);
      } else {
        CappedFlushRow(tok, st, prepared, r, maxTokens, overlapRows);
      }
    }
  }

  /**
   * The capped stream keeps the budget: every group fits `max_tokens` unless it is one row on its
   * own; its fresh rows are still all the (prepared) input rows, in order.
   */
  lemma CappedGroupsSpec(tok: Tokenizer, rows: seq<Row>, maxTokens: int, overlapRows: int)
    ensures var gs := CappedGroups(tok, rows, maxTokens, overlapRows);
            (forall k :: 0 <= k < |gs| ==> WithinBudget(tok, gs[k], maxTokens))
            && FreshRows(gs) == PreparedRows(tok, rows, maxTokens)
            && (gs == [] <==> rows == [])
  {
    CappedRunInv(tok, rows, maxTokens, overlapRows);
    var st := CappedRun(tok, rows, maxTokens, overlapRows);
    FreshOfPending(st);
    if st.buffer != [] {
      AllWithinBudgetSnoc(tok, st.flushed, Group(st.buffer, st.seeded), maxTokens);
    } else {
      assert st.flushed + Pending(st) == st.flushed;
    }
  }
}
