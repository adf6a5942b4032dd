/** The row merger, chunk by chunk. Its states feed into one another within one chunk. */
module RowMergers {
  import opened Notifications
  import opened Chunks
  import opened RowMerging

  class RowMerger {
    var state: ReadState
    var lastSeenRowKey: Option<Bytes>
    var lastSeenCellFamily: Option<Bytes>
    var rowInProgress: PartialRow

    ghost function View(): Merger
      reads this
    {
      Merger(state, lastSeenRowKey, lastSeenCellFamily, rowInProgress)
    }

    /** A step's result: an error, or the merger the specification gives. */
    ghost predicate Did(spec: Result<Merger>, r: Result<()>)
      reads this
    {
      match spec
      case InvalidChunk(reason) => r == InvalidChunk(reason)
      case Ok(m) => r.Ok? && View() == m
    }

    constructor ()
      ensures View() == NEW_MERGER
    {
      state, lastSeenRowKey, lastSeenCellFamily, rowInProgress := RowStart, None, None, NEW_ROW;
    }

    method ResetRow(chunk: Chunk) returns (r: Result<()>)
      modifies this
      ensures Did(Reset(old(View()), chunk), r)
    {
      if state == RowStart { return InvalidChunk("Bare Reset"); }
      if chunk.rowKey != [] { return InvalidChunk("Reset chunk has a row key"); }
      if chunk.family.Some? { return InvalidChunk("Reset chunk has a family_name"); }
      if chunk.qualifier.Some? { return InvalidChunk("Reset chunk has a qualifier"); }
      if chunk.timestampMicros > 0 { return InvalidChunk("Reset chunk has a timestamp"); }
      if chunk.labels != [] { return InvalidChunk("Reset chunk has a labels"); }
      if chunk.value != [] { return InvalidChunk("Reset chunk has value"); }
      state := RowStart;
      rowInProgress := NEW_ROW;
      return Ok(());
    }

    method StartOfRow(chunk: Chunk) returns (r: Result<()>)
      modifies this
      ensures Did(StartRow(old(View()), chunk), r)
    {
      if chunk.rowKey == [] { return InvalidChunk("New row is missing a row key"); }
      if chunk.family.Some? { lastSeenCellFamily := chunk.family; }
      if lastSeenRowKey.Some? && !Less(lastSeenRowKey.value, chunk.rowKey) {
        return InvalidChunk("Out of order row keys");
      }
      rowInProgress := rowInProgress.(rowKey := FromUtf8(chunk.rowKey));
      rowInProgress := rowInProgress.(cell := NEW_CELL);
      state := CellStart;
      return Ok(());
    }

    /** Takes the qualifier, the family and the labels out of the chunk. */
    method StartOfCell(chunk: Chunk) returns (r: Result<()>, rest: Chunk)
      modifies this
      ensures Did(StartCell(old(View()), chunk), r)
      ensures r.Ok? ==>
        rest == if chunk.qualifier.None? then chunk
                else chunk.(qualifier := None, family := None, labels := [])
    {
      rest := chunk;
      if chunk.qualifier.None? {
        state := CellComplete;
        return Ok(()), rest;
      }
      rest := rest.(qualifier := None);
      if rowInProgress.cells != map[] && chunk.rowKey != [] && chunk.rowKey != rowInProgress.rowKey {
        return InvalidChunk("Row key changed mid row"), rest;
      }
      var cell := rowInProgress.cell;
      if chunk.family.Some? {
        cell := cell.(family := chunk.family.value);
        rest := rest.(family := None);
      } else {
        if lastSeenCellFamily.None? {
          return InvalidChunk("Cell missing family for new cell"), rest;
        }
        cell := cell.(family := lastSeenCellFamily.value);
      }
      cell := cell.(qualifier := FromUtf8(chunk.qualifier.value));
      cell := cell.(timestamp := Micros(AsU64(chunk.timestampMicros)));
      var labels := chunk.labels;
      var pushed := cell.labels;
      rest := rest.(labels := []);
      while labels != []
        modifies {}
        invariant pushed + Reversed(labels) == cell.labels + Reversed(chunk.labels)
      {
        var n := |labels| - 1;
        ReversedLast(labels);
        pushed := pushed + [labels[n]];
        labels := labels[..n];
      }
      assert pushed + Reversed(labels) == pushed;
      cell := cell.(labels := pushed);
      if chunk.valueSize > 0 {
        cell := cell.(value := []);
        state := CellInProgress;
      } else {
        cell := cell.(value := cell.value + chunk.value);
        state := CellComplete;
      }
      rowInProgress := rowInProgress.(cell := cell);
      r := Ok(());
    }

    method MoreOfCell(chunk: Chunk) returns (r: Result<()>)
      modifies this
      ensures Did(ContinueCell(old(View()), chunk), r)
    {
      var cell := rowInProgress.cell;
      if cell.valueIndex > 0 {
        if chunk.rowKey != [] { return InvalidChunk("Found row key mid cell"); }
        if chunk.family.Some? { return InvalidChunk("Found family name mid cell"); }
        if chunk.qualifier.Some? { return InvalidChunk("Found qualifier mid cell"); }
        if chunk.timestampMicros > 0 { return InvalidChunk("Found timestamp mid cell"); }
        if chunk.labels == [] { return InvalidChunk("Found labels mid cell"); }
      }
      cell := cell.(valueIndex := cell.valueIndex + |chunk.value|);
      cell := cell.(value := cell.value + chunk.value);
      rowInProgress := rowInProgress.(cell := cell);
      state := if chunk.valueSize > 0 then CellInProgress else CellComplete;
      return Ok(());
    }

    method EndOfCell(chunk: Chunk)
      modifies this
      ensures View() == CompleteCell(old(View()), chunk)
    {
      var row, cell := rowInProgress, rowInProgress.cell;
      var familyChanged := false;
      if row.lastFamily != cell.family {
        familyChanged := true;
        row := row.(lastFamily := cell.family);
        row := row.(cells := row.cells[cell.family := CellsOf(row.cells, cell.family) + [cell]]);
      }
      if familyChanged || row.lastQualifier != cell.qualifier {
        row := row.(lastQualifier := cell.qualifier);
        row := row.(collected := row.collected[cell.qualifier :=
                      [Cell(cell.family, cell.qualifier, cell.value, cell.timestamp, cell.labels)]]);
      }
      rowInProgress := row.(cell := cell.(timestamp := Now, value := [], valueIndex := 0));
      state := if chunk.status.CommitRow? then RowComplete else CellStart;
    }

    method EndOfRow() returns (row: Row)
      modifies this
      ensures View() == CompleteRow(old(View())) && row == FinishedRow(old(View()))
    {
      row := Row(rowInProgress.rowKey, rowInProgress.collected);
      lastSeenRowKey := Some(rowInProgress.rowKey);
      rowInProgress := NEW_ROW;
      state := RowStart;
    }

    /** The two states that read a cell. */
    method ReadCell(chunk: Chunk) returns (r: Result<()>)
      modifies this
      ensures Did(FeedCell(old(View()), chunk), r)
    {
      var rest := chunk;
      r := Ok(());
      if state == CellStart {
        r, rest := StartOfCell(rest);
        if r.InvalidChunk? { return; }
      }
      if state == CellInProgress {
        r := MoreOfCell(rest);
      }
    }

    method Take(chunk: Chunk, rows: Rows) returns (r: Result<Rows>)
      modifies this
      ensures match Feed(old(View()), rows, chunk)
        case InvalidChunk(reason) => r == InvalidChunk(reason)
        case Ok((m, rows1)) => r == Ok(rows1) && View() == m
    {
      if chunk.status == RowStatus.ResetRow(true) {
        var reset := ResetRow(chunk);
        return if reset.Ok? then Ok(rows) else InvalidChunk(reset.reason);
      }
      if state == RowStart {
        var started := StartOfRow(chunk);
        if started.InvalidChunk? { return InvalidChunk(started.reason); }
      }
      var read := ReadCell(chunk);
      if read.InvalidChunk? { return InvalidChunk(read.reason); }
      if state == CellComplete {
        EndOfCell(chunk);
      }
      if state == RowComplete {
        var row := EndOfRow();
        return Ok(rows[row.rowKey := row]);
      } else if chunk.status.CommitRow? {
        return InvalidChunk("Chunk tried to commit in row in wrong state");
      }
      return Ok(rows);
    }
  }

  lemma {:induction false} ReversedLast<T>(s: seq<T>)
    requires s != []
    ensures Reversed(s) == [s[|s| - 1]] + Reversed(s[..|s| - 1])
  {
    if |s| == 1 {
      assert Reversed(s[1..]) == [];
    } else {
      ReversedLast(s[1..]);
      assert s[1..][..|s| - 2] == s[..|s| - 1][1..];
    }
  }

  lemma FeedAllOneMore(m: Merger, rows: Rows, chunks: seq<Chunk>, k: nat)
    requires k < |chunks|
    requires Feed(m, rows, chunks[k]).Ok?
    ensures var (m1, rows1) := Feed(m, rows, chunks[k]).value;
      FeedAll(m, rows, chunks[k..]) == FeedAll(m1, rows1, chunks[k + 1..])
  {
    assert chunks[k..][1..] == chunks[k + 1..];
  }

  method ProcessChunks(stream: seq<Response>) returns (r: Result<Rows>)
    ensures r == RowMerging.ProcessChunks(stream)
  {
    var merger := new RowMerger();
    var rows: Rows := map[];
    ghost var whole := FeedResponses(NEW_MERGER, map[], stream);
    var i := 0;
    assert stream[0..] == stream;
    while i < |stream|
      invariant i <= |stream|
      invariant FeedResponses(merger.View(), rows, stream[i..]) == whole
    {
      var response := stream[i];
      assert stream[i..][1..] == stream[i + 1..];
      if response.lastScannedRowKey != [] {
        var rowKey := FromUtf8(response.lastScannedRowKey);
        if !Less(Or(merger.lastSeenRowKey, Some([])).value, rowKey) {
          return InvalidChunk("Last scanned row key is out of order");
        }
        merger.lastSeenRowKey := Some(rowKey);
      }
      ghost var fed := FeedAll(merger.View(), rows, response.chunks);
      var k := 0;
      assert response.chunks[0..] == response.chunks;
      while k < |response.chunks|
        invariant k <= |response.chunks|
        invariant FeedAll(merger.View(), rows, response.chunks[k..]) == fed
      {
        ghost var m, before := merger.View(), rows;
        var taken := merger.Take(response.chunks[k], rows);
        if taken.InvalidChunk? { return InvalidChunk(taken.reason); }
        FeedAllOneMore(m, before, response.chunks, k);
        rows := taken.value;
        k := k + 1;
      }
      i := i + 1;
    }
    if merger.state != RowStart {
      return InvalidChunk("The row remains partial / is not committed.");
    }
    return Ok(rows);
  }
}
