/** Which streams of chunks the row merger accepts. */
module RowStreams {
  import opened Notifications
  import opened Chunks
  import opened RowMerging
  import opened RowReading
  import opened RowRoundTrip
  import opened RowResets

  /** A chunk that may begin a row, or a cell of the row in progress. */
  predicate StartsWell(m: Merger, chunk: Chunk) {
    && (m.state.RowStart? ==> chunk.rowKey != [] && Above(m.lastSeenRowKey, chunk.rowKey))
    && (chunk.qualifier.Some? ==>
          && (chunk.family.Some? || m.lastSeenFamily.Some?)
          && (m.state.CellStart? && m.row.cells != map[] ==> chunk.rowKey == [] || chunk.rowKey == m.row.rowKey)
          && (chunk.valueSize > 0 ==> !chunk.status.CommitRow?))
  }

  /** A chunk that may go on with a cell of which so many bytes are read. */
  predicate ContinuesWell(read: nat, chunk: Chunk) {
    && (read > 0 ==>
          && chunk.rowKey == [] && chunk.family.None? && chunk.qualifier.None?
          && chunk.timestampMicros <= 0 && chunk.labels != [])
    && (chunk.valueSize > 0 ==> !chunk.status.CommitRow?)
  }

  predicate Accepts(m: Merger, chunk: Chunk) {
    if chunk.status == ResetRow(true) then !m.state.RowStart? && Bare(chunk)
    else if m.state.CellInProgress? then ContinuesWell(m.row.cell.valueIndex, chunk)
    else StartsWell(m, chunk)
  }

  lemma StartIff(m: Merger, rows: Rows, chunk: Chunk)
    requires m.state.CellStart? && m.row.cell.valueIndex == 0 && chunk.status != ResetRow(true)
    ensures Feed(m, rows, chunk).Ok? <==> StartsWell(m, chunk)
  {
  }

  /** A chunk is refused for the listed reasons, and for no other. */
  lemma ChunkAcceptedIff(m: Merger, rows: Rows, chunk: Chunk)
    requires BetweenChunks(m)
    ensures Feed(m, rows, chunk).Ok? <==> Accepts(m, chunk)
  {
    if chunk.status != ResetRow(true) {
      if m.state.RowStart? {
        RowBegins(m, rows, chunk);
        if StartRow(m, chunk).Ok? { StartIff(StartRow(m, chunk).value, rows, chunk); }
      } else if m.state.CellStart? {
        StartIff(m, rows, chunk);
      }
    }
  }

  /** Within a row, a chunk with another row's key is refused exactly when the row has a cell of a family
      with a name. */
  lemma KeyChangeRefusedIff(m: Merger, rows: Rows, chunk: Chunk, key: Bytes, cells: seq<Cell>)
    requires MidRow(m, key, cells) && m.lastSeenFamily.Some?
    requires chunk.qualifier.Some? && chunk.rowKey != [] && chunk.rowKey != key
    requires chunk.status.NoStatus?
    ensures Feed(m, rows, chunk).InvalidChunk? <==> !OfNoFamily(cells)
  {
    StartIff(m, rows, chunk);
  }

  // -------------------------------------------------------- the end of a stream

  /** A chunk after which no row is in progress. */
  predicate Ends(chunk: Chunk) {
    chunk.status.CommitRow? || chunk.status == ResetRow(true)
  }

  lemma EndsBetweenRows(m: Merger, rows: Rows, chunk: Chunk)
    requires BetweenChunks(m) && Feed(m, rows, chunk).Ok?
    ensures BetweenChunks(Feed(m, rows, chunk).value.0)
    ensures Feed(m, rows, chunk).value.0.state.RowStart? <==> Ends(chunk)
  {
    FeedStaysBetween(m, rows, chunk);
    if !Ends(chunk) { PlainChunk(m, rows, chunk); }
  }

  predicate Complete(chunks: seq<Chunk>) {
    chunks == [] || Ends(chunks[|chunks| - 1])
  }

  lemma {:induction false} ChunksEndBetweenRows(m: Merger, rows: Rows, chunks: seq<Chunk>)
    requires BetweenChunks(m) && FeedAll(m, rows, chunks).Ok?
    ensures var m1 := FeedAll(m, rows, chunks).value.0;
      && BetweenChunks(m1)
      && (m1.state.RowStart? <==> if chunks == [] then m.state.RowStart? else Complete(chunks))
    decreases |chunks|
  {
    if chunks != [] {
      EndsBetweenRows(m, rows, chunks[0]);
      var (m1, rows1) := Feed(m, rows, chunks[0]).value;
      ChunksEndBetweenRows(m1, rows1, chunks[1..]);
    }
  }

  lemma {:induction false} ResponsesEndBetweenRows(m: Merger, rows: Rows, responses: seq<Response>)
    requires BetweenChunks(m) && FeedResponses(m, rows, responses).Ok?
    ensures FeedResponses(m, rows, responses).value.0.state.RowStart? <==>
              if ChunksOf(responses) == [] then m.state.RowStart? else Complete(ChunksOf(responses))
    decreases |responses|
  {
    if responses != [] {
      var m1 := Scanned(m, responses[0].lastScannedRowKey).value;
      var chunks, rest := responses[0].chunks, ChunksOf(responses[1..]);
      ChunksEndBetweenRows(m1, rows, chunks);
      var (m2, rows2) := FeedAll(m1, rows, chunks).value;
      ResponsesEndBetweenRows(m2, rows2, responses[1..]);
      if rest == [] {
        assert chunks + rest == chunks;
      } else {
        assert (chunks + rest)[|chunks + rest| - 1] == rest[|rest| - 1];
      }
    }
  }

  /** A stream each chunk of which is accepted is accepted as a whole exactly when it does not stop in the
      middle of a row: its last chunk, if it has any, commits or resets one. */
  lemma StreamAcceptedIff(responses: seq<Response>)
    requires FeedResponses(NEW_MERGER, map[], responses).Ok?
    ensures ProcessChunks(responses).Ok? <==> Complete(ChunksOf(responses))
  {
    ResponsesEndBetweenRows(NEW_MERGER, map[], responses);
  }

  // ---------------------------------------------------------- last scanned keys

  /** A last scanned key is accepted exactly when it is UTF-8 and above every key before. */
  lemma ScannedAcceptedIff(m: Merger, key: Bytes)
    ensures Scanned(m, key).Ok? <==> key == [] || (ValidUtf8(key) && Above(m.lastSeenRowKey, key))
  {
  }

  /** And then a row is accepted only from above it. */
  lemma ScannedBars(m: Merger, key: Bytes, rows: Rows, chunk: Chunk)
    requires m.state.RowStart? && key != [] && Scanned(m, key).Ok?
    requires chunk.status != ResetRow(true) && chunk.qualifier.None?
    ensures Feed(Scanned(m, key).value, rows, chunk).Ok? <==> chunk.rowKey != [] && Less(key, chunk.rowKey)
  {
    var m1 := Scanned(m, key).value;
    ScannedAcceptedIff(m, key);
    RowBegins(m1, rows, chunk);
    if StartRow(m1, chunk).Ok? { StartIff(StartRow(m1, chunk).value, rows, chunk); }
  }
}
