/** Rows sent as chunks come back as rows. */
module RowRoundTrip {
  import opened Notifications
  import opened Chunks
  import opened RowMerging
  import opened RowReading

  /** A row in progress, `cells` of which are complete. */
  predicate RowHolds(row: PartialRow, key: Bytes, cells: seq<Cell>) {
    && row.rowKey == key
    && row.lastFamily == FamilyOf(cells)
    && row.lastQualifier == QualifierOf(cells)
    && row.collected == FirstOfRuns(cells)
    && (row.cells == map[] <==> OfNoFamily(cells))
    && row.cell == PartialCell(FamilyOf(cells), QualifierOf(cells), Now, LabelsOf(cells), [], 0)
  }

  /** All these cells are of the family without a name. */
  predicate OfNoFamily(cells: seq<Cell>) {
    forall i :: 0 <= i < |cells| ==> cells[i].family == []
  }

  /** The merger between two cells of a row. */
  predicate MidRow(m: Merger, key: Bytes, cells: seq<Cell>) {
    m.state == CellStart && RowHolds(m.row, key, cells)
  }

  /** The merger between two rows. */
  function Idle(lastKey: Option<Bytes>, family: Option<Bytes>): Merger {
    Merger(RowStart, lastKey, family, NEW_ROW)
  }

  function Pending(cell: Cell): PartialCell {
    PartialCell(cell.family, cell.qualifier, cell.timestamp, cell.labels, cell.value, 0)
  }

  lemma CellStarts(m: Merger, chunk: Chunk, key: Bytes, cells: seq<Cell>, family: Bytes)
    requires MidRow(m, key, cells) && Whole(chunk, key) && m.lastSeenFamily == Some(family)
    requires chunk.qualifier.Some?
    ensures var cell := ReadChunk(cells, chunk, family)[|cells|];
      StartCell(m, chunk) == Ok(m.(state := CellComplete, row := m.row.(cell := Pending(cell))))
  {
    assert [] + chunk.value == chunk.value;
  }

  lemma CellCompletes(row: PartialRow, key: Bytes, cells: seq<Cell>, cell: Cell, m: Merger, chunk: Chunk)
    requires RowHolds(row, key, cells)
    requires m.row == row.(cell := Pending(cell).(valueIndex := m.row.cell.valueIndex))
    ensures RowHolds(CompleteCell(m, chunk).row, key, cells + [cell])
  {
    var cells1 := cells + [cell];
    assert cells1[..|cells|] == cells;
    assert StartsRun(cells1, |cells|) == (row.lastFamily != cell.family || row.lastQualifier != cell.qualifier);
  }

  lemma CellIsRead(m: Merger, rows: Rows, chunk: Chunk, key: Bytes, cells: seq<Cell>, family: Bytes)
    requires MidRow(m, key, cells) && Whole(chunk, key) && m.lastSeenFamily == Some(family)
    ensures var cells1 := ReadChunk(cells, chunk, family);
      && Feed(m, rows, chunk).Ok?
      && var (m1, rows1) := Feed(m, rows, chunk).value;
      if chunk.status.CommitRow? then
        m1 == Idle(Some(key), Some(family)) && rows1 == rows[key := Row(key, FirstOfRuns(cells1))]
      else
        MidRow(m1, key, cells1) && rows1 == rows
        && m1.lastSeenFamily == Some(family) && m1.lastSeenRowKey == m.lastSeenRowKey
  {
    if chunk.qualifier.Some? {
      var cells1 := ReadChunk(cells, chunk, family);
      CellStarts(m, chunk, key, cells, family);
      CellCompletes(m.row, key, cells, cells1[|cells|], StartCell(m, chunk).value, chunk);
    }
  }

  predicate CommitsAtEnd(chunks: seq<Chunk>) {
    forall i :: 0 <= i < |chunks| ==> (chunks[i].status.CommitRow? <==> i == |chunks| - 1)
  }

  /** One row: its key on the first chunk, one whole cell a chunk, the commit on the last. */
  predicate Delivers(chunks: seq<Chunk>) {
    && chunks != []
    && chunks[0].rowKey != [] && ValidUtf8(chunks[0].rowKey)
    && chunks[0].family.Some?
    && (forall i :: 0 <= i < |chunks| ==> Whole(chunks[i], chunks[0].rowKey))
    && CommitsAtEnd(chunks)
  }

  function RowOf(chunks: seq<Chunk>): Row
    requires Delivers(chunks)
  {
    Row(chunks[0].rowKey, FirstOfRuns(ReadChunks([], chunks, chunks[0].family.value)))
  }

  lemma {:induction false} RestIsRead(
    m: Merger, rows: Rows, chunks: seq<Chunk>, key: Bytes, cells: seq<Cell>, family: Bytes)
    requires MidRow(m, key, cells) && m.lastSeenFamily == Some(family)
    requires chunks != [] && CommitsAtEnd(chunks)
    requires forall i :: 0 <= i < |chunks| ==> Whole(chunks[i], key)
    ensures FeedAll(m, rows, chunks)
         == Ok((Idle(Some(key), Some(family)), rows[key := Row(key, FirstOfRuns(ReadChunks(cells, chunks, family)))]))
    decreases |chunks|
  {
    CellIsRead(m, rows, chunks[0], key, cells, family);
    if |chunks| > 1 {
      var (m1, rows1) := Feed(m, rows, chunks[0]).value;
      RestIsRead(m1, rows1, chunks[1..], key, ReadChunk(cells, chunks[0], family), family);
    }
  }

  /** A row that begins feeds its first chunk on to the cell states. */
  lemma RowBegins(m: Merger, rows: Rows, chunk: Chunk)
    requires m.state.RowStart? && chunk.status != ResetRow(true)
    ensures match StartRow(m, chunk)
      case InvalidChunk(reason) => Feed(m, rows, chunk) == InvalidChunk(reason)
      case Ok(m1) => Feed(m, rows, chunk) == Feed(m1, rows, chunk)
  {
  }

  predicate Above(lastKey: Option<Bytes>, key: Bytes) {
    lastKey.Some? ==> Less(lastKey.value, key)
  }

  lemma RowIsRead(rows: Rows, lastKey: Option<Bytes>, family: Option<Bytes>, chunks: seq<Chunk>)
    requires Delivers(chunks) && Above(lastKey, chunks[0].rowKey)
    ensures FeedAll(Idle(lastKey, family), rows, chunks)
         == Ok((Idle(Some(chunks[0].rowKey), chunks[0].family), rows[chunks[0].rowKey := RowOf(chunks)]))
  {
    var m := Idle(lastKey, family);
    var m1 := StartRow(m, chunks[0]).value;
    RowBegins(m, rows, chunks[0]);
    RestIsRead(m1, rows, chunks, chunks[0].rowKey, [], chunks[0].family.value);
  }

  lemma {:induction false} FeedAllConcat(m: Merger, rows: Rows, a: seq<Chunk>, b: seq<Chunk>)
    ensures FeedAll(m, rows, a + b)
         == match FeedAll(m, rows, a)
            case InvalidChunk(reason) => InvalidChunk(reason)
            case Ok((m1, rows1)) => FeedAll(m1, rows1, b)
    decreases |a|
  {
    if a == [] {
      assert a + b == b;
    } else {
      assert (a + b)[1..] == a[1..] + b;
      if Feed(m, rows, a[0]).Ok? {
        var (m1, rows1) := Feed(m, rows, a[0]).value;
        FeedAllConcat(m1, rows1, a[1..], b);
      }
    }
  }

  function ChunksOf(responses: seq<Response>): seq<Chunk> {
    if responses == [] then [] else responses[0].chunks + ChunksOf(responses[1..])
  }

  /** Where the stream is cut into responses does not matter. */
  lemma {:induction false} ResponsesConcat(m: Merger, rows: Rows, responses: seq<Response>)
    requires forall i :: 0 <= i < |responses| ==> responses[i].lastScannedRowKey == []
    ensures FeedResponses(m, rows, responses) == FeedAll(m, rows, ChunksOf(responses))
    decreases |responses|
  {
    if responses != [] {
      FeedAllConcat(m, rows, responses[0].chunks, ChunksOf(responses[1..]));
      if FeedAll(m, rows, responses[0].chunks).Ok? {
        var (m1, rows1) := FeedAll(m, rows, responses[0].chunks).value;
        ResponsesConcat(m1, rows1, responses[1..]);
      }
    }
  }

  function Flatten(sent: seq<seq<Chunk>>): seq<Chunk> {
    if sent == [] then [] else Flatten(sent[..|sent| - 1]) + sent[|sent| - 1]
  }

  /** These chunks deliver this row. */
  predicate Sends(chunks: seq<Chunk>, row: Row) {
    Delivers(chunks) && RowOf(chunks) == row
  }

  predicate SendsAll(sent: seq<seq<Chunk>>, rows: seq<Row>) {
    |sent| == |rows| && forall i :: 0 <= i < |sent| ==> Sends(sent[i], rows[i])
  }

  predicate Increasing(rows: seq<Row>) {
    forall i, j :: 0 <= i < j < |rows| ==> Less(rows[i].rowKey, rows[j].rowKey)
  }

  /** The table holds these rows, under their keys, and no other. */
  ghost predicate Holds(table: Rows, rows: seq<Row>) {
    && (forall i :: 0 <= i < |rows| ==> rows[i].rowKey in table && table[rows[i].rowKey] == rows[i])
    && (forall key :: key in table ==> exists i :: 0 <= i < |rows| && rows[i].rowKey == key)
    && |table| == |rows|
  }

  lemma NewKey<K, V>(m: map<K, V>, k: K, v: V)
    requires k !in m
    ensures |m[k := v]| == |m| + 1
  {
    assert m[k := v].Keys == m.Keys + {k};
  }

  predicate AllBelow(rows: seq<Row>, key: Bytes) {
    forall i :: 0 <= i < |rows| ==> Less(rows[i].rowKey, key)
  }

  lemma HoldsOneMore(table: Rows, rows: seq<Row>, row: Row)
    requires AllBelow(rows, row.rowKey) && Holds(table, rows)
    ensures Holds(table[row.rowKey := row], rows + [row])
  {
    LessIrreflexive(row.rowKey);
    assert row.rowKey !in table;
    NewKey(table, row.rowKey, row);
    var table1 := table[row.rowKey := row];
    forall key | key in table1
      ensures exists i :: 0 <= i < |rows + [row]| && (rows + [row])[i].rowKey == key
    {
      if key == row.rowKey {
        assert (rows + [row])[|rows|].rowKey == key;
      } else {
        var i :| 0 <= i < |rows| && rows[i].rowKey == key;
        assert (rows + [row])[i].rowKey == key;
      }
    }
  }

  /** Between rows, with the last of these rows' keys as the last seen. */
  predicate AfterRows(m: Merger, rows: seq<Row>) {
    m == Idle(if rows == [] then None else Some(rows[|rows| - 1].rowKey), m.lastSeenFamily)
  }

  lemma OneMoreRow(m: Merger, table: Rows, rows: seq<Row>, row: Row, chunks: seq<Chunk>)
    requires AfterRows(m, rows) && Holds(table, rows) && AllBelow(rows, row.rowKey) && Sends(chunks, row)
    ensures FeedAll(m, table, chunks).Ok?
    ensures var (m1, table1) := FeedAll(m, table, chunks).value;
      AfterRows(m1, rows + [row]) && Holds(table1, rows + [row])
  {
    RowIsRead(table, m.lastSeenRowKey, m.lastSeenFamily, chunks);
    HoldsOneMore(table, rows, row);
  }

  /** A new merger reads exactly these rows from these chunks. */
  ghost predicate ReadAs(chunks: seq<Chunk>, rows: seq<Row>) {
    && FeedAll(NEW_MERGER, map[], chunks).Ok?
    && var (m, table) := FeedAll(NEW_MERGER, map[], chunks).value;
    AfterRows(m, rows) && Holds(table, rows)
  }

  lemma ReadOn(chunks: seq<Chunk>, rows: seq<Row>, more: seq<Chunk>, row: Row)
    requires ReadAs(chunks, rows) && AllBelow(rows, row.rowKey) && Sends(more, row)
    ensures ReadAs(chunks + more, rows + [row])
  {
    var (m, table) := FeedAll(NEW_MERGER, map[], chunks).value;
    FeedAllConcat(NEW_MERGER, map[], chunks, more);
    OneMoreRow(m, table, rows, row, more);
  }

  lemma FlattenOneMore(sent: seq<seq<Chunk>>, n: nat)
    requires n < |sent|
    ensures Flatten(sent[..n + 1]) == Flatten(sent[..n]) + sent[n]
  {
    assert sent[..n + 1][..n] == sent[..n];
  }

  lemma IncreasingIsAllBelow(rows: seq<Row>, n: nat)
    requires n < |rows| && Increasing(rows)
    ensures AllBelow(rows[..n], rows[n].rowKey)
  {
  }

  lemma RowStep(sent: seq<seq<Chunk>>, rows: seq<Row>, n: nat)
    requires n < |sent| == |rows|
    requires Sends(sent[n], rows[n]) && AllBelow(rows[..n], rows[n].rowKey)
    requires ReadAs(Flatten(sent[..n]), rows[..n])
    ensures ReadAs(Flatten(sent[..n + 1]), rows[..n + 1])
  {
    ReadOn(Flatten(sent[..n]), rows[..n], sent[n], rows[n]);
    FlattenOneMore(sent, n);
    assert rows[..n + 1] == rows[..n] + [rows[n]];
  }

  lemma {:induction false} RowsAreRead(sent: seq<seq<Chunk>>, rows: seq<Row>, n: nat)
    requires SendsAll(sent, rows) && Increasing(rows) && n <= |rows|
    ensures ReadAs(Flatten(sent[..n]), rows[..n])
  {
    if n > 0 {
      RowsAreRead(sent, rows, n - 1);
      IncreasingIsAllBelow(rows, n - 1);
      RowStep(sent, rows, n - 1);
    }
  }

  /** Rows sent in key order, one whole cell a chunk, come back exactly, however the stream is cut. */
  lemma {:induction false} TableRoundTrip(sent: seq<seq<Chunk>>, rows: seq<Row>, responses: seq<Response>)
    requires SendsAll(sent, rows) && Increasing(rows)
    requires ChunksOf(responses) == Flatten(sent)
    requires forall i :: 0 <= i < |responses| ==> responses[i].lastScannedRowKey == []
    ensures ProcessChunks(responses).Ok? && Holds(ProcessChunks(responses).value, rows)
  {
    RowsAreRead(sent, rows, |rows|);
    assert sent[..|rows|] == sent && rows[..|rows|] == rows;
    ResponsesConcat(NEW_MERGER, map[], responses);
  }

  /** The same number or one that is 2^64 more, below 2^64. */
  predicate WrapsTo(n: int, u: nat) {
    (u == n || u == n + 0x1_0000_0000_0000_0000) && u < 0x1_0000_0000_0000_0000
  }

  lemma WrapIsUnique(n: i64, u: nat)
    requires WrapsTo(n, u)
    ensures u == AsU64(n)
  {
  }

  /** A chunk that spells its cell out in full. */
  predicate Carries(chunk: Chunk, cell: Cell) {
    && chunk.family == Some(cell.family)
    && chunk.qualifier == Some(cell.qualifier) && ValidUtf8(cell.qualifier)
    && chunk.value == cell.value
    && cell.timestamp.Micros? && WrapsTo(chunk.timestampMicros, cell.timestamp.n)
    && chunk.labels == [] == cell.labels
  }

  lemma CellIsCarried(before: seq<Cell>, chunk: Chunk, cell: Cell, family: Bytes)
    requires Carries(chunk, cell) && LabelsOf(before) == []
    ensures ReadChunk(before, chunk, family) == before + [cell]
  {
    assert LabelsOf(before) + Reversed(chunk.labels) == [];
    WrapIsUnique(chunk.timestampMicros, cell.timestamp.n);
  }

  lemma {:induction false} CellsAreCarried(before: seq<Cell>, chunks: seq<Chunk>, cells: seq<Cell>, family: Bytes)
    requires |chunks| == |cells|
    requires forall i :: 0 <= i < |cells| ==> Carries(chunks[i], cells[i])
    requires LabelsOf(before) == []
    ensures ReadChunks(before, chunks, family) == before + cells
    decreases |chunks|
  {
    if chunks == [] {
      assert before + cells == before;
    } else {
      CellIsCarried(before, chunks[0], cells[0], family);
      CellsAreCarried(before + [cells[0]], chunks[1..], cells[1..], family);
      assert (before + [cells[0]]) + cells[1..] == before + cells;
    }
  }

  /** Cells under distinct qualifiers come back one by one: the row holds each and nothing else. */
  lemma RowComesBack(chunks: seq<Chunk>, cells: seq<Cell>, i: nat)
    requires Delivers(chunks)
    requires |chunks| == |cells|
    requires forall i :: 0 <= i < |cells| ==> Carries(chunks[i], cells[i])
    requires DistinctQualifiers(cells) && cells[0].family != [] && i < |cells|
    ensures |RowOf(chunks).cells| == |cells|
    ensures cells[i].qualifier in RowOf(chunks).cells && RowOf(chunks).cells[cells[i].qualifier] == [cells[i]]
  {
    CellsAreCarried([], chunks, cells, chunks[0].family.value);
    assert [] + cells == cells;
    CellsKeptIff(cells);
    PlainIsKept(cells, i);
  }
}
