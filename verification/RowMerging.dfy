/** What each state of the row merger does with a chunk. */
module RowMerging {
  import opened Notifications
  import opened Chunks

  function Reset(m: Merger, chunk: Chunk): Result<Merger> {
    if m.state.RowStart? then InvalidChunk("Bare Reset")
    else if chunk.rowKey != [] then InvalidChunk("Reset chunk has a row key")
    else if chunk.family.Some? then InvalidChunk("Reset chunk has a family_name")
    else if chunk.qualifier.Some? then InvalidChunk("Reset chunk has a qualifier")
    else if chunk.timestampMicros > 0 then InvalidChunk("Reset chunk has a timestamp")
    else if chunk.labels != [] then InvalidChunk("Reset chunk has a labels")
    else if chunk.value != [] then InvalidChunk("Reset chunk has value")
    else Ok(m.(state := RowStart, row := NEW_ROW))
  }

  function StartRow(m: Merger, chunk: Chunk): Result<Merger> {
    if chunk.rowKey == [] then InvalidChunk("New row is missing a row key")
    else if m.lastSeenRowKey.Some? && !Less(m.lastSeenRowKey.value, chunk.rowKey) then
      InvalidChunk("Out of order row keys")
    else
      Ok(m.(state := CellStart,
            lastSeenFamily := Or(chunk.family, m.lastSeenFamily),
            row := m.row.(rowKey := FromUtf8(chunk.rowKey), cell := NEW_CELL)))
  }

  function Reversed<T>(s: seq<T>): seq<T> {
    if s == [] then [] else Reversed(s[1..]) + [s[0]]
  }

  function StartCell(m: Merger, chunk: Chunk): Result<Merger> {
    if chunk.qualifier.None? then Ok(m.(state := CellComplete))
    else if m.row.cells != map[] && chunk.rowKey != [] && chunk.rowKey != m.row.rowKey then
      InvalidChunk("Row key changed mid row")
    else if chunk.family.None? && m.lastSeenFamily.None? then
      InvalidChunk("Cell missing family for new cell")
    else
      var cell := m.row.cell.(
        family := if chunk.family.Some? then chunk.family.value else m.lastSeenFamily.value,
        qualifier := FromUtf8(chunk.qualifier.value),
        timestamp := Micros(AsU64(chunk.timestampMicros)),
        labels := m.row.cell.labels + Reversed(chunk.labels));
      if chunk.valueSize > 0 then
        Ok(m.(state := CellInProgress, row := m.row.(cell := cell.(value := []))))
      else
        Ok(m.(state := CellComplete, row := m.row.(cell := cell.(value := cell.value + chunk.value))))
  }

  function ContinueCell(m: Merger, chunk: Chunk): Result<Merger> {
    var cell := m.row.cell;
    if cell.valueIndex > 0 && chunk.rowKey != [] then InvalidChunk("Found row key mid cell")
    else if cell.valueIndex > 0 && chunk.family.Some? then InvalidChunk("Found family name mid cell")
    else if cell.valueIndex > 0 && chunk.qualifier.Some? then InvalidChunk("Found qualifier mid cell")
    else if cell.valueIndex > 0 && chunk.timestampMicros > 0 then InvalidChunk("Found timestamp mid cell")
    else if cell.valueIndex > 0 && chunk.labels == [] then InvalidChunk("Found labels mid cell")
    else
      Ok(m.(state := if chunk.valueSize > 0 then CellInProgress else CellComplete,
            row := m.row.(cell := cell.(valueIndex := cell.valueIndex + |chunk.value|,
                                        value := cell.value + chunk.value))))
  }

  function CellsOf(cells: map<Bytes, seq<PartialCell>>, family: Bytes): seq<PartialCell> {
    if family in cells then cells[family] else []
  }

  function CompleteCell(m: Merger, chunk: Chunk): Merger {
    var row, cell := m.row, m.row.cell;
    var familyChanged := row.lastFamily != cell.family;
    var row1 := if familyChanged then
                  row.(lastFamily := cell.family,
                       cells := row.cells[cell.family := CellsOf(row.cells, cell.family) + [cell]])
                else row;
    var row2 := if familyChanged || row.lastQualifier != cell.qualifier then
                  row1.(lastQualifier := cell.qualifier,
                        collected := row.collected[cell.qualifier :=
                          [Cell(cell.family, cell.qualifier, cell.value, cell.timestamp, cell.labels)]])
                else row1;
    m.(state := if chunk.status.CommitRow? then RowComplete else CellStart,
       row := row2.(cell := cell.(timestamp := Now, value := [], valueIndex := 0)))
  }

  function FinishedRow(m: Merger): Row {
    Row(m.row.rowKey, m.row.collected)
  }

  function CompleteRow(m: Merger): Merger {
    m.(state := RowStart, lastSeenRowKey := Some(m.row.rowKey), row := NEW_ROW)
  }

  type Rows = map<Bytes, Row>

  /** The states a chunk goes through; (merger, rows so far). */
  function Feed(m: Merger, rows: Rows, chunk: Chunk): Result<(Merger, Rows)> {
    if chunk.status == ResetRow(true) then
      match Reset(m, chunk)
      case InvalidChunk(reason) => InvalidChunk(reason)
      case Ok(m1) => Ok((m1, rows))
    else
      match (if m.state.RowStart? then StartRow(m, chunk) else Ok(m))
      case InvalidChunk(reason) => InvalidChunk(reason)
      case Ok(m1) =>
        match FeedCell(m1, chunk)
        case InvalidChunk(reason) => InvalidChunk(reason)
        case Ok(m2) => FeedEnd(m2, rows, chunk)
  }

  function FeedCell(m: Merger, chunk: Chunk): Result<Merger> {
    match (if m.state.CellStart? then StartCell(m, chunk) else Ok(m))
    case InvalidChunk(reason) => InvalidChunk(reason)
    case Ok(m1) => if m1.state.CellInProgress? then ContinueCell(m1, Taken(m, chunk)) else Ok(m1)
  }

  /** What is left of the chunk after `StartCell`, which takes the qualifier, the family
      and the labels. */
  function Taken(m: Merger, chunk: Chunk): Chunk {
    if m.state.CellStart? then chunk.(qualifier := None, family := None, labels := []) else chunk
  }

  function FeedEnd(m: Merger, rows: Rows, chunk: Chunk): Result<(Merger, Rows)> {
    var m1 := if m.state.CellComplete? then CompleteCell(m, chunk) else m;
    if m1.state.RowComplete? then
      Ok((CompleteRow(m1), rows[m1.row.rowKey := FinishedRow(m1)]))
    else if chunk.status.CommitRow? then
      InvalidChunk("Chunk tried to commit in row in wrong state")
    else Ok((m1, rows))
  }

  function FeedAll(m: Merger, rows: Rows, chunks: seq<Chunk>): Result<(Merger, Rows)>
    decreases chunks
  {
    if chunks == [] then Ok((m, rows))
    else
      match Feed(m, rows, chunks[0])
      case InvalidChunk(reason) => InvalidChunk(reason)
      case Ok((m1, rows1)) => FeedAll(m1, rows1, chunks[1..])
  }

  /** A last scanned key must be above the last one seen. */
  function Scanned(m: Merger, key: Bytes): Result<Merger> {
    if key == [] then Ok(m)
    else if !Less(Or(m.lastSeenRowKey, Some([])).value, FromUtf8(key)) then
      InvalidChunk("Last scanned row key is out of order")
    else Ok(m.(lastSeenRowKey := Some(FromUtf8(key))))
  }

  function FeedResponses(m: Merger, rows: Rows, responses: seq<Response>): Result<(Merger, Rows)>
    decreases responses
  {
    if responses == [] then Ok((m, rows))
    else
      match Scanned(m, responses[0].lastScannedRowKey)
      case InvalidChunk(reason) => InvalidChunk(reason)
      case Ok(m1) =>
        match FeedAll(m1, rows, responses[0].chunks)
        case InvalidChunk(reason) => InvalidChunk(reason)
        case Ok((m2, rows2)) => FeedResponses(m2, rows2, responses[1..])
  }

  function Finalize(result: Result<(Merger, Rows)>): Result<Rows> {
    match result
    case InvalidChunk(reason) => InvalidChunk(reason)
    case Ok((m, rows)) =>
      if m.state.RowStart? then Ok(rows) else InvalidChunk("The row remains partial / is not committed.")
  }

  /** `process_chunks` over a whole stream. */
  function ProcessChunks(responses: seq<Response>): Result<Rows> {
    Finalize(FeedResponses(NEW_MERGER, map[], responses))
  }
}
