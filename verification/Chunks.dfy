/** Bytes, text as its UTF-8 bytes, and the chunks of a Bigtable read
    (autopush-common/src/db/bigtable/bigtable_client/{merge,cell,row}.rs). */
module Chunks {
  import opened Notifications

  type byte = n: nat | n < 0x100
  type Bytes = seq<byte>

  type i64 = n: int | -0x8000_0000_0000_0000 <= n < 0x8000_0000_0000_0000

  /** Byte order, which for text is the order of strings. */
  predicate Less(a: Bytes, b: Bytes) {
    b != [] && (a == [] || a[0] < b[0] || (a[0] == b[0] && Less(a[1..], b[1..])))
  }

  lemma {:induction false} LessTransitive(a: Bytes, b: Bytes, c: Bytes)
    requires Less(a, b) && Less(b, c)
    ensures Less(a, c)
    decreases a
  {
    if a != [] && a[0] == b[0] == c[0] { LessTransitive(a[1..], b[1..], c[1..]); }
  }

  lemma {:induction false} LessIrreflexive(a: Bytes)
    ensures !Less(a, a)
  {
    if a != [] { LessIrreflexive(a[1..]); }
  }

  predicate Tail(b: byte) { 0x80 <= b <= 0xBF }

  /** The length of the first well-formed UTF-8 sequence (section 4 of RFC 3629), or zero. */
  function Utf8Head(b: Bytes): (n: nat)
    ensures n <= |b|
  {
    if b == [] then 0
    else if b[0] <= 0x7F then 1
    else if 0xC2 <= b[0] <= 0xDF then (if |b| >= 2 && Tail(b[1]) then 2 else 0)
    else if 0xE0 <= b[0] <= 0xEF then
      if |b| >= 3 && Tail(b[1]) && Tail(b[2])
         && (b[0] == 0xE0 ==> b[1] >= 0xA0) && (b[0] == 0xED ==> b[1] <= 0x9F) then 3 else 0
    else if 0xF0 <= b[0] <= 0xF4 then
      if |b| >= 4 && Tail(b[1]) && Tail(b[2]) && Tail(b[3])
         && (b[0] == 0xF0 ==> b[1] >= 0x90) && (b[0] == 0xF4 ==> b[1] <= 0x8F) then 4 else 0
    else 0
  }

  predicate ValidUtf8(b: Bytes) {
    b == [] || (Utf8Head(b) > 0 && ValidUtf8(b[Utf8Head(b)..]))
  }

  /** `String::from_utf8(b).unwrap_or_default()`. */
  function FromUtf8(b: Bytes): Bytes {
    if ValidUtf8(b) then b else []
  }

  datatype RowStatus = NoStatus | ResetRow(on: bool) | CommitRow(on: bool)

  datatype Chunk = Chunk(
    rowKey: Bytes,
    family: Option<Bytes>,
    qualifier: Option<Bytes>,
    timestampMicros: i64,
    labels: seq<Bytes>,
    value: Bytes,
    valueSize: int,
    status: RowStatus)

  datatype Response = Response(lastScannedRowKey: Bytes, chunks: seq<Chunk>)

  /** A time is a number of microseconds since the epoch, or what the clock said. */
  datatype Time = Now | Micros(n: nat)

  /** `as u64` of a signed 64-bit number. */
  function AsU64(n: i64): (u: nat)
    ensures u < 0x1_0000_0000_0000_0000
  {
    if n >= 0 then n else n + 0x1_0000_0000_0000_0000
  }

  datatype Cell = Cell(family: Bytes, qualifier: Bytes, value: Bytes, timestamp: Time, labels: seq<Bytes>)

  datatype Row = Row(rowKey: Bytes, cells: map<Bytes, seq<Cell>>)

  datatype PartialCell = PartialCell(
    family: Bytes, qualifier: Bytes, timestamp: Time, labels: seq<Bytes>, value: Bytes, valueIndex: nat)

  const NEW_CELL := PartialCell([], [], Now, [], [], 0)

  datatype PartialRow = PartialRow(
    rowKey: Bytes,
    cells: map<Bytes, seq<PartialCell>>,
    lastFamily: Bytes,
    collected: map<Bytes, seq<Cell>>,
    lastQualifier: Bytes,
    cell: PartialCell)

  const NEW_ROW := PartialRow([], map[], [], map[], [], NEW_CELL)

  datatype ReadState = RowStart | CellStart | CellInProgress | CellComplete | RowComplete

  datatype Merger = Merger(
    state: ReadState, lastSeenRowKey: Option<Bytes>, lastSeenFamily: Option<Bytes>, row: PartialRow)

  const NEW_MERGER := Merger(RowStart, None, None, NEW_ROW)

  /** `InvalidChunk` with its message. */
  datatype Result<+T> = Ok(value: T) | InvalidChunk(reason: string)
}
