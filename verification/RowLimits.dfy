/** Three things the row merger gets wrong, and exactly when: families left out, cells cut into several
    chunks, and labels. */
module RowLimits {
  import opened Notifications
  import opened Chunks
  import opened RowMerging
  import opened RowReading
  import opened RowRoundTrip

  /** The cells of a row, a chunk without a family continuing the family of the chunk before it. */
  function ReadContinuing(cells: seq<Cell>, chunks: seq<Chunk>, family: Bytes): seq<Cell>
    decreases chunks
  {
    if chunks == [] then cells
    else ReadContinuing(ReadChunk(cells, chunks[0], family), chunks[1..], FamilyAfter(chunks[0], family))
  }

  function FamilyAfter(chunk: Chunk, family: Bytes): Bytes {
    if chunk.family.Some? then chunk.family.value else family
  }

  /** A chunk without a family comes only where the row's first family is the current one. */
  predicate OmitsOnlyFirst(chunks: seq<Chunk>, first: Bytes, current: Bytes)
    decreases chunks
  {
    chunks == []
    || ((chunks[0].qualifier.Some? && chunks[0].family.None? ==> current == first)
        && OmitsOnlyFirst(chunks[1..], first, FamilyAfter(chunks[0], current)))
  }

  lemma {:induction false} ReadChunksExtends(cells: seq<Cell>, chunks: seq<Chunk>, family: Bytes)
    ensures cells <= ReadChunks(cells, chunks, family)
    decreases |chunks|
  {
    if chunks != [] { ReadChunksExtends(ReadChunk(cells, chunks[0], family), chunks[1..], family); }
  }

  lemma {:induction false} ReadContinuingExtends(cells: seq<Cell>, chunks: seq<Chunk>, family: Bytes)
    ensures cells <= ReadContinuing(cells, chunks, family)
    decreases |chunks|
  {
    if chunks != [] {
      ReadContinuingExtends(ReadChunk(cells, chunks[0], family), chunks[1..], FamilyAfter(chunks[0], family));
    }
  }

  /** The merger reads a row's families as the last one named exactly when no chunk leaves its family
      out after the row has moved on from its first one. */
  lemma {:induction false} FamiliesContinueIff(cells: seq<Cell>, chunks: seq<Chunk>, first: Bytes, current: Bytes)
    ensures ReadChunks(cells, chunks, first) == ReadContinuing(cells, chunks, current)
       <==> OmitsOnlyFirst(chunks, first, current)
    decreases |chunks|
  {
    if chunks != [] {
      var current1 := FamilyAfter(chunks[0], current);
      var a := ReadChunk(cells, chunks[0], first);
      var b := ReadChunk(cells, chunks[0], current);
      if chunks[0].qualifier.Some? && chunks[0].family.None? && current != first {
        ReadChunksExtends(a, chunks[1..], first);
        ReadContinuingExtends(b, chunks[1..], current1);
        assert a[|cells|].family != b[|cells|].family;
      } else {
        assert a == b;
        FamiliesContinueIff(a, chunks[1..], first, current1);
      }
    }
  }

  /** A further piece of a cell's value, and nothing else but perhaps the commit of its row. */
  predicate Piece(chunk: Chunk) {
    && chunk.rowKey == [] && chunk.family.None? && chunk.qualifier.None? && chunk.timestampMicros <= 0
    && chunk.status != ResetRow(true)
  }

  /** The further pieces of one value; all but the last announce more, and none but the last may commit. */
  predicate Pieces(chunks: seq<Chunk>) {
    && chunks != []
    && forall i :: 0 <= i < |chunks| ==>
         && Piece(chunks[i]) && (chunks[i].valueSize > 0 <==> i < |chunks| - 1)
         && (i < |chunks| - 1 ==> !chunks[i].status.CommitRow?)
  }

  function Joined(value: Bytes, chunks: seq<Chunk>): Bytes
    decreases chunks
  {
    if chunks == [] then value else Joined(value + chunks[0].value, chunks[1..])
  }

  /** Every piece that follows some bytes has labels. */
  predicate Labelled(chunks: seq<Chunk>, read: nat)
    decreases chunks
  {
    chunks == []
    || ((read > 0 ==> chunks[0].labels != []) && Labelled(chunks[1..], read + |chunks[0].value|))
  }

  predicate MidCell(m: Merger, key: Bytes, cells: seq<Cell>, cell: Cell, family: Bytes) {
    && m.state.CellInProgress? && m.lastSeenFamily == Some(family)
    && m.row.cell == Pending(cell).(valueIndex := |cell.value|)
    && RowHolds(BetweenCells(m.row, cells), key, cells)
  }

  function BetweenCells(row: PartialRow, cells: seq<Cell>): PartialRow {
    row.(cell := PartialCell(FamilyOf(cells), QualifierOf(cells), Now, LabelsOf(cells), [], 0))
  }

  /** The merger and the rows once these cells of the row are read and, maybe, committed. */
  predicate ReadUpTo(
    m1: Merger, rows1: Rows, rows: Rows, key: Bytes, cells: seq<Cell>, family: Bytes, committed: bool)
  {
    if committed then m1 == Idle(Some(key), Some(family)) && rows1 == rows[key := Row(key, FirstOfRuns(cells))]
    else MidRow(m1, key, cells) && m1.lastSeenFamily == Some(family) && rows1 == rows
  }

  lemma PieceIsRead(
    m: Merger, rows: Rows, chunk: Chunk, key: Bytes, cells: seq<Cell>, cell: Cell, family: Bytes)
    requires MidCell(m, key, cells, cell, family) && Piece(chunk)
    requires chunk.valueSize > 0 ==> !chunk.status.CommitRow?
    ensures var cell1 := cell.(value := cell.value + chunk.value);
      if |cell.value| > 0 && chunk.labels == [] then Feed(m, rows, chunk).InvalidChunk?
      else
        && Feed(m, rows, chunk).Ok?
        && var (m1, rows1) := Feed(m, rows, chunk).value;
        if chunk.valueSize > 0 then MidCell(m1, key, cells, cell1, family) && rows1 == rows
        else ReadUpTo(m1, rows1, rows, key, cells + [cell1], family, chunk.status.CommitRow?)
  {
    if !(|cell.value| > 0 && chunk.labels == []) && chunk.valueSize <= 0 {
      var m1 := ContinueCell(m, chunk).value;
      CellCompletes(BetweenCells(m.row, cells), key, cells, cell.(value := cell.value + chunk.value), m1, chunk);
    }
  }

  lemma {:induction false} PiecesAreRead(
    m: Merger, rows: Rows, chunks: seq<Chunk>, key: Bytes, cells: seq<Cell>, cell: Cell, family: Bytes)
    requires MidCell(m, key, cells, cell, family) && Pieces(chunks)
    ensures FeedAll(m, rows, chunks).Ok? <==> Labelled(chunks, |cell.value|)
    ensures FeedAll(m, rows, chunks).Ok? ==>
      var (m1, rows1) := FeedAll(m, rows, chunks).value;
      ReadUpTo(m1, rows1, rows, key, cells + [cell.(value := Joined(cell.value, chunks))], family,
               chunks[|chunks| - 1].status.CommitRow?)
    decreases |chunks|
  {
    PieceIsRead(m, rows, chunks[0], key, cells, cell, family);
    if |chunks| == 1 {
      assert chunks[1..] == [];
    } else if Feed(m, rows, chunks[0]).Ok? {
      var (m1, rows1) := Feed(m, rows, chunks[0]).value;
      PiecesAreRead(m1, rows1, chunks[1..], key, cells, cell.(value := cell.value + chunks[0].value), family);
    }
  }

  /** The first piece of a value, which names the cell and announces more. */
  predicate FirstPiece(chunk: Chunk, key: Bytes) {
    && Whole(chunk.(valueSize := 0), key) && chunk.qualifier.Some? && chunk.valueSize > 0
    && !chunk.status.CommitRow?
  }

  lemma FirstPieceIsRead(m: Merger, rows: Rows, chunk: Chunk, key: Bytes, cells: seq<Cell>, family: Bytes)
    requires MidRow(m, key, cells) && m.lastSeenFamily == Some(family) && FirstPiece(chunk, key)
    ensures Feed(m, rows, chunk).Ok?
    ensures var (m1, rows1) := Feed(m, rows, chunk).value;
      rows1 == rows && MidCell(m1, key, cells, ReadChunk(cells, chunk, family)[|cells|], family)
  {
    assert [] + chunk.value == chunk.value;
  }

  /** A cell cut into several chunks, in the middle of its row or at its end, is put together again
      exactly when every piece that follows some bytes carries labels; a cell cut as usual, without
      them, is refused. */
  lemma SplitCellIff(
    m: Merger, rows: Rows, chunk: Chunk, rest: seq<Chunk>, key: Bytes, cells: seq<Cell>, family: Bytes)
    requires MidRow(m, key, cells) && m.lastSeenFamily == Some(family)
    requires FirstPiece(chunk, key) && Pieces(rest)
    ensures FeedAll(m, rows, [chunk] + rest).Ok? <==> Labelled(rest, |chunk.value|)
    ensures FeedAll(m, rows, [chunk] + rest).Ok? ==>
      var (m1, rows1) := FeedAll(m, rows, [chunk] + rest).value;
      ReadUpTo(m1, rows1, rows, key, ReadChunk(cells, chunk.(value := Joined(chunk.value, rest)), family), family,
               rest[|rest| - 1].status.CommitRow?)
  {
    FirstPieceIsRead(m, rows, chunk, key, cells, family);
    var cell := ReadChunk(cells, chunk, family)[|cells|];
    var (m1, rows1) := Feed(m, rows, chunk).value;
    PiecesAreRead(m1, rows1, rest, key, cells, cell, family);
    assert ([chunk] + rest)[1..] == rest;
  }

  /** The labels that the cell at `k` finds. */
  function LabelsBefore(read: seq<Cell>, k: nat): seq<Bytes>
    requires k <= |read|
  {
    if k == 0 then [] else read[k - 1].labels
  }

  lemma {:induction false} OneCellEach(cells: seq<Cell>, chunks: seq<Chunk>, family: Bytes)
    requires forall i :: 0 <= i < |chunks| ==> chunks[i].qualifier.Some?
    ensures |ReadChunks(cells, chunks, family)| == |cells| + |chunks|
    decreases |chunks|
  {
    if chunks != [] { OneCellEach(ReadChunk(cells, chunks[0], family), chunks[1..], family); }
  }

  lemma {:induction false} LabelsAreRead(cells: seq<Cell>, chunks: seq<Chunk>, family: Bytes, i: nat, k: nat)
    requires forall i :: 0 <= i < |chunks| ==> chunks[i].qualifier.Some?
    requires i < |chunks| && k == |cells| + i
    ensures var read := ReadChunks(cells, chunks, family);
      k < |read| && read[k].labels == LabelsBefore(read, k) + Reversed(chunks[i].labels)
    decreases |chunks|
  {
    var cells1 := ReadChunk(cells, chunks[0], family);
    if i > 0 {
      LabelsAreRead(cells1, chunks[1..], family, i - 1, k);
    } else {
      var read := ReadChunks(cells1, chunks[1..], family);
      ReadChunksExtends(cells1, chunks[1..], family);
      assert read[k] == cells1[k] && LabelsBefore(read, k) == LabelsOf(cells);
    }
  }

  /** Each cell of a row comes back with its own labels exactly when none but the last has any. */
  lemma OwnLabelsIff(chunks: seq<Chunk>, family: Bytes)
    requires forall i :: 0 <= i < |chunks| ==> chunks[i].qualifier.Some?
    ensures |ReadChunks([], chunks, family)| == |chunks|
    ensures (forall i :: 0 <= i < |chunks| ==>
               ReadChunks([], chunks, family)[i].labels == Reversed(chunks[i].labels))
       <==> (forall i :: 0 <= i < |chunks| - 1 ==> chunks[i].labels == [])
  {
    var read := ReadChunks([], chunks, family);
    OneCellEach([], chunks, family);
    forall i | 0 <= i < |chunks|
      ensures PilesUp(read, i, chunks[i].labels)
    {
      LabelsAreRead([], chunks, family, i, i);
    }
    if forall i :: 0 <= i < |chunks| ==> read[i].labels == Reversed(chunks[i].labels) {
      forall i | 0 <= i < |chunks| - 1
        ensures chunks[i].labels == []
      {
        assert PilesUp(read, i + 1, chunks[i + 1].labels);
        NothingAdded(read[i].labels, Reversed(chunks[i + 1].labels));
        ReversedLength(chunks[i].labels);
      }
    }
    if forall i :: 0 <= i < |chunks| - 1 ==> chunks[i].labels == [] {
      forall i | 0 <= i < |chunks|
        ensures read[i].labels == Reversed(chunks[i].labels)
      {
        assert forall k :: 0 <= k < i ==> PilesUp(read, k, chunks[k].labels);
        NoLabelsBefore(read, chunks, i);
        assert PilesUp(read, i, chunks[i].labels);
        assert [] + Reversed(chunks[i].labels) == Reversed(chunks[i].labels);
      }
    }
  }

  lemma NothingAdded<T>(a: seq<T>, b: seq<T>)
    requires a + b == b
    ensures a == []
  {
    assert |a + b| == |a| + |b|;
  }

  lemma {:induction false} ReversedLength<T>(s: seq<T>)
    ensures |Reversed(s)| == |s|
  {
    if s != [] { ReversedLength(s[1..]); }
  }

  /** The cell at `k` takes over the labels of the one before. */
  predicate PilesUp(read: seq<Cell>, k: nat, labels: seq<Bytes>) {
    k < |read| && read[k].labels == LabelsBefore(read, k) + Reversed(labels)
  }

  lemma {:induction false} NoLabelsBefore(read: seq<Cell>, chunks: seq<Chunk>, k: nat)
    requires |read| == |chunks| && k < |chunks|
    requires forall i :: 0 <= i < k ==> chunks[i].labels == [] && PilesUp(read, i, [])
    ensures LabelsBefore(read, k) == []
    decreases k
  {
    if k > 0 {
      NoLabelsBefore(read, chunks, k - 1);
      assert PilesUp(read, k - 1, []);
    }
  }

  // ------------------------------------------------------------- at an input

  function Opening(key: Bytes, family: Bytes, qualifier: Bytes, labels: seq<Bytes>): Chunk {
    Chunk(key, Some(family), Some(qualifier), 0, labels, [], 0, NoStatus)
  }

  function Following(family: Option<Bytes>, qualifier: Bytes, status: RowStatus): Chunk {
    Chunk([], family, Some(qualifier), 0, [], [], 0, status)
  }

  /** The row of key 1 whose families are 1, 2 and again 2, the last left out: it is read as 1. */
  lemma OmittedFamilyIsMisread()
    ensures var chunks := [Opening([1], [1], [1], []), Following(Some([2]), [2], NoStatus),
                           Following(None, [3], CommitRow(true))];
      && Delivers(chunks)
      && ReadChunks([], chunks, [1])[2].family == [1] && ReadContinuing([], chunks, [1])[2].family == [2]
  {
    var a, b, c := Opening([1], [1], [1], []), Following(Some([2]), [2], NoStatus), Following(None, [3], CommitRow(true));
    assert [a, b, c][1..] == [b, c] && [b, c][1..] == [c] && [c][1..] == [];
    var one := ReadChunk([], a, [1]);
    var two := ReadChunk(one, b, [1]);
    assert ReadChunks([], [a, b, c], [1]) == ReadChunks(one, [b, c], [1]) == ReadChunks(two, [c], [1]);
    assert ReadContinuing([], [a, b, c], [1]) == ReadContinuing(one, [b, c], [1]) == ReadContinuing(two, [c], [2]);
    assert ReadChunk(two, c, [1])[2].family == [1] && ReadChunk(two, c, [2])[2].family == [2];
  }

  /** The value 1, 2 in two pieces without labels is refused, and with it the whole stream. */
  lemma SplitCellIsRefused()
    ensures var first := Opening([1], [1], [1], []).(value := [1], valueSize := 2);
      var last := Chunk([], None, None, 0, [], [2], 0, CommitRow(true));
      ProcessChunks([Response([], [first, last])]).InvalidChunk?
  {
    var first := Opening([1], [1], [1], []).(value := [1], valueSize := 2);
    var last := Chunk([], None, None, 0, [], [2], 0, CommitRow(true));
    var m := StartRow(NEW_MERGER, first).value;
    assert FromUtf8([1]) == [1];
    assert [last][1..] == [];
    RowBegins(NEW_MERGER, map[], first);
    assert MidRow(m, [1], []) && FirstPiece(first, [1]) && Pieces([last]);
    assert !Labelled([last], 1);
    SplitCellIff(m, map[], first, [last], [1], [], [1]);
    assert [first] + [last] == [first, last];
  }

  /** The second cell of a row comes back with the label of the first. */
  lemma LabelIsPassedOn()
    ensures var chunks := [Opening([1], [1], [1], [[9]]), Following(None, [2], CommitRow(true))];
      Delivers(chunks) && chunks[1].labels == [] && ReadChunks([], chunks, [1])[1].labels == [[9]]
  {
    var a, b := Opening([1], [1], [1], [[9]]), Following(None, [2], CommitRow(true));
    assert [a, b][1..] == [b] && [b][1..] == [];
    var one := ReadChunk([], a, [1]);
    assert ReadChunks([], [a, b], [1]) == ReadChunks(one, [b], [1]) == ReadChunk(one, b, [1]);
    assert [[9]][1..] == [];
    assert Reversed([[9]]) == [[9]];
    assert one[0].labels == [] + [[9]] == [[9]];
    assert ReadChunk(one, b, [1])[1].labels == [[9]] + [] == [[9]];
  }
}
