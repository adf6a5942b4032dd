/** What the row merger makes of a row whose cells each arrive in one chunk. */
module RowReading {
  import opened Notifications
  import opened Chunks
  import opened RowMerging

  /** A chunk that carries a whole cell, or no cell, of the row with this text key. */
  predicate Whole(chunk: Chunk, key: Bytes) {
    && chunk.valueSize <= 0
    && chunk.status != ResetRow(true)
    && (chunk.rowKey == [] || chunk.rowKey == key)
  }

  function FamilyOf(cells: seq<Cell>): Bytes {
    if cells == [] then [] else cells[|cells| - 1].family
  }

  function QualifierOf(cells: seq<Cell>): Bytes {
    if cells == [] then [] else cells[|cells| - 1].qualifier
  }

  function LabelsOf(cells: seq<Cell>): seq<Bytes> {
    if cells == [] then [] else cells[|cells| - 1].labels
  }

  /** The cells of a row after one more chunk. A chunk without a qualifier adds none, a chunk without
      a family takes the one its row began with, and labels pile up from cell to cell. */
  function ReadChunk(cells: seq<Cell>, chunk: Chunk, family: Bytes): seq<Cell> {
    if chunk.qualifier.None? then cells
    else cells + [Cell(if chunk.family.Some? then chunk.family.value else family,
                       FromUtf8(chunk.qualifier.value),
                       chunk.value,
                       Micros(AsU64(chunk.timestampMicros)),
                       LabelsOf(cells) + Reversed(chunk.labels))]
  }

  function ReadChunks(cells: seq<Cell>, chunks: seq<Chunk>, family: Bytes): seq<Cell>
    decreases chunks
  {
    if chunks == [] then cells
    else ReadChunks(ReadChunk(cells, chunks[0], family), chunks[1..], family)
  }

  /** Does cell `i` differ in family or qualifier from the one before it? The first is compared with
      the empty names. */
  predicate StartsRun(cells: seq<Cell>, i: nat)
    requires i < |cells|
  {
    if i == 0 then cells[0].family != [] || cells[0].qualifier != []
    else cells[i].family != cells[i - 1].family || cells[i].qualifier != cells[i - 1].qualifier
  }

  function FirstOfRuns(cells: seq<Cell>): map<Bytes, seq<Cell>> {
    if cells == [] then map[]
    else
      var n := |cells| - 1;
      if StartsRun(cells, n) then FirstOfRuns(cells[..n])[cells[n].qualifier := [cells[n]]]
      else FirstOfRuns(cells[..n])
  }

  predicate Last(cells: seq<Cell>, q: Bytes, i: nat) {
    && i < |cells| && StartsRun(cells, i) && cells[i].qualifier == q
    && (forall j :: i < j < |cells| && cells[j].qualifier == q ==> !StartsRun(cells, j))
  }

  lemma LastInit(cells: seq<Cell>, q: Bytes, i: nat)
    requires cells != []
    ensures var n := |cells| - 1;
      if StartsRun(cells, n) && cells[n].qualifier == q then Last(cells, q, i) <==> i == n
      else Last(cells, q, i) <==> Last(cells[..n], q, i)
  {
    var n := |cells| - 1;
    assert forall j: nat :: j < n ==> StartsRun(cells, j) == StartsRun(cells[..n], j);
    if !(StartsRun(cells, n) && cells[n].qualifier == q) && Last(cells[..n], q, i) {
      assert forall j: nat :: i < j < n && cells[..n][j].qualifier == q ==> !StartsRun(cells[..n], j);
    }
  }

  /** The map holds, under each qualifier, the first cell of that qualifier's last run. */
  lemma {:induction false} FirstOfRunsIs(cells: seq<Cell>, q: Bytes, i: nat)
    requires Last(cells, q, i)
    ensures q in FirstOfRuns(cells) && FirstOfRuns(cells)[q] == [cells[i]]
  {
    var n := |cells| - 1;
    LastInit(cells, q, i);
    if !(StartsRun(cells, n) && cells[n].qualifier == q) {
      FirstOfRunsIs(cells[..n], q, i);
    }
  }

  /** And it holds nothing else. */
  lemma {:induction false} FirstOfRunsOnly(cells: seq<Cell>, q: Bytes) returns (i: nat)
    requires q in FirstOfRuns(cells)
    ensures Last(cells, q, i)
  {
    var n := |cells| - 1;
    if StartsRun(cells, n) && cells[n].qualifier == q {
      i := n;
    } else {
      i := FirstOfRunsOnly(cells[..n], q);
    }
    LastInit(cells, q, i);
  }

  predicate DistinctQualifiers(cells: seq<Cell>) {
    forall i, j :: 0 <= i < j < |cells| ==> cells[i].qualifier != cells[j].qualifier
  }

  /** No two cells share a qualifier, in whatever family, and the first is not nameless. */
  predicate Plain(cells: seq<Cell>) {
    DistinctQualifiers(cells) && (cells != [] ==> StartsRun(cells, 0))
  }

  lemma PlainIsKept(cells: seq<Cell>, i: nat)
    requires Plain(cells) && i < |cells|
    ensures StartsRun(cells, i)
    ensures cells[i].qualifier in FirstOfRuns(cells)
    ensures FirstOfRuns(cells)[cells[i].qualifier] == [cells[i]]
  {
    assert Last(cells, cells[i].qualifier, i);
    FirstOfRunsIs(cells, cells[i].qualifier, i);
  }

  predicate HasQualifier(cells: seq<Cell>, q: Bytes) {
    exists i :: 0 <= i < |cells| && cells[i].qualifier == q
  }

  lemma PlainKeys(cells: seq<Cell>, q: Bytes)
    requires Plain(cells)
    ensures q in FirstOfRuns(cells) <==> HasQualifier(cells, q)
  {
    if q in FirstOfRuns(cells) {
      var i := FirstOfRunsOnly(cells, q);
      assert cells[i].qualifier == q;
    }
    if i :| 0 <= i < |cells| && cells[i].qualifier == q {
      PlainIsKept(cells, i);
    }
  }

  lemma PlainInit(cells: seq<Cell>)
    requires cells != []
    ensures var n := |cells| - 1;
      Plain(cells) <==>
      Plain(cells[..n]) && StartsRun(cells, n) && !HasQualifier(cells[..n], cells[n].qualifier)
  {
    var n := |cells| - 1;
    var init := cells[..n];
    if Plain(cells) {
      PlainIsKept(cells, n);
      assert forall i :: 0 <= i < n ==> init[i].qualifier == cells[i].qualifier;
    } else if Plain(init) && StartsRun(cells, n) {
      var i, j :| 0 <= i < j < |cells| && cells[i].qualifier == cells[j].qualifier;
      assert init[i] == cells[i] && j == n;
    }
  }

  /** A row comes back with as many cells as were sent exactly when it is plain. */
  lemma {:induction false} CellsKeptIff(cells: seq<Cell>)
    ensures |FirstOfRuns(cells)| <= |cells|
    ensures |FirstOfRuns(cells)| == |cells| <==> Plain(cells)
  {
    if cells != [] {
      var n := |cells| - 1;
      var rest := FirstOfRuns(cells[..n]);
      var q := cells[n].qualifier;
      CellsKeptIff(cells[..n]);
      PlainInit(cells);
      assert rest[q := [cells[n]]].Keys == rest.Keys + {q};
      if |rest| == n {
        PlainKeys(cells[..n], q);
      }
    }
  }
}
