/** An aborted row leaves nothing behind but its family. */
module RowResets {
  import opened Notifications
  import opened Chunks
  import opened RowMerging
  import opened RowRoundTrip

  /** Between chunks a merger is between two rows or within one. */
  predicate BetweenChunks(m: Merger) {
    if m.state.RowStart? then m.row == NEW_ROW
    else m.state.CellInProgress? || (m.state.CellStart? && m.row.cell.valueIndex == 0)
  }

  lemma FeedStaysBetween(m: Merger, rows: Rows, chunk: Chunk)
    requires BetweenChunks(m) && Feed(m, rows, chunk).Ok?
    ensures BetweenChunks(Feed(m, rows, chunk).value.0)
  {
  }

  lemma {:induction false} FeedAllStaysBetween(m: Merger, rows: Rows, chunks: seq<Chunk>)
    requires BetweenChunks(m) && FeedAll(m, rows, chunks).Ok?
    ensures BetweenChunks(FeedAll(m, rows, chunks).value.0)
    decreases |chunks|
  {
    if chunks != [] {
      FeedStaysBetween(m, rows, chunks[0]);
      var (m1, rows1) := Feed(m, rows, chunks[0]).value;
      FeedAllStaysBetween(m1, rows1, chunks[1..]);
    }
  }

  /** A chunk that neither commits nor resets. */
  predicate Plain(chunk: Chunk) {
    !chunk.status.CommitRow? && chunk.status != ResetRow(true)
  }

  lemma PlainChunk(m: Merger, rows: Rows, chunk: Chunk)
    requires BetweenChunks(m) && Plain(chunk) && Feed(m, rows, chunk).Ok?
    ensures var (m1, rows1) := Feed(m, rows, chunk).value;
      && BetweenChunks(m1) && !m1.state.RowStart?
      && rows1 == rows && m1.lastSeenRowKey == m.lastSeenRowKey
      && m1.lastSeenFamily == (if m.state.RowStart? then Or(chunk.family, m.lastSeenFamily) else m.lastSeenFamily)
      && m1.row.rowKey == if m.state.RowStart? then FromUtf8(chunk.rowKey) else m.row.rowKey
  {
    FeedStaysBetween(m, rows, chunk);
  }

  lemma {:induction false} PlainChunks(m: Merger, rows: Rows, chunks: seq<Chunk>)
    requires BetweenChunks(m) && FeedAll(m, rows, chunks).Ok?
    requires chunks != [] && forall i :: 0 <= i < |chunks| ==> Plain(chunks[i])
    ensures var (m1, rows1) := FeedAll(m, rows, chunks).value;
      && BetweenChunks(m1) && !m1.state.RowStart?
      && rows1 == rows && m1.lastSeenRowKey == m.lastSeenRowKey
      && m1.lastSeenFamily == (if m.state.RowStart? then Or(chunks[0].family, m.lastSeenFamily) else m.lastSeenFamily)
      && m1.row.rowKey == if m.state.RowStart? then FromUtf8(chunks[0].rowKey) else m.row.rowKey
    decreases |chunks|
  {
    PlainChunk(m, rows, chunks[0]);
    var (m1, rows1) := Feed(m, rows, chunks[0]).value;
    if |chunks| > 1 {
      PlainChunks(m1, rows1, chunks[1..]);
    } else {
      assert chunks[1..] == [];
    }
  }

  /** A reset chunk that says nothing else. */
  predicate Bare(chunk: Chunk) {
    && chunk.status == ResetRow(true)
    && chunk.rowKey == [] && chunk.family.None? && chunk.qualifier.None?
    && chunk.timestampMicros <= 0 && chunk.labels == [] && chunk.value == []
  }

  /** Chunks that begin a row without error and leave it uncommitted. */
  predicate Aborted(m: Merger, rows: Rows, chunks: seq<Chunk>) {
    && FeedAll(m, rows, chunks).Ok?
    && chunks != [] && forall i :: 0 <= i < |chunks| ==> Plain(chunks[i])
  }

  /** Resetting an uncommitted row restores the merger, all but the family it last saw. */
  lemma ResetRestores(
    lastKey: Option<Bytes>, family: Option<Bytes>, rows: Rows, begun: seq<Chunk>, reset: Chunk, rest: seq<Chunk>)
    requires Aborted(Idle(lastKey, family), rows, begun) && Bare(reset)
    ensures FeedAll(Idle(lastKey, family), rows, begun + [reset] + rest)
         == FeedAll(Idle(lastKey, Or(begun[0].family, family)), rows, rest)
  {
    var m := Idle(lastKey, family);
    PlainChunks(m, rows, begun);
    var m1 := FeedAll(m, rows, begun).value.0;
    FeedAllConcat(m, rows, begun, [reset] + rest);
    assert begun + ([reset] + rest) == begun + [reset] + rest;
    assert ([reset] + rest)[1..] == rest;
    assert Reset(m1, reset) == Ok(Idle(lastKey, Or(begun[0].family, family)));
  }

  /** The first chunk of a row that names its family settles which family was last seen. */
  lemma NamedFamilySettles(lastKey: Option<Bytes>, f: Option<Bytes>, g: Option<Bytes>, rows: Rows, rest: seq<Chunk>)
    requires rest == [] || rest[0].family.Some? || rest[0].status == ResetRow(true)
    ensures Finalize(FeedAll(Idle(lastKey, f), rows, rest)) == Finalize(FeedAll(Idle(lastKey, g), rows, rest))
  {
    if rest != [] && rest[0].status != ResetRow(true) {
      RowBegins(Idle(lastKey, f), rows, rest[0]);
      RowBegins(Idle(lastKey, g), rows, rest[0]);
      assert StartRow(Idle(lastKey, f), rest[0]) == StartRow(Idle(lastKey, g), rest[0]);
    }
  }

  /** Anywhere in a stream, deleting an aborted row and its reset changes nothing, provided the next
      row's first chunk names its family. */
  lemma ResetErasesRow(before: seq<Chunk>, begun: seq<Chunk>, reset: Chunk, rest: seq<Chunk>)
    requires FeedAll(NEW_MERGER, map[], before).Ok?
    requires FeedAll(NEW_MERGER, map[], before).value.0.state.RowStart?
    requires var (m, rows) := FeedAll(NEW_MERGER, map[], before).value; Aborted(m, rows, begun)
    requires Bare(reset)
    requires rest == [] || rest[0].family.Some? || rest[0].status == ResetRow(true)
    ensures Finalize(FeedAll(NEW_MERGER, map[], before + (begun + [reset] + rest)))
         == Finalize(FeedAll(NEW_MERGER, map[], before + rest))
  {
    var (m, rows) := FeedAll(NEW_MERGER, map[], before).value;
    FeedAllStaysBetween(NEW_MERGER, map[], before);
    assert m == Idle(m.lastSeenRowKey, m.lastSeenFamily);
    FeedAllConcat(NEW_MERGER, map[], before, begun + [reset] + rest);
    FeedAllConcat(NEW_MERGER, map[], before, rest);
    ResetRestores(m.lastSeenRowKey, m.lastSeenFamily, rows, begun, reset, rest);
    NamedFamilySettles(m.lastSeenRowKey, Or(begun[0].family, m.lastSeenFamily), m.lastSeenFamily, rows, rest);
  }

  /** A row of one chunk that leaves its family out. */
  function Nameless(key: Bytes): Chunk {
    Chunk(key, None, Some([0x71]), 0, [], [], 0, CommitRow(true))
  }

  lemma NamelessRow(lastKey: Option<Bytes>, family: Option<Bytes>, rows: Rows, key: Bytes)
    requires key != [] && Above(lastKey, key)
    ensures var result := Finalize(FeedAll(Idle(lastKey, family), rows, [Nameless(key)]));
      if family.None? then result.InvalidChunk?
      else
        var cell := Cell(family.value, FromUtf8([0x71]), [], Micros(0), []);
        && result.Ok? && FromUtf8(key) in result.value
        && result.value[FromUtf8(key)] == Row(FromUtf8(key), map[cell.qualifier := [cell]])
  {
    var m, chunk := Idle(lastKey, family), Nameless(key);
    var m1 := StartRow(m, chunk).value;
    RowBegins(m, rows, chunk);
    assert FromUtf8([0x71]) == [0x71];
    if family.Some? {
      var m2 := StartCell(m1, chunk).value;
      assert chunk.value + chunk.value == [];
      assert m2.row.cell == PartialCell(family.value, [0x71], Micros(0), [], [], 0);
      var m3 := CompleteCell(m2, chunk);
      assert m3.row.collected == map[[0x71] := [Cell(family.value, [0x71], [], Micros(0), [])]];
    }
    assert [chunk][1..] == [];
  }

  lemma {:induction false} LessThanLonger(a: Bytes)
    ensures Less(a, a + [0])
  {
    if a != [] {
      LessThanLonger(a[1..]);
      assert (a + [0])[1..] == a[1..] + [0];
    }
  }

  lemma FamiliesTellApart(lastKey: Option<Bytes>, f: Option<Bytes>, g: Option<Bytes>, rows: Rows) returns (rest: seq<Chunk>)
    requires f != g
    ensures Finalize(FeedAll(Idle(lastKey, f), rows, rest)) != Finalize(FeedAll(Idle(lastKey, g), rows, rest))
  {
    var key := Or(lastKey, Some([])).value + [0];
    LessThanLonger(Or(lastKey, Some([])).value);
    NamelessRow(lastKey, f, rows, key);
    NamelessRow(lastKey, g, rows, key);
    rest := [Nameless(key)];
    if f.Some? && g.Some? {
      var q := FromUtf8([0x71]);
      var tableF := Finalize(FeedAll(Idle(lastKey, f), rows, rest)).value;
      var tableG := Finalize(FeedAll(Idle(lastKey, g), rows, rest)).value;
      assert tableF[FromUtf8(key)].cells[q][0].family == f.value;
      assert tableG[FromUtf8(key)].cells[q][0].family == g.value;
    }
  }

  /** The reset is invisible to everything that may follow exactly when the aborted row's first chunk
      did not change the family last seen. */
  lemma ResetInvisibleIff(
    lastKey: Option<Bytes>, family: Option<Bytes>, rows: Rows, begun: seq<Chunk>, reset: Chunk)
    requires Aborted(Idle(lastKey, family), rows, begun) && Bare(reset)
    ensures (forall rest :: Finalize(FeedAll(Idle(lastKey, family), rows, begun + [reset] + rest))
                         == Finalize(FeedAll(Idle(lastKey, family), rows, rest)))
       <==> begun[0].family.None? || begun[0].family == family
  {
    var family1 := Or(begun[0].family, family);
    forall rest
      ensures FeedAll(Idle(lastKey, family), rows, begun + [reset] + rest)
           == FeedAll(Idle(lastKey, family1), rows, rest)
    {
      ResetRestores(lastKey, family, rows, begun, reset, rest);
    }
    if family1 != family {
      var rest := FamiliesTellApart(lastKey, family, family1, rows);
      assert FeedAll(Idle(lastKey, family), rows, begun + [reset] + rest)
          == FeedAll(Idle(lastKey, family1), rows, rest);
    }
  }
}
