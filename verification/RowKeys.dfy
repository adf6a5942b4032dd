/** Committed row keys only go up, as long as they are UTF-8. */
module RowKeys {
  import opened Notifications
  import opened Chunks
  import opened RowMerging
  import opened RowRoundTrip
  import opened RowResets

  ghost predicate KeysBelow(rows: Rows, key: Bytes) {
    forall k :: k in rows ==> Less(k, key)
  }

  ghost predicate KeysUpTo(rows: Rows, lastKey: Option<Bytes>) {
    forall k :: k in rows ==> lastKey.Some? && (k == lastKey.value || Less(k, lastKey.value))
  }

  /** No committed key is above the last seen, nor at or above that of the row in progress. */
  ghost predicate Keyed(m: Merger, rows: Rows) {
    && BetweenChunks(m)
    && KeysUpTo(rows, m.lastSeenRowKey)
    && (!m.state.RowStart? ==> KeysBelow(rows, m.row.rowKey))
  }

  lemma UpToBelow(rows: Rows, lastKey: Option<Bytes>, key: Bytes)
    requires KeysUpTo(rows, lastKey) && Above(lastKey, key)
    ensures KeysBelow(rows, key)
  {
    forall k | k in rows
      ensures Less(k, key)
    {
      if k != lastKey.value { LessTransitive(k, lastKey.value, key); }
    }
  }

  /** What a commit adds: one row, under a key above all the others. */
  ghost predicate Committed(rows: Rows, rows1: Rows, key: Bytes) {
    KeysBelow(rows, key) && key in rows1 && rows1 == rows[key := rows1[key]]
  }

  lemma CommittedCounts(rows: Rows, rows1: Rows, key: Bytes)
    requires Committed(rows, rows1, key)
    ensures |rows1| == |rows| + 1 && KeysUpTo(rows1, Some(key))
  {
    LessIrreflexive(key);
    NewKey(rows, key, rows1[key]);
  }

  /** The chunk that ends a row commits it under its text key, which becomes the last seen. */
  lemma CommitChunk(m: Merger, rows: Rows, chunk: Chunk)
    requires BetweenChunks(m) && chunk.status.CommitRow? && Feed(m, rows, chunk).Ok?
    ensures var (m1, rows1) := Feed(m, rows, chunk).value;
      var key := if m.state.RowStart? then FromUtf8(chunk.rowKey) else m.row.rowKey;
      m1 == Idle(Some(key), m1.lastSeenFamily) && key in rows1 && rows1 == rows[key := rows1[key]]
  {
  }

  function Commits(chunks: seq<Chunk>): nat {
    if chunks == [] then 0
    else if chunks[0].status.CommitRow? then 1 + Commits(chunks[1..])
    else Commits(chunks[1..])
  }

  lemma FeedKeyed(m: Merger, rows: Rows, chunk: Chunk)
    requires Keyed(m, rows) && ValidUtf8(chunk.rowKey) && Feed(m, rows, chunk).Ok?
    ensures var (m1, rows1) := Feed(m, rows, chunk).value;
      && Keyed(m1, rows1)
      && |rows1| == |rows| + Commits([chunk])
      && (chunk.status.CommitRow? ==> Committed(rows, rows1, m1.lastSeenRowKey.value))
  {
    assert [chunk][1..] == [];
    if chunk.status == ResetRow(true) {
    } else {
      if m.state.RowStart? {
        RowBegins(m, rows, chunk);
        UpToBelow(rows, m.lastSeenRowKey, chunk.rowKey);
      }
      if chunk.status.CommitRow? {
        CommitChunk(m, rows, chunk);
        var (m1, rows1) := Feed(m, rows, chunk).value;
        CommittedCounts(rows, rows1, m1.lastSeenRowKey.value);
      } else {
        PlainChunk(m, rows, chunk);
      }
    }
  }

  predicate Utf8Keys(chunks: seq<Chunk>) {
    forall i :: 0 <= i < |chunks| ==> ValidUtf8(chunks[i].rowKey)
  }

  lemma {:induction false} FeedAllKeyed(m: Merger, rows: Rows, chunks: seq<Chunk>)
    requires Keyed(m, rows) && Utf8Keys(chunks) && FeedAll(m, rows, chunks).Ok?
    ensures var (m1, rows1) := FeedAll(m, rows, chunks).value;
      Keyed(m1, rows1) && |rows1| == |rows| + Commits(chunks)
    decreases |chunks|
  {
    if chunks != [] {
      FeedKeyed(m, rows, chunks[0]);
      var (m1, rows1) := Feed(m, rows, chunks[0]).value;
      assert [chunks[0]][1..] == [];
      FeedAllKeyed(m1, rows1, chunks[1..]);
    }
  }

  lemma ScannedKeyed(m: Merger, rows: Rows, key: Bytes)
    requires Keyed(m, rows) && ValidUtf8(key) && Scanned(m, key).Ok?
    ensures Keyed(Scanned(m, key).value, rows)
  {
    if key != [] {
      UpToBelow(rows, m.lastSeenRowKey, key);
    }
  }

  lemma {:induction false} FeedResponsesKeyed(m: Merger, rows: Rows, responses: seq<Response>)
    requires Keyed(m, rows) && FeedResponses(m, rows, responses).Ok?
    requires forall i :: 0 <= i < |responses| ==>
      ValidUtf8(responses[i].lastScannedRowKey) && Utf8Keys(responses[i].chunks)
    ensures var (m1, rows1) := FeedResponses(m, rows, responses).value;
      Keyed(m1, rows1) && |rows1| == |rows| + Commits(ChunksOf(responses))
    decreases |responses|
  {
    if responses != [] {
      ScannedKeyed(m, rows, responses[0].lastScannedRowKey);
      var m1 := Scanned(m, responses[0].lastScannedRowKey).value;
      FeedAllKeyed(m1, rows, responses[0].chunks);
      var (m2, rows2) := FeedAll(m1, rows, responses[0].chunks).value;
      FeedResponsesKeyed(m2, rows2, responses[1..]);
      CommitsOfConcat(responses[0].chunks, ChunksOf(responses[1..]));
    }
  }

  lemma {:induction false} CommitsOfConcat(a: seq<Chunk>, b: seq<Chunk>)
    ensures Commits(a + b) == Commits(a) + Commits(b)
    decreases |a|
  {
    if a == [] {
      assert a + b == b;
    } else {
      assert (a + b)[1..] == a[1..] + b;
      CommitsOfConcat(a[1..], b);
    }
  }

  /** No committed row is ever overwritten: a stream that is read without error, through resets and
      last scanned keys alike, yields one row for each commit. */
  lemma {:induction false} OneRowPerCommit(responses: seq<Response>)
    requires ProcessChunks(responses).Ok?
    requires forall i :: 0 <= i < |responses| ==>
      ValidUtf8(responses[i].lastScannedRowKey) && Utf8Keys(responses[i].chunks)
    ensures |ProcessChunks(responses).value| == Commits(ChunksOf(responses))
  {
    assert Keyed(NEW_MERGER, map[]);
    FeedResponsesKeyed(NEW_MERGER, map[], responses);
  }

  /** A committed row, of one chunk or of several, moves the last seen key up exactly when its own key is
      UTF-8. */
  lemma KeyAdvancesIff(lastKey: Bytes, family: Option<Bytes>, rows: Rows, begun: seq<Chunk>, last: Chunk)
    requires forall i :: 0 <= i < |begun| ==> Plain(begun[i])
    requires last.status.CommitRow?
    requires FeedAll(Idle(Some(lastKey), family), rows, begun + [last]).Ok?
    ensures var (m1, rows1) := FeedAll(Idle(Some(lastKey), family), rows, begun + [last]).value;
      && m1.lastSeenRowKey.Some?
      && (Less(lastKey, m1.lastSeenRowKey.value) <==> ValidUtf8((begun + [last])[0].rowKey))
  {
    var m := Idle(Some(lastKey), family);
    FeedAllConcat(m, rows, begun, [last]);
    assert [last][1..] == [];
    var (m1, rows1) := FeedAll(m, rows, begun).value;
    if begun == [] {
      assert (begun + [last])[0] == last;
    } else {
      PlainChunks(m, rows, begun);
    }
    CommitChunk(m1, rows1, last);
    RowBegins(m, rows, (begun + [last])[0]);
  }

  function Unnamed(key: Bytes): Chunk {
    Chunk(key, None, None, 0, [], [], 0, CommitRow(true))
  }

  /** Two rows whose keys are not UTF-8 become one, under the empty key. */
  lemma InvalidKeysCollide()
    ensures Less([0x80], [0x81])
    ensures var result := ProcessChunks([Response([], [Unnamed([0x80]), Unnamed([0x81])])]);
      result.Ok? && result.value.Keys == {[]}
  {
    var a, b := Unnamed([0x80]), Unnamed([0x81]);
    var response := Response([], [a, b]);
    assert !ValidUtf8([0x80]) && !ValidUtf8([0x81]);
    var (m1, rows1) := Feed(NEW_MERGER, map[], a).value;
    CommitChunk(NEW_MERGER, map[], a);
    CommitChunk(m1, rows1, b);
    assert [a, b][1..] == [b] && [b][1..] == [];
    assert [response][1..] == [];
  }
}
