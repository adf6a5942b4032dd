/** One user's stored messages, as the two database backends show them
    (autopush-common/src/db/client.rs, dynamodb/mod.rs, bigtable_client/mod.rs). */
module Storage {
  import opened Notifications
  import Text

  datatype Backend = DynamoDb | BigTable

  /** `topics` and `stamped` are in key order. `registry` says whether DynamoDB's
      " " row exists; `pointer` is the persisted `current_timestamp`. */
  datatype Store = Store(
    backend: Backend,
    registry: bool,
    topics: seq<Notification>,
    stamped: seq<Notification>,
    pointer: Option<nat>,
    user: bool)

  datatype FetchResponse = FetchResponse(timestamp: Option<nat>, messages: seq<Notification>)

  predicate IsTopic(n: Notification) { n.topic.Some? && n.sortkey.None? }

  predicate IsStamped(n: Notification) { n.topic.None? && n.sortkey.Some? && n.sortkey.value > 0 }

  /** Topic rows, no two under one key. */
  ghost predicate TopicsValid(ns: seq<Notification>) {
    ns != [] ==>
    && IsTopic(ns[0])
    && (forall n :: n in ns[1..] ==> KeyOf(n, 0) != KeyOf(ns[0], 0))
    && TopicsValid(ns[1..])
  }

  /** Timestamp rows in key order. */
  ghost predicate StampedValid(ns: seq<Notification>) {
    ns != [] ==>
    && IsStamped(ns[0])
    && (forall n :: n in ns[1..] ==> Precedes(ns[0], n))
    && StampedValid(ns[1..])
  }

  predicate Precedes(a: Notification, b: Notification) {
    && a.sortkey.Some? && b.sortkey.Some?
    && (a.sortkey.value < b.sortkey.value ||
        (a.sortkey.value == b.sortkey.value && a.channelId < b.channelId))
  }

  ghost predicate Valid(st: Store) {
    TopicsValid(st.topics) && StampedValid(st.stamped)
  }

  predicate Newer(n: Notification, after: Option<nat>) {
    n.sortkey.Some? && (after.Some? ==> n.sortkey.value > after.value)
  }

  /** The rows a "greater than `after`" query selects. */
  function After(ns: seq<Notification>, after: Option<nat>): (r: seq<Notification>)
    ensures |r| <= |ns|
    ensures forall n :: n in r <==> n in ns && Newer(n, after)
  {
    if ns == [] then []
    else if Newer(ns[0], after) then [ns[0]] + After(ns[1..], after)
    else After(ns[1..], after)
  }

  function Take<T>(s: seq<T>, limit: nat): (r: seq<T>)
    ensures r <= s && |r| <= limit && (|s| <= limit ==> r == s)
  {
    if |s| <= limit then s else s[..limit]
  }

  /** The greatest sortkey in a batch. */
  function Highest(ns: seq<Notification>): (h: Option<nat>)
    ensures h.Some? ==> exists n :: n in ns && n.sortkey == h
    ensures forall n :: n in ns && n.sortkey.Some? ==> h.Some? && n.sortkey.value <= h.value
  {
    if ns == [] then None
    else
      var rest := Highest(ns[1..]);
      if ns[0].sortkey.None? then rest
      else if rest.None? || rest.value <= ns[0].sortkey.value then
        assert ns[0] in ns;
        ns[0].sortkey
      else rest
  }

  /** DynamoDB returns the registry row's pointer and drops the first row read,
      whatever it is; Bigtable returns no timestamp. */
  function FetchTopicMessages(st: Store, limit: nat): (r: FetchResponse)
    requires limit > 0
    ensures forall n :: n in r.messages ==> n in st.topics
  {
    match st.backend
    case BigTable => FetchResponse(None, Take(st.topics, limit))
    case DynamoDb =>
      if st.registry then FetchResponse(st.pointer, Take(st.topics, limit - 1))
      else if st.topics == [] then FetchResponse(None, [])
      else FetchResponse(None, Take(st.topics, limit)[1..])
  }

  function FetchTimestampMessages(st: Store, after: Option<nat>, limit: nat): (r: FetchResponse)
    ensures forall n :: n in r.messages ==> n in st.stamped && Newer(n, after)
  {
    var batch := Take(After(st.stamped, after), limit);
    FetchResponse(Highest(batch), batch)
  }

  /** On DynamoDB the update creates the registry row. */
  function IncrementStorage(st: Store, timestamp: nat): Store {
    st.(pointer := Some(timestamp), registry := true)
  }

  /** The rows left once those with the given key are gone. */
  function Without(ns: seq<Notification>, key: Key): (r: seq<Notification>)
    ensures |r| <= |ns|
  {
    if ns == [] then []
    else if KeyOf(ns[0], 0) == key then Without(ns[1..], key)
    else [ns[0]] + Without(ns[1..], key)
  }

  function RemoveMessage(st: Store, key: Key): Store {
    st.(topics := Without(st.topics, key), stamped := Without(st.stamped, key))
  }

  function RemoveUser(st: Store): Store { st.(user := false) }

  /** Storing under a key replaces the row with that key. */
  function SaveMessage(st: Store, n: Notification): Store
    requires IsTopic(n) || IsStamped(n)
  {
    if IsTopic(n) then st.(topics := InsertTopic(st.topics, n))
    else st.(stamped := InsertStamped(st.stamped, n))
  }

  predicate TopicPrecedes(a: Notification, b: Notification) {
    && a.topic.Some? && b.topic.Some?
    && (a.channelId < b.channelId ||
        (a.channelId == b.channelId && Text.StrLess(a.topic.value, b.topic.value)))
  }

  function Place(ns: seq<Notification>, n: Notification): seq<Notification> {
    if ns == [] then [n]
    else if TopicPrecedes(n, ns[0]) then [n] + ns
    else [ns[0]] + Place(ns[1..], n)
  }

  function InsertTopic(ns: seq<Notification>, n: Notification): seq<Notification>
    requires IsTopic(n)
  {
    Place(Without(ns, KeyOf(n, 0)), n)
  }

  function InsertStamped(ns: seq<Notification>, n: Notification): (r: seq<Notification>)
    requires IsStamped(n)
  {
    if ns == [] then [n]
    else if KeyOf(ns[0], 0) == KeyOf(n, 0) then [n] + ns[1..]
    else if Precedes(n, ns[0]) then [n] + ns
    else [ns[0]] + InsertStamped(ns[1..], n)
  }

  // ------------------------------------------------------------------ facts

  lemma {:induction false} WithoutMembers(ns: seq<Notification>, key: Key)
    ensures forall n :: n in Without(ns, key) <==> n in ns && KeyOf(n, 0) != key
  {
    if ns != [] { WithoutMembers(ns[1..], key); }
  }

  lemma {:induction false} PlaceMembers(ns: seq<Notification>, n: Notification)
    ensures forall m :: m in Place(ns, n) <==> m in ns || m == n
  {
    if ns != [] { PlaceMembers(ns[1..], n); }
  }

  lemma InsertTopicMembers(ns: seq<Notification>, n: Notification)
    requires IsTopic(n)
    ensures forall m :: m in InsertTopic(ns, n) <==> m == n || (m in ns && KeyOf(m, 0) != KeyOf(n, 0))
  {
    WithoutMembers(ns, KeyOf(n, 0));
    PlaceMembers(Without(ns, KeyOf(n, 0)), n);
  }

  lemma {:induction false} WithoutKeepsValid(ns: seq<Notification>, key: Key)
    ensures TopicsValid(ns) ==> TopicsValid(Without(ns, key))
    ensures StampedValid(ns) ==> StampedValid(Without(ns, key))
  {
    if ns != [] {
      WithoutKeepsValid(ns[1..], key);
      WithoutMembers(ns[1..], key);
      var rest := Without(ns[1..], key);
      assert ([ns[0]] + rest)[1..] == rest;
    }
  }

  lemma RemoveKeepsValid(st: Store, key: Key)
    requires Valid(st)
    ensures Valid(RemoveMessage(st, key))
  {
    WithoutKeepsValid(st.topics, key);
    WithoutKeepsValid(st.stamped, key);
  }

  lemma {:induction false} TopicsAreTopics(ns: seq<Notification>)
    requires TopicsValid(ns)
    ensures forall n :: n in ns ==> IsTopic(n)
  {
    if ns != [] { TopicsAreTopics(ns[1..]); }
  }

  lemma {:induction false} StampedAreStamped(ns: seq<Notification>)
    requires StampedValid(ns)
    ensures forall n :: n in ns ==> IsStamped(n)
  {
    if ns != [] { StampedAreStamped(ns[1..]); }
  }

  /** A key matching no row removes none. */
  lemma {:induction false} WithoutAbsent(ns: seq<Notification>, key: Key)
    requires forall n :: n in ns ==> KeyOf(n, 0) != key
    ensures Without(ns, key) == ns
  {
    if ns != [] { WithoutAbsent(ns[1..], key); }
  }

  /** A topic key matches no timestamp row. */
  lemma WithoutTopicKey(ns: seq<Notification>, key: Key)
    requires StampedValid(ns) && !key.StampedKey?
    ensures Without(ns, key) == ns
  {
    StampedAreStamped(ns);
    WithoutAbsent(ns, key);
  }

  lemma {:induction false} WithoutRemovesRow(ns: seq<Notification>, n: Notification)
    requires n in ns
    ensures |Without(ns, KeyOf(n, 0))| < |ns|
  {
    if ns[0] != n { WithoutRemovesRow(ns[1..], n); }
  }

  /** Removing the key of the row at `i` removes that row and no other. */
  lemma {:induction false} WithoutAt(ns: seq<Notification>, i: nat)
    requires TopicsValid(ns) && i < |ns|
    ensures Without(ns, KeyOf(ns[i], 0)) == ns[..i] + ns[i + 1..]
  {
    if i == 0 {
      WithoutAbsent(ns[1..], KeyOf(ns[0], 0));
    } else {
      assert ns[i] == ns[1..][i - 1];
      WithoutAt(ns[1..], i - 1);
      assert [ns[0]] + (ns[1..][..i - 1] + ns[1..][i..]) == ns[..i] + ns[i + 1..];
    }
  }

  lemma {:induction false} AfterKeepsOrder(ns: seq<Notification>, after: Option<nat>)
    requires StampedValid(ns)
    ensures StampedValid(After(ns, after))
  {
    if ns != [] {
      AfterKeepsOrder(ns[1..], after);
      var rest := After(ns[1..], after);
      assert ([ns[0]] + rest)[1..] == rest;
    }
  }

  /** In key order, once one row is newer so are all that follow it. */
  lemma {:induction false} AfterAll(ns: seq<Notification>, after: Option<nat>)
    requires forall n :: n in ns ==> Newer(n, after)
    ensures After(ns, after) == ns
  {
    if ns != [] { AfterAll(ns[1..], after); }
  }

  /** Reading on from a later timestamp reads what a fresh read from there would. */
  lemma {:induction false} AfterOfAfter(ns: seq<Notification>, a: Option<nat>, b: nat)
    requires a.Some? ==> a.value <= b
    ensures After(After(ns, a), Some(b)) == After(ns, Some(b))
  {
    if ns != [] {
      AfterOfAfter(ns[1..], a, b);
      var rest := After(ns[1..], a);
      assert ([ns[0]] + rest)[1..] == rest;
    }
  }

  lemma {:induction false} StampedOrdered(ns: seq<Notification>, i: nat, j: nat)
    requires StampedValid(ns) && i < j < |ns|
    ensures Precedes(ns[i], ns[j])
  {
    if i == 0 {
      assert ns[j] == ns[1..][j - 1];
    } else {
      StampedOrdered(ns[1..], i - 1, j - 1);
    }
  }

  lemma {:induction false} StampedPrefix(ns: seq<Notification>, k: nat)
    requires StampedValid(ns) && k <= |ns|
    ensures StampedValid(ns[..k]) && StampedValid(ns[k..])
  {
    if k > 0 {
      StampedPrefix(ns[1..], k - 1);
      assert ns[..k][1..] == ns[1..][..k - 1] && ns[k..] == ns[1..][k - 1..];
    }
  }

  /** The highest timestamp of a batch in key order is that of its last row. */
  lemma {:induction false} HighestIsLast(ns: seq<Notification>)
    requires StampedValid(ns) && ns != []
    ensures Highest(ns) == ns[|ns| - 1].sortkey && Highest(ns).Some?
  {
    if |ns| > 1 {
      HighestIsLast(ns[1..]);
      StampedOrdered(ns, 0, |ns| - 1);
    }
  }

  /** After reading the batch that ends at its highest timestamp, the rows left are
      those beyond the batch, unless the batch limit cuts through equal timestamps. */
  lemma {:induction false} BatchThenRest(rows: seq<Notification>, k: nat)
    requires StampedValid(rows) && 0 < k <= |rows|
    requires k < |rows| ==> rows[k].sortkey != rows[k - 1].sortkey
    ensures Highest(rows[..k]).Some?
    ensures After(rows, Highest(rows[..k])) == rows[k..]
  {
    StampedPrefix(rows, k);
    HighestIsLast(rows[..k]);
    var h := rows[k - 1].sortkey;
    forall n | n in rows[k..] ensures Newer(n, h) {
      var j :| k <= j < |rows| && rows[j] == n;
      StampedOrdered(rows, k - 1, j);
      if j > k { StampedOrdered(rows, k, j); StampedOrdered(rows, k - 1, k); }
      else { StampedOrdered(rows, k - 1, k); }
    }
    forall n | n in rows[..k] ensures !Newer(n, h) {
      var j :| 0 <= j < k && rows[j] == n;
      if j < k - 1 { StampedOrdered(rows, j, k - 1); }
    }
    AfterSplit(rows[..k], rows[k..], h);
    assert rows == rows[..k] + rows[k..];
  }

  lemma {:induction false} AfterSplit(a: seq<Notification>, b: seq<Notification>, after: Option<nat>)
    requires forall n :: n in a ==> !Newer(n, after)
    requires forall n :: n in b ==> Newer(n, after)
    ensures After(a + b, after) == b
  {
    if a == [] {
      assert a + b == b;
      AfterAll(b, after);
    } else {
      assert (a + b)[1..] == a[1..] + b;
      AfterSplit(a[1..], b, after);
    }
  }

  /** Whether the batch limit cuts through rows with one timestamp. */
  predicate SplitsTie(st: Store, after: Option<nat>, limit: nat) {
    var rows := After(st.stamped, after);
    0 < limit < |rows| && rows[limit].sortkey == rows[limit - 1].sortkey
  }

  /** What the timestamp a batch reports is worth: every row after `after` and at
      or below it is in the batch. */
  ghost predicate BatchComplete(st: Store, after: Option<nat>, limit: nat) {
    var r := FetchTimestampMessages(st, after, limit);
    forall n :: n in st.stamped && Newer(n, after) && !Newer(n, r.timestamp) ==> n in r.messages
  }

  lemma SplitIsIncomplete(st: Store, after: Option<nat>, limit: nat)
    requires StampedValid(st.stamped) && SplitsTie(st, after, limit)
    ensures !BatchComplete(st, after, limit)
  {
    var rows := After(st.stamped, after);
    AfterKeepsOrder(st.stamped, after);
    StampedPrefix(rows, limit);
    HighestIsLast(rows[..limit]);
    forall j | 0 <= j < limit ensures rows[j] != rows[limit] { StampedOrdered(rows, j, limit); }
    assert rows[limit] in rows;
  }

  /** A batch is complete exactly when its limit does not cut through equal timestamps. */
  lemma BatchCompleteIffNoSplit(st: Store, after: Option<nat>, limit: nat)
    requires StampedValid(st.stamped) && limit > 0
    ensures BatchComplete(st, after, limit) <==> !SplitsTie(st, after, limit)
  {
    var rows := After(st.stamped, after);
    if SplitsTie(st, after, limit) {
      SplitIsIncomplete(st, after, limit);
    } else if |rows| > limit {
      AfterKeepsOrder(st.stamped, after);
      BatchThenRest(rows, limit);
      forall n | n in st.stamped && Newer(n, after) && !Newer(n, Highest(rows[..limit]))
        ensures n in rows[..limit]
      {
        assert n in rows;
        NotAfter(rows, limit, n);
      }
    }
  }

  lemma NotAfter(rows: seq<Notification>, k: nat, n: Notification)
    requires k <= |rows| && n in rows
    requires After(rows, Highest(rows[..k])) == rows[k..]
    requires !Newer(n, Highest(rows[..k]))
    ensures n in rows[..k]
  {
    assert n !in rows[k..];
  }
}
