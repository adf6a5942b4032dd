/** One user's rows as the databases keep them, in the order of their printed keys, and the proof that
    reading them by ranges of keys is what `Storage` says. */
module Partitions {
  import opened Notifications
  import opened Text
  import opened SortKeys
  import opened KeyOrder
  import opened Storage
  import opened RangeQueries
  import Records
  import Sessions

  datatype Row = Registry(currentTimestamp: Option<nat>) | Message(n: Notification)

  function RowKey(row: Row): string {
    match row
    case Registry(_) => " "
    case Message(n) => ChidMessageId(n, 0)
  }

  function Messages(ns: seq<Notification>): (rows: seq<Row>)
    ensures |rows| == |ns|
  {
    if ns == [] then [] else [Message(ns[0])] + Messages(ns[1..])
  }

  function Head(st: Store): seq<Row> {
    if st.backend.DynamoDb? && st.registry then [Registry(st.pointer)] else []
  }

  function Rows(st: Store): seq<Row> {
    Head(st) + (Messages(st.topics) + Messages(st.stamped))
  }

  // ------------------------------------------------------------------- order

  /** Strictly in key order. */
  ghost predicate InKeyOrder(rows: seq<Row>) {
    rows != [] ==>
    && (forall r :: r in rows[1..] ==> StrLess(RowKey(rows[0]), RowKey(r)))
    && InKeyOrder(rows[1..])
  }

  /** Topic rows in key order. */
  ghost predicate TopicsSorted(ns: seq<Notification>) {
    ns != [] ==> (forall n :: n in ns[1..] ==> TopicPrecedes(ns[0], n)) && TopicsSorted(ns[1..])
  }

  ghost predicate SameWidth(ns: seq<Notification>, w: nat) {
    forall n :: n in ns && n.sortkey.Some? ==> Width(n.sortkey.value) == w
  }

  lemma TopicPrints(a: Notification, b: Notification)
    requires IsTopic(a) && IsTopic(b) && TopicPrecedes(a, b)
    ensures StrLess(ChidMessageId(a, 0), ChidMessageId(b, 0))
  {
    var x, y := Hyphenated(a.channelId), Hyphenated(b.channelId);
    UuidOrder(a.channelId, b.channelId);
    SamePrefix(":", a.topic.value, b.topic.value);
    EqualLength(x, y, ":" + a.topic.value, ":" + b.topic.value);
    assert x + ":" + a.topic.value == x + (":" + a.topic.value);
    assert y + ":" + b.topic.value == y + (":" + b.topic.value);
    SamePrefix("01:", x + ":" + a.topic.value, y + ":" + b.topic.value);
  }

  lemma StampedPrints(a: Notification, b: Notification)
    requires IsStamped(a) && IsStamped(b) && Precedes(a, b)
    requires Width(a.sortkey.value) == Width(b.sortkey.value)
    ensures StrLess(ChidMessageId(a, 0), ChidMessageId(b, 0))
  {
    var s, t := a.sortkey.value, b.sortkey.value;
    UuidOrder(a.channelId, b.channelId);
    SamePrefix(":", Hyphenated(a.channelId), Hyphenated(b.channelId));
    DecimalOrder(s, t);
    EqualLength(Decimal(s), Decimal(t), ":" + Hyphenated(a.channelId), ":" + Hyphenated(b.channelId));
    SamePrefix("02:", Decimal(s) + (":" + Hyphenated(a.channelId)), Decimal(t) + (":" + Hyphenated(b.channelId)));
    StampedText(a);
    StampedText(b);
  }

  lemma StampedText(n: Notification)
    requires IsStamped(n)
    ensures ChidMessageId(n, 0) == "02:" + (Decimal(n.sortkey.value) + (":" + Hyphenated(n.channelId)))
  {
    assert Decimal(n.sortkey.value) + ":" + Hyphenated(n.channelId)
        == Decimal(n.sortkey.value) + (":" + Hyphenated(n.channelId));
  }

  lemma TopicBeforeStamped(a: Notification, b: Notification)
    requires IsTopic(a) && IsStamped(b)
    ensures StrLess(ChidMessageId(a, 0), ChidMessageId(b, 0))
  {
    PrintIsTagged(KeyOf(a, 0));
    PrintIsTagged(KeyOf(b, 0));
    TagDecides('1', ":" + RestOf(KeyOf(a, 0)), '2', ":" + RestOf(KeyOf(b, 0)));
  }

  lemma {:induction false} MessagesMembers(ns: seq<Notification>)
    ensures forall r :: r in Messages(ns) <==> r.Message? && r.n in ns
  {
    if ns != [] { MessagesMembers(ns[1..]); }
  }

  lemma {:induction false} TopicRowsInOrder(ns: seq<Notification>)
    requires TopicsValid(ns) && TopicsSorted(ns)
    ensures InKeyOrder(Messages(ns))
  {
    if ns != [] {
      TopicRowsInOrder(ns[1..]);
      TopicsAreTopics(ns);
      MessagesMembers(ns[1..]);
      forall r | r in Messages(ns[1..])
        ensures StrLess(RowKey(Message(ns[0])), RowKey(r))
      {
        TopicPrints(ns[0], r.n);
      }
      assert Messages(ns)[1..] == Messages(ns[1..]);
    }
  }

  lemma {:induction false} StampedRowsInOrder(ns: seq<Notification>, w: nat)
    requires StampedValid(ns) && SameWidth(ns, w)
    ensures InKeyOrder(Messages(ns))
  {
    if ns != [] {
      StampedRowsInOrder(ns[1..], w);
      StampedAreStamped(ns);
      MessagesMembers(ns[1..]);
      forall r | r in Messages(ns[1..])
        ensures StrLess(RowKey(Message(ns[0])), RowKey(r))
      {
        StampedPrints(ns[0], r.n);
      }
      assert Messages(ns)[1..] == Messages(ns[1..]);
    }
  }

  lemma {:induction false} OrderOfConcat(a: seq<Row>, b: seq<Row>)
    requires InKeyOrder(a) && InKeyOrder(b)
    requires forall x, y :: x in a && y in b ==> StrLess(RowKey(x), RowKey(y))
    ensures InKeyOrder(a + b)
  {
    if a == [] {
      assert a + b == b;
    } else {
      assert (a + b)[1..] == a[1..] + b;
      OrderOfConcat(a[1..], b);
    }
  }

  /** The databases' own order, by printed keys, is the registry row, then the topics, then the
      timestamp messages by number. */
  lemma RowsInKeyOrder(st: Store, w: nat)
    requires Valid(st) && TopicsSorted(st.topics) && SameWidth(st.stamped, w)
    ensures InKeyOrder(Rows(st))
  {
    TopicRowsInOrder(st.topics);
    StampedRowsInOrder(st.stamped, w);
    TopicsAreTopics(st.topics);
    StampedAreStamped(st.stamped);
    MessagesMembers(st.topics);
    MessagesMembers(st.stamped);
    forall x, y | x in Messages(st.topics) && y in Messages(st.stamped)
      ensures StrLess(RowKey(x), RowKey(y))
    {
      TopicBeforeStamped(x.n, y.n);
    }
    OrderOfConcat(Messages(st.topics), Messages(st.stamped));
    forall x, y | x in Head(st) && y in Messages(st.topics) + Messages(st.stamped)
      ensures StrLess(RowKey(x), RowKey(y))
    {
      TopicRangeIs(st.backend, KeyOf(y.n, 0));
    }
    OrderOfConcat(Head(st), Messages(st.topics) + Messages(st.stamped));
  }

  // ----------------------------------------------------------------- queries

  datatype Query = TopicQuery | TimestampQuery(after: Option<nat>)

  predicate Selects(backend: Backend, q: Query, row: Row) {
    match q
    case TopicQuery => InTopicRange(backend, RowKey(row))
    case TimestampQuery(after) => InTimestampRange(backend, after, RowKey(row))
  }

  /** The rows a query selects, in key order. */
  function Select(backend: Backend, q: Query, rows: seq<Row>): seq<Row>
    decreases rows
  {
    if rows == [] then []
    else if Selects(backend, q, rows[0]) then [rows[0]] + Select(backend, q, rows[1..])
    else Select(backend, q, rows[1..])
  }

  /** The messages among the rows; the registry row does not parse as one. */
  function Notifs(rows: seq<Row>): seq<Notification> {
    if rows == [] then []
    else if rows[0].Message? then [rows[0].n] + Notifs(rows[1..])
    else Notifs(rows[1..])
  }

  function FetchTopics(backend: Backend, rows: seq<Row>, limit: nat): FetchResponse {
    var items := Take(Select(backend, TopicQuery, rows), limit);
    match backend
    case BigTable => FetchResponse(None, Notifs(items))
    case DynamoDb =>
      if items == [] then FetchResponse(None, [])
      else FetchResponse(if items[0].Registry? then items[0].currentTimestamp else None, Notifs(items[1..]))
  }

  /** DynamoDB reports the greatest timestamp of a batch, Bigtable the last. */
  function Report(backend: Backend, messages: seq<Notification>): FetchResponse {
    FetchResponse(
      match backend
      case DynamoDb => Highest(messages)
      case BigTable => if messages == [] then None else messages[|messages| - 1].sortkey,
      messages)
  }

  function FetchTimestamps(backend: Backend, rows: seq<Row>, after: Option<nat>, limit: nat): FetchResponse {
    Report(backend, Notifs(Take(Select(backend, TimestampQuery(after), rows), limit)))
  }

  lemma {:induction false} SelectOfConcat(backend: Backend, q: Query, a: seq<Row>, b: seq<Row>)
    ensures Select(backend, q, a + b) == Select(backend, q, a) + Select(backend, q, b)
    decreases a
  {
    if a == [] {
      assert a + b == b;
    } else {
      assert (a + b)[1..] == a[1..] + b;
      SelectOfConcat(backend, q, a[1..], b);
    }
  }

  lemma {:induction false} SelectAll(backend: Backend, q: Query, rows: seq<Row>)
    requires forall r :: r in rows ==> Selects(backend, q, r)
    ensures Select(backend, q, rows) == rows
    decreases rows
  {
    if rows != [] { SelectAll(backend, q, rows[1..]); }
  }

  lemma {:induction false} SelectNone(backend: Backend, q: Query, rows: seq<Row>)
    requires forall r :: r in rows ==> !Selects(backend, q, r)
    ensures Select(backend, q, rows) == []
    decreases rows
  {
    if rows != [] { SelectNone(backend, q, rows[1..]); }
  }

  lemma {:induction false} NotifsOfMessages(ns: seq<Notification>)
    ensures Notifs(Messages(ns)) == ns
  {
    if ns != [] {
      NotifsOfMessages(ns[1..]);
      assert Messages(ns)[1..] == Messages(ns[1..]);
    }
  }

  lemma {:induction false} MessagesPrefix(ns: seq<Notification>, k: nat)
    requires k <= |ns|
    ensures Messages(ns)[..k] == Messages(ns[..k])
  {
    if k > 0 {
      MessagesPrefix(ns[1..], k - 1);
      assert ns[..k][1..] == ns[1..][..k - 1];
    }
  }

  lemma TakeMessages(ns: seq<Notification>, limit: nat)
    ensures Notifs(Take(Messages(ns), limit)) == Take(ns, limit)
  {
    if |ns| > limit { MessagesPrefix(ns, limit); }
    NotifsOfMessages(Take(ns, limit));
  }

  lemma TopicRows(st: Store)
    requires Valid(st)
    ensures Select(st.backend, TopicQuery, Rows(st)) == Head(st) + Messages(st.topics)
  {
    var b := st.backend;
    TopicsAreTopics(st.topics);
    StampedAreStamped(st.stamped);
    MessagesMembers(st.topics);
    MessagesMembers(st.stamped);
    forall r | r in Messages(st.topics) + Messages(st.stamped)
      ensures Selects(b, TopicQuery, r) <==> r in Messages(st.topics)
    {
      TopicRangeIs(b, KeyOf(r.n, 0));
    }
    TopicRangeIs(b, TopicKey(0, ""));
    SelectAll(b, TopicQuery, Head(st));
    SelectAll(b, TopicQuery, Messages(st.topics));
    SelectNone(b, TopicQuery, Messages(st.stamped));
    SelectOfConcat(b, TopicQuery, Messages(st.topics), Messages(st.stamped));
    SelectOfConcat(b, TopicQuery, Head(st), Messages(st.topics) + Messages(st.stamped));
  }

  lemma HeadThen(st: Store, limit: nat)
    requires limit > 0 && Head(st) != []
    ensures Take(Head(st) + Messages(st.topics), limit) == Head(st) + Take(Messages(st.topics), limit - 1)
  {
  }

  /** The topic query over printed keys reads what `Storage` says. */
  lemma {:induction false} TopicQueryRefines(st: Store, limit: nat)
    requires Valid(st) && limit > 0
    ensures FetchTopics(st.backend, Rows(st), limit) == FetchTopicMessages(st, limit)
  {
    TopicRows(st);
    if Head(st) != [] {
      HeadThen(st, limit);
      TakeMessages(st.topics, limit - 1);
      assert (Head(st) + Take(Messages(st.topics), limit - 1))[1..] == Take(Messages(st.topics), limit - 1);
    } else {
      assert Head(st) + Messages(st.topics) == Messages(st.topics);
      TakeMessages(st.topics, limit);
      if st.topics != [] { DropFirst(Take(Messages(st.topics), limit), Take(st.topics, limit)); }
    }
  }

  lemma DropFirst(rows: seq<Row>, ns: seq<Notification>)
    requires rows != [] && rows[0].Message? && Notifs(rows) == ns
    ensures ns != [] && Notifs(rows[1..]) == ns[1..]
  {
  }

  /** The timestamp after which a row is to be read compares with the row's own, digit by digit. */
  ghost predicate AllComparable(ns: seq<Notification>, after: Option<nat>) {
    forall n :: n in ns && n.sortkey.Some? && after.Some? ==> Comparable(after.value, n.sortkey.value)
  }

  lemma RowSelectedIff(backend: Backend, n: Notification, after: Option<nat>)
    requires IsStamped(n) && (after.Some? ==> Comparable(after.value, n.sortkey.value))
    ensures Selects(backend, TimestampQuery(after), Message(n)) <==> Newer(n, after)
  {
    if after.Some? {
      QueryIsNumericIff(backend, after.value, n.sortkey.value, n.channelId);
    } else {
      WholeTimestampRangeIs(backend, KeyOf(n, 0));
    }
  }

  lemma {:induction false} StampedRows(backend: Backend, ns: seq<Notification>, after: Option<nat>)
    requires StampedValid(ns) && AllComparable(ns, after)
    ensures Select(backend, TimestampQuery(after), Messages(ns)) == Messages(After(ns, after))
    decreases ns
  {
    if ns != [] {
      StampedRows(backend, ns[1..], after);
      RowSelectedIff(backend, ns[0], after);
      SelectOne(backend, TimestampQuery(after), ns[0], Messages(ns[1..]));
      MessagesOne(ns[0], After(ns[1..], after));
    }
  }

  lemma SelectOne(backend: Backend, q: Query, n: Notification, rows: seq<Row>)
    ensures Select(backend, q, [Message(n)] + rows)
         == if Selects(backend, q, Message(n)) then [Message(n)] + Select(backend, q, rows)
            else Select(backend, q, rows)
  {
    assert ([Message(n)] + rows)[1..] == rows;
  }

  lemma MessagesOne(n: Notification, ns: seq<Notification>)
    ensures Messages([n] + ns) == [Message(n)] + Messages(ns)
  {
    assert ([n] + ns)[1..] == ns;
  }

  lemma OthersNotSelected(st: Store, after: Option<nat>)
    requires Valid(st)
    ensures Select(st.backend, TimestampQuery(after), Head(st) + Messages(st.topics)) == []
  {
    TopicsAreTopics(st.topics);
    MessagesMembers(st.topics);
    forall r | r in Head(st) + Messages(st.topics)
      ensures !Selects(st.backend, TimestampQuery(after), r)
    {
      var key := if r.Message? then KeyOf(r.n, 0) else TopicKey(0, "");
      WholeTimestampRangeIs(st.backend, key);
      if after.Some? { TimestampRangeIs(st.backend, after.value, key); }
    }
    SelectNone(st.backend, TimestampQuery(after), Head(st) + Messages(st.topics));
  }

  lemma Associates<T>(a: seq<T>, b: seq<T>, c: seq<T>)
    ensures a + (b + c) == (a + b) + c
  {
  }

  lemma NothingThen<T>(a: seq<T>)
    ensures [] + a == a
  {
  }

  lemma TimestampRows(st: Store, after: Option<nat>)
    requires Valid(st) && AllComparable(st.stamped, after)
    ensures Select(st.backend, TimestampQuery(after), Rows(st)) == Messages(After(st.stamped, after))
  {
    var others := Head(st) + Messages(st.topics);
    OthersNotSelected(st, after);
    StampedRows(st.backend, st.stamped, after);
    SelectOfConcat(st.backend, TimestampQuery(after), others, Messages(st.stamped));
    Associates(Head(st), Messages(st.topics), Messages(st.stamped));
    NothingThen(Messages(After(st.stamped, after)));
  }

  lemma TakeKeepsOrder(ns: seq<Notification>, limit: nat)
    requires StampedValid(ns)
    ensures StampedValid(Take(ns, limit))
  {
    if |ns| > limit { StampedPrefix(ns, limit); }
  }

  /** What either database reports as a batch's timestamp is the greatest in it. */
  lemma EitherReports(backend: Backend, batch: seq<Notification>)
    requires StampedValid(batch)
    ensures Report(backend, batch) == FetchResponse(Highest(batch), batch)
  {
    if batch != [] { HighestIsLast(batch); }
  }

  /** The timestamp query over printed keys reads what `Storage` says, on either database, when its
      timestamp is comparable with those of the rows. */
  lemma {:induction false} TimestampQueryRefines(st: Store, after: Option<nat>, limit: nat)
    requires Valid(st) && AllComparable(st.stamped, after)
    ensures FetchTimestamps(st.backend, Rows(st), after, limit) == FetchTimestampMessages(st, after, limit)
  {
    TimestampRows(st, after);
    TakeMessages(After(st.stamped, after), limit);
    AfterKeepsOrder(st.stamped, after);
    TakeKeepsOrder(After(st.stamped, after), limit);
    EitherReports(st.backend, Take(After(st.stamped, after), limit));
  }

  // -------------------------------------------------- topics stay in order

  lemma {:induction false} WithoutKeepsSorted(ns: seq<Notification>, key: Key)
    requires TopicsSorted(ns)
    ensures TopicsSorted(Without(ns, key))
  {
    if ns != [] {
      WithoutKeepsSorted(ns[1..], key);
      WithoutMembers(ns[1..], key);
      assert ([ns[0]] + Without(ns[1..], key))[1..] == Without(ns[1..], key);
    }
  }

  lemma TopicOrder(a: Notification, b: Notification, c: Notification)
    requires IsTopic(a) && IsTopic(b) && IsTopic(c)
    ensures TopicPrecedes(a, b) || KeyOf(a, 0) == KeyOf(b, 0) || TopicPrecedes(b, a)
    ensures TopicPrecedes(a, b) && TopicPrecedes(b, c) ==> TopicPrecedes(a, c)
  {
    StrLessTotal(a.topic.value, b.topic.value);
    if StrLess(a.topic.value, b.topic.value) && StrLess(b.topic.value, c.topic.value) {
      StrLessTransitive(a.topic.value, b.topic.value, c.topic.value);
    }
  }

  lemma {:induction false} PlaceKeepsSorted(ns: seq<Notification>, n: Notification)
    requires TopicsSorted(ns) && IsTopic(n)
    requires forall m :: m in ns ==> IsTopic(m) && KeyOf(m, 0) != KeyOf(n, 0)
    ensures TopicsSorted(Place(ns, n))
  {
    if ns != [] {
      PlaceKeepsSorted(ns[1..], n);
      PlaceMembers(ns[1..], n);
      TopicOrder(n, ns[0], n);
      var r := Place(ns, n);
      assert r[1..] == if TopicPrecedes(n, ns[0]) then ns else Place(ns[1..], n);
      forall m | m in r[1..]
        ensures TopicPrecedes(r[0], m)
      {
        if TopicPrecedes(n, ns[0]) { TopicOrder(n, ns[0], m); }
      }
    }
  }

  /** Saving a message keeps the topics in key order, and so does removing one. */
  lemma SaveKeepsSorted(st: Store, n: Notification, key: Key)
    requires Valid(st) && TopicsSorted(st.topics) && (IsTopic(n) || IsStamped(n))
    ensures TopicsSorted(SaveMessage(st, n).topics) && TopicsSorted(RemoveMessage(st, key).topics)
  {
    WithoutKeepsSorted(st.topics, key);
    if IsTopic(n) {
      WithoutKeepsSorted(st.topics, KeyOf(n, 0));
      WithoutMembers(st.topics, KeyOf(n, 0));
      TopicsAreTopics(st.topics);
      PlaceKeepsSorted(Without(st.topics, KeyOf(n, 0)), n);
    }
  }

  // ------------------------------------------- rows saved when a session ends

  /** Of the direct notifications saved together when a session ends, two fall on one row exactly when
      they are of one channel and of one topic, or of no topic and saved in one millisecond. */
  lemma SavedRowsCollideIff(direct: seq<Notification>, i: nat, j: nat, msI: nat, msJ: nat)
    requires i < |direct| && j < |direct|
    requires Storable(KeyOf(Sessions.Saved(direct)[i], msI)) && Storable(KeyOf(Sessions.Saved(direct)[j], msJ))
    ensures ChidMessageId(Sessions.Saved(direct)[i], msI) == ChidMessageId(Sessions.Saved(direct)[j], msJ) <==>
            direct[i].channelId == direct[j].channelId && direct[i].topic == direct[j].topic &&
            (direct[i].topic.None? ==> msI == msJ)
  {
    var a, b := KeyOf(Sessions.Saved(direct)[i], msI), KeyOf(Sessions.Saved(direct)[j], msJ);
    if Print(a) == Print(b) { PrintIsInjective(a, b); }
  }

  /** What is saved when a session ends is the notification itself: read back it has all its contents, the
      known ones of its headers, and the time of its saving as its sort timestamp unless it has a topic. It
      can be read back exactly if its topic can be a key or, without a topic, if the time fits. */
  lemma SavedIsReadBackIff(uaid: Uuid, direct: seq<Notification>, i: nat, nowSec: nat, nowMs: nat)
    requires i < |direct|
    ensures var n := direct[i];
      Records.IntoNotif(Records.FromNotif(uaid, Sessions.Saved(direct)[i], nowSec, nowMs))
      == SortKeys.Ok(Notification(
           n.channelId, n.version, n.ttl, n.topic, n.timestamp, n.data,
           if n.topic.Some? then None else Some(nowMs),
           if n.headers.None? then None
           else Some(map key | key in n.headers.value && key in Records.KNOWN_HEADERS :: n.headers.value[key])))
      <==> if n.topic.Some? then Word(n.topic.value) else nowMs < U64_LIMIT
  {
    Records.RecordRoundTripIff(uaid, Sessions.Saved(direct)[i], nowSec, nowMs);
  }
}
