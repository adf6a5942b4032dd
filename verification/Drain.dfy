/** Reading out a fixed store, in the first exchange of a session and in every later one: a client
    that acks what it is sent, in any order and grouping, receives every unexpired stored message
    exactly once, topics first. */
module Drain {
  import opened Notifications
  import opened Storage
  import opened Sessions
  import opened PointerSafety
  import opened PointerLimits
  import Consistency

  /** Where timestamp reads start after the topics are read. */
  function StartMark(s: Session, st: Store): Option<nat> {
    Or(FetchTopicMessages(st, TOPIC_LIMIT).timestamp, s.currentTimestamp)
  }

  /** What the user is owed: the unexpired topic messages, and the unexpired timestamp messages after
      the persisted pointer. */
  function Owed(st: Store, now: nat): seq<Notification> {
    Live(st.topics, now) + Live(After(st.stamped, st.pointer), now)
  }

  /** How far a conversation got, and all that was sent in it. */
  datatype Progressed = Progressed(s: Session, st: Store, sent: seq<Notification>, failed: Option<SMError>)

  function Add(sent: seq<Notification>, r: (Session, Store, Outcome)): Progressed {
    match r.2
    case Sent(notifs) => Progressed(r.0, r.1, sent + notifs, None)
    case Failed(error) => Progressed(r.0, r.1, sent, Some(error))
  }

  /** The session receives ack messages until one ends it. */
  function Converse(p: Progressed, now: nat, acks: seq<seq<ClientAck>>): (r: Progressed)
    requires Valid(p.st)
    ensures Valid(r.st)
    decreases acks
  {
    if acks == [] || p.failed.Some? then p
    else Converse(Add(p.sent, Ack(p.s, p.st, acks[0], now)), now, acks[1..])
  }

  /** The store of the drain theorem: no two timestamp messages share a timestamp, and
      DynamoDB has its registry row. */
  ghost predicate Regular(st: Store) {
    && Valid(st)
    && (forall i, j :: 0 <= i < j < |st.stamped| ==> st.stamped[i].sortkey != st.stamped[j].sortkey)
    && (st.backend.DynamoDb? ==> st.registry)
  }

  /** What is still to be sent. Unacked topics are the first rows of the topic table. */
  function Pending(s: Session, st: Store, now: nat): seq<Notification> {
    if !s.flags.checkStorage then []
    else if s.flags.includeTopic then
      (if |s.ack.unackedStored| <= |st.topics| then Live(st.topics[|s.ack.unackedStored|..], now) else [])
      + Live(After(st.stamped, StartMark(s, st)), now)
    else Live(Unread(s, st), now)
  }

  ghost predicate Reading(s: Session, st: Store) {
    && Regular(st)
    && s.ack.unackedDirect == []
    && (s.flags.incrementStorage ==> !s.flags.includeTopic && s.ack.unackedStoredHighest.Some?)
    && (s.flags.checkStorage && s.flags.includeTopic ==> s.ack.unackedStored <= st.topics)
    && (!s.flags.includeTopic ==> forall n :: n in s.ack.unackedStored ==> n.sortkey.Some?)
    && PointerKept(s, st)
  }

  /** A session holds the persisted pointer, or none where its reads bring the pointer along. */
  predicate PointerHeld(s: Session, st: Store) {
    s.currentTimestamp == st.pointer || (s.currentTimestamp.None? && st.backend.DynamoDb?)
  }

  /** The session starts from the persisted pointer, and is ahead of it only while an
      increment is flagged. */
  predicate PointerKept(s: Session, st: Store) {
    && PointerHeld(s, st)
    && (s.flags.includeTopic ==> StartMark(s, st) == st.pointer)
    && (!s.flags.includeTopic ==>
          st.topics == [] && (!s.flags.incrementStorage ==> s.ack.unackedStoredHighest == st.pointer))
  }

  /** What a session is set up with and never changes. */
  predicate SameTerms(a: Session, b: Session) {
    a.msgLimit == b.msgLimit && a.flags.oldRecordVersion == b.flags.oldRecordVersion
  }

  /** Nothing is left to read or to write, and the count of sent messages starts again. */
  predicate AtRest(s: Session, st: Store) {
    && !s.flags.includeTopic && !s.flags.incrementStorage && s.sentFromStorage == 0
    && st.topics == [] && After(st.stamped, st.pointer) == []
  }

  /** An exchange that has not failed. */
  ghost predicate InExchange(s: Session, st: Store, sent: seq<Notification>, owed: seq<Notification>, now: nat) {
    && Reading(s, st) && owed == sent + Pending(s, st, now) && |sent| <= s.msgLimit
    && (s.flags.checkStorage ==> s.ack.unackedStored != [] && s.sentFromStorage == |sent|)
    && (!s.flags.checkStorage ==> s.ack.unackedStored == [] && sent == owed && AtRest(s, st))
  }

  /** An exchange that has failed: the user was owed too much, or has a record of an old version and
      was sent everything. */
  predicate Reset(s: Session, sent: seq<Notification>, owed: seq<Notification>, error: SMError) {
    && error == UaidReset && sent <= owed && |sent| <= s.msgLimit
    && (|owed| > s.msgLimit || (s.flags.oldRecordVersion && sent == owed))
  }

  /** The state between two messages of the client. A session with an old record version comes to rest
      only if there was nothing to send. */
  ghost predicate DrainInv(p: Progressed, owed: seq<Notification>, now: nat) {
    && Valid(p.st)
    && match p.failed
       case Some(error) => Reset(p.s, p.sent, owed, error)
       case None =>
         && InExchange(p.s, p.st, p.sent, owed, now)
         && (p.s.flags.oldRecordVersion && !p.s.flags.checkStorage ==> owed == [])
  }

  // ------------------------------------------------------------ one read

  function WithoutAll(ns: seq<Notification>, gone: seq<Notification>): seq<Notification>
    decreases gone
  {
    if gone == [] then ns else WithoutAll(Without(ns, KeyOf(gone[0], 0)), gone[1..])
  }

  lemma {:induction false} RemoveAllTopics(st: Store, gone: seq<Notification>)
    ensures RemoveAll(st, gone).topics == WithoutAll(st.topics, gone)
    decreases gone
  {
    if gone != [] { RemoveAllTopics(RemoveMessage(st, KeyOf(gone[0], 0)), gone[1..]); }
  }

  lemma {:induction false} WithoutAllKeepsHead(n: Notification, ns: seq<Notification>, gone: seq<Notification>)
    requires forall m :: m in gone ==> KeyOf(m, 0) != KeyOf(n, 0)
    ensures WithoutAll([n] + ns, gone) == [n] + WithoutAll(ns, gone)
    decreases gone
  {
    if gone != [] {
      assert ([n] + ns)[1..] == ns;
      WithoutAllKeepsHead(n, Without(ns, KeyOf(gone[0], 0)), gone[1..]);
    }
  }

  lemma KeptHead(n: Notification, ns: seq<Notification>, gone: seq<Notification>)
    requires forall m :: m in ns ==> KeyOf(m, 0) != KeyOf(n, 0)
    requires forall m :: m in gone ==> m in ns
    ensures WithoutAll([n] + ns, gone) == [n] + WithoutAll(ns, gone)
  {
    WithoutAllKeepsHead(n, ns, gone);
  }

  lemma ExpiredHead(n: Notification, ns: seq<Notification>, gone: seq<Notification>)
    requires forall m :: m in ns ==> KeyOf(m, 0) != KeyOf(n, 0)
    ensures WithoutAll([n] + ns, [n] + gone) == WithoutAll(ns, gone)
  {
    WithoutAbsent(ns, KeyOf(n, 0));
    assert ([n] + ns)[1..] == ns && ([n] + gone)[1..] == gone;
  }

  lemma {:induction false} RemoveExpiredOf(a: seq<Notification>, b: seq<Notification>, now: nat)
    requires TopicsValid(a + b)
    ensures WithoutAll(a + b, ExpiredTopics(a, now)) == Live(a, now) + b
    decreases |a|
  {
    if a == [] {
      assert a + b == b;
    } else {
      var ns := a[1..] + b;
      assert (a + b)[1..] == ns && a + b == [a[0]] + ns;
      RemoveExpiredOf(a[1..], b, now);
      if Expired(a[0], now) {
        ExpiredHead(a[0], ns, ExpiredTopics(a[1..], now));
      } else {
        KeptHead(a[0], ns, ExpiredTopics(a[1..], now));
        assert [a[0]] + (Live(a[1..], now) + b) == Live(a, now) + b;
      }
    }
  }

  /** Deleting the expired messages of the first `k` rows leaves the rest of the table. */
  lemma RemoveExpired(ns: seq<Notification>, k: nat, now: nat)
    requires TopicsValid(ns) && k <= |ns|
    ensures WithoutAll(ns, ExpiredTopics(ns[..k], now)) == Live(ns[..k], now) + ns[k..]
  {
    assert ns[..k] + ns[k..] == ns;
    RemoveExpiredOf(ns[..k], ns[k..], now);
  }

  /** The read sent what came first of what was pending, or found only expired ones. */
  ghost predicate ReadInOrder(s: Session, st: Store, now: nat) {
    var (s1, st1, sent) := Advance(s, st, now);
    InOrder(s, st, s1, st1, sent, now)
  }

  ghost predicate InOrder(s: Session, st: Store, s1: Session, st1: Store, sent: seq<Notification>, now: nat) {
    && Reading(s1, st1) && s1.ack.unackedStored == sent
    && Pending(s, st, now) == sent + Pending(s1, st1, now)
    && (sent != [] ==> s1.flags.checkStorage && s1.sentFromStorage == s.sentFromStorage + |sent|)
    && (sent == [] && s1.flags.checkStorage ==> s1.sentFromStorage == s.sentFromStorage)
    && (!s1.flags.checkStorage ==> !s1.flags.includeTopic && Unread(s1, st1) == [] && s1.sentFromStorage == 0)
    && SameTerms(s1, s)
  }

  lemma ReadTopics(s: Session, st: Store, now: nat)
    requires Reading(s, st) && s.flags.checkStorage && s.flags.includeTopic
    requires s.ack.unackedStored == [] && st.topics != []
    ensures ReadInOrder(s, st, now)
  {
    TopicRead(s, st, now);
    TopicBatch(st, now);
    AdvanceKeepsStamped(s, st, now);
    var (s1, st1, sent) := Advance(s, st, now);
    TopicsInOrder(s, st, s1, st1, sent, |FetchTopicMessages(st, TOPIC_LIMIT).messages|, now);
  }

  /** The state after a batch of topics was read: those sent are the first rows of the topic table. */
  ghost predicate TopicsTaken(s: Session, st: Store, s1: Session, st1: Store, sent: seq<Notification>) {
    && s1.flags == s.flags.(incrementStorage := false)
    && s1.ack.unackedStored == sent && s1.ack.unackedDirect == s.ack.unackedDirect
    && s1.currentTimestamp == s.currentTimestamp && s1.msgLimit == s.msgLimit
    && s1.sentFromStorage == s.sentFromStorage + |sent|
    && Valid(st1) && st1.stamped == st.stamped && st1.backend == st.backend
    && st1.registry == st.registry && st1.pointer == st.pointer
    && sent <= st1.topics
  }

  lemma TopicsKeepReading(s: Session, st: Store, s1: Session, st1: Store, sent: seq<Notification>)
    requires Reading(s, st) && s.flags.checkStorage && s.flags.includeTopic
    requires TopicsTaken(s, st, s1, st1, sent)
    ensures Reading(s1, st1)
    ensures StartMark(s1, st1) == StartMark(s, st)
  {
    assert Regular(st1);
  }

  lemma Regroup<T>(all: seq<T>, a: seq<T>, b: seq<T>, c: seq<T>)
    requires all == a + b
    ensures all + c == a + (b + c)
  {
  }

  lemma Associates<T>(a: seq<T>, b: seq<T>, c: seq<T>)
    ensures a + (b + c) == (a + b) + c
  {
  }

  lemma PendingTopics(s: Session, st: Store, now: nat)
    requires s.flags.checkStorage && s.flags.includeTopic && |s.ack.unackedStored| <= |st.topics|
    ensures Pending(s, st, now)
         == Live(st.topics[|s.ack.unackedStored|..], now) + Live(After(st.stamped, StartMark(s, st)), now)
  {
  }

  lemma TopicsPending(s: Session, st: Store, s1: Session, st1: Store, sent: seq<Notification>, k: nat, now: nat)
    requires s.flags.checkStorage && s.flags.includeTopic && s.ack.unackedStored == []
    requires TopicsTaken(s, st, s1, st1, sent) && StartMark(s1, st1) == StartMark(s, st)
    requires 0 < k <= |st.topics| && st1.topics[|sent|..] == st.topics[k..]
    requires Live(st.topics, now) == sent + Live(st.topics[k..], now)
    ensures Pending(s, st, now) == sent + Pending(s1, st1, now)
  {
    PendingTopics(s, st, now);
    PendingTopics(s1, st1, now);
    assert st.topics[0..] == st.topics;
    Regroup(Live(st.topics, now), sent, Live(st.topics[k..], now), Live(After(st.stamped, StartMark(s, st)), now));
  }

  lemma TopicsInOrder(s: Session, st: Store, s1: Session, st1: Store, sent: seq<Notification>, k: nat, now: nat)
    requires Reading(s, st) && s.flags.checkStorage && s.flags.includeTopic && s.ack.unackedStored == []
    requires TopicsTaken(s, st, s1, st1, sent)
    requires 0 < k <= |st.topics| && st1.topics[|sent|..] == st.topics[k..]
    requires Live(st.topics, now) == sent + Live(st.topics[k..], now)
    ensures InOrder(s, st, s1, st1, sent, now)
  {
    TopicsKeepReading(s, st, s1, st1, sent);
    TopicsPending(s, st, s1, st1, sent, k, now);
  }

  lemma TopicRead(s: Session, st: Store, now: nat)
    requires Reading(s, st) && s.flags.checkStorage && s.flags.includeTopic
    requires s.ack.unackedStored == [] && st.topics != []
    ensures var b := FetchTopicMessages(st, TOPIC_LIMIT).messages;
            var (s1, st1, sent) := Advance(s, st, now);
            sent == Live(b, now) && st1 == RemoveAll(st, ExpiredTopics(b, now))
            && s1.flags == s.flags.(incrementStorage := false)
            && s1.ack.unackedStored == sent && s1.ack.unackedDirect == s.ack.unackedDirect
            && s1.currentTimestamp == s.currentTimestamp && s1.msgLimit == s.msgLimit
            && s1.sentFromStorage == s.sentFromStorage + |sent|
  {
    assert forall x: seq<Notification> :: [] + x == x;
  }

  lemma TopicBatch(st: Store, now: nat)
    requires Regular(st) && st.topics != []
    ensures var b := FetchTopicMessages(st, TOPIC_LIMIT).messages;
            var topics := RemoveAll(st, ExpiredTopics(b, now)).topics;
            0 < |b| <= |st.topics| && Live(b, now) <= topics
            && topics[|Live(b, now)|..] == st.topics[|b|..]
            && Live(st.topics, now) == Live(b, now) + Live(st.topics[|b|..], now)
  {
    var b := FetchTopicMessages(st, TOPIC_LIMIT).messages;
    var c := st.topics[|b|..];
    assert st.topics == b + c && b == st.topics[..|b|];
    RemoveExpired(st.topics, |b|, now);
    RemoveAllTopics(st, ExpiredTopics(b, now));
    LiveOfConcat(b, c, now);
  }

  lemma RowsDiffer(st: Store, after: Option<nat>, k: nat)
    requires Regular(st) && 0 < k < |After(st.stamped, after)|
    ensures After(st.stamped, after)[k].sortkey != After(st.stamped, after)[k - 1].sortkey
  {
    var rows := After(st.stamped, after);
    AfterKeepsOrder(st.stamped, after);
    StampedOrdered(rows, k - 1, k);
    assert rows[k] in st.stamped && rows[k - 1] in st.stamped;
  }

  /** One batch of timestamp messages, and what is after it. */
  lemma BatchSplits(st: Store, after: Option<nat>, now: nat)
    requires Regular(st)
    ensures var rows := After(st.stamped, after);
            var r := FetchTimestampMessages(st, after, TIMESTAMP_LIMIT);
            (r.messages == [] ==> rows == [])
            && (r.messages != [] ==>
                  r.timestamp.Some? && rows == r.messages + After(st.stamped, r.timestamp)
                  && Live(rows, now) == Live(r.messages, now) + Live(After(st.stamped, r.timestamp), now))
            && (forall n :: n in r.messages ==> n.sortkey.Some?)
  {
    var rows := After(st.stamped, after);
    var r := FetchTimestampMessages(st, after, TIMESTAMP_LIMIT);
    StampedAreStamped(st.stamped);
    AfterKeepsOrder(st.stamped, after);
    if r.messages != [] {
      var k := |r.messages|;
      assert r.messages == rows[..k];
      if k < |rows| { RowsDiffer(st, after, k); }
      BatchThenRest(rows, k);
      BatchShrinks(st, after);
      AfterOfAfter(st.stamped, after, r.timestamp.value);
      assert rows == rows[..k] + rows[k..];
      LiveOfConcat(rows[..k], rows[k..], now);
    }
  }

  /** What a read of timestamp messages does. */
  lemma StampedRead(s: Session, st: Store, now: nat, after: Option<nat>)
    requires Reading(s, st) && s.ack.unackedStored == []
    requires after == if s.flags.includeTopic then StartMark(s, st) else Or(s.ack.unackedStoredHighest, s.currentTimestamp)
    requires s.flags.includeTopic ==> st.topics == []
    ensures var r := FetchTimestampMessages(st, after, TIMESTAMP_LIMIT);
      Advance(s, st, now) == Receive(s, st, CheckStorageResponse(false, r.messages, Or(r.timestamp, after)), now)
      && ExpiredTopics(r.messages, now) == []
      && (r.messages != [] ==> r.timestamp.Some?)
  {
    var r := FetchTimestampMessages(st, after, TIMESTAMP_LIMIT);
    NoTopicExpired(r.messages, now);
    assert DoCheckStorage(s, st) == CheckStorageResponse(false, r.messages, Or(r.timestamp, after));
  }

  /** The state after a read of timestamp messages. */
  ghost predicate StampedTaken(s: Session, s1: Session, r: FetchResponse, after: Option<nat>, sent: seq<Notification>) {
    && SameTerms(s1, s) && s1.currentTimestamp == s.currentTimestamp
    && s1.ack == AckState(s.ack.unackedDirect, sent, Or(r.timestamp, after))
    && !s1.flags.includeTopic
    && (sent == [] || r.messages != [])
    && s1.flags.checkStorage == (s.flags.checkStorage && r.messages != [])
    && (if r.messages == [] then s1.flags.incrementStorage == s.flags.incrementStorage else s1.flags.incrementStorage)
    && s1.sentFromStorage == (if r.messages == [] then 0 else s.sentFromStorage + |sent|)
  }

  lemma StampedKeepsReading(
    s: Session, st: Store, s1: Session, r: FetchResponse, after: Option<nat>, sent: seq<Notification>)
    requires Reading(s, st) && StampedTaken(s, s1, r, after, sent)
    requires after == if s.flags.includeTopic then StartMark(s, st) else Or(s.ack.unackedStoredHighest, s.currentTimestamp)
    requires s.flags.includeTopic ==> st.topics == []
    requires r.messages != [] ==> r.timestamp.Some?
    requires r.messages == [] ==> r.timestamp.None?
    requires forall n :: n in sent ==> n.sortkey.Some?
    ensures Reading(s1, st)
  {
  }

  lemma StampedAdvance(s: Session, st: Store, now: nat, after: Option<nat>)
    requires Reading(s, st) && s.ack.unackedStored == []
    requires after == if s.flags.includeTopic then StartMark(s, st) else Or(s.ack.unackedStoredHighest, s.currentTimestamp)
    requires s.flags.includeTopic ==> st.topics == []
    ensures var (s1, st1, sent) := Advance(s, st, now);
            var r := FetchTimestampMessages(st, after, TIMESTAMP_LIMIT);
            st1 == st && sent == Live(r.messages, now) && StampedTaken(s, s1, r, after, sent)
  {
    StampedRead(s, st, now, after);
    StampedReceived(s, st, FetchTimestampMessages(st, after, TIMESTAMP_LIMIT), after, now);
  }

  lemma StampedReceived(s: Session, st: Store, r: FetchResponse, after: Option<nat>, now: nat)
    requires s.ack.unackedStored == [] && ExpiredTopics(r.messages, now) == []
    requires r.messages != [] ==> r.timestamp.Some?
    ensures var (s1, st1, sent) := Receive(s, st, CheckStorageResponse(false, r.messages, Or(r.timestamp, after)), now);
            st1 == st && sent == Live(r.messages, now) && StampedTaken(s, s1, r, after, sent)
  {
    var live := Live(r.messages, now);
    assert [] + live == live;
  }

  lemma StampedPending(s: Session, st: Store, s1: Session, r: FetchResponse, after: Option<nat>, sent: seq<Notification>, now: nat)
    requires Reading(s, st) && s.flags.checkStorage && s.ack.unackedStored == []
    requires after == if s.flags.includeTopic then StartMark(s, st) else Or(s.ack.unackedStoredHighest, s.currentTimestamp)
    requires s.flags.includeTopic ==> st.topics == []
    requires StampedTaken(s, s1, r, after, sent) && (r.messages != [] ==> r.timestamp.Some?)
    ensures Pending(s, st, now) == Live(After(st.stamped, after), now)
    ensures Pending(s1, st, now) == if r.messages == [] then [] else Live(After(st.stamped, r.timestamp), now)
  {
    assert [] + Live(After(st.stamped, after), now) == Live(After(st.stamped, after), now);
  }

  lemma ReadStamped(s: Session, st: Store, now: nat, after: Option<nat>)
    requires Reading(s, st) && s.flags.checkStorage && s.ack.unackedStored == []
    requires after == if s.flags.includeTopic then StartMark(s, st) else Or(s.ack.unackedStoredHighest, s.currentTimestamp)
    requires s.flags.includeTopic ==> st.topics == []
    ensures ReadInOrder(s, st, now)
  {
    var r := FetchTimestampMessages(st, after, TIMESTAMP_LIMIT);
    var (s1, st1, sent) := Advance(s, st, now);
    BatchSplits(st, after, now);
    StampedAdvance(s, st, now, after);
    StampedKeepsReading(s, st, s1, r, after, sent);
    StampedPending(s, st, s1, r, after, sent, now);
    StampedInOrder(s, st, s1, r, after, sent, now);
  }

  lemma StampedInOrder(s: Session, st: Store, s1: Session, r: FetchResponse, after: Option<nat>, sent: seq<Notification>, now: nat)
    requires Reading(s1, st) && s.flags.checkStorage && StampedTaken(s, s1, r, after, sent)
    requires sent == Live(r.messages, now)
    requires Pending(s, st, now) == Live(After(st.stamped, after), now)
    requires Pending(s1, st, now) == if r.messages == [] then [] else Live(After(st.stamped, r.timestamp), now)
    requires r.messages == [] ==> After(st.stamped, after) == [] && r.timestamp.None?
    requires r.messages != [] ==>
      Live(After(st.stamped, after), now) == Live(r.messages, now) + Live(After(st.stamped, r.timestamp), now)
    ensures InOrder(s, st, s1, st, sent, now)
  {
  }

  lemma ReadOnce(s: Session, st: Store, now: nat)
    requires Reading(s, st) && s.flags.checkStorage && s.ack.unackedStored == []
    ensures ReadInOrder(s, st, now)
  {
    if s.flags.includeTopic && st.topics != [] {
      ReadTopics(s, st, now);
    } else {
      ReadStamped(s, st, now,
                  if s.flags.includeTopic then StartMark(s, st)
                  else Or(s.ack.unackedStoredHighest, s.currentTimestamp));
    }
  }

  // ------------------------------------------------------------- the loop

  /** With nothing unacked, the loop sends the next messages owed, or ends: in success
      with nothing pending, in failure only when the limit is exceeded. */
  ghost predicate Looped(s: Session, st: Store, s1: Session, st1: Store, outcome: Outcome, now: nat) {
    && SameTerms(s1, s) && Valid(st1)
    && match outcome
       case Failed(error) =>
         error == UaidReset && s.flags.checkStorage
         && s.sentFromStorage + |Pending(s, st, now)| > s.msgLimit
       case Sent(notifs) =>
         && Reading(s1, st1) && s1.ack.unackedStored == notifs
         && Pending(s, st, now) == notifs + Pending(s1, st1, now)
         && (notifs != [] ==> s1.flags.checkStorage
                              && s1.sentFromStorage == s.sentFromStorage + |notifs| <= s.msgLimit)
         && (notifs == [] ==> !s1.flags.checkStorage && AtRest(s1, st1))
  }

  lemma LoopedOn(s: Session, st: Store, s1: Session, st1: Store, s2: Session, st2: Store, outcome: Outcome, now: nat)
    requires InOrder(s, st, s1, st1, [], now) && s.flags.checkStorage && Looped(s1, st1, s2, st2, outcome, now)
    ensures Looped(s, st, s2, st2, outcome, now)
  {
    assert [] + Pending(s1, st1, now) == Pending(s1, st1, now);
  }

  lemma LoopSends(s: Session, st: Store, s1: Session, st1: Store, sent: seq<Notification>, now: nat)
    requires InOrder(s, st, s1, st1, sent, now) && s.flags.checkStorage && sent != []
    ensures if s1.sentFromStorage > s1.msgLimit then Looped(s, st, s1, RemoveUser(st1), Failed(UaidReset), now)
            else Looped(s, st, s1, st1, Sent(sent), now)
  {
  }

  lemma LoopEnds(s: Session, st: Store, now: nat)
    requires Reading(s, st) && s.ack.unackedStored == []
    requires !s.flags.checkStorage && !s.flags.includeTopic && Unread(s, st) == [] && s.sentFromStorage == 0
    ensures var (s1, st1, outcome) := LoopStep(s, st, now);
            outcome == Some(Sent([])) && Looped(s, st, s1, st1, Sent([]), now)
  {
  }

  lemma {:induction false} LoopInOrder(s: Session, st: Store, now: nat)
    requires Reading(s, st) && s.ack.unackedStored == []
    requires s.flags.checkStorage || (!s.flags.includeTopic && Unread(s, st) == [] && s.sentFromStorage == 0)
    ensures var (s1, st1, outcome) := CheckStorageLoop(s, st, now);
            Looped(s, st, s1, st1, outcome, now)
    decreases s.flags.checkStorage, s.flags.includeTopic, |st.topics|, |Unread(s, st)|
  {
    LoopStepProgress(s, st, now);
    if s.flags.checkStorage {
      ReadOnce(s, st, now);
      var (s1, st1, sent) := Advance(s, st, now);
      if sent == [] {
        LoopInOrder(s1, st1, now);
        var (s2, st2, outcome) := CheckStorageLoop(s1, st1, now);
        LoopedOn(s, st, s1, st1, s2, st2, outcome, now);
      } else {
        LoopSends(s, st, s1, st1, sent, now);
      }
    } else {
      LoopEnds(s, st, now);
    }
  }

  // --------------------------------------------------------------- the acks

  lemma {:induction false} AcksInOrder(s: Session, st: Store, updates: seq<ClientAck>, now: nat)
    requires Reading(s, st)
    ensures var (s1, st1) := AckAll(s, st, updates);
            Reading(s1, st1) && Pending(s1, st1, now) == Pending(s, st, now)
            && s1.flags == s.flags && s1.sentFromStorage == s.sentFromStorage && s1.msgLimit == s.msgLimit
            && |s1.ack.unackedStored| <= |s.ack.unackedStored|
    decreases updates
  {
    if updates != [] {
      AckInOrder(s, st, updates[0], now);
      var (s1, st1) := AckOne(s, st, updates[0]);
      AcksInOrder(s1, st1, updates[1..], now);
    }
  }

  lemma RemoveKeepsRegular(st: Store, n: Notification)
    requires Regular(st) && n.sortkey.None?
    ensures var st1 := RemoveMessage(st, KeyOf(n, 0));
            Regular(st1) && st1 == st.(topics := Without(st.topics, KeyOf(n, 0)))
  {
    RemoveKeepsValid(st, KeyOf(n, 0));
    WithoutTopicKey(st.stamped, KeyOf(n, 0));
  }

  /** What Reading says of the unacked messages. */
  predicate InPlace(s: Session, topics: seq<Notification>) {
    && (s.flags.checkStorage && s.flags.includeTopic ==> s.ack.unackedStored <= topics)
    && (!s.flags.includeTopic ==>
          topics == [] && forall n :: n in s.ack.unackedStored ==> n.sortkey.Some?)
  }

  lemma TakenInPlace(s: Session, s1: Session, topics: seq<Notification>, i: nat)
    requires TopicsValid(topics) && InPlace(s, topics) && i < |s.ack.unackedStored|
    requires s1.flags == s.flags && s1.ack.unackedStored == RemoveAt(s.ack.unackedStored, i)
    ensures var n := s.ack.unackedStored[i];
            InPlace(s1, if n.sortkey.None? then Without(topics, KeyOf(n, 0)) else topics)
  {
    if s.flags.checkStorage && s.flags.includeTopic { TakeOut(topics, s.ack.unackedStored, i); }
  }

  lemma StillReading(s: Session, st: Store, s1: Session, st1: Store)
    requires Reading(s, st) && Regular(st1) && InPlace(s1, st1.topics)
    requires st1 == st.(topics := st1.topics)
    requires s1.flags == s.flags && s1.currentTimestamp == s.currentTimestamp
    requires s1.ack.unackedDirect == [] && s1.ack.unackedStoredHighest == s.ack.unackedStoredHighest
    ensures Reading(s1, st1) && StartMark(s1, st1) == StartMark(s, st)
  {
    assert st.backend.DynamoDb? ==> st.registry;
  }

  lemma AckKeepsReading(s: Session, st: Store, u: ClientAck)
    requires Reading(s, st)
    ensures var (s1, st1) := AckOne(s, st, u);
            Reading(s1, st1) && StartMark(s1, st1) == StartMark(s, st)
  {
    var stored := Position(s.ack.unackedStored, u);
    assert Position(s.ack.unackedDirect, u).None?;
    if stored.Some? {
      var (s1, st1) := AckOne(s, st, u);
      var n := s.ack.unackedStored[stored.value];
      if n.sortkey.None? { RemoveKeepsRegular(st, n); }
      TakenInPlace(s, s1, st.topics, stored.value);
      StillReading(s, st, s1, st1);
    }
  }

  lemma SamePending(s: Session, st: Store, s1: Session, st1: Store, now: nat)
    requires s1.flags == s.flags && s.flags.checkStorage
    requires st1.stamped == st.stamped && StartMark(s1, st1) == StartMark(s, st)
    requires s.flags.includeTopic ==>
      && |s.ack.unackedStored| <= |st.topics| && |s1.ack.unackedStored| <= |st1.topics|
      && st1.topics[|s1.ack.unackedStored|..] == st.topics[|s.ack.unackedStored|..]
    requires s1.currentTimestamp == s.currentTimestamp && s1.ack.unackedStoredHighest == s.ack.unackedStoredHighest
    ensures Pending(s1, st1, now) == Pending(s, st, now)
  {
  }

  lemma AckTakesTopic(s: Session, st: Store, u: ClientAck)
    requires Reading(s, st) && s.flags.checkStorage && s.flags.includeTopic
    ensures var (s1, st1) := AckOne(s, st, u);
      && |s.ack.unackedStored| <= |st.topics| && |s1.ack.unackedStored| <= |st1.topics|
      && st1.topics[|s1.ack.unackedStored|..] == st.topics[|s.ack.unackedStored|..]
  {
    assert s.ack.unackedDirect == [];
    var stored := Position(s.ack.unackedStored, u);
    if stored.Some? { TakeOut(st.topics, s.ack.unackedStored, stored.value); }
  }

  /** An ack takes one message off the unacked list and, for a topic, off the store. */
  lemma AckInOrder(s: Session, st: Store, u: ClientAck, now: nat)
    requires Reading(s, st)
    ensures var (s1, st1) := AckOne(s, st, u);
            Reading(s1, st1) && Pending(s1, st1, now) == Pending(s, st, now)
  {
    AckKeepsReading(s, st, u);
    if s.flags.checkStorage {
      if s.flags.includeTopic { AckTakesTopic(s, st, u); }
      AckOneKeepsValid(s, st, u);
      SamePending(s, st, AckOne(s, st, u).0, AckOne(s, st, u).1, now);
    }
  }

  lemma TakeOut(topics: seq<Notification>, ns: seq<Notification>, p: nat)
    requires TopicsValid(topics) && ns <= topics && p < |ns|
    ensures ns[p].sortkey.None?
    ensures var left := Without(topics, KeyOf(ns[p], 0));
            RemoveAt(ns, p) <= left && left[|ns| - 1..] == topics[|ns|..]
  {
    assert ns[p] == topics[p] && topics[p] in topics;
    TopicsAreTopics(topics);
    WithoutAt(topics, p);
  }

  // ------------------------------------------------------- the whole exchange

  lemma IncrementKeepsReading(s: Session, st: Store, now: nat)
    requires Reading(s, st) && s.flags.incrementStorage
    ensures var (s1, st1) := Increment(s, st);
            Reading(s1, st1) && Pending(s1, st1, now) == Pending(s, st, now)
            && Unread(s1, st1) == Unread(s, st)
  {
  }

  /** What is unacked is what was sent last. */
  predicate JustSent(sent: seq<Notification>, p: Progressed) {
    p.failed.None? ==> |p.sent| == |sent| + |p.s.ack.unackedStored|
  }

  /** What an ack message does to an exchange, be it the last of a batch or not. */
  ghost predicate AckedOn(p: Progressed, updates: seq<ClientAck>, p1: Progressed) {
    && SameTerms(p1.s, p.s)
    && (p.s.flags.checkStorage && !UnackedNotifs(AckAll(p.s, p.st, updates).0) ==>
          (|p1.sent| > |p.sent| || Finished(p1)) && JustSent(p.sent, p1))
    && (p.s.flags.checkStorage && UnackedNotifs(AckAll(p.s, p.st, updates).0) ==>
          p1.sent == p.sent && p1.s == AckAll(p.s, p.st, updates).0)
  }

  lemma AckStaysInOrder(p: Progressed, owed: seq<Notification>, now: nat, updates: seq<ClientAck>)
    requires DrainInv(p, owed, now) && p.failed.None?
    ensures var p1 := Add(p.sent, Ack(p.s, p.st, updates, now));
            DrainInv(p1, owed, now) && AckedOn(p, updates, p1)
  {
    AcksInOrder(p.s, p.st, updates, now);
    AckAllKeepsValid(p.s, p.st, updates);
    var (s1, st1) := AckAll(p.s, p.st, updates);
    assert p.sent + [] == p.sent;
    if !UnackedNotifs(s1) && s1.flags.checkStorage {
      PostInOrder(p.sent, s1, st1, owed, now);
    } else {
      AckAllStore(p.s, p.st, updates);
    }
  }

  /** How the loop leaves an exchange. */
  ghost predicate Settles(
    s: Session, sent: seq<Notification>, owed: seq<Notification>, r: (Session, Store, Outcome), now: nat)
  {
    && SameTerms(r.0, s) && Valid(r.1)
    && match r.2
       case Failed(error) => Reset(r.0, sent, owed, error)
       case Sent(notifs) =>
         && InExchange(r.0, r.1, sent + notifs, owed, now)
         && r.0.flags.checkStorage == (notifs != []) && |r.0.ack.unackedStored| == |notifs|
  }

  lemma LoopSettles(s: Session, st: Store, sent: seq<Notification>, owed: seq<Notification>, now: nat)
    requires Reading(s, st) && s.flags.checkStorage && s.ack.unackedStored == []
    requires owed == sent + Pending(s, st, now) && |sent| <= s.msgLimit && s.sentFromStorage == |sent|
    ensures Settles(s, sent, owed, CheckStorageLoop(s, st, now), now)
  {
    LoopInOrder(s, st, now);
    var (s3, st3, outcome) := CheckStorageLoop(s, st, now);
    LoopedSettles(s, st, sent, owed, s3, st3, outcome, now);
  }

  lemma LoopedSettles(
    s: Session, st: Store, sent: seq<Notification>, owed: seq<Notification>,
    s3: Session, st3: Store, outcome: Outcome, now: nat)
    requires s.flags.checkStorage && Looped(s, st, s3, st3, outcome, now)
    requires owed == sent + Pending(s, st, now) && |sent| <= s.msgLimit && s.sentFromStorage == |sent|
    ensures Settles(s, sent, owed, (s3, st3, outcome), now)
  {
    if outcome.Sent? {
      Associates(sent, outcome.notifs, Pending(s3, st3, now));
    }
  }

  lemma SettlesDrained(
    s: Session, sent: seq<Notification>, owed: seq<Notification>, r: (Session, Store, Outcome), now: nat)
    requires Settles(s, sent, owed, r, now)
    ensures var p := Add(sent, if r.2 == Sent([]) then AllAcked(r.0, r.1) else r);
            DrainInv(p, owed, now) && SameTerms(p.s, s)
            && (|p.sent| > |sent| || Finished(p)) && JustSent(sent, p)
  {
    assert sent + [] == sent;
  }

  /** Once all is acked, reading goes on where it stopped. */
  lemma PostInOrder(sent: seq<Notification>, s: Session, st: Store, owed: seq<Notification>, now: nat)
    requires Reading(s, st) && s.flags.checkStorage && !UnackedNotifs(s)
    requires owed == sent + Pending(s, st, now) && |sent| <= s.msgLimit && s.sentFromStorage == |sent|
    ensures var p1 := Add(sent, PostProcessAllAcked(s, st, now));
            DrainInv(p1, owed, now) && SameTerms(p1.s, s)
            && (|p1.sent| > |sent| || Finished(p1)) && JustSent(sent, p1)
  {
    if s.flags.incrementStorage {
      IncrementKeepsReading(s, st, now);
    }
    var (s2, st2) := if s.flags.incrementStorage then Increment(s, st) else (s, st);
    LoopSettles(s2, st2, sent, owed, now);
    var r := CheckStorageLoop(s2, st2, now);
    SettlesDrained(s2, sent, owed, r, now);
    assert PostProcessAllAcked(s, st, now) == if r.2 == Sent([]) then AllAcked(r.0, r.1) else r;
  }

  /** The exchange is over: the session failed, or has stopped checking storage. */
  predicate Finished(p: Progressed) {
    p.failed.Some? || !p.s.flags.checkStorage
  }

  /** A session that is not in an exchange: one that has just said Hello, or has finished one. */
  ghost predicate Ready(s: Session, st: Store) {
    && Regular(st) && PointerHeld(s, st)
    && s.ack.unackedDirect == [] && s.ack.unackedStored == []
    && s.sentFromStorage == 0 && !s.flags.incrementStorage
  }

  lemma ConnectedIsReady(flags: ClientFlags, st: Store, msgLimit: nat)
    requires Regular(st) && !flags.incrementStorage
    ensures Ready(NewSession(flags, UserTimestamp(st), msgLimit), st)
  {
  }

  lemma FirstBatch(s: Session, st: Store, now: nat)
    requires Ready(s, st)
    ensures var p := Add([], CheckStorage(s, st, now));
            DrainInv(p, Owed(st, now), now) && SameTerms(p.s, s) && JustSent([], p)
  {
    var s0 := StartCheck(s);
    var owed := Owed(st, now);
    assert st.topics[0..] == st.topics;
    assert StartMark(s0, st) == st.pointer;
    assert Pending(s0, st, now) == owed && [] + owed == owed;
    LoopSettles(s0, st, [], owed, now);
    var (s1, st1, outcome) := CheckStorageLoop(s0, st, now);
    if outcome.Sent? { assert [] + outcome.notifs == outcome.notifs; }
  }

  lemma {:induction false} ConverseInOrder(p: Progressed, owed: seq<Notification>, now: nat, acks: seq<seq<ClientAck>>)
    requires DrainInv(p, owed, now)
    ensures DrainInv(Converse(p, now, acks), owed, now)
    ensures SameTerms(Converse(p, now, acks).s, p.s)
    decreases acks
  {
    if acks != [] && p.failed.None? {
      AckStaysInOrder(p, owed, now, acks[0]);
      ConverseInOrder(Add(p.sent, Ack(p.s, p.st, acks[0], now)), owed, now, acks[1..]);
    }
  }

  // ---------------------------------------------------------- the user record

  /** The user is gone exactly if the session was told so. */
  predicate UserKept(p: Progressed, user: bool) {
    p.st.user == (user && p.failed != Some(UaidReset))
  }

  lemma AckUser(p: Progressed, now: nat, updates: seq<ClientAck>, user: bool)
    requires Valid(p.st) && UserKept(p, user) && p.failed.None?
    ensures UserKept(Add(p.sent, Ack(p.s, p.st, updates, now)), user)
  {
    Consistency.AckUser(p.s, p.st, updates, now);
  }

  lemma {:induction false} ConverseUser(p: Progressed, now: nat, acks: seq<seq<ClientAck>>, user: bool)
    requires Valid(p.st) && UserKept(p, user)
    ensures UserKept(Converse(p, now, acks), user)
    decreases acks
  {
    if acks != [] && p.failed.None? {
      AckUser(p, now, acks[0], user);
      ConverseUser(Add(p.sent, Ack(p.s, p.st, acks[0], now)), now, acks[1..], user);
    }
  }

  lemma FirstBatchUser(s: Session, st: Store, now: nat)
    requires Valid(st)
    ensures UserKept(Add([], CheckStorage(s, st, now)), st.user)
  {
    Consistency.LoopUser(StartCheck(s), st, now);
  }

  // ------------------------------------------------------------- the theorems

  /** How an exchange ends. Within the limit everything was sent, and the session goes on unless the
      user's record is of an old version; beyond it the user was reset. A reset takes the record away,
      and nothing else does. */
  predicate Served(p: Progressed, owed: seq<Notification>, msgLimit: nat, outdated: bool, user: bool) {
    && Finished(p) && UserKept(p, user)
    && (|owed| > msgLimit ==> p.failed == Some(UaidReset))
    && (|owed| <= msgLimit ==>
          && p.sent == owed
          && (!outdated ==> p.failed.None?)
          && (outdated && owed != [] ==> p.failed == Some(UaidReset)))
  }

  lemma FinishedIsServed(p: Progressed, owed: seq<Notification>, now: nat, user: bool)
    requires DrainInv(p, owed, now) && Finished(p) && UserKept(p, user)
    ensures Served(p, owed, p.s.msgLimit, p.s.flags.oldRecordVersion, user)
    ensures p.failed.None? ==> Owed(p.st, now) == []
  {
  }

  /** Whatever the client acks, in whatever order and grouping, with or without unknown
      and repeated acks: what was sent so far is a prefix of the unexpired stored
      messages, topics first and each once. When the exchange is over, it ended as it should,
      and if the session goes on the user is owed nothing more. */
  lemma DrainTheorem(s: Session, st: Store, now: nat, acks: seq<seq<ClientAck>>)
    requires Ready(s, st)
    ensures var owed := Owed(st, now);
            var p := Converse(Add([], CheckStorage(s, st, now)), now, acks);
            && p.sent <= owed && |p.sent| <= s.msgLimit && UserKept(p, st.user)
            && (Finished(p) ==>
                  && Served(p, owed, s.msgLimit, s.flags.oldRecordVersion, st.user)
                  && (p.failed.None? ==> Owed(p.st, now) == []))
  {
    var owed := Owed(st, now);
    var p0 := Add([], CheckStorage(s, st, now));
    FirstBatch(s, st, now);
    FirstBatchUser(s, st, now);
    ConverseInOrder(p0, owed, now, acks);
    ConverseUser(p0, now, acks, st.user);
    var p := Converse(p0, now, acks);
    if Finished(p) { FinishedIsServed(p, owed, now, st.user); }
  }

  /** A session that has finished an exchange without failing is ready for the next one, on the same
      terms, whatever was stored or deleted in between. */
  lemma FinishedIsReady(s: Session, st: Store, now: nat, acks: seq<seq<ClientAck>>, st1: Store)
    requires Ready(s, st) && Regular(st1)
    requires var p := Converse(Add([], CheckStorage(s, st, now)), now, acks);
             Finished(p) && p.failed.None? && st1.backend == p.st.backend && st1.pointer == p.st.pointer
    ensures var p := Converse(Add([], CheckStorage(s, st, now)), now, acks);
            Ready(p.s, st1) && p.s.msgLimit == s.msgLimit && p.s.flags.oldRecordVersion == s.flags.oldRecordVersion
  {
    var p0 := Add([], CheckStorage(s, st, now));
    FirstBatch(s, st, now);
    ConverseInOrder(p0, Owed(st, now), now, acks);
  }

  /** The client acks everything it was sent. */
  function Round(p: Progressed, now: nat): (r: Progressed)
    requires Valid(p.st)
    ensures Valid(r.st)
  {
    Add(p.sent, Ack(p.s, p.st, AckEverything(p.s), now))
  }

  function Rounds(p: Progressed, now: nat, k: nat): Progressed
    requires Valid(p.st)
    decreases k
  {
    if k == 0 || Finished(p) then p else Rounds(Round(p, now), now, k - 1)
  }

  /** In order, and on the session's terms. */
  ghost predicate OnCourse(p: Progressed, owed: seq<Notification>, now: nat, s: Session) {
    DrainInv(p, owed, now) && SameTerms(p.s, s)
  }

  lemma NextRound(p: Progressed, owed: seq<Notification>, now: nat, k: nat, s: Session) returns (p1: Progressed)
    requires OnCourse(p, owed, now, s) && !Finished(p) && k > 0
    ensures OnCourse(p1, owed, now, s) && (Finished(p1) || |p1.sent| > |p.sent|)
    ensures Rounds(p, now, k) == Rounds(p1, now, k - 1)
  {
    AckStaysInOrder(p, owed, now, AckEverything(p.s));
    AckEverythingClears(p.s, p.st);
    p1 := Round(p, now);
  }

  lemma SentWithin(p: Progressed, owed: seq<Notification>, now: nat, s: Session)
    requires OnCourse(p, owed, now, s)
    ensures Valid(p.st) && |p.sent| <= |owed|
  {
  }

  /** And it does come to an end: every round of acks sends at least one message more. */
  lemma {:induction false} RoundsFinish(p: Progressed, owed: seq<Notification>, now: nat, k: nat, s: Session)
    requires OnCourse(p, owed, now, s) && (Finished(p) || k > |owed| - |p.sent|)
    ensures Finished(Rounds(p, now, k)) && OnCourse(Rounds(p, now, k), owed, now, s)
    decreases k
  {
    SentWithin(p, owed, now, s);
    if k > 0 && !Finished(p) {
      var p1 := NextRound(p, owed, now, k, s);
      RoundsFinish(p1, owed, now, k - 1, s);
    }
  }

  lemma {:induction false} RoundsUser(p: Progressed, now: nat, k: nat, user: bool)
    requires Valid(p.st) && UserKept(p, user)
    ensures Valid(Rounds(p, now, k).st) && UserKept(Rounds(p, now, k), user)
    decreases k
  {
    if k > 0 && !Finished(p) {
      AckUser(p, now, AckEverything(p.s), user);
      RoundsUser(Round(p, now), now, k - 1, user);
    }
  }

  lemma RoundsServeFrom(p: Progressed, owed: seq<Notification>, now: nat, s: Session, user: bool)
    requires OnCourse(p, owed, now, s) && UserKept(p, user)
    ensures Served(Rounds(p, now, |owed| + 1), owed, s.msgLimit, s.flags.oldRecordVersion, user)
  {
    RoundsFinish(p, owed, now, |owed| + 1, s);
    RoundsUser(p, now, |owed| + 1, user);
    FinishedIsServed(Rounds(p, now, |owed| + 1), owed, now, user);
  }

  /** A client that acks each batch at once is served. */
  lemma RoundsServe(s: Session, st: Store, now: nat)
    requires Ready(s, st)
    ensures var owed := Owed(st, now);
            Served(Rounds(Add([], CheckStorage(s, st, now)), now, |owed| + 1),
                   owed, s.msgLimit, s.flags.oldRecordVersion, st.user)
  {
    var owed := Owed(st, now);
    var p0 := Add([], CheckStorage(s, st, now));
    FirstBatch(s, st, now);
    FirstBatchUser(s, st, now);
    RoundsServeFrom(p0, owed, now, s, st.user);
  }

  /** So is a client that has just connected, within the limit its session is given. */
  lemma NewClientIsServed(flags: ClientFlags, msgLimit: nat, st: Store, now: nat)
    requires Regular(st) && !flags.incrementStorage
    ensures var owed := Owed(st, now);
            var s := NewSession(flags, UserTimestamp(st), msgLimit);
            Served(Rounds(Add([], CheckStorage(s, st, now)), now, |owed| + 1),
                   owed, msgLimit, flags.oldRecordVersion, st.user)
  {
    ConnectedIsReady(flags, st, msgLimit);
    RoundsServe(NewSession(flags, UserTimestamp(st), msgLimit), st, now);
  }

  /** And so is a client whose session finished an exchange before and is told of new messages: the limit
      counts afresh. */
  lemma LaterExchangeServes(s: Session, st: Store, now: nat, acks: seq<seq<ClientAck>>, st1: Store, now1: nat)
    requires Ready(s, st) && Regular(st1)
    requires var p := Converse(Add([], CheckStorage(s, st, now)), now, acks);
             Finished(p) && p.failed.None? && st1.backend == p.st.backend && st1.pointer == p.st.pointer
    ensures var p := Converse(Add([], CheckStorage(s, st, now)), now, acks);
            var owed := Owed(st1, now1);
            Served(Rounds(Add([], CheckStorage(p.s, st1, now1)), now1, |owed| + 1),
                   owed, s.msgLimit, s.flags.oldRecordVersion, st1.user)
  {
    FinishedIsReady(s, st, now, acks, st1);
    RoundsServe(Converse(Add([], CheckStorage(s, st, now)), now, acks).s, st1, now1);
  }

  // ------------------------------------------------------- how much at a time

  lemma {:induction false} LiveAll(ns: seq<Notification>, now: nat)
    requires forall n :: n in ns ==> !Expired(n, now)
    ensures Live(ns, now) == ns
  {
    if ns != [] { LiveAll(ns[1..], now); }
  }

  /** The first messages of these, sent in one go, or the reset of a user who was sent too many. */
  predicate SendsFirst(outcome: Outcome, ns: seq<Notification>, size: nat, msgLimit: nat) {
    var first := if |ns| <= size then ns else ns[..size];
    outcome == if |first| > msgLimit then Failed(UaidReset) else Sent(first)
  }

  /** Of unexpired messages, the first batch of an exchange has ten; of topic messages from Bigtable, which
      keeps its pointer elsewhere, eleven. */
  lemma BatchSizes(s: Session, st: Store, now: nat)
    requires Ready(s, st) && forall n :: n in st.topics + st.stamped ==> !Expired(n, now)
    ensures st.topics != [] ==>
      SendsFirst(CheckStorage(s, st, now).2, st.topics, if st.backend.BigTable? then 11 else 10, s.msgLimit)
    ensures var rows := After(st.stamped, st.pointer);
      st.topics == [] && rows != [] ==> SendsFirst(CheckStorage(s, st, now).2, rows, 10, s.msgLimit)
  {
    var s0 := StartCheck(s);
    LoopStepProgress(s0, st, now);
    LiveAll(DoCheckStorage(s0, st).messages, now);
  }

  // ---------------------------------------------- any order, any grouping

  /** One of the acks names something that is unacked. */
  predicate Names(s: Session, updates: seq<ClientAck>) {
    exists n, u :: n in s.ack.unackedStored && u in updates && Matches(n, u)
  }

  lemma {:induction false} NamedShrinks(s: Session, st: Store, updates: seq<ClientAck>)
    requires s.ack.unackedDirect == [] && Names(s, updates)
    ensures |AckAll(s, st, updates).0.ack.unackedStored| < |s.ack.unackedStored|
    decreases updates
  {
    var (s1, st1) := AckOne(s, st, updates[0]);
    if Position(s.ack.unackedStored, updates[0]).Some? {
      AckAllStill(s1, st1, updates[1..]);
    } else {
      var n, u :| n in s.ack.unackedStored && u in updates && Matches(n, u);
      assert u in updates[1..];
      NamedShrinks(s1, st1, updates[1..]);
    }
  }

  lemma {:induction false} AckAllStill(s: Session, st: Store, updates: seq<ClientAck>)
    ensures |AckAll(s, st, updates).0.ack.unackedStored| <= |s.ack.unackedStored|
    decreases updates
  {
    if updates != [] {
      var (s1, st1) := AckOne(s, st, updates[0]);
      AckAllStill(s1, st1, updates[1..]);
    }
  }

  /** A client each of whose ack messages, until the end, names something that is unacked: it acks each
      batch in any order and in any groups. */
  predicate Diligent(p: Progressed, now: nat, acks: seq<seq<ClientAck>>)
    requires Valid(p.st)
    decreases acks
  {
    acks == [] || Finished(p)
    || (Names(p.s, acks[0]) && Diligent(Add(p.sent, Ack(p.s, p.st, acks[0], now)), now, acks[1..]))
  }

  /** What is still to be acked, now or once it is sent. */
  function ToAck(p: Progressed, owed: seq<Notification>): int {
    |owed| - |p.sent| + |p.s.ack.unackedStored|
  }

  lemma DiligentAdvances(p: Progressed, owed: seq<Notification>, now: nat, updates: seq<ClientAck>)
    requires DrainInv(p, owed, now) && !Finished(p) && Names(p.s, updates)
    ensures var p1 := Add(p.sent, Ack(p.s, p.st, updates, now));
            DrainInv(p1, owed, now) && (Finished(p1) || ToAck(p1, owed) < ToAck(p, owed))
  {
    AckStaysInOrder(p, owed, now, updates);
    NamedShrinks(p.s, p.st, updates);
  }

  /** A finished exchange stays finished. */
  lemma {:induction false} FinishedStays(p: Progressed, owed: seq<Notification>, now: nat, acks: seq<seq<ClientAck>>)
    requires DrainInv(p, owed, now) && Finished(p)
    ensures Finished(Converse(p, now, acks))
    decreases acks
  {
    if acks != [] && p.failed.None? {
      AckStaysInOrder(p, owed, now, acks[0]);
      AcksInOrder(p.s, p.st, acks[0], now);
      FinishedStays(Add(p.sent, Ack(p.s, p.st, acks[0], now)), owed, now, acks[1..]);
    }
  }

  lemma {:induction false} DiligentFinishes(p: Progressed, owed: seq<Notification>, now: nat, acks: seq<seq<ClientAck>>)
    requires DrainInv(p, owed, now) && Diligent(p, now, acks) && (Finished(p) || |acks| >= ToAck(p, owed))
    ensures Finished(Converse(p, now, acks))
    decreases acks
  {
    if Finished(p) {
      FinishedStays(p, owed, now, acks);
    } else {
      DiligentAdvances(p, owed, now, acks[0]);
      DiligentFinishes(Add(p.sent, Ack(p.s, p.st, acks[0], now)), owed, now, acks[1..]);
    }
  }

  /** A client that acks what it is sent in any order and in any groups is served by the time it has sent
      as many ack messages as it is owed messages. */
  lemma DiligentClientIsServed(s: Session, st: Store, now: nat, acks: seq<seq<ClientAck>>)
    requires Ready(s, st) && Diligent(Add([], CheckStorage(s, st, now)), now, acks)
    requires |acks| >= |Owed(st, now)|
    ensures Served(Converse(Add([], CheckStorage(s, st, now)), now, acks),
                   Owed(st, now), s.msgLimit, s.flags.oldRecordVersion, st.user)
  {
    FirstBatch(s, st, now);
    DiligentFinishes(Add([], CheckStorage(s, st, now)), Owed(st, now), now, acks);
    DrainTheorem(s, st, now, acks);
  }
}
