/** What each operation of a WebPush session computes: the specification that the
    methods of `WebPushClient` are proved against
    (autoconnect-ws-sm/src/identified/{mod,on_server_notif,on_client_msg}.rs). */
module Sessions {
  import opened Notifications
  import opened Storage

  datatype ClientFlags = ClientFlags(
    includeTopic: bool, incrementStorage: bool, checkStorage: bool, oldRecordVersion: bool)

  datatype AckState = AckState(
    unackedDirect: seq<Notification>,
    unackedStored: seq<Notification>,
    unackedStoredHighest: Option<nat>)

  datatype Stats = Stats(directAcked: nat, directStorage: nat, storedAcked: nat)

  datatype Session = Session(
    flags: ClientFlags,
    ack: AckState,
    sentFromStorage: nat,
    currentTimestamp: Option<nat>,
    stats: Stats,
    msgLimit: nat)

  datatype ClientAck = ClientAck(channelId: Uuid, version: string)

  /** What the registry queues for a session. */
  datatype ServerNotification = CheckStorageNotif | DirectNotif(n: Notification) | DisconnectNotif

  datatype SMError = UaidReset | Internal | Ghost

  /** What a handler returns: server messages carrying notifications, or an error
      that ends the session. */
  datatype Outcome = Sent(notifs: seq<Notification>) | Failed(error: SMError)

  datatype CheckStorageResponse =
    CheckStorageResponse(includeTopic: bool, messages: seq<Notification>, timestamp: Option<nat>)

  const TOPIC_LIMIT: nat := 11
  const TIMESTAMP_LIMIT: nat := 10

  predicate UnackedNotifs(s: Session) {
    s.ack.unackedStored != [] || s.ack.unackedDirect != []
  }

  function NewSession(flags: ClientFlags, currentTimestamp: Option<nat>, msgLimit: nat): Session {
    Session(flags, AckState([], [], None), 0, currentTimestamp, Stats(0, 0, 0), msgLimit)
  }

  // ------------------------------------------------------- reading storage

  function DoCheckStorage(s: Session, st: Store): (r: CheckStorageResponse)
    ensures r.includeTopic ==> s.flags.includeTopic && r.messages != []
    ensures forall n :: n in r.messages ==> n in (if r.includeTopic then st.topics else st.stamped)
  {
    var topics := if s.flags.includeTopic then FetchTopicMessages(st, TOPIC_LIMIT)
                  else FetchResponse(None, []);
    if topics.messages != [] then
      CheckStorageResponse(true, topics.messages, topics.timestamp)
    else
      var after := StartOf(s, topics.timestamp);
      var r := FetchTimestampMessages(st, after, TIMESTAMP_LIMIT);
      CheckStorageResponse(false, r.messages, Or(r.timestamp, after))
  }

  /** Where the timestamp query starts. */
  function StartOf(s: Session, topicTimestamp: Option<nat>): Option<nat> {
    if s.flags.includeTopic then Or(topicTimestamp, s.currentTimestamp)
    else Or(s.ack.unackedStoredHighest, s.currentTimestamp)
  }

  function ExpiredTopics(ns: seq<Notification>, now: nat): (r: seq<Notification>)
    ensures forall n :: n in r <==> n in ns && Expired(n, now) && n.sortkey.None?
  {
    if ns == [] then []
    else if Expired(ns[0], now) && ns[0].sortkey.None? then [ns[0]] + ExpiredTopics(ns[1..], now)
    else ExpiredTopics(ns[1..], now)
  }

  function RemoveAll(st: Store, ns: seq<Notification>): (r: Store)
    ensures r.backend == st.backend && r.registry == st.registry
    ensures r.pointer == st.pointer && r.user == st.user
    decreases ns
  {
    if ns == [] then st else RemoveAll(RemoveMessage(st, KeyOf(ns[0], 0)), ns[1..])
  }

  /** One read of a batch: (session, store, notifications to send). */
  function Advance(s: Session, st: Store, now: nat): (Session, Store, seq<Notification>) {
    Receive(s, st, DoCheckStorage(s, st), now)
  }

  /** What becomes of the batch that was read. */
  function Receive(s: Session, st: Store, resp: CheckStorageResponse, now: nat)
    : (Session, Store, seq<Notification>)
  {
    var s1 := s.(flags := s.flags.(includeTopic := resp.includeTopic),
                 ack := s.ack.(unackedStoredHighest := resp.timestamp));
    if resp.messages == [] then
      (s1.(flags := s1.flags.(checkStorage := false), sentFromStorage := 0), st, [])
    else
      var live := Live(resp.messages, now);
      var st1 := RemoveAll(st, ExpiredTopics(resp.messages, now));
      var s2 := s1.(flags := s1.flags.(incrementStorage := !resp.includeTopic && resp.timestamp.Some?));
      if live == [] then (s2, st1, [])
      else
        (s2.(ack := s2.ack.(unackedStored := s2.ack.unackedStored + live),
             sentFromStorage := s2.sentFromStorage + |live|), st1, live)
  }

  /** `increment_storage`, when there is a highest timestamp to write. */
  function Increment(s: Session, st: Store): (Session, Store)
    requires s.ack.unackedStoredHighest.Some?
  {
    var h := s.ack.unackedStoredHighest.value;
    (s.(currentTimestamp := Some(h), flags := s.flags.(incrementStorage := false)),
     IncrementStorage(st, h))
  }

  /** One turn of `check_storage_loop`: no outcome means that the loop goes round again. */
  function LoopStep(s: Session, st: Store, now: nat): (Session, Store, Option<Outcome>) {
    if s.flags.checkStorage then
      var (s1, st1, sent) := Advance(s, st, now);
      if sent == [] then (s1, st1, None)
      else if s1.sentFromStorage > s1.msgLimit then (s1, RemoveUser(st1), Some(Failed(UaidReset)))
      else (s1, st1, Some(Sent(sent)))
    else if s.flags.incrementStorage then
      if s.ack.unackedStoredHighest.None? then (s, st, Some(Failed(Internal)))
      else
        var (s1, st1) := Increment(s, st);
        (s1, st1, Some(Sent([])))
    else (s, st, Some(Sent([])))
  }

  function CheckStorageLoop(s: Session, st: Store, now: nat): (r: (Session, Store, Outcome))
    requires Valid(st)
    ensures Valid(r.1) && r.1.stamped == st.stamped
    decreases s.flags.checkStorage, s.flags.includeTopic, |st.topics|,
              |Unread(s, st)|
  {
    var (s1, st1, outcome) := LoopStep(s, st, now);
    LoopStepProgress(s, st, now);
    if outcome.Some? then (s1, st1, outcome.value) else CheckStorageLoop(s1, st1, now)
  }

  function StartCheck(s: Session): Session {
    s.(flags := s.flags.(checkStorage := true, includeTopic := true))
  }

  function CheckStorage(s: Session, st: Store, now: nat): (r: (Session, Store, Outcome))
    requires Valid(st)
    ensures Valid(r.1) && r.1.stamped == st.stamped
  {
    CheckStorageLoop(StartCheck(s), st, now)
  }

  // ---------------------------------------------- direct notifications, acks

  function Notif(s: Session, n: Notification): Session {
    if n.ttl != 0 then s.(ack := s.ack.(unackedDirect := s.ack.unackedDirect + [n])) else s
  }

  predicate Matches(n: Notification, u: ClientAck) {
    n.channelId == u.channelId && n.version == u.version
  }

  /** The index of the first notification that the ack names. */
  function Position(ns: seq<Notification>, u: ClientAck): (r: Option<nat>)
    ensures r.Some? ==> r.value < |ns| && Matches(ns[r.value], u)
    ensures r.Some? ==> forall i :: 0 <= i < r.value ==> !Matches(ns[i], u)
    ensures r.None? ==> forall n :: n in ns ==> !Matches(n, u)
  {
    if ns == [] then None
    else if Matches(ns[0], u) then Some(0)
    else
      var r := Position(ns[1..], u);
      if r.None? then None else Some(r.value + 1)
  }

  function RemoveAt<T>(s: seq<T>, i: nat): seq<T>
    requires i < |s|
  {
    s[..i] + s[i + 1..]
  }

  function AckOne(s: Session, st: Store, u: ClientAck): (Session, Store) {
    var direct := Position(s.ack.unackedDirect, u);
    if direct.Some? then
      (s.(ack := s.ack.(unackedDirect := RemoveAt(s.ack.unackedDirect, direct.value)),
          stats := s.stats.(directAcked := s.stats.directAcked + 1)), st)
    else
      var stored := Position(s.ack.unackedStored, u);
      if stored.None? then (s, st)
      else
        var n := s.ack.unackedStored[stored.value];
        (s.(ack := s.ack.(unackedStored := RemoveAt(s.ack.unackedStored, stored.value)),
            stats := s.stats.(storedAcked := s.stats.storedAcked + 1)),
         if n.sortkey.None? then RemoveMessage(st, KeyOf(n, 0)) else st)
  }

  function AckAll(s: Session, st: Store, updates: seq<ClientAck>): (Session, Store)
    decreases updates
  {
    if updates == [] then (s, st)
    else
      var (s1, st1) := AckOne(s, st, updates[0]);
      AckAll(s1, st1, updates[1..])
  }

  /** The end of `post_process_all_acked`. */
  function AllAcked(s: Session, st: Store): (Session, Store, Outcome) {
    if s.flags.oldRecordVersion then (s, RemoveUser(st), Failed(UaidReset))
    else (s, st, Sent([]))
  }

  function PostProcessAllAcked(s: Session, st: Store, now: nat): (r: (Session, Store, Outcome))
    requires Valid(st)
    ensures Valid(r.1) && r.1.stamped == st.stamped
  {
    if !s.flags.checkStorage then AllAcked(s, st)
    else if s.flags.incrementStorage && s.ack.unackedStoredHighest.None? then (s, st, Failed(Internal))
    else
      var (s1, st1) := if s.flags.incrementStorage then Increment(s, st) else (s, st);
      var (s2, st2, outcome) := CheckStorageLoop(s1, st1, now);
      if outcome == Sent([]) then AllAcked(s2, st2) else (s2, st2, outcome)
  }

  function Ack(s: Session, st: Store, updates: seq<ClientAck>, now: nat): (r: (Session, Store, Outcome))
    requires Valid(st)
    ensures Valid(r.1) && r.1.stamped == st.stamped
  {
    var (s1, st1) := AckAll(s, st, updates);
    AckAllKeepsValid(s, st, updates);
    if UnackedNotifs(s1) then (s1, st1, Sent([])) else PostProcessAllAcked(s1, st1, now)
  }

  /** What shutdown hands to `save_messages`. */
  function Saved(direct: seq<Notification>): (r: seq<Notification>)
    ensures |r| == |direct|
  {
    seq(|direct|, i requires 0 <= i < |direct| => direct[i].(sortkey := Some(0)))
  }

  function Shutdown(s: Session): Session {
    s.(ack := s.ack.(unackedDirect := []),
       stats := s.stats.(directStorage := s.stats.directStorage + |s.ack.unackedDirect|))
  }

  // ------------------------------------------------------------------ facts

  lemma {:induction false} ExpiredTopicsOfConcat(a: seq<Notification>, b: seq<Notification>, now: nat)
    ensures ExpiredTopics(a + b, now) == ExpiredTopics(a, now) + ExpiredTopics(b, now)
  {
    if a == [] {
      assert a + b == b;
    } else {
      assert (a + b)[1..] == a[1..] + b;
      ExpiredTopicsOfConcat(a[1..], b, now);
    }
  }

  /** What `retain` does with one more message. */
  lemma RetainNext(ns: seq<Notification>, i: nat, now: nat)
    requires i < |ns|
    ensures Live(ns[..i + 1], now) == if Expired(ns[i], now) then Live(ns[..i], now) else Live(ns[..i], now) + [ns[i]]
    ensures ExpiredTopics(ns[..i + 1], now)
            == if Expired(ns[i], now) && ns[i].sortkey.None? then ExpiredTopics(ns[..i], now) + [ns[i]]
               else ExpiredTopics(ns[..i], now)
  {
    assert ns[..i + 1] == ns[..i] + [ns[i]];
    LiveOfConcat(ns[..i], [ns[i]], now);
    ExpiredTopicsOfConcat(ns[..i], [ns[i]], now);
  }

  lemma {:induction false} RemoveAllKeepsValid(st: Store, ns: seq<Notification>)
    requires Valid(st)
    ensures Valid(RemoveAll(st, ns))
    ensures |RemoveAll(st, ns).topics| <= |st.topics|
    decreases ns
  {
    if ns != [] {
      RemoveKeepsValid(st, KeyOf(ns[0], 0));
      RemoveAllKeepsValid(RemoveMessage(st, KeyOf(ns[0], 0)), ns[1..]);
    }
  }

  /** Deleting expired topic messages touches no timestamp message. */
  lemma {:induction false} RemoveAllKeepsStamped(st: Store, ns: seq<Notification>)
    requires Valid(st) && forall n :: n in ns ==> n.sortkey.None?
    ensures RemoveAll(st, ns).stamped == st.stamped
    decreases ns
  {
    if ns != [] {
      var st1 := RemoveMessage(st, KeyOf(ns[0], 0));
      RemoveKeepsValid(st, KeyOf(ns[0], 0));
      WithoutTopicKey(st.stamped, KeyOf(ns[0], 0));
      RemoveAllKeepsStamped(st1, ns[1..]);
    }
  }

  lemma AckOneKeepsValid(s: Session, st: Store, u: ClientAck)
    requires Valid(st)
    ensures Valid(AckOne(s, st, u).1) && AckOne(s, st, u).1.stamped == st.stamped
  {
    var stored := Position(s.ack.unackedStored, u);
    if stored.Some? && s.ack.unackedStored[stored.value].sortkey.None? {
      RemoveKeepsValid(st, KeyOf(s.ack.unackedStored[stored.value], 0));
      WithoutTopicKey(st.stamped, KeyOf(s.ack.unackedStored[stored.value], 0));
    }
  }

  /** Acks delete only topic messages. */
  lemma {:induction false} AckAllKeepsValid(s: Session, st: Store, updates: seq<ClientAck>)
    requires Valid(st)
    ensures Valid(AckAll(s, st, updates).1) && AckAll(s, st, updates).1.stamped == st.stamped
    decreases updates
  {
    if updates != [] {
      AckOneKeepsValid(s, st, updates[0]);
      var (s1, st1) := AckOne(s, st, updates[0]);
      AckAllKeepsValid(s1, st1, updates[1..]);
    }
  }

  lemma RemoveAllShrinks(st: Store, ns: seq<Notification>)
    requires Valid(st) && ns != [] && ns[0] in st.topics
    ensures |RemoveAll(st, ns).topics| < |st.topics|
  {
    WithoutRemovesRow(st.topics, ns[0]);
    RemoveKeepsValid(st, KeyOf(ns[0], 0));
    RemoveAllKeepsValid(RemoveMessage(st, KeyOf(ns[0], 0)), ns[1..]);
  }

  /** A nonempty batch leaves strictly less to read after its highest timestamp. */
  lemma BatchShrinks(st: Store, after: Option<nat>)
    requires Valid(st)
    requires FetchTimestampMessages(st, after, TIMESTAMP_LIMIT).messages != []
    ensures var h := FetchTimestampMessages(st, after, TIMESTAMP_LIMIT).timestamp;
            h.Some? && (after.Some? ==> after.value < h.value)
            && |After(st.stamped, h)| < |After(st.stamped, after)|
  {
    var r := FetchTimestampMessages(st, after, TIMESTAMP_LIMIT);
    var rows := After(st.stamped, after);
    StampedAreStamped(st.stamped);
    assert r.messages[0] in r.messages && r.messages[0] in rows;
    assert r.timestamp.Some?;
    AfterOfAfter(st.stamped, after, r.timestamp.value);
    AfterDropsFirst(rows, r.timestamp, r.messages[0]);
  }

  lemma {:induction false} AfterDropsFirst(rows: seq<Notification>, after: Option<nat>, n: Notification)
    requires n in rows && !Newer(n, after)
    ensures |After(rows, after)| < |rows|
  {
    if rows[0] != n { AfterDropsFirst(rows[1..], after, n); }
  }

  lemma {:induction false} LiveOfNone(ns: seq<Notification>, now: nat)
    requires ns != [] && Live(ns, now) == [] && forall n :: n in ns ==> n.sortkey.None?
    ensures ExpiredTopics(ns, now) != [] && ExpiredTopics(ns, now)[0] == ns[0]
  {
    assert ns[0] in ns;
    assert ns[0] !in Live(ns, now);
  }

  /** A read deletes no timestamp message and adds no topic message. */
  lemma AdvanceKeepsStamped(s: Session, st: Store, now: nat)
    requires Valid(st)
    ensures var st1 := Advance(s, st, now).1;
            Valid(st1) && st1.stamped == st.stamped && |st1.topics| <= |st.topics|
            && st1.backend == st.backend && st1.registry == st.registry
            && st1.pointer == st.pointer && st1.user == st.user
  {
    var gone := ExpiredTopics(DoCheckStorage(s, st).messages, now);
    RemoveAllKeepsValid(st, gone);
    RemoveAllKeepsStamped(st, gone);
  }

  /** What is left to read, after the topics. */
  function Unread(s: Session, st: Store): seq<Notification> {
    After(st.stamped, Or(s.ack.unackedStoredHighest, s.currentTimestamp))
  }

  /** Every turn of the loop that returns nothing either stops checking, or turns from
      topic to timestamp messages, or deletes an expired topic message, or moves past
      at least one timestamp message. Topics are never turned back to. */
  ghost predicate Progress(s: Session, st: Store, s1: Session, st1: Store) {
    || !s1.flags.checkStorage
    || (s.flags.includeTopic && !s1.flags.includeTopic)
    || (s.flags.includeTopic && |st1.topics| < |st.topics|)
    || (!s.flags.includeTopic && st1 == st && |Unread(s1, st1)| < |Unread(s, st)|)
  }

  lemma AdvanceProgress(s: Session, st: Store, now: nat)
    requires Valid(st) && Advance(s, st, now).2 == []
    ensures var (s1, st1, _) := Advance(s, st, now);
            (s1.flags.includeTopic ==> s.flags.includeTopic) && Progress(s, st, s1, st1)
  {
    var resp := DoCheckStorage(s, st);
    var gone := ExpiredTopics(resp.messages, now);
    if resp.messages != [] {
      if resp.includeTopic {
        TopicsAreTopics(st.topics);
        LiveOfNone(resp.messages, now);
        RemoveAllShrinks(st, gone);
      } else if !s.flags.includeTopic {
        StampedAreStamped(st.stamped);
        BatchShrinks(st, StartOf(s, None));
        assert gone == [];
      }
    }
  }

  /** A read that sends something, or nothing. */
  lemma AdvanceTurns(s: Session, st: Store, now: nat)
    requires Valid(st)
    ensures var (s1, st1, sent) := Advance(s, st, now);
            Valid(st1) && st1.stamped == st.stamped && |st1.topics| <= |st.topics|
            && (s1.flags.includeTopic ==> s.flags.includeTopic)
            && (sent == [] ==> Progress(s, st, s1, st1))
  {
    AdvanceKeepsStamped(s, st, now);
    if Advance(s, st, now).2 == [] {
      AdvanceProgress(s, st, now);
    }
  }

  lemma LoopStepProgress(s: Session, st: Store, now: nat)
    requires Valid(st)
    ensures var (s1, st1, outcome) := LoopStep(s, st, now);
            Valid(st1) && st1.stamped == st.stamped && |st1.topics| <= |st.topics|
            && (s1.flags.includeTopic ==> s.flags.includeTopic)
            && (outcome.None? ==> s.flags.checkStorage && Progress(s, st, s1, st1))
  {
    if s.flags.checkStorage {
      AdvanceTurns(s, st, now);
    }
  }
}
