/** Runs of many sessions of one user over one store: no timestamp message is passed
    by the persisted pointer before a client acked it, it expired, or it was deleted.

    Steps interleave at the grain of one read of a batch: between two turns of a
    session's `check_storage_loop` anything else may happen. */
module PointerSafety {
  import opened Notifications
  import opened Storage
  import opened Sessions

  /** Where a session's handler is: waiting for an event, or inside
      `check_storage_loop`, which was entered by an ack or by a storage check. */
  datatype Control = Idle | Looping(afterAck: bool)

  datatype Slot = Slot(session: Session, control: Control)

  /** The past as far as timestamp messages go, and the clock. */
  datatype Record = Record(
    now: nat, history: set<Notification>, acked: set<Notification>, deleted: set<Notification>)

  datatype World = World(
    store: Store,
    record: Record,
    hello: map<nat, Option<nat>>,      // pointers read by sessions about to start
    sessions: map<nat, Slot>)

  datatype Step =
    | Tick(seconds: nat)
    | Put(n: Notification)             // an application server stores a message
    | Delete(key: Key)                 // anyone but the session deletes a row
    | Hello(id: nat)                   // the user record is read
    | Start(id: nat, flags: ClientFlags, msgLimit: nat)
    | CheckMsg(id: nat)                // ServerNotification::CheckStorage
    | Direct(id: nat, n: Notification)
    | AckMsg(id: nat, updates: seq<ClientAck>)
    | Turn(id: nat)                    // one turn of check_storage_loop
    | Close(id: nat)                   // the connection or the database fails

  /** DynamoDB's user record has no timestamp; Bigtable's holds the pointer. */
  function UserTimestamp(st: Store): Option<nat> {
    if st.backend.BigTable? then st.pointer else None
  }

  function Enter(w: World, id: nat, s: Session, st: Store, afterAck: bool): World {
    w.(store := st, sessions := w.sessions[id := Slot(s, Looping(afterAck))])
  }

  /** A handler returns; an error ends the session. */
  function Return(w: World, id: nat, s: Session, st: Store, outcome: Outcome): World {
    w.(store := st,
       sessions := if outcome.Failed? then w.sessions - {id}
                   else w.sessions[id := Slot(s, Idle)])
  }

  /** `check_storage_loop` returns to its caller. */
  function Leave(w: World, id: nat, s: Session, st: Store, afterAck: bool, outcome: Outcome): World {
    if afterAck && outcome == Sent([]) then
      var (s1, st1, outcome1) := AllAcked(s, st);
      Return(w, id, s1, st1, outcome1)
    else Return(w, id, s, st, outcome)
  }

  function TurnStep(w: World, id: nat): World
    requires id in w.sessions && w.sessions[id].control.Looping?
  {
    var (s, st, outcome) := LoopStep(w.sessions[id].session, w.store, w.record.now);
    var afterAck := w.sessions[id].control.afterAck;
    if outcome.None? then Enter(w, id, s, st, afterAck)
    else Leave(w, id, s, st, afterAck, outcome.value)
  }

  function AckStep(w: World, id: nat, updates: seq<ClientAck>): World
    requires id in w.sessions
  {
    var s0 := w.sessions[id].session;
    var (s, st) := AckAll(s0, w.store, updates);
    var gone := set n | n in s0.ack.unackedStored && n.sortkey.Some? && n !in s.ack.unackedStored;
    var w1 := w.(record := w.record.(acked := w.record.acked + gone));
    if UnackedNotifs(s) then Return(w1, id, s, st, Sent([]))
    else if !s.flags.checkStorage then
      var (s1, st1, outcome) := AllAcked(s, st);
      Return(w1, id, s1, st1, outcome)
    else if s.flags.incrementStorage then
      if s.ack.unackedStoredHighest.None? then Return(w1, id, s, st, Failed(Internal))
      else
        var (s1, st1) := Increment(s, st);
        Enter(w1, id, s1, st1, true)
    else Enter(w1, id, s, st, true)
  }

  /** A step that does not apply changes nothing. */
  function Next(w: World, step: Step): World {
    match step
    case Tick(seconds) => w.(record := w.record.(now := w.record.now + seconds))
    case Put(n) =>
      if IsStamped(n) then
        w.(store := SaveMessage(w.store, n),
           record := w.record.(history := w.record.history + {n}))
      else if IsTopic(n) then w.(store := SaveMessage(w.store, n))
      else w
    case Delete(key) =>
      var st := RemoveMessage(w.store, key);
      var gone := set n | n in w.store.stamped && n !in st.stamped;
      w.(store := st, record := w.record.(deleted := w.record.deleted + gone))
    case Hello(id) =>
      if w.store.user then w.(hello := w.hello[id := UserTimestamp(w.store)]) else w
    case Start(id, flags, msgLimit) =>
      if id in w.hello && id !in w.sessions then
        var s := NewSession(flags, w.hello[id], msgLimit);
        if flags.checkStorage then Enter(w, id, StartCheck(s), w.store, false)
        else Return(w, id, s, w.store, Sent([]))
      else w
    case Close(id) => w.(sessions := w.sessions - {id})
    case Turn(id) =>
      if id in w.sessions && w.sessions[id].control.Looping? then TurnStep(w, id) else w
    case CheckMsg(id) =>
      if Waiting(w, id) then Enter(w, id, StartCheck(w.sessions[id].session), w.store, false) else w
    case Direct(id, n) =>
      if Waiting(w, id) then Return(w, id, Notif(w.sessions[id].session, n), w.store, Sent([n])) else w
    case AckMsg(id, updates) =>
      if Waiting(w, id) then AckStep(w, id, updates) else w
  }

  predicate Waiting(w: World, id: nat) {
    id in w.sessions && w.sessions[id].control.Idle?
  }

  function Run(w: World, steps: seq<Step>): World
    decreases steps
  {
    if steps == [] then w else Run(Next(w, steps[0]), steps[1..])
  }

  // ------------------------------------------------------------- hypotheses

  predicate Above(n: Notification, mark: Option<nat>) {
    mark.Some? && n.sortkey.Some? ==> n.sortkey.value > mark.value
  }

  /** A newly stored timestamp message is above every timestamp that was read and its
      own is not yet taken. */
  ghost predicate Fresh(w: World, n: Notification) {
    && Above(n, w.store.pointer)
    && (forall id :: id in w.hello ==> Above(n, w.hello[id]))
    && (forall id :: id in w.sessions ==>
          Above(n, w.sessions[id].session.currentTimestamp)
          && Above(n, w.sessions[id].session.ack.unackedStoredHighest))
    && (forall m :: m in w.record.history ==> m.sortkey != n.sortkey)
  }

  ghost predicate AllFresh(w: World, steps: seq<Step>)
    decreases steps
  {
    steps != [] ==>
      && (steps[0].Put? && IsStamped(steps[0].n) ==> Fresh(w, steps[0].n))
      && AllFresh(Next(w, steps[0]), steps[1..])
  }

  // -------------------------------------------------------------- invariant

  /** Nothing more is owed for this message. */
  predicate Settled(r: Record, n: Notification) {
    n in r.acked || n in r.deleted || Expired(n, r.now)
  }

  /** Every message ever stored at or below the mark is settled, or is in `pending`. */
  ghost predicate SettledUpTo(r: Record, mark: Option<nat>, pending: seq<Notification>) {
    forall n :: n in r.history && n.sortkey.Some? && mark.Some? && n.sortkey.value <= mark.value
      ==> Settled(r, n) || n in pending
  }

  ghost predicate SlotOk(r: Record, slot: Slot) {
    var s := slot.session;
    && SettledUpTo(r, s.currentTimestamp, [])
    && SettledUpTo(r, s.ack.unackedStoredHighest, s.ack.unackedStored)
    && (slot.control.Looping? && !(s.flags.includeTopic && s.flags.checkStorage) ==>
          SettledUpTo(r, s.ack.unackedStoredHighest, []))
    && (forall n :: n in s.ack.unackedStored && n.sortkey.Some? ==> n in r.history)
  }

  ghost predicate RecordOk(st: Store, r: Record) {
    && Valid(st)
    && (forall n :: n in r.history ==> IsStamped(n) && (n in st.stamped || n in r.deleted))
    && (forall n :: n in st.stamped ==> n in r.history)
    && r.acked <= r.history && r.deleted <= r.history
    && (forall m, n :: m in r.history && n in r.history && m.sortkey == n.sortkey ==> m == n)
    && SettledUpTo(r, st.pointer, [])
  }

  ghost predicate Inv(w: World) {
    && RecordOk(w.store, w.record)
    && (forall id :: id in w.hello ==> SettledUpTo(w.record, w.hello[id], []))
    && (forall id :: id in w.sessions ==> SlotOk(w.record, w.sessions[id]))
  }

  /** What the record may do while a session is not looking. */
  ghost predicate Grows(r: Record, r1: Record) {
    && r.now <= r1.now && r.history <= r1.history
    && r.acked <= r1.acked && r.deleted <= r1.deleted
  }

  lemma SettledStays(r: Record, r1: Record, mark: Option<nat>, pending: seq<Notification>)
    requires Grows(r, r1) && SettledUpTo(r, mark, pending)
    requires forall n :: n in r1.history && n !in r.history ==> Above(n, mark)
    ensures SettledUpTo(r1, mark, pending)
  {
    forall n | n in r1.history && n.sortkey.Some? && mark.Some? && n.sortkey.value <= mark.value
      ensures Settled(r1, n) || n in pending
    {
      assert n in r.history;
    }
  }

  lemma SlotStays(r: Record, r1: Record, slot: Slot)
    requires Grows(r, r1) && SlotOk(r, slot)
    requires forall n :: n in r1.history && n !in r.history ==>
               Above(n, slot.session.currentTimestamp)
               && Above(n, slot.session.ack.unackedStoredHighest)
    ensures SlotOk(r1, slot)
  {
    var s := slot.session;
    SettledStays(r, r1, s.currentTimestamp, []);
    SettledStays(r, r1, s.ack.unackedStoredHighest, s.ack.unackedStored);
    if slot.control.Looping? && !(s.flags.includeTopic && s.flags.checkStorage) {
      SettledStays(r, r1, s.ack.unackedStoredHighest, []);
    }
  }

  /** The invariant carries over when only the record grows, by messages above all marks. */
  lemma OthersStay(w: World, w1: World)
    requires Inv(w) && Grows(w.record, w1.record)
    requires w1.hello == w.hello && w1.sessions == w.sessions
    requires forall n :: n in w1.record.history && n !in w.record.history ==> Fresh(w, n)
    requires RecordOk(w1.store, w1.record)
    ensures Inv(w1)
  {
    forall id | id in w1.hello ensures SettledUpTo(w1.record, w1.hello[id], []) {
      SettledStays(w.record, w1.record, w1.hello[id], []);
    }
    forall id | id in w1.sessions ensures SlotOk(w1.record, w1.sessions[id]) {
      SlotStays(w.record, w1.record, w1.sessions[id]);
    }
  }

  /** A handler goes on, returns or fails: its own slot must be in order, and no other
      slot depends on the store. */
  lemma EnterOk(w: World, id: nat, s: Session, st: Store, afterAck: bool)
    requires Inv(w) && RecordOk(st, w.record) && SlotOk(w.record, Slot(s, Looping(afterAck)))
    ensures Inv(Enter(w, id, s, st, afterAck))
  {
  }

  lemma ReturnOk(w: World, id: nat, s: Session, st: Store, outcome: Outcome)
    requires Inv(w) && RecordOk(st, w.record)
    requires !outcome.Failed? ==> SlotOk(w.record, Slot(s, Idle))
    ensures Inv(Return(w, id, s, st, outcome))
  {
  }

  lemma LeaveOk(w: World, id: nat, s: Session, st: Store, afterAck: bool, outcome: Outcome)
    requires Inv(w) && RecordOk(st, w.record)
    requires !outcome.Failed? ==> SlotOk(w.record, Slot(s, Idle))
    ensures Inv(Leave(w, id, s, st, afterAck, outcome))
  {
    if afterAck && outcome == Sent([]) {
      var (s1, st1, outcome1) := AllAcked(s, st);
      ReturnOk(w, id, s1, st1, outcome1);
    } else {
      ReturnOk(w, id, s, st, outcome);
    }
  }

  // ------------------------------------------------------------- each step

  /** Two stored rows with one timestamp are one row. */
  lemma SameTimestamp(st: Store, r: Record, m: Notification, n: Notification)
    requires RecordOk(st, r) && m in st.stamped && n in st.stamped && m.sortkey == n.sortkey
    ensures m == n
  {
  }

  /** A timestamp read from a settled start leaves only what it returned to settle. */
  lemma ReadCovers(st: Store, r: Record, after: Option<nat>)
    requires RecordOk(st, r) && SettledUpTo(r, after, [])
    ensures var resp := FetchTimestampMessages(st, after, TIMESTAMP_LIMIT);
            SettledUpTo(r, Or(resp.timestamp, after), Live(resp.messages, r.now))
            && forall n :: n in resp.messages ==> n in r.history
  {
    var rows := After(st.stamped, after);
    var resp := FetchTimestampMessages(st, after, TIMESTAMP_LIMIT);
    if SplitsTie(st, after, TIMESTAMP_LIMIT) {
      AfterKeepsOrder(st.stamped, after);
      StampedOrdered(rows, TIMESTAMP_LIMIT - 1, TIMESTAMP_LIMIT);
      SameTimestamp(st, r, rows[TIMESTAMP_LIMIT], rows[TIMESTAMP_LIMIT - 1]);
    }
    BatchCompleteIffNoSplit(st, after, TIMESTAMP_LIMIT);
    var mark := Or(resp.timestamp, after);
    forall n | n in r.history && n.sortkey.Some? && mark.Some? && n.sortkey.value <= mark.value
      ensures Settled(r, n) || n in Live(resp.messages, r.now)
    {
      if Newer(n, after) && n in st.stamped {
        if resp.timestamp.Some? { assert !Newer(n, resp.timestamp); }
        assert n in resp.messages;
      }
    }
  }

  /** What a response promises: all up to its timestamp is settled, but for its own live messages. */
  ghost predicate Covers(r: Record, resp: CheckStorageResponse) {
    && SettledUpTo(r, resp.timestamp, Live(resp.messages, r.now))
    && forall n :: n in resp.messages && n.sortkey.Some? ==> n in r.history
  }

  lemma TopicReadCovers(st: Store, r: Record, s: Session)
    requires RecordOk(st, r) && DoCheckStorage(s, st).includeTopic
    ensures Covers(r, DoCheckStorage(s, st))
  {
    TopicsAreTopics(st.topics);
  }

  lemma StampedReadCovers(st: Store, r: Record, s: Session)
    requires RecordOk(st, r) && SlotOk(r, Slot(s, Looping(false))) && s.flags.checkStorage
    requires !DoCheckStorage(s, st).includeTopic
    ensures Covers(r, DoCheckStorage(s, st))
  {
    var after := StartOf(s, if s.flags.includeTopic then FetchTopicMessages(st, TOPIC_LIMIT).timestamp else None);
    ReadCovers(st, r, after);
  }

  /** A response that keeps its promise keeps the session in order. */
  lemma ReceiveOk(st: Store, r: Record, s: Session, resp: CheckStorageResponse)
    requires SlotOk(r, Slot(s, Looping(false))) && Covers(r, resp)
    ensures var (s1, _, sent) := Receive(s, st, resp, r.now);
            SlotOk(r, Slot(s1, if sent == [] then Looping(false) else Idle))
  {
    var (s1, _, sent) := Receive(s, st, resp, r.now);
    assert sent == Live(resp.messages, r.now);
    assert forall n :: n in sent ==> n in s1.ack.unackedStored;
  }

  /** One read keeps the reading session in order. While it returns nothing, all that it
      passed is settled, whatever is still unacked from before. */
  lemma AdvanceOk(st: Store, r: Record, s: Session)
    requires RecordOk(st, r) && SlotOk(r, Slot(s, Looping(false))) && s.flags.checkStorage
    ensures var (s1, st1, sent) := Advance(s, st, r.now);
            RecordOk(st1, r) && st1.pointer == st.pointer
            && SlotOk(r, Slot(s1, if sent == [] then Looping(false) else Idle))
  {
    AdvanceKeepsStamped(s, st, r.now);
    if DoCheckStorage(s, st).includeTopic {
      TopicReadCovers(st, r, s);
    } else {
      StampedReadCovers(st, r, s);
    }
    ReceiveOk(st, r, s, DoCheckStorage(s, st));
  }

  lemma IncrementOk(st: Store, r: Record, s: Session)
    requires RecordOk(st, r) && s.ack.unackedStoredHighest.Some?
    requires SettledUpTo(r, s.ack.unackedStoredHighest, [])
    requires SlotOk(r, Slot(s, Idle))
    ensures var (s1, st1) := Increment(s, st);
            RecordOk(st1, r) && SlotOk(r, Slot(s1, Looping(true)))
  {
  }

  lemma TurnOk(w: World, id: nat)
    requires Inv(w) && id in w.sessions && w.sessions[id].control.Looping?
    ensures Inv(TurnStep(w, id))
  {
    var s := w.sessions[id].session;
    var afterAck := w.sessions[id].control.afterAck;
    var (s1, st1, outcome) := LoopStep(s, w.store, w.record.now);
    assert SlotOk(w.record, Slot(s, Looping(false)));
    if s.flags.checkStorage {
      AdvanceOk(w.store, w.record, s);
    } else if s.flags.incrementStorage && s.ack.unackedStoredHighest.Some? {
      IncrementOk(w.store, w.record, s);
    }
    assert RecordOk(st1, w.record);
    if outcome.None? {
      EnterOk(w, id, s1, st1, afterAck);
    } else {
      LeaveOk(w, id, s1, st1, afterAck, outcome.value);
    }
  }

  /** What acks take off the unacked list was named by one of them. */
  lemma {:induction false} AckAllTakes(s: Session, st: Store, updates: seq<ClientAck>)
    ensures var s1 := AckAll(s, st, updates).0;
            (forall n :: n in s1.ack.unackedStored ==> n in s.ack.unackedStored)
            && (forall n :: n in s.ack.unackedStored && n !in s1.ack.unackedStored ==>
                  exists u :: u in updates && Matches(n, u))
            && s1.flags == s.flags && s1.currentTimestamp == s.currentTimestamp
            && s1.ack.unackedStoredHighest == s.ack.unackedStoredHighest
    decreases updates
  {
    if updates != [] {
      var (s1, st1) := AckOne(s, st, updates[0]);
      AckAllTakes(s1, st1, updates[1..]);
      AckOneTakes(s, st, updates[0]);
      assert updates[0] in updates;
    }
  }

  lemma AckOneTakes(s: Session, st: Store, u: ClientAck)
    ensures var s1 := AckOne(s, st, u).0;
            (forall n :: n in s1.ack.unackedStored ==> n in s.ack.unackedStored)
            && (forall n :: n in s.ack.unackedStored && n !in s1.ack.unackedStored ==> Matches(n, u))
  {
    var stored := Position(s.ack.unackedStored, u);
    if stored.Some? {
      var ns := s.ack.unackedStored;
      assert ns == ns[..stored.value] + [ns[stored.value]] + ns[stored.value + 1..];
    }
  }

  lemma {:induction false} AckAllStore(s: Session, st: Store, updates: seq<ClientAck>)
    ensures var st1 := AckAll(s, st, updates).1;
            st1.pointer == st.pointer && st1.user == st.user
            && st1.backend == st.backend && st1.registry == st.registry
    decreases updates
  {
    if updates != [] {
      var (s1, st1) := AckOne(s, st, updates[0]);
      AckAllStore(s1, st1, updates[1..]);
    }
  }

  lemma AckStepOk(w: World, id: nat, updates: seq<ClientAck>)
    requires Inv(w) && id in w.sessions && w.sessions[id].control.Idle?
    ensures Inv(AckStep(w, id, updates))
  {
    var s0 := w.sessions[id].session;
    var (s, st) := AckAll(s0, w.store, updates);
    AckAllKeepsValid(s0, w.store, updates);
    AckAllTakes(s0, w.store, updates);
    AckAllStore(s0, w.store, updates);
    var gone := set n | n in s0.ack.unackedStored && n.sortkey.Some? && n !in s.ack.unackedStored;
    var w1 := w.(record := w.record.(acked := w.record.acked + gone));
    SettledStays(w.record, w1.record, w.store.pointer, []);
    OthersStay(w, w1);
    assert SlotOk(w1.record, Slot(s, Idle));
    assert RecordOk(st, w1.record);
    if UnackedNotifs(s) {
      ReturnOk(w1, id, s, st, Sent([]));
    } else if !s.flags.checkStorage {
      var (s1, st1, outcome) := AllAcked(s, st);
      ReturnOk(w1, id, s1, st1, outcome);
    } else if s.flags.incrementStorage {
      if s.ack.unackedStoredHighest.None? {
        ReturnOk(w1, id, s, st, Failed(Internal));
      } else {
        IncrementOk(st, w1.record, s);
        var (s1, st1) := Increment(s, st);
        EnterOk(w1, id, s1, st1, true);
      }
    } else {
      EnterOk(w1, id, s, st, true);
    }
  }

  lemma {:induction false} InsertStampedOk(ns: seq<Notification>, n: Notification)
    requires StampedValid(ns) && IsStamped(n)
    ensures StampedValid(InsertStamped(ns, n)) && n in InsertStamped(ns, n)
    ensures forall m :: m in InsertStamped(ns, n) ==> m in ns || m == n
    ensures forall m :: m in ns && KeyOf(m, 0) != KeyOf(n, 0) ==> m in InsertStamped(ns, n)
  {
    StampedAreStamped(ns);
    if ns != [] {
      InsertStampedOk(ns[1..], n);
      var r := InsertStamped(ns, n);
      if KeyOf(ns[0], 0) == KeyOf(n, 0) {
        assert r[1..] == ns[1..];
      } else if Precedes(n, ns[0]) {
        assert r == [n] + ns && r[1..] == ns;
        forall m | m in ns[1..] ensures Precedes(n, m) { assert Precedes(ns[0], m); }
      } else {
        assert r[1..] == InsertStamped(ns[1..], n);
      }
    }
  }

  lemma {:induction false} PlaceOk(ns: seq<Notification>, n: Notification)
    requires TopicsValid(ns) && IsTopic(n) && forall m :: m in ns ==> KeyOf(m, 0) != KeyOf(n, 0)
    ensures TopicsValid(Place(ns, n))
  {
    if ns != [] {
      PlaceOk(ns[1..], n);
      PlaceMembers(ns[1..], n);
      var r := Place(ns, n);
      assert r[1..] == if TopicPrecedes(n, ns[0]) then ns else Place(ns[1..], n);
    }
  }

  lemma InsertTopicOk(ns: seq<Notification>, n: Notification)
    requires TopicsValid(ns) && IsTopic(n)
    ensures TopicsValid(InsertTopic(ns, n))
    ensures forall m :: m in InsertTopic(ns, n) ==> m in ns || m == n
  {
    WithoutKeepsValid(ns, KeyOf(n, 0));
    WithoutMembers(ns, KeyOf(n, 0));
    PlaceOk(Without(ns, KeyOf(n, 0)), n);
    InsertTopicMembers(ns, n);
  }

  lemma PutOk(w: World, n: Notification)
    requires Inv(w) && (IsStamped(n) ==> Fresh(w, n))
    ensures Inv(Next(w, Put(n)))
  {
    var w1 := Next(w, Put(n));
    if IsStamped(n) {
      InsertStampedOk(w.store.stamped, n);
      SettledStays(w.record, w1.record, w.store.pointer, []);
      OthersStay(w, w1);
    } else if IsTopic(n) {
      InsertTopicOk(w.store.topics, n);
      OthersStay(w, w1);
    }
  }

  lemma DeleteOk(w: World, key: Key)
    requires Inv(w)
    ensures Inv(Next(w, Delete(key)))
  {
    var w1 := Next(w, Delete(key));
    RemoveKeepsValid(w.store, key);
    WithoutMembers(w.store.stamped, key);
    SettledStays(w.record, w1.record, w.store.pointer, []);
    OthersStay(w, w1);
  }

  lemma StartOk(w: World, id: nat, flags: ClientFlags, msgLimit: nat)
    requires Inv(w) && id in w.hello
    ensures Inv(Next(w, Start(id, flags, msgLimit)))
  {
    var s := NewSession(flags, w.hello[id], msgLimit);
    if id !in w.sessions {
      if flags.checkStorage {
        EnterOk(w, id, StartCheck(s), w.store, false);
      } else {
        ReturnOk(w, id, s, w.store, Sent([]));
      }
    }
  }

  lemma NextOk(w: World, step: Step)
    requires Inv(w) && (step.Put? && IsStamped(step.n) ==> Fresh(w, step.n))
    ensures Inv(Next(w, step))
  {
    match step
    case Tick(_) =>
      SettledStays(w.record, Next(w, step).record, w.store.pointer, []);
      OthersStay(w, Next(w, step));
    case Put(n) => PutOk(w, n);
    case Delete(key) => DeleteOk(w, key);
    case Turn(id) => if id in w.sessions && w.sessions[id].control.Looping? { TurnOk(w, id); }
    case AckMsg(id, updates) => if Waiting(w, id) { AckStepOk(w, id, updates); }
    case Hello(_) =>
    case Start(id, flags, msgLimit) => if id in w.hello { StartOk(w, id, flags, msgLimit); }
    case Close(id) =>
    case CheckMsg(id) =>
      if Waiting(w, id) { EnterOk(w, id, StartCheck(w.sessions[id].session), w.store, false); }
    case Direct(id, n) =>
      if Waiting(w, id) { ReturnOk(w, id, Notif(w.sessions[id].session, n), w.store, Sent([n])); }
  }

  // ------------------------------------------------------------ all the runs

  lemma {:induction false} RunOk(w: World, steps: seq<Step>)
    requires Inv(w) && AllFresh(w, steps)
    ensures Inv(Run(w, steps))
    decreases steps
  {
    if steps != [] {
      NextOk(w, steps[0]);
      RunOk(Next(w, steps[0]), steps[1..]);
    }
  }

  /** A user with stored messages, none of them read yet, and nobody connected. */
  predicate Initial(w: World) {
    && w.hello == map[] && w.sessions == map[] && w.store.pointer == None
    && w.record.history == (set n | n in w.store.stamped)
    && w.record.acked == {} && w.record.deleted == {}
  }

  lemma InitialOk(w0: World)
    requires Initial(w0) && Valid(w0.store)
    requires forall m, n :: m in w0.store.stamped && n in w0.store.stamped && m.sortkey == n.sortkey ==> m == n
    ensures Inv(w0)
  {
    StampedAreStamped(w0.store.stamped);
  }

  /** In every run that starts so and stores only fresh timestamp messages: a message at
      or below the persisted pointer was acked, deleted or has expired; and every other
      one is still stored where the next session's reads begin. */
  lemma {:induction false} PointerSafety(w0: World, steps: seq<Step>)
    requires Initial(w0) && Valid(w0.store) && AllFresh(w0, steps)
    requires forall m, n :: m in w0.store.stamped && n in w0.store.stamped && m.sortkey == n.sortkey ==> m == n
    ensures var w := Run(w0, steps);
            forall n :: n in w.record.history ==>
              && (n.sortkey.Some? && w.store.pointer.Some? && n.sortkey.value <= w.store.pointer.value ==>
                    n in w.record.acked || n in w.record.deleted || Expired(n, w.record.now))
              && (!Settled(w.record, n) ==> n in After(w.store.stamped, w.store.pointer))
  {
    InitialOk(w0);
    RunOk(w0, steps);
  }
}
