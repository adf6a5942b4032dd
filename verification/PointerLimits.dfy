/** Where pointer safety ends: exactly which messages stored late, or behind a cut tie, the pointer passes;
    and what `acked` and `deleted` mean. */
module PointerLimits {
  import opened Notifications
  import opened Storage
  import opened Sessions
  import opened PointerSafety

  /** A message counts as acked, or as deleted, only if the run holds an ack that names
      it, or a deletion of its key. */
  lemma {:induction false} RecordIsEarned(w: World, steps: seq<Step>, n: Notification)
    requires n in Run(w, steps).record.acked + Run(w, steps).record.deleted
    requires n !in w.record.acked + w.record.deleted
    ensures exists i :: 0 <= i < |steps| && Earns(steps[i], n)
    decreases steps
  {
    var w1 := Next(w, steps[0]);
    if n in w1.record.acked + w1.record.deleted {
      NextEarns(w, steps[0], n);
    } else {
      RecordIsEarned(w1, steps[1..], n);
      var i :| 0 <= i < |steps[1..]| && Earns(steps[1..][i], n);
      assert Earns(steps[i + 1], n);
    }
  }

  predicate Earns(step: Step, n: Notification) {
    || (step.AckMsg? && exists u :: u in step.updates && Matches(n, u))
    || (step.Delete? && step.key == KeyOf(n, 0))
  }

  lemma NextEarns(w: World, step: Step, n: Notification)
    requires n in Next(w, step).record.acked + Next(w, step).record.deleted
    requires n !in w.record.acked + w.record.deleted
    ensures Earns(step, n)
  {
    if step.AckMsg? && Waiting(w, step.id) {
      AckAllTakes(w.sessions[step.id].session, w.store, step.updates);
    } else if step.Delete? {
      WithoutMembers(w.store.stamped, step.key);
    }
  }

  // --------------------------------------------------- acking everything

  function AcksFor(ns: seq<Notification>): (r: seq<ClientAck>)
    ensures |r| == |ns|
    ensures forall i :: 0 <= i < |ns| ==> Matches(ns[i], r[i])
  {
    if ns == [] then [] else [ClientAck(ns[0].channelId, ns[0].version)] + AcksFor(ns[1..])
  }

  function AckEverything(s: Session): seq<ClientAck> {
    AcksFor(s.ack.unackedDirect) + AcksFor(s.ack.unackedStored)
  }

  lemma {:induction false} AckAllConcat(s: Session, st: Store, a: seq<ClientAck>, b: seq<ClientAck>)
    ensures AckAll(s, st, a + b) == AckAll(AckAll(s, st, a).0, AckAll(s, st, a).1, b)
    decreases a
  {
    if a == [] {
      assert a + b == b;
    } else {
      var (s1, st1) := AckOne(s, st, a[0]);
      assert (a + b)[1..] == a[1..] + b;
      AckAllConcat(s1, st1, a[1..], b);
    }
  }

  lemma {:induction false} AckDirects(s: Session, st: Store)
    ensures var (s1, st1) := AckAll(s, st, AcksFor(s.ack.unackedDirect));
            st1 == st && s1.ack == s.ack.(unackedDirect := [])
    decreases |s.ack.unackedDirect|
  {
    var ns := s.ack.unackedDirect;
    if ns != [] {
      var (s1, st1) := AckOne(s, st, AcksFor(ns)[0]);
      assert s1.ack.unackedDirect == ns[1..];
      AckDirects(s1, st1);
      assert AcksFor(ns)[1..] == AcksFor(ns[1..]);
    }
  }

  lemma {:induction false} AckStoreds(s: Session, st: Store)
    requires s.ack.unackedDirect == []
    ensures var s1 := AckAll(s, st, AcksFor(s.ack.unackedStored)).0;
            s1.ack == s.ack.(unackedStored := [])
    decreases |s.ack.unackedStored|
  {
    var ns := s.ack.unackedStored;
    if ns != [] {
      var (s1, st1) := AckOne(s, st, AcksFor(ns)[0]);
      assert s1.ack.unackedStored == ns[1..];
      AckStoreds(s1, st1);
      assert AcksFor(ns)[1..] == AcksFor(ns[1..]);
    }
  }

  lemma AckEverythingClears(s: Session, st: Store)
    ensures var s1 := AckAll(s, st, AckEverything(s)).0;
            !UnackedNotifs(s1) && s1.ack.unackedStoredHighest == s.ack.unackedStoredHighest
            && s1.flags == s.flags && s1.currentTimestamp == s.currentTimestamp
  {
    AckAllConcat(s, st, AcksFor(s.ack.unackedDirect), AcksFor(s.ack.unackedStored));
    AckDirects(s, st);
    AckStoreds(AckAll(s, st, AcksFor(s.ack.unackedDirect)).0, st);
    AckAllTakes(s, st, AckEverything(s));
  }

  /** A session about to move the pointer once everything is acked. */
  predicate AboutToIncrement(w: World, id: nat) {
    && Waiting(w, id)
    && w.sessions[id].session.flags.checkStorage
    && w.sessions[id].session.flags.incrementStorage
    && w.sessions[id].session.ack.unackedStoredHighest.Some?
  }

  /** What acking everything does: the pointer moves to the highest timestamp read, and what gets
      settled is just what was on the unacked list, wherever else messages lie. */
  lemma AckingEverythingSettles(w: World, id: nat, n: Notification)
    requires AboutToIncrement(w, id) && Valid(w.store)
    requires n in w.record.history && IsStamped(n)
    ensures var s := w.sessions[id].session;
            var w1 := AckStep(w, id, AckEverything(s));
            && w1.store.pointer == s.ack.unackedStoredHighest && w1.store.stamped == w.store.stamped
            && w1.record.history == w.record.history
            && (Settled(w1.record, n) <==> Settled(w.record, n) || n in s.ack.unackedStored)
            && w1.sessions.Keys == w.sessions.Keys
            && (forall k :: k in w1.sessions && k != id ==> w1.sessions[k] == w.sessions[k])
            && (id in w1.sessions ==> w1.sessions[id].session.ack.unackedStored == [])
  {
    var s := w.sessions[id].session;
    AckEverythingClears(s, w.store);
    AckAllKeepsValid(s, w.store, AckEverything(s));
  }

  /** No session has been sent the message and waits for its ack. */
  ghost predicate InNoList(w: World, n: Notification) {
    forall k :: k in w.sessions ==> n !in w.sessions[k].session.ack.unackedStored
  }

  /** Acking everything leaves a message that is on no list stored, unsent and as settled as it was, and
      passes it exactly when it is at or below the highest timestamp read. */
  lemma AckingPasses(w: World, id: nat, n: Notification)
    requires AboutToIncrement(w, id) && Valid(w.store)
    requires n in w.record.history && n in w.store.stamped && IsStamped(n) && InNoList(w, n)
    ensures var s := w.sessions[id].session;
            var w1 := Next(w, AckMsg(id, AckEverything(s)));
            && n in w1.store.stamped && InNoList(w1, n)
            && (Settled(w1.record, n) <==> Settled(w.record, n))
            && (n !in After(w1.store.stamped, w1.store.pointer) <==>
                n.sortkey.value <= s.ack.unackedStoredHighest.value)
  {
    var s := w.sessions[id].session;
    AckingEverythingSettles(w, id, n);
    assert Next(w, AckMsg(id, AckEverything(s))) == AckStep(w, id, AckEverything(s));
  }

  // ------------------------------------------------------------ late writes

  /** A message stored while a session waits for its last ack is passed by the pointer, unsent and
      unsettled, exactly when it is at or below the highest timestamp that session has read. */
  lemma {:induction false} LateWriteSkippedIff(w: World, id: nat, n: Notification)
    requires Inv(w) && AboutToIncrement(w, id)
    requires IsStamped(n) && n !in w.record.history && !Expired(n, w.record.now)
    ensures var s := w.sessions[id].session;
            var w1 := Run(w, [Put(n), AckMsg(id, AckEverything(s))]);
            && n in w1.store.stamped && !Settled(w1.record, n) && InNoList(w1, n)
            && (n !in After(w1.store.stamped, w1.store.pointer) <==>
                n.sortkey.value <= s.ack.unackedStoredHighest.value)
  {
    var s := w.sessions[id].session;
    InsertStampedOk(w.store.stamped, n);
    var w1 := Next(w, Put(n));
    assert InNoList(w1, n) && !Settled(w1.record, n);
    AckingPasses(w1, id, n);
    TwoSteps(w, Put(n), AckMsg(id, AckEverything(s)));
  }

  lemma TwoSteps(w: World, a: Step, b: Step)
    ensures Run(w, [a, b]) == Next(Next(w, a), b)
  {
    assert [a, b][1..] == [b] && [b][1..] == [];
    assert Run(w, [a, b]) == Run(Next(w, a), [b]) == Run(Next(Next(w, a), b), []);
  }

  lemma {:induction false} RunConcat(w: World, a: seq<Step>, b: seq<Step>)
    ensures Run(w, a + b) == Run(Run(w, a), b)
    decreases a
  {
    if a == [] {
      assert a + b == b;
    } else {
      assert (a + b)[1..] == a[1..] + b;
      RunConcat(Next(w, a[0]), a[1..], b);
    }
  }

  // ------------------------------------------------------------------- ties

  /** Where a session's next read of timestamp messages starts. */
  function ReadStart(s: Session, st: Store): Option<nat> {
    StartOf(s, if s.flags.includeTopic then FetchTopicMessages(st, TOPIC_LIMIT).timestamp else None)
  }

  /** A session whose next turn reads timestamp messages from `after`. */
  predicate AboutToRead(w: World, id: nat, after: Option<nat>) {
    && id in w.sessions && w.sessions[id].control.Looping?
    && w.sessions[id].session.flags.checkStorage
    && (w.sessions[id].session.flags.includeTopic ==> FetchTopicMessages(w.store, TOPIC_LIMIT).messages == [])
    && after == ReadStart(w.sessions[id].session, w.store)
  }

  /** What the turn will send: the unexpired messages of the batch, of which there are some, within the
      limit. */
  predicate WillSend(w: World, id: nat, after: Option<nat>, sent: seq<Notification>) {
    && AboutToRead(w, id, after)
    && sent == Live(FetchTimestampMessages(w.store, after, TIMESTAMP_LIMIT).messages, w.record.now) && sent != []
    && w.sessions[id].session.sentFromStorage + |sent| <= w.sessions[id].session.msgLimit
  }

  lemma {:induction false} NoTopicExpired(ns: seq<Notification>, now: nat)
    requires forall n :: n in ns ==> n.sortkey.Some?
    ensures ExpiredTopics(ns, now) == []
  {
    if ns != [] { NoTopicExpired(ns[1..], now); }
  }

  /** A read sends the unexpired messages of its batch and flags the increment. */
  lemma ReadSends(s: Session, st: Store, now: nat, sent: seq<Notification>)
    requires Valid(st) && s.flags.checkStorage
    requires s.flags.includeTopic ==> FetchTopicMessages(st, TOPIC_LIMIT).messages == []
    requires var r := FetchTimestampMessages(st, ReadStart(s, st), TIMESTAMP_LIMIT);
             sent == Live(r.messages, now) && sent != []
    requires s.sentFromStorage + |sent| <= s.msgLimit
    ensures var (s1, st1, outcome) := LoopStep(s, st, now);
            outcome == Some(Sent(sent)) && st1 == st
            && s1.flags == s.flags.(includeTopic := false, incrementStorage := true)
            && s1.ack == s.ack.(unackedStored := s.ack.unackedStored + sent,
                                unackedStoredHighest := FetchTimestampMessages(st, ReadStart(s, st), TIMESTAMP_LIMIT).timestamp)
            && s1.ack.unackedStoredHighest.Some?
  {
    var r := FetchTimestampMessages(st, ReadStart(s, st), TIMESTAMP_LIMIT);
    StampedAreStamped(st.stamped);
    NoTopicExpired(r.messages, now);
    BatchShrinks(st, ReadStart(s, st));
    assert DoCheckStorage(s, st) == CheckStorageResponse(false, r.messages, r.timestamp);
  }

  lemma TurnSends(w: World, id: nat, after: Option<nat>, sent: seq<Notification>)
    requires Valid(w.store) && WillSend(w, id, after, sent)
    ensures var w1 := TurnStep(w, id);
            && AboutToIncrement(w1, id) && w1.store == w.store && w1.record == w.record
            && w1.sessions[id].session.ack
               == w.sessions[id].session.ack.(
                    unackedStored := w.sessions[id].session.ack.unackedStored + sent,
                    unackedStoredHighest := FetchTimestampMessages(w.store, after, TIMESTAMP_LIMIT).timestamp)
  {
    ReadSends(w.sessions[id].session, w.store, w.record.now, sent);
  }

  /** A batch that is cut by the limit, its timestamp, and the first message beyond it. */
  lemma CutBatch(st: Store, after: Option<nat>)
    requires Valid(st) && |After(st.stamped, after)| > TIMESTAMP_LIMIT
    ensures var n := After(st.stamped, after)[TIMESTAMP_LIMIT];
            var r := FetchTimestampMessages(st, after, TIMESTAMP_LIMIT);
            && n in st.stamped && n !in r.messages && r.timestamp.Some? && n.sortkey.Some?
            && (n.sortkey.value <= r.timestamp.value <==> SplitsTie(st, after, TIMESTAMP_LIMIT))
  {
    var rows := After(st.stamped, after);
    AfterKeepsOrder(st.stamped, after);
    StampedPrefix(rows, TIMESTAMP_LIMIT);
    HighestIsLast(rows[..TIMESTAMP_LIMIT]);
    forall i | 0 <= i < TIMESTAMP_LIMIT ensures rows[i] != rows[TIMESTAMP_LIMIT] {
      StampedOrdered(rows, i, TIMESTAMP_LIMIT);
    }
    StampedOrdered(rows, TIMESTAMP_LIMIT - 1, TIMESTAMP_LIMIT);
    assert rows[TIMESTAMP_LIMIT] in rows;
  }

  lemma NextTurn(w: World, id: nat)
    requires id in w.sessions && w.sessions[id].control.Looping?
    ensures Next(w, Turn(id)) == TurnStep(w, id)
  {
  }

  lemma StepThen(w: World, a: Step, w1: World, b: Step)
    requires Next(w, a) == w1
    ensures Run(w, [a, b]) == Next(w1, b)
  {
    TwoSteps(w, a, b);
  }

  lemma TurnLeavesOthers(w: World, id: nat)
    requires id in w.sessions && w.sessions[id].control.Looping?
    ensures forall k :: k in TurnStep(w, id).sessions && k != id ==>
      k in w.sessions && TurnStep(w, id).sessions[k] == w.sessions[k]
  {
  }

  /** A message that the turn does not send stays off the lists. */
  lemma TurnKeepsOut(w: World, id: nat, after: Option<nat>, sent: seq<Notification>, n: Notification)
    requires Valid(w.store) && WillSend(w, id, after, sent) && InNoList(w, n) && n !in sent
    ensures InNoList(TurnStep(w, id), n)
  {
    TurnSends(w, id, after, sent);
    TurnLeavesOthers(w, id);
  }

  /** The first message beyond a full batch is passed by the pointer, unsent, exactly when the limit cut
      through equal timestamps. */
  lemma {:induction false} SplitTieSkippedIff(w: World, id: nat, after: Option<nat>, sent: seq<Notification>)
    requires Valid(w.store) && WillSend(w, id, after, sent)
    requires |After(w.store.stamped, after)| > TIMESTAMP_LIMIT
    requires var n := After(w.store.stamped, after)[TIMESTAMP_LIMIT];
             n in w.record.history && InNoList(w, n)
    ensures var n := After(w.store.stamped, after)[TIMESTAMP_LIMIT];
            var s1 := TurnStep(w, id).sessions[id].session;
            var w2 := Run(w, [Turn(id), AckMsg(id, AckEverything(s1))]);
            && n in w2.store.stamped && InNoList(w2, n) && n !in sent
            && (Settled(w2.record, n) <==> Settled(w.record, n))
            && (n !in After(w2.store.stamped, w2.store.pointer) <==> SplitsTie(w.store, after, TIMESTAMP_LIMIT))
  {
    var n := After(w.store.stamped, after)[TIMESTAMP_LIMIT];
    CutBatch(w.store, after);
    StampedAreStamped(w.store.stamped);
    TurnSends(w, id, after, sent);
    TurnKeepsOut(w, id, after, sent, n);
    var w1 := TurnStep(w, id);
    AckingPasses(w1, id, n);
    NextTurn(w, id);
    StepThen(w, Turn(id), w1, AckMsg(id, AckEverything(w1.sessions[id].session)));
  }

  // --------------------------------------------- both happen from the start

  ghost predicate Startable(w0: World, flags: ClientFlags) {
    && Initial(w0) && Valid(w0.store) && w0.store.user && flags.checkStorage
    && FetchTopicMessages(w0.store, TOPIC_LIMIT).messages == []
  }

  function FirstBatch(w0: World): seq<Notification> {
    Live(FetchTimestampMessages(w0.store, None, TIMESTAMP_LIMIT).messages, w0.record.now)
  }

  predicate OneRowEach(ns: seq<Notification>) {
    forall a, b :: a in ns && b in ns && a.sortkey == b.sortkey ==> a == b
  }

  /** Somebody connects and asks for what is stored. */
  function Starts(id: nat, flags: ClientFlags, msgLimit: nat): seq<Step> {
    [Hello(id), Start(id, flags, msgLimit)]
  }

  function Started(w0: World, id: nat, flags: ClientFlags, msgLimit: nat): World {
    var hello := UserTimestamp(w0.store);
    w0.(hello := map[id := hello],
        sessions := map[id := Slot(StartCheck(NewSession(flags, hello, msgLimit)), Looping(false))])
  }

  lemma StartsIs(w0: World, id: nat, flags: ClientFlags, msgLimit: nat)
    requires Startable(w0, flags)
    ensures Run(w0, Starts(id, flags, msgLimit)) == Started(w0, id, flags, msgLimit)
  {
    TwoSteps(w0, Hello(id), Start(id, flags, msgLimit));
  }

  /** The first read is of the first timestamp messages. */
  lemma StartedReads(w0: World, id: nat, flags: ClientFlags, msgLimit: nat)
    requires Startable(w0, flags) && FirstBatch(w0) != [] && |FirstBatch(w0)| <= msgLimit
    ensures WillSend(Started(w0, id, flags, msgLimit), id, None, FirstBatch(w0))
  {
  }

  lemma StartedOk(w0: World, id: nat, flags: ClientFlags, msgLimit: nat)
    requires Startable(w0, flags) && OneRowEach(w0.store.stamped)
    ensures Inv(Started(w0, id, flags, msgLimit))
  {
    InitialOk(w0);
  }

  /** The session has read a batch, sent all of it, and waits. */
  ghost predicate Waits(w0: World, w1: World, id: nat, sent: seq<Notification>) {
    && AboutToIncrement(w1, id) && w1.store == w0.store && w1.record == w0.record
    && w1.sessions[id].session.ack.unackedStoredHighest
       == FetchTimestampMessages(w0.store, None, TIMESTAMP_LIMIT).timestamp
    && AckEverything(w1.sessions[id].session) == AcksFor(sent)
  }

  lemma StartedWaits(w0: World, id: nat, flags: ClientFlags, msgLimit: nat)
    requires Startable(w0, flags) && FirstBatch(w0) != [] && |FirstBatch(w0)| <= msgLimit
    ensures var w := Started(w0, id, flags, msgLimit);
            Waits(w0, TurnStep(w, id), id, FirstBatch(w0))
  {
    StartedReads(w0, id, flags, msgLimit);
    TurnSends(Started(w0, id, flags, msgLimit), id, None, FirstBatch(w0));
    OnlyStored(TurnStep(Started(w0, id, flags, msgLimit), id).sessions[id].session, FirstBatch(w0));
  }

  lemma OnlyStored(s: Session, sent: seq<Notification>)
    requires s.ack.unackedDirect == [] && s.ack.unackedStored == [] + sent
    ensures AckEverything(s) == AcksFor(sent)
  {
    assert [] + sent == sent && [] + AcksFor(sent) == AcksFor(sent);
  }

  lemma RunThen(w0: World, a: seq<Step>, s: Step, b: seq<Step>)
    ensures Run(w0, a + [s] + b) == Run(Next(Run(w0, a), s), b)
  {
    RunConcat(w0, a, [s] + b);
    assert a + [s] + b == a + ([s] + b) && ([s] + b)[1..] == b;
  }

  /** A run from the start in which a message is stored late. */
  lemma {:induction false} LateWriteFromStart(w0: World, id: nat, flags: ClientFlags, msgLimit: nat, n: Notification)
    requires Startable(w0, flags) && FirstBatch(w0) != [] && |FirstBatch(w0)| <= msgLimit
    requires OneRowEach(w0.store.stamped)
    requires IsStamped(n) && n !in w0.store.stamped && !Expired(n, w0.record.now)
    ensures var acks := AckMsg(id, AcksFor(FirstBatch(w0)));
            var w1 := Run(w0, Starts(id, flags, msgLimit) + [Turn(id)] + [Put(n), acks]);
            var read := FetchTimestampMessages(w0.store, None, TIMESTAMP_LIMIT).timestamp;
            && n in w1.store.stamped && !Settled(w1.record, n) && InNoList(w1, n) && read.Some?
            && (n !in After(w1.store.stamped, w1.store.pointer) <==> n.sortkey.value <= read.value)
  {
    var w := Started(w0, id, flags, msgLimit);
    StartsIs(w0, id, flags, msgLimit);
    StartedOk(w0, id, flags, msgLimit);
    StartedWaits(w0, id, flags, msgLimit);
    NextTurn(w, id);
    NextOk(w, Turn(id));
    LateWriteSkippedIff(TurnStep(w, id), id, n);
    RunThen(w0, Starts(id, flags, msgLimit), Turn(id), [Put(n), AckMsg(id, AcksFor(FirstBatch(w0)))]);
  }

  /** A run from the start in which the batch limit may cut a tie. */
  lemma {:induction false} SplitTieFromStart(w0: World, id: nat, flags: ClientFlags, msgLimit: nat)
    requires Startable(w0, flags) && FirstBatch(w0) != [] && |FirstBatch(w0)| <= msgLimit
    requires |After(w0.store.stamped, None)| > TIMESTAMP_LIMIT
    ensures var n := After(w0.store.stamped, None)[TIMESTAMP_LIMIT];
            var w2 := Run(w0, Starts(id, flags, msgLimit) + [Turn(id), AckMsg(id, AcksFor(FirstBatch(w0)))]);
            && n in w2.store.stamped && InNoList(w2, n)
            && (Settled(w2.record, n) <==> Expired(n, w0.record.now))
            && (n !in After(w2.store.stamped, w2.store.pointer) <==> SplitsTie(w0.store, None, TIMESTAMP_LIMIT))
  {
    var w := Started(w0, id, flags, msgLimit);
    StartsIs(w0, id, flags, msgLimit);
    StartedReads(w0, id, flags, msgLimit);
    StartedWaits(w0, id, flags, msgLimit);
    CutBatch(w0.store, None);
    SplitTieSkippedIff(w, id, None, FirstBatch(w0));
    RunConcat(w0, Starts(id, flags, msgLimit), [Turn(id), AckMsg(id, AcksFor(FirstBatch(w0)))]);
  }

  const READER := ClientFlags(true, false, true, false)

  function Message(channelId: Uuid, sortkey: nat): Notification {
    Notification(channelId, "v", 60, None, 0, None, Some(sortkey), None)
  }

  function Stored(ns: seq<Notification>): World {
    World(Store(BigTable, false, [], ns, None, true), Record(0, set n | n in ns, {}, {}), map[], map[])
  }

  lemma OneIsStartable(m: Notification)
    requires IsStamped(m) && !Expired(m, 0)
    ensures var w0 := Stored([m]);
      && Startable(w0, READER) && After([m], None) == [m] && FirstBatch(w0) == [m]
      && FetchTimestampMessages(w0.store, None, TIMESTAMP_LIMIT).timestamp == m.sortkey
  {
    assert [m][1..] == [];
    assert StampedValid([m]);
    OnlyTimestamps([m]);
  }

  lemma OnlyTimestamps(ns: seq<Notification>)
    ensures FetchTopicMessages(Stored(ns).store, TOPIC_LIMIT).messages == [] && Initial(Stored(ns))
    ensures StampedValid(ns) ==> Valid(Stored(ns).store)
  {
  }

  /** Read one message, store another below it, ack the first: the second is passed. */
  lemma LateWriteHappens()
    ensures var w0, n := Stored([Message(1, 5)]), Message(2, 4);
            && Initial(w0)
            && var w1 := Run(w0, Starts(0, READER, 1) + [Turn(0)] + [Put(n), AckMsg(0, AcksFor(FirstBatch(w0)))]);
            n in w1.store.stamped && !Settled(w1.record, n) && InNoList(w1, n)
            && n !in After(w1.store.stamped, w1.store.pointer)
  {
    OneIsStartable(Message(1, 5));
    LateWriteFromStart(Stored([Message(1, 5)]), 0, READER, 1, Message(2, 4));
  }

  /** Eleven messages of one timestamp. */
  const ELEVEN: seq<Notification> := seq(11, i requires 0 <= i < 11 => Message(i + 1, 5))

  lemma {:induction false} TiesAreValid(ns: seq<Notification>, from: nat)
    requires from + |ns| < 100 && forall i :: 0 <= i < |ns| ==> ns[i] == Message(from + i, 5)
    ensures StampedValid(ns)
    decreases |ns|
  {
    if ns != [] { TiesAreValid(ns[1..], from + 1); }
  }

  lemma {:induction false} AllLive(ns: seq<Notification>, now: nat)
    requires forall n :: n in ns ==> !Expired(n, now)
    ensures Live(ns, now) == ns
  {
    if ns != [] { AllLive(ns[1..], now); }
  }

  lemma ElevenIsStartable()
    ensures var w0 := Stored(ELEVEN);
      && Startable(w0, READER) && After(ELEVEN, None) == ELEVEN && FirstBatch(w0) == ELEVEN[..10]
      && SplitsTie(w0.store, None, TIMESTAMP_LIMIT)
  {
    TiesAreValid(ELEVEN, 1);
    OnlyTimestamps(ELEVEN);
    forall n | n in ELEVEN ensures Newer(n, None) && !Expired(n, 0) {
      var i :| 0 <= i < 11 && ELEVEN[i] == n;
    }
    AfterAll(ELEVEN, None);
    AllLive(ELEVEN[..10], 0);
  }

  /** The first ten are read and acked, and the eleventh is passed. */
  lemma SplitTieHappens()
    ensures var w0 := Stored(ELEVEN);
            && Initial(w0)
            && var w1 := Run(w0, Starts(0, READER, 10) + [Turn(0), AckMsg(0, AcksFor(FirstBatch(w0)))]);
            ELEVEN[10] in w1.store.stamped && !Settled(w1.record, ELEVEN[10]) && InNoList(w1, ELEVEN[10])
            && ELEVEN[10] !in After(w1.store.stamped, w1.store.pointer)
  {
    ElevenIsStartable();
    SplitTieFromStart(Stored(ELEVEN), 0, READER, 10);
  }
}
