/** The session machine's own consistency: what its debug assertions say, the message
    limit, when it fails with an internal error, and that an uninterrupted handler is a
    run of single turns. */
module Consistency {
  import opened Notifications
  import opened Storage
  import opened Sessions
  import opened PointerSafety

  /** What a session is like between the steps of a run. */
  ghost predicate Consistent(st: Store, slot: Slot) {
    var s := slot.session;
    && (s.flags.incrementStorage ==>
          st.stamped != []
          && (s.ack.unackedStoredHighest.Some?
              || (slot.control.Looping? && s.flags.checkStorage && s.flags.includeTopic)))
    && s.sentFromStorage <= s.msgLimit
    && (slot.control.Idle? && s.flags.checkStorage ==> UnackedNotifs(s))
    && (slot.control.Idle? && !s.flags.checkStorage ==> !s.flags.incrementStorage)
    && (slot.control == Looping(true) ==> !UnackedNotifs(s))
  }

  ghost predicate AllConsistent(w: World) {
    Valid(w.store) && forall id :: id in w.sessions ==> Consistent(w.store, w.sessions[id])
  }

  /** The step makes a session fail with the internal error of `increment_storage`. */
  predicate FailsInternally(w: World, step: Step) {
    match step
    case Turn(id) =>
      id in w.sessions && w.sessions[id].control.Looping?
      && LoopStep(w.sessions[id].session, w.store, w.record.now).2 == Some(Failed(Internal))
    case AckMsg(id, updates) =>
      Waiting(w, id)
      && var s := AckAll(w.sessions[id].session, w.store, updates).0;
      !UnackedNotifs(s) && s.flags.checkStorage && s.flags.incrementStorage
      && s.ack.unackedStoredHighest.None?
    case _ => false
  }

  lemma ReceiveOutcome(s: Session, st: Store, resp: CheckStorageResponse, now: nat)
    ensures var (s1, _, sent) := Receive(s, st, resp, now);
      && s1.flags.oldRecordVersion == s.flags.oldRecordVersion && s1.msgLimit == s.msgLimit
      && s1.ack.unackedDirect == s.ack.unackedDirect && s1.ack.unackedStored == s.ack.unackedStored + sent
      && (sent != [] ==> s1.flags.checkStorage == s.flags.checkStorage)
      && (sent == [] ==> s1.sentFromStorage == s.sentFromStorage || s1.sentFromStorage == 0)
  {
    assert s.ack.unackedStored + [] == s.ack.unackedStored;
  }

  /** How `check_storage_loop` leaves the session: with messages to send it goes on
      checking and is within the limit; with none it has stopped checking, has nothing to
      increment, and has added nothing to the unacked lists. */
  lemma {:induction false} LoopStepOutcome(s: Session, st: Store, now: nat)
    requires Valid(st) && s.sentFromStorage <= s.msgLimit
    ensures var (s1, st1, outcome) := LoopStep(s, st, now);
            (outcome.Some? && outcome.value.Sent? ==>
               s1.sentFromStorage <= s1.msgLimit
               && (outcome.value.notifs != [] ==>
                     s1.flags.checkStorage && s1.ack.unackedStored != [])
               && (outcome.value.notifs == [] ==>
                     !s1.flags.checkStorage && !s1.flags.incrementStorage
                     && s1.ack.unackedStored == s.ack.unackedStored))
            && (outcome.None? ==>
                  s1.ack.unackedStored == s.ack.unackedStored && s1.sentFromStorage <= s1.msgLimit)
            && s1.ack.unackedDirect == s.ack.unackedDirect
            && s1.flags.oldRecordVersion == s.flags.oldRecordVersion
  {
    ReceiveOutcome(s, st, DoCheckStorage(s, st), now);
    assert s.ack.unackedStored + [] == s.ack.unackedStored;
  }

  /** From no timestamp at all, every row is read. */
  lemma AllAfterNone(ns: seq<Notification>)
    requires StampedValid(ns)
    ensures After(ns, None) == ns
  {
    StampedAreStamped(ns);
    AfterAll(ns, None);
  }

  /** A read that finds nothing, where there is something, started from a timestamp. */
  lemma EmptyReadHasStart(s: Session, st: Store)
    requires Valid(st) && st.stamped != [] && DoCheckStorage(s, st).messages == []
    ensures DoCheckStorage(s, st).timestamp.Some?
  {
    AllAfterNone(st.stamped);
  }

  lemma ReceiveBacked(s: Session, st: Store, resp: CheckStorageResponse, now: nat)
    requires s.flags.incrementStorage && resp.messages == [] ==> st.stamped != [] && resp.timestamp.Some?
    requires resp.messages != [] && !resp.includeTopic ==> st.stamped != []
    ensures var s1 := Receive(s, st, resp, now).0;
            s1.flags.incrementStorage ==> st.stamped != [] && s1.ack.unackedStoredHighest.Some?
  {
  }

  /** A read keeps the increment flag backed by a timestamp. */
  lemma AdvanceBacked(s: Session, st: Store, now: nat)
    requires Valid(st) && (s.flags.incrementStorage ==> st.stamped != [])
    ensures var s1 := Advance(s, st, now).0;
            s1.flags.incrementStorage ==> st.stamped != [] && s1.ack.unackedStoredHighest.Some?
  {
    var resp := DoCheckStorage(s, st);
    if s.flags.incrementStorage && resp.messages == [] { EmptyReadHasStart(s, st); }
    if resp.messages != [] { assert resp.messages[0] in resp.messages; }
    ReceiveBacked(s, st, resp, now);
  }

  lemma TurnConsistent(w: World, id: nat)
    requires AllConsistent(w) && id in w.sessions && w.sessions[id].control.Looping?
    ensures AllConsistent(TurnStep(w, id)) && !FailsInternally(w, Turn(id))
  {
    var slot := w.sessions[id];
    var (s1, st1, outcome) := LoopStep(slot.session, w.store, w.record.now);
    LoopStepOutcome(slot.session, w.store, w.record.now);
    LoopStepProgress(slot.session, w.store, w.record.now);
    if slot.session.flags.checkStorage {
      AdvanceBacked(slot.session, w.store, w.record.now);
    }
    if outcome.None? {
      assert Consistent(st1, Slot(s1, slot.control));
    } else if outcome.value.Sent? {
      assert Consistent(st1, Slot(s1, Idle));
    }
    SameStamped(w, TurnStep(w, id), id);
  }

  /** Slots of other sessions look at the timestamp rows only. */
  lemma SameStamped(w: World, w1: World, id: nat)
    requires AllConsistent(w) && Valid(w1.store)
    requires w.store.stamped != [] ==> w1.store.stamped != []
    requires forall other :: other in w1.sessions && other != id ==>
               other in w.sessions && w1.sessions[other] == w.sessions[other]
    requires id in w1.sessions ==> Consistent(w1.store, w1.sessions[id])
    ensures AllConsistent(w1)
  {
    forall other | other in w1.sessions ensures Consistent(w1.store, w1.sessions[other]) {
      if other != id { assert Consistent(w.store, w.sessions[other]); }
    }
  }

  lemma AckConsistent(w: World, id: nat, updates: seq<ClientAck>)
    requires AllConsistent(w) && Waiting(w, id)
    ensures AllConsistent(AckStep(w, id, updates)) && !FailsInternally(w, AckMsg(id, updates))
  {
    var s0 := w.sessions[id].session;
    var (s, st) := AckAll(s0, w.store, updates);
    AckAllKeepsValid(s0, w.store, updates);
    AckAllTakes(s0, w.store, updates);
    AckAllCounts(s0, w.store, updates);
    assert Consistent(w.store, w.sessions[id]);
    SameStamped(w, AckStep(w, id, updates), id);
  }

  lemma {:induction false} AckAllCounts(s: Session, st: Store, updates: seq<ClientAck>)
    ensures var s1 := AckAll(s, st, updates).0;
            s1.sentFromStorage == s.sentFromStorage && s1.msgLimit == s.msgLimit
    decreases updates
  {
    if updates != [] {
      var (s1, st1) := AckOne(s, st, updates[0]);
      AckAllCounts(s1, st1, updates[1..]);
    }
  }

  /** The ack took the first message it names off this list. */
  ghost predicate TookFirst(before: seq<Notification>, after: seq<Notification>, u: ClientAck) {
    exists i :: 0 <= i < |before| && Matches(before[i], u) && after == before[..i] + before[i + 1..]
                && forall j :: 0 <= j < i ==> !Matches(before[j], u)
  }

  predicate NamesOne(ns: seq<Notification>, u: ClientAck) {
    exists n :: n in ns && Matches(n, u)
  }

  /** One ack takes one message: the first direct notification it names, or else the first stored one, or
      else none. It deletes nothing from the store but an acked topic message's key. */
  lemma AckTakesFirst(s: Session, st: Store, u: ClientAck)
    ensures var (s1, st1) := AckOne(s, st, u);
      if NamesOne(s.ack.unackedDirect, u) then
        TookFirst(s.ack.unackedDirect, s1.ack.unackedDirect, u)
        && s1.ack.unackedStored == s.ack.unackedStored && st1 == st
      else if NamesOne(s.ack.unackedStored, u) then
        TookFirst(s.ack.unackedStored, s1.ack.unackedStored, u)
        && s1.ack.unackedDirect == s.ack.unackedDirect && st1 == st.(topics := st1.topics, stamped := st1.stamped)
      else s1 == s && st1 == st
  {
    var direct, stored := Position(s.ack.unackedDirect, u), Position(s.ack.unackedStored, u);
    if direct.Some? {
      assert s.ack.unackedDirect[direct.value] in s.ack.unackedDirect;
    } else if stored.Some? {
      assert s.ack.unackedStored[stored.value] in s.ack.unackedStored;
    }
  }

  /** Every message that an ack takes off a list is counted, once. */
  lemma {:induction false} AcksAreCounted(s: Session, st: Store, updates: seq<ClientAck>)
    ensures var s1 := AckAll(s, st, updates).0;
      && s1.stats.directAcked + |s1.ack.unackedDirect| == s.stats.directAcked + |s.ack.unackedDirect|
      && s1.stats.storedAcked + |s1.ack.unackedStored| == s.stats.storedAcked + |s.ack.unackedStored|
      && s1.stats.directStorage == s.stats.directStorage
    decreases updates
  {
    if updates != [] {
      var (s1, st1) := AckOne(s, st, updates[0]);
      AcksAreCounted(s1, st1, updates[1..]);
    }
  }

  lemma PutConsistent(w: World, n: Notification)
    requires AllConsistent(w)
    ensures AllConsistent(Next(w, Put(n)))
  {
    if IsStamped(n) { InsertStampedOk(w.store.stamped, n); }
    else if IsTopic(n) { InsertTopicOk(w.store.topics, n); }
  }

  /** Steps that touch one session, and the store not at all. */
  lemma OneSessionConsistent(w: World, step: Step)
    requires AllConsistent(w)
    requires step.CheckMsg? || step.Direct? || (step.Start? && !step.flags.incrementStorage)
    ensures AllConsistent(Next(w, step))
  {
    SameStamped(w, Next(w, step), step.id);
  }

  lemma NextConsistent(w: World, step: Step)
    requires AllConsistent(w) && !step.Delete? && (step.Start? ==> !step.flags.incrementStorage)
    ensures AllConsistent(Next(w, step)) && !FailsInternally(w, step)
  {
    match step
    case Put(n) => PutConsistent(w, n);
    case Turn(id) =>
      if id in w.sessions && w.sessions[id].control.Looping? { TurnConsistent(w, id); }
    case AckMsg(id, updates) => if Waiting(w, id) { AckConsistent(w, id, updates); }
    case CheckMsg(id) => OneSessionConsistent(w, step);
    case Direct(id, n) => OneSessionConsistent(w, step);
    case Start(id, _, _) => OneSessionConsistent(w, step);
    case _ =>
  }

  /** In every run in which nobody else deletes stored rows, no session ever fails with
      the internal error, none exceeds its limit, and a session that is waiting in the
      middle of its stored messages always has an ack to wait for. */
  lemma {:induction false} RunsAreConsistent(w: World, steps: seq<Step>, next: Step)
    requires AllConsistent(w)
    requires forall i :: 0 <= i < |steps| ==>
               !steps[i].Delete? && (steps[i].Start? ==> !steps[i].flags.incrementStorage)
    requires !next.Delete? && (next.Start? ==> !next.flags.incrementStorage)
    ensures AllConsistent(Run(w, steps)) && !FailsInternally(Run(w, steps), next)
    decreases steps
  {
    if steps == [] {
      NextConsistent(w, next);
    } else {
      NextConsistent(w, steps[0]);
      RunsAreConsistent(Next(w, steps[0]), steps[1..], next);
    }
  }

  /** The loop takes the user's record away exactly when it tells the client of a reset, and that exactly
      when more was sent than the limit allows. */
  lemma {:induction false} LoopResetsIff(s: Session, st: Store, now: nat)
    requires Valid(st) && s.sentFromStorage <= s.msgLimit
    ensures var (s1, _, outcome) := CheckStorageLoop(s, st, now);
            s1.flags.oldRecordVersion == s.flags.oldRecordVersion
            && (outcome == Failed(UaidReset) <==> s1.sentFromStorage > s1.msgLimit)
    decreases s.flags.checkStorage, s.flags.includeTopic, |st.topics|, |Unread(s, st)|
  {
    LoopStepOutcome(s, st, now);
    LoopStepProgress(s, st, now);
    var (s1, st1, outcome) := LoopStep(s, st, now);
    if outcome.None? { LoopResetsIff(s1, st1, now); }
  }

  lemma {:induction false} LoopUser(s: Session, st: Store, now: nat)
    requires Valid(st)
    ensures var (_, st1, outcome) := CheckStorageLoop(s, st, now);
            st1.user == (st.user && outcome != Failed(UaidReset))
    decreases s.flags.checkStorage, s.flags.includeTopic, |st.topics|, |Unread(s, st)|
  {
    LoopStepProgress(s, st, now);
    StepUser(s, st, now);
    var (s1, st1, outcome) := LoopStep(s, st, now);
    if outcome.None? { LoopUser(s1, st1, now); }
  }

  lemma StepUser(s: Session, st: Store, now: nat)
    requires Valid(st)
    ensures var (_, st1, outcome) := LoopStep(s, st, now);
            st1.user == (st.user && outcome != Some(Failed(UaidReset)))
  {
    AdvanceKeepsStamped(s, st, now);
  }

  /** An ack message takes the user's record away exactly when it is answered with a reset. */
  lemma AckUser(s: Session, st: Store, updates: seq<ClientAck>, now: nat)
    requires Valid(st)
    ensures var (_, st1, outcome) := Ack(s, st, updates, now);
            st1.user == (st.user && outcome != Failed(UaidReset))
  {
    AckAllKeepsValid(s, st, updates);
    AckAllStore(s, st, updates);
    var (s1, st1) := AckAll(s, st, updates);
    if !UnackedNotifs(s1) && s1.flags.checkStorage {
      var (s2, st2) := if s1.flags.incrementStorage && s1.ack.unackedStoredHighest.Some? then Increment(s1, st1) else (s1, st1);
      LoopUser(s2, st2, now);
    }
  }

  /** Messages just sent are unacked. */
  lemma {:induction false} LoopSendsUnacked(s: Session, st: Store, now: nat)
    requires Valid(st) && s.sentFromStorage <= s.msgLimit
    ensures var (s1, _, outcome) := CheckStorageLoop(s, st, now);
            outcome.Sent? && outcome.notifs != [] ==> s1.ack.unackedStored != []
    decreases s.flags.checkStorage, s.flags.includeTopic, |st.topics|, |Unread(s, st)|
  {
    LoopStepOutcome(s, st, now);
    LoopStepProgress(s, st, now);
    var (s1, st1, outcome) := LoopStep(s, st, now);
    if outcome.None? { LoopSendsUnacked(s1, st1, now); }
  }

  /** When a handler that ran with the session `s` was right to end in a reset: more was sent than the
      limit allows, or the user's record is of an old version and nothing was left to ack or to send. */
  predicate ResetIff(s: Session, s1: Session, outcome: Outcome) {
    outcome == Failed(UaidReset) <==>
      || s1.sentFromStorage > s1.msgLimit
      || (s.flags.oldRecordVersion && !UnackedNotifs(s1) && outcome != Failed(Internal))
  }

  lemma LoopThenAllAcked(s: Session, st: Store, s1: Session, st1: Store, outcome: Outcome)
    requires s1.flags.oldRecordVersion == s.flags.oldRecordVersion
    requires outcome == Failed(UaidReset) <==> s1.sentFromStorage > s1.msgLimit
    requires outcome == Failed(UaidReset) || outcome == Failed(Internal) || outcome.Sent?
    requires outcome.Sent? ==> (outcome.notifs != [] <==> UnackedNotifs(s1))
    ensures var (s2, _, outcome2) := if outcome == Sent([]) then AllAcked(s1, st1) else (s1, st1, outcome);
            ResetIff(s, s2, outcome2)
  {
  }

  lemma PostResetsIff(s: Session, st: Store, now: nat)
    requires Valid(st) && s.sentFromStorage <= s.msgLimit && !UnackedNotifs(s)
    ensures var (s1, _, outcome) := PostProcessAllAcked(s, st, now);
            ResetIff(s, s1, outcome)
  {
    if s.flags.checkStorage && (s.flags.incrementStorage ==> s.ack.unackedStoredHighest.Some?) {
      var (s1, st1) := if s.flags.incrementStorage then Increment(s, st) else (s, st);
      LoopResetsIff(s1, st1, now);
      DebugAssertionsHold(s1, st1, now);
      LoopSendsUnacked(s1, st1, now);
      LoopFails(s1, st1, now);
      var (s2, st2, outcome) := CheckStorageLoop(s1, st1, now);
      LoopThenAllAcked(s, st, s2, st2, outcome);
    }
  }

  lemma {:induction false} LoopFails(s: Session, st: Store, now: nat)
    requires Valid(st)
    ensures var outcome := CheckStorageLoop(s, st, now).2;
            outcome == Failed(UaidReset) || outcome == Failed(Internal) || outcome.Sent?
    decreases s.flags.checkStorage, s.flags.includeTopic, |st.topics|, |Unread(s, st)|
  {
    LoopStepProgress(s, st, now);
    var (s1, st1, outcome) := LoopStep(s, st, now);
    if outcome.None? { LoopFails(s1, st1, now); }
  }

  /** And it is answered so exactly when more was sent than the limit allows, or when a user whose record
      is of an old version has acked everything and nothing was left to send. */
  lemma AckResetsIff(s: Session, st: Store, updates: seq<ClientAck>, now: nat)
    requires Valid(st) && s.sentFromStorage <= s.msgLimit
    ensures var (s1, _, outcome) := Ack(s, st, updates, now);
            ResetIff(s, s1, outcome)
  {
    AckAllKeepsValid(s, st, updates);
    AckAllTakes(s, st, updates);
    AckAllCounts(s, st, updates);
    var (s1, st1) := AckAll(s, st, updates);
    if !UnackedNotifs(s1) { PostResetsIff(s1, st1, now); }
  }

  /** The debug assertions after the loop of `post_process_all_acked`, which runs once nothing is
      unacked: with messages to send it is still checking; with none it has stopped, nothing is left to
      increment, and still nothing is unacked. */
  lemma {:induction false} DebugAssertionsHold(s: Session, st: Store, now: nat)
    requires Valid(st) && s.sentFromStorage <= s.msgLimit && !UnackedNotifs(s)
    ensures var (s1, _, outcome) := CheckStorageLoop(s, st, now);
            outcome.Sent? ==>
              if outcome.notifs != [] then s1.flags.checkStorage
              else !s1.flags.checkStorage && !s1.flags.incrementStorage && !UnackedNotifs(s1)
    decreases s.flags.checkStorage, s.flags.includeTopic, |st.topics|, |Unread(s, st)|
  {
    var (s1, st1, outcome) := LoopStep(s, st, now);
    LoopStepOutcome(s, st, now);
    LoopStepProgress(s, st, now);
    if outcome.None? { DebugAssertionsHold(s1, st1, now); }
  }

  // -------------------------------------------- when it does fail internally

  /** From a backed increment flag the loop never fails internally. */
  lemma {:induction false} LoopNeverInternal(s: Session, st: Store, now: nat)
    requires Valid(st)
    requires s.flags.incrementStorage ==>
               st.stamped != [] && (s.ack.unackedStoredHighest.Some? || (s.flags.checkStorage && s.flags.includeTopic))
    ensures CheckStorageLoop(s, st, now).2 != Failed(Internal)
    decreases s.flags.checkStorage, s.flags.includeTopic, |st.topics|, |Unread(s, st)|
  {
    var (s1, st1, outcome) := LoopStep(s, st, now);
    LoopStepProgress(s, st, now);
    if s.flags.checkStorage { AdvanceBacked(s, st, now); }
    if outcome.None? { LoopNeverInternal(s1, st1, now); }
  }

  /** A storage check fails internally exactly when an increment was still pending, and
      there is no row left to read and no timestamp to start from: the rows behind the
      pending increment were deleted before the pointer was ever written. */
  lemma CheckStorageFailsIff(s: Session, st: Store, now: nat)
    requires Valid(st)
    ensures CheckStorage(s, st, now).2 == Failed(Internal) <==>
              s.flags.incrementStorage
              && FetchTopicMessages(st, TOPIC_LIMIT).messages == [] && st.stamped == []
              && FetchTopicMessages(st, TOPIC_LIMIT).timestamp.None? && s.currentTimestamp.None?
  {
    var s0 := StartCheck(s);
    var (s1, st1, outcome) := LoopStep(s0, st, now);
    LoopStepProgress(s0, st, now);
    AllAfterNone(st.stamped);
    var resp := DoCheckStorage(s0, st);
    if resp.messages == [] {
      var (s2, st2, outcome2) := LoopStep(s1, st1, now);
      assert CheckStorageLoop(s1, st1, now) == (s2, st2, outcome2.value);
    } else if outcome.None? {
      FirstReadBacks(s0, st, now);
      LoopNeverInternal(s1, st1, now);
    }
  }

  lemma FirstReadBacks(s: Session, st: Store, now: nat)
    requires Valid(st) && DoCheckStorage(s, st).messages != []
    ensures var (s1, st1, sent) := Advance(s, st, now);
            s1.flags.incrementStorage ==> st1.stamped != [] && s1.ack.unackedStoredHighest.Some?
  {
    AdvanceKeepsStamped(s, st, now);
    var resp := DoCheckStorage(s, st);
    if !resp.includeTopic {
      assert resp.messages[0] in st.stamped;
    }
  }

  /** So it does when the only message, sent but not acked, is deleted. */
  lemma DeletedRowsCanFail(n: Notification, msgLimit: nat, now: nat)
    requires IsStamped(n) && !Expired(n, now) && msgLimit > 0
    ensures var st := Store(BigTable, false, [], [n], None, true);
            var flags := ClientFlags(true, false, true, false);
            var (s1, st1, outcome1) := CheckStorage(NewSession(flags, None, msgLimit), st, now);
            outcome1 == Sent([n])
            && CheckStorage(s1, RemoveMessage(st1, KeyOf(n, 0)), now).2 == Failed(Internal)
  {
    var st := Store(BigTable, false, [], [n], None, true);
    var s0 := StartCheck(NewSession(ClientFlags(true, false, true, false), None, msgLimit));
    assert n in st.stamped && After(st.stamped, None) == [n];
    assert Live([n], now) == [n];
    assert ExpiredTopics([n], now) == [];
    var (s1, st1, outcome1) := LoopStep(s0, st, now);
    assert outcome1 == Some(Sent([n])) && s1.flags.incrementStorage;
    var st2 := RemoveMessage(st1, KeyOf(n, 0));
    assert st2.stamped == [];
    CheckStorageFailsIff(s1, st2, now);
  }

  // --------------------------------- an uninterrupted handler is a run of turns

  function Turns(id: nat, k: nat): (r: seq<Step>)
    ensures |r| == k
  {
    if k == 0 then [] else [Turn(id)] + Turns(id, k - 1)
  }

  lemma {:induction false} LoopIsTurns(w: World, id: nat) returns (k: nat)
    requires id in w.sessions && w.sessions[id].control.Looping? && Valid(w.store)
    ensures var (s, st, outcome) := CheckStorageLoop(w.sessions[id].session, w.store, w.record.now);
            Run(w, Turns(id, k)) == Leave(w, id, s, st, w.sessions[id].control.afterAck, outcome)
    decreases w.sessions[id].session.flags.checkStorage, w.sessions[id].session.flags.includeTopic,
              |w.store.topics|, |Unread(w.sessions[id].session, w.store)|
  {
    var s := w.sessions[id].session;
    var (s1, st1, outcome) := LoopStep(s, w.store, w.record.now);
    LoopStepProgress(s, w.store, w.record.now);
    var w1 := TurnStep(w, id);
    if outcome.None? {
      var k1 := LoopIsTurns(w1, id);
      k := k1 + 1;
      assert Turns(id, k)[1..] == Turns(id, k1);
      assert Run(w, Turns(id, k)) == Run(w1, Turns(id, k1));
      var (s2, st2, outcome2) := CheckStorageLoop(s1, st1, w.record.now);
      LeaveAfterEnter(w, id, s1, st1, w.sessions[id].control.afterAck, s2, st2, outcome2);
    } else {
      k := 1;
      assert Turns(id, 1)[1..] == [];
      assert Run(w, Turns(id, 1)) == Run(w1, []);
    }
  }

  lemma LeaveAfterEnter(w: World, id: nat, s1: Session, st1: Store, afterAck: bool,
                        s2: Session, st2: Store, outcome: Outcome)
    requires id in w.sessions
    ensures Leave(Enter(w, id, s1, st1, afterAck), id, s2, st2, afterAck, outcome)
            == Leave(w, id, s2, st2, afterAck, outcome)
  {
    var w1 := Enter(w, id, s1, st1, afterAck);
    assert w1.sessions - {id} == w.sessions - {id};
    assert w1.sessions[id := Slot(s2, Idle)] == w.sessions[id := Slot(s2, Idle)];
  }

  /** With nothing in between, a storage check is one `CheckMsg` and some turns. */
  lemma {:induction false} CheckStorageIsARun(w: World, id: nat) returns (k: nat)
    requires Waiting(w, id) && Valid(w.store)
    ensures var (s, st, outcome) := CheckStorage(w.sessions[id].session, w.store, w.record.now);
            Run(w, [CheckMsg(id)] + Turns(id, k)) == Return(w, id, s, st, outcome)
  {
    var s0 := StartCheck(w.sessions[id].session);
    var w1 := Enter(w, id, s0, w.store, false);
    k := LoopIsTurns(w1, id);
    var (s, st, outcome) := CheckStorageLoop(s0, w.store, w.record.now);
    LeaveAfterEnter(w, id, s0, w.store, false, s, st, outcome);
    assert ([CheckMsg(id)] + Turns(id, k))[1..] == Turns(id, k);
  }

  /** And the handling of an ack is one `AckMsg` and some turns. */
  lemma {:induction false} AckIsARun(w: World, id: nat, updates: seq<ClientAck>) returns (k: nat)
    requires Waiting(w, id) && Valid(w.store)
    ensures var (s, st, outcome) := Ack(w.sessions[id].session, w.store, updates, w.record.now);
            var w2 := Run(w, [AckMsg(id, updates)] + Turns(id, k));
            w2 == Return(w, id, s, st, outcome).(record := w2.record)
  {
    var s0, st0 := w.sessions[id].session, w.store;
    AckAllKeepsValid(s0, st0, updates);
    var (s1, st1) := AckAll(s0, st0, updates);
    var w1 := AckStep(w, id, updates);
    if id in w1.sessions && w1.sessions[id].control.Looping? {
      k := LoopIsTurns(w1, id);
      AckEnters(w, id, updates);
    } else {
      AckReturns(w, id, updates);
      k := 0;
    }
    assert ([AckMsg(id, updates)] + Turns(id, k))[1..] == Turns(id, k);
    assert Run(w, [AckMsg(id, updates)] + Turns(id, k)) == Run(w1, Turns(id, k));
  }

  lemma AckReturns(w: World, id: nat, updates: seq<ClientAck>)
    requires Waiting(w, id) && Valid(w.store)
    requires var w1 := AckStep(w, id, updates); !(id in w1.sessions && w1.sessions[id].control.Looping?)
    ensures var w1 := AckStep(w, id, updates);
            var (s, st, outcome) := Ack(w.sessions[id].session, w.store, updates, w.record.now);
            w1 == Return(w.(record := w1.record), id, s, st, outcome)
  {
  }

  lemma AckEntersLoop(w: World, id: nat, updates: seq<ClientAck>)
    requires Waiting(w, id) && Valid(w.store)
    requires var w1 := AckStep(w, id, updates); id in w1.sessions && w1.sessions[id].control.Looping?
    ensures var w1 := AckStep(w, id, updates);
            var (s, st) := AckAll(w.sessions[id].session, w.store, updates);
            && !UnackedNotifs(s) && s.flags.checkStorage && w1.record.now == w.record.now
            && (s.flags.incrementStorage ==> s.ack.unackedStoredHighest.Some?)
            && (w1.sessions[id].session, w1.store) == (if s.flags.incrementStorage then Increment(s, st) else (s, st))
            && w1 == Enter(w.(record := w1.record), id, w1.sessions[id].session, w1.store, true)
  {
  }

  lemma AckEnters(w: World, id: nat, updates: seq<ClientAck>)
    requires Waiting(w, id) && Valid(w.store)
    requires var w1 := AckStep(w, id, updates);
             id in w1.sessions && w1.sessions[id].control.Looping? && Valid(w1.store)
    ensures var w1 := AckStep(w, id, updates);
            var (s, st, outcome) := Ack(w.sessions[id].session, w.store, updates, w.record.now);
            var (s2, st2, outcome2) := CheckStorageLoop(w1.sessions[id].session, w1.store, w1.record.now);
            Leave(w1, id, s2, st2, w1.sessions[id].control.afterAck, outcome2)
            == Return(w.(record := w1.record), id, s, st, outcome)
  {
    var w1 := AckStep(w, id, updates);
    var slot := w1.sessions[id];
    AckEntersLoop(w, id, updates);
    var (s2, st2, outcome2) := CheckStorageLoop(slot.session, w1.store, w1.record.now);
    LeaveAfterEnter(w.(record := w1.record), id, slot.session, w1.store, true, s2, st2, outcome2);
  }
}
