/** Topic messages are deleted by key, not by version: when a stored topic message can
    go, and when an ack takes away a message that the client never saw. */
module TopicMessages {
  import opened Notifications
  import opened Storage
  import opened Sessions
  import opened PointerSafety

  /** The first topic message is read exactly if DynamoDB's registry row precedes it;
      otherwise it is dropped in the registry row's place. */
  lemma FirstTopicIsReadIff(st: Store, limit: nat)
    requires Valid(st) && st.topics != [] && limit > 1
    ensures st.topics[0] in FetchTopicMessages(st, limit).messages <==> st.backend.BigTable? || st.registry
  {
    var first := st.topics[0];
    var read := FetchTopicMessages(st, limit).messages;
    if st.backend.BigTable? || st.registry {
      assert read[0] == first;
    } else {
      forall i | 0 <= i < |read| ensures read[i] != first {
        assert read[i] == st.topics[1..][i] && st.topics[1..][i] in st.topics[1..];
      }
    }
  }

  /** Writing the pointer brings the registry row about: from then on no topic message is dropped, and the
      pointer is read back with the first batch where it is kept with the messages. */
  lemma IncrementKeepsFirstTopic(st: Store, timestamp: nat, limit: nat)
    requires Valid(st) && st.topics != [] && limit > 1
    ensures var r := FetchTopicMessages(IncrementStorage(st, timestamp), limit);
      && st.topics[0] in r.messages
      && (st.backend.DynamoDb? ==> r.timestamp == Some(timestamp))
      && IncrementStorage(st, timestamp).pointer == Some(timestamp)
  {
    FirstTopicIsReadIff(IncrementStorage(st, timestamp), limit);
  }

  /** A newer message stored under the topic of one that was sent survives the ack of the
      sent one exactly if it is not under the same key. */
  lemma ReplacementSurvivesIff(s: Session, st: Store, u: ClientAck, m: Notification)
    requires Valid(st) && IsTopic(m)
    requires Position(s.ack.unackedDirect, u).None? && Position(s.ack.unackedStored, u).Some?
    requires IsTopic(s.ack.unackedStored[Position(s.ack.unackedStored, u).value])
    ensures var n := s.ack.unackedStored[Position(s.ack.unackedStored, u).value];
            var st1 := SaveMessage(st, m);
            m in st1.topics
            && (m in AckOne(s, st1, u).1.topics <==> KeyOf(m, 0) != KeyOf(n, 0))
  {
    var n := s.ack.unackedStored[Position(s.ack.unackedStored, u).value];
    var st1 := SaveMessage(st, m);
    InsertTopicMembers(st.topics, m);
    WithoutMembers(st1.topics, KeyOf(n, 0));
  }

  /** The reasons for which a step may remove the stored topic message `m`. */
  ghost predicate MayRemove(w: World, step: Step, m: Notification) {
    match step
    case Put(n) => KeyOf(n, 0) == KeyOf(m, 0)
    case Delete(key) => key == KeyOf(m, 0)
    case Turn(_) => Expired(m, w.record.now)
    case AckMsg(id, updates) => Waiting(w, id) && AckedUnder(w.sessions[id].session, updates, m)
    case _ => false
  }

  /** A notification with the key of `m` was sent to the client, and acked. */
  ghost predicate AckedUnder(s: Session, updates: seq<ClientAck>, m: Notification) {
    exists n, u :: n in s.ack.unackedStored && u in updates && Matches(n, u) && KeyOf(n, 0) == KeyOf(m, 0)
  }

  /** In any world, a topic message leaves the store only by being replaced, deleted, seen
      expired, or by the ack of a message that was sent under its key. */
  lemma TopicLeavesOnlyIf(w: World, step: Step, m: Notification)
    requires Valid(w.store) && m in w.store.topics && m !in Next(w, step).store.topics
    ensures MayRemove(w, step, m)
  {
    match step
    case Put(n) =>
      if IsTopic(n) { InsertTopicMembers(w.store.topics, n); }
    case Delete(key) => WithoutMembers(w.store.topics, key);
    case Turn(id) => TurnTopics(w, id, m);
    case AckMsg(id, updates) => AckTopics(w.sessions[id].session, w.store, updates, m);
    case _ =>
  }

  /** Every step keeps the table's keys apart, whatever is stored. */
  lemma NextKeepsTopics(w: World, step: Step)
    requires Valid(w.store)
    ensures Valid(Next(w, step).store)
  {
    match step
    case Put(n) =>
      if IsStamped(n) { InsertStampedOk(w.store.stamped, n); }
      else if IsTopic(n) { InsertTopicOk(w.store.topics, n); }
    case Delete(key) => RemoveKeepsValid(w.store, key);
    case Turn(id) =>
      if id in w.sessions && w.sessions[id].control.Looping? {
        LoopStepProgress(w.sessions[id].session, w.store, w.record.now);
      }
    case AckMsg(id, updates) =>
      if Waiting(w, id) { AckAllKeepsValid(w.sessions[id].session, w.store, updates); }
    case _ =>
  }

  /** The message is stored before step `i`, which may remove it. */
  ghost predicate LeavesAt(w: World, steps: seq<Step>, m: Notification, i: nat) {
    i < |steps| && m in Run(w, steps[..i]).store.topics && MayRemove(Run(w, steps[..i]), steps[i], m)
  }

  /** In every run, from any world at all: a topic message that was stored and is gone at the end left at
      a step that replaced it, deleted it, saw it expired, or acked a message sent under its key. */
  lemma {:induction false} TopicLostOnlyIf(w: World, steps: seq<Step>, m: Notification)
    requires Valid(w.store) && m in w.store.topics && m !in Run(w, steps).store.topics
    ensures exists i: nat :: LeavesAt(w, steps, m, i)
    decreases |steps|
  {
    var w1 := Next(w, steps[0]);
    NextKeepsTopics(w, steps[0]);
    if m !in w1.store.topics {
      TopicLeavesOnlyIf(w, steps[0], m);
      assert LeavesAt(w, steps, m, 0);
    } else {
      TopicLostOnlyIf(w1, steps[1..], m);
      var j: nat :| LeavesAt(w1, steps[1..], m, j);
      assert steps[..j + 1][1..] == steps[1..][..j];
      assert LeavesAt(w, steps, m, j + 1);
    }
  }

  lemma TurnTopics(w: World, id: nat, m: Notification)
    requires id in w.sessions && w.sessions[id].control.Looping?
    requires Valid(w.store) && m in w.store.topics && m !in TurnStep(w, id).store.topics
    ensures Expired(m, w.record.now)
  {
    TurnKeepsTopics(w, id);
    LoopStepTopics(w.sessions[id].session, w.store, w.record.now);
    AdvanceTopics(w.sessions[id].session, w.store, w.record.now, m);
  }

  /** After its read a turn touches no topic message. */
  lemma TurnKeepsTopics(w: World, id: nat)
    requires id in w.sessions && w.sessions[id].control.Looping?
    ensures TurnStep(w, id).store.topics == LoopStep(w.sessions[id].session, w.store, w.record.now).1.topics
  {
  }

  lemma LoopStepTopics(s: Session, st: Store, now: nat)
    ensures LoopStep(s, st, now).1.topics == if s.flags.checkStorage then Advance(s, st, now).1.topics else st.topics
  {
  }

  /** A read deletes only topic messages that it found expired. */
  lemma AdvanceTopics(s: Session, st: Store, now: nat, m: Notification)
    requires Valid(st) && m in st.topics
    ensures m in Advance(s, st, now).1.topics || Expired(m, now)
  {
    var resp := DoCheckStorage(s, st);
    var gone := ExpiredTopics(resp.messages, now);
    if m !in RemoveAll(st, gone).topics {
      StampedAreStamped(st.stamped);
      var n := RemoveAllTook(st, gone, m);
      SameTopicKey(st.topics, m, n);
    }
  }

  lemma {:induction false} RemoveAllTook(st: Store, gone: seq<Notification>, m: Notification)
    returns (n: Notification)
    requires m in st.topics && m !in RemoveAll(st, gone).topics
    ensures n in gone && KeyOf(n, 0) == KeyOf(m, 0)
    decreases gone
  {
    n := gone[0];
    WithoutMembers(st.topics, KeyOf(gone[0], 0));
    if KeyOf(n, 0) != KeyOf(m, 0) {
      n := RemoveAllTook(RemoveMessage(st, KeyOf(gone[0], 0)), gone[1..], m);
    }
  }

  lemma {:induction false} SameTopicKey(ns: seq<Notification>, m: Notification, n: Notification)
    requires TopicsValid(ns) && m in ns && n in ns && KeyOf(m, 0) == KeyOf(n, 0)
    ensures m == n
  {
    if m != ns[0] && n != ns[0] { SameTopicKey(ns[1..], m, n); }
  }

  lemma {:induction false} AckTopics(s: Session, st: Store, updates: seq<ClientAck>, m: Notification)
    requires m in st.topics && m !in AckAll(s, st, updates).1.topics
    ensures AckedUnder(s, updates, m)
    decreases updates
  {
    var u := updates[0];
    var (s1, st1) := AckOne(s, st, u);
    AckOneTakes(s, st, u);
    if m in st1.topics {
      AckTopics(s1, st1, updates[1..], m);
      var n, v :| n in s1.ack.unackedStored && v in updates[1..] && Matches(n, v) && KeyOf(n, 0) == KeyOf(m, 0);
      assert n in s.ack.unackedStored && v in updates;
    } else {
      var n := s.ack.unackedStored[Position(s.ack.unackedStored, u).value];
      WithoutMembers(st.topics, KeyOf(n, 0));
      assert n in s.ack.unackedStored && u in updates;
    }
  }
}
