/** Runs of many sessions of many users over one registry: direct notifications are
    conserved, and ghosting removes nobody else's session
    (autoconnect-common/src/registry.rs, autoconnect-ws/src/handler.rs). */
module Lifecycle {
  import opened Notifications
  import Storage
  import opened Sessions
  import opened Registries

  /** `webpush_ws` after the Hello: the event loop, then leaving the registry, closing the
      queue, draining it, and the shutdown. */
  datatype Phase = Running | Stopped | Left | Draining | Ended

  /** A session with its accounts: every item ever queued for it, the notifications
      `notify` accepted for it, those its client acked, those unacked at its end, and what was
      handed to `save_messages` for these. */
  datatype Life = Life(
    uaid: Uuid,
    phase: Phase,
    session: Session,
    queued: seq<ServerNotification>,
    accepted: multiset<Notification>,
    acked: multiset<Notification>,
    ending: seq<Notification>,
    handed: seq<Notification>)

  datatype World = World(registry: Registry, lives: map<Uuid, Life>)

  /** Whatever the store holds when a handler runs is given with the step. */
  datatype Step =
    | Join(uaid: Uuid, uid: Uuid, session: Session)
    | Push(uaid: Uuid, item: ServerNotification)
    | Receive(uid: Uuid, st: Storage.Store, now: nat)
    | ClientAcks(uid: Uuid, updates: seq<ClientAck>, st: Storage.Store, now: nat)
    | Stop(uid: Uuid)
    | Leave(uid: Uuid)
    | CloseQueue(uid: Uuid)
    | DrainOne(uid: Uuid)
    | Finish(uid: Uuid)

  predicate In(w: World, uid: Uuid, phase: Phase) {
    uid in w.lives && uid in w.registry.channels && w.lives[uid].phase == phase
  }

  predicate HasItem(w: World, uid: Uuid) {
    uid in w.registry.channels && w.registry.channels[uid].items != []
  }

  function Update(w: World, uid: Uuid, life: Life): World {
    w.(lives := w.lives[uid := life])
  }

  function Enqueued(life: Life, item: ServerNotification): Life {
    life.(queued := life.queued + [item],
          accepted := life.accepted + (if item.DirectNotif? then multiset{item.n} else multiset{}))
  }

  /** Notes that an item was queued for a session. */
  function Queued(w: World, uid: Uuid, item: ServerNotification): World {
    if uid !in w.lives then w
    else Update(w, uid, Enqueued(w.lives[uid], item))
  }

  function Joined(uaid: Uuid, session: Session): Life {
    Life(uaid, Running, session, [], multiset{}, multiset{}, [], [])
  }

  function JoinStep(w: World, uaid: Uuid, uid: Uuid, session: Session): World {
    var w1 := World(Connect(w.registry, uaid, uid),
                    w.lives[uid := Joined(uaid, session)]);
    if uaid in w.registry.clients && w.registry.clients[uaid] in w.registry.channels
       && w.registry.channels[w.registry.clients[uaid]].open then
      Queued(w1, w.registry.clients[uaid], DisconnectNotif)
    else w1
  }

  function PushStep(w: World, uaid: Uuid, item: ServerNotification): World {
    var (r, ok) := Deliver(w.registry, uaid, item);
    if ok then Queued(w.(registry := r), w.registry.clients[uaid], item) else w
  }

  function Phased(life: Life, outcome: Outcome): Life {
    if outcome.Failed? then life.(phase := Stopped) else life
  }

  function ReceiveStep(w: World, uid: Uuid, st: Storage.Store, now: nat): World
    requires In(w, uid, Running) && HasItem(w, uid) && Storage.Valid(st)
  {
    var life := w.lives[uid];
    var w1 := w.(registry := Pop(w.registry, uid));
    match w.registry.channels[uid].items[0]
    case DirectNotif(n) => Update(w1, uid, life.(session := Notif(life.session, n)))
    case CheckStorageNotif =>
      var (s, _, outcome) := CheckStorage(life.session, st, now);
      Update(w1, uid, Phased(life.(session := s), outcome))
    case DisconnectNotif => Update(w1, uid, life.(phase := Stopped))
  }

  function AckedLife(life: Life, updates: seq<ClientAck>, st: Storage.Store, now: nat): Life
    requires Storage.Valid(st)
  {
    var (s, _, outcome) := Ack(life.session, st, updates, now);
    var gone := multiset(life.session.ack.unackedDirect) - multiset(s.ack.unackedDirect);
    Phased(life.(session := s, acked := life.acked + gone), outcome)
  }

  function DrainStep(w: World, uid: Uuid): World
    requires In(w, uid, Draining) && HasItem(w, uid)
  {
    var life := w.lives[uid];
    var item := w.registry.channels[uid].items[0];
    var direct := life.session.ack.unackedDirect + (if item.DirectNotif? then [item.n] else []);
    Update(w.(registry := Pop(w.registry, uid)), uid,
           life.(session := life.session.(ack := life.session.ack.(unackedDirect := direct))))
  }

  function EndedLife(life: Life): Life {
    var direct := life.session.ack.unackedDirect;
    life.(phase := Ended, session := Shutdown(life.session), ending := direct, handed := Saved(direct))
  }

  /** Every uid is new, as a version 4 UUID is. A step that does not apply changes nothing. */
  ghost function Next(w: World, step: Step): World {
    match step
    case Join(uaid, uid, session) =>
      if uid in w.lives || session.ack.unackedDirect != [] then w else JoinStep(w, uaid, uid, session)
    case Push(uaid, item) => if item.DisconnectNotif? then w else PushStep(w, uaid, item)
    case Receive(uid, st, now) =>
      if In(w, uid, Running) && HasItem(w, uid) && Storage.Valid(st) then ReceiveStep(w, uid, st, now) else w
    case ClientAcks(uid, updates, st, now) =>
      if In(w, uid, Running) && Storage.Valid(st) then Update(w, uid, AckedLife(w.lives[uid], updates, st, now)) else w
    case Stop(uid) => if In(w, uid, Running) then Update(w, uid, w.lives[uid].(phase := Stopped)) else w
    case Leave(uid) =>
      if In(w, uid, Stopped) then
        var life := w.lives[uid];
        Update(w.(registry := Deregister(w.registry, life.uaid, uid).0), uid, life.(phase := Left))
      else w
    case CloseQueue(uid) =>
      if In(w, uid, Left) then
        Update(w.(registry := CloseChannel(w.registry, uid)), uid, w.lives[uid].(phase := Draining))
      else w
    case DrainOne(uid) => if In(w, uid, Draining) && HasItem(w, uid) then DrainStep(w, uid) else w
    case Finish(uid) =>
      if In(w, uid, Draining) && !HasItem(w, uid) then
        Update(w, uid, EndedLife(w.lives[uid]))
      else w
  }

  ghost function Run(w: World, steps: seq<Step>): World
    decreases steps
  {
    if steps == [] then w else Run(Next(w, steps[0]), steps[1..])
  }

  // -------------------------------------------------------------- invariants

  /** What is handed over is what was unacked, to be stored under the time of its saving. */
  predicate HandedOver(ending: seq<Notification>, handed: seq<Notification>) {
    && |handed| == |ending|
    && forall i :: 0 <= i < |ending| ==>
         handed[i] == Notification(ending[i].channelId, ending[i].version, ending[i].ttl, ending[i].topic,
                                   ending[i].timestamp, ending[i].data, Some(0), ending[i].headers)
  }

  /** The notification `n`, if it has a time to live, is neither lost nor made up; if it has none, it is
      never waited for. */
  ghost predicate Conserved(life: Life, items: seq<ServerNotification>, n: Notification) {
    && (n.ttl != 0 ==>
          life.accepted[n] == multiset(Notifs(items))[n] + multiset(life.session.ack.unackedDirect)[n]
                              + life.acked[n] + multiset(life.ending)[n])
    && (n.ttl == 0 && !life.phase.Draining? ==> multiset(life.session.ack.unackedDirect)[n] == 0)
    && (life.phase.Ended? ==> items == [] && life.session.ack.unackedDirect == [])
    && (!life.phase.Ended? ==> life.ending == [])
    && HandedOver(life.ending, life.handed)
  }

  /** At most the last item ever queued is a disconnect, and none while registered. */
  ghost predicate QueueOk(life: Life, items: seq<ServerNotification>, registered: bool) {
    && (forall i :: 0 <= i < |life.queued| - 1 ==> !life.queued[i].DisconnectNotif?)
    && (registered ==> forall i :: 0 <= i < |life.queued| ==> !life.queued[i].DisconnectNotif?)
    && |items| <= |life.queued| && items == life.queued[|life.queued| - |items|..]
    && (registered ==> life.phase.Running? || life.phase.Stopped?)
    && (life.phase.Running? && !registered ==> items != [] && items[|items| - 1] == DisconnectNotif)
  }

  predicate Registered(w: World, uid: Uuid) {
    uid in w.lives && w.lives[uid].uaid in w.registry.clients
    && w.registry.clients[w.lives[uid].uaid] == uid
  }

  /** What holds of a session and its queue. */
  ghost predicate Good(life: Life, ch: Channel, registered: bool, n: Notification) {
    && Conserved(life, ch.items, n)
    && QueueOk(life, ch.items, registered)
    && (registered ==> ch.open)
    && (ch.open <==> life.phase.Running? || life.phase.Stopped? || life.phase.Left?)
  }

  type Property = (Life, Channel, bool) -> bool

  ghost function GoodFor(n: Notification): Property {
    (life, ch, registered) => Good(life, ch, registered, n)
  }

  /** Every registered uid is a session of that uaid. */
  ghost predicate Linked(w: World) {
    && w.lives.Keys == w.registry.channels.Keys
    && (forall uaid :: uaid in w.registry.clients ==>
          w.registry.clients[uaid] in w.lives && w.lives[w.registry.clients[uaid]].uaid == uaid)
  }

  /** Every session of the world, with its queue and registration, has the property. */
  ghost predicate Every(w: World, good: Property) {
    forall uid :: uid in w.lives ==>
      uid in w.registry.channels && good(w.lives[uid], w.registry.channels[uid], Registered(w, uid))
  }

  ghost predicate Inv(w: World, n: Notification) {
    Linked(w) && Every(w, GoodFor(n))
  }

  lemma Known(w: World, uid: Uuid, n: Notification)
    requires Inv(w, n) && uid in w.lives
    ensures uid in w.registry.channels
    ensures Good(w.lives[uid], w.registry.channels[uid], Registered(w, uid), n)
  {
    assert GoodFor(n)(w.lives[uid], w.registry.channels[uid], Registered(w, uid));
  }

  function Put(w: World, uid: Uuid, life: Life, ch: Channel): World {
    World(w.registry.(channels := w.registry.channels[uid := ch]), w.lives[uid := life])
  }

  /** A step of one session concerns no other. */
  lemma PutEvery(w: World, uid: Uuid, life: Life, ch: Channel, good: Property)
    requires Linked(w) && Every(w, good) && uid in w.lives && life.uaid == w.lives[uid].uaid
    requires good(life, ch, Registered(w, uid))
    ensures Linked(Put(w, uid, life, ch)) && Every(Put(w, uid, life, ch), good)
  {
    var w1 := Put(w, uid, life, ch);
    forall other | other in w1.lives
      ensures good(w1.lives[other], w1.registry.channels[other], Registered(w1, other))
    {
      assert Registered(w1, other) == Registered(w, other);
    }
  }

  lemma PutOk(w: World, uid: Uuid, life: Life, ch: Channel, n: Notification)
    requires Inv(w, n) && uid in w.lives && life.uaid == w.lives[uid].uaid
    requires Good(life, ch, Registered(w, uid), n)
    ensures Inv(Put(w, uid, life, ch), n)
  {
    assert GoodFor(n)(life, ch, Registered(w, uid));
    PutEvery(w, uid, life, ch, GoodFor(n));
  }

  lemma {:induction false} NotifsOfConcat(a: seq<ServerNotification>, b: seq<ServerNotification>)
    ensures Notifs(a + b) == Notifs(a) + Notifs(b)
  {
    if a == [] {
      assert a + b == b;
    } else {
      assert (a + b)[1..] == a[1..] + b;
      NotifsOfConcat(a[1..], b);
    }
  }

  /** One more item in the queue. */
  lemma EnqueueOk(life: Life, items: seq<ServerNotification>, item: ServerNotification,
                  registered: bool, n: Notification)
    requires Conserved(life, items, n) && QueueOk(life, items, true) && !life.phase.Ended?
    requires registered <==> !item.DisconnectNotif?
    ensures Conserved(Enqueued(life, item), items + [item], n)
    ensures QueueOk(Enqueued(life, item), items + [item], registered)
  {
    ConservedGrows(life, items, item, n);
    QueueGrows(life, items, item, registered);
  }

  lemma ConservedGrows(life: Life, items: seq<ServerNotification>, item: ServerNotification, n: Notification)
    requires Conserved(life, items, n) && !life.phase.Ended?
    ensures Conserved(Enqueued(life, item), items + [item], n)
  {
    NotifsOfConcat(items, [item]);
    var more := if item.DirectNotif? then [item.n] else [];
    assert Notifs([item]) == more;
    assert Notifs(items) + [] == Notifs(items);
    assert multiset(Notifs(items + [item])) == multiset(Notifs(items)) + multiset(more);
  }

  lemma QueueGrows(life: Life, items: seq<ServerNotification>, item: ServerNotification, registered: bool)
    requires QueueOk(life, items, true) && (registered <==> !item.DisconnectNotif?)
    ensures QueueOk(Enqueued(life, item), items + [item], registered)
  {
    var k := |life.queued| - |items|;
    assert (life.queued + [item])[k..] == life.queued[k..] + [item];
  }

  /** One item less. */
  lemma PopOk(life: Life, items: seq<ServerNotification>, registered: bool)
    requires QueueOk(life, items, registered) && items != []
    ensures Notifs(items) == (if items[0].DirectNotif? then [items[0].n] else []) + Notifs(items[1..])
    ensures items[1..] == life.queued[|life.queued| - |items[1..]|..]
    ensures life.phase.Running? && !registered && !items[0].DisconnectNotif? ==>
              items[1..] != [] && items[1..][|items[1..]| - 1].DisconnectNotif?
  {
    var k := |life.queued| - |items|;
    assert life.queued[k..][1..] == life.queued[k + 1..];
  }

  lemma PushOk(w: World, uaid: Uuid, item: ServerNotification, n: Notification)
    requires Inv(w, n) && !item.DisconnectNotif?
    ensures Inv(PushStep(w, uaid, item), n)
  {
    if uaid in w.registry.clients {
      var uid := w.registry.clients[uaid];
      var life, ch := w.lives[uid], w.registry.channels[uid];
      Known(w, uid, n);
      EnqueueOk(life, ch.items, item, true, n);
      var life1 := Enqueued(life, item);
      assert PushStep(w, uaid, item) == Put(w, uid, life1, ch.(items := ch.items + [item]));
      PutOk(w, uid, life1, ch.(items := ch.items + [item]), n);
    }
  }

  /** Storage checks leave the direct notifications alone. */
  lemma {:induction false} LoopKeepsDirect(s: Session, st: Storage.Store, now: nat)
    requires Storage.Valid(st)
    ensures CheckStorageLoop(s, st, now).0.ack.unackedDirect == s.ack.unackedDirect
    decreases s.flags.checkStorage, s.flags.includeTopic, |st.topics|, |Unread(s, st)|
  {
    var (s1, st1, outcome) := LoopStep(s, st, now);
    LoopStepProgress(s, st, now);
    if outcome.None? { LoopKeepsDirect(s1, st1, now); }
  }

  lemma {:induction false} AckAllDirect(s: Session, st: Storage.Store, updates: seq<ClientAck>)
    ensures multiset(AckAll(s, st, updates).0.ack.unackedDirect) <= multiset(s.ack.unackedDirect)
    decreases updates
  {
    if updates != [] {
      var (s1, st1) := AckOne(s, st, updates[0]);
      var pos := Position(s.ack.unackedDirect, updates[0]);
      if pos.Some? {
        var ns := s.ack.unackedDirect;
        assert ns == ns[..pos.value] + [ns[pos.value]] + ns[pos.value + 1..];
      }
      AckAllDirect(s1, st1, updates[1..]);
    }
  }

  /** What follows the acks leaves the direct notifications alone. */
  lemma AckKeepsDirect(s: Session, st: Storage.Store, updates: seq<ClientAck>, now: nat)
    requires Storage.Valid(st)
    ensures Ack(s, st, updates, now).0.ack.unackedDirect == AckAll(s, st, updates).0.ack.unackedDirect
  {
    AckAllKeepsValid(s, st, updates);
    var (s1, st1) := AckAll(s, st, updates);
    if !UnackedNotifs(s1) && s1.flags.checkStorage {
      if s1.flags.incrementStorage && s1.ack.unackedStoredHighest.Some? {
        var (s2, st2) := Increment(s1, st1);
        LoopKeepsDirect(s2, st2, now);
      } else {
        LoopKeepsDirect(s1, st1, now);
      }
    }
  }

  /** The direct notifications after an ack are those before it without the acked ones. */
  lemma AckDirect(s: Session, st: Storage.Store, updates: seq<ClientAck>, now: nat)
    requires Storage.Valid(st)
    ensures multiset(Ack(s, st, updates, now).0.ack.unackedDirect) <= multiset(s.ack.unackedDirect)
  {
    AckAllDirect(s, st, updates);
    AckKeepsDirect(s, st, updates, now);
  }

  /** A queued item is handled: a notification moves from the queue to the unacked list. */
  lemma HandledOk(life: Life, life1: Life, ch: Channel, registered: bool, n: Notification)
    requires Good(life, ch, registered, n) && ch.items != []
    requires life1 == life.(session := life1.session, phase := life1.phase)
    requires life.phase.Draining? || life.phase.Running?
    requires life1.phase == life.phase || (life.phase.Running? && life1.phase.Stopped?)
    requires ch.items[0].DisconnectNotif? && life.phase.Running? ==> life1.phase.Stopped?
    requires life1.session.ack.unackedDirect == life.session.ack.unackedDirect
               + (if ch.items[0].DirectNotif? && (life.phase.Draining? || ch.items[0].n.ttl != 0)
                  then [ch.items[0].n] else [])
    ensures Good(life1, ch.(items := ch.items[1..]), registered, n)
  {
    PopOk(life, ch.items, registered);
    CountsMove(life, life1, ch.items, n);
  }

  lemma CountsMove(life: Life, life1: Life, items: seq<ServerNotification>, n: Notification)
    requires items != [] && Conserved(life, items, n) && !life.phase.Ended? && !life1.phase.Ended?
    requires life1.phase.Draining? <==> life.phase.Draining?
    requires life1.accepted == life.accepted && life1.acked == life.acked
    requires life1.ending == life.ending && life1.handed == life.handed
    requires Notifs(items) == (if items[0].DirectNotif? then [items[0].n] else []) + Notifs(items[1..])
    requires life1.session.ack.unackedDirect == life.session.ack.unackedDirect
               + (if items[0].DirectNotif? && (life.phase.Draining? || items[0].n.ttl != 0)
                  then [items[0].n] else [])
    ensures Conserved(life1, items[1..], n)
  {
    var head := if items[0].DirectNotif? then [items[0].n] else [];
    var taken := if items[0].DirectNotif? && (life.phase.Draining? || items[0].n.ttl != 0) then [items[0].n] else [];
    CountOfConcat(head, Notifs(items[1..]), n);
    CountOfConcat(life.session.ack.unackedDirect, taken, n);
    assert n.ttl != 0 ==> multiset(head)[n] == multiset(taken)[n];
    assert n.ttl == 0 && !life.phase.Draining? ==> multiset(taken)[n] == 0;
    StaysConserved(life, life1, items, n, multiset(head)[n]);
  }

  lemma CountOfConcat<T>(a: seq<T>, b: seq<T>, n: T)
    ensures multiset(a + b)[n] == multiset(a)[n] + multiset(b)[n]
  {
  }

  lemma StaysConserved(life: Life, life1: Life, items: seq<ServerNotification>, n: Notification, k: nat)
    requires items != [] && Conserved(life, items, n) && !life.phase.Ended? && !life1.phase.Ended?
    requires life1.phase.Draining? <==> life.phase.Draining?
    requires life1.accepted == life.accepted && life1.acked == life.acked
    requires life1.ending == life.ending && life1.handed == life.handed
    requires n.ttl != 0 ==>
      && multiset(Notifs(items))[n] == k + multiset(Notifs(items[1..]))[n]
      && multiset(life1.session.ack.unackedDirect)[n] == multiset(life.session.ack.unackedDirect)[n] + k
    requires n.ttl == 0 && !life.phase.Draining? ==>
      multiset(life1.session.ack.unackedDirect)[n] == multiset(life.session.ack.unackedDirect)[n]
    ensures Conserved(life1, items[1..], n)
  {
  }

  lemma ReceiveOk(w: World, uid: Uuid, st: Storage.Store, now: nat, n: Notification)
    requires Inv(w, n) && In(w, uid, Running) && HasItem(w, uid) && Storage.Valid(st)
    ensures Inv(ReceiveStep(w, uid, st, now), n)
  {
    var life, ch := w.lives[uid], w.registry.channels[uid];
    Known(w, uid, n);
    LoopKeepsDirect(StartCheck(life.session), st, now);
    var life1 := ReceiveStep(w, uid, st, now).lives[uid];
    var direct := life.session.ack.unackedDirect;
    assert direct + [] == direct;
    HandledOk(life, life1, ch, Registered(w, uid), n);
    PutOk(w, uid, life1, ch.(items := ch.items[1..]), n);
    assert ReceiveStep(w, uid, st, now) == Put(w, uid, life1, ch.(items := ch.items[1..]));
  }

  /** Acked notifications move from the unacked list to the acked ones. */
  lemma AckedOk(life: Life, life1: Life, ch: Channel, registered: bool, n: Notification)
    requires Good(life, ch, registered, n) && life.phase.Running?
    requires life1 == life.(session := life1.session, acked := life1.acked, phase := life1.phase)
    requires life1.phase.Running? || life1.phase.Stopped?
    requires multiset(life1.session.ack.unackedDirect) <= multiset(life.session.ack.unackedDirect)
    requires life1.acked == life.acked + (multiset(life.session.ack.unackedDirect)
                                          - multiset(life1.session.ack.unackedDirect))
    ensures Good(life1, ch, registered, n)
  {
  }

  lemma AckOk(w: World, uid: Uuid, updates: seq<ClientAck>, st: Storage.Store, now: nat, n: Notification)
    requires Inv(w, n) && In(w, uid, Running) && Storage.Valid(st)
    ensures Inv(Update(w, uid, AckedLife(w.lives[uid], updates, st, now)), n)
  {
    var life, ch := w.lives[uid], w.registry.channels[uid];
    Known(w, uid, n);
    AckDirect(life.session, st, updates, now);
    AckedOk(life, AckedLife(life, updates, st, now), ch, Registered(w, uid), n);
    UpdateOk(w, uid, AckedLife(life, updates, st, now), n);
  }

  /** The queue stays as it is. */
  lemma UpdateOk(w: World, uid: Uuid, life: Life, n: Notification)
    requires Inv(w, n) && uid in w.lives && uid in w.registry.channels && life.uaid == w.lives[uid].uaid
    requires Good(life, w.registry.channels[uid], Registered(w, uid), n)
    ensures Inv(Update(w, uid, life), n)
  {
    PutOk(w, uid, life, w.registry.channels[uid], n);
    assert w.registry.channels[uid := w.registry.channels[uid]] == w.registry.channels;
  }

  lemma DrainOk(w: World, uid: Uuid, n: Notification)
    requires Inv(w, n) && In(w, uid, Draining) && HasItem(w, uid)
    ensures Inv(DrainStep(w, uid), n)
  {
    var life, ch := w.lives[uid], w.registry.channels[uid];
    Known(w, uid, n);
    var life1 := DrainStep(w, uid).lives[uid];
    HandledOk(life, life1, ch, Registered(w, uid), n);
    PutOk(w, uid, life1, ch.(items := ch.items[1..]), n);
    assert DrainStep(w, uid) == Put(w, uid, life1, ch.(items := ch.items[1..]));
  }

  lemma StoppedGood(life: Life, ch: Channel, registered: bool, n: Notification)
    requires Good(life, ch, registered, n) && life.phase.Running?
    ensures Good(life.(phase := Stopped), ch, registered, n)
  {
  }

  lemma DrainingGood(life: Life, ch: Channel, n: Notification)
    requires Good(life, ch, false, n) && life.phase.Left?
    ensures Good(life.(phase := Draining), ch.(open := false), false, n)
  {
  }

  lemma FinishedGood(life: Life, ch: Channel, n: Notification)
    requires Good(life, ch, false, n) && life.phase.Draining? && ch.items == []
    ensures Good(EndedLife(life), ch, false, n)
  {
  }

  lemma FinishOk(w: World, uid: Uuid, n: Notification)
    requires Inv(w, n)
    ensures Inv(Next(w, Finish(uid)), n)
  {
    if In(w, uid, Draining) && !HasItem(w, uid) {
      Known(w, uid, n);
      FinishedGood(w.lives[uid], w.registry.channels[uid], n);
      UpdateOk(w, uid, Next(w, Finish(uid)).lives[uid], n);
    }
  }

  /** A session that left is no longer registered; nobody else's registration changed. */
  lemma LeaveEvery(w: World, uid: Uuid, good: Property)
    requires Linked(w) && Every(w, good) && In(w, uid, Stopped)
    requires good(w.lives[uid].(phase := Left), w.registry.channels[uid], false)
    ensures Linked(Next(w, Leave(uid))) && Every(Next(w, Leave(uid)), good)
  {
    var w1 := Next(w, Leave(uid));
    assert !Registered(w1, uid);
    forall other | other in w1.lives
      ensures good(w1.lives[other], w1.registry.channels[other], Registered(w1, other))
    {
      if other != uid { assert Registered(w1, other) == Registered(w, other); }
    }
  }

  lemma LeaveOk(w: World, uid: Uuid, n: Notification)
    requires Inv(w, n)
    ensures Inv(Next(w, Leave(uid)), n)
  {
    if In(w, uid, Stopped) {
      Known(w, uid, n);
      var life, ch := w.lives[uid].(phase := Left), w.registry.channels[uid];
      assert Good(life, ch, false, n);
      assert GoodFor(n)(life, ch, false);
      LeaveEvery(w, uid, GoodFor(n));
    }
  }

  /** The new session is registered, and the one it replaces is told so. */
  lemma JoinEvery(w: World, uaid: Uuid, uid: Uuid, session: Session, good: Property)
    requires Linked(w) && Every(w, good) && uid !in w.lives && session.ack.unackedDirect == []
    requires good(Joined(uaid, session), Channel([], true), true)
    requires uaid in w.registry.clients ==>
               var previous := w.registry.clients[uaid];
               w.registry.channels[previous].open
               && good(Enqueued(w.lives[previous], DisconnectNotif), Telling(w.registry.channels[previous]), false)
    ensures Linked(JoinStep(w, uaid, uid, session)) && Every(JoinStep(w, uaid, uid, session), good)
  {
    var w1 := JoinStep(w, uaid, uid, session);
    forall other | other in w1.lives
      ensures other in w1.registry.channels
      ensures good(w1.lives[other], w1.registry.channels[other], Registered(w1, other))
    {
      if other == uid {
        assert w1.lives[uid] == Joined(uaid, session) && Registered(w1, uid);
      } else if uaid in w.registry.clients && other == w.registry.clients[uaid] {
        assert w1.lives[other] == Enqueued(w.lives[other], DisconnectNotif) && !Registered(w1, other);
        assert w1.registry.channels[other] == Telling(w.registry.channels[other]);
      } else {
        assert w1.lives[other] == w.lives[other] && Registered(w1, other) == Registered(w, other);
      }
    }
  }

  function Telling(ch: Channel): Channel {
    ch.(items := ch.items + [DisconnectNotif])
  }

  lemma JoinOk(w: World, uaid: Uuid, uid: Uuid, session: Session, n: Notification)
    requires Inv(w, n) && uid !in w.lives && session.ack.unackedDirect == []
    ensures Inv(JoinStep(w, uaid, uid, session), n)
  {
    assert Good(Joined(uaid, session), Channel([], true), true, n);
    assert GoodFor(n)(Joined(uaid, session), Channel([], true), true);
    if uaid in w.registry.clients {
      var previous := w.registry.clients[uaid];
      var life, ch := w.lives[previous], w.registry.channels[previous];
      Known(w, previous, n);
      EnqueueOk(life, ch.items, DisconnectNotif, false, n);
      assert Good(Enqueued(life, DisconnectNotif), Telling(ch), false, n);
      assert GoodFor(n)(Enqueued(life, DisconnectNotif), Telling(ch), false);
    }
    JoinEvery(w, uaid, uid, session, GoodFor(n));
  }

  lemma StopOk(w: World, uid: Uuid, n: Notification)
    requires Inv(w, n)
    ensures Inv(Next(w, Stop(uid)), n)
  {
    if In(w, uid, Running) {
      Known(w, uid, n);
      StoppedGood(w.lives[uid], w.registry.channels[uid], Registered(w, uid), n);
      UpdateOk(w, uid, w.lives[uid].(phase := Stopped), n);
    }
  }

  lemma CloseOk(w: World, uid: Uuid, n: Notification)
    requires Inv(w, n)
    ensures Inv(Next(w, CloseQueue(uid)), n)
  {
    if In(w, uid, Left) {
      Known(w, uid, n);
      DrainingGood(w.lives[uid], w.registry.channels[uid], n);
      PutOk(w, uid, w.lives[uid].(phase := Draining), w.registry.channels[uid].(open := false), n);
    }
  }

  lemma ReceiveNextOk(w: World, step: Step, n: Notification)
    requires Inv(w, n) && step.Receive?
    ensures Inv(Next(w, step), n)
  {
    if In(w, step.uid, Running) && HasItem(w, step.uid) && Storage.Valid(step.st) {
      ReceiveOk(w, step.uid, step.st, step.now, n);
    }
  }

  lemma AckNextOk(w: World, step: Step, n: Notification)
    requires Inv(w, n) && step.ClientAcks?
    ensures Inv(Next(w, step), n)
  {
    if In(w, step.uid, Running) && Storage.Valid(step.st) {
      AckOk(w, step.uid, step.updates, step.st, step.now, n);
    }
  }

  lemma DrainNextOk(w: World, step: Step, n: Notification)
    requires Inv(w, n) && step.DrainOne?
    ensures Inv(Next(w, step), n)
  {
    if In(w, step.uid, Draining) && HasItem(w, step.uid) { DrainOk(w, step.uid, n); }
  }

  lemma NextOk(w: World, step: Step, n: Notification)
    requires Inv(w, n)
    ensures Inv(Next(w, step), n)
  {
    if step.Join? {
      if step.uid !in w.lives && step.session.ack.unackedDirect == [] {
        JoinOk(w, step.uaid, step.uid, step.session, n);
      }
    } else if step.Push? {
      if !step.item.DisconnectNotif? { PushOk(w, step.uaid, step.item, n); }
    } else if step.Receive? {
      ReceiveNextOk(w, step, n);
    } else if step.ClientAcks? {
      AckNextOk(w, step, n);
    } else if step.DrainOne? {
      DrainNextOk(w, step, n);
    } else if step.Stop? {
      StopOk(w, step.uid, n);
    } else if step.CloseQueue? {
      CloseOk(w, step.uid, n);
    } else if step.Leave? {
      LeaveOk(w, step.uid, n);
    } else {
      FinishOk(w, step.uid, n);
    }
  }

  // ------------------------------------------------------------ all the runs

  lemma {:induction false} RunOk(w: World, steps: seq<Step>, n: Notification)
    requires Inv(w, n)
    ensures Inv(Run(w, steps), n)
    decreases steps
  {
    if steps != [] {
      NextOk(w, steps[0], n);
      RunOk(Next(w, steps[0]), steps[1..], n);
    }
  }

  const ANY := Notification(0, "", 0, None, 0, None, None, None)
  const NOBODY := World(Registry(map[], map[]), map[])

  // --------------------------------------------------- what was acked was named

  /** How many of the acks name the notification. */
  function Named(updates: seq<ClientAck>, n: Notification): nat
    decreases updates
  {
    if updates == [] then 0
    else if Matches(n, updates[0]) then 1 + Named(updates[1..], n)
    else Named(updates[1..], n)
  }

  lemma AckOneNamed(s: Session, st: Storage.Store, u: ClientAck, n: Notification)
    ensures var s1 := AckOne(s, st, u).0;
      multiset(s.ack.unackedDirect)[n]
      <= multiset(s1.ack.unackedDirect)[n] + (if Matches(n, u) then 1 else 0)
  {
    var pos := Position(s.ack.unackedDirect, u);
    if pos.Some? {
      var ns := s.ack.unackedDirect;
      assert ns == ns[..pos.value] + [ns[pos.value]] + ns[pos.value + 1..];
    }
  }

  lemma {:induction false} AckAllNamed(s: Session, st: Storage.Store, updates: seq<ClientAck>, n: Notification)
    ensures var s1 := AckAll(s, st, updates).0;
      multiset(s.ack.unackedDirect)[n] <= multiset(s1.ack.unackedDirect)[n] + Named(updates, n)
    decreases updates
  {
    if updates != [] {
      var (s1, st1) := AckOne(s, st, updates[0]);
      AckOneNamed(s, st, updates[0], n);
      AckAllNamed(s1, st1, updates[1..], n);
    }
  }

  /** An ack message takes at most as many copies of a notification off the unacked list as it names. */
  lemma AckNamed(s: Session, st: Storage.Store, updates: seq<ClientAck>, now: nat, n: Notification)
    requires Storage.Valid(st)
    ensures var s1 := Ack(s, st, updates, now).0;
      multiset(s.ack.unackedDirect)[n] <= multiset(s1.ack.unackedDirect)[n] + Named(updates, n)
  {
    AckAllNamed(s, st, updates, n);
    AckKeepsDirect(s, st, updates, now);
  }

  /** The acks a run has for a session that name the notification. */
  function NamedIn(steps: seq<Step>, uid: Uuid, n: Notification): nat
    decreases steps
  {
    if steps == [] then 0
    else if steps[0].ClientAcks? && steps[0].uid == uid then
      Named(steps[0].updates, n) + NamedIn(steps[1..], uid, n)
    else NamedIn(steps[1..], uid, n)
  }

  ghost function AckedSoFar(w: World, uid: Uuid, n: Notification): nat {
    if uid in w.lives then w.lives[uid].acked[n] else 0
  }

  lemma NextNamed(w: World, step: Step, uid: Uuid, n: Notification)
    ensures AckedSoFar(Next(w, step), uid, n)
         <= AckedSoFar(w, uid, n)
            + if step.ClientAcks? && step.uid == uid then Named(step.updates, n) else 0
  {
    if step.ClientAcks? && In(w, step.uid, Running) && Storage.Valid(step.st) {
      AckNamed(w.lives[step.uid].session, step.st, step.updates, step.now, n);
    }
  }

  lemma {:induction false} RunNamed(w: World, steps: seq<Step>, uid: Uuid, n: Notification)
    ensures AckedSoFar(Run(w, steps), uid, n) <= AckedSoFar(w, uid, n) + NamedIn(steps, uid, n)
    decreases steps
  {
    if steps != [] {
      NextNamed(w, steps[0], uid, n);
      RunNamed(Next(w, steps[0]), steps[1..], uid, n);
    }
  }

  /** In every run of any number of sessions: of the notifications with a time to live
      that `notify` accepted for a session, each is queued, unacked, acked, or was unacked at the end;
      once the session has ended, only the last two; no more count as acked than the client's acks in
      the run name; and what was unacked at the end was handed to be saved, whole. */
  lemma {:induction false} DirectConservation(steps: seq<Step>, uid: Uuid, n: Notification)
    requires uid in Run(NOBODY, steps).lives && n.ttl != 0
    ensures var w := Run(NOBODY, steps);
            var life := w.lives[uid];
            uid in w.registry.channels
            && life.accepted[n] == multiset(Notifs(w.registry.channels[uid].items))[n]
                                   + multiset(life.session.ack.unackedDirect)[n]
                                   + life.acked[n] + multiset(life.ending)[n]
            && (life.phase.Ended? ==> life.accepted[n] == life.acked[n] + multiset(life.ending)[n])
            && life.acked[n] <= NamedIn(steps, uid, n)
            && HandedOver(life.ending, life.handed)
  {
    RunOk(NOBODY, steps, n);
    Known(Run(NOBODY, steps), uid, n);
    RunNamed(NOBODY, steps, uid, n);
  }

  /** In every run: a notification without a time to live is not waited for. */
  lemma {:induction false} NoTtlNoWaiting(steps: seq<Step>, uid: Uuid, n: Notification)
    requires uid in Run(NOBODY, steps).lives && n.ttl == 0
    ensures var life := Run(NOBODY, steps).lives[uid];
            !life.phase.Draining? ==> n !in life.session.ack.unackedDirect
  {
    RunOk(NOBODY, steps, n);
    Known(Run(NOBODY, steps), uid, n);
  }

  /** In every run: what is pushed to a user who is registered is the next item of the registered
      session's queue, and of no other; what is pushed to anybody else changes nothing. */
  lemma {:induction false} PushReaches(steps: seq<Step>, uaid: Uuid, item: ServerNotification)
    requires !item.DisconnectNotif?
    ensures var w := Run(NOBODY, steps);
            var w1 := Next(w, Push(uaid, item));
            w1.registry.clients == w.registry.clients
            && if uaid in w.registry.clients then Reached(w, w1, w.registry.clients[uaid], item) else w1 == w
  {
    RunOk(NOBODY, steps, ANY);
    PushReachesFrom(Run(NOBODY, steps), uaid, item);
  }

  lemma PushReachesFrom(w: World, uaid: Uuid, item: ServerNotification)
    requires Inv(w, ANY) && !item.DisconnectNotif?
    ensures var w1 := Next(w, Push(uaid, item));
            w1.registry.clients == w.registry.clients
            && if uaid in w.registry.clients then Reached(w, w1, w.registry.clients[uaid], item) else w1 == w
  {
    if uaid in w.registry.clients {
      Known(w, w.registry.clients[uaid], ANY);
    }
  }

  /** The registry's answers: to a push, whether anybody is registered for the user; to a departure, whether
      it is the session's own registration that went. */
  lemma {:induction false} RegistryAnswers(steps: seq<Step>, uaid: Uuid, item: ServerNotification, uid: Uuid)
    requires uid in Run(NOBODY, steps).lives
    ensures var w := Run(NOBODY, steps);
            && (Deliver(w.registry, uaid, item).1 <==> uaid in w.registry.clients)
            && (Deregister(w.registry, w.lives[uid].uaid, uid).1 <==> Registered(w, uid))
  {
    RunOk(NOBODY, steps, ANY);
    var w := Run(NOBODY, steps);
    if uaid in w.registry.clients { Known(w, w.registry.clients[uaid], ANY); }
  }

  /** The item was queued for one session and counted as accepted if it is a notification. */
  ghost predicate Reached(w: World, w1: World, uid: Uuid, item: ServerNotification) {
    && uid in w.lives && uid in w.registry.channels
    && w1.registry.channels == w.registry.channels[uid := Channel(w.registry.channels[uid].items + [item], true)]
    && w1.lives.Keys == w.lives.Keys
    && (forall other :: other in w.lives && other != uid ==> w1.lives[other] == w.lives[other])
    && w1.lives[uid].session == w.lives[uid].session && w1.lives[uid].phase == w.lives[uid].phase
    && w1.lives[uid].queued == w.lives[uid].queued + [item]
    && (forall n: Notification ::
          w1.lives[uid].accepted[n] == w.lives[uid].accepted[n] + (if item == DirectNotif(n) then 1 else 0))
  }

  /** In every run: a disconnect is the last item ever queued for a session; a registered
      session has none, is registered under its own uaid alone and can be reached; and a
      running session that is not registered any more has a disconnect still to receive. */
  lemma {:induction false} GhostingIsSafe(steps: seq<Step>, uid: Uuid)
    requires uid in Run(NOBODY, steps).lives
    ensures var w := Run(NOBODY, steps);
            var life := w.lives[uid];
            uid in w.registry.channels
            && (life.queued != [] ==> DisconnectNotif !in life.queued[..|life.queued| - 1])
            && (Registered(w, uid) ==>
                  w.registry.channels[uid].open && DisconnectNotif !in life.queued
                  && (forall uaid :: uaid in w.registry.clients && w.registry.clients[uaid] == uid ==> uaid == life.uaid))
            && (life.phase.Running? && !Registered(w, uid) ==>
                  DisconnectNotif in w.registry.channels[uid].items)
  {
    RunOk(NOBODY, steps, ANY);
    var w := Run(NOBODY, steps);
    Known(w, uid, ANY);
    var items := w.registry.channels[uid].items;
    if w.lives[uid].phase.Running? && !Registered(w, uid) {
      assert items[|items| - 1] in items;
    }
  }

  /** A session leaves the registry only by its own doing or when another session of the
      same uaid joins; so a ghosted session's late departure never removes its successor. */
  lemma {:induction false} OnlyOwnDepartures(w: World, step: Step, uaid: Uuid)
    requires Linked(w) && uaid in w.registry.clients
    requires var clients := Next(w, step).registry.clients;
             uaid !in clients || clients[uaid] != w.registry.clients[uaid]
    ensures step == Leave(w.registry.clients[uaid])
            || (step.Join? && step.uaid == uaid && Next(w, step).registry.clients[uaid] == step.uid)
  {
  }

  // -------------------------------------- the end of a session, uninterrupted

  function Drains(uid: Uuid, k: nat): (r: seq<Step>)
    ensures |r| == k
  {
    if k == 0 then [] else [DrainOne(uid)] + Drains(uid, k - 1)
  }

  lemma {:induction false} DrainsAll(w: World, uid: Uuid)
    requires In(w, uid, Draining)
    ensures var ch := w.registry.channels[uid];
            var w1 := Run(w, Drains(uid, |ch.items|));
            In(w1, uid, Draining) && w1.registry.channels[uid].items == []
            && w1.lives[uid].session.ack.unackedDirect
               == w.lives[uid].session.ack.unackedDirect + Notifs(ch.items)
            && w1.lives[uid].session.stats == w.lives[uid].session.stats
    decreases |w.registry.channels[uid].items|
  {
    var items := w.registry.channels[uid].items;
    var direct := w.lives[uid].session.ack.unackedDirect;
    if items == [] {
      assert direct + [] == direct;
    } else {
      var w1 := Next(w, DrainOne(uid));
      assert w1 == DrainStep(w, uid);
      DrainsAll(w1, uid);
      assert Drains(uid, |items|)[1..] == Drains(uid, |items| - 1);
      var head := if items[0].DirectNotif? then [items[0].n] else [];
      assert (direct + head) + Notifs(items[1..]) == direct + (head + Notifs(items[1..]));
      assert [] + Notifs(items[1..]) == Notifs(items[1..]);
    }
  }

  lemma {:induction false} RunConcat(w: World, a: seq<Step>, b: seq<Step>)
    ensures Run(w, a + b) == Run(Run(w, a), b)
    decreases a
  {
    if a == [] {
      assert a + b == b;
    } else {
      assert (a + b)[1..] == a[1..] + b;
      RunConcat(Next(w, a[0]), a[1..], b);
    }
  }

  /** What `ClientRegistries.EndSession` does in one go: the notifications that are unacked
      and those still queued are handed over, in that order, and counted, and the session has ended. */
  lemma {:induction false} EndingHandsOverAll(w: World, uid: Uuid)
    requires In(w, uid, Stopped)
    ensures var items := w.registry.channels[uid].items;
            var w1 := Run(w, [Leave(uid), CloseQueue(uid)] + Drains(uid, |items|) + [Finish(uid)]);
            uid in w1.lives && w1.lives[uid].phase.Ended?
            && w1.lives[uid].ending == w.lives[uid].session.ack.unackedDirect + Notifs(items)
            && HandedOver(w1.lives[uid].ending, w1.lives[uid].handed)
            && w1.lives[uid].session.stats.directStorage
               == w.lives[uid].session.stats.directStorage + |w1.lives[uid].handed|
            && !Registered(w1, uid)
  {
    var items := w.registry.channels[uid].items;
    var leaving, draining := [Leave(uid), CloseQueue(uid)], Drains(uid, |items|);
    var w1 := Next(w, Leave(uid));
    var w2 := Next(w1, CloseQueue(uid));
    assert leaving[1..] == [CloseQueue(uid)] && leaving[1..][1..] == [];
    assert Run(w, leaving) == Run(w1, [CloseQueue(uid)]) == Run(w2, []);
    LeavesAndCloses(w, uid);
    RunConcat(w, leaving + draining, [Finish(uid)]);
    RunConcat(w, leaving, draining);
    DrainsAll(w2, uid);
    DrainsKeepRegistry(w2, uid, |items|);
    var w3 := Run(w2, draining);
    assert [Finish(uid)][1..] == [];
    assert Run(w3, [Finish(uid)]) == Run(Next(w3, Finish(uid)), []);
  }

  lemma LeavesAndCloses(w: World, uid: Uuid)
    requires In(w, uid, Stopped)
    ensures var w2 := Next(Next(w, Leave(uid)), CloseQueue(uid));
            In(w2, uid, Draining) && w2.registry.channels[uid].items == w.registry.channels[uid].items
            && w2.lives[uid].session == w.lives[uid].session && !Registered(w2, uid)
  {
  }

  lemma {:induction false} DrainsKeepRegistry(w: World, uid: Uuid, k: nat)
    requires uid in w.lives
    ensures var w1 := Run(w, Drains(uid, k));
            w1.registry.clients == w.registry.clients && uid in w1.lives
            && w1.lives[uid].uaid == w.lives[uid].uaid
    decreases k
  {
    if k > 0 {
      assert Drains(uid, k)[1..] == Drains(uid, k - 1);
      DrainsKeepRegistry(Next(w, DrainOne(uid)), uid, k - 1);
    }
  }
}
