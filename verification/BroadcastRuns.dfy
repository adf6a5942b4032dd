/** Runs of one tracker and many clients: a client that merges every delta it is sent
    holds the current version of all it subscribed to. */
module BroadcastRuns {
  import opened Notifications
  import opened Broadcasts

  /** What a client holds: versions by broadcast id. */
  type View = map<string, string>

  /** The client takes over each entry, as into a hash map. */
  function Merge(view: View, bs: seq<Broadcast>): View
    decreases bs
  {
    if bs == [] then view else Merge(view[bs[0].id := bs[0].version], bs[1..])
  }

  /** The tracker's versions by id. */
  ghost function Versions(t: Tracker): View
    requires Registered(t)
  {
    map id | id in t.lookup :: t.versions[t.lookup[id]]
  }

  datatype Client = Client(subs: Subs, view: View)

  /** `history` records the tracker's versions at each change count. */
  datatype World = World(t: Tracker, history: seq<View>, clients: map<nat, Client>)

  datatype Step =
    | Poll(bs: seq<Broadcast>)                        // the megaphone updater
    | Hello(client: nat, claims: seq<Broadcast>)
    | SubscribeMsg(client: nat, claims: seq<Broadcast>)
    | Ping(client: nat)                               // the periodic delta

  function Remember(history: seq<View>, before: Tracker, after: Tracker, view: View): seq<View> {
    if after.changeCount == before.changeCount then history else history + [view]
  }

  ghost function AddStep(w: World, b: Broadcast): World
    requires Valid(w.t)
  {
    AddBroadcastValid(w.t, b);
    var t1 := AddBroadcast(w.t, b);
    w.(t := t1, history := Remember(w.history, w.t, t1, Versions(t1)))
  }

  ghost function AddSteps(w: World, bs: seq<Broadcast>): World
    requires Valid(w.t)
    decreases bs
  {
    if bs == [] then w
    else
      AddBroadcastValid(w.t, bs[0]);
      AddSteps(AddStep(w, bs[0]), bs[1..])
  }

  ghost function Next(w: World, step: Step): World
    requires Valid(w.t)
  {
    match step
    case Poll(bs) => AddSteps(w, bs)
    case Hello(id, claims) =>
      var (delta, subs) := BroadcastDelta(w.t, claims);
      w.(clients := w.clients[id := Client(subs, Merge(Merge(map[], claims), delta))])
    case SubscribeMsg(id, claims) =>
      if id !in w.clients then w
      else
        var (delta, subs) := Subscribe(w.t, w.clients[id].subs, claims);
        w.(clients := w.clients[id := Client(subs, Merge(Merge(w.clients[id].view, claims), delta))])
    case Ping(id) =>
      if id !in w.clients then w
      else
        var (delta, subs) := ChangeCountDelta(w.t, w.clients[id].subs);
        w.(clients := w.clients[id := Client(subs, Merge(w.clients[id].view, delta))])
  }

  // -------------------------------------------------------------- invariant

  /** Since its last change every broadcast had its current version. */
  ghost predicate HistoryOk(t: Tracker, history: seq<View>)
    requires Valid(t)
  {
    && |history| == t.changeCount + 1
    && (forall key, c :: 0 <= key < |t.table| && LastChange(t, key) <= c < |history| ==>
          t.table[key] in history[c] && history[c][t.table[key]] == t.versions[key])
  }

  /** The client holds the versions current at its change count. */
  ghost predicate ClientOk(t: Tracker, history: seq<View>, client: Client)
    requires |history| == t.changeCount + 1
  {
    && client.subs.changeCount <= t.changeCount
    && forall key :: key in client.subs.list ==>
         0 <= key < |t.table| && t.table[key] in history[client.subs.changeCount]
         && t.table[key] in client.view
         && client.view[t.table[key]] == history[client.subs.changeCount][t.table[key]]
  }

  ghost predicate Inv(w: World) {
    && Valid(w.t) && HistoryOk(w.t, w.history)
    && forall id :: id in w.clients ==> ClientOk(w.t, w.history, w.clients[id])
  }

  // ------------------------------------------------------------- the tracker

  /** When each key changes for the last time. */
  lemma TouchLast(list: seq<Revision>, key: nat, changeCount: nat, other: nat)
    requires forall i, j :: 0 <= i < j < |list| ==> list[i].key != list[j].key
    ensures var list1 := Touch(list, key, changeCount);
            IndexOf(list1, other).Some? <==> other == key || IndexOf(list, other).Some?
    ensures var list1 := Touch(list, key, changeCount);
            IndexOf(list1, other).Some? ==>
              list1[IndexOf(list1, other).value].changeCount
              == if other == key then changeCount else list[IndexOf(list, other).value].changeCount
  {
    var index := IndexOf(list, key);
    var list1 := Touch(list, key, changeCount);
    if index.Some? {
      assert forall i :: 0 <= i < |list| - 1 ==> list1[i] == if i < index.value then list[i] else list[i + 1];
    }
    var at := IndexOf(list, other);
    if other == key {
      assert list1[|list1| - 1].key == key;
    } else if at.Some? {
      var i := if index.Some? && at.value > index.value then at.value - 1 else at.value;
      assert list1[i] == list[at.value];
      assert forall k :: 0 <= k < |list1| && list1[k].key == other ==> k == i;
    }
  }

  /** One change of the tracker: nothing, or one more count, at which only this broadcast
      has a new version. */
  lemma AddEffect(t: Tracker, b: Broadcast)
    requires Valid(t)
    ensures var t1 := AddBroadcast(t, b);
            Valid(t1) && b.id in t1.lookup && |t1.table| >= |t.table|
            && t1.table[..|t.table|] == t.table
            && Versions(t1) == Versions(t)[b.id := b.version]
            && (if b.id in Versions(t) && Versions(t)[b.id] == b.version then t1 == t
                else t1.changeCount == t.changeCount + 1
                     && (forall key :: 0 <= key < |t1.table| ==>
                           LastChange(t1, key) == if key == t1.lookup[b.id] then t1.changeCount
                                                  else LastChange(t, key)))
  {
    AddBroadcastValid(t, b);
    UpdateValid(t, b);
    var t1 := AddBroadcast(t, b);
    if b.id in t.lookup {
      assert Versions(t1) == Versions(t)[b.id := b.version];
      if t1 != t {
        forall key | 0 <= key < |t1.table|
          ensures LastChange(t1, key) == if key == t.lookup[b.id] then t1.changeCount else LastChange(t, key)
        {
          TouchLast(t.list, t.lookup[b.id], t1.changeCount, key);
        }
      }
    } else {
      AddNew(t, b);
    }
  }

  lemma AddNew(t: Tracker, b: Broadcast)
    requires Valid(t) && b.id !in t.lookup
    ensures var t1 := AddBroadcast(t, b);
            Valid(t1) && b.id in t1.lookup && t1.table == t.table + [b.id]
            && Versions(t1) == Versions(t)[b.id := b.version]
            && t1.changeCount == t.changeCount + 1
            && (forall key :: 0 <= key < |t1.table| ==>
                  LastChange(t1, key) == if key == t1.lookup[b.id] then t1.changeCount else LastChange(t, key))
  {
    AddBroadcastValid(t, b);
    var t1 := AddBroadcast(t, b);
    assert t1.lookup[b.id] == |t.table|;
    forall id | id in t.lookup ensures t1.versions[t1.lookup[id]] == t.versions[t.lookup[id]] {}
    assert IndexOf(t.list, |t.table|).None?;
    forall key | 0 <= key < |t1.table|
      ensures LastChange(t1, key) == if key == |t.table| then t1.changeCount else LastChange(t, key)
    {
      TouchLast(t.list, |t.table|, t1.changeCount, key);
    }
  }

  /** Only the changed key is new, and it is new at the new count only. */
  ghost predicate OneChange(t: Tracker, t1: Tracker, changed: nat) {
    && t1.changeCount == t.changeCount + 1 && changed < |t1.table|
    && LastChange(t1, changed) == t1.changeCount
    && forall key :: 0 <= key < |t1.table| && key != changed ==>
         key < |t.table| && key in t.versions && key in t1.versions && t1.table[key] == t.table[key]
         && t1.versions[key] == t.versions[key] && LastChange(t1, key) == LastChange(t, key)
  }

  lemma AddIsOneChange(t: Tracker, b: Broadcast)
    requires Valid(t) && AddBroadcast(t, b) != t
    ensures var t1 := AddBroadcast(t, b);
            Valid(t1) && b.id in t1.lookup && OneChange(t, t1, t1.lookup[b.id])
  {
    AddEffect(t, b);
    var t1 := AddBroadcast(t, b);
    forall key | 0 <= key < |t1.table| && key != t1.lookup[b.id]
      ensures key < |t.table| && t1.table[key] == t.table[key] && t1.versions[key] == t.versions[key]
    {
      OldKey(t, t1, b, key);
    }
  }

  lemma HistoryGrows(t: Tracker, t1: Tracker, history: seq<View>, changed: nat)
    requires Valid(t) && Valid(t1) && HistoryOk(t, history) && OneChange(t, t1, changed)
    ensures HistoryOk(t1, history + [Versions(t1)])
  {
    var history1 := history + [Versions(t1)];
    forall key, c | 0 <= key < |t1.table| && LastChange(t1, key) <= c < |history1|
      ensures t1.table[key] in history1[c] && history1[c][t1.table[key]] == t1.versions[key]
    {
      if c < |history| {
        assert key != changed;
        assert history1[c] == history[c];
      }
    }
  }

  lemma ClientKept(t: Tracker, t1: Tracker, history: seq<View>, client: Client, view: View)
    requires |history| == t.changeCount + 1 && t1.changeCount == t.changeCount + 1
    requires |t1.table| >= |t.table| && t1.table[..|t.table|] == t.table
    requires ClientOk(t, history, client)
    ensures ClientOk(t1, history + [view], client)
  {
    forall key | key in client.subs.list ensures t1.table[key] == t.table[key] {
      assert t1.table[..|t.table|][key] == t.table[key];
    }
  }

  lemma AddStepOk(w: World, b: Broadcast)
    requires Inv(w)
    ensures Inv(AddStep(w, b))
  {
    AddEffect(w.t, b);
    var t1 := AddBroadcast(w.t, b);
    if t1 != w.t {
      AddIsOneChange(w.t, b);
      HistoryGrows(w.t, t1, w.history, t1.lookup[b.id]);
      forall id | id in w.clients ensures ClientOk(t1, w.history + [Versions(t1)], w.clients[id]) {
        ClientKept(w.t, t1, w.history, w.clients[id], Versions(t1));
      }
    }
  }

  /** A key other than the changed one was known before, with the version it has. */
  lemma OldKey(t: Tracker, t1: Tracker, b: Broadcast, key: nat)
    requires Valid(t) && t1 == AddBroadcast(t, b) && Valid(t1)
    requires key < |t1.table| && b.id in t1.lookup && key != t1.lookup[b.id]
    ensures key < |t.table| && t1.table[key] == t.table[key] && t1.versions[key] == t.versions[key]
  {
  }

  lemma {:induction false} AddStepsOk(w: World, bs: seq<Broadcast>)
    requires Inv(w)
    ensures Inv(AddSteps(w, bs)) && AddSteps(w, bs).t == AddBroadcasts(w.t, bs)
    decreases bs
  {
    if bs != [] {
      AddStepOk(w, bs[0]);
      AddStepsOk(AddStep(w, bs[0]), bs[1..]);
    }
  }

  // ------------------------------------------------------------- the clients

  /** Merging entries that all are current: what was merged is current, the rest is kept. */
  lemma {:induction false} MergeCurrent(t: Tracker, view: View, bs: seq<Broadcast>)
    requires forall b :: b in bs ==> b.id in t.lookup && t.lookup[b.id] in t.versions
                                     && b.version == t.versions[t.lookup[b.id]]
    ensures forall id :: id in view ==> id in Merge(view, bs)
    ensures forall id :: id in Merge(view, bs) && id in t.lookup && t.lookup[id] in t.versions ==>
              Merge(view, bs)[id] == t.versions[t.lookup[id]]
              || (id in view && Merge(view, bs)[id] == view[id] && forall b :: b in bs ==> b.id != id)
    ensures forall b :: b in bs ==> b.id in Merge(view, bs)
    decreases bs
  {
    if bs != [] {
      MergeCurrent(t, view[bs[0].id := bs[0].version], bs[1..]);
    }
  }

  /** A merged view holds each claimed id, with a claimed version. */
  lemma {:induction false} MergeClaims(view: View, claims: seq<Broadcast>)
    ensures forall id :: id in Merge(view, claims) <==> id in view || exists b :: b in claims && b.id == id
    ensures forall id :: id in Merge(view, claims) ==>
              (exists b :: b in claims && b.id == id && Merge(view, claims)[id] == b.version)
              || (id in view && Merge(view, claims)[id] == view[id] && forall b :: b in claims ==> b.id != id)
    decreases claims
  {
    if claims != [] {
      MergeClaims(view[claims[0].id := claims[0].version], claims[1..]);
    }
  }

  /** Some claim gives the broadcast a version other than this one. */
  predicate ClaimedOtherwise(bs: seq<Broadcast>, d: Broadcast) {
    exists b :: b in bs && b.id == d.id && b.version != d.version
  }

  /** What is sent for the claims: of each broadcast that is known and claimed in another version, the
      current one, and nothing else. */
  lemma {:induction false} OutdatedIff(t: Tracker, bs: seq<Broadcast>, d: Broadcast)
    requires Valid(t)
    ensures d in Outdated(t, bs) <==>
              d.id in t.lookup && d.version == t.versions[t.lookup[d.id]] && ClaimedOtherwise(bs, d)
  {
    if bs != [] {
      OutdatedIff(t, bs[1..], d);
      assert ClaimedOtherwise(bs, d) <==>
        (bs[0].id == d.id && bs[0].version != d.version) || ClaimedOtherwise(bs[1..], d);
    }
  }

  lemma OutdatedMembers(t: Tracker, bs: seq<Broadcast>)
    requires Valid(t)
    ensures forall d :: d in Outdated(t, bs) ==>
              d.id in t.lookup && d.version == t.versions[t.lookup[d.id]]
    ensures forall b :: b in bs && b.id in t.lookup && b.version != t.versions[t.lookup[b.id]] ==>
              Broadcast(b.id, t.versions[t.lookup[b.id]]) in Outdated(t, bs)
  {
    forall d ensures d in Outdated(t, bs) <==>
      d.id in t.lookup && d.version == t.versions[t.lookup[d.id]] && ClaimedOtherwise(bs, d)
    {
      OutdatedIff(t, bs, d);
    }
  }

  /** Requested broadcasts that are known are subscribed; the others are reported missing. */
  lemma {:induction false} SubscribedOrMissing(t: Tracker, bs: seq<Broadcast>)
    requires Valid(t)
    ensures forall key :: key in KeysOf(t, bs) <==>
              0 <= key < |t.table| && exists b :: b in bs && b.id == t.table[key]
    ensures forall id :: (exists b :: b in bs && b.id == id) ==>
              ((id in t.lookup && t.lookup[id] in KeysOf(t, bs)) <==>
               Broadcast(id, NOT_FOUND) !in Missing(t, bs))
    ensures forall m :: m in Missing(t, bs) ==>
              m.version == NOT_FOUND && m.id !in t.lookup && exists b :: b in bs && b.id == m.id
  {
    if bs != [] { SubscribedOrMissing(t, bs[1..]); }
  }

  predicate Holds(t: Tracker, view: View, key: nat) {
    key < |t.table| && key in t.versions && t.table[key] in view && view[t.table[key]] == t.versions[key]
  }

  /** The client is sent the delta of its older subscriptions, and only current versions. */
  ghost predicate Sends(t: Tracker, subs: Subs, sent: seq<Broadcast>) {
    && (forall d :: d in ChangeCountDelta(t, subs).0 ==> d in sent)
    && (forall d :: d in sent ==> d.id in t.lookup && t.lookup[d.id] in t.versions
                                  && d.version == t.versions[t.lookup[d.id]])
  }

  /** Then its older subscriptions are current. */
  lemma DeltaMakesCurrent(t: Tracker, history: seq<View>, client: Client, view: View,
                          sent: seq<Broadcast>, key: nat)
    requires Valid(t) && HistoryOk(t, history) && ClientOk(t, history, client)
    requires key in client.subs.list && t.table[key] in view && Sends(t, client.subs, sent)
    requires view[t.table[key]] == client.view[t.table[key]] || view[t.table[key]] == t.versions[key]
    ensures Holds(t, Merge(view, sent), key)
  {
    ScanIsFilter(t, client.subs);
    MergeCurrent(t, view, sent);
    if LastChange(t, key) <= client.subs.changeCount {
      assert history[client.subs.changeCount][t.table[key]] == t.versions[key];
    } else {
      LastChangeBounded(t, key);
      assert Broadcast(t.table[key], t.versions[key]) in ChangeCountDelta(t, client.subs).0;
    }
  }

  lemma LastChangeBounded(t: Tracker, key: nat)
    requires Valid(t)
    ensures LastChange(t, key) <= t.changeCount
  {
  }

  /** A client whose subscriptions are all current. */
  lemma CurrentClient(t: Tracker, history: seq<View>, client: Client)
    requires Valid(t) && HistoryOk(t, history) && client.subs.changeCount == t.changeCount
    requires forall key :: key in client.subs.list ==>
               0 <= key < |t.table| && t.table[key] in client.view && client.view[t.table[key]] == t.versions[key]
    ensures ClientOk(t, history, client)
  {
    forall key | key in client.subs.list
      ensures t.table[key] in history[t.changeCount] && history[t.changeCount][t.table[key]] == t.versions[key]
    {
      LastChangeBounded(t, key);
    }
  }

  /** What a client claims to hold is corrected wherever it is not current. */
  lemma ClaimsCorrected(t: Tracker, view: View, claims: seq<Broadcast>, delta: seq<Broadcast>, key: nat)
    requires Valid(t) && key in KeysOf(t, claims)
    requires forall d :: d in delta ==> d.id in t.lookup && d.version == t.versions[t.lookup[d.id]]
    ensures var final := Merge(Merge(view, claims), delta + Outdated(t, claims));
            Holds(t, final, key)
  {
    var held, sent := Merge(view, claims), delta + Outdated(t, claims);
    SubscribedOrMissing(t, claims);
    OutdatedMembers(t, claims);
    MergeClaims(view, claims);
    MergeCurrent(t, held, sent);
    var id := t.table[key];
    var b :| b in claims && b.id == id;
    assert id in held;
    if held[id] != t.versions[key] {
      var c :| c in claims && c.id == id && held[id] == c.version;
      assert Broadcast(id, t.versions[key]) in sent;
    }
  }

  lemma HelloOk(w: World, id: nat, claims: seq<Broadcast>)
    requires Inv(w)
    ensures Inv(Next(w, Hello(id, claims)))
  {
    var (delta, subs) := BroadcastDelta(w.t, claims);
    var none: seq<Broadcast> := [];
    assert none + delta == delta;
    forall key | key in subs.list
      ensures 0 <= key < |w.t.table| && Holds(w.t, Merge(Merge(map[], claims), delta), key)
    {
      ClaimsCorrected(w.t, map[], claims, none, key);
    }
    CurrentClient(w.t, w.history, Client(subs, Merge(Merge(map[], claims), delta)));
  }

  lemma PingOk(w: World, id: nat)
    requires Inv(w) && id in w.clients
    ensures Inv(Next(w, Ping(id)))
  {
    var client := w.clients[id];
    var (delta, subs) := ChangeCountDelta(w.t, client.subs);
    if w.t.changeCount > client.subs.changeCount {
      forall key | key in subs.list ensures Holds(w.t, Merge(client.view, delta), key) {
        ScanIsFilter(w.t, client.subs);
        DeltaMakesCurrent(w.t, w.history, client, client.view, delta, key);
      }
      CurrentClient(w.t, w.history, Client(subs, Merge(client.view, delta)));
    }
  }

  lemma SubscribeOk(w: World, id: nat, claims: seq<Broadcast>)
    requires Inv(w) && id in w.clients
    ensures Inv(Next(w, SubscribeMsg(id, claims)))
  {
    var client := w.clients[id];
    var delta := ChangeCountDelta(w.t, client.subs).0;
    var (sent, subs) := Subscribe(w.t, client.subs, claims);
    var held := Merge(client.view, claims);
    ScanIsFilter(w.t, client.subs);
    OutdatedMembers(w.t, claims);
    SubscribedOrMissing(w.t, claims);
    MergeClaims(client.view, claims);
    forall key | key in subs.list ensures 0 <= key < |w.t.table| && Holds(w.t, Merge(held, sent), key) {
      if key in KeysOf(w.t, claims) {
        ClaimsCorrected(w.t, client.view, claims, delta, key);
      } else {
        assert key in client.subs.list;
        DeltaMakesCurrent(w.t, w.history, client, held, sent, key);
      }
    }
    CurrentClient(w.t, w.history, Client(subs, Merge(held, sent)));
  }

  lemma NextOk(w: World, step: Step)
    requires Inv(w)
    ensures Inv(Next(w, step))
  {
    match step
    case Poll(bs) => AddStepsOk(w, bs);
    case Hello(id, claims) => HelloOk(w, id, claims);
    case SubscribeMsg(id, claims) => if id in w.clients { SubscribeOk(w, id, claims); }
    case Ping(id) => if id in w.clients { PingOk(w, id); }
  }

  // ------------------------------------------------------------ all the runs

  lemma {:induction false} AddStepsValid(w: World, bs: seq<Broadcast>)
    requires Valid(w.t)
    ensures Valid(AddSteps(w, bs).t)
    decreases bs
  {
    if bs != [] {
      AddBroadcastValid(w.t, bs[0]);
      AddStepsValid(AddStep(w, bs[0]), bs[1..]);
    }
  }

  lemma NextValid(w: World, step: Step)
    requires Valid(w.t)
    ensures Valid(Next(w, step).t)
  {
    if step.Poll? { AddStepsValid(w, step.bs); }
  }

  ghost function Run(w: World, steps: seq<Step>): World
    requires Valid(w.t)
    decreases steps
  {
    if steps == [] then w
    else
      NextValid(w, steps[0]);
      Run(Next(w, steps[0]), steps[1..])
  }

  lemma {:induction false} RunOk(w: World, steps: seq<Step>)
    requires Inv(w)
    ensures Inv(Run(w, steps))
    decreases steps
  {
    if steps != [] {
      NextValid(w, steps[0]);
      NextOk(w, steps[0]);
      RunOk(Next(w, steps[0]), steps[1..]);
    }
  }

  /** A tracker with its first broadcasts, and no client. */
  ghost function Start(bs: seq<Broadcast>): (w: World)
    ensures Valid(w.t)
  {
    InitializeValid(EMPTY, bs);
    var t := Initialize(EMPTY, bs);
    World(t, [Versions(t)], map[])
  }

  lemma StartOk(bs: seq<Broadcast>)
    ensures Inv(Start(bs))
  {
    InitializeValid(EMPTY, bs);
    StartCount(EMPTY, bs);
  }

  lemma {:induction false} StartCount(t: Tracker, bs: seq<Broadcast>)
    ensures Initialize(t, bs).changeCount == t.changeCount
    decreases bs
  {
    if bs != [] {
      var (t1, key) := Register(t, bs[0].id);
      StartCount(t1.(versions := t1.versions[key := bs[0].version]), bs[1..]);
    }
  }

  /** A new tracker holds of each id the version given last, and no other id. */
  lemma {:induction false} InitializeVersions(t: Tracker, bs: seq<Broadcast>)
    requires Valid(t) && t.list == []
    ensures Valid(Initialize(t, bs))
    ensures Versions(Initialize(t, bs)) == Merge(Versions(t), bs)
    decreases bs
  {
    if bs != [] {
      var (t1, key) := Register(t, bs[0].id);
      HeldVersions(t, bs[0]);
      InitializeVersions(t1.(versions := t1.versions[key := bs[0].version]), bs[1..]);
    }
  }

  lemma HeldVersions(t: Tracker, b: Broadcast)
    requires Valid(t) && t.list == []
    ensures var (t1, key) := Register(t, b.id);
            var t2 := t1.(versions := t1.versions[key := b.version]);
            Valid(t2) && t2.list == [] && Versions(t2) == Versions(t)[b.id := b.version]
  {
    HeldValid(t, b);
    if b.id in t.lookup { HeldKnown(t, b); } else { HeldNew(t, b); }
  }

  lemma HeldValid(t: Tracker, b: Broadcast)
    requires Valid(t) && t.list == []
    ensures var (t1, key) := Register(t, b.id);
            Valid(t1.(versions := t1.versions[key := b.version]))
  {
  }

  lemma HeldKnown(t: Tracker, b: Broadcast)
    requires Registered(t) && b.id in t.lookup
    ensures var t1 := t.(versions := t.versions[t.lookup[b.id] := b.version]);
            Registered(t1) && Versions(t1) == Versions(t)[b.id := b.version]
  {
  }

  lemma HeldNew(t: Tracker, b: Broadcast)
    requires Registered(t) && b.id !in t.lookup
    ensures var t1 := t.(table := t.table + [b.id], lookup := t.lookup[b.id := |t.table|],
                         versions := t.versions[|t.table| := b.version]);
            Registered(t1) && Versions(t1) == Versions(t)[b.id := b.version]
  {
  }

  /** In every run: a client that merges each delta it is sent holds, of every broadcast it
      is subscribed to, the version that was current at its change count; so when that is
      the tracker's, it holds the current versions. */
  lemma {:induction false} Convergence(bs: seq<Broadcast>, steps: seq<Step>, id: nat, key: nat)
    requires var w := Run(Start(bs), steps);
             id in w.clients && key in w.clients[id].subs.list
    ensures var w := Run(Start(bs), steps);
            var client := w.clients[id];
            && client.subs.changeCount < |w.history| && key < |w.t.table|
            && w.t.table[key] in client.view
            && w.t.table[key] in w.history[client.subs.changeCount]
            && client.view[w.t.table[key]] == w.history[client.subs.changeCount][w.t.table[key]]
            && (client.subs.changeCount == w.t.changeCount ==> Holds(w.t, client.view, key))
  {
    var w := Run(Start(bs), steps);
    StartOk(bs);
    RunOk(Start(bs), steps);
    assert ClientOk(w.t, w.history, w.clients[id]);
    LastChangeBounded(w.t, key);
  }

  lemma {:induction false} RunConcat(w: World, steps: seq<Step>, step: Step)
    requires Valid(w.t)
    ensures Valid(Run(w, steps).t)
    ensures Run(w, steps + [step]) == Next(Run(w, steps), step)
    decreases steps
  {
    if steps == [] {
      assert [step][1..] == [] && steps + [step] == [step];
      NextValid(w, step);
      assert Run(w, [step]) == Run(Next(w, step), []);
    } else {
      NextValid(w, steps[0]);
      assert (steps + [step])[1..] == steps[1..] + [step];
      RunConcat(Next(w, steps[0]), steps[1..], step);
    }
  }

  /** The step is heard by the client. */
  predicate Hears(w: World, step: Step, id: nat) {
    match step
    case Poll(_) => false
    case Hello(client, _) => client == id
    case SubscribeMsg(client, _) => client == id && id in w.clients
    case Ping(client) => client == id && id in w.clients
  }

  /** In every run: each time a client hears from the tracker, be it in the reply to its Hello, the reply to
      a subscription or a periodic delta, it then holds the current version of every broadcast it is
      subscribed to. */
  lemma {:induction false} HearingMakesCurrent(bs: seq<Broadcast>, steps: seq<Step>, step: Step, id: nat, key: nat)
    requires Hears(Run(Start(bs), steps), step, id)
    requires var w := Run(Start(bs), steps + [step]);
             id in w.clients && key in w.clients[id].subs.list
    ensures var w := Run(Start(bs), steps + [step]);
            Holds(w.t, w.clients[id].view, key)
  {
    RunConcat(Start(bs), steps, step);
    StartOk(bs);
    RunOk(Start(bs), steps);
    HeardCount(Run(Start(bs), steps), step, id);
    Convergence(bs, steps + [step], id, key);
  }

  lemma HeardCount(w: World, step: Step, id: nat)
    requires Inv(w) && Hears(w, step, id)
    ensures var w1 := Next(w, step);
            id in w1.clients && w1.clients[id].subs.changeCount == w1.t.changeCount
  {
    if id in w.clients { assert ClientOk(w.t, w.history, w.clients[id]); }
  }

  /** A broadcast with this key is known and asked for. */
  predicate Requested(t: Tracker, claims: seq<Broadcast>, key: nat) {
    key < |t.table| && exists b :: b in claims && b.id == t.table[key]
  }

  predicate Subscribed(w: World, id: nat, key: nat) {
    id in w.clients && key in w.clients[id].subs.list
  }

  /** A client is subscribed to just what it asked for and is known: a Hello begins afresh, a subscription
      adds to the older ones, and nothing else makes a difference. */
  lemma SubscribedIffRequested(w: World, step: Step, id: nat, key: nat)
    requires Valid(w.t)
    ensures Subscribed(Next(w, step), id, key) <==>
      if step.Hello? && step.client == id then Requested(w.t, step.claims, key)
      else
        Subscribed(w, id, key)
        || (step.SubscribeMsg? && step.client == id && id in w.clients && Requested(w.t, step.claims, key))
  {
    if step.Poll? { AddStepsClients(w, step.bs); }
    if step.Hello? || step.SubscribeMsg? { SubscribedOrMissing(w.t, step.claims); }
  }

  lemma {:induction false} AddStepsClients(w: World, bs: seq<Broadcast>)
    requires Valid(w.t)
    ensures AddSteps(w, bs).clients == w.clients
    decreases bs
  {
    if bs != [] {
      AddBroadcastValid(w.t, bs[0]);
      AddStepsClients(AddStep(w, bs[0]), bs[1..]);
    }
  }
}
