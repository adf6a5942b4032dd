/** What the broadcast tracker computes, and the order of its change list
    (autoconnect-common/src/broadcast.rs). */
module Broadcasts {
  import opened Notifications

  datatype Broadcast = Broadcast(id: string, version: string)

  datatype Revision = Revision(changeCount: nat, key: nat)

  /** `lookup` and `table` are the registry; `list` has the keys in order of their last change. */
  datatype Tracker = Tracker(
    list: seq<Revision>,
    lookup: map<string, nat>,
    table: seq<string>,
    versions: map<nat, string>,
    changeCount: nat)

  datatype Subs = Subs(list: seq<nat>, changeCount: nat)

  const EMPTY := Tracker([], map[], [], map[], 0)

  // ---------------------------------------------------------- specification

  /** The tracker with the id registered, and its key. */
  function Register(t: Tracker, id: string): (Tracker, nat) {
    if id in t.lookup then (t, t.lookup[id])
    else (t.(table := t.table + [id], lookup := t.lookup[id := |t.table|]), |t.table|)
  }

  function Initialize(t: Tracker, bs: seq<Broadcast>): Tracker
    decreases bs
  {
    if bs == [] then t
    else
      var (t1, key) := Register(t, bs[0].id);
      Initialize(t1.(versions := t1.versions[key := bs[0].version]), bs[1..])
  }

  function IndexOf(list: seq<Revision>, key: nat): (r: Option<nat>)
    ensures r.Some? ==> r.value < |list| && list[r.value].key == key
    ensures r.None? ==> forall i :: 0 <= i < |list| ==> list[i].key != key
  {
    if list == [] then None
    else if list[0].key == key then Some(0)
    else
      var r := IndexOf(list[1..], key);
      if r.None? then
        assert forall i :: 0 < i < |list| ==> list[i] == list[1..][i - 1];
        None
      else Some(r.value + 1)
  }

  /** The change list once the key has changed for the `changeCount`-th time. */
  function Touch(list: seq<Revision>, key: nat, changeCount: nat): seq<Revision> {
    var index := IndexOf(list, key);
    (if index.Some? then list[..index.value] + list[index.value + 1..] else list)
    + [Revision(changeCount, key)]
  }

  /** `update_broadcast`; none when the broadcast is unknown. */
  function Update(t: Tracker, b: Broadcast): Option<Tracker> {
    if b.id !in t.lookup || t.lookup[b.id] !in t.versions then None
    else
      var key := t.lookup[b.id];
      if t.versions[key] == b.version then Some(t)
      else Some(t.(versions := t.versions[key := b.version],
                   changeCount := t.changeCount + 1,
                   list := Touch(t.list, key, t.changeCount + 1)))
  }

  function AddBroadcast(t: Tracker, b: Broadcast): Tracker {
    var updated := Update(t, b);
    if updated.Some? then updated.value
    else
      var (t1, key) := Register(t, b.id);
      t1.(versions := t1.versions[key := b.version],
          changeCount := t.changeCount + 1,
          list := t.list + [Revision(t.changeCount + 1, key)])
  }

  function AddBroadcasts(t: Tracker, bs: seq<Broadcast>): Tracker
    decreases bs
  {
    if bs == [] then t else AddBroadcasts(AddBroadcast(t, bs[0]), bs[1..])
  }

  /** The broadcast behind a key. */
  function Current(t: Tracker, key: nat): seq<Broadcast> {
    if key in t.versions && key < |t.table| then [Broadcast(t.table[key], t.versions[key])] else []
  }

  /** The scan from the newest change that stops at the first change the client has seen. */
  function Scan(t: Tracker, list: seq<Revision>, subs: Subs): seq<Broadcast> {
    if list == [] then []
    else
      var last := list[|list| - 1];
      if last.changeCount <= subs.changeCount then []
      else if last.key !in subs.list then Scan(t, list[..|list| - 1], subs)
      else Current(t, last.key) + Scan(t, list[..|list| - 1], subs)
  }

  /** What is sent, and the subscriptions afterwards. */
  function ChangeCountDelta(t: Tracker, subs: Subs): (seq<Broadcast>, Subs) {
    if t.changeCount <= subs.changeCount then ([], subs)
    else (Scan(t, t.list, subs), subs.(changeCount := t.changeCount))
  }

  /** The requested broadcasts whose version is not the current one. */
  function Outdated(t: Tracker, bs: seq<Broadcast>): seq<Broadcast> {
    if bs == [] then []
    else
      var b := bs[0];
      if b.id in t.lookup && t.lookup[b.id] in t.versions && t.versions[t.lookup[b.id]] != b.version then
        [Broadcast(b.id, t.versions[t.lookup[b.id]])] + Outdated(t, bs[1..])
      else Outdated(t, bs[1..])
  }

  function KeysOf(t: Tracker, bs: seq<Broadcast>): seq<nat> {
    if bs == [] then []
    else if bs[0].id in t.lookup then [t.lookup[bs[0].id]] + KeysOf(t, bs[1..])
    else KeysOf(t, bs[1..])
  }

  /** A new client's first delta and its subscriptions. */
  function BroadcastDelta(t: Tracker, bs: seq<Broadcast>): (seq<Broadcast>, Subs) {
    (Outdated(t, bs), Subs(KeysOf(t, bs), t.changeCount))
  }

  function Subscribe(t: Tracker, subs: Subs, bs: seq<Broadcast>): (seq<Broadcast>, Subs) {
    var (delta, subs1) := ChangeCountDelta(t, subs);
    (delta + Outdated(t, bs), subs1.(list := subs1.list + KeysOf(t, bs)))
  }

  const NOT_FOUND := "Broadcast not found"

  function Missing(t: Tracker, bs: seq<Broadcast>): seq<Broadcast> {
    if bs == [] then []
    else if bs[0].id in t.lookup then Missing(t, bs[1..])
    else [Broadcast(bs[0].id, NOT_FOUND)] + Missing(t, bs[1..])
  }

  // -------------------------------------------------------------- invariant

  /** The registry is a bijection between the known ids and the keys below their number. */
  ghost predicate Registered(t: Tracker) {
    && (forall id :: id in t.lookup ==> t.lookup[id] < |t.table| && t.table[t.lookup[id]] == id)
    && (forall key :: 0 <= key < |t.table| ==> t.table[key] in t.lookup && t.lookup[t.table[key]] == key)
    && (forall key :: key in t.versions <==> 0 <= key < |t.table|)
  }

  /** The change list is in strictly increasing order, with no key twice, and ends at the
      tracker's own count. */
  ghost predicate Ordered(list: seq<Revision>, size: nat, changeCount: nat) {
    && (forall i, j :: 0 <= i < j < |list| ==> list[i].changeCount < list[j].changeCount)
    && (forall i, j :: 0 <= i < j < |list| ==> list[i].key != list[j].key)
    && (forall i :: 0 <= i < |list| ==> list[i].key < size && 0 < list[i].changeCount)
    && changeCount == if list == [] then 0 else list[|list| - 1].changeCount
  }

  ghost predicate ListOrdered(t: Tracker) {
    Ordered(t.list, |t.table|, t.changeCount)
  }

  ghost predicate Valid(t: Tracker) {
    Registered(t) && ListOrdered(t)
  }

  lemma {:induction false} InitializeValid(t: Tracker, bs: seq<Broadcast>)
    requires Valid(t) && t.list == []
    ensures Valid(Initialize(t, bs)) && Initialize(t, bs).list == []
    decreases bs
  {
    if bs != [] {
      var (t1, key) := Register(t, bs[0].id);
      InitializeValid(t1.(versions := t1.versions[key := bs[0].version]), bs[1..]);
    }
  }

  /** Moving a key to the end keeps the order. */
  lemma TouchOrdered(list: seq<Revision>, key: nat, size: nat, changeCount: nat)
    requires Ordered(list, size, changeCount) && key < size
    ensures Ordered(Touch(list, key, changeCount + 1), size, changeCount + 1)
  {
    var index := IndexOf(list, key);
    if index.Some? {
      var rest := list[..index.value] + list[index.value + 1..];
      RemoveOrdered(list, index.value, size, changeCount);
      AppendOrdered(rest, key, size, changeCount);
    } else {
      AppendOrdered(list, key, size, changeCount);
    }
  }

  /** In order, and below the count. */
  ghost predicate Below(list: seq<Revision>, key: nat, size: nat, changeCount: nat) {
    && (forall i, j :: 0 <= i < j < |list| ==> list[i].changeCount < list[j].changeCount)
    && (forall i, j :: 0 <= i < j < |list| ==> list[i].key != list[j].key)
    && (forall i :: 0 <= i < |list| ==>
          list[i].key < size && list[i].key != key && 0 < list[i].changeCount <= changeCount)
  }

  lemma RemoveOrdered(list: seq<Revision>, index: nat, size: nat, changeCount: nat)
    requires Ordered(list, size, changeCount) && index < |list|
    ensures Below(list[..index] + list[index + 1..], list[index].key, size, changeCount)
  {
    var rest := list[..index] + list[index + 1..];
    assert forall i :: 0 <= i < |rest| ==> rest[i] == if i < index then list[i] else list[i + 1];
  }

  lemma AppendOrdered(list: seq<Revision>, key: nat, size: nat, changeCount: nat)
    requires key < size && (Below(list, key, size, changeCount)
                            || (Ordered(list, size, changeCount) && IndexOf(list, key).None?))
    ensures Ordered(list + [Revision(changeCount + 1, key)], size, changeCount + 1)
  {
  }

  lemma UpdateRegistered(t: Tracker, b: Broadcast)
    requires Registered(t)
    ensures Update(t, b).Some? <==> b.id in t.lookup
    ensures Update(t, b).Some? ==> Registered(Update(t, b).value) && Update(t, b).value.table == t.table
  {
  }

  lemma UpdateOrdered(t: Tracker, b: Broadcast)
    requires b.id in t.lookup && t.lookup[b.id] < |t.table| && ListOrdered(t)
    ensures Update(t, b).Some? ==> ListOrdered(Update(t, b).value)
  {
    TouchOrdered(t.list, t.lookup[b.id], |t.table|, t.changeCount);
  }

  lemma UpdateValid(t: Tracker, b: Broadcast)
    requires Valid(t)
    ensures Update(t, b).Some? ==> Valid(Update(t, b).value)
    ensures Update(t, b).Some? <==> b.id in t.lookup
  {
    UpdateRegistered(t, b);
    if b.id in t.lookup { UpdateOrdered(t, b); }
  }

  /** Every operation that changes the tracker keeps the registry a bijection and the
      change list ordered. */
  lemma AddBroadcastValid(t: Tracker, b: Broadcast)
    requires Valid(t)
    ensures Valid(AddBroadcast(t, b))
  {
    UpdateValid(t, b);
  }

  lemma {:induction false} AddBroadcastsValid(t: Tracker, bs: seq<Broadcast>)
    requires Valid(t)
    ensures Valid(AddBroadcasts(t, bs))
    decreases bs
  {
    if bs != [] {
      AddBroadcastValid(t, bs[0]);
      AddBroadcastsValid(AddBroadcast(t, bs[0]), bs[1..]);
    }
  }

  // ------------------------------------------- the scan is a complete filter

  /** When the key last changed; zero if not since the start. */
  function LastChange(t: Tracker, key: nat): nat {
    var index := IndexOf(t.list, key);
    if index.Some? then t.list[index.value].changeCount else 0
  }

  lemma LastChangeAt(t: Tracker, i: nat)
    requires Valid(t) && i < |t.list|
    ensures LastChange(t, t.list[i].key) == t.list[i].changeCount
  {
    var index := IndexOf(t.list, t.list[i].key);
  }

  lemma {:induction false} ScanMembers(t: Tracker, n: nat, subs: Subs)
    requires Valid(t) && n <= |t.list|
    ensures forall b :: b in Scan(t, t.list[..n], subs) <==>
              exists i :: 0 <= i < n && t.list[i].changeCount > subs.changeCount
                          && t.list[i].key in subs.list
                          && b == Broadcast(t.table[t.list[i].key], t.versions[t.list[i].key])
  {
    if n > 0 {
      var last := t.list[n - 1];
      assert t.list[..n][..n - 1] == t.list[..n - 1];
      ScanMembers(t, n - 1, subs);
    }
  }

  /** The early exit misses nothing: the delta holds exactly the subscribed broadcasts that
      changed after the client's count, with their current versions. */
  lemma ScanIsFilter(t: Tracker, subs: Subs)
    requires Valid(t)
    ensures forall key :: 0 <= key < |t.table| ==>
              (Broadcast(t.table[key], t.versions[key]) in Scan(t, t.list, subs) <==>
               key in subs.list && LastChange(t, key) > subs.changeCount)
    ensures forall b :: b in Scan(t, t.list, subs) ==>
              b.id in t.lookup && b.version == t.versions[t.lookup[b.id]]
  {
    assert t.list[..|t.list|] == t.list;
    ScanMembers(t, |t.list|, subs);
    forall key | 0 <= key < |t.table|
      ensures Broadcast(t.table[key], t.versions[key]) in Scan(t, t.list, subs) <==>
              key in subs.list && LastChange(t, key) > subs.changeCount
    {
      var index := IndexOf(t.list, key);
      if Broadcast(t.table[key], t.versions[key]) in Scan(t, t.list, subs) {
        var i :| 0 <= i < |t.list| && t.list[i].changeCount > subs.changeCount
                 && t.list[i].key in subs.list && t.table[t.list[i].key] == t.table[key];
        LastChangeAt(t, i);
      }
      if index.Some? { assert t.list[index.value].key == key; }
    }
  }

  predicate DistinctIds(bs: seq<Broadcast>) {
    forall i, j :: 0 <= i < j < |bs| ==> bs[i].id != bs[j].id
  }

  /** Each once. */
  lemma {:induction false} ScanOnce(t: Tracker, n: nat, subs: Subs)
    requires Valid(t) && n <= |t.list|
    ensures DistinctIds(Scan(t, t.list[..n], subs))
  {
    if n > 0 {
      assert t.list[..n][..n - 1] == t.list[..n - 1];
      ScanOnce(t, n - 1, subs);
      ScanMembers(t, n - 1, subs);
      var rest := Scan(t, t.list[..n - 1], subs);
      forall j | 0 <= j < |rest| ensures rest[j].id != t.table[t.list[n - 1].key] {
        assert rest[j] in rest;
        var i :| 0 <= i < n - 1 && rest[j] == Broadcast(t.table[t.list[i].key], t.versions[t.list[i].key]);
        assert t.lookup[t.table[t.list[i].key]] != t.lookup[t.table[t.list[n - 1].key]];
      }
      var last := t.list[n - 1];
      var r := Scan(t, t.list[..n], subs);
      if last.changeCount > subs.changeCount && last.key in subs.list {
        var head := Broadcast(t.table[last.key], t.versions[last.key]);
        assert r == [head] + rest;
        forall i, j | 0 <= i < j < |r| ensures r[i].id != r[j].id {
          assert DistinctIds(rest);
          assert r[j] == rest[j - 1];
          if i > 0 { assert r[i] == rest[i - 1]; }
        }
      } else {
        assert r == [] || r == rest;
      }
    }
  }
}
