/** The tracker, its registry and a client's subscriptions, updated in place. */
module BroadcastTrackers {
  import opened Notifications
  import opened Broadcasts

  class BroadcastRegistry {
    var lookup: map<string, nat>
    var table: seq<string>

    constructor ()
      ensures lookup == map[] && table == []
    {
      lookup, table := map[], [];
    }

    method AddBroadcast(id: string) returns (key: nat)
      modifies this
      ensures (EMPTY.(lookup := lookup, table := table), key)
              == Register(EMPTY.(lookup := old(lookup), table := old(table)), id)
    {
      if id in lookup {
        return lookup[id];
      }
      key := |table|;
      table := table + [id];
      lookup := lookup[id := key];
    }
  }

  /** A client's subscriptions and the last change it was told of. */
  class BroadcastSubs {
    var list: seq<nat>
    var changeCount: nat

    ghost function Model(): Subs
      reads this
    {
      Subs(list, changeCount)
    }

    constructor (list: seq<nat>, changeCount: nat)
      ensures Model() == Subs(list, changeCount)
    {
      this.list, this.changeCount := list, changeCount;
    }
  }

  class BroadcastChangeTracker {
    var broadcastList: seq<Revision>
    const registry: BroadcastRegistry
    var versions: map<nat, string>
    var changeCount: nat

    ghost function Model(): Tracker
      reads this, registry
    {
      Tracker(broadcastList, registry.lookup, registry.table, versions, changeCount)
    }

    constructor (broadcasts: seq<Broadcast>)
      ensures Model() == Initialize(EMPTY, broadcasts)
      ensures fresh(registry)
    {
      registry := new BroadcastRegistry();
      broadcastList, versions, changeCount := [], map[], 0;
      new;
      for i := 0 to |broadcasts|
        invariant Initialize(Model(), broadcasts[i..]) == Initialize(EMPTY, broadcasts)
      {
        assert broadcasts[i..][1..] == broadcasts[i + 1..];
        var key := registry.AddBroadcast(broadcasts[i].id);
        versions := versions[key := broadcasts[i].version];
      }
    }

    method AddBroadcasts(broadcasts: seq<Broadcast>) returns (r: Option<nat>)
      modifies this, registry
      ensures Model() == Broadcasts.AddBroadcasts(old(Model()), broadcasts)
      ensures r == if broadcasts == [] then None else Some(changeCount)
    {
      r := None;
      for i := 0 to |broadcasts|
        invariant Broadcasts.AddBroadcasts(Model(), broadcasts[i..])
                  == Broadcasts.AddBroadcasts(old(Model()), broadcasts)
        invariant r == if i == 0 then None else Some(changeCount)
      {
        assert broadcasts[i..][1..] == broadcasts[i + 1..];
        var count := AddBroadcast(broadcasts[i]);
        r := Some(count);
      }
    }

    method AddBroadcast(b: Broadcast) returns (count: nat)
      modifies this, registry
      ensures Model() == Broadcasts.AddBroadcast(old(Model()), b) && count == changeCount
    {
      var updated := UpdateBroadcast(b);
      if updated.Some? {
        return updated.value;
      }
      changeCount := changeCount + 1;
      var key := registry.AddBroadcast(b.id);
      versions := versions[key := b.version];
      broadcastList := broadcastList + [Revision(changeCount, key)];
      return changeCount;
    }

    /** None stands for the error "Broadcast not found". */
    method UpdateBroadcast(b: Broadcast) returns (r: Option<nat>)
      modifies this
      ensures r.Some? <==> Update(old(Model()), b).Some?
      ensures r.Some? ==> Model() == Update(old(Model()), b).value && r.value == changeCount
      ensures r.None? ==> Model() == old(Model())
    {
      if b.id !in registry.lookup {
        return None;
      }
      var key := registry.lookup[b.id];
      if key !in versions {
        return None;
      }
      if versions[key] == b.version {
        return Some(changeCount);
      }
      versions := versions[key := b.version];
      var index := FindRevision(key);
      changeCount := changeCount + 1;
      if index.Some? {
        var revision := broadcastList[index.value];
        broadcastList := broadcastList[..index.value] + broadcastList[index.value + 1..];
        broadcastList := broadcastList + [revision.(changeCount := changeCount)];
      } else {
        broadcastList := broadcastList + [Revision(changeCount, key)];
      }
      return Some(changeCount);
    }

    method FindRevision(key: nat) returns (r: Option<nat>)
      ensures r == IndexOf(broadcastList, key)
    {
      for i := 0 to |broadcastList|
        invariant IndexOf(broadcastList, key) ==
                    (var rest := IndexOf(broadcastList[i..], key);
                     if rest.None? then None else Some(rest.value + i))
      {
        assert broadcastList[i..][1..] == broadcastList[i + 1..];
        if broadcastList[i].key == key {
          return Some(i);
        }
      }
      return None;
    }

    /** An empty delta is returned as none. */
    method ChangeCountDelta(clientSet: BroadcastSubs) returns (r: Option<seq<Broadcast>>)
      modifies clientSet
      ensures var (delta, subs) := Broadcasts.ChangeCountDelta(Model(), old(clientSet.Model()));
              clientSet.Model() == subs && r == if delta == [] then None else Some(delta)
      ensures Model() == old(Model())
    {
      if changeCount <= clientSet.changeCount {
        return None;
      }
      var delta := [];
      var i := |broadcastList|;
      assert broadcastList[..i] == broadcastList;
      while i > 0
        invariant 0 <= i <= |broadcastList|
        invariant delta + Scan(Model(), broadcastList[..i], clientSet.Model())
                  == Scan(Model(), broadcastList, clientSet.Model())
      {
        i := i - 1;
        var revision := broadcastList[i];
        assert broadcastList[..i + 1][..i] == broadcastList[..i];
        if revision.changeCount <= clientSet.changeCount {
          break;
        }
        if revision.key !in clientSet.list {
          continue;
        }
        assert delta + (Current(Model(), revision.key) + Scan(Model(), broadcastList[..i], clientSet.Model()))
            == (delta + Current(Model(), revision.key)) + Scan(Model(), broadcastList[..i], clientSet.Model());
        if revision.key in versions && revision.key < |registry.table| {
          delta := delta + [Broadcast(registry.table[revision.key], versions[revision.key])];
        } else {
          assert delta + [] == delta;
        }
      }
      assert delta + [] == delta;
      assert delta == Scan(Model(), broadcastList, clientSet.Model());
      clientSet.changeCount := changeCount;
      return if delta == [] then None else Some(delta);
    }

    method CompareVersions(broadcasts: seq<Broadcast>) returns (delta: seq<Broadcast>, keys: seq<nat>)
      ensures delta == Outdated(Model(), broadcasts) && keys == KeysOf(Model(), broadcasts)
    {
      delta, keys := [], [];
      for i := 0 to |broadcasts|
        invariant delta + Outdated(Model(), broadcasts[i..]) == Outdated(Model(), broadcasts)
        invariant keys + KeysOf(Model(), broadcasts[i..]) == KeysOf(Model(), broadcasts)
      {
        assert broadcasts[i..][1..] == broadcasts[i + 1..];
        var b := broadcasts[i];
        if b.id in registry.lookup {
          var key := registry.lookup[b.id];
          if key in versions && versions[key] != b.version {
            delta := delta + [Broadcast(b.id, versions[key])];
          }
          keys := keys + [key];
        }
      }
    }

    method BroadcastDelta(broadcasts: seq<Broadcast>) returns (delta: seq<Broadcast>, subs: BroadcastSubs)
      ensures fresh(subs) && (delta, subs.Model()) == Broadcasts.BroadcastDelta(Model(), broadcasts)
    {
      var keys;
      delta, keys := CompareVersions(broadcasts);
      subs := new BroadcastSubs(keys, changeCount);
    }

    method SubscribeToBroadcasts(subs: BroadcastSubs, broadcasts: seq<Broadcast>) returns (r: Option<seq<Broadcast>>)
      modifies subs
      ensures var (delta, subs1) := Subscribe(Model(), old(subs.Model()), broadcasts);
              subs.Model() == subs1 && r == if delta == [] then None else Some(delta)
      ensures Model() == old(Model())
    {
      var changed := ChangeCountDelta(subs);
      var delta, keys := CompareVersions(broadcasts);
      delta := (if changed.Some? then changed.value else []) + delta;
      subs.list := subs.list + keys;
      return if delta == [] then None else Some(delta);
    }

    method MissingBroadcasts(broadcasts: seq<Broadcast>) returns (missing: seq<Broadcast>)
      ensures missing == Missing(Model(), broadcasts)
    {
      missing := [];
      for i := 0 to |broadcasts|
        invariant missing + Missing(Model(), broadcasts[i..]) == Missing(Model(), broadcasts)
      {
        assert broadcasts[i..][1..] == broadcasts[i + 1..];
        if broadcasts[i].id !in registry.lookup {
          missing := missing + [Broadcast(broadcasts[i].id, NOT_FOUND)];
        }
      }
    }
  }
}
