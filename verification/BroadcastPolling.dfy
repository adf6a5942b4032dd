/** Polling the megaphone again, or in another order, and the reply on the wire. */
module BroadcastPolling {
  import opened Notifications
  import opened Broadcasts
  import opened BroadcastRuns

  /** The updates that are news to someone who holds these versions. */
  function News(view: View, bs: seq<Broadcast>): set<Broadcast> {
    set b | b in bs && !(b.id in view && view[b.id] == b.version)
  }

  /** Adding updates with distinct ids sets each to its version, leaves the rest, and
      counts exactly the updates that were news. */
  lemma {:induction false} AddAllEffect(t: Tracker, bs: seq<Broadcast>)
    requires Valid(t) && DistinctIds(bs)
    ensures var t1 := AddBroadcasts(t, bs);
            Valid(t1) && Versions(t1) == Merge(Versions(t), bs)
            && t1.changeCount == t.changeCount + |News(Versions(t), bs)|
    decreases bs
  {
    if bs != [] {
      var b, rest := bs[0], bs[1..];
      AddEffect(t, b);
      AddAllEffect(AddBroadcast(t, b), rest);
      forall i, j | 0 <= i < j < |rest| ensures rest[i].id != rest[j].id {
        assert bs[i + 1].id != bs[j + 1].id;
      }
      NewsOfFirst(Versions(t), bs);
    } else {
      assert News(Versions(t), bs) == {};
    }
  }

  lemma NewsOfOther(view: View, bs: seq<Broadcast>, c: Broadcast)
    requires bs != [] && DistinctIds(bs)
    ensures c in News(view[bs[0].id := bs[0].version], bs[1..]) <==> c in News(view, bs) && c != bs[0]
  {
    if c in bs[1..] {
      var i :| 0 <= i < |bs[1..]| && bs[1..][i] == c;
      assert bs[i + 1] == c && bs[i + 1].id != bs[0].id;
    }
  }

  lemma NewsOfRest(view: View, bs: seq<Broadcast>)
    requires bs != [] && DistinctIds(bs)
    ensures News(view[bs[0].id := bs[0].version], bs[1..]) == News(view, bs) - {bs[0]}
  {
    forall c ensures c in News(view[bs[0].id := bs[0].version], bs[1..]) <==> c in News(view, bs) && c != bs[0] {
      NewsOfOther(view, bs, c);
    }
  }

  lemma NewsOfFirst(view: View, bs: seq<Broadcast>)
    requires bs != [] && DistinctIds(bs)
    ensures |News(view, bs)| == |News(view[bs[0].id := bs[0].version], bs[1..])|
                                + (if bs[0].id in view && view[bs[0].id] == bs[0].version then 0 else 1)
  {
    NewsOfRest(view, bs);
    assert bs[0] in News(view, bs) <==> !(bs[0].id in view && view[bs[0].id] == bs[0].version);
  }

  /** Polling the same updates again changes nothing at all. */
  lemma PollingIsIdempotent(t: Tracker, bs: seq<Broadcast>)
    requires Valid(t) && DistinctIds(bs)
    ensures AddBroadcasts(AddBroadcasts(t, bs), bs) == AddBroadcasts(t, bs)
  {
    AddAllEffect(t, bs);
    MergeSets(Versions(t), bs);
    NoNews(AddBroadcasts(t, bs), bs);
  }

  lemma {:induction false} NoNews(t: Tracker, bs: seq<Broadcast>)
    requires Valid(t) && forall b :: b in bs ==> b.id in Versions(t) && Versions(t)[b.id] == b.version
    ensures AddBroadcasts(t, bs) == t
    decreases bs
  {
    if bs != [] {
      AddEffect(t, bs[0]);
      NoNews(t, bs[1..]);
    }
  }

  /** With distinct ids, the merged view has each update's version, and is otherwise kept. */
  lemma {:induction false} MergeSets(view: View, bs: seq<Broadcast>)
    requires DistinctIds(bs)
    ensures forall b :: b in bs ==> b.id in Merge(view, bs) && Merge(view, bs)[b.id] == b.version
    ensures forall id :: id in Merge(view, bs) <==> id in view || exists b :: b in bs && b.id == id
    ensures forall id :: id in view && (forall b :: b in bs ==> b.id != id) ==>
              id in Merge(view, bs) && Merge(view, bs)[id] == view[id]
    decreases bs
  {
    if bs != [] {
      var rest := bs[1..];
      forall i, j | 0 <= i < j < |rest| ensures rest[i].id != rest[j].id {
        assert bs[i + 1].id != bs[j + 1].id;
      }
      forall c | c in rest ensures c.id != bs[0].id {
        var i :| 0 <= i < |rest| && rest[i] == c;
        assert bs[i + 1] == c;
      }
      assert bs == [bs[0]] + rest;
      MergeSets(view[bs[0].id := bs[0].version], rest);
    }
  }

  /** What a new tracker holds: of each id the version given last, and so, with distinct ids, each of the
      given broadcasts and nothing else. */
  lemma NewTrackerHolds(bs: seq<Broadcast>)
    ensures var t := Initialize(EMPTY, bs);
            Valid(t) && t.changeCount == 0 && Versions(t) == Merge(map[], bs)
    ensures var held := Versions(Initialize(EMPTY, bs));
            (forall id :: id in held <==> exists b :: b in bs && b.id == id)
            && (DistinctIds(bs) ==> forall b :: b in bs ==> held[b.id] == b.version)
  {
    InitializeVersions(EMPTY, bs);
    StartCount(EMPTY, bs);
    assert Versions(EMPTY) == map[];
    MergeClaims(map[], bs);
    if DistinctIds(bs) { MergeSets(map[], bs); }
  }

  /** The order of the updates makes no difference to the versions nor to the count. */
  lemma {:induction false} PollingOrder(t: Tracker, a: seq<Broadcast>, b: seq<Broadcast>)
    requires Valid(t) && DistinctIds(a) && DistinctIds(b) && multiset(a) == multiset(b)
    ensures Valid(AddBroadcasts(t, a)) && Valid(AddBroadcasts(t, b))
    ensures Versions(AddBroadcasts(t, a)) == Versions(AddBroadcasts(t, b))
    ensures AddBroadcasts(t, a).changeCount == AddBroadcasts(t, b).changeCount
  {
    AddAllEffect(t, a);
    AddAllEffect(t, b);
    SameMembers(a, b);
    assert News(Versions(t), a) == News(Versions(t), b);
    SameMerge(Versions(t), a, b);
  }

  lemma SameMerge(view: View, a: seq<Broadcast>, b: seq<Broadcast>)
    requires DistinctIds(a) && DistinctIds(b) && forall c :: c in a <==> c in b
    ensures Merge(view, a) == Merge(view, b)
  {
    MergeSets(view, a);
    MergeSets(view, b);
    forall id | id in Merge(view, a) ensures id in Merge(view, b) && Merge(view, a)[id] == Merge(view, b)[id] {
      if c :| c in a && c.id == id { assert c in b; }
    }
    assert Merge(view, a).Keys == Merge(view, b).Keys;
  }

  lemma SameMembers(a: seq<Broadcast>, b: seq<Broadcast>)
    requires multiset(a) == multiset(b)
    ensures forall c :: c in a <==> c in b
  {
    forall c ensures c in a <==> c in b {
      assert c in a <==> c in multiset(a);
      assert c in b <==> c in multiset(b);
    }
  }

  // ----------------------------------------------------- the reply on the wire

  datatype BroadcastValue = Value(version: string) | Nested(values: map<string, BroadcastValue>)

  function VecIntoHashmap(bs: seq<Broadcast>): map<string, BroadcastValue> {
    var view := Merge(map[], bs);
    map id | id in view :: Value(view[id])
  }

  /** The reply to a subscription: the delta, and the missing ones under "errors"
      (autoconnect-ws-sm/src/identified/on_client_msg.rs). */
  function Response(delta: seq<Broadcast>, missing: seq<Broadcast>): map<string, BroadcastValue> {
    var response := VecIntoHashmap(delta);
    if missing == [] then response else response["errors" := Nested(VecIntoHashmap(missing))]
  }

  /** The reply carries the version that was sent for an id exactly if the id is not
      "errors" or nothing is missing: a broadcast of that name is lost to the error list. */
  lemma {:induction false} ResponseCarriesIff(delta: seq<Broadcast>, missing: seq<Broadcast>, id: string)
    requires id in Merge(map[], delta)
    ensures (id in Response(delta, missing) && Response(delta, missing)[id] == Value(Merge(map[], delta)[id]))
            <==> id != "errors" || missing == []
  {
  }

  /** Nothing else is in the reply, and the error list names exactly the requested ids that are unknown. */
  lemma ErrorsListMissing(t: Tracker, claims: seq<Broadcast>, delta: seq<Broadcast>)
    requires Valid(t)
    ensures var response := Response(delta, Missing(t, claims));
            (forall id :: id in response <==>
               id in Merge(map[], delta) || (id == "errors" && Missing(t, claims) != []))
    ensures var response := Response(delta, Missing(t, claims));
            Missing(t, claims) != [] ==>
              && response["errors"].Nested?
              && (forall id :: id in response["errors"].values <==>
                    id !in t.lookup && exists b :: b in claims && b.id == id)
              && (forall id :: id in response["errors"].values ==>
                    response["errors"].values[id] == Value("Broadcast not found"))
  {
    var missing := Missing(t, claims);
    SubscribedOrMissing(t, claims);
    MergeClaims(map[], missing);
    forall id ensures (exists m :: m in missing && m.id == id) <==>
                      id !in t.lookup && exists b :: b in claims && b.id == id
    {
      if id !in t.lookup && exists b :: b in claims && b.id == id {
        assert Broadcast(id, NOT_FOUND) in missing;
      }
    }
  }

  /** And so a client can be left with an old version of the broadcast called "errors",
      although it is counted as having been sent the new one. */
  lemma ErrorsBroadcastIsLost(version: string, claim: string)
    requires version != claim
    ensures var t := Initialize(EMPTY, [Broadcast("errors", version)]);
            var claims := [Broadcast("errors", claim), Broadcast("unknown", claim)];
            var (delta, subs) := Subscribe(t, Subs([], 0), claims);
            delta == [Broadcast("errors", version)] && 0 in subs.list
            && "errors" in Response(delta, Missing(t, claims))
            && Response(delta, Missing(t, claims))["errors"].Nested?
  {
    var bs := [Broadcast("errors", version)];
    var t := Initialize(EMPTY, bs);
    var t1 := Register(EMPTY, "errors").0;
    assert t1.lookup == map["errors" := 0] && t1.table == [] + ["errors"];
    assert bs[1..] == [];
    var t2 := t1.(versions := t1.versions[0 := version]);
    assert t == Initialize(t2, bs[1..]) == t2;
    var c0, c1 := Broadcast("errors", claim), Broadcast("unknown", claim);
    var claims := [c0, c1];
    assert claims[1..] == [c1] && claims[1..][1..] == [];
    assert "unknown" != "errors" by { assert |"unknown"| == 7; }
    assert Outdated(t, [c1]) == [] + Outdated(t, []);
    assert Outdated(t, claims) == [Broadcast("errors", version)] + Outdated(t, [c1]);
    assert KeysOf(t, claims) == [0] + KeysOf(t, [c1]);
    assert Missing(t, claims) == Missing(t, [c1]) && Missing(t, [c1]) != [];
    assert [] + [Broadcast("errors", version)] == [Broadcast("errors", version)];
  }
}
