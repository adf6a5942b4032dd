/** The dual client's `get_user`, call by call. On its own it does what `DualMigration` says of a run in
    which no other call takes a turn. */
module DualClients {
  import opened Notifications
  import opened DualMigration

  /** A store of users and of their channels. */
  class Store {
    var users: map<Uuid, User>
    var channels: map<Uuid, set<Uuid>>

    constructor ()
      ensures users == map[] && channels == map[]
    {
      users, channels := map[], map[];
    }

    function UserOf(uaid: Uuid): Option<User>
      reads this
    {
      if uaid in users then Some(users[uaid]) else None
    }

    function ChannelsOf(uaid: Uuid): set<Uuid>
      reads this
    {
      if uaid in channels then channels[uaid] else {}
    }

    /** Adds the user unless there is one; `added` says which. */
    method AddUser(user: User, outcome: Outcome) returns (added: bool)
      modifies this`users
      ensures added <==> old(UserOf(user.uaid)).None?
      ensures users == if added && !outcome.Fails? then old(users)[user.uaid := user] else old(users)
    {
      added := user.uaid !in users;
      if added && !outcome.Fails? {
        users := users[user.uaid := user];
      }
    }

    method AddChannels(uaid: Uuid, more: set<Uuid>, outcome: Outcome)
      modifies this`channels
      ensures channels == if outcome.Fails? then old(channels) else old(channels)[uaid := old(ChannelsOf(uaid)) + more]
    {
      if !outcome.Fails? {
        channels := channels[uaid := ChannelsOf(uaid) + more];
      }
    }
  }

  class DualClient {
    const primary: Store
    const secondary: Store
    const median: Option<nat>
    const endMedian: Option<nat>

    constructor (primary: Store, secondary: Store, median: Option<nat>, endMedian: Option<nat>)
      ensures this.primary == primary && this.secondary == secondary
      ensures this.median == median && this.endMedian == endMedian
    {
      this.primary, this.secondary, this.median, this.endMedian := primary, secondary, median, endMedian;
    }

    /** The stores as one user's migration sees them. */
    ghost function Seen(uaid: Uuid): World
      reads primary, secondary
    {
      World(primary.UserOf(uaid), primary.ChannelsOf(uaid), secondary.UserOf(uaid), secondary.ChannelsOf(uaid),
            map[], [], {})
    }

    /** `outcomes` says how each call to a store will end. */
    method GetUser(uaid: Uuid, version: Uuid, outcomes: seq<Outcome>) returns (r: Answer)
      requires |outcomes| == 5 && primary != secondary
      requires secondary.UserOf(uaid).Some? ==> secondary.UserOf(uaid).value.uaid == uaid
      modifies primary
      ensures ShouldMigrate(median, endMedian, uaid) ==>
        var w := Run(old(Seen(uaid)), Turns5(outcomes, version));
        && ControlOf(w, 0) == Done(r)
        && primary.UserOf(uaid) == w.primary && primary.ChannelsOf(uaid) == w.primaryChannels
      ensures !ShouldMigrate(median, endMedian, uaid) ==>
        && r == (if outcomes[0].Works? then Found(secondary.UserOf(uaid)) else Failed(Fault))
        && primary.users == old(primary.users) && primary.channels == old(primary.channels)
      ensures forall other :: other != uaid ==>
        primary.UserOf(other) == old(primary.UserOf(other)) && primary.ChannelsOf(other) == old(primary.ChannelsOf(other))
    {
      if !ShouldMigrate(median, endMedian, uaid) {
        return if outcomes[0].Works? then Found(secondary.UserOf(uaid)) else Failed(Fault);
      }
      ghost var w := Seen(uaid);
      FiveTurns(w, outcomes, version);
      ghost var w1 := Next(w, Step(0, outcomes[0], version));
      if !outcomes[0].Works? { DoneStays(w1, outcomes, version); return Failed(Fault); }
      var found := primary.UserOf(uaid);
      if found.Some? { DoneStays(w1, outcomes, version); return Found(found); }
      ghost var w2 := Next(w1, Step(0, outcomes[1], version));
      var record := secondary.UserOf(uaid);
      if !outcomes[1].Works? || record.None? { DoneStays(w2, outcomes, version); return Found(None); }
      r := CopyUser(record.value.(version := Some(version)), outcomes, version, w2);
    }

    /** The second half of `GetUser`: the record found in the secondary is copied, and then its channels,
        unless another call has added the user by now. */
    method CopyUser(user: User, outcomes: seq<Outcome>, version: Uuid, ghost w: World) returns (r: Answer)
      requires |outcomes| == 5 && primary != secondary
      requires w.primary == primary.UserOf(user.uaid) && w.primaryChannels == primary.ChannelsOf(user.uaid)
      requires w.secondaryChannels == secondary.ChannelsOf(user.uaid) && ControlOf(w, 0) == AddUser(user)
      modifies primary
      ensures var w1 := LastThree(w, outcomes, version);
        && ControlOf(w1, 0) == Done(r)
        && primary.UserOf(user.uaid) == w1.primary && primary.ChannelsOf(user.uaid) == w1.primaryChannels
      ensures forall other :: other != user.uaid ==>
        primary.UserOf(other) == old(primary.UserOf(other)) && primary.ChannelsOf(other) == old(primary.ChannelsOf(other))
    {
      ghost var w3 := Next(w, Step(0, outcomes[2], version));
      var added := primary.AddUser(user, outcomes[2]);
      if !outcomes[2].Works? { DoneStays(w3, outcomes, version); return Failed(Fault); }
      ghost var w4 := Next(w3, Step(0, outcomes[3], version));
      if !outcomes[3].Works? { DoneStays(w4, outcomes, version); return Failed(Fault); }
      if !added {
        DoneStays(w4, outcomes, version);
        var again := primary.UserOf(user.uaid);
        return if again.Some? then Found(again) else Failed(Backoff);
      }
      var channels := secondary.ChannelsOf(user.uaid);
      if channels == {} { DoneStays(w4, outcomes, version); return Found(Some(user)); }
      primary.AddChannels(user.uaid, channels, outcomes[4]);
      return if outcomes[4].Works? then Found(Some(user)) else Failed(Fault);
    }
  }

  function LastThree(w: World, outcomes: seq<Outcome>, version: Uuid): World
    requires |outcomes| == 5
  {
    Next(Next(Next(w, Step(0, outcomes[2], version)), Step(0, outcomes[3], version)), Step(0, outcomes[4], version))
  }

  function Turns5(outcomes: seq<Outcome>, version: Uuid): seq<Step>
    requires |outcomes| == 5
  {
    [Step(0, outcomes[0], version), Step(0, outcomes[1], version), Step(0, outcomes[2], version),
     Step(0, outcomes[3], version), Step(0, outcomes[4], version)]
  }

  lemma FiveTurns(w: World, outcomes: seq<Outcome>, version: Uuid)
    requires |outcomes| == 5
    ensures var steps := Turns5(outcomes, version);
      Run(w, steps) == LastThree(Next(Next(w, steps[0]), steps[1]), outcomes, version)
  {
    var steps := Turns5(outcomes, version);
    FourSteps(w, steps[0], steps[1], steps[2], steps[3]);
    assert steps == [steps[0], steps[1], steps[2], steps[3]] + [steps[4]];
    RunOfConcat(w, [steps[0], steps[1], steps[2], steps[3]], [steps[4]]);
    assert [steps[4]][1..] == [];
  }

  lemma DoneStays(w: World, outcomes: seq<Outcome>, version: Uuid)
    requires |outcomes| == 5 && ControlOf(w, 0).Done?
    ensures Next(w, Step(0, outcomes[1], version)) == w && Next(w, Step(0, outcomes[2], version)) == w
    ensures Next(w, Step(0, outcomes[3], version)) == w && Next(w, Step(0, outcomes[4], version)) == w
  {
  }
}
