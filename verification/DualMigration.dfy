/** Concurrent `get_user` calls for one user whom the dual client allots to its primary store and who
    so far is only in the secondary (autopush-common/src/db/dual/mod.rs). */
module DualMigration {
  import opened Notifications
  import KeyOrder
  import Text

  datatype User = User(
    uaid: Uuid, connectedAt: nat, routerType: string, nodeId: Option<string>, recordVersion: Option<nat>,
    version: Option<Uuid>)

  datatype DbError = Backoff | Fault

  datatype Answer = Found(user: Option<User>) | Failed(error: DbError)

  /** Which call to a store comes next. */
  datatype Control =
    | ReadPrimary
    | ReadSecondary
    | AddUser(user: User)
    | Reread
    | ReadChannels(user: User)
    | AddChannels(user: User, channels: set<Uuid>)
    | Done(answer: Answer)

  /** The stores, the calls in progress, which calls' `add_user` took effect, and which calls failed to
      read the secondary. */
  datatype World = World(
    primary: Option<User>, primaryChannels: set<Uuid>,
    secondary: Option<User>, secondaryChannels: set<Uuid>,
    callers: map<nat, Control>, adds: seq<nat>, missed: set<nat>)

  /** A call to a store works, or fails, or takes effect and yet is reported to have failed. */
  datatype Outcome = Works | Fails | FailsLate

  /** One call makes its next call to a store. `version` is the UUID it draws if it needs one. */
  datatype Step = Step(caller: nat, outcome: Outcome, version: Uuid)

  function ControlOf(w: World, k: nat): Control {
    if k in w.callers then w.callers[k] else ReadPrimary
  }

  function Goto(w: World, k: nat, c: Control): World {
    w.(callers := w.callers[k := c])
  }

  function Next(w: World, s: Step): World {
    var k := s.caller;
    var failed := Goto(w, k, Done(Failed(Fault)));
    match ControlOf(w, k)
    case ReadPrimary =>
      if !s.outcome.Works? then failed
      else Goto(w, k, if w.primary.Some? then Done(Found(w.primary)) else ReadSecondary)
    case ReadSecondary =>
      if !s.outcome.Works? then Goto(w, k, Done(Found(None))).(missed := w.missed + {k})
      else if w.secondary.None? then Goto(w, k, Done(Found(None)))
      else Goto(w, k, AddUser(w.secondary.value.(version := Some(s.version))))
    case AddUser(user) =>
      if w.primary.Some? then if s.outcome.Works? then Goto(w, k, Reread) else failed
      else
        var added := w.(primary := Some(user), adds := w.adds + [k]);
        if s.outcome.Works? then Goto(added, k, ReadChannels(user))
        else if s.outcome.Fails? then failed
        else Goto(added, k, Done(Failed(Fault)))
    case Reread =>
      if !s.outcome.Works? then failed
      else Goto(w, k, if w.primary.Some? then Done(Found(w.primary)) else Done(Failed(Backoff)))
    case ReadChannels(user) =>
      if !s.outcome.Works? then failed
      else Goto(w, k, if w.secondaryChannels == {} then Done(Found(Some(user)))
                      else AddChannels(user, w.secondaryChannels))
    case AddChannels(user, channels) =>
      var added := w.(primaryChannels := w.primaryChannels + channels);
      if s.outcome.Works? then Goto(added, k, Done(Found(Some(user))))
      else if s.outcome.Fails? then failed
      else Goto(added, k, Done(Failed(Fault)))
    case Done(_) => w
  }

  function Run(w: World, steps: seq<Step>): World
    decreases steps
  {
    if steps == [] then w else Run(Next(w, steps[0]), steps[1..])
  }

  /** The user is only in the secondary, which keeps no versions, and nobody has asked yet. */
  predicate Unmigrated(w: World) {
    && w.primary.None? && w.primaryChannels == {}
    && w.secondary.Some? && w.secondary.value.version.None?
    && w.callers == map[] && w.adds == [] && w.missed == {}
  }

  /** The secondary's record, but for the version. */
  predicate Copy(w: World, user: User) {
    w.secondary.Some? && user.version.Some? && user.(version := None) == w.secondary.value
  }

  /** What is known of one call. */
  predicate CallerOk(w: World, k: nat, c: Control) {
    && (k in w.missed <==> c == Done(Found(None)))
    && match c
       case ReadPrimary => w.adds != [k]
       case ReadSecondary => w.adds != [k]
       case AddUser(user) => w.adds != [k] && Copy(w, user)
       case Reread => w.adds != [k] && w.primary.Some?
       case ReadChannels(user) => w.adds == [k] && w.primary == Some(user)
       case AddChannels(user, channels) =>
         w.adds == [k] && w.primary == Some(user) && channels == w.secondaryChannels
       case Done(Found(Some(user))) =>
         w.primary == Some(user) && (w.adds == [k] ==> w.primaryChannels == w.secondaryChannels)
       case Done(Found(None)) => true
       case Done(Failed(error)) => error == Fault
  }

  /** What a step does to the stores and to the log. */
  ghost predicate Moved(w: World, w1: World, k: nat) {
    && w1.secondary == w.secondary && w1.secondaryChannels == w.secondaryChannels
    && w1.callers.Keys == w.callers.Keys + {k}
    && (forall j :: j in w.callers && j != k ==> w1.callers[j] == w.callers[j])
    && (w1.missed == w.missed || w1.missed == w.missed + {k})
    && ((w1.adds == w.adds && w1.primary == w.primary) || (w.adds == [] && w1.adds == [k] && w.primary.None?))
    && (w1.primaryChannels == w.primaryChannels || w1.primaryChannels == w.secondaryChannels)
  }

  ghost predicate StoresOk(w: World) {
    && w.secondary.Some? && w.secondary.value.version.None?
    && (if w.primary.Some? then |w.adds| == 1 && Copy(w, w.primary.value) else w.adds == [])
    && (w.primaryChannels == {} || (w.primary.Some? && w.primaryChannels == w.secondaryChannels))
  }

  ghost predicate Inv(w: World) {
    && StoresOk(w)
    && w.missed <= w.callers.Keys && (w.adds != [] ==> w.adds[0] in w.callers)
    && forall k :: k in w.callers ==> CallerOk(w, k, w.callers[k])
  }

  lemma Unions(w: World)
    requires StoresOk(w)
    ensures w.primaryChannels + w.secondaryChannels == w.secondaryChannels
  {
  }

  lemma NextMoves(w: World, s: Step)
    requires StoresOk(w) && CallerOk(w, s.caller, ControlOf(w, s.caller)) && !ControlOf(w, s.caller).Done?
    ensures Moved(w, Next(w, s), s.caller)
  {
    Unions(w);
  }

  lemma NextStoresOk(w: World, s: Step)
    requires StoresOk(w) && CallerOk(w, s.caller, ControlOf(w, s.caller)) && !ControlOf(w, s.caller).Done?
    ensures StoresOk(Next(w, s))
  {
    Unions(w);
  }

  lemma NextCallerOk(w: World, s: Step)
    requires StoresOk(w) && CallerOk(w, s.caller, ControlOf(w, s.caller)) && !ControlOf(w, s.caller).Done?
    ensures CallerOk(Next(w, s), s.caller, ControlOf(Next(w, s), s.caller))
  {
    Unions(w);
  }

  lemma OthersStay(w: World, w1: World, k: nat, j: nat)
    requires Inv(w) && Moved(w, w1, k) && j in w.callers && j != k
    ensures CallerOk(w1, j, w1.callers[j])
  {
    assert CallerOk(w, j, w.callers[j]);
    assert [k][0] != [j][0];
  }

  lemma NextKeepsInv(w: World, s: Step)
    requires Inv(w)
    ensures Inv(Next(w, s))
    ensures Next(w, s).secondary == w.secondary && Next(w, s).secondaryChannels == w.secondaryChannels
  {
    var w1 := Next(w, s);
    if ControlOf(w, s.caller).Done? {
      assert w1 == w;
    } else {
      assert CallerOk(w, s.caller, ControlOf(w, s.caller));
      NextMoves(w, s);
      NextStoresOk(w, s);
      NextCallerOk(w, s);
      forall j | j in w1.callers
        ensures CallerOk(w1, j, w1.callers[j])
      {
        if j != s.caller { OthersStay(w, w1, s.caller, j); }
      }
    }
  }

  lemma {:induction false} RunKeepsInv(w: World, steps: seq<Step>)
    requires Inv(w)
    ensures Inv(Run(w, steps))
    ensures Run(w, steps).secondary == w.secondary && Run(w, steps).secondaryChannels == w.secondaryChannels
    decreases |steps|
  {
    if steps != [] {
      NextKeepsInv(w, steps[0]);
      RunKeepsInv(Next(w, steps[0]), steps[1..]);
    }
  }

  /** At its step `i` the call read the secondary, and failed. */
  predicate MissedAt(w: World, steps: seq<Step>, k: nat, i: nat) {
    && i < |steps| && steps[i].caller == k && !steps[i].outcome.Works?
    && ControlOf(Run(w, steps[..i]), k).ReadSecondary?
  }

  lemma {:induction false} RunOfConcat(w: World, a: seq<Step>, b: seq<Step>)
    ensures Run(w, a + b) == Run(Run(w, a), b)
    decreases |a|
  {
    if a == [] {
      assert a + b == b;
    } else {
      assert (a + b)[1..] == a[1..] + b;
      RunOfConcat(Next(w, a[0]), a[1..], b);
    }
  }

  lemma RunOneMore(w: World, steps: seq<Step>)
    requires steps != []
    ensures var n := |steps| - 1; Run(w, steps) == Next(Run(w, steps[..n]), steps[n])
  {
    var n := |steps| - 1;
    RunOfConcat(w, steps[..n], [steps[n]]);
    assert steps[..n] + [steps[n]] == steps && [steps[n]][1..] == [];
  }

  /** The log of failed reads says what happened in the run. */
  lemma {:induction false} MissedIff(w: World, steps: seq<Step>, k: nat)
    requires w.missed == {}
    ensures k in Run(w, steps).missed <==> exists i: nat :: MissedAt(w, steps, k, i)
    decreases |steps|
  {
    if steps != [] {
      var n := |steps| - 1;
      var init := steps[..n];
      MissedIff(w, init, k);
      RunOneMore(w, steps);
      forall i: nat | i < n
        ensures MissedAt(w, steps, k, i) <==> MissedAt(w, init, k, i)
      {
        assert steps[..i] == init[..i];
      }
      assert k in Run(w, steps).missed <==> k in Run(w, init).missed || MissedAt(w, steps, k, n);
    }
  }

  lemma {:induction false} PrimaryStays(w: World, steps: seq<Step>)
    requires w.primary.Some?
    ensures Run(w, steps).primary == w.primary
    decreases |steps|
  {
    if steps != [] { PrimaryStays(Next(w, steps[0]), steps[1..]); }
  }

  /** Step `i` put the user into the primary. */
  predicate AddsAt(w: World, steps: seq<Step>, i: nat) {
    i < |steps| && Run(w, steps[..i]).primary.None? && Run(w, steps[..i + 1]).primary.Some?
  }

  lemma AtMostOneAdds(w: World, steps: seq<Step>, i: nat, j: nat)
    requires AddsAt(w, steps, i) && AddsAt(w, steps, j)
    ensures i >= j
  {
    if i < j {
      RunOfConcat(w, steps[..i + 1], steps[i + 1..j]);
      assert steps[..i + 1] + steps[i + 1..j] == steps[..j];
      PrimaryStays(Run(w, steps[..i + 1]), steps[i + 1..j]);
    }
  }

  /** Whatever the interleaving and whatever fails: at most one `add_user` ever takes effect; every
      record returned is the one the primary holds, which is the secondary's under a new version; a call
      returns no user exactly when its own read of the secondary failed; no call is told to back off. */
  lemma MigrationIsSafe(w: World, steps: seq<Step>, k: nat)
    requires Unmigrated(w) && k in Run(w, steps).callers
    ensures var w1 := Run(w, steps);
      && |w1.adds| <= 1
      && (forall i: nat, j: nat :: AddsAt(w, steps, i) && AddsAt(w, steps, j) ==> i == j)
      && (w1.primary.Some? ==> w1.primary.value.(version := None) == w.secondary.value)
      && (w1.callers[k] == Done(Found(None)) <==> exists i: nat :: MissedAt(w, steps, k, i))
      && (forall user :: w1.callers[k] == Done(Found(Some(user))) ==> w1.primary == Some(user))
      && w1.callers[k] != Done(Failed(Backoff))
  {
    RunKeepsInv(w, steps);
    MissedIff(w, steps, k);
    forall i: nat, j: nat | AddsAt(w, steps, i) && AddsAt(w, steps, j)
      ensures i == j
    {
      AtMostOneAdds(w, steps, i, j);
      AtMostOneAdds(w, steps, j, i);
    }
    assert CallerOk(Run(w, steps), k, Run(w, steps).callers[k]);
  }

  /** Once the call that added the user returns it, the primary has all the secondary's channels. */
  lemma WinnerCopiesChannels(w: World, steps: seq<Step>, k: nat, user: User)
    requires Unmigrated(w) && Run(w, steps).adds == [k]
    requires ControlOf(Run(w, steps), k) == Done(Found(Some(user)))
    ensures Run(w, steps).primaryChannels == w.secondaryChannels
  {
    RunKeepsInv(w, steps);
  }

  // ---------------------------------------------------------------- without faults

  ghost predicate FaultFree(w: World) {
    w.missed == {} && forall k :: k in w.callers ==> w.callers[k] != Done(Failed(Fault))
  }

  lemma NextStaysFaultFree(w: World, s: Step)
    requires Inv(w) && FaultFree(w) && s.outcome.Works?
    ensures FaultFree(Next(w, s))
  {
    assert CallerOk(w, s.caller, ControlOf(w, s.caller));
    var w1 := Next(w, s);
    forall k | k in w1.callers
      ensures w1.callers[k] != Done(Failed(Fault))
    {
      if k != s.caller { assert k in w.callers; }
    }
  }

  lemma {:induction false} RunStaysFaultFree(w: World, steps: seq<Step>)
    requires Inv(w) && FaultFree(w) && forall i :: 0 <= i < |steps| ==> steps[i].outcome.Works?
    ensures FaultFree(Run(w, steps))
    decreases |steps|
  {
    if steps != [] {
      NextKeepsInv(w, steps[0]);
      NextStaysFaultFree(w, steps[0]);
      RunStaysFaultFree(Next(w, steps[0]), steps[1..]);
    }
  }

  /** Without faults every call that returns returns the record that the one successful `add_user`
      wrote. */
  lemma EveryCallReturnsTheRecord(w: World, steps: seq<Step>, k: nat)
    requires Unmigrated(w) && forall i :: 0 <= i < |steps| ==> steps[i].outcome.Works?
    requires ControlOf(Run(w, steps), k).Done?
    ensures var w1 := Run(w, steps);
      && |w1.adds| == 1 && w1.primary.Some?
      && ControlOf(w1, k) == Done(Found(w1.primary))
  {
    RunKeepsInv(w, steps);
    RunStaysFaultFree(w, steps);
    assert CallerOk(Run(w, steps), k, Run(w, steps).callers[k]);
  }

  function Turns(steps: seq<Step>, k: nat): nat {
    if steps == [] then 0 else if steps[0].caller == k then 1 + Turns(steps[1..], k) else Turns(steps[1..], k)
  }

  /** How many more calls to a store there may be. */
  function Left(c: Control): nat {
    match c
    case ReadPrimary => 5
    case ReadSecondary => 4
    case AddUser(_) => 3
    case Reread => 1
    case ReadChannels(_) => 2
    case AddChannels(_, _) => 1
    case Done(_) => 0
  }

  lemma TurnUsed(w: World, s: Step, k: nat)
    ensures Left(ControlOf(Next(w, s), k)) + Turns([s], k) <= Left(ControlOf(w, k)) || Left(ControlOf(w, k)) == 0
    ensures Left(ControlOf(Next(w, s), k)) <= Left(ControlOf(w, k))
  {
    assert [s][1..] == [];
  }

  lemma {:induction false} TurnsUsed(w: World, steps: seq<Step>, k: nat)
    ensures Left(ControlOf(Run(w, steps), k)) + Turns(steps, k) <= Left(ControlOf(w, k))
         || Left(ControlOf(Run(w, steps), k)) == 0
    decreases |steps|
  {
    if steps != [] {
      TurnUsed(w, steps[0], k);
      assert [steps[0]][1..] == [];
      TurnsUsed(Next(w, steps[0]), steps[1..], k);
    }
  }

  /** No call waits for another: five calls to the stores are enough, whatever the others do. */
  lemma FiveTurnsFinish(w: World, steps: seq<Step>, k: nat)
    requires Turns(steps, k) >= 5
    ensures ControlOf(Run(w, steps), k).Done?
  {
    TurnsUsed(w, steps, k);
  }

  // ------------------------------------------------------------------- with faults

  /** The user is in the primary, and nobody is about to copy the channels. */
  ghost predicate Settled(w: World) {
    w.primary.Some? && forall k :: k in w.callers ==> !w.callers[k].ReadChannels? && !w.callers[k].AddChannels?
  }

  /** From then on no call ever copies a channel. */
  lemma {:induction false} SettledForever(w: World, steps: seq<Step>)
    requires Settled(w)
    ensures Settled(Run(w, steps)) && Run(w, steps).primaryChannels == w.primaryChannels
    decreases |steps|
  {
    if steps != [] {
      var w1 := Next(w, steps[0]);
      forall k | k in w1.callers
        ensures !w1.callers[k].ReadChannels? && !w1.callers[k].AddChannels?
      {
        if k != steps[0].caller { assert k in w.callers; }
      }
      SettledForever(w1, steps[1..]);
    }
  }

  lemma SettledIsFinal(w: World, steps: seq<Step>, more: seq<Step>)
    requires Settled(Run(w, steps))
    ensures Run(w, steps + more).primaryChannels == Run(w, steps).primaryChannels
  {
    RunOfConcat(w, steps, more);
    SettledForever(Run(w, steps), more);
  }

  lemma {:induction false} Unused(s: set<nat>) returns (k: nat)
    ensures forall x :: x in s ==> x < k
    decreases |s|
  {
    k := 0;
    if s != {} {
      var x :| x in s;
      var rest := Unused(s - {x});
      k := if rest > x then rest else x + 1;
      forall y | y in s ensures y < k { if y != x { assert y in s - {x}; } }
    }
  }

  function Works5(k: nat): seq<Step> {
    [Step(k, Works, 0), Step(k, Works, 0), Step(k, Works, 0), Step(k, Works, 0), Step(k, Works, 0)]
  }

  lemma FiveSteps(w: World, k: nat)
    ensures var s := Step(k, Works, 0); Run(w, Works5(k)) == Next(Next(Next(Next(Next(w, s), s), s), s), s)
  {
    var s := Step(k, Works, 0);
    FourSteps(w, s, s, s, s);
    RunOfConcat(w, [s, s, s, s], [s]);
    assert [s, s, s, s] + [s] == Works5(k) && [s][1..] == [];
  }

  /** A new call brings over the user and the channels. */
  lemma NewcomerCopies(w: World, k: nat)
    requires StoresOk(w) && w.primary.None? && k !in w.callers
    ensures Run(w, Works5(k)).primaryChannels == w.secondaryChannels
  {
    FiveSteps(w, k);
    var s := Step(k, Works, 0);
    var w3 := Next(Next(Next(w, s), s), s);
    assert ControlOf(w3, k).ReadChannels? && w3.primaryChannels == {} && w3.secondaryChannels == w.secondaryChannels;
    CopierCopies(w3, k);
  }

  /** A call that is about to copy the channels does so in its next two turns. */
  lemma CopierCopies(w: World, k: nat)
    requires w.primaryChannels == {} || w.primaryChannels == w.secondaryChannels
    requires ControlOf(w, k).ReadChannels?
             || (ControlOf(w, k).AddChannels? && ControlOf(w, k).channels == w.secondaryChannels)
    ensures var s := Step(k, Works, 0);
      Next(Next(w, s), s).primaryChannels == w.secondaryChannels || w.secondaryChannels == {}
    ensures var s := Step(k, Works, 0);
      w.primaryChannels == {} && w.secondaryChannels == {} ==> Next(Next(w, s), s).primaryChannels == {}
  {
    assert {} + w.secondaryChannels == w.secondaryChannels;
    assert w.secondaryChannels + w.secondaryChannels == w.secondaryChannels;
  }

  /** While the user is not added, or somebody is about to copy the channels, they may still arrive. */
  lemma UnsettledRecovers(w: World) returns (more: seq<Step>)
    requires Inv(w) && !Settled(w)
    ensures Run(w, more).primaryChannels == w.secondaryChannels
  {
    if w.primary.None? {
      var k := Unused(w.callers.Keys);
      NewcomerCopies(w, k);
      more := Works5(k);
    } else {
      var k :| k in w.callers && (w.callers[k].ReadChannels? || w.callers[k].AddChannels?);
      assert CallerOk(w, k, w.callers[k]);
      var s := Step(k, Works, 0);
      CopierCopies(w, k);
      more := [s, s];
      assert [s, s][1..] == [s] && [s][1..] == [];
      assert Run(w, [s, s]) == Run(Next(w, s), [s]) == Next(Next(w, s), s);
    }
  }

  /** The channels are lost for good exactly when the user has been added, nobody is about to copy them,
      and there were some that nobody copied. */
  lemma ChannelsLostIff(w: World, steps: seq<Step>)
    requires Unmigrated(w)
    ensures (forall more :: Run(w, steps + more).primaryChannels != w.secondaryChannels) <==>
            Settled(Run(w, steps)) && Run(w, steps).primaryChannels == {} && w.secondaryChannels != {}
  {
    var w1 := Run(w, steps);
    RunKeepsInv(w, steps);
    if Settled(w1) {
      forall more
        ensures Run(w, steps + more).primaryChannels == w1.primaryChannels
      {
        SettledIsFinal(w, steps, more);
      }
      var none: seq<Step> := [];
      assert Run(w, steps + none).primaryChannels == w1.primaryChannels;
    } else {
      var more := UnsettledRecovers(w1);
      RunOfConcat(w, steps, more);
    }
  }

  /** If the call that added the user fails before it copies the channels, they never reach the
      primary, although every later call finds the user. */
  lemma FailedCopyLosesChannels(w: World, k: nat, version: Uuid, more: seq<Step>)
    requires Unmigrated(w)
    ensures var steps := [Step(k, Works, version), Step(k, Works, version), Step(k, Works, version), Step(k, Fails, version)];
      && Run(w, steps + more).primaryChannels == {}
      && Run(w, steps + more).primary == Some(w.secondary.value.(version := Some(version)))
  {
    var step := Step(k, Works, version);
    var w1 := Next(w, step);
    var w2 := Next(w1, step);
    var w3 := Next(w2, step);
    var w4 := Next(w3, Step(k, Fails, version));
    var steps := [step, step, step, Step(k, Fails, version)];
    FourSteps(w, step, step, step, Step(k, Fails, version));
    assert w4.primary == Some(w.secondary.value.(version := Some(version))) && Settled(w4);
    RunOfConcat(w, steps, more);
    SettledForever(w4, more);
    PrimaryStays(w4, more);
  }

  lemma FourSteps(w: World, a: Step, b: Step, c: Step, d: Step)
    ensures Run(w, [a, b, c, d]) == Next(Next(Next(Next(w, a), b), c), d)
  {
    assert [a, b, c, d][1..] == [b, c, d] && [b, c, d][1..] == [c, d] && [c, d][1..] == [d] && [d][1..] == [];
    assert Run(w, [a, b, c, d]) == Run(Next(w, a), [b, c, d]);
    assert Run(Next(w, a), [b, c, d]) == Run(Next(Next(w, a), b), [c, d]);
    assert Run(Next(Next(w, a), b), [c, d]) == Run(Next(Next(Next(w, a), b), c), [d]);
  }

  /** Even without faults a call may return the user while its channels are not yet in the primary. */
  lemma ReturnMayPrecedeChannels(w: World, k: nat, j: nat, version: Uuid)
    requires Unmigrated(w) && k != j
    ensures var steps := [Step(k, Works, version), Step(k, Works, version), Step(k, Works, version), Step(j, Works, version)];
      && ControlOf(Run(w, steps), j) == Done(Found(Run(w, steps).primary)) && Run(w, steps).primary.Some?
      && Run(w, steps).primaryChannels == {}
  {
    var step := Step(k, Works, version);
    FourSteps(w, step, step, step, Step(j, Works, version));
    var w3 := Next(Next(Next(w, step), step), step);
    assert w3.primary.Some? && ControlOf(w3, j) == ReadPrimary;
  }

  // ------------------------------------------------------- nothing to migrate

  /** The user is in the primary already, or in neither store. */
  predicate NothingToDo(w: World) {
    w.primary.Some? || w.secondary.None?
  }

  /** Calls that ask, have their answer, or failed. */
  ghost predicate Asking(w: World) {
    forall k :: k in w.callers ==>
      || w.callers[k] == ReadPrimary || (w.callers[k] == ReadSecondary && w.primary.None?)
      || w.callers[k] == Done(Found(w.primary)) || w.callers[k] == Done(Failed(Fault))
  }

  /** Then every call answers with what the primary has, or with the fault it met, and changes nothing. */
  lemma {:induction false} NothingIsMigrated(w: World, steps: seq<Step>)
    requires NothingToDo(w) && Asking(w)
    ensures var w1 := Run(w, steps);
      && w1 == w.(callers := w1.callers, missed := w1.missed)
      && Asking(w1)
    decreases |steps|
  {
    if steps != [] { NothingIsMigrated(Next(w, steps[0]), steps[1..]); }
  }

  // --------------------------------------------------------------- allotment

  /** `should_migrate`: by the first byte of the user's id, or by the last. */
  predicate ShouldMigrate(median: Option<nat>, endMedian: Option<nat>, uaid: Uuid) {
    || (median.Some? && uaid / 0x100_0000_0000_0000_0000_0000_0000_0000 <= median.value)
    || (endMedian.Some? && uaid % 0x100 <= endMedian.value)
  }

  /** The number without its lowest `w` hexadecimal digits. */
  function Shifted(n: nat, w: nat): nat {
    if w == 0 then n else Shifted(n / 16, w - 1)
  }

  lemma {:induction false} ShiftedTwice(n: nat, v: nat, w: nat)
    ensures Shifted(n, v + w) == Shifted(Shifted(n, v), w)
  {
    if v > 0 { ShiftedTwice(n / 16, v - 1, w); }
  }

  lemma ShiftedBy4(n: nat)
    ensures Shifted(n, 2) == n / 0x100 && Shifted(n, 4) == n / 0x1_0000
  {
    ShiftedBy2(n);
    ShiftedBy2(n / 0x100);
    ShiftedTwice(n, 2, 2);
  }

  lemma ShiftedBy2(n: nat)
    ensures Shifted(n, 2) == n / 0x100
  {
    assert Shifted(n, 2) == Shifted(n / 16, 1) == Shifted(n / 16 / 16, 0);
  }

  lemma ShiftedBy16(n: nat)
    ensures Shifted(n, 8) == n / 0x1_0000_0000 && Shifted(n, 16) == n / 0x1_0000_0000_0000_0000
  {
    ShiftedBy4(n);
    ShiftedBy4(n / 0x1_0000);
    ShiftedTwice(n, 4, 4);
    ShiftedBy4(n / 0x1_0000_0000);
    ShiftedBy4(n / 0x1_0000_0000_0000);
    ShiftedTwice(n / 0x1_0000_0000, 4, 4);
    ShiftedTwice(n, 8, 8);
  }

  /** All but the highest two of a UUID's 32 digits. */
  lemma ShiftedBy30(n: nat)
    ensures Shifted(n, 30) == n / 0x100_0000_0000_0000_0000_0000_0000_0000
  {
    var m := n / 0x1_0000_0000_0000_0000;
    ShiftedBy16(n);
    ShiftedTwice(n, 16, 14);
    ShiftedBy16(m);
    ShiftedTwice(m, 8, 6);
    ShiftedBy4(m / 0x1_0000_0000);
    ShiftedTwice(m / 0x1_0000_0000, 4, 2);
    ShiftedBy4(m / 0x1_0000_0000 / 0x1_0000);
  }

  lemma {:induction false} HighDigits(n: nat, w: nat)
    ensures Text.Hex(n, w + 2)[..2] == Text.Hex(Shifted(n, w), 2)
  {
    if w == 0 {
      assert Text.Hex(n, 2)[..2] == Text.Hex(n, 2);
    } else {
      HighDigits(n / 16, w - 1);
      assert Text.Hex(n, w + 2)[..2] == Text.Hex(n / 16, w + 1)[..2];
    }
  }

  lemma {:induction false} LowDigits(n: nat, w: nat, m: nat)
    requires w >= 2 && n % 16 == m % 16 && n / 16 % 16 == m / 16 % 16
    ensures Text.Hex(n, w)[w - 2..] == Text.Hex(m, 2)
  {
    var a, b := Text.HexDigit(n / 16 % 16), Text.HexDigit(n % 16);
    var rest := Text.Hex(n / 16 / 16, w - 2);
    assert Text.Hex(n / 16, w - 1) == rest + [a];
    assert Text.Hex(n, w) == (rest + [a]) + [b];
    assert Text.Hex(m / 16, 1) == Text.Hex(m / 16 / 16, 0) + [a] == [a];
    assert Text.Hex(m, 2) == [a] + [b];
  }

  lemma LowByte(n: nat)
    ensures n % 0x100 % 16 == n % 16 && n % 0x100 / 16 % 16 == n / 16 % 16
  {
    var q, r := n / 0x100, n % 0x100;
    assert n == 16 * (16 * q) + r;
    assert n / 16 == 16 * q + r / 16;
  }

  lemma FirstAndLastDigits(uaid: Uuid)
    ensures Text.Simple(uaid)[..2] == Text.Hex(uaid / 0x100_0000_0000_0000_0000_0000_0000_0000, 2)
    ensures Text.Simple(uaid)[30..] == Text.Hex(uaid % 0x100, 2)
  {
    HighDigits(uaid, 30);
    ShiftedBy30(uaid);
    LowByte(uaid);
    LowDigits(uaid, 32, uaid % 0x100);
  }

  /** A user is allotted to the primary exactly if the first two digits of the id, or the last two, are not
      above the configured byte. */
  lemma AllottedIff(median: Option<nat>, endMedian: Option<nat>, uaid: Uuid)
    requires (median.Some? ==> median.value < 0x100) && (endMedian.Some? ==> endMedian.value < 0x100)
    ensures ShouldMigrate(median, endMedian, uaid) <==>
      || (median.Some? && !Text.StrLess(Text.Hex(median.value, 2), Text.Simple(uaid)[..2]))
      || (endMedian.Some? && !Text.StrLess(Text.Hex(endMedian.value, 2), Text.Simple(uaid)[30..]))
  {
    FirstAndLastDigits(uaid);
    if median.Some? { BytesInOrder(median.value, uaid / 0x100_0000_0000_0000_0000_0000_0000_0000); }
    if endMedian.Some? { BytesInOrder(endMedian.value, uaid % 0x100); }
  }

  lemma BytesInOrder(a: nat, b: nat)
    requires a < 0x100 && b < 0x100
    ensures b <= a <==> !Text.StrLess(Text.Hex(a, 2), Text.Hex(b, 2))
  {
    assert Text.Pow16(2) == 0x100;
    KeyOrder.HexOrder(a, b, 2);
  }
}
