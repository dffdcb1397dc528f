/** The mechanical route between PARK and HOME, confirmed by status alone. */
module HomeRouter {
  import opened Common
  import opened Indi
  import opened Transport
  import opened Confirmation
  import opened Stop

  /** No alert, no reported error, no limit and no park fault. */
  predicate NoFault(p: Property) {
    p.light != Alert && !Faulted(p) && Decoded(Some(p)).Some? &&
    !Decoded(Some(p)).value.parkFailed && !Decoded(Some(p)).value.atLimit
  }

  /** What an update shows, or the exception that gives the move up. */
  function Judge(p: Property): (r: Result<Gu>)
    ensures r.Ok? <==> NoFault(p)
    ensures r.Ok? ==> Decoded(Some(p)) == Some(r.value)
    ensures r.Err? ==> r.error in {RuntimeError, ValueError}
  {
    if Report !in p.values || p.values[Report] == Blank then Err(RuntimeError)
    else if Decoded(Some(p)).None? then Err(ValueError)
    else
      var g := Decoded(Some(p)).value;
      if p.light == Alert || Faulted(p) || g.parkFailed || g.atLimit then Err(RuntimeError) else Ok(g)
  }

  /** A report that is there but cannot be decoded is a ValueError; any other fault a RuntimeError. */
  lemma JudgeIff(p: Property)
    ensures Judge(p) == Err(ValueError) <==> Report in p.values && p.values[Report] != Blank && !p.values[Report].Flags?
    ensures Judge(p).Err? && Judge(p).error != ValueError ==> Judge(p).error == RuntimeError
  {}

  /** One turn of the waiting loop: a stop request, the time limit, and an update after `last`.
      A move that can be stopped waits in slices, so a slice may pass without an update. */
  method NextStatus(t: IndiTransport, last: int, stoppable: bool) returns (r: Result<Option<Property>>)
    requires t.Valid()
    modifies t`properties, t`revision, t`since, t`world, t`failure, t`mishaps, t`checks
    ensures t.Valid() && t.Continues()
    ensures r.Ok? ==> |t.world| < |old(t.world)|
    ensures r.Ok? && r.value.Some? ==> t.Cached(Status) == r.value && r.value.value.revision > last
    ensures r.Ok? && r.value.None? ==> stoppable
    ensures old(Calm(t.world, 2) && !t.failure && RevisionOf(t.Cached(Status)) > last) && last >= -1 ==>
      r == Ok(old(t.Cached(Status))) && t.since == old(t.since)
    ensures r.Err? ==> r.error in {ConnectionError, TimeoutError, Stopped} && (r.error == Stopped ==> stoppable)
    ensures |t.checks| == |old(t.checks)| + 1 && (r == Err(Stopped) <==> t.checks[|old(t.checks)|].stop)
    ensures t.mishaps > old(t.mishaps) <==> r.Err? && r.error != Stopped
    ensures stoppable && |old(t.world)| >= 2 && old(t.world)[1].time.Ample? ==> r != Err(TimeoutError)
    ensures |old(t.world)| >= 2 && !(stoppable && old(t.world)[0].stop) && old(t.world)[1].time.Expired? ==>
      r == Err(TimeoutError)
  {
    hide CacheOf;
    var stop := t.StopRequested(stoppable);
    if stop {
      return Err(Stopped);
    }
    assert old(t.Head()).arrivals == [] ==> t.since == old(t.since);
    label clock:
    var time := t.Clock();
    if time.Expired? {
      return Err(TimeoutError);
    }
    assert old@clock(t.Head()).arrivals == [] ==> t.since == old@clock(t.since);
    var update := t.WaitProperty(Status, last);
    if update.Ok? {
      return Ok(Some(update.value));
    }
    if update.error == TimeoutError && stoppable && time.Ample? {
      t.Expected();
      return Ok(None);
    }
    r := Err(update.error);
  }

  /** The status cached now is new, faultless and good, and nothing happens for two moments. */
  ghost predicate Prompt(t: IndiTransport, goal: Goal, after: int)
    reads t
  {
    && Calm(t.world, 2) && !t.failure && RevisionOf(t.Cached(Status)) > after >= -1
    && NoFault(t.Cached(Status).value) && Meets(goal, t.Cached(Status).value)
  }

  /** No update is older than `floor`, and all but the first are newer than `now`. */
  ghost predicate Onward(seen: seq<Property>, floor: int, now: int) {
    && (forall p :: p in seen ==> p.revision >= floor)
    && (forall i :: 1 <= i < |seen| ==> seen[i].revision > now)
  }

  lemma NothingOnward(floor: int, now: int)
    ensures Onward([], floor, now)
  {}

  lemma OnwardPush(seen: seq<Property>, p: Property, floor: int, now: int)
    requires Onward(seen, floor, now) && p.revision >= floor && (seen != [] ==> p.revision > now)
    ensures Onward(seen + [p], floor, now)
  {}

  /** The last update reported a fault. */
  ghost predicate Faltered(seen: seq<Property>) { seen != [] && !NoFault(seen[|seen| - 1]) }

  /** At no time had `needed` updates in a row been good, a fault at the end left aside. */
  ghost predicate Missed(goal: Goal, seen: seq<Property>, needed: nat) {
    Unmet(goal, if Faltered(seen) then seen[..|seen| - 1] else seen, needed)
  }

  lemma MissedBy(goal: Goal, seen: seq<Property>, needed: nat)
    requires Unmet(goal, seen, needed)
    ensures (forall p :: p in seen ==> NoFault(p)) ==> Missed(goal, seen, needed)
  {
    hide NoFault, Unmet;
  }

  lemma MissedWith(goal: Goal, seen: seq<Property>, p: Property, needed: nat)
    requires Unmet(goal, seen, needed) && !NoFault(p)
    ensures Missed(goal, seen + [p], needed) && Faltered(seen + [p])
  {
    hide NoFault, Unmet;
    assert (seen + [p])[..|seen|] == seen;
  }

  lemma NothingMissed(goal: Goal, needed: nat)
    requires needed > 0
    ensures Missed(goal, [], needed)
  {}

  /** Waits until `needed` updates in a row, all newer than `after`, meet the goal; gives up on
      any fault, on the time limit and, for a move that can be stopped, on a stop request. */
  method WaitStatus(t: IndiTransport, goal: Goal, needed: nat, after: int, stoppable: bool)
    returns (r: Result<Gu>, ghost seen: seq<Property>)
    requires t.Valid() && 0 < needed && !goal.Focused? && !goal.AtRest?
    modifies t`properties, t`revision, t`since, t`world, t`failure, t`mishaps, t`checks
    ensures t.Valid() && t.Continues()
    ensures r.Err? ==> r.error != OtherError && (r.error == Stopped ==> stoppable)
    ensures Fresh(seen, after, Status, t.base, t.since)
    ensures r.Ok? ==> forall p :: p in seen ==> NoFault(p)
    ensures r.Ok? ==>
      |seen| >= needed && IsStreak(goal, seen, needed) && Decoded(Some(seen[|seen| - 1])) == Some(r.value)
    ensures Onward(seen, RevisionOf(old(t.Cached(Status))), old(t.revision))
    ensures needed == 1 && old(Prompt(t, goal, after)) ==> r.Ok? && seen == [old(t.Cached(Status)).value]
    ensures r.Ok? ==> t.mishaps == old(t.mishaps)
    ensures r.Err? ==>
      if r.error == Stopped then LastStopped(old(t.checks), t.checks)
      else t.mishaps > old(t.mishaps) || Faltered(seen)
    ensures r.Err? ==> Missed(goal, seen, needed)
  {
    hide CacheOf, Meets, IsStreak, Fresh, NoFault, Judge, Onward, Unmet, IndiTransport.Passed, Missed, Faltered;
    seen := [];
    NothingMet(goal, needed);
    StartFresh(goal, after, Status, t.base, t.since);
    NothingOnward(RevisionOf(t.Cached(Status)), t.revision);
    ghost var first := t.since;
    var stable, last := 0, after;
    r := Err(TimeoutError);
    while stable < needed
      invariant t.Valid() && t.Continues() && last == LastRevision(seen, after) && t.mishaps == old(t.mishaps)
      invariant Fresh(seen, after, Status, t.base, t.since) && IsStreak(goal, seen, stable)
      invariant stable <= needed && stable <= |seen| && (stable < needed ==> Unmet(goal, seen, needed))
      invariant forall p :: p in seen ==> NoFault(p)
      invariant stable > 0 ==> seen != [] && r.Ok? && Decoded(Some(seen[|seen| - 1])) == Some(r.value)
      invariant old(t.since) <= first <= t.since
      invariant seen != [] ==> RevisionOf(Lookup(CacheOf(t.base, first), Status)) <= last
      invariant Onward(seen, RevisionOf(old(t.Cached(Status))), old(t.revision))
      invariant needed == 1 && old(Prompt(t, goal, after)) ==>
        if seen == [] then t.Still() else stable == 1 && seen == [old(t.Cached(Status)).value]
      decreases |t.world|
    {
      ghost var was := t.since;
      var update := NextStatus(t, last, stoppable);
      FreshGrows(seen, after, Status, t.base, was, t.since);
      if update.Err? {
        MissedBy(goal, seen, needed);
        return Err(update.error), seen;
      }
      if update.value.None? {
        continue;
      }
      var p := update.value.value;
      NotOlder(t.base, old(t.since), t.since, Status);
      if seen == [] {
        first := t.since;
      } else {
        NewerMeansReceived(t.base, first, t.since, Status);
      }
      OnwardPush(seen, p, RevisionOf(old(t.Cached(Status))), old(t.revision));
      WaitedIsFresh(seen, p, after, Status, t.base, t.since);
      StreakPush(goal, seen, stable, p);
      ghost var before := seen;
      seen := seen + [p];
      last := p.revision;
      r := Judge(p);
      if r.Err? {
        MissedWith(goal, before, p, needed);
        return;
      }
      stable := if Meets(goal, p) then stable + 1 else 0;
      if stable < needed {
        StillUnmet(goal, before, p, stable, needed);
      }
    }
  }

  /** `error` is the exception that ended the move; a refused preflight has none. */
  datatype PositionResult = PositionResult(confirmed: bool, error: Option<Error>, stop: Option<StopResult>)

  datatype Destination = ToHome | ToPark

  function GoalOf(d: Destination): Goal { if d.ToHome? then AtHome else AtPark }

  function CommandOf(d: Destination): Command {
    if d.ToHome? then SwitchOn(HomeVector, Go) else SwitchOn(ParkVector, Park)
  }

  /** How a move to a stored position ended, from what was sent and seen. */
  ghost predicate Arrived(d: Destination, sent: seq<Sent>, seen: seq<Property>, base: nat, since: seq<Vector>) {
    && |sent| == 1 && sent[0].command == CommandOf(d)
    && (exists after :: Confirmed(GoalOf(d), seen, after, Status, base, since))
    && (forall p :: p in seen ==> NoFault(p))
    && |seen| >= 2 && seen[|seen| - 1].revision > sent[0].at
  }

  /** An update that shows the mount standing at its destination, flag by flag. */
  ghost predicate StandsAt(d: Destination, p: Property) {
    && p.light != Alert && (Fault in p.values ==> p.values[Fault] == Quiet)
    && Report in p.values && p.values[Report].Flags?
    && var g := p.values[Report].gu;
    if d.ToHome?
    then g == Gu(false, true, false, false, false, false, true, g.guiding, g.pierEast, g.pierWest)
    else g == Gu(true, g.unparkedFlag, false, false, false, false, g.atHome, g.guiding, g.pierEast, g.pierWest)
  }

  /** A confirmed arrival: HOME GO or PARK PARK and nothing else was sent, and two updates, received
      one after the other, show the mount at rest in that place without any fault. */
  lemma ArrivalIs(d: Destination, sent: seq<Sent>, seen: seq<Property>, base: nat, since: seq<Vector>)
    requires Arrived(d, sent, seen, base, since)
    ensures |sent| == 1 && sent[0].command == if d.ToHome? then SwitchOn(HomeVector, Go) else SwitchOn(ParkVector, Park)
    ensures |seen| >= 2 && StandsAt(d, seen[|seen| - 2]) && StandsAt(d, seen[|seen| - 1])
    ensures base < seen[|seen| - 2].revision < seen[|seen| - 1].revision <= base + |since|
  {
    hide CacheOf, Meets, NoFault, StandsAt;
    var after :| Confirmed(GoalOf(d), seen, after, Status, base, since);
    var last := |seen| - 1;
    GoodStands(d, seen[last - 1]);
    GoodStands(d, seen[last]);
    assert Taken(seen[last], Status, base, since) && Taken(seen[last - 1], Status, base, since);
  }

  lemma GoodStands(d: Destination, p: Property)
    requires Meets(GoalOf(d), p) && NoFault(p)
    ensures StandsAt(d, p)
  {
    hide Meets, StatusMeets;
    MeetsIff(GoalOf(d), p);
    RestingIff(p.values[Report].gu);
    AwayIff(p.values[Report].gu, true);
  }

  /** At most one command of its own, sent from `now` on, and then only those of a stop. */
  ghost predicate OneThenStops(sends: seq<Sent>, c: Command, now: int) {
    OnlyStops(sends) || (sends[0].command == c && sends[0].at >= now && OnlyStops(sends[1..]))
  }

  /** The command of a move, after a clear check, and two good updates. */
  method Drive(t: IndiTransport, d: Destination, after: int, stoppable: bool)
    returns (r: Result<Gu>, ghost seen: seq<Property>)
    requires t.Valid()
    modifies t
    ensures t.Valid() && t.Continues() && t.stops == old(t.stops) && t.looks == old(t.looks)
    ensures t.sends == old(t.sends) ||
            (OneMore(old(t.sends), t.sends, CommandOf(d)) && t.sends[|old(t.sends)|].at >= old(t.revision))
    ensures r.Err? && r.error == Stopped ==> stoppable
    ensures r.Ok? ==> Arrived(d, t.sends[|old(t.sends)|..], seen, t.base, t.since)
    ensures |t.checks| > |old(t.checks)| && t.checks[|old(t.checks)|].tried == |old(t.tries)|
    ensures t.checks[|old(t.checks)|].stop ==> r == Err(Stopped)
    ensures t.tries == old(t.tries) + if t.checks[|old(t.checks)|].stop then [] else [CommandOf(d)]
    ensures if r.Ok? then t.mishaps == old(t.mishaps) else r.error == OtherError ==> t.mishaps > old(t.mishaps)
    ensures r.Err? ==> Missed(GoalOf(d), seen, 2)
    ensures r.Err? ==>
      if r.error == Stopped then LastStopped(old(t.checks), t.checks)
      else t.mishaps > old(t.mishaps) || Faltered(seen)
  {
    hide CacheOf, Meets, IsStreak, Fresh, NoFault, Confirmed, SentBy, Prompt, IndiTransport.Passed, IndiTransport.Still,
      Missed, Faltered;
    seen := [];
    NothingMissed(GoalOf(d), 2);
    var stop := t.StopRequested(stoppable);
    if stop {
      return Err(Stopped), seen;
    }
    var command := CommandOf(d);
    var issued := t.IssueSwitch(command.name, command.element);
    if issued.Err? {
      return Err(issued.error), seen;
    }
    r, seen := WaitStatus(t, GoalOf(d), 2, after, stoppable);
    if r.Ok? {
      StreakConfirms(GoalOf(d), seen, 2, after, Status, t.base, t.since);
    }
  }

  /** Commands one move. A caught failure stops the mount, exactly once; a requested stop is
      left to whoever requested it, and one seen before the command leaves it untried. */
  method MoveToPosition(t: IndiTransport, d: Destination, stoppable: bool)
    returns (r: Result<PositionResult>, ghost seen: seq<Property>)
    requires t.Valid()
    modifies t
    ensures t.Valid() && t.Continues() && old(t.sends) <= t.sends && t.looks == old(t.looks)
    ensures r.Err? ==> r.error == OtherError || (r.error == Stopped && stoppable)
    ensures r.Err? && r.error == Stopped ==> t.stops == old(t.stops)
    ensures r.Ok? && r.value.confirmed ==>
      && t.stops == old(t.stops) && r.value.error == None && seen != []
      && Arrived(d, t.sends[|old(t.sends)|..], seen, t.base, t.since)
    ensures r.Ok? && !r.value.confirmed ==>
      t.stops == old(t.stops) + 1 && r.value.error.Some? && Caught(r.value.error.value) && r.value.stop.Some?
    ensures OneThenStops(t.sends[|old(t.sends)|..], CommandOf(d), old(t.revision))
    ensures |t.checks| > |old(t.checks)| && t.checks[|old(t.checks)|].tried == |old(t.tries)|
    ensures t.checks[|old(t.checks)|].stop ==> r == Err(Stopped) && t.tries == old(t.tries)
    ensures !t.checks[|old(t.checks)|].stop ==>
      old(t.tries) < t.tries && t.tries[|old(t.tries)|] == CommandOf(d)
    ensures t.Guarded()
    ensures r.Ok? && r.value.confirmed ==> t.mishaps == old(t.mishaps)
    ensures r.Ok? && !r.value.confirmed ==> t.mishaps > old(t.mishaps) || Faltered(seen)
    ensures !(r.Ok? && r.value.confirmed) ==> Missed(GoalOf(d), seen, 2)
    ensures r.Err? ==>
      if r.error == Stopped then LastStopped(old(t.checks), t.checks) else t.mishaps > old(t.mishaps)
  {
    hide CacheOf, Meets, IsStreak, Fresh, NoFault, Confirmed, SentBy, IndiTransport.Passed, IndiTransport.Still, Missed,
      Faltered;
    var current := t.GetProperty(Status);
    var driven;
    driven, seen := Drive(t, d, RevisionOf(current), stoppable);
    if driven.Ok? {
      return Ok(PositionResult(true, None, None)), seen;
    }
    if !Caught(driven.error) {
      return Err(driven.error), seen;
    }
    ghost var abort, from, rest;
    var stopped;
    stopped, abort, from, rest := StopMount(t);
    if stopped.Err? {
      return Err(stopped.error), seen;
    }
    r := Ok(PositionResult(false, Some(driven.error), Some(stopped.value)));
  }

  /** How the one good status stands to the command `s` it is to confirm. It is newer than the
      status `from` read before the command; it was received after the command unless it is
      the very status cached when the command went out. So it was if no status arrived between
      the reading and the command, and if the status cached then did not show the goal. */
  ghost predicate Followed(goal: Goal, seen: seq<Property>, from: int, s: Sent, base: nat, since: seq<Vector>) {
    && seen != [] && Fresh(seen, from, Status, base, since) && (forall p :: p in seen ==> NoFault(p))
    && var last := seen[|seen| - 1];
    && Meets(goal, last)
    && (last.revision > s.at <==> s.status != Some(last))
    && (RevisionOf(s.status) == from ==> last.revision > s.at)
    && (s.status.None? || !Meets(goal, s.status.value) ==> last.revision > s.at)
  }

  lemma FollowsCommand(goal: Goal, seen: seq<Property>, from: int, s: Sent, base: nat, before: seq<Vector>,
                       since: seq<Vector>)
    requires seen != [] && Fresh(seen, from, Status, base, since) && (forall p :: p in seen ==> NoFault(p))
    requires Meets(goal, seen[|seen| - 1]) && before <= since
    requires s.at == base + |before| && s.status == Lookup(CacheOf(base, before), Status)
    requires seen[|seen| - 1].revision >= RevisionOf(s.status)
    ensures Followed(goal, seen, from, s, base, since)
  {
    hide CacheOf, Meets, NoFault, Taken;
    LaterIff(seen[|seen| - 1], Status, base, before, since);
  }

  /** A good status arrives after the first moment, before the command `c` is written, and
      nothing else happens. */
  ghost predicate Overtaken(t: IndiTransport, c: Command, goal: Goal)
    requires c.SwitchOn?
    reads t
  {
    && |t.world| == 4 && Calm(t.world[..1], 1) && Calm(t.world[2..], 2) && !t.closed
    && !t.world[1].breaks && t.world[1].trouble.None? && t.Issuable(c.name, Switch, {c.element})
    && var p := Overtaker(t);
    RevisionOf(p) > RevisionOf(t.Cached(Status)) >= -1 && NoFault(p.value) && Meets(goal, p.value)
  }

  /** The status cached once the vectors of the second moment have arrived. */
  ghost function Overtaker(t: IndiTransport): Option<Property>
    requires |t.world| == 4
    reads t
  {
    Lookup(CacheOf(t.base, t.since + t.world[1].arrivals), Status)
  }

  /** Reads the last status and then writes the command `c`. */
  method ReadAndCommand(t: IndiTransport, c: Command, goal: Goal) returns (issued: Result<int>, from: int)
    requires t.Valid() && c.SwitchOn?
    modifies t
    ensures t.Valid() && t.Continues() && t.stops == old(t.stops) && t.looks == old(t.looks) && t.checks == old(t.checks)
    ensures t.mishaps == old(t.mishaps) + if issued.Err? then 1 else 0
    ensures t.sends == old(t.sends) + if issued.Ok? then [t.Stamp(c)] else []
    ensures issued.Err? ==> issued.error != Stopped
    ensures -1 <= from <= t.revision
    ensures old(Overtaken(t, c, goal)) ==>
      && issued.Ok? && Calm(t.world, 2) && !t.failure && t.Cached(Status) == old(Overtaker(t))
      && from == RevisionOf(old(t.Cached(Status)))
  {
    hide CacheOf, Meets, NoFault;
    ghost var overtaken := Overtaken(t, c, goal);
    var current := t.GetProperty(Status);
    from := RevisionOf(current);
    AtLeastNone(t.base, t.since);
    assert overtaken ==>
        t.since == old(t.since) && t.Head() == old(t.world)[1] && t.Issuable(c.name, Switch, {c.element}) by {
      assert overtaken ==> old(t.world)[..1][0] == old(t.world)[0];
    }
    issued := t.IssueSwitch(c.name, c.element);
    assert overtaken ==> t.world == old(t.world)[2..];
  }

  /** One command and one status, newer than the last before it, that meets the goal. */
  method CommandAndWait(t: IndiTransport, c: Command, goal: Goal)
    returns (r: Result<Gu>, ghost from: int, ghost seen: seq<Property>)
    requires t.Valid() && c.SwitchOn? && !goal.Focused? && !goal.AtRest?
    modifies t
    ensures t.Valid() && t.Continues() && t.stops == old(t.stops) && t.looks == old(t.looks)
    ensures t.sends == old(t.sends) || OneMore(old(t.sends), t.sends, c)
    ensures r.Err? ==> r.error != Stopped
    ensures r.Ok? ==>
      && OneMore(old(t.sends), t.sends, c) && Followed(goal, seen, from, t.sends[|old(t.sends)|], t.base, t.since)
      && Decoded(Some(seen[|seen| - 1])) == Some(r.value)
    ensures old(Overtaken(t, c, goal)) ==>
      r.Ok? && seen == [old(Overtaker(t)).value] && seen[0].revision <= t.sends[|old(t.sends)|].at
    ensures if r.Ok? then t.mishaps == old(t.mishaps) else t.mishaps > old(t.mishaps) || (Faltered(seen) && Caught(r.error))
    ensures r.Err? ==> Missed(goal, seen, 1)
  {
    hide CacheOf, Meets, Fresh, NoFault, SentBy, Followed, Missed, Faltered, IndiTransport.Passed;
    NothingMissed(goal, 1);
    var issued, last := ReadAndCommand(t, c, goal);
    from := last;
    if issued.Err? {
      return Err(issued.error), from, [];
    }
    ghost var asked := t.since;
    AtLeastNone(t.base, asked);
    r, seen := WaitStatus(t, goal, 1, last, false);
    if r.Ok? {
      LastMeets(goal, seen);
      FollowsCommand(goal, seen, from, t.sends[|t.sends| - 1], t.base, asked, t.since);
    }
  }

  lemma AtLeastNone(base: nat, since: seq<Vector>)
    ensures -1 <= RevisionOf(Lookup(CacheOf(base, since), Status)) <= base + |since|
  {
    hide CacheOf;
    EntryIsLatest(base, since, Status);
  }

  lemma LastMeets(goal: Goal, seen: seq<Property>)
    requires |seen| >= 1 && IsStreak(goal, seen, 1)
    ensures Meets(goal, seen[|seen| - 1])
  {
    hide Meets;
  }

  // ---- the router and its HOME authority -----------------------------------------------------

  predicate Ready(s: Snapshot) {
    s.statusLive && !s.atLimit && s.blockers !! {DeviceDisconnected, StatusAlert, ReportedError, LimitOrParkFault}
  }

  /** The connection is up and the latest status is recent and reports nothing wrong. An absent
      or undecodable report counts as nothing wrong here. */
  predicate Untroubled(cache: map<Name, Property>, c: Circumstances) {
    var status := Lookup(cache, Status);
    && c.open && Holds(Lookup(cache, Connection), Connect, On)
    && status.Some? && !c.statusAged && status.value.light != Alert && !Faulted(status.value)
    && (Decoded(status).Some? ==> !Decoded(status).value.parkFailed && !Decoded(status).value.atLimit)
  }

  /** Exactly when the preflights of HOME and PARK pass, in terms of the cached status. */
  lemma PreflightIff(cache: map<Name, Property>, c: Circumstances)
    ensures var s, g := Read(cache, c), Decoded(Lookup(cache, Status));
      && (PassesForPark(s) <==> Untroubled(cache, c) && (g.Some? ==> !g.value.slewing && !g.value.tracking))
      && (PassesForHome(s) <==>
            Untroubled(cache, c) && (g.Some? ==> !g.value.parked && !g.value.slewing && !g.value.tracking))
      && (Ready(s) && s.parked && !s.slewing <==> Untroubled(cache, c) && g.Some? && g.value.parked && !g.value.slewing)
  {
    hide Lookup, Decoded, Holds, Faulted, PierOf, ReportedPier, Numeric;
    assert Read(cache, c).blockers !! {DeviceDisconnected, StatusAlert, ReportedError, LimitOrParkFault} <==>
      (DeviceDisconnected !in Read(cache, c).blockers && StatusAlert !in Read(cache, c).blockers &&
       ReportedError !in Read(cache, c).blockers && LimitOrParkFault !in Read(cache, c).blockers);
  }

  /** So a status without a readable report passes for an unparked, stationary mount. */
  lemma UnreadableStatusPasses()
    ensures exists cache, c :: Decoded(Lookup(cache, Status)).None? && PassesForHome(Read(cache, c))
  {
    var cache := map[Connection := Property(Switch, Okay, true, map[Connect := On], 1),
                     Status := Property(Text, Okay, false, map[], 2)];
    var c := Circumstances(true, false, false, false, false, false, None);
    PreflightIff(cache, c);
    assert Decoded(Lookup(cache, Status)).None? && PassesForHome(Read(cache, c));
  }

  predicate PassesForHome(s: Snapshot) { Ready(s) && !s.parked && !s.slewing && !s.tracking }

  predicate PassesForPark(s: Snapshot) { Ready(s) && !s.slewing && !s.tracking }

  predicate LeavesHome(c: Command) { c == SwitchOn(ParkVector, Park) || c == SwitchOn(ParkVector, Unpark) }

  /** At `p` the status showed HOME, and no PARK or UNPARK was sent from then on. */
  ghost predicate HomeSince(p: Property, sends: seq<Sent>, base: nat, since: seq<Vector>) {
    && Taken(p, Status, base, since) && Meets(AtHome, p) && NoFault(p)
    && forall s :: s in sends && LeavesHome(s.command) ==> s.at < p.revision
  }

  lemma HomeSurvives(p: Property, sends: seq<Sent>, all: seq<Sent>, c: Command, now: int, base: nat,
                     before: seq<Vector>, since: seq<Vector>)
    requires HomeSince(p, sends, base, before) && before <= since && sends <= all
    requires OneThenStops(all[|sends|..], c, now) && !LeavesHome(c)
    ensures HomeSince(p, all, base, since)
  {
    hide CacheOf, Meets, NoFault;
    var k := p.revision - base;
    assert before[..k] == since[..k];
    OwnNeverLeave(all[|sends|..], c, now);
    assert all == sends + all[|sends|..];
  }

  lemma OwnNeverLeave(sends: seq<Sent>, c: Command, now: int)
    requires OneThenStops(sends, c, now) && !LeavesHome(c)
    ensures forall s :: s in sends ==> !LeavesHome(s.command)
  {
    if !OnlyStops(sends) {
      assert sends == [sends[0]] + sends[1..];
    }
  }

  lemma HomeReached(sends: seq<Sent>, all: seq<Sent>, seen: seq<Property>, now: int, base: nat, since: seq<Vector>)
    requires sends <= all && SentBy(sends, now) && OneThenStops(all[|sends|..], CommandOf(ToHome), now)
    requires Arrived(ToHome, all[|sends|..], seen, base, since)
    ensures |seen| >= 2 && HomeSince(seen[|seen| - 1], all, base, since)
  {
    hide CacheOf, Meets, NoFault;
    var p := seen[|seen| - 1];
    assert all == sends + all[|sends|..];
    var after :| Confirmed(AtHome, seen, after, Status, base, since);
    assert all[|sends|..][0].command == CommandOf(ToHome);
  }

  /** A connected device whose status shows neither trouble nor PARK. */
  predicate Standing(cache: map<Name, Property>) {
    var status, g := Lookup(cache, Status), Decoded(Lookup(cache, Status));
    && Holds(Lookup(cache, Connection), Connect, On)
    && status.Some? && status.value.light != Alert && !Faulted(status.value)
    && g.Some? && !g.value.parked && !g.value.parkFailed && !g.value.atLimit
  }

  /** Where the question for the authority was asked: what had been received, and whether the
      connection was up. */
  datatype Question = Question(at: seq<Vector>, open: bool)

  /** What an authority becomes when it is asked for. */
  predicate Kept(before: bool, asked: Option<Question>, base: nat) {
    before && (asked.Some? ==> asked.value.open && Standing(CacheOf(base, asked.value.at)))
  }

  /** What the preflight of HOME does to an authority that is asked for at the same moment. A
      passing one keeps it exactly when the status can be read. While it stands, only an old
      status, slewing or tracking refuses the move: any other refusal revokes it. */
  lemma PreflightKeepsIff(cache: map<Name, Property>, c: Circumstances)
    ensures var g := Decoded(Lookup(cache, Status));
      && (PassesForHome(Read(cache, c)) ==> (c.open && Standing(cache) <==> g.Some?))
      && (c.open && Standing(cache) ==>
            (PassesForHome(Read(cache, c)) <==> !c.statusAged && !g.value.slewing && !g.value.tracking))
  {
    hide Lookup, Decoded, Holds, Faulted, Read, PassesForHome, Ready;
    PreflightIff(cache, c);
  }

  datatype UnparkStage = Preflight | Leaving | Unparked
  datatype UnparkResult = UnparkResult(confirmed: bool, stage: UnparkStage, error: Option<Error>,
                                       stop: Option<StopResult>)

  /** One router per connection. */
  class Router {
    const t: IndiTransport
    var authority: bool
    ghost var arrival: Property    // the status that last confirmed HOME

    /** The authority always rests on a HOME arrival after which nothing was told to park or unpark. */
    ghost predicate Valid()
      reads this, t`properties, t`revision, t`base, t`since, t`sends
    {
      t.Valid() && (authority ==> HomeSince(arrival, t.sends, t.base, t.since))
    }

    constructor (transport: IndiTransport)
      requires transport.Valid()
      ensures Valid() && t == transport && !authority
    {
      t, authority, arrival := transport, false, Property(Switch, Idle, false, map[], 0);
    }

    /** One observation. It also asks for the authority, and so may revoke it; `asked` is what
        the question met, if the observation got that far. */
    method Look() returns (r: Result<Snapshot>, ghost asked: Option<Question>)
      requires Valid()
      modifies this`authority, t`properties, t`revision, t`since, t`world, t`failure, t`mishaps, t`looks
      ensures Valid() && t.Continues() && arrival == old(arrival)
      ensures t.looks == old(t.looks) + if r.Ok? then [r.value] else []
      ensures r.Err? ==> r.error != Stopped
      ensures authority == Kept(old(authority), asked, t.base)
      ensures asked == if r.Ok? then Some(Question(t.since, !t.closed && !t.failure)) else None
      ensures t.mishaps == old(t.mishaps) + if r.Err? then 1 else 0
    {
      hide CacheOf, Meets, NoFault, HomeSince, SentBy, Read, Standing;
      ghost var was := t.since;
      r := t.Observe();
      asked := None;
      if authority {
        HomeSurvives(arrival, t.sends, t.sends, CommandOf(ToHome), 0, t.base, was, t.since);
      }
      if r.Ok? {
        var stands := AuthorityStands();
        asked := Some(Question(t.since, !t.closed && !t.failure));
      }
    }

    /** Whether the HOME authority stands. Asking revokes it for good when the connection is down
        or the latest status is missing, in trouble, unreadable or parked. */
    method AuthorityStands() returns (b: bool)
      requires Valid()
      modifies this`authority, t`properties, t`revision, t`since, t`world, t`failure
      ensures Valid() && t.Continues() && authority == b
      ensures b == (old(authority) && !t.closed && !t.failure && Standing(CacheOf(t.base, t.since)))
    {
      hide CacheOf, Meets, NoFault, HomeSince, SentBy, Standing;
      if !authority {
        return false;
      }
      ghost var was := t.since;
      var m := t.Pass();
      HomeSurvives(arrival, t.sends, t.sends, CommandOf(ToHome), 0, t.base, was, t.since);
      authority := !t.closed && !t.failure && Standing(t.properties);
      b := authority;
    }

    /** An unparked, stationary mount goes HOME. A refused or stopped move leaves the authority
        as the preflight left it; any other end sets it to whether HOME was confirmed. */
    method GoHome(stoppable: bool)
      returns (r: Result<PositionResult>, ghost asked: Option<Question>, ghost seen: seq<Property>)
      requires Valid()
      modifies this, t
      ensures Valid() && t.Continues() && old(t.sends) <= t.sends
      ensures t.tries != old(t.tries) ==> |t.looks| > |old(t.looks)| && PassesForHome(t.looks[|old(t.looks)|])
      ensures t.Guarded()
      ensures |t.checks| > |old(t.checks)| && t.checks[|old(t.checks)|].stop ==>
        r == Err(Stopped) && t.tries == old(t.tries)
      ensures asked.None? ==> r.Err? && t.tries == old(t.tries)
      ensures asked.Some? ==> old(t.since) <= asked.value.at <= t.since
      ensures r.Ok? && r.value.confirmed ==>
        authority && Arrived(ToHome, t.sends[|old(t.sends)|..], seen, t.base, t.since)
      ensures r.Err? ==> authority == Kept(old(authority), asked, t.base)
      ensures r.Ok? && !r.value.confirmed ==>
        if r.value.error.None?
        then authority == Kept(old(authority), asked, t.base) && t.tries == old(t.tries) && t.stops == old(t.stops)
        else !authority && t.stops == old(t.stops) + 1
      ensures r.Ok? && !r.value.confirmed ==>
        if r.value.error.None? then |t.looks| > |old(t.looks)| && !PassesForHome(t.looks[|old(t.looks)|])
        else t.mishaps > old(t.mishaps) || Faltered(seen)
      ensures !(r.Ok? && r.value.confirmed) ==> Missed(AtHome, seen, 2)
      ensures r.Err? ==>
        if r.error == Stopped then stoppable && LastStopped(old(t.checks), t.checks) else t.mishaps > old(t.mishaps)
    {
      hide CacheOf, Meets, NoFault, HomeSince, Arrived, OneThenStops, SentBy, Read, Standing, Missed, Faltered;
      seen := [];
      NothingMissed(AtHome, 2);
      var before;
      before, asked := Look();
      if before.Err? {
        return Err(before.error), asked, seen;
      }
      if !PassesForHome(before.value) {
        return Ok(PositionResult(false, None, None)), asked, seen;
      }
      r, seen := MoveToHome(stoppable);
    }

    method MoveToHome(stoppable: bool) returns (r: Result<PositionResult>, ghost seen: seq<Property>)
      requires Valid()
      modifies this, t
      ensures Valid() && t.Continues() && old(t.sends) <= t.sends && t.looks == old(t.looks)
      ensures |t.checks| > |old(t.checks)| && t.checks[|old(t.checks)|].tried == |old(t.tries)|
      ensures t.checks[|old(t.checks)|].stop ==> r == Err(Stopped) && t.tries == old(t.tries)
      ensures t.Guarded()
      ensures r.Ok? && r.value.confirmed ==>
        authority && Arrived(ToHome, t.sends[|old(t.sends)|..], seen, t.base, t.since)
      ensures r.Err? ==> authority == old(authority)
      ensures r.Ok? && !r.value.confirmed ==> !authority && t.stops == old(t.stops) + 1 && r.value.error.Some?
      ensures r.Ok? && r.value.confirmed ==> t.mishaps == old(t.mishaps)
      ensures r.Ok? && !r.value.confirmed ==> t.mishaps > old(t.mishaps) || Faltered(seen)
      ensures !(r.Ok? && r.value.confirmed) ==> Missed(AtHome, seen, 2)
      ensures r.Err? ==>
        if r.error == Stopped then stoppable && LastStopped(old(t.checks), t.checks) else t.mishaps > old(t.mishaps)
    {
      hide CacheOf, Meets, NoFault, HomeSince, Arrived, OneThenStops, SentBy, Read, Missed, Faltered;
      ghost var was, sends, now := t.since, t.sends, t.revision;
      r, seen := MoveToPosition(t, ToHome, stoppable);
      if authority {
        HomeSurvives(arrival, sends, t.sends, CommandOf(ToHome), now, t.base, was, t.since);
      }
      if r.Ok? {
        authority := r.value.confirmed;
        if authority {
          HomeReached(sends, t.sends, seen, now, t.base, t.since);
          arrival := seen[|seen| - 1];
        }
      }
    }

    /** A stationary mount goes to PARK. From a passed preflight on the authority is gone; a
        refused one leaves it as the look left it. */
    method ParkMount(stoppable: bool)
      returns (r: Result<PositionResult>, ghost asked: Option<Question>, ghost seen: seq<Property>)
      requires Valid()
      modifies this, t
      ensures Valid() && t.Continues() && old(t.sends) <= t.sends
      ensures t.tries != old(t.tries) ==>
        |t.looks| > |old(t.looks)| && PassesForPark(t.looks[|old(t.looks)|])
      ensures t.Guarded()
      ensures |t.checks| > |old(t.checks)| && t.checks[|old(t.checks)|].stop ==>
        r == Err(Stopped) && t.tries == old(t.tries)
      ensures asked.None? ==> r.Err? && t.tries == old(t.tries)
      ensures asked.Some? ==> old(t.since) <= asked.value.at <= t.since
      ensures r.Err? ==> authority == (old(authority) && asked.None?)
      ensures r.Ok? && !r.value.confirmed ==>
        if r.value.error.None?
        then authority == Kept(old(authority), asked, t.base) && t.tries == old(t.tries) && t.stops == old(t.stops)
        else !authority && t.stops == old(t.stops) + 1
      ensures r.Ok? && r.value.confirmed ==> !authority
      ensures r.Ok? && r.value.confirmed && seen != [] ==>
        Arrived(ToPark, t.sends[|old(t.sends)|..], seen, t.base, t.since)
      ensures r.Ok? && r.value.confirmed && seen == [] ==>
        t.tries == old(t.tries) && t.looks != [] && t.looks[|t.looks| - 1].parked
      ensures t.tries != old(t.tries) ==> !authority
      ensures r.Ok? && !r.value.confirmed ==>
        if r.value.error.None? then |t.looks| > |old(t.looks)| && !PassesForPark(t.looks[|old(t.looks)|])
        else t.mishaps > old(t.mishaps) || Faltered(seen)
      ensures !(r.Ok? && r.value.confirmed) ==> Missed(AtPark, seen, 2)
      ensures r.Err? ==>
        if r.error == Stopped then stoppable && LastStopped(old(t.checks), t.checks) else t.mishaps > old(t.mishaps)
    {
      hide CacheOf, Meets, NoFault, HomeSince, Arrived, OneThenStops, SentBy, Read, Standing, Missed, Faltered;
      seen := [];
      NothingMissed(AtPark, 2);
      var before;
      before, asked := Look();
      if before.Err? {
        return Err(before.error), asked, seen;
      }
      if !PassesForPark(before.value) {
        return Ok(PositionResult(false, None, None)), asked, seen;
      }
      authority := false;
      if before.value.parked {
        return Ok(PositionResult(true, None, None)), asked, seen;
      }
      r, seen := MoveToPosition(t, ToPark, stoppable);
    }

    /** Leaves PARK and switches off tracking that resumed; never commands HOME. */
    method UnparkMount() returns (r: Result<UnparkResult>, ghost from: int, ghost seen: seq<Property>)
      requires Valid()
      modifies this, t
      ensures Valid() && t.Continues() && old(t.sends) <= t.sends && !authority
      ensures t.tries != old(t.tries) ==>
        && |t.looks| > |old(t.looks)| && Ready(t.looks[|old(t.looks)|])
        && t.looks[|old(t.looks)|].parked && !t.looks[|old(t.looks)|].slewing
      ensures r.Ok? && r.value.confirmed ==>
        && t.stops == old(t.stops) && UnparkSent(t.sends[|old(t.sends)|..])
        && Followed(OffPark(true), seen, from, t.sends[|t.sends| - 1], t.base, t.since)
      ensures r.Ok? && r.value.stage.Leaving? ==> !r.value.confirmed && t.stops == old(t.stops) + 1
      ensures r.Ok? && r.value.stage.Preflight? ==>
        && !r.value.confirmed && t.tries == old(t.tries) && t.stops == old(t.stops) && |t.looks| > |old(t.looks)|
        && var s := t.looks[|old(t.looks)|]; !Ready(s) || !s.parked || s.slewing
      ensures r.Ok? ==>
        (r.value.confirmed <==> r.value.stage.Unparked?) && (r.value.error.Some? <==> r.value.stage.Leaving?)
      ensures r.Ok? && r.value.stage.Leaving? ==>
        (t.mishaps > old(t.mishaps) || Faltered(seen)) && Caught(r.value.error.value) && r.value.stop.Some?
      ensures r.Err? ==> t.mishaps > old(t.mishaps)
      ensures forall i :: |old(t.sends)| <= i < |t.sends| ==> t.sends[i].command != SwitchOn(HomeVector, Go)
    {
      hide CacheOf, Meets, NoFault, HomeSince, Arrived, OneThenStops, SentBy, Read, Followed, Standing;
      from, seen := -1, [];
      authority := false;
      var before;
      ghost var asked;
      before, asked := Look();
      if before.Err? {
        return Err(before.error), from, seen;
      }
      if !Ready(before.value) || !before.value.parked || before.value.slewing {
        return Ok(UnparkResult(false, Preflight, None, None)), from, seen;
      }
      var done: Result<()>;
      done, from, seen := LeavePark();
      if done.Ok? {
        return Ok(UnparkResult(true, Unparked, None, None)), from, seen;
      }
      if !Caught(done.error) {
        return Err(done.error), from, seen;
      }
      ghost var abort, at, rest;
      var stopped;
      stopped, abort, at, rest := StopMount(t);
      if stopped.Err? {
        return Err(stopped.error), from, seen;
      }
      r := Ok(UnparkResult(false, Leaving, Some(done.error), Some(stopped.value)));
    }

    /** The two commands of an unpark, each confirmed by one status newer than the status read
        before that command. */
    method LeavePark() returns (r: Result<()>, ghost from: int, ghost seen: seq<Property>)
      requires t.Valid()
      modifies t
      ensures t.Valid() && t.Continues() && old(t.sends) <= t.sends
      ensures t.stops == old(t.stops) && t.looks == old(t.looks)
      ensures r.Err? ==> r.error != Stopped
      ensures if r.Ok? then t.mishaps == old(t.mishaps) else t.mishaps > old(t.mishaps) || (Faltered(seen) && Caught(r.error))
      ensures r.Ok? ==>
        && UnparkSent(t.sends[|old(t.sends)|..])
        && Followed(OffPark(true), seen, from, t.sends[|t.sends| - 1], t.base, t.since)
      ensures forall i :: |old(t.sends)| <= i < |t.sends| ==> t.sends[i].command != SwitchOn(HomeVector, Go)
      ensures old(Overtaken(t, SwitchOn(ParkVector, Unpark), OffPark(true))) ==>
        && r.Ok? && |t.sends| == |old(t.sends)| + 1
        && seen != [] && seen[|seen| - 1].revision <= t.sends[|old(t.sends)|].at
    {
      hide CacheOf, Meets, Fresh, NoFault, Taken, HomeSince, SentBy, Followed, Overtaken;
      if Overtaken(t, SwitchOn(ParkVector, Unpark), OffPark(true)) {
        OvertakenToo(t, SwitchOn(ParkVector, Unpark));
      }
      var status;
      status, from, seen := CommandAndWait(t, SwitchOn(ParkVector, Unpark), OffPark(false));
      if status.Err? {
        return Err(status.error), from, seen;
      }
      if !status.value.tracking {
        AlreadyOff(seen, from, t.sends[|old(t.sends)|], t.base, t.since);
        return Ok(()), from, seen;
      }
      status, from, seen := CommandAndWait(t, SwitchOn(TrackState, TrackOff), OffPark(true));
      r := if status.Ok? then Ok(()) else Err(status.error);
    }

    /** PARK to HOME: HOME is commanded only after the mount was seen unparked and not tracking. */
    method ParkToHome() returns (r: Result<PositionResult>, ghost seen: seq<Property>)
      requires Valid()
      modifies this, t
      ensures Valid() && t.Continues() && old(t.sends) <= t.sends
      ensures forall i :: |old(t.sends)| <= i < |t.sends| && t.sends[i].command == SwitchOn(HomeVector, Go) ==>
        i > |old(t.sends)| && t.sends[|old(t.sends)|].command == SwitchOn(ParkVector, Unpark)
      ensures r.Ok? && r.value.confirmed ==> authority
      ensures r.Ok? && !r.value.confirmed ==> !authority
      ensures r.Ok? && !r.value.confirmed && r.value.error.None? ==>
        && t.tries == old(t.tries) && |t.looks| > |old(t.looks)|
        && var s := t.looks[|old(t.looks)|]; !Ready(s) || !s.parked || s.slewing
      ensures r.Ok? && !r.value.confirmed && r.value.error.Some? ==> t.mishaps > old(t.mishaps) || Faltered(seen)
      ensures r.Err? ==> t.mishaps > old(t.mishaps)
    {
      hide CacheOf, Meets, NoFault, HomeSince, Arrived, OneThenStops, SentBy, Read, Followed;
      var unparked;
      ghost var from;
      unparked, from, seen := UnparkMount();
      if unparked.Err? {
        return Err(unparked.error), seen;
      }
      if !unparked.value.confirmed {
        return Ok(PositionResult(false, unparked.value.error, unparked.value.stop)), seen;
      }
      r, seen := MoveToHome(false);
    }
  }

  /** UNPARK, and TRACK_OFF if the mount was seen tracking. */
  predicate UnparkSent(sent: seq<Sent>) {
    && 1 <= |sent| <= 2 && sent[0].command == SwitchOn(ParkVector, Unpark)
    && (|sent| == 2 ==> sent[1].command == SwitchOn(TrackState, TrackOff))
  }

  lemma AlreadyOff(seen: seq<Property>, from: int, s: Sent, base: nat, since: seq<Vector>)
    requires Followed(OffPark(false), seen, from, s, base, since)
    requires !Decoded(Some(seen[|seen| - 1])).value.tracking
    ensures Followed(OffPark(true), seen, from, s, base, since)
  {
    hide CacheOf, Fresh, NoFault;
  }

  lemma OvertakenToo(t: IndiTransport, c: Command)
    requires c.SwitchOn? && Overtaken(t, c, OffPark(true))
    ensures Overtaken(t, c, OffPark(false)) && !Decoded(Overtaker(t)).value.tracking
  {}

  // ---- an unpark confirmed by a status from before its command -------------------------------

  const PARK_VECTOR := Vector(ParkVector, Switch, Some(Okay), Some(true), map[Park := On, Unpark := Off])

  const AWAY := Gu(false, true, false, false, false, false, false, false, true, false)

  const PARKED := AWAY.(parked := true, unparkedFlag := false)

  lemma EarlyCaches(first: seq<Vector>)
    requires first == [PARK_VECTOR, Reporting(PARKED)]
    ensures Lookup(CacheOf(0, first), ParkVector) == Some(Property(Switch, Okay, true, PARK_VECTOR.values, 1))
    ensures Lookup(CacheOf(0, first), Status) == Some(Reported(PARKED, 2))
    ensures Lookup(CacheOf(0, first + [Reporting(AWAY)]), Status) == Some(Reported(AWAY, 3))
    ensures NoFault(Reported(AWAY, 3)) && Meets(OffPark(true), Reported(AWAY, 3))
  {
    CachePush(0, [], PARK_VECTOR);
    CachePush(0, [PARK_VECTOR], Reporting(PARKED));
    CachePush(0, first, Reporting(AWAY));
    assert [] + [PARK_VECTOR] == [PARK_VECTOR] && [PARK_VECTOR] + [Reporting(PARKED)] == first;
    assert forall m: map<Element, Value> :: map[] + m == m;
    assert map[Report := Flags(PARKED)] + map[Report := Flags(AWAY)] == map[Report := Flags(AWAY)];
  }

  /** Somebody else unparks the mount between the reading of the status and the UNPARK: the
      status that shows it confirms a command it is older than. */
  method UnparkConfirmedTooEarly() returns (r: Result<()>, ghost sent: seq<Sent>, ghost seen: seq<Property>)
    ensures r.Ok? && |sent| == 1 && sent[0].command == SwitchOn(ParkVector, Unpark)
    ensures seen != [] && seen[|seen| - 1].revision <= sent[0].at
  {
    hide HomeSince, SentBy, Followed, Fresh, CacheOf, Meets, NoFault;
    var calm := Bringing([], None);
    var first := [PARK_VECTOR, Reporting(PARKED)];
    var t := new IndiTransport([Bringing(first, None), calm, Bringing([Reporting(AWAY)], None), calm, calm]);
    var connected := t.Connect(None);
    EarlyCaches(first);
    assert t.since == first && |t.sends| == 1;
    assert Overtaken(t, SwitchOn(ParkVector, Unpark), OffPark(true));
    var router := new Router(t);
    ghost var from;
    r, from, seen := router.LeavePark();
    sent := t.sends[1..];
  }
}
