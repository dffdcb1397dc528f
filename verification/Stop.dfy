/** The verified stop of the mount. */
module Stop {
  import opened Common
  import opened Indi
  import opened Transport
  import opened Confirmation

  datatype StopError = AbortFailed | TrackingOffFailed | StatusFailed | NotConfirmedInTime

  datatype StopResult = StopResult(abortAccepted: bool, trackingOffAccepted: bool, confirmed: bool,
                                   polls: nat, errors: seq<StopError>)

  /** The commands a stop has sent, all of them before the revision counter passed `now`. */
  ghost predicate StopSends(sends: seq<Sent>, abort: bool, trackingOff: bool, now: int) {
    && |sends| == (if abort then 1 else 0) + (if trackingOff then 1 else 0)
    && (abort ==> sends[0].command == SwitchOn(AbortMotion, Abort))
    && (trackingOff ==> sends[|sends| - 1].command == SwitchOn(TrackState, TrackOff))
    && forall s :: s in sends ==> s.at <= now
  }

  predicate OnlyStops(sends: seq<Sent>) {
    forall s :: s in sends ==> s.command == SwitchOn(AbortMotion, Abort) || s.command == SwitchOn(TrackState, TrackOff)
  }

  const BOTH := [SwitchOn(AbortMotion, Abort), SwitchOn(TrackState, TrackOff)]

  /** An attempt that returned, or failed in a way the stop goes on after. */
  predicate GoesOn(attempt: Result<int>) { attempt.Ok? || Caught(attempt.error) }

  /** Tries ABORT and then TRACK_OFF. The second is tried exactly when the first returned or
      failed with an exception that is caught; any other exception leaves it untried. */
  method SendStop(t: IndiTransport) returns (r: Result<(bool, bool)>, ghost abort: Result<int>)
    requires t.Valid()
    modifies t
    ensures t.tries == old(t.tries) + if GoesOn(abort) then BOTH else BOTH[..1]
    ensures !GoesOn(abort) ==> r == Err(abort.error) && t.sends == old(t.sends)
    ensures old(t.Issuable(AbortMotion, Switch, {Abort}) && !t.closed && !t.Head().breaks) ==>
      abort == if old(t.Head()).trouble.Some? then Err(old(t.Head()).trouble.value)
               else Ok(old(t.Cached(AbortMotion)).value.revision)
    ensures t.Valid() && t.Continues() && t.looks == old(t.looks) && t.stops == old(t.stops) && t.checks == old(t.checks)
    ensures r.Err? ==> r.error == OtherError
    ensures old(t.tries) <= t.tries && old(t.sends) <= t.sends && OnlyStops(t.sends[|old(t.sends)|..])
    ensures r.Ok? ==> GoesOn(abort) && r.value.0 == abort.Ok?
    ensures t.mishaps == old(t.mishaps) <==> r == Ok((true, true))
    ensures r.Ok? ==> StopSends(t.sends[|old(t.sends)|..], r.value.0, r.value.1, t.revision)
  {
    hide CacheOf, SentBy;
    var aborted := t.IssueSwitch(AbortMotion, Abort);
    abort := aborted;
    if aborted.Err? && !Caught(aborted.error) {
      return Err(aborted.error), abort;
    }
    var off := t.IssueSwitch(TrackState, TrackOff);
    if off.Err? && !Caught(off.error) {
      return Err(off.error), abort;
    }
    r := Ok((aborted.Ok?, off.Ok?));
  }

  /** One turn of the wait: the time limit, and a status newer than `last`. */
  method NextRest(t: IndiTransport, last: int) returns (update: Option<Property>, error: Option<StopError>)
    requires t.Valid()
    modifies t`properties, t`revision, t`since, t`world, t`failure, t`mishaps
    ensures t.Valid() && t.Continues()
    ensures if update.Some? then error == None && t.mishaps == old(t.mishaps)
            else error.Some? && t.mishaps > old(t.mishaps)
    ensures update.Some? ==>
      t.Cached(Status) == update && update.value.revision > last && |t.world| < |old(t.world)|
    ensures error == Some(NotConfirmedInTime) <==> old(t.Head()).time.Expired?
    ensures error.Some? ==> error.value in {NotConfirmedInTime, StatusFailed}
  {
    hide CacheOf, SentBy, IndiTransport.Passed, IndiTransport.Still;
    var clock := t.Clock();
    if clock.Expired? {
      return None, Some(NotConfirmedInTime);
    }
    var next := t.WaitProperty(Status, last);
    if next.Err? {
      return None, Some(StatusFailed);
    }
    update, error := Some(next.value), None;
  }

  /** Waits for two status updates in a row, newer than any so far, that show the mount at rest. */
  method AwaitRest(t: IndiTransport)
    returns (polls: nat, error: Option<StopError>, ghost from: int, ghost seen: seq<Property>)
    requires t.Valid()
    modifies t
    ensures t.Valid() && t.Continues() && t.Quiet() && t.checks == old(t.checks)
    ensures old(t.revision) <= from
    ensures Fresh(seen, from, Status, t.base, t.since) && IsStreak(AtRest, seen, polls)
    ensures polls <= 2 && (error == None <==> polls == 2) && (error == None <==> t.mishaps == old(t.mishaps))
    ensures error.Some? ==> Unmet(AtRest, seen, 2) && error.value in {NotConfirmedInTime, StatusFailed}
  {
    hide CacheOf, Meets, IsStreak, Fresh, SentBy, Unmet, IndiTransport.Passed, IndiTransport.Still;
    var current := t.GetProperty(Status);
    ghost var asked := t.since;
    var after := RevisionOf(current);
    from, seen, polls := t.revision, [], 0;
    StartFresh(AtRest, from, Status, t.base, t.since);
    NothingMet(AtRest, 2);
    while polls < 2
      invariant t.Valid() && t.Continues() && t.Quiet() && t.checks == old(t.checks) && t.mishaps == old(t.mishaps)
      invariant asked <= t.since && from == t.base + |asked|
      invariant seen == [] ==> after == RevisionOf(Lookup(CacheOf(t.base, asked), Status))
      invariant seen != [] ==> after == LastRevision(seen, from)
      invariant Fresh(seen, from, Status, t.base, t.since) && IsStreak(AtRest, seen, polls) && polls <= 2
      invariant polls < 2 ==> Unmet(AtRest, seen, 2)
      decreases |t.world|
    {
      ghost var was, before := t.since, seen;
      var update;
      update, error := NextRest(t, after);
      FreshGrows(seen, from, Status, t.base, was, t.since);
      if update.None? {
        return;
      }
      if seen == [] {
        NewerMeansReceived(t.base, asked, t.since, Status);
      }
      WaitedIsFresh(seen, update.value, from, Status, t.base, t.since);
      StreakPush(AtRest, seen, polls, update.value);
      seen := seen + [update.value];
      after := update.value.revision;
      polls := if Meets(AtRest, update.value) then polls + 1 else 0;
      if polls < 2 {
        StillUnmet(AtRest, before, update.value, polls, 2);
      }
    }
    error := None;
  }

  /** Stops the mount. Accepted commands alone are never taken for a stop: it counts as
      confirmed if and only if nothing went wrong, and then both commands went out and after
      both of them two status updates in a row showed the mount at rest. */
  method StopMount(t: IndiTransport)
    returns (r: Result<StopResult>, ghost abort: Result<int>, ghost from: int, ghost seen: seq<Property>)
    requires t.Valid()
    modifies t
    ensures t.Valid() && t.Continues() && t.looks == old(t.looks) && t.checks == old(t.checks)
    ensures t.stops == old(t.stops) + 1
    ensures r.Err? ==> r.error == OtherError
    ensures t.tries == old(t.tries) + if GoesOn(abort) then BOTH else BOTH[..1]
    ensures !GoesOn(abort) ==> r == Err(abort.error) && t.sends == old(t.sends)
    ensures old(t.Issuable(AbortMotion, Switch, {Abort}) && !t.closed && !t.Head().breaks) ==>
      abort == if old(t.Head()).trouble.Some? then Err(old(t.Head()).trouble.value)
               else Ok(old(t.Cached(AbortMotion)).value.revision)
    ensures old(t.sends) <= t.sends && OnlyStops(t.sends[|old(t.sends)|..])
    ensures r.Ok? ==> StopSends(t.sends[|old(t.sends)|..], r.value.abortAccepted, r.value.trackingOffAccepted, from)
    ensures r.Ok? ==> (r.value.confirmed <==> r.value.errors == [])
    ensures r.Ok? ==> Fresh(seen, from, Status, t.base, t.since) && IsStreak(AtRest, seen, r.value.polls)
    ensures r.Ok? ==>
      (r.value.confirmed <==> r.value.abortAccepted && r.value.trackingOffAccepted && r.value.polls == 2)
    ensures r.Ok? && r.value.confirmed ==> Confirmed(AtRest, seen, from, Status, t.base, t.since)
    ensures r.Ok? && r.value.confirmed <==> t.mishaps == old(t.mishaps)
    ensures r.Ok? && r.value.polls < 2 ==> Unmet(AtRest, seen, 2)
    ensures r.Ok? ==>
      && (AbortFailed in r.value.errors <==> !r.value.abortAccepted)
      && (TrackingOffFailed in r.value.errors <==> !r.value.trackingOffAccepted)
      && (NotConfirmedInTime in r.value.errors || StatusFailed in r.value.errors <==> r.value.polls < 2)
  {
    hide CacheOf, Meets, IsStreak, Fresh, Confirmed, SentBy, Unmet, IndiTransport.Passed, IndiTransport.Still;
    t.stops := t.stops + 1;
    from, seen := t.revision, [];
    var sent;
    sent, abort := SendStop(t);
    if sent.Err? {
      return Err(sent.error), abort, from, seen;
    }
    var (aborted, off) := sent.value;
    var errors := (if aborted then [] else [AbortFailed]) + (if off then [] else [TrackingOffFailed]);
    var polls, error;
    polls, error, from, seen := AwaitRest(t);
    errors := errors + if error.Some? then [error.value] else [];
    if polls == 2 {
      StreakConfirms(AtRest, seen, polls, from, Status, t.base, t.since);
    }
    r := Ok(StopResult(aborted, off, polls >= 2 && errors == [], polls, errors));
  }

  /** The client's stop: refused, and still counted, when the connection is not open. */
  method EmergencyStop(t: IndiTransport) returns (r: Result<StopResult>)
    requires t.Valid()
    modifies t
    ensures t.Valid() && t.Continues() && t.looks == old(t.looks) && t.checks == old(t.checks)
    ensures t.stops == old(t.stops) + 1
    ensures r.Err? ==> r.error == OtherError || r.error == ConnectionError
    ensures old(t.tries) <= t.tries && old(t.sends) <= t.sends && OnlyStops(t.sends[|old(t.sends)|..])
    ensures r.Ok? ==> t.tries == old(t.tries) + BOTH
    ensures r == Err(ConnectionError) <==> old(t.closed || t.failure)
    ensures t.tries == old(t.tries) <==> old(t.closed || t.failure)
    ensures old(t.tries) <= t.tries && t.tries[|old(t.tries)|..] <= BOTH
    ensures !old(t.closed || t.failure) ==> (r.Ok? && r.value.confirmed <==> t.mishaps == old(t.mishaps))
  {
    hide CacheOf, SentBy;
    if t.closed || t.failure {
      t.stops := t.stops + 1;
      return Err(ConnectionError);
    }
    ghost var abort, from, seen;
    r, abort, from, seen := StopMount(t);
  }

  const ABORT_VECTOR := Vector(AbortMotion, Switch, Some(Okay), Some(true), map[Abort := Off])

  /** The two attempts are not independent of every failure: on this script the socket fails the
      abort with an exception that no clause names, and TRACK_OFF is never tried. */
  method AbortFailureSkipsTrackOff() returns (r: Result<StopResult>, ghost tries: seq<Command>)
    ensures r == Err(OtherError) && tries == [SwitchOn(AbortMotion, Abort)]
  {
    hide SentBy;
    var t := new IndiTransport([Bringing([ABORT_VECTOR], None), Bringing([], Some(OtherError))]);
    var connected := t.Connect(None);
    CachePush(t.base, [], ABORT_VECTOR);
    assert t.since == [] + [ABORT_VECTOR];
    ghost var abort, from, seen;
    r, abort, from, seen := StopMount(t);
    tries := t.tries;
  }
}
