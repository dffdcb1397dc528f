/** The serial mount's guard against tracking that nobody asked for: reading the state may
    disable tracking, and disabling tracking reads the state. */
module TrackingGuard {
  import opened Common

  datatype Status = Status(parked: bool, slewing: bool, atLimit: bool, tracking: bool)

  datatype MountState = Unknown | Parked | Slewing | AtLimit | Tracking | Unparked

  function StateOf(s: Status): MountState {
    if s.parked then Parked
    else if s.slewing then Slewing
    else if s.atLimit then AtLimit
    else if s.tracking then Tracking
    else Unparked
  }

  /** Parked hides slewing, slewing a limit, and a limit tracking. */
  lemma StateIff(s: Status)
    ensures StateOf(s) == Parked <==> s.parked
    ensures StateOf(s) == Slewing <==> s.slewing && !s.parked
    ensures StateOf(s) == AtLimit <==> s.atLimit && !s.slewing && !s.parked
    ensures StateOf(s) == Tracking <==> s == Status(false, false, false, true)
    ensures StateOf(s) == Unparked <==> s == Status(false, false, false, false)
  {}

  /** What the serial line does next: a status, silence or an exception; whether a time-out is
      one of the bus; and whether the time for an attempt is over. */
  datatype Reply = Says(status: Status) | Silent | Raises(e: Error)
  datatype Moment = Moment(reply: Reply, late: bool)

  const THE_END := Moment(Raises(TimeoutError), true)

  /** No status was ever returned, or the last one shows no tracking. */
  predicate SeenStill(last: Option<Status>) { last.None? || !last.value.tracking }

  class OnStepMount {
    var requested: bool           // tracking was explicitly requested
    var suppressed: bool          // the guard is held back while it acts
    var last: Option<Status>      // the last status the controller returned
    var script: seq<Moment>
    ghost var statuses: seq<Status>   // every status the controller returned
    ghost var nesting: nat        // verified disables under way
    ghost var deepest: nat        // the most there ever were
    ghost var failed: nat         // verified disables that gave up
    ghost var commands: nat       // how often TRACK_OFF was written

    /** The last status is the last of all that were returned. */
    ghost predicate Remembers()
      reads this
    {
      last == if statuses == [] then None else Some(statuses[|statuses| - 1])
    }

    /** The next moments are an answer the disable goes on after, one in time, and silence. */
    predicate SilenceFollows()
      reads this
    {
      && |script| >= 3 && (script[0].reply.Raises? ==> script[0].reply.e == TimeoutError)
      && !script[1].late && script[2].reply.Silent?
    }

    /** Between calls nothing is under way; the guard's own disable is the only one inside another. */
    ghost predicate Calm()
      reads this
    {
      nesting <= (if suppressed then 1 else 0) && nesting <= deepest <= 2
    }

    constructor (moments: seq<Moment>)
      ensures Calm() && !suppressed && nesting == 0 && deepest == 0 && last == None && script == moments
      ensures Remembers() && statuses == [] && failed == 0 && commands == 0
    {
      requested, suppressed, last, script, statuses := false, false, None, moments, [];
      nesting, deepest, failed, commands := 0, 0, 0, 0;
    }

    method Next() returns (m: Moment)
      modifies this`script
      ensures if old(script) == [] then script == [] && m == THE_END
              else m == old(script)[0] && script == old(script)[1..]
    {
      if script == [] {
        m := THE_END;
      } else {
        m, script := script[0], script[1..];
      }
    }

    /** Reads the state. TRACKING is returned only when tracking was requested, the guard is held
        back, or a disable gave up; any other state but UNKNOWN is that of a status just seen
        without tracking. */
    method GetState() returns (r: Result<MountState>)
      requires nesting <= (if suppressed then 2 else 1) && deepest <= 2 && Remembers()
      modifies this
      ensures suppressed == old(suppressed) && nesting == old(nesting) && deepest <= 2 && requested == old(requested)
      ensures |script| <= |old(script)| && failed >= old(failed) && Remembers() && old(statuses) <= statuses
      ensures r == Ok(Tracking) ==> old(requested) || suppressed || failed > old(failed)
      ensures failed > old(failed) ==> r == Ok(Tracking) && failed == old(failed) + 1 && commands == old(commands) + 2
      ensures old(commands) <= commands <= old(commands) + 2 && deepest >= old(deepest)
      ensures old(requested || suppressed) ==> failed == old(failed) && commands == old(commands)
      ensures r == Ok(Unknown) ==> last == old(last)
      ensures r.Ok? && r.value != Tracking && r.value != Unknown ==>
        last.Some? && !last.value.tracking && r.value == StateOf(last.value)
      ensures r == Ok(Unknown) ==> statuses == old(statuses)
      ensures old(script != [] && script[0].reply.Silent?) ==> r == Ok(Unknown)
      ensures old(script != [] && script[0].reply.Says? && !script[0].reply.status.tracking) ==>
        && r.Ok? && statuses == old(statuses) + [old(script)[0].reply.status]
        && script == old(script)[1..] && failed == old(failed)
      decreases if suppressed then 0 else 1, 1
    {
      var m := Next();
      if m.reply.Raises? {
        return Err(m.reply.e);
      }
      if m.reply.Silent? {
        return Ok(Unknown);
      }
      last, statuses := Some(m.reply.status), statuses + [m.reply.status];
      if m.reply.status.tracking {
        if !requested && !suppressed {
          var disabled := DisableUnrequested();
          if disabled.Err? {
            return Err(disabled.error);
          }
          if disabled.value {
            return Ok(StateOf(last.value));
          }
        }
        return Ok(Tracking);
      }
      r := Ok(StateOf(m.reply.status));
    }

    /** The guard acts: it disables tracking while holding itself back. */
    method DisableUnrequested() returns (r: Result<bool>)
      requires !suppressed && nesting <= 1 && deepest <= 2 && Remembers()
      modifies this
      ensures !suppressed && nesting == old(nesting) && deepest <= 2 && requested == (old(requested) && r != Ok(true))
      ensures |script| <= |old(script)| && failed >= old(failed) && Remembers() && old(statuses) <= statuses
      ensures r == Ok(true) ==> SeenStill(last) && !requested
      ensures failed == old(failed) + (if r == Ok(false) then 1 else 0) && deepest >= old(deepest)
      ensures old(commands) < commands <= old(commands) + 2 && (r == Ok(false) ==> commands == old(commands) + 2)
      decreases 1, 0
    {
      suppressed := true;
      r := DisableVerified(2);
      suppressed := false;
    }

    /** Disables tracking and trusts the status alone. Success means that the last status the
        controller returned, if it ever returned one, shows no tracking. That status is one of
        this call exactly when this call got any; otherwise success rests on what was known before. */
    method DisableVerified(attempts: int) returns (r: Result<bool>)
      requires nesting <= (if suppressed then 1 else 0) && deepest <= 2 && Remembers()
      modifies this
      ensures suppressed == old(suppressed) && nesting == old(nesting) && old(nesting) < deepest <= 2 && deepest >= old(deepest)
      ensures requested == (old(requested) && r != Ok(true))
      ensures |script| <= |old(script)| && failed >= old(failed) && Remembers() && old(statuses) <= statuses
      ensures r == Ok(true) ==> SeenStill(last) && !requested
      ensures r == Ok(false) ==> failed > old(failed)
      ensures r == Ok(false) ==> commands >= old(commands) + if attempts < 1 then 1 else attempts
      ensures commands > old(commands)
      ensures suppressed ==>
        && failed == old(failed) + (if r == Ok(false) then 1 else 0)
        && commands <= old(commands) + if attempts < 1 then 1 else attempts
      ensures r == Ok(true) ==> (last.Some? && !last.value.tracking <==> statuses != [])
      ensures r == Ok(true) && statuses == old(statuses) ==> SeenStill(old(last))
      ensures old(SilenceFollows() && SeenStill(last)) ==> r == Ok(true) && statuses == old(statuses)
      decreases if suppressed then 0 else 1, 3
    {
      nesting := nesting + 1;
      deepest := if nesting > deepest then nesting else deepest;
      r := Attempts(if attempts < 1 then 1 else attempts);
      nesting := nesting - 1;
      if r.Ok? {
        if r.value {
          requested := false;
        } else {
          failed := failed + 1;
        }
      }
    }

    /** At most `count` attempts, up to the first that succeeds or raises. */
    method Attempts(count: nat) returns (r: Result<bool>)
      requires count > 0 && 1 <= nesting <= (if suppressed then 2 else 1) && nesting <= deepest <= 2 && Remembers()
      modifies this
      ensures suppressed == old(suppressed) && nesting == old(nesting) && old(deepest) <= deepest <= 2
      ensures requested == old(requested)
      ensures |script| <= |old(script)| && failed >= old(failed) && Remembers() && old(statuses) <= statuses
      ensures r == Ok(true) ==> SeenStill(last)
      ensures commands > old(commands) && (r == Ok(false) ==> commands >= old(commands) + count)
      ensures suppressed ==> failed == old(failed) && commands <= old(commands) + count
      ensures statuses == old(statuses) ==> last == old(last)
      ensures old(SilenceFollows() && SeenStill(last)) ==> r == Ok(true) && statuses == old(statuses)
      decreases if suppressed then 0 else 1, 2, 2
    {
      var i := 0;
      r := Ok(false);
      while i < count
        invariant 0 <= i <= count && r == Ok(false)
        invariant old(SilenceFollows() && SeenStill(last)) ==>
          i == 0 && script == old(script) && last == old(last) && statuses == old(statuses)
        invariant statuses == old(statuses) ==> last == old(last)
        invariant suppressed == old(suppressed) && nesting == old(nesting) && old(deepest) <= deepest <= 2
        invariant requested == old(requested) && commands >= old(commands) + i
        invariant suppressed ==> failed == old(failed) && commands == old(commands) + i
        invariant |script| <= |old(script)| && failed >= old(failed) && Remembers() && old(statuses) <= statuses
      {
        i := i + 1;
        r := OneAttempt();
        if r.Err? || r.value {
          return;
        }
      }
    }

    /** The command, whose answer counts for nothing, and then the polls. */
    method OneAttempt() returns (r: Result<bool>)
      requires 1 <= nesting <= (if suppressed then 2 else 1) && deepest <= 2 && Remembers()
      modifies this
      ensures suppressed == old(suppressed) && nesting == old(nesting) && deepest <= 2 && requested == old(requested)
      ensures |script| <= |old(script)| && failed >= old(failed) && Remembers() && old(statuses) <= statuses
      ensures r == Ok(true) ==> SeenStill(last)
      ensures commands > old(commands) && deepest >= old(deepest)
      ensures suppressed ==> failed == old(failed) && commands == old(commands) + 1
      ensures old(SilenceFollows() && SeenStill(last)) ==> r == Ok(true) && statuses == old(statuses)
      decreases if suppressed then 0 else 1, 2, 1
    {
      commands := commands + 1;
      var stop := Next();
      if stop.reply.Raises? && stop.reply.e != TimeoutError {
        return Err(stop.reply.e);
      }
      var done := PollUntilStill();
      r := Ok(done);
    }

    /** Polls until a status shows no tracking or the time of this attempt is over; a failing poll
        counts as tracking. */
    method PollUntilStill() returns (done: bool)
      requires 1 <= nesting <= (if suppressed then 2 else 1) && deepest <= 2 && Remembers()
      modifies this
      ensures suppressed == old(suppressed) && nesting == old(nesting) && deepest <= 2 && requested == old(requested)
      ensures |script| <= |old(script)| && failed >= old(failed) && Remembers() && old(statuses) <= statuses
      ensures done ==> SeenStill(last)
      ensures commands >= old(commands) && deepest >= old(deepest)
      ensures suppressed ==> failed == old(failed) && commands == old(commands)
      ensures old(|script| >= 2 && !script[0].late && script[1].reply.Silent? && SeenStill(last)) ==>
        done && statuses == old(statuses)
      decreases if suppressed then 0 else 1, 2, 0
    {
      while true
        invariant suppressed == old(suppressed) && nesting == old(nesting) && deepest <= 2
        invariant requested == old(requested) && commands >= old(commands) && deepest >= old(deepest)
        invariant suppressed ==> failed == old(failed) && commands == old(commands)
        invariant |script| <= |old(script)| && failed >= old(failed) && Remembers() && old(statuses) <= statuses
        invariant old(|script| >= 2 && !script[0].late && script[1].reply.Silent? && SeenStill(last)) ==>
          script == old(script) && last == old(last) && statuses == old(statuses)
        decreases |script|
      {
        if script == [] || script[0].late {
          return false;
        }
        var clock := Next();
        var state := GetState();
        if state.Err? {
          continue;
        }
        if SeenStill(last) {
          return true;
        }
      }
    }
  }

  /** A controller that never answers is taken for one that stopped tracking. */
  method SilentControllerSucceeds() returns (r: Result<bool>, last: Option<Status>)
    ensures r == Ok(true) && last == None
  {
    var silence := Moment(Silent, false);
    var m := new OnStepMount([silence, silence, silence]);
    r := m.DisableVerified(2);
    last := m.last;
  }

  /** So is one that falls silent after a status without tracking: no status follows the command. */
  method OldStatusSucceeds(s: Status) returns (r: Result<bool>, ghost since: seq<Status>)
    requires !s.tracking
    ensures r == Ok(true) && since == []
  {
    var silence := Moment(Silent, false);
    var m := new OnStepMount([Moment(Says(s), false), silence, silence, silence]);
    var state := m.GetState();
    ghost var before := m.statuses;
    r := m.DisableVerified(2);
    since := m.statuses[|before|..];
  }
}
