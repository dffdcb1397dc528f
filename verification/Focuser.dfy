/** Bounded focuser moves through the shared INDI connection. */
module Focuser {
  import opened Common
  import opened Indi
  import opened Transport
  import opened Confirmation

  datatype FocuserStatus = FocuserStatus(position: Option<int>, driverMaximum: Option<int>, ready: bool)

  function StatusOf(open: bool, connection: Option<Property>, position: Option<Property>, maximum: Option<Property>,
                    configured: Option<int>, stale: bool): FocuserStatus
  {
    var p, m := Integer(position, Position), Integer(maximum, Maximum);
    FocuserStatus(p, m,
      && open && Holds(connection, Connect, On)
      && p.Some? && p.value >= 0 && m.Some? && m.value > 0 && p.value <= m.value
      && configured.Some? && p.value <= configured.value
      && !stale && position.value.light != Alert && maximum.value.light != Alert
      && position.value.light != Busy)
  }

  /** Some reception of the driver's maximum allowed this position. */
  ghost predicate WithinDriver(target: int, base: nat, since: seq<Vector>) {
    exists p :: Taken(p, FocusMaximum, base, since) &&
      Integer(Some(p), Maximum).Some? && target <= Integer(Some(p), Maximum).value
  }

  lemma WithinGrows(target: int, base: nat, before: seq<Vector>, since: seq<Vector>)
    requires WithinDriver(target, base, before) && before <= since
    ensures WithinDriver(target, base, since)
  {
    hide CacheOf, Integer;
    var p :| Taken(p, FocusMaximum, base, before) &&
      Integer(Some(p), Maximum).Some? && target <= Integer(Some(p), Maximum).value;
    assert before[..p.revision - base] == since[..p.revision - base];
    assert Taken(p, FocusMaximum, base, since);
  }

  lemma AtMostWithin(target: int, maximum: int, base: nat, since: seq<Vector>)
    requires WithinDriver(maximum, base, since) && target <= maximum
    ensures WithinDriver(target, base, since)
  {
    hide CacheOf, Integer, Taken;
  }

  /** `error` is the exception that ended the move; a refusal counts as a RuntimeError. */
  datatype MoveResult = MoveResult(reached: bool, final: Option<int>, stopConfirmed: Option<bool>, error: Option<Error>)

  function PositionCommand(target: int): Command { Numbers(FocusPosition, map[Position := target as real]) }

  /** At rest: the last three updates show one position, the last two of them as okay. */
  ghost predicate Rested(seen: seq<Property>) {
    && |seen| >= 3 && seen[|seen| - 1].light == Okay && seen[|seen| - 2].light == Okay
    && Integer(Some(seen[|seen| - 1]), Position).Some?
    && Integer(Some(seen[|seen| - 1]), Position) == Integer(Some(seen[|seen| - 2]), Position)
    && Integer(Some(seen[|seen| - 2]), Position) == Integer(Some(seen[|seen| - 3]), Position)
  }

  /** The update at `i` is okay and repeats the position before it. */
  predicate Repeat(seen: seq<Property>, i: nat)
    requires 0 < i < |seen|
  {
    seen[i].light == Okay && Integer(Some(seen[i]), Position) == Integer(Some(seen[i - 1]), Position)
  }

  /** `n` updates at the end are okay and repeat the position before them; one more is not. */
  predicate Repeats(seen: seq<Property>, n: nat) {
    && (n > 0 ==> n < |seen|)
    && (forall i :: |seen| - n <= i < |seen| && 0 < i ==> Repeat(seen, i))
    && (n + 1 < |seen| ==> !Repeat(seen, |seen| - n - 1))
  }

  lemma RepeatsPush(seen: seq<Property>, n: nat, p: Property)
    requires Repeats(seen, n)
    ensures Repeats(seen + [p],
      if seen != [] && p.light == Okay && Integer(Some(p), Position) == Integer(Some(seen[|seen| - 1]), Position) then n + 1 else 0)
  {
    hide Integer;
    assert forall i :: 0 < i < |seen| ==> Repeat(seen + [p], i) == Repeat(seen, i);
  }

  /** At no time did three updates show the focuser at rest. */
  ghost predicate NeverRested(seen: seq<Property>) { forall k: nat :: k <= |seen| ==> !Rested(seen[..k]) }

  lemma StillNotRested(seen: seq<Property>, p: Property, n: nat)
    requires NeverRested(seen)
    requires p.light == Alert || Integer(Some(p), Position).None? || (Repeats(seen + [p], n) && n < 2)
    ensures NeverRested(seen + [p])
  {
    hide Integer, Rested;
    forall k: nat | k <= |seen| + 1 ensures !Rested((seen + [p])[..k]) {
      if k <= |seen| {
        assert (seen + [p])[..k] == seen[..k];
      } else {
        assert (seen + [p])[..k] == seen + [p];
        NotRested(seen + [p], n);
      }
    }
  }

  lemma NotRested(seen: seq<Property>, n: nat)
    requires seen != [] && var p := seen[|seen| - 1];
      p.light == Alert || Integer(Some(p), Position).None? || (Repeats(seen, n) && n < 2)
    ensures !Rested(seen)
  {
    hide Integer, Rested, Repeat;
    RestedIff(seen);
  }

  lemma RestedIff(seen: seq<Property>)
    ensures Rested(seen) <==>
      && |seen| >= 3 && Repeat(seen, |seen| - 1) && Repeat(seen, |seen| - 2)
      && Integer(Some(seen[|seen| - 1]), Position).Some? && seen[|seen| - 1].light == Okay
  {
    hide Integer;
  }

  /** An element shows this whole number. */
  ghost predicate ShowsNumber(p: Option<Property>, e: Element, n: int) { Holds(p, e, Num(n as real)) }

  lemma IntegerIff(p: Option<Property>, e: Element, n: int)
    ensures Integer(p, e) == Some(n) <==> ShowsNumber(p, e, n)
  {}

  /** Exactly when the focuser may move: connected, at a whole position of its range and within both
      limits, recently reported and neither moving nor in alarm. */
  lemma ReadyIff(on: Readings, configured: Option<int>)
    ensures StatusOf(on.open, on.connection, on.position, on.maximum, configured, on.stale).ready <==>
      && on.open && Holds(on.connection, Connect, On) && !on.stale
      && configured.Some? && on.position.Some? && on.maximum.Some?
      && on.position.value.light in {Idle, Okay} && on.maximum.value.light in {Idle, Okay, Busy}
      && exists n: int, m: int :: ShowsNumber(on.position, Position, n) && ShowsNumber(on.maximum, Maximum, m)
                                  && 0 <= n <= m && 1 <= m && n <= configured.value
  {
    hide Integer, ShowsNumber;
    var s := StatusOf(on.open, on.connection, on.position, on.maximum, configured, on.stale);
    forall n ensures (Integer(on.position, Position) == Some(n) <==> ShowsNumber(on.position, Position, n)) {
      IntegerIff(on.position, Position, n);
    }
    forall m ensures (Integer(on.maximum, Maximum) == Some(m) <==> ShowsNumber(on.maximum, Maximum, m)) {
      IntegerIff(on.maximum, Maximum, m);
    }
    if s.ready {
      assert ShowsNumber(on.position, Position, s.position.value) && ShowsNumber(on.maximum, Maximum, s.driverMaximum.value);
    }
  }

  /** What a status was read from, each property at its own moment. */
  datatype Readings = Readings(open: bool, connection: Option<Property>, position: Option<Property>,
                               maximum: Option<Property>, stale: bool)

  /** The cache entry after some reception, not before the first `from` of them. */
  ghost predicate WasCached(p: Option<Property>, name: Name, from: nat, base: nat, since: seq<Vector>) {
    exists n: nat :: from <= n <= |since| && Lookup(CacheOf(base, since[..n]), name) == p
  }

  lemma CachedEarlier(p: Option<Property>, name: Name, from: nat, base: nat, earlier: seq<Vector>, since: seq<Vector>)
    requires p == Lookup(CacheOf(base, earlier), name) && from <= |earlier| && earlier <= since
    ensures WasCached(p, name, from, base, since)
  {
    hide CacheOf;
    assert since[..|earlier|] == earlier;
  }

  lemma WasCachedGrows(p: Option<Property>, name: Name, from: nat, base: nat, before: seq<Vector>, since: seq<Vector>)
    requires WasCached(p, name, from, base, before) && before <= since
    ensures WasCached(p, name, from, base, since)
  {
    hide CacheOf;
    var n: nat :| from <= n <= |before| && Lookup(CacheOf(base, before[..n]), name) == p;
    assert before[..n] == since[..n];
  }

  /** The properties a status was read from were cached since. */
  ghost predicate ReadSince(on: Readings, from: nat, base: nat, since: seq<Vector>) {
    && WasCached(on.connection, Connection, from, base, since)
    && WasCached(on.position, FocusPosition, from, base, since)
    && WasCached(on.maximum, FocusMaximum, from, base, since)
  }

  lemma ReadyMeans(on: Readings, configured: Option<int>)
    ensures var s := StatusOf(on.open, on.connection, on.position, on.maximum, configured, on.stale);
      s.ready ==>
        && s.position.Some? && s.driverMaximum.Some? && configured.Some? && s.driverMaximum == Integer(on.maximum, Maximum)
        && 0 <= s.position.value <= s.driverMaximum.value && s.position.value <= configured.value
  {
    hide Integer;
  }

  lemma MaximumWasReceived(maximum: Option<Property>, base: nat, since: seq<Vector>)
    requires maximum == Lookup(CacheOf(base, since), FocusMaximum) && Integer(maximum, Maximum).Some?
    ensures WithinDriver(Integer(maximum, Maximum).value, base, since)
  {
    hide CacheOf, Taken;
    LatestIsTaken(maximum.value, FocusMaximum, base, since);
  }

  /** The last update was an alarm or no whole position, or went beyond the driver's maximum, which
      also has to allow the target. */
  ghost predicate Astray(seen: seq<Property>, limit: Option<Property>, target: int, from: nat, base: nat, since: seq<Vector>) {
    seen != [] &&
    var p, n, m := seen[|seen| - 1], Integer(Some(seen[|seen| - 1]), Position), Integer(limit, Maximum);
    || p.light == Alert || n.None?
    || (WasCached(limit, FocusMaximum, from, base, since) && (m.None? || m.value < target || m.value < n.value))
  }

  lemma AstrayGrows(seen: seq<Property>, limit: Option<Property>, target: int, from: nat, base: nat, before: seq<Vector>,
                    since: seq<Vector>)
    requires before <= since
    ensures Astray(seen, limit, target, from, base, before) ==> Astray(seen, limit, target, from, base, since)
  {
    hide Integer, WasCached;
    if WasCached(limit, FocusMaximum, from, base, before) {
      WasCachedGrows(limit, FocusMaximum, from, base, before, since);
    }
  }

  lemma AstrayEarlier(seen: seq<Property>, limit: Option<Property>, target: int, earlier: nat, from: nat, base: nat,
                      since: seq<Vector>)
    requires earlier <= from
    ensures Astray(seen, limit, target, from, base, since) ==> Astray(seen, limit, target, earlier, base, since)
  {
    hide Integer, CacheOf;
  }

  lemma ReadSinceGrows(on: Readings, from: nat, base: nat, before: seq<Vector>, since: seq<Vector>)
    requires ReadSince(on, from, base, before) && before <= since
    ensures ReadSince(on, from, base, since)
  {
    hide WasCached;
    WasCachedGrows(on.connection, Connection, from, base, before, since);
    WasCachedGrows(on.position, FocusPosition, from, base, before, since);
    WasCachedGrows(on.maximum, FocusMaximum, from, base, before, since);
  }

  /** The last update was an alarm or no whole position. */
  ghost predicate Unsound(seen: seq<Property>) {
    seen != [] && (seen[|seen| - 1].light == Alert || Integer(Some(seen[|seen| - 1]), Position).None?)
  }

  /** No two updates in a row showed the target as okay, but for a last one under a driver's maximum
      that no longer allowed it. */
  ghost predicate Missed(seen: seq<Property>, limit: Option<Property>, target: int) {
    || Unmet(Focused(target), seen, 2)
    || (seen != [] && Unmet(Focused(target), seen[..|seen| - 1], 2) && var m := Integer(limit, Maximum);
        m.None? || m.value < target || Integer(Some(seen[|seen| - 1]), Position).None? ||
        m.value < Integer(Some(seen[|seen| - 1]), Position).value)
  }

  lemma NothingMissed(target: int)
    ensures Missed([], None, target)
  {}

  lemma MissedSoFar(seen: seq<Property>, limit: Option<Property>, target: int)
    ensures Unmet(Focused(target), seen, 2) ==> Missed(seen, limit, target)
  {}

  lemma MissedLast(seen: seq<Property>, p: Property, n: nat, limit: Option<Property>, target: int, from: nat, base: nat,
                   since: seq<Vector>)
    requires Unmet(Focused(target), seen, 2) && IsStreak(Focused(target), seen, n) && n < 2
    requires Astray([p], limit, target, from, base, since)
    ensures Missed(seen + [p], limit, target) && Astray(seen + [p], limit, target, from, base, since)
  {
    hide Integer, Unmet, IsStreak, WasCached;
    assert (seen + [p])[..|seen|] == seen;
    if !Meets(Focused(target), p) {
      StreakPush(Focused(target), seen, n, p);
      StillUnmet(Focused(target), seen, p, 0, 2);
    }
  }

  lemma TakenIsFresh(seen: seq<Property>, p: Property, after: int, name: Name, base: nat, since: seq<Vector>)
    requires Fresh(seen, after, name, base, since)
    requires Taken(p, name, base, since) && p.revision > LastRevision(seen, after)
    ensures Fresh(seen + [p], after, name, base, since)
  {
    hide Taken;
  }

  class FocuserDriver {
    const t: IndiTransport
    const configuredMaximum: Option<int>

    constructor (transport: IndiTransport, maximum: Option<int>)
      ensures t == transport && configuredMaximum == maximum
    {
      t, configuredMaximum := transport, maximum;
    }

    method GetStatus() returns (s: FocuserStatus, ghost on: Readings)
      requires t.Valid()
      modifies t`properties, t`revision, t`since, t`world, t`failure
      ensures t.Valid() && t.Continues()
      ensures s == StatusOf(on.open, on.connection, on.position, on.maximum, configuredMaximum, on.stale)
      ensures ReadSince(on, |old(t.since)|, t.base, t.since) && on.open == (!t.closed && !t.failure)
      ensures on.stale == (|old(t.world)| <= 3 || old(t.world)[3].coordinatesAged)
      ensures s.ready ==>
        && s.position.Some? && s.driverMaximum.Some? && configuredMaximum.Some?
        && 0 <= s.position.value <= s.driverMaximum.value && s.position.value <= configuredMaximum.value
        && WithinDriver(s.driverMaximum.value, t.base, t.since)
    {
      hide CacheOf, Integer, StatusOf, WithinDriver, WasCached;
      ghost var from := |t.since|;
      var connection := t.GetProperty(Connection);
      ghost var first := t.since;
      var position := t.GetProperty(FocusPosition);
      ghost var second := t.since;
      var maximum := t.GetProperty(FocusMaximum);
      ghost var asked := t.since;
      var m := t.Pass();
      CachedEarlier(connection, Connection, from, t.base, first, t.since);
      CachedEarlier(position, FocusPosition, from, t.base, second, t.since);
      CachedEarlier(maximum, FocusMaximum, from, t.base, asked, t.since);
      s := StatusOf(!t.closed && !t.failure, connection, position, maximum, configuredMaximum, m.coordinatesAged);
      on := Readings(!t.closed && !t.failure, connection, position, maximum, m.coordinatesAged);
      ReadyMeans(on, configuredMaximum);
      if s.ready {
        MaximumWasReceived(maximum, t.base, asked);
        WithinGrows(s.driverMaximum.value, t.base, asked, t.since);
      }
    }

    /** Moves only within both limits. A move that had to travel is reached only when two updates
        in a row, newer than the last before the command, showed the target as okay. Every
        caught failure after the attempt asks the focuser to stop. */
    method MoveAbsolute(target: int) returns (r: Result<MoveResult>, ghost on: Readings, ghost after: int, ghost seen: seq<Property>,
               ghost limit: Option<Property>, ghost rest: seq<Property>)
      requires t.Valid()
      modifies t
      ensures t.Valid() && t.Continues() && t.looks == old(t.looks) && t.stops == old(t.stops)
      ensures t.tries != old(t.tries) ==>
        && |t.tries| > |old(t.tries)| && t.tries[|old(t.tries)|] == PositionCommand(target)
        && configuredMaximum.Some? && 0 <= target <= configuredMaximum.value && WithinDriver(target, t.base, t.since)
      ensures r.Ok? && r.value.reached ==> r.value.final == Some(target) && r.value.error == None
      ensures r.Ok? && r.value.reached && t.tries == old(t.tries) ==> t.sends == old(t.sends)
      ensures r.Ok? && r.value.reached && t.tries != old(t.tries) ==>
        && t.tries == old(t.tries) + [PositionCommand(target)]
        && OneMore(old(t.sends), t.sends, PositionCommand(target))
        && Confirmed(Focused(target), seen, after, FocusPosition, t.base, t.since)
        && seen != [] && seen[|seen| - 1].revision > t.sends[|old(t.sends)|].at
        && forall p :: p in seen ==> p.light != Alert && Integer(Some(p), Position).Some?
      ensures r.Ok? && !r.value.reached && t.tries != old(t.tries) ==>
        && t.tries == old(t.tries) + [PositionCommand(target), SwitchOn(FocusAbort, Abort)]
        && r.value.stopConfirmed.Some? && r.value.error.Some?
      ensures ReadSince(on, |old(t.since)|, t.base, t.since)
      ensures var s := StatusOf(on.open, on.connection, on.position, on.maximum, configuredMaximum, on.stale);
        && (!s.ready ==> r == Ok(MoveResult(false, s.position, None, Some(RuntimeError))))
        && (s.ready && !(0 <= target <= s.driverMaximum.value && target <= configuredMaximum.value) ==> r == Err(ValueError))
        && (s.ready && target == s.position.value ==> r == Ok(MoveResult(true, Some(target), None, None)))
        && (t.tries == old(t.tries) <==>
              !s.ready || target == s.position.value ||
              !(0 <= target <= s.driverMaximum.value && target <= configuredMaximum.value))
      ensures t.tries == old(t.tries) ==> t.sends == old(t.sends)
      ensures r.Ok? && !r.value.reached && t.tries != old(t.tries) ==>
        || t.mishaps > old(t.mishaps) || LastStopped(old(t.checks), t.checks)
        || Astray(seen, limit, target, |old(t.since)|, t.base, t.since)
      ensures r.Err? && t.tries != old(t.tries) ==> t.mishaps > old(t.mishaps) && !Caught(r.error)
      ensures r.Ok? && r.value.stopConfirmed == Some(false) ==> t.mishaps > old(t.mishaps) || Unsound(rest)
      ensures r.Ok? && r.value.stopConfirmed == Some(false) ==> NeverRested(rest)
      ensures !(r.Ok? && r.value.reached) ==> Missed(seen, limit, target)
    {
      hide CacheOf, Meets, IsStreak, Fresh, Integer, SentBy, Confirmed, WithinDriver, StatusOf, WasCached, Astray, Unsound, Missed, NeverRested;
      hide IndiTransport.Passed, IndiTransport.Still;
      after, seen, limit, rest := -1, [], None, [];
      NothingMissed(target);
      var before;
      before, on := GetStatus();
      ghost var asked := t.since;
      ReadyMeans(on, configuredMaximum);
      if !before.ready {
        r := Ok(MoveResult(false, before.position, None, Some(RuntimeError)));
        return;
      }
      if target < 0 || target > before.driverMaximum.value || target > configuredMaximum.value {
        r := Err(ValueError);
        return;
      }
      if target == before.position.value {
        r := Ok(MoveResult(true, Some(target), None, None));
        return;
      }
      AtMostWithin(target, before.driverMaximum.value, t.base, asked);
      r, after, seen, limit, rest := MoveAndStop(target);
      WithinGrows(target, t.base, asked, t.since);
      ReadSinceGrows(on, |old(t.since)|, t.base, asked, t.since);
      AstrayEarlier(seen, limit, target, |old(t.since)|, |asked|, t.base, t.since);
    }

    /** The move beyond its checks, and the stop after a caught failure. */
    method MoveAndStop(target: int)
      returns (r: Result<MoveResult>, ghost after: int, ghost seen: seq<Property>, ghost limit: Option<Property>,
               ghost rest: seq<Property>)
      requires t.Valid()
      modifies t
      ensures t.Valid() && t.Continues() && t.looks == old(t.looks) && t.stops == old(t.stops)
      ensures |t.tries| > |old(t.tries)| && t.tries[|old(t.tries)|] == PositionCommand(target)
      ensures r.Ok? && r.value.reached ==> r.value.final == Some(target) && r.value.error == None
      ensures r.Ok? && r.value.reached ==>
        && t.tries == old(t.tries) + [PositionCommand(target)]
        && OneMore(old(t.sends), t.sends, PositionCommand(target))
        && Confirmed(Focused(target), seen, after, FocusPosition, t.base, t.since)
        && seen != [] && seen[|seen| - 1].revision > t.sends[|old(t.sends)|].at
        && forall p :: p in seen ==> p.light != Alert && Integer(Some(p), Position).Some?
      ensures r.Ok? && !r.value.reached ==>
        && t.tries == old(t.tries) + [PositionCommand(target), SwitchOn(FocusAbort, Abort)]
        && r.value.stopConfirmed.Some? && r.value.error.Some?
      ensures r.Ok? && !r.value.reached ==>
        || t.mishaps > old(t.mishaps) || LastStopped(old(t.checks), t.checks)
        || Astray(seen, limit, target, |old(t.since)|, t.base, t.since)
      ensures r.Err? ==> t.mishaps > old(t.mishaps) && !Caught(r.error)
      ensures r.Ok? && r.value.stopConfirmed == Some(false) ==> t.mishaps > old(t.mishaps) || Unsound(rest)
      ensures r.Ok? && r.value.stopConfirmed == Some(false) ==> NeverRested(rest)
      ensures !(r.Ok? && r.value.reached) ==> Missed(seen, limit, target)
    {
      hide CacheOf, Meets, IsStreak, Fresh, Integer, SentBy, Confirmed, WithinDriver, WasCached, Astray, Unsound, Missed, NeverRested;
      hide IndiTransport.Passed, IndiTransport.Still;
      after, seen, limit, rest := -1, [], None, [];
      var current := t.GetProperty(FocusPosition);
      ghost var from := |t.since|;
      var last := RevisionOf(current);
      after := last;
      var moved: Result<int>;
      moved, seen, limit := Travel(target, last);
      ghost var was := t.since;
      if moved.Ok? {
        r := Ok(MoveResult(true, Some(moved.value), None, None));
        return;
      }
      if !Caught(moved.error) {
        r := Err(moved.error);
        return;
      }
      var stopped;
      stopped, rest := StopUnlocked();
      if stopped.Err? && !Caught(stopped.error) {
        r := Err(stopped.error);
        return;
      }
      AstrayGrows(seen, limit, target, from, t.base, was, t.since);
      AstrayEarlier(seen, limit, target, |old(t.since)|, from, t.base, t.since);
      r := Ok(MoveResult(false, None, Some(stopped.Ok? && stopped.value), Some(moved.error)));
    }

    /** One turn of the waiting loop: a cancellation, the time limit, and an update after `last`,
        which need not come within a slice. */
    method NextPosition(last: int) returns (r: Result<Option<Property>>)
      requires t.Valid()
      modifies t`properties, t`revision, t`since, t`world, t`failure, t`mishaps, t`checks
      ensures t.Valid() && t.Continues()
      ensures r.Ok? ==> |t.world| < |old(t.world)|
      ensures r.Ok? && r.value.Some? ==> t.Cached(FocusPosition) == r.value && r.value.value.revision > last
      ensures r.Ok? && r.value.Some? ==> r.value.value.revision >= RevisionOf(old(t.Cached(FocusPosition)))
      ensures r.Err? ==> r.error in {RuntimeError, TimeoutError, ConnectionError}
      ensures |t.checks| == |old(t.checks)| + 1 && (r == Err(RuntimeError) <==> t.checks[|old(t.checks)|].stop)
      ensures t.mishaps > old(t.mishaps) <==> r.Err? && r.error != RuntimeError
      ensures |old(t.world)| >= 2 && !old(t.world)[1].time.Expired? ==> r != Err(TimeoutError)
      ensures |old(t.world)| >= 2 && !old(t.world)[0].stop && old(t.world)[1].time.Expired? ==> r == Err(TimeoutError)
    {
      hide CacheOf;
      var cancelled := t.StopRequested(true);
      if cancelled {
        return Err(RuntimeError);
      }
      var time := t.Clock();
      if time.Expired? {
        return Err(TimeoutError);
      }
      var update := t.WaitProperty(FocusPosition, last);
      if update.Ok? {
        NotOlder(t.base, old(t.since), t.since, FocusPosition);
        return Ok(Some(update.value));
      }
      if update.error == TimeoutError {
        t.Expected();
        return Ok(None);
      }
      r := Err(update.error);
    }

    /** The command, and then its confirmation by two fresh updates. */
    method Travel(target: int, after: int)
      returns (r: Result<int>, ghost seen: seq<Property>, ghost limit: Option<Property>)
      requires t.Valid()
      modifies t
      ensures t.Valid() && t.Continues() && t.looks == old(t.looks) && t.stops == old(t.stops)
      ensures t.tries == old(t.tries) + [PositionCommand(target)]
      ensures r.Ok? ==>
        && r.value == target && OneMore(old(t.sends), t.sends, PositionCommand(target))
        && Confirmed(Focused(target), seen, after, FocusPosition, t.base, t.since)
        && seen != [] && seen[|seen| - 1].revision > t.sends[|old(t.sends)|].at
        && forall p :: p in seen ==> p.light != Alert && Integer(Some(p), Position).Some?
      ensures r.Err? ==> r.error != Stopped
      ensures r.Err? ==>
        || t.mishaps > old(t.mishaps) || (r.error == RuntimeError &&
             (LastStopped(old(t.checks), t.checks) || Astray(seen, limit, target, |old(t.since)|, t.base, t.since)))
      ensures r.Err? ==> Missed(seen, limit, target)
    {
      hide CacheOf, Integer, SentBy, Confirmed, Vetted, WasCached, IndiTransport.Passed, IndiTransport.Still, Astray, Missed;
      seen, limit := [], None;
      NothingMissed(target);
      var issued := t.IssueNumber(FocusPosition, Position, target as real);
      if issued.Err? {
        return Err(issued.error), seen, limit;
      }
      ghost var from := |t.since|;
      r, seen, limit := AwaitTarget(target, after);
      AstrayEarlier(seen, limit, target, |old(t.since)|, from, t.base, t.since);
    }

    /** One turn of the wait for the target. An update `p` that is an alarm, no whole position, or
        under a driver's maximum `limit` that no longer allows the move puts an end to it. */
    method TargetTurn(target: int, last: int)
      returns (r: Result<Option<Property>>, ghost p: Option<Property>, ghost limit: Option<Property>)
      requires t.Valid()
      modifies t`properties, t`revision, t`since, t`world, t`failure, t`mishaps, t`checks
      ensures t.Valid() && t.Continues()
      ensures r.Ok? ==> r.value == p && |t.world| < |old(t.world)| && t.mishaps == old(t.mishaps)
      ensures p.Some? ==>
        && Taken(p.value, FocusPosition, t.base, t.since) && p.value.revision > last
        && p.value.revision >= RevisionOf(old(t.Cached(FocusPosition)))
      ensures r.Ok? && p.Some? ==> p.value.light != Alert && Integer(p, Position).Some?
      ensures r.Err? ==> r.error != Stopped
      ensures r.Err? && p.None? ==>
        t.mishaps > old(t.mishaps) || (r.error == RuntimeError && LastStopped(old(t.checks), t.checks))
      ensures r.Err? && p.Some? ==>
        r.error == RuntimeError && Astray([p.value], limit, target, |old(t.since)|, t.base, t.since)
    {
      hide CacheOf, Integer, SentBy, WasCached, Taken, IndiTransport.Passed, IndiTransport.Still;
      p, limit := None, None;
      r := NextPosition(last);
      if r.Err? || r.value.None? {
        return;
      }
      p := r.value;
      ghost var was := t.since;
      LatestIsTaken(p.value, FocusPosition, t.base, was);
      var final := Integer(r.value, Position);
      if r.value.value.light == Alert || final.None? {
        r := Err(RuntimeError);
        return;
      }
      var latest := t.GetProperty(FocusMaximum);
      limit := latest;
      TakenGrows(p.value, FocusPosition, t.base, was, t.since);
      CachedEarlier(limit, FocusMaximum, |old(t.since)|, t.base, t.since, t.since);
      var maximum := Integer(latest, Maximum);
      if maximum.None? || maximum.value < target || maximum.value < final.value {
        r := Err(RuntimeError);
      }
    }

    method AwaitTarget(target: int, after: int)
      returns (r: Result<int>, ghost seen: seq<Property>, ghost limit: Option<Property>)
      requires t.Valid()
      modifies t`properties, t`revision, t`since, t`world, t`failure, t`mishaps, t`checks
      ensures t.Valid() && t.Continues()
      ensures r.Ok? ==>
        && r.value == target && Confirmed(Focused(target), seen, after, FocusPosition, t.base, t.since)
        && |seen| >= 2 && seen[|seen| - 1].revision > old(t.revision)
        && forall p :: p in seen ==> p.light != Alert && Integer(Some(p), Position).Some?
      ensures r.Err? ==> r.error != Stopped
      ensures r.Err? ==>
        || t.mishaps > old(t.mishaps) || (r.error == RuntimeError &&
             (LastStopped(old(t.checks), t.checks) || Astray(seen, limit, target, |old(t.since)|, t.base, t.since)))
      ensures r.Err? ==> Missed(seen, limit, target)
    {
      hide CacheOf, Meets, IsStreak, Fresh, Integer, SentBy, Confirmed, Taken, Missed, Unmet, Astray;
      hide IndiTransport.Passed, IndiTransport.Still;
      seen, limit := [], None;
      NothingMet(Focused(target), 2);
      StartFresh(Focused(target), after, FocusPosition, t.base, t.since);
      var stable, last := 0, after;
      while stable < 2
        invariant t.Valid() && t.Continues() && last == LastRevision(seen, after) && stable <= 2 && t.mishaps == old(t.mishaps)
        invariant Fresh(seen, after, FocusPosition, t.base, t.since) && IsStreak(Focused(target), seen, stable)
        invariant stable < 2 ==> Unmet(Focused(target), seen, 2)
        invariant forall p :: p in seen ==> p.light != Alert && Integer(Some(p), Position).Some?
        invariant seen != [] ==> seen[0].revision >= RevisionOf(old(t.Cached(FocusPosition)))
        decreases |t.world|
      {
        ghost var was, before, p := t.since, seen, None;
        var update;
        update, p, limit := TargetTurn(target, last);
        FreshGrows(seen, after, FocusPosition, t.base, was, t.since);
        EntryNeverFalls(t.base, old(t.since), was, FocusPosition);
        if p.Some? {
          TakenIsFresh(seen, p.value, after, FocusPosition, t.base, t.since);
          seen := seen + [p.value];
        }
        if update.Err? {
          if p.Some? {
            AstrayEarlier([p.value], limit, target, |old(t.since)|, |was|, t.base, t.since);
            MissedLast(before, p.value, stable, limit, target, |old(t.since)|, t.base, t.since);
          } else {
            MissedSoFar(seen, limit, target);
          }
          return Err(update.error), seen, limit;
        }
        if update.value.Some? {
          last := update.value.value.revision;
          StreakPush(Focused(target), before, stable, p.value);
          stable := if Meets(Focused(target), update.value.value) then stable + 1 else 0;
          if stable < 2 {
            StillUnmet(Focused(target), before, p.value, stable, 2);
          }
        }
      }
      LaterUpdates(seen, after, FocusPosition, t.base, old(t.since), t.since);
      LongStreak(Focused(target), seen, stable);
      StreakConfirms(Focused(target), seen, stable, after, FocusPosition, t.base, t.since);
      r := Ok(target);
    }

    /** Asks the focuser to stop; true only if three updates then showed it resting in one place. */
    method StopUnlocked() returns (r: Result<bool>, ghost seen: seq<Property>)
      requires t.Valid()
      modifies t
      ensures t.Valid() && t.Continues() && t.looks == old(t.looks) && t.stops == old(t.stops)
      ensures t.tries == old(t.tries) + [SwitchOn(FocusAbort, Abort)] && t.checks == old(t.checks)
      ensures r.Ok? && r.value ==> Rested(seen) && Fresh(seen, seen[0].revision - 1, FocusPosition, t.base, t.since)
      ensures r.Ok? && r.value ==>
        && OneMore(old(t.sends), t.sends, SwitchOn(FocusAbort, Abort))
        && forall i :: 1 <= i < |seen| ==> seen[i].revision > t.sends[|old(t.sends)|].at
      ensures r.Err? ==> r.error != Stopped
      ensures r == Ok(true) ==> t.mishaps == old(t.mishaps)
      ensures r == Ok(false) ==> t.mishaps > old(t.mishaps) || Unsound(seen)
      ensures r.Err? ==> t.mishaps > old(t.mishaps)
      ensures r != Ok(true) ==> NeverRested(seen)
    {
      hide CacheOf, Fresh, Integer, SentBy, Repeats, Rested, NeverRested, IndiTransport.Passed, IndiTransport.Still;
      seen := [];
      NothingRested();
      var current := t.GetProperty(FocusPosition);
      var requested := t.RequestSwitch(FocusAbort, Abort);
      if requested.Err? {
        return Err(requested.error), seen;
      }
      r, seen := AwaitStill(RevisionOf(current));
    }

    method AwaitStill(after: int) returns (r: Result<bool>, ghost seen: seq<Property>)
      requires t.Valid()
      modifies t`properties, t`revision, t`since, t`world, t`failure, t`mishaps
      ensures t.Valid() && t.Continues()
      ensures r.Ok? && r.value ==> Rested(seen) && Fresh(seen, seen[0].revision - 1, FocusPosition, t.base, t.since)
      ensures r.Ok? && r.value ==> forall i :: 1 <= i < |seen| ==> seen[i].revision > old(t.revision)
      ensures r.Err? ==> r.error != Stopped
      ensures r == Ok(true) ==> t.mishaps == old(t.mishaps)
      ensures r == Ok(false) ==> t.mishaps > old(t.mishaps) || Unsound(seen)
      ensures r.Err? ==> t.mishaps > old(t.mishaps)
      ensures r != Ok(true) ==> NeverRested(seen)
    {
      hide CacheOf, Fresh, Integer, SentBy, Repeats, Rested, NeverRested, IndiTransport.Passed, IndiTransport.Still;
      seen := [];
      NothingRested();
      StartFresh(AtRest, after, FocusPosition, t.base, t.since);
      NoRepeats();
      var stable, last, previous := 0, after, None;
      while stable < 2
        invariant t.Valid() && t.Continues() && t.mishaps == old(t.mishaps)
        invariant last == LastRevision(seen, after) && Fresh(seen, after, FocusPosition, t.base, t.since)
        invariant Repeats(seen, stable) && stable <= 2 && (stable > 0 ==> seen != [])
        invariant stable < 2 ==> NeverRested(seen)
        invariant previous == if seen == [] then None else Integer(Some(seen[|seen| - 1]), Position)
        invariant seen != [] ==> previous.Some? && seen[0].revision >= RevisionOf(old(t.Cached(FocusPosition)))
        decreases |t.world|
      {
        ghost var was := t.since;
        var time := t.Clock();
        if time.Expired? {
          return Ok(false), seen;
        }
        var update := t.WaitProperty(FocusPosition, last);
        FreshGrows(seen, after, FocusPosition, t.base, was, t.since);
        if update.Err? {
          return if update.error == TimeoutError then Ok(false) else Err(update.error), seen;
        }
        var p := update.value;
        NotOlder(t.base, old(t.since), t.since, FocusPosition);
        WaitedIsFresh(seen, p, after, FocusPosition, t.base, t.since);
        var position := Integer(Some(p), Position);
        if position.None? || p.light == Alert {
          StillNotRested(seen, p, stable);
          return Ok(false), seen + [p];
        }
        RepeatsPush(seen, stable, p);
        stable := if p.light == Okay && position == previous then stable + 1 else 0;
        if stable < 2 {
          StillNotRested(seen, p, stable);
        }
        seen, last, previous := seen + [p], p.revision, position;
      }
      RestsAfterTwo(seen, after, t.base, t.since);
      LaterUpdates(seen, after, FocusPosition, t.base, old(t.since), t.since);
      r := Ok(true);
    }
  }

  lemma LongStreak(goal: Goal, seen: seq<Property>, n: nat)
    requires IsStreak(goal, seen, n)
    ensures |seen| >= n
  {
    hide Meets;
  }

  lemma NoRepeats() ensures Repeats([], 0) {}

  lemma NothingRested() ensures NeverRested([]) {}

  lemma RestsAfterTwo(seen: seq<Property>, after: int, base: nat, since: seq<Vector>)
    requires Repeats(seen, 2) && Fresh(seen, after, FocusPosition, base, since)
    requires Integer(Some(seen[|seen| - 1]), Position).Some?
    ensures Rested(seen) && Fresh(seen, seen[0].revision - 1, FocusPosition, base, since)
  {
    hide CacheOf, Integer, Rested;
    assert Repeat(seen, |seen| - 1) && Repeat(seen, |seen| - 2);
    RestedIff(seen);
  }
}
