/** Meridian boundaries derived from the controller's guards, and the supervisor that enforces
    the hard stop while the client runs. */
module Meridian {
  import opened Common
  import opened Indi

  /** Degrees of hour angle per second of sidereal tracking. */
  const RATE := 360.0 / 86164.0905

  datatype Policy = Policy(guard: real, flip: real, hardStop: real, secondsFlipToStop: real, maxExposure: real,
                           allowance: real, reserve: real)

  function Derive(eastMinutes: real, westMinutes: real, lead: real, margin: real, allowance: real, reserve: real,
                  flipRequest: Option<real>, hardStopRequest: Option<real>): Result<Policy>
  {
    if eastMinutes <= 0.0 || westMinutes <= 0.0 then Err(ValueError)
    else if lead <= margin || margin <= 0.0 then Err(ValueError)
    else if allowance <= 0.0 || reserve < 0.0 then Err(ValueError)
    else
      var guard := Min(eastMinutes, westMinutes) / 4.0;
      var flip := if flipRequest.Some? then flipRequest.value else guard - lead;
      var stop := if hardStopRequest.Some? then hardStopRequest.value else guard - margin;
      if !(0.0 < flip < stop < guard) then Err(ValueError)
      else
        var seconds := (stop - flip) / RATE;
        var budget := seconds - allowance - reserve;
        if budget < 0.0 then Err(ValueError)
        else Ok(Policy(guard, flip, stop, seconds, budget, allowance, reserve))
  }

  /** The boundaries are in order, below both guards, and leave time for a flip. */
  predicate Sound(p: Policy) {
    && 0.0 < p.flip < p.hardStop < p.guard
    && 0.0 <= p.maxExposure && 0.0 < p.allowance && 0.0 <= p.reserve
    && p.secondsFlipToStop == p.maxExposure + p.allowance + p.reserve
    && p.flip + RATE * p.secondsFlipToStop == p.hardStop
  }

  /** An accepted policy is sound and keeps below either guard, four minutes to a degree. */
  lemma DerivedIsSound(eastMinutes: real, westMinutes: real, lead: real, margin: real, allowance: real, reserve: real,
                       flipRequest: Option<real>, hardStopRequest: Option<real>)
    requires Derive(eastMinutes, westMinutes, lead, margin, allowance, reserve, flipRequest, hardStopRequest).Ok?
    ensures var p := Derive(eastMinutes, westMinutes, lead, margin, allowance, reserve, flipRequest, hardStopRequest).value;
      && Sound(p) && 4.0 * p.guard <= eastMinutes && 4.0 * p.guard <= westMinutes
      && (flipRequest.Some? ==> p.flip == flipRequest.value) && (hardStopRequest.Some? ==> p.hardStop == hardStopRequest.value)
  {}

  /** With boundaries derived from the guard, a policy exists exactly when the guard leaves time
      for the flip, its reserve and the lead. */
  lemma DerivableIff(eastMinutes: real, westMinutes: real, lead: real, margin: real, allowance: real, reserve: real)
    requires 0.0 < margin < lead && 0.0 < allowance && 0.0 <= reserve
    ensures Derive(eastMinutes, westMinutes, lead, margin, allowance, reserve, None, None).Ok? <==>
      4.0 * lead < eastMinutes && 4.0 * lead < westMinutes && RATE * (allowance + reserve) <= lead - margin
  {}

  /** In general: the inputs are in order, the boundaries, requested or a lead and a margin short of
      the nearer guard, come in order before it, and a flip with its reserve fits between them.
      Anything else is refused. */
  lemma DerivesIff(eastMinutes: real, westMinutes: real, lead: real, margin: real, allowance: real, reserve: real,
                   flipRequest: Option<real>, hardStopRequest: Option<real>)
    ensures var nearer := if eastMinutes < westMinutes then eastMinutes else westMinutes;
      var flip := if flipRequest == None then nearer / 4.0 - lead else flipRequest.value;
      var stop := if hardStopRequest == None then nearer / 4.0 - margin else hardStopRequest.value;
      var r := Derive(eastMinutes, westMinutes, lead, margin, allowance, reserve, flipRequest, hardStopRequest);
      && (r.Ok? <==>
            && nearer > 0.0 && 0.0 < margin < lead && allowance > 0.0 && reserve >= 0.0
            && 0.0 < flip && flip < stop && 4.0 * stop < nearer && 360.0 * (allowance + reserve) <= 86164.0905 * (stop - flip))
      && (r.Ok? ==>
            && r.value.flip == flip && r.value.hardStop == stop && 4.0 * r.value.guard == nearer
            && r.value.allowance == allowance && r.value.reserve == reserve
            && 360.0 * (r.value.maxExposure + allowance + reserve) == 86164.0905 * (stop - flip))
      && (r.Err? ==> r.error == ValueError)
  {}

  // ---- classification ------------------------------------------------------------------------

  datatype Phase = MechanicalTerminal | FirmwareLimit | Unknown | PreMeridian | PostMeridian | FlipRequired | HardStop
                 | PostFlip

  datatype State = State(phase: Phase, flipRequired: bool, stopRequired: bool, toFlip: Option<real>, toStop: Option<real>,
                         latestFlipStart: Option<real>)

  /** Everything a verdict on the hour angle needs is live. */
  predicate Authoritative(s: Snapshot) {
    s.statusLive && s.coordinatesLive && s.timeSite && s.ha.Some? && s.side.Some? &&
    PierConflict !in s.blockers && DeviceDisconnected !in s.blockers
  }

  function Classify(s: Snapshot, p: Policy): State {
    if s.parked || s.atHome then State(Phase.MechanicalTerminal, false, false, None, None, None)
    else if s.atLimit && s.statusLive then State(FirmwareLimit, false, s.tracking || s.slewing, None, None, None)
    else if !Authoritative(s) then State(Phase.Unknown, false, false, None, None, None)
    else
      var ha := s.ha.value;
      var toFlip, toStop := (p.flip - ha) / RATE, (p.hardStop - ha) / RATE;
      var phase :=
        if s.side == Some(SideWest) then PostFlip
        else if ha < 0.0 then PreMeridian
        else if ha < p.flip then PostMeridian
        else if ha < p.hardStop then FlipRequired
        else HardStop;
      State(phase, phase.FlipRequired? || phase.HardStop?, phase.HardStop? && (s.tracking || s.slewing),
            Some(toFlip), Some(toStop), Some(toStop - p.allowance - p.reserve))
  }

  /** A mount that points somewhere known: neither at rest in a stored pose nor at a live limit, with
      the hour angle, the pier side and all they rest on live and undisputed. */
  predicate Places(s: Snapshot) {
    && !s.parked && !s.atHome && (s.atLimit ==> !s.statusLive)
    && s.statusLive && s.coordinatesLive && s.timeSite && s.ha != None && s.side != None
    && s.blockers !! {PierConflict, DeviceDisconnected}
  }

  /** Each phase, exactly. */
  lemma PhaseIff(s: Snapshot, p: Policy)
    requires Sound(p)
    ensures var v := Classify(s, p).phase;
      && (v == Phase.MechanicalTerminal <==> s.parked || s.atHome)
      && (v == FirmwareLimit <==> s.atLimit && s.statusLive && !s.parked && !s.atHome)
      && (v == Phase.Unknown <==> !Places(s) && !s.parked && !s.atHome && !(s.atLimit && s.statusLive))
      && (v == PostFlip <==> Places(s) && s.side == Some(SideWest))
      && (v == PreMeridian <==> Places(s) && s.side == Some(SideEast) && s.ha.value < 0.0)
      && (v == PostMeridian <==> Places(s) && s.side == Some(SideEast) && 0.0 <= s.ha.value < p.flip)
      && (v == FlipRequired <==> Places(s) && s.side == Some(SideEast) && p.flip <= s.ha.value < p.hardStop)
      && (v == HardStop <==> Places(s) && s.side == Some(SideEast) && p.hardStop <= s.ha.value)
  {
    assert s.blockers !! {PierConflict, DeviceDisconnected} <==>
      PierConflict !in s.blockers && DeviceDisconnected !in s.blockers;
    assert s.side.Some? ==> s.side.value == SideEast || s.side.value == SideWest;
  }

  /** A flip is required from its boundary on, on pier side east; the times reported lead to the two
      boundaries at the sidereal rate, and there are none without a known place. */
  lemma VerdictIs(s: Snapshot, p: Policy)
    requires Sound(p)
    ensures var v := Classify(s, p);
      && (v.flipRequired <==> Places(s) && s.side == Some(SideEast) && p.flip <= s.ha.value)
      && (v.toFlip.Some? <==> Places(s)) && (v.toStop.Some? <==> Places(s)) && (v.latestFlipStart.Some? <==> Places(s))
      && (Places(s) ==>
            && 86164.0905 * (p.flip - s.ha.value) == 360.0 * v.toFlip.value
            && 86164.0905 * (p.hardStop - s.ha.value) == 360.0 * v.toStop.value
            && v.latestFlipStart.value + p.allowance + p.reserve == v.toStop.value)
  {
    assert s.blockers !! {PierConflict, DeviceDisconnected} <==>
      PierConflict !in s.blockers && DeviceDisconnected !in s.blockers;
    assert s.side.Some? ==> s.side.value == SideEast || s.side.value == SideWest;
  }

  /** Exactly when a stop is asked for: the mount moves, and either a live status shows the
      firmware limit, or the hour angle is known to have reached the hard stop on pier side east. */
  lemma StopRequiredIff(s: Snapshot, p: Policy)
    requires Sound(p)
    ensures Classify(s, p).stopRequired <==>
      && !s.parked && !s.atHome && (s.tracking || s.slewing)
      && ((s.atLimit && s.statusLive) || (Authoritative(s) && s.side == Some(SideEast) && p.hardStop <= s.ha.value))
  {
    assert s.side.Some? ==> s.side.value == SideEast || s.side.value == SideWest;
  }

  /** Missing authority alone never stops a mount. */
  lemma NoAuthorityNoStop(s: Snapshot, p: Policy)
    requires !Authoritative(s) && !(s.atLimit && s.statusLive)
    ensures !Classify(s, p).stopRequired && !Classify(s, p).flipRequired
  {}

  /** How far a phase on pier side east has got. */
  function Rank(phase: Phase): int {
    match phase
    case PreMeridian => 0
    case PostMeridian => 1
    case FlipRequired => 2
    case HardStop => 3
    case _ => -1
  }

  /** While the hour angle grows on pier side east, the phases only advance. */
  lemma PhasesAdvance(s: Snapshot, t: Snapshot, p: Policy)
    requires Sound(p) && Authoritative(s) && Authoritative(t)
    requires s.side == Some(SideEast) && t.side == Some(SideEast) && s.ha.value <= t.ha.value
    requires !s.parked && !s.atHome && !s.atLimit && !t.parked && !t.atHome && !t.atLimit
    ensures 0 <= Rank(Classify(s, p).phase) <= Rank(Classify(t, p).phase)
    ensures Classify(s, p).flipRequired ==> Classify(t, p).flipRequired
  {}

  /** An exposure no longer than the maximum, begun before the flip is required, still leaves
      the flip and its reserve before the hard stop. */
  lemma ExposureFits(s: Snapshot, p: Policy, exposure: real)
    requires Sound(p) && Classify(s, p).phase in {PreMeridian, PostMeridian} && exposure <= p.maxExposure
    ensures s.ha.value + RATE * (exposure + p.allowance + p.reserve) < p.hardStop
  {}

  /** A flip begun by the latest start the state reports ends, with its reserve, by the hard stop. */
  lemma LatestFlipStartFits(s: Snapshot, p: Policy, wait: real)
    requires Sound(p) && Classify(s, p).latestFlipStart.Some? && wait <= Classify(s, p).latestFlipStart.value
    ensures s.ha.value + RATE * (wait + p.allowance + p.reserve) <= p.hardStop
  {}

  // ---- the supervisor ------------------------------------------------------------------------

  const STOP_INTERVAL := 3.0

  /** One tick: the clock when the interval is checked and when the stop is noted, and the sample. */
  datatype Tick = Tick(now: real, noted: real, sample: Snapshot)

  datatype Watch = Watch(phase: Option<Phase>, lastStopAt: real)

  predicate Stops(w: Watch, k: Tick, p: Policy) {
    Classify(k.sample, p).stopRequired && k.now - w.lastStopAt >= STOP_INTERVAL
  }

  function Next(w: Watch, k: Tick, p: Policy): Watch {
    Watch(Some(Classify(k.sample, p).phase), if Stops(w, k, p) then k.noted else w.lastStopAt)
  }

  class Supervisor {
    const policy: Policy
    var phase: Option<Phase>
    var lastStopAt: real
    var latest: Option<State>

    ghost function View(): Watch
      reads this
    {
      Watch(phase, lastStopAt)
    }

    constructor (p: Policy)
      ensures policy == p && View() == Watch(None, 0.0) && latest == None
    {
      policy, phase, lastStopAt, latest := p, None, 0.0, None;
    }

    /** Tells whether a transition was reported and whether the stop was called. */
    method TickOnce(k: Tick) returns (transition: bool, stopped: bool)
      modifies this
      ensures View() == Next(old(View()), k, policy) && latest == Some(Classify(k.sample, policy))
      ensures stopped <==> Stops(old(View()), k, policy)
      ensures transition <==> phase != old(phase)
    {
      var state := Classify(k.sample, policy);
      latest := Some(state);
      transition := Some(state.phase) != phase;
      if transition {
        phase := Some(state.phase);
      }
      stopped := state.stopRequired && k.now - lastStopAt >= STOP_INTERVAL;
      if stopped {
        lastStopAt := k.noted;
      }
    }
  }

  /** The supervisor after the first ticks of a run. */
  function After(w: Watch, ticks: seq<Tick>, p: Policy): Watch {
    if ticks == [] then w else Next(After(w, ticks[..|ticks| - 1], p), ticks[|ticks| - 1], p)
  }

  predicate StopsAt(w: Watch, ticks: seq<Tick>, p: Policy, i: nat)
    requires i < |ticks|
  {
    Stops(After(w, ticks[..i], p), ticks[i], p)
  }

  predicate InOrder(ticks: seq<Tick>) {
    && (forall i :: 0 <= i < |ticks| ==> ticks[i].now <= ticks[i].noted)
    && (forall i, j :: 0 <= i < j < |ticks| ==> ticks[i].noted <= ticks[j].now)
  }

  lemma AfterStep(w: Watch, ticks: seq<Tick>, p: Policy, i: nat)
    requires i < |ticks|
    ensures After(w, ticks[..i + 1], p) == Next(After(w, ticks[..i], p), ticks[i], p)
  {
    assert ticks[..i + 1][..i] == ticks[..i];
  }

  lemma {:induction false} LastStopNeverFalls(w: Watch, ticks: seq<Tick>, p: Policy, i: nat, j: nat)
    requires InOrder(ticks) && i < j <= |ticks| && StopsAt(w, ticks, p, i)
    ensures After(w, ticks[..j], p).lastStopAt >= ticks[i].noted
    decreases j
  {
    hide Classify;
    AfterStep(w, ticks, p, j - 1);
    if i < j - 1 {
      LastStopNeverFalls(w, ticks, p, i, j - 1);
    }
  }

  /** Two stops are at least the interval apart, whatever the samples show. */
  lemma StopsAreApart(w: Watch, ticks: seq<Tick>, p: Policy, i: nat, j: nat)
    requires InOrder(ticks) && i < j < |ticks| && StopsAt(w, ticks, p, i) && StopsAt(w, ticks, p, j)
    ensures ticks[j].now - ticks[i].noted >= 3.0
  {
    hide Classify, After;
    LastStopNeverFalls(w, ticks, p, i, j);
  }

  lemma {:induction false} NoStopBefore(w: Watch, ticks: seq<Tick>, p: Policy, k: nat)
    requires k <= |ticks| && forall i :: 0 <= i < k ==> !Classify(ticks[i].sample, p).stopRequired
    ensures After(w, ticks[..k], p).lastStopAt == w.lastStopAt
    decreases k
  {
    hide Classify;
    if k > 0 {
      AfterStep(w, ticks, p, k - 1);
      NoStopBefore(w, ticks, p, k - 1);
    }
  }

  /** Sidereal tracking on pier side east, every sample fresh and authoritative, the hour angle
      growing at the sidereal rate from `ha` at time zero of the run. */
  predicate SiderealRun(ticks: seq<Tick>, start: real, ha: real) {
    forall i :: 0 <= i < |ticks| ==>
      var s := ticks[i].sample;
      && Authoritative(s) && s.side == Some(SideEast) && s.tracking
      && !s.parked && !s.atHome && !s.atLimit
      && s.ha.value == ha + RATE * (ticks[i].now - start)
  }

  predicate AtMostApart(ticks: seq<Tick>, period: real) {
    forall i :: 0 < i < |ticks| ==> ticks[i].now - ticks[i - 1].now <= period
  }

  /** The first tick at or past the hard stop. */
  function Crossing(ticks: seq<Tick>, p: Policy): (k: nat)
    requires exists i :: 0 <= i < |ticks| && ticks[i].sample.ha.Some? && ticks[i].sample.ha.value >= p.hardStop
    ensures k < |ticks| && ticks[k].sample.ha.Some? && ticks[k].sample.ha.value >= p.hardStop
    ensures forall i :: 0 <= i < k && ticks[i].sample.ha.Some? ==> ticks[i].sample.ha.value < p.hardStop
  {
    if ticks[0].sample.ha.Some? && ticks[0].sample.ha.value >= p.hardStop then 0
    else
      var i :| 0 <= i < |ticks| && ticks[i].sample.ha.Some? && ticks[i].sample.ha.value >= p.hardStop;
      assert ticks[1..][i - 1] == ticks[i];
      Crossing(ticks[1..], p) + 1
  }

  /** The first stop of any run: the first tick at which one is asked for and the clock has passed
      the stop interval since the stop before the run. */
  lemma FirstStopIff(w: Watch, ticks: seq<Tick>, p: Policy, i: nat)
    requires i < |ticks| && forall j :: 0 <= j < i ==> !StopsAt(w, ticks, p, j)
    ensures StopsAt(w, ticks, p, i) <==>
      Classify(ticks[i].sample, p).stopRequired && ticks[i].now - w.lastStopAt >= 3.0
  {
    hide Classify, After;
    QuietSoFar(w, ticks, p, i);
  }

  lemma {:induction false} QuietSoFar(w: Watch, ticks: seq<Tick>, p: Policy, i: nat)
    requires i <= |ticks| && forall j :: 0 <= j < i ==> !StopsAt(w, ticks, p, j)
    ensures After(w, ticks[..i], p).lastStopAt == w.lastStopAt
    decreases i
  {
    hide Classify;
    if i > 0 {
      AfterStep(w, ticks, p, i - 1);
      QuietSoFar(w, ticks, p, i - 1);
      assert !StopsAt(w, ticks, p, i - 1);
    }
  }

  /** The deadline: when the run begins short of the hard stop, no stop comes before the first tick
      at or past it, which lies less than one period's turn beyond, hence before the firmware
      guard for a short enough period; and a stop comes at that tick exactly when the clock has
      passed the stop interval since the last one. */
  lemma StopsInTime(w: Watch, ticks: seq<Tick>, p: Policy, start: real, ha: real, period: real)
    requires Sound(p) && InOrder(ticks) && SiderealRun(ticks, start, ha) && AtMostApart(ticks, period)
    requires |ticks| > 0 && ticks[0].sample.ha.value < p.hardStop
    requires exists i :: 0 <= i < |ticks| && ticks[i].sample.ha.Some? && ticks[i].sample.ha.value >= p.hardStop
    ensures var k := Crossing(ticks, p);
      && (StopsAt(w, ticks, p, k) <==> ticks[k].now - w.lastStopAt >= STOP_INTERVAL)
      && (forall i :: 0 <= i < k ==> !StopsAt(w, ticks, p, i))
      && p.hardStop <= ticks[k].sample.ha.value < p.hardStop + RATE * period
      && (period <= (p.guard - p.hardStop) / RATE ==> ticks[k].sample.ha.value < p.guard)
  {
    hide After, Classify, Crossing, SiderealRun, AtMostApart, Sound, InOrder;
    var k := Crossing(ticks, p);
    CrossingIsClose(ticks, p, start, ha, period);
    NeededFromCrossing(ticks, p, start, ha);
    NoStopBefore(w, ticks, p, k);
  }

  /** At or past the hard stop, and the stop interval since the last stop is over. */
  predicate Due(w: Watch, k: Tick, p: Policy) {
    k.sample.ha.Some? && k.sample.ha.value >= p.hardStop && k.now - w.lastStopAt >= STOP_INTERVAL
  }

  /** The hour angle at which both become true. */
  function DueAngle(w: Watch, p: Policy, start: real, ha: real): real {
    Max(p.hardStop, ha + RATE * (w.lastStopAt + STOP_INTERVAL - start))
  }

  /** The same wherever the run begins and however recent the last stop: the first stop comes at
      the first tick at which both hold, and unless that is the first of all, less than one
      period's turn beyond the angle at which they become true. */
  lemma StopsWhenDue(w: Watch, ticks: seq<Tick>, p: Policy, start: real, ha: real, period: real, k: nat)
    requires Sound(p) && InOrder(ticks) && SiderealRun(ticks, start, ha) && AtMostApart(ticks, period)
    requires k < |ticks| && Due(w, ticks[k], p) && forall i :: 0 <= i < k ==> !Due(w, ticks[i], p)
    ensures StopsAt(w, ticks, p, k) && forall i :: 0 <= i < k ==> !StopsAt(w, ticks, p, i)
    ensures k > 0 ==> ticks[k].sample.ha.value < DueAngle(w, p, start, ha) + RATE * period
    ensures k > 0 && DueAngle(w, p, start, ha) + RATE * period <= p.guard ==> ticks[k].sample.ha.value < p.guard
  {
    hide Classify, After, Sound;
    forall i | 0 <= i <= k
      ensures Classify(ticks[i].sample, p).stopRequired <==> ticks[i].sample.ha.value >= p.hardStop
    {
      StopRequiredIff(ticks[i].sample, p);
    }
    NothingDue(w, ticks, p, k);
    FirstStopIff(w, ticks, p, k);
    if k > 0 {
      BeforeIsClose(ticks, start, ha, period, k);
    }
  }

  lemma {:induction false} NothingDue(w: Watch, ticks: seq<Tick>, p: Policy, k: nat)
    requires k <= |ticks| && forall i :: 0 <= i < k ==>
      !(Classify(ticks[i].sample, p).stopRequired && ticks[i].now - w.lastStopAt >= STOP_INTERVAL)
    ensures forall i :: 0 <= i < k ==> !StopsAt(w, ticks, p, i)
  {
    hide Classify, After;
    if k > 0 {
      NothingDue(w, ticks, p, k - 1);
      FirstStopIff(w, ticks, p, k - 1);
    }
  }

  lemma BeforeIsClose(ticks: seq<Tick>, start: real, ha: real, period: real, k: nat)
    requires SiderealRun(ticks, start, ha) && AtMostApart(ticks, period) && 0 < k < |ticks|
    ensures ticks[k - 1].sample.ha.value == ha + RATE * (ticks[k - 1].now - start)
    ensures ticks[k].sample.ha.value <= ticks[k - 1].sample.ha.value + RATE * period
    ensures ticks[k].now <= ticks[k - 1].now + period
  {
    var a, b := ticks[k - 1].now, ticks[k].now;
    assert ticks[k].sample.ha.value == ha + RATE * (b - start);
    assert b - a <= period;
  }

  lemma CrossingIsClose(ticks: seq<Tick>, p: Policy, start: real, ha: real, period: real)
    requires Sound(p) && InOrder(ticks) && SiderealRun(ticks, start, ha) && AtMostApart(ticks, period)
    requires |ticks| > 0 && ticks[0].sample.ha.value < p.hardStop
    requires exists i :: 0 <= i < |ticks| && ticks[i].sample.ha.Some? && ticks[i].sample.ha.value >= p.hardStop
    ensures var k := Crossing(ticks, p);
      && 0 < k && ticks[0].now <= ticks[k].now
      && p.hardStop <= ticks[k].sample.ha.value < p.hardStop + RATE * period
      && (period <= (p.guard - p.hardStop) / RATE ==> ticks[k].sample.ha.value < p.guard)
  {
    var k := Crossing(ticks, p);
    hide Crossing, Authoritative;
    assert ticks[k - 1].sample.ha.value < p.hardStop;
    assert ticks[k].sample.ha.value == ha + RATE * (ticks[k].now - start);
    assert ticks[k - 1].sample.ha.value == ha + RATE * (ticks[k - 1].now - start);
    assert ticks[k].now - ticks[k - 1].now <= period;
  }

  lemma NeededFromCrossing(ticks: seq<Tick>, p: Policy, start: real, ha: real)
    requires Sound(p) && SiderealRun(ticks, start, ha)
    requires exists i :: 0 <= i < |ticks| && ticks[i].sample.ha.Some? && ticks[i].sample.ha.value >= p.hardStop
    ensures Classify(ticks[Crossing(ticks, p)].sample, p).stopRequired
    ensures forall i :: 0 <= i < Crossing(ticks, p) ==> !Classify(ticks[i].sample, p).stopRequired
  {
    var k := Crossing(ticks, p);
    hide Crossing, Classify;
    StopRequiredIff(ticks[k].sample, p);
    forall i | 0 <= i < k ensures !Classify(ticks[i].sample, p).stopRequired {
      StopRequiredIff(ticks[i].sample, p);
    }
  }

  /** The initial "last stop" is time zero, so a clock that has run for less than the interval
      holds every stop back. */
  lemma YoungClockHoldsBack(ticks: seq<Tick>, p: Policy, i: nat)
    requires i < |ticks| && forall j :: 0 <= j <= i ==> ticks[j].now < STOP_INTERVAL
    ensures After(Watch(None, 0.0), ticks[..i], p).lastStopAt == 0.0 && !StopsAt(Watch(None, 0.0), ticks, p, i)
    decreases i
  {
    hide Classify;
    if i > 0 {
      YoungClockHoldsBack(ticks, p, i - 1);
      AfterStep(Watch(None, 0.0), ticks, p, i - 1);
    }
  }
}
