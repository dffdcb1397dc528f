/** Slews converge without overshoot, to fixed poses and to the drifting sky. */
module SlewProofs {
  import opened Common
  import opened Angles
  import opened VirtualMount

  // ---- one step ------------------------------------------------------------------------------

  /** `Wrap` yields what lies in the range and differs by whole turns. */
  lemma WrapIs(x: real, r: real, turns: int)
    requires x == r + 24.0 * (turns as real) && -12.0 <= r < 12.0
    ensures Wrap(x) == r
  {
    ModIff(x + 12.0, 24.0, r + 12.0, turns);
  }

  lemma WrapTurns(x: real) returns (turns: int)
    ensures Wrap(x) == x - 24.0 * (turns as real)
  {
    turns := ((x + 12.0) / 24.0).Floor;
  }

  /** A step of the hour angle shortens the way left by exactly that step, whichever way round;
      a goal that moves along adds its own motion. */
  lemma HaStepLeaves(ha: real, goal: real, step: real, drift: real)
    requires step >= 0.0
    requires -180.0 <= HaLeft(ha, goal) - Toward(HaLeft(ha, goal), step) + drift < 180.0
    ensures HaLeft(HaStepped(ha, goal, step), goal + drift / 15.0) ==
      HaLeft(ha, goal) - Toward(HaLeft(ha, goal), step) + drift
  {
    var x := Toward(HaLeft(ha, goal), step) / 15.0;
    var j := WrapTurns(goal - ha);
    var k := WrapTurns(ha + x);
    hide Wrap, Toward;
    var r := Wrap(goal - ha) - x + drift / 15.0;
    assert goal + drift / 15.0 - Wrap(ha + x) == r + 24.0 * ((j + k) as real);
    WrapIs(goal + drift / 15.0 - Wrap(ha + x), r, j + k);
  }

  lemma TowardShrinks(error: real, step: real)
    requires step >= 0.0
    ensures Abs(error - Toward(error, step)) == Max(Abs(error) - step, 0.0)
    ensures error >= 0.0 ==> 0.0 <= error - Toward(error, step) <= error
    ensures error <= 0.0 ==> error <= error - Toward(error, step) <= 0.0
  {}

  /** The larger of the two ways left, in degrees. */
  function Left(ha: real, dec: real, g: Pose): real { Max(Abs(HaLeft(ha, g.ha)), Abs(g.dec - dec)) }

  lemma HaLeftRange(ha: real, goal: real)
    ensures -180.0 <= HaLeft(ha, goal) < 180.0
  {
    hide Mod;
  }

  lemma HaShortens(ha: real, goal: real, step: real)
    requires step >= 0.0
    ensures var e, n := HaLeft(ha, goal), HaLeft(HaStepped(ha, goal, step), goal);
      && Abs(n) == Max(Abs(e) - step, 0.0) && (e >= 0.0 ==> 0.0 <= n <= e) && (e <= 0.0 ==> e <= n <= 0.0)
  {
    TowardShrinks(HaLeft(ha, goal), step);
    HaLeftRange(ha, goal);
    hide Toward, HaStepped, HaLeft;
    HaStepLeaves(ha, goal, step, 0.0);
    assert goal + 0.0 / 15.0 == goal;
  }

  lemma DecShortens(dec: real, goal: real, step: real)
    requires step >= 0.0
    ensures var n := DecStepped(dec, goal, step);
      && Abs(goal - n) == Max(Abs(goal - dec) - step, 0.0)
      && (dec <= goal ==> dec <= n <= goal) && (goal <= dec ==> goal <= n <= dec)
  {
    TowardShrinks(goal - dec, step);
    hide Toward;
  }

  /** Towards a fixed goal each axis error falls by min(step, error), and neither overshoots. */
  lemma StepShortensBoth(m: Mount, g: Pose, step: real)
    requires step >= 0.0
    ensures var n := Approached(m, g, step);
      && Abs(HaLeft(n.ha, g.ha)) == Max(Abs(HaLeft(m.ha, g.ha)) - step, 0.0)
      && Abs(g.dec - n.dec) == Max(Abs(g.dec - m.dec) - step, 0.0)
      && (HaLeft(m.ha, g.ha) >= 0.0 ==> HaLeft(n.ha, g.ha) >= 0.0) && (HaLeft(m.ha, g.ha) <= 0.0 ==> HaLeft(n.ha, g.ha) <= 0.0)
      && (m.dec <= g.dec ==> m.dec <= n.dec <= g.dec) && (g.dec <= m.dec ==> g.dec <= n.dec <= m.dec)
      && Left(n.ha, n.dec, g) == Max(Left(m.ha, m.dec, g) - step, 0.0)
  {
    hide HaStepped, HaLeft, DecStepped;
    HaShortens(m.ha, g.ha, step);
    DecShortens(m.dec, g.dec, step);
  }

  // ---- slews to a stored pose ----------------------------------------------------------------

  /** What a tick is given: the time since the last one, the clock, and the sidereal time. */
  datatype Beat = Beat(dt: real, now: real, lst: real)

  function After(m: Mount, c: Config, beats: seq<Beat>): Mount
    requires m.rate < |RATE_MULTIPLIERS|
    decreases |beats|
  {
    if beats == [] then m
    else
      var n := Ticked(m, c, beats[0].dt, beats[0].now, beats[0].lst);
      After(n, c, beats[1..])
  }

  /** How far the slew turns the axes over some ticks, in degrees. */
  function Travel(c: Config, beats: seq<Beat>): real {
    if beats == [] then 0.0 else SlewStep(c, beats[0].dt) + Travel(c, beats[1..])
  }

  predicate Undisturbed(m: Mount, beats: seq<Beat>) {
    !m.tracking && forall b :: b in beats ==> b.dt > 0.0 && b.now >= m.guiding.until
  }

  function StoredPose(c: Config, kind: Kind): Pose { if kind.ToHome? then c.home else c.park }

  predicate SlewsTo(m: Mount, kind: Kind) { m.motion.Slewing? && Heading(m.target, kind) }

  /** The mount as the slew leaves it. */
  function ArrivedAt(m: Mount, c: Config, kind: Kind): Mount {
    var g := StoredPose(c, kind);
    var n := m.(ha := g.ha, dec := g.dec, pier := g.pier, motion := Idle, target := None);
    if kind.ToHome? then n.(atHome := true) else n.(parked := true)
  }

  /** One undisturbed tick of such a slew. */
  lemma SlewTick(m: Mount, c: Config, kind: Kind, b: Beat)
    requires SlewsTo(m, kind) && !kind.ToSky? && Undisturbed(m, [b]) && m.rate < |RATE_MULTIPLIERS|
    ensures var g, n := StoredPose(c, kind), Approached(m, StoredPose(c, kind), SlewStep(c, b.dt));
      Ticked(m, c, b.dt, b.now, b.lst) == if Near(n.ha, n.dec, g, c.tolerance) then ArrivedAt(n, c, kind) else n
  {
    hide HaStepped, DecStepped, SlewStep, Near, Wrap;
    assert b in [b];
  }

  lemma NearIsLeft(ha: real, dec: real, g: Pose, tolerance: real)
    ensures Near(ha, dec, g, tolerance) <==> Left(ha, dec, g) <= tolerance
  {
    hide HaLeft;
  }

  lemma StepIsPositive(c: Config, dt: real)
    requires Proper(c) && dt > 0.0
    ensures SlewStep(c, dt) > 0.0
  {
    assert c.slewRate * c.speed > 0.0;
  }

  lemma {:induction false} TravelGrows(c: Config, beats: seq<Beat>)
    requires Proper(c) && forall b :: b in beats ==> b.dt > 0.0
    ensures Travel(c, beats) >= 0.0
  {
    if beats != [] {
      StepIsPositive(c, beats[0].dt);
      TravelGrows(c, beats[1..]);
    }
  }

  lemma {:induction false} RestStays(m: Mount, c: Config, beats: seq<Beat>)
    requires m.motion.Idle? && Undisturbed(m, beats) && m.rate < |RATE_MULTIPLIERS|
    ensures After(m, c, beats) == m
  {
    if beats != [] {
      assert beats[0] in beats;
      assert Ticked(m, c, beats[0].dt, beats[0].now, beats[0].lst) == m;
      RestStays(m, c, beats[1..]);
    }
  }

  /** A slew to HOME or PARK that nothing disturbs has ended exactly when the ticks together have
      turned the axes as far as the larger error, up to the tolerance. It then rests exactly on
      the stored pose, parked or at home; until then the error is what is left of it. */
  lemma {:induction false} SlewEndsIff(m: Mount, c: Config, kind: Kind, beats: seq<Beat>)
    requires Proper(c) && SlewsTo(m, kind) && !kind.ToSky? && Undisturbed(m, beats) && m.rate < |RATE_MULTIPLIERS|
    requires beats != []
    ensures var g, n := StoredPose(c, kind), After(m, c, beats);
      && (Left(m.ha, m.dec, g) - Travel(c, beats) <= c.tolerance <==> n.motion.Idle?)
      && (n.motion.Idle? ==> n == ArrivedAt(m, c, kind))
      && (!n.motion.Idle? ==> SlewsTo(n, kind) && Left(n.ha, n.dec, g) == Left(m.ha, m.dec, g) - Travel(c, beats))
    decreases |beats|
  {
    hide HaStepped, DecStepped, SlewStep, Near, Left, Ticked;
    var g, b := StoredPose(c, kind), beats[0];
    var step := SlewStep(c, b.dt);
    var n := Approached(m, g, step);
    assert b in beats && beats[1..] + [] == beats[1..];
    StepIsPositive(c, b.dt);
    SlewTick(m, c, kind, b);
    StepShortensBoth(m, g, step);
    NearIsLeft(n.ha, n.dec, g, c.tolerance);
    TravelGrows(c, beats[1..]);
    if Near(n.ha, n.dec, g, c.tolerance) {
      RestStays(ArrivedAt(n, c, kind), c, beats[1..]);
    } else if |beats| > 1 {
      SlewEndsIff(n, c, kind, beats[1..]);
    }
  }

  lemma {:induction false} EqualTicksTravel(c: Config, beats: seq<Beat>, dt: real)
    requires forall b :: b in beats ==> b.dt == dt
    ensures Travel(c, beats) == (|beats| as real) * SlewStep(c, dt)
  {
    hide SlewStep;
    if beats != [] {
      assert beats[0] in beats;
      EqualTicksTravel(c, beats[1..], dt);
      var n, s := |beats[1..]| as real, SlewStep(c, dt);
      assert (n + 1.0) * s == n * s + s;
    }
  }

  /** With ticks of one length the slew takes the larger error over one step, rounded up. */
  lemma SlewTakesCeiling(m: Mount, c: Config, kind: Kind, beats: seq<Beat>, dt: real)
    requires Proper(c) && SlewsTo(m, kind) && !kind.ToSky? && Undisturbed(m, beats) && m.rate < |RATE_MULTIPLIERS|
    requires beats != [] && forall b :: b in beats ==> b.dt == dt
    ensures After(m, c, beats).motion.Idle? <==>
      Left(m.ha, m.dec, StoredPose(c, kind)) - c.tolerance <= (|beats| as real) * SlewStep(c, dt)
  {
    hide SlewStep, After, Left, Travel;
    EqualTicksTravel(c, beats, dt);
    SlewEndsIff(m, c, kind, beats);
  }

  // ---- slews to the sky ----------------------------------------------------------------------

  /** No other hour angle that differs by whole turns is closer to zero. */
  lemma WrapIsLeast(x: real, r: real, turns: int)
    requires x == r + 24.0 * (turns as real)
    ensures Abs(Wrap(x)) <= Abs(r)
  {
    var k := WrapTurns(x);
    hide Wrap, Mod;
    assert Wrap(x) == r + 24.0 * ((turns - k) as real);
    if turns - k >= 1 {
      assert Wrap(x) >= r + 24.0;
    } else if turns - k <= -1 {
      assert Wrap(x) <= r - 24.0;
    }
  }

  function SkyGoal(m: Mount, ra: real, dec: real, lst: real): Pose { Pose(Wrap(lst - ra), dec, m.pier) }

  /** The way to a target on the sky grows by no more than the sky turns, either way round. */
  lemma SkyDrifts(ha: real, ra: real, lst: real, next: real)
    ensures Abs(HaLeft(ha, Wrap(next - ra))) <= Abs(HaLeft(ha, Wrap(lst - ra))) + Abs(15.0 * (next - lst))
  {
    var i := WrapTurns(lst - ra);
    var j := WrapTurns(next - ra);
    var k := WrapTurns(Wrap(lst - ra) - ha);
    hide Wrap, Mod;
    var r := Wrap(Wrap(lst - ra) - ha) + (next - lst);
    assert Wrap(next - ra) - ha == r + 24.0 * ((k + i - j) as real);
    WrapIsLeast(Wrap(next - ra) - ha, r, k + i - j);
  }

  /** What a step leaves of the way to a drifting target: at this tick's goal the step is gained,
      at the next tick's no more than the drift is lost again. */
  lemma SkyStepShortens(m: Mount, ra: real, dec: real, lst: real, next: real, step: real)
    requires step >= 0.0
    ensures var g, h := SkyGoal(m, ra, dec, lst), SkyGoal(m, ra, dec, next);
      var n := Approached(m, g, step);
      && Left(n.ha, n.dec, g) == Max(Left(m.ha, m.dec, g) - step, 0.0)
      && Left(n.ha, n.dec, h) <= Left(n.ha, n.dec, g) + Abs(15.0 * (next - lst))
  {
    var g := SkyGoal(m, ra, dec, lst);
    var n := Approached(m, g, step);
    StepShortensBoth(m, g, step);
    SkyDrifts(n.ha, ra, lst, next);
    hide HaStepped, HaLeft, DecStepped, Wrap;
  }

  predicate AtSky(n: Mount, ra: real, dec: real, lst: real) {
    n.motion.Idle? && n.target == None && n.ha == Wrap(lst - ra) && n.dec == dec
  }

  /** After `k` ticks the mount has arrived where the target was at the last of them. */
  predicate ArrivesAt(m: Mount, c: Config, beats: seq<Beat>, ra: real, dec: real, k: nat)
    requires m.rate < |RATE_MULTIPLIERS|
  {
    0 < k <= |beats| && AtSky(After(m, c, beats[..k]), ra, dec, beats[k - 1].lst)
  }

  lemma SkyTick(m: Mount, c: Config, ra: real, dec: real, b: Beat)
    requires m.motion.Slewing? && m.target == Some(Target(ToSky, ra, dec)) && Undisturbed(m, [b])
    requires m.rate < |RATE_MULTIPLIERS|
    ensures var g := SkyGoal(m, ra, dec, b.lst); var n := Approached(m, g, SlewStep(c, b.dt));
      if Near(n.ha, n.dec, g, c.tolerance) then AtSky(Ticked(m, c, b.dt, b.now, b.lst), ra, dec, b.lst)
      else Ticked(m, c, b.dt, b.now, b.lst) == n
  {
    hide HaStepped, DecStepped, SlewStep, Near, Wrap;
    assert b in [b];
  }

  lemma OneTick(m: Mount, c: Config, beats: seq<Beat>, k: nat)
    requires m.rate < |RATE_MULTIPLIERS| && 0 < k <= |beats|
    ensures var n := Ticked(m, c, beats[0].dt, beats[0].now, beats[0].lst);
      n.rate == m.rate && After(m, c, beats[..k]) == After(n, c, beats[1..][..k - 1])
  {
    hide HaStepped, DecStepped, SlewStep, Near, Wrap, Turned, Tilted, ManualRate;
    assert beats[..k][1..] == beats[1..][..k - 1];
  }

  predicate SlewsToSky(m: Mount, ra: real, dec: real) {
    m.motion.Slewing? && m.target == Some(Target(ToSky, ra, dec)) && m.rate < |RATE_MULTIPLIERS|
  }

  /** What the ticks gain on the target: the way they turn the axes, less the way the sky turns
      between them. */
  function Gain(c: Config, beats: seq<Beat>): real {
    if beats == [] then 0.0
    else
      SlewStep(c, beats[0].dt) + Gain(c, beats[1..]) -
      if |beats| > 1 then Abs(15.0 * (beats[1].lst - beats[0].lst)) else 0.0
  }

  lemma GainStep(c: Config, beats: seq<Beat>)
    requires beats != []
    ensures |beats| == 1 ==> Gain(c, beats) == SlewStep(c, beats[0].dt)
    ensures |beats| > 1 ==>
      Gain(c, beats) == SlewStep(c, beats[0].dt) + Gain(c, beats[1..]) - Abs(15.0 * (beats[1].lst - beats[0].lst))
  {
    hide SlewStep;
    assert |beats| == 1 ==> beats[1..] == [];
  }

  lemma UndisturbedParts(m: Mount, n: Mount, beats: seq<Beat>)
    requires beats != [] && Undisturbed(m, beats) && n.tracking == m.tracking && n.guiding == m.guiding
    ensures beats[0].dt > 0.0 && Undisturbed(m, [beats[0]]) && Undisturbed(n, beats[1..])
  {
    assert beats[0] in beats;
  }

  /** The first tick arrives, or another is to come and the rest of the gain still suffices. */
  lemma SkyFirstTick(m: Mount, c: Config, ra: real, dec: real, beats: seq<Beat>)
    requires Proper(c) && SlewsToSky(m, ra, dec) && beats != [] && Undisturbed(m, beats)
    requires Gain(c, beats) >= Left(m.ha, m.dec, SkyGoal(m, ra, dec, beats[0].lst)) - c.tolerance
    ensures var n := Ticked(m, c, beats[0].dt, beats[0].now, beats[0].lst);
      || AtSky(n, ra, dec, beats[0].lst)
      || (beats[1..] != [] && SlewsToSky(n, ra, dec) && Undisturbed(n, beats[1..]) &&
          Gain(c, beats[1..]) >= Left(n.ha, n.dec, SkyGoal(n, ra, dec, beats[1].lst)) - c.tolerance)
  {
    hide HaStepped, DecStepped, SlewStep, Near, Left, Ticked, Wrap, AtSky, Gain, Undisturbed, Abs;
    var b := beats[0];
    var g := SkyGoal(m, ra, dec, b.lst);
    var n := Approached(m, g, SlewStep(c, b.dt));
    UndisturbedParts(m, n, beats);
    GainStep(c, beats);
    StepIsPositive(c, b.dt);
    SkyTick(m, c, ra, dec, b);
    NearIsLeft(n.ha, n.dec, g, c.tolerance);
    SkyStepShortens(m, ra, dec, b.lst, if |beats| > 1 then beats[1].lst else b.lst, SlewStep(c, b.dt));
  }

  /** A slew to the sky has caught its drifting target once its ticks, of whatever length, have
      gained the larger error on it, up to the tolerance. */
  lemma {:induction false} SkySlewArrives(m: Mount, c: Config, ra: real, dec: real, beats: seq<Beat>)
    requires Proper(c) && SlewsToSky(m, ra, dec) && beats != [] && Undisturbed(m, beats)
    requires Gain(c, beats) >= Left(m.ha, m.dec, SkyGoal(m, ra, dec, beats[0].lst)) - c.tolerance
    ensures exists k: nat :: ArrivesAt(m, c, beats, ra, dec, k)
    decreases |beats|
  {
    hide SlewStep, Left, Ticked, Wrap, After, AtSky, Gain, Undisturbed, SkyGoal, Proper;
    SkyFirstTick(m, c, ra, dec, beats);
    var n := Ticked(m, c, beats[0].dt, beats[0].now, beats[0].lst);
    OneTick(m, c, beats, 1);
    NoTicks(n, c);
    assert beats[1..][..0] == [];
    if AtSky(n, ra, dec, beats[0].lst) {
      assert ArrivesAt(m, c, beats, ra, dec, 1);
    } else {
      SkySlewArrives(n, c, ra, dec, beats[1..]);
      var k: nat :| ArrivesAt(n, c, beats[1..], ra, dec, k);
      OneTick(m, c, beats, k + 1);
      assert ArrivesAt(m, c, beats, ra, dec, k + 1);
    }
  }

  lemma NoTicks(m: Mount, c: Config)
    requires m.rate < |RATE_MULTIPLIERS|
    ensures After(m, c, []) == m
  {}

  /** Ticks of one length between which the sky turns by `drift` degrees. */
  predicate SkyRun(c: Config, beats: seq<Beat>, drift: real, step: real) {
    && 0.0 <= drift
    && (forall i :: 0 <= i < |beats| ==> SlewStep(c, beats[i].dt) == step)
    && (forall i :: 0 < i < |beats| ==> beats[i].lst == beats[i - 1].lst + drift / 15.0)
  }

  lemma {:induction false} EqualTicksGain(c: Config, beats: seq<Beat>, drift: real, step: real)
    requires SkyRun(c, beats, drift, step)
    ensures Gain(c, beats) >= (|beats| as real) * (step - drift)
  {
    hide SlewStep;
    if beats != [] {
      EqualTicksGain(c, beats[1..], drift, step);
      var n, gain := |beats[1..]| as real, step - drift;
      assert (n + 1.0) * gain == n * gain + gain;
      assert |beats| > 1 ==> 15.0 * (beats[1].lst - beats[0].lst) == drift;
    }
  }

  /** So with equal ticks whose step is longer than the drift it takes at most the larger error
      over what one tick gains, rounded up. */
  lemma SkySlewTakesAtMost(m: Mount, c: Config, ra: real, dec: real, beats: seq<Beat>, drift: real, step: real)
    requires Proper(c) && SlewsToSky(m, ra, dec) && beats != [] && Undisturbed(m, beats) && SkyRun(c, beats, drift, step)
    requires (|beats| as real) * (step - drift) >= Left(m.ha, m.dec, SkyGoal(m, ra, dec, beats[0].lst)) - c.tolerance
    ensures exists k: nat :: ArrivesAt(m, c, beats, ra, dec, k)
  {
    hide Gain, Left, SkyGoal, ArrivesAt, Undisturbed, SkyRun;
    EqualTicksGain(c, beats, drift, step);
    SkySlewArrives(m, c, ra, dec, beats);
  }
}
