/** The virtual mount: commands and ticks of a simulated German equatorial mount. */
module VirtualMount {
  import opened Common
  import opened Angles

  const SIDEREAL_RATE := 1.00273790935
  const SIDEREAL_DEG_PER_S := 15.0 / 3600.0 * SIDEREAL_RATE
  const GUIDE_MULTIPLIER := 0.5
  const RATE_MULTIPLIERS := [0.25, 0.5, 1.0, 2.0, 4.0, 8.0, 20.0, 48.0, 240.0, 600.0]

  datatype Pier = PierWest | PierEast

  datatype Pose = Pose(ha: real, dec: real, pier: Pier)

  datatype Config = Config(home: Pose, park: Pose, slewRate: real, speed: real, abortSettle: real, tolerance: real,
                           trackOnUnpark: bool, trackOnArrival: bool)

  predicate PoseInRange(ha: real, dec: real) { -12.0 <= ha < 12.0 && -90.0 <= dec <= 90.0 }

  predicate Proper(c: Config) {
    && PoseInRange(c.home.ha, c.home.dec) && PoseInRange(c.park.ha, c.park.dec)
    && c.slewRate > 0.0 && c.speed > 0.0 && c.tolerance >= 0.0
  }

  datatype Motion = Idle | Slewing | Stopping | Manual
  datatype Kind = ToSky | ToHome | ToPark
  datatype Fault = Limit | ErrorFault
  datatype AxisName = NorthSouth | WestEast

  /** A slew's destination; the coordinates matter for the sky only. */
  datatype Target = Target(kind: Kind, ra: real, dec: real)

  /** Manual motion per axis: north and west are +1, south and east -1, and 0 is none. */
  datatype Buttons = Buttons(ns: int, we: int)

  /** Guide rates in degrees a second, in force until a time. */
  datatype Guiding = Guiding(until: real, ha: real, dec: real)

  datatype Mount = Mount(
    ha: real, dec: real, pier: Pier, parked: bool, atHome: bool,
    tracking: bool, trackingSince: Option<real>, lastTrackingOn: real,
    motion: Motion, target: Option<Target>, stopAt: real, manual: Buttons, rate: nat, guiding: Guiding, fault: Option<Fault>)

  /** Wraps an hour angle into [-12, 12). */
  function Wrap(x: real): (r: real)
    ensures -12.0 <= r < 12.0
  {
    ModRange(x + 12.0, 24.0);
    Mod(x + 12.0, 24.0) - 12.0
  }

  function Clamp(dec: real): real { Max(-90.0, Min(90.0, dec)) }

  /** `x` limited to at most `step` either way. */
  function Toward(error: real, step: real): real {
    if error < 0.0 then -Min(step, Abs(error)) else Min(step, Abs(error))
  }

  /** An hour angle after turning at `rate` degrees a second for `dt` seconds. */
  function Turned(ha: real, rate: real, dt: real): real { Wrap(ha + rate * dt / 15.0) }

  /** A declination after moving at `rate` degrees a second for `dt` seconds. */
  function Tilted(dec: real, rate: real, dt: real): real { Clamp(dec + rate * dt) }

  /** The way left to a goal, hour angles the short way round, in degrees. */
  function HaLeft(ha: real, goal: real): real { Wrap(goal - ha) * 15.0 }

  function HaStepped(ha: real, goal: real, step: real): real { Wrap(ha + Toward(HaLeft(ha, goal), step) / 15.0) }

  function DecStepped(dec: real, goal: real, step: real): real { dec + Toward(goal - dec, step) }

  function SlewStep(c: Config, dt: real): real { c.slewRate * c.speed * dt }

  function SettleTime(c: Config): real
    requires c.speed > 0.0
  {
    c.abortSettle / c.speed
  }

  function GuideRate(direction: int): real { GUIDE_MULTIPLIER * SIDEREAL_DEG_PER_S * (direction as real) }

  /** Degrees a second of manual motion in one direction. */
  function ManualRate(rate: nat, c: Config, direction: int): real
    requires rate < |RATE_MULTIPLIERS|
  {
    (direction as real) * RATE_MULTIPLIERS[rate] * SIDEREAL_DEG_PER_S * c.speed
  }

  // ---- what the commands do ------------------------------------------------------------------

  /** A command's effect, or a refusal. */
  datatype Reply = Done(m: Mount) | Refused

  function TrackingSet(m: Mount, on: bool, now: real): Reply {
    if on && (m.parked || m.fault.Some?) then Refused
    else if on && !m.tracking then Done(m.(tracking := true, trackingSince := Some(now), atHome := false))
    else if !on && m.tracking then
      Done(m.(tracking := false, trackingSince := None,
              lastTrackingOn := if m.trackingSince.Some? then now - m.trackingSince.value else m.lastTrackingOn))
    else Done(m)
  }

  function TrackingOff(m: Mount, now: real): Mount { TrackingSet(m, false, now).m }

  function Unparked(m: Mount, c: Config, now: real): Reply {
    if m.fault.Some? then Refused
    else if !m.parked then Done(m)
    else if c.trackOnUnpark then TrackingSet(m.(parked := false), true, now)
    else Done(m.(parked := false))
  }

  const STILL := Buttons(0, 0)

  function Pressed(m: Buttons, axis: AxisName, direction: int): Buttons {
    if axis.NorthSouth? then m.(ns := direction) else m.(we := direction)
  }

  predicate Heading(target: Option<Target>, kind: Kind) { target.Some? && target.value.kind == kind }

  function Aimed(m: Mount, kind: Kind, ra: real, dec: real): Mount {
    m.(manual := STILL, target := Some(Target(kind, Mod(ra, 24.0), dec)), motion := Slewing, atHome := false)
  }

  function GotoStarted(m: Mount, kind: Kind, now: real, ra: real, dec: real): Reply {
    if m.fault.Some? then Refused
    else if m.parked then if kind.ToPark? then Done(m) else Refused
    else if kind.ToSky? && !(-90.0 <= dec <= 90.0) then Refused
    else Done(TrackingOff(Aimed(m, kind, ra, dec), now))
  }

  function ManualStarted(m: Mount, axis: AxisName, direction: int): Reply {
    if m.fault.Some? || m.parked then Refused
    else
      var n := m.(manual := Pressed(m.manual, axis, direction));
      if n.manual != STILL
      then Done(if n.motion.Idle? || n.motion.Manual? then n.(motion := Manual, atHome := false) else n)
      else Done(if n.motion.Manual? then n.(motion := Idle) else n)
  }

  function Guided(m: Mount, axis: AxisName, direction: int, ms: real, now: real): Reply {
    if m.fault.Some? || m.parked then Refused
    else
      var rate := GuideRate(direction);
      Done(m.(guiding := Guiding(now + ms / 1000.0, if axis.WestEast? then rate else 0.0,
                                 if axis.NorthSouth? then rate else 0.0)))
  }

  function Aborted(m: Mount, c: Config, now: real): Mount
    requires c.speed > 0.0
  {
    var n := m.(manual := STILL, guiding := m.guiding.(until := 0.0));
    if m.motion.Idle? then n else n.(motion := Stopping, target := None, stopAt := now + SettleTime(c))
  }

  function Faulted(m: Mount, c: Config, fault: Option<Fault>, now: real): Mount
    requires c.speed > 0.0
  {
    if fault.Some? then TrackingOff(Aborted(m.(fault := fault), c, now), now) else m.(fault := None)
  }

  /** Test setup: sets the internal truth directly. */
  function Placed(m: Mount, c: Config, ha: Option<real>, dec: Option<real>, pier: Option<Pier>, parked: Option<bool>,
                  tracking: Option<bool>, now: real): Mount
  {
    var toPark := parked == Some(true);
    var n := m.(motion := Idle, target := None, manual := STILL,
                ha := if ha.Some? then ha.value else if toPark then c.park.ha else m.ha,
                dec := if dec.Some? then dec.value else if toPark then c.park.dec else m.dec,
                pier := if pier.Some? then pier.value else if toPark then c.park.pier else m.pier,
                parked := if parked.Some? then parked.value else m.parked);
    var t := if tracking.None? then Done(n) else TrackingSet(n, tracking.value, now);
    (if t.Done? then t.m else n).(atHome := false)
  }

  // ---- motion --------------------------------------------------------------------------------

  /** Where the slew goes. A sky target moves with the sidereal time `lst`; the mount never
      flips on the way. */
  function Goal(m: Mount, c: Config, lst: real): Pose {
    if Heading(m.target, ToHome) then c.home
    else if Heading(m.target, ToPark) then c.park
    else if m.target.Some? then Pose(Wrap(lst - m.target.value.ra), m.target.value.dec, m.pier)
    else Pose(m.ha, m.dec, m.pier)
  }

  /** Both axes step towards the goal by at most `step`. */
  function Approached(m: Mount, g: Pose, step: real): Mount {
    m.(ha := HaStepped(m.ha, g.ha, step), dec := DecStepped(m.dec, g.dec, step))
  }

  predicate Near(ha: real, dec: real, g: Pose, tolerance: real) {
    Abs(HaLeft(ha, g.ha)) <= tolerance && Abs(g.dec - dec) <= tolerance
  }

  function Arrived(m: Mount, c: Config, g: Pose, now: real): Mount {
    var n := m.(ha := g.ha, dec := g.dec, pier := g.pier, motion := Idle, target := None);
    if Heading(m.target, ToPark) then n.(parked := true)
    else if Heading(m.target, ToHome) then n.(atHome := true)
    else if c.trackOnArrival then
      var t := TrackingSet(n, true, now);
      if t.Done? then t.m else n
    else n
  }

  function GotoStepped(m: Mount, c: Config, dt: real, now: real, lst: real): Mount {
    var g := Goal(m, c, lst);
    var n := Approached(m, g, SlewStep(c, dt));
    if Near(n.ha, n.dec, g, c.tolerance) then Arrived(n, c, g, now) else n
  }

  function Tracked(m: Mount, dt: real): Mount {
    if m.tracking then m.(ha := Turned(m.ha, SIDEREAL_DEG_PER_S, dt)) else m
  }

  function GuideMoved(m: Mount, dt: real, now: real): Mount {
    if now < m.guiding.until
    then m.(ha := Turned(m.ha, m.guiding.ha, dt), dec := Tilted(m.dec, m.guiding.dec, dt))
    else m
  }

  function ManuallyMoved(m: Mount, c: Config, dt: real): Mount
    requires m.rate < |RATE_MULTIPLIERS|
  {
    m.(dec := Tilted(m.dec, ManualRate(m.rate, c, m.manual.ns), dt), ha := Turned(m.ha, ManualRate(m.rate, c, m.manual.we), dt))
  }

  function Ticked(m: Mount, c: Config, dt: real, now: real, lst: real): Mount
    requires m.rate < |RATE_MULTIPLIERS|
  {
    var n := GuideMoved(Tracked(m, dt), dt, now);
    if n.motion.Stopping? && now >= n.stopAt then n.(motion := Idle)
    else if n.motion.Manual? then ManuallyMoved(n, c, dt)
    else if n.motion.Slewing? then GotoStepped(n, c, dt, now, lst)
    else n
  }

  // ---- the object ----------------------------------------------------------------------------

  class MountDriver {
    const config: Config
    var ha: real
    var dec: real
    var pier: Pier
    var parked: bool
    var atHome: bool
    var tracking: bool
    var trackingSince: Option<real>
    var lastTrackingOn: real
    var motion: Motion
    var target: Option<Target>
    var stopAt: real
    var manual: Buttons
    var rate: nat
    var guiding: Guiding
    var fault: Option<Fault>

    ghost function View(): Mount
      reads this
    {
      Mount(ha, dec, pier, parked, atHome, tracking, trackingSince, lastTrackingOn, motion, target, stopAt,
            manual, rate, guiding, fault)
    }

    constructor (c: Config, start: Option<Pose>, startParked: bool)
      ensures config == c && View() == Created(c, start, startParked)
    {
      config := c;
      var pose := if start.Some? then start.value else c.park;
      ha, dec, pier, parked := pose.ha, pose.dec, pose.pier, startParked;
      atHome := pose == c.home && !startParked;
      tracking, trackingSince, lastTrackingOn := false, None, 0.0;
      motion, target, stopAt := Idle, None, 0.0;
      manual, rate, guiding, fault := STILL, 6, Guiding(0.0, 0.0, 0.0), None;
    }

    method SetTracking(on: bool, now: real) returns (refused: bool)
      modifies this`tracking, this`trackingSince, this`lastTrackingOn, this`atHome
      ensures var r := TrackingSet(old(View()), on, now);
        && (refused <==> r.Refused?) && View() == if r.Done? then r.m else old(View())
    {
      if on && (parked || fault.Some?) {
        return true;
      }
      if on && !tracking {
        tracking, trackingSince, atHome := true, Some(now), false;
      } else if !on && tracking {
        tracking := false;
        if trackingSince.Some? {
          lastTrackingOn := now - trackingSince.value;
        }
        trackingSince := None;
      }
      refused := false;
    }

    method Unpark(now: real) returns (refused: bool)
      modifies this`parked, this`tracking, this`trackingSince, this`lastTrackingOn, this`atHome
      ensures var r := Unparked(old(View()), config, now);
        && (refused <==> r.Refused?) && View() == if r.Done? then r.m else old(View())
    {
      if fault.Some? {
        return true;
      }
      if !parked {
        return false;
      }
      parked := false;
      if config.trackOnUnpark {
        var ignored := SetTracking(true, now);
      }
      refused := false;
    }

    method StartGoto(kind: Kind, now: real, ra: real, decl: real) returns (refused: bool)
      modifies this`manual, this`target, this`motion, this`tracking, this`trackingSince, this`lastTrackingOn, this`atHome
      ensures var r := GotoStarted(old(View()), kind, now, ra, decl);
        && (refused <==> r.Refused?) && View() == if r.Done? then r.m else old(View())
    {
      hide Wrap, Mod, Turned, Tilted, HaStepped, DecStepped, SlewStep, ManualRate, Near;
      if fault.Some? || (!kind.ToPark? && parked) {
        return true;
      }
      if kind.ToPark? && parked {
        return false;
      }
      if kind.ToSky? && !(-90.0 <= decl <= 90.0) {
        return true;
      }
      manual, target := STILL, Some(Target(kind, Mod(ra, 24.0), decl));
      motion, atHome := Slewing, false;
      assert View() == Aimed(old(View()), kind, ra, decl);
      hide Aimed;
      var ignored := SetTracking(false, now);
      refused := false;
    }

    method StartManual(axis: AxisName, direction: int) returns (refused: bool)
      modifies this`manual, this`motion, this`atHome
      ensures var r := ManualStarted(old(View()), axis, direction);
        && (refused <==> r.Refused?) && View() == if r.Done? then r.m else old(View())
    {
      if fault.Some? || parked {
        return true;
      }
      manual := Pressed(manual, axis, direction);
      if manual != STILL {
        if motion.Idle? || motion.Manual? {
          motion, atHome := Manual, false;
        }
      } else if motion.Manual? {
        motion := Idle;
      }
      refused := false;
    }

    method Guide(axis: AxisName, direction: int, ms: real, now: real) returns (refused: bool)
      modifies this`guiding
      ensures var r := Guided(old(View()), axis, direction, ms, now);
        && (refused <==> r.Refused?) && View() == if r.Done? then r.m else old(View())
    {
      hide Wrap, Mod, Turned, Tilted, HaStepped, DecStepped, SlewStep, ManualRate, Near;
      if fault.Some? || parked {
        return true;
      }
      var rate := GuideRate(direction);
      guiding := Guiding(now + ms / 1000.0, if axis.WestEast? then rate else 0.0, if axis.NorthSouth? then rate else 0.0);
      refused := false;
    }

    method Abort(now: real)
      requires config.speed > 0.0
      modifies this`manual, this`guiding, this`motion, this`target, this`stopAt
      ensures View() == Aborted(old(View()), config, now)
    {
      hide SettleTime;
      manual, guiding := STILL, guiding.(until := 0.0);
      if !motion.Idle? {
        motion, target, stopAt := Stopping, None, now + SettleTime(config);
      }
    }

    method SetFault(f: Option<Fault>, now: real)
      requires config.speed > 0.0
      modifies this
      ensures View() == Faulted(old(View()), config, f, now)
    {
      fault := f;
      if f.Some? {
        Abort(now);
        var ignored := SetTracking(false, now);
      }
    }

    method Tick(dt: real, now: real, lst: real) returns (edge: bool)
      requires rate < |RATE_MULTIPLIERS|
      modifies this
      ensures View() == Ticked(old(View()), config, dt, now, lst)
      ensures edge <==> View().motion.Idle? && (old(motion).Slewing? || old(motion).Stopping?)
    {
      hide Wrap, Mod, Turned, Tilted, HaStepped, DecStepped, SlewStep, ManualRate, Near;
      edge := false;
      if tracking {
        ha := Turned(ha, SIDEREAL_DEG_PER_S, dt);
      }
      if now < guiding.until {
        ha := Turned(ha, guiding.ha, dt);
        dec := Tilted(dec, guiding.dec, dt);
      }
      if motion.Stopping? && now >= stopAt {
        motion, edge := Idle, true;
      } else if motion.Manual? {
        dec := Tilted(dec, ManualRate(rate, config, manual.ns), dt);
        ha := Turned(ha, ManualRate(rate, config, manual.we), dt);
      } else if motion.Slewing? {
        edge := StepGoto(dt, now, lst);
      }
    }

    method StepGoto(dt: real, now: real, lst: real) returns (edge: bool)
      requires motion.Slewing?
      modifies this`ha, this`dec, this`pier, this`motion, this`target, this`parked, this`tracking, this`trackingSince,
        this`lastTrackingOn, this`atHome
      ensures View() == GotoStepped(old(View()), config, dt, now, lst)
      ensures edge <==> View().motion.Idle?
    {
      hide Wrap, Mod, Turned, Tilted, HaStepped, DecStepped, SlewStep, ManualRate, Near;
      var g := GoalPose(lst);
      ha := HaStepped(ha, g.ha, SlewStep(config, dt));
      dec := DecStepped(dec, g.dec, SlewStep(config, dt));
      if !Near(ha, dec, g, config.tolerance) {
        return false;
      }
      Arrive(g, now);
      edge := true;
    }

    method Arrive(g: Pose, now: real)
      modifies this`ha, this`dec, this`pier, this`motion, this`target, this`parked, this`tracking, this`trackingSince,
        this`lastTrackingOn, this`atHome
      ensures View() == Arrived(old(View()), config, g, now)
    {
      var kind := target;
      ha, dec, pier, motion, target := g.ha, g.dec, g.pier, Idle, None;
      if Heading(kind, ToPark) {
        parked := true;
      } else if Heading(kind, ToHome) {
        atHome := true;
      } else if config.trackOnArrival {
        var ignored := SetTracking(true, now);
      }
    }

    function GoalPose(lst: real): (g: Pose)
      reads this
      ensures g == Goal(View(), config, lst)
    {
      if Heading(target, ToHome) then config.home
      else if Heading(target, ToPark) then config.park
      else if target.Some? then Pose(Wrap(lst - target.value.ra), target.value.dec, pier)
      else Pose(ha, dec, pier)
    }
  }

  function Created(c: Config, start: Option<Pose>, startParked: bool): Mount {
    var pose := if start.Some? then start.value else c.park;
    Mount(pose.ha, pose.dec, pose.pier, startParked, pose == c.home && !startParked, false, None, 0.0, Idle, None, 0.0,
          STILL, 6, Guiding(0.0, 0.0, 0.0), None)
  }
}
