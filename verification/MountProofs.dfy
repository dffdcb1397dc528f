/** What each write and each tick does to the virtual mount, and what becomes of a guide pulse or a
    stop between the client and the mount. */
module MountProofs {
  import opened Common
  import opened Angles
  import opened VirtualMount
  import opened MockServer
  import Guide
  import Indi
  import SlewProofs
  import Transport

  /** The mount takes commands that move it. */
  predicate Free(m: Mount) { !m.parked && m.fault == None }

  // ---- which writes are refused --------------------------------------------------------------

  /** A press asks for the direction that is on already, or for both at once. */
  predicate Again(p: Pair, positive: Option<bool>, negative: Option<bool>) {
    && (positive.Some? ==> positive.value == p.positive) && (negative.Some? ==> negative.value == p.negative)
    && (p.positive || p.negative)
  }

  predicate Both(p: Pair, positive: Option<bool>, negative: Option<bool>) {
    (positive == Some(true) || (positive == None && p.positive)) && (negative == Some(true) || (negative == None && p.negative))
  }

  /** Exactly which writes are refused, vector by vector: those that would change a stored reference,
      those the device cannot read, those it was told to reject, and those its state forbids. */
  lemma RefusedIff(s: Server, c: Config, focusMaximum: int, w: Write, now: real)
    requires c.speed > 0.0
    ensures var m, rejects := s.mount, s.rejectNext;
      Served(s, c, focusMaximum, w, now).refused <==>
        match w
        case SetHome => true
        case SetSync => true
        case SetParkOption => true
        case Malformed(_) => true
        case Disconnect => true
        case AbortWrite => AbortMotion in rejects
        case FocusAbortWrite => FocusAbort in rejects
        case HomeNothing => HomeVector in rejects
        case PlainWrite => OtherVector in rejects
        case ParkWrite => ParkVector in rejects || m.fault.Some?
        case UnparkWrite => ParkVector in rejects || m.fault.Some?
        case HomeGo => HomeVector in rejects || !Free(m)
        case TrackWrite(on) => TrackState in rejects || (on && !Free(m))
        case RateWrite(rate) => SlewRateVector in rejects || rate > 9
        case GotoWrite(_, dec) => Coordinates in rejects || !Free(m) || dec < -90.0 || dec > 90.0
        case GuideWrite(axis, _, _) => (if axis.NorthSouth? then GuideNS else GuideWE) in rejects || !Free(m)
        case FocusWrite(p) => FocusPosition in rejects || p < 0 || p > focusMaximum
        case Press(axis, positive, negative) =>
          var pair := if axis.NorthSouth? then s.ns else s.we;
          || (if axis.NorthSouth? then MotionNS else MotionWE) in rejects
          || Both(pair, positive, negative) || (!Free(m) && !Again(pair, positive, negative))
  {
    hide Mod, GuideRate, SettleTime;
  }

  /** A rejection is good for one write of its vector, whatever the write asks for. */
  lemma RejectionIsUsedUp(s: Server, c: Config, focusMaximum: int, w: Write, now: real)
    requires c.speed > 0.0 && s.mount.rate < |RATE_MULTIPLIERS| && !w.SetHome? && !w.SetSync? && !w.SetParkOption?
    ensures var told := Step(s, c, focusMaximum, Rejecting(NameOf(w)));
      && told == s.(rejectNext := s.rejectNext + {NameOf(w)})
      && Served(told, c, focusMaximum, w, now) == Answer(s.(rejectNext := s.rejectNext - {NameOf(w)}), true)
  {
    assert s.rejectNext + {NameOf(w)} - {NameOf(w)} == s.rejectNext - {NameOf(w)};
  }

  // ---- what the others do --------------------------------------------------------------------

  /** The mount slews to a target; it stops tracking, and notes for how long it had tracked. */
  function SentTo(m: Mount, target: Target, now: real): Mount {
    m.(manual := Buttons(0, 0), target := Some(target), motion := Slewing, atHome := false, tracking := false,
       trackingSince := if m.tracking then None else m.trackingSince,
       lastTrackingOn := if m.tracking && m.trackingSince.Some? then now - m.trackingSince.value else m.lastTrackingOn)
  }

  /** A target in the sky keeps its declination; its right ascension is brought into the day. */
  lemma GotoDoes(s: Server, c: Config, focusMaximum: int, ra: real, dec: real, now: real) returns (turns: int)
    requires c.speed > 0.0 && !Served(s, c, focusMaximum, GotoWrite(ra, dec), now).refused
    ensures 0.0 <= ra - 24.0 * (turns as real) < 24.0
    ensures Served(s, c, focusMaximum, GotoWrite(ra, dec), now).s ==
      s.(mount := SentTo(s.mount, Target(ToSky, ra - 24.0 * (turns as real), dec), now))
  {
    turns := (ra / 24.0).Floor;
    ModRange(ra, 24.0);
  }

  /** HOME and PARK go to their stored poses; a parked mount stays where it is. */
  lemma StoredDoes(s: Server, c: Config, focusMaximum: int, now: real)
    requires c.speed > 0.0
    ensures !Served(s, c, focusMaximum, HomeGo, now).refused ==>
      Served(s, c, focusMaximum, HomeGo, now).s == s.(mount := SentTo(s.mount, Target(ToHome, 0.0, 0.0), now))
    ensures !Served(s, c, focusMaximum, ParkWrite, now).refused ==>
      Served(s, c, focusMaximum, ParkWrite, now).s ==
      if s.mount.parked then s else s.(mount := SentTo(s.mount, Target(ToPark, 0.0, 0.0), now))
  {
    ModIff(0.0, 24.0, 0.0, 0);
    hide Mod;
  }

  /** Tracking starts now, and the mount is no longer at HOME, if it did not track; it ends with the
      time it lasted noted, if it did. Leaving PARK switches it on where the setup says so. */
  lemma TrackingDoes(s: Server, c: Config, focusMaximum: int, on: bool, now: real)
    requires c.speed > 0.0
    ensures var m := s.mount;
      && (!Served(s, c, focusMaximum, TrackWrite(on), now).refused ==>
            Served(s, c, focusMaximum, TrackWrite(on), now).s ==
            if on == m.tracking then s
            else if on then s.(mount := m.(tracking := true, trackingSince := Some(now), atHome := false))
            else s.(mount := m.(tracking := false, trackingSince := None,
                                lastTrackingOn := if m.trackingSince == None then m.lastTrackingOn else now - m.trackingSince.value)))
      && (!Served(s, c, focusMaximum, UnparkWrite, now).refused ==>
            Served(s, c, focusMaximum, UnparkWrite, now).s ==
            if !m.parked then s
            else if !c.trackOnUnpark || m.tracking then s.(mount := m.(parked := false))
            else s.(mount := m.(parked := false, tracking := true, trackingSince := Some(now), atHome := false)))
  {}

  /** A pulse moves its own axis at half the sidereal rate, and nothing else, until its time is up;
      one pulse replaces another. */
  lemma GuideDoes(s: Server, c: Config, focusMaximum: int, axis: AxisName, direction: int, ms: real, now: real)
    requires c.speed > 0.0 && !Served(s, c, focusMaximum, GuideWrite(axis, direction, ms), now).refused
    ensures var n, speed := Served(s, c, focusMaximum, GuideWrite(axis, direction, ms), now).s, 7.5 * 1.00273790935 * (direction as real);
      && n == s.(mount := s.mount.(guiding := n.mount.guiding)) && 1000.0 * (n.mount.guiding.until - now) == ms
      && 3600.0 * n.mount.guiding.dec == (if axis.NorthSouth? then speed else 0.0)
      && 3600.0 * n.mount.guiding.ha == if axis.NorthSouth? then 0.0 else speed
  {}

  /** A button sets its axis going, west and north up, south and east down; the mount moves by hand
      while one of the two axes is pressed, unless it slews or is stopping, and rests when none is. */
  lemma PressDoes(s: Server, c: Config, focusMaximum: int, axis: AxisName, positive: Option<bool>, negative: Option<bool>,
                  now: real)
    requires c.speed > 0.0 && !Served(s, c, focusMaximum, Press(axis, positive, negative), now).refused
    ensures var m, was := s.mount, if axis.NorthSouth? then s.ns else s.we;
      var pair := Pair(if positive == None then was.positive else positive.value,
                       if negative == None then was.negative else negative.value);
      var d := if pair.positive then 1 else if pair.negative then -1 else 0;
      var buttons := if axis.NorthSouth? then Buttons(d, m.manual.we) else Buttons(m.manual.ns, d);
      var byHand := m.motion.Idle? || m.motion.Manual?;
      var moved := m.(manual := buttons,
                      motion := if buttons == Buttons(0, 0) && m.motion.Manual? then Motion.Idle
                                else if buttons != Buttons(0, 0) && byHand then Manual else m.motion,
                      atHome := m.atHome && (buttons == Buttons(0, 0) || !byHand));
      Served(s, c, focusMaximum, Press(axis, positive, negative), now).s ==
      if was == pair && d != 0 then s
      else if axis.NorthSouth? then s.(mount := moved, ns := pair) else s.(mount := moved, we := pair)
  {
    hide Mod, GuideRate, SettleTime;
  }

  /** An abort releases every button, ends a pulse and lets whatever moves settle. */
  lemma AbortDoes(s: Server, c: Config, focusMaximum: int, now: real)
    requires c.speed > 0.0 && !Served(s, c, focusMaximum, AbortWrite, now).refused
    ensures var m, n := s.mount, Served(s, c, focusMaximum, AbortWrite, now).s;
      && n == s.(mount := n.mount, ns := Pair(false, false), we := Pair(false, false))
      && n.mount == m.(manual := Buttons(0, 0), guiding := Guiding(0.0, m.guiding.ha, m.guiding.dec),
                       motion := n.mount.motion, target := n.mount.target, stopAt := n.mount.stopAt)
      && (if m.motion.Idle? then (n.mount.motion, n.mount.target, n.mount.stopAt) == (Motion.Idle, m.target, m.stopAt)
          else (n.mount.motion, n.mount.target) == (Stopping, None) && c.speed * (n.mount.stopAt - now) == c.abortSettle)
  {}

  /** The focuser and the slew rate are set, and the rest changes nothing. */
  lemma OthersDo(s: Server, c: Config, focusMaximum: int, w: Write, now: real)
    requires c.speed > 0.0 && !Served(s, c, focusMaximum, w, now).refused
    ensures w.FocusWrite? ==> Served(s, c, focusMaximum, w, now).s == s.(focusTarget := Some(w.position))
    ensures w.FocusAbortWrite? ==> Served(s, c, focusMaximum, w, now).s == s.(focusTarget := None)
    ensures w.RateWrite? ==> Served(s, c, focusMaximum, w, now).s == s.(mount := s.mount.(rate := w.rate))
    ensures w.HomeNothing? || w.PlainWrite? ==> Served(s, c, focusMaximum, w, now).s == s
  {
    hide Mod, GuideRate, SettleTime;
  }

  /** A fault aborts and ends tracking; clearing it does nothing else. */
  lemma FaultDoes(m: Mount, c: Config, fault: Option<Fault>, now: real)
    requires c.speed > 0.0
    ensures fault == None ==> VirtualMount.Faulted(m, c, fault, now) == m.(fault := None)
    ensures fault.Some? ==>
      var n := VirtualMount.Faulted(m, c, fault, now);
      && n.fault == fault && !n.tracking && n.manual == Buttons(0, 0) && n.guiding.until == 0.0
      && (n.motion.Idle? <==> m.motion.Idle?) && (!m.motion.Idle? ==> n.motion.Stopping? && n.target == None)
      && (n.ha, n.dec, n.pier, n.parked, n.atHome, n.rate) == (m.ha, m.dec, m.pier, m.parked, m.atHome, m.rate)
      && (m.tracking && m.trackingSince.Some? ==> n.trackingSince == None && n.lastTrackingOn == now - m.trackingSince.value)
  {
    hide SettleTime;
  }

  /** A test setup places the mount as it says, in the stored pose if it only says that it is parked. */
  lemma PlacedDoes(m: Mount, c: Config, ha: Option<real>, dec: Option<real>, pier: Option<Pier>, parked: Option<bool>,
                   tracking: Option<bool>, now: real)
    ensures var n := VirtualMount.Placed(m, c, ha, dec, pier, parked, tracking, now);
      && n.motion == Motion.Idle && n.target == None && n.manual == Buttons(0, 0) && !n.atHome
      && n.parked == (if parked == None then m.parked else parked.value)
      && Some(n.ha) == (if ha.Some? then ha else Some(if parked == Some(true) then c.park.ha else m.ha))
      && Some(n.dec) == (if dec.Some? then dec else Some(if parked == Some(true) then c.park.dec else m.dec))
      && Some(n.pier) == (if pier.Some? then pier else Some(if parked == Some(true) then c.park.pier else m.pier))
      && n.tracking == (if tracking == Some(false) then false
                        else m.tracking || (tracking == Some(true) && !n.parked && m.fault == None))
      && (n.rate, n.guiding, n.fault, n.stopAt) == (m.rate, m.guiding, m.fault, m.stopAt)
  {}

  /** A new mount rests in the given pose, or at PARK, at HOME only if that pose is HOME's. */
  lemma CreatedIs(c: Config, start: Option<Pose>, startParked: bool)
    ensures var m, pose := Created(c, start, startParked), if start == None then c.park else start.value;
      && Pose(m.ha, m.dec, m.pier) == pose && m.parked == startParked && (m.atHome <==> pose == c.home && !startParked)
      && !m.tracking && m.trackingSince == None && m.motion.Idle? && m.target == None && m.manual == Buttons(0, 0)
      && m.fault == None && m.guiding.until == 0.0 && RATE_MULTIPLIERS[m.rate] == 20.0
  {}

  // ---- what a tick does ----------------------------------------------------------------------

  /** A declination moved at a rate, as far as the poles. */
  function Raised(dec: real, rate: real, dt: real): real {
    if dec + rate * dt < -90.0 then -90.0 else if dec + rate * dt > 90.0 then 90.0 else dec + rate * dt
  }

  /** The ten rates, in multiples of the sidereal one: doubling up to eight, then 20, 48, 240 and 600. */
  lemma RatesAre()
    ensures |RATE_MULTIPLIERS| == 10 && 4.0 * RATE_MULTIPLIERS[0] == 1.0
    ensures forall i :: 0 < i < 6 ==> RATE_MULTIPLIERS[i] == 2.0 * RATE_MULTIPLIERS[i - 1]
    ensures RATE_MULTIPLIERS[6..] == [20.0, 48.0, 240.0, 600.0]
  {}

  lemma ManualRateIs(rate: nat, c: Config)
    requires rate < |RATE_MULTIPLIERS|
    ensures ManualRate(rate, c, 0) == 0.0 && ManualRate(rate, c, -1) == -ManualRate(rate, c, 1)
    ensures 240.0 * ManualRate(rate, c, 1) == 1.00273790935 * RATE_MULTIPLIERS[rate] * c.speed
  {}

  lemma Shift(ha: real, rate: real, dt: real) returns (turns: int)
    ensures Turned(ha, rate, dt) + 24.0 * (turns as real) == ha + rate * dt / 15.0
    ensures -12.0 <= Turned(ha, rate, dt) < 12.0
  {
    turns := SlewProofs.WrapTurns(ha + rate * dt / 15.0);
  }

  lemma TiltedIs(dec: real, rate: real, dt: real)
    ensures Tilted(dec, rate, dt) == Raised(dec, rate, dt)
  {}

  /** Degrees of hour angle a tick turns by what tracking, a pulse in force and the buttons ask for. */
  function Tracks(m: Mount, dt: real): real { if m.tracking then 1.00273790935 * dt / 240.0 else 0.0 }

  function Pulses(m: Mount, dt: real, now: real): real { if now < m.guiding.until then m.guiding.ha * dt else 0.0 }

  function Pushes(m: Mount, c: Config, dt: real): real
    requires m.rate < |RATE_MULTIPLIERS|
  {
    if m.motion.Manual? then ManualRate(m.rate, c, m.manual.we) * dt else 0.0
  }

  /** Unless it slews, a tick turns the mount by all three together, whole turns aside, and raises it
      by what a pulse and the buttons ask for; a stop that has settled ends. */
  lemma TickTurns(m: Mount, c: Config, dt: real, now: real, lst: real) returns (turns: int)
    requires m.rate < |RATE_MULTIPLIERS| && !m.motion.Slewing?
    ensures Ticked(m, c, dt, now, lst).ha + 24.0 * (turns as real) ==
      m.ha + (Tracks(m, dt) + Pulses(m, dt, now) + Pushes(m, c, dt)) / 15.0
    ensures m.tracking || now < m.guiding.until || m.motion.Manual? ==> -12.0 <= Ticked(m, c, dt, now, lst).ha < 12.0
    ensures !m.tracking && m.guiding.until <= now && !m.motion.Manual? ==> Ticked(m, c, dt, now, lst).ha == m.ha && turns == 0
    ensures var raised := if now < m.guiding.until then Raised(m.dec, m.guiding.dec, dt) else m.dec;
      Ticked(m, c, dt, now, lst).dec ==
      if m.motion.Manual? then Raised(raised, ManualRate(m.rate, c, m.manual.ns), dt) else raised
    ensures var n := Ticked(m, c, dt, now, lst);
      n == m.(ha := n.ha, dec := n.dec, motion := if m.motion.Stopping? && m.stopAt <= now then Motion.Idle else m.motion)
  {
    hide Mod, ManualRate, Wrap, Turned, Tilted, Raised;
    turns := 0;
    var t, g := Tracked(m, dt), GuideMoved(Tracked(m, dt), dt, now);
    if m.tracking {
      turns := Shift(m.ha, SIDEREAL_DEG_PER_S, dt);
    }
    assert t.ha + 24.0 * (turns as real) == m.ha + Tracks(m, dt) / 15.0;
    if now < m.guiding.until {
      var b := Shift(t.ha, m.guiding.ha, dt);
      TiltedIs(m.dec, m.guiding.dec, dt);
      assert t.dec == m.dec && g.dec == Tilted(m.dec, m.guiding.dec, dt);
      turns := turns + b;
    }
    var n := ManuallyMoved(g, c, dt);
    assert g.ha + 24.0 * (turns as real) == m.ha + (Tracks(m, dt) + Pulses(m, dt, now)) / 15.0;
    if m.motion.Manual? {
      var d := Shift(g.ha, ManualRate(m.rate, c, m.manual.we), dt);
      TiltedIs(g.dec, ManualRate(m.rate, c, m.manual.ns), dt);
      assert n.dec == Tilted(g.dec, ManualRate(m.rate, c, m.manual.ns), dt);
      assert Ticked(m, c, dt, now, lst) == n;
      turns := turns + d;
    }
  }

  /** Where a slew goes: to the stored poses, or to where the sky has taken the target, on the pier
      side the mount is on. */
  lemma GoalIs(m: Mount, c: Config, lst: real) returns (turns: int)
    requires m.target.Some?
    ensures m.target.value.kind.ToHome? ==> Goal(m, c, lst) == c.home
    ensures m.target.value.kind.ToPark? ==> Goal(m, c, lst) == c.park
    ensures m.target.value.kind.ToSky? ==>
      var g := Goal(m, c, lst);
      && g.ha + m.target.value.ra + 24.0 * (turns as real) == lst && -12.0 <= g.ha < 12.0
      && g.dec == m.target.value.dec && g.pier == m.pier
  {
    turns := SlewProofs.WrapTurns(lst - m.target.value.ra);
  }

  /** What an arrival leaves: parked, at HOME, or tracking where the setup says so. */
  lemma ArrivalDoes(m: Mount, c: Config, g: Pose, now: real)
    requires m.target.Some?
    ensures var n := Arrived(m, c, g, now);
      && Pose(n.ha, n.dec, n.pier) == g && n.motion.Idle? && n.target == None
      && (n.parked <==> m.parked || m.target.value.kind.ToPark?)
      && (m.target.value.kind.ToHome? ==> n.atHome) && (m.target.value.kind.ToPark? ==> n.atHome == m.atHome)
      && (n.tracking <==> m.tracking || (m.target.value.kind.ToSky? && c.trackOnArrival && Free(m)))
      && (n.tracking && !m.tracking ==> n.trackingSince == Some(now) && !n.atHome)
      && (n.tracking == m.tracking ==> n.trackingSince == m.trackingSince)
      && (n.manual, n.guiding, n.rate, n.fault) == (m.manual, m.guiding, m.rate, m.fault)
  {}

  // ---- a stop --------------------------------------------------------------------------------

  /** A mount that is stopping comes to rest exactly when a tick comes at or after its time, and
      without tracking or a pulse it has not moved. */
  lemma {:induction false} SettlesIff(m: Mount, c: Config, beats: seq<SlewProofs.Beat>)
    requires m.rate < |RATE_MULTIPLIERS| && m.motion.Stopping?
    ensures var n := SlewProofs.After(m, c, beats);
      && (n.motion.Idle? <==> exists b :: b in beats && m.stopAt <= b.now) && (n.motion.Idle? || n.motion.Stopping?)
      && n.tracking == m.tracking && n.parked == m.parked && n.atHome == m.atHome
      && (SlewProofs.Undisturbed(m, beats) ==> (n.ha, n.dec, n.pier) == (m.ha, m.dec, m.pier))
    decreases |beats|
  {
    if beats != [] {
      var b, n := beats[0], Ticked(m, c, beats[0].dt, beats[0].now, beats[0].lst);
      assert b in beats && forall x :: x in beats <==> x == b || x in beats[1..];
      var turns := TickTurns(m, c, b.dt, b.now, b.lst);
      hide Ticked;
      if n.motion.Idle? {
        RestsOn(n, c, beats[1..]);
      } else {
        SettlesIff(n, c, beats[1..]);
      }
    }
  }

  lemma {:induction false} RestsOn(m: Mount, c: Config, beats: seq<SlewProofs.Beat>)
    requires m.rate < |RATE_MULTIPLIERS| && m.motion.Idle?
    ensures var n := SlewProofs.After(m, c, beats);
      && n.motion.Idle? && n.tracking == m.tracking && n.parked == m.parked && n.atHome == m.atHome
      && (SlewProofs.Undisturbed(m, beats) ==> (n.ha, n.dec, n.pier) == (m.ha, m.dec, m.pier))
    decreases |beats|
  {
    if beats != [] {
      var b := beats[0];
      assert b in beats && forall x :: x in beats[1..] ==> x in beats;
      var turns := TickTurns(m, c, b.dt, b.now, b.lst);
      hide Ticked;
      RestsOn(Ticked(m, c, b.dt, b.now, b.lst), c, beats[1..]);
    }
  }

  // ---- a guide pulse, from the client's command to the mount ---------------------------------

  /** How the server reads a command for a guide vector. */
  function PulseOf(c: Transport.Command): Option<Write> {
    if c.Numbers? && c.name == Indi.GuideNS && c.values.Keys == {Indi.North} then Some(GuideWrite(NorthSouth, 1, c.values[Indi.North]))
    else if c.Numbers? && c.name == Indi.GuideNS && c.values.Keys == {Indi.South} then
      Some(GuideWrite(NorthSouth, -1, c.values[Indi.South]))
    else if c.Numbers? && c.name == Indi.GuideWE && c.values.Keys == {Indi.West} then Some(GuideWrite(WestEast, 1, c.values[Indi.West]))
    else if c.Numbers? && c.name == Indi.GuideWE && c.values.Keys == {Indi.East} then
      Some(GuideWrite(WestEast, -1, c.values[Indi.East]))
    else None
  }

  /** The time of the ticks, all told, at which a pulse until then is in force. */
  function InForce(until: real, beats: seq<SlewProofs.Beat>): real {
    if beats == [] then 0.0 else (if beats[0].now < until then beats[0].dt else 0.0) + InForce(until, beats[1..])
  }

  function Way(rate: real, time: real): real { rate * time }

  lemma WayAdds(rate: real, a: real, b: real)
    ensures Way(rate, a + b) == Way(rate, a) + Way(rate, b) && Way(rate, 0.0) == 0.0
    ensures rate >= 0.0 && a >= 0.0 ==> Way(rate, a) >= 0.0
    ensures rate <= 0.0 && a >= 0.0 ==> Way(rate, a) <= 0.0
    ensures Way(-rate, a) == -Way(rate, a) && Way(0.0, a) == 0.0
  {}

  lemma {:induction false} TimeRuns(until: real, beats: seq<SlewProofs.Beat>)
    requires forall b :: b in beats ==> b.dt >= 0.0
    ensures InForce(until, beats) >= 0.0
  {
    if beats != [] {
      assert beats[0] in beats && forall b :: b in beats[1..] ==> b in beats;
      TimeRuns(until, beats[1..]);
    }
  }

  /** One tick of a resting mount that does not track, `some` of it with a pulse in force. */
  lemma PulseTick(m: Mount, c: Config, b: SlewProofs.Beat, later: real) returns (turns: int)
    requires m.rate < |RATE_MULTIPLIERS| && m.motion.Idle? && !m.tracking && b.dt >= 0.0 && later >= 0.0
    requires var some := if b.now < m.guiding.until then b.dt else 0.0;
      -90.0 <= m.dec <= 90.0 && -90.0 <= m.dec + Way(m.guiding.dec, some + later) <= 90.0
    ensures var n, some := Ticked(m, c, b.dt, b.now, b.lst), if b.now < m.guiding.until then b.dt else 0.0;
      && n == m.(ha := n.ha, dec := n.dec) && -90.0 <= n.dec <= 90.0
      && n.dec + Way(m.guiding.dec, later) == m.dec + Way(m.guiding.dec, some + later)
      && n.ha + 24.0 * (turns as real) + Way(m.guiding.ha, later) / 15.0 == m.ha + Way(m.guiding.ha, some + later) / 15.0
  {
    var some := if b.now < m.guiding.until then b.dt else 0.0;
    turns := TickTurns(m, c, b.dt, b.now, b.lst);
    assert Pulses(m, b.dt, b.now) == Way(m.guiding.ha, some);
    assert Raised(m.dec, m.guiding.dec, b.dt) == Raised(m.dec, Way(m.guiding.dec, b.dt), 1.0);
    hide Ticked, Way;
    WayAdds(m.guiding.dec, some, later);
    WayAdds(m.guiding.dec, later, some);
    WayAdds(m.guiding.ha, some, later);
  }

  /** It turns by the pulse's rates for as long as the pulse is in force. */
  lemma {:induction false} PulseTurns(m: Mount, c: Config, beats: seq<SlewProofs.Beat>) returns (turns: int)
    requires m.rate < |RATE_MULTIPLIERS| && m.motion.Idle? && !m.tracking
    requires forall b :: b in beats ==> b.dt >= 0.0
    requires -90.0 <= m.dec <= 90.0 && -90.0 <= m.dec + Way(m.guiding.dec, InForce(m.guiding.until, beats)) <= 90.0
    ensures var n := SlewProofs.After(m, c, beats);
      && n.dec == m.dec + Way(m.guiding.dec, InForce(m.guiding.until, beats))
      && n.ha + 24.0 * (turns as real) == m.ha + Way(m.guiding.ha, InForce(m.guiding.until, beats)) / 15.0
    decreases |beats|
  {
    hide Ticked, Way;
    turns := 0;
    WayAdds(m.guiding.dec, 0.0, 0.0);
    WayAdds(m.guiding.ha, 0.0, 0.0);
    if beats != [] {
      var b, rest := beats[0], beats[1..];
      assert b in beats && forall x :: x in rest ==> x in beats;
      TimeRuns(m.guiding.until, rest);
      var here := PulseTick(m, c, b, InForce(m.guiding.until, rest));
      var after := PulseTurns(Ticked(m, c, b.dt, b.now, b.lst), c, rest);
      turns := here + after;
    }
  }

  /** Half the sidereal rate, in degrees a second. */
  const HALF_SIDEREAL := 7.5 * 1.00273790935 / 3600.0

  /** The pulse a chunk sets going: north and west up, south and east down. */
  function PulseFor(d: Guide.Direction, until: real): Guiding {
    match d
    case GuideNorth => Guiding(until, 0.0, HALF_SIDEREAL)
    case GuideSouth => Guiding(until, 0.0, -HALF_SIDEREAL)
    case GuideWest => Guiding(until, HALF_SIDEREAL, 0.0)
    case GuideEast => Guiding(until, -HALF_SIDEREAL, 0.0)
  }

  lemma ChunkIsServed(d: Guide.Direction, ms: int, s: Server, c: Config, focusMaximum: int, now: real)
    requires c.speed > 0.0 && Free(s.mount) && GuideNS !in s.rejectNext && GuideWE !in s.rejectNext
    ensures PulseOf(Guide.ChunkCommand(d, ms)).Some?
    ensures Served(s, c, focusMaximum, PulseOf(Guide.ChunkCommand(d, ms)).value, now) ==
      Answer(s.(mount := s.mount.(guiding := PulseFor(d, now + ms as real / 1000.0))), false)
  {
    var w := PulseOf(Guide.ChunkCommand(d, ms)).value;
    RefusedIff(s, c, focusMaximum, w, now);
    GuideDoes(s, c, focusMaximum, w.guideAxis, w.direction, w.ms, now);
    hide Served;
  }

  /** A chunk that the client sends moves the mount the way it is named after: north raises the
      declination, south lowers it, west turns the hour angle up and east down, each by half the
      sidereal rate for as long as the pulse is in force. */
  lemma ChunkMovesItsWay(d: Guide.Direction, ms: int, s: Server, c: Config, focusMaximum: int, now: real,
                         beats: seq<SlewProofs.Beat>) returns (turns: int)
    requires c.speed > 0.0 && s.mount.rate < |RATE_MULTIPLIERS| && s.mount.motion.Idle? && !s.mount.tracking && Free(s.mount)
    requires GuideNS !in s.rejectNext && GuideWE !in s.rejectNext
    requires forall b :: b in beats ==> b.dt >= 0.0
    requires var way := Way(HALF_SIDEREAL, InForce(now + ms as real / 1000.0, beats));
      -90.0 <= s.mount.dec - way && s.mount.dec + way <= 90.0
    ensures PulseOf(Guide.ChunkCommand(d, ms)).Some?
    ensures var a := Served(s, c, focusMaximum, PulseOf(Guide.ChunkCommand(d, ms)).value, now);
      var way := Way(HALF_SIDEREAL, InForce(now + ms as real / 1000.0, beats));
      && !a.refused && a.s.mount.rate < |RATE_MULTIPLIERS|
      && var n := SlewProofs.After(a.s.mount, c, beats);
      && n.dec == s.mount.dec + (if d.GuideNorth? then way else if d.GuideSouth? then -way else 0.0)
      && n.ha + 24.0 * (turns as real) ==
         s.mount.ha + (if d.GuideWest? then way else if d.GuideEast? then -way else 0.0) / 15.0
  {
    ChunkIsServed(d, ms, s, c, focusMaximum, now);
    var until := now + ms as real / 1000.0;
    TimeRuns(until, beats);
    WayAdds(HALF_SIDEREAL, InForce(until, beats), 0.0);
    hide Served, InForce, Way, SlewProofs.After;
    turns := PulseTurns(s.mount.(guiding := PulseFor(d, until)), c, beats);
  }
}
