/** The device's side of the writes: which are refused, and what the rest do to the mount. */
module MockServer {
  import opened Common
  import opened Angles
  import opened VirtualMount

  datatype Name =
    | ConnectionVector | CoordSet | Coordinates | ParkVector | ParkOption | HomeVector | TrackState | AbortMotion
    | MotionNS | MotionWE | SlewRateVector | GuideNS | GuideWE | FocusPosition | FocusAbort | OtherVector

  /** A write as the device understands it. `Malformed` names no vector, a read-only one or an
      element it does not have, carries no readable value, or does not set exactly one element
      where it must; a press leaves the buttons it does not name as they are. */
  datatype Write =
    | SetHome | SetSync | SetParkOption
    | Malformed(name: Name)
    | AbortWrite | FocusAbortWrite
    | Press(axis: AxisName, positive: Option<bool>, negative: Option<bool>)
    | ParkWrite | UnparkWrite | HomeGo | HomeNothing
    | TrackWrite(on: bool) | RateWrite(rate: nat) | Disconnect
    | GotoWrite(ra: real, dec: real)
    | GuideWrite(guideAxis: AxisName, direction: int, ms: real)
    | FocusWrite(position: int)
    | PlainWrite

  function NameOf(w: Write): Name {
    match w
    case SetHome => HomeVector
    case SetSync => CoordSet
    case SetParkOption => ParkOption
    case Malformed(name) => name
    case AbortWrite => AbortMotion
    case FocusAbortWrite => FocusAbort
    case Press(axis, _, _) => if axis.NorthSouth? then MotionNS else MotionWE
    case ParkWrite => ParkVector
    case UnparkWrite => ParkVector
    case HomeGo => HomeVector
    case HomeNothing => HomeVector
    case TrackWrite(_) => TrackState
    case RateWrite(_) => SlewRateVector
    case Disconnect => ConnectionVector
    case GotoWrite(_, _) => Coordinates
    case GuideWrite(axis, _, _) => if axis.NorthSouth? then GuideNS else GuideWE
    case FocusWrite(_) => FocusPosition
    case PlainWrite => OtherVector
  }

  /** The two buttons of an axis as the motion vector shows them. */
  datatype Pair = Pair(positive: bool, negative: bool)

  const OFF := Pair(false, false)

  function Direction(p: Pair): int { if p.positive then 1 else if p.negative then -1 else 0 }

  function Updated(p: Pair, positive: Option<bool>, negative: Option<bool>): Pair {
    Pair(if positive.Some? then positive.value else p.positive, if negative.Some? then negative.value else p.negative)
  }

  datatype Server = Server(mount: Mount, ns: Pair, we: Pair, rejectNext: set<Name>, focusTarget: Option<int>)

  function ButtonsOf(s: Server, axis: AxisName): Pair { if axis.NorthSouth? then s.ns else s.we }

  datatype Answer = Answer(s: Server, refused: bool)

  function Replied(s: Server, r: Reply): Answer {
    if r.Done? then Answer(s.(mount := r.m), false) else Answer(s, true)
  }

  function Pressing(s: Server, axis: AxisName, positive: Option<bool>, negative: Option<bool>): Answer {
    var before := ButtonsOf(s, axis);
    var after := Updated(before, positive, negative);
    var r := ManualStarted(s.mount, axis, Direction(after));
    if after.positive && after.negative then Answer(s, true)
    else if Direction(after) != 0 && after == before then Answer(s, false)
    else if r.Refused? then Answer(s, true)
    else if axis.NorthSouth? then Answer(s.(mount := r.m, ns := after), false)
    else Answer(s.(mount := r.m, we := after), false)
  }

  function Applied(s: Server, c: Config, focusMaximum: int, w: Write, now: real): Answer
    requires c.speed > 0.0
  {
    match w
    case AbortWrite => Answer(s.(mount := Aborted(s.mount, c, now), ns := OFF, we := OFF), false)
    case FocusAbortWrite => Answer(s.(focusTarget := None), false)
    case Press(axis, positive, negative) => Pressing(s, axis, positive, negative)
    case ParkWrite => Replied(s, GotoStarted(s.mount, ToPark, now, 0.0, 0.0))
    case UnparkWrite => Replied(s, Unparked(s.mount, c, now))
    case HomeGo => Replied(s, GotoStarted(s.mount, ToHome, now, 0.0, 0.0))
    case HomeNothing => Answer(s, false)
    case TrackWrite(on) => Replied(s, TrackingSet(s.mount, on, now))
    case RateWrite(rate) =>
      if rate < |RATE_MULTIPLIERS| then Answer(s.(mount := s.mount.(rate := rate)), false) else Answer(s, true)
    case Disconnect => Answer(s, true)
    case GotoWrite(ra, dec) => Replied(s, GotoStarted(s.mount, ToSky, now, ra, dec))
    case GuideWrite(axis, direction, ms) => Replied(s, Guided(s.mount, axis, direction, ms, now))
    case FocusWrite(p) => if 0 <= p <= focusMaximum then Answer(s.(focusTarget := Some(p)), false) else Answer(s, true)
    case PlainWrite => Answer(s, false)
    case _ => Answer(s, true)
  }

  /** A write: the three that would change a stored reference never pass, then an injected
      rejection is used up, then the write is judged. */
  function Served(s: Server, c: Config, focusMaximum: int, w: Write, now: real): Answer
    requires c.speed > 0.0
  {
    if w.SetHome? || w.SetSync? || w.SetParkOption? then Answer(s, true)
    else if NameOf(w) in s.rejectNext then Answer(s.(rejectNext := s.rejectNext - {NameOf(w)}), true)
    else Applied(s, c, focusMaximum, w, now)
  }

  /** A refused write leaves the mount, its buttons and the focuser as they were. */
  lemma RefusedChangesNothing(s: Server, c: Config, focusMaximum: int, w: Write, now: real)
    requires c.speed > 0.0 && Served(s, c, focusMaximum, w, now).refused
    ensures Served(s, c, focusMaximum, w, now).s == s.(rejectNext := s.rejectNext - {NameOf(w)})
         || Served(s, c, focusMaximum, w, now).s == s
  {}

  // ---- every run -----------------------------------------------------------------------------

  datatype Event =
    | Written(w: Write, now: real)
    | Beat(dt: real, now: real, lst: real)
    | Placed(ha: Option<real>, dec: Option<real>, pier: Option<Pier>, parked: Option<bool>, tracking: Option<bool>, now: real)
    | Faulted(fault: Option<Fault>, now: real)
    | Rejecting(name: Name)

  function Step(s: Server, c: Config, focusMaximum: int, e: Event): Server
    requires c.speed > 0.0 && s.mount.rate < |RATE_MULTIPLIERS|
  {
    match e
    case Written(w, now) => Served(s, c, focusMaximum, w, now).s
    case Beat(dt, now, lst) => s.(mount := Ticked(s.mount, c, dt, now, lst))
    case Placed(ha, dec, pier, parked, tracking, now) =>
      s.(mount := VirtualMount.Placed(s.mount, c, ha, dec, pier, parked, tracking, now))
    case Faulted(fault, now) => s.(mount := VirtualMount.Faulted(s.mount, c, fault, now))
    case Rejecting(name) => s.(rejectNext := s.rejectNext + {name})
  }

  /** Which modes go together. */
  predicate Modes(m: Mount) {
    && (m.motion.Slewing? <==> m.target.Some?)
    && (m.parked ==> m.motion.Idle?)
    && (m.atHome ==> m.motion.Idle? && !m.parked)
    && (m.tracking <==> m.trackingSince.Some?)
    && (m.fault.Some? ==> !m.tracking && (m.motion.Idle? || m.motion.Stopping?))
    && (m.motion.Manual? ==> m.manual != STILL)
    && m.rate < |RATE_MULTIPLIERS|
  }

  /** The mount points, and heads, into the range. */
  predicate Pointing(m: Mount) {
    && PoseInRange(m.ha, m.dec)
    && (Heading(m.target, ToSky) ==> -90.0 <= m.target.value.dec <= 90.0)
  }

  /** Motion follows the buttons: never both of an axis, and none in force but the one shown. */
  predicate Following(s: Server) {
    && !(s.ns.positive && s.ns.negative) && !(s.we.positive && s.we.negative)
    && (s.mount.manual.ns == 0 || s.mount.manual.ns == Direction(s.ns))
    && (s.mount.manual.we == 0 || s.mount.manual.we == Direction(s.we))
  }

  predicate Invariant(s: Server) { Modes(s.mount) && Pointing(s.mount) && Following(s) }

  /** Time runs forwards, and test setups place the mount where it can point. */
  predicate Sane(e: Event) {
    && (e.Beat? ==> e.dt >= 0.0)
    && (e.Placed? ==> (e.ha.Some? ==> -12.0 <= e.ha.value < 12.0) && (e.dec.Some? ==> -90.0 <= e.dec.value <= 90.0))
  }

  lemma PressKeeps(s: Server, axis: AxisName, positive: Option<bool>, negative: Option<bool>)
    requires Invariant(s)
    ensures Invariant(Pressing(s, axis, positive, negative).s)
  {}

  lemma WriteKeeps(s: Server, c: Config, focusMaximum: int, w: Write, now: real)
    requires Proper(c) && Invariant(s)
    ensures Invariant(Served(s, c, focusMaximum, w, now).s)
  {
    hide Mod, GuideRate, SettleTime, Pressing;
    if w.Press? {
      PressKeeps(s, w.axis, w.positive, w.negative);
    }
  }

  lemma StepTurnsInRange(m: Mount, g: Pose, step: real)
    requires PoseInRange(m.ha, m.dec) && PoseInRange(g.ha, g.dec) && step >= 0.0
    ensures PoseInRange(HaStepped(m.ha, g.ha, step), DecStepped(m.dec, g.dec, step))
  {
    hide HaLeft, Mod;
  }

  lemma MoveInRange(ha: real, dec: real, haRate: real, decRate: real, dt: real)
    ensures PoseInRange(Turned(ha, haRate, dt), Tilted(dec, decRate, dt))
    ensures -12.0 <= Turned(ha, haRate, dt) < 12.0
  {
    hide Mod;
  }

  lemma TickKeeps(m: Mount, c: Config, dt: real, now: real, lst: real)
    requires Proper(c) && Modes(m) && Pointing(m) && dt >= 0.0
    ensures var n := Ticked(m, c, dt, now, lst); Modes(n) && Pointing(n) && n.manual == m.manual
  {
    hide Wrap, Turned, Tilted, HaStepped, DecStepped, ManualRate, SlewStep, Near, Mod;
    MoveInRange(m.ha, m.dec, SIDEREAL_DEG_PER_S, 0.0, dt);
    var t := Tracked(m, dt);
    MoveInRange(t.ha, t.dec, m.guiding.ha, m.guiding.dec, dt);
    var n := GuideMoved(t, dt, now);
    MoveInRange(n.ha, n.dec, ManualRate(n.rate, c, n.manual.we), ManualRate(n.rate, c, n.manual.ns), dt);
    StepNotBack(c, dt);
    if n.motion.Slewing? {
      StepTurnsInRange(n, Goal(n, c, lst), SlewStep(c, dt));
    }
  }

  lemma StepNotBack(c: Config, dt: real)
    requires Proper(c) && dt >= 0.0
    ensures SlewStep(c, dt) >= 0.0
  {
    assert c.slewRate * c.speed > 0.0;
  }

  lemma StepKeeps(s: Server, c: Config, focusMaximum: int, e: Event)
    requires Proper(c) && Invariant(s) && Sane(e)
    ensures Invariant(Step(s, c, focusMaximum, e))
  {
    hide Ticked, Served, SettleTime, VirtualMount.Placed;
    match e
    case Written(w, now) => WriteKeeps(s, c, focusMaximum, w, now);
    case Beat(dt, now, lst) => TickKeeps(s.mount, c, dt, now, lst);
    case Placed(_, _, _, _, _, _) => PlacingKeeps(s, c, e);
    case _ =>
  }

  lemma PlacingKeeps(s: Server, c: Config, e: Event)
    requires Proper(c) && Invariant(s) && Sane(e) && e.Placed?
    ensures Invariant(Step(s, c, 0, e))
  {
    hide Ticked, Served, SettleTime;
  }

  function Run(s: Server, c: Config, focusMaximum: int, events: seq<Event>): Server
    requires Proper(c) && Invariant(s) && forall e :: e in events ==> Sane(e)
    decreases |events|
  {
    if events == [] then s
    else
      assert events[0] in events;
      StepKeeps(s, c, focusMaximum, events[0]);
      Run(Step(s, c, focusMaximum, events[0]), c, focusMaximum, events[1..])
  }

  function Fresh(c: Config, start: Option<Pose>, startParked: bool): Server {
    Server(Created(c, start, startParked), OFF, OFF, {}, None)
  }

  /** The invariants hold after any sequence of writes, ticks, faults and setups. */
  lemma {:induction false} RunKeeps(s: Server, c: Config, focusMaximum: int, events: seq<Event>)
    requires Proper(c) && Invariant(s) && forall e :: e in events ==> Sane(e)
    ensures Invariant(Run(s, c, focusMaximum, events))
    decreases |events|
  {
    hide Following, Pointing, Step, Sane;
    if events != [] {
      assert events[0] in events;
      StepKeeps(s, c, focusMaximum, events[0]);
      RunKeeps(Step(s, c, focusMaximum, events[0]), c, focusMaximum, events[1..]);
    }
  }

  /** A new server meets them wherever the mount starts in range. */
  lemma FreshIsFine(c: Config, start: Option<Pose>, startParked: bool)
    requires Proper(c) && (start.Some? ==> PoseInRange(start.value.ha, start.value.dec))
    ensures Invariant(Fresh(c, start, startParked))
  {}

  lemma RunCons(s: Server, c: Config, focusMaximum: int, e: Event, rest: seq<Event>)
    requires Proper(c) && Invariant(s) && forall x :: x in [e] + rest ==> Sane(x)
    ensures Invariant(Step(s, c, focusMaximum, e)) && (forall x :: x in rest ==> Sane(x))
    ensures Run(s, c, focusMaximum, [e] + rest) == Run(Step(s, c, focusMaximum, e), c, focusMaximum, rest)
  {
    hide Following, Pointing, Step, Sane;
    assert e in [e] + rest && forall x :: x in rest ==> x in [e] + rest;
    assert ([e] + rest)[1..] == rest;
    StepKeeps(s, c, focusMaximum, e);
  }

  /** A run of four events, with the states it goes through. */
  lemma FourSteps(s: Server, c: Config, events: seq<Event>, s1: Server, s2: Server, s3: Server, s4: Server)
    requires Proper(c) && Invariant(s) && |events| == 4 && forall e :: e in events ==> Sane(e)
    requires s1 == Step(s, c, 0, events[0]) && s1.mount.rate < 10 && s2 == Step(s1, c, 0, events[1]) && s2.mount.rate < 10
    requires s3 == Step(s2, c, 0, events[2]) && s3.mount.rate < 10 && s4 == Step(s3, c, 0, events[3])
    ensures Run(s, c, 0, events) == s4
  {
    hide Following, Pointing, Step, Sane;
    assert events == [events[0]] + ([events[1]] + ([events[2]] + ([events[3]] + [])));
    RunCons(s, c, 0, events[0], [events[1]] + ([events[2]] + ([events[3]] + [])));
    RunCons(s1, c, 0, events[1], [events[2]] + ([events[3]] + []));
    RunCons(s2, c, 0, events[2], [events[3]] + []);
    RunCons(s3, c, 0, events[3], []);
  }

  /** A mount slewing to the pose it already has arrives with the next tick. */
  lemma ArrivesAtOnce(m: Mount, c: Config)
    requires Proper(c) && m.motion.Slewing? && Heading(m.target, ToPark) && m.ha == c.park.ha && m.dec == c.park.dec
    requires m.guiding.until <= 0.0 && m.rate < |RATE_MULTIPLIERS|
    ensures Ticked(m, c, 0.0, 0.0, 0.0).parked && Ticked(m, c, 0.0, 0.0, 0.0).tracking == m.tracking
  {
    hide Tilted, ManualRate;
    var x := m.ha;
    ModIff(x + 12.0, 24.0, x + 12.0, 0);
    ModIff(12.0, 24.0, 12.0, 0);
    hide Mod;
    assert Turned(x, SIDEREAL_DEG_PER_S, 0.0) == x;
    assert HaLeft(x, x) == 0.0;
    assert SlewStep(c, 0.0) == 0.0;
    assert HaStepped(x, x, 0.0) == x && DecStepped(m.dec, m.dec, 0.0) == m.dec;
  }

  /** Tracking can be switched on while the mount slews to PARK, so it may end up parked and tracking. */
  lemma ParkedMayTrack(c: Config)
    requires Proper(c) && !c.trackOnUnpark
    ensures var events := [Written(UnparkWrite, 0.0), Written(ParkWrite, 0.0), Written(TrackWrite(true), 0.0), Beat(0.0, 0.0, 0.0)];
      && Invariant(Fresh(c, None, true)) && (forall e :: e in events ==> Sane(e))
      && Run(Fresh(c, None, true), c, 0, events).mount.parked && Run(Fresh(c, None, true), c, 0, events).mount.tracking
  {
    hide Mod, Ticked, Run;
    FreshIsFine(c, None, true);
    var events := [Written(UnparkWrite, 0.0), Written(ParkWrite, 0.0), Written(TrackWrite(true), 0.0), Beat(0.0, 0.0, 0.0)];
    var s0 := Fresh(c, None, true);
    var s1 := Step(s0, c, 0, events[0]);
    var s2 := Step(s1, c, 0, events[1]);
    var s3 := Step(s2, c, 0, events[2]);
    var s4 := Step(s3, c, 0, events[3]);
    ArrivesAtOnce(s3.mount, c);
    FourSteps(s0, c, events, s1, s2, s3, s4);
  }

  /** A mount that is parked, or on its way to PARK, does not track. */
  predicate Restful(m: Mount) { m.parked || Heading(m.target, ToPark) ==> !m.tracking }

  /** Tracking switched on during a slew to PARK, or a test setup that parks a tracking mount and
      leaves its tracking alone. */
  predicate Rouses(s: Server, e: Event) {
    || (e.Written? && e.w == TrackWrite(true) && TrackState !in s.rejectNext && Heading(s.mount.target, ToPark))
    || (e.Placed? && e.parked == Some(true) && e.tracking != Some(false) && s.mount.tracking)
  }

  lemma RestfulWriteIff(s: Server, c: Config, focusMaximum: int, w: Write, now: real)
    requires Proper(c) && Invariant(s) && Restful(s.mount)
    ensures Restful(Served(s, c, focusMaximum, w, now).s.mount) <==> !Rouses(s, Written(w, now))
  {
    hide Mod, GuideRate, SettleTime, Pointing, Following;
  }

  lemma RestfulTick(m: Mount, c: Config, dt: real, now: real, lst: real)
    requires Proper(c) && Modes(m) && Restful(m)
    ensures Restful(Ticked(m, c, dt, now, lst))
  {
    hide Wrap, Turned, Tilted, HaStepped, DecStepped, ManualRate, SlewStep, Near, Mod;
  }

  /** These two are the only steps after which a mount that did not may track while it is parked
      or on its way there. */
  lemma RestfulStepIff(s: Server, c: Config, focusMaximum: int, e: Event)
    requires Proper(c) && Invariant(s) && Restful(s.mount)
    ensures Restful(Step(s, c, focusMaximum, e).mount) <==> !Rouses(s, e)
  {
    hide Ticked, Served, SettleTime, Pointing, Following;
    match e
    case Written(w, now) => RestfulWriteIff(s, c, focusMaximum, w, now);
    case Beat(dt, now, lst) => RestfulTick(s.mount, c, dt, now, lst);
    case _ =>
  }

  /** The mount is restful before every event and after the last. */
  predicate StaysRestful(s: Server, c: Config, focusMaximum: int, events: seq<Event>)
    requires Proper(c) && Invariant(s) && forall e :: e in events ==> Sane(e)
    decreases |events|
  {
    && Restful(s.mount)
    && (events != [] ==>
          assert events[0] in events;
          StepKeeps(s, c, focusMaximum, events[0]);
          StaysRestful(Step(s, c, focusMaximum, events[0]), c, focusMaximum, events[1..]))
  }

  predicate NeverRoused(s: Server, c: Config, focusMaximum: int, events: seq<Event>)
    requires Proper(c) && Invariant(s) && forall e :: e in events ==> Sane(e)
    decreases |events|
  {
    events != [] ==>
      assert events[0] in events;
      StepKeeps(s, c, focusMaximum, events[0]);
      && !Rouses(s, events[0])
      && NeverRoused(Step(s, c, focusMaximum, events[0]), c, focusMaximum, events[1..])
  }

  /** Over any run a mount that starts so is never parked, or heading there, and tracking exactly
      when neither of the two steps occurs. */
  lemma {:induction false} RestfulRunIff(s: Server, c: Config, focusMaximum: int, events: seq<Event>)
    requires Proper(c) && Invariant(s) && (forall e :: e in events ==> Sane(e)) && Restful(s.mount)
    ensures StaysRestful(s, c, focusMaximum, events) <==> NeverRoused(s, c, focusMaximum, events)
    decreases |events|
  {
    hide Following, Pointing, Step, Sane, Restful, Rouses;
    if events != [] {
      assert events[0] in events;
      StepKeeps(s, c, focusMaximum, events[0]);
      RestfulStepIff(s, c, focusMaximum, events[0]);
      if !Rouses(s, events[0]) {
        RestfulRunIff(Step(s, c, focusMaximum, events[0]), c, focusMaximum, events[1..]);
      }
    }
  }

  /** So a new mount never tracks while parked or on its way there exactly when neither occurs. */
  lemma FreshRunIff(c: Config, start: Option<Pose>, startParked: bool, focusMaximum: int, events: seq<Event>)
    requires Proper(c) && (start.Some? ==> PoseInRange(start.value.ha, start.value.dec))
    requires forall e :: e in events ==> Sane(e)
    ensures Invariant(Fresh(c, start, startParked))
    ensures StaysRestful(Fresh(c, start, startParked), c, focusMaximum, events) <==>
            NeverRoused(Fresh(c, start, startParked), c, focusMaximum, events)
  {
    hide Following, Pointing, Modes, StaysRestful, NeverRoused;
    FreshIsFine(c, start, startParked);
    RestfulRunIff(Fresh(c, start, startParked), c, focusMaximum, events);
  }

  // ---- the device ----------------------------------------------------------------------------

  class Device {
    const mount: MountDriver
    const focusMaximum: int
    var ns: Pair
    var we: Pair
    var rejectNext: set<Name>
    var focusTarget: Option<int>

    ghost function View(): Server
      reads this, mount
    {
      Server(mount.View(), ns, we, rejectNext, focusTarget)
    }

    constructor (m: MountDriver, maximum: int)
      ensures mount == m && focusMaximum == maximum && View() == Server(m.View(), OFF, OFF, {}, None)
    {
      mount, focusMaximum := m, maximum;
      ns, we, rejectNext, focusTarget := OFF, OFF, {}, None;
    }

    /** One write: applied as specified, or refused. */
    method ApplyWrite(w: Write, now: real) returns (refused: bool)
      requires mount.config.speed > 0.0
      modifies this, mount
      ensures var a := Served(old(View()), mount.config, focusMaximum, w, now); View() == a.s && refused == a.refused
    {
      hide Mod, TrackingSet, Unparked, GotoStarted, Guided, ManualStarted, Aborted;
      if w.SetHome? || w.SetSync? || w.SetParkOption? {
        return true;
      }
      if NameOf(w) in rejectNext {
        rejectNext := rejectNext - {NameOf(w)};
        return true;
      }
      match w {
        case AbortWrite =>
          mount.Abort(now);
          ns, we, refused := OFF, OFF, false;
        case FocusAbortWrite =>
          focusTarget, refused := None, false;
        case Press(axis, positive, negative) =>
          refused := ApplyPress(axis, positive, negative);
        case ParkWrite =>
          refused := mount.StartGoto(ToPark, now, 0.0, 0.0);
        case UnparkWrite =>
          refused := mount.Unpark(now);
        case HomeGo =>
          refused := mount.StartGoto(ToHome, now, 0.0, 0.0);
        case TrackWrite(on) =>
          refused := mount.SetTracking(on, now);
        case RateWrite(rate) =>
          refused := rate >= |RATE_MULTIPLIERS|;
          if !refused {
            mount.rate := rate;
          }
        case GotoWrite(ra, dec) =>
          refused := mount.StartGoto(ToSky, now, ra, dec);
        case GuideWrite(axis, direction, ms) =>
          refused := mount.Guide(axis, direction, ms, now);
        case FocusWrite(p) =>
          refused := !(0 <= p <= focusMaximum);
          if !refused {
            focusTarget := Some(p);
          }
        case HomeNothing =>
          refused := false;
        case PlainWrite =>
          refused := false;
        case _ =>
          refused := true;
      }
    }

    /** A press of the motion buttons. A direction that is on already starts nothing again. */
    method ApplyPress(axis: AxisName, positive: Option<bool>, negative: Option<bool>) returns (refused: bool)
      modifies this`ns, this`we, mount
      ensures var a := Pressing(old(View()), axis, positive, negative); View() == a.s && refused == a.refused
    {
      hide ManualStarted;
      var before := if axis.NorthSouth? then ns else we;
      var after := Updated(before, positive, negative);
      if after.positive && after.negative {
        return true;
      }
      var direction := Direction(after);
      if direction != 0 && after == before {
        return false;
      }
      refused := mount.StartManual(axis, direction);
      if !refused {
        if axis.NorthSouth? {
          ns := after;
        } else {
          we := after;
        }
      }
    }
  }
}
