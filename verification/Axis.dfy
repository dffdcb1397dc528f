/** Finite axis-angle moves: one target, watched all the way, and a confirmed stop. */
module Axis {
  import opened Common
  import opened Angles
  import opened Indi
  import opened Transport
  import opened Confirmation
  import opened Stop
  import opened Looks

  datatype AxisName = AxisRa | AxisDec
  datatype Mode = Terrestrial | Sidereal | Lunar | Solar

  datatype Request = Request(axis: AxisName, offset: real, timeout: real, poll: real, mode: Mode)

  predicate ValidRequest(q: Request) {
    && q.mode.Terrestrial? && 30.0 / 3600.0 <= Abs(q.offset) <= 10.0
    && 1.0 <= q.timeout <= 60.0 && 0.05 <= q.poll <= 0.25
  }

  /** What a request may ask for: a terrestrial move of at least half an arcminute and at most ten
      degrees, either way. */
  lemma ValidRequestIff(q: Request)
    ensures ValidRequest(q) <==>
      && q.mode == Terrestrial && (1.0 / 120.0 <= q.offset <= 10.0 || 1.0 / 120.0 <= -q.offset <= 10.0)
      && 1.0 <= q.timeout && q.timeout <= 60.0 && 50.0 <= 1000.0 * q.poll <= 250.0
  {}

  datatype Bounds = Bounds(minAlt: real, minDec: real, maxDec: real)

  /** The safety inputs of one look; while the mount moves it may slew and track. */
  predicate Checked(s: Snapshot, moving: bool, needCoordinates: bool) {
    && s.blockers !! {DeviceDisconnected, StatusNotFresh, StatusAlert, StatusUnavailable, LimitOrParkFault, ReportedError,
                      PierConflict, PierUnknown}
    && s.statusLive && !s.atLimit && !s.parked && s.side.Some?
    && (needCoordinates ==>
          s.blockers !! {CoordinatesNotFresh, CoordinatesInvalid} && s.coordinatesLive && s.ra.Some? && s.dec.Some?)
    && (!moving ==> !s.tracking && !s.slewing)
  }

  /** Exactly when a check passes, in terms of what the cache holds: before a move the mount stands
      still, and coordinates count before it and until its target was seen. */
  lemma CheckedIff(cache: map<Name, Property>, c: Circumstances, moving: bool, needCoordinates: bool)
    ensures var status, coords, pier := Lookup(cache, Status), Lookup(cache, Coordinates), Lookup(cache, PierSide);
      var g := Decoded(status);
      Checked(Read(cache, c), moving, needCoordinates) <==>
        && c.open && Holds(Lookup(cache, Connection), Connect, On)
        && status.Some? && !c.statusAged && status.value.light != Alert && !Faulted(status.value)
        && (needCoordinates ==>
              && coords.Some? && !c.coordinatesAged
              && Numeric(coords, Ra, 0.0, 24.0).Some? && Numeric(coords, Dec, -90.0, 90.0).Some?)
        && g.Some? && !g.value.parked && !g.value.atLimit && !g.value.parkFailed
        && (moving || (!g.value.tracking && !g.value.slewing))
        && PierOf(g).Some?
        && (pier.Some? && !c.pierAged ==> ReportedPier(pier).None? || ReportedPier(pier) == PierOf(g))
  {
    hide Lookup, Decoded, Holds, Faulted, PierOf, ReportedPier, Numeric;
    var b := Read(cache, c).blockers;
    assert Checked(Read(cache, c), moving, needCoordinates) ==>
      DeviceDisconnected !in b && StatusNotFresh !in b && StatusAlert !in b && StatusUnavailable !in b &&
      LimitOrParkFault !in b && ReportedError !in b && PierConflict !in b && PierUnknown !in b;
  }

  function Target(q: Request, before: Snapshot): (real, real)
    requires before.ra.Some? && before.dec.Some?
  {
    (Mod(if q.axis.AxisRa? then before.ra.value - q.offset / 15.0 else before.ra.value, 24.0),
     before.dec.value + if q.axis.AxisDec? then q.offset else 0.0)
  }

  function TargetCommand(q: Request, before: Snapshot): Command
    requires before.ra.Some? && before.dec.Some?
  {
    Numbers(Coordinates, map[Ra := Target(q, before).0, Dec := Target(q, before).1])
  }

  /** The target stays within the declination bounds and, when the hour angle is known, above
      the lowest altitude. The projection is any function of hour angle and declination. */
  predicate Reachable(q: Request, b: Bounds, altitude: (real, real) -> real, before: Snapshot)
    requires before.ra.Some? && before.dec.Some?
  {
    && b.minDec <= Target(q, before).1 <= b.maxDec
    && (before.ha.Some? ==>
          altitude(before.ha.value + (if q.axis.AxisRa? then q.offset else 0.0), Target(q, before).1) >= b.minAlt - 0.000000001)
  }

  /** Where the target lies: on the declination moved to, and at the hour angle moved to. */
  lemma ReachableIff(q: Request, b: Bounds, altitude: (real, real) -> real, before: Snapshot)
    requires before.ra.Some? && before.dec.Some?
    ensures q.axis.AxisRa? ==>
      (Reachable(q, b, altitude, before) <==>
         && before.dec.value >= b.minDec && b.maxDec >= before.dec.value
         && (before.ha == None ||
             altitude(before.ha.value + q.offset, before.dec.value) + 0.000000001 >= b.minAlt))
    ensures q.axis.AxisDec? ==>
      (Reachable(q, b, altitude, before) <==>
         && before.dec.value + q.offset >= b.minDec && b.maxDec >= before.dec.value + q.offset
         && (before.ha == None ||
             altitude(before.ha.value, before.dec.value + q.offset) + 0.000000001 >= b.minAlt))
  {
    assert before.ha.Some? ==> before.ha.value + 0.0 == before.ha.value;
    assert before.dec.value + 0.0 == before.dec.value;
  }

  function Tolerance(q: Request): real { Min(0.05, Max(10.0 / 3600.0, Abs(q.offset) * 0.10)) }

  function Overrun(q: Request): real { Max(0.25, Min(0.35, Abs(q.offset) * 0.15)) }

  /** The tolerance is a tenth of the request, but no less than ten arcseconds and no more than
      three arcminutes; the guard band beyond the target lies between 0.25 and 0.35 degrees. */
  lemma TolerancesAre(q: Request)
    ensures var size := if q.offset < 0.0 then -q.offset else q.offset;
      && (36.0 * size <= 1.0 ==> 360.0 * Tolerance(q) == 1.0)
      && (1.0 <= 36.0 * size <= 18.0 ==> 10.0 * Tolerance(q) == size)
      && (2.0 * size >= 1.0 ==> 20.0 * Tolerance(q) == 1.0)
      && (3.0 * size <= 5.0 ==> 4.0 * Overrun(q) == 1.0)
      && (5.0 <= 3.0 * size <= 7.0 ==> 20.0 * Overrun(q) == 3.0 * size)
      && (3.0 * size >= 7.0 ==> 20.0 * Overrun(q) == 7.0)
  {}

  /** How far the axis has turned between two looks. */
  function Turned(q: Request, before: Snapshot, now: Snapshot): real
    requires before.ra.Some? && before.dec.Some? && now.ra.Some? && now.dec.Some?
  {
    if q.axis.AxisRa? then RaDelta(before.ra.value, now.ra.value) else now.dec.value - before.dec.value
  }

  /** In declination that is the difference; in right ascension it is fifteen degrees to the hour
      westward, the short way round. */
  lemma TurnedIs(q: Request, before: Snapshot, now: Snapshot) returns (turns: int)
    requires before.ra.Some? && before.dec.Some? && now.ra.Some? && now.dec.Some?
    ensures q.axis.AxisDec? ==> before.dec.value + Turned(q, before, now) == now.dec.value
    ensures q.axis.AxisRa? ==>
      && -180.0 < Turned(q, before, now) <= 180.0
      && Turned(q, before, now) == 15.0 * (before.ra.value - now.ra.value + 24.0 * turns as real)
  {
    var x := now.ra.value - before.ra.value + 12.0;
    turns := (x / 24.0).Floor;
    ModRange(x, 24.0);
    assert Mod(x, 24.0) == x - 24.0 * (turns as real);
  }

  /** The target's axis angle is the requested one. */
  lemma TargetIsRequested(q: Request, before: Snapshot)
    requires ValidRequest(q) && before.ra.Some? && before.dec.Some?
    ensures var (ra, dec) := Target(q, before);
      && 0.0 <= ra < 24.0
      && (if q.axis.AxisRa? then RaDelta(before.ra.value, ra) == q.offset && dec == before.dec.value
          else dec - before.dec.value == q.offset)
  {
    hide Mod, RaDelta;
    AimedOffsetIff(before.ra.value, q.offset);
    ModRange(if q.axis.AxisRa? then before.ra.value - q.offset / 15.0 else before.ra.value, 24.0);
  }

  /** A look on the way: it passed its check on the starting pier side. */
  predicate Watched(before: Snapshot, s: Snapshot) {
    Checked(s, true, false) && s.side == before.side
  }

  /** Neither reversed beyond the tolerance nor overran the guard band. */
  predicate InBand(q: Request, before: Snapshot, s: Snapshot)
    requires before.ra.Some? && before.dec.Some?
  {
    && s.ra.Some? && s.dec.Some?
    && var signed := if q.offset > 0.0 then Turned(q, before, s) else -Turned(q, before, s);
    -Tolerance(q) <= signed <= Abs(q.offset) + Overrun(q)
  }

  lemma InBandIff(q: Request, before: Snapshot, s: Snapshot)
    requires before.ra.Some? && before.dec.Some?
    ensures s.ra.None? || s.dec.None? ==> !InBand(q, before, s)
    ensures s.ra.Some? && s.dec.Some? && q.offset > 0.0 ==>
      (InBand(q, before, s) <==> -Tolerance(q) <= Turned(q, before, s) <= q.offset + Overrun(q))
    ensures s.ra.Some? && s.dec.Some? && q.offset < 0.0 ==>
      (InBand(q, before, s) <==> q.offset - Overrun(q) <= Turned(q, before, s) <= Tolerance(q))
  {
    hide Turned, Tolerance, Overrun;
  }

  /** The look brought coordinates newer than all before it. */
  predicate Leads(before: Snapshot, seen: seq<Snapshot>, i: nat)
    requires i < |seen|
  {
    seen[i].coordinatesRevision > before.coordinatesRevision &&
    forall j :: 0 <= j < i ==> seen[j].coordinatesRevision < seen[i].coordinatesRevision
  }

  /** Nothing that follows changes which looks lead. */
  lemma LeadsOrNot(before: Snapshot, seen: seq<Snapshot>, s: Snapshot, i: nat)
    requires i < |seen|
    ensures Leads(before, seen + [s], i) <==> Leads(before, seen, i)
  {
    assert forall j :: 0 <= j <= i ==> (seen + [s])[j] == seen[j];
  }

  predicate NoneNewer(before: Snapshot, seen: seq<Snapshot>, last: int) {
    before.coordinatesRevision <= last && forall s :: s in seen ==> s.coordinatesRevision <= last
  }

  /** The newest coordinates so far. */
  ghost predicate Newest(before: Snapshot, seen: seq<Snapshot>, last: int) {
    && NoneNewer(before, seen, last)
    && (last == before.coordinatesRevision || exists s :: s in seen && s.coordinatesRevision == last)
  }

  lemma NewerLeads(before: Snapshot, seen: seq<Snapshot>, s: Snapshot, last: int)
    requires Newest(before, seen, last)
    ensures Leads(before, seen + [s], |seen|) <==> s.coordinatesRevision > last
    ensures Newest(before, seen + [s], if s.coordinatesRevision > last then s.coordinatesRevision else last)
  {
    assert forall j :: 0 <= j < |seen| ==> (seen + [s])[j] == seen[j];
    if z :| z in seen && z.coordinatesRevision == last {
      assert z in seen + [s];
    }
    assert s in seen + [s];
  }

  /** The axis is within the tolerance of the request and, for a move in right ascension, the
      declination where it was. */
  predicate Close(q: Request, before: Snapshot, s: Snapshot)
    requires before.ra.Some? && before.dec.Some?
  {
    && s.ra.Some? && s.dec.Some? && Abs(Turned(q, before, s) - q.offset) <= Tolerance(q)
    && (q.axis.AxisRa? ==> Abs(s.dec.value - before.dec.value) <= 0.05)
  }

  /** Look `i` brought new coordinates close to the target. */
  predicate AtTarget(q: Request, before: Snapshot, seen: seq<Snapshot>, i: nat)
    requires before.ra.Some? && before.dec.Some?
  {
    i < |seen| && Leads(before, seen, i) && Close(q, before, seen[i])
  }

  ghost predicate Sighted(q: Request, before: Snapshot, seen: seq<Snapshot>)
    requires before.ra.Some? && before.dec.Some?
  {
    exists i: nat :: i < |seen| && AtTarget(q, before, seen, i)
  }

  /** The target was reached at look `i` and at none before. */
  ghost predicate FirstAt(q: Request, before: Snapshot, seen: seq<Snapshot>, i: nat)
    requires before.ra.Some? && before.dec.Some?
  {
    AtTarget(q, before, seen, i) && forall j: nat :: j < i ==> !AtTarget(q, before, seen, j)
  }

  lemma AtTargetOrNot(q: Request, before: Snapshot, seen: seq<Snapshot>, s: Snapshot, i: nat)
    requires before.ra.Some? && before.dec.Some? && i < |seen|
    ensures AtTarget(q, before, seen + [s], i) <==> AtTarget(q, before, seen, i)
  {
    hide Leads, Close;
    LeadsOrNot(before, seen, s, i);
  }

  /** Everything seen until the target was reached stayed within the band. */
  ghost predicate StayedInBand(q: Request, before: Snapshot, seen: seq<Snapshot>, until: nat)
    requires before.ra.Some? && before.dec.Some?
  {
    forall i: nat :: i < until && i < |seen| && Leads(before, seen, i) ==> InBand(q, before, seen[i])
  }

  lemma BandPush(q: Request, before: Snapshot, seen: seq<Snapshot>, until: nat, s: Snapshot)
    requires before.ra.Some? && before.dec.Some? && StayedInBand(q, before, seen, until) && until <= |seen|
    ensures StayedInBand(q, before, seen + [s], until)
    ensures until == |seen| && (Leads(before, seen + [s], |seen|) ==> InBand(q, before, s)) ==>
      StayedInBand(q, before, seen + [s], until + 1)
  {
    hide InBand, Leads;
    forall i: nat | i < until ensures Leads(before, seen + [s], i) <==> Leads(before, seen, i) {
      LeadsOrNot(before, seen, s, i);
    }
  }

  /** How many looks brought newer coordinates. */
  function Leading(before: Snapshot, seen: seq<Snapshot>): nat {
    if seen == [] then 0
    else Leading(before, seen[..|seen| - 1]) + if Leads(before, seen, |seen| - 1) then 1 else 0
  }

  lemma LeadingPush(before: Snapshot, seen: seq<Snapshot>, s: Snapshot)
    ensures Leading(before, seen + [s]) == Leading(before, seen) + if Leads(before, seen + [s], |seen|) then 1 else 0
  {
    assert (seen + [s])[..|seen|] == seen;
  }

  // ---- a move under way ----------------------------------------------------------------------

  /** What the looks so far have shown: once the target was sighted the mount has been slewing on;
      until then it stayed in the band, `last` the newest coordinates and `count` how often they
      were renewed. */
  ghost predicate OnWay(q: Request, before: Snapshot, seen: seq<Snapshot>, sighted: bool, arrival: nat, last: int, count: nat)
    requires before.ra.Some? && before.dec.Some?
  {
    && (forall s :: s in seen ==> Watched(before, s))
    && (sighted ==>
          && arrival < |seen| && FirstAt(q, before, seen, arrival) && StayedInBand(q, before, seen, arrival + 1)
          && count == Leading(before, seen[..arrival + 1]) && forall i :: arrival <= i < |seen| ==> seen[i].slewing)
    && (!sighted ==>
          && !Sighted(q, before, seen) && StayedInBand(q, before, seen, |seen|)
          && count == Leading(before, seen) && Newest(before, seen, last))
  }

  /** The target was first sighted at look `arrival`, everything up to it stayed within the band, and
      the last look is the first from there on that shows the slew over. */
  ghost predicate Reached(q: Request, before: Snapshot, way: seq<Snapshot>, arrival: nat)
    requires before.ra.Some? && before.dec.Some?
  {
    && (forall s :: s in way ==> Watched(before, s))
    && arrival < |way| && FirstAt(q, before, way, arrival) && StayedInBand(q, before, way, arrival + 1)
    && !way[|way| - 1].slewing && forall i :: arrival <= i < |way| - 1 ==> way[i].slewing
  }

  lemma NothingStrays(q: Request, before: Snapshot)
    requires before.ra.Some? && before.dec.Some?
    ensures OnWay(q, before, [], false, 0, before.coordinatesRevision, 0)
  {}

  lemma FirstStays(q: Request, before: Snapshot, seen: seq<Snapshot>, s: Snapshot, i: nat)
    requires before.ra.Some? && before.dec.Some? && i < |seen| && FirstAt(q, before, seen, i)
    ensures FirstAt(q, before, seen + [s], i)
  {
    hide AtTarget;
    forall j: nat | j <= i {
      AtTargetOrNot(q, before, seen, s, j);
    }
  }

  lemma NoSightBefore(q: Request, before: Snapshot, seen: seq<Snapshot>, s: Snapshot)
    requires before.ra.Some? && before.dec.Some? && !Sighted(q, before, seen)
    ensures AtTarget(q, before, seen + [s], |seen|) ==> FirstAt(q, before, seen + [s], |seen|)
    ensures !AtTarget(q, before, seen + [s], |seen|) ==> !Sighted(q, before, seen + [s])
  {
    hide AtTarget;
    forall j: nat | j < |seen| {
      AtTargetOrNot(q, before, seen, s, j);
    }
  }

  /** One more look at a mount whose target was sighted already. */
  lemma SlewsOn(q: Request, before: Snapshot, seen: seq<Snapshot>, arrival: nat, last: int, count: nat, s: Snapshot)
    requires before.ra.Some? && before.dec.Some? && OnWay(q, before, seen, true, arrival, last, count) && Watched(before, s)
    ensures s.slewing ==> OnWay(q, before, seen + [s], true, arrival, last, count)
    ensures !s.slewing ==> Reached(q, before, seen + [s], arrival)
    ensures arrival < |seen| && count == Leading(before, (seen + [s])[..arrival + 1])
  {
    hide Watched, FirstAt, StayedInBand;
    FirstStays(q, before, seen, s, arrival);
    BandPush(q, before, seen, arrival + 1, s);
    assert (seen + [s])[..arrival + 1] == seen[..arrival + 1];
  }

  /** One more look at a mount whose target was not sighted yet. */
  lemma Approaches(q: Request, before: Snapshot, seen: seq<Snapshot>, last: int, count: nat, s: Snapshot)
    requires before.ra.Some? && before.dec.Some? && OnWay(q, before, seen, false, 0, last, count) && Watched(before, s)
    ensures s.coordinatesRevision <= last ==> OnWay(q, before, seen + [s], false, 0, last, count)
    ensures s.coordinatesRevision > last && !InBand(q, before, s) ==> OffTrack(q, before, seen + [s])
    ensures s.coordinatesRevision > last && InBand(q, before, s) ==>
      && count + 1 == Leading(before, (seen + [s])[..|seen| + 1])
      && (!Close(q, before, s) ==> OnWay(q, before, seen + [s], false, 0, s.coordinatesRevision, count + 1))
      && (Close(q, before, s) && s.slewing ==>
            OnWay(q, before, seen + [s], true, |seen|, s.coordinatesRevision, count + 1))
      && (Close(q, before, s) && !s.slewing ==> Reached(q, before, seen + [s], |seen|))
  {
    hide Watched, StayedInBand, FirstAt, Sighted, Leads, InBand, Close, Newest, Lost;
    NewerLeads(before, seen, s, last);
    LeadingPush(before, seen, s);
    NoSightBefore(q, before, seen, s);
    BandPush(q, before, seen, |seen|, s);
    assert (seen + [s])[..|seen|] == seen && (seen + [s])[..|seen| + 1] == seen + [s];
  }

  /** The one look made does not pass the check, or the target is out of reach. */
  ghost predicate Refused(q: Request, b: Bounds, altitude: (real, real) -> real, looks: seq<Snapshot>) {
    |looks| == 1 && !(Checked(looks[0], false, true) && Reachable(q, b, altitude, looks[0]))
  }

  // ---- what ends a move early ----------------------------------------------------------------

  /** The look fails its check, or shows the other pier side. */
  ghost predicate Lost(before: Snapshot, s: Snapshot, needCoordinates: bool) {
    !Checked(s, true, needCoordinates) || s.side != before.side
  }

  /** The last look on the way is lost, coordinates counting only until the target was seen, or it
      brought new coordinates outside the band. */
  ghost predicate OffTrack(q: Request, before: Snapshot, looks: seq<Snapshot>)
    requires before.ra.Some? && before.dec.Some?
  {
    looks != [] &&
    var seen, s := looks[..|looks| - 1], looks[|looks| - 1];
    || Lost(before, s, !Sighted(q, before, seen))
    || (!Sighted(q, before, seen) && Leads(before, looks, |looks| - 1) && !InBand(q, before, s))
  }

  /** At no time did two fresh looks in a row show the mount at rest, a last look that is lost left aside. */
  ghost predicate NotSettled(before: Snapshot, looks: seq<Snapshot>, from: int) {
    || Unsettled(looks, from)
    || (looks != [] && Unsettled(looks[..|looks| - 1], from) && Lost(before, looks[|looks| - 1], false))
  }

  /** What the looks after TRACK_OFF have shown so far, the last `stopped` fresh ones at rest. */
  ghost predicate Settling(before: Snapshot, seen: seq<Snapshot>, news: seq<Snapshot>, from: int, stopped: nat) {
    && (forall s :: s in seen ==> Watched(before, s)) && (forall s :: s in news ==> s in seen)
    && news == Renewed(seen, from) && stopped <= |news|
    && (forall i :: |news| - stopped <= i < |news| ==> !news[i].tracking && !news[i].slewing)
    && (stopped < |news| ==> news[|news| - stopped - 1].tracking || news[|news| - stopped - 1].slewing)
    && (stopped < 2 ==> Unsettled(seen, from))
    && (stopped == 2 ==> seen != [] && seen[|seen| - 1] == news[|news| - 1] && Unsettled(seen[..|seen| - 1], from))
  }

  lemma SettlingStarts(before: Snapshot, from: int)
    ensures Settling(before, [], [], from, 0)
  {}

  lemma SettlingPush(before: Snapshot, seen: seq<Snapshot>, news: seq<Snapshot>, from: int, stopped: nat, s: Snapshot)
    requires Settling(before, seen, news, from, stopped) && stopped < 2 && Watched(before, s)
    ensures if s.statusRevision <= LastLook(news, from) then Settling(before, seen + [s], news, from, stopped)
            else Settling(before, seen + [s], news + [s], from, if !s.tracking && !s.slewing then stopped + 1 else 0)
  {
    hide Watched, Renewed, Unsettled;
    RenewedPush(seen, s, from);
    StillUnsettled(seen, s, from, stopped);
  }

  lemma SettlingEnds(before: Snapshot, seen: seq<Snapshot>, news: seq<Snapshot>, from: int)
    requires Settling(before, seen, news, from, 2)
    ensures (forall s :: s in seen ==> Watched(before, s)) && (forall s :: s in news ==> s in seen)
    ensures AtRestTwice(news) && |news| >= 2 && seen != [] && seen[|seen| - 1] == news[|news| - 1]
    ensures news == Renewed(seen, from) && Unsettled(seen[..|seen| - 1], from)
  {
    hide Watched, Renewed, Unsettled;
  }

  lemma LooksUnsettled(before: Snapshot, seen: seq<Snapshot>, news: seq<Snapshot>, more: seq<Snapshot>, from: int, stopped: nat)
    requires Settling(before, seen, news, from, stopped) && stopped < 2
    requires |more| <= 1 && (more != [] ==> Lost(before, more[0], false))
    ensures NotSettled(before, seen + more, from)
  {
    hide Unsettled, Lost, Renewed, Watched;
    if more == [] {
      assert seen + more == seen;
    } else {
      assert (seen + more)[..|seen|] == seen;
    }
  }

  /** The last look of all is lost or shows the axis away from its target. */
  ghost predicate OffTarget(q: Request, before: Snapshot, looks: seq<Snapshot>)
    requires before.ra.Some? && before.dec.Some?
  {
    looks != [] &&
    var s := looks[|looks| - 1];
    Lost(before, s, false) || s.ra.None? || s.dec.None? || Abs(Turned(q, before, s) - q.offset) > Tolerance(q)
  }

  lemma OffTargetOnTheWay(q: Request, before: Snapshot, way: seq<Snapshot>, all: seq<Snapshot>, rest: seq<Snapshot>)
    requires before.ra.Some? && before.dec.Some? && all == way + rest && rest != []
    ensures OffTarget(q, before, rest) ==> OffTarget(q, before, all)
  {
    hide Lost, Turned, Tolerance, Abs;
    assert all[|all| - 1] == rest[|rest| - 1];
  }

  /** From the first look that brought the target on, all show the mount slewing. */
  ghost predicate SlewsSince(q: Request, before: Snapshot, looks: seq<Snapshot>)
    requires before.ra.Some? && before.dec.Some?
  {
    forall i: nat, j: nat :: i <= j < |looks| && AtTarget(q, before, looks, i) ==> looks[j].slewing
  }

  /** The move was at no time over, a last look that is lost or strays left aside. */
  ghost predicate NotThere(q: Request, before: Snapshot, looks: seq<Snapshot>)
    requires before.ra.Some? && before.dec.Some?
  {
    || SlewsSince(q, before, looks)
    || (looks != [] && SlewsSince(q, before, looks[..|looks| - 1]) && OffTrack(q, before, looks))
  }

  lemma OnWaySlews(q: Request, before: Snapshot, seen: seq<Snapshot>, sighted: bool, arrival: nat, last: int, count: nat)
    requires before.ra.Some? && before.dec.Some? && OnWay(q, before, seen, sighted, arrival, last, count)
    ensures SlewsSince(q, before, seen) && NotThere(q, before, seen)
  {
    hide AtTarget, Leading, Watched, StayedInBand, OffTrack;
  }

  lemma Strays(q: Request, before: Snapshot, seen: seq<Snapshot>, sighted: bool, arrival: nat, last: int, count: nat, s: Snapshot)
    requires before.ra.Some? && before.dec.Some? && OnWay(q, before, seen, sighted, arrival, last, count)
    ensures OffTrack(q, before, seen + [s]) ==> NotThere(q, before, seen + [s])
  {
    hide OnWay, OffTrack, SlewsSince;
    OnWaySlews(q, before, seen, sighted, arrival, last, count);
    assert (seen + [s])[..|seen|] == seen;
  }

  lemma LooksLost(q: Request, before: Snapshot, seen: seq<Snapshot>, sighted: bool, arrival: nat, last: int, count: nat,
                  more: seq<Snapshot>)
    requires before.ra.Some? && before.dec.Some? && OnWay(q, before, seen, sighted, arrival, last, count)
    requires |more| <= 1 && (more != [] ==> Lost(before, more[0], !sighted))
    ensures NotThere(q, before, seen + more) && (more != [] ==> OffTrack(q, before, seen + more))
  {
    hide Lost, AtTarget, NotThere;
    if more == [] {
      assert seen + more == seen;
      OnWaySlews(q, before, seen, sighted, arrival, last, count);
    } else {
      assert (seen + more)[..|seen|] == seen && more == [more[0]];
      assert sighted ==> AtTarget(q, before, seen, arrival);
      Strays(q, before, seen, sighted, arrival, last, count, more[0]);
    }
  }

  /** The mount came to rest at no time, a last look that is lost or off the target left aside. */
  ghost predicate NeverDone(q: Request, before: Snapshot, looks: seq<Snapshot>, from: int)
    requires before.ra.Some? && before.dec.Some?
  {
    || Unsettled(looks, from)
    || (looks != [] && Unsettled(looks[..|looks| - 1], from) && OffTarget(q, before, looks))
  }

  lemma NotDone(q: Request, before: Snapshot, looks: seq<Snapshot>, from: int)
    requires before.ra.Some? && before.dec.Some? && NotSettled(before, looks, from)
    ensures NeverDone(q, before, looks, from)
  {
    hide Unsettled, Lost, Turned, Tolerance, Abs;
  }

  /** How far the looks show a failed move to have come: it never arrived or, with TRACK_OFF tried,
      it arrived by `way` and never came to rest at its target. */
  ghost predicate ShortOf(q: Request, before: Snapshot, looks: seq<Snapshot>, off: bool, way: seq<Snapshot>)
    requires before.ra.Some? && before.dec.Some?
  {
    if off then way != [] && way <= looks && NeverDone(q, before, looks[|way|..], way[|way| - 1].statusRevision)
    else NotThere(q, before, looks)
  }

  /** The same of all looks and the number of commands tried, once the target is one of them. */
  ghost predicate Unfinished(q: Request, looks: seq<Snapshot>, tried: int, way: seq<Snapshot>) {
    && looks != [] && looks[0].ra.Some? && looks[0].dec.Some? && 2 <= tried <= 3
    && ShortOf(q, looks[0], looks[1..], tried == 3, way)
  }

  lemma NothingThere(q: Request, before: Snapshot, way: seq<Snapshot>)
    requires before.ra.Some? && before.dec.Some?
    ensures ShortOf(q, before, [], false, way)
  {}

  /** Why a move failed, from its looks and the number of commands it tried: refused before the
      first, lost or out of the band before TRACK_OFF, or lost or off its target at the end. */
  ghost predicate Spoilt(q: Request, b: Bounds, altitude: (real, real) -> real, looks: seq<Snapshot>, tried: int) {
    if tried == 0 then Refused(q, b, altitude, looks)
    else
      && looks != [] && looks[0].ra.Some? && looks[0].dec.Some?
      && (if tried == 2 then OffTrack(q, looks[0], looks[1..]) else tried == 3 && OffTarget(q, looks[0], looks[1..]))
  }

  /** The checks made later were made with at least so many commands tried. */
  ghost predicate ChecksAt(before: seq<Check>, checks: seq<Check>, tried: nat) {
    before <= checks && forall k :: |before| <= k < |checks| ==> checks[k].tried >= tried
  }

  datatype MoveResult = MoveResult(measured: real, samples: nat, initial: Snapshot, final: Snapshot)

  class AxisMover {
    const t: IndiTransport
    const bounds: Bounds
    const altitude: (real, real) -> real
    var locked: bool

    constructor (transport: IndiTransport, b: Bounds, projection: (real, real) -> real)
      ensures t == transport && bounds == b && altitude == projection && !locked
    {
      t, bounds, altitude, locked := transport, b, projection, false;
    }

    /** Looks before the move: the starting point, or a refusal. */
    method Preflight(q: Request) returns (r: Result<Snapshot>)
      requires t.Valid()
      modifies t`properties, t`revision, t`since, t`world, t`failure, t`mishaps, t`looks
      ensures t.Valid() && t.Continues()
      ensures r.Ok? ==>
        t.looks == old(t.looks) + [r.value] && Checked(r.value, false, true) && Reachable(q, bounds, altitude, r.value)
      ensures r.Ok? ==> r.value.statusRevision >= -1
      ensures r.Err? ==> r.error != Stopped && old(t.looks) <= t.looks
      ensures r.Ok? ==> t.mishaps == old(t.mishaps)
      ensures r.Err? ==>
        t.mishaps > old(t.mishaps) || (r.error == RuntimeError && Refused(q, bounds, altitude, t.looks[|old(t.looks)|..]))
    {
      hide CacheOf, Read, Shown, SentBy, Mod;
      r := Look(t);
      if r.Ok? && !(Checked(r.value, false, true) && Reachable(q, bounds, altitude, r.value)) {
        r := Err(RuntimeError);
      }
    }

    /** One turn of a watching loop: the time limit, the pause, a look, and its check. */
    method Sample(before: Snapshot, needCoordinates: bool, stoppable: bool) returns (r: Result<Snapshot>)
      requires t.Valid()
      modifies t`properties, t`revision, t`since, t`world, t`failure, t`mishaps, t`checks, t`looks
      ensures t.Valid() && t.Continues()
      ensures r.Ok? ==>
        && t.looks == old(t.looks) + [r.value] && |t.world| < |old(t.world)|
        && Checked(r.value, true, needCoordinates) && Watched(before, r.value) && r.value.statusRevision >= -1
        && (needCoordinates ==> r.value.ra.Some? && r.value.dec.Some?)
        && (r.value.statusRevision >= 0 ==> Shown(r.value, t.base, t.since))
        && r.value.statusRevision >= RevisionOf(old(t.Cached(Status)))
      ensures r.Err? ==> (r.error == Stopped ==> stoppable)
      ensures r.Err? && r.error == Stopped ==> LastStopped(old(t.checks), t.checks)
      ensures r.Ok? ==> t.mishaps == old(t.mishaps)
      ensures r.Err? && r.error != Stopped ==>
        t.mishaps > old(t.mishaps) || (r.error == RuntimeError && |t.looks| > |old(t.looks)|)
      ensures r.Err? && |t.looks| > |old(t.looks)| ==> Lost(before, t.looks[|old(t.looks)|], needCoordinates)
      ensures |t.looks| <= |old(t.looks)| + 1
      ensures r == Err(OtherError) ==> t.mishaps > old(t.mishaps)
      ensures ChecksAt(old(t.checks), t.checks, |t.tries|)
    {
      hide CacheOf, Read, Shown, SentBy, Checked, Watched;
      var time := t.Clock();
      if time.Expired? {
        return Err(TimeoutError);
      }
      var stop := t.StopRequested(stoppable);
      if stop {
        return Err(Stopped);
      }
      r := Look(t);
      if r.Err? {
        return;
      }
      EntryNeverFalls(t.base, old(t.since), t.since, Status);
      if !Checked(r.value, true, needCoordinates) || r.value.side != before.side {
        return Err(RuntimeError);
      }
      CheckedIsWatched(before, r.value, needCoordinates);
    }

    /** Watches the move until the target was seen and the mount no longer slews. */
    method Travel(q: Request, before: Snapshot, stoppable: bool)
      returns (r: Result<Snapshot>, count: nat, ghost seen: seq<Snapshot>, ghost arrival: nat)
      requires t.Valid() && Checked(before, false, true) && before.ra.Some? && before.dec.Some?
      modifies t`properties, t`revision, t`since, t`world, t`failure, t`mishaps, t`checks, t`looks
      ensures t.Valid() && t.Continues()
      ensures r.Ok? ==>
        && t.looks == old(t.looks) + seen && t.mishaps == old(t.mishaps)
        && seen != [] && r.value == seen[|seen| - 1] && r.value.statusRevision >= -1
        && arrival < |seen| && Reached(q, before, seen, arrival) && count == Leading(before, seen[..arrival + 1])
      ensures r.Err? ==> (r.error == Stopped ==> stoppable)
      ensures r.Err? && r.error == Stopped ==> LastStopped(old(t.checks), t.checks)
      ensures r.Err? && r.error != Stopped ==>
        t.mishaps > old(t.mishaps) || (r.error == RuntimeError && OffTrack(q, before, t.looks[|old(t.looks)|..]))
      ensures r.Err? ==> NotThere(q, before, t.looks[|old(t.looks)|..])
      ensures r == Err(OtherError) ==> t.mishaps > old(t.mishaps)
      ensures ChecksAt(old(t.checks), t.checks, |t.tries|)
    {
      hide CacheOf, Read, Shown, SentBy, Mod, RaDelta, Tolerance, Overrun, Turned, Checked, Watched;
      hide OnWay, OffTrack, Reached, Leading, Lost, Abs, NotThere;
      seen, arrival, count := [], 0, 0;
      NothingStrays(q, before);
      var targetSeen, lastCoordinates := false, before.coordinatesRevision;
      while true
        invariant t.Valid() && t.Continues() && t.looks == old(t.looks) + seen && t.mishaps == old(t.mishaps)
        invariant ChecksAt(old(t.checks), t.checks, |t.tries|)
        invariant OnWay(q, before, seen, targetSeen, arrival, lastCoordinates, count) && (!targetSeen ==> arrival == 0)
        decreases |t.world|
      {
        var look := Sample(before, !targetSeen, stoppable);
        if look.Err? {
          assert t.looks[|old(t.looks)|..] == seen + t.looks[|old(t.looks)| + |seen|..];
          LooksLost(q, before, seen, targetSeen, arrival, lastCoordinates, count, t.looks[|old(t.looks)| + |seen|..]);
          return Err(look.error), count, seen, arrival;
        }
        var s := look.value;
        ghost var way := seen;
        seen := seen + [s];
        if targetSeen {
          SlewsOn(q, before, way, arrival, lastCoordinates, count, s);
          if !s.slewing {
            return Ok(s), count, seen, arrival;
          }
          continue;
        }
        Approaches(q, before, way, lastCoordinates, count, s);
        if s.coordinatesRevision <= lastCoordinates {
          continue;
        }
        ghost var last, renewed := lastCoordinates, count;
        lastCoordinates, count := s.coordinatesRevision, count + 1;
        var delta := Turned(q, before, s);
        var signed := if q.offset > 0.0 then delta else -delta;
        if signed < -Tolerance(q) || signed > Abs(q.offset) + Overrun(q) {
          assert t.looks[|old(t.looks)|..] == seen;
          Strays(q, before, way, false, 0, last, renewed, s);
          return Err(RuntimeError), count, seen, arrival;
        }
        if Abs(delta - q.offset) <= Tolerance(q) && (q.axis.AxisRa? ==> Abs(s.dec.value - before.dec.value) <= 0.05) {
          targetSeen, arrival := true, |seen| - 1;
          if !s.slewing {
            return Ok(s), count, seen, arrival;
          }
        }
      }
    }

    /** Two looks in a row, at newer and newer statuses, that neither track nor slew. */
    method Settle(before: Snapshot, from: int, stoppable: bool)
      returns (r: Result<Snapshot>, ghost seen: seq<Snapshot>, ghost news: seq<Snapshot>)
      requires t.Valid() && from >= -1
      modifies t`properties, t`revision, t`since, t`world, t`failure, t`mishaps, t`checks, t`looks
      ensures t.Valid() && t.Continues()
      ensures r.Ok? ==>
        && t.looks == old(t.looks) + seen
        && (forall s :: s in seen ==> Watched(before, s)) && (forall s :: s in news ==> s in seen)
        && FreshLooks(news, from, t.base, t.since) && AtRestTwice(news) && r.value == news[|news| - 1]
        && news[|news| - 1].statusRevision > old(t.revision) && t.mishaps == old(t.mishaps)
        && |t.looks| > |old(t.looks)| && r.value == t.looks[|t.looks| - 1]
        && news == Renewed(seen, from) && Unsettled(seen[..|seen| - 1], from)
      ensures r.Err? ==> NotSettled(before, t.looks[|old(t.looks)|..], from)
      ensures r.Err? ==> (r.error == Stopped ==> stoppable)
      ensures r.Err? && r.error == Stopped ==> LastStopped(old(t.checks), t.checks)
      ensures r.Err? && r.error != Stopped ==>
        t.mishaps > old(t.mishaps) ||
        (r.error == RuntimeError && |t.looks| > |old(t.looks)| && Lost(before, t.looks[|t.looks| - 1], false))
      ensures r == Err(OtherError) ==> t.mishaps > old(t.mishaps)
      ensures ChecksAt(old(t.checks), t.checks, |t.tries|)
    {
      hide CacheOf, Read, Shown, SentBy, FreshLooks, Checked, Lost, Renewed, Unsettled, NotSettled, Settling, AtRestTwice;
      seen, news := [], [];
      SettlingStarts(before, from);
      NoLooksYet(from, t.base, t.since);
      var stopped, last := 0, from;
      r := Err(TimeoutError);
      while stopped < 2
        invariant t.Valid() && t.Continues() && t.looks == old(t.looks) + seen && t.mishaps == old(t.mishaps)
        invariant ChecksAt(old(t.checks), t.checks, |t.tries|)
        invariant Settling(before, seen, news, from, stopped) && stopped <= 2
        invariant news != [] ==> r == Ok(news[|news| - 1])
        invariant FreshLooks(news, from, t.base, t.since) && last == LastLook(news, from) && last >= -1
        invariant news != [] ==> news[0].statusRevision >= RevisionOf(old(t.Cached(Status)))
        decreases |t.world|
      {
        ghost var was := t.since;
        var look := Sample(before, false, stoppable);
        FreshLooksGrow(news, from, t.base, was, t.since);
        if look.Err? {
          assert t.looks[|old(t.looks)|..] == seen + t.looks[|old(t.looks)| + |seen|..];
          LooksUnsettled(before, seen, news, t.looks[|old(t.looks)| + |seen|..], from, stopped);
          return Err(look.error), seen, news;
        }
        var s := look.value;
        EntryNeverFalls(t.base, old(t.since), was, Status);
        SettlingPush(before, seen, news, from, stopped, s);
        seen := seen + [s];
        if s.statusRevision <= last {
          continue;
        }
        last := s.statusRevision;
        FreshLooksPush(news, s, from, t.base, t.since);
        news := news + [s];
        stopped := if !s.tracking && !s.slewing then stopped + 1 else 0;
        r := Ok(s);
      }
      SettlingEnds(before, seen, news, from);
      LaterLooks(news, from, t.base, old(t.since), t.since);
    }

    /** Sets SLEW and sends the target, after one look at the stop request and no other: a request
        that comes while SLEW is being confirmed does not hold the target back. `issued` tells
        whether the target was attempted. */
    method Launch(q: Request, before: Snapshot, stoppable: bool) returns (r: Result<()>, issued: bool)
      requires t.Valid() && before.ra.Some? && before.dec.Some?
      modifies t
      ensures t.Valid() && t.Continues() && t.stops == old(t.stops) && t.looks == old(t.looks)
      ensures old(t.tries) <= t.tries && (issued ==> t.tries == old(t.tries) + Steps(q, before)[..2])
      ensures t.checks == old(t.checks) + [Check(r == Err(Stopped), |old(t.tries)|)]
      ensures r == Err(Stopped) ==> t.tries == old(t.tries) && !issued
      ensures !issued ==> r.Err? && |t.tries| <= |old(t.tries)| + 1
      ensures !issued && |t.tries| > |old(t.tries)| ==> t.tries[|old(t.tries)|] == SwitchOn(CoordSet, Slew)
      ensures r.Ok? ==>
        && |old(t.sends)| + 1 <= |t.sends| <= |old(t.sends)| + 2 && old(t.sends) <= t.sends
        && t.sends[|t.sends| - 1].command == TargetCommand(q, before)
        && (|t.sends| == |old(t.sends)| + 2 ==> t.sends[|old(t.sends)|].command == SwitchOn(CoordSet, Slew))
      ensures r.Ok? ==> exists at :: Vetted(Coordinates, Number, {Ra, Dec}, at, t.base, t.since)
      ensures r.Err? ==> (r.error == Stopped ==> stoppable)
      ensures r.Err? && r.error == Stopped ==> LastStopped(old(t.checks), t.checks)
      ensures if r.Ok? then t.mishaps == old(t.mishaps) else r.error == Stopped || t.mishaps > old(t.mishaps)
    {
      hide CacheOf, SentBy, Mod, Vetted;
      var stop := t.StopRequested(stoppable);
      if stop {
        return Err(Stopped), false;
      }
      var slew := t.SetSwitch(CoordSet, Slew);
      if slew.Err? {
        return Err(slew.error), false;
      }
      var sent := t.Issue(TargetCommand(q, before), Number, {Ra, Dec});
      r := if sent.Ok? then Ok(()) else Err(sent.error);
      issued := true;
    }

    /** TRACK_OFF, the confirmed stop and the final measurement. */
    method Conclude(q: Request, before: Snapshot, from: int, stoppable: bool)
      returns (r: Result<(Snapshot, real)>, ghost rest: seq<Snapshot>, ghost news: seq<Snapshot>)
      requires t.Valid() && before.ra.Some? && before.dec.Some? && from >= -1
      modifies t
      ensures t.Valid() && t.Continues() && t.stops == old(t.stops)
      ensures t.tries == old(t.tries) + [SwitchOn(TrackState, TrackOff)]
      ensures ChecksAt(old(t.checks), t.checks, |old(t.tries)|)
      ensures r.Ok? ==>
        && t.looks == old(t.looks) + rest && t.mishaps == old(t.mishaps)
        && |t.sends| == |old(t.sends)| + 1 && old(t.sends) <= t.sends
        && t.sends[|old(t.sends)|].command == SwitchOn(TrackState, TrackOff)
        && (forall s :: s in rest ==> Watched(before, s)) && (forall s :: s in news ==> s in rest)
        && AtRestTwice(news) && FreshLooks(news, from, t.base, t.since)
        && r.value.0 == news[|news| - 1] && r.value.0.ra.Some? && r.value.0.dec.Some?
        && r.value.1 == Turned(q, before, r.value.0) && Abs(r.value.1 - q.offset) <= Tolerance(q)
        && t.sends[|old(t.sends)|].at < r.value.0.statusRevision
      ensures r.Err? ==> (r.error == Stopped ==> stoppable && LastStopped(old(t.checks), t.checks))
      ensures r.Err? && r.error != Stopped ==>
        t.mishaps > old(t.mishaps) ||
        (r.error in {RuntimeError, OtherError} && |t.looks| > |old(t.looks)| &&
         OffTarget(q, before, t.looks[|old(t.looks)|..]))
      ensures old(t.looks) <= t.looks && (r.Err? ==> NeverDone(q, before, t.looks[|old(t.looks)|..], from))
    {
      hide CacheOf, Read, Shown, SentBy, FreshLooks, Checked, Tolerance, Turned, Watched, Mod, Lost, NotSettled, Unsettled;
      rest, news := [], [];
      NothingSettled(from);
      var off := t.IssueSwitch(TrackState, TrackOff);
      if off.Err? {
        return Err(off.error), rest, news;
      }
      var settled;
      settled, rest, news := Settle(before, from, stoppable);
      assert |t.looks| > |old(t.looks)| ==> t.looks[|old(t.looks)|..][|t.looks| - |old(t.looks)| - 1] == t.looks[|t.looks| - 1];
      if settled.Err? {
        NotDone(q, before, t.looks[|old(t.looks)|..], from);
        return Err(settled.error), rest, news;
      }
      var final := settled.value;
      if final.ra.None? || final.dec.None? {
        return Err(OtherError), rest, news;
      }
      var measured := Turned(q, before, final);
      if Abs(measured - q.offset) > Tolerance(q) {
        return Err(RuntimeError), rest, news;
      }
      r := Ok((final, measured));
    }

    /** Follows the move to a confirmed stop and measures it. */
    method Follow(q: Request, before: Snapshot, stoppable: bool)
      returns (r: Result<MoveResult>, ghost way: seq<Snapshot>, ghost arrival: nat, ghost rest: seq<Snapshot>,
               ghost news: seq<Snapshot>)
      requires t.Valid() && Checked(before, false, true) && before.ra.Some? && before.dec.Some?
      modifies t
      ensures t.Valid() && t.Continues() && t.stops == old(t.stops)
      ensures t.tries == old(t.tries) || t.tries == old(t.tries) + [SwitchOn(TrackState, TrackOff)]
      ensures t.tries != old(t.tries) ==> Reached(q, before, way, arrival)
      ensures r.Err? ==> ShortOf(q, before, t.looks[|old(t.looks)|..], t.tries != old(t.tries), way)
      ensures ChecksAt(old(t.checks), t.checks, |old(t.tries)|)
      ensures r.Ok? ==>
        && t.tries == old(t.tries) + [SwitchOn(TrackState, TrackOff)] && t.looks == old(t.looks) + way + rest
        && |t.sends| == |old(t.sends)| + 1 && old(t.sends) <= t.sends
        && t.sends[|old(t.sends)|].command == SwitchOn(TrackState, TrackOff)
        && Succeeded(q, before, way, arrival, rest, news, r.value) && r.value.initial == before
        && way != [] && FreshLooks(news, way[|way| - 1].statusRevision, t.base, t.since)
        && t.sends[|old(t.sends)|].at < r.value.final.statusRevision && t.mishaps == old(t.mishaps)
      ensures r.Err? ==> (r.error == Stopped ==> stoppable)
      ensures r.Err? && r.error == Stopped ==> LastStopped(old(t.checks), t.checks)
      ensures r.Err? && r.error != Stopped ==>
        || t.mishaps > old(t.mishaps)
        || (t.tries == old(t.tries) && r.error == RuntimeError && OffTrack(q, before, t.looks[|old(t.looks)|..]))
        || (t.tries != old(t.tries) && r.error in {RuntimeError, OtherError} &&
            OffTarget(q, before, t.looks[|old(t.looks)|..]))
    {
      hide CacheOf, Read, Shown, SentBy, FreshLooks, Checked, Tolerance, Turned, Watched, Mod, OffTrack, Reached, Leading,
        AtRestTwice, OffTarget, Abs, NotThere, NeverDone;
      way, arrival, rest, news := [], 0, [], [];
      var travelled, count;
      travelled, count, way, arrival := Travel(q, before, stoppable);
      if travelled.Err? {
        return Err(travelled.error), way, arrival, rest, news;
      }
      ghost var from := |t.looks|;
      var ended;
      ended, rest, news := Conclude(q, before, travelled.value.statusRevision, stoppable);
      if |t.looks| > from {
        assert t.looks[|old(t.looks)|..] == way + t.looks[from..];
        OffTargetOnTheWay(q, before, way, t.looks[|old(t.looks)|..], t.looks[from..]);
      }
      if ended.Err? {
        assert t.looks[|old(t.looks)|..] == way + t.looks[from..];
        return Err(ended.error), way, arrival, rest, news;
      }
      r := Ok(MoveResult(ended.value.1, count, before, ended.value.0));
    }

    /** The move from its starting point: the target and its pursuit. */
    method Pursue(q: Request, before: Snapshot, stoppable: bool)
      returns (r: Result<MoveResult>, issued: bool, ghost way: seq<Snapshot>, ghost arrival: nat,
               ghost rest: seq<Snapshot>, ghost news: seq<Snapshot>)
      requires t.Valid() && Checked(before, false, true) && before.ra.Some? && before.dec.Some?
      modifies t
      ensures t.Valid() && t.Continues() && t.stops == old(t.stops) && old(t.tries) <= t.tries && old(t.looks) <= t.looks
      ensures issued <==> |t.tries| >= |old(t.tries)| + 2
      ensures issued ==> t.tries[|old(t.tries)|..][..2] == Steps(q, before)[..2]
      ensures |t.tries| > |old(t.tries)| ==> OneClearCheck(old(t.checks), t.checks, |old(t.tries)|)
      ensures |t.checks| > |old(t.checks)| && t.checks[|old(t.checks)|].stop ==>
        r == Err(Stopped) && t.tries == old(t.tries)
      ensures |t.tries| > |old(t.tries)| + 2 ==> Reached(q, before, way, arrival)
      ensures r.Ok? ==>
        && t.tries[|old(t.tries)|..] == Steps(q, before) && t.looks == old(t.looks) + way + rest && way != []
        && old(t.sends) <= t.sends && SentAll(q, before, t.sends[|old(t.sends)|..])
        && Succeeded(q, before, way, arrival, rest, news, r.value) && r.value.initial == before
        && |t.sends| > |old(t.sends)| && t.sends[|t.sends| - 1].at < r.value.final.statusRevision
        && FreshLooks(news, way[|way| - 1].statusRevision, t.base, t.since) && t.mishaps == old(t.mishaps)
      ensures r.Err? ==> (r.error == Stopped ==> stoppable)
      ensures r.Err? && r.error == Stopped ==> LastStopped(old(t.checks), t.checks)
      ensures r.Err? && r.error != Stopped ==>
        || t.mishaps > old(t.mishaps)
        || (|t.tries| == |old(t.tries)| + 2 && r.error == RuntimeError && OffTrack(q, before, t.looks[|old(t.looks)|..]))
        || (|t.tries| == |old(t.tries)| + 3 && r.error in {RuntimeError, OtherError} &&
            OffTarget(q, before, t.looks[|old(t.looks)|..]))
      ensures r.Err? && issued ==>
        |t.tries| <= |old(t.tries)| + 3 &&
        ShortOf(q, before, t.looks[|old(t.looks)|..], |t.tries| == |old(t.tries)| + 3, way)
    {
      hide CacheOf, Read, Shown, SentBy, FreshLooks, Checked, Tolerance, Turned, Watched, Succeeded,
        SentAll, TargetCommand, OffTrack, OffTarget, Reached, ShortOf;
      issued, way, arrival, rest, news := false, [], 0, [], [];
      var launched;
      launched, issued := Launch(q, before, stoppable);
      ghost var launch, tried := t.sends, t.tries;
      if issued {
        assert t.tries[|old(t.tries)|..] == Steps(q, before)[..2];
      }
      if launched.Err? {
        NothingThere(q, before, way);
        assert t.looks[|old(t.looks)|..] == [];
        return Err(launched.error), issued, way, arrival, rest, news;
      }
      r, way, arrival, rest, news := Follow(q, before, stoppable);
      assert t.tries[|old(t.tries)|..][..2] == tried[|old(t.tries)|..];
      if r.Ok? {
        SentInAll(q, before, old(t.sends), launch, t.sends);
        assert t.tries[|old(t.tries)|..] == Steps(q, before);
      }
    }

    /** The move without its lock: preflight, target and pursuit. */
    method Attempt(q: Request, stoppable: bool)
      returns (r: Result<MoveResult>, issued: bool, ghost way: seq<Snapshot>, ghost arrival: nat,
               ghost rest: seq<Snapshot>, ghost news: seq<Snapshot>)
      requires t.Valid() && locked
      modifies t
      ensures t.Valid() && t.Continues() && t.stops == old(t.stops) && old(t.tries) <= t.tries && old(t.looks) <= t.looks
      ensures issued <==> |t.tries| >= |old(t.tries)| + 2
      ensures |t.tries| > |old(t.tries)| ==> OneClearCheck(old(t.checks), t.checks, |old(t.tries)|)
      ensures |t.checks| > |old(t.checks)| && t.checks[|old(t.checks)|].stop ==>
        r == Err(Stopped) && t.tries == old(t.tries)
      ensures |t.tries| > |old(t.tries)| + 2 ==>
        |t.looks| > |old(t.looks)| && Arrived(q, t.looks[|old(t.looks)|], way, arrival)
      ensures issued ==>
        && |t.looks| > |old(t.looks)|
        && AimedAt(q, bounds, altitude, t.looks[|old(t.looks)|], t.tries[|old(t.tries)|..])
      ensures r.Ok? ==>
        && old(t.looks) <= t.looks && old(t.sends) <= t.sends
        && Complete(q, bounds, altitude, r.value, t.tries[|old(t.tries)|..], t.looks[|old(t.looks)|..], t.sends[|old(t.sends)|..],
                    way, arrival, rest, news, t.base, t.since)
      ensures r.Err? ==> (r.error == Stopped ==> stoppable)
      ensures r.Err? && r.error == Stopped ==> LastStopped(old(t.checks), t.checks)
      ensures r.Ok? ==> t.mishaps == old(t.mishaps)
      ensures r.Err? && r.error != Stopped ==>
        t.mishaps > old(t.mishaps) ||
        ((r.error == RuntimeError || (r.error == OtherError && |t.tries| == |old(t.tries)| + 3)) &&
         Spoilt(q, bounds, altitude, t.looks[|old(t.looks)|..], |t.tries| - |old(t.tries)|))
      ensures r.Err? && issued ==> Unfinished(q, t.looks[|old(t.looks)|..], |t.tries| - |old(t.tries)|, way)
    {
      hide CacheOf, Read, Shown, SentBy, FreshLooks, Checked, Tolerance, Turned, Watched, Reachable, Succeeded,
        SentAll, TargetCommand, OffTrack, OffTarget, Reached, ShortOf, OneClearCheck, Steps;
      issued, way, arrival, rest, news := false, [], 0, [], [];
      var before := Preflight(q);
      if before.Err? {
        return Err(before.error), issued, way, arrival, rest, news;
      }
      CheckedHasCoordinates(before.value);
      ghost var looks := t.looks;
      r, issued, way, arrival, rest, news := Pursue(q, before.value, stoppable);
      assert t.looks[|old(t.looks)|] == before.value;
      assert t.looks[|old(t.looks)|..][1..] == t.looks[|looks|..];
      if r.Ok? {
        assert t.looks[|old(t.looks)|..] == [before.value] + way + rest;
        assert t.sends[|old(t.sends)|..][|t.sends| - |old(t.sends)| - 1] == t.sends[|t.sends| - 1];
      }
    }

    /** One finite move. A normal return means that exactly the target and TRACK_OFF went out
        (after SLEW, unless that was set already), that every look passed its check on one pier
        side, and that the move ended at rest within the tolerance of the request. Any other end
        after the target was attempted stops the mount exactly once, unless somebody requested a
        stop, who then sends it. The lock is left as it was. */
    method Move(q: Request, stoppable: bool)
      returns (r: Result<MoveResult>, ghost cause: Option<Error>, ghost issued: bool, ghost way: seq<Snapshot>, ghost arrival: nat,
               ghost rest: seq<Snapshot>, ghost news: seq<Snapshot>, ghost tried: nat)
      requires t.Valid()
      modifies this, t
      ensures t.Valid() && t.Continues() && locked == old(locked) && old(t.tries) <= t.tries
      ensures cause == None <==> r.Ok?
      ensures !ValidRequest(q) ==> cause == Some(ValueError) && !issued
      ensures ValidRequest(q) && old(locked) ==> cause == Some(RuntimeError) && !issued
      ensures r.Ok? ==>
        && ValidRequest(q) && !old(locked) && old(t.looks) <= t.looks && old(t.sends) <= t.sends
        && Complete(q, bounds, altitude, r.value, t.tries[|old(t.tries)|..], t.looks[|old(t.looks)|..], t.sends[|old(t.sends)|..],
                    way, arrival, rest, news, t.base, t.since)
      ensures t.stops == old(t.stops) + if issued && r.Err? && cause != Some(Stopped) then 1 else 0
      ensures issued <==> |t.tries| >= |old(t.tries)| + 2
      ensures |t.tries| > |old(t.tries)| ==> OneClearCheck(old(t.checks), t.checks, |old(t.tries)|)
      ensures |t.checks| > |old(t.checks)| && t.checks[|old(t.checks)|].stop ==>
        r == Err(Stopped) && t.tries == old(t.tries)
      ensures issued ==>
        && |t.looks| > |old(t.looks)|
        && AimedAt(q, bounds, altitude, t.looks[|old(t.looks)|], t.tries[|old(t.tries)|..])
      ensures r.Err? ==> (r.error == Stopped <==> cause == Some(Stopped)) && (cause == Some(Stopped) ==> stoppable)
      ensures r.Err? && r.error == Stopped ==> LastStopped(old(t.checks), t.checks)
      ensures r.Ok? ==>
        && -0.05 <= r.value.measured - q.offset <= 0.05 && t.mishaps == old(t.mishaps)
        && (-1.0 <= 360.0 * (r.value.measured - q.offset) <= 1.0 ||
            10.0 * Abs(r.value.measured - q.offset) <= Abs(q.offset))
      ensures r.Err? && ValidRequest(q) && !old(locked) && r.error != Stopped ==>
        t.mishaps > old(t.mishaps) ||
        ((cause == Some(RuntimeError) || (cause == Some(OtherError) && tried == 3)) &&
         Spoilt(q, bounds, altitude, t.looks[|old(t.looks)|..], tried))
      ensures r.Err? ==> cause == Some(r.error) || (t.stops > old(t.stops) && r.error in {OtherError, ConnectionError})
      ensures t.stops > old(t.stops) && |t.tries| == |old(t.tries)| + tried ==> r == Err(ConnectionError)
      ensures issued && r.Err? ==> Unfinished(q, t.looks[|old(t.looks)|..], tried, way)
      ensures tried <= |t.tries| - |old(t.tries)| && OnlyStopTries(t.tries[|old(t.tries)| + tried..])
    {
      hide CacheOf, SentBy, Complete, OnlyStops, Checked, Reachable, TargetCommand, Spoilt, Unfinished;
      issued, way, arrival, rest, news, tried := false, [], 0, [], [], 0;
      if !ValidRequest(q) {
        return Err(ValueError), Some(ValueError), issued, way, arrival, rest, news, tried;
      }
      if locked {
        return Err(RuntimeError), Some(RuntimeError), issued, way, arrival, rest, news, tried;
      }
      locked := true;
      var attempted;
      r, attempted, way, arrival, rest, news := Attempt(q, stoppable);
      issued, tried := attempted, |t.tries| - |old(t.tries)|;
      ghost var own := t.tries;
      cause := if r.Ok? then None else Some(r.error);
      if r.Ok? {
        MeasuredWithin(q, bounds, altitude, r.value, t.tries[|old(t.tries)|..], t.looks[|old(t.looks)|..],
                       t.sends[|old(t.sends)|..], way, arrival, rest, news, t.base, t.since);
      }
      if r.Err? && r.error != Stopped && attempted {
        var stopped := EmergencyStop(t);
        assert t.tries[|old(t.tries)|..][..2] == own[|old(t.tries)|..][..2];
        assert t.tries[|own|..] == t.tries[|old(t.tries)| + tried..];
        if stopped.Err? {
          r := Err(stopped.error);
        }
      }
      locked := false;
    }
  }

  /** Commands of a stop and nothing else. */
  predicate OnlyStopTries(tries: seq<Command>) { tries <= BOTH }

  lemma MeasuredWithin(q: Request, b: Bounds, altitude: (real, real) -> real, m: MoveResult, tries: seq<Command>,
                       looks: seq<Snapshot>, sends: seq<Sent>, way: seq<Snapshot>, arrival: nat, rest: seq<Snapshot>,
                       news: seq<Snapshot>, base: nat, since: seq<Vector>)
    requires Complete(q, b, altitude, m, tries, looks, sends, way, arrival, rest, news, base, since)
    ensures -0.05 <= m.measured - q.offset <= 0.05
    ensures -1.0 <= 360.0 * (m.measured - q.offset) <= 1.0 || 10.0 * Abs(m.measured - q.offset) <= Abs(q.offset)
  {
    hide Checked, Reachable, TargetCommand, SentAll, FreshLooks, Reached, Turned;
  }

  /** The first check of a move saw no stop request and was made before any command of its own;
      every later check was made with more than the target tried. So no check lies between SLEW
      and the target. */
  ghost predicate OneClearCheck(before: seq<Check>, checks: seq<Check>, tried: nat) {
    && |checks| > |before| && before <= checks && checks[|before|] == Check(false, tried)
    && ChecksAt(before + [checks[|before|]], checks, tried + 2)
  }

  /** A look from which the pursuit reached its target. */
  ghost predicate Arrived(q: Request, before: Snapshot, way: seq<Snapshot>, arrival: nat) {
    before.ra.Some? && before.dec.Some? && Reached(q, before, way, arrival)
  }

  /** The target asked for, after SLEW, is the one computed from a look that passed the preflight. */
  ghost predicate AimedAt(q: Request, b: Bounds, altitude: (real, real) -> real, before: Snapshot, tries: seq<Command>) {
    && before.ra.Some? && before.dec.Some? && Checked(before, false, true) && Reachable(q, b, altitude, before)
    && |tries| >= 2 && tries[..2] == Steps(q, before)[..2]
  }

  /** Everything a normal return stands for, in terms of what was asked for, seen and sent. */
  ghost predicate Complete(q: Request, b: Bounds, altitude: (real, real) -> real, m: MoveResult, tries: seq<Command>,
                           looks: seq<Snapshot>, sends: seq<Sent>, way: seq<Snapshot>, arrival: nat, rest: seq<Snapshot>,
                           news: seq<Snapshot>, base: nat, since: seq<Vector>)
  {
    var before := m.initial;
    && before.ra.Some? && before.dec.Some? && Checked(before, false, true) && Reachable(q, b, altitude, before)
    && tries == Steps(q, before) && SentAll(q, before, sends) && looks == [before] + way + rest
    && way != [] && Succeeded(q, before, way, arrival, rest, news, m)
    && sends[|sends| - 1].at < m.final.statusRevision
    && FreshLooks(news, way[|way| - 1].statusRevision, base, since)
  }

  /** What a complete move asks for, in order. */
  function Steps(q: Request, before: Snapshot): seq<Command>
    requires before.ra.Some? && before.dec.Some?
  {
    [SwitchOn(CoordSet, Slew), TargetCommand(q, before), SwitchOn(TrackState, TrackOff)]
  }

  /** What a complete move has sent: SLEW is left out when the device already shows it as set. */
  predicate SentAll(q: Request, before: Snapshot, sends: seq<Sent>)
    requires before.ra.Some? && before.dec.Some?
  {
    && 2 <= |sends| <= 3
    && sends[|sends| - 2].command == TargetCommand(q, before) && sends[|sends| - 1].command == SwitchOn(TrackState, TrackOff)
    && (|sends| == 3 ==> sends[0].command == SwitchOn(CoordSet, Slew))
  }

  lemma SentInAll(q: Request, before: Snapshot, first: seq<Sent>, launch: seq<Sent>, all: seq<Sent>)
    requires before.ra.Some? && before.dec.Some? && first <= launch <= all
    requires |first| + 1 <= |launch| <= |first| + 2 && launch[|launch| - 1].command == TargetCommand(q, before)
    requires |launch| == |first| + 2 ==> launch[|first|].command == SwitchOn(CoordSet, Slew)
    requires |all| == |launch| + 1 && all[|launch|].command == SwitchOn(TrackState, TrackOff)
    ensures first <= all && SentAll(q, before, all[|first|..])
  {
    hide TargetCommand;
  }

  lemma CheckedIsWatched(before: Snapshot, s: Snapshot, needCoordinates: bool)
    requires Checked(s, true, needCoordinates) && s.side == before.side
    ensures Watched(before, s) && (needCoordinates ==> s.ra.Some? && s.dec.Some?)
  {}

  lemma CheckedHasCoordinates(s: Snapshot)
    requires Checked(s, false, true)
    ensures s.ra.Some? && s.dec.Some?
  {}

  /** What was seen of a successful move: on the way the target was reached without leaving the
      band and the slew ended, afterwards two looks in a row showed the mount at rest. */
  ghost predicate Succeeded(q: Request, before: Snapshot, way: seq<Snapshot>, arrival: nat, rest: seq<Snapshot>,
                            news: seq<Snapshot>, m: MoveResult)
    requires before.ra.Some? && before.dec.Some?
  {
    && way != [] && arrival < |way| && m.samples == Leading(before, way[..arrival + 1])
    && m.initial == before && Reached(q, before, way, arrival) && (forall s :: s in rest ==> Watched(before, s))
    && AtRestTwice(news) && (forall s :: s in news ==> s in rest) && m.final == news[|news| - 1]
    && m.final.ra.Some? && m.final.dec.Some?
    && m.measured == Turned(q, before, m.final) && Abs(m.measured - q.offset) <= Tolerance(q)
  }

  ghost predicate AtRestTwice(news: seq<Snapshot>) {
    && |news| >= 2 && (forall i :: |news| - 2 <= i < |news| ==> !news[i].tracking && !news[i].slewing)
    && (|news| > 2 ==> news[|news| - 3].tracking || news[|news| - 3].slewing)
  }

  /** No two looks in a row showed the mount at rest. */
  ghost predicate NeverAtRest(news: seq<Snapshot>) {
    forall i :: 0 <= i < |news| - 1 && !news[i].tracking && !news[i].slewing ==> news[i + 1].tracking || news[i + 1].slewing
  }

  /** The looks that brought a newer status than all before them, and newer than `from`. */
  function Renewed(looks: seq<Snapshot>, from: int): seq<Snapshot> {
    if looks == [] then []
    else
      var news, s := Renewed(looks[..|looks| - 1], from), looks[|looks| - 1];
      if s.statusRevision > LastLook(news, from) then news + [s] else news
  }

  /** At no time did two fresh looks in a row show the mount at rest. */
  ghost predicate Unsettled(looks: seq<Snapshot>, from: int) { NeverAtRest(Renewed(looks, from)) }

  lemma NothingSettled(from: int)
    ensures Unsettled([], from) && Renewed([], from) == []
  {}

  lemma RenewedPush(looks: seq<Snapshot>, s: Snapshot, from: int)
    ensures (looks + [s])[..|looks|] == looks
    ensures var news := Renewed(looks, from);
      Renewed(looks + [s], from) == if s.statusRevision > LastLook(news, from) then news + [s] else news
  {
    assert (looks + [s])[..|looks|] == looks;
  }

  lemma StillUnsettled(looks: seq<Snapshot>, s: Snapshot, from: int, stopped: nat)
    requires Unsettled(looks, from) && stopped < 2
    requires var news := Renewed(looks, from);
      stopped == 0 && news != [] ==> news[|news| - 1].tracking || news[|news| - 1].slewing
    ensures var news := Renewed(looks, from);
      s.statusRevision <= LastLook(news, from) || s.tracking || s.slewing || stopped == 0 ==> Unsettled(looks + [s], from)
  {
    hide Renewed;
    RenewedPush(looks, s, from);
  }

  lemma NoLooksYet(after: int, base: nat, since: seq<Vector>)
    ensures FreshLooks([], after, base, since)
  {}
}
