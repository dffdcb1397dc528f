/** What the preflights of tracking and of guiding have in common. */
module Preflights {
  import opened Common
  import opened Indi

  /** These blockers refuse under either policy. */
  const HARD := {DeviceDisconnected, StatusNotFresh, StatusAlert, StatusUnavailable, LimitOrParkFault, ReportedError}

  /** These refuse under the strict policy. */
  const AUTHORITY := {CoordinatesNotFresh, PierConflict, PierUnknown, CoordinatesInvalid, TimeSiteUnestablished,
                      HourAngleUnavailable, HomeUnestablished}

  /** Nothing is wrong with the mount, and it stands unparked. */
  predicate Fit(s: Snapshot) { s.blockers !! HARD && s.statusLive && !s.parked && !s.slewing && !s.atLimit }

  /** The adapter knows where the mount points. */
  predicate Knowing(s: Snapshot) { s.blockers !! AUTHORITY && s.coordinatesLive && s.timeSite && s.homeAuthority }

  /** The cached status a fit mount shows. */
  predicate FitStatus(cache: map<Name, Property>, c: Circumstances) {
    var status, g := Lookup(cache, Status), Decoded(Lookup(cache, Status));
    && c.open && Holds(Lookup(cache, Connection), Connect, On)
    && status.Some? && !c.statusAged && status.value.light != Alert && !Faulted(status.value)
    && g.Some? && !g.value.parked && !g.value.slewing && !g.value.atLimit && !g.value.parkFailed
  }

  /** The cached coordinates and pier side, and the session's own knowledge. */
  predicate KnownPlace(cache: map<Name, Property>, c: Circumstances) {
    var coords, pier, side := Lookup(cache, Coordinates), Lookup(cache, PierSide), PierOf(Decoded(Lookup(cache, Status)));
    && coords.Some? && !c.coordinatesAged
    && Numeric(coords, Ra, 0.0, 24.0).Some? && Numeric(coords, Dec, -90.0, 90.0).Some?
    && c.baselineAccepted && c.hourAngle.Some? && c.homeAuthority
    && side.Some? && (pier.Some? && !c.pierAged ==> ReportedPier(pier).None? || ReportedPier(pier) == side)
  }

  lemma FitIff(cache: map<Name, Property>, c: Circumstances)
    ensures Fit(Read(cache, c)) <==> FitStatus(cache, c)
  {
    hide Lookup, Decoded, Holds, Faulted, PierOf, ReportedPier, Numeric;
    var b := Read(cache, c).blockers;
    assert b !! HARD <==>
      DeviceDisconnected !in b && StatusNotFresh !in b && StatusAlert !in b && StatusUnavailable !in b &&
      LimitOrParkFault !in b && ReportedError !in b;
  }

  lemma KnowingIff(cache: map<Name, Property>, c: Circumstances)
    ensures Knowing(Read(cache, c)) <==> KnownPlace(cache, c)
  {
    hide Lookup, Decoded, Holds, Faulted, PierOf, ReportedPier, Numeric;
    var b := Read(cache, c).blockers;
    assert b !! AUTHORITY <==>
      CoordinatesNotFresh !in b && PierConflict !in b && PierUnknown !in b && CoordinatesInvalid !in b &&
      TimeSiteUnestablished !in b && HourAngleUnavailable !in b && HomeUnestablished !in b;
  }
}
