/** What the adapter knows of the mount: property vectors, the cache built from them and the
    snapshot read from the cache. */
module Indi {
  import opened Common

  /** The property vectors of the OnStep device that the adapter uses. */
  datatype Name =
    | Connection | Status | Coordinates | PierSide | CoordSet | AbortMotion | TrackState | ParkVector
    | HomeVector | GuideNS | GuideWE | FocusPosition | FocusMaximum | FocusAbort

  datatype Element =
    | Connect | Report | Fault | Ra | Dec | PierEast | PierWest | Slew | Abort | TrackOn | TrackOff
    | Park | Unpark | Go | North | South | East | West | Position | Maximum

  datatype Kind = Switch | Number | Text | Light

  datatype Light = Idle | Okay | Busy | Alert

  /** The flags of a compact `:GU#` status. */
  datatype Gu = Gu(parked: bool, unparkedFlag: bool, parkFailed: bool, atLimit: bool, tracking: bool,
                   slewing: bool, atHome: bool, guiding: bool, pierEast: bool, pierWest: bool)

  /** An element's text. `Status` reports decode to flags or not at all; `Quiet` stands for the
      fault texts that mean no fault. */
  datatype Value = On | Off | Quiet | Blank | Garbled | Flags(gu: Gu) | Num(n: real)

  datatype Property = Property(kind: Kind, light: Light, writable: bool, values: map<Element, Value>, revision: int)

  /** A `def` or `set` vector as received; absent attributes keep their previous value. */
  datatype Vector = Vector(name: Name, kind: Kind, light: Option<Light>, writable: Option<bool>,
                           values: map<Element, Value>)

  /** A status vector, and the property it makes when status vectors are all it has merged. */
  function Reporting(g: Gu): Vector { Vector(Status, Text, Some(Okay), None, map[Report := Flags(g)]) }

  function Reported(g: Gu, revision: int): Property { Property(Text, Okay, false, map[Report := Flags(g)], revision) }

  function Lookup(cache: map<Name, Property>, name: Name): Option<Property> {
    if name in cache then Some(cache[name]) else None
  }

  function Merge(previous: Option<Property>, v: Vector, revision: int): Property {
    var p := if previous.Some? then previous.value else Property(v.kind, Idle, false, map[], 0);
    Property(v.kind,
             if v.light.Some? then v.light.value else p.light,
             if v.writable.Some? then v.writable.value else p.writable,
             p.values + v.values, revision)
  }

  /** The cache after receiving `since` on a connection opened when the counter stood at `base`. */
  function CacheOf(base: nat, since: seq<Vector>): map<Name, Property> {
    if since == [] then map[] else
      var before := CacheOf(base, since[..|since| - 1]);
      var v := since[|since| - 1];
      before[v.name := Merge(Lookup(before, v.name), v, base + |since|)]
  }

  function RevisionOf(p: Option<Property>): int { if p.Some? then p.value.revision else -1 }

  predicate Holds(p: Option<Property>, e: Element, v: Value) {
    p.Some? && e in p.value.values && p.value.values[e] == v
  }

  /** The decoded status, or `None` when it is missing, blank or cannot be decoded. */
  function Decoded(p: Option<Property>): Option<Gu> {
    if p.Some? && Report in p.value.values && p.value.values[Report].Flags?
    then Some(p.value.values[Report].gu) else None
  }

  predicate NotParked(g: Gu) { g.unparkedFlag && !g.parked }

  predicate Faulted(p: Property) { Fault in p.values && p.values[Fault] != Quiet }

  function Numeric(p: Option<Property>, e: Element, low: real, high: real): Option<real> {
    if p.Some? && e in p.value.values && p.value.values[e].Num? && low <= p.value.values[e].n <= high
    then Some(p.value.values[e].n) else None
  }

  // ---- the snapshot --------------------------------------------------------------------------

  datatype Side = SideEast | SideWest

  datatype Blocker =
    | DeviceDisconnected | StatusNotFresh | CoordinatesNotFresh | StatusAlert | StatusUnavailable
    | LimitOrParkFault | ReportedError | PierConflict | PierUnknown | CoordinatesInvalid
    | TimeSiteUnestablished | HourAngleUnavailable | MechanicalTerminal | HomeUnestablished

  datatype Snapshot = Snapshot(
    side: Option<Side>, ra: Option<real>, dec: Option<real>, ha: Option<real>,
    tracking: bool, slewing: bool, parked: bool, atHome: bool, atLimit: bool, guiding: bool,
    statusLive: bool, coordinatesLive: bool, timeSite: bool, homeAuthority: bool,
    blockers: set<Blocker>, statusRevision: int, coordinatesRevision: int)

  /** What the reader learns from the clock and from the client rather than from the cache. */
  datatype Circumstances = Circumstances(open: bool, statusAged: bool, coordinatesAged: bool, pierAged: bool,
                                         baselineAccepted: bool, homeAuthority: bool, hourAngle: Option<real>)

  function PierOf(g: Option<Gu>): Option<Side> {
    if g.None? then None else if g.value.pierEast then Some(SideEast)
    else if g.value.pierWest then Some(SideWest) else None
  }

  function ReportedPier(p: Option<Property>): Option<Side> {
    if Holds(p, PierEast, On) then Some(SideEast) else if Holds(p, PierWest, On) then Some(SideWest) else None
  }

  function HourAngle(cache: map<Name, Property>, c: Circumstances): Option<real> {
    var coords := Lookup(cache, Coordinates);
    if c.baselineAccepted && coords.Some? && !c.coordinatesAged && Numeric(coords, Ra, 0.0, 24.0).Some?
    then c.hourAngle else None
  }

  /** What each blocker says of the cache. */
  predicate Blocks(b: Blocker, cache: map<Name, Property>, c: Circumstances) {
    var status, coords, pier := Lookup(cache, Status), Lookup(cache, Coordinates), Lookup(cache, PierSide);
    var g := Decoded(status);
    match b
    case DeviceDisconnected => !c.open || !Holds(Lookup(cache, Connection), Connect, On)
    case StatusNotFresh => status.None? || c.statusAged
    case CoordinatesNotFresh => coords.None? || c.coordinatesAged
    case StatusAlert => status.Some? && status.value.light == Alert
    case StatusUnavailable => g.None?
    case LimitOrParkFault => g.Some? && (g.value.atLimit || g.value.parkFailed)
    case ReportedError => status.Some? && Faulted(status.value)
    case PierConflict =>
      pier.Some? && !c.pierAged && PierOf(g).Some? && ReportedPier(pier).Some? && ReportedPier(pier) != PierOf(g)
    case PierUnknown => PierOf(g).None?
    case CoordinatesInvalid => Numeric(coords, Ra, 0.0, 24.0).None? || Numeric(coords, Dec, -90.0, 90.0).None?
    case TimeSiteUnestablished => !c.baselineAccepted
    case HourAngleUnavailable => HourAngle(cache, c).None?
    case MechanicalTerminal => g.Some? && (g.value.parked || g.value.atHome)
    case HomeUnestablished => !c.homeAuthority
  }

  function Read(cache: map<Name, Property>, c: Circumstances): Snapshot {
    var status, coords := Lookup(cache, Status), Lookup(cache, Coordinates);
    var g := Decoded(status);
    Snapshot(PierOf(g), Numeric(coords, Ra, 0.0, 24.0), Numeric(coords, Dec, -90.0, 90.0), HourAngle(cache, c),
             g.Some? && g.value.tracking, g.Some? && g.value.slewing, g.Some? && g.value.parked,
             g.Some? && g.value.atHome, g.Some? && g.value.atLimit, g.Some? && g.value.guiding,
             status.Some? && !c.statusAged, coords.Some? && !c.coordinatesAged, c.baselineAccepted, c.homeAuthority,
             (set b: Blocker | Blocks(b, cache, c)), RevisionOf(status), RevisionOf(coords))
  }

  // ---- what a revision stands for ------------------------------------------------------------

  ghost predicate IsLatest(p: Property, name: Name, base: nat, since: seq<Vector>) {
    var k := p.revision - base;
    && 0 < k <= |since| && since[k - 1].name == name
    && Lookup(CacheOf(base, since[..k]), name) == Some(p)
    && forall j :: k <= j < |since| ==> since[j].name != name
  }

  lemma CachePush(base: nat, since: seq<Vector>, v: Vector)
    ensures CacheOf(base, since + [v]) ==
      CacheOf(base, since)[v.name := Merge(Lookup(CacheOf(base, since), v.name), v, base + |since| + 1)]
  {
    assert (since + [v])[..|since|] == since;
  }

  lemma LatestPush(p: Property, name: Name, base: nat, since: seq<Vector>, v: Vector)
    requires IsLatest(p, name, base, since) && v.name != name
    ensures IsLatest(p, name, base, since + [v])
  {
    hide CacheOf;
    var k := p.revision - base;
    assert (since + [v])[..k] == since[..k];
  }

  /** The cache entry of a property is its latest reception, merged into the earlier ones; its
      revision counts all receptions up to that one. */
  lemma {:induction false} EntryIsLatest(base: nat, since: seq<Vector>, name: Name)
    ensures name !in CacheOf(base, since) <==> forall v :: v in since ==> v.name != name
    ensures name in CacheOf(base, since) ==> IsLatest(CacheOf(base, since)[name], name, base, since)
  {
    if since != [] {
      hide CacheOf, IsLatest;
      var before, last := since[..|since| - 1], since[|since| - 1];
      assert since == before + [last];
      EntryIsLatest(base, before, name);
      CachePush(base, before, last);
      if last.name == name {
        assert CacheOf(base, since)[name].revision == base + |since|;
        EndIsLatest(base, since, name);
      } else if name in CacheOf(base, before) {
        LatestPush(CacheOf(base, before)[name], name, base, before, last);
      }
    }
  }

  lemma EntryWithin(base: nat, since: seq<Vector>, name: Name)
    ensures name in CacheOf(base, since) ==> base < CacheOf(base, since)[name].revision <= base + |since|
  {
    hide CacheOf;
    EntryIsLatest(base, since, name);
  }

  lemma EndIsLatest(base: nat, since: seq<Vector>, name: Name)
    requires since != [] && since[|since| - 1].name == name && name in CacheOf(base, since)
    requires CacheOf(base, since)[name].revision == base + |since|
    ensures IsLatest(CacheOf(base, since)[name], name, base, since)
  {
    hide CacheOf;
    assert since[..|since|] == since;
  }

  /** A newer revision means a reception in between. */
  lemma NewerMeansReceived(base: nat, before: seq<Vector>, since: seq<Vector>, name: Name)
    requires before <= since && name in CacheOf(base, since)
    requires RevisionOf(Lookup(CacheOf(base, since), name)) > RevisionOf(Lookup(CacheOf(base, before), name))
    ensures var k := CacheOf(base, since)[name].revision - base;
      |before| < k <= |since| && since[k - 1].name == name
  {
    hide CacheOf;
    EntryIsLatest(base, since, name);
    EntryIsLatest(base, before, name);
    assert forall j :: 0 <= j < |before| ==> before[j] == since[j];
  }

  /** Receiving more never lowers a property's revision. */
  lemma RevisionsNeverFall(base: nat, before: seq<Vector>, since: seq<Vector>, name: Name)
    requires before <= since && name in CacheOf(base, before)
    ensures name in CacheOf(base, since)
    ensures CacheOf(base, before)[name].revision <= CacheOf(base, since)[name].revision
  {
    hide CacheOf;
    EntryIsLatest(base, since, name);
    EntryIsLatest(base, before, name);
    var k := CacheOf(base, before)[name].revision - base;
    assert since[k - 1] == before[k - 1];
  }

  lemma EntryNeverFalls(base: nat, before: seq<Vector>, since: seq<Vector>, name: Name)
    requires before <= since
    ensures -1 <= RevisionOf(Lookup(CacheOf(base, before), name)) <= RevisionOf(Lookup(CacheOf(base, since), name))
  {
    hide CacheOf;
    EntryIsLatest(base, before, name);
    EntryIsLatest(base, since, name);
    if name in CacheOf(base, before) {
      RevisionsNeverFall(base, before, since, name);
    }
  }

  // ---- what a cache entry shows --------------------------------------------------------------

  predicate Names(v: Vector, name: Name, e: Element) { v.name == name && e in v.values }

  predicate Lights(v: Vector, name: Name) { v.name == name && v.light.Some? }

  predicate Permits(v: Vector, name: Name) { v.name == name && v.writable.Some? }

  /** An element shows the text that the last vector to name it gave it. */
  lemma {:induction false} ElementIsLatest(base: nat, since: seq<Vector>, name: Name, e: Element, k: nat)
    requires k < |since| && Names(since[k], name, e)
    requires forall j :: k < j < |since| ==> !Names(since[j], name, e)
    ensures Holds(Lookup(CacheOf(base, since), name), e, since[k].values[e])
    decreases |since|
  {
    hide CacheOf;
    var before, last := since[..|since| - 1], since[|since| - 1];
    assert since == before + [last];
    CachePush(base, before, last);
    if k < |before| {
      ElementIsLatest(base, before, name, e, k);
    }
  }

  /** An element no vector has named is not there. */
  lemma {:induction false} ElementIsNamed(base: nat, since: seq<Vector>, name: Name, e: Element)
    requires forall j :: 0 <= j < |since| ==> !Names(since[j], name, e)
    ensures name in CacheOf(base, since) ==> e !in CacheOf(base, since)[name].values
  {
    if since != [] {
      hide CacheOf;
      var before, last := since[..|since| - 1], since[|since| - 1];
      assert since == before + [last];
      CachePush(base, before, last);
      ElementIsNamed(base, before, name, e);
    }
  }

  /** So it is with the light and with the permission to write; the kind is the last vector's. */
  lemma {:induction false} LightIsLatest(base: nat, since: seq<Vector>, name: Name, k: nat)
    requires k < |since| && Lights(since[k], name) && forall j :: k < j < |since| ==> !Lights(since[j], name)
    ensures name in CacheOf(base, since) && Some(CacheOf(base, since)[name].light) == since[k].light
    decreases |since|
  {
    hide CacheOf;
    var before, last := since[..|since| - 1], since[|since| - 1];
    assert since == before + [last];
    CachePush(base, before, last);
    if k < |before| {
      LightIsLatest(base, before, name, k);
    }
  }

  lemma {:induction false} PermissionIsLatest(base: nat, since: seq<Vector>, name: Name, k: nat)
    requires k < |since| && Permits(since[k], name) && forall j :: k < j < |since| ==> !Permits(since[j], name)
    ensures name in CacheOf(base, since) && Some(CacheOf(base, since)[name].writable) == since[k].writable
    decreases |since|
  {
    hide CacheOf;
    var before, last := since[..|since| - 1], since[|since| - 1];
    assert since == before + [last];
    CachePush(base, before, last);
    if k < |before| {
      PermissionIsLatest(base, before, name, k);
    }
  }

  /** Until a vector brings a light the property is idle, and until one permits it nobody may write. */
  lemma {:induction false} StartsIdle(base: nat, since: seq<Vector>, name: Name)
    requires name in CacheOf(base, since)
    ensures (forall j :: 0 <= j < |since| ==> !Lights(since[j], name)) ==> CacheOf(base, since)[name].light == Idle
    ensures (forall j :: 0 <= j < |since| ==> !Permits(since[j], name)) ==> !CacheOf(base, since)[name].writable
    ensures base < CacheOf(base, since)[name].revision <= base + |since|
    ensures CacheOf(base, since)[name].kind == since[CacheOf(base, since)[name].revision - base - 1].kind
  {
    assert since != [];
    var before, last := since[..|since| - 1], since[|since| - 1];
    assert since == before + [last];
    CachePush(base, before, last);
    hide CacheOf;
    if name in CacheOf(base, before) {
      StartsIdle(base, before, name);
    }
    assert last == since[|since| - 1];
  }

  // ---- what is read from a property ----------------------------------------------------------

  lemma DecodedIff(p: Option<Property>, g: Gu)
    ensures Decoded(p) == Some(g) <==> Holds(p, Report, Flags(g))
  {}

  lemma NumericIff(p: Option<Property>, e: Element, low: real, high: real, n: real)
    ensures Numeric(p, e, low, high) == Some(n) <==> Holds(p, e, Num(n)) && n >= low && n <= high
  {}

  /** The fault element matters when it shows anything but its quiet texts. */
  lemma FaultIff(p: Property)
    ensures Faulted(p) <==> Fault in p.values && !Holds(Some(p), Fault, Quiet)
  {}

  /** Where both pier elements or flags are set, east counts. */
  lemma SidesIff(p: Option<Property>, g: Option<Gu>)
    ensures ReportedPier(p) == Some(SideEast) <==> Holds(p, PierEast, On)
    ensures ReportedPier(p) == Some(SideWest) <==> Holds(p, PierWest, On) && !Holds(p, PierEast, On)
    ensures PierOf(g) == Some(SideEast) <==> g.Some? && g.value.pierEast
    ensures PierOf(g) == Some(SideWest) <==> g.Some? && !g.value.pierEast && g.value.pierWest
  {}

  /** Where a snapshot says the mount points, and what it knows that from. */
  lemma PlaceIs(cache: map<Name, Property>, c: Circumstances, x: real)
    ensures var s, coords, g := Read(cache, c), Lookup(cache, Coordinates), Decoded(Lookup(cache, Status));
      && (s.ra == Some(x) <==> Holds(coords, Ra, Num(x)) && 0.0 <= x <= 24.0)
      && (s.dec == Some(x) <==> Holds(coords, Dec, Num(x)) && -90.0 <= x <= 90.0)
      && (s.ha == Some(x) <==> c.hourAngle == Some(x) && c.baselineAccepted && s.coordinatesLive && s.ra.Some?)
      && (s.side == Some(SideEast) <==> g.Some? && g.value.pierEast)
      && (s.side == Some(SideWest) <==> g.Some? && g.value.pierWest && !g.value.pierEast)
      && (s.coordinatesLive <==> Coordinates in cache && !c.coordinatesAged)
      && (s.statusLive <==> Status in cache && !c.statusAged)
  {
    hide Blocks, Decoded;
  }
}
