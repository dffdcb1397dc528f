/** The INDI transport: a cache and a revision counter fed by a reader, and bounded requests.
    The device, the network and the clock are an arbitrary finite script of moments. */
module Transport {
  import opened Common
  import opened Indi

  /** How much of the caller's time limit is left: more than one slice, at most one, or none. */
  datatype Time = Ample | LastSlice | Expired

  /** What happens while the program waits or computes: vectors arrive, the reader may break,
      time passes, somebody may request a stop, the next call out may fail. */
  datatype Moment = Moment(arrivals: seq<Vector>, breaks: bool, time: Time, stop: bool, trouble: Option<Trouble>,
                           statusAged: bool, coordinatesAged: bool, pierAged: bool,
                           baselineAccepted: bool, homeAuthority: bool, hourAngle: Option<real>)

  /** The end of the script: every time limit has passed. */
  const THE_END := Moment([], false, Expired, false, Some(TimeoutError), true, true, true, false, false, None)

  /** A moment in which some vectors arrive and the next call out fails as given. */
  function Bringing(arrivals: seq<Vector>, trouble: Option<Trouble>): Moment {
    Moment(arrivals, false, Ample, false, trouble, false, false, false, false, false, None)
  }

  datatype Command = SwitchOn(name: Name, element: Element) | Numbers(name: Name, values: map<Element, real>)
                   | GetProperties

  /** A command, the revision counter when it was sent, and what was cached then of the status and
      of the vector it goes to. What is received later has a higher revision. */
  datatype Sent = Sent(command: Command, at: int, status: Option<Property>, own: Option<Property>)

  /** One more command was sent, this one. */
  ghost predicate OneMore(before: seq<Sent>, after: seq<Sent>, c: Command) {
    |after| == |before| + 1 && before <= after && after[|before|].command == c
  }

  /** A look at the stop request: whether one was seen, and how many commands had been tried. */
  datatype Check = Check(stop: bool, tried: nat)

  /** The last of the new looks at the stop request saw one. */
  predicate LastStopped(before: seq<Check>, checks: seq<Check>) {
    |checks| > |before| && checks[|checks| - 1].stop
  }

  ghost predicate SentBy(sends: seq<Sent>, now: int) { forall s :: s in sends ==> s.at <= now }

  /** Since position `from` a check made after exactly `n` commands saw no stop request. */
  ghost predicate ClearAt(checks: seq<Check>, from: nat, n: nat) {
    exists k: nat :: from <= k < |checks| && checks[k] == Check(false, n)
  }

  /** The commands that send the mount to HOME or to PARK. */
  predicate Mechanical(c: Command) { c == SwitchOn(HomeVector, Go) || c == SwitchOn(ParkVector, Park) }

  /** The next `n` moments bring nothing: no vector, no failure, no request, and time enough. */
  predicate Calm(world: seq<Moment>, n: nat) {
    && n <= |world|
    && forall i :: 0 <= i < n ==>
        world[i].arrivals == [] && !world[i].breaks && world[i].time.Ample? && !world[i].stop && world[i].trouble.None?
  }

  /** The reception numbered `revision` left a writable vector of this kind with these elements. */
  ghost predicate Vetted(name: Name, kind: Kind, elements: set<Element>, revision: int, base: nat, since: seq<Vector>) {
    && base < revision <= base + |since|
    && var p := Lookup(CacheOf(base, since[..revision - base]), name);
    p.Some? && p.value.revision == revision && p.value.kind == kind && p.value.writable && elements <= p.value.values.Keys
  }

  lemma VettedBy(p: Property, name: Name, kind: Kind, elements: set<Element>, base: nat, before: seq<Vector>,
                 since: seq<Vector>)
    requires Lookup(CacheOf(base, before), name) == Some(p) && before <= since
    requires p.kind == kind && p.writable && elements <= p.values.Keys
    ensures Vetted(name, kind, elements, p.revision, base, since)
  {
    hide CacheOf;
    EntryIsLatest(base, before, name);
    assert before[..p.revision - base] == since[..p.revision - base];
  }

  lemma NotOlder(base: nat, before: seq<Vector>, since: seq<Vector>, name: Name)
    requires before <= since && name in CacheOf(base, since)
    ensures RevisionOf(Lookup(CacheOf(base, before), name)) <= CacheOf(base, since)[name].revision
  {
    hide CacheOf;
    EntryIsLatest(base, since, name);
    if name in CacheOf(base, before) {
      RevisionsNeverFall(base, before, since, name);
    }
  }

  class IndiTransport {
    var properties: map<Name, Property>
    var revision: nat
    var failure: bool
    var closed: bool
    var world: seq<Moment>
    ghost var base: nat              // the counter when the connection was opened
    ghost var since: seq<Vector>     // everything received since
    ghost var tries: seq<Command>    // every command asked for, sent or not
    ghost var sends: seq<Sent>
    ghost var looks: seq<Snapshot>   // what observations returned
    ghost var stops: nat             // verified stops begun
    ghost var checks: seq<Check>     // looks at the stop request
    ghost var mishaps: nat           // calls on the transport that failed, and looks at a clock run out

    ghost predicate Valid()
      reads this`properties, this`revision, this`base, this`since, this`sends
    {
      revision == base + |since| && properties == CacheOf(base, since) && SentBy(sends, revision)
    }

    /** The connection goes on: nothing received or sent is forgotten, and the script only gets shorter. */
    twostate predicate Continues()
      reads this
    {
      && base == old(base) && old(since) <= since && closed == old(closed)
      && |world| <= |old(world)| && old(looks) <= looks && old(checks) <= checks && old(mishaps) <= mishaps
    }

    /** Since the old state, HOME or PARK was tried only after a check that saw no stop request,
        with no other command tried in between. */
    twostate predicate Guarded()
      reads this
    {
      && old(tries) <= tries
      && forall i :: |old(tries)| <= i < |tries| && Mechanical(tries[i]) ==> ClearAt(checks, |old(checks)|, i)
    }

    ghost function Head(): Moment
      reads this`world
    {
      if world == [] then THE_END else world[0]
    }

    /** Exactly one moment has passed. */
    twostate predicate Passed()
      reads this
    {
      && world == (if old(world) == [] then [] else old(world)[1..])
      && since == old(since) + old(Head()).arrivals && failure == (old(failure) || old(Head()).breaks)
    }

    /** No moment has passed. */
    twostate predicate Still()
      reads this
    {
      world == old(world) && since == old(since) && failure == old(failure)
    }

    ghost function Cached(name: Name): Option<Property>
      reads this`base, this`since
    {
      Lookup(CacheOf(base, since), name)
    }

    /** The command as it is sent now. */
    ghost function Stamp(c: Command): Sent
      reads this`base, this`since, this`revision
    {
      Sent(c, revision, Cached(Status), if c.GetProperties? then None else Cached(c.name))
    }

    twostate predicate Quiet()
      reads this
    {
      tries == old(tries) && sends == old(sends) && looks == old(looks) && stops == old(stops)
    }

    constructor (script: seq<Moment>)
      ensures Valid() && closed && !failure && world == script
      ensures base == 0 && since == [] && revision == 0 && tries == [] && sends == [] && looks == [] && stops == 0
      ensures checks == [] && mishaps == 0
    {
      properties, revision, failure, closed, world := map[], 0, false, true, script;
      base, since, tries, sends, looks, stops, checks, mishaps := 0, [], [], [], [], 0, [], 0;
    }

    /** Opens the connection and asks for all properties; the request may fail on an open connection. */
    method Connect(trouble: Option<Trouble>) returns (r: Result<()>)
      requires Valid()
      modifies this
      ensures Valid() && revision >= old(revision) && stops == old(stops) && looks == old(looks) && tries == old(tries)
      ensures old(!closed) ==> Still() && base == old(base) && !closed && sends == old(sends) &&
                               (r.Ok? <==> !failure) && (r.Err? ==> r.error == ConnectionError)
      ensures old(closed) && trouble.Some? ==>
        Still() && base == old(base) && closed && sends == old(sends) && r == Err(trouble.value)
      ensures old(closed) && trouble.None? ==>
        && !closed && base == old(revision) && since == old(Head()).arrivals && failure == old(Head()).breaks
        && world == (if old(world) == [] then [] else old(world)[1..])
        && sends == old(sends) + (if r.Ok? then [Stamp(GetProperties)] else [])
        && (r.Ok? <==> !failure && old(Head()).trouble.None?)
    {
      if !closed {
        return if failure then Err(ConnectionError) else Ok(());
      }
      if trouble.Some? {
        return Err(trouble.value);
      }
      closed, failure, properties := false, false, map[];
      base, since := revision, [];
      r := Send(GetProperties);
    }

    method Close()
      requires Valid()
      modifies this`closed
      ensures Valid() && closed
    {
      closed := true;
    }

    /** The reader's critical section for one vector. */
    method Record(v: Vector)
      requires Valid()
      modifies this`properties, this`revision, this`since
      ensures Valid() && since == old(since) + [v] && revision == old(revision) + 1
    {
      assert (since + [v])[..|since|] == since;
      revision := revision + 1;
      properties := properties[v.name := Merge(Lookup(properties, v.name), v, revision)];
      since := since + [v];
    }

    method Pass() returns (m: Moment)
      requires Valid()
      modifies this`properties, this`revision, this`since, this`world, this`failure
      ensures Valid() && Continues()
      ensures if old(world) == [] then m == THE_END && world == [] else m == old(world)[0] && world == old(world)[1..]
      ensures m == old(Head()) && Passed()
    {
      hide CacheOf;
      if world == [] {
        m := THE_END;
      } else {
        m, world := world[0], world[1..];
      }
      var i := 0;
      while i < |m.arrivals|
        modifies this`properties, this`revision, this`since
        invariant 0 <= i <= |m.arrivals| && Valid() && since == old(since) + m.arrivals[..i]
      {
        Record(m.arrivals[i]);
        i := i + 1;
      }
      failure := failure || m.breaks;
    }

    method Clock() returns (t: Time)
      requires Valid()
      modifies this`properties, this`revision, this`since, this`world, this`failure, this`mishaps
      ensures Valid() && Continues() && Passed() && t == old(Head()).time
      ensures !t.Expired? ==> |world| < |old(world)|
      ensures mishaps == old(mishaps) + if t.Expired? then 1 else 0
    {
      var m := Pass();
      t := m.time;
      mishaps := mishaps + if t.Expired? then 1 else 0;
    }

    /** The token's check or sleep, which tells whether a stop was requested; a move that cannot
        be stopped never sees one. */
    method StopRequested(stoppable: bool) returns (b: bool)
      requires Valid()
      modifies this`properties, this`revision, this`since, this`world, this`failure, this`checks
      ensures Valid() && Continues() && Passed()
      ensures b == (stoppable && old(Head()).stop) && checks == old(checks) + [Check(b, |tries|)]
    {
      var m := Pass();
      b := stoppable && m.stop;
      checks := checks + [Check(b, |tries|)];
    }

    method GetProperty(name: Name) returns (p: Option<Property>)
      requires Valid()
      modifies this`properties, this`revision, this`since, this`world, this`failure
      ensures Valid() && Continues() && Passed() && p == Cached(name)
    {
      var m := Pass();
      p := Lookup(properties, name);
    }

    ghost predicate Newer(name: Name, after: int)
      reads this`base, this`since
    {
      Cached(name).Some? && Cached(name).value.revision > after
    }

    method WaitProperty(name: Name, after: int) returns (r: Result<Property>)
      requires Valid()
      modifies this`properties, this`revision, this`since, this`world, this`failure, this`mishaps
      ensures Valid() && Continues() && mishaps == old(mishaps) + if r.Err? then 1 else 0
      ensures r.Ok? ==> Cached(name) == Some(r.value) && r.value.revision > after
      ensures r.Err? ==>
        if r.error == ConnectionError then failure || (closed && !Newer(name, after))
        else r.error == TimeoutError && !failure && Head().time.Expired? && !Newer(name, after)
      ensures old(failure) ==> r.Err? && Still()
      ensures old(!failure && Newer(name, after)) ==> r.Ok? && Still()
    {
      hide CacheOf, SentBy;
      while true
        invariant Valid() && Continues() && mishaps == old(mishaps)
        invariant old(failure || Newer(name, after)) ==> Still()
        decreases |world|
      {
        if failure {
          mishaps := mishaps + 1;
          return Err(ConnectionError);
        }
        if name in properties && properties[name].revision > after {
          return Ok(properties[name]);
        }
        if closed {
          mishaps := mishaps + 1;
          return Err(ConnectionError);
        }
        if world == [] || world[0].time.Expired? {
          mishaps := mishaps + 1;
          return Err(TimeoutError);
        }
        var m := Pass();
      }
    }

    /** A time-out that its caller expects is no mishap. */
    ghost method Expected()
      requires mishaps > 0
      modifies this`mishaps
      ensures mishaps == old(mishaps) - 1
    {
      mishaps := mishaps - 1;
    }

    method Send(c: Command) returns (r: Result<()>)
      requires Valid()
      modifies this
      ensures Valid() && Continues() && looks == old(looks) && stops == old(stops) && tries == old(tries)
      ensures checks == old(checks) && mishaps == old(mishaps) + if r.Err? then 1 else 0
      ensures sends == old(sends) + if r.Ok? then [Stamp(c)] else []
      ensures Passed() && (r.Err? ==> r.error != Stopped)
      ensures r == if closed || failure then Err(ConnectionError)
                   else if old(Head()).trouble.Some? then Err(old(Head()).trouble.value) else Ok(())
    {
      hide CacheOf;
      var m := Pass();
      if closed || failure {
        mishaps := mishaps + 1;
        return Err(ConnectionError);
      }
      if m.trouble.Some? {
        mishaps := mishaps + 1;
        return Err(m.trouble.value);
      }
      sends := sends + [Stamp(c)];
      r := Ok(());
    }

    /** The vector is cached and takes such a command. */
    ghost predicate Issuable(name: Name, kind: Kind, elements: set<Element>)
      reads this`base, this`since, this`failure
    {
      && !failure && Cached(name).Some?
      && Cached(name).value.kind == kind && Cached(name).value.writable && elements <= Cached(name).value.values.Keys
    }

    /** The cached vector, which is waited for when there is none yet. */
    method Current(name: Name) returns (r: Result<Property>)
      requires Valid()
      modifies this`properties, this`revision, this`since, this`world, this`failure, this`mishaps
      ensures Valid() && Continues() && mishaps == old(mishaps) + if r.Err? then 1 else 0
      ensures r.Ok? ==>
        && Cached(name) == Some(r.value) && 0 < r.value.revision <= revision
        && RevisionOf(old(Cached(name))) <= r.value.revision
      ensures r.Err? ==> r.error in {ConnectionError, TimeoutError}
      ensures old(!failure && Cached(name).Some?) ==> r == Ok(old(Cached(name)).value) && Still()
    {
      hide CacheOf, Continues;
      EntryWithin(base, since, name);
      assert Cached(name).Some? ==> Newer(name, -1);
      r := WaitProperty(name, -1);
      if r.Ok? {
        EntryWithin(base, since, name);
        BaseStays();
        NotOlder(base, old(since), since, name);
      }
    }

    twostate lemma BaseStays()
      requires Continues()
      ensures base == old(base) && old(since) <= since
    {}

    /** The vector a command is checked against. */
    method Usable(name: Name, kind: Kind, elements: set<Element>) returns (r: Result<Property>)
      requires Valid()
      modifies this`properties, this`revision, this`since, this`world, this`failure, this`mishaps
      ensures Valid() && Continues() && mishaps == old(mishaps) + if r.Err? then 1 else 0
      ensures r.Ok? ==>
        && Cached(name) == Some(r.value) && 0 < r.value.revision <= revision
        && r.value.kind == kind && r.value.writable && elements <= r.value.values.Keys
        && RevisionOf(old(Cached(name))) <= r.value.revision
      ensures r.Err? ==> r.error in {ConnectionError, TimeoutError, ValueError}
      ensures r == Err(ValueError) ==> Cached(name).Some? && !Issuable(name, kind, elements)
      ensures old(Issuable(name, kind, elements)) ==> r == Ok(old(Cached(name)).value) && Still()
    {
      hide CacheOf, Valid;
      r := Current(name);
      if r.Ok? {
        var p := r.value;
        if p.kind != kind || !p.writable || !(elements <= p.values.Keys) {
          mishaps := mishaps + 1;
          r := Err(ValueError);
        }
      }
    }

    /** A long-running action; the caller verifies its effect. */
    method Issue(c: Command, kind: Kind, elements: set<Element>) returns (r: Result<int>)
      requires Valid() && !c.GetProperties?
      modifies this
      ensures tries == old(tries) + [c]
      ensures Valid() && Continues() && looks == old(looks) && stops == old(stops) && checks == old(checks)
      ensures mishaps == old(mishaps) + if r.Err? then 1 else 0
      ensures sends == old(sends) + if r.Ok? then [Stamp(c)] else []
      ensures r.Ok? ==> 0 < r.value <= revision && Vetted(c.name, kind, elements, r.value, base, since)
      ensures r.Ok? ==> RevisionOf(old(Cached(c.name))) <= r.value <= RevisionOf(sends[|sends| - 1].own)
      ensures r.Err? ==> r.error != Stopped
      ensures old(Issuable(c.name, kind, elements)) ==>
        Passed() && r == if closed || failure then Err(ConnectionError)
                         else if old(Head()).trouble.Some? then Err(old(Head()).trouble.value)
                         else Ok(old(Cached(c.name)).value.revision)
    {
      hide CacheOf, Vetted;
      tries := tries + [c];
      var before := Usable(c.name, kind, elements);
      if before.Err? {
        return Err(before.error);
      }
      var p := before.value;
      ghost var checked := since;
      var sent := Send(c);
      if sent.Err? {
        return Err(sent.error);
      }
      VettedBy(p, c.name, kind, elements, base, checked, since);
      RevisionsNeverFall(base, checked, since, c.name);
      r := Ok(p.revision);
    }

    method IssueSwitch(name: Name, element: Element) returns (r: Result<int>)
      requires Valid()
      modifies this
      ensures tries == old(tries) + [SwitchOn(name, element)]
      ensures Valid() && Continues() && looks == old(looks) && stops == old(stops) && checks == old(checks)
      ensures mishaps == old(mishaps) + if r.Err? then 1 else 0
      ensures sends == old(sends) + if r.Ok? then [Stamp(SwitchOn(name, element))] else []
      ensures r.Ok? ==> 0 < r.value <= revision && Vetted(name, Switch, {element}, r.value, base, since)
      ensures r.Err? ==> r.error != Stopped
      ensures old(Issuable(name, Switch, {element})) ==>
        Passed() && r == if closed || failure then Err(ConnectionError)
                         else if old(Head()).trouble.Some? then Err(old(Head()).trouble.value)
                         else Ok(old(Cached(name)).value.revision)
    {
      r := Issue(SwitchOn(name, element), Switch, {element});
    }

    method IssueNumber(name: Name, element: Element, value: real) returns (r: Result<int>)
      requires Valid()
      modifies this
      ensures tries == old(tries) + [Numbers(name, map[element := value])]
      ensures Valid() && Continues() && looks == old(looks) && stops == old(stops) && checks == old(checks)
      ensures mishaps == old(mishaps) + if r.Err? then 1 else 0
      ensures sends == old(sends) + if r.Ok? then [Stamp(Numbers(name, map[element := value]))] else []
      ensures r.Ok? ==> 0 < r.value <= revision && Vetted(name, Number, {element}, r.value, base, since)
      ensures r.Ok? ==> RevisionOf(old(Cached(name))) <= r.value <= RevisionOf(sends[|sends| - 1].own)
      ensures r.Err? ==> r.error != Stopped
      ensures old(Issuable(name, Number, {element})) ==>
        Passed() && r == if closed || failure then Err(ConnectionError)
                         else if old(Head()).trouble.Some? then Err(old(Head()).trouble.value)
                         else Ok(old(Cached(name)).value.revision)
    {
      r := Issue(Numbers(name, map[element := value]), Number, {element});
    }

    function At(m: Moment): Circumstances
      reads this`closed, this`failure
    {
      Circumstances(!closed && !failure, m.statusAged, m.coordinatesAged, m.pierAged, m.baselineAccepted,
                    m.homeAuthority, m.hourAngle)
    }

    method Observe() returns (r: Result<Snapshot>)
      requires Valid()
      modifies this`properties, this`revision, this`since, this`world, this`failure, this`mishaps, this`looks
      ensures Valid() && Continues() && mishaps == old(mishaps) + if r.Err? then 1 else 0
      ensures r.Ok? ==> looks == old(looks) + [r.value]
      ensures Passed() && r == if old(Head()).trouble.Some? then Err(old(Head()).trouble.value)
                               else Ok(Read(CacheOf(base, since), At(old(Head()))))
      ensures r.Ok? ==>
        (DeviceDisconnected in r.value.blockers <==> closed || failure || !Holds(Cached(Connection), Element.Connect, On))
      ensures r.Err? ==> looks == old(looks) && r.error != Stopped
    {
      hide CacheOf;
      var m := Pass();
      if m.trouble.Some? {
        mishaps := mishaps + 1;
        return Err(m.trouble.value);
      }
      var s := Read(properties, At(m));
      looks := looks + [s];
      r := Ok(s);
    }

    /** Sends a switch and waits until the device confirms that it is on, unless it already is. */
    method SetSwitch(name: Name, element: Element) returns (r: Result<Property>)
      requires Valid()
      modifies this
      ensures tries == old(tries) + [SwitchOn(name, element)]
      ensures Valid() && Continues() && looks == old(looks) && stops == old(stops) && checks == old(checks)
      ensures mishaps == old(mishaps) + if r.Err? then 1 else 0
      ensures sends == old(sends) ||
              (|sends| == |old(sends)| + 1 && sends[..|old(sends)|] == old(sends) &&
               sends[|old(sends)|].command == SwitchOn(name, element) && sends[|old(sends)|].at <= revision)
      ensures r.Ok? ==>
        && r.value.light == Okay && Holds(Some(r.value), element, On) && Cached(name) == Some(r.value)
        && (sends != old(sends) ==> r.value.revision > RevisionOf(old(Cached(name))))
      ensures r.Err? ==> r.error != Stopped
      ensures old(Issuable(name, Switch, {element})) ==>
        if old(Cached(name)).value.light == Okay && old(Cached(name)).value.values[element] == On
        then r.Ok? && sends == old(sends) && Still()
        else sends == old(sends) <==> closed || old(failure || Head().breaks || Head().trouble.Some?)
    {
      hide CacheOf, Valid;
      tries := tries + [SwitchOn(name, element)];
      r := Usable(name, Switch, {element});
      if r.Err? {
        return;
      }
      var before := r.value;
      if before.light == Okay && before.values[element] == On {
        return;
      }
      r := Order(name, element, On, before.revision);
    }

    /** Waits for an update after `after` that is okay and, unless `Blank` is asked for, shows the value. */
    method Confirm(name: Name, element: Element, wanted: Value, after: int) returns (r: Result<Property>)
      requires Valid()
      modifies this`properties, this`revision, this`since, this`world, this`failure, this`mishaps
      ensures Valid() && Continues() && mishaps == old(mishaps) + if r.Err? then 1 else 0
      ensures r.Ok? ==>
        && r.value.light == Okay && (wanted != Blank ==> Holds(Some(r.value), element, wanted))
        && Cached(name) == Some(r.value) && r.value.revision > after
      ensures r.Err? ==> r.error in {ConnectionError, TimeoutError, RuntimeError}
      ensures r == Err(ConnectionError) ==> failure || closed
      ensures r == Err(RuntimeError) ==> Newer(name, after) && Cached(name).value.light == Alert
    {
      var seen := after;
      while true
        invariant Valid() && Continues() && seen >= after && mishaps == old(mishaps)
        decreases |world|
      {
        var t := Clock();
        if t.Expired? {
          return Err(TimeoutError);
        }
        r := WaitProperty(name, seen);
        if r.Err? {
          return;
        }
        if r.value.light == Alert {
          mishaps := mishaps + 1;
          return Err(RuntimeError);
        }
        if r.value.light == Okay && (wanted == Blank || Holds(Some(r.value), element, wanted)) {
          return;
        }
        seen := r.value.revision;
      }
    }

    /** Sends a switch and waits for its confirmation. */
    method Order(name: Name, element: Element, wanted: Value, after: int) returns (r: Result<Property>)
      requires Valid()
      modifies this
      ensures Valid() && Continues() && looks == old(looks) && stops == old(stops) && checks == old(checks)
      ensures tries == old(tries) && mishaps == old(mishaps) + if r.Err? then 1 else 0
      ensures if closed || old(failure || Head().breaks || Head().trouble.Some?) then sends == old(sends) && r.Err?
              else |sends| == |old(sends)| + 1 && sends[..|old(sends)|] == old(sends) &&
                   sends[|old(sends)|].command == SwitchOn(name, element) && sends[|old(sends)|].at <= revision
      ensures r.Ok? ==>
        && r.value.light == Okay && (wanted != Blank ==> Holds(Some(r.value), element, wanted))
        && Cached(name) == Some(r.value) && r.value.revision > after
      ensures r.Err? ==> r.error != Stopped
    {
      hide CacheOf;
      var sent := Send(SwitchOn(name, element));
      if sent.Err? {
        return Err(sent.error);
      }
      r := Confirm(name, element, wanted, after);
    }

    /** Sends a momentary switch, whose element may go off at once, and waits for the device's okay. */
    method RequestSwitch(name: Name, element: Element) returns (r: Result<Property>)
      requires Valid()
      modifies this
      ensures tries == old(tries) + [SwitchOn(name, element)]
      ensures Valid() && Continues() && looks == old(looks) && stops == old(stops) && checks == old(checks)
      ensures mishaps == old(mishaps) + if r.Err? then 1 else 0
      ensures r.Ok? ==>
        && |sends| == |old(sends)| + 1 && sends[..|old(sends)|] == old(sends)
        && sends[|old(sends)|].command == SwitchOn(name, element) && sends[|old(sends)|].at <= revision
        && r.value.light == Okay && Cached(name) == Some(r.value) && r.value.revision > RevisionOf(old(Cached(name)))
      ensures r.Err? ==> r.error != Stopped && old(sends) <= sends
      ensures old(Issuable(name, Switch, {element})) ==>
        (sends == old(sends) <==> closed || old(failure || Head().breaks || Head().trouble.Some?))
    {
      hide CacheOf, Valid;
      tries := tries + [SwitchOn(name, element)];
      r := Usable(name, Switch, {element});
      if r.Err? {
        return;
      }
      var before := r.value;
      r := Order(name, element, Blank, before.revision);
    }
  }
}
