/** Guide pulses: bounded chunks, each preceded by a preflight and followed by a status that
    shows the pulse over. */
module Guide {
  import opened Common
  import opened Indi
  import opened Transport
  import opened Confirmation
  import opened Stop
  import opened Meridian
  import opened Looks
  import opened Preflights
  import opened GuidePlan

  datatype Direction = GuideNorth | GuideSouth | GuideEast | GuideWest

  function VectorOf(d: Direction): Name { if d.GuideNorth? || d.GuideSouth? then GuideNS else GuideWE }

  function ElementOf(d: Direction): Element {
    match d
    case GuideNorth => North
    case GuideSouth => South
    case GuideEast => East
    case GuideWest => West
  }

  function ChunkCommand(d: Direction, ms: int): Command { Numbers(VectorOf(d), map[ElementOf(d) := ms as real]) }

  predicate PhaseAllowed(p: Phase) { p.PreMeridian? || p.PostMeridian? || p.PostFlip? || p.FlipRequired? }

  /** The preflight passes. */
  predicate Permitted(strict: bool, s: Snapshot, m: State) {
    && Fit(s) && s.tracking && !s.atHome && !m.stopRequired && !m.phase.HardStop? && !m.phase.FirmwareLimit?
    && (strict ==> Knowing(s) && PhaseAllowed(m.phase))
  }

  /** Exactly when the preflight passes, in terms of what the cache holds and of the verdict. */
  lemma PermittedIff(strict: bool, cache: map<Name, Property>, c: Circumstances, m: State)
    ensures Permitted(strict, Read(cache, c), m) <==>
      && FitStatus(cache, c)
      && Decoded(Lookup(cache, Status)).value.tracking && !Decoded(Lookup(cache, Status)).value.atHome
      && !m.stopRequired && !m.phase.HardStop? && !m.phase.FirmwareLimit?
      && (strict ==>
            && KnownPlace(cache, c)
            && (m.phase.PreMeridian? || m.phase.PostMeridian? || m.phase.PostFlip? || m.phase.FlipRequired?))
  {
    hide Fit, Knowing, KnownPlace, Lookup, Holds, Faulted, PierOf, ReportedPier, Numeric;
    FitIff(cache, c);
    KnowingIff(cache, c);
  }

  datatype Preflight = Preflight(look: Snapshot, verdict: State)

  /** The look at position `k` and the verdict on the one after it. */
  ghost predicate LookedAt(looks: seq<Snapshot>, k: nat, p: Preflight, policy: Policy) {
    k + 1 < |looks| && looks[k] == p.look && p.verdict == Classify(looks[k + 1], policy)
  }

  /** An alert of the guide vector, received since. */
  ghost predicate Rejected(p: Option<Property>, name: Name, after: int, base: nat, since: seq<Vector>) {
    p.Some? && p.value.light == Alert && p.value.revision > after && Taken(p.value, name, base, since)
  }

  /** An update of the guide vector, newer than `after`, that calls the pulse over. */
  predicate CalledOver(p: Option<Property>, after: int) {
    p.Some? && p.value.revision > after && p.value.light in {Okay, Idle}
  }

  predicate Guides(p: Option<Property>) { Decoded(p).Some? && Decoded(p).value.guiding }

  /** A look without guiding ends the chunk `c`. It is newer than the preflight's status `from`;
      it was received after the command unless it shows the very status cached when the command
      went out. So it was if no status arrived between the preflight's look and the command, and
      if the status cached then showed guiding. */
  ghost predicate Over(s: Snapshot, from: int, c: Sent, base: nat, since: seq<Vector>) {
    && !s.guiding && Shown(s, base, since) && s.statusRevision > from
    && (s.statusRevision > c.at <==> s.statusRevision != RevisionOf(c.status))
    && (RevisionOf(c.status) == from || Guides(c.status) ==> s.statusRevision > c.at)
  }

  lemma OverBy(s: Snapshot, from: int, c: Sent, base: nat, before: seq<Vector>, since: seq<Vector>)
    requires !s.guiding && Shown(s, base, since) && s.statusRevision > from && s.statusRevision >= RevisionOf(c.status)
    requires before <= since && c.at == base + |before| && c.status == Lookup(CacheOf(base, before), Status)
    ensures Over(s, from, c, base, since)
  {
    hide CacheOf;
    var p :| ShownBy(s, p, base, since);
    LaterIff(p, Status, base, before, since);
  }

  /** How a chunk ended: the update of the guide vector that called it over, which is newer than
      the entry `after` the command was checked against, and the look that showed it over. */
  datatype Finish = Finish(after: int, okay: Property, idle: Snapshot)

  /** The okay was received after the command unless it is the very entry cached when the command
      went out. So it was if that is still the entry the command was checked against. */
  ghost predicate Okayed(f: Finish, d: Direction, c: Sent, base: nat, since: seq<Vector>) {
    && Vetted(VectorOf(d), Number, {ElementOf(d)}, f.after, base, since)
    && Taken(f.okay, VectorOf(d), base, since) && CalledOver(Some(f.okay), f.after)
    && (f.okay.revision > c.at <==> c.own != Some(f.okay))
    && (RevisionOf(c.own) == f.after ==> f.okay.revision > c.at)
  }

  ghost predicate Finished(f: Finish, d: Direction, from: int, c: Sent, base: nat, since: seq<Vector>) {
    Okayed(f, d, c, base, since) && Over(f.idle, from, c, base, since)
  }

  lemma OkayedBy(f: Finish, d: Direction, c: Sent, base: nat, before: seq<Vector>, since: seq<Vector>)
    requires Vetted(VectorOf(d), Number, {ElementOf(d)}, f.after, base, before)
    requires Taken(f.okay, VectorOf(d), base, since) && CalledOver(Some(f.okay), f.after)
    requires before <= since && c.at == base + |before| && c.own == Lookup(CacheOf(base, before), VectorOf(d))
    requires f.okay.revision >= RevisionOf(c.own)
    ensures Okayed(f, d, c, base, since)
  {
    hide CacheOf;
    LaterIff(f.okay, VectorOf(d), base, before, since);
    assert before[..f.after - base] == since[..f.after - base];
  }

  lemma FinishedGrows(f: Finish, d: Direction, from: int, c: Sent, base: nat, before: seq<Vector>, since: seq<Vector>)
    requires Finished(f, d, from, c, base, before) && before <= since
    ensures Finished(f, d, from, c, base, since)
  {
    hide CacheOf, Shown;
    ShownGrows(f.idle, base, before, since);
    assert before[..f.after - base] == since[..f.after - base];
    assert before[..f.okay.revision - base] == since[..f.okay.revision - base];
  }

  /** What a run has done so far. Chunk `i` was sent after preflight `i` passed, and finished when
      the device had called it over and a status newer than that preflight's showed no guiding;
      only then came the next one. */
  ghost predicate Run(strict: bool, d: Direction, plan: seq<int>, sent: seq<Sent>, passed: seq<Preflight>, ends: seq<Finish>,
                      base: nat, since: seq<Vector>)
  {
    && |sent| <= |passed| <= |sent| + 1 && |sent| <= |plan| && |ends| <= |sent| <= |ends| + 1
    && (forall i :: 0 <= i < |passed| ==> Permitted(strict, passed[i].look, passed[i].verdict))
    && (forall i :: 0 <= i < |sent| ==>
          sent[i].command == ChunkCommand(d, plan[i]) && passed[i].look.statusRevision <= sent[i].at)
    && (forall i :: 0 <= i < |ends| ==> Finished(ends[i], d, passed[i].look.statusRevision, sent[i], base, since))
    && (forall i :: 0 <= i < |ends| && i + 1 < |sent| ==>
          ends[i].idle.statusRevision <= sent[i + 1].at && ends[i].okay.revision <= sent[i + 1].at)
  }

  /** Chunk by chunk, every number of milliseconds goes out under its direction's own name. */
  lemma ChunksGoTheirWay(strict: bool, d: Direction, plan: seq<int>, sent: seq<Sent>, passed: seq<Preflight>,
                         ends: seq<Finish>, base: nat, since: seq<Vector>, i: nat)
    requires Run(strict, d, plan, sent, passed, ends, base, since) && i < |sent|
    ensures d.GuideNorth? ==> sent[i].command == Numbers(GuideNS, map[North := plan[i] as real])
    ensures d.GuideSouth? ==> sent[i].command == Numbers(GuideNS, map[South := plan[i] as real])
    ensures d.GuideEast? ==> sent[i].command == Numbers(GuideWE, map[East := plan[i] as real])
    ensures d.GuideWest? ==> sent[i].command == Numbers(GuideWE, map[West := plan[i] as real])
  {
    hide Permitted, Finished;
  }

  // ---- the order of the looks ----------------------------------------------------------------

  /** Preflights and the looks that end chunks take turns: `marks[2 * i]` is where preflight `i`
      was made and `marks[2 * i + 1]` where chunk `i` was seen over. */
  ghost predicate Ordered(looks: seq<Snapshot>, from: nat, passed: seq<Preflight>, ends: seq<Finish>, marks: seq<nat>,
                          policy: Policy)
  {
    && |ends| <= |passed| <= |ends| + 1 && |marks| == |passed| + |ends|
    && (forall j :: 0 <= j < |marks| ==> from <= marks[j] && marks[j] + 1 < |looks|)
    && (forall j, k :: 0 <= j < k < |marks| ==> marks[j] + 1 < marks[k])
    && (forall i :: 0 <= i < |passed| ==> LookedAt(looks, marks[2 * i], passed[i], policy))
    && (forall i :: 0 <= i < |ends| ==> looks[marks[2 * i + 1]] == ends[i].idle)
  }

  lemma OrderedGrows(looks: seq<Snapshot>, all: seq<Snapshot>, from: nat, passed: seq<Preflight>, ends: seq<Finish>,
                     marks: seq<nat>, policy: Policy)
    requires Ordered(looks, from, passed, ends, marks, policy) && looks <= all
    ensures Ordered(all, from, passed, ends, marks, policy)
  {
    hide Classify;
    forall i | 0 <= i < |passed| ensures LookedAt(all, marks[2 * i], passed[i], policy) {
      assert LookedAt(looks, marks[2 * i], passed[i], policy);
    }
  }

  lemma OrderedPasses(looks: seq<Snapshot>, all: seq<Snapshot>, from: nat, passed: seq<Preflight>, ends: seq<Finish>,
                      marks: seq<nat>, policy: Policy, p: Preflight)
    requires Ordered(looks, from, passed, ends, marks, policy) && looks <= all && |passed| == |ends| && from <= |looks|
    requires LookedAt(all, |looks|, p, policy)
    ensures Ordered(all, from, passed + [p], ends, marks + [|looks|], policy)
  {
    hide Classify;
    OrderedGrows(looks, all, from, passed, ends, marks, policy);
  }

  lemma OrderedEnds(all: seq<Snapshot>, n: nat, from: nat, passed: seq<Preflight>, ends: seq<Finish>, marks: seq<nat>,
                    policy: Policy, f: Finish)
    requires Ordered(all, from, passed, ends, marks, policy) && |passed| == |ends| + 1
    requires marks[|marks| - 1] + 1 < n && n + 1 < |all| && all[n] == f.idle
    ensures Ordered(all, from, passed, ends + [f], marks + [n], policy)
  {
    hide LookedAt;
  }

  /** What a pulse has sent and seen: the chunks, the preflights before them, how they ended, and
      where among the looks it was seen. */
  datatype Progress = Progress(sent: seq<Sent>, passed: seq<Preflight>, ends: seq<Finish>, marks: seq<nat>)

  const NOTHING := Progress([], [], [], [])

  /** The run so far, and the order of its looks. */
  ghost predicate Going(strict: bool, policy: Policy, d: Direction, plan: seq<int>, g: Progress, looks: seq<Snapshot>,
                        from: nat, base: nat, since: seq<Vector>)
  {
    Run(strict, d, plan, g.sent, g.passed, g.ends, base, since) && Ordered(looks, from, g.passed, g.ends, g.marks, policy)
  }

  lemma GoingFrom(strict: bool, policy: Policy, d: Direction, plan: seq<int>, looks: seq<Snapshot>, base: nat,
                  since: seq<Vector>)
    ensures Going(strict, policy, d, plan, NOTHING, looks, |looks|, base, since)
  {}

  lemma GoingGrows(strict: bool, policy: Policy, d: Direction, plan: seq<int>, g: Progress, looks: seq<Snapshot>,
                   all: seq<Snapshot>, from: nat, base: nat, before: seq<Vector>, since: seq<Vector>)
    requires Going(strict, policy, d, plan, g, looks, from, base, before) && looks <= all && before <= since
    ensures Going(strict, policy, d, plan, g, all, from, base, since)
  {
    hide Run, Ordered;
    RunGrows(strict, d, plan, g.sent, g.passed, g.ends, base, before, since);
    OrderedGrows(looks, all, from, g.passed, g.ends, g.marks, policy);
  }

  /** A preflight passed at the look `|looks|`, and the chunk after it went out, if it did. */
  lemma GoingOn(strict: bool, policy: Policy, d: Direction, plan: seq<int>, g: Progress, looks: seq<Snapshot>,
                all: seq<Snapshot>, from: nat, base: nat, since: seq<Vector>, p: Preflight, chunk: seq<Sent>, now: int)
    requires Going(strict, policy, d, plan, g, looks, from, base, since) && looks <= all && from <= |looks|
    requires |g.sent| == |g.passed| == |g.ends| < |plan| && |chunk| <= 1
    requires Permitted(strict, p.look, p.verdict) && LookedAt(all, |looks|, p, policy)
    requires g.ends != [] ==> IsPast(g.ends[|g.ends| - 1], now)
    requires forall s :: s in chunk ==>
      s.command == ChunkCommand(d, plan[|g.sent|]) && p.look.statusRevision <= s.at && now <= s.at
    ensures Going(strict, policy, d, plan, Progress(g.sent + chunk, g.passed + [p], g.ends, g.marks + [|looks|]), all,
                  from, base, since)
  {
    hide Permitted, ChunkCommand, LookedAt, Run, Ordered;
    RunPasses(strict, d, plan, g.sent, g.passed, g.ends, base, since, p);
    RunSends(strict, d, plan, g.sent, g.passed + [p], g.ends, base, since, chunk);
    OrderedPasses(looks, all, from, g.passed, g.ends, g.marks, policy, p);
  }

  /** The chunk under way was seen over at the last look but one. */
  lemma GoingOver(strict: bool, policy: Policy, d: Direction, plan: seq<int>, g: Progress, all: seq<Snapshot>, from: nat,
                  base: nat, since: seq<Vector>, f: Finish)
    requires Going(strict, policy, d, plan, g, all, from, base, since)
    requires |g.passed| == |g.sent| == |g.ends| + 1
    requires g.marks != [] && g.marks[|g.marks| - 1] + 4 <= |all| && all[|all| - 2] == f.idle
    requires Finished(f, d, g.passed[|g.ends|].look.statusRevision, g.sent[|g.ends|], base, since)
    ensures Going(strict, policy, d, plan, g.(ends := g.ends + [f], marks := g.marks + [|all| - 2]), all, from, base, since)
  {
    hide Finished, Run, Ordered;
    RunEnds(strict, d, plan, g.sent, g.passed, g.ends, base, since, f);
    OrderedEnds(all, |all| - 2, from, g.passed, g.ends, g.marks, policy, f);
  }

  lemma RunGrows(strict: bool, d: Direction, plan: seq<int>, sent: seq<Sent>, passed: seq<Preflight>, ends: seq<Finish>,
                 base: nat, before: seq<Vector>, since: seq<Vector>)
    requires Run(strict, d, plan, sent, passed, ends, base, before) && before <= since
    ensures Run(strict, d, plan, sent, passed, ends, base, since)
  {
    hide Permitted, ChunkCommand, Finished;
    forall i | 0 <= i < |ends| ensures Finished(ends[i], d, passed[i].look.statusRevision, sent[i], base, since) {
      FinishedGrows(ends[i], d, passed[i].look.statusRevision, sent[i], base, before, since);
    }
  }

  lemma RunPasses(strict: bool, d: Direction, plan: seq<int>, sent: seq<Sent>, passed: seq<Preflight>, ends: seq<Finish>,
                  base: nat, since: seq<Vector>, p: Preflight)
    requires Run(strict, d, plan, sent, passed, ends, base, since) && |sent| == |passed|
    requires Permitted(strict, p.look, p.verdict)
    ensures Run(strict, d, plan, sent, passed + [p], ends, base, since)
  {
    hide Permitted, ChunkCommand, Finished;
  }

  lemma RunSends(strict: bool, d: Direction, plan: seq<int>, sent: seq<Sent>, passed: seq<Preflight>, ends: seq<Finish>,
                 base: nat, since: seq<Vector>, chunk: seq<Sent>)
    requires Run(strict, d, plan, sent, passed, ends, base, since)
    requires |passed| == |sent| + 1 && |ends| == |sent| < |plan| && |chunk| <= 1
    requires forall s :: s in chunk ==>
      && s.command == ChunkCommand(d, plan[|sent|]) && passed[|sent|].look.statusRevision <= s.at
      && (|ends| > 0 ==> IsPast(ends[|ends| - 1], s.at))
    ensures Run(strict, d, plan, sent + chunk, passed, ends, base, since)
  {
    hide Permitted, ChunkCommand, Finished;
    assert chunk == [] || chunk == [chunk[0]];
    assert chunk == [] ==> sent + chunk == sent;
  }

  lemma RunEnds(strict: bool, d: Direction, plan: seq<int>, sent: seq<Sent>, passed: seq<Preflight>, ends: seq<Finish>,
                base: nat, since: seq<Vector>, f: Finish)
    requires Run(strict, d, plan, sent, passed, ends, base, since) && |ends| + 1 == |sent|
    requires Finished(f, d, passed[|ends|].look.statusRevision, sent[|ends|], base, since)
    ensures Run(strict, d, plan, sent, passed, ends + [f], base, since)
  {
    hide Permitted, ChunkCommand, Finished;
  }

  predicate IsPast(f: Finish, now: int) { f.idle.statusRevision <= now && f.okay.revision <= now }

  /** The last look a pulse that is not complete knows of: the one that refused it, or else the
      preflight of a chunk under way, or else the one that ended the last chunk. */
  ghost function LastSeen(refusing: Option<Preflight>, passed: seq<Preflight>, ends: seq<Finish>): Option<Snapshot> {
    if refusing.Some? then Some(refusing.value.look)
    else if |passed| > |ends| then Some(passed[|passed| - 1].look)
    else if ends != [] then Some(ends[|ends| - 1].idle)
    else None
  }

  predicate ShowsTracking(s: Option<Snapshot>) { s.Some? && s.value.tracking }

  /** The guiding asked for so far, in milliseconds. */
  function Asked(d: Direction, sent: seq<Sent>): real {
    if sent == [] then 0.0
    else
      var c := sent[|sent| - 1].command;
      Asked(d, sent[..|sent| - 1]) + if c.Numbers? && ElementOf(d) in c.values then c.values[ElementOf(d)] else 0.0
  }

  lemma {:induction false} AskedIsPlanned(d: Direction, plan: seq<int>, sent: seq<Sent>)
    requires |sent| <= |plan| && forall i :: 0 <= i < |sent| ==> sent[i].command == ChunkCommand(d, plan[i])
    ensures Asked(d, sent) == Sum(plan[..|sent|]) as real
  {
    if sent == [] {
      assert plan[..0] == [];
    } else {
      var n := |sent| - 1;
      AskedIsPlanned(d, plan, sent[..n]);
      SumPush(plan[..n], plan[n]);
      assert plan[..n] + [plan[n]] == plan[..n + 1];
    }
  }

  /** Whatever a run has sent never asks for more than the pulse, and asks for all of it exactly
      when every chunk of the plan was sent. */
  lemma PulseIsNeverExceeded(strict: bool, d: Direction, duration: int, chunkMs: int, sent: seq<Sent>, passed: seq<Preflight>,
                             ends: seq<Finish>, base: nat, since: seq<Vector>)
    requires MIN_PULSE <= chunkMs && MIN_PULSE <= duration
    requires Run(strict, d, Plan(duration, chunkMs), sent, passed, ends, base, since)
    ensures 0.0 <= Asked(d, sent) <= duration as real
    ensures Asked(d, sent) == duration as real <==> |sent| == |Plan(duration, chunkMs)|
  {
    hide Plan, Asked, ChunkCommand, Permitted, Finished;
    var plan := Plan(duration, chunkMs);
    PlanAddsUp(duration, chunkMs);
    AskedIsPlanned(d, plan, sent);
    assert forall i :: 0 <= i < |plan| ==> plan[i] in plan;
    assert plan == plan[..|sent|] + plan[|sent|..];
    SumSplit(plan[..|sent|], plan[|sent|..]);
    SumPositive(plan[..|sent|]);
    SumPositive(plan[|sent|..]);
  }

  /** `error` is the exception that ended the pulse; a refusal counts as a RuntimeError. */
  datatype PulseResult = PulseResult(requested: int, chunks: nat, completed: nat, accepted: bool, pulseCompleted: bool,
                                     trackingPreserved: bool, error: Option<Error>)

  /** How the chunks went: all done, refused by a preflight, or failed. */
  datatype Ending = Done | Refused | Failed(e: Error)

  class GuideController {
    const t: IndiTransport
    const strict: bool
    const policy: Policy
    const chunkMs: int
    var locked: bool

    constructor (transport: IndiTransport, strictly: bool, p: Policy, chunk: int)
      requires MIN_PULSE <= chunk <= MAX_PULSE
      ensures t == transport && strict == strictly && policy == p && chunkMs == chunk && !locked
    {
      t, strict, policy, chunkMs, locked := transport, strictly, p, chunk, false;
    }

    /** What a preflight sees of a cache in the two moments that follow the next `i`. */
    ghost function Seeing(cache: map<Name, Property>, i: nat): Preflight
      requires |t.world| >= i + 2
      reads t
    {
      Preflight(Read(cache, t.At(t.world[i])), Classify(Read(cache, t.At(t.world[i + 1])), policy))
    }

    /** Each preflight is one look, and a verdict on a look of its own. */
    ghost predicate Looked(looks: seq<Snapshot>, from: nat, on: seq<Preflight>) {
      && |looks| == from + 2 * |on|
      && forall i :: 0 <= i < |on| ==>
          on[i].look == looks[from + 2 * i] && on[i].verdict == Classify(looks[from + 2 * i + 1], policy)
    }

    method Check() returns (r: Result<Preflight>)
      requires t.Valid()
      modifies t`properties, t`revision, t`since, t`world, t`failure, t`mishaps, t`looks
      ensures t.Valid() && t.Continues()
      ensures r.Ok? ==> -1 <= RevisionOf(old(t.Cached(Status))) <= r.value.look.statusRevision <= t.revision
      ensures r.Ok? && r.value.look.statusRevision >= 0 ==> Shown(r.value.look, t.base, t.since)
      ensures r.Ok? ==> Looked(t.looks, |old(t.looks)|, [r.value])
      ensures r.Err? ==> r.error != Stopped
      ensures t.mishaps == old(t.mishaps) + if r.Err? then 1 else 0
      ensures old(Calm(t.world, 2)) ==>
        && r == Ok(old(Seeing(CacheOf(t.base, t.since), 0)))
        && t.since == old(t.since) && t.world == old(t.world)[2..] && t.failure == old(t.failure)
    {
      hide CacheOf, Read, Shown, SentBy, Classify, Permitted;
      var look := Look(t);
      if look.Err? {
        return Err(look.error);
      }
      EntryNeverFalls(t.base, old(t.since), t.since, Status);
      assert old(t.Head()).arrivals == [] ==> t.since == old(t.since);
      ghost var was, on := t.since, None;
      var verdict;
      verdict, on := MeridianStatus(t, policy);
      if verdict.Err? {
        return Err(verdict.error);
      }
      if look.value.statusRevision >= 0 {
        ShownGrows(look.value, t.base, was, t.since);
        ShownIsPast(look.value, t.base, t.since);
      }
      r := Ok(Preflight(look.value, verdict.value));
    }

    /** One turn of the wait: the time limit, and an update after `last`. */
    method NextCall(name: Name, last: int) returns (r: Result<Property>)
      requires t.Valid()
      modifies t`properties, t`revision, t`since, t`world, t`failure, t`mishaps
      ensures t.Valid() && t.Continues()
      ensures if r.Ok? then t.mishaps == old(t.mishaps) else t.mishaps > old(t.mishaps) && r.error != Stopped
      ensures r.Ok? ==> t.Cached(name) == Some(r.value) && r.value.revision > last && |t.world| < |old(t.world)|
      ensures old(Calm(t.world, 1) && !t.failure && t.Newer(name, last)) ==>
        && r == Ok(old(t.Cached(name)).value)
        && t.since == old(t.since) && t.world == old(t.world)[1..] && !t.failure
    {
      hide CacheOf;
      var time := t.Clock();
      assert old(t.Head()).arrivals == [] ==> t.since == old(t.since);
      if time.Expired? {
        return Err(TimeoutError);
      }
      r := t.WaitProperty(name, last);
    }

    /** Waits for the device to call the pulse over. `calls` are the updates looked at, one newer than
        the other: all but the last were busy, and a failed wait saw none that ends the pulse well. */
    method WaitPulseCompletion(name: Name, after: int)
      returns (r: Result<()>, ghost okay: Option<Property>, ghost calls: seq<Property>)
      requires t.Valid()
      modifies t`properties, t`revision, t`since, t`world, t`failure, t`mishaps
      ensures t.Valid() && t.Continues()
      ensures r.Ok? ==> t.Cached(name) == okay && CalledOver(okay, after) && t.mishaps == old(t.mishaps)
      ensures r.Err? ==> r.error != Stopped
      ensures r.Err? ==>
        t.mishaps > old(t.mishaps) || (r.error == RuntimeError && Rejected(t.Cached(name), name, after, t.base, t.since))
      ensures old(Calm(t.world, 1) && !t.failure && CalledOver(t.Cached(name), after)) ==>
        && r.Ok? && okay == old(t.Cached(name))
        && t.since == old(t.since) && t.world == old(t.world)[1..] && !t.failure
      ensures Fresh(calls, after, name, t.base, t.since)
      ensures forall i :: 0 <= i < |calls| - 1 ==> calls[i].light == Busy
      ensures if r.Ok? then calls != [] && okay == Some(calls[|calls| - 1])
              else forall p :: p in calls ==> p.light == Busy || p.light == Alert
    {
      hide CacheOf, Taken, Calm, Fresh;
      okay, calls := None, [];
      StartFresh(AtRest, after, name, t.base, t.since);
      var last := after;
      while true
        invariant t.Valid() && t.Continues() && last == LastRevision(calls, after) && t.mishaps == old(t.mishaps)
        invariant last >= after && Fresh(calls, after, name, t.base, t.since) && forall p :: p in calls ==> p.light == Busy
        invariant old(Calm(t.world, 1) && !t.failure && CalledOver(t.Cached(name), after)) ==> t.Still() && last == after
        decreases |t.world|
      {
        ghost var was := t.since;
        var current := NextCall(name, last);
        FreshGrows(calls, after, name, t.base, was, t.since);
        if current.Err? {
          return Err(current.error), okay, calls;
        }
        WaitedIsFresh(calls, current.value, after, name, t.base, t.since);
        calls := calls + [current.value];
        last := current.value.revision;
        if current.value.light == Alert {
          LatestIsTaken(current.value, name, t.base, t.since);
          return Err(RuntimeError), okay, calls;
        }
        if current.value.light == Okay || current.value.light == Idle {
          return Ok(()), Some(current.value), calls;
        }
      }
    }

    /** The look at `i` is at a status newer than `after` and than all looked at before. */
    ghost predicate FirstSeen(on: seq<Preflight>, i: nat, after: int)
      requires i < |on|
    {
      on[i].look.statusRevision > after && forall j :: 0 <= j < i ==> on[j].look.statusRevision < on[i].look.statusRevision
    }

    /** Every newer status looked at showed the mount guiding. */
    ghost predicate StillGuiding(on: seq<Preflight>, after: int) {
      forall i: nat :: i < |on| && FirstSeen(on, i, after) ==> on[i].look.guiding
    }

    /** `latest` is the newest status looked at. */
    ghost predicate Latest(on: seq<Preflight>, after: int, latest: int) {
      && (forall p :: p in on ==> p.look.statusRevision <= latest)
      && (latest == after || (latest > after && exists i :: 0 <= i < |on| && on[i].look.statusRevision == latest))
    }

    lemma NothingGuides(after: int)
      ensures StillGuiding([], after) && Latest([], after, after)
    {}

    lemma GuidesOn(on: seq<Preflight>, after: int, latest: int, p: Preflight)
      requires StillGuiding(on, after) && Latest(on, after, latest)
      ensures (on + [p])[..|on|] == on
      ensures p.look.statusRevision <= latest ==> StillGuiding(on + [p], after) && Latest(on + [p], after, latest)
      ensures p.look.statusRevision > latest && p.look.guiding ==>
        StillGuiding(on + [p], after) && Latest(on + [p], after, p.look.statusRevision)
    {
      var all := on + [p];
      assert all[|on|] == p;
      assert forall i: nat :: i < |on| ==> FirstSeen(all, i, after) == FirstSeen(on, i, after);
    }

    /** Waits for a newer status without guiding. Every look on the way passes the preflight, and
        the last is the one returned, the first of its kind; one that does not pass ends the wait. */
    method WaitGuideIdle(after: int)
      returns (r: Result<Snapshot>, refusing: Option<Preflight>, ghost on: seq<Preflight>)
      requires t.Valid() && after >= -1
      modifies t`properties, t`revision, t`since, t`world, t`failure, t`mishaps, t`looks
      ensures t.Valid() && t.Continues()
      ensures forall p :: p in on ==> Permitted(strict, p.look, p.verdict)
      ensures r.Ok? ==> Looked(t.looks, |old(t.looks)|, on) && on != [] && on[|on| - 1].look == r.value
      ensures if r.Ok? then on != [] && StillGuiding(on[..|on| - 1], after) else StillGuiding(on, after)
      ensures r.Ok? ==>
        && !r.value.guiding && after < r.value.statusRevision <= t.revision && Shown(r.value, t.base, t.since)
        && RevisionOf(old(t.Cached(Status))) <= r.value.statusRevision
      ensures r.Err? ==> r.error != Stopped
      ensures refusing.Some? ==> r == Err(RuntimeError) && Refuses(refusing.value)
      ensures refusing.Some? ==>
        |t.looks| >= |old(t.looks)| + 2 && LookedAt(t.looks, |t.looks| - 2, refusing.value, policy)
      ensures if r.Ok? then t.mishaps == old(t.mishaps) else t.mishaps > old(t.mishaps) || refusing.Some?
      ensures old(Calm(t.world, 2) && Ends(Seeing(CacheOf(t.base, t.since), 0), after)) ==>
        r == Ok(old(Seeing(CacheOf(t.base, t.since), 0)).look)
    {
      hide CacheOf, Shown, SentBy, Permitted, Classify, Looked, StillGuiding, Latest;
      var latest := after;
      refusing, on := None, [];
      NothingLooked(t.looks);
      NothingGuides(after);
      while true
        invariant t.Valid() && t.Continues() && latest >= after && t.mishaps == old(t.mishaps)
        invariant forall p :: p in on ==> Permitted(strict, p.look, p.verdict)
        invariant Looked(t.looks, |old(t.looks)|, on) && refusing == None
        invariant StillGuiding(on, after) && Latest(on, after, latest)
        invariant old(Calm(t.world, 2) && Ends(Seeing(CacheOf(t.base, t.since), 0), after)) ==> t.Still() && latest == after
        decreases |t.world|
      {
        ghost var asked, looks := t.since, t.looks;
        var checked := Check();
        if checked.Err? {
          return Err(checked.error), refusing, on;
        }
        EntryNeverFalls(t.base, old(t.since), asked, Status);
        var s := checked.value.look;
        if !Permitted(strict, s, checked.value.verdict) {
          LookedLast(looks, t.looks, checked.value);
          return Err(RuntimeError), Some(checked.value), on;
        }
        LookedMore(looks, t.looks, |old(t.looks)|, on, checked.value);
        GuidesOn(on, after, latest, checked.value);
        on := on + [checked.value];
        if s.statusRevision > latest {
          latest := s.statusRevision;
          if !s.guiding {
            return Ok(s), refusing, on;
          }
        }
        var time := t.Clock();
        if time.Expired? {
          return Err(TimeoutError), refusing, on;
        }
      }
    }

    lemma NothingLooked(looks: seq<Snapshot>)
      ensures Looked(looks, |looks|, [])
    {}

    lemma LookedMore(looks: seq<Snapshot>, all: seq<Snapshot>, from: nat, on: seq<Preflight>, p: Preflight)
      requires Looked(looks, from, on) && looks <= all && Looked(all, |looks|, [p])
      ensures Looked(all, from, on + [p])
    {
      hide Classify;
      assert [p][0] == p && all[|looks| + 2 * 0] == p.look;
    }

    lemma LookedLast(looks: seq<Snapshot>, all: seq<Snapshot>, p: Preflight)
      requires looks <= all && Looked(all, |looks|, [p])
      ensures |all| == |looks| + 2 && LookedAt(all, |looks|, p, policy)
    {
      hide Classify;
      assert [p][0] == p && all[|looks| + 2 * 0] == p.look;
    }

    lemma LookedEnd(all: seq<Snapshot>, from: nat, on: seq<Preflight>)
      requires Looked(all, from, on) && on != []
      ensures |all| >= from + 2 && all[|all| - 2] == on[|on| - 1].look
    {
      hide Classify;
      assert all[from + 2 * (|on| - 1)] == on[|on| - 1].look;
    }

    /** The preflight passes on a look that ends the wait. */
    ghost predicate Ends(p: Preflight, after: int) {
      Permitted(strict, p.look, p.verdict) && p.look.statusRevision > after && !p.look.guiding
    }

    predicate Refuses(p: Preflight) { !Permitted(strict, p.look, p.verdict) }

    /** Waits for both: the device calls the pulse over, and a look shows it over. */
    method AwaitOver(name: Name, after: int, from: int)
      returns (r: Result<Snapshot>, refusing: Option<Preflight>, ghost okay: Option<Property>, ghost alert: Option<Property>)
      requires t.Valid() && from >= -1
      modifies t`properties, t`revision, t`since, t`world, t`failure, t`mishaps, t`looks
      ensures t.Valid() && t.Continues()
      ensures r.Ok? ==>
        && !r.value.guiding && from < r.value.statusRevision <= t.revision && Shown(r.value, t.base, t.since)
        && RevisionOf(old(t.Cached(Status))) <= r.value.statusRevision
      ensures r.Ok? ==>
        && CalledOver(okay, after) && Taken(okay.value, name, t.base, t.since)
        && RevisionOf(old(t.Cached(name))) <= okay.value.revision <= t.revision
      ensures r.Ok? ==> |t.looks| >= |old(t.looks)| + 2 && t.looks[|t.looks| - 2] == r.value
      ensures r.Err? ==> r.error != Stopped
      ensures refusing.Some? ==> r == Err(RuntimeError) && Refuses(refusing.value)
      ensures refusing.Some? ==>
        |t.looks| >= |old(t.looks)| + 2 && LookedAt(t.looks, |t.looks| - 2, refusing.value, policy)
      ensures alert.Some? ==> r == Err(RuntimeError) && Rejected(alert, name, after, t.base, t.since)
      ensures if r.Ok? then t.mishaps == old(t.mishaps)
              else t.mishaps > old(t.mishaps) || refusing.Some? || alert.Some?
      ensures old(Calm(t.world, 3) && !t.failure && CalledOver(t.Cached(name), after) &&
                  Ends(Seeing(CacheOf(t.base, t.since), 1), from)) ==>
        r == Ok(old(Seeing(CacheOf(t.base, t.since), 1)).look) && okay == old(t.Cached(name))
    {
      hide CacheOf, Read, Shown, SentBy, Permitted, Classify, Looked, Taken, LookedAt;
      refusing, alert := None, None;
      var over;
      ghost var calls;
      over, okay, calls := WaitPulseCompletion(name, after);
      if over.Err? {
        alert := if Rejected(t.Cached(name), name, after, t.base, t.since) && over.error == RuntimeError then t.Cached(name) else None;
        return Err(over.error), refusing, okay, alert;
      }
      ghost var called, on := t.since, [];
      EntryNeverFalls(t.base, old(t.since), called, Status);
      NotOlder(t.base, old(t.since), called, name);
      LatestIsTaken(okay.value, name, t.base, called);
      r, refusing, on := WaitGuideIdle(from);
      EntryIsLatest(t.base, called, name);
      TakenGrows(okay.value, name, t.base, called, t.since);
      if r.Ok? {
        LookedEnd(t.looks, |old(t.looks)|, on);
      }
    }

    /** While the command is being written a status and the guide vector arrive that end the
        chunk, and nothing else happens. */
    ghost predicate Hurried(d: Direction, from: int)
      reads t
    {
      && |t.world| == 4 && Calm(t.world[1..], 3) && !t.world[0].breaks && t.world[0].trouble.None? && !t.closed
      && t.Issuable(VectorOf(d), Number, {ElementOf(d)})
      && var cache := CacheOf(t.base, t.since + t.world[0].arrivals);
      CalledOver(Lookup(cache, VectorOf(d)), t.Cached(VectorOf(d)).value.revision) && Ends(Seeing(cache, 2), from)
    }

    /** One chunk after its preflight: sent, called over by the device, and seen over. */
    method OneChunk(d: Direction, ms: int, before: Snapshot)
      returns (r: Result<Snapshot>, issued: bool, refusing: Option<Preflight>, ghost sent: seq<Sent>, ghost end: Option<Finish>,
               ghost alert: Option<Property>)
      requires t.Valid() && before.statusRevision >= -1
      modifies t
      ensures t.Valid() && t.Continues() && t.stops == old(t.stops) && t.sends == old(t.sends) + sent
      ensures |sent| <= 1 && (issued <==> |sent| == 1) && (r.Ok? ==> issued)
      ensures |sent| == 1 ==> sent[0].command == ChunkCommand(d, ms) && sent[0].at >= old(t.revision)
      ensures r.Ok? ==>
        && end.Some? && end.value.idle == r.value && IsPast(end.value, t.revision)
        && Finished(end.value, d, before.statusRevision, sent[0], t.base, t.since)
      ensures r.Err? ==> r.error != Stopped
      ensures refusing.Some? ==> r == Err(RuntimeError) && issued && Refuses(refusing.value)
      ensures r.Ok? ==> |t.looks| >= |old(t.looks)| + 2 && t.looks[|t.looks| - 2] == r.value
      ensures refusing.Some? ==>
        |t.looks| >= |old(t.looks)| + 2 && LookedAt(t.looks, |t.looks| - 2, refusing.value, policy)
      ensures alert.Some? ==>
        && r == Err(RuntimeError) && issued
        && Rejected(alert, VectorOf(d), RevisionOf(old(t.Cached(VectorOf(d)))), t.base, t.since)
      ensures if r.Ok? then t.mishaps == old(t.mishaps)
              else t.mishaps > old(t.mishaps) || refusing.Some? || alert.Some?
      ensures old(Hurried(d, before.statusRevision)) ==> r.Ok? && IsPast(end.value, sent[0].at)
    {
      hide CacheOf, Read, Shown, SentBy, Permitted, Classify, Over, Okayed, Looked, Vetted, Taken, LookedAt;
      ghost var hurried := Hurried(d, before.statusRevision);
      refusing, end, alert := None, None, None;
      var command := t.IssueNumber(VectorOf(d), ElementOf(d), ms as real);
      if command.Err? {
        return Err(command.error), false, refusing, [], end, alert;
      }
      issued, sent := true, [t.sends[|t.sends| - 1]];
      ghost var asked := t.since;
      if hurried {
        assert Calm(t.world, 3) by {
          assert t.world == old(t.world)[1..];
        }
        LatestIsPast(t.base, asked, t.At(t.world[1]));
        EntryIsLatest(t.base, asked, VectorOf(d));
      }
      ghost var okay;
      r, refusing, okay, alert := AwaitOver(VectorOf(d), command.value, before.statusRevision);
      if r.Ok? {
        ghost var f := Finish(command.value, okay.value, r.value);
        OverBy(r.value, before.statusRevision, sent[0], t.base, asked, t.since);
        OkayedBy(f, d, sent[0], t.base, asked, t.since);
        end := Some(f);
      }
    }

    /** A preflight and, if it passes, a chunk. */
    method NextChunk(d: Direction, ms: int)
      returns (checked: Result<Preflight>, over: Result<Snapshot>, issued: bool, refusing: Option<Preflight>,
               ghost sent: seq<Sent>, ghost end: Option<Finish>, ghost alert: Option<Property>)
      requires t.Valid()
      modifies t
      ensures t.Valid() && t.Continues() && t.stops == old(t.stops) && t.sends == old(t.sends) + sent
      ensures |sent| <= 1 && (issued <==> |sent| == 1)
      ensures checked.Err? ==> t.mishaps > old(t.mishaps)
      ensures checked.Ok? ==> LookedAt(t.looks, |old(t.looks)|, checked.value, policy)
      ensures checked.Ok? && Refuses(checked.value) ==> |t.looks| == |old(t.looks)| + 2
      ensures over.Ok? ==> |t.looks| >= |old(t.looks)| + 4 && t.looks[|t.looks| - 2] == over.value
      ensures refusing.Some? ==>
        |t.looks| >= |old(t.looks)| + 4 && LookedAt(t.looks, |t.looks| - 2, refusing.value, policy)
      ensures alert.Some? ==>
        && over == Err(RuntimeError) && issued
        && Rejected(alert, VectorOf(d), RevisionOf(old(t.Cached(VectorOf(d)))), t.base, t.since)
      ensures over.Ok? ==> t.mishaps == old(t.mishaps)
      ensures checked.Ok? && !Refuses(checked.value) && over.Err? ==>
        t.mishaps > old(t.mishaps) || refusing.Some? || alert.Some?
      ensures checked.Err? ==> checked.error != Stopped
      ensures checked.Err? || Refuses(checked.value) ==> !issued && over.Err?
      ensures checked.Ok? ==> forall s :: s in sent ==>
        s.command == ChunkCommand(d, ms) && checked.value.look.statusRevision <= s.at && old(t.revision) <= s.at
      ensures over.Ok? ==>
        && checked.Ok? && issued && end.Some? && end.value.idle == over.value && IsPast(end.value, t.revision)
        && Finished(end.value, d, checked.value.look.statusRevision, sent[0], t.base, t.since)
      ensures over.Err? ==> over.error != Stopped
      ensures refusing.Some? ==> over == Err(RuntimeError) && issued && Refuses(refusing.value)
    {
      hide CacheOf, Read, Shown, SentBy, Classify, Permitted, ChunkCommand, Finished, Calm, Looked, Hurried, IsPast, LookedAt,
        Rejected;
      over, issued, refusing, sent, end, alert := Err(RuntimeError), false, None, [], None, None;
      checked := Check();
      if checked.Ok? {
        LookedLast(old(t.looks), t.looks, checked.value);
      }
      if checked.Err? || Refuses(checked.value) {
        return;
      }
      ghost var was, looks := t.since, t.looks;
      over, issued, refusing, sent, end, alert := OneChunk(d, ms, checked.value.look);
      StillLookedAt(looks, t.looks, |old(t.looks)|, checked.value, policy);
      EntryNeverFalls(t.base, old(t.since), was, VectorOf(d));
      RejectedSince(alert, VectorOf(d), t.base, old(t.since), was, t.since);
    }

    ghost predicate LastIsPast(g: Progress, now: int) { g.ends != [] ==> IsPast(g.ends[|g.ends| - 1], now) }

    /** One more chunk was sent and is over. */
    ghost predicate Advanced(g: Progress, h: Progress, last: Option<Snapshot>, now: int) {
      && |h.sent| == |h.passed| == |h.ends| == |g.sent| + 1
      && LastIsPast(h, now) && last == Some(h.ends[|h.ends| - 1].idle)
    }

    /** The preflight that passed since, if any. */
    ghost function LastPassed(g: Progress, h: Progress): Option<Snapshot> {
      if |h.passed| > |g.passed| then Some(h.passed[|h.passed| - 1].look) else None
    }

    /** One chunk of the plan, with its preflight. */
    method Turn(d: Direction, plan: seq<int>, completed: nat, ghost g: Progress, ghost from: nat)
      returns (e: Option<Ending>, issued: bool, last: Option<Snapshot>, ghost halt: Option<Preflight>,
               ghost alert: Option<Property>, ghost h: Progress)
      requires t.Valid() && Going(strict, policy, d, plan, g, t.looks, from, t.base, t.since) && from <= |t.looks|
      requires completed == |g.sent| == |g.passed| == |g.ends| < |plan|
      requires LastIsPast(g, t.revision)
      modifies t
      ensures t.Valid() && t.Continues() && t.stops == old(t.stops)
      ensures g.sent <= h.sent && t.sends == old(t.sends) + h.sent[|g.sent|..] && (issued <==> |h.sent| > |g.sent|)
      ensures g.passed <= h.passed && |h.passed| <= |g.passed| + 1
      ensures Going(strict, policy, d, plan, h, t.looks, from, t.base, t.since)
      ensures e.None? ==> t.mishaps == old(t.mishaps) && Advanced(g, h, last, t.revision)
      ensures e == Some(Refused) ==>
        && h == g && halt.Some? && Refuses(halt.value) && last == Some(halt.value.look)
        && |t.looks| >= from + 2 && LookedAt(t.looks, |t.looks| - 2, halt.value, policy)
      ensures e.Some? && !e.value.Refused? ==>
        && e.value.Failed? && e.value.e != Stopped && h.ends == g.ends && Excused(d, halt, alert, old(t.mishaps), RevisionOf(old(t.Cached(VectorOf(d)))))
        && (e.value.e == OtherError ==> t.mishaps > old(t.mishaps))
        && (halt.Some? ==>
              && issued && e.value.e == RuntimeError && Refuses(halt.value) && last == Some(halt.value.look)
              && |t.looks| >= from + 2 && LookedAt(t.looks, |t.looks| - 2, halt.value, policy))
        && (halt.None? ==> last == LastPassed(g, h))
    {
      hide CacheOf, Read, Shown, SentBy, Classify, Permitted, ChunkCommand, Finished, Calm, Looked, Hurried, IsPast;
      hide LookedAt, Going, Rejected;
      e, last, halt, h := None, None, None, g;
      ghost var was, now, looks := t.since, t.revision, t.looks;
      ghost var chunk, end;
      var checked, over, refusing;
      checked, over, issued, refusing, chunk, end, alert := NextChunk(d, plan[completed]);
      GoingGrows(strict, policy, d, plan, g, looks, t.looks, from, t.base, was, t.since);
      if checked.Err? {
        e := Some(Failed(checked.error));
        return;
      }
      var before := checked.value;
      last := Some(before.look);
      if Refuses(before) {
        e, halt := Some(Refused), Some(before);
        return;
      }
      GoingGrows(strict, policy, d, plan, g, looks, looks, from, t.base, was, t.since);
      GoingOn(strict, policy, d, plan, g, looks, t.looks, from, t.base, t.since, before, chunk, now);
      h := Progress(g.sent + chunk, g.passed + [before], g.ends, g.marks + [|looks|]);
      if over.Err? {
        e, halt := Some(Failed(over.error)), refusing;
        if refusing.Some? {
          last := Some(refusing.value.look);
        }
        return;
      }
      GoingOver(strict, policy, d, plan, h, t.looks, from, t.base, t.since, end.value);
      h := h.(ends := h.ends + [end.value], marks := h.marks + [|t.looks| - 2]);
      last := Some(over.value);
    }

    /** What brought a run to its end before it was done: a mishap, a preflight that refused, or an
        alert of the guide vector, each later than the given counts. */
    ghost predicate Excused(d: Direction, halt: Option<Preflight>, alert: Option<Property>, mishaps: nat, floor: int)
      reads t
    {
      t.mishaps > mishaps || halt.Some? || Rejected(alert, VectorOf(d), floor, t.base, t.since)
    }

    lemma ExcusedSince(d: Direction, halt: Option<Preflight>, alert: Option<Property>, mishaps: nat, before: seq<Vector>,
                       was: seq<Vector>)
      requires before <= was
      ensures var name := VectorOf(d);
        Excused(d, halt, alert, mishaps, RevisionOf(Lookup(CacheOf(t.base, was), name))) ==>
          Excused(d, halt, alert, mishaps, RevisionOf(Lookup(CacheOf(t.base, before), name)))
    {
      hide CacheOf, Taken;
      EntryNeverFalls(t.base, before, was, VectorOf(d));
    }

    /** The preflight after the last chunk. */
    method LastCheck(ghost marks: seq<nat>, prior: Option<Snapshot>)
      returns (e: Ending, last: Option<Snapshot>, ghost halt: Option<Preflight>)
      requires t.Valid() && (marks != [] ==> marks[|marks| - 1] + 1 < |t.looks|)
      modifies t`properties, t`revision, t`since, t`world, t`failure, t`mishaps, t`looks
      ensures t.Valid() && t.Continues() && !e.Refused?
      ensures e.Done? ==>
        ShowsTracking(last) && t.mishaps == old(t.mishaps) && |t.looks| == |old(t.looks)| + 2 && EndsWell(t.looks, marks)
      ensures e.Failed? ==> e.e != Stopped && (t.mishaps > old(t.mishaps) || halt.Some?)
      ensures e.Failed? ==> last == if halt.Some? then Some(halt.value.look) else prior
      ensures halt.Some? ==>
        && e == Failed(RuntimeError) && Refuses(halt.value)
        && |t.looks| == |old(t.looks)| + 2 && LookedAt(t.looks, |t.looks| - 2, halt.value, policy)
    {
      hide CacheOf, Read, Shown, SentBy, Classify, Permitted;
      halt, last := None, prior;
      var checked := Check();
      if checked.Err? {
        e := Failed(checked.error);
        return;
      }
      LookedLast(old(t.looks), t.looks, checked.value);
      last := Some(checked.value.look);
      if Refuses(checked.value) {
        e, halt := Failed(RuntimeError), Some(checked.value);
      } else {
        PermittedTracks(strict, checked.value);
        e := Done;
      }
    }

    /** Issues the chunks one by one, and looks once more at the end. `refusal` is a preflight that
        refused a chunk, `halt` one that refused while a chunk was awaited or at the end. Nothing
        else but a mishap or an alert of the guide vector ends the run early. */
    method RunChunks(d: Direction, plan: seq<int>)
      returns (e: Ending, completed: nat, issued: bool, last: Option<Snapshot>,
               ghost refusal: Option<Preflight>, ghost halt: Option<Preflight>, ghost alert: Option<Property>,
               ghost g: Progress)
      requires t.Valid()
      modifies t
      ensures t.Valid() && t.Continues() && t.stops == old(t.stops) && t.sends == old(t.sends) + g.sent
      ensures Going(strict, policy, d, plan, g, t.looks, |old(t.looks)|, t.base, t.since)
      ensures completed == |g.ends| && (issued <==> g.sent != [])
      ensures e.Done? ==> completed == |plan| == |g.sent| && ShowsTracking(last) && t.mishaps == old(t.mishaps)
      ensures e.Done? ==> |t.looks| >= |old(t.looks)| + 2 && EndsWell(t.looks, g.marks)
      ensures e.Refused? ==> completed < |plan| && |g.sent| == |g.passed| == completed
      ensures e.Refused? <==> refusal.Some?
      ensures refusal.Some? ==> Refuses(refusal.value) && halt.None?
      ensures halt.Some? ==> e == Failed(RuntimeError) && Refuses(halt.value) && (issued || plan == [])
      ensures refusal.Some? ==> |t.looks| >= |old(t.looks)| + 2 && LookedAt(t.looks, |t.looks| - 2, refusal.value, policy)
      ensures halt.Some? ==> |t.looks| >= |old(t.looks)| + 2 && LookedAt(t.looks, |t.looks| - 2, halt.value, policy)
      ensures !e.Done? ==> last == LastSeen(if refusal.Some? then refusal else halt, g.passed, g.ends)
      ensures e.Failed? ==> e.e != Stopped && Excused(d, halt, alert, old(t.mishaps), RevisionOf(old(t.Cached(VectorOf(d)))))
      ensures e == Failed(OtherError) ==> t.mishaps > old(t.mishaps)
    {
      hide CacheOf, Read, Shown, SentBy, Classify, Permitted, Looked, IsPast, LookedAt, Going, Rejected, EndsWell;
      completed, issued, last, refusal, halt, alert, g := 0, false, None, None, None, None, NOTHING;
      GoingFrom(strict, policy, d, plan, t.looks, t.base, t.since);
      while completed < |plan|
        invariant t.Valid() && t.Continues() && t.stops == old(t.stops) && t.sends == old(t.sends) + g.sent
        invariant Going(strict, policy, d, plan, g, t.looks, |old(t.looks)|, t.base, t.since)
        invariant t.mishaps == old(t.mishaps)
        invariant completed == |g.ends| == |g.passed| == |g.sent| <= |plan| && (issued <==> g.sent != [])
        invariant LastIsPast(g, t.revision)
        invariant refusal == None && halt == None && last == LastSeen(None, g.passed, g.ends)
      {
        ghost var h, was, refusing := g, t.since, None;
        var ended, went, latest;
        ended, went, latest, refusing, alert, h := Turn(d, plan, completed, g, |old(t.looks)|);
        issued, last := issued || went, if latest.Some? then latest else last;
        g := h;
        if ended.Some? {
          e := ended.value;
          if e.Refused? {
            refusal := refusing;
          } else {
            halt := refusing;
            ExcusedSince(d, halt, alert, old(t.mishaps), old(t.since), was);
          }
          return;
        }
        completed := completed + 1;
      }
      ghost var was, looks := t.since, t.looks;
      MarksArePast(strict, policy, d, plan, g, t.looks, |old(t.looks)|, t.base, t.since);
      e, last, halt := LastCheck(g.marks, last);
      GoingGrows(strict, policy, d, plan, g, looks, t.looks, |old(t.looks)|, t.base, was, t.since);
    }

    /** After the last chunk a preflight of its own passed. */
    ghost predicate EndsWell(looks: seq<Snapshot>, marks: seq<nat>) {
      && |looks| >= 2 && (marks != [] ==> marks[|marks| - 1] + 1 < |looks| - 2)
      && Permitted(strict, looks[|looks| - 2], Classify(looks[|looks| - 1], policy))
    }

    lemma ExcuseStays(d: Direction, halt: Option<Preflight>, alert: Option<Property>, mishaps: nat, floor: int,
                      before: seq<Vector>, already: nat)
      requires before <= t.since && already <= t.mishaps
      requires already > mishaps || halt.Some? || Rejected(alert, VectorOf(d), floor, t.base, before)
      ensures Excused(d, halt, alert, mishaps, floor)
    {
      RejectedGrows(alert, VectorOf(d), floor, t.base, before, t.since);
    }

    /** What follows a failure: the mount is stopped if a chunk went out and the failure is one that
        is caught. An exception that is not caught goes on. */
    method AfterFailure(error: Error, issued: bool) returns (raised: Option<Error>)
      requires t.Valid() && error != Stopped
      modifies t
      ensures t.Valid() && t.Continues() && t.looks == old(t.looks)
      ensures old(t.sends) <= t.sends && OnlyStops(t.sends[|old(t.sends)|..])
      ensures t.stops == old(t.stops) + if Caught(error) && issued then 1 else 0
      ensures !(Caught(error) && issued) ==> t.sends == old(t.sends)
      ensures raised.Some? ==> raised == Some(OtherError) && (error == OtherError || t.mishaps > old(t.mishaps))
      ensures error == OtherError ==> raised.Some?
    {
      hide CacheOf, SentBy;
      raised := None;
      if !Caught(error) {
        return Some(error);
      }
      if issued {
        var stopped := EmergencyStop(t);
        if stopped.Err? && !Caught(stopped.error) {
          return Some(stopped.error);
        }
      }
    }

    /** What a result tells: the chunks planned and completed, and whether the last look known of
        showed the mount tracking. */
    ghost predicate Told(v: PulseResult, duration: int, refusal: Option<Preflight>, halt: Option<Preflight>, g: Progress)
      requires MIN_PULSE <= chunkMs
    {
      && v.requested == duration && v.chunks == |Plan(duration, chunkMs)|
      && v.completed == |g.ends| && (v.accepted <==> g.sent != []) && (v.pulseCompleted <==> v.error == None)
      && (refusal.Some? || halt.Some? ==> v.error == Some(RuntimeError))
      && (if v.pulseCompleted then v.trackingPreserved && |g.sent| == |g.ends| == |Plan(duration, chunkMs)|
          else v.trackingPreserved == ShowsTracking(LastSeen(if refusal.Some? then refusal else halt, g.passed, g.ends)))
    }

    /** The chunks, and the stop after a caught failure. */
    method Deliver(d: Direction, duration: int, chunks: seq<int>)
      returns (r: Result<PulseResult>, ghost refusal: Option<Preflight>, ghost halt: Option<Preflight>,
               ghost alert: Option<Property>, ghost g: Progress)
      requires t.Valid() && locked && MIN_PULSE <= chunkMs && chunks == Plan(duration, chunkMs)
      modifies t
      ensures t.Valid() && t.Continues()
      ensures old(t.sends) + g.sent <= t.sends && OnlyStops(t.sends[|old(t.sends)| + |g.sent|..])
      ensures Going(strict, policy, d, Plan(duration, chunkMs), g, t.looks, |old(t.looks)|, t.base, t.since)
      ensures if r.Ok? then Told(r.value, duration, refusal, halt, g)
              else r.error == OtherError && refusal.None? && t.mishaps > old(t.mishaps)
      ensures r.Ok? && r.value.pulseCompleted ==>
        t.mishaps == old(t.mishaps) && |t.looks| >= |old(t.looks)| + 2 && EndsWell(t.looks, g.marks)
      ensures r.Ok? && !r.value.pulseCompleted && refusal.None? ==>
        Excused(d, halt, alert, old(t.mishaps), RevisionOf(old(t.Cached(VectorOf(d)))))
      ensures t.stops == old(t.stops) ||
              (t.stops == old(t.stops) + 1 && g.sent != [] && refusal.None? && (r.Ok? ==> !r.value.pulseCompleted))
      ensures r.Ok? && !r.value.pulseCompleted && g.sent != [] && refusal.None? ==> t.stops == old(t.stops) + 1
      ensures t.stops == old(t.stops) ==> t.sends == old(t.sends) + g.sent
      ensures refusal.Some? ==>
        Refuses(refusal.value) && halt.None? && |g.sent| == |g.ends| == |g.passed| < |Plan(duration, chunkMs)|
      ensures halt.Some? ==> Refuses(halt.value) && g.sent != []
      ensures refusal.Some? ==> |t.looks| >= |old(t.looks)| + 2 && LookedAt(t.looks, |t.looks| - 2, refusal.value, policy)
      ensures halt.Some? ==> |t.looks| >= |old(t.looks)| + 2 && LookedAt(t.looks, |t.looks| - 2, halt.value, policy)
    {
      hide CacheOf, Read, Shown, SentBy, Classify, Permitted, Going, LookedAt, EndsWell, Rejected, Plan, LastSeen, Refuses,
        ShowsTracking;
      var e, completed, issued, last;
      e, completed, issued, last, refusal, halt, alert, g := RunChunks(d, chunks);
      PlanIsThere(duration, chunkMs);
      var tracking := ShowsTracking(last);
      match e {
        case Done =>
          r := Ok(PulseResult(duration, |chunks|, completed, issued, true, tracking, None));
        case Refused =>
          r := Ok(PulseResult(duration, |chunks|, completed, issued, false, tracking, Some(RuntimeError)));
        case Failed(error) =>
          ghost var before, looks, already := t.since, t.looks, t.mishaps;
          var raised := AfterFailure(error, issued);
          GoingGrows(strict, policy, d, chunks, g, looks, t.looks, |old(t.looks)|, t.base, before, t.since);
          ExcuseStays(d, halt, alert, old(t.mishaps), RevisionOf(old(t.Cached(VectorOf(d)))), before, already);
          r := if raised.Some? then Err(raised.value)
               else Ok(PulseResult(duration, |chunks|, completed, issued, false, tracking, Some(error)));
      }
    }

    /** One pulse. Whatever the device reports, the chunks sent are the first ones of the plan,
        each after a passing preflight; it is called complete only when all were sent, called over
        by the device and seen over, and one more preflight passed. It is given up only when a
        preflight refuses, the device sends an alert or a call fails. A caught failure after a chunk
        went out stops the mount, once; a refusal between two chunks does not, and nothing else
        does. The lock is left as it was, and held by another it refuses the pulse. */
    method Pulse(d: Direction, duration: int)
      returns (r: Result<PulseResult>, ghost refusal: Option<Preflight>, ghost halt: Option<Preflight>,
               ghost alert: Option<Property>, ghost g: Progress)
      requires t.Valid() && MIN_PULSE <= chunkMs
      modifies this, t
      ensures t.Valid() && t.Continues() && locked == old(locked)
      ensures old(t.sends) + g.sent <= t.sends && OnlyStops(t.sends[|old(t.sends)| + |g.sent|..])
      ensures Going(strict, policy, d, Plan(duration, chunkMs), g, t.looks, |old(t.looks)|, t.base, t.since)
      ensures r == Err(ValueError) <==> !(20 <= duration <= 5000)
      ensures r == Err(ValueError) || old(locked) ==> t.tries == old(t.tries) && t.stops == old(t.stops) && g == NOTHING
      ensures r.Err? && r.error != ValueError ==> r.error == OtherError && t.mishaps > old(t.mishaps)
      ensures r.Ok? ==> Told(r.value, duration, refusal, halt, g)
      ensures r.Ok? && old(locked) ==> r.value.error == Some(RuntimeError)
      ensures r.Ok? && !r.value.pulseCompleted && !old(locked) && refusal.None? ==>
        Excused(d, halt, alert, old(t.mishaps), RevisionOf(old(t.Cached(VectorOf(d)))))
      ensures r.Ok? && r.value.pulseCompleted ==>
        && !old(locked) && t.stops == old(t.stops) && t.mishaps == old(t.mishaps)
        && |t.looks| >= |old(t.looks)| + 2 && EndsWell(t.looks, g.marks)
      ensures t.stops == old(t.stops) ||
              (t.stops == old(t.stops) + 1 && g.sent != [] && refusal.None? && (r.Ok? ==> !r.value.pulseCompleted))
      ensures r.Ok? && !r.value.pulseCompleted && g.sent != [] && refusal.None? ==> t.stops == old(t.stops) + 1
      ensures t.stops == old(t.stops) ==> t.sends == old(t.sends) + g.sent
      ensures refusal.Some? ==>
        && r.Ok? && Refuses(refusal.value) && halt.None? && |g.sent| == |g.ends| == |g.passed| < |Plan(duration, chunkMs)|
        && |t.looks| >= |old(t.looks)| + 2 && LookedAt(t.looks, |t.looks| - 2, refusal.value, policy)
      ensures halt.Some? ==>
        && Refuses(halt.value) && g.sent != []
        && |t.looks| >= |old(t.looks)| + 2 && LookedAt(t.looks, |t.looks| - 2, halt.value, policy)
    {
      hide CacheOf, Read, Shown, SentBy, Classify, Permitted, Going, LookedAt, EndsWell, Rejected, Plan, Refuses;
      refusal, halt, alert, g := None, None, None, NOTHING;
      GoingFrom(strict, policy, d, Plan(duration, chunkMs), t.looks, t.base, t.since);
      if !(MIN_PULSE <= duration <= MAX_PULSE) {
        r := Err(ValueError);
        return;
      }
      var chunks := PlanChunks(duration, chunkMs);
      if locked {
        r := Ok(PulseResult(duration, |chunks|, 0, false, false, false, Some(RuntimeError)));
        return;
      }
      locked := true;
      r, refusal, halt, alert, g := Deliver(d, duration, chunks);
      locked := false;
    }
  }

  lemma RejectedGrows(p: Option<Property>, name: Name, after: int, base: nat, before: seq<Vector>, since: seq<Vector>)
    requires before <= since
    ensures Rejected(p, name, after, base, before) ==> Rejected(p, name, after, base, since)
  {
    hide CacheOf, Taken;
    if Rejected(p, name, after, base, before) {
      TakenGrows(p.value, name, base, before, since);
    }
  }

  lemma StillLookedAt(looks: seq<Snapshot>, all: seq<Snapshot>, k: nat, p: Preflight, policy: Policy)
    requires LookedAt(looks, k, p, policy) && looks <= all
    ensures LookedAt(all, k, p, policy)
  {
    hide Classify;
  }

  lemma RejectedSince(p: Option<Property>, name: Name, base: nat, before: seq<Vector>, was: seq<Vector>, since: seq<Vector>)
    requires before <= was
    ensures Rejected(p, name, RevisionOf(Lookup(CacheOf(base, was), name)), base, since) ==>
      Rejected(p, name, RevisionOf(Lookup(CacheOf(base, before), name)), base, since)
  {
    hide CacheOf, Taken;
    EntryNeverFalls(base, before, was, name);
  }

  lemma StaysPast(f: Finish, now: int, chunk: seq<Sent>)
    requires IsPast(f, now) && forall s :: s in chunk ==> now <= s.at
    ensures forall s :: s in chunk ==> IsPast(f, s.at)
  {}

  lemma PlanIsThere(duration: int, chunkMs: int)
    requires MIN_PULSE <= chunkMs
    ensures |Plan(duration, chunkMs)| > 0
  {}

  lemma PermittedTracks(strict: bool, p: Preflight)
    requires Permitted(strict, p.look, p.verdict)
    ensures ShowsTracking(Some(p.look))
  {}

  lemma MarksArePast(strict: bool, policy: Policy, d: Direction, plan: seq<int>, g: Progress, looks: seq<Snapshot>,
                     from: nat, base: nat, since: seq<Vector>)
    requires Going(strict, policy, d, plan, g, looks, from, base, since)
    ensures g.marks != [] ==> g.marks[|g.marks| - 1] + 1 < |looks|
    ensures |g.marks| == |g.passed| + |g.ends|
  {
    hide Run, LookedAt;
  }

  lemma LatestIsPast(base: nat, since: seq<Vector>, c: Circumstances)
    ensures Read(CacheOf(base, since), c).statusRevision <= base + |since|
  {
    hide CacheOf;
    EntryIsLatest(base, since, Status);
  }

  lemma ShownIsPast(s: Snapshot, base: nat, since: seq<Vector>)
    requires Shown(s, base, since)
    ensures s.statusRevision <= base + |since|
  {
    hide CacheOf;
  }

  // ---- a chunk that was over before it began -------------------------------------------------

  const ON_TARGET := Gu(false, true, false, false, true, false, false, false, true, false)

  const CONNECTED := Vector(Connection, Switch, Some(Okay), Some(true), map[Connect := On])

  const GUIDE_NS := Vector(GuideNS, Number, Some(Okay), Some(true), map[North := Num(0.0), South := Num(0.0)])

  /** What the witness needs of a cache: who is connected, the guide vector and the status. */
  ghost predicate Holding(cache: map<Name, Property>, guide: int, status: int) {
    && Lookup(cache, Connection) == Some(Property(Switch, Okay, true, CONNECTED.values, 1))
    && Lookup(cache, GuideNS) == Some(Property(Number, Okay, true, GUIDE_NS.values, guide))
    && Lookup(cache, Status) == Some(Reported(ON_TARGET, status))
  }

  lemma FirstCache(first: seq<Vector>)
    requires first == [CONNECTED, GUIDE_NS, Reporting(ON_TARGET)]
    ensures Holding(CacheOf(0, first), 2, 3)
  {
    CachePush(0, [], CONNECTED);
    CachePush(0, [CONNECTED], GUIDE_NS);
    CachePush(0, [CONNECTED, GUIDE_NS], Reporting(ON_TARGET));
    assert [] + [CONNECTED] == [CONNECTED] && [CONNECTED] + [GUIDE_NS] == [CONNECTED, GUIDE_NS];
    assert [CONNECTED, GUIDE_NS] + [Reporting(ON_TARGET)] == first;
    assert forall m: map<Element, Value> :: map[] + m == m;
  }

  lemma LaterCache(first: seq<Vector>)
    requires |first| == 3 && Holding(CacheOf(0, first), 2, 3)
    ensures Holding(CacheOf(0, first + [GUIDE_NS, Reporting(ON_TARGET)]), 4, 5)
  {
    hide CacheOf;
    CachePush(0, first, GUIDE_NS);
    CachePush(0, first + [GUIDE_NS], Reporting(ON_TARGET));
    assert first + [GUIDE_NS] + [Reporting(ON_TARGET)] == first + [GUIDE_NS, Reporting(ON_TARGET)];
    assert forall m: map<Element, Value> :: m + m == m;
  }

  /** The controller-managed preflight passes on these caches, and the look shows no guiding. */
  lemma OnTargetPasses(cache: map<Name, Property>, c: Circumstances, k: Circumstances, policy: Policy, revision: int)
    requires Holds(Lookup(cache, Connection), Connect, On) && Lookup(cache, Status) == Some(Reported(ON_TARGET, revision))
    requires c.open && !c.statusAged && !k.baselineAccepted
    ensures Permitted(false, Read(cache, c), Classify(Read(cache, k), policy))
    ensures Read(cache, c).statusRevision == revision && !Read(cache, c).guiding
  {
    PermittedIff(false, cache, c, Classify(Read(cache, k), policy));
  }

  /** Connected, and what follows: a preflight, then an arrival during the write. */
  method Prepared(first: seq<Vector>, again: seq<Vector>) returns (t: IndiTransport)
    ensures fresh(t) && t.Valid() && t.base == 0 && t.since == first && !t.closed && !t.failure
    ensures var calm := Bringing([], None);
      t.world == [calm, calm, Bringing(again, None), calm, calm, calm]
  {
    hide CacheOf;
    var calm := Bringing([], None);
    t := new IndiTransport([Bringing(first, None), calm, calm, Bringing(again, None), calm, calm, calm]);
    var connected := t.Connect(None);
  }

  /** A status and an okay for the guide vector that arrive between the preflight and the write
      make a chunk count as over that was not sent yet. */
  method ChunkOverBeforeItBegan(policy: Policy)
    returns (before: Result<Preflight>, r: Result<Snapshot>, ghost sent: seq<Sent>, ghost end: Option<Finish>)
    ensures before.Ok? && Permitted(false, before.value.look, before.value.verdict)
    ensures r.Ok? && |sent| == 1 && before.value.look.statusRevision < r.value.statusRevision <= sent[0].at
    ensures end.Some? && CalledOver(Some(end.value.okay), end.value.after) && IsPast(end.value, sent[0].at)
  {
    hide SentBy, CacheOf, Permitted, Read, Classify, GuideController.Looked, Shown;
    var first, again := [CONNECTED, GUIDE_NS, Reporting(ON_TARGET)], [GUIDE_NS, Reporting(ON_TARGET)];
    FirstCache(first);
    LaterCache(first);
    var t := Prepared(first, again);
    var guide := new GuideController(t, false, policy, 500);
    ghost var here := t.At(Bringing([], None));
    OnTargetPasses(CacheOf(0, first), here, here, policy, 3);
    OnTargetPasses(CacheOf(0, first + again), here, here, policy, 5);
    before := guide.Check();
    assert guide.Hurried(GuideNorth, before.value.look.statusRevision);
    var issued, refusing;
    ghost var alert;
    r, issued, refusing, sent, end, alert := guide.OneChunk(GuideNorth, 500, before.value.look);
  }
}
