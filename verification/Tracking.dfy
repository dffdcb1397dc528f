/** Switching sidereal tracking on, confirmed by the status that follows. */
module Tracking {
  import opened Common
  import opened Indi
  import opened Transport
  import opened Confirmation
  import opened Stop
  import opened Meridian
  import opened Looks
  import opened Preflights

  predicate PhaseAllowed(p: Phase) { p.PreMeridian? || p.PostMeridian? || p.PostFlip? }

  /** The preflight. Under the strict policy every gap in authority refuses. */
  predicate Permitted(strict: bool, s: Snapshot, m: State) {
    && Fit(s) && !m.stopRequired
    && (strict ==> Knowing(s) && Blocker.MechanicalTerminal !in s.blockers && !s.atHome && PhaseAllowed(m.phase))
  }

  /** Exactly when the preflight passes, in terms of what the cache holds and of the verdict. */
  lemma PermittedIff(strict: bool, cache: map<Name, Property>, c: Circumstances, m: State)
    ensures Permitted(strict, Read(cache, c), m) <==>
      && FitStatus(cache, c) && !m.stopRequired
      && (strict ==>
            && KnownPlace(cache, c) && !Decoded(Lookup(cache, Status)).value.atHome
            && (m.phase.PreMeridian? || m.phase.PostMeridian? || m.phase.PostFlip?))
  {
    hide Fit, Knowing, KnownPlace, Lookup, Holds, Faulted, PierOf, ReportedPier, Numeric;
    FitIff(cache, c);
    KnowingIff(cache, c);
  }

  /** A fresh look that may count towards confirmation. */
  predicate Safe(strict: bool, s: Snapshot) { !s.atLimit && !s.parked && (strict ==> !s.atHome) }

  predicate Tracks(s: Snapshot) { s.tracking && !s.slewing }

  predicate TracksSince(news: seq<Snapshot>, n: nat) {
    n <= |news| && (forall i :: |news| - n <= i < |news| ==> Tracks(news[i])) &&
    (n < |news| ==> !Tracks(news[|news| - n - 1]))
  }

  /** No two looks in a row showed the mount tracking and not slewing. */
  ghost predicate NeverTracked(news: seq<Snapshot>) {
    forall i :: 0 <= i < |news| - 1 && news[i].tracking && !news[i].slewing ==> !news[i + 1].tracking || news[i + 1].slewing
  }

  lemma NotYetTracked()
    ensures NeverTracked([])
  {}

  lemma StillNotTracked(news: seq<Snapshot>, n: nat, s: Snapshot)
    requires NeverTracked(news) && TracksSince(news, n) && n < 2
    ensures (if Tracks(s) then n + 1 else 0) < 2 ==> NeverTracked(news + [s])
  {}

  /** The last look of those beyond `from` puts an end to the wait: it shows the mount at a limit,
      parked or, under the strict policy, at HOME, or else it is the look of a verdict that forbids. */
  ghost predicate Barred(strict: bool, looks: seq<Snapshot>, from: nat, policy: Policy) {
    |looks| > from &&
    var s := looks[|looks| - 1];
    || s.atLimit || s.parked || (strict && s.atHome)
    || (strict && var v := Classify(s, policy);
        v.stopRequired || !(v.phase.PreMeridian? || v.phase.PostMeridian? || v.phase.PostFlip?))
  }

  /** The look at `s` was followed by the look of its verdict `v`. */
  ghost predicate Judged(looks: seq<Snapshot>, from: nat, s: Snapshot, v: State, policy: Policy) {
    exists k: nat :: from <= k < |looks| - 1 && looks[k] == s && Classify(looks[k + 1], policy) == v
  }

  lemma JudgedGrows(looks: seq<Snapshot>, all: seq<Snapshot>, from: nat, s: Snapshot, v: State, policy: Policy)
    requires Judged(looks, from, s, v, policy) && looks <= all
    ensures Judged(all, from, s, v, policy)
  {
    hide Classify;
    var k: nat :| from <= k < |looks| - 1 && looks[k] == s && Classify(looks[k + 1], policy) == v;
    assert all[k] == s && all[k + 1] == looks[k + 1];
  }

  /** Each look has its verdict. */
  ghost predicate AllJudged(looks: seq<Snapshot>, from: nat, news: seq<Snapshot>, verdicts: seq<State>, policy: Policy) {
    |verdicts| == |news| && forall i :: 0 <= i < |news| ==> Judged(looks, from, news[i], verdicts[i], policy)
  }

  lemma AllJudgedPush(looks: seq<Snapshot>, all: seq<Snapshot>, from: nat, news: seq<Snapshot>, verdicts: seq<State>,
                      s: Snapshot, v: State, policy: Policy)
    requires AllJudged(looks, from, news, verdicts, policy) && looks <= all && Judged(all, from, s, v, policy)
    ensures AllJudged(all, from, news + [s], verdicts + [v], policy)
  {
    hide Judged;
    forall i | 0 <= i < |news| ensures Judged(all, from, news[i], verdicts[i], policy) {
      JudgedGrows(looks, all, from, news[i], verdicts[i], policy);
    }
  }

  lemma AllJudgedGrows(looks: seq<Snapshot>, all: seq<Snapshot>, from: nat, news: seq<Snapshot>, verdicts: seq<State>,
                       policy: Policy)
    requires AllJudged(looks, from, news, verdicts, policy) && looks <= all
    ensures AllJudged(all, from, news, verdicts, policy)
  {
    hide Judged;
    forall i | 0 <= i < |news| ensures Judged(all, from, news[i], verdicts[i], policy) {
      JudgedGrows(looks, all, from, news[i], verdicts[i], policy);
    }
  }

  lemma {:induction false} AllJudgedEarlier(looks: seq<Snapshot>, earlier: nat, from: nat, news: seq<Snapshot>,
                                            verdicts: seq<State>, policy: Policy)
    requires AllJudged(looks, from, news, verdicts, policy) && earlier <= from
    ensures AllJudged(looks, earlier, news, verdicts, policy)
  {
    hide Classify;
  }

  /** `error` is the exception that ended the attempt; a refusal counts as a RuntimeError. */
  datatype TrackingResult = TrackingResult(accepted: bool, confirmed: bool, polls: nat, error: Option<Error>)

  /** One verdict to each fresh look; under the strict policy none forbids tracking. */
  predicate Cleared(strict: bool, news: seq<Snapshot>, verdicts: seq<State>) {
    |verdicts| == |news| && forall v :: v in verdicts && strict ==> PhaseAllowed(v.phase) && !v.stopRequired
  }

  /** Enables tracking only after a passing preflight. It is confirmed when the mount was already
      tracking, or else by two looks in a row at newer and newer statuses, the last of them
      received after the command, with none of the fresh looks unsafe or, under the strict policy,
      at a forbidden phase. A caught failure after the command was accepted stops the mount, once. */
  method EnableTracking(t: IndiTransport, strict: bool, policy: Policy)
    returns (r: Result<TrackingResult>, ghost before: Option<(Snapshot, State)>, ghost news: seq<Snapshot>,
             ghost verdicts: seq<State>)
    requires t.Valid()
    modifies t
    ensures t.Valid() && t.Continues() && old(t.sends) <= t.sends
    ensures t.tries != old(t.tries) ==>
      && |t.tries| > |old(t.tries)| && t.tries[|old(t.tries)|] == SwitchOn(TrackState, TrackOn)
      && before.Some? && Permitted(strict, before.value.0, before.value.1) && !before.value.0.tracking
    ensures r.Ok? && r.value.confirmed && !r.value.accepted ==>
      && t.tries == old(t.tries) && t.stops == old(t.stops)
      && before.Some? && Permitted(strict, before.value.0, before.value.1) && before.value.0.tracking
    ensures r.Ok? && r.value.confirmed && r.value.accepted ==>
      && t.tries == old(t.tries) + [SwitchOn(TrackState, TrackOn)] && t.stops == old(t.stops)
      && r.value.polls == 2 && TracksSince(news, 2) && (forall s :: s in news ==> Safe(strict, s))
      && Cleared(strict, news, verdicts) && FreshLooks(news, before.value.0.statusRevision, t.base, t.since)
      && (forall i :: |old(t.sends)| <= i < |t.sends| ==> t.sends[i].at < news[|news| - 1].statusRevision)
    ensures r.Ok? && !r.value.confirmed ==>
      && t.stops == old(t.stops) + (if r.value.accepted then 1 else 0)
      && r.value.polls == 0 && r.value.error.Some? && Caught(r.value.error.value)
      && (r.value.accepted ==> t.tries == old(t.tries) + [SwitchOn(TrackState, TrackOn)] + BOTH)
    ensures r.Err? ==> t.stops <= old(t.stops) + 1 && r.error != Stopped
    ensures before.None? ==> r.Err? && t.tries == old(t.tries) && t.mishaps > old(t.mishaps)
    ensures before.Some? ==>
      && |t.looks| >= |old(t.looks)| + 2
      && before.value == (t.looks[|old(t.looks)|], Classify(t.looks[|old(t.looks)| + 1], policy))
    ensures before.Some? && !Permitted(strict, before.value.0, before.value.1) ==>
      t.tries == old(t.tries) && r == Ok(TrackingResult(false, false, 0, Some(RuntimeError)))
    ensures before.Some? && Permitted(strict, before.value.0, before.value.1) ==>
      if before.value.0.tracking then t.tries == old(t.tries) && r == Ok(TrackingResult(false, true, 2, None))
      else t.tries == old(t.tries) + [SwitchOn(TrackState, TrackOn)] || t.stops > old(t.stops)
    ensures r.Ok? && r.value.confirmed && r.value.accepted ==> Confirming(strict, news, verdicts)
    ensures r.Ok? && r.value.confirmed && r.value.accepted ==>
      AllJudged(t.looks, |old(t.looks)|, news, verdicts, policy) && t.mishaps == old(t.mishaps)
    ensures t.tries != old(t.tries) && !(r.Ok? && r.value.confirmed) ==>
      t.mishaps > old(t.mishaps) || Barred(strict, t.looks, |old(t.looks)|, policy)
    ensures t.tries != old(t.tries) && r.Ok? && !r.value.accepted ==> t.mishaps > old(t.mishaps)
    ensures t.tries != old(t.tries) && !(r.Ok? && r.value.confirmed) ==> NeverTracked(news)
    ensures t.tries != old(t.tries) ==> t.tries[|old(t.tries)| + 1..] <= BOTH
  {
    hide CacheOf, Read, Shown, SentBy, Classify, Permitted, FreshLooks, TracksSince, Safe, Cleared, OnlyStops, Barred, AllJudged;
    hide Confirming, NeverTracked, IndiTransport.Passed, IndiTransport.At;
    before, news, verdicts := None, [], [];
    var look := Look(t);
    if look.Err? {
      return Err(look.error), before, news, verdicts;
    }
    ghost var verdictOn;
    var verdict;
    verdict, verdictOn := MeridianStatus(t, policy);
    if verdict.Err? {
      return Err(verdict.error), before, news, verdicts;
    }
    before := Some((look.value, verdict.value));
    if !Permitted(strict, look.value, verdict.value) {
      return Ok(TrackingResult(false, false, 0, Some(RuntimeError))), before, news, verdicts;
    }
    if look.value.tracking {
      return Ok(TrackingResult(false, true, 2, None)), before, news, verdicts;
    }
    var accepted, confirmed;
    accepted, confirmed, news, verdicts := SwitchAndAwait(t, strict, policy, look.value.statusRevision);
    if confirmed.Ok? {
      ConfirmedSo(strict, news, verdicts);
      AllJudgedEarlier(t.looks, |old(t.looks)|, |old(t.looks)| + 2, news, verdicts, policy);
      return Ok(TrackingResult(true, true, 2, None)), before, news, verdicts;
    }
    BarredEarlier(strict, t.looks, |old(t.looks)|, |old(t.looks)| + 2, policy);
    r := GiveUp(t, accepted, confirmed.error);
  }

  /** How a failed attempt ends. */
  method GiveUp(t: IndiTransport, accepted: bool, error: Error) returns (r: Result<TrackingResult>)
    requires t.Valid() && error != Stopped
    modifies t
    ensures t.Valid() && t.Continues() && old(t.sends) <= t.sends && t.looks == old(t.looks)
    ensures old(t.tries) <= t.tries && t.mishaps >= old(t.mishaps)
    ensures t.stops == old(t.stops) + if Caught(error) && accepted then 1 else 0
    ensures t.tries[|old(t.tries)|..] <= if Caught(error) && accepted then BOTH else []
    ensures r.Ok? ==> Caught(error) && r.value == TrackingResult(accepted, false, 0, Some(error))
    ensures r.Ok? && accepted ==> t.tries == old(t.tries) + BOTH
    ensures Caught(error) && !accepted ==> r.Ok?
    ensures r.Err? ==> r.error != Stopped && (r.error == error || (Caught(error) && accepted))
  {
    if !Caught(error) {
      return Err(error);
    }
    if accepted {
      var stopped := EmergencyStop(t);
      if stopped.Err? {
        return Err(stopped.error);
      }
    }
    r := Ok(TrackingResult(accepted, false, 0, Some(error)));
  }

  /** The two looks that confirm and the verdict on each fresh look, spelled out. */
  ghost predicate Confirming(strict: bool, news: seq<Snapshot>, verdicts: seq<State>) {
    && |verdicts| == |news| >= 2
    && (forall i :: |news| - 2 <= i < |news| ==> news[i].tracking && !news[i].slewing)
    && (forall s :: s in news ==> !s.atLimit && !s.parked && (strict ==> !s.atHome))
    && (forall v :: v in verdicts && strict ==>
          !v.stopRequired && (v.phase.PreMeridian? || v.phase.PostMeridian? || v.phase.PostFlip?))
  }

  lemma ConfirmedSo(strict: bool, news: seq<Snapshot>, verdicts: seq<State>)
    requires TracksSince(news, 2) && (forall s :: s in news ==> Safe(strict, s)) && Cleared(strict, news, verdicts)
    ensures Confirming(strict, news, verdicts)
  {}

  /** The command, and then its confirmation. */
  method SwitchAndAwait(t: IndiTransport, strict: bool, policy: Policy, after: int)
    returns (accepted: bool, r: Result<()>, ghost news: seq<Snapshot>, ghost verdicts: seq<State>)
    requires t.Valid() && after >= -1
    modifies t
    ensures t.Valid() && t.Continues() && t.stops == old(t.stops) && old(t.sends) <= t.sends
    ensures t.tries == old(t.tries) + [SwitchOn(TrackState, TrackOn)]
    ensures r.Ok? ==>
      && accepted && TracksSince(news, 2) && (forall s :: s in news ==> Safe(strict, s))
      && Cleared(strict, news, verdicts) && FreshLooks(news, after, t.base, t.since)
      && (forall i :: |old(t.sends)| <= i < |t.sends| ==> t.sends[i].at < news[|news| - 1].statusRevision)
    ensures r.Ok? ==> t.mishaps == old(t.mishaps) && AllJudged(t.looks, |old(t.looks)|, news, verdicts, policy)
    ensures r.Err? ==> r.error != Stopped && (r.error == OtherError || !accepted ==> t.mishaps > old(t.mishaps))
    ensures r.Err? ==>
      t.mishaps > old(t.mishaps) || (r.error == RuntimeError && Barred(strict, t.looks, |old(t.looks)|, policy))
    ensures r.Err? ==> NeverTracked(news)
  {
    hide CacheOf, Read, Shown, SentBy, Classify, FreshLooks, Safe, Cleared, AllJudged, Barred;
    hide IndiTransport.Passed, IndiTransport.At;
    news, verdicts := [], [];
    var switched := t.SetSwitch(TrackState, TrackOn);
    if switched.Err? {
      return false, Err(switched.error), news, verdicts;
    }
    accepted := true;
    r, news, verdicts := AwaitTracking(t, strict, policy, after);
  }

  /** One turn of the waiting loop: the time limit, a look, and for a fresh one its checks. */
  method NextLook(t: IndiTransport, strict: bool, policy: Policy, last: int)
    returns (r: Result<Option<Snapshot>>, ghost verdict: State)
    requires t.Valid() && last >= -1
    modifies t`properties, t`revision, t`since, t`world, t`failure, t`mishaps, t`looks
    ensures t.Valid() && t.Continues()
    ensures r.Ok? ==> |t.world| < |old(t.world)|
    ensures r.Ok? && r.value.Some? ==>
      && var s := r.value.value;
      && s.statusRevision > last && s.statusRevision >= RevisionOf(old(t.Cached(Status))) && Shown(s, t.base, t.since)
      && Safe(strict, s) && (strict ==> PhaseAllowed(verdict.phase) && !verdict.stopRequired)
      && Judged(t.looks, |old(t.looks)|, s, verdict, policy)
    ensures r.Ok? ==> t.mishaps == old(t.mishaps)
    ensures r.Ok? && r.value.None? ==>
      |t.looks| == |old(t.looks)| + 1 && t.looks[|old(t.looks)|].statusRevision <= last
    ensures r.Err? ==> r.error != Stopped && (r.error == OtherError ==> t.mishaps > old(t.mishaps))
    ensures r.Err? ==>
      t.mishaps > old(t.mishaps) || (r.error == RuntimeError && Barred(strict, t.looks, |old(t.looks)|, policy))
  {
    hide CacheOf, Read, Shown, SentBy, Classify, IndiTransport.Passed, IndiTransport.At;
    verdict := State(Phase.Unknown, false, false, None, None, None);
    var time := t.Clock();
    if time.Expired? {
      return Err(TimeoutError), verdict;
    }
    var look := Look(t);
    if look.Err? {
      return Err(look.error), verdict;
    }
    EntryNeverFalls(t.base, old(t.since), t.since, Status);
    var s := look.value;
    if s.statusRevision <= last {
      return Ok(None), verdict;
    }
    if !Safe(strict, s) {
      return Err(RuntimeError), verdict;
    }
    ghost var was := t.since;
    var meridian;
    ghost var on;
    meridian, on := MeridianStatus(t, policy);
    ShownGrows(s, t.base, was, t.since);
    if meridian.Err? {
      return Err(meridian.error), verdict;
    }
    verdict := meridian.value;
    assert t.looks[|old(t.looks)|] == s && t.looks[|old(t.looks)| + 1] == on.value;
    assert Judged(t.looks, |old(t.looks)|, s, verdict, policy);
    if strict && (!PhaseAllowed(meridian.value.phase) || meridian.value.stopRequired) {
      return Err(RuntimeError), verdict;
    }
    r := Ok(Some(s));
  }

  method AwaitTracking(t: IndiTransport, strict: bool, policy: Policy, after: int)
    returns (r: Result<()>, ghost news: seq<Snapshot>, ghost verdicts: seq<State>)
    requires t.Valid() && after >= -1
    modifies t`properties, t`revision, t`since, t`world, t`failure, t`mishaps, t`looks
    ensures t.Valid() && t.Continues()
    ensures r.Ok? ==>
      && TracksSince(news, 2) && (forall s :: s in news ==> Safe(strict, s)) && Cleared(strict, news, verdicts)
      && FreshLooks(news, after, t.base, t.since)
      && forall i :: 1 <= i < |news| ==> news[i].statusRevision > old(t.revision)
    ensures r.Ok? ==> t.mishaps == old(t.mishaps) && AllJudged(t.looks, |old(t.looks)|, news, verdicts, policy)
    ensures r.Err? ==> r.error != Stopped && (r.error == OtherError ==> t.mishaps > old(t.mishaps))
    ensures r.Err? ==>
      t.mishaps > old(t.mishaps) || (r.error == RuntimeError && Barred(strict, t.looks, |old(t.looks)|, policy))
    ensures r.Err? ==> NeverTracked(news)
  {
    hide CacheOf, Shown, SentBy, FreshLooks, TracksSince, Safe, Judged, AllJudged, Barred, Classify, NeverTracked;
    NotYetTracked();
    news, verdicts := [], [];
    NoneJudged(t.looks, policy);
    NoLooks(after, t.base, t.since);
    var stable, last := 0, after;
    while stable < 2
      invariant t.Valid() && t.Continues() && last == LastLook(news, after) && last >= -1 && t.mishaps == old(t.mishaps)
      invariant AllJudged(t.looks, |old(t.looks)|, news, verdicts, policy)
      invariant FreshLooks(news, after, t.base, t.since) && TracksSince(news, stable) && stable <= 2
      invariant stable < 2 ==> NeverTracked(news)
      invariant (forall s :: s in news ==> Safe(strict, s)) && Cleared(strict, news, verdicts)
      invariant news != [] ==> news[0].statusRevision >= RevisionOf(old(t.Cached(Status)))
      decreases |t.world|
    {
      ghost var was, verdict := t.since, State(Phase.Unknown, false, false, None, None, None);
      ghost var seen := t.looks;
      var look;
      look, verdict := NextLook(t, strict, policy, last);
      FreshLooksGrow(news, after, t.base, was, t.since);
      if look.Err? {
        BarredEarlier(strict, t.looks, |old(t.looks)|, |seen|, policy);
        return Err(look.error), news, verdicts;
      }
      if look.value.None? {
        AllJudgedGrows(seen, t.looks, |old(t.looks)|, news, verdicts, policy);
        continue;
      }
      var s := look.value.value;
      last := s.statusRevision;
      EntryNeverFalls(t.base, old(t.since), was, Status);
      FreshLooksPush(news, s, after, t.base, t.since);
      TracksPush(news, stable, s);
      StillNotTracked(news, stable, s);
      JudgedEarlier(t.looks, |old(t.looks)|, |seen|, s, verdict, policy);
      AllJudgedPush(seen, t.looks, |old(t.looks)|, news, verdicts, s, verdict, policy);
      news, verdicts := news + [s], verdicts + [verdict];
      stable := if Tracks(s) then stable + 1 else 0;
    }
    LaterLooks(news, after, t.base, old(t.since), t.since);
    r := Ok(());
  }

  lemma NoneJudged(looks: seq<Snapshot>, policy: Policy)
    ensures AllJudged(looks, |looks|, [], [], policy)
  {}

  lemma BarredEarlier(strict: bool, looks: seq<Snapshot>, earlier: nat, from: nat, policy: Policy)
    requires earlier <= from
    ensures Barred(strict, looks, from, policy) ==> Barred(strict, looks, earlier, policy)
  {
    hide Classify;
  }

  lemma JudgedEarlier(looks: seq<Snapshot>, earlier: nat, from: nat, s: Snapshot, v: State, policy: Policy)
    requires Judged(looks, from, s, v, policy) && earlier <= from
    ensures Judged(looks, earlier, s, v, policy)
  {
    hide Classify;
  }

  lemma NoLooks(after: int, base: nat, since: seq<Vector>)
    ensures FreshLooks([], after, base, since) && TracksSince([], 0)
  {}

  lemma TracksPush(news: seq<Snapshot>, n: nat, s: Snapshot)
    requires TracksSince(news, n)
    ensures TracksSince(news + [s], if Tracks(s) then n + 1 else 0)
  {}
}
