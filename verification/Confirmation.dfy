/** "Good twice in a row, on fresh updates": the pattern by which every protocol confirms its
    effect. Nothing is concluded from a command being accepted. */
module Confirmation {
  import opened Common
  import opened Indi

  datatype Goal =
    | AtRest                          // the verified stop
    | AtHome | AtPark                 // arrival of a HOME or PARK move
    | OffPark(trackingToo: bool)      // leaving PARK, and then with tracking off
    | Focused(target: int)

  predicate StatusMeets(goal: Goal, g: Gu)
    requires !goal.Focused?
  {
    !g.parkFailed &&
    match goal
    case AtRest => !g.tracking && !g.slewing
    case AtHome => g.atHome && NotParked(g) && !g.slewing && !g.tracking
    case AtPark => g.parked && !g.slewing && !g.tracking
    case OffPark(trackingToo) => NotParked(g) && !g.slewing && (trackingToo ==> !g.tracking)
  }

  /** A whole number shown by an element. */
  function Integer(p: Option<Property>, e: Element): (n: Option<int>)
    ensures n.Some? ==> p.Some? && e in p.value.values && p.value.values[e] == Num(n.value as real)
  {
    if p.Some? && e in p.value.values && p.value.values[e].Num? && p.value.values[e].n.Floor as real == p.value.values[e].n
    then Some(p.value.values[e].n.Floor) else None
  }

  /** Whether one update shows the goal reached. */
  predicate Meets(goal: Goal, p: Property) {
    match goal
    case Focused(target) => Integer(Some(p), Position) == Some(target) && p.light == Okay
    case AtRest => p.light != Alert && Decoded(Some(p)).Some? && StatusMeets(goal, Decoded(Some(p)).value)
    case _ => Decoded(Some(p)).Some? && StatusMeets(goal, Decoded(Some(p)).value)
  }

  lemma FocusedIff(p: Property, target: int)
    ensures Meets(Focused(target), p) <==> Holds(Some(p), Position, Num(target as real)) && p.light == Okay
  {}

  /** Any other goal is met by the flags of a status that can be decoded; the stop's not under an alert. */
  lemma MeetsIff(goal: Goal, p: Property)
    requires !goal.Focused?
    ensures Meets(goal, p) <==>
      && Report in p.values && p.values[Report].Flags? && StatusMeets(goal, p.values[Report].gu)
      && (goal.AtRest? ==> p.light != Alert)
  {}

  /** The flags each goal asks for; those it leaves open are the status's own. */
  lemma RestingIff(g: Gu)
    ensures StatusMeets(AtRest, g) <==> g == g.(parkFailed := false, tracking := false, slewing := false)
    ensures StatusMeets(AtPark, g) <==> g == g.(parked := true, parkFailed := false, tracking := false, slewing := false)
  {}

  lemma AwayIff(g: Gu, trackingToo: bool)
    ensures StatusMeets(AtHome, g) <==>
      g == Gu(false, true, false, g.atLimit, false, false, true, g.guiding, g.pierEast, g.pierWest)
    ensures StatusMeets(OffPark(trackingToo), g) <==>
      g == Gu(false, true, false, g.atLimit, g.tracking && !trackingToo, false, g.atHome, g.guiding, g.pierEast, g.pierWest)
  {}

  /** The update is what the cache showed of `name` right after receiving it. */
  ghost predicate Taken(p: Property, name: Name, base: nat, since: seq<Vector>) {
    var k := p.revision - base;
    0 < k <= |since| && since[k - 1].name == name && Lookup(CacheOf(base, since[..k]), name) == Some(p)
  }

  /** Updates of `name`, each newer than the one before and the first newer than `after`. */
  ghost predicate Fresh(seen: seq<Property>, after: int, name: Name, base: nat, since: seq<Vector>) {
    && (forall i :: 0 <= i < |seen| ==> Taken(seen[i], name, base, since) && seen[i].revision > after)
    && (forall i, j :: 0 <= i < j < |seen| ==> seen[i].revision < seen[j].revision)
  }

  function LastRevision(seen: seq<Property>, after: int): int {
    if seen == [] then after else seen[|seen| - 1].revision
  }

  /** `n` updates at the end meet the goal, and the one before them does not. */
  predicate IsStreak(goal: Goal, seen: seq<Property>, n: nat) {
    && n <= |seen|
    && (forall i :: |seen| - n <= i < |seen| ==> Meets(goal, seen[i]))
    && (n < |seen| ==> !Meets(goal, seen[|seen| - n - 1]))
  }

  /** How many updates at the end meet the goal. */
  function Trailing(goal: Goal, seen: seq<Property>): nat {
    if seen == [] || !Meets(goal, seen[|seen| - 1]) then 0 else Trailing(goal, seen[..|seen| - 1]) + 1
  }

  /** At no time had so many updates in a row met the goal. */
  ghost predicate Unmet(goal: Goal, seen: seq<Property>, needed: nat) {
    forall k: nat :: k <= |seen| ==> Trailing(goal, seen[..k]) < needed
  }

  lemma {:induction false} StreakTrails(goal: Goal, seen: seq<Property>, n: nat)
    requires IsStreak(goal, seen, n)
    ensures Trailing(goal, seen) == n
  {
    hide Meets;
    if n > 0 {
      StreakTrails(goal, seen[..|seen| - 1], n - 1);
    }
  }

  lemma StillUnmet(goal: Goal, seen: seq<Property>, p: Property, n: nat, needed: nat)
    requires Unmet(goal, seen, needed) && IsStreak(goal, seen + [p], n) && n < needed
    ensures Unmet(goal, seen + [p], needed)
  {
    hide Trailing, IsStreak;
    StreakTrails(goal, seen + [p], n);
    forall k: nat | k <= |seen| + 1 ensures Trailing(goal, (seen + [p])[..k]) < needed {
      if k <= |seen| {
        assert (seen + [p])[..k] == seen[..k];
      } else {
        assert (seen + [p])[..k] == seen + [p];
      }
    }
  }

  lemma NothingMet(goal: Goal, needed: nat)
    requires needed > 0
    ensures Unmet(goal, [], needed)
  {}

  lemma StartFresh(goal: Goal, after: int, name: Name, base: nat, since: seq<Vector>)
    ensures Fresh([], after, name, base, since) && IsStreak(goal, [], 0)
  {}

  /** Ending on a streak of two is what counts as confirmed. */
  lemma StreakConfirms(goal: Goal, seen: seq<Property>, n: nat, after: int, name: Name, base: nat, since: seq<Vector>)
    requires Fresh(seen, after, name, base, since) && IsStreak(goal, seen, n) && n >= 2
    ensures Confirmed(goal, seen, after, name, base, since)
  {}

  lemma FreshGrows(seen: seq<Property>, after: int, name: Name, base: nat, before: seq<Vector>, since: seq<Vector>)
    requires Fresh(seen, after, name, base, before) && before <= since
    ensures Fresh(seen, after, name, base, since)
  {
    hide CacheOf;
    assert forall k :: 0 <= k <= |before| ==> before[..k] == since[..k];
  }

  lemma TakenGrows(p: Property, name: Name, base: nat, before: seq<Vector>, since: seq<Vector>)
    requires Taken(p, name, base, before) && before <= since
    ensures Taken(p, name, base, since)
  {
    hide CacheOf;
    assert before[..p.revision - base] == since[..p.revision - base];
  }

  lemma LatestIsTaken(p: Property, name: Name, base: nat, since: seq<Vector>)
    requires Lookup(CacheOf(base, since), name) == Some(p)
    ensures Taken(p, name, base, since)
  {
    hide CacheOf;
    EntryIsLatest(base, since, name);
  }

  /** An update was received after some moment exactly when it is newer than what was cached then. */
  lemma LaterIff(p: Property, name: Name, base: nat, before: seq<Vector>, since: seq<Vector>)
    requires Taken(p, name, base, since) && before <= since
    ensures p.revision > base + |before| <==> p.revision > RevisionOf(Lookup(CacheOf(base, before), name))
    ensures p.revision == RevisionOf(Lookup(CacheOf(base, before), name)) ==> Lookup(CacheOf(base, before), name) == Some(p)
  {
    hide CacheOf;
    EntryIsLatest(base, before, name);
    var k := p.revision - base;
    if k <= |before| {
      assert before[k - 1] == since[k - 1] && before[..k] == since[..k];
      assert before[k - 1] in before;
    }
  }

  /** All fresh updates but the first were received after `before` if the first is no older than
      what was cached then. */
  lemma LaterUpdates(seen: seq<Property>, after: int, name: Name, base: nat, before: seq<Vector>, since: seq<Vector>)
    requires Fresh(seen, after, name, base, since) && before <= since
    requires seen != [] ==> seen[0].revision >= RevisionOf(Lookup(CacheOf(base, before), name))
    ensures forall i :: 1 <= i < |seen| ==> seen[i].revision > base + |before|
  {
    hide CacheOf, Taken;
    forall i | 1 <= i < |seen| ensures seen[i].revision > base + |before| {
      LaterIff(seen[i], name, base, before, since);
    }
  }

  lemma WaitedIsFresh(seen: seq<Property>, p: Property, after: int, name: Name, base: nat, since: seq<Vector>)
    requires Fresh(seen, after, name, base, since)
    requires Lookup(CacheOf(base, since), name) == Some(p) && p.revision > LastRevision(seen, after)
    ensures Fresh(seen + [p], after, name, base, since)
  {
    hide CacheOf, Taken;
    LatestIsTaken(p, name, base, since);
  }

  lemma StreakPush(goal: Goal, seen: seq<Property>, n: nat, p: Property)
    requires IsStreak(goal, seen, n)
    ensures IsStreak(goal, seen + [p], if Meets(goal, p) then n + 1 else 0)
  {
    hide Meets;
  }

  /** Two distinct receptions after `after`, the later ones of all updates looked at, show the goal. */
  ghost predicate Confirmed(goal: Goal, seen: seq<Property>, after: int, name: Name, base: nat, since: seq<Vector>) {
    && |seen| >= 2 && Fresh(seen, after, name, base, since)
    && Meets(goal, seen[|seen| - 2]) && Meets(goal, seen[|seen| - 1])
  }
}
