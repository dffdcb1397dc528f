/** Observations of the mount, and what a fresh one stands for. */
module Looks {
  import opened Common
  import opened Indi
  import opened Transport
  import opened Confirmation
  import opened Meridian

  /** The snapshot shows exactly the flags of one received status. */
  ghost predicate ShownBy(s: Snapshot, p: Property, base: nat, since: seq<Vector>) {
    var g := Decoded(Some(p));
    && Taken(p, Status, base, since) && p.revision == s.statusRevision
    && s.tracking == (g.Some? && g.value.tracking) && s.slewing == (g.Some? && g.value.slewing)
    && s.parked == (g.Some? && g.value.parked) && s.guiding == (g.Some? && g.value.guiding)
    && s.atHome == (g.Some? && g.value.atHome) && s.atLimit == (g.Some? && g.value.atLimit)
  }

  ghost predicate Shown(s: Snapshot, base: nat, since: seq<Vector>) {
    exists p :: ShownBy(s, p, base, since)
  }

  /** Looks at the mount, each at a later status than the one before and the first later than `after`. */
  ghost predicate FreshLooks(news: seq<Snapshot>, after: int, base: nat, since: seq<Vector>) {
    && (forall i :: 0 <= i < |news| ==> Shown(news[i], base, since) && news[i].statusRevision > after)
    && (forall i, j :: 0 <= i < j < |news| ==> news[i].statusRevision < news[j].statusRevision)
  }

  function LastLook(news: seq<Snapshot>, after: int): int {
    if news == [] then after else news[|news| - 1].statusRevision
  }

  lemma LookIsShown(s: Snapshot, c: Circumstances, base: nat, since: seq<Vector>)
    requires s == Read(CacheOf(base, since), c)
    ensures s.statusRevision >= -1
    ensures s.statusRevision >= 0 ==> Shown(s, base, since)
  {
    hide CacheOf;
    EntryIsLatest(base, since, Status);
    var cache := CacheOf(base, since);
    if s.statusRevision >= 0 {
      assert ShownBy(s, cache[Status], base, since);
    }
  }

  lemma ShownGrows(s: Snapshot, base: nat, before: seq<Vector>, since: seq<Vector>)
    requires Shown(s, base, before) && before <= since
    ensures Shown(s, base, since)
  {
    hide CacheOf;
    var p :| ShownBy(s, p, base, before);
    assert before[..p.revision - base] == since[..p.revision - base];
    assert ShownBy(s, p, base, since);
  }

  lemma FreshLooksGrow(news: seq<Snapshot>, after: int, base: nat, before: seq<Vector>, since: seq<Vector>)
    requires FreshLooks(news, after, base, before) && before <= since
    ensures FreshLooks(news, after, base, since)
  {
    hide Shown;
    forall i | 0 <= i < |news| ensures Shown(news[i], base, since) {
      ShownGrows(news[i], base, before, since);
    }
  }

  lemma FreshLooksPush(news: seq<Snapshot>, s: Snapshot, after: int, base: nat, since: seq<Vector>)
    requires FreshLooks(news, after, base, since) && Shown(s, base, since) && s.statusRevision > LastLook(news, after)
    ensures FreshLooks(news + [s], after, base, since)
  {
    hide Shown;
  }

  /** All fresh looks but the first show a status received after `before` if the first is no
      older than the status known then. */
  lemma LaterLooks(news: seq<Snapshot>, after: int, base: nat, before: seq<Vector>, since: seq<Vector>)
    requires FreshLooks(news, after, base, since) && before <= since
    requires news != [] ==> news[0].statusRevision >= RevisionOf(Lookup(CacheOf(base, before), Status))
    ensures forall i :: 1 <= i < |news| ==> news[i].statusRevision > base + |before|
  {
    hide CacheOf;
    forall i | 1 <= i < |news| ensures news[i].statusRevision > base + |before| {
      assert Shown(news[i], base, since);
      var p :| ShownBy(news[i], p, base, since);
      LaterIff(p, Status, base, before, since);
      assert news[0].statusRevision < news[i].statusRevision;
    }
  }

  /** One observation; a snapshot with a status shows a received one, and the latest. */
  method Look(t: IndiTransport) returns (r: Result<Snapshot>)
    requires t.Valid()
    modifies t`properties, t`revision, t`since, t`world, t`failure, t`mishaps, t`looks
    ensures t.Valid() && t.Continues() && t.mishaps == old(t.mishaps) + if r.Err? then 1 else 0
    ensures r.Ok? ==> t.looks == old(t.looks) + [r.value] && r.value.statusRevision >= -1
    ensures r.Ok? ==> (r.value.statusRevision >= 0 ==> Shown(r.value, t.base, t.since))
    ensures r.Ok? ==> r.value.statusRevision == RevisionOf(t.Cached(Status))
    ensures r.Err? ==> t.looks == old(t.looks) && r.error != Stopped
    ensures t.Passed() && r == if old(t.Head()).trouble.Some? then Err(old(t.Head()).trouble.value)
                               else Ok(Read(CacheOf(t.base, t.since), t.At(old(t.Head()))))
  {
    hide CacheOf, Read, Shown, SentBy;
    r := t.Observe();
    if r.Ok? {
      ghost var c := t.At(old(t.Head()));
      LookIsShown(r.value, c, t.base, t.since);
      ReadsLatest(CacheOf(t.base, t.since), c);
    }
  }

  lemma ReadsLatest(cache: map<Name, Property>, c: Circumstances)
    ensures Read(cache, c).statusRevision == RevisionOf(Lookup(cache, Status))
  {}

  /** The meridian verdict on an observation of its own. */
  method MeridianStatus(t: IndiTransport, policy: Policy) returns (r: Result<State>, ghost s: Option<Snapshot>)
    requires t.Valid()
    modifies t`properties, t`revision, t`since, t`world, t`failure, t`mishaps, t`looks
    ensures t.Valid() && t.Continues() && t.mishaps == old(t.mishaps) + if r.Err? then 1 else 0
    ensures r.Ok? ==> s.Some? && t.looks == old(t.looks) + [s.value] && r.value == Classify(s.value, policy)
    ensures r.Err? ==> t.looks == old(t.looks) && r.error != Stopped
    ensures t.Passed() && (old(t.Head()).trouble.None? ==>
                             r.Ok? && s == Some(Read(CacheOf(t.base, t.since), t.At(old(t.Head())))))
  {
    hide CacheOf, Read, Shown, SentBy, Classify;
    var look := Look(t);
    if look.Err? {
      return Err(look.error), None;
    }
    s := Some(look.value);
    r := Ok(Classify(look.value, policy));
  }
}
