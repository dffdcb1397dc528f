/** Consolidation loses nothing but time stamps, and a second pass finds nothing to merge. */
module ConsolidationProofs {
  import opened Common
  import opened Consolidation

  // ---- runs, independently of the loop -------------------------------------------------------

  /** A session, a connection's begin or end, a call or its end, a motion's begin or end, a decode
      error, or a client's write: what follows may be a reaction to it. */
  ghost predicate EndsRuns(c: Content) {
    var kind, tag := c.stream.kind, c.stream.tag;
    || kind == "session" || kind == "capture" || kind == "connect" || kind == "close"
    || kind == "call" || kind == "return" || kind == "error"
    || kind == "motion_start" || kind == "motion_end" || kind == "decode_error"
    || (kind == "send" && tag.Some? && |tag.value| >= 3 && tag.value[..3] == "new")
  }

  /** One content, or, given a tolerance, contents that differ in numbers no further apart than it. */
  ghost predicate Repeats(a: Content, b: Content, tolerance: real) {
    a == b ||
    (tolerance > 0.0 && a == b.(values := a.values) && a.values.Some? && b.values.Some? &&
     var was, now := a.values.value, b.values.value;
     && (forall name :: name in was <==> name in now)
     && (forall name :: name in was && was[name] != now[name] ==>
           && was[name].number.Some? && now[name].number.Some?
           && -tolerance <= was[name].number.value - now[name].number.value <= tolerance))
  }

  lemma AsRecorded(first: Record, r: Record, tolerance: real)
    ensures IsBarrier(r) <==> EndsRuns(r.content)
    ensures Same(first, r, tolerance) <==> Repeats(first.content, r.content, tolerance)
  {}

  /** The run headed by `h` is unbroken up to `n`: nothing ends it, and every entry of its stream
      repeats the head. */
  ghost predicate Unbroken(records: seq<Record>, h: nat, n: nat, tolerance: real)
    requires h < n <= |records|
  {
    forall i :: h < i < n ==>
      && !EndsRuns(records[i].content)
      && (records[i].content.stream == records[h].content.stream ==>
            Repeats(records[h].content, records[i].content, tolerance))
  }

  lemma {:induction false} OpenIff(records: seq<Record>, n: nat, k: Stream, h: nat, tolerance: real)
    requires h < n <= |records|
    ensures OpenRun(records, n, k, tolerance) == Some(h) <==>
            && HeadOf(records, h, tolerance) == Some(h) && records[h].content.stream == k
            && Unbroken(records, h, n, tolerance)
  {
    hide Same, IsBarrier, EndsRuns, Repeats;
    AsRecorded(records[h], records[n - 1], tolerance);
    if n == h + 1 {
      if OpenRun(records, n, k, tolerance) == Some(h) {
        HeadsAreHeads(records, n, k, tolerance);
      }
    } else {
      OpenIff(records, n - 1, k, h, tolerance);
    }
  }

  /** Entry `j` belongs to the run headed by `h` exactly when `h` heads a run, `j` is of its stream
      and the run is unbroken up to `j`. In particular no run spans a barrier and every member is
      within the tolerance of its head. */
  lemma RunsAreUnbroken(records: seq<Record>, h: nat, j: nat, tolerance: real)
    requires h <= j < |records|
    ensures HeadOf(records, j, tolerance) == Some(h) <==>
            && HeadOf(records, h, tolerance) == Some(h)
            && records[j].content.stream == records[h].content.stream
            && Unbroken(records, h, j + 1, tolerance)
  {
    OpenIff(records, j + 1, records[j].content.stream, h, tolerance);
  }

  /** An entry heads a run exactly when it ends none and no earlier run takes it in. */
  lemma HeadIff(records: seq<Record>, i: nat, tolerance: real)
    requires i < |records|
    ensures HeadOf(records, i, tolerance).None? <==> EndsRuns(records[i].content)
    ensures HeadOf(records, i, tolerance) == Some(i) <==>
      && !EndsRuns(records[i].content)
      && forall h: nat :: h < i && HeadOf(records, h, tolerance) == Some(h)
                          && records[h].content.stream == records[i].content.stream ==>
           !Unbroken(records, h, i + 1, tolerance)
  {
    hide HeadOf, Unbroken, EndsRuns, Repeats, Same, IsBarrier, OpenRun;
    HeadStep(records, i, tolerance);
    AsRecorded(records[i], records[i], tolerance);
    forall h: nat | h <= i {
      RunsAreUnbroken(records, h, i, tolerance);
    }
  }

  lemma UnbrokenPrefix(records: seq<Record>, h: nat, m: nat, n: nat, tolerance: real)
    requires h < m <= n <= |records| && Unbroken(records, h, n, tolerance)
    ensures Unbroken(records, h, m, tolerance)
  {
  }

  /** Once a run is no longer open it gains no members. */
  lemma {:induction false} ClosedRunsStayClosed(records: seq<Record>, h: nat, n: nat, m: nat, tolerance: real)
    requires h < n <= m <= |records|
    requires OpenRun(records, n, records[h].content.stream, tolerance) != Some(h)
    ensures Members(records, m, h, tolerance) == Members(records, n, h, tolerance)
    decreases m
  {
    hide OpenRun, HeadOf, Members, Unbroken;
    if n < m {
      ClosedRunsStayClosed(records, h, n, m - 1, tolerance);
      if HeadOf(records, m - 1, tolerance) == Some(h) {
        RunsAreUnbroken(records, h, m - 1, tolerance);
        UnbrokenPrefix(records, h, n, m, tolerance);
        OpenIff(records, n, records[h].content.stream, h, tolerance);
      }
      MembersStep(records, m - 1, h, tolerance);
    }
  }

  // ---- expanding a consolidated log ----------------------------------------------------------

  function Bare(r: Record): Record { r.(run := None, consolidated := false) }

  function Copies(r: Record, n: nat): (rs: seq<Record>)
    ensures |rs| == n && forall i :: 0 <= i < n ==> rs[i] == r
  {
    seq(n, _ => r)
  }

  /** A merged entry stands for `repeat` copies of itself. */
  function Unmerge(r: Record): seq<Record> {
    if r.run.Some? then Copies(Bare(r), r.run.value.repeat) else [Bare(r)]
  }

  function Expand(out: seq<Record>): seq<Record> {
    if out == [] then [] else Expand(out[..|out| - 1]) + Unmerge(out[|out| - 1])
  }

  lemma ExpandPush(out: seq<Record>, r: Record)
    ensures Expand(out + [r]) == Expand(out) + Unmerge(r)
  {
    assert (out + [r])[..|out|] == out;
  }

  /** What a reader of one stream sees: its own entries and every barrier. */
  function View(rs: seq<Record>, k: Stream): seq<Record> {
    if rs == [] then []
    else
      var last := rs[|rs| - 1];
      View(rs[..|rs| - 1], k) + if IsBarrier(last) || last.content.stream == k then [last] else []
  }

  lemma {:induction false} ViewAppend(a: seq<Record>, b: seq<Record>, k: Stream)
    ensures View(a + b, k) == View(a, k) + View(b, k)
  {
    hide IsBarrier;
    if b == [] {
      assert a + b == a;
    } else {
      ViewAppend(a, b[..|b| - 1], k);
      assert (a + b)[..|a + b| - 1] == a + b[..|b| - 1];
    }
  }

  lemma {:induction false} ViewCopies(r: Record, n: nat, k: Stream)
    ensures View(Copies(r, n), k) == if IsBarrier(r) || r.content.stream == k then Copies(r, n) else []
  {
    hide IsBarrier;
    if n > 0 {
      ViewCopies(r, n - 1, k);
      assert Copies(r, n)[..n - 1] == Copies(r, n - 1);
    }
  }

  /** Straight from a recorder: no field a consolidation adds. */
  ghost predicate Raw(records: seq<Record>) {
    forall i :: 0 <= i < |records| ==> records[i].run == None && !records[i].consolidated
  }

  /** Members of the open run of `k` still to come, if that run is merged. */
  ghost function Due(records: seq<Record>, n: nat, k: Stream, tolerance: real, minRepeat: int): int
    requires n <= |records|
  {
    var h := OpenRun(records, n, k, tolerance);
    if h.Some? && Long(records, h.value, tolerance, minRepeat) then
      |Members(records, |records|, h.value, tolerance)| - |Members(records, n, h.value, tolerance)|
    else 0
  }

  ghost predicate Alike(shown: Record, original: Record, tolerance: real) {
    shown == original || (!IsBarrier(original) && Same(shown, original, tolerance))
  }

  /** `shown` agrees with `original` and then repeats `ahead` for entries still to come. */
  ghost predicate Shows(shown: seq<Record>, original: seq<Record>, ahead: Option<Record>, tolerance: real) {
    && |original| <= |shown|
    && (forall p :: 0 <= p < |original| ==> Alike(shown[p], original[p], tolerance))
    && (forall p :: |original| <= p < |shown| ==> Some(shown[p]) == ahead)
  }

  ghost function Shown(records: seq<Record>, n: nat, k: Stream, tolerance: real, minRepeat: int): seq<Record>
    requires n <= |records|
  {
    View(Expand(Output(records, n, tolerance, minRepeat)), k)
  }

  ghost function Ahead(records: seq<Record>, n: nat, k: Stream, tolerance: real): Option<Record>
    requires n <= |records|
  {
    var h := OpenRun(records, n, k, tolerance);
    if h.Some? then Some(records[h.value]) else None
  }

  /** What the reader of `k` sees of the output for entry `n`. */
  ghost function Piece(records: seq<Record>, n: nat, k: Stream, tolerance: real, minRepeat: int): seq<Record>
    requires n < |records|
  {
    View(Expand(Emit(records, n, tolerance, minRepeat)), k)
  }

  lemma ShownStep(records: seq<Record>, n: nat, k: Stream, tolerance: real, minRepeat: int)
    requires n < |records|
    ensures Shown(records, n + 1, k, tolerance, minRepeat) ==
            Shown(records, n, k, tolerance, minRepeat) + Piece(records, n, k, tolerance, minRepeat)
  {
    hide View, Emit;
    var out, e := Output(records, n, tolerance, minRepeat), Emit(records, n, tolerance, minRepeat);
    OutputStep(records, n, tolerance, minRepeat);
    if e == [] {
      assert out + e == out && Expand(out) + [] == Expand(out);
      assert Expand(e) == [];
    } else {
      ExpandPush(out, e[0]);
      ExpandOne(e[0]);
      assert e == [e[0]];
    }
    ViewAppend(Expand(out), Expand(e), k);
  }

  lemma RawAt(records: seq<Record>, n: nat)
    requires n < |records| && Raw(records)
    ensures records[n].run == None && !records[n].consolidated
    ensures IsSession(records[n]) ==> IsBarrier(records[n])
  {
  }

  lemma ViewOfNothing(k: Stream)
    ensures View(Expand([]), k) == []
  {
  }

  lemma ExpandOne(r: Record)
    ensures Expand([r]) == Unmerge(r)
  {
    ExpandPush([], r);
    assert [] + [r] == [r] && Expand([]) + Unmerge(r) == Unmerge(r);
  }

  lemma PieceIs(records: seq<Record>, n: nat, k: Stream, tolerance: real, minRepeat: int)
    requires n < |records| && Raw(records)
    ensures var r, head := records[n], HeadOf(records, n, tolerance);
            Piece(records, n, k, tolerance, minRepeat) ==
            if !IsBarrier(r) && r.content.stream != k then []
            else if IsBarrier(r) || !Long(records, head.value, tolerance, minRepeat) then [r]
            else if head == Some(n) then Copies(r, |Members(records, |records|, n, tolerance)|)
            else []
  {
    hide OpenRun, HeadOf, Members, Same, View, Expand, Raw, IsBarrier;
    var r, e := records[n], Emit(records, n, tolerance, minRepeat);
    RawAt(records, n);
    HeadStep(records, n, tolerance);
    if e == [] {
      ViewOfNothing(k);
    } else {
      ExpandOne(e[0]);
      assert e == [e[0]];
      assert Bare(e[0]) == r;
      assert [r] == Copies(r, 1);
      ViewCopies(r, 1, k);
      ViewCopies(r, |Members(records, |records|, n, tolerance)|, k);
    }
  }

  /** The output so far, expanded, shows the reader of `k` everything recorded so far, and beyond
      it only the copies of the run that is still open. */
  lemma {:induction false} PrefixIsShown(records: seq<Record>, n: nat, k: Stream, tolerance: real, minRepeat: int)
    requires n <= |records| && Raw(records)
    ensures Shows(Shown(records, n, k, tolerance, minRepeat), View(records[..n], k),
                  Ahead(records, n, k, tolerance), tolerance)
    ensures |Shown(records, n, k, tolerance, minRepeat)| ==
            |View(records[..n], k)| + Due(records, n, k, tolerance, minRepeat)
  {
    hide View, Shown, Due, Piece, Alike, Raw;
    if n > 0 {
      PrefixIsShown(records, n - 1, k, tolerance, minRepeat);
      ShownStep(records, n - 1, k, tolerance, minRepeat);
      PieceFits(records, n - 1, k, tolerance, minRepeat);
    } else {
      NothingShown(records, k, tolerance, minRepeat);
    }
  }

  lemma NothingShown(records: seq<Record>, k: Stream, tolerance: real, minRepeat: int)
    ensures Shown(records, 0, k, tolerance, minRepeat) == View(records[..0], k) == []
    ensures Due(records, 0, k, tolerance, minRepeat) == 0
  {
    assert records[..0] == [];
  }

  lemma ViewStep(records: seq<Record>, n: nat, k: Stream)
    requires n < |records|
    ensures View(records[..n + 1], k) ==
            View(records[..n], k) + if IsBarrier(records[n]) || records[n].content.stream == k then [records[n]] else []
  {
    assert records[..n + 1][..n] == records[..n];
  }

  lemma PieceFits(records: seq<Record>, n: nat, k: Stream, tolerance: real, minRepeat: int)
    requires n < |records| && Raw(records)
    requires Shows(Shown(records, n, k, tolerance, minRepeat), View(records[..n], k),
                   Ahead(records, n, k, tolerance), tolerance)
    requires |Shown(records, n, k, tolerance, minRepeat)| ==
             |View(records[..n], k)| + Due(records, n, k, tolerance, minRepeat)
    ensures Shows(Shown(records, n, k, tolerance, minRepeat) + Piece(records, n, k, tolerance, minRepeat),
                  View(records[..n + 1], k), Ahead(records, n + 1, k, tolerance), tolerance)
    ensures |Shown(records, n, k, tolerance, minRepeat)| + |Piece(records, n, k, tolerance, minRepeat)| ==
            |View(records[..n + 1], k)| + Due(records, n + 1, k, tolerance, minRepeat)
  {
    hide View, Shown, Piece, Raw, OpenRun, HeadOf, Members, Same, IsBarrier;
    ViewStep(records, n, k);
    PieceIs(records, n, k, tolerance, minRepeat);
    DueStep(records, n, k, tolerance, minRepeat);
    HeadStep(records, n, tolerance);
    DueIsOwed(records, n + 1, k, tolerance, minRepeat);
  }

  lemma {:induction false} MembersGrow(records: seq<Record>, h: nat, n: nat, m: nat, tolerance: real)
    requires n <= m <= |records|
    ensures |Members(records, n, h, tolerance)| <= |Members(records, m, h, tolerance)|
    decreases m
  {
    if n < m {
      MembersGrow(records, h, n, m - 1, tolerance);
      MembersStep(records, m - 1, h, tolerance);
    }
  }

  lemma DueIsOwed(records: seq<Record>, n: nat, k: Stream, tolerance: real, minRepeat: int)
    requires n <= |records|
    ensures Due(records, n, k, tolerance, minRepeat) >= 0
  {
    var h := OpenRun(records, n, k, tolerance);
    if h.Some? {
      MembersGrow(records, h.value, n, |records|, tolerance);
    }
  }

  lemma DueStep(records: seq<Record>, n: nat, k: Stream, tolerance: real, minRepeat: int)
    requires n < |records|
    ensures var r, head := records[n], HeadOf(records, n, tolerance);
            var due, due' := Due(records, n, k, tolerance, minRepeat), Due(records, n + 1, k, tolerance, minRepeat);
            if !IsBarrier(r) && r.content.stream != k then
              due' == due && OpenRun(records, n + 1, k, tolerance) == OpenRun(records, n, k, tolerance)
            else if IsBarrier(r) then due == due' == 0
            else if head == Some(n) then
              due == 0 && OpenRun(records, n + 1, k, tolerance) == Some(n) &&
              due' == if Long(records, n, tolerance, minRepeat) then |Members(records, |records|, n, tolerance)| - 1 else 0
            else
              && head == OpenRun(records, n, k, tolerance) == OpenRun(records, n + 1, k, tolerance) && head.Some?
              && Same(records[head.value], r, tolerance)
              && due == due' + if Long(records, head.value, tolerance, minRepeat) then 1 else 0
  {
    hide OpenRun, HeadOf, Members, IsBarrier, Same;
    OneMore(records, n, tolerance);
    assert OpenRun(records, n + 1, k, tolerance) == OpenAfter(records, n, k, tolerance);
    var before := OpenRun(records, n, k, tolerance);
    if before.Some? {
      HeadsAreHeads(records, n, k, tolerance);
      if OpenRun(records, n + 1, k, tolerance) != before {
        ClosedRunsStayClosed(records, before.value, n + 1, |records|, tolerance);
      }
    }
    if HeadOf(records, n, tolerance).Some? {
      HeadOfIsHead(records, n, tolerance);
    }
  }

  /** Lossless: expanding the consolidated log gives the reader of any stream as many entries as
      were recorded, barriers exactly in place and every entry the same as the recorded one within
      the tolerance. */
  lemma ConsolidationIsLossless(records: seq<Record>, k: Stream, tolerance: real, minRepeat: int)
    requires Raw(records)
    ensures var shown, original := View(Expand(Consolidated(records, tolerance, minRepeat)), k), View(records, k);
            && |shown| == |original|
            && forall p :: 0 <= p < |original| ==> Alike(shown[p], original[p], tolerance)
  {
    hide View, Expand, Output, Alike;
    PrefixIsShown(records, |records|, k, tolerance, minRepeat);
    hide Long, Members;
    assert records[..|records|] == records;
  }

  /** With tolerance 0 the expanded contents are exactly the recorded ones. */
  lemma ExactWithoutTolerance(records: seq<Record>, k: Stream, tolerance: real, minRepeat: int)
    requires Raw(records) && tolerance <= 0.0
    ensures var shown, original := View(Expand(Consolidated(records, tolerance, minRepeat)), k), View(records, k);
            && |shown| == |original|
            && forall p :: 0 <= p < |original| ==> shown[p].content == original[p].content
  {
    hide View, Expand, Consolidated;
    ConsolidationIsLossless(records, k, tolerance, minRepeat);
    var shown, original := View(Expand(Consolidated(records, tolerance, minRepeat)), k), View(records, k);
    forall p | 0 <= p < |original| ensures shown[p].content == original[p].content {
      assert Alike(shown[p], original[p], tolerance);
    }
  }

  // ---- repeat counts -------------------------------------------------------------------------

  /** Entries a consolidated log stands for: `repeat` for a merged entry, one for any other. */
  function Entries(out: seq<Record>): nat {
    if out == [] then 0
    else
      var last := out[|out| - 1];
      Entries(out[..|out| - 1]) + if last.run.Some? then last.run.value.repeat else 1
  }

  /** Members still to come after the first `n` entries, over the merged runs headed below `top`. */
  ghost function Owed(records: seq<Record>, top: nat, n: nat, tolerance: real, minRepeat: int): int
    requires top <= n <= |records|
  {
    if top == 0 then 0
    else
      var h := top - 1;
      Owed(records, h, n, tolerance, minRepeat) +
      if HeadOf(records, h, tolerance) == Some(h) && Long(records, h, tolerance, minRepeat) then
        |Members(records, |records|, h, tolerance)| - |Members(records, n, h, tolerance)|
      else 0
  }

  /** One more entry pays what its own run owes, and nothing else. */
  lemma {:induction false} OwedStep(records: seq<Record>, top: nat, n: nat, tolerance: real, minRepeat: int)
    requires top <= n < |records|
    ensures var h := HeadOf(records, n, tolerance);
            Owed(records, top, n + 1, tolerance, minRepeat) ==
            Owed(records, top, n, tolerance, minRepeat) -
            if h.Some? && h.value < top && Long(records, h.value, tolerance, minRepeat) then 1 else 0
  {
    hide HeadOf, Members, Long;
    if top > 0 {
      OwedStep(records, top - 1, n, tolerance, minRepeat);
      MembersStep(records, n, top - 1, tolerance);
      if HeadOf(records, n, tolerance).Some? {
        HeadOfIsHead(records, n, tolerance);
      }
    }
  }

  lemma {:induction false} NothingOwed(records: seq<Record>, top: nat, tolerance: real, minRepeat: int)
    requires top <= |records|
    ensures Owed(records, top, |records|, tolerance, minRepeat) == 0
  {
    if top > 0 {
      NothingOwed(records, top - 1, tolerance, minRepeat);
    }
  }

  lemma EntriesPush(out: seq<Record>, e: seq<Record>)
    requires |e| <= 1
    ensures Entries(out + e) ==
            Entries(out) + if e == [] then 0 else if e[0].run.Some? then e[0].run.value.repeat else 1
  {
    if e == [] {
      assert out + e == out;
    } else {
      assert (out + e)[..|out|] == out;
    }
  }

  /** How many entries the output for entry `n` stands for. */
  lemma Stands(records: seq<Record>, n: nat, tolerance: real, minRepeat: int)
    requires n < |records| && Raw(records)
    ensures var e, head := Emit(records, n, tolerance, minRepeat), HeadOf(records, n, tolerance);
      (if e == [] then 0 else if e[0].run.Some? then e[0].run.value.repeat else 1) ==
      if head.None? || !Long(records, head.value, tolerance, minRepeat) then 1
      else if head.value == n then |Members(records, |records|, n, tolerance)| else 0
  {
    hide HeadOf, Members, Raw, IsBarrier;
    RawAt(records, n);
    HeadStep(records, n, tolerance);
  }

  lemma {:induction false} EntriesSoFar(records: seq<Record>, n: nat, tolerance: real, minRepeat: int)
    requires n <= |records| && Raw(records)
    ensures Entries(Output(records, n, tolerance, minRepeat)) == n + Owed(records, n, n, tolerance, minRepeat)
  {
    hide HeadOf, Members, Raw, Entries, Emit, Long;
    if n > 0 {
      EntriesSoFar(records, n - 1, tolerance, minRepeat);
      Stands(records, n - 1, tolerance, minRepeat);
      if HeadOf(records, n - 1, tolerance).Some? {
        HeadOfIsHead(records, n - 1, tolerance);
      }
      NoMembersBefore(records, n - 1, n - 1, tolerance);
      MembersStep(records, n - 1, n - 1, tolerance);
      OwedStep(records, n - 1, n - 1, tolerance, minRepeat);
      EntriesPush(Output(records, n - 1, tolerance, minRepeat), Emit(records, n - 1, tolerance, minRepeat));
    } else {
      NoEntries();
    }
  }

  lemma NoEntries()
    ensures Entries([]) == 0
  {
  }

  /** The repeat counts of the output sum to the number of input entries. */
  lemma RepeatCountsSumUp(records: seq<Record>, tolerance: real, minRepeat: int)
    requires Raw(records)
    ensures Entries(Consolidated(records, tolerance, minRepeat)) == |records|
  {
    EntriesSoFar(records, |records|, tolerance, minRepeat);
    NothingOwed(records, |records|, tolerance, minRepeat);
  }

  // ---- a second pass -------------------------------------------------------------------------

  ghost function Pos(records: seq<Record>, n: nat, tolerance: real, minRepeat: int): nat
    requires n <= |records|
  {
    |Output(records, n, tolerance, minRepeat)|
  }

  lemma {:induction false} OutputGrows(records: seq<Record>, n: nat, m: nat, tolerance: real, minRepeat: int)
    requires n <= m <= |records|
    ensures Output(records, n, tolerance, minRepeat) <= Output(records, m, tolerance, minRepeat)
    decreases m
  {
    hide Emit;
    if n < m {
      OutputGrows(records, n, m - 1, tolerance, minRepeat);
    }
  }

  /** An entry and what it became agree on everything that is ever compared. */
  lemma EmitKeepsContent(records: seq<Record>, n: nat, tolerance: real, minRepeat: int)
    requires n < |records|
    ensures var e := Emit(records, n, tolerance, minRepeat);
            && (e != [] ==>
                  && e[0].content == records[n].content && e[0].stamp == records[n].stamp
                  && (IsSession(records[n]) ==> e[0].consolidated))
            && (e == [] <==>
                  && !IsSession(records[n])
                  && HeadOf(records, n, tolerance).Some? && HeadOf(records, n, tolerance) != Some(n)
                  && Long(records, HeadOf(records, n, tolerance).value, tolerance, minRepeat))
  {
    hide HeadOf, Members, Long;
  }

  lemma EmittedAt(records: seq<Record>, n: nat, tolerance: real, minRepeat: int)
    requires n < |records|
    ensures var out, p, e := Consolidated(records, tolerance, minRepeat), Pos(records, n, tolerance, minRepeat), Emit(records, n, tolerance, minRepeat);
            && Pos(records, n + 1, tolerance, minRepeat) == p + |e|
            && (e != [] ==> p < |out| && out[p] == e[0])
  {
    hide Emit;
    OutputStep(records, n, tolerance, minRepeat);
    OutputGrows(records, n + 1, |records|, tolerance, minRepeat);
  }

  /** Where a run head went. */
  ghost function Moved(records: seq<Record>, h: Option<nat>, tolerance: real, minRepeat: int): Option<nat>
    requires h.Some? ==> h.value <= |records|
  {
    if h.Some? then Some(Pos(records, h.value, tolerance, minRepeat)) else None
  }

  lemma NothingOpen(records: seq<Record>, k: Stream, tolerance: real, minRepeat: int)
    ensures Pos(records, 0, tolerance, minRepeat) == 0
    ensures OpenRun(Consolidated(records, tolerance, minRepeat), 0, k, tolerance) == None
    ensures OpenRun(records, 0, k, tolerance) == None
  {
  }

  /** The second pass has open runs exactly where the first had, at the moved heads. */
  lemma {:induction false} OpenRunsMove(records: seq<Record>, n: nat, k: Stream, tolerance: real, minRepeat: int)
    requires n <= |records|
    ensures Pos(records, n, tolerance, minRepeat) <= |Consolidated(records, tolerance, minRepeat)|
    ensures OpenRun(Consolidated(records, tolerance, minRepeat), Pos(records, n, tolerance, minRepeat), k, tolerance) ==
            Moved(records, OpenRun(records, n, k, tolerance), tolerance, minRepeat)
  {
    hide OpenRun, Output;
    OutputGrows(records, n, |records|, tolerance, minRepeat);
    if n == 0 {
      NothingOpen(records, k, tolerance, minRepeat);
    } else {
      OpenRunsMove(records, n - 1, k, tolerance, minRepeat);
      OpenRunMoves(records, n - 1, k, tolerance, minRepeat);
    }
  }

  /** Comparing looks at contents only. */
  lemma SameByContent(a: Record, b: Record, a': Record, b': Record, tolerance: real)
    requires a.content == a'.content && b.content == b'.content
    ensures Same(a, b, tolerance) == Same(a', b', tolerance)
    ensures IsBarrier(a) == IsBarrier(a') && IsSession(a) == IsSession(a')
  {
  }

  lemma HeadMoved(records: seq<Record>, h: nat, tolerance: real, minRepeat: int)
    requires h < |records| && HeadOf(records, h, tolerance) == Some(h)
    ensures var out, p := Consolidated(records, tolerance, minRepeat), Pos(records, h, tolerance, minRepeat);
            p < |out| && out[p].content == records[h].content
    ensures Pos(records, h + 1, tolerance, minRepeat) == Pos(records, h, tolerance, minRepeat) + 1
  {
    hide Emit, HeadOf, Long;
    EmitKeepsContent(records, h, tolerance, minRepeat);
    EmittedAt(records, h, tolerance, minRepeat);
  }

  lemma OpenRunMoves(records: seq<Record>, n: nat, k: Stream, tolerance: real, minRepeat: int)
    requires n < |records|
    requires Pos(records, n, tolerance, minRepeat) <= |Consolidated(records, tolerance, minRepeat)|
    requires Pos(records, n + 1, tolerance, minRepeat) <= |Consolidated(records, tolerance, minRepeat)|
    requires OpenRun(Consolidated(records, tolerance, minRepeat), Pos(records, n, tolerance, minRepeat), k, tolerance) ==
             Moved(records, OpenRun(records, n, k, tolerance), tolerance, minRepeat)
    ensures OpenRun(Consolidated(records, tolerance, minRepeat), Pos(records, n + 1, tolerance, minRepeat), k, tolerance) ==
            Moved(records, OpenRun(records, n + 1, k, tolerance), tolerance, minRepeat)
  {
    hide OpenRun, HeadOf, Members, Same, IsBarrier, IsSession, Emit, Long, Consolidated, Pos;
    var out, p := Consolidated(records, tolerance, minRepeat), Pos(records, n, tolerance, minRepeat);
    EmitKeepsContent(records, n, tolerance, minRepeat);
    EmittedAt(records, n, tolerance, minRepeat);
    OpenStep(records, n, k, tolerance);
    HeadStep(records, n, tolerance);
    var before := OpenRun(records, n, k, tolerance);
    if before.Some? {
      HeadsAreHeads(records, n, k, tolerance);
      HeadMoved(records, before.value, tolerance, minRepeat);
    }
    if Emit(records, n, tolerance, minRepeat) != [] {
      OpenStep(out, p, k, tolerance);
      HeadStep(out, p, tolerance);
      if before.Some? {
        SameByContent(out[p], out[p], records[n], records[n], tolerance);
        SameByContent(out[Pos(records, before.value, tolerance, minRepeat)], out[p], records[before.value], records[n], tolerance);
      } else {
        SameByContent(out[p], out[p], records[n], records[n], tolerance);
      }
    }
  }

  lemma HeadsMove(records: seq<Record>, n: nat, tolerance: real, minRepeat: int)
    requires n < |records| && Emit(records, n, tolerance, minRepeat) != []
    ensures var out, p := Consolidated(records, tolerance, minRepeat), Pos(records, n, tolerance, minRepeat);
            && p < |out| && Pos(records, n + 1, tolerance, minRepeat) == p + 1
            && out[p] == Emit(records, n, tolerance, minRepeat)[0]
            && HeadOf(out, p, tolerance) == Moved(records, HeadOf(records, n, tolerance), tolerance, minRepeat)
  {
    hide OpenRun, Members, Emit, Long, Consolidated, Pos, Moved;
    EmitKeepsContent(records, n, tolerance, minRepeat);
    EmittedAt(records, n, tolerance, minRepeat);
    OpenRunsMove(records, n + 1, records[n].content.stream, tolerance, minRepeat);
  }

  lemma PosGrows(records: seq<Record>, n: nat, m: nat, tolerance: real, minRepeat: int)
    requires n <= m <= |records|
    ensures Pos(records, n, tolerance, minRepeat) <= Pos(records, m, tolerance, minRepeat)
  {
    hide Output;
    OutputGrows(records, n, m, tolerance, minRepeat);
  }

  lemma HeadsApart(records: seq<Record>, a: nat, b: nat, tolerance: real, minRepeat: int)
    requires a < |records| && b < |records|
    requires HeadOf(records, a, tolerance) == Some(a) && HeadOf(records, b, tolerance) == Some(b)
    requires Pos(records, a, tolerance, minRepeat) == Pos(records, b, tolerance, minRepeat)
    ensures a == b
  {
    hide HeadOf, Pos, Consolidated;
    HeadMoved(records, a, tolerance, minRepeat);
    HeadMoved(records, b, tolerance, minRepeat);
    if a < b {
      PosGrows(records, a + 1, b, tolerance, minRepeat);
    } else if b < a {
      PosGrows(records, b + 1, a, tolerance, minRepeat);
    }
  }

  /** A merged run is one entry in the second pass; any other run keeps its members. */
  ghost function Left(records: seq<Record>, n: nat, h: nat, tolerance: real, minRepeat: int): nat
    requires n <= |records| && h < |records|
  {
    if !Long(records, h, tolerance, minRepeat) then |Members(records, n, h, tolerance)|
    else if h < n then 1
    else 0
  }

  lemma {:induction false} MembersMove(records: seq<Record>, n: nat, h: nat, tolerance: real, minRepeat: int)
    requires n <= |records| && h < |records| && HeadOf(records, h, tolerance) == Some(h)
    ensures Pos(records, n, tolerance, minRepeat) <= |Consolidated(records, tolerance, minRepeat)|
    ensures |Members(Consolidated(records, tolerance, minRepeat), Pos(records, n, tolerance, minRepeat),
                     Pos(records, h, tolerance, minRepeat), tolerance)| ==
            Left(records, n, h, tolerance, minRepeat)
  {
    hide HeadOf, Members, Long, Output, Emit;
    OutputGrows(records, n, |records|, tolerance, minRepeat);
    if n > 0 {
      MembersMove(records, n - 1, h, tolerance, minRepeat);
      MemberMoves(records, n - 1, h, tolerance, minRepeat);
    } else {
      NoMembersYet(records, h, tolerance, minRepeat);
    }
  }

  lemma NoMembersYet(records: seq<Record>, h: nat, tolerance: real, minRepeat: int)
    ensures Pos(records, 0, tolerance, minRepeat) == 0
    ensures forall rs, g: nat :: Members(rs, 0, g, tolerance) == []
  {
  }

  lemma MemberMoves(records: seq<Record>, n: nat, h: nat, tolerance: real, minRepeat: int)
    requires n < |records| && h < |records| && HeadOf(records, h, tolerance) == Some(h)
    requires Pos(records, n, tolerance, minRepeat) <= |Consolidated(records, tolerance, minRepeat)|
    requires Pos(records, n + 1, tolerance, minRepeat) <= |Consolidated(records, tolerance, minRepeat)|
    requires |Members(Consolidated(records, tolerance, minRepeat), Pos(records, n, tolerance, minRepeat),
                      Pos(records, h, tolerance, minRepeat), tolerance)| ==
             Left(records, n, h, tolerance, minRepeat)
    ensures |Members(Consolidated(records, tolerance, minRepeat), Pos(records, n + 1, tolerance, minRepeat),
                     Pos(records, h, tolerance, minRepeat), tolerance)| ==
            Left(records, n + 1, h, tolerance, minRepeat)
  {
    hide HeadOf, Members, Long, Pos, Emit, Consolidated;
    EmitKeepsContent(records, n, tolerance, minRepeat);
    EmittedAt(records, n, tolerance, minRepeat);
    MembersStep(records, n, h, tolerance);
    if HeadOf(records, n, tolerance).Some? {
      HeadOfIsHead(records, n, tolerance);
    }
    if Emit(records, n, tolerance, minRepeat) != [] {
      var out, p := Consolidated(records, tolerance, minRepeat), Pos(records, n, tolerance, minRepeat);
      HeadsMove(records, n, tolerance, minRepeat);
      MembersStep(out, p, Pos(records, h, tolerance, minRepeat), tolerance);
      if HeadOf(records, n, tolerance).Some? && Pos(records, HeadOf(records, n, tolerance).value, tolerance, minRepeat) == Pos(records, h, tolerance, minRepeat) {
        HeadsApart(records, HeadOf(records, n, tolerance).value, h, tolerance, minRepeat);
      }
    }
  }

  /** The entry an output position came from. */
  lemma {:induction false} Source(records: seq<Record>, q: nat, n: nat, tolerance: real, minRepeat: int) returns (i: nat)
    requires n <= |records| && q < Pos(records, n, tolerance, minRepeat)
    ensures i < |records| && Emit(records, i, tolerance, minRepeat) != []
    ensures Pos(records, i, tolerance, minRepeat) == q
    decreases n
  {
    hide Emit;
    EmittedAt(records, n - 1, tolerance, minRepeat);
    if q < Pos(records, n - 1, tolerance, minRepeat) {
      i := Source(records, q, n - 1, tolerance, minRepeat);
    } else {
      i := n - 1;
    }
  }

  /** Entries of the output come from entries of the input, in the input's order. */
  lemma OutputKeepsOrder(records: seq<Record>, q: nat, q': nat, tolerance: real, minRepeat: int) returns (i: nat, i': nat)
    requires q < q' < |Consolidated(records, tolerance, minRepeat)|
    ensures i < i' < |records|
    ensures var out := Consolidated(records, tolerance, minRepeat);
            && out[q].content == records[i].content && out[q].stamp == records[i].stamp
            && out[q'].content == records[i'].content && out[q'].stamp == records[i'].stamp
  {
    hide Pos, Consolidated, Emit;
    AllEmitted(records, tolerance, minRepeat);
    i := Source(records, q, |records|, tolerance, minRepeat);
    i' := Source(records, q', |records|, tolerance, minRepeat);
    EmittedAt(records, i, tolerance, minRepeat);
    EmittedAt(records, i', tolerance, minRepeat);
    EmitKeepsContent(records, i, tolerance, minRepeat);
    EmitKeepsContent(records, i', tolerance, minRepeat);
    if i' < i {
      PosGrows(records, i', i, tolerance, minRepeat);
    }
  }

  lemma SecondEmit(records: seq<Record>, q: nat, tolerance: real, minRepeat: int)
    requires q < |Consolidated(records, tolerance, minRepeat)|
    ensures var out := Consolidated(records, tolerance, minRepeat);
            Emit(out, q, tolerance, minRepeat) == [out[q]]
  {
    hide HeadOf, Members, Pos, Consolidated;
    var out := Consolidated(records, tolerance, minRepeat);
    AllEmitted(records, tolerance, minRepeat);
    var n := Source(records, q, |records|, tolerance, minRepeat);
    HeadsMove(records, n, tolerance, minRepeat);
    EmitKeepsContent(records, n, tolerance, minRepeat);
    SameByContent(out[q], out[q], records[n], records[n], tolerance);
    if HeadOf(records, n, tolerance).Some? {
      var h := HeadOf(records, n, tolerance).value;
      HeadOfIsHead(records, n, tolerance);
      MembersMove(records, |records|, h, tolerance, minRepeat);
    }
    assert out[q].(consolidated := out[q].consolidated) == out[q];
  }

  lemma AllEmitted(records: seq<Record>, tolerance: real, minRepeat: int)
    ensures Pos(records, |records|, tolerance, minRepeat) == |Consolidated(records, tolerance, minRepeat)|
  {
  }

  lemma {:induction false} IdentityOutput(out: seq<Record>, n: nat, tolerance: real, minRepeat: int)
    requires n <= |out|
    requires forall q :: 0 <= q < |out| ==> Emit(out, q, tolerance, minRepeat) == [out[q]]
    ensures Output(out, n, tolerance, minRepeat) == out[..n]
  {
    hide Emit;
    if n > 0 {
      IdentityOutput(out, n - 1, tolerance, minRepeat);
    }
  }

  /** Idempotent: consolidating a consolidated log again, with the same tolerance and threshold,
      changes nothing. */
  lemma ConsolidationIsIdempotent(records: seq<Record>, tolerance: real, minRepeat: int)
    ensures var out := Consolidated(records, tolerance, minRepeat);
            Consolidated(out, tolerance, minRepeat) == out
  {
    hide Emit, Output;
    var out := Consolidated(records, tolerance, minRepeat);
    forall q | 0 <= q < |out| ensures Emit(out, q, tolerance, minRepeat) == [out[q]] {
      SecondEmit(records, q, tolerance, minRepeat);
    }
    IdentityOutput(out, |out|, tolerance, minRepeat);
  }

  // ---- what a merged entry says about its run ------------------------------------------------

  lemma {:induction false} LastMember(records: seq<Record>, n: nat, h: nat, tolerance: real)
    requires n <= |records| && Members(records, n, h, tolerance) != []
    ensures var run := Members(records, n, h, tolerance);
            var j := run[|run| - 1];
            && HeadOf(records, j, tolerance) == Some(h)
            && forall i :: j < i < n ==> HeadOf(records, i, tolerance) != Some(h)
  {
    hide HeadOf;
    if HeadOf(records, n - 1, tolerance) != Some(h) {
      assert Members(records, n, h, tolerance) == Members(records, n - 1, h, tolerance);
      LastMember(records, n - 1, h, tolerance);
    }
  }

  lemma {:induction false} MembersAre(records: seq<Record>, n: nat, h: nat, tolerance: real)
    requires n <= |records|
    ensures |Members(records, n, h, tolerance)| == |RunUpTo(records, n, h, tolerance)|
  {
    hide HeadOf;
    if n > 0 {
      MembersAre(records, n - 1, h, tolerance);
      var before := RunUpTo(records, n - 1, h, tolerance);
      assert RunUpTo(records, n, h, tolerance) ==
        if HeadOf(records, n - 1, tolerance) == Some(h) then before + {n - 1} else before;
    }
  }

  /** The entries among the first `n` of the run headed by `h`. */
  ghost function RunUpTo(records: seq<Record>, n: nat, h: nat, tolerance: real): set<nat>
    requires n <= |records|
  {
    set i: nat | i < n && HeadOf(records, i, tolerance) == Some(h)
  }

  /** How many entries the run headed by `h` has. */
  ghost function Count(records: seq<Record>, h: nat, tolerance: real): nat {
    |RunUpTo(records, |records|, h, tolerance)|
  }

  /** Every entry has its place in the output, and what stands there: a session record marked, the
      head of a run of at least two and at least `minRepeat` entries with its count, any other entry
      of such a run left out, and everything else verbatim. */
  lemma OutputIs(records: seq<Record>, n: nat, tolerance: real, minRepeat: int)
    requires n < |records|
    ensures Pos(records, 0, tolerance, minRepeat) == 0
    ensures Pos(records, |records|, tolerance, minRepeat) == |Consolidated(records, tolerance, minRepeat)|
    ensures var out, r, head := Consolidated(records, tolerance, minRepeat), records[n], HeadOf(records, n, tolerance);
      var p := Pos(records, n, tolerance, minRepeat);
      var merged := head.Some? && var m := Count(records, head.value, tolerance); m >= 2 && m >= minRepeat;
      if merged && head.value != n then Pos(records, n + 1, tolerance, minRepeat) == p
      else
        && Pos(records, n + 1, tolerance, minRepeat) == p + 1 <= |out|
        && (r.content.stream.kind == "session" ==> out[p] == r.(consolidated := true))
        && (r.content.stream.kind != "session" && !merged ==> out[p] == r)
        && (merged ==>
              && out[p] == r.(run := out[p].run)
              && out[p].run.Some? && out[p].run.value.repeat == Count(records, n, tolerance))
  {
    hide HeadOf, Members, RunUpTo, Consolidated, Pos;
    EmittedAt(records, n, tolerance, minRepeat);
    AllEmitted(records, tolerance, minRepeat);
    PosGrows(records, n + 1, |records|, tolerance, minRepeat);
    HeadStep(records, n, tolerance);
    NothingOpen(records, records[n].content.stream, tolerance, minRepeat);
    if HeadOf(records, n, tolerance).Some? {
      MembersAre(records, |records|, HeadOf(records, n, tolerance).value, tolerance);
    }
  }

  lemma HeadBecomes(records: seq<Record>, h: nat, tolerance: real, minRepeat: int)
    requires h < |records| && HeadOf(records, h, tolerance) == Some(h)
    ensures var run, r := Members(records, |records|, h, tolerance), records[h];
      Emit(records, h, tolerance, minRepeat) ==
      if |run| >= 2 && |run| >= minRepeat then [Merged(r, records[run[|run| - 1]], |run|)] else [r]
  {
    hide HeadOf, Members;
    HeadStep(records, h, tolerance);
  }

  /** An entry of a recording heads a merged entry exactly when its run has at least two and at least
      `minRepeat` entries. That entry is the run's first and ends with the run's last: its time, its
      clock and, where they drifted, its values. */
  lemma MergedSpansItsRun(records: seq<Record>, h: nat, tolerance: real, minRepeat: int) returns (last: nat)
    requires h < |records| && HeadOf(records, h, tolerance) == Some(h) && Raw(records)
    ensures last < |records| && HeadOf(records, last, tolerance) == Some(h)
    ensures forall i :: last < i < |records| ==> HeadOf(records, i, tolerance) != Some(h)
    ensures var out, p := Consolidated(records, tolerance, minRepeat), Pos(records, h, tolerance, minRepeat);
      p < |out| && (out[p].run.Some? <==> Count(records, h, tolerance) >= 2 && Count(records, h, tolerance) >= minRepeat)
    ensures var e, r, z := Consolidated(records, tolerance, minRepeat)[Pos(records, h, tolerance, minRepeat)], records[h], records[last];
      e.run.Some? ==>
        && e == r.(run := Some(e.run.value.(repeat := Count(records, h, tolerance), tEnd := z.stamp.t, utcEnd := z.stamp.utc)))
        && (if r.stamp.t.Some? && z.stamp.t.Some?
            then e.run.value.duration == Some(z.stamp.t.value - r.stamp.t.value)
            else e.run.value.duration == None)
        && e.run.value.valuesEnd == if z.content.values != r.content.values then z.content.values else None
  {
    hide HeadOf, Members, RunUpTo, Consolidated, Pos, Emit, Long;
    HeadBecomes(records, h, tolerance, minRepeat);
    RawAt(records, h);
    MembersStep(records, h, h, tolerance);
    MembersGrow(records, h, h + 1, |records|, tolerance);
    LastMember(records, |records|, h, tolerance);
    MembersAre(records, |records|, h, tolerance);
    EmittedAt(records, h, tolerance, minRepeat);
    var run := Members(records, |records|, h, tolerance);
    last := run[|run| - 1];
  }
}
