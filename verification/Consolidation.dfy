/** Condensing a log: runs of repeated entries of one stream become their first entry plus a
    repeat count. */
module Consolidation {
  import opened Common

  /** A JSON scalar, with the number `float()` reads from it, if any. */
  datatype Value = Value(text: string, number: Option<real>)

  /** What identifies a stream of entries. */
  datatype Stream = Stream(kind: string, conn: Option<int>, dir: Option<string>, tag: Option<string>,
                           device: Option<string>, property: Option<string>)

  /** Everything that is compared; `rest` holds the remaining compared fields. */
  datatype Content = Content(stream: Stream, values: Option<map<string, Value>>, rest: map<string, string>)

  /** Fields that are never compared. */
  datatype Stamp = Stamp(seqNo: int, t: Option<real>, utc: Option<string>)

  /** Fields a merged entry gains. */
  datatype RunInfo = RunInfo(repeat: nat, tEnd: Option<real>, utcEnd: Option<string>,
                             duration: Option<real>, valuesEnd: Option<map<string, Value>>)

  datatype Record = Record(content: Content, stamp: Stamp, run: Option<RunInfo>, consolidated: bool)

  const BARRIERS := {"session", "capture", "connect", "close", "call", "return", "error",
                     "motion_start", "motion_end", "decode_error"}

  predicate IsBarrier(r: Record) {
    var s := r.content.stream;
    s.kind in BARRIERS || (s.kind == "send" && s.tag.Some? && "new" <= s.tag.value)
  }

  predicate IsSession(r: Record) { r.content.stream.kind == "session" }

  /** Equal texts, or numbers within the tolerance. */
  predicate NearValue(want: Value, got: Value, tolerance: real) {
    want == got ||
    (want.number.Some? && got.number.Some? && Abs(want.number.value - got.number.value) <= tolerance)
  }

  predicate Near(a: map<string, Value>, b: map<string, Value>, tolerance: real) {
    a.Keys == b.Keys && forall name :: name in a.Keys ==> NearValue(a[name], b[name], tolerance)
  }

  predicate Same(first: Record, r: Record, tolerance: real) {
    var a, b := first.content, r.content;
    a == b ||
    (tolerance > 0.0 && a.stream == b.stream && a.rest == b.rest &&
     a.values.Some? && b.values.Some? && Near(a.values.value, b.values.value, tolerance))
  }

  function Merged(head: Record, last: Record, count: nat): Record {
    var ends :=
      if last.content.values != head.content.values then last.content.values
      else if head.run.Some? then head.run.value.valuesEnd
      else None;
    var duration :=
      if head.stamp.t.Some? && last.stamp.t.Some? then Some(last.stamp.t.value - head.stamp.t.value) else None;
    head.(run := Some(RunInfo(count, last.stamp.t, last.stamp.utc, duration, ends)))
  }

  // ---- which entries form a run --------------------------------------------------------------

  /** Head of the run of stream `k` that is open after the first `n` entries. */
  function OpenRun(records: seq<Record>, n: nat, k: Stream, tolerance: real): (h: Option<nat>)
    requires n <= |records|
    ensures h.Some? ==> h.value < n
  {
    if n == 0 then None
    else
      var r := records[n - 1];
      if IsBarrier(r) then None
      else if r.content.stream != k then OpenRun(records, n - 1, k, tolerance)
      else
        var before := OpenRun(records, n - 1, k, tolerance);
        if before.Some? && Same(records[before.value], r, tolerance) then before else Some(n - 1)
  }

  /** Head of the run entry `i` belongs to; barriers belong to none. */
  function HeadOf(records: seq<Record>, i: nat, tolerance: real): (h: Option<nat>)
    requires i < |records|
    ensures h.Some? ==> h.value <= i
  {
    OpenRun(records, i + 1, records[i].content.stream, tolerance)
  }

  /** The entries among the first `n` whose run starts at `h`. */
  function Members(records: seq<Record>, n: nat, h: nat, tolerance: real): (run: seq<nat>)
    requires n <= |records|
    ensures |run| <= n && forall j :: 0 <= j < |run| ==> run[j] < n
  {
    if n == 0 then []
    else
      Members(records, n - 1, h, tolerance) +
      if HeadOf(records, n - 1, tolerance) == Some(h) then [n - 1] else []
  }

  function Threshold(minRepeat: int): nat { if minRepeat > 2 then minRepeat else 2 }

  predicate Long(records: seq<Record>, h: nat, tolerance: real, minRepeat: int) {
    |Members(records, |records|, h, tolerance)| >= Threshold(minRepeat)
  }

  /** What entry `i` becomes: itself, its merged run, or nothing. */
  function Emit(records: seq<Record>, i: nat, tolerance: real, minRepeat: int): (out: seq<Record>)
    requires i < |records|
    ensures |out| <= 1
  {
    var r := records[i];
    if IsSession(r) then [r.(consolidated := true)]
    else
      var head := HeadOf(records, i, tolerance);
      if head.None? || !Long(records, head.value, tolerance, minRepeat) then [r]
      else if head.value == i then
        var run := Members(records, |records|, i, tolerance);
        [Merged(r, records[run[|run| - 1]], |run|)]
      else []
  }

  function Output(records: seq<Record>, n: nat, tolerance: real, minRepeat: int): seq<Record>
    requires n <= |records|
  {
    if n == 0 then []
    else Output(records, n - 1, tolerance, minRepeat) + Emit(records, n - 1, tolerance, minRepeat)
  }

  function Consolidated(records: seq<Record>, tolerance: real, minRepeat: int): seq<Record> {
    Output(records, |records|, tolerance, minRepeat)
  }

  // ---- the two loops -------------------------------------------------------------------------

  function Lookup(m: map<Stream, nat>, k: Stream): Option<nat> { if k in m then Some(m[k]) else None }

  /** `openRuns` holds the runs open after the first `n` entries. */
  ghost predicate OpenFound(records: seq<Record>, n: nat, tolerance: real, openRuns: map<Stream, nat>)
    requires n <= |records|
  {
    forall k :: OpenRun(records, n, k, tolerance) == Lookup(openRuns, k)
  }

  /** `members` holds every run among the first `n` entries, with its members. */
  ghost predicate MembersFound(records: seq<Record>, n: nat, tolerance: real, members: map<nat, seq<nat>>)
    requires n <= |records|
  {
    && (forall h: nat :: h < n && HeadOf(records, h, tolerance) == Some(h) ==> h in members)
    && (forall h :: h in members ==> members[h] == Members(records, n, h, tolerance))
    && (forall h: nat :: h !in members ==> Members(records, n, h, tolerance) == [])
  }

  lemma NothingFound(records: seq<Record>, tolerance: real)
    ensures OpenFound(records, 0, tolerance, map[]) && MembersFound(records, 0, tolerance, map[])
  {}

  lemma BarrierFound(records: seq<Record>, n: nat, tolerance: real, members: map<nat, seq<nat>>)
    requires n < |records| && MembersFound(records, n, tolerance, members) && IsBarrier(records[n])
    ensures HeadOf(records, n, tolerance) == None
    ensures OpenFound(records, n + 1, tolerance, map[]) && MembersFound(records, n + 1, tolerance, members)
  {
    hide OpenRun, HeadOf, Members, IsBarrier;
    OneMore(records, n, tolerance);
    forall k ensures OpenRun(records, n + 1, k, tolerance) == Lookup(map[], k) {
      assert OpenRun(records, n + 1, k, tolerance) == OpenAfter(records, n, k, tolerance);
    }
  }

  lemma JoinFound(records: seq<Record>, n: nat, tolerance: real, openRuns: map<Stream, nat>, members: map<nat, seq<nat>>)
    requires n < |records| && OpenFound(records, n, tolerance, openRuns) && MembersFound(records, n, tolerance, members)
    requires !IsBarrier(records[n]) && records[n].content.stream in openRuns
    requires openRuns[records[n].content.stream] < n
    requires Same(records[openRuns[records[n].content.stream]], records[n], tolerance)
    ensures var head := openRuns[records[n].content.stream];
      && HeadOf(records, n, tolerance) == Some(head) && head in members
      && OpenFound(records, n + 1, tolerance, openRuns)
      && MembersFound(records, n + 1, tolerance, members[head := members[head] + [n]])
  {
    hide OpenRun, HeadOf, Members, Same, IsBarrier;
    var key := records[n].content.stream;
    OneMore(records, n, tolerance);
    assert OpenRun(records, n, key, tolerance) == Lookup(openRuns, key);
    HeadsAreHeads(records, n, key, tolerance);
    forall k ensures OpenRun(records, n + 1, k, tolerance) == Lookup(openRuns, k) {
      assert OpenRun(records, n + 1, k, tolerance) == OpenAfter(records, n, k, tolerance);
      assert OpenRun(records, n, k, tolerance) == Lookup(openRuns, k);
    }
  }

  lemma StartFound(records: seq<Record>, n: nat, tolerance: real, openRuns: map<Stream, nat>, members: map<nat, seq<nat>>)
    requires n < |records| && OpenFound(records, n, tolerance, openRuns) && MembersFound(records, n, tolerance, members)
    requires !IsBarrier(records[n])
    requires var key := records[n].content.stream;
      key in openRuns ==> openRuns[key] < n && !Same(records[openRuns[key]], records[n], tolerance)
    ensures HeadOf(records, n, tolerance) == Some(n)
    ensures OpenFound(records, n + 1, tolerance, openRuns[records[n].content.stream := n])
    ensures MembersFound(records, n + 1, tolerance, members[n := [n]])
  {
    hide OpenRun, HeadOf, Members, Same, IsBarrier;
    var key := records[n].content.stream;
    OneMore(records, n, tolerance);
    assert OpenRun(records, n, key, tolerance) == Lookup(openRuns, key);
    var after := openRuns[key := n];
    forall k ensures OpenRun(records, n + 1, k, tolerance) == Lookup(after, k) {
      assert OpenRun(records, n + 1, k, tolerance) == OpenAfter(records, n, k, tolerance);
      assert OpenRun(records, n, k, tolerance) == Lookup(openRuns, k);
    }
  }

  lemma OpenIsEarlier(records: seq<Record>, n: nat, tolerance: real, openRuns: map<Stream, nat>, k: Stream)
    requires n <= |records| && OpenFound(records, n, tolerance, openRuns) && k in openRuns
    ensures openRuns[k] < n
  {
    assert OpenRun(records, n, k, tolerance) == Lookup(openRuns, k);
  }

  /** First pass: the run each entry belongs to, and the members of every run. */
  method FindRuns(records: seq<Record>, tolerance: real)
    returns (runOf: seq<Option<nat>>, members: map<nat, seq<nat>>)
    ensures |runOf| == |records|
    ensures forall i :: 0 <= i < |records| ==> runOf[i] == HeadOf(records, i, tolerance)
    ensures forall h: nat :: h < |records| && HeadOf(records, h, tolerance) == Some(h) ==> h in members
    ensures forall h :: h in members ==> members[h] == Members(records, |records|, h, tolerance)
  {
    hide OpenRun, HeadOf, Members, Same, IsBarrier, OpenFound;
    runOf, members := [], map[];
    var openRuns: map<Stream, nat> := map[];
    NothingFound(records, tolerance);
    for index := 0 to |records|
      invariant |runOf| == index
      invariant forall i :: 0 <= i < index ==> runOf[i] == HeadOf(records, i, tolerance)
      invariant OpenFound(records, index, tolerance, openRuns) && MembersFound(records, index, tolerance, members)
    {
      hide MembersFound;
      var r := records[index];
      var key := r.content.stream;
      if key in openRuns {
        OpenIsEarlier(records, index, tolerance, openRuns, key);
      }
      if IsBarrier(r) {
        BarrierFound(records, index, tolerance, members);
        openRuns := map[];
        runOf := runOf + [None];
      } else if key in openRuns && Same(records[openRuns[key]], r, tolerance) {
        JoinFound(records, index, tolerance, openRuns, members);
        var head := openRuns[key];
        runOf := runOf + [Some(head)];
        members := members[head := members[head] + [index]];
      } else {
        StartFound(records, index, tolerance, openRuns, members);
        openRuns := openRuns[key := index];
        runOf := runOf + [Some(index)];
        members := members[index := [index]];
      }
    }
  }

  method Consolidate(records: seq<Record>, tolerance: real, minRepeat: int) returns (out: seq<Record>)
    ensures out == Consolidated(records, tolerance, minRepeat)
  {
    hide OpenRun, HeadOf, Members, Merged, Output;
    var runOf, members := FindRuns(records, tolerance);
    out := [];
    OutputStep(records, 0, tolerance, minRepeat);
    for index := 0 to |records|
      invariant out == Output(records, index, tolerance, minRepeat)
    {
      OutputStep(records, index, tolerance, minRepeat);
      var r := records[index];
      if IsSession(r) {
        out := out + [r.(consolidated := true)];
      } else {
        var head := runOf[index];
        if head.Some? {
          HeadOfIsHead(records, index, tolerance);
        }
        var run := if head.Some? && head.value in members then members[head.value] else [];
        if |run| < Threshold(minRepeat) {
          out := out + [r];
        } else if head == Some(index) {
          out := out + [Merged(r, records[run[|run| - 1]], |run|)];
        }
      }
    }
  }

  lemma OutputStep(records: seq<Record>, n: nat, tolerance: real, minRepeat: int)
    requires n <= |records|
    ensures Output(records, 0, tolerance, minRepeat) == []
    ensures n < |records| ==>
              Output(records, n + 1, tolerance, minRepeat) ==
              Output(records, n, tolerance, minRepeat) + Emit(records, n, tolerance, minRepeat)
  {
  }

  /** The open run entry `n` continues, if any. */
  predicate Joins(records: seq<Record>, n: nat, tolerance: real)
    requires n < |records|
  {
    var before := OpenRun(records, n, records[n].content.stream, tolerance);
    !IsBarrier(records[n]) && before.Some? && Same(records[before.value], records[n], tolerance)
  }

  lemma HeadStep(records: seq<Record>, n: nat, tolerance: real)
    requires n < |records|
    ensures HeadOf(records, n, tolerance) ==
            if IsBarrier(records[n]) then None
            else if Joins(records, n, tolerance) then OpenRun(records, n, records[n].content.stream, tolerance)
            else Some(n)
  {
  }

  /** The open runs after entry `n`. */
  function OpenAfter(records: seq<Record>, n: nat, k: Stream, tolerance: real): Option<nat>
    requires n < |records|
  {
    if IsBarrier(records[n]) then None
    else if k == records[n].content.stream then HeadOf(records, n, tolerance)
    else OpenRun(records, n, k, tolerance)
  }

  lemma OpenStep(records: seq<Record>, n: nat, k: Stream, tolerance: real)
    requires n < |records|
    ensures OpenRun(records, n + 1, k, tolerance) == OpenAfter(records, n, k, tolerance)
  {
  }

  lemma MembersStep(records: seq<Record>, n: nat, h: nat, tolerance: real)
    requires n < |records|
    ensures Members(records, n + 1, h, tolerance) ==
            if HeadOf(records, n, tolerance) == Some(h) then Members(records, n, h, tolerance) + [n]
            else Members(records, n, h, tolerance)
  {
    hide HeadOf;
  }

  /** How one more entry changes the open runs, and which run it joins. */
  lemma OneMore(records: seq<Record>, n: nat, tolerance: real)
    requires n < |records|
    ensures HeadOf(records, n, tolerance) ==
            if IsBarrier(records[n]) then None
            else if Joins(records, n, tolerance) then OpenRun(records, n, records[n].content.stream, tolerance)
            else Some(n)
    ensures forall j :: OpenRun(records, n + 1, j, tolerance) == OpenAfter(records, n, j, tolerance)
    ensures forall h: nat :: Members(records, n + 1, h, tolerance) ==
              if HeadOf(records, n, tolerance) == Some(h) then Members(records, n, h, tolerance) + [n]
              else Members(records, n, h, tolerance)
    ensures Members(records, n, n, tolerance) == []
  {
    hide OpenRun, HeadOf, Members, Joins, IsBarrier;
    HeadStep(records, n, tolerance);
    forall j ensures OpenRun(records, n + 1, j, tolerance) == OpenAfter(records, n, j, tolerance) {
      OpenStep(records, n, j, tolerance);
    }
    forall h: nat {
      MembersStep(records, n, h, tolerance);
    }
    NoMembersBefore(records, n, n, tolerance);
  }

  /** A run has no members before its head. */
  lemma {:induction false} NoMembersBefore(records: seq<Record>, n: nat, h: nat, tolerance: real)
    requires n <= |records| && n <= h
    ensures Members(records, n, h, tolerance) == []
  {
    if n > 0 {
      NoMembersBefore(records, n - 1, h, tolerance);
    }
  }

  lemma HeadOfIsHead(records: seq<Record>, i: nat, tolerance: real)
    requires i < |records| && HeadOf(records, i, tolerance).Some?
    ensures var h := HeadOf(records, i, tolerance).value;
            HeadOf(records, h, tolerance) == Some(h) && !IsBarrier(records[i])
            && records[h].content.stream == records[i].content.stream
  {
    HeadsAreHeads(records, i + 1, records[i].content.stream, tolerance);
  }

  /** An open run's head is its own head. */
  lemma {:induction false} HeadsAreHeads(records: seq<Record>, n: nat, k: Stream, tolerance: real)
    requires n <= |records| && OpenRun(records, n, k, tolerance).Some?
    ensures var h := OpenRun(records, n, k, tolerance).value;
            && HeadOf(records, h, tolerance) == Some(h) && records[h].content.stream == k
            && !IsBarrier(records[h])
  {
    var r := records[n - 1];
    var before := OpenRun(records, n - 1, k, tolerance);
    if r.content.stream != k || (before.Some? && Same(records[before.value], r, tolerance)) {
      HeadsAreHeads(records, n - 1, k, tolerance);
    }
  }
}
