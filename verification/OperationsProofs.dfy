/** Every operation is credited with exactly its own tracking time and writes, and a passive
    capture splits into one operation per action write. */
module OperationsProofs {
  import opened Common
  import opened Operations
  import TraceLog

  // ---- what the trace says, independently of the builder -------------------------------------

  /** Tracking according to the latest decoded status among the first `n` records. */
  ghost function On(records: seq<Record>, n: nat): bool
    requires n <= |records|
  {
    if n == 0 then false
    else
      var e := records[n - 1].event;
      if e.Status? && e.gu.Some? then e.gu.value.tracking else On(records, n - 1)
  }

  /** Calls of one thread that have not returned. */
  ghost function OpenCalls(records: seq<Record>, n: nat, thread: string): seq<int>
    requires n <= |records|
  {
    if n == 0 then []
    else
      var r, before := records[n - 1], OpenCalls(records, n - 1, thread);
      if r.thread != thread then before
      else if r.event.Call? then before + [r.event.callId]
      else if r.event.Return? then RemoveFirst(before, r.event.callId)
      else before
  }

  /** Record `i` is a call made while its thread has no other call open. */
  ghost predicate TopLevel(records: seq<Record>, i: nat)
    requires i < |records|
  {
    records[i].event.Call? && OpenCalls(records, i, records[i].thread) == []
  }

  ghost function TopCalls(records: seq<Record>, n: nat): nat
    requires n <= |records|
  {
    if n == 0 then 0 else TopCalls(records, n - 1) + if TopLevel(records, n - 1) then 1 else 0
  }

  ghost predicate TimeOrdered(records: seq<Record>) {
    forall i, j :: 0 <= i < j < |records| ==> records[i].t <= records[j].t
  }

  /** Time from record `n - 1` to record `n`. */
  ghost function Gap(records: seq<Record>, n: nat): real
    requires 0 < n < |records|
  {
    records[n].t - records[n - 1].t
  }

  /** Tracking time that falls between the `i`-th top-level call and the next one, among the first
      `n` records. */
  ghost function Share(records: seq<Record>, n: nat, i: int): real
    requires n <= |records|
  {
    if n <= 1 then 0.0
    else
      Share(records, n - 1, i) +
      if On(records, n - 1) && TopCalls(records, n - 1) == i + 1 then Gap(records, n - 1) else 0.0
  }

  // ---- tracking time -------------------------------------------------------------------------

  /** The part of the open tracking interval operation `i` has not been credited with yet. */
  ghost function Pending(b: Builder, i: int): real
    requires Sound(b)
  {
    if b.current == Some(i) && b.trackingSince.Some? then
      b.lastT - Max(b.trackingSince.value, b.ops[i].tCall)
    else 0.0
  }

  ghost predicate Follows(records: seq<Record>, n: nat, b: Builder)
    requires n <= |records|
  {
    && Sound(b)
    && |b.ops| == TopCalls(records, n)
    && (b.trackingSince.Some? <==> On(records, n))
    && (n > 0 ==> b.lastT == records[n - 1].t)
    && (n == 0 ==> b == START)
    && (b.trackingSince.Some? ==> b.trackingSince.value <= b.lastT)
    && (b.current.Some? ==> b.ops[b.current.value].tCall <= b.lastT)
    && (forall thread :: Stack(b, thread) == OpenCalls(records, n, thread))
  }

  lemma StackStep(records: seq<Record>, n: nat, b: Builder, thread: string)
    requires n < |records| && Sound(b)
    requires Stack(b, thread) == OpenCalls(records, n, thread)
    ensures Stack(Step(b, records[n]), thread) == OpenCalls(records, n + 1, thread)
  {
    hide AppendDistinct, Max;
  }

  /** A builder step opens an operation exactly at a top-level call. */
  lemma CountStep(records: seq<Record>, n: nat, b: Builder)
    requires n < |records| && Sound(b)
    requires Stack(b, records[n].thread) == OpenCalls(records, n, records[n].thread)
    ensures |Step(b, records[n]).ops| == |b.ops| + if TopLevel(records, n) then 1 else 0
  {
    hide AppendDistinct, RemoveFirst, Max, OpenCalls;
  }

  lemma TrackingStep(records: seq<Record>, n: nat, b: Builder)
    requires n < |records| && Sound(b)
    requires b.trackingSince.Some? <==> On(records, n)
    requires b.trackingSince.Some? ==> b.trackingSince.value <= records[n].t
    ensures var b' := Step(b, records[n]);
            && (b'.trackingSince.Some? <==> On(records, n + 1))
            && b'.lastT == records[n].t
            && (b'.trackingSince.Some? ==> b'.trackingSince.value <= b'.lastT)
  {
    hide AppendDistinct, RemoveFirst, Max;
  }

  lemma CurrentIsPast(b: Builder, r: Record)
    requires Sound(b) && (b.current.Some? ==> b.ops[b.current.value].tCall <= r.t)
    ensures var b' := Step(b, r); b'.current.Some? ==> b'.ops[b'.current.value].tCall <= r.t
  {
    hide AppendDistinct, RemoveFirst, Max, Stack;
  }

  lemma StepFollows(records: seq<Record>, n: nat, b: Builder)
    requires n < |records| && TimeOrdered(records) && Follows(records, n, b)
    ensures Follows(records, n + 1, Step(b, records[n]))
  {
    hide Step, Stack, OpenCalls, On;
    CountStep(records, n, b);
    TrackingStep(records, n, b);
    CurrentIsPast(b, records[n]);
    forall thread ensures Stack(Step(b, records[n]), thread) == OpenCalls(records, n + 1, thread) {
      StackStep(records, n, b, thread);
    }
  }

  lemma {:induction false} NoShareYet(records: seq<Record>, n: nat, i: nat)
    requires n <= |records| && TopCalls(records, n) <= i
    ensures Share(records, n, i) == 0.0
  {
    if n > 1 {
      NoShareYet(records, n - 1, i);
    }
  }

  lemma ShareStep(records: seq<Record>, n: nat, i: int)
    requires n < |records|
    ensures Share(records, n + 1, i) ==
            Share(records, n, i) +
            if n > 0 && On(records, n) && TopCalls(records, n) == i + 1 then Gap(records, n) else 0.0
  {
  }

  /** Moving the clock on owes the current operation the gap, if tracking is on. */
  lemma ClockCredits(records: seq<Record>, n: nat, b: Builder, i: nat)
    requires n < |records| && TimeOrdered(records) && Follows(records, n, b) && i < |b.ops|
    requires b.ops[i].trackingOn + Pending(b, i) == Share(records, n, i)
    ensures b.ops[i].trackingOn + Pending(b.(lastT := records[n].t), i) == Share(records, n + 1, i)
    ensures records[n].t >= b.lastT || n == 0
  {
    ShareStep(records, n, i);
  }

  lemma CloseCredits(b: Builder, i: nat)
    requires Sound(b) && i < |b.ops|
    requires b.trackingSince.Some? ==> b.trackingSince.value <= b.lastT
    requires i == |b.ops| - 1 ==> b.ops[i].tCall <= b.lastT
    ensures var c := CloseTracking(b, b.lastT);
            && |c.ops| == |b.ops| && c.ops[i].tCall == b.ops[i].tCall
            && c.ops[i].trackingOn == b.ops[i].trackingOn + Pending(b, i)
            && c == b.(ops := c.ops)
  {
  }

  /** A step moves the current operation's pending time into its credit or leaves both alone. */
  lemma StepKeepsClaim(b: Builder, r: Record, i: nat)
    requires Sound(b) && i < |b.ops|
    requires b.trackingSince.Some? ==> b.trackingSince.value <= r.t
    requires i == |b.ops| - 1 ==> b.ops[i].tCall <= r.t
    ensures i < |Step(b, r).ops|
    ensures Step(b, r).ops[i].trackingOn + Pending(Step(b, r), i) == b.ops[i].trackingOn + Pending(b.(lastT := r.t), i)
  {
    hide RemoveFirst, AppendDistinct, Stack, CloseTracking;
    var b1 := b.(lastT := r.t);
    CloseCredits(b1, i);
    match r.event {
      case Call(id, _) =>
        CloseCredits(b1.(openCalls := b1.openCalls[r.thread := Stack(b1, r.thread) + [id]]), i);
      case Status(_, Some(gu)) =>
        hide Step, OnStatus;
        StatusKeepsClaim(b, r, gu, i);
      case _ =>
    }
  }

  lemma StatusKeepsClaim(b: Builder, r: Record, gu: Gu, i: nat)
    requires Sound(b) && i < |b.ops| && r.event.Status? && r.event.gu == Some(gu)
    requires b.trackingSince.Some? ==> b.trackingSince.value <= r.t
    requires i == |b.ops| - 1 ==> b.ops[i].tCall <= r.t
    ensures i < |Step(b, r).ops|
    ensures Step(b, r).ops[i].trackingOn + Pending(Step(b, r), i) == b.ops[i].trackingOn + Pending(b.(lastT := r.t), i)
  {
    hide AppendDistinct, CloseTracking;
    CloseCredits(b.(lastT := r.t, gu := Some(gu)), i);
  }

  lemma {:induction false} CallsAreOld(records: seq<Record>, n: nat, b: Builder, i: nat)
    requires n < |records| && TimeOrdered(records) && Follows(records, n, b) && i < |b.ops|
    ensures b.trackingSince.Some? ==> b.trackingSince.value <= records[n].t
    ensures i == |b.ops| - 1 ==> b.ops[i].tCall <= records[n].t
  {
  }

  lemma StepCredits(records: seq<Record>, n: nat, b: Builder, i: nat)
    requires n < |records| && TimeOrdered(records) && Follows(records, n, b)
    requires i < |b.ops| ==> b.ops[i].trackingOn + Pending(b, i) == Share(records, n, i)
    requires i < |Step(b, records[n]).ops|
    ensures Step(b, records[n]).ops[i].trackingOn + Pending(Step(b, records[n]), i) == Share(records, n + 1, i)
  {
    hide RemoveFirst, AppendDistinct, OpenCalls, Share, On, TopCalls, TimeOrdered, Stack, Step;
    var r := records[n];
    if i < |b.ops| {
      ClockCredits(records, n, b, i);
      CallsAreOld(records, n, b, i);
      StepKeepsClaim(b, r, i);
    } else {
      StepFollows(records, n, b);
      OneNewOperation(b, r);
      NoShareYet(records, n, i);
      ShareStep(records, n, i);
    }
  }

  lemma OneNewOperation(b: Builder, r: Record)
    requires Sound(b)
    ensures |b.ops| <= |Step(b, r).ops| <= |b.ops| + 1
    ensures |Step(b, r).ops| == |b.ops| + 1 ==> Step(b, r).ops[|b.ops|].trackingOn == 0.0
    ensures |Step(b, r).ops| == |b.ops| + 1 ==> Step(b, r).ops[|b.ops|].tCall == r.t
  {
    hide RemoveFirst, AppendDistinct;
  }

  lemma {:induction false} FoldCredits(records: seq<Record>, n: nat, i: nat)
    requires n <= |records| && TimeOrdered(records)
    ensures Follows(records, n, Fold(records[..n]))
    ensures i < |Fold(records[..n]).ops| ==>
              Fold(records[..n]).ops[i].trackingOn + Pending(Fold(records[..n]), i) == Share(records, n, i)
  {
    hide Step, Follows, Pending, Share;
    FoldSteps(records);
    if n == 0 {
      StartFollows(records);
    } else {
      FoldCredits(records, n - 1, i);
      StepFollows(records, n - 1, Fold(records[..n - 1]));
      if i < |Fold(records[..n]).ops| {
        StepCredits(records, n - 1, Fold(records[..n - 1]), i);
      }
    }
  }

  lemma StartFollows(records: seq<Record>)
    ensures Follows(records, 0, START)
  {
  }

  /** However calls nest and tracking intervals straddle them, every operation is credited with
      exactly the tracking time between its own call and the next top-level call. */
  lemma OperationsGetTheirShare(records: seq<Record>, i: nat)
    requires TimeOrdered(records)
    ensures |Build(records)| == TopCalls(records, |records|)
    ensures i < |Build(records)| ==> Build(records)[i].trackingOn == Share(records, |records|, i)
  {
    hide Step, Fold, Share, TopCalls;
    assert records[..|records|] == records;
    FoldCredits(records, |records|, i);
  }

  ghost function TotalTracking(ops: seq<Operation>): real {
    if ops == [] then 0.0 else TotalTracking(ops[..|ops| - 1]) + ops[|ops| - 1].trackingOn
  }

  /** Tracking time after the first top-level call. */
  ghost function TrackedSinceFirstCall(records: seq<Record>, n: nat): real
    requires n <= |records|
  {
    if n <= 1 then 0.0
    else
      TrackedSinceFirstCall(records, n - 1) +
      if On(records, n - 1) && TopCalls(records, n - 1) > 0 then Gap(records, n - 1) else 0.0
  }

  ghost function ShareSum(records: seq<Record>, n: nat, m: nat): real
    requires n <= |records|
  {
    if m == 0 then 0.0 else ShareSum(records, n, m - 1) + Share(records, n, m - 1)
  }

  lemma {:induction false} ShareSumStep(records: seq<Record>, n: nat, m: nat)
    requires n < |records|
    ensures ShareSum(records, n + 1, m) ==
            ShareSum(records, n, m) +
            if n > 0 && On(records, n) && 0 < TopCalls(records, n) <= m then Gap(records, n) else 0.0
  {
    hide Share, On, TopCalls, Gap;
    if m > 0 {
      ShareSumStep(records, n, m - 1);
      ShareStep(records, n, m - 1);
    }
  }

  lemma {:induction false} NoShares(records: seq<Record>, m: nat)
    ensures ShareSum(records, 0, m) == 0.0
  {
    if m > 0 {
      NoShares(records, m - 1);
    }
  }

  lemma {:induction false} SharesCoverTracking(records: seq<Record>, n: nat, m: nat)
    requires n <= |records| && TopCalls(records, n) <= m
    ensures ShareSum(records, n, m) == TrackedSinceFirstCall(records, n)
  {
    if n == 0 {
      NoShares(records, m);
    } else {
      SharesCoverTracking(records, n - 1, m);
      ShareSumStep(records, n - 1, m);
    }
  }

  lemma {:induction false} SumOfShares(records: seq<Record>, ops: seq<Operation>)
    requires forall i :: 0 <= i < |ops| ==> ops[i].trackingOn == Share(records, |records|, i)
    ensures TotalTracking(ops) == ShareSum(records, |records|, |ops|)
  {
    if ops != [] {
      SumOfShares(records, ops[..|ops| - 1]);
    }
  }

  /** Tracking time is conserved: over a time-ordered trace the tracking times of all operations
      sum to the time tracking was on between the first top-level call and the last record. */
  lemma TrackingTimeIsConserved(records: seq<Record>)
    requires TimeOrdered(records)
    ensures TotalTracking(Build(records)) == TrackedSinceFirstCall(records, |records|)
  {
    hide Share, ShareSum, TotalTracking, TrackedSinceFirstCall, TopCalls, Build, TimeOrdered;
    forall i: nat | i < |Build(records)| ensures Build(records)[i].trackingOn == Share(records, |records|, i) {
      OperationsGetTheirShare(records, i);
    }
    OperationsGetTheirShare(records, 0);
    SumOfShares(records, Build(records));
    SharesCoverTracking(records, |records|, |Build(records)|);
  }

  // ---- what each operation is told to have done ----------------------------------------------

  /** The latest decoded status among the first `n` records. */
  ghost function LatestGu(records: seq<Record>, n: nat): Option<Gu>
    requires n <= |records|
  {
    if n == 0 then None
    else
      var e := records[n - 1].event;
      if e.Status? && e.gu.Some? then e.gu else LatestGu(records, n - 1)
  }

  /** The operation whose call started the motion under way, if one is: a motion belongs to the
      last top-level call before it began, however many calls come before it ends. */
  ghost function Mover(records: seq<Record>, n: nat): Option<int>
    requires n <= |records|
  {
    if n == 0 then None
    else
      var e := records[n - 1].event;
      if e.MotionStart? then if TopCalls(records, n - 1) > 0 then Some(TopCalls(records, n - 1) - 1) else None
      else if e.MotionEnd? then None
      else Mover(records, n - 1)
  }

  /** What an operation is told by one more record. While it is the latest it gathers the writes, the
      changes of the motion state and its own return; a motion it started names its outcome at the
      end, and its plain return does not before that. */
  function Heard(o: Operation, e: Event, latest: bool, moves: bool): Operation {
    match e
    case Send(text, _) => if latest then o.(sends := o.sends + [text]) else o
    case Status(_, Some(gu)) =>
      if latest && (o.motionStates == [] || o.motionStates[|o.motionStates| - 1] != gu.motionState)
      then o.(motionStates := o.motionStates + [gu.motionState]) else o
    case Return(id, Some(error)) => if latest && id == o.callId then o.(outcome := "error:" + error) else o
    case Return(id, None) => if latest && id == o.callId && !moves then o.(outcome := "return") else o
    case MotionEnd(state) => if moves then o.(outcome := "motion:" + state) else o
    case _ => o
  }

  /** Operation `i` after the first `n` records, its tracking time left out. */
  ghost function Told(records: seq<Record>, n: nat, i: nat): Operation
    requires n <= |records| && i < TopCalls(records, n)
  {
    var r, calls, gu := records[n - 1], TopCalls(records, n - 1), LatestGu(records, n - 1);
    if i == calls then
      Operation(r.event.op, r.event.callId, r.t, [], if gu == None then [] else [gu.value.motionState], "pending", 0.0)
    else Heard(Told(records, n - 1, i), r.event, i + 1 == calls, Mover(records, n - 1) == Some(i))
  }

  /** The builder's other variables, from the trace. */
  ghost predicate Mirrors(records: seq<Record>, n: nat, b: Builder)
    requires n <= |records|
  {
    && Sound(b) && |b.ops| == TopCalls(records, n) && b.gu == LatestGu(records, n) && b.motionOp == Mover(records, n)
    && forall thread :: Stack(b, thread) == OpenCalls(records, n, thread)
  }

  lemma MirrorStep(records: seq<Record>, n: nat, b: Builder)
    requires n < |records| && Mirrors(records, n, b)
    ensures Mirrors(records, n + 1, Step(b, records[n]))
  {
    hide Stack, OpenCalls, AppendDistinct, RemoveFirst, Max;
    CountStep(records, n, b);
    forall thread ensures Stack(Step(b, records[n]), thread) == OpenCalls(records, n + 1, thread) {
      StackStep(records, n, b, thread);
    }
  }

  ghost function Untimed(o: Operation): Operation { o.(trackingOn := 0.0) }

  lemma ToldNew(records: seq<Record>, n: nat, b: Builder)
    requires n < |records| && Mirrors(records, n, b) && TopLevel(records, n)
    ensures |b.ops| < |Step(b, records[n]).ops| && TopCalls(records, n + 1) == |b.ops| + 1
    ensures Untimed(Step(b, records[n]).ops[|b.ops|]) == Told(records, n + 1, |b.ops|)
  {
    hide OpenCalls, RemoveFirst, Max, Mover, LatestGu, AppendDistinct;
    assert Stack(b, records[n].thread) == OpenCalls(records, n, records[n].thread);
  }

  lemma ClosingTellsNothing(b: Builder, at: real, i: nat)
    requires Sound(b) && i < |b.ops|
    ensures var c := CloseTracking(b, at);
      |c.ops| == |b.ops| && Untimed(c.ops[i]) == Untimed(b.ops[i]) && c == b.(ops := c.ops)
  {
    hide Max;
  }

  /** A builder step tells every operation what it hears, and no more. */
  lemma StepIsHeard(b: Builder, r: Record, i: nat)
    requires Sound(b) && i < |b.ops|
    ensures i < |Step(b, r).ops|
    ensures Untimed(Step(b, r).ops[i]) == Heard(Untimed(b.ops[i]), r.event, i + 1 == |b.ops|, b.motionOp == Some(i))
  {
    hide RemoveFirst, Max, Stack, CloseTracking;
    var b1 := b.(lastT := r.t);
    match r.event {
      case Call(id, _) =>
        ClosingTellsNothing(b1.(openCalls := b1.openCalls[r.thread := Stack(b1, r.thread) + [id]]), r.t, i);
      case Status(_, Some(gu)) =>
        hide Step, OnStatus, Heard;
        StatusIsHeard(b, r, gu, i);
      case _ =>
    }
  }

  lemma StatusIsHeard(b: Builder, r: Record, gu: Gu, i: nat)
    requires Sound(b) && i < |b.ops| && r.event.Status? && r.event.gu == Some(gu)
    ensures i < |Step(b, r).ops|
    ensures Untimed(Step(b, r).ops[i]) == Heard(Untimed(b.ops[i]), r.event, i + 1 == |b.ops|, b.motionOp == Some(i))
  {
    hide Max, CloseTracking;
    ClosingTellsNothing(b.(lastT := r.t, gu := Some(gu)), r.t, i);
  }

  lemma ToldOld(records: seq<Record>, n: nat, b: Builder, i: nat)
    requires n < |records| && Mirrors(records, n, b) && i < |b.ops|
    requires Untimed(b.ops[i]) == Told(records, n, i)
    ensures i < TopCalls(records, n + 1) && i < |Step(b, records[n]).ops|
    ensures Untimed(Step(b, records[n]).ops[i]) == Told(records, n + 1, i)
  {
    hide OpenCalls, Mover, LatestGu, Stack, TopLevel, Step, Heard;
    CallsGrow(records, n, n + 1);
    StepIsHeard(b, records[n], i);
  }

  lemma ToldStep(records: seq<Record>, n: nat, b: Builder, i: nat)
    requires n < |records| && Mirrors(records, n, b) && i < TopCalls(records, n + 1)
    requires i < |b.ops| ==> Untimed(b.ops[i]) == Told(records, n, i)
    ensures i < |Step(b, records[n]).ops|
    ensures Untimed(Step(b, records[n]).ops[i]) == Told(records, n + 1, i)
  {
    hide Told, Step, TopLevel, Untimed;
    SameCount(records, n, b);
    if i < |b.ops| {
      ToldOld(records, n, b, i);
    } else {
      ToldNew(records, n, b);
    }
  }

  lemma {:induction false} FoldTells(records: seq<Record>, n: nat, i: nat)
    requires n <= |records|
    ensures Mirrors(records, n, Fold(records[..n]))
    ensures i < TopCalls(records, n) ==>
      i < |Fold(records[..n]).ops| && Untimed(Fold(records[..n]).ops[i]) == Told(records, n, i)
  {
    hide Step, Mirrors, Told, TopCalls;
    FoldSteps(records);
    if n == 0 {
      StartMirrors(records, i);
    } else {
      FoldTells(records, n - 1, i);
      MirrorStep(records, n - 1, Fold(records[..n - 1]));
      SameCount(records, n - 1, Fold(records[..n - 1]));
      if i < TopCalls(records, n) {
        ToldStep(records, n - 1, Fold(records[..n - 1]), i);
      }
    }
  }

  lemma SameCount(records: seq<Record>, n: nat, b: Builder)
    requires n <= |records| && Mirrors(records, n, b)
    ensures |b.ops| == TopCalls(records, n)
  {}

  lemma StartMirrors(records: seq<Record>, i: nat)
    ensures Mirrors(records, 0, START) && TopCalls(records, 0) == 0
  {}

  /** There is one operation to each top-level call, and each is exactly what the trace tells of it,
      with the tracking time between its own call and the next. */
  lemma OperationsAreTold(records: seq<Record>, i: nat)
    requires i < TopCalls(records, |records|)
    ensures |Build(records)| == TopCalls(records, |records|)
    ensures Untimed(Build(records)[i]) == Told(records, |records|, i)
  {
    hide Step, Fold, Told, TopCalls;
    assert records[..|records|] == records;
    FoldTells(records, |records|, i);
    SameCount(records, |records|, Fold(records));
  }

  // ---- outcomes ------------------------------------------------------------------------------

  /** Record `m` settles the outcome of operation `i`, made by record `c`: its own return while it is
      the latest, unless a motion of its own is under way and it brings no error; or the end of
      that motion. */
  ghost predicate Settles(records: seq<Record>, m: nat, i: nat, c: nat)
    requires m < |records| && c < |records| && records[c].event.Call?
  {
    var e := records[m].event;
    || (e.Return? && m > c && e.callId == records[c].event.callId && TopCalls(records, m) == i + 1 &&
        (e.error.Some? || Mover(records, m) != Some(i)))
    || (e.MotionEnd? && Mover(records, m) == Some(i))
  }

  function Verdict(e: Event): string {
    match e
    case Return(_, Some(error)) => "error:" + error
    case MotionEnd(state) => "motion:" + state
    case _ => "return"
  }

  /** Record `c` is the call that opens operation `i`. */
  ghost predicate Opens(records: seq<Record>, c: nat, i: nat) {
    c < |records| && TopLevel(records, c) && TopCalls(records, c) == i
  }

  lemma {:induction false} CallsGrow(records: seq<Record>, m: nat, n: nat)
    requires m <= n <= |records|
    ensures TopCalls(records, m) <= TopCalls(records, n)
    decreases n
  {
    if m < n {
      CallsGrow(records, m, n - 1);
    }
  }

  lemma {:induction false} MoverIsOpen(records: seq<Record>, n: nat)
    requires n <= |records|
    ensures Mover(records, n).Some? ==> 0 <= Mover(records, n).value < TopCalls(records, n)
  {
    if n > 0 {
      MoverIsOpen(records, n - 1);
    }
  }

  /** Who called, what and when. */
  lemma {:induction false} CallIsTold(records: seq<Record>, n: nat, i: nat, c: nat)
    requires c < n <= |records| && Opens(records, c, i)
    ensures i < TopCalls(records, n)
    ensures var o, call := Told(records, n, i), records[c];
      o.op == call.event.op && o.callId == call.event.callId && o.tCall == call.t
    decreases n
  {
    hide OpenCalls, Mover, LatestGu;
    CallsGrow(records, c + 1, n);
    if n > c + 1 {
      CallsGrow(records, c + 1, n - 1);
      CallIsTold(records, n - 1, i, c);
    }
  }

  /** The last record to settle an operation's outcome names it; until one does it is pending. */
  lemma {:induction false} OutcomeIsTold(records: seq<Record>, n: nat, i: nat, c: nat, m: nat)
    requires c < n <= |records| && Opens(records, c, i)
    requires m <= n && (m < n ==> Settles(records, m, i, c))
    requires forall k :: 0 <= k < n && (m == n || k > m) ==> !Settles(records, k, i, c)
    ensures i < TopCalls(records, n)
    ensures Told(records, n, i).outcome == if m < n then Verdict(records[m].event) else "pending"
    decreases n
  {
    CallsGrow(records, c + 1, n);
    CallIsTold(records, n, i, c);
    if n > c + 1 {
      CallsGrow(records, c + 1, n - 1);
      CallIsTold(records, n - 1, i, c);
      if m != n - 1 {
        OutcomeIsTold(records, n - 1, i, c, if m == n then n - 1 else m);
        assert !Settles(records, n - 1, i, c);
      }
    } else if m < n {
      NotSettledYet(records, m, i, c);
    }
  }

  lemma NotSettledYet(records: seq<Record>, m: nat, i: nat, c: nat)
    requires Opens(records, c, i) && m < |records| && Settles(records, m, i, c)
    ensures m > c
  {
    MoverIsOpen(records, m);
    if m <= c {
      CallsGrow(records, m, c);
    }
  }

  /** The same of the operations built: `c` made the call, `m` settled its outcome last. */
  lemma OutcomeIs(records: seq<Record>, i: nat, c: nat, m: nat)
    requires Opens(records, c, i) && m <= |records| && (m < |records| ==> Settles(records, m, i, c))
    requires forall k :: 0 <= k < |records| && (m == |records| || k > m) ==> !Settles(records, k, i, c)
    ensures i < |Build(records)|
    ensures var o, call := Build(records)[i], records[c];
      && o.op == call.event.op && o.callId == call.event.callId && o.tCall == call.t
      && o.outcome == if m < |records| then Verdict(records[m].event) else "pending"
  {
    hide Build, Told, Settles;
    CallIsTold(records, |records|, i, c);
    OutcomeIsTold(records, |records|, i, c, m);
    OperationsAreTold(records, i);
  }

  // ---- writes --------------------------------------------------------------------------------

  ghost function Names(ops: seq<Operation>): seq<string> {
    if ops == [] then [] else Names(ops[..|ops| - 1]) + [ops[|ops| - 1].op]
  }

  ghost function AllSends(ops: seq<Operation>): seq<string> {
    if ops == [] then [] else AllSends(ops[..|ops| - 1]) + ops[|ops| - 1].sends
  }

  /** The writes recorded after the first top-level call. */
  ghost function SendsSinceFirstCall(records: seq<Record>, n: nat): seq<string>
    requires n <= |records|
  {
    if n == 0 then []
    else
      var e := records[n - 1].event;
      SendsSinceFirstCall(records, n - 1) + if e.Send? && TopCalls(records, n - 1) > 0 then [e.text] else []
  }

  /** What a step does to the list of operations: it may append one, and it may add a write to the
      last. */
  lemma StepShape(b: Builder, r: Record)
    requires Sound(b)
    ensures var ops := Step(b, r).ops;
            && Names(ops) == Names(b.ops) +
               (if r.event.Call? && Stack(b, r.thread) == [] then [r.event.op] else [])
            && AllSends(ops) == AllSends(b.ops) + (if r.event.Send? && b.ops != [] then [r.event.text] else [])
            && |ops| == |b.ops| + if r.event.Call? && Stack(b, r.thread) == [] then 1 else 0
  {
    hide Names, AllSends, Step;
    var ops := Step(b, r).ops;
    if r.event.Call? && Stack(b, r.thread) == [] {
      CallAppends(b, r);
      SameListing(b.ops, ops[..|b.ops|]);
      ListingPush(ops[..|b.ops|], ops[|b.ops|]);
      assert ops[..|b.ops|] + [ops[|b.ops|]] == ops;
    } else if r.event.Send? && b.ops != [] {
      SendAdds(b, r);
      var last := |b.ops| - 1;
      ListingPush(b.ops[..last], b.ops[last]);
      ListingPush(b.ops[..last], ops[last]);
      assert b.ops[..last] + [b.ops[last]] == b.ops && b.ops[..last] + [ops[last]] == ops;
    } else {
      OthersKeepListing(b, r);
      SameListing(b.ops, ops);
    }
  }

  ghost predicate SameOpsAndSends(a: seq<Operation>, b: seq<Operation>) {
    |a| == |b| && forall i :: 0 <= i < |a| ==> a[i].op == b[i].op && a[i].sends == b[i].sends
  }

  lemma CallAppends(b: Builder, r: Record)
    requires Sound(b) && r.event.Call? && Stack(b, r.thread) == []
    ensures var ops := Step(b, r).ops;
      |ops| == |b.ops| + 1 && SameOpsAndSends(b.ops, ops[..|b.ops|]) && ops[|b.ops|].op == r.event.op && ops[|b.ops|].sends == []
  {
    hide Max;
  }

  lemma SendAdds(b: Builder, r: Record)
    requires Sound(b) && r.event.Send? && b.ops != []
    ensures var ops, last := Step(b, r).ops, |b.ops| - 1;
      |ops| == |b.ops| && ops[..last] == b.ops[..last] && ops[last].op == b.ops[last].op &&
      ops[last].sends == b.ops[last].sends + [r.event.text]
  {
  }

  lemma OthersKeepListing(b: Builder, r: Record)
    requires Sound(b) && (r.event.Call? ==> Stack(b, r.thread) != []) && (r.event.Send? ==> b.ops == [])
    ensures SameOpsAndSends(b.ops, Step(b, r).ops)
  {
    OneNewOperation(b, r);
    KeepsCount(b, r);
    forall i | 0 <= i < |b.ops| ensures b.ops[i].op == Step(b, r).ops[i].op && b.ops[i].sends == Step(b, r).ops[i].sends {
      StepIsHeard(b, r, i);
    }
    hide Step, Stack, Sound;
  }

  lemma KeepsCount(b: Builder, r: Record)
    requires Sound(b) && (r.event.Call? ==> Stack(b, r.thread) != [])
    ensures |Step(b, r).ops| == |b.ops|
  {
    hide RemoveFirst, AppendDistinct, Max;
  }

  lemma ListingPush(ops: seq<Operation>, op: Operation)
    ensures Names(ops + [op]) == Names(ops) + [op.op]
    ensures AllSends(ops + [op]) == AllSends(ops) + op.sends
  {
    assert (ops + [op])[..|ops|] == ops;
  }

  lemma {:induction false} SameListing(a: seq<Operation>, b: seq<Operation>)
    requires |a| == |b|
    requires forall i :: 0 <= i < |a| ==> a[i].op == b[i].op && a[i].sends == b[i].sends
    ensures Names(a) == Names(b) && AllSends(a) == AllSends(b)
  {
    if a != [] {
      SameListing(a[..|a| - 1], b[..|b| - 1]);
    }
  }

  lemma BuildListing(records: seq<Record>)
    ensures Names(Build(records)) == Names(Fold(records).ops)
    ensures AllSends(Build(records)) == AllSends(Fold(records).ops)
  {
    hide Fold, Names, AllSends;
    SameListing(Build(records), Fold(records).ops);
  }

  lemma {:induction false} FoldSends(records: seq<Record>, n: nat)
    requires n <= |records|
    ensures |Fold(records[..n]).ops| == TopCalls(records, n)
    ensures forall thread :: Stack(Fold(records[..n]), thread) == OpenCalls(records, n, thread)
    ensures AllSends(Fold(records[..n]).ops) == SendsSinceFirstCall(records, n)
  {
    hide Step, AllSends, Names, Stack, OpenCalls;
    FoldSteps(records);
    if n == 0 {
      NothingBuilt(records);
    } else {
      FoldSends(records, n - 1);
      var b := Fold(records[..n - 1]);
      StepShape(b, records[n - 1]);
      CountStep(records, n - 1, b);
      forall thread ensures Stack(Fold(records[..n]), thread) == OpenCalls(records, n, thread) {
        StackStep(records, n - 1, b, thread);
      }
    }
  }

  lemma NothingBuilt(records: seq<Record>)
    ensures AllSends(START.ops) == [] && Names(START.ops) == []
    ensures forall thread :: Stack(START, thread) == OpenCalls(records, 0, thread)
  {
  }

  /** No write is lost or moved: the operations' writes concatenate to every write recorded after
      the first top-level call. */
  lemma SendsAreConserved(records: seq<Record>)
    ensures AllSends(Build(records)) == SendsSinceFirstCall(records, |records|)
  {
    hide Step, AllSends, Names, Stack, OpenCalls;
    FoldSends(records, |records|);
    BuildListing(records);
    assert records[..|records|] == records;
  }

  // ---- segmented captures --------------------------------------------------------------------

  /** The actions requested by client writes, in order. */
  ghost function Actions(records: seq<Record>): seq<string> {
    if records == [] then []
    else
      var e := records[|records| - 1].event;
      Actions(records[..|records| - 1]) + if e.Send? && e.action.Some? then [e.action.value] else []
  }

  /** Every write from the first action on. */
  ghost function SendsFromFirstAction(records: seq<Record>): seq<string> {
    if records == [] then []
    else
      var e := records[|records| - 1].event;
      SendsFromFirstAction(records[..|records| - 1]) + if e.Send? && Actions(records) != [] then [e.text] else []
  }

  lemma {:induction false} SegmentPush(records: seq<Record>, r: Record, primary: int, callId: int)
    ensures SegmentFrom(records + [r], primary, callId) ==
            SegmentFrom(records, primary, callId) + PieceOf(r, primary, callId + |Actions(records)|)
  {
    hide SegmentFrom, PieceOf, Actions;
    SegmentUnfold(records + [r], primary, callId);
    if records == [] {
      assert [] + [r] == [r] && [r][1..] == [];
      SegmentNothing(primary, callId);
      SegmentNothing(primary, NextId(r, callId));
    } else {
      var next := NextId(records[0], callId);
      assert (records + [r])[0] == records[0] && (records + [r])[1..] == records[1..] + [r];
      SegmentPush(records[1..], r, primary, next);
      ActionsHead(records);
      SegmentUnfold(records, primary, callId);
      var p, rest := PieceOf(records[0], primary, callId), SegmentFrom(records[1..], primary, next);
      var q := PieceOf(r, primary, callId + |Actions(records)|);
      assert p + (rest + q) == (p + rest) + q;
    }
  }

  lemma SegmentNothing(primary: int, callId: int)
    ensures SegmentFrom([], primary, callId) == [] && Actions([]) == []
  {
  }

  lemma {:induction false} ActionsHead(records: seq<Record>)
    requires records != []
    ensures Actions(records) ==
            (if records[0].event.Send? && records[0].event.action.Some? then [records[0].event.action.value] else [])
            + Actions(records[1..])
  {
    if |records| > 1 {
      var init := records[..|records| - 1];
      ActionsHead(init);
      assert init[1..] == records[1..][..|records| - 2];
    } else {
      assert records[..0] == [] && records[1..] == [];
    }
  }

  /** A report received by another client than the first. */
  ghost predicate Foreign(r: Record, primary: int) {
    match r.event
    case Status(conn, _) => conn != primary
    case OtherRecv(conn) => conn != primary
    case _ => false
  }

  /** How many records the first `n` of a capture become: none from another client, three for a
      write that requests an action, and one for any other. */
  ghost function Length(records: seq<Record>, n: nat, primary: int): nat
    requires n <= |records|
  {
    if n == 0 then 0
    else
      var r := records[n - 1];
      Length(records, n - 1, primary) +
      if Foreign(r, primary) then 0 else if r.event.Send? && r.event.action != None then 3 else 1
  }

  lemma {:induction false} LengthPrefix(records: seq<Record>, more: seq<Record>, n: nat, primary: int)
    requires n <= |records|
    ensures Length(records + more, n, primary) == Length(records, n, primary)
  {
    if n > 0 {
      LengthPrefix(records, more, n - 1, primary);
    }
  }

  /** What record `r` becomes: itself, behind a made-up call and that call's return if it requests an
      action, or nothing. */
  ghost function Piece(r: Record, primary: int, id: int): seq<Record> {
    if Foreign(r, primary) then []
    else if r.event.Send? && r.event.action != None then
      [Record(r.t, r.seqNo, "capture", Call(id, r.event.action.value), false),
       Record(r.t, r.seqNo, "capture", Return(id, None), false), r]
    else [r]
  }

  lemma PieceIs(r: Record, primary: int, callId: int)
    ensures PieceOf(r, primary, callId) == Piece(r, primary, callId + 1)
  {}

  lemma {:induction false} SegmentLength(records: seq<Record>, primary: int)
    ensures |SegmentFrom(records, primary, 0)| == Length(records, |records|, primary)
  {
    if records == [] {
      SegmentNothing(primary, 0);
    } else {
      var init, last := records[..|records| - 1], records[|records| - 1];
      assert records == init + [last];
      SegmentLength(init, primary);
      SegmentPush(init, last, primary, 0);
      LengthPrefix(init, [last], |init|, primary);
      PieceIs(last, primary, |Actions(init)|);
      hide SegmentFrom, Actions, PieceOf;
    }
  }

  lemma LastPiece(init: seq<Record>, last: Record, primary: int)
    ensures SegmentFrom(init + [last], primary, 0) == SegmentFrom(init, primary, 0) + Piece(last, primary, |Actions(init)| + 1)
    ensures |SegmentFrom(init, primary, 0)| == Length(init + [last], |init|, primary)
    ensures |SegmentFrom(init + [last], primary, 0)| == Length(init + [last], |init| + 1, primary)
  {
    hide SegmentFrom, Actions, PieceOf, Piece, Length;
    SegmentPush(init, last, primary, 0);
    PieceIs(last, primary, |Actions(init)|);
    SegmentLength(init, primary);
    SegmentLength(init + [last], primary);
    LengthPrefix(init, [last], |init|, primary);
  }

  /** Every record of a capture ends up in its place, with what is made up for it: the calls are
      numbered from 1 on, one to each action. */
  lemma {:induction false} SegmentIs(records: seq<Record>, primary: int, i: nat)
    requires i < |records|
    ensures var out, from, to := SegmentFrom(records, primary, 0), Length(records, i, primary), Length(records, i + 1, primary);
      from <= to <= |out| && out[from..to] == Piece(records[i], primary, |Actions(records[..i])| + 1)
    decreases |records|
  {
    hide SegmentFrom, Actions, Piece, Length;
    var init, last := records[..|records| - 1], records[|records| - 1];
    assert records == init + [last];
    LastPiece(init, last, primary);
    if i < |init| {
      SegmentIs(init, primary, i);
      LengthPrefix(init, [last], i, primary);
      LengthPrefix(init, [last], i + 1, primary);
      assert records[..i] == init[..i];
    } else {
      assert records[..i] == init;
    }
  }

  lemma FoldPush(records: seq<Record>, r: Record)
    ensures Fold(records + [r]) == Step(Fold(records), r)
  {
    hide Step;
    assert (records + [r])[..|records|] == records;
  }

  /** The builder between two records of a segmented capture. */
  ghost predicate Segmented(records: seq<Record>, b: Builder) {
    && Sound(b)
    && Stack(b, "capture") == []
    && Names(b.ops) == Actions(records)
    && AllSends(b.ops) == SendsFromFirstAction(records)
  }

  lemma {:induction false} NamesLength(ops: seq<Operation>)
    ensures |Names(ops)| == |ops|
  {
    if ops != [] {
      NamesLength(ops[..|ops| - 1]);
    }
  }

  lemma StackAfter(b: Builder, r: Record)
    requires Sound(b)
    ensures !r.event.Call? && Stack(b, "capture") == [] ==> Stack(Step(b, r), "capture") == []
    ensures r.event.Call? && r.thread == "capture" ==>
              Stack(Step(b, r), "capture") == Stack(b, "capture") + [r.event.callId]
    ensures r.event.Return? && r.thread == "capture" && Stack(b, "capture") == [r.event.callId] ==>
              Stack(Step(b, r), "capture") == []
  {
    hide AppendDistinct, Max;
  }

  lemma PlainRecord(records: seq<Record>, r: Record, b: Builder)
    requires Segmented(records, b) && !r.event.Call? && !(r.event.Send? && r.event.action.Some?)
    ensures Segmented(records + [r], Step(b, r))
  {
    hide Step, Names, AllSends, Stack;
    assert (records + [r])[..|records|] == records;
    StepShape(b, r);
    StackAfter(b, r);
    NamesLength(b.ops);
  }

  lemma ActionRecord(records: seq<Record>, r: Record, b: Builder, callId: int)
    requires Segmented(records, b) && r.event.Send? && r.event.action.Some?
    ensures var call := Before(r, Call(callId, r.event.action.value));
            var ret := Before(r, Return(callId, None));
            Segmented(records + [r], Step(Step(Step(b, call), ret), r))
  {
    hide Step, Names, AllSends, Stack;
    var call := Before(r, Call(callId, r.event.action.value));
    var ret := Before(r, Return(callId, None));
    assert (records + [r])[..|records|] == records;
    StepShape(b, call);
    StackAfter(b, call);
    var b1 := Step(b, call);
    StepShape(b1, ret);
    StackAfter(b1, ret);
    var b2 := Step(b1, ret);
    StepShape(b2, r);
    StackAfter(b2, r);
  }

  lemma {:induction false} FoldSegmented(records: seq<Record>, primary: int)
    requires !HasCall(records)
    ensures Segmented(records, Fold(SegmentFrom(records, primary, 0)))
  {
    hide Step, Fold, Segmented, SegmentFrom, Actions;
    if records == [] {
      SegmentedNothing(primary);
    } else {
      var init, r := records[..|records| - 1], records[|records| - 1];
      assert records[|records| - 1].event == r.event && init + [r] == records;
      assert forall i :: 0 <= i < |init| ==> init[i] == records[i];
      FoldSegmented(init, primary);
      var out := SegmentFrom(init, primary, 0);
      SegmentPush(init, r, primary, 0);
      if FromOtherClient(r, primary) {
        assert out + [] == out;
        SkipRecord(init, r, Fold(out));
      } else if r.event.Send? && r.event.action.Some? {
        var id := |Actions(init)| + 1;
        var call := Before(r, Call(id, r.event.action.value));
        var ret := Before(r, Return(id, None));
        ActionRecord(init, r, Fold(out), id);
        FoldPush(out, call);
        FoldPush(out + [call], ret);
        FoldPush(out + [call] + [ret], r);
        assert out + [call, ret, r] == out + [call] + [ret] + [r];
      } else {
        PlainRecord(init, r, Fold(out));
        FoldPush(out, r);
      }
    }
  }

  lemma SegmentedNothing(primary: int)
    ensures Segmented([], Fold(SegmentFrom([], primary, 0)))
  {
  }

  lemma SkipRecord(records: seq<Record>, r: Record, b: Builder)
    requires Segmented(records, b) && !r.event.Send?
    ensures Segmented(records + [r], b)
  {
    assert (records + [r])[..|records|] == records;
  }

  // ---- sorting a capture ---------------------------------------------------------------------

  ghost predicate Ordered(records: seq<Record>) {
    forall i, j :: 0 <= i < j < |records| ==> !Earlier(records[j], records[i])
  }

  /** The records with one time and number, in order. */
  ghost function Alike(records: seq<Record>, t: real, n: int): seq<Record> {
    if records == [] then []
    else
      var last := records[|records| - 1];
      Alike(records[..|records| - 1], t, n) + if last.t == t && last.seqNo == n then [last] else []
  }

  lemma AlikePush(records: seq<Record>, r: Record, t: real, n: int)
    ensures Alike(records + [r], t, n) == Alike(records, t, n) + if r.t == t && r.seqNo == n then [r] else []
  {
    assert (records + [r])[..|records|] == records;
  }

  lemma {:induction false} InsertHolds(sorted: seq<Record>, r: Record, x: Record)
    ensures x in Insert(sorted, r) <==> x in sorted || x == r
  {
    var n := |sorted|;
    if n > 0 && Earlier(r, sorted[n - 1]) {
      InsertHolds(sorted[..n - 1], r, x);
      assert sorted == sorted[..n - 1] + [sorted[n - 1]];
    }
  }

  lemma {:induction false} InsertOrders(sorted: seq<Record>, r: Record)
    requires Ordered(sorted)
    ensures Ordered(Insert(sorted, r))
  {
    var n := |sorted|;
    if n > 0 && Earlier(r, sorted[n - 1]) {
      var before, last := Insert(sorted[..n - 1], r), sorted[n - 1];
      InsertOrders(sorted[..n - 1], r);
      forall i | 0 <= i < |before| ensures !Earlier(last, before[i]) {
        InsertHolds(sorted[..n - 1], r, before[i]);
      }
    }
  }

  lemma {:induction false} InsertKeepsAlike(sorted: seq<Record>, r: Record, t: real, n: int)
    ensures Alike(Insert(sorted, r), t, n) == Alike(sorted + [r], t, n)
  {
    hide Alike;
    var m := |sorted|;
    if m > 0 && Earlier(r, sorted[m - 1]) {
      var init, last := sorted[..m - 1], sorted[m - 1];
      assert sorted == init + [last];
      InsertKeepsAlike(init, r, t, n);
      AlikePush(init, r, t, n);
      AlikePush(Insert(init, r), last, t, n);
      AlikePush(init, last, t, n);
      AlikePush(sorted, r, t, n);
    }
  }

  lemma {:induction false} SortHolds(records: seq<Record>, x: Record)
    ensures x in InTimeOrder(records) <==> x in records
  {
    hide Insert;
    if records != [] {
      var init, last := records[..|records| - 1], records[|records| - 1];
      SortHolds(init, x);
      InsertHolds(InTimeOrder(init), last, x);
      assert records == init + [last];
    }
  }

  /** Sorting a capture puts it in order and keeps records of one time and number, all of them, in
      the order they had. */
  lemma {:induction false} SortIsStable(records: seq<Record>, t: real, n: int)
    ensures Ordered(InTimeOrder(records)) && Alike(InTimeOrder(records), t, n) == Alike(records, t, n)
  {
    hide Insert, Alike;
    if records != [] {
      var init, last := records[..|records| - 1], records[|records| - 1];
      SortIsStable(init, t, n);
      InsertOrders(InTimeOrder(init), last);
      InsertKeepsAlike(InTimeOrder(init), last, t, n);
      AlikePush(InTimeOrder(init), last, t, n);
      AlikePush(init, last, t, n);
      assert records == init + [last];
    }
  }

  lemma SortPush(records: seq<Record>, r: Record)
    ensures InTimeOrder([]) == [] && InTimeOrder(records + [r]) == Insert(InTimeOrder(records), r)
  {
    hide Insert;
    assert (records + [r])[..|records|] == records;
  }

  lemma InsertLast(sorted: seq<Record>, r: Record)
    requires sorted == [] || !Earlier(r, sorted[|sorted| - 1])
    ensures Insert(sorted, r) == sorted + [r]
  {}

  /** It changes nothing exactly when the records are in order already. */
  lemma {:induction false} SortIsIdentityIff(records: seq<Record>)
    ensures InTimeOrder(records) == records <==> Ordered(records)
  {
    hide Insert, InTimeOrder, Alike;
    SortIsStable(records, 0.0, 0);
    if records == [] {
      SortPush([], Record(0.0, 0, "", Other, false));
    } else if Ordered(records) {
      var init, last := records[..|records| - 1], records[|records| - 1];
      SortIsIdentityIff(init);
      SortPush(init, last);
      InsertLast(init, last);
      assert records == init + [last];
    }
  }

  lemma SortAddsNoCall(records: seq<Record>)
    requires !HasCall(records)
    ensures !HasCall(InTimeOrder(records))
  {
    var sorted := InTimeOrder(records);
    forall i | 0 <= i < |sorted| ensures !sorted[i].event.Call? {
      SortHolds(records, sorted[i]);
    }
  }

  // ---- captures as operations ----------------------------------------------------------------

  /** A passive capture, in the order of its times, splits into exactly one operation per action
      write, named after it, and the operations' writes are all writes from the first action on. */
  lemma CapturesSplitByAction(records: seq<Record>, primary: int)
    requires !HasCall(records)
    ensures var r := Segment(records, primary);
      && (r.Err? <==> !Analyzable(records))
      && (r.Ok? ==>
            && Names(Build(r.value)) == Actions(InTimeOrder(records))
            && AllSends(Build(r.value)) == SendsFromFirstAction(InTimeOrder(records)))
  {
    hide Fold, Names, AllSends, Actions, SendsFromFirstAction, SegmentFrom, InTimeOrder, Analyzable;
    SortAddsNoCall(records);
    FoldSegmented(InTimeOrder(records), primary);
    BuildListing(SegmentFrom(InTimeOrder(records), primary, 0));
  }

  /** Which captures are refused: only those without a call, for a condensed record or for a second
      session; a trace with a call is taken as it is. */
  lemma SegmentRefusesIff(records: seq<Record>, primary: int)
    ensures (exists i :: 0 <= i < |records| && records[i].event.Call?) ==> Segment(records, primary) == Ok(records)
    ensures Segment(records, primary).Err? <==>
      && (forall i :: 0 <= i < |records| ==> !records[i].event.Call?)
      && ((exists i :: 0 <= i < |records| && records[i].merged) || |TraceLog.Split(Lines(records)).sessions| > 1)
    ensures Segment(records, primary).Err? ==> Segment(records, primary).error == ValueError
  {
    hide TraceLog.Split, Lines, SegmentFrom, InTimeOrder;
  }

  lemma PieceKeepsTime(r: Record, primary: int, callId: int)
    ensures forall i :: 0 <= i < |PieceOf(r, primary, callId)| ==> PieceOf(r, primary, callId)[i].t == r.t
  {}

  lemma {:induction false} SegmentKeepsTime(records: seq<Record>, primary: int)
    requires TimeOrdered(records)
    ensures var out := SegmentFrom(records, primary, 0);
      TimeOrdered(out) && (out != [] ==> records != [] && out[|out| - 1].t <= records[|records| - 1].t)
  {
    hide SegmentFrom, PieceOf, Actions;
    if records == [] {
      SegmentNothing(primary, 0);
    } else {
      var init, r := records[..|records| - 1], records[|records| - 1];
      SegmentKeepsTime(init, primary);
      SegmentPush(init, r, primary, 0);
      PieceKeepsTime(r, primary, |Actions(init)|);
      assert init + [r] == records;
      assert init != [] ==> init[|init| - 1] == records[|records| - 2];
    }
  }

  /** So the tracking time of every capture is conserved, in whatever order it was recorded. */
  lemma CaptureTimeIsConserved(records: seq<Record>, primary: int)
    requires !HasCall(records) && Analyzable(records)
    ensures var out := Segment(records, primary).value;
      TotalTracking(Build(out)) == TrackedSinceFirstCall(out, |out|)
  {
    hide Build, TotalTracking, TrackedSinceFirstCall, SegmentFrom, InTimeOrder, Analyzable;
    SortIsStable(records, 0.0, 0);
    SegmentKeepsTime(InTimeOrder(records), primary);
    TrackingTimeIsConserved(SegmentFrom(InTimeOrder(records), primary, 0));
  }

  /** Two actions recorded against the order of their times become operations in that of the times. */
  lemma LateRecordGoesFirst(a: Record, b: Record, primary: int)
    requires a.event.Send? && b.event.Send? && a.event.action == Some("late") && b.event.action == Some("early")
    requires b.t < a.t && !a.merged && !b.merged
    ensures Segment([a, b], primary).Ok? && Names(Build(Segment([a, b], primary).value)) == ["early", "late"]
  {
    hide Build, SegmentFrom, InTimeOrder, Insert, Actions, Names, TraceLog.Split, Lines, AllSends, SendsFromFirstAction;
    CapturesSplitByAction([a, b], primary);
    SortPush([], a);
    SortPush([a], b);
    InsertLast([], a);
    assert [] + [a] == [a] && [a] + [b] == [a, b];
    InsertSwaps(a, b);
    TwoActions(b, a);
    OneSession([a, b]);
  }

  lemma InsertSwaps(a: Record, b: Record)
    requires Earlier(b, a)
    ensures Insert([a], b) == [b, a]
  {
    assert [a][..0] == [] && Insert([], b) == [b];
  }

  lemma TwoActions(a: Record, b: Record)
    requires a.event.Send? && b.event.Send? && a.event.action.Some? && b.event.action.Some?
    ensures Actions([a, b]) == [a.event.action.value, b.event.action.value]
  {
    assert [a, b][..1] == [a] && [a][..0] == [];
    assert Actions([a]) == [a.event.action.value];
  }

  lemma OneSession(records: seq<Record>)
    requires |records| == 2 && !records[0].event.Session? && !records[1].event.Session?
    ensures |TraceLog.Split(Lines(records)).sessions| == 1
  {
    var lines := Lines(records);
    assert lines == [lines[0]] + [lines[1]];
    assert [lines[0]][..0] == [] && lines[..1] == [lines[0]];
    assert TraceLog.Split([]) == TraceLog.Found([], map[], None);
    var f := TraceLog.Split([lines[0]]);
    assert |f.sessions| == 1 && f.current == Some(0);
  }
}
