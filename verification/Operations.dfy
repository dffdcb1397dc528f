/** Splitting a trace into operations, and a passive capture into a trace that can be split. */
module Operations {
  import opened Common
  import TraceLog

  /** Decoded status fields the builder looks at. */
  datatype Gu = Gu(motionState: string, tracking: bool, slewing: bool)

  datatype Event =
    | Call(callId: int, op: string)
    | Return(callId: int, error: Option<string>)
    | MotionStart
    | MotionEnd(state: string)
    | Send(text: string, action: Option<string>)  // `action`: the mount action the write requests
    | Status(conn: int, gu: Option<Gu>)
    | OtherRecv(conn: int)
    | Session(id: string)
    | Other

  /** A record of a log; `merged` marks one that stands for several since the log was condensed. */
  datatype Record = Record(t: real, seqNo: int, thread: string, event: Event, merged: bool)

  datatype Operation = Operation(op: string, callId: int, tCall: real, sends: seq<string>,
                                 motionStates: seq<string>, outcome: string, trackingOn: real)

  /** The builder's variables; `current` and `motionOp` are positions in `ops`. */
  datatype Builder = Builder(ops: seq<Operation>, openCalls: map<string, seq<int>>, current: Option<nat>,
                             gu: Option<Gu>, trackingSince: Option<real>, motionOp: Option<nat>, lastT: real)

  const START := Builder([], map[], None, None, None, None, 0.0)

  ghost predicate Sound(b: Builder) {
    && b.current == (if b.ops == [] then None else Some(|b.ops| - 1))
    && (b.motionOp.Some? ==> b.motionOp.value < |b.ops|)
  }

  function Stack(b: Builder, thread: string): seq<int> {
    if thread in b.openCalls then b.openCalls[thread] else []
  }

  /** Remove the first occurrence of `id`, if any. */
  function RemoveFirst(stack: seq<int>, id: int): seq<int> {
    if stack == [] then []
    else if stack[0] == id then stack[1..]
    else [stack[0]] + RemoveFirst(stack[1..], id)
  }

  /** It does, and leaves the others in their order. */
  lemma {:induction false} RemoveFirstIs(stack: seq<int>, id: int) returns (k: nat)
    ensures k <= |stack| && id !in stack[..k] && (k < |stack| <==> id in stack)
    ensures RemoveFirst(stack, id) == stack[..k] + if k < |stack| then stack[k + 1..] else []
    ensures k < |stack| ==> stack[k] == id
  {
    k := 0;
    if stack != [] && stack[0] != id {
      var j := RemoveFirstIs(stack[1..], id);
      k := j + 1;
      assert stack[..k] == [stack[0]] + stack[1..][..j];
    }
  }

  function AppendDistinct(states: seq<string>, state: string): seq<string> {
    if states == [] || states[|states| - 1] != state then states + [state] else states
  }

  /** Credit the current operation with its share of the open tracking interval. */
  function CloseTracking(b: Builder, at: real): Builder
    requires Sound(b)
  {
    if b.current.Some? && b.trackingSince.Some? then
      var i := b.current.value;
      var op := b.ops[i];
      b.(ops := b.ops[i := op.(trackingOn := op.trackingOn + Max(0.0, at - Max(b.trackingSince.value, op.tCall)))])
    else b
  }

  function OnCall(b: Builder, r: Record): Builder
    requires Sound(b) && r.event.Call?
  {
    var stack := Stack(b, r.thread) + [r.event.callId];
    var b1 := b.(openCalls := b.openCalls[r.thread := stack]);
    if |stack| > 1 then b1
    else
      var b2 := CloseTracking(b1, r.t);
      var states := if b2.gu.Some? then [b2.gu.value.motionState] else [];
      b2.(ops := b2.ops + [Operation(r.event.op, r.event.callId, r.t, [], states, "pending", 0.0)],
          current := Some(|b2.ops|))
  }

  function OnReturn(b: Builder, r: Record): Builder
    requires Sound(b) && r.event.Return?
  {
    var id := r.event.callId;
    var b1 := if r.thread in b.openCalls then
                b.(openCalls := b.openCalls[r.thread := RemoveFirst(b.openCalls[r.thread], id)])
              else b;
    if b1.current.Some? && b1.ops[b1.current.value].callId == id then
      var i := b1.current.value;
      if r.event.error.Some? then b1.(ops := b1.ops[i := b1.ops[i].(outcome := "error:" + r.event.error.value)])
      else if b1.motionOp != b1.current then b1.(ops := b1.ops[i := b1.ops[i].(outcome := "return")])
      else b1
    else b1
  }

  function OnStatus(b: Builder, r: Record, gu: Gu): Builder
    requires Sound(b)
  {
    var b1 := b.(gu := Some(gu));
    var b2 :=
      if gu.tracking && b1.trackingSince.None? then b1.(trackingSince := Some(r.t))
      else if !gu.tracking && b1.trackingSince.Some? then CloseTracking(b1, r.t).(trackingSince := None)
      else b1;
    if b2.current.Some? then
      var i := b2.current.value;
      b2.(ops := b2.ops[i := b2.ops[i].(motionStates := AppendDistinct(b2.ops[i].motionStates, gu.motionState))])
    else b2
  }

  function Step(b0: Builder, r: Record): (b: Builder)
    requires Sound(b0)
    ensures Sound(b)
  {
    var b1 := b0.(lastT := r.t);
    match r.event
    case Call(_, _) => OnCall(b1, r)
    case Return(_, _) => OnReturn(b1, r)
    case MotionStart => b1.(motionOp := b1.current)
    case MotionEnd(state) =>
      if b1.motionOp.Some? then
        var i := b1.motionOp.value;
        b1.(ops := b1.ops[i := b1.ops[i].(outcome := "motion:" + state)], motionOp := None)
      else b1
    case Send(text, _) =>
      if b1.current.Some? then
        var i := b1.current.value;
        b1.(ops := b1.ops[i := b1.ops[i].(sends := b1.ops[i].sends + [text])])
      else b1
    case Status(_, gu) => if gu.Some? then OnStatus(b1, r, gu.value) else b1
    case OtherRecv(_) => b1
    case Session(_) => b1
    case Other => b1
  }

  function Fold(records: seq<Record>): (b: Builder)
    ensures Sound(b)
  {
    if records == [] then START else Step(Fold(records[..|records| - 1]), records[|records| - 1])
  }

  /** The operations, with unrounded tracking times. */
  function Build(records: seq<Record>): seq<Operation> {
    var b := Fold(records);
    CloseTracking(b, b.lastT).ops
  }

  lemma FoldSteps(records: seq<Record>)
    ensures Fold(records[..0]) == START
    ensures forall n :: 0 <= n < |records| ==> Fold(records[..n + 1]) == Step(Fold(records[..n]), records[n])
  {
    hide Step;
    forall n | 0 <= n < |records| ensures Fold(records[..n + 1]) == Step(Fold(records[..n]), records[n]) {
      assert records[..n + 1][..n] == records[..n];
    }
  }

  method BuildOperations(records: seq<Record>) returns (ops: seq<Operation>)
    ensures ops == Build(records)
  {
    hide Fold, RemoveFirst, AppendDistinct, Max;
    FoldSteps(records);
    var openCalls: map<string, seq<int>> := map[];
    var current: Option<nat> := None;
    var gu: Option<Gu> := None;
    var trackingSince: Option<real> := None;
    var motionOp: Option<nat> := None;
    var lastT := 0.0;
    ops := [];
    for n := 0 to |records|
      invariant Fold(records[..n]) == Builder(ops, openCalls, current, gu, trackingSince, motionOp, lastT)
    {
      var r := records[n];
      assert Fold(records[..n + 1]) == Step(Fold(records[..n]), r);
      lastT := r.t;
      match r.event
      case Call(id, op) =>
        var stack := (if r.thread in openCalls then openCalls[r.thread] else []) + [id];
        openCalls := openCalls[r.thread := stack];
        if |stack| == 1 {
          if current.Some? && trackingSince.Some? {
            var i := current.value;
            var share := Max(0.0, r.t - Max(trackingSince.value, ops[i].tCall));
            ops := ops[i := ops[i].(trackingOn := ops[i].trackingOn + share)];
          }
          current := Some(|ops|);
          var states := if gu.Some? then [gu.value.motionState] else [];
          ops := ops + [Operation(op, id, r.t, [], states, "pending", 0.0)];
        }
      case Return(id, error) =>
        if r.thread in openCalls {
          openCalls := openCalls[r.thread := RemoveFirst(openCalls[r.thread], id)];
        }
        if current.Some? && ops[current.value].callId == id {
          var i := current.value;
          if error.Some? {
            ops := ops[i := ops[i].(outcome := "error:" + error.value)];
          } else if current != motionOp {
            ops := ops[i := ops[i].(outcome := "return")];
          }
        }
      case MotionStart =>
        motionOp := current;
      case MotionEnd(state) =>
        if motionOp.Some? {
          var i := motionOp.value;
          ops := ops[i := ops[i].(outcome := "motion:" + state)];
        }
        motionOp := None;
      case Send(text, _) =>
        if current.Some? {
          var i := current.value;
          ops := ops[i := ops[i].(sends := ops[i].sends + [text])];
        }
      case Status(_, Some(status)) =>
        gu := Some(status);
        if status.tracking && trackingSince == None {
          trackingSince := Some(r.t);
        } else if !status.tracking && trackingSince.Some? {
          if current.Some? {
            var i := current.value;
            var share := Max(0.0, r.t - Max(trackingSince.value, ops[i].tCall));
            ops := ops[i := ops[i].(trackingOn := ops[i].trackingOn + share)];
          }
          trackingSince := None;
        }
        if current.Some? {
          var i := current.value;
          ops := ops[i := ops[i].(motionStates := AppendDistinct(ops[i].motionStates, status.motionState))];
        }
      case Status(_, None) =>
      case OtherRecv(_) =>
      case Session(_) =>
      case Other =>
    }
    assert records[..|records|] == records;
    if current.Some? && trackingSince.Some? {
      var i := current.value;
      var share := Max(0.0, lastT - Max(trackingSince.value, ops[i].tCall));
      ops := ops[i := ops[i].(trackingOn := ops[i].trackingOn + share)];
    }
  }

  // ---- passive captures ----------------------------------------------------------------------

  predicate Earlier(a: Record, b: Record) { a.t < b.t || (a.t == b.t && a.seqNo < b.seqNo) }

  /** `r` goes behind every record that is not later. */
  function Insert(sorted: seq<Record>, r: Record): seq<Record> {
    var n := |sorted|;
    if n > 0 && Earlier(r, sorted[n - 1]) then Insert(sorted[..n - 1], r) + [sorted[n - 1]] else sorted + [r]
  }

  /** Sorted by time and number; records alike in both keep their order. */
  function InTimeOrder(records: seq<Record>): seq<Record> {
    if records == [] then [] else Insert(InTimeOrder(records[..|records| - 1]), records[|records| - 1])
  }

  function LineOf(r: Record): TraceLog.Line {
    TraceLog.Line(0, TraceLog.Stamp(r.t, 0, "", r.thread),
                  if r.event.Session? then TraceLog.Session(r.event.id, "", false) else TraceLog.Entry("", ""))
  }

  function Lines(records: seq<Record>): seq<TraceLog.Line> {
    seq(|records|, i requires 0 <= i < |records| => LineOf(records[i]))
  }

  predicate Condensed(records: seq<Record>) { exists i :: 0 <= i < |records| && records[i].merged }

  /** A capture can be analyzed if it is one raw session. */
  predicate Analyzable(records: seq<Record>) {
    |TraceLog.Split(Lines(records)).sessions| <= 1 && !Condensed(records)
  }

  predicate FromOtherClient(r: Record, primary: int) {
    (r.event.Status? || r.event.OtherRecv?) && r.event.conn != primary
  }

  /** A record made up for the write `r`. */
  function Before(r: Record, e: Event): Record { Record(r.t, r.seqNo, "capture", e, false) }

  /** Insert a call and its return before every write that requests an action. */
  function SegmentFrom(records: seq<Record>, primary: int, callId: int): seq<Record> {
    if records == [] then []
    else
      var r, rest := records[0], records[1..];
      if FromOtherClient(r, primary) then SegmentFrom(rest, primary, callId)
      else if r.event.Send? && r.event.action.Some? then
        [Before(r, Call(callId + 1, r.event.action.value)), Before(r, Return(callId + 1, None)), r] +
        SegmentFrom(rest, primary, callId + 1)
      else [r] + SegmentFrom(rest, primary, callId)
  }

  predicate HasCall(records: seq<Record>) { exists i :: 0 <= i < |records| && records[i].event.Call? }

  /** A trace that has calls stays as it is; a capture is sorted and then segmented. */
  function Segment(records: seq<Record>, primary: int): Result<seq<Record>> {
    if HasCall(records) then Ok(records)
    else if !Analyzable(records) then Err(ValueError)
    else Ok(SegmentFrom(InTimeOrder(records), primary, 0))
  }

  method SegmentOperations(records: seq<Record>, primary: int) returns (r: Result<seq<Record>>)
    ensures r == Segment(records, primary)
  {
    hide InTimeOrder, SegmentFrom, Lines, TraceLog.Split, TraceLog.Sound, HasCall, Condensed;
    if HasCall(records) {
      return Ok(records);
    }
    var sessions := TraceLog.SplitSessions(Lines(records));
    if |sessions| > 1 || Condensed(records) {
      return Err(ValueError);
    }
    var out := InsertCalls(InTimeOrder(records), primary);
    r := Ok(out);
  }

  /** What one record of a capture becomes. */
  function PieceOf(r: Record, primary: int, callId: int): seq<Record> {
    if FromOtherClient(r, primary) then []
    else if r.event.Send? && r.event.action.Some? then
      [Before(r, Call(callId + 1, r.event.action.value)), Before(r, Return(callId + 1, None)), r]
    else [r]
  }

  function NextId(r: Record, callId: int): int {
    if r.event.Send? && r.event.action.Some? then callId + 1 else callId
  }

  lemma SegmentUnfold(records: seq<Record>, primary: int, callId: int)
    requires records != []
    ensures SegmentFrom(records, primary, callId) ==
            PieceOf(records[0], primary, callId) + SegmentFrom(records[1..], primary, NextId(records[0], callId))
  {
  }

  lemma PieceCases(r: Record, primary: int, callId: int)
    ensures FromOtherClient(r, primary) ==> PieceOf(r, primary, callId) == [] && NextId(r, callId) == callId
    ensures !FromOtherClient(r, primary) && r.event.Send? && r.event.action.Some? ==>
      && NextId(r, callId) == callId + 1
      && PieceOf(r, primary, callId) ==
         [Before(r, Call(callId + 1, r.event.action.value)), Before(r, Return(callId + 1, None))] + [r]
    ensures !FromOtherClient(r, primary) && !(r.event.Send? && r.event.action.Some?) ==>
      PieceOf(r, primary, callId) == [r] && NextId(r, callId) == callId
  {}

  lemma Regroup(a: seq<Record>, b: seq<Record>, c: seq<Record>)
    ensures (a + b) + c == a + (b + c)
  {}

  method InsertCalls(sorted: seq<Record>, primary: int) returns (out: seq<Record>)
    ensures out == SegmentFrom(sorted, primary, 0)
  {
    out := [];
    var callId := 0;
    for i := 0 to |sorted|
      invariant out + SegmentFrom(sorted[i..], primary, callId) == SegmentFrom(sorted, primary, 0)
    {
      hide SegmentFrom, PieceOf, NextId;
      var r := sorted[i];
      ghost var before, id, rest := out, callId, sorted[i..];
      SegmentUnfold(rest, primary, callId);
      PieceCases(r, primary, callId);
      assert rest[0] == r && rest[1..] == sorted[i + 1..];
      if FromOtherClient(r, primary) {
        continue;
      }
      if r.event.Send? && r.event.action.Some? {
        callId := callId + 1;
        out := out + [Before(r, Call(callId, r.event.action.value)), Before(r, Return(callId, None))];
        Regroup(before, out[|before|..], [r]);
      }
      out := out + [r];
      Regroup(before, PieceOf(r, primary, id), SegmentFrom(sorted[i + 1..], primary, callId));
    }
  }
}
