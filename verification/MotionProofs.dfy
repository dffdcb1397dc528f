/** Safety of the motion handle over every interleaving of worker, stoppers and starters. */
module MotionProofs {
  import opened Common
  import opened Motion

  // ---- one step ------------------------------------------------------------------------------

  /** What a handle may go through: requests, results and the end of the move are never undone. */
  ghost predicate Later(h: Handle, k: Handle) {
    && (h.stopRequested ==> k.stopRequested)
    && (h.done ==> k.done)
    && (h.pc.Published? ==> k.pc.Published?)
    && (k.pc.NotStarted? ==> h.pc.NotStarted?)
    && (h.stopResult.Some? ==> k.stopResult.Some?)
    && (!h.outcome.Running? ==> k.outcome == h.outcome || (h.outcome == Halted(None) && k.outcome.Halted?))
  }

  predicate Starts(a: Action) { a.BeginStart? || a.Create? || a.Launch? }

  /** The event a step adds to the history. */
  function EventsOf(s: System, a: Action): seq<Event>
    requires Enabled(s, a)
  {
    match a
    case Check(h) => if s.handles[h].stopRequested then [] else [Passed(h)]
    case Write(h) => [Wrote(h)]
    case Commit(h) => [Committed(h)]
    case AskOwn(pid) => [Requested(s.stoppers[pid].own.value)]
    case AskSeen(pid) => [Requested(s.stoppers[pid].seen.value)]
    case RecordSeen(pid) => [Noted(s.stoppers[pid].seen.value, s.stoppers[pid].phase.r)]
    case RecordOwn(pid) => [Noted(s.stoppers[pid].own.value, s.stoppers[pid].phase.r)]
    case _ => []
  }

  lemma StepEffect(s: System, a: Action)
    requires Inv(s) && Enabled(s, a)
    ensures var t := Apply(s, a);
      && t.history == s.history + EventsOf(s, a)
      && |s.handles| <= |t.handles|
      && (forall i :: 0 <= i < |s.handles| ==> Later(s.handles[i], t.handles[i]))
      && (!Starts(a) ==> t.motion == s.motion && t.lock == s.lock && |t.handles| == |s.handles|)
  {
    hide HistoryOk, EventsOk, SlotOk, StopperOk;
  }

  lemma StartKeepsSlot(s: System, a: Action)
    requires Inv(s) && Enabled(s, a) && Starts(a)
    ensures SlotOk(Apply(s, a))
  {
    hide HistoryOk, EventsOk;
  }

  lemma LaterKeepsSlot(s: System, t: System)
    requires SlotOk(s) && t.motion == s.motion && t.lock == s.lock && |t.handles| == |s.handles|
    requires forall i :: 0 <= i < |s.handles| ==> Later(s.handles[i], t.handles[i])
    requires forall i :: 0 <= i < |s.handles| && s.handles[i].pc.NotStarted? && s.lock == Created(i) ==> t.handles[i].pc.NotStarted?
    ensures SlotOk(t)
  {}

  lemma OthersKeepUnstarted(s: System, a: Action)
    requires Inv(s) && Enabled(s, a) && !Starts(a)
    ensures var t := Apply(s, a);
      |t.handles| == |s.handles| &&
      forall i :: 0 <= i < |s.handles| && s.handles[i].pc.NotStarted? ==> t.handles[i].pc.NotStarted?
  {
    hide HistoryOk, EventsOk, HandleOk, SlotOk, StopperOk;
  }

  lemma KeepsSlot(s: System, a: Action)
    requires Inv(s) && Enabled(s, a)
    ensures SlotOk(Apply(s, a))
  {
    hide HistoryOk, EventsOk, Apply, Enabled, HandleOk, SlotOk, StopperOk;
    if Starts(a) {
      StartKeepsSlot(s, a);
    } else {
      StepEffect(s, a);
      OthersKeepUnstarted(s, a);
      LaterKeepsSlot(s, Apply(s, a));
    }
  }

  lemma KeepsHandles(s: System, a: Action)
    requires Inv(s) && Enabled(s, a)
    ensures forall i :: 0 <= i < |Apply(s, a).handles| ==> HandleOk(Apply(s, a).handles[i])
  {
    hide HistoryOk, EventsOk, SlotOk, StopperOk;
  }

  lemma KeepsStoppers(s: System, a: Action)
    requires Inv(s) && Enabled(s, a)
    ensures var t := Apply(s, a);
      forall pid :: pid in t.stoppers ==> StopperOk(t.stoppers[pid], |t.handles|)
  {
    hide HistoryOk, EventsOk, HandleOk;
  }

  // ---- the history ---------------------------------------------------------------------------

  /** How one event changes what the history says of a handle. */
  function Seen(h: Handle, i: nat, e: Event): Handle {
    if e.h != i then h else
      match e
      case Requested(_) => Request(h)
      case Passed(_) => h.(pc := Clear)
      case Wrote(_) => h
      case Noted(_, r) => Note(h, r)
      case Committed(_) => if h.pc.Ended? then Publish(h) else h
  }

  lemma NoteGrows(history: seq<Event>, e: Event, h: nat, r: StopResult, j: nat)
    requires LastNoteAt(history, h, r, j) && !(e.Noted? && e.h == h)
    ensures LastNoteAt(history + [e], h, r, j)
  {}

  lemma CarriedGrows(history: seq<Event>, e: Event, h: nat, r: StopResult)
    requires Carried(history, h, r)
    ensures Carried(history + [e], h, r)
  {
    var j: nat, c: nat :| CarriedAt(history, h, r, j, c);
    assert CarriedAt(history + [e], h, r, j, c);
  }

  lemma SawNoneGrows(history: seq<Event>, e: Event, h: nat, n: nat)
    requires n <= |history| && SawNone(history, h, n)
    ensures SawNone(history + [e], h, n) && SawNone(history + [e], h, n + 1)
  {
    var j :| 0 <= j < n && history[j] == Passed(h) && Requested(h) !in history[..j];
    assert (history + [e])[..j] == history[..j] && (history + [e])[j] == Passed(h);
  }

  lemma SeenKeepsHistory(h: Handle, i: nat, history: seq<Event>, e: Event)
    requires HandleOk(h) && HistoryOk(h, i, history)
    requires e == Passed(i) ==> Working(h) && !h.stopRequested
    requires e == Committed(i) ==> h.pc.Ended?
    ensures HistoryOk(Seen(h, i, e), i, history + [e])
  {
    hide SawNone, Carried, HandleOk;
    var k, all := Seen(h, i, e), history + [e];
    assert forall x :: x in all <==> x in history || x == e;
    SeenWindow(h, i, history, e);
    SeenNotes(h, i, history, e);
    SeenOutcome(h, i, history, e);
  }

  lemma SeenWindow(h: Handle, i: nat, history: seq<Event>, e: Event)
    requires HistoryOk(h, i, history)
    requires e == Passed(i) ==> Working(h) && !h.stopRequested
    ensures Seen(h, i, e).pc.Clear? ==> SawNone(history + [e], i, |history + [e]|)
  {
    if e == Passed(i) {
      var all := history + [e];
      assert all[|history|] == Passed(i) && all[..|history|] == history;
    } else if h.pc.Clear? {
      SawNoneGrows(history, e, i, |history|);
    }
  }

  lemma SeenNotes(h: Handle, i: nat, history: seq<Event>, e: Event)
    requires HistoryOk(h, i, history)
    ensures var k, all := Seen(h, i, e), history + [e];
      && (k.stopResult == None ==> NoNote(all, i, 0, |all|))
      && (k.stopResult.Some? ==> exists j: nat :: LastNoteAt(all, i, k.stopResult.value, j))
  {
    hide SawNone, Carried;
    if e.Noted? && e.h == i {
      assert LastNoteAt(history + [e], i, e.r, |history|);
    } else if h.stopResult.Some? {
      var j: nat :| LastNoteAt(history, i, h.stopResult.value, j);
      NoteGrows(history, e, i, h.stopResult.value, j);
    }
  }

  lemma SeenOutcome(h: Handle, i: nat, history: seq<Event>, e: Event)
    requires HandleOk(h) && HistoryOk(h, i, history)
    requires e == Committed(i) ==> h.pc.Ended?
    ensures var k := Seen(h, i, e);
      k.outcome.Halted? && k.outcome.stopResult.Some? ==> Carried(history + [e], i, k.outcome.stopResult.value)
  {
    hide SawNone;
    var all := history + [e];
    if h.outcome.Halted? && h.outcome.stopResult.Some? {
      CarriedGrows(history, e, i, h.outcome.stopResult.value);
    }
    if e == Committed(i) && h.stopResult.Some? {
      var j: nat :| LastNoteAt(history, i, h.stopResult.value, j);
      assert CarriedAt(all, i, h.stopResult.value, j, |history|);
    }
    if e.Noted? && e.h == i && h.outcome == Halted(None) {
      var c :| 0 <= c < |history| && history[c] == Committed(i);
      assert CarriedAt(all, i, e.r, |history|, c);
    }
  }

  /** A step that adds no event changes nothing the history speaks of, but for the window. */
  lemma SilentStep(s: System, a: Action, i: nat)
    requires Inv(s) && Enabled(s, a) && EventsOf(s, a) == [] && i < |s.handles|
    ensures i < |Apply(s, a).handles|
    ensures var h, k := s.handles[i], Apply(s, a).handles[i];
      k.stopRequested == h.stopRequested && k.stopResult == h.stopResult && k.outcome == h.outcome &&
      (k.pc.Published? <==> h.pc.Published?) && (k.pc.Clear? ==> h.pc.Clear?)
  {
    hide HistoryOk, EventsOk, HandleOk, SlotOk, StopperOk;
  }

  lemma LoudStep(s: System, a: Action, i: nat)
    requires Inv(s) && Enabled(s, a) && EventsOf(s, a) != [] && i < |s.handles|
    ensures |EventsOf(s, a)| == 1 && |Apply(s, a).handles| == |s.handles|
    ensures var e := EventsOf(s, a)[0];
      && Apply(s, a).handles[i] == Seen(s.handles[i], i, e)
      && (e == Passed(i) ==> Working(s.handles[i]) && !s.handles[i].stopRequested)
      && (e == Committed(i) ==> s.handles[i].pc.Ended?)
      && (e.Wrote? ==> e.h < |s.handles| && s.handles[e.h].pc.Clear?)
      && e.h < |s.handles|
  {
    hide HistoryOk, EventsOk, HandleOk, SlotOk, StopperOk;
  }

  lemma NewcomersAreNew(s: System, a: Action)
    requires Inv(s) && Enabled(s, a)
    ensures forall i :: |s.handles| <= i < |Apply(s, a).handles| ==> Apply(s, a).handles[i] == NEW
    ensures |s.handles| < |Apply(s, a).handles| ==> EventsOf(s, a) == []
  {
    hide HistoryOk, EventsOk, HandleOk, SlotOk, StopperOk;
  }

  lemma NewIsUnheardOf(history: seq<Event>, i: nat)
    requires forall e :: e in history ==> e.h < i
    ensures HistoryOk(NEW, i, history)
  {
    assert Requested(i) !in history && Committed(i) !in history;
  }

  lemma SilentKeepsHistory(h: Handle, k: Handle, i: nat, history: seq<Event>)
    requires HistoryOk(h, i, history)
    requires k.stopRequested == h.stopRequested && k.stopResult == h.stopResult && k.outcome == h.outcome
    requires (k.pc.Published? <==> h.pc.Published?) && (k.pc.Clear? ==> h.pc.Clear?)
    ensures HistoryOk(k, i, history)
  {
    hide SawNone, Carried, NoNote, LastNoteAt;
  }

  lemma KeepsHistory(s: System, a: Action, i: nat)
    requires Inv(s) && Enabled(s, a) && i < |Apply(s, a).handles|
    ensures HistoryOk(Apply(s, a).handles[i], i, Apply(s, a).history)
  {
    hide HistoryOk, HandleOk, SlotOk, StopperOk, Enabled, Apply, EventsOf, Seen, Later;
    StepEffect(s, a);
    var t, e := Apply(s, a), EventsOf(s, a);
    if i >= |s.handles| {
      NewcomersAreNew(s, a);
      NewIsUnheardOf(s.history, i);
      assert t.history == s.history;
    } else if e == [] {
      SilentStep(s, a, i);
      SilentKeepsHistory(s.handles[i], t.handles[i], i, s.history);
      assert t.history == s.history;
    } else {
      LoudStep(s, a, i);
      assert e == [e[0]];
      SeenKeepsHistory(s.handles[i], i, s.history, e[0]);
    }
  }

  lemma EventKeepsEvents(history: seq<Event>, e: Event, n: nat)
    requires EventsOk(history, n) && e.h < n
    requires e.Wrote? ==> SawNone(history, e.h, |history|)
    ensures EventsOk(history + [e], n)
  {
    var all := history + [e];
    forall i: nat | i < |all| && all[i].Wrote? ensures SawNone(all, all[i].h, i) {
      if i < |history| {
        assert all[i] == history[i];
        SawNoneGrows(history, e, history[i].h, i);
      } else {
        SawNoneGrows(history, e, e.h, |history|);
      }
    }
  }

  lemma KeepsEvents(s: System, a: Action)
    requires Inv(s) && Enabled(s, a)
    ensures EventsOk(Apply(s, a).history, |Apply(s, a).handles|)
  {
    hide HandleOk, SlotOk, StopperOk, Enabled, Apply, EventsOf, Seen, SawNone, Later;
    StepEffect(s, a);
    var t, e := Apply(s, a), EventsOf(s, a);
    if e == [] {
      assert t.history == s.history;
    } else if |s.handles| > 0 {
      LoudStep(s, a, 0);
      assert e == [e[0]];
      EventKeepsEvents(s.history, e[0], |s.handles|);
    } else {
      EventNeedsHandle(s, a);
    }
  }

  lemma EventNeedsHandle(s: System, a: Action)
    requires Inv(s) && Enabled(s, a) && EventsOf(s, a) != []
    ensures |s.handles| > 0
  {
    hide HistoryOk, EventsOk, HandleOk, SlotOk, StopperOk;
  }

  lemma KeepsInv(s: System, a: Action)
    requires Inv(s) && Enabled(s, a)
    ensures Inv(Apply(s, a))
  {
    hide HistoryOk, EventsOk, HandleOk, SlotOk, StopperOk, Enabled, Apply;
    KeepsHandles(s, a);
    KeepsSlot(s, a);
    KeepsStoppers(s, a);
    KeepsEvents(s, a);
    forall i | 0 <= i < |Apply(s, a).handles|
      ensures HistoryOk(Apply(s, a).handles[i], i, Apply(s, a).history)
    {
      KeepsHistory(s, a, i);
    }
  }

  // ---- every run -----------------------------------------------------------------------------

  /** A run: the actions, each enabled when its turn comes. */
  predicate Runs(s: System, run: seq<Action>)
    decreases |run|
  {
    run == [] || (Enabled(s, run[0]) && Runs(Apply(s, run[0]), run[1..]))
  }

  function After(s: System, run: seq<Action>): System
    requires Runs(s, run)
    decreases |run|
  {
    if run == [] then s else After(Apply(s, run[0]), run[1..])
  }

  lemma {:induction false} RunKeepsInv(s: System, run: seq<Action>)
    requires Inv(s) && Runs(s, run)
    ensures Inv(After(s, run))
    decreases |run|
  {
    hide Inv, Enabled, Apply;
    if run != [] {
      KeepsInv(s, run[0]);
      RunKeepsInv(Apply(s, run[0]), run[1..]);
    }
  }

  lemma RunFromIdle(run: seq<Action>)
    requires Runs(IDLE, run)
    ensures Inv(After(IDLE, run))
  {
    hide Enabled, Apply, Runs, After;
    RunKeepsInv(IDLE, run);
  }

  /** At most one handle is not done, and it is the one the client calls the active motion. */
  lemma OneActiveMotion(run: seq<Action>, i: nat, j: nat)
    requires Runs(IDLE, run)
    requires i < |After(IDLE, run).handles| && j < |After(IDLE, run).handles|
    requires !After(IDLE, run).handles[i].done && !After(IDLE, run).handles[j].done
    ensures i == j && After(IDLE, run).motion == Some(i) && Active(After(IDLE, run))
  {
    hide Enabled, Apply, Runs, After;
    RunFromIdle(run);
  }

  /** A second start is refused for as long as the first move runs. */
  lemma NoStartWhileActive(run: seq<Action>, i: nat)
    requires Runs(IDLE, run) && i < |After(IDLE, run).handles| && !After(IDLE, run).handles[i].done
    ensures !Enabled(After(IDLE, run), BeginStart) && !Enabled(After(IDLE, run), Create)
  {
    hide Apply, Runs, After, HistoryOk, HandleOk, StopperOk, EventsOk;
    OneActiveMotion(run, i, i);
    RunFromIdle(run);
  }

  lemma {:induction false} HandlesOnlyAdvance(s: System, run: seq<Action>, i: nat)
    requires Inv(s) && Runs(s, run) && i < |s.handles|
    ensures i < |After(s, run).handles| && Later(s.handles[i], After(s, run).handles[i])
    decreases |run|
  {
    hide Inv, Enabled, Apply, EventsOf;
    if run != [] {
      StepEffect(s, run[0]);
      KeepsInv(s, run[0]);
      HandlesOnlyAdvance(Apply(s, run[0]), run[1..], i);
    }
  }

  /** Once a move has left `running`, its state, result and error are fixed; only a stopped
      move that knows no stop result yet may still learn one, and that one is then fixed. */
  lemma OutcomeIsFixed(before: seq<Action>, after: seq<Action>, i: nat)
    requires Runs(IDLE, before) && Runs(After(IDLE, before), after) && i < |After(IDLE, before).handles|
    requires !After(IDLE, before).handles[i].outcome.Running?
    ensures var s := After(IDLE, before); var t := After(s, after);
      && i < |t.handles|
      && (t.handles[i].outcome == s.handles[i].outcome ||
          (s.handles[i].outcome == Halted(None) && t.handles[i].outcome.Halted?))
  {
    hide Enabled, Apply, Runs, After;
    RunFromIdle(before);
    HandlesOnlyAdvance(After(IDLE, before), after, i);
  }

  /** A move ends as stopped only if somebody asked for a stop, and its error carries no stop
      result exactly when none was recorded; the one it carries was recorded last before the
      worker published or else first afterwards. */
  lemma StoppedMeansRequested(run: seq<Action>, i: nat)
    requires Runs(IDLE, run) && i < |After(IDLE, run).handles|
    requires After(IDLE, run).handles[i].outcome.Halted?
    ensures var s := After(IDLE, run); var h := s.handles[i];
      && Requested(i) in s.history
      && (h.outcome == Halted(None) <==> NoNote(s.history, i, 0, |s.history|))
      && (h.outcome != Halted(None) ==> Carried(s.history, i, h.outcome.stopResult.value))
  {
    hide Enabled, Apply, Runs, After, SlotOk, StopperOk, EventsOk;
    RunFromIdle(run);
    var s := After(IDLE, run);
    assert HandleOk(s.handles[i]) && HistoryOk(s.handles[i], i, s.history);
  }

  /** The motion `h` is over or asked to stop, or the stopper that saw it has yet to ask. */
  ghost predicate Approached(s: System, pid: nat, h: nat) {
    && h < |s.handles|
    && (s.handles[h].done || s.handles[h].stopRequested ||
        (pid in s.stoppers && s.stoppers[pid].seen == Some(h) && s.stoppers[pid].phase in {Judge, RequestSeen}))
  }

  lemma StepApproaches(s: System, a: Action, pid: nat, h: nat)
    requires Enabled(s, a) && Approached(s, pid, h)
    ensures Approached(Apply(s, a), pid, h)
  {}

  lemma {:induction false} RunApproaches(s: System, run: seq<Action>, pid: nat, h: nat)
    requires Runs(s, run) && Approached(s, pid, h)
    ensures Approached(After(s, run), pid, h)
    decreases |run|
  {
    hide Enabled, Apply, Approached;
    if run != [] {
      StepApproaches(s, run[0], pid, h);
      RunApproaches(Apply(s, run[0]), run[1..], pid, h);
    }
  }

  /** A stop that looks up the active motion while a move runs sends nothing to the mount before that
      move is over or was asked to stop, whatever the others do in between. */
  lemma ActiveMotionIsAsked(s: System, run: seq<Action>, pid: nat, h: nat)
    requires Enabled(s, LookUp(pid)) && s.motion == Some(h) && Active(s) && Runs(Apply(s, LookUp(pid)), run)
    ensures var t := After(Apply(s, LookUp(pid)), run);
      && h < |t.handles|
      && (pid !in t.stoppers || t.stoppers[pid].phase !in {Judge, RequestSeen} ==>
            t.handles[h].done || t.handles[h].stopRequested)
  {
    hide Runs, After;
    RunApproaches(Apply(s, LookUp(pid)), run, pid, h);
  }

  /** Whoever waits until a move is done finds its final outcome. */
  lemma DoneHasAnOutcome(run: seq<Action>, i: nat)
    requires Runs(IDLE, run) && i < |After(IDLE, run).handles| && After(IDLE, run).handles[i].done
    ensures !After(IDLE, run).handles[i].outcome.Running?
    ensures Committed(i) in After(IDLE, run).history
  {
    hide Enabled, Apply, Runs, After, SlotOk, StopperOk, EventsOk;
    RunFromIdle(run);
    var s := After(IDLE, run);
    assert HandleOk(s.handles[i]) && HistoryOk(s.handles[i], i, s.history);
  }

  /** Every motion command written follows a check that saw no stop request. */
  lemma WritesFollowAClearCheck(run: seq<Action>, n: nat)
    requires Runs(IDLE, run)
    requires n < |After(IDLE, run).history| && After(IDLE, run).history[n].Wrote?
    ensures SawNone(After(IDLE, run).history, After(IDLE, run).history[n].h, n)
  {
    hide Enabled, Apply, Runs, After, SlotOk, StopperOk, HistoryOk, HandleOk;
    RunFromIdle(run);
  }

  lemma {:induction false} Trace(states: seq<System>, run: seq<Action>)
    requires |states| == |run| + 1
    requires forall i :: 0 <= i < |run| ==> Enabled(states[i], run[i]) && Apply(states[i], run[i]) == states[i + 1]
    ensures Runs(states[0], run) && After(states[0], run) == states[|run|]
    decreases |run|
  {
    hide Enabled, Apply;
    if run != [] {
      forall i | 0 <= i < |run[1..]|
        ensures Enabled(states[1..][i], run[1..][i]) && Apply(states[1..][i], run[1..][i]) == states[1..][i + 1]
      {
        assert run[1..][i] == run[i + 1] && states[1..][i] == states[i + 1];
      }
      Trace(states[1..], run[1..]);
    }
  }

  const WINDOW := [BeginStart, Create, Launch, Check(0), BeginStop(0, Some(0)), AskOwn(0), Write(0)]

  const ASKED := NEW.(pc := Clear, stopRequested := true)

  /** The states `WINDOW` goes through. */
  const WINDOW_STATES := [
    IDLE,
    IDLE.(lock := Approved),
    System([NEW], Some(0), Created(0), map[], []),
    System([NEW.(pc := Ready)], Some(0), Free, map[], []),
    System([NEW.(pc := Clear)], Some(0), Free, map[], [Passed(0)]),
    System([NEW.(pc := Clear)], Some(0), Free, map[0 := Stopper(Some(0), None, RequestOwn)], [Passed(0)]),
    System([ASKED], Some(0), Free, map[0 := Stopper(Some(0), None, Look)], [Passed(0), Requested(0)]),
    System([ASKED], Some(0), Free, map[0 := Stopper(Some(0), None, Look)], [Passed(0), Requested(0), Wrote(0)])
  ]

  lemma WindowStep(i: nat)
    requires i < |WINDOW|
    ensures Enabled(WINDOW_STATES[i], WINDOW[i]) && Apply(WINDOW_STATES[i], WINDOW[i]) == WINDOW_STATES[i + 1]
  {}

  /** That check does not order the write before the stop: a stop can fall between the two. */
  lemma WriteAfterStopIsPossible()
    ensures exists run :: Runs(IDLE, run) && After(IDLE, run).history == [Passed(0), Requested(0), Wrote(0)]
  {
    hide Runs, After, Enabled, Apply;
    forall i | 0 <= i < |WINDOW|
      ensures Enabled(WINDOW_STATES[i], WINDOW[i]) && Apply(WINDOW_STATES[i], WINDOW[i]) == WINDOW_STATES[i + 1]
    {
      WindowStep(i);
    }
    Trace(WINDOW_STATES, WINDOW);
  }

  /** A worker that was asked to stop outside the window never enters it again. */
  lemma WindowStaysShut(s: System, a: Action, h: nat)
    requires Inv(s) && Enabled(s, a) && h < |s.handles|
    requires s.handles[h].stopRequested && !s.handles[h].pc.Clear?
    ensures a != Write(h) && h < |Apply(s, a).handles|
    ensures Apply(s, a).handles[h].stopRequested && !Apply(s, a).handles[h].pc.Clear?
  {
    hide HistoryOk, EventsOk, HandleOk, SlotOk, StopperOk;
  }

  lemma {:induction false} NoWriteOnceShut(s: System, run: seq<Action>, h: nat)
    requires Inv(s) && Runs(s, run) && h < |s.handles|
    requires s.handles[h].stopRequested && !s.handles[h].pc.Clear?
    ensures Write(h) !in run
    decreases |run|
  {
    hide Inv, Enabled, Apply;
    if run != [] {
      WindowStaysShut(s, run[0], h);
      KeepsInv(s, run[0]);
      NoWriteOnceShut(Apply(s, run[0]), run[1..], h);
      assert run == [run[0]] + run[1..];
    }
  }

  /** Exactly when a worker that was asked to stop may still write a command: the request met it
      after a clear check, before it went on to wait or end. No other request is followed by a
      write, however the threads go on. */
  lemma WriteAfterStopIff(s: System, h: nat)
    requires Inv(s) && h < |s.handles| && s.handles[h].stopRequested
    ensures (exists run :: Runs(s, run) && Write(h) in run) <==> s.handles[h].pc.Clear?
  {
    hide Inv, Apply;
    if s.handles[h].pc.Clear? {
      assert Runs(s, [Write(h)]) && Write(h) in [Write(h)] by {
        assert Enabled(s, Write(h)) && [Write(h)][1..] == [];
      }
    } else {
      forall run | Runs(s, run) ensures Write(h) !in run {
        NoWriteOnceShut(s, run, h);
      }
    }
  }
}
