/** The motion handle and the client's start and stop code as interleaved atomic steps of one
    worker per handle, any number of stoppers and any number of starters. */
module Motion {
  import opened Common

  /** Identifies one verified stop of the mount. */
  type StopResult = int

  /** State, result and error of a handle. A stopped move's error carries a stop result, if known. */
  datatype Outcome =
    | Running
    | Succeeded(result: int)
    | Failed(reason: Error)
    | Halted(stopResult: Option<StopResult>)

  /** Where a worker stands. `Clear` is the window between a passed check and the next one;
      `Ended` holds the outcome the worker has not published yet. */
  datatype Pc = NotStarted | Ready | Clear | Waiting | Ended(outcome: Outcome) | Published

  datatype Handle = Handle(stopRequested: bool, pc: Pc, outcome: Outcome,
                           stopResult: Option<StopResult>, done: bool)

  const NEW := Handle(false, NotStarted, Running, None, false)

  function Request(h: Handle): Handle { h.(stopRequested := true) }

  /** The worker's locked section. */
  function Publish(h: Handle): Handle
    requires h.pc.Ended?
  {
    h.(pc := Published,
       outcome := if h.pc.outcome == Halted(None) then Halted(h.stopResult) else h.pc.outcome)
  }

  /** A stopper's locked section. */
  function Note(h: Handle, r: StopResult): Handle {
    h.(stopResult := Some(r), outcome := if h.outcome == Halted(None) then Halted(Some(r)) else h.outcome)
  }

  /** The handle object. Each method is one of its critical sections. */
  class MotionHandle {
    var stopRequested: bool
    var pc: Pc
    var outcome: Outcome
    var stopResult: Option<StopResult>
    var done: bool

    ghost function View(): Handle
      reads this
    {
      Handle(stopRequested, pc, outcome, stopResult, done)
    }

    constructor ()
      ensures View() == NEW
    {
      stopRequested, pc, outcome, stopResult, done := false, NotStarted, Running, None, false;
    }

    method RequestStop()
      modifies this`stopRequested
      ensures View() == Request(old(View()))
    {
      stopRequested := true;
    }

    method RecordStop(r: StopResult)
      modifies this`stopResult, this`outcome
      ensures View() == Note(old(View()), r)
    {
      stopResult := Some(r);
      if outcome.Halted? && outcome.stopResult == None {
        outcome := Halted(Some(r));
      }
    }

    method Finish()
      requires pc.Ended?
      modifies this
      ensures View() == Publish(old(View()))
    {
      var ended := pc.outcome;
      if ended.Halted? && ended.stopResult == None {
        ended := Halted(stopResult);
      }
      outcome := ended;
      pc := Published;
    }
  }

  // ---- the system ----------------------------------------------------------------------------

  /** A caller of a handle's `stop` (with its own handle) or of the client's `emergency_stop`. */
  datatype Stopper = Stopper(own: Option<nat>, seen: Option<nat>, phase: Phase)
  datatype Phase = RequestOwn | Look | Judge | RequestSeen | Send | NoteSeen(r: StopResult) | NoteOwn(r: StopResult)

  /** Progress of the starter that holds the motion lock. */
  datatype Lock = Free | Approved | Created(handle: nat)

  datatype Event =
    | Requested(h: nat)                 // a stop was requested
    | Passed(h: nat)                    // a check saw no stop request
    | Wrote(h: nat)                     // the worker wrote a motion command
    | Noted(h: nat, r: StopResult)      // a stop result was recorded
    | Committed(h: nat)                 // the worker published its outcome

  datatype System = System(handles: seq<Handle>, motion: Option<nat>, lock: Lock,
                           stoppers: map<nat, Stopper>, history: seq<Event>)

  const IDLE := System([], None, Free, map[], [])

  datatype Action =
    | BeginStart | Create | Launch
    | Check(h: nat) | Write(h: nat) | Await(h: nat) | Return(h: nat, result: int) | Raise(h: nat, e: Error)
    | Commit(h: nat) | SetDone(h: nat)
    | BeginStop(pid: nat, own: Option<nat>) | AskOwn(pid: nat) | LookUp(pid: nat) | Weigh(pid: nat) | AskSeen(pid: nat)
    | Sent(pid: nat, r: StopResult) | SendFailed(pid: nat) | RecordSeen(pid: nat) | RecordOwn(pid: nat)

  predicate Active(s: System) {
    s.motion.Some? && s.motion.value < |s.handles| && !s.handles[s.motion.value].done
  }

  predicate Working(h: Handle) { h.pc.Ready? || h.pc.Clear? || h.pc.Waiting? }

  predicate At(s: System, pid: nat, phase: Phase) { pid in s.stoppers && s.stoppers[pid].phase == phase }

  predicate Enabled(s: System, a: Action) {
    match a
    case BeginStart => s.lock.Free? && !Active(s)
    case Create => s.lock.Approved?
    case Launch => s.lock.Created? && s.lock.handle < |s.handles|
    case Check(h) => h < |s.handles| && Working(s.handles[h])
    case Write(h) => h < |s.handles| && s.handles[h].pc.Clear?
    case Await(h) => h < |s.handles| && s.handles[h].pc.Clear?
    case Return(h, _) => h < |s.handles| && Working(s.handles[h])
    case Raise(h, e) => h < |s.handles| && Working(s.handles[h]) && e != Stopped
    case Commit(h) => h < |s.handles| && s.handles[h].pc.Ended?
    case SetDone(h) => h < |s.handles| && s.handles[h].pc.Published?
    case BeginStop(pid, own) => pid !in s.stoppers && (own.Some? ==> own.value < |s.handles|)
    case AskOwn(pid) => At(s, pid, RequestOwn) && s.stoppers[pid].own.Some? && s.stoppers[pid].own.value < |s.handles|
    case LookUp(pid) => At(s, pid, Look)
    case Weigh(pid) => At(s, pid, Judge) && (s.stoppers[pid].seen.Some? ==> s.stoppers[pid].seen.value < |s.handles|)
    case AskSeen(pid) => At(s, pid, RequestSeen) && s.stoppers[pid].seen.Some? && s.stoppers[pid].seen.value < |s.handles|
    case Sent(pid, _) => At(s, pid, Send)
    case SendFailed(pid) => At(s, pid, Send)
    case RecordSeen(pid) =>
      pid in s.stoppers && s.stoppers[pid].phase.NoteSeen? &&
      s.stoppers[pid].seen.Some? && s.stoppers[pid].seen.value < |s.handles|
    case RecordOwn(pid) =>
      pid in s.stoppers && s.stoppers[pid].phase.NoteOwn? &&
      s.stoppers[pid].own.Some? && s.stoppers[pid].own.value < |s.handles|
  }

  function Put(s: System, h: nat, handle: Handle): System
    requires h < |s.handles|
  {
    s.(handles := s.handles[h := handle])
  }

  function Log(s: System, e: Event): System { s.(history := s.history + [e]) }

  function Goto(s: System, pid: nat, p: Stopper): System { s.(stoppers := s.stoppers[pid := p]) }

  function Leave(s: System, pid: nat): System { s.(stoppers := s.stoppers - {pid}) }

  /** What a stopper does after its own recording on the seen handle. */
  function AfterSeen(s: System, pid: nat, r: StopResult): System
    requires pid in s.stoppers
  {
    var p := s.stoppers[pid];
    if p.own.Some? then Goto(s, pid, p.(phase := NoteOwn(r))) else Leave(s, pid)
  }

  function Apply(s: System, a: Action): System
    requires Enabled(s, a)
  {
    match a
    case BeginStart => s.(lock := Approved)
    case Create => s.(handles := s.handles + [NEW], motion := Some(|s.handles|), lock := Created(|s.handles|))
    case Launch =>
      var h := s.handles[s.lock.handle];
      Put(s, s.lock.handle, if h.pc.NotStarted? then h.(pc := Ready) else h).(lock := Free)
    case Check(h) =>
      var w := s.handles[h];
      if w.stopRequested then Put(s, h, w.(pc := Ended(Halted(None))))
      else Log(Put(s, h, w.(pc := Clear)), Passed(h))
    case Write(h) => Log(s, Wrote(h))
    case Await(h) => Put(s, h, s.handles[h].(pc := Waiting))
    case Return(h, result) => Put(s, h, s.handles[h].(pc := Ended(Succeeded(result))))
    case Raise(h, e) => Put(s, h, s.handles[h].(pc := Ended(Failed(e))))
    case Commit(h) => Log(Put(s, h, Publish(s.handles[h])), Committed(h))
    case SetDone(h) => Put(s, h, s.handles[h].(done := true))
    case BeginStop(pid, own) => Goto(s, pid, Stopper(own, None, if own.Some? then RequestOwn else Look))
    case AskOwn(pid) =>
      var p := s.stoppers[pid];
      Log(Goto(Put(s, p.own.value, Request(s.handles[p.own.value])), pid, p.(phase := Look)), Requested(p.own.value))
    case LookUp(pid) =>
      Goto(s, pid, s.stoppers[pid].(seen := s.motion, phase := Judge))
    case Weigh(pid) =>
      var p := s.stoppers[pid];
      if p.seen.Some? && !s.handles[p.seen.value].done then Goto(s, pid, p.(phase := RequestSeen))
      else Goto(s, pid, p.(seen := None, phase := Send))
    case AskSeen(pid) =>
      var p := s.stoppers[pid];
      Log(Goto(Put(s, p.seen.value, Request(s.handles[p.seen.value])), pid, p.(phase := Send)), Requested(p.seen.value))
    case Sent(pid, r) =>
      var p := s.stoppers[pid];
      if p.seen.Some? then Goto(s, pid, p.(phase := NoteSeen(r))) else AfterSeen(s, pid, r)
    case SendFailed(pid) => Leave(s, pid)
    case RecordSeen(pid) =>
      var p := s.stoppers[pid];
      var r := p.phase.r;
      Log(AfterSeen(Put(s, p.seen.value, Note(s.handles[p.seen.value], r)), pid, r), Noted(p.seen.value, r))
    case RecordOwn(pid) =>
      var p := s.stoppers[pid];
      var r := p.phase.r;
      Log(Leave(Put(s, p.own.value, Note(s.handles[p.own.value], r)), pid), Noted(p.own.value, r))
  }

  // ---- what every step keeps -----------------------------------------------------------------

  ghost predicate HandleOk(h: Handle) {
    && (h.done ==> h.pc.Published?)
    && (h.outcome.Running? <==> !h.pc.Published?)
    && (h.pc.Ended? ==> !h.pc.outcome.Running?)
    && (h.pc.Ended? && h.pc.outcome.Halted? ==> h.pc.outcome == Halted(None) && h.stopRequested)
    && (h.outcome.Halted? ==> h.stopRequested)
    && (h.outcome == Halted(None) ==> h.stopResult == None)
  }

  /** Some check of `h` before position `n` saw no stop request, and none had been made. */
  ghost predicate SawNone(history: seq<Event>, h: nat, n: nat)
    requires n <= |history|
  {
    exists j :: 0 <= j < n && history[j] == Passed(h) && Requested(h) !in history[..j]
  }

  /** No stop of `h` was recorded from position `lo` up to `hi`. */
  ghost predicate NoNote(history: seq<Event>, h: nat, lo: nat, hi: nat) {
    forall k :: lo <= k < hi && k < |history| ==> !(history[k].Noted? && history[k].h == h)
  }

  ghost predicate LastNoteAt(history: seq<Event>, h: nat, r: StopResult, j: nat) {
    j < |history| && history[j] == Noted(h, r) && NoNote(history, h, j + 1, |history|)
  }

  /** Position `j` recorded `r`, the last stop before the worker of `h` published its outcome at
      position `c` or, when there was none before, the first one after. */
  ghost predicate CarriedAt(history: seq<Event>, h: nat, r: StopResult, j: nat, c: nat) {
    && j < |history| && history[j] == Noted(h, r)
    && c < |history| && history[c] == Committed(h)
    && NoNote(history, h, if j < c then j + 1 else 0, if j < c then c else j)
  }

  ghost predicate Carried(history: seq<Event>, h: nat, r: StopResult) {
    exists j: nat, c: nat :: CarriedAt(history, h, r, j, c)
  }

  ghost predicate HistoryOk(h: Handle, i: nat, history: seq<Event>) {
    && (h.stopRequested <==> Requested(i) in history)
    && (h.pc.Clear? ==> SawNone(history, i, |history|))
    && (h.pc.Published? <==> Committed(i) in history)
    && (h.stopResult == None ==> NoNote(history, i, 0, |history|))
    && (h.stopResult.Some? ==> exists j: nat :: LastNoteAt(history, i, h.stopResult.value, j))
    && (h.outcome.Halted? && h.outcome.stopResult.Some? ==> Carried(history, i, h.outcome.stopResult.value))
  }

  ghost predicate EventsOk(history: seq<Event>, n: nat) {
    && (forall e :: e in history ==> e.h < n)
    && (forall i: nat :: i < |history| && history[i].Wrote? ==> SawNone(history, history[i].h, i))
  }

  ghost predicate StopperOk(p: Stopper, n: nat) {
    && (p.own.Some? ==> p.own.value < n)
    && (p.seen.Some? ==> p.seen.value < n)
    && (p.phase.RequestOwn? || p.phase.NoteOwn? ==> p.own.Some?)
    && (p.phase.RequestSeen? || p.phase.NoteSeen? ==> p.seen.Some?)
  }

  /** Every handle but the one in the motion slot is done. */
  ghost predicate SlotOk(s: System) {
    && (s.motion.Some? ==> s.motion.value < |s.handles|)
    && (forall i :: 0 <= i < |s.handles| && s.motion != Some(i) ==> s.handles[i].done)
    && (s.lock.Approved? ==> !Active(s))
    && (s.lock.Created? ==> s.motion == Some(s.lock.handle) && s.handles[s.lock.handle].pc.NotStarted?)
  }

  ghost predicate Inv(s: System) {
    && (forall i :: 0 <= i < |s.handles| ==> HandleOk(s.handles[i]))
    && (forall i :: 0 <= i < |s.handles| ==> HistoryOk(s.handles[i], i, s.history))
    && SlotOk(s)
    && (forall pid :: pid in s.stoppers ==> StopperOk(s.stoppers[pid], |s.handles|))
    && EventsOk(s.history, |s.handles|)
  }
}
