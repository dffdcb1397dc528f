/** The day-rotating trace recorder and the splitter that reads its files back. */
module TraceLog {
  import opened Common

  /** When and where a record was made; `day` is its UTC day. */
  datatype Stamp = Stamp(t: real, day: int, clock: string, thread: string)

  datatype Body =
    | Session(id: string, info: string, continued: bool)
    | Entry(kind: string, fields: string)

  datatype Line = Line(seqNo: nat, stamp: Stamp, body: Body)

  /** One file per UTC day. */
  type Files = map<int, seq<Line>>

  function File(files: Files, day: int): seq<Line> { if day in files then files[day] else [] }

  function Append(files: Files, day: int, line: Line): Files { files[day := File(files, day) + [line]] }

  // ---- recording -----------------------------------------------------------------------------

  /** A recorder: its file is open on `day`; the session header waits for the first record. */
  datatype State = State(id: string, info: string, seqNo: nat, day: Option<int>, header: Line, closed: bool)

  function Start(id: string, info: string, stamp: Stamp): State {
    State(id, info, 1, None, Line(1, stamp, Session(id, info, false)), false)
  }

  function OpenFirst(s: State, files: Files, day: int): (State, Files) {
    (s.(day := Some(day)), Append(files, day, s.header))
  }

  /** Write one entry; a new day's file first gets a continuation header. */
  function Record(s: State, files: Files, stamp: Stamp, kind: string, fields: string): (State, Files) {
    if s.closed then (s, files)
    else
      var (s1, files1) := if s.day.None? then OpenFirst(s, files, stamp.day) else (s, files);
      var n := s1.seqNo + 1;
      if s1.day == Some(stamp.day) then
        (s1.(seqNo := n), Append(files1, stamp.day, Line(n, stamp, Entry(kind, fields))))
      else
        var files2 := Append(files1, stamp.day, Line(n, stamp, Session(s1.id, s1.info, true)));
        (s1.(seqNo := n + 1, day := Some(stamp.day)),
         Append(files2, stamp.day, Line(n + 1, stamp, Entry(kind, fields))))
  }

  /** Closing leaves a header even if nothing was recorded. */
  function Close(s: State, files: Files, today: int): (State, Files) {
    if s.closed then (s, files)
    else if s.day.None? then
      var (s1, files1) := OpenFirst(s, files, today);
      (s1.(closed := true), files1)
    else (s.(closed := true), files)
  }

  /** A closed recorder records nothing more, and closing it again does nothing. */
  lemma CloseIsFinal(s: State, files: Files, today: int, stamp: Stamp, kind: string, fields: string)
    ensures var (closed, left) := Close(s, files, today);
      closed.closed && Record(closed, left, stamp, kind, fields) == (closed, left) && Close(closed, left, stamp.day) == (closed, left)
  {}

  class Disk {
    var files: Files

    constructor ()
      ensures files == map[]
    {
      files := map[];
    }

    method Write(day: int, line: Line)
      modifies this
      ensures files == Append(old(files), day, line)
    {
      files := Append(files, day, line);
    }
  }

  class Recorder {
    const disk: Disk
    const id: string
    const info: string
    var seqNo: nat
    var day: Option<int>
    var header: Option<Line>
    var closed: bool
    ghost const first: Line

    ghost function View(): State
      reads this
    {
      State(id, info, seqNo, day, first, closed)
    }

    ghost predicate Valid()
      reads this
    {
      header == if day.None? then Some(first) else None
    }

    constructor (disk: Disk, id: string, info: string, stamp: Stamp)
      ensures Valid() && View() == Start(id, info, stamp) && this.disk == disk
    {
      this.disk, this.id, this.info := disk, id, info;
      seqNo, day, closed := 1, None, false;
      header := Some(Line(1, stamp, Session(id, info, false)));
      first := Line(1, stamp, Session(id, info, false));
    }

    method Open(day: int)
      requires Valid() && this.day == None
      modifies this`day, this`header, disk
      ensures Valid() && (View(), disk.files) == OpenFirst(old(View()), old(disk.files), day)
    {
      this.day := Some(day);
      disk.Write(day, header.value);
      header := None;
    }

    method Put(stamp: Stamp, kind: string, fields: string)
      requires Valid()
      modifies this, disk
      ensures Valid() && (View(), disk.files) == Record(old(View()), old(disk.files), stamp, kind, fields)
    {
      if closed {
        return;
      }
      seqNo := seqNo + 1;
      if day == None {
        Open(stamp.day);
      }
      if day != Some(stamp.day) {
        disk.Write(stamp.day, Line(seqNo, stamp, Session(id, info, true)));
        day := Some(stamp.day);
        seqNo := seqNo + 1;
      }
      disk.Write(stamp.day, Line(seqNo, stamp, Entry(kind, fields)));
    }

    method Finish(today: int)
      requires Valid()
      modifies this, disk
      ensures Valid() && (View(), disk.files) == Close(old(View()), old(disk.files), today)
    {
      if closed {
        return;
      }
      closed := true;
      if day == None {
        Open(today);
      }
    }
  }

  // ---- splitting -----------------------------------------------------------------------------

  /** Sessions found so far; `byId` and `current` are positions in `sessions`. */
  datatype Found = Found(sessions: seq<seq<Line>>, byId: map<string, nat>, current: Option<nat>)

  function Push(f: Found, line: Line): Found
    requires f.current.Some? ==> f.current.value < |f.sessions|
  {
    if f.current.None? then f
    else f.(sessions := f.sessions[f.current.value := f.sessions[f.current.value] + [line]])
  }

  predicate Sound(f: Found) {
    && (f.current.Some? ==> f.current.value < |f.sessions|)
    && (forall id :: id in f.byId ==> f.byId[id] < |f.sessions|)
  }

  function Split(lines: seq<Line>): (f: Found)
    ensures Sound(f)
  {
    if lines == [] then Found([], map[], None)
    else
      var f, line := Split(lines[..|lines| - 1]), lines[|lines| - 1];
      match line.body
      case Session(id, _, _) =>
        if id != "" && id in f.byId then f.(current := Some(f.byId[id]))
        else
          var g := Found(f.sessions + [[]], if id != "" then f.byId[id := |f.sessions|] else f.byId, Some(|f.sessions|));
          Push(g, line)
      case Entry(_, _) =>
        Push(if f.current.None? then f.(sessions := f.sessions + [[]], current := Some(|f.sessions|)) else f, line)
  }

  method SplitSessions(lines: seq<Line>) returns (sessions: seq<seq<Line>>)
    ensures sessions == Split(lines).sessions
  {
    sessions := [];
    var byId: map<string, nat> := map[];
    var current: Option<nat> := None;
    for i := 0 to |lines|
      invariant Found(sessions, byId, current) == Split(lines[..i])
    {
      assert lines[..i + 1][..i] == lines[..i];
      var line := lines[i];
      if line.body.Session? {
        var id := line.body.id;
        if id != "" && id in byId {
          current := Some(byId[id]);
          continue;
        }
        current := Some(|sessions|);
        if id != "" {
          byId := byId[id := |sessions|];
        }
        sessions := sessions + [[]];
      } else if current == None {
        current := Some(|sessions|);
        sessions := sessions + [[]];
      }
      sessions := sessions[current.value := sessions[current.value] + [line]];
    }
    assert lines[..|lines|] == lines;
  }
}
