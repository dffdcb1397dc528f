/** Recording into daily files and splitting them again gives every session back. */
module TraceLogProofs {
  import opened Common
  import opened TraceLog

  // ---- what a list of lines holds for one session --------------------------------------------

  /** The session headers carrying `id`. */
  ghost function Heads(lines: seq<Line>, id: string): seq<Line> {
    if lines == [] then []
    else
      var last := lines[|lines| - 1];
      Heads(lines[..|lines| - 1], id) + if last.body.Session? && last.body.id == id then [last] else []
  }

  /** The id of the last header: entries carry no id of their own, so they belong to it. */
  ghost function LastId(lines: seq<Line>): Option<string> {
    if lines == [] then None
    else
      var last := lines[|lines| - 1];
      if last.body.Session? then Some(last.body.id) else LastId(lines[..|lines| - 1])
  }

  /** The entries that belong to session `id`. */
  ghost function Data(lines: seq<Line>, id: string): seq<Line> {
    if lines == [] then []
    else
      var init, last := lines[..|lines| - 1], lines[|lines| - 1];
      Data(init, id) + if last.body.Entry? && LastId(init) == Some(id) then [last] else []
  }

  ghost predicate HeaderFirst(lines: seq<Line>) { lines != [] ==> lines[0].body.Session? }

  lemma PushLine(lines: seq<Line>, line: Line, id: string)
    ensures Heads(lines + [line], id) ==
            Heads(lines, id) + if line.body.Session? && line.body.id == id then [line] else []
    ensures LastId(lines + [line]) == if line.body.Session? then Some(line.body.id) else LastId(lines)
    ensures Data(lines + [line], id) ==
            Data(lines, id) + if line.body.Entry? && LastId(lines) == Some(id) then [line] else []
  {
    assert (lines + [line])[..|lines|] == lines;
  }

  lemma Empty(id: string)
    ensures Heads([], id) == [] && LastId([]) == None && Data([], id) == []
  {
  }

  lemma {:induction false} Joining(a: seq<Line>, b: seq<Line>, id: string)
    requires HeaderFirst(b)
    ensures Heads(a + b, id) == Heads(a, id) + Heads(b, id)
    ensures LastId(a + b) == if b == [] then LastId(a) else LastId(b)
    ensures Data(a + b, id) == Data(a, id) + Data(b, id)
    ensures b != [] ==> LastId(b).Some?
  {
    hide Heads, LastId, Data;
    if b == [] {
      assert a + b == a;
      Empty(id);
    } else {
      var init, last := b[..|b| - 1], b[|b| - 1];
      Joining(a, init, id);
      PushLine(a + init, last, id);
      PushLine(init, last, id);
      assert init + [last] == b && (a + init) + [last] == a + b;
    }
  }

  // ---- the splitter --------------------------------------------------------------------------

  ghost predicate Named(lines: seq<Line>) {
    forall i :: 0 <= i < |lines| && lines[i].body.Session? ==> lines[i].body.id != ""
  }

  /** Each session found is the first header of its id followed by the entries of that id. */
  ghost predicate Faithful(lines: seq<Line>, f: Found) {
    && Sound(f)
    && (forall id :: id in f.byId <==> id != "" && Heads(lines, id) != [])
    && (forall id :: id in f.byId ==> f.sessions[f.byId[id]] == [Heads(lines, id)[0]] + Data(lines, id))
    && (forall i, j :: i in f.byId && j in f.byId && f.byId[i] == f.byId[j] ==> i == j)
    && |f.sessions| == |f.byId|
    && (if lines == [] then f.current == None
        else LastId(lines).Some? && LastId(lines).value in f.byId && f.current == Some(f.byId[LastId(lines).value]))
  }

  lemma {:induction false} SplitIsFaithful(lines: seq<Line>)
    requires HeaderFirst(lines) && Named(lines)
    ensures Faithful(lines, Split(lines))
  {
    hide Faithful, Split;
    if lines == [] {
      NothingSplit();
    } else {
      var init, last := lines[..|lines| - 1], lines[|lines| - 1];
      SplitIsFaithful(init);
      assert init + [last] == lines;
      if last.body.Session? {
        SplitHeader(init, last);
      } else {
        SplitEntry(init, last);
      }
    }
  }

  lemma NothingSplit()
    ensures Faithful([], Split([]))
  {
  }

  lemma SplitPush(lines: seq<Line>, line: Line)
    ensures Split(lines + [line]) ==
            var f := Split(lines);
            match line.body
            case Session(id, _, _) =>
              if id != "" && id in f.byId then f.(current := Some(f.byId[id]))
              else Push(Found(f.sessions + [[]], if id != "" then f.byId[id := |f.sessions|] else f.byId, Some(|f.sessions|)), line)
            case Entry(_, _) =>
              Push(if f.current.None? then f.(sessions := f.sessions + [[]], current := Some(|f.sessions|)) else f, line)
  {
    assert (lines + [line])[..|lines|] == lines;
  }

  lemma SplitHeader(lines: seq<Line>, line: Line)
    requires Faithful(lines, Split(lines))
    requires line.body.Session? && line.body.id != ""
    ensures Faithful(lines + [line], Split(lines + [line]))
  {
    hide Heads, Data, LastId, Split, Faithful;
    SplitPush(lines, line);
    if line.body.id in Split(lines).byId {
      KnownHeader(lines, line, Split(lines));
    } else {
      NewHeader(lines, line, Split(lines));
    }
  }

  lemma PushHeader(lines: seq<Line>, line: Line)
    requires line.body.Session?
    ensures forall id :: Heads(lines + [line], id) == Heads(lines, id) + if line.body.id == id then [line] else []
    ensures forall id :: Data(lines + [line], id) == Data(lines, id)
    ensures LastId(lines + [line]) == Some(line.body.id)
  {
    hide Heads, Data, LastId;
    forall id
      ensures Heads(lines + [line], id) == Heads(lines, id) + if line.body.id == id then [line] else []
      ensures Data(lines + [line], id) == Data(lines, id)
    {
      PushLine(lines, line, id);
    }
    PushLine(lines, line, "");
  }

  lemma KnownHeader(lines: seq<Line>, line: Line, f: Found)
    requires Faithful(lines, f) && line.body.Session? && line.body.id != "" && line.body.id in f.byId
    ensures Faithful(lines + [line], f.(current := Some(f.byId[line.body.id])))
  {
    hide Heads, Data, LastId;
    PushHeader(lines, line);
    forall id | id in f.byId ensures Heads(lines + [line], id)[0] == Heads(lines, id)[0] {
    }
  }

  lemma NewHeader(lines: seq<Line>, line: Line, f: Found)
    requires Faithful(lines, f) && line.body.Session? && line.body.id != "" && line.body.id !in f.byId
    ensures Faithful(lines + [line],
      Push(Found(f.sessions + [[]], f.byId[line.body.id := |f.sessions|], Some(|f.sessions|)), line))
  {
    hide Heads, Data, LastId;
    PushHeader(lines, line);
    NoHeadsNoData(lines, line.body.id);
    forall id | id in f.byId ensures Heads(lines + [line], id)[0] == Heads(lines, id)[0] {
    }
  }

  lemma SplitEntry(lines: seq<Line>, line: Line)
    requires Faithful(lines, Split(lines))
    requires line.body.Entry? && lines != []
    ensures Faithful(lines + [line], Split(lines + [line]))
  {
    hide Heads, Data, LastId, Split;
    SplitPush(lines, line);
    forall id
      ensures Heads(lines + [line], id) == Heads(lines, id)
      ensures Data(lines + [line], id) == Data(lines, id) + if LastId(lines) == Some(id) then [line] else []
    {
      PushLine(lines, line, id);
    }
    PushLine(lines, line, "");
  }

  lemma {:induction false} NoHeadsNoData(lines: seq<Line>, id: string)
    requires Heads(lines, id) == []
    ensures Data(lines, id) == [] && LastId(lines) != Some(id)
  {
    if lines != [] {
      NoHeadsNoData(lines[..|lines| - 1], id);
    }
  }

  // ---- one recorder's run --------------------------------------------------------------------

  datatype Sample = Sample(stamp: Stamp, kind: string, fields: string)

  /** A whole session: it starts, records its entries in order and closes. */
  datatype Script = Script(id: string, info: string, start: Stamp, entries: seq<Sample>, today: int)

  function Header(s: Script): Line { Line(1, s.start, Session(s.id, s.info, false)) }

  /** The recorder after `k` entries, starting with the given files. */
  function Progress(s: Script, files: Files, k: nat): (State, Files)
    requires k <= |s.entries|
  {
    if k == 0 then (Start(s.id, s.info, s.start), files)
    else
      var (st, fs) := Progress(s, files, k - 1);
      var e := s.entries[k - 1];
      Record(st, fs, e.stamp, e.kind, e.fields)
  }

  function Perform(s: Script, files: Files): Files {
    var (st, fs) := Progress(s, files, |s.entries|);
    Close(st, fs, s.today).1
  }

  /** The entry lines as recorded, with the sequence numbers they got. */
  function Recorded(s: Script, k: nat): (lines: seq<Line>)
    requires k <= |s.entries|
    ensures |lines| == k
  {
    if k == 0 then []
    else
      var e := s.entries[k - 1];
      Recorded(s, k - 1) + [Line(Progress(s, map[], k).0.seqNo, e.stamp, Entry(e.kind, e.fields))]
  }

  /** What the session looks like when it is read back whole. */
  function SessionLines(s: Script): seq<Line> { [Header(s)] + Recorded(s, |s.entries|) }

  lemma {:induction false} StateIgnoresFiles(s: Script, files: Files, k: nat)
    requires k <= |s.entries|
    ensures Progress(s, files, k).0 == Progress(s, map[], k).0
    ensures !Progress(s, files, k).0.closed
    ensures Progress(s, files, k).0.id == s.id && Progress(s, files, k).0.info == s.info
    ensures Progress(s, files, k).0.header == Header(s)
    ensures Progress(s, files, k).0.day == if k == 0 then None else Some(s.entries[k - 1].stamp.day)
  {
    hide Record;
    if k > 0 {
      StateIgnoresFiles(s, files, k - 1);
      StateIgnoresFiles(s, map[], k - 1);
      var e := s.entries[k - 1];
      RecordState(Progress(s, files, k - 1).0, Progress(s, files, k - 1).1, Progress(s, map[], k - 1).1, e);
    }
  }

  lemma RecordState(st: State, files: Files, files': Files, e: Sample)
    requires !st.closed
    ensures var r := Record(st, files, e.stamp, e.kind, e.fields);
            && r.0 == Record(st, files', e.stamp, e.kind, e.fields).0
            && r.0.id == st.id && r.0.info == st.info && r.0.header == st.header && !r.0.closed
            && r.0.day == Some(e.stamp.day)
  {
  }

  /** The lines one record writes, each with the day of its file. */
  function Lines(st: State, e: Sample): seq<(int, Line)> {
    var day, n := e.stamp.day, st.seqNo + 1;
    var head := if st.day.None? then [(day, st.header)] else [];
    if st.day.None? || st.day.value == day then head + [(day, Line(n, e.stamp, Entry(e.kind, e.fields)))]
    else [(day, Line(n, e.stamp, Session(st.id, st.info, true))), (day, Line(n + 1, e.stamp, Entry(e.kind, e.fields)))]
  }

  /** Everything the session writes, in order: its header, continuation headers and entries. */
  function Written(s: Script, k: nat): seq<(int, Line)>
    requires k <= |s.entries|
  {
    if k == 0 then [] else Written(s, k - 1) + Lines(Progress(s, map[], k - 1).0, s.entries[k - 1])
  }

  function AllWritten(s: Script): seq<(int, Line)> {
    if s.entries == [] then [(s.today, Header(s))] else Written(s, |s.entries|)
  }

  function Store(files: Files, lines: seq<(int, Line)>): Files {
    if lines == [] then files
    else
      var (day, line) := lines[|lines| - 1];
      Append(Store(files, lines[..|lines| - 1]), day, line)
  }

  /** Numbered from `first` on without a gap. */
  predicate Numbered(lines: seq<(int, Line)>, first: nat) {
    forall i :: 0 <= i < |lines| ==> lines[i].1.seqNo == first + i
  }

  lemma {:induction false} StoreJoins(files: Files, a: seq<(int, Line)>, b: seq<(int, Line)>)
    ensures Store(files, a + b) == Store(Store(files, a), b)
  {
    if b == [] {
      assert a + b == a;
    } else {
      StoreJoins(files, a, b[..|b| - 1]);
      assert (a + b)[..|a + b| - 1] == a + b[..|b| - 1];
    }
  }

  lemma RecordStores(st: State, files: Files, e: Sample)
    requires !st.closed && (st.day.None? ==> st.seqNo == 1 && st.header.seqNo == 1)
    ensures Record(st, files, e.stamp, e.kind, e.fields).1 == Store(files, Lines(st, e))
    ensures Numbered(Lines(st, e), if st.day.None? then 1 else st.seqNo + 1)
    ensures var r := Record(st, files, e.stamp, e.kind, e.fields).0;
      r.seqNo == (if st.day.None? then 0 else st.seqNo) + |Lines(st, e)|
  {
    var lines := Lines(st, e);
    if |lines| == 2 {
      StoreJoins(files, [lines[0]], [lines[1]]);
      assert lines == [lines[0]] + [lines[1]];
    }
  }

  lemma NumberedJoins(a: seq<(int, Line)>, b: seq<(int, Line)>)
    requires Numbered(a, 1) && Numbered(b, |a| + 1)
    ensures Numbered(a + b, 1)
  {}

  lemma NothingWritten(s: Script, files: Files)
    ensures Progress(s, files, 0) == (Start(s.id, s.info, s.start), files) && Written(s, 0) == []
    ensures Store(files, []) == files && Numbered([], 1)
  {}

  lemma ProgressStep(s: Script, files: Files, k: nat)
    requires 0 < k <= |s.entries|
    ensures var st, e := Progress(s, files, k - 1), s.entries[k - 1];
      && Progress(s, files, k) == Record(st.0, st.1, e.stamp, e.kind, e.fields)
      && Written(s, k) == Written(s, k - 1) + Lines(Progress(s, map[], k - 1).0, e)
  {
    hide Record, Lines;
  }

  /** The files of a session are what it wrote, line by line, and its lines are numbered 1, 2, 3
      and so on: header, continuation headers and entries alike, without a gap. */
  lemma {:induction false} LinesAreNumbered(s: Script, files: Files, k: nat)
    requires k <= |s.entries|
    ensures Progress(s, files, k).1 == Store(files, Written(s, k))
    ensures Numbered(Written(s, k), 1)
    ensures k > 0 ==> |Written(s, k)| == Progress(s, files, k).0.seqNo
    ensures k == 0 ==> Progress(s, files, k).0.seqNo == 1
  {
    hide Record, Lines, Store, Progress, Written, Numbered;
    NothingWritten(s, files);
    if k > 0 {
      var st, fs := Progress(s, files, k - 1).0, Progress(s, files, k - 1).1;
      LinesAreNumbered(s, files, k - 1);
      StateIgnoresFiles(s, files, k - 1);
      ProgressStep(s, files, k);
      RecordStores(st, fs, s.entries[k - 1]);
      NumberedJoins(Written(s, k - 1), Lines(st, s.entries[k - 1]));
      StoreJoins(files, Written(s, k - 1), Lines(st, s.entries[k - 1]));
    }
  }

  lemma PerformStores(s: Script, files: Files)
    ensures Perform(s, files) == Store(files, AllWritten(s)) && Numbered(AllWritten(s), 1)
  {
    hide Record, Lines;
    LinesAreNumbered(s, files, |s.entries|);
    StateIgnoresFiles(s, files, |s.entries|);
    assert [(s.today, Header(s))][..0] == [];
  }

  // ---- what ends up in the files -------------------------------------------------------------

  ghost predicate Wellformed(files: Files) {
    forall d :: d in files ==> HeaderFirst(files[d]) && Named(files[d])
  }

  ghost predicate Absent(files: Files, id: string) { forall d :: Heads(File(files, d), id) == [] }

  function OnDay(lines: seq<Line>, day: int): seq<Line> {
    if lines == [] then []
    else
      var last := lines[|lines| - 1];
      OnDay(lines[..|lines| - 1], day) + if last.stamp.day == day then [last] else []
  }

  lemma AppendOne(files: Files, day: int, line: Line, d: int, id: string)
    ensures var after := Append(files, day, line);
            && Heads(File(after, d), id) == Heads(File(files, d), id) +
               (if d == day && line.body.Session? && line.body.id == id then [line] else [])
            && Data(File(after, d), id) == Data(File(files, d), id) +
               (if d == day && line.body.Entry? && LastId(File(files, d)) == Some(id) then [line] else [])
            && LastId(File(after, d)) ==
               if d == day && line.body.Session? then Some(line.body.id) else LastId(File(files, d))
  {
    PushLine(File(files, d), line, id);
    assert Heads(File(files, d), id) + [] == Heads(File(files, d), id);
    assert Data(File(files, d), id) + [] == Data(File(files, d), id);
  }

  lemma AppendWellformed(files: Files, day: int, line: Line)
    requires Wellformed(files)
    requires if line.body.Session? then line.body.id != "" else File(files, day) != []
    ensures Wellformed(Append(files, day, line))
  {
    var after := Append(files, day, line);
    forall d | d in after ensures HeaderFirst(after[d]) && Named(after[d]) {
      if d == day && d in files {
        assert after[d] == files[d] + [line];
      }
    }
  }

  /** The file of an entry's day, opened for this session if it was not open already. */
  ghost function Ready(st: State, files: Files, e: Sample): Files {
    if st.day == Some(e.stamp.day) then files
    else if st.day.None? then Append(files, e.stamp.day, st.header)
    else Append(files, e.stamp.day, Line(st.seqNo + 1, e.stamp, Session(st.id, st.info, true)))
  }

  lemma RecordShape(st: State, files: Files, e: Sample)
    requires !st.closed
    ensures var r := Record(st, files, e.stamp, e.kind, e.fields);
            r.1 == Append(Ready(st, files, e), e.stamp.day, Line(r.0.seqNo, e.stamp, Entry(e.kind, e.fields)))
  {
  }

  ghost predicate Fresh(s: Script, before: Files) { Wellformed(before) && Absent(before, s.id) && s.id != "" }

  /** The open file belongs to this session, so the next entry will be its own. */
  lemma {:induction false} OpenFileIsOwn(s: Script, before: Files, k: nat)
    requires Fresh(s, before) && k <= |s.entries|
    ensures Wellformed(Progress(s, before, k).1)
    ensures k > 0 ==> LastId(File(Progress(s, before, k).1, s.entries[k - 1].stamp.day)) == Some(s.id)
    ensures k > 0 ==> File(Progress(s, before, k).1, s.entries[k - 1].stamp.day) != []
  {
    hide Record, Wellformed, LastId, Append;
    StateIgnoresFiles(s, before, k);
    if k > 0 {
      OpenFileIsOwn(s, before, k - 1);
      StateIgnoresFiles(s, before, k - 1);
      var (st, fs) := Progress(s, before, k - 1);
      var e := s.entries[k - 1];
      RecordShape(st, fs, e);
      ReadyIsOwn(s, st, fs, e);
      var line := Line(Progress(s, before, k).0.seqNo, e.stamp, Entry(e.kind, e.fields));
      AppendOne(Ready(st, fs, e), e.stamp.day, line, e.stamp.day, s.id);
      AppendWellformed(Ready(st, fs, e), e.stamp.day, line);
      AppendNonempty(Ready(st, fs, e), e.stamp.day, line);
    }
  }

  lemma AppendNonempty(files: Files, day: int, line: Line)
    ensures File(Append(files, day, line), day) != []
  {
  }

  lemma ReadyIsOwn(s: Script, st: State, fs: Files, e: Sample)
    requires s.id != "" && Wellformed(fs) && st.id == s.id && st.header == Header(s)
    requires st.day.Some? ==> LastId(File(fs, st.day.value)) == Some(s.id) && File(fs, st.day.value) != []
    ensures Wellformed(Ready(st, fs, e))
    ensures LastId(File(Ready(st, fs, e), e.stamp.day)) == Some(s.id)
    ensures File(Ready(st, fs, e), e.stamp.day) != []
  {
    hide Wellformed, LastId, Append;
    if st.day != Some(e.stamp.day) {
      var line := if st.day.None? then st.header else Line(st.seqNo + 1, e.stamp, Session(st.id, st.info, true));
      AppendOne(fs, e.stamp.day, line, e.stamp.day, s.id);
      AppendWellformed(fs, e.stamp.day, line);
      AppendNonempty(fs, e.stamp.day, line);
    }
  }

  /** After `k` entries every file holds this session's entries of its day, in order, and every
      other session's lines as before. */
  lemma {:induction false} FilesHoldEntries(s: Script, before: Files, k: nat, d: int, id: string)
    requires Fresh(s, before) && k <= |s.entries|
    ensures var after := Progress(s, before, k).1;
            && (id == s.id ==> Data(File(after, d), id) == OnDay(Recorded(s, k), d))
            && (id != s.id ==>
                  && Data(File(after, d), id) == Data(File(before, d), id)
                  && Heads(File(after, d), id) == Heads(File(before, d), id))
  {
    hide Record, Wellformed, LastId, Append, Data, Heads, OnDay;
    if k == 0 {
      NoHeadsNoData(File(before, d), s.id);
      OnDayNone(d);
    } else {
      FilesHoldEntries(s, before, k - 1, d, id);
      OpenFileIsOwn(s, before, k - 1);
      StateIgnoresFiles(s, before, k - 1);
      StateIgnoresFiles(s, before, k);
      var (st, fs) := Progress(s, before, k - 1);
      var e := s.entries[k - 1];
      RecordShape(st, fs, e);
      ReadyIsOwn(s, st, fs, e);
      ReadyKeeps(s, st, fs, e, d, id);
      var line := Line(Progress(s, before, k).0.seqNo, e.stamp, Entry(e.kind, e.fields));
      AppendOne(Ready(st, fs, e), e.stamp.day, line, d, id);
      OnDayPush(Recorded(s, k - 1), line, d);
    }
  }

  lemma OnDayNone(d: int)
    ensures OnDay([], d) == []
  {
  }

  lemma OnDayPush(lines: seq<Line>, line: Line, d: int)
    ensures OnDay(lines + [line], d) == OnDay(lines, d) + if line.stamp.day == d then [line] else []
  {
    assert (lines + [line])[..|lines|] == lines;
  }

  lemma ReadyKeeps(s: Script, st: State, fs: Files, e: Sample, d: int, id: string)
    requires st.id == s.id && st.header == Header(s)
    ensures Data(File(Ready(st, fs, e), d), id) == Data(File(fs, d), id)
    ensures id != s.id ==> Heads(File(Ready(st, fs, e), d), id) == Heads(File(fs, d), id)
    ensures id == s.id && st.day.Some? && d != e.stamp.day ==> Heads(File(Ready(st, fs, e), d), id) == Heads(File(fs, d), id)
    ensures Heads(File(fs, d), id) <= Heads(File(Ready(st, fs, e), d), id)
    ensures st.day.None? && id == s.id ==>
              Heads(File(Ready(st, fs, e), d), id) == Heads(File(fs, d), id) + if d == e.stamp.day then [Header(s)] else []
  {
    hide Append, Data, Heads, LastId;
    if st.day != Some(e.stamp.day) {
      var line := if st.day.None? then st.header else Line(st.seqNo + 1, e.stamp, Session(st.id, st.info, true));
      AppendOne(fs, e.stamp.day, line, d, id);
    }
  }

  /** The day of the file that gets the original header. */
  function FirstDay(s: Script): int { if s.entries == [] then s.today else s.entries[0].stamp.day }

  /** While no entry is dated before the first one, no earlier file mentions the session and the
      first header in the first file is the original one. */
  lemma {:induction false} OriginalHeaderFirst(s: Script, before: Files, k: nat, d: int)
    requires Fresh(s, before) && 0 < k <= |s.entries|
    requires forall i :: 0 <= i < k ==> FirstDay(s) <= s.entries[i].stamp.day
    ensures var after := Progress(s, before, k).1;
            && (d < FirstDay(s) ==> Heads(File(after, d), s.id) == [])
            && (d == FirstDay(s) ==> Heads(File(after, d), s.id) != [] && Heads(File(after, d), s.id)[0] == Header(s))
  {
    hide Record, Wellformed, LastId, Append, Data, Heads;
    StateIgnoresFiles(s, before, k - 1);
    var (st, fs) := Progress(s, before, k - 1);
    var e := s.entries[k - 1];
    RecordShape(st, fs, e);
    ReadyKeeps(s, st, fs, e, d, s.id);
    var line := Line(Progress(s, before, k).0.seqNo, e.stamp, Entry(e.kind, e.fields));
    AppendOne(Ready(st, fs, e), e.stamp.day, line, d, s.id);
    if k > 1 {
      OriginalHeaderFirst(s, before, k - 1, d);
    }
  }

  // ---- a finished session --------------------------------------------------------------------

  /** The files hold the session: its entries day by day, its own header before any continuation. */
  ghost predicate Kept(files: Files, s: Script) {
    && (forall d :: Data(File(files, d), s.id) == OnDay(Recorded(s, |s.entries|), d))
    && (forall d :: d < FirstDay(s) ==> Heads(File(files, d), s.id) == [])
    && Heads(File(files, FirstDay(s)), s.id) != []
    && Heads(File(files, FirstDay(s)), s.id)[0] == Header(s)
  }

  ghost predicate InDayOrder(s: Script) {
    forall i, j :: 0 <= i < j < |s.entries| ==> s.entries[i].stamp.day <= s.entries[j].stamp.day
  }

  lemma PerformShape(s: Script, before: Files)
    ensures Perform(s, before) ==
            if s.entries == [] then Append(before, s.today, Header(s))
            else Progress(s, before, |s.entries|).1
  {
    StateIgnoresFiles(s, before, |s.entries|);
  }

  /** Performing a session keeps the files well formed and leaves every other session alone. */
  lemma PerformLeavesOthers(s: Script, before: Files)
    requires Fresh(s, before)
    ensures Wellformed(Perform(s, before))
    ensures forall d, id :: id != s.id ==>
              && Data(File(Perform(s, before), d), id) == Data(File(before, d), id)
              && Heads(File(Perform(s, before), d), id) == Heads(File(before, d), id)
  {
    hide Record, Wellformed, LastId, Append, Data, Heads, Perform, Progress;
    PerformShape(s, before);
    OpenFileIsOwn(s, before, |s.entries|);
    if s.entries == [] {
      AppendWellformed(before, s.today, Header(s));
    }
    forall d, id | id != s.id
      ensures && Data(File(Perform(s, before), d), id) == Data(File(before, d), id)
              && Heads(File(Perform(s, before), d), id) == Heads(File(before, d), id)
    {
      FilesHoldEntries(s, before, |s.entries|, d, id);
      if s.entries == [] {
        AppendOne(before, s.today, Header(s), d, id);
      }
    }
  }

  lemma PerformData(s: Script, before: Files, d: int)
    requires Fresh(s, before)
    ensures Data(File(Perform(s, before), d), s.id) == OnDay(Recorded(s, |s.entries|), d)
  {
    hide Record, Wellformed, LastId, Append, Data, Heads, Perform;
    PerformShape(s, before);
    FilesHoldEntries(s, before, |s.entries|, d, s.id);
    if s.entries == [] {
      AppendOne(before, s.today, Header(s), d, s.id);
    }
  }

  lemma PerformKeeps(s: Script, before: Files)
    requires Fresh(s, before) && InDayOrder(s)
    ensures Kept(Perform(s, before), s)
  {
    hide Record, Wellformed, LastId, Append, Data, Heads, Perform, Progress;
    PerformShape(s, before);
    forall d ensures Data(File(Perform(s, before), d), s.id) == OnDay(Recorded(s, |s.entries|), d) {
      PerformData(s, before, d);
    }
    forall d | d <= FirstDay(s)
      ensures d < FirstDay(s) ==> Heads(File(Perform(s, before), d), s.id) == []
      ensures d == FirstDay(s) ==>
                && Heads(File(Perform(s, before), d), s.id) != []
                && Heads(File(Perform(s, before), d), s.id)[0] == Header(s)
    {
      if s.entries == [] {
        AppendOne(before, s.today, Header(s), d, s.id);
      } else {
        OriginalHeaderFirst(s, before, |s.entries|, d);
      }
    }
  }

  // ---- reading the files back ----------------------------------------------------------------

  /** The files of `n` days from `lo` on, one after the other. */
  function Join(files: Files, lo: int, n: nat): seq<Line> {
    if n == 0 then [] else Join(files, lo, n - 1) + File(files, lo + n - 1)
  }

  /** Entries sorted by day; entries of one day keep their order. */
  function ByDay(lines: seq<Line>, lo: int, n: nat): seq<Line> {
    if n == 0 then [] else ByDay(lines, lo, n - 1) + OnDay(lines, lo + n - 1)
  }

  lemma {:induction false} NamedJoin(a: seq<Line>, b: seq<Line>)
    requires Named(a) && Named(b) && HeaderFirst(a) && HeaderFirst(b)
    ensures Named(a + b) && HeaderFirst(a + b)
  {
  }

  lemma JoinStep(files: Files, lo: int, n: nat)
    ensures Join(files, lo, 0) == []
    ensures n > 0 ==> Join(files, lo, n) == Join(files, lo, n - 1) + File(files, lo + n - 1)
  {
  }

  lemma ByDayStep(lines: seq<Line>, lo: int, n: nat)
    ensures ByDay(lines, lo, 0) == []
    ensures n > 0 ==> ByDay(lines, lo, n) == ByDay(lines, lo, n - 1) + OnDay(lines, lo + n - 1)
  {
  }

  lemma {:induction false} JoinHolds(files: Files, lines: seq<Line>, id: string, lo: int, n: nat)
    requires Wellformed(files)
    requires forall d :: Data(File(files, d), id) == OnDay(lines, d)
    ensures Named(Join(files, lo, n)) && HeaderFirst(Join(files, lo, n))
    ensures Data(Join(files, lo, n), id) == ByDay(lines, lo, n)
  {
    hide Data, OnDay, Named, HeaderFirst, Heads, LastId, Join, ByDay, File, Wellformed;
    JoinStep(files, lo, n);
    ByDayStep(lines, lo, n);
    if n == 0 {
      Empty(id);
      NothingNamed();
    } else {
      JoinHolds(files, lines, id, lo, n - 1);
      FileWellformed(files, lo + n - 1);
      Joining(Join(files, lo, n - 1), File(files, lo + n - 1), id);
      NamedJoin(Join(files, lo, n - 1), File(files, lo + n - 1));
    }
  }

  lemma NothingNamed()
    ensures Named([]) && HeaderFirst([])
  {
  }

  lemma FileWellformed(files: Files, d: int)
    requires Wellformed(files)
    ensures Named(File(files, d)) && HeaderFirst(File(files, d))
  {
  }

  lemma KeptHeads(files: Files, s: Script, d: int)
    requires Kept(files, s)
    ensures d < FirstDay(s) ==> Heads(File(files, d), s.id) == []
    ensures d == FirstDay(s) ==> Heads(File(files, d), s.id) != [] && Heads(File(files, d), s.id)[0] == Header(s)
  {
  }

  /** The first header read for a kept session is its original one. */
  lemma {:induction false} JoinStartsWithHeader(files: Files, s: Script, lo: int, n: nat)
    requires Wellformed(files) && Kept(files, s)
    ensures var heads := Heads(Join(files, lo, n), s.id);
            if lo + n <= FirstDay(s) then heads == []
            else lo <= FirstDay(s) ==> heads != [] && heads[0] == Header(s)
  {
    hide Heads, Data, OnDay, Kept, Wellformed, HeaderFirst, FirstDay;
    if n == 0 {
      Empty(s.id);
    } else {
      JoinStartsWithHeader(files, s, lo, n - 1);
      KeptHeads(files, s, lo + n - 1);
      FileWellformed(files, lo + n - 1);
      Joining(Join(files, lo, n - 1), File(files, lo + n - 1), s.id);
    }
  }

  // ---- sorting by day ------------------------------------------------------------------------

  ghost predicate Ordered(lines: seq<Line>) {
    forall i, j :: 0 <= i < j < |lines| ==> lines[i].stamp.day <= lines[j].stamp.day
  }

  ghost predicate Within(lines: seq<Line>, lo: int, hi: int) {
    forall i :: 0 <= i < |lines| ==> lo <= lines[i].stamp.day < hi
  }

  /** The leading entries of days before `hi`. */
  ghost function Before(lines: seq<Line>, hi: int): seq<Line> {
    if lines == [] then []
    else
      var last := lines[|lines| - 1];
      Before(lines[..|lines| - 1], hi) + if last.stamp.day < hi then [last] else []
  }

  lemma {:induction false} AllBefore(lines: seq<Line>, hi: int)
    requires forall i :: 0 <= i < |lines| ==> lines[i].stamp.day < hi
    ensures Before(lines, hi) == lines
    ensures forall d :: d >= hi ==> OnDay(lines, d) == []
  {
    if lines != [] {
      AllBefore(lines[..|lines| - 1], hi);
    }
  }

  lemma {:induction false} NoneBefore(lines: seq<Line>, hi: int)
    requires forall i :: 0 <= i < |lines| ==> lines[i].stamp.day >= hi
    ensures Before(lines, hi) == []
  {
    if lines != [] {
      NoneBefore(lines[..|lines| - 1], hi);
    }
  }

  lemma {:induction false} BeforeStep(lines: seq<Line>, d: int)
    requires Ordered(lines)
    ensures Before(lines, d + 1) == Before(lines, d) + OnDay(lines, d)
  {
    hide Ordered;
    if lines != [] {
      var init, last := lines[..|lines| - 1], lines[|lines| - 1];
      OrderedInit(lines);
      BeforeStep(init, d);
      if last.stamp.day < d {
        AllBefore(lines, d);
        AllBefore(lines, d + 1);
      } else if last.stamp.day == d {
        assert Before(init, d + 1) + [last] == Before(init, d) + (OnDay(init, d) + [last]);
      }
    }
  }

  lemma OrderedInit(lines: seq<Line>)
    requires Ordered(lines) && lines != []
    ensures Ordered(lines[..|lines| - 1])
    ensures forall i :: 0 <= i < |lines| ==> lines[i].stamp.day <= lines[|lines| - 1].stamp.day
  {
  }

  lemma {:induction false} ByDayIsPrefix(lines: seq<Line>, lo: int, n: nat)
    requires Ordered(lines) && forall i :: 0 <= i < |lines| ==> lo <= lines[i].stamp.day
    ensures ByDay(lines, lo, n) == Before(lines, lo + n)
  {
    hide Before, OnDay;
    if n == 0 {
      NoneBefore(lines, lo);
    } else {
      ByDayIsPrefix(lines, lo, n - 1);
      BeforeStep(lines, lo + n - 1);
    }
  }

  lemma {:induction false} OnDayIsOfDay(lines: seq<Line>, d: int)
    ensures forall i :: 0 <= i < |OnDay(lines, d)| ==> OnDay(lines, d)[i].stamp.day == d
  {
    if lines != [] {
      OnDayIsOfDay(lines[..|lines| - 1], d);
    }
  }

  lemma {:induction false} ByDayIsOrdered(lines: seq<Line>, lo: int, n: nat)
    ensures Ordered(ByDay(lines, lo, n)) && Within(ByDay(lines, lo, n), lo, lo + n)
  {
    if n > 0 {
      ByDayIsOrdered(lines, lo, n - 1);
      OnDayIsOfDay(lines, lo + n - 1);
    }
  }

  lemma SortingIsIdentity(lines: seq<Line>, lo: int, n: nat)
    requires Within(lines, lo, lo + n)
    ensures ByDay(lines, lo, n) == lines <==> Ordered(lines)
  {
    if Ordered(lines) {
      ByDayIsPrefix(lines, lo, n);
      AllBefore(lines, lo + n);
    }
    ByDayIsOrdered(lines, lo, n);
  }

  lemma {:induction false} RecordedStamps(s: Script, k: nat, i: nat)
    requires i < k <= |s.entries|
    ensures Recorded(s, k)[i].stamp == s.entries[i].stamp
    decreases k
  {
    if i < k - 1 {
      RecordedStamps(s, k - 1, i);
    }
  }

  lemma RecordedOrder(s: Script)
    ensures Ordered(Recorded(s, |s.entries|)) <==> InDayOrder(s)
  {
    forall i | 0 <= i < |s.entries|
      ensures Recorded(s, |s.entries|)[i].stamp == s.entries[i].stamp
    {
      RecordedStamps(s, |s.entries|, i);
    }
  }

  // ---- the round trip ------------------------------------------------------------------------

  ghost predicate Dated(s: Script, lo: int, n: nat) {
    && lo <= FirstDay(s) < lo + n
    && forall i :: 0 <= i < |s.entries| ==> lo <= s.entries[i].stamp.day < lo + n
  }

  /** Joining the day files gives a session's entries back in recorded order exactly when their
      UTC days never went backwards. */
  lemma EntriesComeBackInOrder(s: Script, before: Files, lo: int, n: nat)
    requires Fresh(s, before) && Dated(s, lo, n)
    ensures Data(Join(Perform(s, before), lo, n), s.id) == Recorded(s, |s.entries|) <==> InDayOrder(s)
  {
    hide Data, Perform, OnDay, ByDay, Wellformed;
    PerformLeavesOthers(s, before);
    forall d {
      PerformData(s, before, d);
    }
    var lines := Recorded(s, |s.entries|);
    JoinHolds(Perform(s, before), lines, s.id, lo, n);
    forall i | 0 <= i < |lines| ensures lines[i].stamp == s.entries[i].stamp {
      RecordedStamps(s, |s.entries|, i);
    }
    SortingIsIdentity(lines, lo, n);
    RecordedOrder(s);
  }

  const SLIPPED := Script("a", "", Stamp(0.0, 1, "", ""),
    [Sample(Stamp(1.0, 1, "", ""), "recv", "first"), Sample(Stamp(2.0, 0, "", ""), "recv", "second")], 1)

  /** A session whose second entry is stamped the day before its first comes back reversed. */
  lemma SlippedDayReverses()
    ensures var lines := Recorded(SLIPPED, 2);
      Data(Join(Perform(SLIPPED, map[]), 0, 2), SLIPPED.id) == [lines[1], lines[0]]
  {
    hide Data, Perform, Recorded, Join;
    var lines := Recorded(SLIPPED, 2);
    PerformLeavesOthers(SLIPPED, map[]);
    forall d {
      PerformData(SLIPPED, map[], d);
    }
    JoinHolds(Perform(SLIPPED, map[]), lines, SLIPPED.id, 0, 2);
    RecordedStamps(SLIPPED, 2, 0);
    RecordedStamps(SLIPPED, 2, 1);
    TwoDays(lines);
  }

  lemma TwoDays(lines: seq<Line>)
    requires |lines| == 2 && lines[0].stamp.day == 1 && lines[1].stamp.day == 0
    ensures ByDay(lines, 0, 2) == [lines[1], lines[0]]
  {
    assert lines[..1][..0] == [];
    assert OnDay(lines[..1], 0) == [] && OnDay(lines[..1], 1) == [lines[0]];
    ByDayStep(lines, 0, 2);
    ByDayStep(lines, 0, 1);
  }

  /** Recorders that run one after another into the same daily files. */
  function PerformAll(scripts: seq<Script>): Files {
    if scripts == [] then map[] else Perform(scripts[|scripts| - 1], PerformAll(scripts[..|scripts| - 1]))
  }

  ghost predicate DistinctIds(scripts: seq<Script>) {
    && (forall i :: 0 <= i < |scripts| ==> scripts[i].id != "")
    && (forall i, j :: 0 <= i < j < |scripts| ==> scripts[i].id != scripts[j].id)
  }

  lemma {:induction false} AllKept(scripts: seq<Script>)
    requires DistinctIds(scripts)
    requires forall i :: 0 <= i < |scripts| ==> InDayOrder(scripts[i])
    ensures Wellformed(PerformAll(scripts))
    ensures forall i :: 0 <= i < |scripts| ==> Kept(PerformAll(scripts), scripts[i])
    ensures forall id :: (forall i :: 0 <= i < |scripts| ==> scripts[i].id != id) ==> Absent(PerformAll(scripts), id)
  {
    hide Perform, InDayOrder, Kept, Absent, Wellformed;
    if scripts == [] {
      NothingAbsent();
    } else {
      var init, last := scripts[..|scripts| - 1], scripts[|scripts| - 1];
      var files := PerformAll(init);
      AllKept(init);
      PerformLeavesOthers(last, files);
      PerformKeeps(last, files);
      forall i | 0 <= i < |init| ensures Kept(PerformAll(scripts), init[i]) {
        KeptStays(last, files, init[i]);
      }
      forall id | forall i :: 0 <= i < |scripts| ==> scripts[i].id != id
        ensures Absent(PerformAll(scripts), id)
      {
        assert forall i :: 0 <= i < |init| ==> init[i].id != id;
        AbsentStays(last, files, id);
      }
    }
  }

  lemma KeptStays(t: Script, files: Files, s: Script)
    requires Fresh(t, files) && Kept(files, s) && s.id != t.id
    ensures Kept(Perform(t, files), s)
  {
    hide Heads, Data, Perform, OnDay, Recorded, Fresh;
    PerformLeavesOthers(t, files);
  }

  lemma AbsentStays(t: Script, files: Files, id: string)
    requires Fresh(t, files) && Absent(files, id) && id != t.id
    ensures Absent(Perform(t, files), id)
  {
    hide Heads, Data, Perform, Fresh;
    PerformLeavesOthers(t, files);
  }

  lemma NothingAbsent()
    ensures Wellformed(map[]) && forall id :: Absent(map[], id)
  {
  }

  /** Every session comes back whole: its own header, then all its entries in order. */
  lemma SessionComesBack(scripts: seq<Script>, i: nat, lo: int, n: nat)
    requires DistinctIds(scripts) && i < |scripts|
    requires forall j :: 0 <= j < |scripts| ==> InDayOrder(scripts[j]) && Dated(scripts[j], lo, n)
    ensures var f := Split(Join(PerformAll(scripts), lo, n));
            && scripts[i].id in f.byId && f.byId[scripts[i].id] < |f.sessions|
            && f.sessions[f.byId[scripts[i].id]] == SessionLines(scripts[i])
  {
    hide Heads, Data, Split, Join, PerformAll, OnDay, ByDay, Wellformed;
    var s, files := scripts[i], PerformAll(scripts);
    AllKept(scripts);
    var lines := Recorded(s, |s.entries|);
    JoinHolds(files, lines, s.id, lo, n);
    JoinStartsWithHeader(files, s, lo, n);
    forall j | 0 <= j < |lines| ensures lines[j].stamp == s.entries[j].stamp {
      RecordedStamps(s, |s.entries|, j);
    }
    SortingIsIdentity(lines, lo, n);
    RecordedOrder(s);
    SplitIsFaithful(Join(files, lo, n));
  }

  ghost function ScriptIds(scripts: seq<Script>): set<string> { set i | 0 <= i < |scripts| :: scripts[i].id }

  lemma {:induction false} CountIds(scripts: seq<Script>)
    requires DistinctIds(scripts)
    ensures |ScriptIds(scripts)| == |scripts|
  {
    if scripts != [] {
      var init, last := scripts[..|scripts| - 1], scripts[|scripts| - 1];
      CountIds(init);
      assert ScriptIds(scripts) == ScriptIds(init) + {last.id};
      assert last.id !in ScriptIds(init);
    }
  }

  lemma {:induction false} JoinHasNoStrangers(files: Files, id: string, lo: int, n: nat)
    requires Wellformed(files) && Absent(files, id)
    ensures Heads(Join(files, lo, n), id) == []
  {
    hide Heads, Data, LastId, Join, Wellformed, HeaderFirst, Named, File;
    JoinStep(files, lo, n);
    if n == 0 {
      Empty(id);
    } else {
      JoinHasNoStrangers(files, id, lo, n - 1);
      FileWellformed(files, lo + n - 1);
      Joining(Join(files, lo, n - 1), File(files, lo + n - 1), id);
    }
  }

  /** Recording then splitting is the identity: recorders that run one after another into the same
      daily files come back as one session each, and as nothing else. */
  lemma RecordingRoundTrips(scripts: seq<Script>, lo: int, n: nat)
    requires DistinctIds(scripts)
    requires forall j :: 0 <= j < |scripts| ==> InDayOrder(scripts[j]) && Dated(scripts[j], lo, n)
    ensures var sessions := Split(Join(PerformAll(scripts), lo, n)).sessions;
            && |sessions| == |scripts|
            && forall i :: 0 <= i < |scripts| ==> SessionLines(scripts[i]) in sessions
  {
    hide Heads, Data, Join, PerformAll, OnDay, ByDay, Wellformed, Absent, SessionLines, Kept, InDayOrder, Dated;
    var files := PerformAll(scripts);
    var lines := Join(files, lo, n);
    var f := Split(lines);
    AllKept(scripts);
    AllWellformed(scripts, lo, n);
    SplitIsFaithful(lines);
    forall i | 0 <= i < |scripts| ensures scripts[i].id in f.byId && SessionLines(scripts[i]) in f.sessions {
      SessionComesBack(scripts, i, lo, n);
    }
    forall id | id in f.byId ensures id in ScriptIds(scripts) {
      if forall i :: 0 <= i < |scripts| ==> scripts[i].id != id {
        JoinHasNoStrangers(files, id, lo, n);
      }
    }
    assert f.byId.Keys == ScriptIds(scripts);
    CountIds(scripts);
  }

  lemma AllWellformed(scripts: seq<Script>, lo: int, n: nat)
    requires Wellformed(PerformAll(scripts))
    ensures Named(Join(PerformAll(scripts), lo, n)) && HeaderFirst(Join(PerformAll(scripts), lo, n))
  {
    JoinWellformed(PerformAll(scripts), lo, n);
  }

  lemma {:induction false} JoinWellformed(files: Files, lo: int, n: nat)
    requires Wellformed(files)
    ensures Named(Join(files, lo, n)) && HeaderFirst(Join(files, lo, n))
  {
    if n > 0 {
      JoinWellformed(files, lo, n - 1);
      FileWellformed(files, lo + n - 1);
      NamedJoin(Join(files, lo, n - 1), File(files, lo + n - 1));
    }
  }
}
