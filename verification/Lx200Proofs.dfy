/** The commands found do not depend on how the bytes arrive. */
module Lx200Proofs {
  import opened Common
  import opened Lx200

  // ---- one buffer ----------------------------------------------------------------------------

  lemma FindIn(a: string, b: string)
    ensures Find(a) < |a| ==> Find(a + b) == Find(a)
    ensures Find(a) == |a| ==> Find(a + b) == |a| + Find(b)
  {
    if a == "" {
      assert a + b == b;
    } else {
      assert (a + b)[1..] == a[1..] + b;
      FindIn(a[1..], b);
    }
  }

  /** Draining early changes nothing: the rest carries on exactly where it was left. */
  lemma {:induction false} DrainMore(b: string, t: string)
    ensures Drain(b + t).0 == Drain(b).0 + Drain(Drain(b).1 + t).0
    ensures Drain(b + t).1 == Drain(Drain(b).1 + t).1
    decreases |b|
  {
    hide Drain, Recorded, Find;
    DrainStep(b);
    DrainStep(b + t);
    if b == "" {
      assert b + t == t && [] + Drain(t).0 == Drain(t).0;
    } else if b[0] == ACK {
      assert (b + t)[1..] == b[1..] + t;
      DrainMore(b[1..], t);
      Regroup([AckCommand], Drain(b[1..]).0, Drain(Drain(b).1 + t).0);
    } else if Find(b) < |b| {
      var n := Find(b);
      FindIn(b, t);
      assert (b + t)[..n + 1] == b[..n + 1] && (b + t)[n + 1..] == b[n + 1..] + t;
      DrainMore(b[n + 1..], t);
      Regroup([Recorded(b[..n + 1])], Drain(b[n + 1..]).0, Drain(Drain(b).1 + t).0);
    } else {
      assert [] + Drain(b + t).0 == Drain(b + t).0;
    }
  }

  lemma Regroup(a: seq<Record>, b: seq<Record>, c: seq<Record>)
    ensures a + (b + c) == (a + b) + c
  {}

  predicate GoodRecord(r: Record) { r.AckCommand? || (r.Command? && r == Recorded(r.text) && EndsOnce(r.text)) }

  /** The commands and the rest spell the buffer; each command ends in its only end mark. */
  lemma {:induction false} DrainSpells(b: string)
    ensures AllBytes(Drain(b).0) + Drain(b).1 == b
    ensures END !in Drain(b).1
    ensures forall r :: r in Drain(b).0 ==> GoodRecord(r)
    decreases |b|
  {
    hide Drain, Recorded, Forbidden, GoodRecord, AllBytes;
    DrainStep(b);
    NoBytes();
    if b != "" && b[0] == ACK {
      DrainSpells(b[1..]);
      BytesCons(AckCommand, Drain(b[1..]).0);
      GoodOnes("");
      assert b == [ACK] + b[1..];
    } else if b != "" && Find(b) < |b| {
      var n := Find(b);
      DrainSpells(b[n + 1..]);
      BytesCons(Recorded(b[..n + 1]), Drain(b[n + 1..]).0);
      assert b == b[..n + 1] + b[n + 1..] && b[..n + 1] == b[..n] + [END];
      GoodOnes(b[..n]);
    } else if b != "" {
      assert b[..|b|] == b;
    }
  }

  lemma NoBytes() ensures AllBytes([]) == "" {}

  lemma BytesCons(r: Record, records: seq<Record>)
    ensures AllBytes([r] + records) == Bytes(r) + AllBytes(records)
  {}

  lemma GoodOnes(s: string)
    ensures GoodRecord(AckCommand)
    ensures Bytes(Recorded(s + [END])) == s + [END]
    ensures END !in s ==> GoodRecord(Recorded(s + [END]))
  {
    hide Forbidden, LeftStripped;
  }

  predicate EndsOnce(s: string) { s != "" && s[|s| - 1] == END && END !in s[..|s| - 1] }

  // ---- chunks --------------------------------------------------------------------------------

  /** What is unterminated after the first chunks, had nothing been cut off. */
  function Tail(chunks: seq<string>, i: nat): string
    requires i <= |chunks|
  {
    Drain(Concat(chunks[..i])).1
  }

  predicate TailsFit(chunks: seq<string>) { forall i: nat :: i <= |chunks| ==> |Tail(chunks, i)| <= 256 }

  lemma TailsOfFirst(chunks: seq<string>)
    requires chunks != []
    ensures TailsFit(chunks) <==> TailsFit(chunks[..|chunks| - 1]) && |Tail(chunks, |chunks|)| <= KEPT
  {
    hide Drain, Concat;
    var init := chunks[..|chunks| - 1];
    forall i: nat | i <= |init| ensures Tail(init, i) == Tail(chunks, i) {
      assert init[..i] == chunks[..i];
    }
  }

  /** If every unterminated tail fits, any division into chunks gives the commands, their
      forbidden labels and the buffer that the whole stream gives in one chunk. */
  lemma {:induction false} ChunksDoNotMatter(chunks: seq<string>)
    requires TailsFit(chunks)
    ensures FeedAll(chunks) == Drain(Concat(chunks))
  {
    hide Drain, TailsFit;
    if chunks == [] {
      DrainNothing();
    } else {
      var init, last := chunks[..|chunks| - 1], chunks[|chunks| - 1];
      TailsOfFirst(chunks);
      ChunksDoNotMatter(init);
      DrainMore(Concat(init), last);
      assert chunks[..|chunks|] == chunks;
    }
  }

  lemma DrainNothing() ensures Drain("") == ([], "") {}

  /** So two divisions of one stream agree. */
  lemma SameStreamSameCommands(a: seq<string>, b: seq<string>)
    requires Concat(a) == Concat(b) && TailsFit(a) && TailsFit(b)
    ensures FeedAll(a) == FeedAll(b)
  {
    hide Drain, TailsFit, FeedAll;
    ChunksDoNotMatter(a);
    ChunksDoNotMatter(b);
  }

  lemma {:induction false} AllBytesAppend(a: seq<Record>, b: seq<Record>)
    ensures AllBytes(a + b) == AllBytes(a) + AllBytes(b)
  {
    if a == [] {
      assert a + b == b;
    } else {
      assert (a + b)[1..] == a[1..] + b;
      AllBytesAppend(a[1..], b);
    }
  }

  lemma Length(chunks: seq<string>)
    requires chunks != []
    ensures var before, after := FeedAll(chunks[..|chunks| - 1]), FeedAll(chunks);
      |AllBytes(after.0)| + |after.1| <= |AllBytes(before.0)| + |before.1| + |chunks[|chunks| - 1]|
  {
    hide Drain;
    var (records, buffer) := FeedAll(chunks[..|chunks| - 1]);
    var last := chunks[|chunks| - 1];
    DrainSpells(buffer + last);
    AllBytesAppend(records, Drain(buffer + last).0);
  }

  lemma {:induction false} NeverMore(chunks: seq<string>)
    ensures |AllBytes(FeedAll(chunks).0)| + |FeedAll(chunks).1| <= |Concat(chunks)|
  {
    if chunks != [] {
      hide FeedAll, AllBytes;
      NeverMore(chunks[..|chunks| - 1]);
      Length(chunks);
    }
  }

  /** Commands and buffer spell the whole input exactly when no unterminated tail grew too long. */
  lemma {:induction false} NothingLostIff(chunks: seq<string>)
    ensures AllBytes(FeedAll(chunks).0) + FeedAll(chunks).1 == Concat(chunks) <==> TailsFit(chunks)
  {
    if TailsFit(chunks) {
      hide Drain, TailsFit, FeedAll, AllBytes;
      ChunksDoNotMatter(chunks);
      DrainSpells(Concat(chunks));
    } else {
      BytesAreLost(chunks);
    }
  }

  /** So a command of 257 characters that arrives before its end mark is recorded without its
      first character, on which its label depends. */
  lemma LongTailIsCut(tail: string)
    requires |tail| == 257 && END !in tail && ACK !in tail
    ensures FeedAll([tail, [END]]) == ([Recorded(tail[1..] + [END])], "")
  {
    hide Recorded, Find, Drain;
    var rest := tail[1..] + [END];
    assert Find(tail) == |tail| && "" + tail == tail;
    DrainStep(tail);
    assert Find(rest) == KEPT by {
      assert rest[KEPT] == END && forall i :: 0 <= i < KEPT ==> rest[i] != END;
    }
    assert rest[..KEPT + 1] == rest && rest[KEPT + 1..] == "";
    DrainStep(rest);
    DrainStep("");
    assert [Recorded(rest)] + [] == [Recorded(rest)] && [] + [Recorded(rest)] == [Recorded(rest)];
    FeedTwo(tail, [END]);
    assert tail[1..] == Last(tail);
  }

  lemma FeedTwo(a: string, b: string)
    ensures FeedAll([a, b]) == (Feed("", a).0 + Feed(Feed("", a).1, b).0, Feed(Feed("", a).1, b).1)
  {
    hide Feed;
    assert [a, b][..1] == [a] && [a][..0] == [];
    assert [] + Feed("", a).0 == Feed("", a).0 && FeedAll([]) == ([], "");
    assert FeedAll([a]) == Feed("", a);
  }

  lemma {:induction false} BytesAreLost(chunks: seq<string>)
    requires !TailsFit(chunks)
    ensures |AllBytes(FeedAll(chunks).0)| + |FeedAll(chunks).1| < |Concat(chunks)|
  {
    hide Drain, TailsFit;
    if chunks == [] {
      NothingFits();
    } else {
      var init, last := chunks[..|chunks| - 1], chunks[|chunks| - 1];
      TailsOfFirst(chunks);
      Length(chunks);
      if TailsFit(init) {
        ChunksDoNotMatter(init);
        DrainMore(Concat(init), last);
        assert chunks[..|chunks|] == chunks;
        var (records, rest) := Drain(Concat(init));
        DrainSpells(Concat(init));
        DrainSpells(rest + last);
        AllBytesAppend(records, Drain(rest + last).0);
      } else {
        BytesAreLost(init);
      }
    }
  }

  lemma NothingFits() ensures TailsFit([]) {}

  // ---- forbidden commands --------------------------------------------------------------------

  /** The label of a command by its first three characters. */
  function LabelOf(command: string): Option<Label> {
    if |command| < 3 || command[0] != ':' then None
    else if command[1] == 'h' then
      if command[2] == 'Q' then Some(SetPark) else if command[2] == 'F' then Some(SetHome) else None
    else if command[1] == 'C' && (command[2] == 'S' || command[2] == 'M') then Some(Sync)
    else None
  }

  lemma LabelsAre(command: string)
    ensures Forbidden(command) == LabelOf(command)
  {
    if |command| >= 3 {
      assert command[..3] == [command[0], command[1], command[2]];
    }
  }

  /** The white space that is stripped, by character code. */
  lemma BlankIff(c: char)
    ensures Blank(c) <==> 9 <= c as int <= 13 || 28 <= c as int <= 32 || c as int == 133 || c as int == 160
  {}

  /** A command that begins at a command boundary is recorded with its label, or with none if it is
      not forbidden, whatever surrounds it and even after leading blanks. */
  lemma CommandIsLabelled(before: string, blanks: string, command: string, after: string)
    requires Drain(before).1 == "" && (forall c :: c in blanks ==> Blank(c))
    requires EndsOnce(command) && !Blank(command[0]) && command[0] != ACK
    ensures Command(blanks + command, LabelOf(command)) in Drain(before + (blanks + command) + after).0
  {
    hide Drain, Forbidden, LabelOf;
    var whole := blanks + command;
    LabelsAre(command);
    DrainMore(before, whole + after);
    assert before + (whole + after) == before + whole + after && "" + (whole + after) == whole + after;
    BlanksStrip(blanks, command);
    Starts(blanks, command);
    OneCommand(whole, after);
  }

  lemma BlanksStrip(blanks: string, command: string)
    requires (forall c :: c in blanks ==> Blank(c)) && command != "" && !Blank(command[0])
    ensures LeftStripped(blanks + command) == command
  {
    if blanks != "" {
      assert (blanks + command)[1..] == blanks[1..] + command;
      BlanksStrip(blanks[1..], command);
    } else {
      assert blanks + command == command;
    }
  }

  lemma Starts(blanks: string, command: string)
    requires (forall c :: c in blanks ==> Blank(c)) && EndsOnce(command) && command[0] != ACK
    ensures (blanks + command)[0] != ACK && EndsOnce(blanks + command)
  {
    assert blanks != "" ==> Blank(blanks[0]);
    assert (blanks + command)[..|blanks + command| - 1] == blanks + command[..|command| - 1];
  }

  lemma OneCommand(command: string, after: string)
    requires EndsOnce(command) && command[0] != ACK
    ensures Recorded(command) in Drain(command + after).0
  {
    hide Recorded;
    FindIn(command[..|command| - 1], [END] + after);
    assert command + after == command[..|command| - 1] + ([END] + after);
    FindNone(command[..|command| - 1]);
    assert (command + after)[..|command|] == command;
    assert Drain(command + after).0[0] == Recorded(command);
  }

  lemma FindNone(s: string)
    requires END !in s
    ensures Find(s) == |s|
  {}

  // ---- many connections ----------------------------------------------------------------------

  function TookAll(chunks: seq<Chunk>): Writer {
    if chunks == [] then Writer(map[], [], []) else Took(TookAll(chunks[..|chunks| - 1]), chunks[|chunks| - 1])
  }

  /** What one connection sent to the server, chunk by chunk. */
  function SentOn(chunks: seq<Chunk>, conn: int): seq<string> {
    if chunks == [] then []
    else
      var last := chunks[|chunks| - 1];
      SentOn(chunks[..|chunks| - 1], conn) + if last.conn == conn && last.toServer then [last.text] else []
  }

  /** The commands recorded for one connection. */
  function CommandsOf(records: seq<(int, Record)>, conn: int): seq<Record> {
    if records == [] then []
    else
      var last := records[|records| - 1];
      CommandsOf(records[..|records| - 1], conn) + if last.0 == conn && !last.1.Reply? then [last.1] else []
  }

  lemma {:induction false} CommandsAppend(a: seq<(int, Record)>, b: seq<(int, Record)>, conn: int)
    ensures CommandsOf(a + b, conn) == CommandsOf(a, conn) + CommandsOf(b, conn)
  {
    if b == [] {
      assert a + b == a;
    } else {
      assert (a + b)[..|a + b| - 1] == a + b[..|b| - 1];
      CommandsAppend(a, b[..|b| - 1], conn);
    }
  }

  lemma {:induction false} CommandsOfTagged(records: seq<Record>, sender: int, conn: int)
    requires forall r :: r in records ==> !r.Reply?
    ensures CommandsOf(Tagged(sender, records), conn) == if sender == conn then records else []
  {
    if records != [] {
      assert records == [records[0]] + records[1..];
      CommandsOfTagged(records[1..], sender, conn);
      CommandsAppend([(sender, records[0])], Tagged(sender, records[1..]), conn);
      assert CommandsOf([(sender, records[0])], conn) == if sender == conn then [records[0]] else [];
    }
  }

  /** Whatever the order in which chunks of many connections arrive, each connection gets the
      commands of its own chunks, and keeps its own buffer. */
  lemma {:induction false} ConnectionsDoNotMix(chunks: seq<Chunk>, conn: int)
    ensures CommandsOf(TookAll(chunks).records, conn) == FeedAll(SentOn(chunks, conn)).0
    ensures BufferOf(TookAll(chunks), conn) == FeedAll(SentOn(chunks, conn)).1
  {
    if chunks != [] {
      hide Drain, CommandsOf, Flagged, Last, Tagged;
      var init, c := chunks[..|chunks| - 1], chunks[|chunks| - 1];
      var w := TookAll(init);
      ConnectionsDoNotMix(init, conn);
      if c.toServer {
        var records := Feed(BufferOf(w, c.conn), c.text).0;
        DrainSpells(BufferOf(w, c.conn) + c.text);
        CommandsOfTagged(records, c.conn, conn);
        CommandsAppend(w.records, Tagged(c.conn, records), conn);
        var sent := SentOn(init, conn);
        if c.conn == conn {
          assert (sent + [c.text])[..|sent|] == sent;
        } else {
          assert CommandsOf(w.records, conn) + [] == CommandsOf(w.records, conn) && sent + [] == sent;
        }
      } else {
        ReplyIsNoCommand(w.records, c, conn);
        assert SentOn(init, conn) + [] == SentOn(init, conn);
      }
    }
  }

  lemma ReplyIsNoCommand(records: seq<(int, Record)>, c: Chunk, conn: int)
    ensures CommandsOf(records + [(c.conn, Reply(c.text))], conn) == CommandsOf(records, conn)
  {
    assert (records + [(c.conn, Reply(c.text))])[..|records|] == records;
  }

  lemma {:induction false} FlaggedAppend(a: seq<(int, Record)>, b: seq<(int, Record)>)
    ensures Flagged(a + b) == Flagged(a) + Flagged(b)
  {
    if a == [] {
      assert a + b == b;
    } else {
      assert (a + b)[1..] == a[1..] + b;
      FlaggedAppend(a[1..], b);
    }
  }

  /** The list of forbidden commands holds exactly the flagged records, in order. */
  lemma {:induction false} ForbiddenIsComplete(chunks: seq<Chunk>)
    ensures TookAll(chunks).forbidden == Flagged(TookAll(chunks).records)
  {
    if chunks != [] {
      hide Feed, Tagged, Flagged;
      var w, c := TookAll(chunks[..|chunks| - 1]), chunks[|chunks| - 1];
      ForbiddenIsComplete(chunks[..|chunks| - 1]);
      if c.toServer {
        FlaggedAppend(w.records, Tagged(c.conn, Feed(BufferOf(w, c.conn), c.text).0));
      } else {
        FlaggedAppend(w.records, [(c.conn, Reply(c.text))]);
        ReplyIsNotFlagged(c);
      }
    } else {
      assert Flagged([]) == [];
    }
  }

  lemma ReplyIsNotFlagged(c: Chunk)
    ensures Flagged([(c.conn, Reply(c.text))]) == []
  {}
}
