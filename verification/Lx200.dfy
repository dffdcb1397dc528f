/** Splitting the captured LX200 byte stream of each connection into commands. */
module Lx200 {
  import opened Common

  const ACK := '\U{0006}'
  const END := '#'
  const KEPT := 256

  datatype Label = SetPark | SetHome | Sync

  /** A recorded command; ACK is the only one without an end mark. */
  datatype Record = AckCommand | Command(text: string, forbidden: Option<Label>) | Reply(data: string)

  /** ACK is the control character 6, and commands end with a number sign. */
  lemma MarksAre()
    ensures ACK as int == 6 && END as int == 35
  {}

  predicate Blank(c: char) {
    c in {' ', '\t', '\n', '\r', '\U{000B}', '\U{000C}', '\U{001C}', '\U{001D}', '\U{001E}', '\U{001F}', '\U{0085}', '\U{00A0}'}
  }

  function LeftStripped(s: string): string { if s != "" && Blank(s[0]) then LeftStripped(s[1..]) else s }

  function Forbidden(command: string): Option<Label> {
    if ":hQ" <= command then Some(SetPark)
    else if ":hF" <= command then Some(SetHome)
    else if ":CS" <= command || ":CM" <= command then Some(Sync)
    else None
  }

  function Recorded(command: string): Record { Command(command, Forbidden(LeftStripped(command))) }

  /** The position of the first end mark, or the length if there is none. */
  function Find(s: string): (n: nat)
    ensures n <= |s| && (n < |s| ==> s[n] == END)
    ensures END !in s[..n]
  {
    if s == "" || s[0] == END then 0 else Find(s[1..]) + 1
  }

  /** All complete commands of a buffer, and what is left of it. */
  function Drain(b: string): (seq<Record>, string)
    decreases |b|
  {
    if b == "" then ([], "")
    else if b[0] == ACK then
      var (records, rest) := Drain(b[1..]);
      ([AckCommand] + records, rest)
    else if Find(b) == |b| then ([], b)
    else
      var (records, rest) := Drain(b[Find(b) + 1..]);
      ([Recorded(b[..Find(b) + 1])] + records, rest)
  }

  /** One round of draining. */
  lemma DrainStep(b: string)
    ensures b == "" ==> Drain(b) == ([], "")
    ensures b != "" && b[0] == ACK ==> Drain(b) == ([AckCommand] + Drain(b[1..]).0, Drain(b[1..]).1)
    ensures b != "" && b[0] != ACK && Find(b) == |b| ==> Drain(b) == ([], b)
    ensures b != "" && b[0] != ACK && Find(b) < |b| ==>
      Drain(b) == ([Recorded(b[..Find(b) + 1])] + Drain(b[Find(b) + 1..]).0, Drain(b[Find(b) + 1..]).1)
  {
    hide Recorded, Find;
  }

  /** A buffer keeps no more than its last characters between chunks. */
  function Last(b: string): string { if |b| <= KEPT then b else b[|b| - KEPT..] }

  function Feed(buffer: string, text: string): (seq<Record>, string) {
    var (records, rest) := Drain(buffer + text);
    (records, Last(rest))
  }

  function FeedAll(chunks: seq<string>): (seq<Record>, string) {
    if chunks == [] then ([], "")
    else
      var (records, buffer) := FeedAll(chunks[..|chunks| - 1]);
      var (more, rest) := Feed(buffer, chunks[|chunks| - 1]);
      (records + more, rest)
  }

  function Concat(chunks: seq<string>): string {
    if chunks == [] then "" else Concat(chunks[..|chunks| - 1]) + chunks[|chunks| - 1]
  }

  /** The bytes a record stands for. */
  function Bytes(r: Record): string {
    match r
    case AckCommand => [ACK]
    case Command(text, _) => text
    case Reply(data) => data
  }

  function AllBytes(records: seq<Record>): string {
    if records == [] then "" else Bytes(records[0]) + AllBytes(records[1..])
  }

  // ---- the writer ----------------------------------------------------------------------------

  datatype Chunk = Chunk(conn: int, toServer: bool, text: string)

  datatype Writer = Writer(buffers: map<int, string>, records: seq<(int, Record)>, forbidden: seq<(int, Record)>)

  function BufferOf(w: Writer, conn: int): string { if conn in w.buffers then w.buffers[conn] else "" }

  function Tagged(conn: int, records: seq<Record>): seq<(int, Record)> {
    if records == [] then [] else [(conn, records[0])] + Tagged(conn, records[1..])
  }

  function Flagged(records: seq<(int, Record)>): seq<(int, Record)> {
    if records == [] then []
    else (if records[0].1.Command? && records[0].1.forbidden.Some? then [records[0]] else []) + Flagged(records[1..])
  }

  function Took(w: Writer, c: Chunk): Writer {
    if !c.toServer then w.(records := w.records + [(c.conn, Reply(c.text))])
    else
      var (records, rest) := Feed(BufferOf(w, c.conn), c.text);
      Writer(w.buffers[c.conn := rest], w.records + Tagged(c.conn, records), w.forbidden + Flagged(Tagged(c.conn, records)))
  }

  lemma NothingTagged(conn: int)
    ensures Tagged(conn, []) == [] && Flagged([]) == []
  {}

  lemma TaggedPush(conn: int, records: seq<Record>, r: Record)
    ensures Tagged(conn, records + [r]) == Tagged(conn, records) + [(conn, r)]
  {
    if records != [] {
      assert (records + [r])[1..] == records[1..] + [r];
    }
  }

  lemma FlaggedPush(records: seq<(int, Record)>, r: (int, Record))
    ensures Flagged(records + [r]) == Flagged(records) + if r.1.Command? && r.1.forbidden.Some? then [r] else []
  {
    if records != [] {
      assert (records + [r])[1..] == records[1..] + [r];
    }
  }

  class CaptureWriter {
    var buffers: map<int, string>
    var records: seq<(int, Record)>
    var forbidden: seq<(int, Record)>

    ghost function View(): Writer
      reads this
    {
      Writer(buffers, records, forbidden)
    }

    constructor ()
      ensures View() == Writer(map[], [], [])
    {
      buffers, records, forbidden := map[], [], [];
    }

    method Data(c: Chunk)
      modifies this
      ensures View() == Took(old(View()), c)
    {
      hide Drain, Find, Recorded, Tagged, Flagged, Last;
      if !c.toServer {
        records := records + [(c.conn, Reply(c.text))];
        return;
      }
      var buffer := (if c.conn in buffers then buffers[c.conn] else "") + c.text;
      ghost var whole, done := buffer, [];
      NothingTagged(c.conn);
      assert [] + Drain(buffer).0 == Drain(buffer).0;
      DrainStep("");
      while buffer != ""
        invariant Drain(whole) == (done + Drain(buffer).0, Drain(buffer).1)
        invariant buffers == old(buffers)
        invariant records == old(records) + Tagged(c.conn, done)
        invariant forbidden == old(forbidden) + Flagged(Tagged(c.conn, done))
        decreases |buffer|
      {
        DrainStep(buffer);
        ghost var left := Drain(buffer).0;
        var record;
        if buffer[0] == ACK {
          record, buffer := AckCommand, buffer[1..];
        } else {
          var end := Find(buffer);
          if end == |buffer| {
            break;
          }
          record, buffer := Recorded(buffer[..end + 1]), buffer[end + 1..];
        }
        TaggedPush(c.conn, done, record);
        FlaggedPush(Tagged(c.conn, done), (c.conn, record));
        assert done + left == (done + [record]) + Drain(buffer).0;
        done := done + [record];
        records := records + [(c.conn, record)];
        if record.Command? && record.forbidden.Some? {
          forbidden := forbidden + [(c.conn, record)];
        }
      }
      assert done == Drain(whole).0;
      buffers := buffers[c.conn := Last(buffer)];
    }
  }
}
