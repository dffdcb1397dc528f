/** The packet loop of the importer: it tells client from server by port, numbers connections and
    keeps one mutable flow per connection and direction. */
module Importer {
  import opened Common
  import opened Reassembly

  type Endpoint = (string, int)

  datatype Packet = Packet(ts: real, src: Endpoint, dst: Endpoint, seqNo: SeqNo,
                           syn: bool, fin: bool, rst: bool, payload: seq<Byte>)

  datatype Conn = Conn(client: Endpoint, server: Endpoint)
  datatype Key = Key(conn: Conn, fromClient: bool)
  datatype Ports = Ports(indi: int, lx200: Option<int>)

  /** What the importer tells the capture writer. */
  datatype Event =
    | Connected(conn: nat, indi: bool, client: Endpoint)
    | Data(key: Key, chunk: Chunk)
    | Closed(conn: nat)

  predicate ServerPort(ports: Ports, port: int) {
    port == ports.indi || (ports.lx200.Some? && ports.lx200.value != 0 && port == ports.lx200.value)
  }

  /** The flow a packet belongs to, if it is one of the captured protocols. */
  function Classify(ports: Ports, p: Packet): Option<Key> {
    if ServerPort(ports, p.dst.1) then Some(Key(Conn(p.src, p.dst), true))
    else if ServerPort(ports, p.src.1) then Some(Key(Conn(p.dst, p.src), false))
    else None
  }

  function SegmentOf(p: Packet): Segment { Segment(p.ts, p.seqNo, p.syn, p.payload) }

  /** A connection is known once a packet of it without RST was seen. */
  ghost predicate Opens(ports: Ports, p: Packet, c: Conn) {
    Classify(ports, p).Some? && Classify(ports, p).value.conn == c && !p.rst
  }

  ghost predicate Known(ports: Ports, seen: seq<Packet>, c: Conn) {
    exists i :: 0 <= i < |seen| && Opens(ports, seen[i], c)
  }

  /** The segments of one flow, in arrival order: what a capture of that flow alone would hold. */
  ghost function SegmentsOf(ports: Ports, seen: seq<Packet>, k: Key): seq<Segment> {
    if seen == [] then []
    else
      var init, last := seen[..|seen| - 1], seen[|seen| - 1];
      SegmentsOf(ports, init, k) +
      if Classify(ports, last) == Some(k) && Known(ports, seen, k.conn) then [SegmentOf(last)] else []
  }

  ghost function HandedOn(out: seq<Event>, k: Key): seq<Chunk> {
    if out == [] then []
    else
      var last := out[|out| - 1];
      HandedOn(out[..|out| - 1], k) + if last.Data? && last.key == k then [last.chunk] else []
  }

  ghost function TotalBytes(out: seq<Event>): nat {
    if out == [] then 0
    else
      var last := out[|out| - 1];
      TotalBytes(out[..|out| - 1]) + if last.Data? then |last.chunk.payload| else 0
  }

  /** Bytes cut as already delivered, over all flows. */
  ghost function Retransmitted(ports: Ports, seen: seq<Packet>): nat {
    if seen == [] then 0
    else
      var init, last := seen[..|seen| - 1], seen[|seen| - 1];
      var k := Classify(ports, last);
      Retransmitted(ports, init) +
      if k.Some? && Known(ports, seen, k.value.conn) then
        Cut(RunFrom(FRESH, SegmentsOf(ports, init, k.value)), SegmentOf(last))
      else 0
  }

  /** Bytes one more segment makes the flow cut. */
  ghost function Cut(f: FlowState, s: Segment): nat { Accept(f.(chunks := [], retransmitted := 0), s).retransmitted }

  /** The connect and close records, in order. */
  ghost function Marks(out: seq<Event>): seq<Event> {
    if out == [] then []
    else
      var last := out[|out| - 1];
      Marks(out[..|out| - 1]) + if last.Data? then [] else [last]
  }

  lemma HandedOnPush(out: seq<Event>, e: Event, k: Key)
    ensures HandedOn(out + [e], k) == HandedOn(out, k) + if e.Data? && e.key == k then [e.chunk] else []
    ensures TotalBytes(out + [e]) == TotalBytes(out) + if e.Data? then |e.chunk.payload| else 0
    ensures Marks(out + [e]) == if e.Data? then Marks(out) else Marks(out) + [e]
  {
    assert (out + [e])[..|out|] == out;
  }

  lemma KnownPush(ports: Ports, seen: seq<Packet>, p: Packet, c: Conn)
    ensures Known(ports, seen + [p], c) <==> Known(ports, seen, c) || Opens(ports, p, c)
  {
    var all := seen + [p];
    if Opens(ports, p, c) {
      assert Opens(ports, all[|seen|], c);
    }
    if i :| 0 <= i < |seen| && Opens(ports, seen[i], c) {
      assert Opens(ports, all[i], c);
    }
  }

  lemma SegmentsPush(ports: Ports, seen: seq<Packet>, p: Packet, k: Key)
    ensures SegmentsOf(ports, seen + [p], k) ==
            if Classify(ports, p) == Some(k) && Known(ports, seen + [p], k.conn) then
              SegmentsOf(ports, seen, k) + [SegmentOf(p)]
            else SegmentsOf(ports, seen, k)
  {
    assert (seen + [p])[..|seen|] == seen;
    assert SegmentsOf(ports, seen, k) + [] == SegmentsOf(ports, seen, k);
  }

  lemma RetransmittedPush(ports: Ports, seen: seq<Packet>, p: Packet)
    ensures var k := Classify(ports, p);
            Retransmitted(ports, seen + [p]) ==
            Retransmitted(ports, seen) +
            if k.Some? && Known(ports, seen + [p], k.value.conn) then
              Cut(RunFrom(FRESH, SegmentsOf(ports, seen, k.value)), SegmentOf(p))
            else 0
  {
    assert (seen + [p])[..|seen|] == seen;
  }

  // ---- clients and servers, by their ports ---------------------------------------------------

  /** A port of one of the two captured protocols; an LX200 port of 0 stands for none. */
  ghost predicate Captured(ports: Ports, port: int) {
    port == ports.indi || (port != 0 && ports.lx200 == Some(port))
  }

  /** A packet to a captured port is its sender's, as the client, whatever port that has; one from a
      captured port to any other is the server's. */
  ghost predicate Between(ports: Ports, p: Packet, c: Conn) {
    || (Captured(ports, p.dst.1) && p.src == c.client && p.dst == c.server)
    || (!Captured(ports, p.dst.1) && Captured(ports, p.src.1) && p.src == c.server && p.dst == c.client)
  }

  /** A connection is known once a packet between its two ends, without RST, was seen. */
  lemma KnownIff(ports: Ports, seen: seq<Packet>, c: Conn)
    ensures Known(ports, seen, c) <==> exists i :: 0 <= i < |seen| && Between(ports, seen[i], c) && !seen[i].rst
  {
    forall i | 0 <= i < |seen| ensures Opens(ports, seen[i], c) <==> Between(ports, seen[i], c) && !seen[i].rst {
      Ends(ports, seen[i], c, true);
    }
  }

  lemma Ends(ports: Ports, p: Packet, c: Conn, fromClient: bool)
    ensures Classify(ports, p) == Some(Key(c, fromClient)) <==>
      Between(ports, p, c) && (fromClient <==> Captured(ports, p.dst.1))
    ensures Classify(ports, p).Some? && Classify(ports, p).value.conn == c <==> Between(ports, p, c)
  {}

  /** The packets from the client and those from the server make up the two flows of a known
      connection; no other packet adds to them. */
  lemma FlowsAreOfTheirEnds(ports: Ports, seen: seq<Packet>, p: Packet, c: Conn, fromClient: bool)
    ensures SegmentsOf(ports, seen + [p], Key(c, fromClient)) ==
      SegmentsOf(ports, seen, Key(c, fromClient)) +
      if Known(ports, seen + [p], c) && Between(ports, p, c) && (fromClient <==> Captured(ports, p.dst.1))
      then [Segment(p.ts, p.seqNo, p.syn, p.payload)] else []
  {
    hide SegmentsOf, Known, Captured, Classify;
    SegmentsPush(ports, seen, p, Key(c, fromClient));
    Ends(ports, p, c, fromClient);
  }

  /** The packet the importer is about to use belongs to one flow of a known connection, or none. */
  ghost predicate Counts(ports: Ports, now: seq<Packet>, p: Packet) {
    Classify(ports, p).Some? && Known(ports, now, Classify(ports, p).value.conn)
  }

  lemma PacketCounts(ports: Ports, seen: seq<Packet>, p: Packet)
    ensures !Counts(ports, seen + [p], p) ==>
              && Retransmitted(ports, seen + [p]) == Retransmitted(ports, seen)
              && forall j :: SegmentsOf(ports, seen + [p], j) == SegmentsOf(ports, seen, j)
    ensures Counts(ports, seen + [p], p) ==>
              var k := Classify(ports, p).value;
              && Retransmitted(ports, seen + [p]) ==
                 Retransmitted(ports, seen) + Cut(RunFrom(FRESH, SegmentsOf(ports, seen, k)), SegmentOf(p))
              && forall j :: SegmentsOf(ports, seen + [p], j) ==
                   if j == k then SegmentsOf(ports, seen, j) + [SegmentOf(p)] else SegmentsOf(ports, seen, j)
  {
    hide SegmentsOf, Retransmitted, RunFrom, Cut;
    RetransmittedPush(ports, seen, p);
    forall j {
      SegmentsPush(ports, seen, p, j);
    }
  }

  lemma RunPush(segs: seq<Segment>, s: Segment, g: FlowState)
    requires var f := RunFrom(FRESH, segs); g == Accept(FlowState(f.next, f.pending, [], 0), s)
    ensures var f, h := RunFrom(FRESH, segs), RunFrom(FRESH, segs + [s]);
            && h.next == g.next && h.pending == g.pending && h.chunks == f.chunks + g.chunks
            && Cut(f, s) == g.retransmitted
  {
    hide Drain, Take, Put;
    assert (segs + [s])[..|segs|] == segs;
    assert forall c: seq<Chunk> :: c + [] == c;
  }

  class Import {
    const ports: Ports
    var conns: map<Conn, nat>
    var flows: map<Key, Flow>
    var out: seq<Event>
    var bytes: nat
    var retransmitted: nat
    ghost var seen: seq<Packet>

    ghost predicate Separate()
      reads this`flows
    {
      forall j, k :: j in flows && k in flows && j != k ==> flows[j] != flows[k]
    }

    /** Connections are numbered 1, 2, ... in the order their first packet without RST arrived. */
    ghost predicate Numbered()
      reads this
    {
      && (forall c :: c in conns <==> Known(ports, seen, c))
      && Injective()
    }

    ghost predicate Injective()
      reads this`conns
    {
      && (forall c :: c in conns ==> 1 <= conns[c] <= |conns|)
      && (forall c, d :: c in conns && d in conns && conns[c] == conns[d] ==> c == d)
    }

    ghost predicate Tracks(k: Key, segs: seq<Segment>)
      requires k in flows
      reads this`flows, this`out, flows.Values
    {
      var f := RunFrom(FRESH, segs);
      flows[k].nextSeq == f.next && flows[k].pending == f.pending && HandedOn(out, k) == f.chunks
    }

    /** Every flow is where a run over its own segments alone would be: interleaved flows and
        connections do not disturb each other. */
    ghost predicate Independent(seen: seq<Packet>)
      reads this`flows, this`out, flows.Values
    {
      && (forall k :: k in flows <==> SegmentsOf(ports, seen, k) != [])
      && (forall k :: k in flows ==> Tracks(k, SegmentsOf(ports, seen, k)))
      && (forall k :: k !in flows ==> HandedOn(out, k) == [])
    }

    ghost predicate Valid()
      reads this, flows.Values
    {
      && Separate() && Numbered() && Independent(seen)
      && bytes == TotalBytes(out)
      && retransmitted == Retransmitted(ports, seen)
    }

    constructor (ports: Ports)
      ensures Valid() && this.ports == ports && flows == map[] && seen == [] && out == []
    {
      this.ports := ports;
      conns, flows, out, bytes, retransmitted, seen := map[], map[], [], 0, 0, [];
    }

    /** Number a connection at its first packet without RST. */
    method Connect(c: Conn)
      requires Injective()
      modifies this`conns, this`out
      ensures Injective()
      ensures conns.Keys == old(conns.Keys) + {c} && |conns| >= |old(conns)|
      ensures forall d :: d in old(conns) ==> conns[d] == old(conns)[d]
      ensures forall k :: HandedOn(out, k) == old(HandedOn(out, k))
      ensures TotalBytes(out) == old(TotalBytes(out)) && old(out) <= out
      ensures c in old(conns) ==> Marks(out) == old(Marks(out))
      ensures c !in old(conns) ==>
                Marks(out) == old(Marks(out)) + [Connected(|old(conns)| + 1, c.server.1 == ports.indi, c.client)]
    {
      if c !in conns {
        conns := conns[c := |conns| + 1];
        var e := Connected(conns[c], c.server.1 == ports.indi, c.client);
        forall k ensures HandedOn(out + [e], k) == HandedOn(out, k) && TotalBytes(out + [e]) == TotalBytes(out) {
          HandedOnPush(out, e, k);
        }
        HandedOnPush(out, e, Key(c, true));
        out := out + [e];
      }
    }

    /** Hand the payloads of one flow to the writer. */
    method Write(k: Key, chunks: seq<Chunk>)
      modifies this`out, this`bytes
      ensures HandedOn(out, k) == old(HandedOn(out, k)) + chunks
      ensures forall j :: j != k ==> HandedOn(out, j) == old(HandedOn(out, j))
      ensures bytes - TotalBytes(out) == old(bytes - TotalBytes(out)) && old(out) <= out
      ensures Marks(out) == old(Marks(out))
    {
      for i := 0 to |chunks|
        invariant HandedOn(out, k) == old(HandedOn(out, k)) + chunks[..i]
        invariant forall j :: j != k ==> HandedOn(out, j) == old(HandedOn(out, j))
        invariant bytes - TotalBytes(out) == old(bytes - TotalBytes(out)) && old(out) <= out
        invariant Marks(out) == old(Marks(out))
      {
        var e := Data(k, chunks[i]);
        forall j ensures HandedOn(out + [e], j) == HandedOn(out, j) + if j == k then [chunks[i]] else [] {
          HandedOnPush(out, e, j);
        }
        HandedOnPush(out, e, k);
        bytes := bytes + |chunks[i].payload|;
        out := out + [e];
      }
    }

    /** One segment of flow `k`. */
    method Deliver(k: Key, seg: Segment, ghost was: seq<Packet>, ghost now: seq<Packet>)
      requires Separate() && Independent(was) && bytes == TotalBytes(out)
      requires forall j :: SegmentsOf(ports, now, j) ==
                           if j == k then SegmentsOf(ports, was, j) + [seg] else SegmentsOf(ports, was, j)
      modifies this`flows, this`out, this`bytes, this`retransmitted, flows.Values
      ensures Separate() && Independent(now) && bytes == TotalBytes(out)
      ensures retransmitted == old(retransmitted) + Cut(RunFrom(FRESH, SegmentsOf(ports, was, k)), seg)
      ensures fresh(flows.Values - old(flows.Values)) && old(out) <= out
      ensures Marks(out) == old(Marks(out))
    {
      hide RunFrom, SegmentsOf, HandedOn, TotalBytes, Accept, Cut, Marks;
      ghost var segs := SegmentsOf(ports, was, k);
      RunNone();
      if k !in flows {
        var flow := new Flow();
        flows := flows[k := flow];
      }
      assert Tracks(k, segs);
      var chunks, cut := flows[k].Feed(seg);
      RunPush(segs, seg, FlowState(flows[k].nextSeq, flows[k].pending, chunks, cut));
      retransmitted := retransmitted + cut;
      Write(k, chunks);
    }

    /** The connect record a packet causes, of whichever end is the client's. */
    ghost function Opening(p: Packet): seq<Event>
      reads this`conns
    {
      var (client, server) := if Captured(ports, p.dst.1) then (p.src, p.dst) else (p.dst, p.src);
      if Captured(ports, server.1) && !p.rst && Conn(client, server) !in conns then
        [Connected(|conns| + 1, server.1 == ports.indi, client)]
      else []
    }

    /** The close record a packet of the client causes once its connection is numbered. */
    ghost function Closing(p: Packet): seq<Event>
      reads this`conns
    {
      if Captured(ports, p.dst.1) && Conn(p.src, p.dst) in conns && !p.syn && (p.fin || p.rst) then
        [Closed(conns[Conn(p.src, p.dst)])]
      else []
    }

    lemma MarksByEnds(p: Packet)
      ensures var key := Classify(ports, p);
        && Opening(p) == (if key.Some? && !p.rst && key.value.conn !in conns then
                            var c := key.value.conn;
                            [Connected(|conns| + 1, c.server.1 == ports.indi, c.client)]
                          else [])
        && Closing(p) == (if key.Some? && key.value.conn in conns && key.value.fromClient && !p.syn && (p.fin || p.rst)
                          then [Closed(conns[key.value.conn])] else [])
    {}

    /** Number the packet's connection, if it opens one. Flows are left alone. */
    method Enroll(p: Packet)
      requires Numbered() && Independent(seen)
      modifies this`conns, this`out
      ensures Injective() && Independent(seen)
      ensures forall c :: c in conns <==> Known(ports, seen + [p], c)
      ensures TotalBytes(out) == old(TotalBytes(out)) && old(out) <= out
      ensures Marks(out) == old(Marks(out)) + old(Opening(p))
    {
      hide RunFrom, SegmentsOf, Known, HandedOn, TotalBytes, Marks, Classify, Opening, Closing, Captured,
        Independent, Injective, Separate;
      forall c ensures Known(ports, seen + [p], c) <==> Known(ports, seen, c) || Opens(ports, p, c) {
        KnownPush(ports, seen, p, c);
      }
      MarksByEnds(p);
      var key := Classify(ports, p);
      if key.Some? && !p.rst {
        Connect(key.value.conn);
        FlowsStand();
      }
    }

    /** Writing a connect record moves no flow. */
    twostate lemma FlowsStand()
      requires old(Independent(seen)) && flows == old(flows) && seen == old(seen) && unchanged(flows.Values)
      requires forall k :: HandedOn(out, k) == old(HandedOn(out, k))
      ensures Independent(seen)
    {
      hide RunFrom, SegmentsOf, HandedOn;
    }

    /** One captured packet. */
    method Step(p: Packet)
      requires Valid()
      modifies this, flows.Values
      ensures Valid() && fresh(flows.Values - old(flows.Values))
      ensures seen == old(seen) + [p] && old(out) <= out
      ensures Marks(out) == old(Marks(out)) + old(Opening(p)) + Closing(p)
    {
      hide RunFrom, SegmentsOf, Retransmitted, Cut, Known, HandedOn, TotalBytes, Tracks, Marks, Classify,
        Opening, Closing, Captured, Separate, Injective, SegmentOf, Independent;
      Enroll(p);
      ghost var was := seen;
      PacketCounts(ports, was, p);
      seen := was + [p];
      var key := Classify(ports, p);
      if key.Some? && key.value.conn in conns {
        var k := key.value;
        Deliver(k, SegmentOf(p), was, seen);
        MarksByEnds(p);
        if !p.syn && (p.fin || p.rst) && k.fromClient {
          CloseFlow(k, seen);
        }
      } else {
        MarksByEnds(p);
        SameSegments(was, seen);
      }
    }

    lemma SameSegments(was: seq<Packet>, now: seq<Packet>)
      requires Independent(was)
      requires forall j :: SegmentsOf(ports, now, j) == SegmentsOf(ports, was, j)
      ensures Independent(now)
    {
      hide RunFrom, SegmentsOf, HandedOn;
    }

    method CloseFlow(k: Key, ghost seen: seq<Packet>)
      requires k.conn in conns && Independent(seen)
      modifies this`out
      ensures Independent(seen)
      ensures TotalBytes(out) == old(TotalBytes(out)) && old(out) <= out
      ensures Marks(out) == old(Marks(out)) + [Closed(conns[k.conn])]
    {
      hide RunFrom, SegmentsOf, HandedOn, TotalBytes, Marks;
      var e := Closed(conns[k.conn]);
      forall j {
        HandedOnPush(out, e, j);
      }
      HandedOnPush(out, e, k);
      out := out + [e];
    }
  }

  lemma RunNone()
    ensures RunFrom(FRESH, []) == FRESH
  {
  }
}
