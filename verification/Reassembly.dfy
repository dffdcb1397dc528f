/** TCP stream reassembly of one flow: the buffer of out-of-order segments, the choice of the next
    payload and the drain loop that hands payloads on. */
module Reassembly {
  import opened Common

  const MODULUS := 0x1_0000_0000
  const HALF := 0x8000_0000

  type Byte = b: int | 0 <= b < 256
  type SeqNo = n: int | 0 <= n < 0x1_0000_0000

  datatype Segment = Segment(ts: real, seqNo: SeqNo, syn: bool, payload: seq<Byte>)
  datatype Entry = Entry(seqNo: SeqNo, ts: real, payload: seq<Byte>)
  datatype Chunk = Chunk(ts: real, payload: seq<Byte>)

  /** A flow whose next sequence number is known. `pending` lists the entries in insertion order,
      one per sequence number. */
  datatype Buffer = Buffer(next: SeqNo, pending: seq<Entry>)

  ghost predicate Distinct(pending: seq<Entry>) {
    forall i, j :: 0 <= i < j < |pending| ==> pending[i].seqNo != pending[j].seqNo
  }

  // ---- the buffer as an insertion-ordered map ------------------------------------------------

  /** Position of the entry stored under `seqNo`, or the length if there is none. */
  function IndexOf(pending: seq<Entry>, seqNo: SeqNo): (i: nat)
    ensures i <= |pending|
    ensures i < |pending| ==> pending[i].seqNo == seqNo
    ensures forall j :: 0 <= j < i ==> pending[j].seqNo != seqNo
  {
    if pending == [] || pending[0].seqNo == seqNo then 0 else 1 + IndexOf(pending[1..], seqNo)
  }

  /** Store an entry: an entry with the same number is replaced in place. */
  function Put(pending: seq<Entry>, e: Entry): seq<Entry> {
    var i := IndexOf(pending, e.seqNo);
    if i < |pending| then pending[i := e] else pending + [e]
  }

  function Without(pending: seq<Entry>, i: nat): (rest: seq<Entry>)
    requires i < |pending|
    ensures |rest| == |pending| - 1
    ensures forall j :: 0 <= j < |rest| ==> rest[j] == pending[if j < i then j else j + 1]
    ensures forall j :: 0 <= j < |pending| && j != i ==> rest[if j < i then j else j - 1] == pending[j]
  {
    pending[..i] + pending[i + 1..]
  }

  /** How far `seqNo` lies before `next`, modulo 2^32. */
  function Back(next: SeqNo, seqNo: SeqNo): SeqNo { (next - seqNo) % MODULUS }

  predicate Behind(next: SeqNo, e: Entry) { 0 < Back(next, e.seqNo) < HALF }

  /** The oldest entry that starts before `next`, or the length if there is none. */
  function FirstBehind(next: SeqNo, pending: seq<Entry>): (i: nat)
    ensures i <= |pending|
    ensures i < |pending| ==> Behind(next, pending[i])
    ensures forall j :: 0 <= j < i ==> !Behind(next, pending[j])
  {
    if pending == [] || Behind(next, pending[0]) then 0 else 1 + FirstBehind(next, pending[1..])
  }

  // ---- one payload, and all of them ----------------------------------------------------------

  datatype Taken = Nothing | Item(ts: real, payload: seq<Byte>, dropped: nat, rest: Buffer)

  function Take(b: Buffer): (t: Taken)
    ensures t.Item? ==> |t.rest.pending| == |b.pending| - 1
  {
    var i := IndexOf(b.pending, b.next);
    if i < |b.pending| then
      var e := b.pending[i];
      Item(e.ts, e.payload, 0, Buffer((b.next + |e.payload|) % MODULUS, Without(b.pending, i)))
    else
      var j := FirstBehind(b.next, b.pending);
      if j == |b.pending| then Nothing
      else
        var e := b.pending[j];
        var back := Back(b.next, e.seqNo);
        if back < |e.payload| then
          Item(e.ts, e.payload[back..], back,
               Buffer((b.next + |e.payload| - back) % MODULUS, Without(b.pending, j)))
        else
          Item(e.ts, [], |e.payload|, Buffer(b.next, Without(b.pending, j)))
  }

  lemma TakesExpected(b: Buffer)
    requires IndexOf(b.pending, b.next) < |b.pending|
    ensures var i := IndexOf(b.pending, b.next);
      var e := b.pending[i];
      Take(b) == Item(e.ts, e.payload, 0, Buffer((b.next + |e.payload|) % MODULUS, Without(b.pending, i)))
  {}

  lemma TakesBehind(b: Buffer, j: nat)
    requires IndexOf(b.pending, b.next) == |b.pending| && j < |b.pending| && Behind(b.next, b.pending[j])
    requires forall k :: 0 <= k < j ==> !Behind(b.next, b.pending[k])
    ensures var e, back := b.pending[j], Back(b.next, b.pending[j].seqNo);
      Take(b) == if back < |e.payload|
        then Item(e.ts, e.payload[back..], back, Buffer((b.next + |e.payload| - back) % MODULUS, Without(b.pending, j)))
        else Item(e.ts, [], |e.payload|, Buffer(b.next, Without(b.pending, j)))
  {
    hide Back, Without;
    assert FirstBehind(b.next, b.pending) == j;
  }

  lemma TakesNothing(b: Buffer)
    requires IndexOf(b.pending, b.next) == |b.pending|
    requires forall k :: 0 <= k < |b.pending| ==> !Behind(b.next, b.pending[k])
    ensures Take(b) == Nothing
  {
    hide Back;
  }

  function ChunkOf(ts: real, payload: seq<Byte>): seq<Chunk> {
    if payload == [] then [] else [Chunk(ts, payload)]
  }

  datatype Drained = Drained(rest: Buffer, chunks: seq<Chunk>, dropped: nat)

  function Drain(b: Buffer): Drained
    decreases |b.pending|
  {
    match Take(b)
    case Nothing => Drained(b, [], 0)
    case Item(ts, payload, dropped, rest) =>
      var r := Drain(rest);
      Drained(r.rest, ChunkOf(ts, payload) + r.chunks, dropped + r.dropped)
  }

  /** One round of the drain loop. */
  lemma DrainUnfolds(b: Buffer)
    ensures Take(b).Nothing? ==> Drain(b) == Drained(b, [], 0)
    ensures Take(b).Item? ==>
              var t := Take(b);
              var r := Drain(t.rest);
              Drain(b) == Drained(r.rest, ChunkOf(t.ts, t.payload) + r.chunks, t.dropped + r.dropped)
  {
  }

  function Bytes(chunks: seq<Chunk>): seq<Byte> {
    if chunks == [] then [] else chunks[0].payload + Bytes(chunks[1..])
  }

  // ---- a flow over a list of segments --------------------------------------------------------

  /** What the importer holds for one flow, with everything handed on so far and its counters. */
  datatype FlowState = FlowState(next: Option<SeqNo>, pending: seq<Entry>,
                                 chunks: seq<Chunk>, retransmitted: nat)

  const FRESH := FlowState(None, [], [], 0)

  function Accept(f: FlowState, s: Segment): FlowState {
    if s.syn then f.(next := Some((s.seqNo + 1) % MODULUS))
    else if s.payload == [] then f
    else
      var next := if f.next.None? then s.seqNo else f.next.value;
      var d := Drain(Buffer(next, Put(f.pending, Entry(s.seqNo, s.ts, s.payload))));
      FlowState(Some(d.rest.next), d.rest.pending, f.chunks + d.chunks, f.retransmitted + d.dropped)
  }

  function RunFrom(f: FlowState, segs: seq<Segment>): FlowState {
    if segs == [] then f else Accept(RunFrom(f, segs[..|segs| - 1]), segs[|segs| - 1])
  }

  // ---- the mutable flow ----------------------------------------------------------------------

  class Flow {
    var nextSeq: Option<SeqNo>
    var pending: seq<Entry>

    constructor ()
      ensures nextSeq == None && pending == []
    {
      nextSeq, pending := None, [];
    }

    /** The next in-order payload, with already delivered bytes cut off and counted. */
    method TakeNext() returns (item: Option<(real, seq<Byte>, nat)>)
      requires nextSeq.Some?
      modifies this
      ensures nextSeq.Some?
      ensures var t := Take(old(Buffer(nextSeq.value, pending)));
              match t
              case Nothing => item == None && nextSeq == old(nextSeq) && pending == old(pending)
              case Item(ts, payload, dropped, rest) =>
                item == Some((ts, payload, dropped)) && Buffer(nextSeq.value, pending) == rest
    {
      hide Take, Back, Without, IndexOf, FirstBehind;
      var expected := nextSeq.value;
      var i := IndexOf(pending, expected);
      if i < |pending| {
        TakesExpected(Buffer(expected, pending));
        var e := pending[i];
        pending := Without(pending, i);
        nextSeq := Some((expected + |e.payload|) % MODULUS);
        return Some((e.ts, e.payload, 0));
      }
      var j := 0;
      while j < |pending|
        invariant 0 <= j <= |pending| && nextSeq == old(nextSeq) && pending == old(pending)
        invariant forall k :: 0 <= k < j ==> !Behind(expected, pending[k])
      {
        var e := pending[j];
        var back := Back(expected, e.seqNo);
        if 0 < back < HALF {
          TakesBehind(Buffer(expected, pending), j);
          pending := Without(pending, j);
          if back < |e.payload| {
            nextSeq := Some((expected + |e.payload| - back) % MODULUS);
            return Some((e.ts, e.payload[back..], back));
          }
          return Some((e.ts, [], |e.payload|));
        }
        j := j + 1;
      }
      TakesNothing(Buffer(expected, pending));
      return None;
    }

    /** Hand on everything that is in order. */
    method DrainAll() returns (chunks: seq<Chunk>, dropped: nat)
      requires nextSeq.Some?
      modifies this
      ensures nextSeq.Some?
      ensures Drain(old(Buffer(nextSeq.value, pending))) ==
              Drained(Buffer(nextSeq.value, pending), chunks, dropped)
    {
      hide Drain, Take;
      chunks, dropped := [], 0;
      ghost var all := Drain(Buffer(nextSeq.value, pending));
      while true
        invariant nextSeq.Some?
        invariant all.rest == Drain(Buffer(nextSeq.value, pending)).rest
        invariant all.chunks == chunks + Drain(Buffer(nextSeq.value, pending)).chunks
        invariant all.dropped == dropped + Drain(Buffer(nextSeq.value, pending)).dropped
        decreases |pending|
      {
        DrainUnfolds(Buffer(nextSeq.value, pending));
        ghost var before := Buffer(nextSeq.value, pending);
        var item := TakeNext();
        if item == None {
          break;
        }
        var (ts, payload, cut) := item.value;
        dropped := dropped + cut;
        assert all.chunks == (chunks + ChunkOf(ts, payload)) + Drain(Take(before).rest).chunks;
        chunks := chunks + ChunkOf(ts, payload);
      }
    }

    /** Buffer one segment and hand on everything that is now in order. */
    method Feed(seg: Segment) returns (chunks: seq<Chunk>, retransmitted: nat)
      modifies this
      ensures Accept(old(FlowState(nextSeq, pending, [], 0)), seg) ==
              FlowState(nextSeq, pending, chunks, retransmitted)
    {
      chunks, retransmitted := [], 0;
      if seg.syn {
        nextSeq := Some((seg.seqNo + 1) % MODULUS);
      } else if seg.payload != [] {
        if nextSeq == None {
          nextSeq := Some(seg.seqNo);
        }
        pending := Put(pending, Entry(seg.seqNo, seg.ts, seg.payload));
        chunks, retransmitted := DrainAll();
      }
    }
  }
}
