/** What reassembly guarantees about the sender's byte stream. The ghost view of a sequence number
    is an unbounded offset into that stream; `isn` is the number of the stream's first byte
    (section 3.4 of RFC 9293). */
module ReassemblyProofs {
  import opened Common
  import opened Reassembly

  // ---- offsets -------------------------------------------------------------------------------

  /** The smallest offset not below `lo` whose 32-bit image is `seqNo`. */
  ghost function At(isn: SeqNo, lo: int, seqNo: SeqNo): (o: int)
    ensures lo <= o < lo + MODULUS
  {
    lo + (seqNo - isn - lo) % MODULUS
  }

  ghost function Image(isn: SeqNo, o: int): SeqNo { (isn + o) % MODULUS }

  lemma AtUnique(isn: SeqNo, lo: int, seqNo: SeqNo, o: int)
    requires lo <= o < lo + MODULUS
    ensures o == At(isn, lo, seqNo) <==> seqNo == Image(isn, o)
  {
  }

  lemma BackIsDistance(isn: SeqNo, base: int, o: int)
    requires -HALF < base - o < HALF
    ensures 0 < Back(Image(isn, base), Image(isn, o)) < HALF <==> o < base
    ensures o < base ==> Back(Image(isn, base), Image(isn, o)) == base - o
    ensures Image(isn, base) == Image(isn, o) <==> o == base
  {
  }

  lemma ImageAdd(isn: SeqNo, base: int, k: int)
    ensures (Image(isn, base) + k) % MODULUS == Image(isn, base + k)
  {
  }

  // ---- buffers that hold slices of one stream ------------------------------------------------

  /** The entry holds the stream's bytes from its offset on, inside the half window above `lo`. */
  ghost predicate Placed(e: Entry, stream: seq<Byte>, isn: SeqNo, lo: nat) {
    var o := At(isn, lo, e.seqNo);
    && e.payload != []
    && o + |e.payload| < lo + HALF
    && o + |e.payload| <= |stream|
    && e.payload == stream[o..o + |e.payload|]
  }

  /** Everything up to `base` was delivered; offsets are read relative to `lo`. */
  ghost predicate Aligned(b: Buffer, stream: seq<Byte>, isn: SeqNo, lo: nat, base: nat) {
    && lo <= base < lo + HALF
    && base <= |stream|
    && b.next == Image(isn, base)
    && forall i :: 0 <= i < |b.pending| ==> Placed(b.pending[i], stream, isn, lo)
  }

  /** Between segments: aligned at `base` itself, with every entry beyond the delivered prefix. */
  ghost predicate Settled(b: Buffer, stream: seq<Byte>, isn: SeqNo, base: nat) {
    && Aligned(b, stream, isn, base, base)
    && forall i :: 0 <= i < |b.pending| ==> At(isn, base, b.pending[i].seqNo) > base
  }

  ghost predicate Covers(e: Entry, isn: SeqNo, lo: int, x: int) {
    At(isn, lo, e.seqNo) <= x < At(isn, lo, e.seqNo) + |e.payload|
  }

  /** Byte `x` of the stream was delivered or is held in the buffer. */
  ghost predicate Known(b: Buffer, isn: SeqNo, lo: int, base: int, x: int) {
    x < base || exists i :: 0 <= i < |b.pending| && Covers(b.pending[i], isn, lo, x)
  }

  /** The two buffers know the same bytes, each read relative to its own `lo`. */
  ghost predicate SameKnown(b: Buffer, lo: int, base: int, b': Buffer, lo': int, base': int, isn: SeqNo) {
    forall x :: Known(b, isn, lo, base, x) <==> Known(b', isn, lo', base', x)
  }

  // ---- one payload ---------------------------------------------------------------------------

  /** The delivered prefix after taking entry `e`. */
  ghost function Advance(e: Entry, isn: SeqNo, lo: nat, base: nat): (base': nat)
    ensures base <= base'
  {
    var end := At(isn, lo, e.seqNo) + |e.payload|;
    if end > base then end else base
  }

  /** What the 32-bit comparisons see of an entry is where it starts in the stream. */
  lemma EntryPosition(b: Buffer, stream: seq<Byte>, isn: SeqNo, lo: nat, base: nat, j: nat)
    requires Aligned(b, stream, isn, lo, base) && j < |b.pending|
    ensures var o := At(isn, lo, b.pending[j].seqNo);
            && (b.pending[j].seqNo == b.next <==> o == base)
            && (Behind(b.next, b.pending[j]) <==> o < base)
            && (o < base ==> Back(b.next, b.pending[j].seqNo) == base - o)
  {
    var o := At(isn, lo, b.pending[j].seqNo);
    assert Placed(b.pending[j], stream, isn, lo);
    AtUnique(isn, lo, b.pending[j].seqNo, o);
    BackIsDistance(isn, base, o);
  }

  /** The position `Take` picks from, or the length if it finds nothing. */
  ghost function Picked(b: Buffer): (i: nat)
    ensures i <= |b.pending|
  {
    var i := IndexOf(b.pending, b.next);
    if i < |b.pending| then i else FirstBehind(b.next, b.pending)
  }

  lemma PickedStartsInside(b: Buffer, stream: seq<Byte>, isn: SeqNo, lo: nat, base: nat)
    requires Aligned(b, stream, isn, lo, base)
    ensures Take(b).Item? <==> Picked(b) < |b.pending|
    ensures Take(b).Item? ==> At(isn, lo, b.pending[Picked(b)].seqNo) <= base
    ensures Take(b).Nothing? ==>
              forall j :: 0 <= j < |b.pending| ==> At(isn, lo, b.pending[j].seqNo) > base
  {
    forall j: nat | j < |b.pending|
      ensures b.pending[j].seqNo == b.next <==> At(isn, lo, b.pending[j].seqNo) == base
      ensures Behind(b.next, b.pending[j]) <==> At(isn, lo, b.pending[j].seqNo) < base
    {
      EntryPosition(b, stream, isn, lo, base, j);
    }
  }

  lemma TakeIsInOrder(b: Buffer, stream: seq<Byte>, isn: SeqNo, lo: nat, base: nat)
    requires Aligned(b, stream, isn, lo, base)
    requires Take(b).Item?
    ensures Picked(b) < |b.pending|
    ensures var e, base' := b.pending[Picked(b)], Advance(b.pending[Picked(b)], isn, lo, base);
            && Take(b).rest.pending == Without(b.pending, Picked(b))
            && Take(b).rest.next == Image(isn, base')
            && base' <= |stream| && base' < lo + HALF
            && Take(b).payload == stream[base..base']
            && Take(b).dropped + (base' - base) == |e.payload|
  {
    PickedStartsInside(b, stream, isn, lo, base);
    var e := b.pending[Picked(b)];
    var base' := Advance(e, isn, lo, base);
    var o := At(isn, lo, e.seqNo);
    EntryPosition(b, stream, isn, lo, base, Picked(b));
    assert Placed(e, stream, isn, lo);
    ImageAdd(isn, base, base' - base);
    if o + |e.payload| > base {
      assert e.payload[base - o..] == stream[base..base'];
    }
  }

  lemma TakeKeepsAligned(b: Buffer, stream: seq<Byte>, isn: SeqNo, lo: nat, base: nat)
    requires Aligned(b, stream, isn, lo, base)
    requires Take(b).Item?
    ensures Picked(b) < |b.pending|
    ensures Aligned(Take(b).rest, stream, isn, lo, Advance(b.pending[Picked(b)], isn, lo, base))
  {
    TakeIsInOrder(b, stream, isn, lo, base);
    forall j | 0 <= j < |Take(b).rest.pending| ensures Placed(Take(b).rest.pending[j], stream, isn, lo) {
      assert Placed(b.pending[if j < Picked(b) then j else j + 1], stream, isn, lo);
    }
  }

  /** Taking one entry neither loses nor invents a byte of the stream. */
  lemma TakeKeepsKnown(b: Buffer, b': Buffer, i: nat, isn: SeqNo, lo: nat, base: nat)
    requires i < |b.pending| && b'.pending == Without(b.pending, i)
    requires At(isn, lo, b.pending[i].seqNo) <= base
    ensures SameKnown(b, lo, base, b', lo, Advance(b.pending[i], isn, lo, base), isn)
  {
    var base' := Advance(b.pending[i], isn, lo, base);
    forall x ensures Known(b, isn, lo, base, x) <==> Known(b', isn, lo, base', x) {
      if x >= base' {
        if j :| 0 <= j < |b.pending| && Covers(b.pending[j], isn, lo, x) {
          assert Covers(b'.pending[if j < i then j else j - 1], isn, lo, x);
        }
        if j :| 0 <= j < |b'.pending| && Covers(b'.pending[j], isn, lo, x) {
          assert Covers(b.pending[if j < i then j else j + 1], isn, lo, x);
        }
      } else if x >= base {
        assert Covers(b.pending[i], isn, lo, x);
      }
    }
  }

  // ---- the drain loop ------------------------------------------------------------------------

  lemma BytesOfChunk(ts: real, payload: seq<Byte>, rest: seq<Chunk>)
    ensures Bytes(ChunkOf(ts, payload) + rest) == payload + Bytes(rest)
  {
    if payload != [] {
      assert (ChunkOf(ts, payload) + rest)[1..] == rest;
    } else {
      assert ChunkOf(ts, payload) + rest == rest;
    }
  }

  /** With every entry beyond `base`, offsets may be read relative to `base` instead of `lo`. */
  lemma Rebase(b: Buffer, stream: seq<Byte>, isn: SeqNo, lo: nat, base: nat)
    requires Aligned(b, stream, isn, lo, base)
    requires forall i :: 0 <= i < |b.pending| ==> At(isn, lo, b.pending[i].seqNo) > base
    ensures Settled(b, stream, isn, base)
    ensures SameKnown(b, lo, base, b, base, base, isn)
  {
    forall i | 0 <= i < |b.pending|
      ensures At(isn, base, b.pending[i].seqNo) == At(isn, lo, b.pending[i].seqNo)
      ensures Placed(b.pending[i], stream, isn, base)
    {
      var e := b.pending[i];
      assert Placed(e, stream, isn, lo);
      AtUnique(isn, lo, e.seqNo, At(isn, lo, e.seqNo));
      AtUnique(isn, base, e.seqNo, At(isn, lo, e.seqNo));
    }
    forall x ensures Known(b, isn, lo, base, x) <==> Known(b, isn, base, base, x) {
      if i :| 0 <= i < |b.pending| && Covers(b.pending[i], isn, base, x) {
        assert Covers(b.pending[i], isn, lo, x);
      }
      if i :| 0 <= i < |b.pending| && Covers(b.pending[i], isn, lo, x) {
        assert Covers(b.pending[i], isn, base, x);
      }
    }
  }

  lemma DrainAfterTake(b: Buffer)
    requires Take(b).Item?
    ensures Drain(b).rest == Drain(Take(b).rest).rest
    ensures Bytes(Drain(b).chunks) == Take(b).payload + Bytes(Drain(Take(b).rest).chunks)
  {
    DrainUnfolds(b);
    BytesOfChunk(Take(b).ts, Take(b).payload, Drain(Take(b).rest).chunks);
  }

  lemma SameKnownTransitive(a: Buffer, la: int, sa: int, b: Buffer, lb: int, sb: int,
                            c: Buffer, lc: int, sc: int, isn: SeqNo)
    requires SameKnown(a, la, sa, b, lb, sb, isn) && SameKnown(b, lb, sb, c, lc, sc, isn)
    ensures SameKnown(a, la, sa, c, lc, sc, isn)
  {
    hide Known;
    forall x ensures Known(a, isn, la, sa, x) <==> Known(c, isn, lc, sc, x) {
      assert Known(b, isn, lb, sb, x) <==> Known(a, isn, la, sa, x);
    }
  }

  /** The drain loop hands on exactly the next bytes of the stream and stops only in front of a
      gap. It neither loses nor invents a byte. */
  lemma {:induction false} DrainDelivers(b: Buffer, stream: seq<Byte>, isn: SeqNo, lo: nat, base: nat)
    returns (base': nat)
    requires Aligned(b, stream, isn, lo, base)
    ensures base <= base' <= |stream|
    ensures Bytes(Drain(b).chunks) == stream[base..base']
    ensures Settled(Drain(b).rest, stream, isn, base')
    ensures SameKnown(b, lo, base, Drain(b).rest, base', base', isn)
    decreases |b.pending|
  {
    PickedStartsInside(b, stream, isn, lo, base);
    if Take(b).Nothing? {
      base' := base;
      DrainUnfolds(b);
      Rebase(b, stream, isn, lo, base);
    } else {
      TakeIsInOrder(b, stream, isn, lo, base);
      TakeKeepsAligned(b, stream, isn, lo, base);
      base' := DrainItem(b, stream, isn, lo, base);
    }
  }

  lemma {:induction false} DrainItem(b: Buffer, stream: seq<Byte>, isn: SeqNo, lo: nat, base: nat)
    returns (base': nat)
    requires Aligned(b, stream, isn, lo, base) && Take(b).Item? && Picked(b) < |b.pending|
    requires At(isn, lo, b.pending[Picked(b)].seqNo) <= base
    requires Take(b).rest.pending == Without(b.pending, Picked(b))
    requires Advance(b.pending[Picked(b)], isn, lo, base) <= |stream|
    requires Take(b).payload == stream[base..Advance(b.pending[Picked(b)], isn, lo, base)]
    requires Aligned(Take(b).rest, stream, isn, lo, Advance(b.pending[Picked(b)], isn, lo, base))
    ensures base <= base' <= |stream|
    ensures Bytes(Drain(b).chunks) == stream[base..base']
    ensures Settled(Drain(b).rest, stream, isn, base')
    ensures SameKnown(b, lo, base, Drain(b).rest, base', base', isn)
    decreases |b.pending|, 0
  {
    hide Drain, Take, Bytes, Known, SameKnown, Settled, Aligned, Picked, At;
    var rest, mid := Take(b).rest, Advance(b.pending[Picked(b)], isn, lo, base);
    base' := DrainDelivers(rest, stream, isn, lo, mid);
    DrainAfterTake(b);
    assert stream[base..mid] + stream[mid..base'] == stream[base..base'];
    TakeKeepsKnown(b, rest, Picked(b), isn, lo, base);
    SameKnownTransitive(b, lo, base, rest, lo, mid, Drain(b).rest, base', base', isn);
  }

  // ---- one segment ---------------------------------------------------------------------------

  /** A data segment and the offset of its first byte in the stream. */
  datatype Sent = Sent(seg: Segment, off: nat)

  ghost predicate SliceOf(s: Sent, stream: seq<Byte>, isn: SeqNo) {
    && !s.seg.syn
    && s.off + |s.seg.payload| <= |stream|
    && s.seg.payload == stream[s.off..s.off + |s.seg.payload|]
    && s.seg.seqNo == Image(isn, s.off)
  }

  /** Less than 2^31 away from the next expected byte, on either side. */
  ghost predicate InWindow(s: Sent, base: nat) {
    s.seg.payload != [] ==> base - HALF < s.off && s.off + |s.seg.payload| < base + HALF
  }

  ghost predicate Carries(s: Sent, x: int) { s.off <= x < s.off + |s.seg.payload| }

  function EntryOf(s: Segment): Entry { Entry(s.seqNo, s.ts, s.payload) }

  function Store(b: Buffer, s: Segment): Buffer { Buffer(b.next, Put(b.pending, EntryOf(s))) }

  /** Byte `x` is held by an entry that a segment numbered `seqNo` does not replace. */
  ghost predicate HeldElsewhere(b: Buffer, isn: SeqNo, base: nat, seqNo: SeqNo, x: int) {
    exists i :: 0 <= i < |b.pending| && b.pending[i].seqNo != seqNo && Covers(b.pending[i], isn, base, x)
  }

  lemma PutKeepsDistinct(pending: seq<Entry>, e: Entry)
    requires Distinct(pending)
    ensures Distinct(Put(pending, e))
    ensures forall k :: 0 <= k < |Put(pending, e)| ==> Put(pending, e)[k] == e || Put(pending, e)[k] in pending
    ensures forall k :: 0 <= k < |pending| && pending[k].seqNo != e.seqNo ==> pending[k] in Put(pending, e)
    ensures forall k :: 0 <= k < |Put(pending, e)| && Put(pending, e)[k].seqNo == e.seqNo ==> Put(pending, e)[k] == e
    ensures e in Put(pending, e)
  {
    var i := IndexOf(pending, e.seqNo);
    var put := Put(pending, e);
    if i == |pending| {
      assert put[|pending|] == e;
    } else {
      assert put[i] == e;
    }
    forall k | 0 <= k < |pending| && pending[k].seqNo != e.seqNo ensures pending[k] in put {
      assert put[k] == pending[k];
    }
  }

  lemma StoreAhead(b: Buffer, stream: seq<Byte>, isn: SeqNo, base: nat, s: Sent)
    requires Settled(b, stream, isn, base) && Distinct(b.pending)
    requires SliceOf(s, stream, isn) && InWindow(s, base) && s.seg.payload != [] && base <= s.off
    ensures Aligned(Store(b, s.seg), stream, isn, base, base)
    ensures forall x :: x >= base ==>
              (Known(Store(b, s.seg), isn, base, base, x) <==>
               Carries(s, x) || HeldElsewhere(b, isn, base, s.seg.seqNo, x))
  {
    var e := EntryOf(s.seg);
    var c := Store(b, s.seg);
    AtUnique(isn, base, e.seqNo, s.off);
    PutKeepsDistinct(b.pending, e);
    assert Placed(e, stream, isn, base);
    forall x | x >= base
      ensures Known(c, isn, base, base, x) <==> Carries(s, x) || HeldElsewhere(b, isn, base, e.seqNo, x)
    {
      if Known(c, isn, base, base, x) {
        var i :| 0 <= i < |c.pending| && Covers(c.pending[i], isn, base, x);
        if c.pending[i].seqNo != e.seqNo {
          assert c.pending[i] in b.pending;
        }
      }
      if Carries(s, x) {
        assert Covers(e, isn, base, x);
      }
      if HeldElsewhere(b, isn, base, e.seqNo, x) {
        var i :| 0 <= i < |b.pending| && b.pending[i].seqNo != e.seqNo && Covers(b.pending[i], isn, base, x);
        assert b.pending[i] in c.pending;
      }
    }
  }

  ghost predicate StartsBehind(b: Buffer, stream: seq<Byte>, isn: SeqNo, base: nat, s: Sent) {
    && Settled(b, stream, isn, base)
    && SliceOf(s, stream, isn) && InWindow(s, base) && s.seg.payload != [] && s.off < base
  }

  lemma OthersAhead(b: Buffer, stream: seq<Byte>, isn: SeqNo, base: nat, s: Sent)
    requires StartsBehind(b, stream, isn, base, s)
    ensures forall i :: 0 <= i < |b.pending| ==>
              && b.pending[i].seqNo != s.seg.seqNo
              && b.pending[i].seqNo != b.next
              && !Behind(b.next, b.pending[i])
  {
    BackIsDistance(isn, base, s.off);
    forall i: nat | i < |b.pending|
      ensures b.pending[i].seqNo != s.seg.seqNo && b.pending[i].seqNo != b.next && !Behind(b.next, b.pending[i])
    {
      EntryPosition(b, stream, isn, base, base, i);
    }
  }

  /** A segment that starts before the expected byte is the first thing taken. */
  lemma BehindIsPicked(b: Buffer, stream: seq<Byte>, isn: SeqNo, base: nat, s: Sent)
    requires StartsBehind(b, stream, isn, base, s)
    ensures Store(b, s.seg).pending == b.pending + [EntryOf(s.seg)]
    ensures Picked(Store(b, s.seg)) == |b.pending|
    ensures Take(Store(b, s.seg)).Item? && Take(Store(b, s.seg)).rest.pending == b.pending
    ensures Back(b.next, s.seg.seqNo) == base - s.off
  {
    OthersAhead(b, stream, isn, base, s);
    BackIsDistance(isn, base, s.off);
    var c := Store(b, s.seg);
    assert forall i :: 0 <= i < |b.pending| ==> c.pending[i] == b.pending[i];
    assert c.pending[|b.pending|] == EntryOf(s.seg);
    assert Behind(c.next, c.pending[|b.pending|]);
    assert Without(c.pending, |b.pending|) == b.pending;
  }

  ghost function Reach(base: nat, s: Sent): nat {
    if s.off + |s.seg.payload| > base then s.off + |s.seg.payload| else base
  }

  lemma TakeBehind(b: Buffer, stream: seq<Byte>, isn: SeqNo, base: nat, s: Sent)
    requires StartsBehind(b, stream, isn, base, s)
    ensures Reach(base, s) <= |stream|
    ensures var t := Take(Store(b, s.seg));
            && t.Item? && t.rest == Buffer(Image(isn, Reach(base, s)), b.pending)
            && t.payload == stream[base..Reach(base, s)]
  {
    BehindIsPicked(b, stream, isn, base, s);
    var e, mid := EntryOf(s.seg), Reach(base, s);
    ImageAdd(isn, base, mid - base);
    if s.off + |e.payload| > base {
      assert e.payload[base - s.off..] == stream[base..mid];
    }
  }

  lemma AlignedHigher(b: Buffer, stream: seq<Byte>, isn: SeqNo, base: nat, mid: nat)
    requires Settled(b, stream, isn, base)
    requires base <= mid < base + HALF && mid <= |stream|
    ensures Aligned(Buffer(Image(isn, mid), b.pending), stream, isn, base, mid)
  {
  }

  lemma FeedBehind(b: Buffer, stream: seq<Byte>, isn: SeqNo, base: nat, s: Sent)
    returns (base': nat)
    requires StartsBehind(b, stream, isn, base, s)
    ensures base <= base' <= |stream|
    ensures Bytes(Drain(Store(b, s.seg)).chunks) == stream[base..base']
    ensures Settled(Drain(Store(b, s.seg)).rest, stream, isn, base')
    ensures SameKnown(Buffer(Image(isn, Reach(base, s)), b.pending), base, Reach(base, s),
                      Drain(Store(b, s.seg)).rest, base', base', isn)
  {
    hide Drain, Take, Store, Known, Settled, Aligned, SameKnown, Bytes;
    TakeBehind(b, stream, isn, base, s);
    DrainAfterTake(Store(b, s.seg));
    var mid := Reach(base, s);
    AlignedHigher(b, stream, isn, base, mid);
    base' := DrainDelivers(Buffer(Image(isn, mid), b.pending), stream, isn, base, mid);
    assert stream[base..mid] + stream[mid..base'] == stream[base..base'];
  }

  lemma BehindKnown(b: Buffer, stream: seq<Byte>, isn: SeqNo, base: nat, s: Sent, x: int)
    requires StartsBehind(b, stream, isn, base, s) && x >= base
    ensures Known(Buffer(Image(isn, Reach(base, s)), b.pending), isn, base, Reach(base, s), x) <==>
            Carries(s, x) || HeldElsewhere(b, isn, base, s.seg.seqNo, x)
  {
    OthersAhead(b, stream, isn, base, s);
    if i :| 0 <= i < |b.pending| && Covers(b.pending[i], isn, base, x) {
      assert b.pending[i].seqNo != s.seg.seqNo;
    }
  }

  /** One segment, wherever it lies in the window: the next bytes of the stream are handed on, the
      flow is settled again, and the bytes known afterwards are the segment's and those of every
      entry it did not replace. */
  lemma FeedDelivers(b: Buffer, stream: seq<Byte>, isn: SeqNo, base: nat, s: Sent)
    returns (base': nat)
    requires Settled(b, stream, isn, base) && Distinct(b.pending)
    requires SliceOf(s, stream, isn) && InWindow(s, base) && s.seg.payload != []
    ensures base <= base' <= |stream|
    ensures Bytes(Drain(Store(b, s.seg)).chunks) == stream[base..base']
    ensures Settled(Drain(Store(b, s.seg)).rest, stream, isn, base')
    ensures forall x :: x >= base ==>
              (Known(Drain(Store(b, s.seg)).rest, isn, base', base', x) <==>
               Carries(s, x) || HeldElsewhere(b, isn, base, s.seg.seqNo, x))
  {
    if base <= s.off {
      StoreAhead(b, stream, isn, base, s);
      base' := DrainDelivers(Store(b, s.seg), stream, isn, base, base);
    } else {
      base' := FeedBehind(b, stream, isn, base, s);
      forall x | x >= base
        ensures Known(Drain(Store(b, s.seg)).rest, isn, base', base', x) <==>
                Carries(s, x) || HeldElsewhere(b, isn, base, s.seg.seqNo, x)
      {
        BehindKnown(b, stream, isn, base, s, x);
      }
    }
  }

  // ---- whole runs ----------------------------------------------------------------------------

  lemma BytesCons(c: Chunk, rest: seq<Chunk>)
    ensures Bytes([]) == [] && Bytes([c] + rest) == c.payload + Bytes(rest)
  {
    assert ([c] + rest)[1..] == rest;
  }

  lemma {:induction false} BytesAppend(a: seq<Chunk>, b: seq<Chunk>)
    ensures Bytes(a + b) == Bytes(a) + Bytes(b)
  {
    if a == [] {
      assert a + b == b;
    } else {
      hide Bytes;
      var c, rest := a[0], a[1..];
      assert a == [c] + rest && a + b == [c] + (rest + b);
      BytesCons(c, rest);
      BytesCons(c, rest + b);
      BytesAppend(rest, b);
    }
  }

  lemma {:induction false} DrainKeepsDistinct(b: Buffer)
    requires Distinct(b.pending)
    ensures Distinct(Drain(b).rest.pending)
    decreases |b.pending|
  {
    if Take(b).Item? {
      DrainKeepsDistinct(Take(b).rest);
    }
  }

  ghost function Segments(sents: seq<Sent>): (segs: seq<Segment>)
    ensures |segs| == |sents|
  {
    if sents == [] then [] else Segments(sents[..|sents| - 1]) + [sents[|sents| - 1].seg]
  }

  /** The flow after its SYN: stream byte 0 is numbered one more than the SYN itself. */
  ghost function AfterSyn(syn: SeqNo): FlowState { Accept(FRESH, Segment(0.0, syn, true, [])) }

  /** A flow that has delivered nothing yet and expects stream byte `start`. */
  ghost predicate Opened(f: FlowState, isn: SeqNo, start: nat) {
    f.next == Some(Image(isn, start)) && f.pending == [] && f.chunks == []
  }

  ghost function Frontier(f: FlowState, start: nat): nat { start + |Bytes(f.chunks)| }

  /** Every segment is a slice of the stream and arrives within the window. Order, overlap and
      repetition are free. */
  ghost predicate Orderly(f: FlowState, sents: seq<Sent>, stream: seq<Byte>, isn: SeqNo, start: nat) {
    sents == [] ||
    var init, last := sents[..|sents| - 1], sents[|sents| - 1];
    && Orderly(f, init, stream, isn, start)
    && SliceOf(last, stream, isn)
    && InWindow(last, Frontier(RunFrom(f, Segments(init)), start))
  }

  ghost predicate InStep(f: FlowState, stream: seq<Byte>, isn: SeqNo, start: nat) {
    var base := Frontier(f, start);
    && f.next.Some? && base <= |stream|
    && Bytes(f.chunks) == stream[start..base]
    && Distinct(f.pending)
    && Settled(Buffer(f.next.value, f.pending), stream, isn, base)
  }

  lemma AcceptKeepsInStep(f: FlowState, s: Sent, stream: seq<Byte>, isn: SeqNo, start: nat)
    requires InStep(f, stream, isn, start)
    requires SliceOf(s, stream, isn) && InWindow(s, Frontier(f, start))
    ensures InStep(Accept(f, s.seg), stream, isn, start)
    ensures Frontier(f, start) <= Frontier(Accept(f, s.seg), start)
    ensures s.seg.payload != [] ==> Learns(f, s, isn, start)
  {
    if s.seg.payload != [] {
      AcceptDataKeepsInStep(f, s, stream, isn, start);
    }
  }

  lemma AcceptDataKeepsInStep(f: FlowState, s: Sent, stream: seq<Byte>, isn: SeqNo, start: nat)
    requires InStep(f, stream, isn, start)
    requires SliceOf(s, stream, isn) && InWindow(s, Frontier(f, start)) && s.seg.payload != []
    ensures InStep(Accept(f, s.seg), stream, isn, start)
    ensures Frontier(f, start) <= Frontier(Accept(f, s.seg), start)
    ensures Learns(f, s, isn, start)
  {
    hide Drain, Bytes, Known, Settled, HeldElsewhere, Store, Accept, Distinct, Carries;
    var b := Buffer(f.next.value, f.pending);
    var base := Frontier(f, start);
    StoreKeepsDistinct(b, s.seg);
    DrainKeepsDistinct(Store(b, s.seg));
    var base' := FeedDelivers(b, stream, isn, base, s);
    AcceptDrains(f, s.seg);
    AppendDelivered(f, Drain(Store(b, s.seg)).chunks, stream, start, base');
  }

  lemma StoreKeepsDistinct(b: Buffer, s: Segment)
    requires Distinct(b.pending)
    ensures Distinct(Store(b, s).pending)
  {
    PutKeepsDistinct(b.pending, EntryOf(s));
  }

  lemma AcceptDrains(f: FlowState, s: Segment)
    requires f.next.Some? && !s.syn && s.payload != []
    ensures var d := Drain(Store(Buffer(f.next.value, f.pending), s));
            && Accept(f, s).next == Some(d.rest.next) && Accept(f, s).pending == d.rest.pending
            && Accept(f, s).chunks == f.chunks + d.chunks
  {
  }

  lemma AppendDelivered(f: FlowState, chunks: seq<Chunk>, stream: seq<Byte>, start: nat, base': nat)
    requires Frontier(f, start) <= base' <= |stream|
    requires Bytes(f.chunks) == stream[start..Frontier(f, start)]
    requires Bytes(chunks) == stream[Frontier(f, start)..base']
    ensures Bytes(f.chunks + chunks) == stream[start..base']
  {
    BytesAppend(f.chunks, chunks);
  }

  /** The bytes known beyond the old frontier are the segment's and those it did not replace. */
  ghost predicate Learns(f: FlowState, s: Sent, isn: SeqNo, start: nat) {
    var base := Frontier(f, start);
    f.next.Some? && Accept(f, s.seg).next.Some? &&
    forall x :: x >= base ==>
      (KnownTo(Accept(f, s.seg), isn, start, x) <==>
       Carries(s, x) || HeldElsewhere(Buffer(f.next.value, f.pending), isn, base, s.seg.seqNo, x))
  }

  ghost predicate KnownTo(f: FlowState, isn: SeqNo, start: nat, x: int)
    requires f.next.Some?
  {
    Known(Buffer(f.next.value, f.pending), isn, Frontier(f, start), Frontier(f, start), x)
  }

  /** Reassembly is exact: whatever the arrival order, overlap and repetition, the payloads handed
      on concatenate to the stream from its start to the frontier, and the next sequence number is
      that frontier modulo 2^32. */
  lemma {:induction false} ReassemblyIsExact(f: FlowState, sents: seq<Sent>, stream: seq<Byte>, isn: SeqNo, start: nat)
    requires Opened(f, isn, start) && start <= |stream|
    requires Orderly(f, sents, stream, isn, start)
    ensures var g := RunFrom(f, Segments(sents));
            && InStep(g, stream, isn, start)
            && Bytes(g.chunks) == stream[start..Frontier(g, start)]
            && g.next == Some(Image(isn, Frontier(g, start)))
  {
    if sents != [] {
      var init, last := sents[..|sents| - 1], sents[|sents| - 1];
      ReassemblyIsExact(f, init, stream, isn, start);
      AcceptKeepsInStep(RunFrom(f, Segments(init)), last, stream, isn, start);
      assert Segments(sents)[..|sents| - 1] == Segments(init);
    }
  }

  // ---- what a resend can lose ----------------------------------------------------------------

  /** The segment replaces a longer pending entry whose extra bytes nothing else holds. */
  ghost predicate Loses(b: Buffer, isn: SeqNo, base: nat, s: Sent) {
    exists i, x ::
      && 0 <= i < |b.pending| && b.pending[i].seqNo == s.seg.seqNo
      && s.off + |s.seg.payload| <= x < s.off + |b.pending[i].payload|
      && !HeldElsewhere(b, isn, base, s.seg.seqNo, x)
  }

  lemma ReplacedOffset(b: Buffer, stream: seq<Byte>, isn: SeqNo, base: nat, s: Sent, i: nat)
    requires Settled(b, stream, isn, base) && i < |b.pending| && b.pending[i].seqNo == s.seg.seqNo
    requires SliceOf(s, stream, isn) && InWindow(s, base) && s.seg.payload != []
    ensures At(isn, base, b.pending[i].seqNo) == s.off
  {
    if s.off < base {
      OthersAhead(b, stream, isn, base, s);
    } else {
      AtUnique(isn, base, s.seg.seqNo, s.off);
    }
  }

  /** Exactly when one segment makes the flow forget a byte it had: it resends the start of a
      longer pending segment whose tail no other pending segment covers. */
  lemma ForgetsIffLoses(f: FlowState, s: Sent, stream: seq<Byte>, isn: SeqNo, start: nat)
    requires InStep(f, stream, isn, start)
    requires SliceOf(s, stream, isn) && InWindow(s, Frontier(f, start)) && s.seg.payload != []
    ensures Accept(f, s.seg).next.Some?
    ensures (exists x :: KnownTo(f, isn, start, x) && !KnownTo(Accept(f, s.seg), isn, start, x))
            <==> Loses(Buffer(f.next.value, f.pending), isn, Frontier(f, start), s)
  {
    var b, base := Buffer(f.next.value, f.pending), Frontier(f, start);
    var g := Accept(f, s.seg);
    AcceptKeepsInStep(f, s, stream, isn, start);
    if Loses(b, isn, base, s) {
      var i, x :|
        && 0 <= i < |b.pending| && b.pending[i].seqNo == s.seg.seqNo
        && s.off + |s.seg.payload| <= x < s.off + |b.pending[i].payload|
        && !HeldElsewhere(b, isn, base, s.seg.seqNo, x);
      ReplacedOffset(b, stream, isn, base, s, i);
      assert Covers(b.pending[i], isn, base, x);
      assert KnownTo(f, isn, start, x) && !KnownTo(g, isn, start, x);
    }
    if x :| KnownTo(f, isn, start, x) && !KnownTo(g, isn, start, x) {
      assert x >= base;
      var i :| 0 <= i < |b.pending| && Covers(b.pending[i], isn, base, x);
      if b.pending[i].seqNo == s.seg.seqNo {
        ReplacedOffset(b, stream, isn, base, s, i);
      }
    }
  }

  /** A resend that is not shorter than what it replaces loses nothing. */
  lemma LongerResendIsSafe(b: Buffer, isn: SeqNo, base: nat, s: Sent)
    requires Distinct(b.pending)
    requires var i := IndexOf(b.pending, s.seg.seqNo);
             i < |b.pending| ==> |s.seg.payload| >= |b.pending[i].payload|
    ensures !Loses(b, isn, base, s)
  {
    forall i | 0 <= i < |b.pending| && b.pending[i].seqNo == s.seg.seqNo
      ensures i == IndexOf(b.pending, s.seg.seqNo)
    {
    }
  }

  ghost predicate NothingLost(f: FlowState, sents: seq<Sent>, isn: SeqNo, start: nat) {
    sents == [] ||
    var init, last := sents[..|sents| - 1], sents[|sents| - 1];
    var g := RunFrom(f, Segments(init));
    && NothingLost(f, init, isn, start)
    && (last.seg.payload != [] && g.next.Some? ==>
          !Loses(Buffer(g.next.value, g.pending), isn, Frontier(g, start), last))
  }

  /** Some segment of the run carried byte `x`. */
  ghost predicate Fed(sents: seq<Sent>, x: int) { exists k :: 0 <= k < |sents| && Carries(sents[k], x) }

  lemma FedStep(sents: seq<Sent>, x: int)
    requires sents != []
    ensures Fed(sents, x) <==> Fed(sents[..|sents| - 1], x) || Carries(sents[|sents| - 1], x)
  {
    var init := sents[..|sents| - 1];
    if k :| 0 <= k < |sents| && Carries(sents[k], x) {
      if k < |init| {
        assert Carries(init[k], x);
      }
    }
    if k :| 0 <= k < |init| && Carries(init[k], x) {
      assert Carries(sents[k], x);
    }
  }

  /** A flow knows only bytes it was fed, and if nothing was lost it knows all of them. */
  lemma {:induction false} KnowsWhatItWasFed(f: FlowState, sents: seq<Sent>, stream: seq<Byte>, isn: SeqNo, start: nat)
    requires Opened(f, isn, start) && start <= |stream|
    requires Orderly(f, sents, stream, isn, start)
    ensures var g := RunFrom(f, Segments(sents));
            && g.next.Some?
            && (forall x :: start <= x && KnownTo(g, isn, start, x) ==> Fed(sents, x))
            && (NothingLost(f, sents, isn, start) ==>
                  forall x :: start <= x && Fed(sents, x) ==> KnownTo(g, isn, start, x))
  {
    ReassemblyIsExact(f, sents, stream, isn, start);
    if sents != [] {
      var init, last := sents[..|sents| - 1], sents[|sents| - 1];
      var g := RunFrom(f, Segments(init));
      ReassemblyIsExact(f, init, stream, isn, start);
      KnowsWhatItWasFed(f, init, stream, isn, start);
      AcceptKeepsInStep(g, last, stream, isn, start);
      assert Segments(sents)[..|sents| - 1] == Segments(init);
      if last.seg.payload != [] {
        ForgetsIffLoses(g, last, stream, isn, start);
      }
      forall x | start <= x
        ensures KnownTo(Accept(g, last.seg), isn, start, x) ==> Fed(sents, x)
        ensures NothingLost(f, sents, isn, start) && Fed(sents, x) ==> KnownTo(Accept(g, last.seg), isn, start, x)
      {
        FedStep(sents, x);
      }
    }
  }

  // ---- the frontier is the longest contiguous prefix -----------------------------------------

  ghost predicate LongestPrefix(sents: seq<Sent>, start: nat, end: nat) {
    && start <= end
    && (forall x :: start <= x < end ==> Fed(sents, x))
    && !Fed(sents, end)
  }

  /** The drain loop is maximal: if no resend lost bytes, delivery reaches the end of the longest
      contiguous prefix of everything that was fed. */
  lemma ReassemblyIsMaximal(f: FlowState, sents: seq<Sent>, stream: seq<Byte>, isn: SeqNo, start: nat)
    requires Opened(f, isn, start) && start <= |stream|
    requires Orderly(f, sents, stream, isn, start)
    requires NothingLost(f, sents, isn, start)
    ensures LongestPrefix(sents, start, Frontier(RunFrom(f, Segments(sents)), start))
  {
    ReassemblyIsExact(f, sents, stream, isn, start);
    KnowsWhatItWasFed(f, sents, stream, isn, start);
    var g := RunFrom(f, Segments(sents));
    assert !KnownTo(g, isn, start, Frontier(g, start));
  }

  /** The segment replaces a longer pending entry that alone held byte `x` of its tail. */
  ghost predicate LosesByte(b: Buffer, isn: SeqNo, base: nat, s: Sent, x: int) {
    && s.off + |s.seg.payload| <= x && !HeldElsewhere(b, isn, base, s.seg.seqNo, x)
    && exists i :: 0 <= i < |b.pending| && b.pending[i].seqNo == s.seg.seqNo && x < s.off + |b.pending[i].payload|
  }

  /** Exactly which bytes a flow knows after one more segment. */
  lemma ByteStep(f: FlowState, s: Sent, stream: seq<Byte>, isn: SeqNo, start: nat, x: int)
    requires InStep(f, stream, isn, start) && start <= x
    requires SliceOf(s, stream, isn) && InWindow(s, Frontier(f, start)) && s.seg.payload != []
    ensures Accept(f, s.seg).next.Some?
    ensures var lost := LosesByte(Buffer(f.next.value, f.pending), isn, Frontier(f, start), s, x);
      && (KnownTo(Accept(f, s.seg), isn, start, x) <==> Carries(s, x) || (KnownTo(f, isn, start, x) && !lost))
      && (lost ==> KnownTo(f, isn, start, x))
  {
    hide Accept, Bytes, Frontier;
    var b, base := Buffer(f.next.value, f.pending), Frontier(f, start);
    AcceptKeepsInStep(f, s, stream, isn, start);
    forall i | 0 <= i < |b.pending| && b.pending[i].seqNo == s.seg.seqNo
      ensures At(isn, base, b.pending[i].seqNo) == s.off
    {
      ReplacedOffset(b, stream, isn, base, s, i);
    }
    if x >= base {
      if i :| 0 <= i < |b.pending| && b.pending[i].seqNo == s.seg.seqNo && x < s.off + |b.pending[i].payload| && s.off <= x {
        assert Covers(b.pending[i], isn, base, x);
      }
    }
  }

  /** Byte `x` was lost to a shorter resend and not fed again since. */
  ghost predicate Missing(f: FlowState, sents: seq<Sent>, isn: SeqNo, start: nat, x: int) {
    sents != [] &&
    var init, last := sents[..|sents| - 1], sents[|sents| - 1];
    var g := RunFrom(f, Segments(init));
    && !Carries(last, x)
    && (Missing(f, init, isn, start, x) ||
        (last.seg.payload != [] && g.next.Some? &&
         LosesByte(Buffer(g.next.value, g.pending), isn, Frontier(g, start), last, x)))
  }

  /** A flow knows exactly the bytes it was fed and did not lose since their last feeding. */
  lemma {:induction false} KnownIff(f: FlowState, sents: seq<Sent>, stream: seq<Byte>, isn: SeqNo, start: nat, x: int)
    requires Opened(f, isn, start) && start <= x && start <= |stream|
    requires Orderly(f, sents, stream, isn, start)
    ensures var g := RunFrom(f, Segments(sents));
      g.next.Some? && (KnownTo(g, isn, start, x) <==> Fed(sents, x) && !Missing(f, sents, isn, start, x))
    ensures Missing(f, sents, isn, start, x) ==> Fed(sents, x)
  {
    if sents != [] {
      hide Accept, Bytes, Frontier, Settled, LosesByte, Known;
      var init, last := sents[..|sents| - 1], sents[|sents| - 1];
      var g := RunFrom(f, Segments(init));
      ReassemblyIsExact(f, init, stream, isn, start);
      KnownIff(f, init, stream, isn, start, x);
      assert Segments(sents)[..|sents| - 1] == Segments(init);
      FedStep(sents, x);
      if last.seg.payload != [] {
        ByteStep(g, last, stream, isn, start, x);
      } else {
        AcceptsNothing(g, last.seg);
      }
    }
  }

  lemma AcceptsNothing(f: FlowState, s: Segment)
    requires !s.syn && s.payload == []
    ensures Accept(f, s) == f
  {}

  /** Delivery reaches the end of the longest contiguous prefix of everything that was fed exactly
      when the byte at the frontier is not missing: whatever was lost further on, or fed again in
      time, does not matter. */
  lemma MaximalIff(f: FlowState, sents: seq<Sent>, stream: seq<Byte>, isn: SeqNo, start: nat)
    requires Opened(f, isn, start) && start <= |stream|
    requires Orderly(f, sents, stream, isn, start)
    ensures var end := Frontier(RunFrom(f, Segments(sents)), start);
      LongestPrefix(sents, start, end) <==> !Missing(f, sents, isn, start, end)
  {
    hide Missing;
    var g := RunFrom(f, Segments(sents));
    ReassemblyIsExact(f, sents, stream, isn, start);
    KnowsWhatItWasFed(f, sents, stream, isn, start);
    KnownIff(f, sents, stream, isn, start, Frontier(g, start));
    assert !KnownTo(g, isn, start, Frontier(g, start));
  }

  /** Two arrival orders of the same segments deliver the same bytes. */
  lemma ArrivalOrderDoesNotMatter(f: FlowState, a: seq<Sent>, b: seq<Sent>, stream: seq<Byte>, isn: SeqNo, start: nat)
    requires Opened(f, isn, start) && start <= |stream|
    requires Orderly(f, a, stream, isn, start) && NothingLost(f, a, isn, start)
    requires Orderly(f, b, stream, isn, start) && NothingLost(f, b, isn, start)
    requires forall s :: s in a <==> s in b
    ensures Bytes(RunFrom(f, Segments(a)).chunks) == Bytes(RunFrom(f, Segments(b)).chunks)
    ensures RunFrom(f, Segments(a)).next == RunFrom(f, Segments(b)).next
  {
    hide Orderly, NothingLost, InStep, RunFrom, Bytes, LongestPrefix;
    ReassemblyIsMaximal(f, a, stream, isn, start);
    ReassemblyIsMaximal(f, b, stream, isn, start);
    ReassemblyIsExact(f, a, stream, isn, start);
    ReassemblyIsExact(f, b, stream, isn, start);
    OnePrefix(a, b, start, Frontier(RunFrom(f, Segments(a)), start), Frontier(RunFrom(f, Segments(b)), start));
  }

  lemma OnePrefix(a: seq<Sent>, b: seq<Sent>, start: nat, ea: nat, eb: nat)
    requires forall s :: s in a <==> s in b
    requires LongestPrefix(a, start, ea) && LongestPrefix(b, start, eb)
    ensures ea == eb
  {
    forall x ensures Fed(a, x) <==> Fed(b, x) {
      if k :| 0 <= k < |a| && Carries(a[k], x) {
        assert a[k] in b;
      }
      if k :| 0 <= k < |b| && Carries(b[k], x) {
        assert b[k] in a;
      }
    }
  }

  // ---- how a flow opens ----------------------------------------------------------------------

  lemma SynOpens(syn: SeqNo)
    ensures Opened(AfterSyn(syn), (syn + 1) % MODULUS, 0)
  {
  }

  /** A capture that starts mid-connection behaves as if the first data segment's own number had
      been expected, so the theorems above apply from that segment's offset on. */
  lemma {:induction false} MidConnectionOpens(segs: seq<Segment>, isn: SeqNo, start: nat)
    requires segs != [] && !segs[0].syn && segs[0].payload != [] && segs[0].seqNo == Image(isn, start)
    ensures Opened(FRESH.(next := Some(segs[0].seqNo)), isn, start)
    ensures RunFrom(FRESH, segs) == RunFrom(FRESH.(next := Some(segs[0].seqNo)), segs)
  {
    if |segs| > 1 {
      MidConnectionOpens(segs[..|segs| - 1], isn, start);
    } else {
      assert segs[..|segs| - 1] == [];
    }
  }

  /** A repeated opening SYN leaves the flow in step exactly when nothing was delivered since the
      first one (modulo 2^32); otherwise it winds the expected number back. */
  lemma RepeatedSyn(f: FlowState, syn: Segment, stream: seq<Byte>, isn: SeqNo)
    requires InStep(f, stream, isn, 0)
    requires syn.syn && Image(syn.seqNo, 1) == isn
    ensures InStep(Accept(f, syn), stream, isn, 0) <==> Frontier(f, 0) % MODULUS == 0
  {
    var base := Frontier(f, 0);
    assert Image(isn, base) == isn <==> base % MODULUS == 0;
    assert (syn.seqNo + 1) % MODULUS == isn;
    assert Accept(f, syn) == f.(next := Some(isn));
    if base % MODULUS == 0 {
      assert Accept(f, syn) == f;
    }
  }

  lemma DrainSingle(e: Entry)
    requires e.payload != []
    ensures Drain(Buffer(e.seqNo, [e])) ==
            Drained(Buffer((e.seqNo + |e.payload|) % MODULUS, []), [Chunk(e.ts, e.payload)], 0)
  {
    var b := Buffer(e.seqNo, [e]);
    assert IndexOf([e], e.seqNo) == 0;
    assert Without([e], 0) == [];
    var rest := Buffer((e.seqNo + |e.payload|) % MODULUS, []);
    assert Take(b) == Item(e.ts, e.payload, 0, rest);
    assert Take(rest) == Nothing;
    DrainUnfolds(b);
    DrainUnfolds(rest);
  }

  lemma BytesOfOne(c: Chunk)
    ensures Bytes([c]) == c.payload
  {
    assert [c][1..] == [];
  }

  lemma AcceptInOrder(f: FlowState, s: Segment)
    requires f.next == Some(s.seqNo) && f.pending == [] && !s.syn && s.payload != []
    ensures var g := Accept(f, s);
            && g.next == Some((s.seqNo + |s.payload|) % MODULUS) && g.pending == []
            && Bytes(g.chunks) == Bytes(f.chunks) + s.payload
  {
    assert Put([], EntryOf(s)) == [EntryOf(s)];
    DrainSingle(EntryOf(s));
    BytesOfOne(Chunk(s.ts, s.payload));
    BytesAppend(f.chunks, [Chunk(s.ts, s.payload)]);
  }

  lemma RunSnoc(f: FlowState, segs: seq<Segment>, s: Segment)
    ensures RunFrom(f, segs + [s]) == Accept(RunFrom(f, segs), s)
  {
    assert (segs + [s])[..|segs|] == segs;
  }

  lemma RunOne(f: FlowState, s: Segment)
    ensures RunFrom(f, [s]) == Accept(f, s)
  {
    RunSnoc(f, [], s);
    assert [] + [s] == [s];
  }

  /** Why one SYN is assumed: a SYN and its first segment sent again are delivered twice. */
  lemma RepeatedSynReplays(syn: Segment, data: Segment)
    requires syn.syn && !data.syn && data.payload != [] && data.seqNo == Image(syn.seqNo, 1)
    ensures Bytes(RunFrom(FRESH, [syn] + [data] + [syn] + [data]).chunks) == data.payload + data.payload
  {
    hide Drain, Bytes;
    var f1 := Accept(FRESH, syn);
    RunOne(FRESH, syn);
    AcceptInOrder(f1, data);
    RunSnoc(FRESH, [syn], data);
    var f3 := Accept(Accept(f1, data), syn);
    RunSnoc(FRESH, [syn] + [data], syn);
    AcceptInOrder(f3, data);
    RunSnoc(FRESH, [syn] + [data] + [syn], data);
    BytesOfNone();
  }

  lemma BytesOfNone()
    ensures Bytes([]) == []
  {
  }

  lemma AcceptBeyondGap(f: FlowState, s: Segment)
    requires f.next == Some(0) && !s.syn && s.payload != [] && 0 < s.seqNo < HALF
    requires forall i :: 0 <= i < |f.pending| ==> 0 < f.pending[i].seqNo < HALF
    ensures Accept(f, s) == f.(pending := Put(f.pending, EntryOf(s)))
  {
    var b := Buffer(0, Put(f.pending, EntryOf(s)));
    forall i | 0 <= i < |b.pending| ensures b.pending[i].seqNo != 0 && !Behind(0, b.pending[i]) {
      assert b.pending[i] == EntryOf(s) || b.pending[i] in f.pending;
    }
    assert Take(b) == Nothing;
    assert f.chunks + [] == f.chunks;
  }

  lemma AcceptFillsGap(f: FlowState, e: Entry, s: Segment)
    requires f.next == Some(s.seqNo) && f.pending == [e] && !s.syn && s.payload != [] && e.payload != []
    requires e.seqNo == (s.seqNo + |s.payload|) % MODULUS && e.seqNo != s.seqNo
    ensures var g := Accept(f, s);
            && g.next == Some((e.seqNo + |e.payload|) % MODULUS) && g.pending == []
            && Bytes(g.chunks) == Bytes(f.chunks) + (s.payload + e.payload)
  {
    var b := Buffer(s.seqNo, [e, EntryOf(s)]);
    assert Put([e], EntryOf(s)) == b.pending;
    assert IndexOf(b.pending, s.seqNo) == 1;
    assert Without(b.pending, 1) == [e];
    assert Take(b) == Item(s.ts, s.payload, 0, Buffer(e.seqNo, [e]));
    DrainAfterTake(b);
    DrainSingle(e);
    BytesOfOne(Chunk(e.ts, e.payload));
    BytesAppend(f.chunks, Drain(b).chunks);
  }

  /** The loss is real: bytes 1 to 3 arrive, byte 1 is sent again alone, then the gap closes. The
      flow stops at byte 2 although it was fed bytes 2 and 3. */
  lemma ShorterResendStalls(long: Segment, short: Segment, gap: Segment)
    requires !long.syn && !short.syn && !gap.syn
    requires long.seqNo == short.seqNo == 1 && gap.seqNo == 0
    requires |long.payload| == 3 && short.payload == long.payload[..1] && |gap.payload| == 1
    ensures var g := RunFrom(AfterSyn(MODULUS - 1), [long] + [short] + [gap]);
            g.next == Some(2) && g.pending == [] && Bytes(g.chunks) == gap.payload + short.payload
  {
    hide Drain, Bytes, Take;
    var f0 := AfterSyn(MODULUS - 1);
    AcceptBeyondGap(f0, long);
    RunOne(f0, long);
    var f1 := Accept(f0, long);
    AcceptBeyondGap(f1, short);
    RunSnoc(f0, [long], short);
    var f2 := Accept(f1, short);
    assert f2.pending == [EntryOf(short)];
    AcceptFillsGap(f2, EntryOf(short), gap);
    RunSnoc(f0, [long] + [short], gap);
    BytesOfNone();
  }

  // ---- every fed byte is accounted for -------------------------------------------------------

  function Weight(pending: seq<Entry>): nat {
    if pending == [] then 0 else |pending[0].payload| + Weight(pending[1..])
  }

  lemma {:induction false} WeightSplit(a: seq<Entry>, b: seq<Entry>)
    ensures Weight(a + b) == Weight(a) + Weight(b)
  {
    if a == [] {
      assert a + b == b;
    } else {
      WeightSplit(a[1..], b);
      assert (a + b)[1..] == a[1..] + b;
    }
  }

  lemma WeightAt(pending: seq<Entry>, i: nat)
    requires i < |pending|
    ensures Weight(pending) == Weight(pending[..i]) + |pending[i].payload| + Weight(pending[i + 1..])
  {
    assert pending == pending[..i] + pending[i..];
    WeightSplit(pending[..i], pending[i..]);
    assert pending[i..][1..] == pending[i + 1..];
  }

  lemma TakeConserves(b: Buffer)
    requires Take(b).Item?
    ensures var t := Take(b); Weight(b.pending) == |t.payload| + t.dropped + Weight(t.rest.pending)
  {
    hide Weight;
    var i := Picked(b);
    WeightAt(b.pending, i);
    WeightSplit(b.pending[..i], b.pending[i + 1..]);
  }

  lemma {:induction false} DrainConserves(b: Buffer)
    ensures Weight(b.pending) ==
            |Bytes(Drain(b).chunks)| + Drain(b).dropped + Weight(Drain(b).rest.pending)
    decreases |b.pending|
  {
    hide Take, Drain, Weight, Bytes;
    DrainUnfolds(b);
    BytesOfNone();
    match Take(b)
    case Nothing =>
    case Item(ts, payload, dropped, rest) =>
      TakeConserves(b);
      DrainConserves(rest);
      BytesOfChunk(ts, payload, Drain(rest).chunks);
  }

  /** Bytes of the pending entry a segment replaces. */
  function Replaced(f: FlowState, s: Segment): nat {
    var i := IndexOf(f.pending, s.seqNo);
    if !s.syn && s.payload != [] && i < |f.pending| then |f.pending[i].payload| else 0
  }

  function Overwritten(f: FlowState, segs: seq<Segment>): nat {
    if segs == [] then 0
    else
      var init := segs[..|segs| - 1];
      Overwritten(f, init) + Replaced(RunFrom(f, init), segs[|segs| - 1])
  }

  function FedBytes(segs: seq<Segment>): nat {
    if segs == [] then 0
    else
      var last := segs[|segs| - 1];
      FedBytes(segs[..|segs| - 1]) + if last.syn then 0 else |last.payload|
  }

  lemma AcceptConserves(f: FlowState, s: Segment)
    ensures var g := Accept(f, s);
            |Bytes(g.chunks)| + g.retransmitted + Weight(g.pending) + Replaced(f, s) ==
            |Bytes(f.chunks)| + f.retransmitted + Weight(f.pending) + if s.syn then 0 else |s.payload|
  {
    if !s.syn && s.payload != [] {
      var e := EntryOf(s);
      var put := Put(f.pending, e);
      var i := IndexOf(f.pending, s.seqNo);
      if i < |f.pending| {
        WeightAt(f.pending, i);
        WeightAt(put, i);
        assert put[..i] == f.pending[..i] && put[i + 1..] == f.pending[i + 1..];
      } else {
        WeightSplit(f.pending, [e]);
      }
      var d := Drain(Buffer(if f.next.None? then s.seqNo else f.next.value, put));
      DrainConserves(Buffer(if f.next.None? then s.seqNo else f.next.value, put));
      BytesAppend(f.chunks, d.chunks);
    }
  }

  /** For any segments at all: bytes delivered, retransmitted, still pending and overwritten add up
      to the bytes fed. */
  lemma {:induction false} BytesAreConserved(segs: seq<Segment>)
    ensures var g := RunFrom(FRESH, segs);
            |Bytes(g.chunks)| + g.retransmitted + Weight(g.pending) + Overwritten(FRESH, segs) == FedBytes(segs)
  {
    if segs != [] {
      BytesAreConserved(segs[..|segs| - 1]);
      AcceptConserves(RunFrom(FRESH, segs[..|segs| - 1]), segs[|segs| - 1]);
    }
  }
}
