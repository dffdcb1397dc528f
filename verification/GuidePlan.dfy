/** How a guide pulse is split into chunks. */
module GuidePlan {
  const MIN_PULSE := 20
  const MAX_PULSE := 5000

  /** The next chunk leaves nothing, or at least the shortest pulse. */
  function NextChunk(remaining: int, chunkMs: int): int {
    if remaining - chunkMs < MIN_PULSE then remaining - MIN_PULSE else chunkMs
  }

  function Plan(duration: int, chunkMs: int): seq<int>
    requires MIN_PULSE <= chunkMs
    decreases duration
  {
    if duration <= chunkMs then [duration]
    else [NextChunk(duration, chunkMs)] + Plan(duration - NextChunk(duration, chunkMs), chunkMs)
  }

  method PlanChunks(duration: int, chunkMs: int) returns (chunks: seq<int>)
    requires MIN_PULSE <= chunkMs
    ensures chunks == Plan(duration, chunkMs)
  {
    chunks := [];
    var remaining := duration;
    while remaining > chunkMs
      invariant Plan(duration, chunkMs) == chunks + Plan(remaining, chunkMs)
    {
      var chunk := chunkMs;
      if remaining - chunk < MIN_PULSE {
        chunk := remaining - MIN_PULSE;
      }
      chunks := chunks + [chunk];
      remaining := remaining - chunk;
    }
    chunks := chunks + [remaining];
  }

  function Sum(s: seq<int>): int {
    if s == [] then 0 else s[0] + Sum(s[1..])
  }

  lemma {:induction false} SumSplit(a: seq<int>, b: seq<int>)
    ensures Sum(a + b) == Sum(a) + Sum(b)
  {
    if a == [] {
      assert a + b == b;
    } else {
      assert (a + b)[1..] == a[1..] + b;
      SumSplit(a[1..], b);
    }
  }

  lemma SumPush(a: seq<int>, x: int)
    ensures Sum(a + [x]) == Sum(a) + x
  {
    SumSplit(a, [x]);
    assert [x][1..] == [];
  }

  lemma {:induction false} SumPositive(a: seq<int>)
    requires forall i :: 0 <= i < |a| ==> a[i] > 0
    ensures Sum(a) >= 0 && (Sum(a) == 0 <==> a == [])
  {
    if a != [] {
      SumPositive(a[1..]);
    }
  }

  /** The pulse that a chunk size cannot split without going below the shortest pulse. */
  predicate SplitsShort(duration: int, chunkMs: int)
    requires MIN_PULSE <= chunkMs
  {
    duration > chunkMs && 0 < duration % chunkMs < MIN_PULSE && chunkMs + duration % chunkMs < 2 * MIN_PULSE
  }

  /** The chunks add up to the pulse, none exceeds the chunk size, and there are as few as possible. */
  lemma {:induction false} PlanAddsUp(duration: int, chunkMs: int)
    requires MIN_PULSE <= chunkMs && MIN_PULSE <= duration
    ensures Sum(Plan(duration, chunkMs)) == duration
    ensures forall c :: c in Plan(duration, chunkMs) ==> 0 < c <= chunkMs
    ensures (|Plan(duration, chunkMs)| - 1) * chunkMs < duration <= |Plan(duration, chunkMs)| * chunkMs
    decreases duration
  {
    if duration > chunkMs {
      var c := NextChunk(duration, chunkMs);
      var rest := Plan(duration - c, chunkMs);
      PlanAddsUp(duration - c, chunkMs);
      assert Plan(duration, chunkMs) == [c] + rest;
      CountUp(|rest|, chunkMs);
      if c < chunkMs {
        assert rest == [MIN_PULSE];
      }
    } else {
      assert Plan(duration, chunkMs) == [duration];
    }
  }

  lemma CountUp(n: int, chunkMs: int)
    ensures (n + 1) * chunkMs == n * chunkMs + chunkMs && (n - 1) * chunkMs == n * chunkMs - chunkMs
  {}

  lemma MulMono(e: int, d: int)
    requires e >= 1 && d > 0
    ensures e * d >= d
  {}

  lemma Bounded(e: int, d: int, x: int)
    requires d > 0 && e * d == x && -d < x < d
    ensures e == 0
  {
    assert (-e) * d == -(e * d);
    if e >= 1 {
      MulMono(e, d);
    } else if e <= -1 {
      MulMono(-e, d);
    }
  }

  lemma Distribute(a: int, b: int, d: int)
    ensures (a - b) * d == a * d - b * d
  {}

  lemma DivMod(n: int, d: int)
    requires d > 0
    ensures n == (n / d) * d + n % d && 0 <= n % d < d
  {}

  lemma Remainder(n: int, d: int, q: int, m: int)
    requires 0 <= m < d && n == q * d + m
    ensures n % d == m
  {
    DivMod(n, d);
    var a, r := n / d, n % d;
    Distribute(a, q, d);
    Bounded(a - q, d, m - r);
    assert a == q;
  }

  lemma RemainderOfNext(duration: int, chunkMs: int)
    requires MIN_PULSE <= chunkMs < duration
    ensures (duration - chunkMs) % chunkMs == duration % chunkMs
    ensures duration < 2 * chunkMs ==> duration % chunkMs == duration - chunkMs
    ensures duration == 2 * chunkMs ==> duration % chunkMs == 0
  {
    DivMod(duration, chunkMs);
    var q, m := duration / chunkMs, duration % chunkMs;
    Distribute(q, 1, chunkMs);
    Remainder(duration - chunkMs, chunkMs, q - 1, m);
    if duration < 2 * chunkMs {
      Remainder(duration, chunkMs, 1, duration - chunkMs);
    } else if duration == 2 * chunkMs {
      Remainder(duration, chunkMs, 2, 0);
    }
  }

  /** How the condition carries over from a pulse to what its first chunk leaves. */
  lemma SplitsShortStep(duration: int, chunkMs: int)
    requires MIN_PULSE <= chunkMs < duration
    ensures NextChunk(duration, chunkMs) == chunkMs ==>
      (SplitsShort(duration, chunkMs) <==> SplitsShort(duration - chunkMs, chunkMs))
    ensures NextChunk(duration, chunkMs) != chunkMs ==>
      (SplitsShort(duration, chunkMs) <==> NextChunk(duration, chunkMs) < MIN_PULSE)
  {
    RemainderOfNext(duration, chunkMs);
  }

  predicate HasShort(plan: seq<int>) { exists c :: c in plan && c < MIN_PULSE }

  lemma HasShortCons(c: int, plan: seq<int>)
    ensures HasShort([c] + plan) <==> c < MIN_PULSE || HasShort(plan)
  {
    assert c in [c] + plan;
    assert forall x :: x in [c] + plan <==> x == c || x in plan;
  }

  lemma PlanStep(duration: int, chunkMs: int)
    requires MIN_PULSE <= chunkMs
    ensures duration <= chunkMs ==> Plan(duration, chunkMs) == [duration] + []
    ensures duration > chunkMs ==>
      Plan(duration, chunkMs) == [NextChunk(duration, chunkMs)] + Plan(duration - NextChunk(duration, chunkMs), chunkMs)
    ensures Plan(MIN_PULSE, chunkMs) == [MIN_PULSE] + []
  {}

  /** Some chunk falls below the shortest pulse exactly when a short rest meets a small chunk size. */
  lemma {:induction false} ShortChunkIff(duration: int, chunkMs: int)
    requires MIN_PULSE <= chunkMs && MIN_PULSE <= duration
    ensures HasShort(Plan(duration, chunkMs)) <==> SplitsShort(duration, chunkMs)
    decreases duration
  {
    hide Plan, HasShort;
    PlanStep(duration, chunkMs);
    HasShortCons(duration, []);
    HasShortCons(MIN_PULSE, []);
    NoShort();
    if duration > chunkMs {
      var c := NextChunk(duration, chunkMs);
      SplitsShortStep(duration, chunkMs);
      HasShortCons(c, Plan(duration - c, chunkMs));
      if c == chunkMs {
        ShortChunkIff(duration - c, chunkMs);
      }
    }
  }

  lemma NoShort() ensures !HasShort([]) {}

  /** 39 ms is the smallest chunk size that splits every allowed pulse into allowed ones, so the
      default of 500 ms is safe. */
  lemma SafeChunkSizeIff(chunkMs: int)
    requires MIN_PULSE <= chunkMs < MAX_PULSE
    ensures chunkMs >= 39 <==> forall d :: MIN_PULSE <= d <= MAX_PULSE ==> !HasShort(Plan(d, chunkMs))
  {
    hide Plan, HasShort;
    if chunkMs >= 39 {
      forall d | MIN_PULSE <= d <= MAX_PULSE ensures !HasShort(Plan(d, chunkMs)) {
        ShortChunkIff(d, chunkMs);
      }
    } else {
      RemainderOfNext(chunkMs + 1, chunkMs);
      ShortChunkIff(chunkMs + 1, chunkMs);
    }
  }
}
