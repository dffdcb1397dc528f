/** Arithmetic on angles and hours, as exact reals. */
module Angles {

  /** `x` modulo `d`, rounding towards minus infinity. */
  function Mod(x: real, d: real): (r: real)
    requires d > 0.0
  {
    x - d * ((x / d).Floor as real)
  }

  lemma PartOf(d: real, f: real)
    requires d > 0.0
    ensures 0.0 <= f < 1.0 <==> 0.0 <= d * f < d
  {
    assert f < 0.0 ==> d * f < 0.0;
    assert f >= 1.0 ==> d * f >= d;
    assert 0.0 <= f ==> 0.0 <= d * f;
    assert f < 1.0 ==> d * f < d;
  }

  lemma FloorIff(q: real, n: int)
    ensures q.Floor == n <==> 0.0 <= q - n as real < 1.0
  {}

  lemma TimesDifference(d: real, a: real, b: real)
    ensures d * (a - b) == d * a - d * b
    ensures d > 0.0 ==> (d * a == d * b <==> a == b)
  {}

  lemma QuotientIff(q: real, d: real, r: real, turns: int)
    requires d > 0.0 && d * q == r + d * (turns as real)
    ensures 0.0 <= r < d <==> d * q - d * (q.Floor as real) == r
  {
    var n, f := turns as real, q.Floor as real;
    var part := q - n;
    TimesDifference(d, q, n);
    TimesDifference(d, f, n);
    PartOf(d, part);
    assert d * part == r;
    assert 0.0 <= r < d <==> 0.0 <= part < 1.0;
    FloorIff(q, turns);
    assert q.Floor == turns <==> f == n;
    assert 0.0 <= r < d <==> f == n;
  }

  /** What differs from the argument by whole turns is the result exactly when it lies in the range. */
  lemma ModIff(x: real, d: real, r: real, turns: int)
    requires d > 0.0 && x == r + d * (turns as real)
    ensures 0.0 <= r < d <==> Mod(x, d) == r
  {
    assert d * (x / d) == x;
    QuotientIff(x / d, d, r, turns);
  }

  lemma ModRange(x: real, d: real)
    requires d > 0.0
    ensures 0.0 <= Mod(x, d) < d
  {
    var turns := (x / d).Floor;
    ModIff(x, d, x - d * (turns as real), turns);
  }

  /** The distance from one right ascension to another as an axis angle: increasing hour angle
      is the opposite of increasing right ascension. */
  function RaDelta(initial: real, current: real): real {
    -(Mod(current - initial + 12.0, 24.0) - 12.0) * 15.0
  }

  /** Aiming `offset` degrees along the axis and measuring back agree, wherever the move starts
      and however often right ascension wraps, exactly up to half a turn. */
  lemma AimedOffsetIff(ra: real, offset: real)
    ensures RaDelta(ra, Mod(ra - offset / 15.0, 24.0)) == offset <==> -180.0 < offset <= 180.0
  {
    var aimed := ra - offset / 15.0;
    var turns := (aimed / 24.0).Floor;
    assert Mod(aimed, 24.0) == aimed - 24.0 * (turns as real);
    ModIff(Mod(aimed, 24.0) - ra + 12.0, 24.0, 12.0 - offset / 15.0, -turns);
  }
}
