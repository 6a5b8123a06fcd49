/**
 * The moving-average smoother: `MovingAverage` keeps the last three palm
 * positions (seeded with three origins) and reports their per-axis mean,
 * truncated toward zero as Rust's `i32` division does. `hand_tracking` feeds it,
 * but skips a sample with a not-a-number coordinate and reports the origin.
 */
module Smoother {
  import opened Options

  /** Number of samples the window holds. */
  const WINDOW: nat := 3

  /** A palm position, already cast to integers. */
  datatype Position = Position(x: int, y: int, z: int)

  const ORIGIN: Position := Position(0, 0, 0)

  /** The window `MovingAverage::new` starts with. */
  const INITIAL: seq<Position> := [ORIGIN, ORIGIN, ORIGIN]

  /** Rust's `/` on integers: the quotient truncated toward zero. */
  function TruncDiv(a: int, n: int): (q: int)
    requires n > 0
    ensures a >= 0 ==> 0 <= q && q * n <= a < q * n + n
    ensures a < 0 ==> q <= 0 && q * n - n < a <= q * n
  {
    if a >= 0 then
      var q := a / n;
      assert q * n + a % n == a && 0 <= a % n < n;
      q
    else
      var q := (-a) / n;
      assert q * n + (-a) % n == -a && 0 <= (-a) % n < n;
      assert (-q) * n == -(q * n);
      -q
  }

  /** Per-axis sums of the samples. */
  function Total(w: seq<Position>): (sum: Position) {
    if w == [] then ORIGIN
    else
      var t := Total(w[..|w| - 1]);
      var p := w[|w| - 1];
      Position(t.x + p.x, t.y + p.y, t.z + p.z)
  }

  /** `get_smoothed_position`: each axis sum divided by the sample count. */
  function WindowMean(w: seq<Position>): (mean: Position)
    requires |w| > 0
  {
    var t := Total(w);
    Position(TruncDiv(t.x, |w|), TruncDiv(t.y, |w|), TruncDiv(t.z, |w|))
  }

  /** The window after inserting `ps` in order, each insertion dropping the oldest sample. */
  function Window(initial: seq<Position>, ps: seq<Position>): (w: seq<Position>)
    requires |initial| == WINDOW
    ensures |w| == WINDOW
  {
    if ps == [] then initial
    else Window(initial, ps[..|ps| - 1])[1..] + [ps[|ps| - 1]]
  }

  /**
   * First in, first out: after any sequence of insertions the window holds the
   * last three of everything inserted, counting the three origins it started
   * with, in insertion order.
   */
  lemma {:induction false} WindowKeepsLatest(initial: seq<Position>, ps: seq<Position>)
    requires |initial| == WINDOW
    ensures Window(initial, ps) == (initial + ps)[|ps|..]
  {
    if ps != [] {
      var front := ps[..|ps| - 1];
      WindowKeepsLatest(initial, front);
      assert (initial + front)[|front|..][1..] + [ps[|ps| - 1]] == (initial + ps)[|ps|..];
    }
  }

  lemma {:induction false} TotalOfThree(a: Position, b: Position, c: Position)
    ensures Total([a, b, c]) == Position(a.x + b.x + c.x, a.y + b.y + c.y, a.z + b.z + c.z)
  {
    assert [a][..0] == [];
    assert Total([a]) == Position(a.x, a.y, a.z);
    assert [a, b][..1] == [a];
    assert Total([a, b]) == Position(a.x + b.x, a.y + b.y, a.z + b.z);
    assert [a, b, c][..2] == [a, b];
  }

  /** Once three samples are in, the window holds exactly the last three. */
  lemma {:induction false} WindowAfterWarmUp(ps: seq<Position>)
    requires |ps| >= WINDOW
    ensures Window(INITIAL, ps) == ps[|ps| - 3..]
  {
    WindowKeepsLatest(INITIAL, ps);
    assert (INITIAL + ps)[|ps|..] == ps[|ps| - 3..];
  }

  /**
   * Once three samples are in, the reported position is the truncated mean of
   * exactly the last three.
   */
  lemma {:induction false} MeanOfLastThree(ps: seq<Position>)
    requires |ps| >= WINDOW
    ensures var n := |ps|;
      var a, b, c := ps[n - 3], ps[n - 2], ps[n - 1];
      WindowMean(Window(INITIAL, ps))
        == Position(TruncDiv(a.x + b.x + c.x, 3), TruncDiv(a.y + b.y + c.y, 3), TruncDiv(a.z + b.z + c.z, 3))
  {
    var n := |ps|;
    WindowAfterWarmUp(ps);
    assert ps[n - 3..] == [ps[n - 3], ps[n - 2], ps[n - 1]];
    TotalOfThree(ps[n - 3], ps[n - 2], ps[n - 1]);
  }

  /** A hand held still is reported where it is: the mean of three equal samples is that sample. */
  lemma StillHandStaysPut(p: Position)
    ensures WindowMean([p, p, p]) == p
  {
    TotalOfThree(p, p, p);
  }

  /**
   * Before three samples are in, the seed origins still count: one sample of
   * (9, -8, 4) is reported as (3, -2, 1), a third of it truncated toward zero.
   */
  lemma WarmUpCountsOrigins()
    ensures WindowMean(Window(INITIAL, [Position(9, -8, 4)])) == Position(3, -2, 1)
  {
    var p := Position(9, -8, 4);
    assert [p][..0] == [];
    assert Window(INITIAL, [p]) == [ORIGIN, ORIGIN, p];
    TotalOfThree(ORIGIN, ORIGIN, p);
  }

  class MovingAverage {
    var samples: seq<Position>

    ghost predicate Valid()
      reads this
    {
      |samples| == WINDOW
    }

    /** `MovingAverage::new`: three origin samples. */
    constructor ()
      ensures Valid() && samples == INITIAL
    {
      samples := INITIAL;
    }

    /** `add_sample`: push the newest, then drop the oldest once over three. */
    method AddSample(x: int, y: int, z: int)
      requires Valid()
      modifies this
      ensures Valid()
      ensures samples == old(samples)[1..] + [Position(x, y, z)]
    {
      samples := samples + [Position(x, y, z)];
      if |samples| > WINDOW {
        samples := samples[1..];
      }
    }

    function SmoothedPosition(): (p: Position)
      reads this
      requires Valid()
    {
      WindowMean(samples)
    }
  }

  /**
   * A run of `add_sample` calls, one per sample in order: the object then holds
   * the window `Window` describes, so the first-in, first-out lemmas above are
   * about the object itself.
   */
  method AddSamples(m: MovingAverage, ps: seq<Position>)
    requires m.Valid()
    modifies m
    ensures m.Valid() && m.samples == Window(old(m.samples), ps)
  {
    ghost var start := m.samples;
    var i := 0;
    while i < |ps|
      invariant 0 <= i <= |ps|
      invariant m.Valid() && m.samples == Window(start, ps[..i])
    {
      assert ps[..i + 1][..i] == ps[..i];
      m.AddSample(ps[i].x, ps[i].y, ps[i].z);
      i := i + 1;
    }
    assert ps[..|ps|] == ps;
  }

  /**
   * `hand_tracking` with the sensor read done by the caller: `None` stands for
   * a palm position with a not-a-number coordinate.
   */
  method HandTracking(sample: Option<Position>, smoother: MovingAverage) returns (p: Position)
    requires smoother.Valid()
    modifies smoother
    ensures smoother.Valid()
    ensures sample.None? ==> p == ORIGIN && smoother.samples == old(smoother.samples)
    ensures sample.Some? ==>
      && smoother.samples == old(smoother.samples)[1..] + [sample.value]
      && p == WindowMean(smoother.samples)
  {
    if sample.None? {
      return ORIGIN;
    }
    var s := sample.value;
    smoother.AddSample(s.x, s.y, s.z);
    p := smoother.SmoothedPosition();
  }
}
