/**
 * The Bisector: a binary-search driver over an integer range. `Start`
 * probes the midpoint of the range; `Left` and `Right` move one bound to the
 * last midpoint and probe again. The driver never decides when to stop.
 *
 * The source stores a callback `process_(start, end, position)` and returns
 * its result from `start()`, `left()` and `right()`. Here each method
 * returns the three arguments that callback receives; the caller runs its
 * probe on them (see OgvPlayer.Player.StartBisection), and the probe's
 * answer is what the source's method returns.
 */
module Bisection {
  import opened OgvTypes

  /** C++ `x / 2` on `int`: division truncating toward zero. */
  function Half(x: int): (r: int)
    ensures x >= 0 ==> 2 * r <= x <= 2 * r + 1
    ensures x < 0 ==> 2 * r - 1 <= x <= 2 * r
  {
    if x >= 0 then x / 2 else -((-x) / 2)
  }

  /** `(start_ + end_) / 2`, the sum taken without overflow. */
  function Midpoint(start: int, end: int): int
  {
    Half(start + end)
  }

  /** The midpoint of a non-empty range lies inside it. */
  lemma MidpointBetween(start: int, end: int)
    requires start <= end
    ensures start <= Midpoint(start, end) <= end
  {
  }

  /** The driver's state: the bounds, the last midpoint and the probe count. */
  datatype Range = Range(start: int, end: int, position: int, n: nat)

  function Width(r: Range): int
  {
    r.end - r.start
  }

  /** `iterate()`: count the probe and compute the midpoint of the current bounds. */
  function IterateStep(r: Range): Range
  {
    Range(r.start, r.end, Midpoint(r.start, r.end), r.n + 1)
  }

  function StartStep(r: Range): Range
  {
    IterateStep(r)
  }

  /** `left()`: the range becomes [start, position], then iterate. */
  function LeftStep(r: Range): Range
  {
    IterateStep(r.(end := r.position))
  }

  /** `right()`: the range becomes [position, end], then iterate. */
  function RightStep(r: Range): Range
  {
    IterateStep(r.(start := r.position))
  }

  /**
   * A range with non-negative ordered bounds whose position is the midpoint
   * of those bounds: what every probe leaves behind.
   */
  predicate Settled(r: Range)
  {
    0 <= r.start <= r.end && r.position == Midpoint(r.start, r.end)
  }

  /** The first probe of a range with 0 <= start <= end settles it and keeps the bounds. */
  lemma StartSettles(r: Range)
    requires 0 <= r.start <= r.end
    ensures Settled(StartStep(r))
    ensures StartStep(r).start == r.start && StartStep(r).end == r.end
    ensures StartStep(r).n == r.n + 1
  {
  }

  /**
   * `left()` keeps `start`, moves `end` to the old midpoint, keeps the range
   * ordered and inside the old one, and rounds the width down by half.
   */
  lemma LeftHalvesDown(r: Range)
    requires Settled(r)
    ensures var r' := LeftStep(r);
      && Settled(r')
      && r'.start == r.start && r'.end == r.position
      && r.start <= r'.position <= r'.end <= r.end
      && Width(r') == Width(r) / 2
      && r'.n == r.n + 1
  {
  }

  /**
   * `right()` keeps `end`, moves `start` to the old midpoint, keeps the
   * range ordered and inside the old one, and rounds the width up by half.
   */
  lemma RightHalvesUp(r: Range)
    requires Settled(r)
    ensures var r' := RightStep(r);
      && Settled(r')
      && r'.start == r.position && r'.end == r.end
      && r.start <= r'.start <= r'.position <= r.end
      && Width(r') == (Width(r) + 1) / 2
      && r'.n == r.n + 1
  {
  }

  /**
   * Once the width is at most one, both `left()` and `right()` recompute the
   * midpoint already probed: the range no longer moves.
   */
  lemma StallAtWidthOne(r: Range)
    requires Settled(r) && Width(r) <= 1
    ensures LeftStep(r).position == r.position
    ensures RightStep(r).position == r.position
    ensures RightStep(r).start == r.start && RightStep(r).end == r.end
  {
  }

  // ---------------------------------------------------------------------
  // Sequences of calls
  // ---------------------------------------------------------------------

  datatype Move = StartMove | LeftMove | RightMove

  function Apply(r: Range, m: Move): Range
  {
    match m
    case StartMove => StartStep(r)
    case LeftMove => LeftStep(r)
    case RightMove => RightStep(r)
  }

  /** The state after performing `moves` in order. */
  function Run(r: Range, moves: seq<Move>): Range
    decreases |moves|
  {
    if moves == [] then r else Run(Apply(r, moves[0]), moves[1..])
  }

  /** `n_` counts every `start`/`left`/`right` call. */
  lemma {:induction false} RunCountsProbes(r: Range, moves: seq<Move>)
    ensures Run(r, moves).n == r.n + |moves|
    decreases |moves|
  {
    if moves != [] {
      RunCountsProbes(Apply(r, moves[0]), moves[1..]);
    }
  }

  predicate Narrowing(moves: seq<Move>)
  {
    forall i :: 0 <= i < |moves| ==> moves[i] != StartMove
  }

  /** `ceil(w / 2)` applied `k` times. */
  function Halvings(w: int, k: nat): int
    decreases k
  {
    if k == 0 then w else Halvings((w + 1) / 2, k - 1)
  }

  lemma {:induction false} HalvingsMonotone(w1: int, w2: int, k: nat)
    requires w1 <= w2
    ensures Halvings(w1, k) <= Halvings(w2, k)
    decreases k
  {
    if k > 0 {
      HalvingsMonotone((w1 + 1) / 2, (w2 + 1) / 2, k - 1);
    }
  }

  /** A width of at most 2^k is at most one after k halvings rounded up. */
  lemma {:induction false} HalvingsReachOne(w: int, k: nat)
    requires w <= Pow2(k)
    ensures Halvings(w, k) <= 1
    decreases k
  {
    if k > 0 {
      assert (w + 1) / 2 <= Pow2(k - 1);
      HalvingsReachOne((w + 1) / 2, k - 1);
    }
  }

  /**
   * From a settled range, any sequence of `left()`/`right()` calls keeps the
   * range settled and nested inside the original one, and its width is at
   * most the original width halved (rounded up) once per call.
   */
  lemma {:induction false} NarrowingRun(r: Range, moves: seq<Move>)
    requires Settled(r) && Narrowing(moves)
    ensures var r' := Run(r, moves);
      && Settled(r')
      && r.start <= r'.start && r'.end <= r.end
      && Width(r') <= Halvings(Width(r), |moves|)
    decreases |moves|
  {
    if moves != [] {
      var next := Apply(r, moves[0]);
      if moves[0] == LeftMove {
        LeftHalvesDown(r);
      } else {
        RightHalvesUp(r);
      }
      assert Width(next) <= (Width(r) + 1) / 2;
      assert Narrowing(moves[1..]) by {
        forall i | 0 <= i < |moves[1..]| ensures moves[1..][i] != StartMove {
          assert moves[1..][i] == moves[i + 1];
        }
      }
      NarrowingRun(next, moves[1..]);
      HalvingsMonotone(Width(next), (Width(r) + 1) / 2, |moves| - 1);
    }
  }

  /**
   * Convergence: over a range of width w <= 2^k, after the first probe and
   * any k calls to `left()`/`right()`, one more call of either kind probes
   * the same position again. A caller that stops on a repeated position
   * therefore makes at most k + 2 probes.
   */
  lemma Converges(r: Range, moves: seq<Move>, k: nat)
    requires 0 <= r.start <= r.end && Width(r) <= Pow2(k)
    requires Narrowing(moves) && |moves| == k
    ensures var r' := Run(StartStep(r), moves);
      && LeftStep(r').position == r'.position
      && RightStep(r').position == r'.position
  {
    StartSettles(r);
    NarrowingRun(StartStep(r), moves);
    HalvingsReachOne(Width(r), k);
    HalvingsMonotone(Width(StartStep(r)), Width(r), k);
    StallAtWidthOne(Run(StartStep(r), moves));
  }

  // ---------------------------------------------------------------------
  // The driver object
  // ---------------------------------------------------------------------

  class Bisector {
    var start: int
    var end: int
    var position: int
    var n: nat

    function State(): Range
      reads this
    {
      Range(start, end, position, n)
    }

    /** `Bisector(start, end, process)`; `position_` and `n_` start at 0. */
    constructor (start: int, end: int)
      ensures State() == Range(start, end, 0, 0)
    {
      this.start := start;
      this.end := end;
      position := 0;
      n := 0;
    }

    /** `iterate()`: returns the arguments passed to the probe. */
    method Iterate() returns (probeStart: int, probeEnd: int, probePosition: int)
      modifies this
      ensures State() == IterateStep(old(State()))
      ensures probeStart == start && probeEnd == end && probePosition == position
    {
      n := n + 1;
      position := Half(start + end);
      probeStart, probeEnd, probePosition := start, end, position;
    }

    method Start() returns (probeStart: int, probeEnd: int, probePosition: int)
      modifies this
      ensures State() == StartStep(old(State()))
      ensures probeStart == start && probeEnd == end && probePosition == position
    {
      probeStart, probeEnd, probePosition := Iterate();
    }

    method Left() returns (probeStart: int, probeEnd: int, probePosition: int)
      modifies this
      ensures State() == LeftStep(old(State()))
      ensures probeStart == start && probeEnd == end && probePosition == position
    {
      end := position;
      probeStart, probeEnd, probePosition := Iterate();
    }

    method Right() returns (probeStart: int, probeEnd: int, probePosition: int)
      modifies this
      ensures State() == RightStep(old(State()))
      ensures probeStart == start && probeEnd == end && probePosition == position
    {
      start := position;
      probeStart, probeEnd, probePosition := Iterate();
    }
  }

  // ---------------------------------------------------------------------
  // 32-bit arithmetic of the midpoint
  // ---------------------------------------------------------------------

  const IntMin: int := -0x8000_0000
  const IntMax: int := 0x7FFF_FFFF

  predicate IsInt32(x: int)
  {
    IntMin <= x <= IntMax
  }

  /** Two's-complement wrap-around of a 32-bit signed sum. */
  function Wrap32(x: int): (r: int)
    ensures IsInt32(r)
    ensures IsInt32(x) ==> r == x
  {
    (x + 0x8000_0000) % 0x1_0000_0000 - 0x8000_0000
  }

  /** `(start_ + end_) / 2` evaluated in `int`, the sum wrapping on overflow. */
  function Midpoint32(start: int, end: int): int
  {
    Half(Wrap32(start + end))
  }

  /** Without overflow the 32-bit evaluation is the mathematical midpoint. */
  lemma Midpoint32AgreesBelowOverflow(start: int, end: int)
    requires IsInt32(start + end)
    ensures Midpoint32(start, end) == Midpoint(start, end)
  {
  }

  /**
   * A range over the upper half of the int range -- a file of more than
   * 2^30 bytes after a `right()` -- overflows the sum, and the probed
   * position falls outside [start, end].
   */
  lemma Midpoint32LeavesRange()
    ensures var s, e := 0x4000_0000, 0x7FFF_FFFE;
      && IsInt32(s) && IsInt32(e)
      && Midpoint32(s, e) < 0
      && !(s <= Midpoint32(s, e) <= e)
  {
    assert Wrap32(0x4000_0000 + 0x7FFF_FFFE) == -0x4000_0002;
  }

  /** The overflow-free form `start_ + (end_ - start_) / 2`. */
  function MidpointNoOverflow(start: int, end: int): (m: int)
    requires 0 <= start <= end
    ensures m == Midpoint(start, end)
    ensures start <= m <= end
    ensures IsInt32(start) && IsInt32(end) ==> IsInt32(end - start) && IsInt32(m)
  {
    start + Half(end - start)
  }
}
