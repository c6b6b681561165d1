/**
 * The data half of the real-time plot widget of widgets/real_time_plot.py:
 * three point series (X, Y and Z) on a common clock, a quantised value range
 * recomputed on every update, eviction of the oldest points, and a trailing
 * time window. The chart calls are replaced by the values they are given.
 */
module Plot {
  import opened Wrappers
  import opened Text

  /** A `QPointF`: `x` is the time stamp, `y` the sample value. */
  datatype Point = Point(x: real, y: real)

  /** The two values passed to an axis' `setRange`. */
  datatype Range = Range(low: real, high: real)

  /** `update_data` evicts when the series held more than this many points before the append. */
  const EvictAbove := 50

  /** How many of the oldest points one eviction removes. */
  const EvictCount := 2

  /** The width of the visible time window. */
  const SecondFrame: real := 3.0

  function Max(a: real, b: real): real {
    if a >= b then a else b
  }

  function Min(a: real, b: real): real {
    if a <= b then a else b
  }

  /** `get_max`: Python's `max` over the `y` values, scanning from the front. */
  function GetMax(points: seq<Point>): (r: real)
    requires |points| > 0
    ensures points[0].y <= r
  {
    if |points| == 1 then points[0].y else Max(points[0].y, GetMax(points[1..]))
  }

  /** `get_min`: Python's `min` over the `y` values, scanning from the front. */
  function GetMin(points: seq<Point>): (r: real)
    requires |points| > 0
    ensures r <= points[0].y
  {
    if |points| == 1 then points[0].y else Min(points[0].y, GetMin(points[1..]))
  }

  /** `get_max` returns a value of the series that no value exceeds. */
  lemma {:induction false} GetMaxIsMaximum(points: seq<Point>)
    requires |points| > 0
    ensures exists i :: 0 <= i < |points| && points[i].y == GetMax(points)
    ensures forall i :: 0 <= i < |points| ==> points[i].y <= GetMax(points)
  {
    if |points| == 1 {
      assert points[0].y == GetMax(points);
    } else {
      GetMaxIsMaximum(points[1..]);
      assert forall i :: 1 <= i < |points| ==> points[i] == points[1..][i - 1];
      if points[0].y < GetMax(points[1..]) {
        var j :| 0 <= j < |points[1..]| && points[1..][j].y == GetMax(points[1..]);
        assert points[j + 1].y == GetMax(points);
      } else {
        assert points[0].y == GetMax(points);
      }
    }
  }

  /** `get_min` returns a value of the series that no value undercuts. */
  lemma {:induction false} GetMinIsMinimum(points: seq<Point>)
    requires |points| > 0
    ensures exists i :: 0 <= i < |points| && points[i].y == GetMin(points)
    ensures forall i :: 0 <= i < |points| ==> GetMin(points) <= points[i].y
  {
    if |points| == 1 {
      assert points[0].y == GetMin(points);
    } else {
      GetMinIsMinimum(points[1..]);
      assert forall i :: 1 <= i < |points| ==> points[i] == points[1..][i - 1];
      if points[0].y > GetMin(points[1..]) {
        var j :| 0 <= j < |points[1..]| && points[1..][j].y == GetMin(points[1..]);
        assert points[j + 1].y == GetMin(points);
      } else {
        assert points[0].y == GetMin(points);
      }
    }
  }

  /** `v` is a whole multiple of `unit`. */
  ghost predicate OnGrid(v: real, unit: real) {
    exists k: int :: v == Multiple(k, unit)
  }

  function Multiple(k: int, unit: real): real {
    k as real * unit
  }

  /** The clock after `n` updates: `n` additions of `step` to 0. */
  function Clock(n: nat, step: real): (t: real)
    ensures step > 0.0 ==> t >= 0.0
  {
    if n == 0 then 0.0 else Clock(n - 1, step) + step
  }

  /** With a positive step the clock strictly increases with every update. */
  lemma {:induction false} ClockIncreasing(m: nat, n: nat, step: real)
    requires m < n && step > 0.0
    ensures Clock(m, step) < Clock(n, step)
    decreases n
  {
    if m < n - 1 {
      ClockIncreasing(m, n - 1, step);
    }
  }

  /**
   * The value axis range for extrema `lo` and `hi`:
   * `ceil(lo / unit) * unit - unit` and `ceil(hi / unit) * unit + unit`.
   * Both ends are multiples of `unit`; the low end is the one multiple in
   * [lo - unit, lo) and the high end the one in [hi + unit, hi + 2 unit),
   * so the range strictly contains [lo, hi] with at least one unit of
   * headroom above and is at least two units wide.
   */
  function AxisRange(lo: real, hi: real, unit: real): (r: Range)
    requires unit > 0.0
    ensures OnGrid(r.low, unit) && OnGrid(r.high, unit)
    ensures lo - unit <= r.low < lo
    ensures hi + unit <= r.high < hi + 2.0 * unit
    ensures lo <= hi ==> r.high - r.low >= 2.0 * unit
  {
    AxisRangeBounds(lo, hi, unit);
    Range(Multiple(Ceil(lo / unit) - 1, unit), Multiple(Ceil(hi / unit) + 1, unit))
  }

  lemma AxisRangeBounds(lo: real, hi: real, unit: real)
    requires unit > 0.0
    ensures var low, high := Multiple(Ceil(lo / unit) - 1, unit), Multiple(Ceil(hi / unit) + 1, unit);
      && lo - unit <= low < lo
      && hi + unit <= high < hi + 2.0 * unit
      && (lo <= hi ==> high - low >= 2.0 * unit)
  {
    var a, b := Ceil(lo / unit), Ceil(hi / unit);
    CeilTimes(lo, unit);
    CeilTimes(hi, unit);
    MultipleSucc(a - 1, a, unit);
    MultipleSucc(b - 1, b, unit);
    MultipleSucc(b, b + 1, unit);
    if lo <= hi {
      DivMonotone(lo, hi, unit);
      CeilMonotone(lo / unit, hi / unit);
      MultipleMonotone(a - 1, b - 1, unit);
    }
    GridBounds(lo, hi, unit, Multiple(a - 1, unit), Multiple(a, unit),
      Multiple(b - 1, unit), Multiple(b, unit), Multiple(b + 1, unit));
  }

  /** The linear core of `AxisRangeBounds`, over the five grid points it uses. */
  lemma GridBounds(lo: real, hi: real, unit: real, a0: real, a1: real, b0: real, b1: real, b2: real)
    requires a0 < lo
    requires lo <= a1
    requires a1 == a0 + unit
    requires b0 < hi
    requires hi <= b1
    requires b1 == b0 + unit
    requires b2 == b1 + unit
    requires lo <= hi ==> a0 <= b0
    ensures lo - unit <= a0 < lo
    ensures hi + unit <= b2 < hi + 2.0 * unit
    ensures lo <= hi ==> b2 - a0 >= 2.0 * unit
  {
  }

  lemma MultipleMonotone(k: int, j: int, unit: real)
    requires k <= j && unit > 0.0
    ensures Multiple(k, unit) <= Multiple(j, unit)
  {
    MulStrict(k as real, j as real, unit);
  }

  /** Consecutive multiples of `unit` lie one unit apart. */
  lemma MultipleSucc(k: int, j: int, unit: real)
    requires j == k + 1
    ensures Multiple(j, unit) == Multiple(k, unit) + unit
  {
  }

  /**
   * The multiple of `unit` with index `Ceil(x / unit)` is at or above `x`,
   * and the one before it lies strictly below.
   */
  lemma CeilTimes(x: real, unit: real)
    requires unit > 0.0
    ensures Multiple(Ceil(x / unit) - 1, unit) < x <= Multiple(Ceil(x / unit), unit)
  {
    var q := x / unit;
    var k := Ceil(q);
    assert q * unit == x;
    MulStrict(q, k as real, unit);
    MulStrict((k - 1) as real, q, unit);
  }

  lemma MulStrict(a: real, b: real, c: real)
    requires c > 0.0
    ensures a <= b ==> a * c <= b * c
    ensures a < b ==> a * c < b * c
  {
  }

  lemma DivMonotone(a: real, b: real, c: real)
    requires c > 0.0 && a <= b
    ensures a / c <= b / c
  {
  }

  /**
   * The time axis range for clock `t`: `[0, t]` while `t < 3`, afterwards the
   * trailing window `[t - 3, t]`. It always ends at the clock and, for a
   * clock that has not gone negative, starts at 0 or later and is at most
   * three units wide.
   */
  function XWindow(t: real): (r: Range)
    ensures r.high == t
    ensures t >= 0.0 ==> 0.0 <= r.low <= r.high && r.high - r.low <= SecondFrame
    ensures t >= SecondFrame ==> r.high - r.low == SecondFrame
    ensures t < SecondFrame ==> r.low == 0.0
  {
    if t - SecondFrame < 0.0 then Range(0.0, t) else Range(t - SecondFrame, t)
  }

  /** The number of points in each series after `n` updates. */
  function LengthAfter(n: nat): nat {
    if n == 0 then 0
    else
      var before := LengthAfter(n - 1);
      if before > EvictAbove then before + 1 - EvictCount else before + 1
  }

  /**
   * The first 51 updates never evict; from then on the length alternates
   * between 51 (after an odd number of updates) and 50, so it never exceeds
   * 51 and never drops below 50 again.
   */
  lemma {:induction false} LengthAfterClosedForm(n: nat)
    ensures LengthAfter(n) == if n <= 51 then n else if n % 2 == 1 then 51 else 50
  {
    if n > 0 {
      LengthAfterClosedForm(n - 1);
    }
  }

  lemma LengthBounds(n: nat)
    ensures LengthAfter(n) <= 51
    ensures n >= 50 ==> LengthAfter(n) >= 50
    ensures n >= 51 ==> LengthAfter(n + 1) != LengthAfter(n)
  {
    LengthAfterClosedForm(n);
    LengthAfterClosedForm(n + 1);
  }

  /** The point update number `k` (counting from 0) added to the series for `axis`. */
  ghost function Stamp(samples: seq<seq<real>>, k: nat, axis: nat, step: real): Point
    requires k < |samples| && axis < |samples[k]|
  {
    Point(Clock(k + 1, step), samples[k][axis])
  }

  /**
   * `series` holds exactly the `axis` values of the last `|series|` samples,
   * oldest first, each stamped with the clock value of its update.
   */
  ghost predicate Recent(series: seq<Point>, samples: seq<seq<real>>, axis: nat, step: real) {
    && |series| <= |samples|
    && forall j :: 0 <= j < |series| ==> StampAt(series, samples, axis, step, j)
  }

  /** Point `j` of a series holding the last `|series|` samples is the stamp of its sample. */
  ghost predicate StampAt(series: seq<Point>, samples: seq<seq<real>>, axis: nat, step: real, j: nat)
    requires j < |series| <= |samples|
  {
    var k := |samples| - |series| + j;
    axis < |samples[k]| && series[j] == Stamp(samples, k, axis, step)
  }

  /** Every value of `series` lies strictly inside `r`. */
  ghost predicate Inside(series: seq<Point>, r: Range) {
    forall j :: 0 <= j < |series| ==> InsideAt(series, r, j)
  }

  ghost predicate InsideAt(series: seq<Point>, r: Range, j: nat)
    requires j < |series|
  {
    r.low < series[j].y < r.high
  }

  lemma RecentAppend(series: seq<Point>, samples: seq<seq<real>>, axis: nat, step: real, data: seq<real>)
    requires Recent(series, samples, axis, step) && axis < |data|
    ensures Recent(series + [Point(Clock(|samples| + 1, step), data[axis])], samples + [data], axis, step)
  {
    var grown := series + [Point(Clock(|samples| + 1, step), data[axis])];
    forall j | 0 <= j < |grown|
      ensures StampAt(grown, samples + [data], axis, step, j)
    {
      if j < |series| {
        assert StampAt(series, samples, axis, step, j);
      }
    }
  }

  lemma RecentDrop(series: seq<Point>, samples: seq<seq<real>>, axis: nat, step: real, count: nat)
    requires Recent(series, samples, axis, step) && count <= |series|
    ensures Recent(series[count..], samples, axis, step)
  {
    var s := series[count..];
    forall j | 0 <= j < |s|
      ensures StampAt(s, samples, axis, step, j)
    {
      assert StampAt(series, samples, axis, step, j + count);
    }
  }

  lemma InsideDrop(series: seq<Point>, r: Range, count: nat)
    requires Inside(series, r) && count <= |series|
    ensures Inside(series[count..], r)
  {
    var s := series[count..];
    forall j | 0 <= j < |s|
      ensures InsideAt(s, r, j)
    {
      assert InsideAt(series, r, j + count);
    }
  }

  /**
   * In a series that keeps the most recent samples the time stamps are
   * strictly increasing and the newest point carries the clock of the last
   * update, `Clock(|samples|, step)`, with the last sample's value.
   */
  lemma RecentOrdered(series: seq<Point>, samples: seq<seq<real>>, axis: nat, step: real)
    requires Recent(series, samples, axis, step) && step > 0.0
    ensures forall i, j :: 0 <= i < j < |series| ==> series[i].x < series[j].x
    ensures |series| > 0 ==>
      axis < |samples[|samples| - 1]| && series[|series| - 1] == Point(Clock(|samples|, step), samples[|samples| - 1][axis])
  {
    forall i, j | 0 <= i < j < |series|
      ensures series[i].x < series[j].x
    {
      assert StampAt(series, samples, axis, step, i);
      assert StampAt(series, samples, axis, step, j);
      var base := |samples| - |series|;
      ClockIncreasing(base + i + 1, base + j + 1, step);
    }
    if |series| > 0 {
      assert StampAt(series, samples, axis, step, |series| - 1);
    }
  }

  /** `removePoints(0, 2)` when the series held more than 50 points before the append. */
  function Evicted(series: seq<Point>, countBefore: nat): (r: seq<Point>)
    requires |series| == countBefore + 1
    ensures |r| == if countBefore > EvictAbove then countBefore + 1 - EvictCount else countBefore + 1
    ensures r == series[|series| - |r|..]
  {
    if countBefore > EvictAbove then series[EvictCount..] else series
  }

  /** The extrema of three series, as `update_data` takes them. */
  function Extrema(xs: seq<Point>, ys: seq<Point>, zs: seq<Point>): (lh: (real, real))
    requires |xs| > 0 && |ys| > 0 && |zs| > 0
    ensures lh.0 <= lh.1
  {
    (Min(Min(GetMin(xs), GetMin(ys)), GetMin(zs)), Max(Max(GetMax(xs), GetMax(ys)), GetMax(zs)))
  }

  lemma ExtremaBounds(xs: seq<Point>, ys: seq<Point>, zs: seq<Point>)
    requires |xs| > 0 && |ys| > 0 && |zs| > 0
    ensures var lh := Extrema(xs, ys, zs);
      && lh.0 <= GetMin(xs) && lh.0 <= GetMin(ys) && lh.0 <= GetMin(zs)
      && GetMax(xs) <= lh.1 && GetMax(ys) <= lh.1 && GetMax(zs) <= lh.1
      && lh.0 <= lh.1
  {
    GetMaxIsMaximum(xs);
    GetMinIsMinimum(xs);
  }

  /**
   * The data the plot keeps: its clock, the three series, the ranges last
   * given to the value and time axes (`None` before the first update), and
   * the history of every sample passed to `update_data`.
   */
  datatype PlotState = PlotState(
    timeX: real,
    seriesX: seq<Point>,
    seriesY: seq<Point>,
    seriesZ: seq<Point>,
    yRange: Range,
    xRange: Option<Range>,
    samples: seq<seq<real>>)

  /** The state `__init__` sets up for value-range unit `ceil`. */
  function Start(ceil: real): PlotState {
    PlotState(0.0, [], [], [], Range(-ceil, ceil), None, [])
  }

  /** The three series hold the same number of points, as the plot always keeps them. */
  predicate Aligned(s: PlotState) {
    |s.seriesX| == |s.seriesY| == |s.seriesZ|
  }

  /**
   * `update_data` on the plot's data: advance the clock by `step`, append one
   * point per axis, take the value range over all points of the grown series,
   * evict the two oldest points of every series when the first series held
   * more than 50, and move the time window to the new clock.
   */
  function Step(s: PlotState, data: seq<real>, ceil: real, step: real): (r: PlotState)
    requires |data| >= 3 && ceil > 0.0 && Aligned(s)
    ensures r.samples == s.samples + [data] && r.timeX == s.timeX + step
    ensures r.xRange == Some(XWindow(r.timeX))
    ensures Aligned(r)
  {
    var t := s.timeX + step;
    var x := |s.seriesX|;
    var xs, ys, zs := s.seriesX + [Point(t, data[0])], s.seriesY + [Point(t, data[1])], s.seriesZ + [Point(t, data[2])];
    var lh := Extrema(xs, ys, zs);
    PlotState(t, Evicted(xs, x), Evicted(ys, x), Evicted(zs, x),
              AxisRange(lh.0, lh.1, ceil), Some(XWindow(t)), s.samples + [data])
  }

  /**
   * The plot's invariant: the clock counts the updates, each series keeps
   * the most recent samples of its axis at the length the update count
   * dictates, and the value range is a pair of multiples of the unit, at
   * least two units apart, strictly containing every plotted value; before
   * the first update the ranges are the initial ones.
   */
  ghost predicate Coherent(s: PlotState, ceil: real, step: real) {
    && ceil > 0.0 && step > 0.0
    && s.timeX == Clock(|s.samples|, step)
    && SeriesCoherent(s.seriesX, s.samples, 0, step, s.yRange)
    && SeriesCoherent(s.seriesY, s.samples, 1, step, s.yRange)
    && SeriesCoherent(s.seriesZ, s.samples, 2, step, s.yRange)
    && OnGrid(s.yRange.low, ceil) && OnGrid(s.yRange.high, ceil)
    && s.yRange.high - s.yRange.low >= 2.0 * ceil
    && (s.samples == [] ==> s.yRange == Range(-ceil, ceil) && s.xRange == None)
    && (s.samples != [] ==> s.xRange == Some(XWindow(s.timeX)))
  }

  lemma StartCoherent(ceil: real, step: real)
    requires ceil > 0.0 && step > 0.0
    ensures Coherent(Start(ceil), ceil, step)
  {
    assert -ceil == Multiple(-1, ceil);
    assert ceil == Multiple(1, ceil);
  }

  /** A range strictly containing the extrema of a series contains all its values. */
  lemma InsideByExtrema(series: seq<Point>, r: Range)
    requires |series| > 0 && r.low < GetMin(series) && GetMax(series) < r.high
    ensures Inside(series, r)
  {
    GetMaxIsMaximum(series);
    GetMinIsMinimum(series);
    forall j | 0 <= j < |series|
      ensures InsideAt(series, r, j)
    {
    }
  }

  /**
   * The series for `axis` keeps the most recent samples at the length the
   * update count dictates, all of its values strictly inside `r`.
   */
  ghost predicate SeriesCoherent(series: seq<Point>, samples: seq<seq<real>>, axis: nat, step: real, r: Range) {
    && |series| == LengthAfter(|samples|)
    && Recent(series, samples, axis, step)
    && Inside(series, r)
  }

  /**
   * One update of one series: appending the point stamped `t` and evicting
   * keeps the series the most recent samples, at the length the update count
   * dictates, and inside any range that strictly contains the extrema of the
   * grown series.
   */
  lemma SeriesStep(series: seq<Point>, samples: seq<seq<real>>, axis: nat, step: real, data: seq<real>, t: real, r: Range)
    requires Recent(series, samples, axis, step) && |series| == LengthAfter(|samples|)
    requires axis < |data| && t == Clock(|samples| + 1, step)
    requires Inside(series + [Point(t, data[axis])], r)
    ensures SeriesCoherent(Evicted(series + [Point(t, data[axis])], |series|), samples + [data], axis, step, r)
  {
    var grown := series + [Point(t, data[axis])];
    RecentAppend(series, samples, axis, step, data);
    if |series| > EvictAbove {
      RecentDrop(grown, samples + [data], axis, step, EvictCount);
      InsideDrop(grown, r, EvictCount);
    }
  }

  /** Every update keeps the invariant. */
  lemma StepCoherent(s: PlotState, data: seq<real>, ceil: real, step: real)
    requires Coherent(s, ceil, step) && |data| >= 3
    ensures Coherent(Step(s, data, ceil, step), ceil, step)
  {
    var t := s.timeX + step;
    var xs, ys, zs := s.seriesX + [Point(t, data[0])], s.seriesY + [Point(t, data[1])], s.seriesZ + [Point(t, data[2])];
    var lh := Extrema(xs, ys, zs);
    var r := AxisRange(lh.0, lh.1, ceil);
    var next := PlotState(t, Evicted(xs, |s.seriesX|), Evicted(ys, |s.seriesY|), Evicted(zs, |s.seriesZ|),
                          r, Some(XWindow(t)), s.samples + [data]);
    assert Step(s, data, ceil, step) == next;
    assert r.low < lh.0 && lh.1 < r.high;
    ExtremaBounds(xs, ys, zs);
    InsideByExtrema(xs, r);
    InsideByExtrema(ys, r);
    InsideByExtrema(zs, r);
    SeriesStep(s.seriesX, s.samples, 0, step, data, t, r);
    SeriesStep(s.seriesY, s.samples, 1, step, data, t, r);
    SeriesStep(s.seriesZ, s.samples, 2, step, data, t, r);
    assert Coherent(next, ceil, step);
  }

  /**
   * What a coherent plot shows: three series of equal length, at most 51
   * points and, once 50 updates have happened, never fewer than 50; time
   * stamps strictly increasing; the newest point of each series at the
   * current clock with the latest sample's value; every plotted value
   * strictly inside the value range.
   */
  lemma CoherentFacts(s: PlotState, ceil: real, step: real)
    requires Coherent(s, ceil, step)
    ensures |s.seriesX| == |s.seriesY| == |s.seriesZ| <= 51
    ensures |s.samples| >= 50 ==> |s.seriesX| >= 50
    ensures forall i, j :: 0 <= i < j < |s.seriesX| ==> s.seriesX[i].x < s.seriesX[j].x
    ensures forall i, j :: 0 <= i < j < |s.seriesY| ==> s.seriesY[i].x < s.seriesY[j].x
    ensures forall i, j :: 0 <= i < j < |s.seriesZ| ==> s.seriesZ[i].x < s.seriesZ[j].x
    ensures s.samples != [] ==>
      var last := s.samples[|s.samples| - 1];
      && |last| >= 3
      && s.seriesX[|s.seriesX| - 1] == Point(s.timeX, last[0])
      && s.seriesY[|s.seriesY| - 1] == Point(s.timeX, last[1])
      && s.seriesZ[|s.seriesZ| - 1] == Point(s.timeX, last[2])
    ensures forall j :: 0 <= j < |s.seriesX| ==> s.yRange.low < s.seriesX[j].y < s.yRange.high
    ensures forall j :: 0 <= j < |s.seriesY| ==> s.yRange.low < s.seriesY[j].y < s.yRange.high
    ensures forall j :: 0 <= j < |s.seriesZ| ==> s.yRange.low < s.seriesZ[j].y < s.yRange.high
  {
    LengthBounds(|s.samples|);
    RecentOrdered(s.seriesX, s.samples, 0, step);
    RecentOrdered(s.seriesY, s.samples, 1, step);
    RecentOrdered(s.seriesZ, s.samples, 2, step);
    if s.samples != [] {
      LengthAfterClosedForm(|s.samples|);
    }
    forall j | 0 <= j < |s.seriesX|
      ensures s.yRange.low < s.seriesX[j].y < s.yRange.high
    {
      assert InsideAt(s.seriesX, s.yRange, j);
    }
    forall j | 0 <= j < |s.seriesY|
      ensures s.yRange.low < s.seriesY[j].y < s.yRange.high
    {
      assert InsideAt(s.seriesY, s.yRange, j);
    }
    forall j | 0 <= j < |s.seriesZ|
      ensures s.yRange.low < s.seriesZ[j].y < s.yRange.high
    {
      assert InsideAt(s.seriesZ, s.yRange, j);
    }
  }

  /** A sequence of `update_data` calls. */
  function Replay(s: PlotState, batch: seq<seq<real>>, ceil: real, step: real): PlotState
    requires ceil > 0.0 && Aligned(s)
    requires forall k :: 0 <= k < |batch| ==> |batch[k]| >= 3
    decreases |batch|
  {
    if batch == [] then s else Replay(Step(s, batch[0], ceil, step), batch[1..], ceil, step)
  }

  /** Replaying a batch appends exactly that batch to the sample history. */
  lemma {:induction false} ReplaySamples(s: PlotState, batch: seq<seq<real>>, ceil: real, step: real)
    requires ceil > 0.0 && Aligned(s)
    requires forall k :: 0 <= k < |batch| ==> |batch[k]| >= 3
    ensures Replay(s, batch, ceil, step).samples == s.samples + batch
    decreases |batch|
  {
    if batch != [] {
      var next, rest := Step(s, batch[0], ceil, step), batch[1..];
      ReplaySamples(next, rest, ceil, step);
      SplitFirst(s.samples, batch);
    }
  }

  /** Appending a non-empty sequence is appending its head, then its tail. */
  lemma SplitFirst<T>(a: seq<T>, b: seq<T>)
    requires b != []
    ensures a + b == (a + [b[0]]) + b[1..]
  {
    assert b == [b[0]] + b[1..];
  }

  /**
   * Any sequence of updates from a coherent plot, in particular from the
   * initial one, leaves a coherent plot.
   */
  lemma {:induction false} ReplayCoherent(s: PlotState, batch: seq<seq<real>>, ceil: real, step: real)
    requires Coherent(s, ceil, step)
    requires forall k :: 0 <= k < |batch| ==> |batch[k]| >= 3
    ensures Coherent(Replay(s, batch, ceil, step), ceil, step)
    decreases |batch|
  {
    if batch != [] {
      var next, rest := Step(s, batch[0], ceil, step), batch[1..];
      StepCoherent(s, batch[0], ceil, step);
      ReplayCoherent(next, rest, ceil, step);
    }
  }

  class RealTimePlot {
    /** `meta.ceil`: the value-range unit. */
    const ceil: real
    /** `DELAY / 100`: the clock step per update. */
    const step: real

    var timeX: real
    var seriesX: seq<Point>
    var seriesY: seq<Point>
    var seriesZ: seq<Point>
    /** The last range given to the value axis. */
    var yRange: Range
    /** The last range given to the time axis; `None` before the first update. */
    var xRange: Option<Range>
    /** Every sample passed to `update_data`, oldest first. */
    ghost var samples: seq<seq<real>>

    ghost function State(): PlotState
      reads this
    {
      PlotState(timeX, seriesX, seriesY, seriesZ, yRange, xRange, samples)
    }

    ghost predicate Valid()
      reads this
    {
      Coherent(State(), ceil, step)
    }

    /** `__init__`: clock 0, empty series, value range `[-ceil, ceil]`. */
    constructor (unit: real, clockStep: real)
      requires unit > 0.0 && clockStep > 0.0
      ensures ceil == unit && step == clockStep
      ensures State() == Start(unit)
      ensures Valid()
    {
      ceil := unit;
      step := clockStep;
      timeX := 0.0;
      seriesX, seriesY, seriesZ := [], [], [];
      yRange := Range(-unit, unit);
      xRange := None;
      samples := [];
      new;
      StartCoherent(unit, clockStep);
    }

    /**
     * `update_data`: advance the clock, append one point per axis, recompute
     * the value range over all points (the new ones included and the ones
     * about to be evicted too), evict the two oldest points of every series
     * when it held more than 50 before the append, and set the trailing time
     * window.
     */
    method UpdateData(data: seq<real>)
      requires Valid() && |data| >= 3
      modifies this
      ensures State() == Step(old(State()), data, ceil, step)
      ensures Valid()
    {
      ghost var next := Step(State(), data, ceil, step);
      StepCoherent(State(), data, ceil, step);
      var t := timeX + step;
      var x := |seriesX|;
      var xs, ys, zs := seriesX + [Point(t, data[0])], seriesY + [Point(t, data[1])], seriesZ + [Point(t, data[2])];
      var extrema := Extrema(xs, ys, zs);
      var r := AxisRange(extrema.0, extrema.1, ceil);
      if x > EvictAbove {
        xs, ys, zs := xs[EvictCount..], ys[EvictCount..], zs[EvictCount..];
      }
      timeX, seriesX, seriesY, seriesZ := t, xs, ys, zs;
      yRange, xRange := r, Some(XWindow(t));
      samples := samples + [data];
      assert State() == next;
    }
  }
}
