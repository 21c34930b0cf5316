/**
 What the verdict on one pass means in the sizes alone (src/process/DirectionEstimator.cpp:77-151): sums over the two ends of
 the pass, the place of its peak, and the guards, without ratios and averages. And from it, by which sighting a steady but
 slow change has been called.
 */
module DirectionLaw {
  import opened Direction
  import opened Numbers
  import P = DirectionPasses
  import R = DirectionReversal

  predicate Reaches(y: real, g: real, x: real) { y >= g * x }

  predicate Within(y: real, g: real, x: real) { y <= g * x }

  function Total(s: seq<real>): real {
    if s == [] then 0.0 else s[0] + Total(s[1..])
  }

  lemma {:induction false} TotalIsSum(s: seq<real>)
    ensures Total(s) == Sum(s)
  {
    if s == [] {
    } else {
      TotalIsSum(s[1..]);
      SumPrepend(s[0], s[1..]);
      assert s == [s[0]] + s[1..];
    }
  }

  /** How many samples count at each end. */
  function Width(cfg: Config, count: nat): (n: nat)
    ensures 1 <= n && (count > 0 ==> n <= count) && (count > 1 ==> 2 * n <= count)
  {
    Min(Max(Max(cfg.window, count / 4), 1), Max(count / 2, 1))
  }

  function Start(cfg: Config, d: seq<real>): real
    requires d != []
  {
    Total(d[..Width(cfg, |d|)])
  }

  function End(cfg: Config, d: seq<real>): real
    requires d != []
  {
    Total(d[|d| - Width(cfg, |d|)..])
  }

  function Bias(cfg: Config): real {
    if cfg.recedingBias > 1.0 then cfg.recedingBias else 1.0
  }

  /** The higher bars for an exit. */
  function ExitRatio(cfg: Config): real { cfg.minGrowthRatio * Bias(cfg) }

  function ExitDelta(cfg: Config): real { cfg.minTrendDeltaPx * Bias(cfg) }

  function ExitPlace(cfg: Config): real { 0.5 - cfg.peakBias * Bias(cfg) }

  /** Grown by the ratio; or, with enough samples, larger by the small net change that a slow vehicle shows. */
  predicate Grown(cfg: Config, d: seq<real>)
    requires d != []
  {
    var n := Width(cfg, |d|) as real;
    Reaches(End(cfg, d), cfg.minGrowthRatio, Start(cfg, d)) ||
    (|d| >= cfg.trendMinSightings && End(cfg, d) > Start(cfg, d) &&
     Reaches(End(cfg, d) - Start(cfg, d), n, cfg.minTrendDeltaPx))
  }

  /** The same for shrinking, with the higher bars. */
  predicate Shrunk(cfg: Config, d: seq<real>)
    requires d != []
  {
    var n := Width(cfg, |d|) as real;
    Reaches(Start(cfg, d), ExitRatio(cfg), End(cfg, d)) ||
    (|d| >= cfg.trendMinSightings && End(cfg, d) <= Start(cfg, d) &&
     Reaches(Start(cfg, d) - End(cfg, d), n, ExitDelta(cfg)))
  }

  /** The first largest sample is number `k`, neither the first nor the last, and some sample is small enough against it. */
  ghost predicate PeaksInside(cfg: Config, d: seq<real>, k: int) {
    0 < k < |d| - 1 && (forall i | 0 <= i < k :: d[i] < d[k]) && (forall i | k < i < |d| :: d[i] <= d[k]) &&
    exists i :: 0 <= i < |d| && d[k] >= cfg.peakMinSpread * d[i]
  }

  ghost predicate LatePeak(cfg: Config, d: seq<real>) {
    exists k :: PeaksInside(cfg, d, k) && Reaches(k as real, 0.5 + cfg.peakBias, (|d| - 1) as real)
  }

  ghost predicate EarlyPeak(cfg: Config, d: seq<real>) {
    exists k :: PeaksInside(cfg, d, k) && Within(k as real, ExitPlace(cfg), (|d| - 1) as real)
  }

  /** Enough reads for an exit, and the newest well below the largest. */
  predicate MayExit(cfg: Config, d: seq<real>)
    requires d != []
  {
    (cfg.recedingMinSightings <= cfg.minSightings || |d| >= cfg.recedingMinSightings) &&
    exists i :: 0 <= i < |d| && d[|d| - 1] < cfg.exitPeakGuardRatio * d[i]
  }

  /** How far the plate has drifted down, summed over the samples of an end. */
  function Drift(cfg: Config, ys: seq<real>): real
    requires ys != []
  {
    End(cfg, ys) - Start(cfg, ys)
  }

  ghost predicate CallsEntry(cfg: Config, d: seq<real>, ys: seq<real>)
    requires d != [] && |ys| == |d|
  {
    (Grown(cfg, d) || (!Shrunk(cfg, d) && |d| >= cfg.minSightings && LatePeak(cfg, d))) &&
    (cfg.requireYAgree ==> Drift(cfg, ys) >= Width(cfg, |d|) as real * cfg.minYShiftPx)
  }

  ghost predicate CallsExit(cfg: Config, d: seq<real>, ys: seq<real>)
    requires d != [] && |ys| == |d|
  {
    (Shrunk(cfg, d) || (!Grown(cfg, d) && |d| >= cfg.minSightings && EarlyPeak(cfg, d) && !LatePeak(cfg, d))) &&
    (cfg.requireYAgree ==> Drift(cfg, ys) <= -(Width(cfg, |d|) as real * cfg.minYShiftPx)) && MayExit(cfg, d)
  }

  // ----- The verdict is exactly that -----

  lemma AveragesAreTotals(cfg: Config, d: seq<real>)
    requires d != []
    ensures var n := Width(cfg, |d|) as real;
      AvgFirst(cfg.window, d) == Start(cfg, d) / n && AvgLast(cfg.window, d) == End(cfg, d) / n
  {
    hide Sum, Total;
    var n := Width(cfg, |d|);
    TotalIsSum(d[..n]);
    TotalIsSum(d[|d| - n..]);
  }

  /** Comparing x / n with y / n and their quotient with a bar. */
  lemma Scaled(x: real, y: real, n: real, g: real)
    requires n > 0.0 && x > 0.0
    ensures x / n > 0.0 && ((y / n) / (x / n) >= g <==> y >= g * x)
    ensures y / n > x / n <==> y > x
  {
    var p, q := x / n, y / n;
    assert p * n == x && q * n == y;
    assert p > 0.0;
    R.AtLeast(q, p, g);
    assert q >= g * p ==> q * n >= g * p * n;
    assert q < g * p ==> q * n < g * p * n;
    assert g * p * n == g * x;
  }

  lemma Difference(x: real, y: real, n: real, c: real)
    requires n > 0.0
    ensures y / n - x / n == (y - x) / n
    ensures y / n - x / n >= c <==> y - x >= n * c
  {
    var p, q := x / n, y / n;
    assert p * n == x && q * n == y;
    P.Distribute(n, q, -p);
    R.AtLeast(y - x, n, c);
    assert (q - p) * n == y - x;
  }

  lemma SmallRatio(x: real, y: real, n: real, h: real)
    requires n > 0.0 && x > 0.0 && y > 0.0 && h > 0.0
    ensures x / n > 0.0 && ((y / n) / (x / n) <= 1.0 / h <==> h * y <= x)
  {
    Scaled(x, y, n, 1.0);
    Scaled(y, x, n, h);
    R.RatioTurns(y / n, x / n, h);
  }

  lemma BiasIsOne(cfg: Config)
    requires cfg.minGrowthRatio > 1.0
    ensures RecedingBias(cfg) == Bias(cfg) >= 1.0 && ExitRatio(cfg) > 1.0
    ensures ExitRatio(cfg) == cfg.minGrowthRatio * RecedingBias(cfg)
    ensures ExitDelta(cfg) == cfg.minTrendDeltaPx * RecedingBias(cfg)
  {
    P.Distribute(cfg.minGrowthRatio, 1.0, Bias(cfg) - 1.0);
  }

  lemma {:induction false} TotalPositive(s: seq<real>)
    requires s != [] && R.AllPositive(s)
    ensures Total(s) > 0.0
  {
    TotalIsSum(s);
    P.SumPositive(s);
  }

  lemma EndsPositive(cfg: Config, d: seq<real>)
    requires d != [] && R.AllPositive(d)
    ensures Start(cfg, d) > 0.0 && End(cfg, d) > 0.0
  {
    hide Total;
    TotalPositive(d[..Width(cfg, |d|)]);
    TotalPositive(d[|d| - Width(cfg, |d|)..]);
  }

  lemma TrendCases(cfg: Config, count: nat, s0: real, s1: real)
    requires s0 > 0.0 && cfg.minGrowthRatio > 1.0
    ensures var grown, shrunk := s1 / s0 >= cfg.minGrowthRatio, s1 / s0 <= 1.0 / ExitRatio(cfg);
      (TrendOf(cfg, count, s0, s1) == Approaching <==>
       grown || (!shrunk && count >= cfg.trendMinSightings && s1 > s0 && s1 - s0 >= cfg.minTrendDeltaPx)) &&
      (TrendOf(cfg, count, s0, s1) == Receding <==>
       !grown &&
       (shrunk ||
        (count >= cfg.trendMinSightings && s1 <= s0 && s0 - s1 >= cfg.minTrendDeltaPx &&
         s0 - s1 >= ExitDelta(cfg))))
  {
    BiasIsOne(cfg);
  }

  lemma ReachesBeyond(y: real, g: real, x: real)
    requires x > 0.0 && g > 1.0
    ensures Reaches(y, g, x) ==> y > x
  {
    Larger(g, x);
  }

  lemma AveragesReach(x: real, y: real, n: real, g: real, h: real)
    requires n > 0.0 && x > 0.0 && y > 0.0 && g > 1.0 && h > 1.0
    ensures x / n > 0.0 && ((y / n) / (x / n) >= g <==> Reaches(y, g, x))
    ensures (y / n) / (x / n) <= 1.0 / h <==> Reaches(x, h, y)
    ensures y / n > x / n <==> y > x
  {
    Scaled(x, y, n, g);
    SmallRatio(x, y, n, h);
  }

  /** The comparison of averages with plain numbers for the two sums. */
  lemma TrendMeans(cfg: Config, count: nat, n: real, x: real, y: real)
    requires n > 0.0 && x > 0.0 && y > 0.0 && cfg.minGrowthRatio > 1.0
    ensures x / n > 0.0
    ensures TrendOf(cfg, count, x / n, y / n) == Approaching <==>
      Reaches(y, cfg.minGrowthRatio, x) ||
      (count >= cfg.trendMinSightings && y > x && Reaches(y - x, n, cfg.minTrendDeltaPx))
    ensures TrendOf(cfg, count, x / n, y / n) == Receding <==>
      Reaches(x, ExitRatio(cfg), y) ||
      (count >= cfg.trendMinSightings && y <= x && Reaches(x - y, n, ExitDelta(cfg)))
  {
    hide TrendOf, Bias, Reaches, ExitRatio, ExitDelta;
    BiasIsOne(cfg);
    AveragesReach(x, y, n, cfg.minGrowthRatio, ExitRatio(cfg));
    TrendCases(cfg, count, x / n, y / n);
    Differences(cfg, x, y, n);
    ReachesBeyond(y, cfg.minGrowthRatio, x);
    ReachesBeyond(x, ExitRatio(cfg), y);
  }

  lemma Differences(cfg: Config, x: real, y: real, n: real)
    requires n > 0.0
    ensures y / n - x / n >= cfg.minTrendDeltaPx <==> Reaches(y - x, n, cfg.minTrendDeltaPx)
    ensures y <= x ==>
      (x / n - y / n >= cfg.minTrendDeltaPx && x / n - y / n >= ExitDelta(cfg) <==> Reaches(x - y, n, ExitDelta(cfg)))
  {
    Difference(x, y, n, cfg.minTrendDeltaPx);
    Difference(y, x, n, cfg.minTrendDeltaPx);
    Difference(y, x, n, ExitDelta(cfg));
    HigherDelta(x, y, n, cfg.minTrendDeltaPx, Bias(cfg));
  }

  lemma Larger(g: real, x: real)
    requires g > 1.0 && x > 0.0
    ensures g * x > x
  {
  }

  /** A net loss that clears the higher bar clears the lower one. */
  lemma HigherDelta(x: real, y: real, n: real, delta: real, b: real)
    requires n > 0.0 && b >= 1.0
    ensures y <= x && x - y >= n * (delta * b) ==> x - y >= n * delta
  {
    P.Distribute(delta, 1.0, b - 1.0);
    if delta >= 0.0 {
      assert delta * b >= delta;
      assert n * (delta * b) >= n * delta;
    } else {
      assert n * delta <= 0.0;
    }
  }

  // ----- The peak -----

  lemma AtMost(x: real, y: real, g: real)
    requires y > 0.0
    ensures x / y <= g <==> x <= g * y
  {
    var q := x / y;
    assert q * y == x;
    assert q <= g ==> q * y <= g * y;
    assert q > g ==> q * y > g * y;
  }

  /** Against the smallest sample the spread is largest. */
  lemma {:induction false} SpreadMeans(cfg: Config, d: seq<real>, mx: real)
    requires d != [] && R.AllPositive(d) && mx > 0.0
    ensures Smallest(d, |d|) > 0.0
    ensures mx / Smallest(d, |d|) >= cfg.peakMinSpread <==> exists i :: 0 <= i < |d| && mx >= cfg.peakMinSpread * d[i]
  {
    hide Smallest;
    var mn, c := Smallest(d, |d|), cfg.peakMinSpread;
    var i: nat :| i < |d| && d[..|d|][i] == mn;
    assert d[i] == mn;
    R.AtLeast(mx, mn, c);
    forall j | 0 <= j < |d| && mx >= c * d[j] ensures mx >= c * mn {
      SmallerProduct(c, mn, d[j], mx);
    }
  }

  lemma SmallerProduct(c: real, x: real, y: real, z: real)
    requires 0.0 < x <= y && z > 0.0 && z >= c * y
    ensures z >= c * x
  {
    if c >= 0.0 {
      assert c * x <= c * y;
    } else {
      assert c * x <= 0.0;
    }
  }

  lemma {:induction false} PeakIsUnique(cfg: Config, d: seq<real>, k: int)
    requires d != [] && PeaksInside(cfg, d, k)
    ensures k == PeakIndex(d, |d|)
  {
    hide PeakIndex;
    var p := PeakIndex(d, |d|);
    assert d[k] <= d[p];
  }

  lemma PlaceMeans(x: real, y: real, g: real)
    requires y > 0.0
    ensures (x / y >= g <==> Reaches(x, g, y)) && (x / y <= g <==> Within(x, g, y))
  {
    R.AtLeast(x, y, g);
    AtMost(x, y, g);
  }

  lemma {:induction false} PeakIsLargest(d: seq<real>)
    requires d != []
    ensures var k := PeakIndex(d, |d|);
      (forall i | 0 <= i < k :: d[i] < d[k]) && (forall i | k < i < |d| :: d[i] <= d[k])
  {
  }

  lemma {:induction false} SpreadExists(cfg: Config, d: seq<real>, k: nat)
    requires 0 < k < |d| - 1 && R.AllPositive(d) && k == PeakIndex(d, |d|)
    ensures var mn := Smallest(d, |d|);
      mn > 0.0 && (d[k] / mn >= cfg.peakMinSpread <==> PeaksInside(cfg, d, k))
  {
    hide PeakIndex, Smallest;
    PeakIsLargest(d);
    var wide := exists i :: 0 <= i < |d| && d[k] >= cfg.peakMinSpread * d[i];
    assert PeaksInside(cfg, d, k) <==> wide;
    hide PeaksInside;
    SpreadMeans(cfg, d, d[k]);
  }

  lemma {:induction false} PeakPlace(cfg: Config, d: seq<real>, k: nat)
    requires 0 < k < |d| - 1 && R.AllPositive(d) && k == PeakIndex(d, |d|)
    ensures var dir := PeakTrend(cfg, |d|, k, d[k], Smallest(d, |d|));
      var late := Reaches(k as real, 0.5 + cfg.peakBias, (|d| - 1) as real);
      var early := Within(k as real, ExitPlace(cfg), (|d| - 1) as real);
      (dir == Approaching <==> PeaksInside(cfg, d, k) && late) &&
      (dir == Receding <==> PeaksInside(cfg, d, k) && early && !late)
  {
    hide PeakIndex, Smallest, PeaksInside, Reaches, Within, ExitPlace;
    BiasIs(cfg);
    SpreadExists(cfg, d, k);
    PlaceMeans(k as real, (|d| - 1) as real, 0.5 + cfg.peakBias);
    PlaceMeans(k as real, (|d| - 1) as real, ExitPlace(cfg));
  }

  lemma {:induction false} OnlyInside(cfg: Config, d: seq<real>)
    requires d != []
    ensures forall j | PeaksInside(cfg, d, j) :: j == PeakIndex(d, |d|) && 0 < j < |d| - 1
  {
    forall j | PeaksInside(cfg, d, j) ensures j == PeakIndex(d, |d|) {
      PeakIsUnique(cfg, d, j);
    }
  }

  lemma {:induction false} PeakMeans(cfg: Config, d: seq<real>)
    requires d != [] && R.AllPositive(d)
    ensures var k := PeakIndex(d, |d|);
      var dir := PeakTrend(cfg, |d|, k, d[k], Smallest(d, |d|));
      (dir == Approaching <==> LatePeak(cfg, d)) && (dir == Receding <==> EarlyPeak(cfg, d) && !LatePeak(cfg, d))
  {
    hide PeakIndex, Smallest, PeaksInside, Reaches, Within, PeakTrend, ExitPlace;
    var k := PeakIndex(d, |d|);
    OnlyInside(cfg, d);
    if 0 < k < |d| - 1 {
      PeakPlace(cfg, d, k);
    } else {
      NoInnerPeak(cfg, d, k);
    }
  }

  lemma {:induction false} NoInnerPeak(cfg: Config, d: seq<real>, k: nat)
    requires k < |d| && !(0 < k < |d| - 1)
    ensures PeakTrend(cfg, |d|, k, d[k], Smallest(d, |d|)) == Unknown
  {
  }

  lemma BiasIs(cfg: Config)
    ensures RecedingBias(cfg) == Bias(cfg) >= 1.0 && ExitPlace(cfg) == 0.5 - cfg.peakBias * RecedingBias(cfg)
  {
  }

  // ----- The whole verdict -----

  lemma NotBoth(cfg: Config, d: seq<real>)
    requires d != [] && R.AllPositive(d) && cfg.minGrowthRatio > 1.0
    ensures !(Grown(cfg, d) && Shrunk(cfg, d))
  {
    hide Start, End, Reaches, ExitRatio, ExitDelta;
    EndsPositive(cfg, d);
    BiasIsOne(cfg);
    ReachesBeyond(End(cfg, d), cfg.minGrowthRatio, Start(cfg, d));
    ReachesBeyond(Start(cfg, d), ExitRatio(cfg), End(cfg, d));
  }

  lemma TrendIsNet(cfg: Config, d: seq<real>)
    requires d != [] && R.AllPositive(d) && cfg.minGrowthRatio > 1.0
    ensures var s0, s1 := AvgFirst(cfg.window, d), AvgLast(cfg.window, d);
      s0 > 0.0 && (TrendOf(cfg, |d|, s0, s1) == Approaching <==> Grown(cfg, d)) &&
      (TrendOf(cfg, |d|, s0, s1) == Receding <==> Shrunk(cfg, d))
  {
    hide Start, End, AvgFirst, AvgLast, TrendOf, Width, ExitRatio, ExitDelta, Reaches;
    EndsPositive(cfg, d);
    AveragesAreTotals(cfg, d);
    TrendMeans(cfg, |d|, Width(cfg, |d|) as real, Start(cfg, d), End(cfg, d));
  }

  /** Sizes alone, before the guards. */
  lemma RawMeans(cfg: Config, d: seq<real>)
    requires d != [] && R.AllPositive(d) && cfg.minGrowthRatio > 1.0
    ensures AvgFirst(cfg.window, d) > 0.0
    ensures Raw(cfg, d) == Approaching <==>
      Grown(cfg, d) || (!Shrunk(cfg, d) && |d| >= cfg.minSightings && LatePeak(cfg, d))
    ensures Raw(cfg, d) == Receding <==>
      Shrunk(cfg, d) || (!Grown(cfg, d) && |d| >= cfg.minSightings && EarlyPeak(cfg, d) && !LatePeak(cfg, d))
  {
    hide AvgFirst, AvgLast, TrendOf, PeakTrend, PeakIndex, Smallest, LatePeak, EarlyPeak, Grown, Shrunk;
    TrendIsNet(cfg, d);
    PeakMeans(cfg, d);
    NotBoth(cfg, d);
  }

  lemma {:induction false} ExitMeans(cfg: Config, d: seq<real>)
    requires d != [] && R.AllPositive(d)
    ensures var mx := d[PeakIndex(d, |d|)];
      mx > 0.0 && (d[|d| - 1] < cfg.exitPeakGuardRatio * mx <==>
        exists i :: 0 <= i < |d| && d[|d| - 1] < cfg.exitPeakGuardRatio * d[i])
  {
    hide PeakIndex;
    var c, k := cfg.exitPeakGuardRatio, PeakIndex(d, |d|);
    forall i | 0 <= i < |d| && d[|d| - 1] < c * d[i] ensures d[|d| - 1] < c * d[k] {
      assert d[i] <= d[k];
      assert c > 0.0;
      assert c * d[i] <= c * d[k];
    }
  }

  lemma DriftMeans(cfg: Config, ys: seq<real>)
    requires ys != []
    ensures var n, dy := Width(cfg, |ys|) as real, AvgLast(cfg.window, ys) - AvgFirst(cfg.window, ys);
      (dy >= cfg.minYShiftPx <==> Drift(cfg, ys) >= n * cfg.minYShiftPx) &&
      (dy <= -cfg.minYShiftPx <==> Drift(cfg, ys) <= -(n * cfg.minYShiftPx))
  {
    hide Start, End, AvgFirst, AvgLast;
    var n := Width(cfg, |ys|) as real;
    AveragesAreTotals(cfg, ys);
    Difference(Start(cfg, ys), End(cfg, ys), n, cfg.minYShiftPx);
    Difference(End(cfg, ys), Start(cfg, ys), n, cfg.minYShiftPx);
  }

  /** The verdict, both ways, for all passes and all settings that ask for growth at all. */
  lemma VerdictExactly(cfg: Config, d: seq<real>, ys: seq<real>)
    requires d != [] && |ys| == |d| && R.AllPositive(d) && cfg.minGrowthRatio > 1.0
    ensures Verdict(cfg, d, ys) == Approaching <==> CallsEntry(cfg, d, ys)
    ensures Verdict(cfg, d, ys) == Receding <==> CallsExit(cfg, d, ys)
  {
    hide Start, End, AvgFirst, AvgLast, Raw, PeakIndex, LatePeak, EarlyPeak, Grown, Shrunk, Drift, Width;
    RawMeans(cfg, d);
    NotBoth(cfg, d);
    ExitMeans(cfg, d);
    DriftMeans(cfg, ys);
  }
}
