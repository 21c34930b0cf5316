/**
 The same pass seen backwards (src/process/DirectionEstimator.cpp:77-124): what grows then shrinks now, and the sizes call
 the opposite direction, as far as the higher bar for exits allows. The guards behind it only ever withdraw a call.
 */
module DirectionReversal {
  import opened Direction
  import P = DirectionPasses

  function Opposite(d: Trend): Trend {
    match d
    case Approaching => Receding
    case Receding => Approaching
    case Unknown => Unknown
  }

  function Reversed(s: seq<real>): (r: seq<real>)
    ensures |r| == |s| && forall i | 0 <= i < |s| :: r[i] == s[|s| - 1 - i]
  {
    seq(|s|, i requires 0 <= i < |s| => s[|s| - 1 - i])
  }

  ghost predicate AllPositive(s: seq<real>) {
    forall i | 0 <= i < |s| :: s[i] > 0.0
  }

  /** One size is larger than all others, at place `k`. */
  ghost predicate PeaksAt(s: seq<real>, k: nat) {
    k < |s| && forall i | 0 <= i < |s| && i != k :: s[i] < s[k]
  }

  /** The settings for which the bars make sense at all. */
  predicate Sane(cfg: Config) {
    cfg.minGrowthRatio > 1.0 && cfg.minTrendDeltaPx > 0.0 && cfg.peakBias > 0.0
  }

  // ----- The averages trade places -----

  lemma {:induction false} SumReversed(s: seq<real>)
    ensures Sum(Reversed(s)) == Sum(s)
  {
    if s == [] {
    } else {
      var n := |s| - 1;
      SumReversed(s[..n]);
      SumPrepend(s[n], Reversed(s[..n]));
      assert Reversed(s) == [s[n]] + Reversed(s[..n]);
    }
  }

  lemma AveragesTradePlaces(window: int, d: seq<real>)
    requires d != []
    ensures AvgFirst(window, Reversed(d)) == AvgLast(window, d)
    ensures AvgLast(window, Reversed(d)) == AvgFirst(window, d)
  {
    hide Sum, TrendWindow;
    var n := TrendWindow(window, |d|);
    var r := Reversed(d);
    assert r[..n] == Reversed(d[|d| - n..]);
    assert r[|d| - n..] == Reversed(d[..n]);
    SumReversed(d[|d| - n..]);
    SumReversed(d[..n]);
  }

  lemma AveragesArePositive(window: int, d: seq<real>)
    requires d != [] && AllPositive(d)
    ensures AvgFirst(window, d) > 0.0 && AvgLast(window, d) > 0.0
  {
    P.AverageIsPositive(window, d);
    P.AverageIsPositive(window, Reversed(d));
    AveragesTradePlaces(window, d);
  }

  // ----- The comparison of averages turns around -----

  lemma AtLeast(x: real, y: real, g: real)
    requires y > 0.0
    ensures x / y >= g <==> x >= g * y
  {
    var q := x / y;
    assert q * y == x;
    assert q >= g ==> q * y >= g * y;
    assert q < g ==> q * y < g * y;
  }

  /** Growth by a factor is shrinking to its inverse. */
  lemma RatioTurns(s0: real, s1: real, g: real)
    requires s0 > 0.0 && s1 > 0.0 && g > 0.0
    ensures s1 / s0 >= g <==> s0 / s1 <= 1.0 / g
  {
    AtLeast(s1, s0, g);
    AtLeast(1.0, g, s0 / s1);
    var q := s0 / s1;
    assert q * s1 == s0;
    assert 1.0 >= q * g ==> s1 >= q * g * s1 == g * s0;
    assert 1.0 < q * g ==> s1 < q * g * s1 == g * s0;
  }

  lemma HigherBar(g: real, bias: real)
    requires g > 1.0 && bias >= 1.0
    ensures g * bias >= g && 0.0 < 1.0 / (g * bias) <= 1.0 / g < 1.0
  {
    AtLeast(1.0, g, 1.0 / (g * bias));
  }

  lemma TrendTurns(cfg: Config, count: nat, s0: real, s1: real)
    requires s0 > 0.0 && s1 > 0.0 && Sane(cfg)
    ensures TrendOf(cfg, count, s0, s1) == Receding ==> TrendOf(cfg, count, s1, s0) == Approaching
    ensures TrendOf(cfg, count, s0, s1) == Unknown ==> TrendOf(cfg, count, s1, s0) != Receding
    ensures cfg.recedingBias <= 1.0 ==> TrendOf(cfg, count, s1, s0) == Opposite(TrendOf(cfg, count, s0, s1))
  {
    var g, bias := cfg.minGrowthRatio, RecedingBias(cfg);
    HigherBar(g, bias);
    RatioTurns(s0, s1, g);
    RatioTurns(s1, s0, g);
    RatioTurns(s1, s0, g * bias);
    RatioTurns(s0, s1, g * bias);
    P.Distribute(cfg.minTrendDeltaPx, 1.0, bias - 1.0);
    AtLeast(s1, s0, 1.0);
    AtLeast(s0, s1, 1.0);
  }

  // ----- The peak moves to the other side -----

  lemma {:induction false} PeakMoves(d: seq<real>, k: nat)
    requires PeaksAt(d, k)
    ensures PeakIndex(d, |d|) == k && PeakIndex(Reversed(d), |d|) == |d| - 1 - k
  {
    OnlyPeak(d, k);
    var r, l := Reversed(d), |d| - 1 - k;
    forall i | 0 <= i < |r| && i != l ensures r[i] < r[l] {
      assert r[i] == d[|d| - 1 - i] && r[l] == d[k];
    }
    OnlyPeak(r, l);
  }

  lemma {:induction false} OnlyPeak(d: seq<real>, k: nat)
    requires PeaksAt(d, k)
    ensures PeakIndex(d, |d|) == k
  {
    hide PeakIndex;
    assert d[k] <= d[PeakIndex(d, |d|)];
  }

  lemma {:induction false} SmallestStays(d: seq<real>)
    requires d != []
    ensures Smallest(Reversed(d), |d|) == Smallest(d, |d|)
  {
    SmallestIsSmallest(d, Reversed(d));
    SmallestIsSmallest(Reversed(d), d);
  }

  lemma {:induction false} SmallestIsSmallest(d: seq<real>, r: seq<real>)
    requires d != [] && |r| == |d| && forall i | 0 <= i < |d| :: d[i] == r[|d| - 1 - i]
    ensures Smallest(r, |r|) <= Smallest(d, |d|)
  {
    hide Smallest;
    assert Smallest(d, |d|) in d[..|d|];
    var i: nat :| i < |d| && d[i] == Smallest(d, |d|);
    assert Smallest(r, |r|) <= r[|d| - 1 - i];
  }

  lemma Complement(x: real, n: real)
    requires n > 0.0
    ensures (n - x) / n == 1.0 - x / n
  {
    var q, g := (n - x) / n, 1.0 - x / n;
    P.Distribute(n, 1.0, -(x / n));
    assert q * n == n - x == g * n;
    assert q < g ==> q * n < g * n;
    assert q > g ==> q * n > g * n;
  }

  lemma PeakTurns(cfg: Config, count: nat, k: nat, mx: real, mn: real)
    requires k < count && Sane(cfg)
    ensures PeakTrend(cfg, count, k, mx, mn) == Receding ==> PeakTrend(cfg, count, count - 1 - k, mx, mn) == Approaching
    ensures cfg.recedingBias <= 1.0 ==>
      PeakTrend(cfg, count, count - 1 - k, mx, mn) == Opposite(PeakTrend(cfg, count, k, mx, mn))
  {
    if count > 1 {
      var n := (count - 1) as real;
      assert (count - 1 - k) as real == n - k as real;
      Complement(k as real, n);
    }
    P.Distribute(cfg.peakBias, 1.0, RecedingBias(cfg) - 1.0);
  }

  // ----- The whole call -----

  /** A pass that calls an exit calls an entry when seen backwards; and where exits have no higher bar, every call turns
      into its opposite. */
  lemma BackwardsIsOpposite(cfg: Config, d: seq<real>, k: nat)
    requires Sane(cfg) && AllPositive(d) && PeaksAt(d, k)
    ensures AvgFirst(cfg.window, d) > 0.0 && AvgFirst(cfg.window, Reversed(d)) > 0.0
    ensures Raw(cfg, d) == Receding ==> Raw(cfg, Reversed(d)) == Approaching
    ensures cfg.recedingBias <= 1.0 ==> Raw(cfg, Reversed(d)) == Opposite(Raw(cfg, d))
  {
    hide AvgFirst, AvgLast, TrendOf, PeakTrend, PeakIndex, Smallest, Sane;
    AveragesArePositive(cfg.window, d);
    AveragesTradePlaces(cfg.window, d);
    TrendTurns(cfg, |d|, AvgFirst(cfg.window, d), AvgLast(cfg.window, d));
    PeakMoves(d, k);
    SmallestStays(d);
    PeakTurns(cfg, |d|, k, d[k], Smallest(d, |d|));
  }

  /** Beyond that, the guards on vertical drift, sample count and nearness only withdraw a call, never turn it. */
  lemma GuardsOnlyWithdraw(cfg: Config, sizes: seq<real>, ys: seq<real>)
    requires sizes != [] && |sizes| == |ys| && AllPositive(sizes)
    ensures AvgFirst(cfg.window, sizes) > 0.0
    ensures Verdict(cfg, sizes, ys) in {Unknown, Raw(cfg, sizes)}
  {
    hide AvgFirst, AvgLast, Raw, PeakIndex;
    AveragesArePositive(cfg.window, sizes);
  }
}
