/**
 Entering or leaving, from plate sizes alone (src/process/DirectionEstimator.cpp).

 A track collects the sightings of one pass. `Step` is one sighting as a function from track to track and event;
 class `DirectionEstimator` does the same work in place, with the loops of the source. Sizes are real numbers,
 times are integers.
 */
module Direction {
  import opened Numbers

  datatype Trend = Unknown | Approaching | Receding

  datatype Config = Config(
    minSightings: int,
    minGrowthRatio: real,
    trackGapMs: int,
    cooldownMs: int,
    requireYAgree: bool,
    minYShiftPx: real,
    window: int,
    trendMinSightings: int,
    minTrendDeltaPx: real,
    confirmSightings: int,
    confirmAgreeing: int,
    peakMinSpread: real,
    peakBias: real,
    recedingBias: real,
    recedingMinSightings: int,
    exitPeakGuardRatio: real,
    announceHoldSightings: int)

  datatype Track = Track(
    sizes: seq<real>,
    ys: seq<real>,
    lastTs: int,
    lastInterval: int,
    reported: Trend,
    pendingDir: Trend,
    agree: nat,
    decidedTs: int,
    locked: bool)

  datatype Sighting = Sighting(size: real, y: real, ts: int)

  const MAX_SAMPLES := 600

  const FRESH_TRACK := Track([], [], 0, 0, Unknown, Unknown, 0, 0, false)

  // ----- Averages and extremes -----

  function Abs(x: real): real { if x >= 0.0 then x else -x }

  /** Width of the averaging window at each end of the pass; the two windows never overlap. */
  function TrendWindow(window: int, size: nat): (n: nat)
    ensures 1 <= n
    ensures size > 0 ==> n <= size
    ensures size > 1 ==> 2 * n <= size
  {
    var half := Max(1, size / 2);
    Min(Max(Max(window, size / 4), 1), half)
  }

  function Sum(s: seq<real>): real {
    if s == [] then 0.0 else Sum(s[..|s| - 1]) + s[|s| - 1]
  }

  function AvgFirst(window: int, d: seq<real>): real
    requires d != []
  {
    var n := TrendWindow(window, |d|);
    Sum(d[..n]) / n as real
  }

  function AvgLast(window: int, d: seq<real>): real
    requires d != []
  {
    var n := TrendWindow(window, |d|);
    Sum(d[|d| - n..]) / n as real
  }

  /** Index of the first largest value among the first `n`. */
  function PeakIndex(s: seq<real>, n: nat): (k: nat)
    requires 1 <= n <= |s|
    ensures k < n
    ensures forall i | 0 <= i < n :: s[i] <= s[k]
    ensures forall i | 0 <= i < k :: s[i] < s[k]
  {
    if n == 1 then 0
    else
      var k := PeakIndex(s, n - 1);
      if s[n - 1] > s[k] then n - 1 else k
  }

  function Smallest(s: seq<real>, n: nat): (v: real)
    requires 1 <= n <= |s|
    ensures v in s[..n]
    ensures forall i | 0 <= i < n :: v <= s[i]
  {
    if n == 1 then s[0]
    else
      var v := Smallest(s, n - 1);
      assert v in s[..n - 1];
      assert s[..n] == s[..n - 1] + [s[n - 1]];
      if s[n - 1] < v then s[n - 1] else v
  }

  // ----- The verdict on one set of samples -----

  function RecedingBias(cfg: Config): real {
    if 1.0 < cfg.recedingBias then cfg.recedingBias else 1.0
  }

  /** ratio <= 1 / (minGrowthRatio * bias); a zero divisor makes the bar infinite. */
  predicate ShrankEnough(cfg: Config, ratio: real) {
    var divisor := cfg.minGrowthRatio * RecedingBias(cfg);
    divisor == 0.0 || ratio <= 1.0 / divisor
  }

  /** First-against-last comparison, with the slow-vehicle path. */
  function TrendOf(cfg: Config, count: nat, s0: real, s1: real): Trend
    requires s0 > 0.0
  {
    var ratio := s1 / s0;
    if ratio >= cfg.minGrowthRatio then Approaching
    else if ShrankEnough(cfg, ratio) then Receding
    else if count >= cfg.trendMinSightings && Abs(s1 - s0) >= cfg.minTrendDeltaPx then
      if s1 > s0 then Approaching
      else if Abs(s1 - s0) >= cfg.minTrendDeltaPx * RecedingBias(cfg) then Receding
      else Unknown
    else Unknown
  }

  /** Where the largest plate sits in the pass; only an interior peak decides. */
  function PeakTrend(cfg: Config, count: nat, maxIdx: nat, mx: real, mn: real): Trend
    requires count > 0
  {
    if 0 < maxIdx && maxIdx + 1 < count && mn > 0.0 && mx / mn >= cfg.peakMinSpread then
      var rel := maxIdx as real / (count - 1) as real;
      if rel >= 0.5 + cfg.peakBias then Approaching
      else if rel <= 0.5 - cfg.peakBias * RecedingBias(cfg) then Receding
      else Unknown
    else Unknown
  }

  function EnoughForExit(cfg: Config, count: nat, dir: Trend): Trend {
    if dir == Receding && cfg.recedingMinSightings > cfg.minSightings && count < cfg.recedingMinSightings
    then Unknown else dir
  }

  function VerticalAgrees(cfg: Config, dir: Trend, dy: real): Trend {
    if dir == Approaching && dy < cfg.minYShiftPx then Unknown
    else if dir == Receding && dy > -cfg.minYShiftPx then Unknown
    else dir
  }

  /** No exit while the newest plate is at or near the largest of the pass. */
  function ExitGuard(cfg: Config, dir: Trend, newest: real, mx: real): Trend {
    if dir == Receding && mx > 0.0 && newest >= cfg.exitPeakGuardRatio * mx then Unknown else dir
  }

  ghost function Raw(cfg: Config, sizes: seq<real>): Trend
    requires sizes != [] && AvgFirst(cfg.window, sizes) > 0.0
  {
    var dir := TrendOf(cfg, |sizes|, AvgFirst(cfg.window, sizes), AvgLast(cfg.window, sizes));
    if dir == Unknown && |sizes| >= cfg.minSightings then
      var k := PeakIndex(sizes, |sizes|);
      PeakTrend(cfg, |sizes|, k, sizes[k], Smallest(sizes, |sizes|))
    else dir
  }

  ghost function Verdict(cfg: Config, sizes: seq<real>, ys: seq<real>): Trend
    requires sizes != [] && |sizes| == |ys|
  {
    if AvgFirst(cfg.window, sizes) <= 0.0 then Unknown
    else
      var d1 := EnoughForExit(cfg, |sizes|, Raw(cfg, sizes));
      var d2 := if d1 != Unknown && cfg.requireYAgree
                then VerticalAgrees(cfg, d1, AvgLast(cfg.window, ys) - AvgFirst(cfg.window, ys))
                else d1;
      ExitGuard(cfg, d2, sizes[|sizes| - 1], sizes[PeakIndex(sizes, |sizes|)])
  }

  // ----- One sighting -----

  /** A gap beyond any cadence, a gap well beyond the learnt cadence, or an elapsed cooldown starts a new pass. */
  function GapResets(cfg: Config, t: Track, ts: int): bool {
    t.lastTs != 0 &&
    (ts - t.lastTs > 4 * cfg.trackGapMs || (t.lastInterval > 0 && ts - t.lastTs > 3 * t.lastInterval))
  }

  function Resets(cfg: Config, t: Track, ts: int): bool {
    GapResets(cfg, t, ts) || (t.locked && ts - t.decidedTs > cfg.cooldownMs)
  }

  /** The track after the clock of the sighting has been taken in. */
  function Arrive(cfg: Config, t: Track, ts: int): Track {
    if Resets(cfg, t, ts) then FRESH_TRACK.(lastTs := ts)
    else t.(lastTs := ts, lastInterval := if t.lastTs != 0 then ts - t.lastTs else t.lastInterval)
  }

  /** The track after the sample has been taken in; the oldest sample goes when there are too many. */
  function Record(t: Track, size: real, y: real): Track {
    if size > 0.0 then
      var sizes, ys := t.sizes + [size], t.ys + [y];
      if |sizes| > MAX_SAMPLES && ys != [] then t.(sizes := sizes[1..], ys := ys[1..])
      else t.(sizes := sizes, ys := ys)
    else t
  }

  /** Agreement streak, backstop, lock, and the event that results. */
  function Commit(cfg: Config, t: Track, dir: Trend, ts: int): (Track, Trend) {
    var u := if dir == t.pendingDir then t.(agree := t.agree + 1) else t.(pendingDir := dir, agree := 1);
    if u.agree >= cfg.confirmAgreeing then
      (u.(locked := true, decidedTs := ts, reported := dir), if dir != u.reported then dir else Unknown)
    else if |u.sizes| >= cfg.confirmSightings then
      if u.reported != Unknown then (u.(locked := true, decidedTs := ts), Unknown)
      else (u.(locked := true, decidedTs := ts, reported := dir), dir)
    else (u.(reported := dir), if dir != u.reported then dir else Unknown)
  }

  ghost predicate ValidTrack(t: Track) {
    |t.sizes| == |t.ys| <= MAX_SAMPLES && forall i | 0 <= i < |t.sizes| :: t.sizes[i] > 0.0
  }

  /** What the source asks of its callers: with no sample at hand and no positive minimum count it would average an
      empty history. */
  predicate Accepts(cfg: Config, t: Track, s: Sighting) {
    var u := Arrive(cfg, t, s.ts);
    s.size > 0.0 || cfg.minSightings >= 1 || u.locked || u.sizes != []
  }

  /** One sighting; an empty history, which no accepted call averages, decides nothing. */
  ghost function Step(cfg: Config, t: Track, s: Sighting): (Track, Trend)
    requires ValidTrack(t)
  {
    var arrived := Arrive(cfg, t, s.ts);
    if arrived.locked then (arrived, Unknown)
    else
      var u := Record(arrived, s.size, s.y);
      if u.sizes == [] || |u.sizes| < cfg.minSightings then (u, Unknown)
      else
        var dir := Verdict(cfg, u.sizes, u.ys);
        if dir == Unknown then (u, Unknown) else Commit(cfg, u, dir, s.ts)
  }

  lemma StepKeepsTrackValid(cfg: Config, t: Track, s: Sighting)
    requires ValidTrack(t)
    ensures ValidTrack(Step(cfg, t, s).0)
  {
    hide Verdict;
  }

  /** The track of a key; an unseen key has a fresh one. */
  function TrackIn(tracks: map<string, Track>, key: string): Track {
    if key in tracks then tracks[key] else FRESH_TRACK
  }

  // ----- The class -----

  class DirectionEstimator {
    var cfg: Config
    var tracks: map<string, Track>

    ghost predicate Valid()
      reads this
    {
      forall k | k in tracks :: ValidTrack(tracks[k])
    }

    constructor (cfg: Config)
      ensures Valid() && this.cfg == cfg && tracks == map[]
    {
      this.cfg := cfg;
      tracks := map[];
    }

    function Current(key: string): Trend
      reads this
    {
      TrackIn(tracks, key).reported
    }

    function SightingCount(key: string): nat
      reads this
    {
      |TrackIn(tracks, key).sizes|
    }

    method Update(key: string, sizePx: real, yCenterPx: real, tsMs: int) returns (event: Trend)
      requires Valid() && Accepts(cfg, TrackIn(tracks, key), Sighting(sizePx, yCenterPx, tsMs))
      modifies this`tracks
      ensures Valid()
      ensures var (t, e) := Step(cfg, TrackIn(old(tracks), key), Sighting(sizePx, yCenterPx, tsMs));
        tracks == old(tracks)[key := t] && event == e
    {
      hide Verdict, Commit;
      StepKeepsTrackValid(cfg, TrackIn(tracks, key), Sighting(sizePx, yCenterPx, tsMs));
      var t := TrackIn(tracks, key);
      var reset := false;
      if t.lastTs != 0 {
        var gap := tsMs - t.lastTs;
        var hardGap := 4 * cfg.trackGapMs;
        if gap > hardGap {
          reset := true;
        } else if t.lastInterval > 0 && gap > 3 * t.lastInterval {
          reset := true;
        } else {
          t := t.(lastInterval := gap);
        }
      }
      if !reset && t.locked && tsMs - t.decidedTs > cfg.cooldownMs {
        reset := true;
      }
      if reset {
        t := FRESH_TRACK;
      }
      t := t.(lastTs := tsMs);
      assert t == Arrive(cfg, TrackIn(tracks, key), tsMs);
      if t.locked {
        tracks := tracks[key := t];
        return Unknown;
      }
      if sizePx > 0.0 {
        t := t.(sizes := t.sizes + [sizePx], ys := t.ys + [yCenterPx]);
        if |t.sizes| > MAX_SAMPLES {
          t := t.(sizes := t.sizes[1..], ys := t.ys[1..]);
        }
      }
      assert t == Record(Arrive(cfg, TrackIn(tracks, key), tsMs), sizePx, yCenterPx);
      event := Unknown;
      if |t.sizes| >= cfg.minSightings {
        var dir := Decide(t.sizes, t.ys);
        if dir != Unknown {
          t, event := CountAgreement(t, dir, tsMs);
        }
      }
      tracks := tracks[key := t];
    }

    /** The part of `update` after a direction has been found: streak, lock, backstop and event. */
    method CountAgreement(t: Track, dir: Trend, tsMs: int) returns (u: Track, event: Trend)
      ensures (u, event) == Commit(cfg, t, dir, tsMs)
    {
      u, event := t, Unknown;
      if dir == u.pendingDir {
        u := u.(agree := u.agree + 1);
      } else {
        u := u.(pendingDir := dir, agree := 1);
      }
      if u.agree >= cfg.confirmAgreeing {
        u := u.(locked := true, decidedTs := tsMs);
        if dir != u.reported {
          u := u.(reported := dir);
          event := dir;
        }
      } else if |u.sizes| >= cfg.confirmSightings {
        u := u.(locked := true, decidedTs := tsMs);
        if u.reported == Unknown {
          u := u.(reported := dir);
          event := dir;
        }
      } else if dir != u.reported {
        u := u.(reported := dir);
        event := dir;
      }
    }

    /** The part of `update` between taking in the sample and counting the agreement streak. */
    method Decide(sizes: seq<real>, ys: seq<real>) returns (dir: Trend)
      requires sizes != [] && |sizes| == |ys|
      ensures dir == Verdict(cfg, sizes, ys)
    {
      hide AvgFirst, AvgLast, TrendOf, PeakTrend, EnoughForExit, VerticalAgrees;
      var s0 := MeanOfFirst(sizes);
      var s1 := MeanOfLast(sizes);
      if s0 <= 0.0 {
        return Unknown;
      }
      dir := TrendOf(cfg, |sizes|, s0, s1);
      if dir == Unknown && |sizes| >= cfg.minSightings {
        var maxIdx, mn := PeakAndSmallest(sizes);
        dir := PeakTrend(cfg, |sizes|, maxIdx, sizes[maxIdx], mn);
      }
      dir := EnoughForExit(cfg, |sizes|, dir);
      if dir != Unknown && cfg.requireYAgree {
        var y1 := MeanOfLast(ys);
        var y0 := MeanOfFirst(ys);
        dir := VerticalAgrees(cfg, dir, y1 - y0);
      }
      if dir == Receding {
        var mx := Largest(sizes);
        dir := ExitGuard(cfg, dir, sizes[|sizes| - 1], mx);
      }
    }

    method PeakAndSmallest(sizes: seq<real>) returns (maxIdx: nat, mn: real)
      requires sizes != []
      ensures maxIdx == PeakIndex(sizes, |sizes|) && mn == Smallest(sizes, |sizes|)
    {
      maxIdx, mn := 0, sizes[0];
      for i := 1 to |sizes|
        invariant maxIdx == PeakIndex(sizes, i) && mn == Smallest(sizes, i)
      {
        if sizes[i] > sizes[maxIdx] {
          maxIdx := i;
        }
        if sizes[i] < mn {
          mn := sizes[i];
        }
      }
    }

    method Largest(sizes: seq<real>) returns (mx: real)
      requires sizes != []
      ensures mx == sizes[PeakIndex(sizes, |sizes|)]
    {
      mx := sizes[0];
      for i := 1 to |sizes|
        invariant mx == sizes[PeakIndex(sizes, i)]
      {
        if sizes[i] > mx {
          mx := sizes[i];
        }
      }
    }

    method MeanOfFirst(d: seq<real>) returns (mean: real)
      requires d != []
      ensures mean == AvgFirst(cfg.window, d)
    {
      var n := TrendWindow(cfg.window, |d|);
      var s := 0.0;
      for i := 0 to n
        invariant s == Sum(d[..i])
      {
        assert d[..i + 1][..i] == d[..i];
        s := s + d[i];
      }
      mean := s / n as real;
    }

    method MeanOfLast(d: seq<real>) returns (mean: real)
      requires d != []
      ensures mean == AvgLast(cfg.window, d)
    {
      var n := TrendWindow(cfg.window, |d|);
      var s := 0.0;
      for i := 0 to n
        invariant s == Sum(d[|d| - i..])
      {
        SumPrepend(d[|d| - 1 - i], d[|d| - i..]);
        assert d[|d| - (i + 1)..] == [d[|d| - 1 - i]] + d[|d| - i..];
        s := s + d[|d| - 1 - i];
      }
      mean := s / n as real;
    }
  }

  lemma {:induction false} SumPrepend(x: real, s: seq<real>)
    ensures Sum([x] + s) == x + Sum(s)
  {
    if s == [] {
      assert [x] + s == [x];
      assert [x][..0] == [];
    } else {
      SumPrepend(x, s[..|s| - 1]);
      assert ([x] + s)[..|[x] + s| - 1] == [x] + s[..|s| - 1];
    }
  }
}
