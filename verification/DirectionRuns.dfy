/**
 What the estimator makes of its verdicts over whole runs (src/process/DirectionEstimator.cpp:45-75, 155-178): when a pass is
 over, which samples it keeps, the streak that locks it, the direction that stands, and by which sighting a slow but steady
 change has been called.
 */
module DirectionRuns {
  import opened Direction
  import opened DirectionPasses
  import opened DirectionLaw
  import R = DirectionReversal

  // ----- One sighting -----

  /** The pass is over when this sighting comes: after a gap beyond any cadence, a gap well beyond the one learned, or the
      cooldown of a decided pass. */
  predicate Over(cfg: Config, t: Track, ts: int) {
    (t.lastTs != 0 && ts - t.lastTs > 4 * cfg.trackGapMs) ||
    (t.lastTs != 0 && t.lastInterval > 0 && ts - t.lastTs > 3 * t.lastInterval) ||
    (t.locked && ts - t.decidedTs > cfg.cooldownMs)
  }

  /** At most the 600 newest samples. */
  function Newest(d: seq<real>): seq<real> {
    if |d| <= 600 then d else d[|d| - 600..]
  }

  lemma FreshIsValid()
    ensures ValidTrack(FRESH_TRACK)
  {
  }

  /** A sighting of a pass that is over is treated as the first of a key never seen. */
  lemma OverMeansFresh(cfg: Config, t: Track, s: Sighting)
    requires ValidTrack(t) && Over(cfg, t, s.ts)
    ensures ValidTrack(FRESH_TRACK) && Step(cfg, t, s) == Step(cfg, FRESH_TRACK, s)
  {
    hide Verdict;
    assert Arrive(cfg, t, s.ts) == Arrive(cfg, FRESH_TRACK, s.ts);
  }

  lemma CommitKeepsSamples(cfg: Config, t: Track, dir: Trend, ts: int)
    ensures var u := Commit(cfg, t, dir, ts).0;
      u.sizes == t.sizes && u.ys == t.ys && u.lastTs == t.lastTs && u.lastInterval == t.lastInterval
  {
  }

  lemma RecordNewest(t: Track, s: Sighting)
    requires ValidTrack(t)
    ensures var u := Record(t, s.size, s.y);
      ValidTrack(u) && u == t.(sizes := u.sizes, ys := u.ys) &&
      u.sizes == (if s.size > 0.0 then Newest(t.sizes + [s.size]) else t.sizes) &&
      u.ys == if s.size > 0.0 then Newest(t.ys + [s.y]) else t.ys
  {
  }

  lemma ArriveGoesOn(cfg: Config, t: Track, ts: int)
    requires !Over(cfg, t, ts)
    ensures Arrive(cfg, t, ts) == t.(lastTs := ts, lastInterval := if t.lastTs != 0 then ts - t.lastTs else t.lastInterval)
  {
  }

  /** Otherwise the clock moves, and an unlocked track takes the sample in. */
  lemma PassGoesOn(cfg: Config, t: Track, s: Sighting)
    requires ValidTrack(t) && !Over(cfg, t, s.ts)
    ensures var (u, e) := Step(cfg, t, s);
      u.lastTs == s.ts && u.lastInterval == (if t.lastTs != 0 then s.ts - t.lastTs else t.lastInterval) &&
      if t.locked then u == t.(lastTs := u.lastTs, lastInterval := u.lastInterval) && e == Unknown
      else
        u.sizes == (if s.size > 0.0 then Newest(t.sizes + [s.size]) else t.sizes) &&
        u.ys == if s.size > 0.0 then Newest(t.ys + [s.y]) else t.ys
  {
    hide Verdict, Commit, Arrive, Record, Newest;
    ArriveGoesOn(cfg, t, s.ts);
    var v := Arrive(cfg, t, s.ts);
    RecordNewest(v, s);
    var u := Record(v, s.size, s.y);
    if !t.locked && u.sizes != [] {
      CommitKeepsSamples(cfg, u, Verdict(cfg, u.sizes, u.ys), s.ts);
    }
  }

  /** The call on the samples of a track. */
  ghost function Call(cfg: Config, t: Track): Trend
    requires |t.ys| == |t.sizes|
  {
    if t.sizes == [] || |t.sizes| < cfg.minSightings then Unknown
    else if CallsEntry(cfg, t.sizes, t.ys) then Approaching
    else if CallsExit(cfg, t.sizes, t.ys) then Receding
    else Unknown
  }

  lemma CallIsVerdict(cfg: Config, t: Track)
    requires ValidTrack(t) && cfg.minGrowthRatio > 1.0
    ensures Call(cfg, t) ==
      if t.sizes == [] || |t.sizes| < cfg.minSightings then Unknown else Verdict(cfg, t.sizes, t.ys)
  {
    hide Verdict, CallsEntry, CallsExit;
    if t.sizes != [] {
      VerdictExactly(cfg, t.sizes, t.ys);
    }
  }

  // ----- The calls of a pass, and its streak -----

  /** The directions called since the pass began, until it was locked. */
  ghost function Calls(cfg: Config, run: seq<Sighting>): seq<Trend> {
    if run == [] then []
    else
      var n := |run| - 1;
      var t := Watch(cfg, run[..n]).track;
      var before := if Over(cfg, t, run[n].ts) then [] else Calls(cfg, run[..n]);
      var call := Call(cfg, Watch(cfg, run).track);
      if (t.locked && !Over(cfg, t, run[n].ts)) || call == Unknown then before else before + [call]
  }

  /** How many of the latest calls agree. */
  function Streak(calls: seq<Trend>): nat {
    var n := |calls|;
    if n == 0 then 0 else if n > 1 && calls[n - 1] == calls[n - 2] then 1 + Streak(calls[..n - 1]) else 1
  }

  /** The direction that stands: the latest call, unless a lone outlier met the cap on the samples. */
  function Standing(cfg: Config, calls: seq<Trend>, locked: bool): Trend {
    var n := |calls|;
    if n == 0 then Unknown
    else if n > 1 && locked && Streak(calls) < cfg.confirmAgreeing then calls[n - 2]
    else calls[n - 1]
  }

  /** Everything a track remembers of its decision, in terms of the calls. */
  ghost predicate Follows(cfg: Config, t: Track, calls: seq<Trend>) {
    t.agree == Streak(calls) && t.pendingDir == (if calls == [] then Unknown else calls[|calls| - 1]) &&
    t.reported == Standing(cfg, calls, t.locked) &&
    (!t.locked && calls != [] ==> Streak(calls) < cfg.confirmAgreeing) &&
    (forall i | 0 <= i < |calls| :: calls[i] != Unknown)
  }

  lemma {:induction false} CommitFollows(cfg: Config, t: Track, calls: seq<Trend>, call: Trend, ts: int)
    requires Follows(cfg, t, calls) && !t.locked && call != Unknown
    ensures var (u, e) := Commit(cfg, t, call, ts);
      Follows(cfg, u, calls + [call]) &&
      (u.locked <==> Streak(calls + [call]) >= cfg.confirmAgreeing || |u.sizes| >= cfg.confirmSightings) &&
      (u.locked ==> u.decidedTs == ts) && u.sizes == t.sizes && u.ys == t.ys &&
      e == if u.reported == t.reported then Unknown else call
  {
    var after := calls + [call];
    assert after[..|calls|] == calls;
  }

  /** An unlocked pass that goes on: the call on its samples is added to its calls, and decides. */
  lemma StepFollows(cfg: Config, t: Track, calls: seq<Trend>, s: Sighting)
    requires ValidTrack(t) && cfg.minGrowthRatio > 1.0 && Follows(cfg, t, calls) && !t.locked && !Over(cfg, t, s.ts)
    ensures var (u, e) := Step(cfg, t, s);
      ValidTrack(u) &&
      var call := Call(cfg, u);
      var after := if call == Unknown then calls else calls + [call];
      Follows(cfg, u, after) &&
      (u.locked <==>
       call != Unknown && (Streak(after) >= cfg.confirmAgreeing || |u.sizes| >= cfg.confirmSightings)) &&
      (u.locked ==> u.decidedTs == s.ts) &&
      e == if u.reported == t.reported then Unknown else call
  {
    hide Verdict, Commit, Arrive, Record, Newest, Streak, Standing, CallsEntry, CallsExit;
    StepKeepsTrackValid(cfg, t, s);
    ArriveGoesOn(cfg, t, s.ts);
    var v := Arrive(cfg, t, s.ts);
    RecordNewest(v, s);
    var u := Record(v, s.size, s.y);
    UnlockedStanding(cfg, calls);
    assert Follows(cfg, u, calls);
    CallIsVerdict(cfg, u);
    if u.sizes != [] && |u.sizes| >= cfg.minSightings && Verdict(cfg, u.sizes, u.ys) != Unknown {
      CommitFollows(cfg, u, calls, Verdict(cfg, u.sizes, u.ys), s.ts);
      SameCall(cfg, u, Step(cfg, t, s).0);
    }
  }

  lemma UnlockedStanding(cfg: Config, calls: seq<Trend>)
    ensures Standing(cfg, calls, false) == if calls == [] then Unknown else calls[|calls| - 1]
  {
  }

  lemma SameCall(cfg: Config, t: Track, u: Track)
    requires |t.ys| == |t.sizes| && u.sizes == t.sizes && u.ys == t.ys
    ensures Call(cfg, u) == Call(cfg, t)
  {
  }

  /** In every run: the streak is that of the latest calls, the standing direction is as described, and a locked track has
      its streak or has met the cap. */
  lemma {:induction false} RunFollows(cfg: Config, run: seq<Sighting>)
    requires cfg.minGrowthRatio > 1.0
    ensures Follows(cfg, Watch(cfg, run).track, Calls(cfg, run))
    ensures Watch(cfg, run).track.locked ==> Calls(cfg, run) != []
  {
    hide Step, Streak, Standing, Call, Over;
    if run == [] {
      NothingFollows(cfg);
    } else {
      var n := |run| - 1;
      var t := Watch(cfg, run[..n]).track;
      RunFollows(cfg, run[..n]);
      if Over(cfg, t, run[n].ts) {
        OverMeansFresh(cfg, t, run[n]);
        NothingFollows(cfg);
        FreshIsNotOver(cfg, run[n].ts);
        StepFollows(cfg, FRESH_TRACK, [], run[n]);
      } else if t.locked {
        PassGoesOn(cfg, t, run[n]);
      } else {
        StepFollows(cfg, t, Calls(cfg, run[..n]), run[n]);
      }
    }
  }

  lemma NothingFollows(cfg: Config)
    ensures ValidTrack(FRESH_TRACK) && Follows(cfg, FRESH_TRACK, [])
  {
  }

  lemma FreshIsNotOver(cfg: Config, ts: int)
    ensures !Over(cfg, FRESH_TRACK, ts)
  {
  }

  /** In every run, the sighting that locks an unlocked pass is exactly the first that calls a direction and completes a
      streak of `confirmAgreeing` calls or meets `confirmSightings` samples. */
  lemma {:induction false} LocksExactly(cfg: Config, run: seq<Sighting>)
    requires cfg.minGrowthRatio > 1.0 && run != []
    ensures var before, after := Watch(cfg, run[..|run| - 1]).track, Watch(cfg, run).track;
      var calls := Calls(cfg, run);
      Over(cfg, before, run[|run| - 1].ts) || !before.locked ==>
      (after.locked <==>
       Call(cfg, after) != Unknown &&
       (Streak(calls) >= cfg.confirmAgreeing || |after.sizes| >= cfg.confirmSightings))
  {
    hide Step, Streak, Standing, Call, Over;
    var n := |run| - 1;
    var t := Watch(cfg, run[..n]).track;
    RunFollows(cfg, run[..n]);
    if Over(cfg, t, run[n].ts) {
      OverMeansFresh(cfg, t, run[n]);
      NothingFollows(cfg);
      FreshIsNotOver(cfg, run[n].ts);
      StepFollows(cfg, FRESH_TRACK, [], run[n]);
    } else if !t.locked {
      StepFollows(cfg, t, Calls(cfg, run[..n]), run[n]);
    }
  }

  // ----- The cooldown -----

  /** When the pass in progress was locked, if it is: the time of the last sighting that found no locked pass going on. */
  ghost function LockedAt(cfg: Config, run: seq<Sighting>): int {
    if run == [] then 0
    else
      var n := |run| - 1;
      var t := Watch(cfg, run[..n]).track;
      if t.locked && !Over(cfg, t, run[n].ts) then LockedAt(cfg, run[..n]) else run[n].ts
  }

  lemma {:induction false} DecidedWhenLocked(cfg: Config, run: seq<Sighting>)
    requires cfg.minGrowthRatio > 1.0 && Watch(cfg, run).track.locked
    ensures Watch(cfg, run).track.decidedTs == LockedAt(cfg, run)
  {
    hide Step, Streak, Standing, Call, Over;
    var n := |run| - 1;
    var t := Watch(cfg, run[..n]).track;
    RunFollows(cfg, run[..n]);
    if Over(cfg, t, run[n].ts) {
      OverMeansFresh(cfg, t, run[n]);
      NothingFollows(cfg);
      FreshIsNotOver(cfg, run[n].ts);
      StepFollows(cfg, FRESH_TRACK, [], run[n]);
    } else if t.locked {
      PassGoesOn(cfg, t, run[n]);
      DecidedWhenLocked(cfg, run[..n]);
    } else {
      StepFollows(cfg, t, Calls(cfg, run[..n]), run[n]);
    }
  }

  /** In every run, a sighting that comes in time for a locked pass finds it over exactly if more than `cooldownMs` have gone
      by since the sighting that locked it; until then nothing but the clock moves. */
  lemma {:induction false} CooldownExactly(cfg: Config, run: seq<Sighting>, s: Sighting)
    requires cfg.minGrowthRatio > 1.0 && Clocked(run) && run != [] && Watch(cfg, run).track.locked
    requires var gap, learned := s.ts - run[|run| - 1].ts, LearnedGap(cfg, run);
      gap <= 4 * cfg.trackGapMs && (learned > 0 ==> gap <= 3 * learned)
    ensures var t := Watch(cfg, run).track;
      if s.ts - LockedAt(cfg, run) > cfg.cooldownMs then
        ValidTrack(FRESH_TRACK) && Step(cfg, t, s) == Step(cfg, FRESH_TRACK, s)
      else
        Step(cfg, t, s).1 == Unknown &&
        Step(cfg, t, s).0 == t.(lastTs := s.ts, lastInterval := s.ts - run[|run| - 1].ts)
  {
    hide Step, Watch, LockedAt, LearnedGap;
    var t := Watch(cfg, run).track;
    ClockOfRun(cfg, run);
    DecidedWhenLocked(cfg, run);
    if s.ts - LockedAt(cfg, run) > cfg.cooldownMs {
      OverMeansFresh(cfg, t, s);
    } else {
      PassGoesOn(cfg, t, s);
    }
  }

  // ----- Slow vehicles -----

  /** No sighting of the run finds the pass over. */
  ghost predicate OnePass(cfg: Config, run: seq<Sighting>) {
    forall k | 0 <= k < |run| :: !Over(cfg, Watch(cfg, run[..k]).track, run[k].ts)
  }

  /** Every size differs from the one before by at least `step`, upwards or, if it is negative, downwards. */
  ghost predicate Steady(d: seq<real>, step: real) {
    forall i | 0 < i < |d| :: if step > 0.0 then d[i] >= d[i - 1] + step else d[i] <= d[i - 1] + step
  }

  lemma {:induction false} PassPrefix(cfg: Config, run: seq<Sighting>)
    requires run != [] && OnePass(cfg, run)
    ensures var n := |run| - 1; OnePass(cfg, run[..n]) && !Over(cfg, Watch(cfg, run[..n]).track, run[n].ts)
  {
    hide Watch, Over;
    var n := |run| - 1;
    assert forall k | 0 <= k < n :: run[..n][..k] == run[..k] && run[..n][k] == run[k];
  }

  lemma SizesPrefix(run: seq<Sighting>)
    requires run != [] && R.AllPositive(Sizes(run))
    ensures var n := |run| - 1;
      Sizes(run) == Sizes(run[..n]) + [run[n].size] && run[n].size > 0.0 && R.AllPositive(Sizes(run[..n]))
  {
    var n := |run| - 1;
    assert forall k | 0 <= k < n :: Sizes(run[..n])[k] == Sizes(run)[k];
    assert Sizes(run)[n] > 0.0;
  }

  lemma NothingDropped(d: seq<real>)
    requires |d| <= 600
    ensures Newest(d) == d
  {
  }

  lemma {:induction false} UnlockedKeepsAll(cfg: Config, run: seq<Sighting>)
    requires OnePass(cfg, run) && |run| <= 600 && R.AllPositive(Sizes(run)) && !Watch(cfg, run).track.locked
    ensures Watch(cfg, run).track.sizes == Sizes(run)
  {
    hide Step, Over, OnePass, Newest, R.AllPositive;
    if run == [] {
    } else {
      var n := |run| - 1;
      PassPrefix(cfg, run);
      SizesPrefix(run);
      PassGoesOn(cfg, Watch(cfg, run[..n]).track, run[n]);
      UnlockedKeepsAll(cfg, run[..n]);
      NothingDropped(Sizes(run));
    }
  }

  lemma {:induction false} SteadyApart(d: seq<real>, step: real, i: nat, j: nat)
    requires Steady(d, step) && i <= j < |d|
    ensures if step > 0.0 then d[j] >= d[i] + (j - i) as real * step else d[j] <= d[i] + (j - i) as real * step
    decreases j
  {
    if i < j {
      SteadyApart(d, step, i, j - 1);
      OneMore((j - 1 - i) as real, step);
    }
  }

  lemma OneMore(m: real, step: real)
    ensures (m + 1.0) * step == m * step + step
  {
  }

  lemma {:induction false} TotalShifted(x: seq<real>, y: seq<real>, h: real)
    requires |x| == |y| && forall i | 0 <= i < |x| :: x[i] + h <= y[i]
    ensures Total(y) - Total(x) >= |x| as real * h
  {
    if x == [] {
    } else {
      TotalShifted(x[1..], y[1..], h);
      OneMore((|x| - 1) as real, h);
    }
  }

  /** Over a steady pass the two ends come apart by what the samples between them amount to. */
  lemma EndsApart(cfg: Config, d: seq<real>, step: real)
    requires |d| >= 2 && Steady(d, step)
    ensures var n := Width(cfg, |d|);
      var h := (|d| - n) as real * step;
      if step > 0.0 then End(cfg, d) - Start(cfg, d) >= n as real * h
      else Start(cfg, d) - End(cfg, d) >= n as real * -h
  {
    hide Width, Total, Steady;
    var n := Width(cfg, |d|);
    var h := (|d| - n) as real * step;
    var x, y := d[..n], d[|d| - n..];
    forall i: nat | i < n ensures if step > 0.0 then x[i] + h <= y[i] else y[i] + -h <= x[i] {
      SteadyApart(d, step, i, |d| - n + i);
    }
    if step > 0.0 {
      TotalShifted(x, y, h);
    } else {
      TotalShifted(y, x, -h);
    }
  }

  /** Half of the samples lie between the ends, so half of the whole change counts. */
  lemma HalfCounts(n: nat, count: nat, step: real, bar: real)
    requires n >= 1 && 2 * n <= count && step > 0.0 && count as real * step >= 2.0 * bar
    ensures var h := (count - n) as real * step; h > 0.0 && Reaches(n as real * h, n as real, bar) && n as real * h > 0.0
  {
    var m, h := (count - n) as real, (count - n) as real * step;
    assert 2.0 * m >= count as real;
    assert 2.0 * m * step >= count as real * step;
    assert h >= bar;
    assert n as real * h >= n as real * bar;
    assert n as real * h > 0.0;
  }

  lemma GapReaches(gap: real, n: nat, count: nat, step: real, bar: real)
    requires n >= 1 && 2 * n <= count && step > 0.0 && count as real * step >= 2.0 * bar
    requires gap >= n as real * ((count - n) as real * step)
    ensures gap > 0.0 && Reaches(gap, n as real, bar)
  {
    HalfCounts(n, count, step, bar);
  }

  lemma SteadyGrowth(cfg: Config, d: seq<real>, step: real)
    requires |d| >= 2 && Steady(d, step) && step > 0.0
    requires |d| >= cfg.trendMinSightings && |d| as real * step >= 2.0 * cfg.minTrendDeltaPx
    ensures Grown(cfg, d)
  {
    hide Start, End, Steady, Reaches, Width;
    EndsApart(cfg, d, step);
    GapReaches(End(cfg, d) - Start(cfg, d), Width(cfg, |d|), |d|, step, cfg.minTrendDeltaPx);
  }

  lemma SteadyLoss(cfg: Config, d: seq<real>, step: real)
    requires |d| >= 2 && Steady(d, -step) && step > 0.0
    requires |d| >= cfg.trendMinSightings && |d| as real * step >= 2.0 * ExitDelta(cfg)
    ensures Shrunk(cfg, d)
  {
    hide Start, End, Steady, Reaches, ExitDelta, ExitRatio, Width;
    var n := Width(cfg, |d|);
    EndsApart(cfg, d, -step);
    Negated((|d| - n) as real, step);
    GapReaches(Start(cfg, d) - End(cfg, d), n, |d|, step, ExitDelta(cfg));
  }

  lemma Negated(x: real, y: real)
    ensures -(x * -y) == x * y
  {
  }

  lemma SteadyIsMonotone(d: seq<real>, step: real)
    requires Steady(d, step)
    ensures step > 0.0 ==> NonDecreasing(d)
    ensures step < 0.0 ==> NonIncreasing(d)
  {
    hide Steady;
    forall i, j | 0 <= i < j < |d| ensures (step > 0.0 ==> d[i] <= d[j]) && (step < 0.0 ==> d[i] >= d[j]) {
      SteadyApart(d, step, i, j);
    }
  }

  /** A pass in which something was called and nothing was called wrongly stands at the right direction. */
  lemma {:induction false} CalledIsKnown(cfg: Config, run: seq<Sighting>)
    requires cfg.minGrowthRatio > 1.0 && Calls(cfg, run) != []
    ensures Watch(cfg, run).track.reported != Unknown
  {
    hide Watch, Calls, Streak;
    RunFollows(cfg, run);
  }

  lemma {:induction false} CalledByNow(cfg: Config, run: seq<Sighting>)
    requires run != [] && cfg.minGrowthRatio > 1.0 && OnePass(cfg, run)
    requires Watch(cfg, run[..|run| - 1]).track.locked || Call(cfg, Watch(cfg, run).track) != Unknown
    ensures Calls(cfg, run) != []
  {
    hide Step, Call, Over;
    RunFollows(cfg, run[..|run| - 1]);
    assert !Over(cfg, Watch(cfg, run[..|run| - 1]).track, run[|run| - 1].ts);
  }

  lemma {:induction false} SamplesByNow(cfg: Config, run: seq<Sighting>)
    requires run != [] && OnePass(cfg, run) && |run| <= 600 && R.AllPositive(Sizes(run))
    requires !Watch(cfg, run[..|run| - 1]).track.locked
    ensures Watch(cfg, run).track.sizes == Sizes(run)
  {
    hide Step, Over, OnePass, Newest, R.AllPositive;
    var n := |run| - 1;
    PassPrefix(cfg, run);
    SizesPrefix(run);
    UnlockedKeepsAll(cfg, run[..n]);
    PassGoesOn(cfg, Watch(cfg, run[..n]).track, run[n]);
    NothingDropped(Sizes(run));
  }

  /** A slow vehicle that comes nearer by at least `step` from sighting to sighting stands as approaching at every sighting
      from the first on at which the counts are met and half of the change so far is `minTrendDeltaPx`. */
  lemma {:induction false} SlowGrowthIsCalled(cfg: Config, run: seq<Sighting>, step: real)
    requires cfg.minGrowthRatio > 1.0 && !cfg.requireYAgree && cfg.exitPeakGuardRatio <= 1.0
    requires OnePass(cfg, run) && 2 <= |run| <= 600 && R.AllPositive(Sizes(run)) && Steady(Sizes(run), step) && step > 0.0
    requires |run| >= cfg.minSightings && |run| >= cfg.trendMinSightings
    requires |run| as real * step >= 2.0 * cfg.minTrendDeltaPx
    ensures Watch(cfg, run).track.reported == Approaching
  {
    hide Watch, OnePass, Steady, Grown, Shrunk, Calls, Drift;
    if !Watch(cfg, run[..|run| - 1]).track.locked {
      SamplesByNow(cfg, run);
      SteadyGrowth(cfg, Sizes(run), step);
    }
    CalledByNow(cfg, run);
    CalledIsKnown(cfg, run);
    SteadyIsMonotone(Sizes(run), step);
    MonotoneIsRising(cfg, run);
    RisingNeverRecedes(cfg, run);
  }

  /** A slow vehicle that goes away likewise, once there are enough reads for an exit and its plate is well below its first
      size. */
  lemma {:induction false} SlowLossIsCalled(cfg: Config, run: seq<Sighting>, step: real)
    requires cfg.minGrowthRatio > 1.0 && !cfg.requireYAgree
    requires OnePass(cfg, run) && 2 <= |run| <= 600 && R.AllPositive(Sizes(run)) && Steady(Sizes(run), -step) && step > 0.0
    requires |run| >= cfg.minSightings && |run| >= cfg.trendMinSightings && |run| >= cfg.recedingMinSightings
    requires |run| as real * step >= 2.0 * ExitDelta(cfg)
    requires run[|run| - 1].size < cfg.exitPeakGuardRatio * run[0].size
    ensures Watch(cfg, run).track.reported == Receding
  {
    hide Watch, OnePass, Steady, Grown, Shrunk, Calls, Drift, ExitDelta;
    if !Watch(cfg, run[..|run| - 1]).track.locked {
      SamplesByNow(cfg, run);
      SteadyLoss(cfg, Sizes(run), step);
      assert Sizes(run)[0] == run[0].size;
      NotBoth(cfg, Sizes(run));
    }
    CalledByNow(cfg, run);
    CalledIsKnown(cfg, run);
    SteadyIsMonotone(Sizes(run), -step);
    MonotoneIsFalling(cfg, run);
    FallingNeverApproaches(cfg, run);
  }
}
