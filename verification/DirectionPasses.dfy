/**
 What the direction estimator promises over whole passes (src/process/DirectionEstimator.cpp and the comments of
 include/lpr/process/DirectionEstimator.h). A run is any sequence of sightings of one key.
 */
module DirectionPasses {
  import opened Cadence
  import opened Direction
  import opened Numbers

  /** A track, the events emitted since its last reset, and everything `update` has returned so far. */
  datatype Pass = Pass(track: Track, events: seq<Trend>, log: seq<Trend>)

  const NO_PASS := Pass(FRESH_TRACK, [], [])

  function Noted(events: seq<Trend>, e: Trend): seq<Trend> {
    if e == Unknown then events else events + [e]
  }

  ghost function Sight(cfg: Config, p: Pass, s: Sighting): Pass
    requires ValidTrack(p.track)
  {
    var (t, e) := Step(cfg, p.track, s);
    Pass(t, Noted(if Resets(cfg, p.track, s.ts) then [] else p.events, e), p.log + [e])
  }

  ghost function Watch(cfg: Config, run: seq<Sighting>): (p: Pass)
    ensures ValidTrack(p.track) && |p.log| == |run|
  {
    if run == [] then NO_PASS
    else
      var p := Watch(cfg, run[..|run| - 1]);
      StepKeepsTrackValid(cfg, p.track, run[|run| - 1]);
      Sight(cfg, p, run[|run| - 1])
  }

  // ----- The state machine -----

  ghost predicate Coherent(cfg: Config, t: Track, events: seq<Trend>) {
    t.reported == (if events == [] then Unknown else events[|events| - 1]) &&
    (forall i | 0 <= i < |events| :: events[i] != Unknown) &&
    (forall i | 0 < i < |events| :: events[i] != events[i - 1]) &&
    (t.locked ==> t.reported != Unknown) &&
    (!t.locked ==> t.reported == t.pendingDir) &&
    (!t.locked && t.pendingDir != Unknown ==> 1 <= t.agree < cfg.confirmAgreeing)
  }

  lemma CommitKeepsCoherent(cfg: Config, t: Track, events: seq<Trend>, dir: Trend, ts: int)
    requires Coherent(cfg, t, events) && !t.locked && dir != Unknown
    ensures var (u, e) := Commit(cfg, t, dir, ts); Coherent(cfg, u, Noted(events, e))
  {
  }

  lemma SightKeepsCoherent(cfg: Config, p: Pass, s: Sighting)
    requires ValidTrack(p.track) && Coherent(cfg, p.track, p.events)
    ensures Coherent(cfg, Sight(cfg, p, s).track, Sight(cfg, p, s).events)
  {
    hide Verdict, Commit;
    var u := Record(Arrive(cfg, p.track, s.ts), s.size, s.y);
    var events := if Resets(cfg, p.track, s.ts) then [] else p.events;
    assert Coherent(cfg, u, events);
    if u.sizes != [] && !u.locked && Verdict(cfg, u.sizes, u.ys) != Unknown {
      CommitKeepsCoherent(cfg, u, events, Verdict(cfg, u.sizes, u.ys), s.ts);
    }
  }

  /** In every run: the standing direction is the last event of the pass, consecutive events differ, a locked
      track has a known direction, and while unlocked the standing direction is the one being counted. */
  lemma {:induction false} RunsAreCoherent(cfg: Config, run: seq<Sighting>)
    ensures Coherent(cfg, Watch(cfg, run).track, Watch(cfg, run).events)
  {
    hide Step;
    if run == [] {
    } else {
      RunsAreCoherent(cfg, run[..|run| - 1]);
      SightKeepsCoherent(cfg, Watch(cfg, run[..|run| - 1]), run[|run| - 1]);
    }
  }

  /** A locked track changes nothing but its clock until it is reset. */
  lemma LockedIsFinal(cfg: Config, t: Track, s: Sighting)
    requires ValidTrack(t)
    requires t.locked && !Resets(cfg, t, s.ts)
    ensures Step(cfg, t, s).1 == Unknown
    ensures Step(cfg, t, s).0 == t.(lastTs := s.ts, lastInterval := Step(cfg, t, s).0.lastInterval)
  {
  }

  /** No late flip: the sighting that locks a pass emits an event only if the pass had emitted none. */
  lemma {:induction false} LockingIsSilentAfterAnEvent(cfg: Config, run: seq<Sighting>, s: Sighting)
    ensures var t := Watch(cfg, run).track;
      !Resets(cfg, t, s.ts) && !t.locked && Step(cfg, t, s).0.locked ==>
      (Step(cfg, t, s).1 != Unknown <==> Watch(cfg, run).events == [])
  {
    hide Verdict;
    RunsAreCoherent(cfg, run);
  }

  /** A sighting without a reset grows an unlocked history by one, up to the cap. */
  lemma CountGrows(cfg: Config, t: Track, s: Sighting)
    requires ValidTrack(t) && s.size > 0.0 && !Resets(cfg, t, s.ts)
    ensures t.locked ==> Step(cfg, t, s).0.locked
    ensures !t.locked ==> |Step(cfg, t, s).0.sizes| == Min(|t.sizes| + 1, MAX_SAMPLES)
  {
    hide Verdict;
  }

  ghost predicate LockedIsKnown(t: Track) {
    t.locked ==> t.reported != Unknown
  }

  lemma StepKeepsLockedKnown(cfg: Config, t: Track, s: Sighting)
    requires ValidTrack(t) && LockedIsKnown(t)
    ensures LockedIsKnown(Step(cfg, t, s).0)
  {
    hide Verdict;
  }

  // ----- Cadence -----

  /** The last sighting of the run found its track over: the gap before it does not count as learned. */
  ghost predicate Restarted(cfg: Config, run: seq<Sighting>) {
    run != [] && Resets(cfg, Watch(cfg, run[..|run| - 1]).track, run[|run| - 1].ts)
  }

  /** The gap in front of the last sighting, as far as the track has learned it; 0 if it has learned none. */
  ghost function LearnedGap(cfg: Config, run: seq<Sighting>): int {
    var n := |run| - 1;
    if n < 1 || Restarted(cfg, run) then 0 else run[n].ts - run[n - 1].ts
  }

  /** A time of 0 stands for none. */
  ghost predicate Clocked(run: seq<Sighting>) {
    forall i | 0 <= i < |run| :: run[i].ts != 0
  }

  lemma ClockOfStep(cfg: Config, t: Track, s: Sighting)
    requires ValidTrack(t)
    ensures var u, v := Step(cfg, t, s).0, Arrive(cfg, t, s.ts); u.lastTs == v.lastTs && u.lastInterval == v.lastInterval
  {
    hide Verdict;
  }

  lemma {:induction false} ClockOfRun(cfg: Config, run: seq<Sighting>)
    requires Clocked(run)
    ensures var t := Watch(cfg, run).track;
      t.lastTs == (if run == [] then 0 else run[|run| - 1].ts) && t.lastInterval == LearnedGap(cfg, run)
  {
    hide Step;
    if run == [] {
    } else {
      var n := |run| - 1;
      ClockOfRun(cfg, run[..n]);
      ClockOfStep(cfg, Watch(cfg, run[..n]).track, run[n]);
      assert n > 0 ==> run[..n][n - 1] == run[n - 1];
    }
  }

  /** In every run, exactly these gaps split a pass: those beyond four times the configured gap, and those beyond three
      times the gap learned just before. */
  lemma {:induction false} GapsThatSplit(cfg: Config, run: seq<Sighting>, s: Sighting)
    requires Clocked(run) && run != []
    ensures var gap, learned := s.ts - run[|run| - 1].ts, LearnedGap(cfg, run);
      GapResets(cfg, Watch(cfg, run).track, s.ts) <==> gap > 4 * cfg.trackGapMs || (learned > 0 && gap > 3 * learned)
  {
    hide Watch;
    ClockOfRun(cfg, run);
  }

  /** So a gap that the configuration allows splits a pass exactly if it is more than three times the one learned. */
  lemma {:induction false} AllowedGapsThatSplit(cfg: Config, run: seq<Sighting>, s: Sighting)
    requires Clocked(run) && run != [] && 0 <= cfg.trackGapMs
    ensures var gap, learned := s.ts - run[|run| - 1].ts, LearnedGap(cfg, run);
      gap <= cfg.trackGapMs ==>
      (GapResets(cfg, Watch(cfg, run).track, s.ts) <==> 0 < 3 * learned < gap)
  {
    hide Watch, LearnedGap;
    GapsThatSplit(cfg, run, s);
  }

  function Times(run: seq<Sighting>): (times: seq<int>)
    ensures |times| == |run|
  {
    seq(|run|, i requires 0 <= i < |run| => run[i].ts)
  }

  /** However slow, and however jittered within three times the gap before, no cadence splits a pass by its gaps. */
  lemma {:induction false} EvenCadenceNeverSplits(cfg: Config, run: seq<Sighting>, k: nat)
    requires Clocked(run) && Even(Times(run), 4 * cfg.trackGapMs) && k < |run|
    ensures !GapResets(cfg, Watch(cfg, run[..k]).track, run[k].ts)
  {
    hide Watch, Restarted;
    if k == 0 {
      assert run[..0] == [];
      ClockOfRun(cfg, []);
    } else {
      assert Fits(Times(run), 4 * cfg.trackGapMs, k);
      GapsThatSplit(cfg, run[..k], run[k]);
    }
  }

  // ----- Soundness of the direction -----

  ghost predicate NonIncreasing(s: seq<real>) {
    forall i, j | 0 <= i < j < |s| :: s[i] >= s[j]
  }

  ghost predicate NonDecreasing(s: seq<real>) {
    forall i, j | 0 <= i < j < |s| :: s[i] <= s[j]
  }

  lemma {:induction false} SumScaled(x: seq<real>, y: seq<real>, c: real)
    requires |x| == |y|
    requires forall i | 0 <= i < |x| :: c * x[i] <= y[i]
    ensures c * Sum(x) <= Sum(y)
  {
    if x == [] {
    } else {
      var n := |x| - 1;
      SumScaled(x[..n], y[..n], c);
      Distribute(c, Sum(x[..n]), x[n]);
    }
  }

  lemma Distribute(c: real, x: real, y: real)
    ensures c * (x + y) == c * x + c * y
  {
  }

  lemma {:induction false} SumPositive(x: seq<real>)
    requires x != [] && forall i | 0 <= i < |x| :: x[i] > 0.0
    ensures Sum(x) > 0.0
  {
    if |x| == 1 {
      assert x[..0] == [];
    } else {
      SumPositive(x[..|x| - 1]);
    }
  }

  lemma AverageScaled(s0: real, s1: real, n: real, c: real)
    requires n > 0.0 && c * s0 <= s1
    ensures c * (s0 / n) <= s1 / n
  {
    assert c * (s0 / n) == (c * s0) / n;
    Monotone(c * s0, s1, n);
  }

  lemma Monotone(x: real, y: real, n: real)
    requires n > 0.0 && x <= y
    ensures x / n <= y / n
  {
  }

  /** The averages of the two ends compare as their samples do. */
  lemma AveragesScaled(window: int, d: seq<real>, c: real)
    requires d != []
    requires var n := TrendWindow(window, |d|); forall i | 0 <= i < n :: c * d[i] <= d[|d| - n + i]
    ensures c * AvgFirst(window, d) <= AvgLast(window, d)
  {
    hide Sum;
    var n := TrendWindow(window, |d|);
    SumScaled(d[..n], d[|d| - n..], c);
    AverageScaled(Sum(d[..n]), Sum(d[|d| - n..]), n as real, c);
  }

  lemma AverageOfFallingFalls(window: int, d: seq<real>)
    requires d != [] && NonIncreasing(d)
    ensures AvgLast(window, d) <= AvgFirst(window, d)
  {
    hide Sum, TrendWindow;
    var n := TrendWindow(window, |d|);
    var x, y := d[|d| - n..], d[..n];
    forall i | 0 <= i < n ensures 1.0 * x[i] <= y[i] {
      assert x[i] == d[|d| - n + i] && y[i] == d[i];
    }
    SumScaled(x, y, 1.0);
    var sx, sy, w := Sum(x), Sum(y), n as real;
    assert sx <= sy;
    Monotone(sx, sy, w);
  }

  lemma AverageIsPositive(window: int, d: seq<real>)
    requires d != [] && forall i | 0 <= i < |d| :: d[i] > 0.0
    ensures AvgFirst(window, d) > 0.0
  {
    SumPositive(d[..TrendWindow(window, |d|)]);
  }

  lemma RatioAtMostOne(s0: real, s1: real)
    requires s0 > 0.0 && s1 <= s0
    ensures s1 / s0 <= 1.0
  {
  }

  lemma FallingVerdict(cfg: Config, sizes: seq<real>, ys: seq<real>)
    requires sizes != [] && |sizes| == |ys| && NonIncreasing(sizes)
    requires cfg.minGrowthRatio > 1.0
    ensures Verdict(cfg, sizes, ys) != Approaching
  {
    hide AvgFirst, AvgLast;
    var s0, s1 := AvgFirst(cfg.window, sizes), AvgLast(cfg.window, sizes);
    AverageOfFallingFalls(cfg.window, sizes);
    if s0 > 0.0 {
      RatioAtMostOne(s0, s1);
      assert TrendOf(cfg, |sizes|, s0, s1) != Approaching;
      var k := PeakIndex(sizes, |sizes|);
      assert sizes[0] <= sizes[k];
    }
  }

  /** A Receding verdict leaves the newest sample below the guarded share of the largest. */
  lemma {:induction false} RecedingVerdict(cfg: Config, sizes: seq<real>, ys: seq<real>)
    requires sizes != [] && |sizes| == |ys| && Verdict(cfg, sizes, ys) == Receding
    requires forall i | 0 <= i < |sizes| :: sizes[i] > 0.0
    ensures sizes[|sizes| - 1] < cfg.exitPeakGuardRatio * sizes[PeakIndex(sizes, |sizes|)]
  {
    hide AvgFirst, AvgLast, Raw, VerticalAgrees, EnoughForExit;
  }

  /** An event is the verdict on the samples that the step leaves behind. */
  lemma EventIsVerdict(cfg: Config, t: Track, s: Sighting)
    requires ValidTrack(t)
    ensures ValidTrack(Step(cfg, t, s).0)
    ensures var (u, e) := Step(cfg, t, s);
      e != Unknown ==> u.sizes != [] && e == Verdict(cfg, u.sizes, u.ys)
  {
    hide Verdict, Resets;
    StepKeepsTrackValid(cfg, t, s);
  }

  /** An exit is called only when the newest plate is well below the largest of the pass. */
  lemma RecedingMeansShrunk(cfg: Config, t: Track, s: Sighting)
    requires ValidTrack(t)
    ensures Step(cfg, t, s).1 == Receding ==>
      var d := Step(cfg, t, s).0.sizes; d != [] && d[|d| - 1] < cfg.exitPeakGuardRatio * d[PeakIndex(d, |d|)]
  {
    hide Verdict, Step;
    if Step(cfg, t, s).1 == Receding {
      EventIsVerdict(cfg, t, s);
      var u := Step(cfg, t, s).0;
      RecedingVerdict(cfg, u.sizes, u.ys);
    }
  }

  /** The sighting opens a pass or is no larger than the sample before it. */
  ghost predicate NoGrowth(cfg: Config, t: Track, s: Sighting) {
    Resets(cfg, t, s.ts) || t.sizes == [] || s.size <= t.sizes[|t.sizes| - 1]
  }

  /** The sighting opens a pass, carries no size, or is no smaller than the sample before it. */
  ghost predicate NoShrinking(cfg: Config, t: Track, s: Sighting) {
    Resets(cfg, t, s.ts) || t.sizes == [] || s.size <= 0.0 || s.size >= t.sizes[|t.sizes| - 1]
  }

  ghost predicate Falling(cfg: Config, run: seq<Sighting>)
  {
    run == [] ||
    (Falling(cfg, run[..|run| - 1]) && NoGrowth(cfg, Watch(cfg, run[..|run| - 1]).track, run[|run| - 1]))
  }

  ghost predicate Rising(cfg: Config, run: seq<Sighting>)
  {
    run == [] ||
    (Rising(cfg, run[..|run| - 1]) && NoShrinking(cfg, Watch(cfg, run[..|run| - 1]).track, run[|run| - 1]))
  }

  lemma StepKeepsFalling(cfg: Config, t: Track, s: Sighting)
    requires ValidTrack(t) && cfg.minGrowthRatio > 1.0
    requires NonIncreasing(t.sizes) && t.reported != Approaching && NoGrowth(cfg, t, s)
    ensures var (u, e) := Step(cfg, t, s); NonIncreasing(u.sizes) && u.reported != Approaching && e != Approaching
  {
    hide Verdict, Resets;
    var u := Record(Arrive(cfg, t, s.ts), s.size, s.y);
    assert NonIncreasing(u.sizes);
    if u.sizes != [] {
      FallingVerdict(cfg, u.sizes, u.ys);
    }
  }

  /** A plate that never grows during its passes is never reported as approaching. */
  lemma {:induction false} FallingNeverApproaches(cfg: Config, run: seq<Sighting>)
    requires Falling(cfg, run) && cfg.minGrowthRatio > 1.0
    ensures NonIncreasing(Watch(cfg, run).track.sizes) && Watch(cfg, run).track.reported != Approaching
    ensures Approaching !in Watch(cfg, run).log
  {
    hide Step, Resets;
    if run == [] {
    } else {
      FallingNeverApproaches(cfg, run[..|run| - 1]);
      StepKeepsFalling(cfg, Watch(cfg, run[..|run| - 1]).track, run[|run| - 1]);
    }
  }

  lemma ScaledDown(c: real, x: real)
    requires c <= 1.0 && x >= 0.0
    ensures c * x <= x
  {
  }

  lemma RecordKeepsRising(cfg: Config, t: Track, s: Sighting)
    requires ValidTrack(t) && NonDecreasing(t.sizes) && NoShrinking(cfg, t, s)
    ensures NonDecreasing(Record(Arrive(cfg, t, s.ts), s.size, s.y).sizes) && NonDecreasing(Arrive(cfg, t, s.ts).sizes)
  {
    hide Resets;
  }

  lemma StepRecords(cfg: Config, t: Track, s: Sighting)
    requires ValidTrack(t)
    ensures var u, v := Step(cfg, t, s).0, Arrive(cfg, t, s.ts);
      u.sizes == if v.locked then v.sizes else Record(v, s.size, s.y).sizes
    ensures var (u, e) := Step(cfg, t, s);
      u.reported in {Unknown, t.reported, e}
  {
    hide Verdict, Resets;
  }

  lemma NewestAfter(cfg: Config, t: Track, s: Sighting)
    requires ValidTrack(t)
    ensures var d := Step(cfg, t, s).0.sizes;
      d == [] || d == t.sizes || (s.size > 0.0 && d[|d| - 1] == s.size)
  {
    hide Step, Resets;
    StepRecords(cfg, t, s);
  }

  lemma StepKeepsRising(cfg: Config, t: Track, s: Sighting)
    requires ValidTrack(t) && cfg.exitPeakGuardRatio <= 1.0
    requires NonDecreasing(t.sizes) && t.reported != Receding && NoShrinking(cfg, t, s)
    ensures var (u, e) := Step(cfg, t, s); NonDecreasing(u.sizes) && u.reported != Receding && e != Receding
  {
    hide Step, Resets, Record, Arrive, PeakIndex;
    RecordKeepsRising(cfg, t, s);
    StepKeepsTrackValid(cfg, t, s);
    StepRecords(cfg, t, s);
    var (u, e) := Step(cfg, t, s);
    NoExitAtThePeak(cfg, t, s);
  }

  lemma NoExitAtThePeak(cfg: Config, t: Track, s: Sighting)
    requires ValidTrack(t) && cfg.exitPeakGuardRatio <= 1.0
    ensures NonDecreasing(Step(cfg, t, s).0.sizes) ==> Step(cfg, t, s).1 != Receding
  {
    hide Step, PeakIndex, NonDecreasing;
    StepKeepsTrackValid(cfg, t, s);
    if NonDecreasing(Step(cfg, t, s).0.sizes) && Step(cfg, t, s).1 == Receding {
      RecedingMeansShrunk(cfg, t, s);
      PeakOfRising(Step(cfg, t, s).0.sizes, cfg.exitPeakGuardRatio);
    }
  }

  lemma {:induction false} PeakOfRising(d: seq<real>, c: real)
    requires d != [] && NonDecreasing(d) && c <= 1.0 && d[PeakIndex(d, |d|)] > 0.0
    ensures d[|d| - 1] >= c * d[PeakIndex(d, |d|)]
  {
    ScaledDown(c, d[PeakIndex(d, |d|)]);
    assert d[PeakIndex(d, |d|)] <= d[|d| - 1];
  }

  /** A plate that never shrinks during its passes is never reported as receding. */
  lemma {:induction false} RisingNeverRecedes(cfg: Config, run: seq<Sighting>)
    requires Rising(cfg, run) && cfg.exitPeakGuardRatio <= 1.0
    ensures NonDecreasing(Watch(cfg, run).track.sizes) && Watch(cfg, run).track.reported != Receding
    ensures Receding !in Watch(cfg, run).log
  {
    hide Step, Resets;
    if run == [] {
    } else {
      RisingNeverRecedes(cfg, run[..|run| - 1]);
      StepKeepsRising(cfg, Watch(cfg, run[..|run| - 1]).track, run[|run| - 1]);
    }
  }

  // ----- Runs whose sizes are monotone from first to last -----

  function Sizes(run: seq<Sighting>): (r: seq<real>)
    ensures |r| == |run| && forall i | 0 <= i < |run| :: r[i] == run[i].size
  {
    seq(|run|, i requires 0 <= i < |run| => run[i].size)
  }

  lemma {:induction false} MonotoneIsFalling(cfg: Config, run: seq<Sighting>)
    requires NonIncreasing(Sizes(run))
    ensures Falling(cfg, run)
    ensures var d := Watch(cfg, run).track.sizes; run != [] && d != [] ==> d[|d| - 1] >= run[|run| - 1].size
  {
    hide Step, Resets, Record, Arrive;
    if run == [] {
    } else {
      var n := |run| - 1;
      assert forall i | 0 <= i < n :: Sizes(run[..n])[i] == Sizes(run)[i];
      MonotoneIsFalling(cfg, run[..n]);
      assert n > 0 ==> Sizes(run)[n - 1] >= Sizes(run)[n];
      NewestAfter(cfg, Watch(cfg, run[..n]).track, run[n]);
    }
  }

  lemma {:induction false} MonotoneIsRising(cfg: Config, run: seq<Sighting>)
    requires NonDecreasing(Sizes(run))
    ensures Rising(cfg, run)
    ensures var d := Watch(cfg, run).track.sizes; run != [] && d != [] ==> d[|d| - 1] <= run[|run| - 1].size
  {
    hide Step, Resets, Record, Arrive;
    if run == [] {
    } else {
      var n := |run| - 1;
      assert forall i | 0 <= i < n :: Sizes(run[..n])[i] == Sizes(run)[i];
      MonotoneIsRising(cfg, run[..n]);
      assert n > 0 ==> Sizes(run)[n - 1] <= Sizes(run)[n];
      NewestAfter(cfg, Watch(cfg, run[..n]).track, run[n]);
    }
  }

  /** Sizes that never rise are never called approaching, and sizes that never drop never receding, however
      long the run and wherever its passes are cut. */
  lemma {:induction false} MonotoneRunsAreNotMisread(cfg: Config, run: seq<Sighting>)
    ensures NonIncreasing(Sizes(run)) && cfg.minGrowthRatio > 1.0 ==> Approaching !in Watch(cfg, run).log
    ensures NonDecreasing(Sizes(run)) && cfg.exitPeakGuardRatio <= 1.0 ==> Receding !in Watch(cfg, run).log
  {
    hide Watch, NonIncreasing, NonDecreasing;
    if NonIncreasing(Sizes(run)) && cfg.minGrowthRatio > 1.0 {
      MonotoneIsFalling(cfg, run);
      FallingNeverApproaches(cfg, run);
    }
    if NonDecreasing(Sizes(run)) && cfg.exitPeakGuardRatio <= 1.0 {
      MonotoneIsRising(cfg, run);
      RisingNeverRecedes(cfg, run);
    }
  }

  // ----- Time to decision -----

  /** Every size is at least `ratio` times the one before. */
  ghost predicate Growing(ratio: real, sizes: seq<real>) {
    (sizes != [] ==> sizes[0] > 0.0) && forall i | 0 < i < |sizes| :: sizes[i] >= ratio * sizes[i - 1]
  }

  /** No sighting of the run starts a new pass. */
  ghost predicate Unbroken(cfg: Config, run: seq<Sighting>)
  {
    run == [] ||
    (Unbroken(cfg, run[..|run| - 1]) && !Resets(cfg, Watch(cfg, run[..|run| - 1]).track, run[|run| - 1].ts))
  }

  lemma Stretch(c: real, x: real, y: real)
    requires c > 1.0 && 0.0 < x <= y
    ensures c * x <= c * y && x < c * x
  {
  }

  lemma GrowingApart(ratio: real, sizes: seq<real>, i: nat, j: nat)
    requires ratio > 1.0 && Growing(ratio, sizes) && i <= j < |sizes|
    ensures 0.0 < sizes[i] <= sizes[j]
    ensures i < j ==> ratio * sizes[i] <= sizes[j]
  {
    hide Growing;
    if i < j {
      GrowingApart(ratio, sizes, i, j - 1);
      GrowsBy(ratio, sizes, j);
      Stretch(ratio, sizes[i], sizes[j - 1]);
    } else if i > 0 {
      GrowingApart(ratio, sizes, i - 1, i - 1);
      GrowsBy(ratio, sizes, i);
      Stretch(ratio, sizes[i - 1], sizes[i - 1]);
    } else {
      GrowsBy(ratio, sizes, 0);
    }
  }

  lemma GrowsBy(ratio: real, sizes: seq<real>, i: nat)
    requires Growing(ratio, sizes) && i < |sizes|
    ensures if i == 0 then sizes[0] > 0.0 else ratio * sizes[i - 1] <= sizes[i]
  {
  }

  lemma DivideBack(c: real, s0: real, s1: real)
    requires s0 > 0.0 && c * s0 <= s1
    ensures s1 / s0 >= c
  {
  }

  lemma GrowingVerdict(cfg: Config, sizes: seq<real>, ys: seq<real>)
    requires |sizes| == |ys| && |sizes| >= 2 && Growing(cfg.minGrowthRatio, sizes)
    requires cfg.minGrowthRatio > 1.0 && !cfg.requireYAgree
    ensures Verdict(cfg, sizes, ys) == Approaching
  {
    hide AvgFirst, AvgLast, PeakIndex, Growing;
    GrowingAverages(cfg.window, sizes, cfg.minGrowthRatio);
  }

  lemma GrowingAverages(window: int, sizes: seq<real>, c: real)
    requires |sizes| >= 2 && Growing(c, sizes) && c > 1.0
    ensures AvgFirst(window, sizes) > 0.0 && AvgLast(window, sizes) / AvgFirst(window, sizes) >= c
  {
    hide AvgFirst, AvgLast, TrendWindow, Growing;
    var n := TrendWindow(window, |sizes|);
    forall i: nat | i < n ensures c * sizes[i] <= sizes[|sizes| - n + i] {
      GrowingApart(c, sizes, i, |sizes| - n + i);
    }
    AveragesScaled(window, sizes, c);
    forall i: nat | i < |sizes| ensures sizes[i] > 0.0 {
      GrowingApart(c, sizes, i, i);
    }
    AverageIsPositive(window, sizes);
    DivideBack(c, AvgFirst(window, sizes), AvgLast(window, sizes));
  }

  function LockPoint(cfg: Config): int {
    Min(cfg.minSightings + cfg.confirmAgreeing - 1, cfg.confirmSightings)
  }

  /** The state of a steadily growing pass after its first `n` sightings. */
  ghost predicate OnCourse(cfg: Config, t: Track, sizes: seq<real>) {
    var n := |sizes|;
    t.reported == (if n >= cfg.minSightings then Approaching else Unknown) &&
    (t.locked <==> n >= LockPoint(cfg)) &&
    (!t.locked ==> t.sizes == sizes && t.pendingDir == t.reported && t.agree == Max(0, n - cfg.minSightings + 1))
  }

  lemma StepStaysOnCourse(cfg: Config, t: Track, sizes: seq<real>, s: Sighting)
    requires 2 <= cfg.minSightings <= cfg.confirmSightings <= MAX_SAMPLES && cfg.confirmAgreeing >= 1
    requires cfg.minGrowthRatio > 1.0 && !cfg.requireYAgree
    requires ValidTrack(t) && OnCourse(cfg, t, sizes) && !Resets(cfg, t, s.ts)
    requires Growing(cfg.minGrowthRatio, sizes + [s.size]) && s.size > 0.0
    ensures OnCourse(cfg, Step(cfg, t, s).0, sizes + [s.size])
    ensures Step(cfg, t, s).1 == if |sizes| + 1 == cfg.minSightings then Approaching else Unknown
  {
    hide Verdict, Growing, Resets;
    var u := Arrive(cfg, t, s.ts);
    if !u.locked && |sizes| + 1 >= cfg.minSightings {
      GrowingVerdict(cfg, sizes + [s.size], u.ys + [s.y]);
    }
  }

  /** A pass that grows by `minGrowthRatio` at every sighting is called approaching exactly once, at sighting
      `minSightings`, and is locked exactly from sighting min(minSightings + confirmAgreeing - 1,
      confirmSightings) on. */
  lemma {:induction false} TimeToDecision(cfg: Config, run: seq<Sighting>)
    requires 2 <= cfg.minSightings <= cfg.confirmSightings <= MAX_SAMPLES && cfg.confirmAgreeing >= 1
    requires cfg.minGrowthRatio > 1.0 && !cfg.requireYAgree
    requires Unbroken(cfg, run) && Growing(cfg.minGrowthRatio, Sizes(run))
    ensures OnCourse(cfg, Watch(cfg, run).track, Sizes(run))
    ensures forall k | 0 <= k < |run| ::
      Watch(cfg, run).log[k] == if k + 1 == cfg.minSightings then Approaching else Unknown
    ensures Watch(cfg, run).track.locked <==> |run| >= LockPoint(cfg)
  {
    hide Step, Resets, Growing;
    if run != [] {
      var n := |run| - 1;
      var sizes := Sizes(run[..n]);
      assert Sizes(run) == sizes + [run[n].size];
      GrowingPrefix(cfg.minGrowthRatio, sizes, run[n].size);
      GrowingApart(cfg.minGrowthRatio, Sizes(run), n, n);
      TimeToDecision(cfg, run[..n]);
      StepStaysOnCourse(cfg, Watch(cfg, run[..n]).track, sizes, run[n]);
    } else {
      assert Sizes(run) == [];
    }
  }

  lemma GrowingPrefix(ratio: real, sizes: seq<real>, x: real)
    requires Growing(ratio, sizes + [x])
    ensures Growing(ratio, sizes)
  {
    forall i | 0 < i < |sizes| ensures sizes[i] >= ratio * sizes[i - 1] {
      assert (sizes + [x])[i] >= ratio * (sizes + [x])[i - 1];
    }
    if sizes != [] {
      assert (sizes + [x])[0] == sizes[0];
    }
  }
}
