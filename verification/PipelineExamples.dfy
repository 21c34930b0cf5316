/**
 Runs of the whole pipeline that end badly. Plates that are read in every frame and never announced, against
 src/manager/DetectionWorker.cpp:355-361: jitter keeps resetting the track that counts the hold
 (src/process/DirectionEstimator.cpp:57-63), and a hold that starts with the sample history full cannot count at all (lines
 69-74). And a corrected text that the processor sends to have the record corrected
 (src/process/PlateProcessor.cpp:134-145), which the worker keeps to itself (src/manager/DetectionWorker.cpp:450-461).
 */
module PipelineExamples {
  import opened Plates
  import opened DetectionWorker
  import opened AnnounceProtocol
  import opened AnnounceExamples
  import opened BoundedHold
  import opened Pipeline
  import opened PlateAnnounced
  import PP = PlateProcessor
  import V = PlateVoting
  import D = Direction
  import P = DirectionPasses
  import J = JaroWinkler

  // ----- Jitter -----

  const PROCESSOR := PP.Config(_ => true, 0.85, 0.0, 0, 8000, 0)

  /** Plate "a", readable, with this size and at this time. */
  function Sight(side: real, time: int): PlateResult {
    NO_PLATE.(text := "a", side := side, timestamp := time, gate := "1")
  }

  function ShotAt(side: real, time: int): Shot {
    Shot("1", time, time, [Sight(side, time)])
  }

  /** Frames 100 and 400 after each other, over and over. */
  function Jitter(time: int, n: nat): seq<Shot>
    decreases n
  {
    if n == 0 then []
    else [ShotAt(10.0, time + 100), ShotAt(10.0, time + 500)] + Jitter(time + 500, n - 1)
  }

  function OneSample(time: int): D.Track {
    D.FRESH_TRACK.(sizes := [10.0], ys := [0.0], lastTs := time)
  }

  function TwoSamples(time: int): D.Track {
    OneSample(time).(sizes := [10.0, 10.0], ys := [0.0, 0.0], lastTs := time + 100, lastInterval := 100)
  }

  function SightingAt(time: int): D.Sighting { D.Sighting(10.0, 0.0, time) }

  lemma OneLargest(shot: Shot)
    requires |shot.plates| == 1 && shot.plates[0].text != "" && shot.plates[0].side > 0.0
    ensures Largest(Unanswered(shot).batch, |Unanswered(shot).batch|) == 0
  {
  }

  lemma FeedOne(tracks: map<string, D.Track>, time: int)
    requires ValidTracks(tracks)
    ensures Feed(CFG, tracks, Unanswered(ShotAt(10.0, time))) ==
      tracks["1" := D.Step(CFG.direction, D.TrackIn(tracks, "1"), SightingAt(time)).0]
  {
    hide D.Step;
    OneLargest(ShotAt(10.0, time));
  }

  lemma FirstStep(time: int)
    ensures D.Step(CFG.direction, D.FRESH_TRACK, SightingAt(time)).0 == OneSample(time)
  {
    hide D.Verdict;
    assert [] + [10.0] == [10.0] && [] + [0.0] == [0.0];
  }

  lemma SecondStep(time: int)
    requires time > 0
    ensures D.Step(CFG.direction, OneSample(time), SightingAt(time + 100)).0 == TwoSamples(time)
  {
    hide D.Verdict;
    assert [10.0] + [10.0] == [10.0, 10.0] && [0.0] + [0.0] == [0.0, 0.0];
  }

  lemma ResettingStep(time: int)
    requires time > 0
    ensures D.Step(CFG.direction, TwoSamples(time), SightingAt(time + 500)).0 == OneSample(time + 500)
  {
    hide D.Verdict;
    assert [] + [10.0] == [10.0] && [] + [0.0] == [0.0];
  }

  /** With one or two samples in a track that counts a hold from its first, nothing is released. */
  lemma TooFewSamples(st: PassState, t: D.Track, f: Frame)
    requires st.pendingSince == 1 && f.gate == "1" && |t.sizes| <= 2 && t.reported == D.Unknown
    ensures !Releases(CFG, st, MomentOf(map["1" := t], f))
  {
  }

  /** One frame that does not release the plate settles no more than the frames after it. */
  lemma {:induction false} OneFurther(st: PassState, t: D.Track, u: D.Track, frames: seq<Frame>)
    requires D.ValidTrack(t) && D.ValidTrack(u) && frames != [] && frames[0].gate == "1"
    requires Feed(CFG, map["1" := t], frames[0]) == map["1" := u]
    requires st.pendingSince == 1 && |u.sizes| <= 2 && u.reported == D.Unknown
    ensures Settles(CFG, st, map["1" := t], "1", frames) <==> Settles(CFG, st, map["1" := u], "1", frames[1..])
  {
    hide Feed, Releases, D.ValidTrack;
    TooFewSamples(st, u, frames[0]);
  }

  lemma JitterTracks(time: int)
    requires time > 0
    ensures D.ValidTrack(OneSample(time)) && D.ValidTrack(TwoSamples(time))
    ensures Feed(CFG, map["1" := OneSample(time)], Unanswered(ShotAt(10.0, time + 100))) == map["1" := TwoSamples(time)]
    ensures Feed(CFG, map["1" := TwoSamples(time)], Unanswered(ShotAt(10.0, time + 500))) ==
      map["1" := OneSample(time + 500)]
  {
    hide Feed, D.Step;
    var one, two, three := map["1" := OneSample(time)], map["1" := TwoSamples(time)], map["1" := OneSample(time + 500)];
    FeedOne(one, time + 100);
    SecondStep(time);
    assert one["1" := TwoSamples(time)] == two;
    FeedOne(two, time + 500);
    ResettingStep(time);
    assert two["1" := OneSample(time + 500)] == three;
  }

  /** A hold of two sightings that began with the first sample never sees a third. */
  lemma {:induction false} JitterSettlesNothing(st: PassState, time: int, n: nat)
    requires time > 0 && st.pendingSince == 1
    ensures ValidTracks(map["1" := OneSample(time)])
    ensures !Settles(CFG, st, map["1" := OneSample(time)], "1", Suppressed(Jitter(time, n)))
    decreases n
  {
    hide Feed, Jitter, Suppressed, Settles, Sight;
    JitterTracks(time);
    JitterTracks(time + 500);
    if n == 0 {
      NothingSettles(st, map["1" := OneSample(time)], time);
    } else {
      var frames := Suppressed(Jitter(time, n));
      FirstTwo(time, n);
      OneFurther(st, OneSample(time), TwoSamples(time), frames);
      OneFurther(st, TwoSamples(time), OneSample(time + 500), frames[1..]);
      JitterSettlesNothing(st, time + 500, n - 1);
    }
  }

  lemma {:induction false} NothingSettles(st: PassState, tracks: map<string, D.Track>, time: int)
    requires ValidTracks(tracks)
    ensures !Settles(CFG, st, tracks, "1", Suppressed(Jitter(time, 0)))
  {
  }

  lemma FirstTwo(time: int, n: nat)
    requires n > 0
    ensures var frames := Suppressed(Jitter(time, n));
      |frames| >= 2 && frames[0] == Unanswered(ShotAt(10.0, time + 100)) &&
      frames[1] == Unanswered(ShotAt(10.0, time + 500)) && frames[1..][1..] == Suppressed(Jitter(time + 500, n - 1))
  {
    var shots := Jitter(time, n);
    assert shots[1..] == [shots[1]] + Jitter(time + 500, n - 1);
    assert shots[1..][1..] == Jitter(time + 500, n - 1);
    assert Suppressed(shots)[1..] == Suppressed(shots[1..]);
    assert Suppressed(shots[1..])[1..] == Suppressed(shots[1..][1..]);
  }

  lemma {:induction false} JitterShows(time: int, n: nat)
    requires time > 0
    ensures ShowsOn(PROCESSOR, "1", "a", time, Jitter(time, n))
    decreases n
  {
    if n == 0 {
    } else {
      var shots := Jitter(time, n);
      JitterShows(time + 500, n - 1);
      assert shots[1..][1..] == Jitter(time + 500, n - 1);
    }
  }

  lemma ColdStart()
    ensures ValidLine(PROCESSOR, Line(PP.EMPTY, START, map[])) && Good(START)
  {
  }

  /** The first frame holds the plate with its first sample. */
  lemma FirstShotIsHeld(first: Line)
    requires V.Inv(PROCESSOR, PP.EMPTY) && first == LineStep(PROCESSOR, CFG, Line(PP.EMPTY, START, map[]), ShotAt(10.0, 1))
    ensures "1" in first.w.passes && first.w.passes["1"].pendingSince == 1 && first.tracks == map["1" := OneSample(1)]
  {
    hide Feed, D.Step, PP.Process, Answers, ReadSteps, V.Inv, Announced;
    var l, shot := Line(PP.EMPTY, START, map[]), ShotAt(10.0, 1);
    var f := FrameOf(PROCESSOR, l.store, shot);
    FeedIgnoresAnswers(PROCESSOR, CFG, l.store, l.tracks, shot);
    FeedOne(map[], 1);
    FirstStep(1);
    FirstFrame(PROCESSOR, CFG, l, "1", "a", shot);
    ReadsHoldSince(CFG, l.w, f.batch, MomentOf(first.tracks, f));
  }

  /** From a cold start, however long it goes on: plate "a" is read in every frame of the jitter, each gap far below the
      configured ones, and nothing is ever emitted. */
  lemma {:induction false} JitterIsNeverAnnounced(n: nat)
    ensures ValidLine(PROCESSOR, Line(PP.EMPTY, START, map[]))
    ensures Lines(PROCESSOR, CFG, Line(PP.EMPTY, START, map[]), [ShotAt(10.0, 1)] + Jitter(1, n)).w.log == []
  {
    hide Lines, LineStep, Settles, Jitter, Suppressed, Announced, Good, ValidLine, D.ValidTrack;
    var l, shots := Line(PP.EMPTY, START, map[]), [ShotAt(10.0, 1)] + Jitter(1, n);
    assert shots[1..] == Jitter(1, n);
    ColdStart();
    JitterShows(1, n);
    ValidLineHasInv(l);
    var first := LineStep(PROCESSOR, CFG, l, ShotAt(10.0, 1));
    FirstShotIsHeld(first);
    JitterSettlesNothing(first.w.passes["1"], 1, n);
    AnnouncedExactly(PROCESSOR, CFG, l, "1", "a", shots);
  }

  lemma ValidLineHasInv(l: Line)
    requires ValidLine(PROCESSOR, l)
    ensures V.Inv(PROCESSOR, l.store)
  {
  }

  // ----- A full history -----

  /** All samples are of one size, and no direction is known. */
  ghost predicate Standing(t: D.Track, size: real) {
    D.ValidTrack(t) && (forall i | 0 <= i < |t.sizes| :: t.sizes[i] == size) && t.reported == D.Unknown
  }

  lemma StillStanding(cfg: D.Config, t: D.Track, s: D.Sighting)
    requires Standing(t, s.size) && cfg.minGrowthRatio > 1.0 && cfg.exitPeakGuardRatio <= 1.0
    ensures Standing(D.Step(cfg, t, s).0, s.size)
  {
    hide D.Step, D.Resets;
    P.StepKeepsFalling(cfg, t, s);
    P.StepKeepsRising(cfg, t, s);
    P.StepRecords(cfg, t, s);
    D.StepKeepsTrackValid(cfg, t, s);
  }

  /** Every frame at the gate shows the vehicle at this size. */
  ghost predicate StandsOn(gate: string, size: real, frames: seq<Frame>) {
    forall i | 0 <= i < |frames| && frames[i].gate == gate ::
      var k := Largest(frames[i].batch, |frames[i].batch|);
      k >= 0 ==> frames[i].batch[k].plate.side == size
  }

  /** A vehicle that stands still never settles a hold that would run past the samples kept, in any frames at any gates. */
  lemma {:induction false} StandingSettlesNothing(
      cfg: Config, st: PassState, tracks: map<string, D.Track>, gate: string, size: real, frames: seq<Frame>)
    requires ValidTracks(tracks) && Standing(D.TrackIn(tracks, gate), size) && StandsOn(gate, size, frames)
    requires cfg.direction.minGrowthRatio > 1.0 && cfg.direction.exitPeakGuardRatio <= 1.0
    requires st.pendingSince + cfg.direction.announceHoldSightings > D.MAX_SAMPLES
    ensures !Settles(cfg, st, tracks, gate, frames)
    decreases |frames|
  {
    hide Releases, D.Step, Standing;
    if frames == [] {
    } else {
      var f := frames[0];
      FeedKeepsValid(cfg, tracks, f);
      var next := Feed(cfg, tracks, f);
      assert f == frames[0];
      StandingFrame(cfg, tracks, gate, size, f);
      StandingIsUnknown(D.TrackIn(next, gate), size);
      PastTheCap(cfg, st, next, f);
      StandingSettlesNothing(cfg, st, next, gate, size, frames[1..]);
    }
  }

  lemma StandingIsUnknown(t: D.Track, size: real)
    requires Standing(t, size)
    ensures t.reported == D.Unknown
  {
  }

  lemma StandingFrame(
      cfg: Config, tracks: map<string, D.Track>, gate: string, size: real, f: Frame)
    requires ValidTracks(tracks) && Standing(D.TrackIn(tracks, gate), size)
    requires cfg.direction.minGrowthRatio > 1.0 && cfg.direction.exitPeakGuardRatio <= 1.0
    requires f.gate == gate ==>
      var k := Largest(f.batch, |f.batch|); k >= 0 ==> f.batch[k].plate.side == size
    ensures Standing(D.TrackIn(Feed(cfg, tracks, f), gate), size)
  {
    hide D.Step, Standing, Largest;
    var k := Largest(f.batch, |f.batch|);
    if cfg.directionEnable && k >= 0 && f.gate == gate {
      var p := f.batch[k].plate;
      StillStanding(cfg.direction, D.TrackIn(tracks, gate), D.Sighting(p.side, p.yCenter, f.nowMs));
    }
  }

  /** So a plate held behind a standing vehicle whose history is full is never released by reads of itself. */
  lemma {:induction false} StandingIsNeverReleased(
      cfg: Config, s: System, gate: string, size: real, frames: seq<Frame>)
    requires ValidTracks(s.tracks) && Good(s.w) && cfg.directionEnable
    requires gate in s.w.passes && s.w.passes[gate].pendingEarly
    requires forall i | 0 <= i < |frames| ::
      Echoes(cfg, s.w.passes[gate], gate, frames[i]) || Elsewhere(s.w.passes[gate], gate, frames[i])
    requires Standing(D.TrackIn(s.tracks, gate), size) && StandsOn(gate, size, frames)
    requires cfg.direction.minGrowthRatio > 1.0 && cfg.direction.exitPeakGuardRatio <= 1.0
    requires |D.TrackIn(s.tracks, gate).sizes| == D.MAX_SAMPLES == s.w.passes[gate].pendingSince
    requires cfg.direction.announceHoldSightings > 0
    ensures var w := Frames(cfg, s, frames).w;
      gate in w.passes && w.passes[gate] == s.w.passes[gate] &&
      !Released(s.w.passes[gate].pendingItem, s.w.log, w.log)
  {
    hide Echoes, Elsewhere, Good, Settles, Released, Standing, StandsOn;
    StandingSettlesNothing(cfg, s.w.passes[gate], s.tracks, gate, size, frames);
    HoldEndsExactly(cfg, s, gate, frames);
  }

  // ----- A corrected text -----

  const PLAIN := CFG.(directionEnable := false)

  /** A plate of a tracked vehicle. */
  function Tracked(text: string, confidence: real, time: int): PlateResult {
    NO_PLATE.(text := text, confidence := confidence, side := 10.0, timestamp := time, gate := "1", trackId := 7)
  }

  function TrackedShot(text: string, confidence: real, time: int): Shot {
    Shot("1", time, time, [Tracked(text, confidence, time)])
  }

  lemma OneVote(text: string)
    ensures PP.Consensus([PP.Vote(text, 50.0)]) == text
  {
    var votes := [PP.Vote(text, 50.0)];
    assert votes[..0] == [] && PP.Texts([]) == [];
    assert [] + [text] == [text] && [text][..0] == [];
    assert PP.Texts(votes) == [text];
    assert PP.Heaviest(votes, []) == PP.Vote("", -1.0);
    assert PP.WeightOf(votes, text) == 50.0;
  }

  lemma SecondVoteWins(x: string, y: string)
    requires x != y
    ensures PP.Consensus([PP.Vote(x, 50.0), PP.Vote(y, 90.0)]) == y
  {
    var one, votes := [PP.Vote(x, 50.0)], [PP.Vote(x, 50.0), PP.Vote(y, 90.0)];
    assert votes[..1] == one && one[..0] == [] && PP.Texts([]) == [];
    assert PP.Texts(one) == [x] && PP.Texts(votes) == [x, y];
    assert [x, y][..1] == [x] && [x][..0] == [];
    assert PP.WeightOf(one, x) == 50.0 && PP.WeightOf(one, y) == 0.0;
    assert PP.WeightOf(votes, x) == 50.0 && PP.WeightOf(votes, y) == 90.0;
    assert PP.Heaviest(votes, [x]) == PP.Vote(x, 50.0);
  }

  /** The store after the vehicle's first read. */
  ghost predicate VotedFor(s: PP.Store, text: string) {
    var k := PP.TrackedKey(7);
    s.order == [k] && s.tracks.Keys == {k} && s.tracks[k].votes == [PP.Vote(text, 50.0)] &&
    s.tracks[k].sent && s.tracks[k].lastSent == text && s.tracks[k].passId != 0
  }

  lemma FirstIsSent(text: string)
    requires text != ""
    ensures var (s, kept) := PP.Process(PROCESSOR, PP.EMPTY, Tracked(text, 0.5, 1));
      VotedFor(s, text) && kept.Some? && kept.value.text == text
  {
    hide PP.Consensus, PP.Joins, PP.TrackedKey;
    OneVote(text);
    assert [] + [PP.Vote(text, 50.0)] == [PP.Vote(text, 50.0)];
    assert [] + [PP.TrackedKey(7)] == [PP.TrackedKey(7)];
  }

  lemma CorrectionIsSent(s: PP.Store, x: string, y: string)
    requires x != y && y != "" && VotedFor(s, x) && PP.WellKeyed(s)
    ensures var kept := PP.Process(PROCESSOR, s, Tracked(y, 0.9, 2)).1; kept.Some? && kept.value.text == y
  {
    hide PP.Consensus, PP.Joins, PP.TrackedKey, PP.WellKeyed;
    SecondVoteWins(x, y);
    assert [PP.Vote(x, 50.0)] + [PP.Vote(y, 90.0)] == [PP.Vote(x, 50.0), PP.Vote(y, 90.0)];
  }

  lemma FirstIsAnnounced(plate: PlateResult, raw: PlateResult)
    ensures ReadStep(PLAIN, START, Read(raw, Some(plate)), Moment("1", 1, 1, 0, 0)) ==
      Worker(map["1" := PassState(1, plate.text, 1, 0, true, 0, false, NO_ITEM, 0)], 2,
             [PlateItem(plate.(passId := 1, direction := 0), "1", 1, false)])
  {
    hide Similar, ReadStep;
    KeptReadForm(PLAIN, START, plate, Moment("1", 1, 1, 0, 0), raw);
    assert Pruned(START.passes, 1) == map[];
  }

  lemma {:induction false} OneRead(pcfg: PP.Config, cfg: Config, l: Line, shot: Shot)
    requires ValidLine(pcfg, l) && |shot.plates| == 1 && !cfg.directionEnable && l.tracks == map[]
    ensures var (s, kept) := PP.Process(pcfg, l.store, shot.plates[0]);
      Answers(pcfg, l.store, shot.plates).1 == [Read(shot.plates[0], kept)] &&
      LineStep(pcfg, cfg, l, shot) ==
      Line(s, ReadStep(cfg, l.w, Read(shot.plates[0], kept), Moment(shot.gate, shot.timestamp, shot.nowMs, 0, 0)), map[])
  {
    hide PP.Process, V.Inv, ReadStep, Answers;
    OneAnswer(pcfg, l.store, shot);
    var f := FrameOf(pcfg, l.store, shot);
    var m := MomentOf(l.tracks, f);
    assert m == Moment(shot.gate, shot.timestamp, shot.nowMs, 0, 0);
    assert f.batch[..0] == [];
    assert ReadSteps(cfg, l.w, [], m) == l.w;
    assert ReadSteps(cfg, l.w, f.batch, m) == ReadStep(cfg, l.w, f.batch[0], m);
  }

  lemma ValidLineIsKeyed(l: Line)
    requires ValidLine(PROCESSOR, l)
    ensures PP.WellKeyed(l.store)
  {
  }

  /** The worker after the first announce: a similar text soon after changes nothing that it has sent. */
  lemma NextIsQuiet(first: PlateResult, plate: PlateResult, raw: PlateResult)
    requires first.text != "" && Similar(PLAIN, first.text, plate.text)
    ensures var w := ReadStep(PLAIN, START, Read(first, Some(first)), Moment("1", 1, 1, 0, 0));
      |w.log| == 1 && w.log[0].plate.text == first.text &&
      ReadStep(PLAIN, w, Read(raw, Some(plate)), Moment("1", 2, 2, 0, 0)).log == w.log
  {
    hide Similar, ReadStep, Good;
    ColdStart();
    FirstIsAnnounced(first, first);
    var w := ReadStep(PLAIN, START, Read(first, Some(first)), Moment("1", 1, 1, 0, 0));
    ReadKeepsGood(PLAIN, START, Read(first, Some(first)), Moment("1", 1, 1, 0, 0));
    OnlyDirectionIsCorrected(PLAIN, w, plate, Moment("1", 2, 2, 0, 0), raw);
    assert w.log + [] == w.log;
  }

  lemma RawIsIgnored(w: Worker, plate: PlateResult, raw: PlateResult, m: Moment)
    ensures ReadStep(PLAIN, w, Read(raw, Some(plate)), m) == ReadStep(PLAIN, w, Read(plate, Some(plate)), m)
  {
    hide EnterPass, Kept;
  }

  /** For all texts that differ and are similar enough to be of one pass: the processor sends the second to have the first
      corrected, and the only item that leaves the worker still has the first. */
  lemma CorrectedTextIsNotSent(x: string, y: string)
    requires x != y && x != "" && y != "" && Similar(PLAIN, x, y)
    ensures ValidLine(PROCESSOR, Line(PP.EMPTY, START, map[]))
    ensures var first := LineStep(PROCESSOR, PLAIN, Line(PP.EMPTY, START, map[]), TrackedShot(x, 0.5, 1));
      var second := LineStep(PROCESSOR, PLAIN, first, TrackedShot(y, 0.9, 2));
      var kept := Answers(PROCESSOR, first.store, TrackedShot(y, 0.9, 2).plates).1[0].kept;
      kept.Some? && kept.value.text == y && |second.w.log| == 1 && second.w.log[0].plate.text == x
  {
    hide PP.Process, V.Inv, Similar, ReadStep, VotedFor, Answers, LineStep, Good, ValidLine;
    var l := Line(PP.EMPTY, START, map[]);
    var p, q := Tracked(x, 0.5, 1), Tracked(y, 0.9, 2);
    ColdStart();
    FirstIsSent(x);
    ValidLineIsKeyed(l);
    OneRead(PROCESSOR, PLAIN, l, TrackedShot(x, 0.5, 1));
    var first := LineStep(PROCESSOR, PLAIN, l, TrackedShot(x, 0.5, 1));
    ValidLineIsKeyed(first);
    CorrectionIsSent(first.store, x, y);
    OneRead(PROCESSOR, PLAIN, first, TrackedShot(y, 0.9, 2));
    var k1, k2 := PP.Process(PROCESSOR, PP.EMPTY, p).1.value, PP.Process(PROCESSOR, first.store, q).1.value;
    RawIsIgnored(START, k1, p, Moment("1", 1, 1, 0, 0));
    NextIsQuiet(k1, k2, q);
  }

  lemma ScanOfPair()
    ensures J.Scan("abc1", "abc2") == map[0 := 0, 1 := 1, 2 := 2]
  {
    var a, b := "abc1", "abc2";
    assert J.Greedy(a, b, 1, 1) == map[0 := 0];
    assert J.Greedy(a, b, 1, 2) == map[0 := 0, 1 := 1];
    assert J.Greedy(a, b, 1, 3) == map[0 := 0, 1 := 1, 2 := 2];
    assert J.Greedy(a, b, 1, 4) == map[0 := 0, 1 := 1, 2 := 2];
  }

  lemma {:induction false} FirstThree(s: string)
    requires |s| == 4 && s[..3] == "abc"
    ensures J.Picked(s, {0, 1, 2}, 4) == "abc"
  {
    assert s[0] == 'a' && s[1] == 'b' && s[2] == 'c';
    assert J.Picked(s, {0, 1, 2}, 1) == "a";
    assert J.Picked(s, {0, 1, 2}, 2) == "ab";
    assert J.Picked(s, {0, 1, 2}, 3) == "abc";
  }

  lemma MatchesOfPair()
    ensures J.MatchCount("abc1", "abc2") == 3 && J.Transpositions("abc1", "abc2") == 0
  {
    hide J.Scan, J.Picked;
    ScanOfPair();
    var m: J.Pairing := map[0 := 0, 1 := 1, 2 := 2];
    assert m.Keys == {0, 1, 2} && m.Values == {0, 1, 2};
    assert |m.Keys| == 3;
    FirstThree("abc1");
    FirstThree("abc2");
    J.NoDifferences("abc", 3);
  }

  /** Two such texts. */
  lemma PairIsSimilar()
    ensures Similar(PLAIN, "abc1", "abc2")
  {
    hide J.MatchCount, J.Transpositions;
    MatchesOfPair();
    assert J.Score(3, 0, 4, 4) >= 0.83;
    assert J.CommonPrefix("abc1", "abc2") == 3;
  }
}
