/**
 Which number is sent for which direction (src/manager/DetectionWorker.cpp:70-72, 350-374, 407-461): 1 for a vehicle that
 comes, 2 for one that goes, 0 while nothing is known; for single frames, and for whole runs of processor, estimator and
 worker together.
 */
module SentDirection {
  import opened Plates
  import opened DetectionWorker
  import opened AnnounceProtocol
  import opened BoundedHold
  import opened Pipeline
  import opened PlateAnnounced
  import PP = PlateProcessor
  import V = PlateVoting
  import D = Direction
  import P = DirectionPasses
  import L = DirectionLaw
  import U = DirectionRuns
  import R = DirectionReversal
  import J = JaroWinkler

  /** The number that stands for a direction. */
  predicate Tells(number: int, trend: D.Trend) {
    (number == 1 <==> trend == D.Approaching) && (number == 2 <==> trend == D.Receding) &&
    (number == 0 <==> trend == D.Unknown)
  }

  ghost function Standing(cfg: Config, tracks: map<string, D.Track>, f: Frame): D.Trend
    requires ValidTracks(tracks)
  {
    D.TrackIn(Feed(cfg, tracks, f), f.gate).reported
  }

  lemma MomentTells(cfg: Config, tracks: map<string, D.Track>, f: Frame)
    requires ValidTracks(tracks)
    ensures Tells(MomentOf(Feed(cfg, tracks, f), f).phys, Standing(cfg, tracks, f))
  {
    hide Feed;
  }

  // ----- One frame -----

  /** What a read emits has no direction, or the one of the moment; and a correction always has that. */
  ghost predicate Directed(before: seq<PlateItem>, after: seq<PlateItem>, phys: int) {
    forall k | |before| <= k < |after| ::
      after[k].plate.direction in {0, phys} && (after[k].forceSend ==> after[k].plate.direction == phys)
  }

  ghost predicate HeldUnforced(w: Worker, gate: string) {
    gate in w.passes && w.passes[gate].pendingEarly ==> !w.passes[gate].pendingItem.forceSend
  }

  lemma ReadDirected(cfg: Config, w: Worker, r: Read, m: Moment)
    requires HeldUnforced(w, m.gate)
    ensures Directed(w.log, ReadStep(cfg, w, r, m).log, m.phys)
  {
    hide Similar, ReadStep;
    match r
    case Read(raw, Some(plate)) =>
      KeptReadForm(cfg, w, plate, m, raw);
    case Read(raw, None) =>
      SuppressedReadForm(cfg, w, raw, m);
  }

  lemma GoodIsUnforced(w: Worker, gate: string)
    requires Good(w)
    ensures HeldUnforced(w, gate)
  {
    hide LastDir, CorrectionLaw;
  }

  lemma {:induction false} ReadsDirected(cfg: Config, w: Worker, batch: seq<Read>, m: Moment)
    requires Good(w) && m.phys in {0, 1, 2}
    ensures Directed(w.log, ReadSteps(cfg, w, batch, m).log, m.phys)
  {
    hide ReadStep, Good, HeldUnforced;
    if batch == [] {
    } else {
      var n := |batch| - 1;
      var v := ReadSteps(cfg, w, batch[..n], m);
      ReadsDirected(cfg, w, batch[..n], m);
      ReadsKeepGood(cfg, w, batch[..n], m);
      GoodIsUnforced(v, m.gate);
      ReadDirected(cfg, v, batch[n], m);
      ReadAppends(cfg, v, batch[n], m);
    }
  }

  /** In every state, a frame emits 1 only while its gate's track stands at approaching, 2 only while it stands at receding,
      and its corrections tell exactly what stands. */
  lemma FrameDirections(cfg: Config, w: Worker, tracks: map<string, D.Track>, f: Frame)
    requires ValidTracks(tracks) && Good(w)
    ensures var log, standing := FrameStep(cfg, w, tracks, f).log, Standing(cfg, tracks, f);
      forall k | |w.log| <= k < |log| ::
        log[k].plate.direction in {0, 1, 2} &&
        (log[k].plate.direction == 1 ==> standing == D.Approaching) &&
        (log[k].plate.direction == 2 ==> standing == D.Receding) &&
        (log[k].forceSend ==> Tells(log[k].plate.direction, standing))
  {
    hide ReadSteps, Feed, Good;
    MomentTells(cfg, tracks, f);
    ReadsDirected(cfg, w, f.batch, MomentOf(Feed(cfg, tracks, f), f));
  }

  /** What the first read of a batch emits stays at its place. */
  lemma {:induction false} FirstReadStays(cfg: Config, w: Worker, batch: seq<Read>, m: Moment)
    requires batch != []
    ensures ReadStep(cfg, w, batch[0], m).log <= ReadSteps(cfg, w, batch, m).log
  {
    hide ReadStep;
    var n := |batch| - 1;
    if n == 0 {
      assert batch[..0] == [];
      assert ReadSteps(cfg, w, batch[..0], m) == w;
    } else {
      FirstReadStays(cfg, w, batch[..n], m);
      ReadAppends(cfg, ReadSteps(cfg, w, batch[..n], m), batch[n], m);
    }
  }

  /** The first item that the frame emits. */
  ghost predicate FirstItem(before: seq<PlateItem>, after: seq<PlateItem>, item: PlateItem) {
    |after| > |before| && after[|before|] == item
  }

  lemma FirstItemStays(before: seq<PlateItem>, middle: seq<PlateItem>, after: seq<PlateItem>, item: PlateItem)
    requires middle <= after && FirstItem(before, middle, item)
    ensures FirstItem(before, after, item)
  {
  }

  /** A held plate that its own suppressed read releases goes out as it was held, with the direction that stands. */
  lemma ReleaseTells(cfg: Config, w: Worker, tracks: map<string, D.Track>, f: Frame) returns (d: int)
    requires ValidTracks(tracks) && cfg.directionEnable && f.batch != [] && f.batch[0].kept.None?
    requires f.gate in w.passes && w.passes[f.gate].pendingEarly
    requires SamePass(cfg, w.passes[f.gate], f.batch[0].plate.text)
    requires var t := D.TrackIn(Feed(cfg, tracks, f), f.gate);
      t.reported != D.Unknown || |t.sizes| - w.passes[f.gate].pendingSince >= cfg.direction.announceHoldSightings
    ensures Tells(d, Standing(cfg, tracks, f))
    ensures FirstItem(w.log, FrameStep(cfg, w, tracks, f).log, w.passes[f.gate].pendingItem.WithDirection(d))
  {
    hide Feed, ReadSteps, SamePass;
    MomentTells(cfg, tracks, f);
    var m := MomentOf(Feed(cfg, tracks, f), f);
    d := m.phys;
    ReleasingReads(cfg, w, f.batch, m);
  }

  /** A plate that is announced at once goes out as it was kept, with the id of its pass and the direction that stands. */
  lemma AnnounceTells(cfg: Config, w: Worker, tracks: map<string, D.Track>, f: Frame) returns (d: int, id: nat)
    requires ValidTracks(tracks) && cfg.directionEnable && f.batch != [] && f.batch[0].kept.Some?
    requires !(f.gate in w.passes && w.passes[f.gate].pendingEarly)
    requires var st := PassOf(Pruned(w.passes, f.nowMs), f.gate);
      !st.emittedEarly || OpensPass(cfg, st, f.batch[0].kept.value.text, f.nowMs)
    requires cfg.direction.announceHoldSightings <= 0 || Standing(cfg, tracks, f) != D.Unknown
    ensures Tells(d, Standing(cfg, tracks, f))
    ensures var m := MomentOf(Feed(cfg, tracks, f), f);
      var v := ReadStep(cfg, w, f.batch[0], m); f.gate in v.passes && v.passes[f.gate].passId == id
    ensures var plate := f.batch[0].kept.value;
      FirstItem(w.log, FrameStep(cfg, w, tracks, f).log,
                PlateItem(plate.(passId := id, direction := d), f.gate, f.timestamp, false))
  {
    hide Feed, ReadSteps, ReadStep, Similar;
    MomentTells(cfg, tracks, f);
    var m := MomentOf(Feed(cfg, tracks, f), f);
    KeptReadForm(cfg, w, f.batch[0].kept.value, m, f.batch[0].plate);
    assert f.batch[0] == Read(f.batch[0].plate, Some(f.batch[0].kept.value));
    var v := ReadStep(cfg, w, f.batch[0], m);
    d, id := m.phys, v.passes[f.gate].passId;
    FirstReadStays(cfg, w, f.batch, m);
    FirstItemStays(w.log, v.log, FrameStep(cfg, w, tracks, f).log, v.log[|w.log|]);
  }

  /** A suppressed read of an announced pass corrects it exactly if a direction stands and is not the one sent last, with
      text and id of the pass. */
  lemma CorrectionTells(cfg: Config, w: Worker, tracks: map<string, D.Track>, f: Frame) returns (d: int)
    requires ValidTracks(tracks) && Good(w) && cfg.directionEnable && f.batch != [] && f.batch[0].kept.None?
    requires f.gate in w.passes && w.passes[f.gate].emittedEarly
    requires SamePass(cfg, w.passes[f.gate], f.batch[0].plate.text)
    ensures Tells(d, Standing(cfg, tracks, f))
    ensures var st, text := w.passes[f.gate], f.batch[0].plate.text;
      var item := PlateItem(NO_PLATE.(text := if text == "" then st.text else text, passId := st.passId, direction := d),
                            f.gate, f.timestamp, true);
      var m := MomentOf(Feed(cfg, tracks, f), f);
      if d != 0 && d != st.lastSentDir then FirstItem(w.log, FrameStep(cfg, w, tracks, f).log, item)
      else ReadStep(cfg, w, f.batch[0], m).log == w.log
  {
    hide Feed, ReadSteps, ReadStep, SamePass, LastDir, CorrectionLaw;
    MomentTells(cfg, tracks, f);
    var m := MomentOf(Feed(cfg, tracks, f), f);
    d := m.phys;
    SuppressedReadForm(cfg, w, f.batch[0].plate, m);
    assert f.batch[0] == Read(f.batch[0].plate, None);
    assert w.log + [] == w.log && [] + [Correction(w.passes[f.gate], f.batch[0].plate.text, m)] ==
      [Correction(w.passes[f.gate], f.batch[0].plate.text, m)];
    FirstReadStays(cfg, w, f.batch, m);
  }

  /** A held plate that a read of another plate pushes out goes out as it was held, with no direction, whatever stands: by a
      suppressed read unlike its pass's text, or by a kept read unlike its own while its pass is not pruned. */
  lemma FlushTellsNothing(cfg: Config, w: Worker, tracks: map<string, D.Track>, f: Frame)
    requires ValidTracks(tracks) && cfg.directionEnable && f.batch != []
    requires f.gate in w.passes && w.passes[f.gate].pendingEarly
    requires var st := w.passes[f.gate];
      match f.batch[0].kept
      case None => st.text != "" && f.batch[0].plate.text != "" && !Similar(cfg, st.text, f.batch[0].plate.text)
      case Some(plate) =>
        f.nowMs - st.lastSeenMs <= 300000 && st.pendingItem.plate.text != "" && plate.text != "" &&
        !Similar(cfg, st.pendingItem.plate.text, plate.text)
    ensures FirstItem(w.log, FrameStep(cfg, w, tracks, f).log, w.passes[f.gate].pendingItem.WithDirection(0))
  {
    hide Feed, ReadSteps, ReadStep, Similar;
    var m := MomentOf(Feed(cfg, tracks, f), f);
    var v := ReadStep(cfg, w, f.batch[0], m);
    match f.batch[0]
    case Read(raw, Some(plate)) =>
      KeptReadForm(cfg, w, plate, m, raw);
      FirstReadStays(cfg, w, f.batch, m);
      FirstItemStays(w.log, v.log, FrameStep(cfg, w, tracks, f).log, w.passes[f.gate].pendingItem.WithDirection(0));
    case Read(raw, None) =>
      SuppressedReadForm(cfg, w, raw, m);
      FirstReadStays(cfg, w, f.batch, m);
      FirstItemStays(w.log, v.log, FrameStep(cfg, w, tracks, f).log, w.passes[f.gate].pendingItem.WithDirection(0));
  }

  // ----- Whole runs: never the wrong number -----

  /** What the estimator gets to see at a gate: for each frame there, the largest plate that has text and size. */
  ghost function Fed(gate: string, shots: seq<Shot>): seq<D.Sighting> {
    if shots == [] then []
    else
      var n := |shots| - 1;
      var batch := Unanswered(shots[n]).batch;
      var k := Largest(batch, |batch|);
      Fed(gate, shots[..n]) +
      if shots[n].gate == gate && k >= 0 then
        [D.Sighting(batch[k].plate.side, batch[k].plate.yCenter, shots[n].nowMs)]
      else []
  }

  lemma {:induction false} LastShot(pcfg: PP.Config, cfg: Config, l: Line, shots: seq<Shot>)
    requires ValidLine(pcfg, l) && shots != []
    ensures var n := |shots| - 1;
      Lines(pcfg, cfg, l, shots) == LineStep(pcfg, cfg, Lines(pcfg, cfg, l, shots[..n]), shots[n])
    decreases |shots|
  {
    hide LineStep, ValidLine;
    var n := |shots| - 1;
    if n == 0 {
      assert shots[1..] == [] && shots[..0] == [];
    } else {
      LastShot(pcfg, cfg, LineStep(pcfg, cfg, l, shots[0]), shots[1..]);
      assert shots[1..][..n - 1] == shots[..n][1..];
    }
  }

  /** The processor, the worker and the estimator before anything has been seen. */
  function Cold(): Line { Line(PP.EMPTY, START, map[]) }

  lemma ColdIsValid(pcfg: PP.Config)
    ensures ValidLine(pcfg, Cold()) && Good(START)
  {
  }

  lemma FedStep(pcfg: PP.Config, cfg: Config, l: Line, gate: string, shot: Shot)
    requires ValidLine(pcfg, l)
    ensures var batch := Unanswered(shot).batch;
      var k := Largest(batch, |batch|);
      var t := D.TrackIn(l.tracks, gate);
      D.ValidTrack(t) &&
      D.TrackIn(LineStep(pcfg, cfg, l, shot).tracks, gate) ==
      if cfg.directionEnable && shot.gate == gate && k >= 0 then
        D.Step(cfg.direction, t, D.Sighting(batch[k].plate.side, batch[k].plate.yCenter, shot.nowMs)).0
      else t
  {
    hide D.Step, V.Inv, Answers, Largest;
    FeedIgnoresAnswers(pcfg, cfg, l.store, l.tracks, shot);
  }

  /** The track of a gate is what the estimator makes of the gate's own sightings. */
  lemma {:induction false} TracksAreWatched(pcfg: PP.Config, cfg: Config, gate: string, shots: seq<Shot>)
    requires cfg.directionEnable
    ensures ValidLine(pcfg, Cold())
    ensures D.TrackIn(Lines(pcfg, cfg, Cold(), shots).tracks, gate) == P.Watch(cfg.direction, Fed(gate, shots)).track
  {
    hide LineStep, ValidLine, D.Step, Largest;
    ColdIsValid(pcfg);
    if shots == [] {
    } else {
      var n := |shots| - 1;
      TracksAreWatched(pcfg, cfg, gate, shots[..n]);
      LastShot(pcfg, cfg, Cold(), shots);
      FedStep(pcfg, cfg, Lines(pcfg, cfg, Cold(), shots[..n]), gate, shots[n]);
      var before, now := Fed(gate, shots[..n]), Fed(gate, shots);
      assert now != before ==> now[..|now| - 1] == before;
    }
  }

  lemma {:induction false} NothingFed(pcfg: PP.Config, cfg: Config, gate: string, shots: seq<Shot>)
    requires !cfg.directionEnable
    ensures ValidLine(pcfg, Cold())
    ensures D.TrackIn(Lines(pcfg, cfg, Cold(), shots).tracks, gate) == D.FRESH_TRACK
  {
    hide LineStep, ValidLine, D.Step, Largest;
    ColdIsValid(pcfg);
    if shots == [] {
    } else {
      var n := |shots| - 1;
      NothingFed(pcfg, cfg, gate, shots[..n]);
      LastShot(pcfg, cfg, Cold(), shots);
      FedStep(pcfg, cfg, Lines(pcfg, cfg, Cold(), shots[..n]), gate, shots[n]);
    }
  }

  /** No item of this gate tells this direction. */
  ghost predicate NeverTold(log: seq<PlateItem>, gate: string, number: int) {
    forall k | 0 <= k < |log| && log[k].gate == gate :: log[k].plate.direction != number
  }

  lemma LineDirections(pcfg: PP.Config, cfg: Config, l: Line, gate: string, shot: Shot)
    requires ValidLine(pcfg, l) && Good(l.w)
    ensures var next := LineStep(pcfg, cfg, l, shot);
      var standing := D.TrackIn(next.tracks, gate).reported;
      Good(next.w) &&
      (NeverTold(l.w.log, gate, 1) && standing != D.Approaching ==> NeverTold(next.w.log, gate, 1)) &&
      (NeverTold(l.w.log, gate, 2) && standing != D.Receding ==> NeverTold(next.w.log, gate, 2))
  {
    hide ReadSteps, Feed, Good, Answers, V.Inv;
    var f := FrameOf(pcfg, l.store, shot);
    FeedKeepsValid(cfg, l.tracks, f);
    var m := MomentOf(Feed(cfg, l.tracks, f), f);
    FrameDirections(cfg, l.w, l.tracks, f);
    ReadsKeepGood(cfg, l.w, f.batch, m);
    AllItemsAreOwn(cfg, l.w, f.batch, m);
  }

  /** Every run through all three parts in which the track of the gate never stands at a direction never tells it there. */
  lemma {:induction false} NeverStandingNeverTold(pcfg: PP.Config, cfg: Config, gate: string, shots: seq<Shot>)
    ensures ValidLine(pcfg, Cold())
    ensures Good(Lines(pcfg, cfg, Cold(), shots).w)
    ensures (forall i | 0 <= i <= |shots| ::
      D.TrackIn(Lines(pcfg, cfg, Cold(), shots[..i]).tracks, gate).reported != D.Approaching) ==>
      NeverTold(Lines(pcfg, cfg, Cold(), shots).w.log, gate, 1)
    ensures (forall i | 0 <= i <= |shots| ::
      D.TrackIn(Lines(pcfg, cfg, Cold(), shots[..i]).tracks, gate).reported != D.Receding) ==>
      NeverTold(Lines(pcfg, cfg, Cold(), shots).w.log, gate, 2)
  {
    hide LineStep, ValidLine, Good;
    ColdIsValid(pcfg);
    if shots == [] {
    } else {
      var n := |shots| - 1;
      NeverStandingNeverTold(pcfg, cfg, gate, shots[..n]);
      assert forall i | 0 <= i <= n :: shots[..n][..i] == shots[..i];
      assert shots[..|shots|] == shots;
      LastShot(pcfg, cfg, Cold(), shots);
      LineDirections(pcfg, cfg, Lines(pcfg, cfg, Cold(), shots[..n]), gate, shots[n]);
    }
  }

  lemma {:induction false} FedPrefix(gate: string, shots: seq<Shot>, i: nat)
    requires i <= |shots|
    ensures Fed(gate, shots[..i]) <= Fed(gate, shots)
  {
    hide Largest;
    if i == |shots| {
      assert shots[..i] == shots;
    } else {
      FedPrefix(gate, shots[..|shots| - 1], i);
      assert shots[..|shots| - 1][..i] == shots[..i];
    }
  }

  /** Wherever the plates fed at a gate never grow, over the whole run and whatever happens at other gates, nothing of that
      gate is sent as coming; and where they never shrink, nothing as going. */
  lemma {:induction false} MonotoneRunsAreNotMissent(pcfg: PP.Config, cfg: Config, gate: string, shots: seq<Shot>)
    ensures ValidLine(pcfg, Cold())
    ensures P.NonIncreasing(P.Sizes(Fed(gate, shots))) && cfg.direction.minGrowthRatio > 1.0 ==>
      NeverTold(Lines(pcfg, cfg, Cold(), shots).w.log, gate, 1)
    ensures P.NonDecreasing(P.Sizes(Fed(gate, shots))) && cfg.direction.exitPeakGuardRatio <= 1.0 ==>
      NeverTold(Lines(pcfg, cfg, Cold(), shots).w.log, gate, 2)
  {
    hide Lines, ValidLine, Fed, P.Watch, NeverTold, P.NonIncreasing, P.NonDecreasing;
    ColdIsValid(pcfg);
    NeverStandingNeverTold(pcfg, cfg, gate, shots);
    forall i | 0 <= i <= |shots|
      ensures var standing := D.TrackIn(Lines(pcfg, cfg, Cold(), shots[..i]).tracks, gate).reported;
        (P.NonIncreasing(P.Sizes(Fed(gate, shots))) && cfg.direction.minGrowthRatio > 1.0 ==>
         standing != D.Approaching) &&
        (P.NonDecreasing(P.Sizes(Fed(gate, shots))) && cfg.direction.exitPeakGuardRatio <= 1.0 ==>
         standing != D.Receding)
    {
      if cfg.directionEnable {
        TracksAreWatched(pcfg, cfg, gate, shots[..i]);
        FedPrefix(gate, shots, i);
        MonotonePrefixStands(cfg, Fed(gate, shots[..i]), Fed(gate, shots));
      } else {
        NothingFed(pcfg, cfg, gate, shots[..i]);
      }
    }
  }

  lemma {:induction false} MonotonePrefixStands(cfg: Config, run: seq<D.Sighting>, whole: seq<D.Sighting>)
    requires run <= whole
    ensures var standing := P.Watch(cfg.direction, run).track.reported;
      (P.NonIncreasing(P.Sizes(whole)) && cfg.direction.minGrowthRatio > 1.0 ==> standing != D.Approaching) &&
      (P.NonDecreasing(P.Sizes(whole)) && cfg.direction.exitPeakGuardRatio <= 1.0 ==> standing != D.Receding)
  {
    hide P.Watch;
    assert P.Sizes(run) == P.Sizes(whole)[..|run|];
    if P.NonIncreasing(P.Sizes(whole)) && cfg.direction.minGrowthRatio > 1.0 {
      P.MonotoneIsFalling(cfg.direction, run);
      P.FallingNeverApproaches(cfg.direction, run);
    }
    if P.NonDecreasing(P.Sizes(whole)) && cfg.direction.exitPeakGuardRatio <= 1.0 {
      P.MonotoneIsRising(cfg.direction, run);
      P.RisingNeverRecedes(cfg.direction, run);
    }
  }

  // ----- Whole runs: the right number in the end -----

  /** The item is of this pass and tells this direction. */
  ghost predicate TellsOf(item: PlateItem, gate: string, st: PassState, direction: int) {
    item.gate == gate && item.plate.text == st.text && item.plate.passId == st.passId &&
    item.plate.direction == direction
  }

  /** Since `base`, the plate is held and nothing is known of its direction; or it has been sent, the last time with the
      direction that stands, if one does. */
  ghost predicate Told(w: Worker, base: seq<PlateItem>, gate: string, text: string, standing: D.Trend) {
    gate in w.passes && w.passes[gate].text == text && w.passes[gate].passId != 0 &&
    var st := w.passes[gate];
    if st.pendingEarly then
      standing == D.Unknown && w.log == base && !st.emittedEarly && TellsOf(st.pendingItem, gate, st, st.pendingItem.plate.direction)
    else
      st.emittedEarly && |w.log| > |base| && base <= w.log && TellsOf(w.log[|w.log| - 1], gate, st, st.lastSentDir) &&
      (standing != D.Unknown ==> Tells(st.lastSentDir, standing))
  }

  lemma ToldByFirst(cfg: Config, w: Worker, plate: PlateResult, raw: PlateResult, m: Moment, standing: D.Trend)
    requires cfg.directionEnable && w.nextId >= 1 && m.gate !in w.passes && plate.text != "" && Tells(m.phys, standing)
    ensures Told(ReadStep(cfg, w, Read(raw, Some(plate)), m), w.log, m.gate, plate.text, standing)
  {
    hide Similar, ReadStep;
    KeptReadForm(cfg, w, plate, m, raw);
  }

  lemma ToldByNext(
      cfg: Config, w: Worker, base: seq<PlateItem>, raw: PlateResult, m: Moment, before: D.Trend, standing: D.Trend)
    requires cfg.directionEnable && Told(w, base, m.gate, raw.text, before) && Similar(cfg, raw.text, raw.text)
    requires Tells(m.phys, standing)
    ensures Told(ReadStep(cfg, w, Read(raw, None), m), base, m.gate, raw.text, standing)
  {
    hide Similar, ReadStep;
    SuppressedReadForm(cfg, w, raw, m);
    assert w.log + [] == w.log;
  }

  lemma SelfSimilar(cfg: Config, text: string)
    requires text != "" && cfg.passPlateSimilarity <= 1.0
    ensures Similar(cfg, text, text)
  {
    J.JaroWinklerIsOne(text, text);
  }

  lemma {:induction false} SingleRead(cfg: Config, w: Worker, r: Read, m: Moment)
    ensures ReadSteps(cfg, w, [r], m) == ReadStep(cfg, w, r, m)
  {
    hide ReadStep;
    assert [r][..0] == [];
    assert ReadSteps(cfg, w, [], m) == w;
  }

  lemma ShotForm(pcfg: PP.Config, cfg: Config, l: Line, shot: Shot)
    requires ValidLine(pcfg, l) && |shot.plates| == 1
    ensures var (s, kept) := PP.Process(pcfg, l.store, shot.plates[0]);
      var next := LineStep(pcfg, cfg, l, shot);
      ValidTracks(next.tracks) && next.store == s &&
      next.w == ReadStep(cfg, l.w, Read(shot.plates[0], kept), MomentOf(next.tracks, FrameOf(pcfg, l.store, shot)))
  {
    hide PP.Process, V.Inv, ReadStep, Answers, Feed, ReadSteps;
    OneAnswer(pcfg, l.store, shot);
    var f := FrameOf(pcfg, l.store, shot);
    FeedKeepsValid(cfg, l.tracks, f);
    SingleRead(cfg, l.w, f.batch[0], MomentOf(Feed(cfg, l.tracks, f), f));
  }

  lemma PhysTells(tracks: map<string, D.Track>, f: Frame)
    ensures Tells(MomentOf(tracks, f).phys, D.TrackIn(tracks, f.gate).reported) && MomentOf(tracks, f).gate == f.gate
  {
  }

  lemma {:induction false} ToldByRest(
      pcfg: PP.Config, cfg: Config, l: Line, base: seq<PlateItem>, gate: string, text: string, last: int, shots: seq<Shot>)
    requires ValidLine(pcfg, l) && OneCluster(l.store, gate, text, last) && ShowsOn(pcfg, gate, text, last, shots)
    requires pcfg.similarityThreshold <= 1.0 && pcfg.minConfidence >= 0.0
    requires cfg.directionEnable && cfg.passPlateSimilarity <= 1.0
    requires Told(l.w, base, gate, text, D.TrackIn(l.tracks, gate).reported)
    ensures var r := Lines(pcfg, cfg, l, shots); Told(r.w, base, gate, text, D.TrackIn(r.tracks, gate).reported)
    decreases |shots|
  {
    hide PP.Process, V.Inv, OneCluster, SoonAfter, Answers, Feed, ReadStep, Told, Similar, MomentOf, LineStep;
    if shots == [] {
    } else {
      var p := shots[0].plates[0];
      ValidLineHasInv(pcfg, l);
      NextReadIsSuppressed(pcfg, l.store, p, gate, text, last);
      ShotForm(pcfg, cfg, l, shots[0]);
      var next := LineStep(pcfg, cfg, l, shots[0]);
      var f := FrameOf(pcfg, l.store, shots[0]);
      PhysTells(next.tracks, f);
      SelfSimilar(cfg, text);
      ToldByNext(
        cfg, l.w, base, p, MomentOf(next.tracks, f), D.TrackIn(l.tracks, gate).reported,
        D.TrackIn(next.tracks, gate).reported);
      ToldByRest(pcfg, cfg, next, base, gate, text, p.timestamp, shots[1..]);
    }
  }

  lemma ValidLineHasInv(pcfg: PP.Config, l: Line)
    requires ValidLine(pcfg, l)
    ensures V.Inv(pcfg, l.store)
  {
  }

  /** A plate that keeps being read at one gate, from an empty processor and a gate without a pass: after every frame it is
      held with no direction known, or the last item sent for it tells the direction that stands. */
  lemma {:induction false} LastSentTells(pcfg: PP.Config, cfg: Config, l: Line, gate: string, text: string, shots: seq<Shot>)
    requires ValidLine(pcfg, l) && l.store == PP.EMPTY && l.w.nextId >= 1 && gate !in l.w.passes
    requires pcfg.similarityThreshold <= 1.0 && pcfg.minConfidence >= 0.0
    requires cfg.directionEnable && cfg.passPlateSimilarity <= 1.0
    requires shots != [] && |shots[0].plates| == 1
    requires ShowsOn(pcfg, gate, text, shots[0].plates[0].timestamp, shots)
    ensures var r := Lines(pcfg, cfg, l, shots); Told(r.w, l.w.log, gate, text, D.TrackIn(r.tracks, gate).reported)
  {
    hide PP.Process, V.Inv, OneCluster, SoonAfter, Answers, Feed, ReadStep, Told, MomentOf, LineStep;
    var p := shots[0].plates[0];
    FirstReadIsKept(pcfg, p, gate, text);
    ShotForm(pcfg, cfg, l, shots[0]);
    var first := LineStep(pcfg, cfg, l, shots[0]);
    var f := FrameOf(pcfg, l.store, shots[0]);
    PhysTells(first.tracks, f);
    var kept := PP.Process(pcfg, l.store, p).1.value;
    ToldByFirst(cfg, l.w, kept, p, MomentOf(first.tracks, f), D.TrackIn(first.tracks, gate).reported);
    ToldByRest(pcfg, cfg, first, l.w.log, gate, text, p.timestamp, shots[1..]);
  }

  /** Frames from a cold start that show one plate and nothing else, soon after each other, for settings under which it stays
      one plate. */
  ghost predicate OnePlate(pcfg: PP.Config, cfg: Config, gate: string, text: string, shots: seq<Shot>) {
    pcfg.similarityThreshold <= 1.0 && pcfg.minConfidence >= 0.0 && cfg.directionEnable && cfg.passPlateSimilarity <= 1.0 &&
    shots != [] && |shots[0].plates| == 1 && ShowsOn(pcfg, gate, text, shots[0].plates[0].timestamp, shots)
  }

  /** The plate has been sent, and the last time with this direction. */
  ghost predicate LastTold(log: seq<PlateItem>, gate: string, text: string, direction: int) {
    log != [] &&
    var last := log[|log| - 1];
    last.gate == gate && last.plate.text == text && last.plate.direction == direction
  }

  lemma {:induction false} SentAsStanding(pcfg: PP.Config, cfg: Config, gate: string, text: string, shots: seq<Shot>)
    requires OnePlate(pcfg, cfg, gate, text, shots)
    ensures ValidLine(pcfg, Cold())
    ensures var standing := P.Watch(cfg.direction, Fed(gate, shots)).track.reported;
      var log := Lines(pcfg, cfg, Cold(), shots).w.log;
      (standing == D.Approaching ==> LastTold(log, gate, text, 1)) &&
      (standing == D.Receding ==> LastTold(log, gate, text, 2))
  {
    hide Lines, ShowsOn, Fed, P.Watch, ValidLine;
    ColdIsValid(pcfg);
    TracksAreWatched(pcfg, cfg, gate, shots);
    LastSentTells(pcfg, cfg, Cold(), gate, text, shots);
  }

  /** A vehicle that comes nearer by `minGrowthRatio` from frame to frame has been sent with 1, the last time it was sent,
      from frame `minSightings` on. */
  lemma {:induction false} GrowingIsSentAsComing(pcfg: PP.Config, cfg: Config, gate: string, text: string, shots: seq<Shot>)
    requires OnePlate(pcfg, cfg, gate, text, shots)
    requires var c := cfg.direction;
      2 <= c.minSightings <= c.confirmSightings <= 600 && c.confirmAgreeing >= 1 && c.minGrowthRatio > 1.0 &&
      !c.requireYAgree && |Fed(gate, shots)| >= c.minSightings && P.Unbroken(c, Fed(gate, shots)) &&
      P.Growing(c.minGrowthRatio, P.Sizes(Fed(gate, shots)))
    ensures ValidLine(pcfg, Cold())
    ensures LastTold(Lines(pcfg, cfg, Cold(), shots).w.log, gate, text, 1)
  {
    hide Lines, OnePlate, Fed, P.Watch, ValidLine, P.Unbroken, P.Growing, LastTold;
    SentAsStanding(pcfg, cfg, gate, text, shots);
    P.TimeToDecision(cfg.direction, Fed(gate, shots));
  }

  /** A slow vehicle likewise, as soon as half of its steady change amounts to `minTrendDeltaPx`. */
  lemma {:induction false} SlowEntryIsSent(pcfg: PP.Config, cfg: Config, gate: string, text: string, shots: seq<Shot>, step: real)
    requires OnePlate(pcfg, cfg, gate, text, shots)
    requires var c, run := cfg.direction, Fed(gate, shots);
      c.minGrowthRatio > 1.0 && !c.requireYAgree && c.exitPeakGuardRatio <= 1.0 && U.OnePass(c, run) &&
      2 <= |run| <= 600 && |run| >= c.minSightings && |run| >= c.trendMinSightings && R.AllPositive(P.Sizes(run)) &&
      U.Steady(P.Sizes(run), step) && step > 0.0 && |run| as real * step >= 2.0 * c.minTrendDeltaPx
    ensures ValidLine(pcfg, Cold())
    ensures LastTold(Lines(pcfg, cfg, Cold(), shots).w.log, gate, text, 1)
  {
    hide Lines, OnePlate, Fed, P.Watch, ValidLine, U.OnePass, U.Steady, LastTold;
    SentAsStanding(pcfg, cfg, gate, text, shots);
    U.SlowGrowthIsCalled(cfg.direction, Fed(gate, shots), step);
  }

  /** And a slow vehicle that goes away is sent with 2, once its plate is well below its first size. */
  lemma {:induction false} SlowExitIsSent(pcfg: PP.Config, cfg: Config, gate: string, text: string, shots: seq<Shot>, step: real)
    requires OnePlate(pcfg, cfg, gate, text, shots)
    requires var c, run := cfg.direction, Fed(gate, shots);
      c.minGrowthRatio > 1.0 && !c.requireYAgree && U.OnePass(c, run) &&
      2 <= |run| <= 600 && |run| >= c.minSightings && |run| >= c.trendMinSightings && |run| >= c.recedingMinSightings &&
      R.AllPositive(P.Sizes(run)) && U.Steady(P.Sizes(run), -step) && step > 0.0 &&
      |run| as real * step >= 2.0 * L.ExitDelta(c) && run[|run| - 1].size < c.exitPeakGuardRatio * run[0].size
    ensures ValidLine(pcfg, Cold())
    ensures LastTold(Lines(pcfg, cfg, Cold(), shots).w.log, gate, text, 2)
  {
    hide Lines, OnePlate, Fed, P.Watch, ValidLine, U.OnePass, U.Steady, L.ExitDelta, LastTold;
    SentAsStanding(pcfg, cfg, gate, text, shots);
    U.SlowLossIsCalled(cfg.direction, Fed(gate, shots), step);
  }
}
