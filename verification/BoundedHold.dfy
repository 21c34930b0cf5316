/**
 The announce-hold is bounded (src/manager/DetectionWorker.cpp:342-375, 432-449 together with
 src/process/DirectionEstimator.cpp:45-178): frames, estimator and worker composed.
 */
module BoundedHold {
  import opened Plates
  import opened DetectionWorker
  import opened AnnounceProtocol
  import opened Cadence
  import opened Numbers
  import D = Direction
  import P = DirectionPasses

  /** Worker and estimator between two frames. */
  datatype System = System(w: Worker, tracks: map<string, D.Track>)

  lemma FeedKeepsValid(cfg: Config, tracks: map<string, D.Track>, f: Frame)
    requires ValidTracks(tracks)
    ensures ValidTracks(Feed(cfg, tracks, f))
  {
    hide D.Step;
    var k := Largest(f.batch, |f.batch|);
    if cfg.directionEnable && k >= 0 {
      var p := f.batch[k].plate;
      D.StepKeepsTrackValid(cfg.direction, D.TrackIn(tracks, f.gate), D.Sighting(p.side, p.yCenter, f.nowMs));
    }
  }

  ghost function Frames(cfg: Config, s: System, frames: seq<Frame>): (r: System)
    requires ValidTracks(s.tracks)
    ensures ValidTracks(r.tracks)
    decreases |frames|
  {
    if frames == [] then s
    else
      FeedKeepsValid(cfg, s.tracks, frames[0]);
      Frames(cfg, System(FrameStep(cfg, s.w, s.tracks, frames[0]), Feed(cfg, s.tracks, frames[0])), frames[1..])
  }

  // ----- Frames keep the invariant of the protocol -----

  lemma {:induction false} ReadsKeepGood(cfg: Config, w: Worker, batch: seq<Read>, m: Moment)
    requires Good(w) && m.phys in {0, 1, 2}
    ensures Good(ReadSteps(cfg, w, batch, m))
    ensures w.log <= ReadSteps(cfg, w, batch, m).log
  {
    hide ReadStep, Good;
    if batch == [] {
    } else {
      var v := ReadSteps(cfg, w, batch[..|batch| - 1], m);
      ReadsKeepGood(cfg, w, batch[..|batch| - 1], m);
      ReadKeepsGood(cfg, v, batch[|batch| - 1], m);
      ReadAppends(cfg, v, batch[|batch| - 1], m);
    }
  }

  /** Whatever frames come, the protocol's invariant and the law of corrections hold afterwards, and nothing
      emitted is taken back. */
  lemma {:induction false} FramesKeepGood(cfg: Config, s: System, frames: seq<Frame>)
    requires ValidTracks(s.tracks) && Good(s.w)
    ensures Good(Frames(cfg, s, frames).w)
    ensures s.w.log <= Frames(cfg, s, frames).w.log
    decreases |frames|
  {
    hide ReadSteps, Good, Feed;
    if frames == [] {
    } else {
      FeedKeepsValid(cfg, s.tracks, frames[0]);
      var tracks := Feed(cfg, s.tracks, frames[0]);
      ReadsKeepGood(cfg, s.w, frames[0].batch, MomentOf(tracks, frames[0]));
      FramesKeepGood(cfg, System(FrameStep(cfg, s.w, s.tracks, frames[0]), tracks), frames[1..]);
    }
  }

  // ----- Frames that show the held plate again -----

  /** A frame at the gate whose reads are all suppressed as the same plate. */
  ghost predicate Echoes(cfg: Config, st: PassState, gate: string, f: Frame) {
    f.gate == gate && forall i | 0 <= i < |f.batch| :: f.batch[i].kept.None? && SamePass(cfg, st, f.batch[i].plate.text)
  }

  /** One of these reads has text and size, so that the estimator counts a sighting. */
  ghost predicate Repeats(cfg: Config, st: PassState, gate: string, f: Frame) {
    Echoes(cfg, st, gate, f) && Largest(f.batch, |f.batch|) >= 0
  }

  /** A frame at another gate that comes before the five-minute prune could strike, or keeps nothing. */
  ghost predicate Elsewhere(st: PassState, gate: string, f: Frame) {
    f.gate != gate && forall i | 0 <= i < |f.batch| :: f.batch[i].kept.Some? ==> !Stale(st, f.nowMs)
  }

  ghost function AtGate(gate: string, frames: seq<Frame>): nat {
    if frames == [] then 0 else (if frames[0].gate == gate then 1 else 0) + AtGate(gate, frames[1..])
  }

  function TimesAt(gate: string, frames: seq<Frame>): seq<int> {
    if frames == [] then []
    else (if frames[0].gate == gate then [frames[0].nowMs] else []) + TimesAt(gate, frames[1..])
  }

  /** Some frame of the run shows the held plate when the direction is known or the hold has run its sightings. */
  ghost predicate Settles(cfg: Config, st: PassState, tracks: map<string, D.Track>, gate: string, frames: seq<Frame>)
    requires ValidTracks(tracks)
    decreases |frames|
  {
    frames != [] &&
    (FeedKeepsValid(cfg, tracks, frames[0]);
     var next := Feed(cfg, tracks, frames[0]);
     (frames[0].gate == gate && frames[0].batch != [] && Releases(cfg, st, MomentOf(next, frames[0]))) ||
     Settles(cfg, st, next, gate, frames[1..]))
  }

  lemma {:induction false} WaitingReads(cfg: Config, w: Worker, batch: seq<Read>, m: Moment)
    requires m.gate in w.passes && w.passes[m.gate].pendingEarly && !Releases(cfg, w.passes[m.gate], m)
    requires forall i | 0 <= i < |batch| ::
      batch[i].kept.None? && SamePass(cfg, w.passes[m.gate], batch[i].plate.text)
    ensures ReadSteps(cfg, w, batch, m) == w
  {
    hide Releases, SamePass;
    if batch == [] {
    } else {
      WaitingReads(cfg, w, batch[..|batch| - 1], m);
      assert w.passes[m.gate := w.passes[m.gate]] == w.passes;
      assert w.log + [] == w.log;
    }
  }

  lemma {:induction false} ReleasingReads(cfg: Config, w: Worker, batch: seq<Read>, m: Moment)
    requires m.gate in w.passes && w.passes[m.gate].pendingEarly && Releases(cfg, w.passes[m.gate], m)
    requires cfg.directionEnable && batch != []
    requires batch[0].kept.None? && SamePass(cfg, w.passes[m.gate], batch[0].plate.text)
    ensures var log := ReadSteps(cfg, w, batch, m).log;
      |log| > |w.log| && log[|w.log|] == w.passes[m.gate].pendingItem.WithDirection(m.phys)
  {
    hide Releases, SamePass;
    var n := |batch| - 1;
    if n == 0 {
      assert batch[..0] == [];
      assert ReadSteps(cfg, w, batch[..0], m) == w;
    } else {
      ReleasingReads(cfg, w, batch[..n], m);
      ReadAppends(cfg, ReadSteps(cfg, w, batch[..n], m), batch[n], m);
    }
  }

  /** Reads at another gate leave the pass alone unless a kept one finds it stale. */
  lemma {:induction false} ReadsElsewhere(cfg: Config, w: Worker, gate: string, batch: seq<Read>, m: Moment)
    requires gate in w.passes && m.gate != gate
    requires forall i | 0 <= i < |batch| :: batch[i].kept.Some? ==> !Stale(w.passes[gate], m.nowMs)
    ensures var v := ReadSteps(cfg, w, batch, m); gate in v.passes && v.passes[gate] == w.passes[gate]
  {
    hide Dropped, Kept, Joined, OpensPass, Stale;
    if batch == [] {
    } else {
      ReadsElsewhere(cfg, w, gate, batch[..|batch| - 1], m);
    }
  }

  /** What a read emits belongs to its own gate. */
  lemma ItemsAreOwn(cfg: Config, w: Worker, r: Read, m: Moment)
    requires Good(w) && m.phys in {0, 1, 2}
    ensures forall k | |w.log| <= k < |ReadStep(cfg, w, r, m).log| :: ReadStep(cfg, w, r, m).log[k].gate == m.gate
  {
    hide Dropped, KeptAt, ReadStep, LastDir, CorrectionLaw;
    match r
    case Read(raw, Some(plate)) =>
      KeptReadForm(cfg, w, plate, m, raw);
      KeptItemsAreOwn(cfg, w, plate, m);
    case Read(raw, None) =>
      SuppressedReadForm(cfg, w, raw, m);
      if cfg.directionEnable {
        DroppedTurn(cfg, PassOf(w.passes, m.gate), raw.text, m, w.nextId, w.log);
      }
  }

  lemma {:induction false} AllItemsAreOwn(cfg: Config, w: Worker, batch: seq<Read>, m: Moment)
    requires Good(w) && m.phys in {0, 1, 2}
    ensures forall k | |w.log| <= k < |ReadSteps(cfg, w, batch, m).log| :: ReadSteps(cfg, w, batch, m).log[k].gate == m.gate
  {
    hide ReadStep, Good;
    if batch == [] {
    } else {
      var n := |batch| - 1;
      var v := ReadSteps(cfg, w, batch[..n], m);
      AllItemsAreOwn(cfg, w, batch[..n], m);
      ReadsKeepGood(cfg, w, batch[..n], m);
      ItemsAreOwn(cfg, v, batch[n], m);
      ReadAppends(cfg, v, batch[n], m);
    }
  }

  lemma FeedElsewhere(cfg: Config, tracks: map<string, D.Track>, gate: string, f: Frame)
    requires ValidTracks(tracks) && f.gate != gate
    ensures D.TrackIn(Feed(cfg, tracks, f), gate) == D.TrackIn(tracks, gate)
  {
    hide D.Step;
  }

  /** The held item was emitted, as it was held but for its direction. */
  ghost predicate Released(held: PlateItem, before: seq<PlateItem>, after: seq<PlateItem>) {
    exists k :: |before| <= k < |after| && IsItem(after[k], held) && after[k].plate.direction in {0, 1, 2}
  }

  lemma ReleasedLater(
      held: PlateItem, before: seq<PlateItem>, middle: seq<PlateItem>, after: seq<PlateItem>)
    requires before <= middle <= after
    ensures Released(held, before, middle) || Released(held, middle, after) ==> Released(held, before, after)
    ensures (forall k | |before| <= k < |middle| :: middle[k].gate != held.gate) ==>
      (Released(held, before, after) <==> Released(held, middle, after))
  {
    if Released(held, before, middle) {
      var k :| |before| <= k < |middle| && IsItem(middle[k], held) && middle[k].plate.direction in {0, 1, 2};
      assert after[k] == middle[k];
    }
    assert forall k | |before| <= k < |middle| :: after[k] == middle[k];
  }

  lemma ReleasedHere(held: PlateItem, before: seq<PlateItem>, after: seq<PlateItem>, phys: int)
    requires |after| > |before| && after[|before|] == held.WithDirection(phys) && phys in {0, 1, 2}
    ensures Released(held, before, after)
  {
    assert IsItem(after[|before|], held);
  }

  /** The fate of a held plate that only suppressed reads of itself see again, over any frames at any gates: it is
      released exactly if some such read finds the direction known or the hold run out. Else it is still held. */
  lemma {:induction false} HoldEndsExactly(cfg: Config, s: System, gate: string, frames: seq<Frame>)
    requires ValidTracks(s.tracks) && Good(s.w) && cfg.directionEnable
    requires gate in s.w.passes && s.w.passes[gate].pendingEarly
    requires forall i | 0 <= i < |frames| ::
      Echoes(cfg, s.w.passes[gate], gate, frames[i]) || Elsewhere(s.w.passes[gate], gate, frames[i])
    ensures var st, w := s.w.passes[gate], Frames(cfg, s, frames).w;
      (Released(st.pendingItem, s.w.log, w.log) <==> Settles(cfg, st, s.tracks, gate, frames)) &&
      (!Settles(cfg, st, s.tracks, gate, frames) ==> gate in w.passes && w.passes[gate] == st)
    decreases |frames|
  {
    hide ReadSteps, Feed, SamePass, D.Step, Releases, Released, Largest, Stale, LastDir, CorrectionLaw;
    var st := s.w.passes[gate];
    if frames == [] {
      NothingReleased(st.pendingItem, s.w.log);
    } else {
      var f := frames[0];
      FeedKeepsValid(cfg, s.tracks, f);
      var tracks := Feed(cfg, s.tracks, f);
      var m := MomentOf(tracks, f);
      var next := System(FrameStep(cfg, s.w, s.tracks, f), tracks);
      assert Echoes(cfg, st, gate, f) || Elsewhere(st, gate, f);
      ReadsKeepGood(cfg, s.w, f.batch, m);
      FramesKeepGood(cfg, next, frames[1..]);
      ReleasedLater(st.pendingItem, s.w.log, next.w.log, Frames(cfg, s, frames).w.log);
      if f.gate != gate {
        ReadsElsewhere(cfg, s.w, gate, f.batch, m);
        AllItemsAreOwn(cfg, s.w, f.batch, m);
        HoldEndsExactly(cfg, next, gate, frames[1..]);
      } else if f.batch != [] && Releases(cfg, st, m) {
        ReleasingReads(cfg, s.w, f.batch, m);
        ReleasedHere(st.pendingItem, s.w.log, next.w.log, m.phys);
      } else {
        EchoesWait(cfg, s.w, f, m);
        HoldEndsExactly(cfg, next, gate, frames[1..]);
      }
    }
  }

  lemma NothingReleased(held: PlateItem, log: seq<PlateItem>)
    ensures !Released(held, log, log)
  {
  }

  lemma {:induction false} EchoesWait(cfg: Config, w: Worker, f: Frame, m: Moment)
    requires m.gate == f.gate && f.gate in w.passes && w.passes[f.gate].pendingEarly && Echoes(cfg, w.passes[f.gate], f.gate, f)
    requires f.batch == [] || !Releases(cfg, w.passes[f.gate], m)
    ensures ReadSteps(cfg, w, f.batch, m) == w
  {
    hide Releases, SamePass;
    if f.batch != [] {
      WaitingReads(cfg, w, f.batch, m);
    }
  }

  // ----- When the hold runs out -----

  /** One more sighting of an unlocked track whose clock it does not break. */
  lemma TrackAfterFeed(cfg: Config, tracks: map<string, D.Track>, f: Frame)
    requires ValidTracks(tracks) && cfg.directionEnable && Largest(f.batch, |f.batch|) >= 0
    requires var t := D.TrackIn(tracks, f.gate);
      !t.locked && !D.GapResets(cfg.direction, t, f.nowMs)
    ensures var t, u := D.TrackIn(tracks, f.gate), D.TrackIn(Feed(cfg, tracks, f), f.gate);
      P.LockedIsKnown(u) && |u.sizes| == Min(|t.sizes| + 1, D.MAX_SAMPLES) && u.lastTs == f.nowMs &&
      u.lastInterval == if t.lastTs != 0 then f.nowMs - t.lastTs else t.lastInterval
  {
    hide D.Step;
    var t := D.TrackIn(tracks, f.gate);
    var p := f.batch[Largest(f.batch, |f.batch|)].plate;
    var s := D.Sighting(p.side, p.yCenter, f.nowMs);
    P.CountGrows(cfg.direction, t, s);
    P.StepKeepsLockedKnown(cfg.direction, t, s);
    P.ClockOfStep(cfg.direction, t, s);
  }

  /** Sightings at an even cadence bring a hold to its end, if it ends within the samples kept. */
  lemma {:induction false} EvenCadenceSettles(
      cfg: Config, st: PassState, tracks: map<string, D.Track>, gate: string, frames: seq<Frame>)
    requires ValidTracks(tracks) && cfg.directionEnable
    requires forall i | 0 <= i < |frames| :: Repeats(cfg, st, gate, frames[i]) || frames[i].gate != gate
    requires var t, until := D.TrackIn(tracks, gate), st.pendingSince + cfg.direction.announceHoldSightings;
      !t.locked && EvenFrom(t.lastTs, t.lastInterval, TimesAt(gate, frames), 4 * cfg.direction.trackGapMs) &&
      AtGate(gate, frames) > 0 && until <= D.MAX_SAMPLES && |t.sizes| + AtGate(gate, frames) >= until
    ensures Settles(cfg, st, tracks, gate, frames)
    decreases |frames|
  {
    hide Feed, D.Step, SamePass, Largest;
    var f := frames[0];
    FeedKeepsValid(cfg, tracks, f);
    assert Repeats(cfg, st, gate, f) || f.gate != gate;
    if f.gate != gate {
      FeedElsewhere(cfg, tracks, gate, f);
      assert TimesAt(gate, frames) == TimesAt(gate, frames[1..]);
      EvenCadenceSettles(cfg, st, Feed(cfg, tracks, f), gate, frames[1..]);
    } else {
      assert TimesAt(gate, frames)[1..] == TimesAt(gate, frames[1..]);
      TrackAfterFeed(cfg, tracks, f);
      LargestIsARead(f);
      if !Releases(cfg, st, MomentOf(Feed(cfg, tracks, f), f)) {
        EvenCadenceSettles(cfg, st, Feed(cfg, tracks, f), gate, frames[1..]);
      }
    }
  }

  lemma LargestIsARead(f: Frame)
    requires Largest(f.batch, |f.batch|) >= 0
    ensures f.batch != []
  {
  }

  /** From any point of a hold with an unlocked track: once further frames at an even cadence that repeat the plate bring
      the sightings to `pendingSince + announceHoldSightings`, it has been emitted, whatever happens at other gates. */
  lemma {:induction false} HoldIsBounded(cfg: Config, s: System, gate: string, frames: seq<Frame>)
    requires ValidTracks(s.tracks) && Good(s.w) && cfg.directionEnable
    requires gate in s.w.passes && s.w.passes[gate].pendingEarly
    requires forall i | 0 <= i < |frames| ::
      Repeats(cfg, s.w.passes[gate], gate, frames[i]) || Elsewhere(s.w.passes[gate], gate, frames[i])
    requires var t := D.TrackIn(s.tracks, gate);
      var until := s.w.passes[gate].pendingSince + cfg.direction.announceHoldSightings;
      !t.locked && EvenFrom(t.lastTs, t.lastInterval, TimesAt(gate, frames), 4 * cfg.direction.trackGapMs) &&
      AtGate(gate, frames) > 0 && until <= D.MAX_SAMPLES && |t.sizes| + AtGate(gate, frames) >= until
    ensures Released(s.w.passes[gate].pendingItem, s.w.log, Frames(cfg, s, frames).w.log)
  {
    hide Echoes, Good, Settles, EvenFrom, AtGate, TimesAt;
    EvenCadenceSettles(cfg, s.w.passes[gate], s.tracks, gate, frames);
    HoldEndsExactly(cfg, s, gate, frames);
  }

  /** A hold that would run past the samples kept never runs out: only a known direction ends it. */
  lemma PastTheCap(cfg: Config, st: PassState, tracks: map<string, D.Track>, f: Frame)
    requires ValidTracks(tracks) && st.pendingSince + cfg.direction.announceHoldSightings > D.MAX_SAMPLES
    ensures Releases(cfg, st, MomentOf(tracks, f)) <==> D.TrackIn(tracks, f.gate).reported != D.Unknown
  {
  }

  // ----- From the frame that holds the plate -----

  ghost predicate HeldSince(w: Worker, gate: string, since: int) {
    gate in w.passes && w.passes[gate].pendingEarly ==> w.passes[gate].pendingSince == since
  }

  lemma ReadHoldsSince(cfg: Config, w: Worker, r: Read, m: Moment)
    requires cfg.directionEnable && HeldSince(w, m.gate, m.sightings)
    ensures HeldSince(ReadStep(cfg, w, r, m), m.gate, m.sightings)
    ensures var v := ReadStep(cfg, w, r, m);
      m.gate in v.passes && v.passes[m.gate].pendingEarly ==>
      (m.gate in w.passes && w.passes[m.gate].pendingEarly) ||
      (cfg.direction.announceHoldSightings > 0 && m.phys == 0)
  {
    hide Similar, ReadStep;
    match r
    case Read(raw, Some(plate)) =>
      KeptReadForm(cfg, w, plate, m, raw);
    case Read(raw, None) =>
      SuppressedReadForm(cfg, w, raw, m);
  }

  /** A hold keeps its start, whatever reads of similar plates replace the held one: the plate that a read leaves held counts
      from this read only if none was held before, or the one held was flushed or pruned by it. */
  lemma HoldStartsOnce(cfg: Config, w: Worker, r: Read, m: Moment)
    requires cfg.directionEnable && Good(w)
    ensures var v := ReadStep(cfg, w, r, m);
      m.gate in v.passes && v.passes[m.gate].pendingEarly ==>
      var goesOn := m.gate in w.passes && w.passes[m.gate].pendingEarly && |v.log| == |w.log| &&
        (r.kept.Some? ==> m.nowMs - w.passes[m.gate].lastSeenMs <= 300000);
      v.passes[m.gate].pendingSince == if goesOn then w.passes[m.gate].pendingSince else m.sightings
  {
    hide Similar, ReadStep, LastDir, CorrectionLaw;
    match r
    case Read(raw, Some(plate)) =>
      KeptReadForm(cfg, w, plate, m, raw);
    case Read(raw, None) =>
      SuppressedReadForm(cfg, w, raw, m);
  }

  /** A frame that finds no plate held and leaves one held counts its hold from the sightings of that frame. */
  lemma {:induction false} ReadsHoldSince(cfg: Config, w: Worker, batch: seq<Read>, m: Moment)
    requires cfg.directionEnable && !(m.gate in w.passes && w.passes[m.gate].pendingEarly)
    ensures var v := ReadSteps(cfg, w, batch, m);
      HeldSince(v, m.gate, m.sightings) &&
      (m.gate in v.passes && v.passes[m.gate].pendingEarly ==>
         cfg.direction.announceHoldSightings > 0 && m.phys == 0)
  {
    hide ReadStep;
    if batch == [] {
    } else {
      var n := |batch| - 1;
      ReadsHoldSince(cfg, w, batch[..n], m);
      ReadHoldsSince(cfg, ReadSteps(cfg, w, batch[..n], m), batch[n], m);
    }
  }

  /** The bound as it is meant: from the frame that holds a plate, `announceHoldSightings` further frames at its gate that
      come at an even cadence and repeat the plate see the held item emitted, whatever happens at other gates meanwhile. */
  lemma {:induction false} HeldPlateIsReleased(cfg: Config, s: System, f: Frame, frames: seq<Frame>)
    requires ValidTracks(s.tracks) && Good(s.w) && cfg.directionEnable
    requires P.LockedIsKnown(D.TrackIn(s.tracks, f.gate))
    requires !(f.gate in s.w.passes && s.w.passes[f.gate].pendingEarly)
    requires var held := FrameStep(cfg, s.w, s.tracks, f).passes; f.gate in held && held[f.gate].pendingEarly
    requires var st := FrameStep(cfg, s.w, s.tracks, f).passes[f.gate];
      forall i | 0 <= i < |frames| :: Repeats(cfg, st, f.gate, frames[i]) || Elsewhere(st, f.gate, frames[i])
    requires var t := D.TrackIn(Feed(cfg, s.tracks, f), f.gate);
      EvenFrom(t.lastTs, t.lastInterval, TimesAt(f.gate, frames), 4 * cfg.direction.trackGapMs) &&
      AtGate(f.gate, frames) == cfg.direction.announceHoldSightings &&
      |t.sizes| + AtGate(f.gate, frames) <= D.MAX_SAMPLES
    ensures var w := FrameStep(cfg, s.w, s.tracks, f);
      Released(w.passes[f.gate].pendingItem, w.log, Frames(cfg, s, [f] + frames).w.log)
  {
    hide ReadSteps, Good, Feed, Repeats, Elsewhere, Released, D.Step, AtGate, TimesAt, EvenFrom;
    FeedKeepsValid(cfg, s.tracks, f);
    var tracks := Feed(cfg, s.tracks, f);
    var m := MomentOf(tracks, f);
    var next := System(FrameStep(cfg, s.w, s.tracks, f), tracks);
    ReadsHoldSince(cfg, s.w, f.batch, m);
    ReadsKeepGood(cfg, s.w, f.batch, m);
    FeedKeepsLockedKnown(cfg, s.tracks, f);
    HoldIsBounded(cfg, next, f.gate, frames);
    assert ([f] + frames)[1..] == frames;
  }

  lemma FeedKeepsLockedKnown(cfg: Config, tracks: map<string, D.Track>, f: Frame)
    requires ValidTracks(tracks) && P.LockedIsKnown(D.TrackIn(tracks, f.gate))
    ensures P.LockedIsKnown(D.TrackIn(Feed(cfg, tracks, f), f.gate))
  {
    hide D.Step;
    var k := Largest(f.batch, |f.batch|);
    if cfg.directionEnable && k >= 0 {
      var p := f.batch[k].plate;
      P.StepKeepsLockedKnown(cfg.direction, D.TrackIn(tracks, f.gate), D.Sighting(p.side, p.yCenter, f.nowMs));
    }
  }
}
