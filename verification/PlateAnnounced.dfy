/**
 When a plate that keeps being read at a gate is announced, by processor, estimator and worker together: exactly when, and
 always within `announceHoldSightings` frames at an even cadence. The promise of src/process/PlateProcessor.cpp:129-132 and
 src/manager/DetectionWorker.cpp:355-361 is that it always is; module PipelineExamples shows frames for which it never is.
 */
module PlateAnnounced {
  import opened Cadence
  import opened Plates
  import opened DetectionWorker
  import opened AnnounceProtocol
  import opened BoundedHold
  import opened Pipeline
  import PP = PlateProcessor
  import V = PlateVoting
  import D = Direction
  import P = DirectionPasses
  import J = JaroWinkler

  // ----- The processor keeps the first read and suppresses the rest -----

  /** A read of this text at this gate, good enough for the processor and without a track. */
  ghost predicate Shows(pcfg: PP.Config, gate: string, text: string, p: PlateResult) {
    p.text == text && text != "" && p.gate == gate && p.trackId < 0 && p.timestamp > 0 && p.side > 0.0 &&
    PP.Acceptable(pcfg, p)
  }

  /** The times of consecutive reads are within the processor's gap and lifetime, where it has any. */
  predicate SoonAfter(pcfg: PP.Config, before: int, now: int) {
    (pcfg.passGapMs > 0 ==> now - before <= pcfg.passGapMs) && (pcfg.trackTtlMs > 0 ==> now - before <= pcfg.trackTtlMs)
  }

  /** The store holds one cluster, of this gate, all of whose votes are for this text. */
  ghost predicate OneCluster(s: PP.Store, gate: string, text: string, last: int) {
    var k := PP.ClusterKey(gate, 0);
    s.order == [k] && s.tracks.Keys == {k} && OneText(s.tracks[k], text) && s.tracks[k].lastUpdateMs == last
  }

  ghost predicate OneText(t: PP.Track, text: string) {
    t.votes != [] && (forall i | 0 <= i < |t.votes| :: t.votes[i].text == text && t.votes[i].weight >= 0.0) &&
    t.consensus == text && t.sent && t.lastSent == text
  }

  lemma SameTextWins(votes: seq<PP.Vote>, text: string)
    requires votes != [] && text != ""
    requires forall i | 0 <= i < |votes| :: votes[i].text == text && votes[i].weight >= 0.0
    ensures PP.Consensus(votes) == text
  {
    hide PP.Consensus;
    V.ConsensusWins(votes, text);
  }

  lemma CountedText(t: PP.Track, p: PlateResult, nextId: nat, text: string)
    requires p.text == text != "" && p.confidence >= 0.0
    requires t == PP.NEW_TRACK || OneText(t, text)
    ensures var u := PP.Counted(t, p, nextId);
      u.consensus == text && u.lastUpdateMs == p.timestamp && u.sent == t.sent && u.lastSent == t.lastSent &&
      u.votes != [] &&
      forall i | 0 <= i < |u.votes| :: u.votes[i].text == text && u.votes[i].weight >= 0.0
  {
    hide PP.Consensus;
    V.ProductNotNegative(p.confidence, PP.Size(p));
    SameTextWins(t.votes + [PP.VoteOf(p)], text);
  }

  /** The first read is let through as it is. */
  lemma FirstReadIsKept(pcfg: PP.Config, p: PlateResult, gate: string, text: string)
    requires Shows(pcfg, gate, text, p) && pcfg.minConfidence >= 0.0
    ensures var (s, out) := PP.Process(pcfg, PP.EMPTY, p);
      OneCluster(s, gate, text, p.timestamp) && out.Some? && out.value.text == text
  {
    hide PP.Counted, PP.Joins, PP.Consensus;
    CountedText(PP.NEW_TRACK, p, 1, text);
    assert PP.Evict(pcfg, PP.EMPTY, p.timestamp) == PP.EMPTY;
    assert [] + [PP.ClusterKey(gate, 0)] == [PP.ClusterKey(gate, 0)];
  }

  lemma JoinsItself(pcfg: PP.Config, text: string)
    requires text != "" && pcfg.similarityThreshold <= 1.0
    ensures PP.Joins(pcfg, text, text)
  {
    J.JaroWinklerIsOne(text, text);
  }

  lemma OneClusterStays(
      pcfg: PP.Config, s: PP.Store, gate: string, text: string, last: int, now: int)
    requires OneCluster(s, gate, text, last) && SoonAfter(pcfg, last, now)
    ensures PP.Evict(pcfg, s, now) == s
  {
    hide PP.ClusterKey, OneText;
    if pcfg.trackTtlMs > 0 && now > 0 {
      var v := PP.Evict(pcfg, s, now);
      assert v.tracks == s.tracks;
      assert s.order[..0] == [] && PP.Filter([], v.tracks.Keys) == [];
      assert PP.Filter(s.order, v.tracks.Keys) == s.order;
    }
  }

  lemma OneClusterIsChosen(
      pcfg: PP.Config, s: PP.Store, p: PlateResult, gate: string, text: string, last: int)
    requires OneCluster(s, gate, text, last) && Shows(pcfg, gate, text, p) && SoonAfter(pcfg, last, p.timestamp)
    requires pcfg.similarityThreshold <= 1.0
    ensures PP.ResolveKey(pcfg, s, p, p.timestamp) == (PP.ClusterKey(gate, 0), s.counter)
  {
    hide PP.Joins;
    var k := PP.ClusterKey(gate, 0);
    JoinsItself(pcfg, text);
    assert PP.Prefix(gate) <= k;
    assert PP.Candidate(pcfg, p, p.timestamp, k, s.tracks[k]);
    assert s.order[..0] == [] && PP.BestKey(pcfg, s.tracks, [], p, p.timestamp) == None;
    assert PP.BestKey(pcfg, s.tracks, s.order, p, p.timestamp) == Some(k);
  }

  /** Every further read is counted and suppressed. */
  lemma NextReadIsSuppressed(
      pcfg: PP.Config, s: PP.Store, p: PlateResult, gate: string, text: string, last: int)
    requires V.Inv(pcfg, s) && OneCluster(s, gate, text, last)
    requires Shows(pcfg, gate, text, p) && SoonAfter(pcfg, last, p.timestamp)
    requires pcfg.similarityThreshold <= 1.0 && pcfg.minConfidence >= 0.0
    ensures var (u, out) := PP.Process(pcfg, s, p); OneCluster(u, gate, text, p.timestamp) && out.None?
  {
    hide PP.Process, PP.Counted, PP.Consensus, PP.Evict, PP.ResolveKey, PP.ClusterKey;
    OneClusterStays(pcfg, s, gate, text, last, p.timestamp);
    OneClusterIsChosen(pcfg, s, p, gate, text, last);
    V.EveryReadCounts(pcfg, s, p);
    CountedText(s.tracks[PP.ClusterKey(gate, 0)], p, s.nextId, text);
  }

  // ----- The worker announces or holds it, and releases it -----

  /** Frames that show the plate and nothing else, soon after each other. */
  ghost predicate ShowsOn(pcfg: PP.Config, gate: string, text: string, last: int, shots: seq<Shot>)
    decreases |shots|
  {
    shots == [] ||
    (shots[0].gate == gate && |shots[0].plates| == 1 && Shows(pcfg, gate, text, shots[0].plates[0]) &&
     SoonAfter(pcfg, last, shots[0].plates[0].timestamp) &&
     ShowsOn(pcfg, gate, text, shots[0].plates[0].timestamp, shots[1..]))
  }

  ghost function Lines(pcfg: PP.Config, cfg: Config, l: Line, shots: seq<Shot>): (r: Line)
    requires ValidLine(pcfg, l)
    ensures ValidLine(pcfg, r)
    decreases |shots|
  {
    if shots == [] then l else Lines(pcfg, cfg, LineStep(pcfg, cfg, l, shots[0]), shots[1..])
  }

  /** The frames the worker gets to see of them: each read suppressed. */
  function Suppressed(shots: seq<Shot>): (frames: seq<Frame>)
    ensures |frames| == |shots|
    decreases |shots|
  {
    if shots == [] then [] else [Unanswered(shots[0])] + Suppressed(shots[1..])
  }

  lemma {:induction false} OneAnswer(pcfg: PP.Config, s: PP.Store, shot: Shot)
    requires V.Inv(pcfg, s) && |shot.plates| == 1
    ensures var (after, kept) := PP.Process(pcfg, s, shot.plates[0]);
      Answers(pcfg, s, shot.plates).0 == after && Answers(pcfg, s, shot.plates).1 == [Read(shot.plates[0], kept)]
  {
    hide PP.Process, V.Inv;
    assert shot.plates[..0] == [];
    assert Answers(pcfg, s, []) == (s, []);
  }

  lemma {:induction false} LaterShots(
      pcfg: PP.Config, cfg: Config, l: Line, gate: string, text: string, last: int, shots: seq<Shot>)
    requires ValidLine(pcfg, l) && OneCluster(l.store, gate, text, last) && ShowsOn(pcfg, gate, text, last, shots)
    requires pcfg.similarityThreshold <= 1.0 && pcfg.minConfidence >= 0.0
    ensures Lines(pcfg, cfg, l, shots).w == Frames(cfg, System(l.w, l.tracks), Suppressed(shots)).w
    decreases |shots|
  {
    hide PP.Process, V.Inv, OneCluster, Shows, SoonAfter, Answers, Feed, ReadSteps;
    if shots == [] {
    } else {
      var p := shots[0].plates[0];
      NextReadIsSuppressed(pcfg, l.store, p, gate, text, last);
      OneAnswer(pcfg, l.store, shots[0]);
      var next := LineStep(pcfg, cfg, l, shots[0]);
      assert FrameOf(pcfg, l.store, shots[0]) == Unanswered(shots[0]);
      LaterShots(pcfg, cfg, next, gate, text, p.timestamp, shots[1..]);
      assert Suppressed(shots)[1..] == Suppressed(shots[1..]);
    }
  }

  lemma {:induction false} SuppressedRepeat(
      pcfg: PP.Config, cfg: Config, st: PassState, gate: string, text: string, last: int, shots: seq<Shot>)
    requires ShowsOn(pcfg, gate, text, last, shots) && st.text == text && cfg.passPlateSimilarity <= 1.0
    ensures forall i | 0 <= i < |shots| :: Repeats(cfg, st, gate, Suppressed(shots)[i])
    ensures AtGate(gate, Suppressed(shots)) == |shots|
    decreases |shots|
  {
    if shots == [] {
    } else {
      hide SoonAfter, Repeats;
      var f := Suppressed(shots)[0];
      SuppressedRepeat(pcfg, cfg, st, gate, text, shots[0].plates[0].timestamp, shots[1..]);
      OneRepeat(pcfg, cfg, st, gate, text, shots[0]);
      assert Suppressed(shots)[1..] == Suppressed(shots[1..]);
      forall i | 0 <= i < |shots| ensures Repeats(cfg, st, gate, Suppressed(shots)[i]) {
        if i > 0 {
          assert Suppressed(shots)[i] == Suppressed(shots[1..])[i - 1];
        }
      }
    }
  }

  lemma OneRepeat(
      pcfg: PP.Config, cfg: Config, st: PassState, gate: string, text: string, shot: Shot)
    requires shot.gate == gate && |shot.plates| == 1 && Shows(pcfg, gate, text, shot.plates[0])
    requires st.text == text && cfg.passPlateSimilarity <= 1.0
    ensures Repeats(cfg, st, gate, Unanswered(shot))
  {
    J.JaroWinklerIsOne(text, text);
  }

  /** Announced: an unforced item of this gate with this text. */
  ghost predicate Announced(gate: string, text: string, before: seq<PlateItem>, after: seq<PlateItem>) {
    exists k :: |before| <= k < |after| && IsAnnounce(gate, text, after[k])
  }

  ghost predicate IsAnnounce(gate: string, text: string, item: PlateItem) {
    item.gate == gate && item.plate.text == text && !item.forceSend && item.plate.direction in {0, 1, 2}
  }

  /** A kept read at a gate without a pass is announced at once, or held. */
  lemma KeptAtNewGate(cfg: Config, w: Worker, plate: PlateResult, m: Moment, raw: PlateResult)
    requires m.gate !in w.passes && m.phys in {0, 1, 2} && plate.text != ""
    ensures var v := ReadStep(cfg, w, Read(raw, Some(plate)), m);
      m.gate in v.passes && v.passes[m.gate].text == plate.text &&
      (v.passes[m.gate].pendingEarly <==> Hold(cfg) > 0 && (!cfg.directionEnable || m.phys == 0)) &&
      if v.passes[m.gate].pendingEarly then
        v.passes[m.gate].pendingItem.plate.text == plate.text && v.passes[m.gate].pendingItem.gate == m.gate &&
        !v.passes[m.gate].pendingItem.forceSend && v.log == w.log
      else Announced(m.gate, plate.text, w.log, v.log)
  {
    hide Similar, ReadStep;
    KeptReadForm(cfg, w, plate, m, raw);
    var v := ReadStep(cfg, w, Read(raw, Some(plate)), m);
    if !v.passes[m.gate].pendingEarly {
      assert IsAnnounce(m.gate, plate.text, v.log[|w.log|]);
    }
  }

  lemma FirstFrame(pcfg: PP.Config, cfg: Config, l: Line, gate: string, text: string, shot: Shot)
    requires ValidLine(pcfg, l) && l.store == PP.EMPTY && gate !in l.w.passes && pcfg.minConfidence >= 0.0
    requires shot.gate == gate && |shot.plates| == 1 && Shows(pcfg, gate, text, shot.plates[0])
    ensures var r := LineStep(pcfg, cfg, l, shot);
      OneCluster(r.store, gate, text, shot.plates[0].timestamp) && gate in r.w.passes && r.w.passes[gate].text == text &&
      (cfg.directionEnable ==>
         (r.w.passes[gate].pendingEarly <==>
          cfg.direction.announceHoldSightings > 0 && D.TrackIn(r.tracks, gate).reported == D.Unknown)) &&
      if r.w.passes[gate].pendingEarly then
        r.w.passes[gate].pendingItem.plate.text == text && r.w.passes[gate].pendingItem.gate == gate &&
        !r.w.passes[gate].pendingItem.forceSend && r.w.log == l.w.log
      else Announced(gate, text, l.w.log, r.w.log)
  {
    hide PP.Process, V.Inv, OneCluster, Feed, ReadStep, Announced, Answers;
    var p := shot.plates[0];
    FirstReadIsKept(pcfg, p, gate, text);
    OneAnswer(pcfg, l.store, shot);
    var f := FrameOf(pcfg, l.store, shot);
    FeedKeepsValid(cfg, l.tracks, f);
    var m := MomentOf(Feed(cfg, l.tracks, f), f);
    KeptAtNewGate(cfg, l.w, f.batch[0].kept.value, m, p);
    assert f.batch[..0] == [];
    assert ReadSteps(cfg, l.w, [], m) == l.w;
    assert ReadSteps(cfg, l.w, f.batch, m) == ReadStep(cfg, l.w, f.batch[0], m);
    assert m.phys == Physical(D.TrackIn(LineStep(pcfg, cfg, l, shot).tracks, gate).reported);
  }

  /** Frames at the held plate's gate that settle nothing change nothing. */
  lemma {:induction false} WaitingFrames(cfg: Config, s: System, gate: string, frames: seq<Frame>)
    requires ValidTracks(s.tracks) && gate in s.w.passes && s.w.passes[gate].pendingEarly
    requires forall i | 0 <= i < |frames| :: Echoes(cfg, s.w.passes[gate], gate, frames[i])
    requires !Settles(cfg, s.w.passes[gate], s.tracks, gate, frames)
    ensures Frames(cfg, s, frames).w == s.w
    decreases |frames|
  {
    hide ReadSteps, Feed, SamePass, Releases;
    if frames == [] {
    } else {
      var f := frames[0];
      FeedKeepsValid(cfg, s.tracks, f);
      var tracks := Feed(cfg, s.tracks, f);
      assert Echoes(cfg, s.w.passes[gate], gate, f);
      EchoesWait(cfg, s.w, f, MomentOf(tracks, f));
      WaitingFrames(cfg, System(s.w, tracks), gate, frames[1..]);
    }
  }

  /** The plate is announced exactly if its first frame announces it at once, which it does without a hold or with the
      direction known, or a later frame finds the direction known or the hold run out. */
  lemma {:induction false} AnnouncedExactly(
      pcfg: PP.Config, cfg: Config, l: Line, gate: string, text: string, shots: seq<Shot>)
    requires ValidLine(pcfg, l) && l.store == PP.EMPTY && Good(l.w) && gate !in l.w.passes
    requires pcfg.similarityThreshold <= 1.0 && pcfg.minConfidence >= 0.0
    requires cfg.directionEnable && cfg.passPlateSimilarity <= 1.0
    requires shots != [] && |shots[0].plates| == 1
    requires ShowsOn(pcfg, gate, text, shots[0].plates[0].timestamp, shots)
    ensures var first := LineStep(pcfg, cfg, l, shots[0]);
      gate in first.w.passes &&
      (Announced(gate, text, l.w.log, Lines(pcfg, cfg, l, shots).w.log) <==>
       cfg.direction.announceHoldSightings <= 0 || D.TrackIn(first.tracks, gate).reported != D.Unknown ||
       Settles(cfg, first.w.passes[gate], first.tracks, gate, Suppressed(shots[1..])))
    ensures var log := Lines(pcfg, cfg, l, shots).w.log; !Announced(gate, text, l.w.log, log) ==> log == l.w.log
  {
    hide PP.Process, V.Inv, OneCluster, Feed, ReadSteps, Answers, Repeats, AtGate, D.Step, Good, Shows, SoonAfter, Settles;
    hide Announced, Released;
    var shot, rest := shots[0], shots[1..];
    var f := FrameOf(pcfg, l.store, shot);
    var first := LineStep(pcfg, cfg, l, shot);
    var sys := System(first.w, first.tracks);
    var last := shot.plates[0].timestamp;
    FirstFrame(pcfg, cfg, l, gate, text, shot);
    LaterShots(pcfg, cfg, first, gate, text, last, rest);
    FeedKeepsValid(cfg, l.tracks, f);
    ReadsKeepGood(cfg, l.w, f.batch, MomentOf(first.tracks, f));
    FramesKeepGood(cfg, sys, Suppressed(rest));
    var st, w := first.w.passes[gate], Frames(cfg, sys, Suppressed(rest)).w;
    if st.pendingEarly {
      SuppressedRepeat(pcfg, cfg, st, gate, text, last, rest);
      RepeatsEcho(cfg, st, gate, Suppressed(rest));
      if Settles(cfg, st, first.tracks, gate, Suppressed(rest)) {
        HoldEndsExactly(cfg, sys, gate, Suppressed(rest));
        ReleasedIsAnnounced(st.pendingItem, gate, text, l.w.log, first.w.log, w.log);
      } else {
        WaitingFrames(cfg, sys, gate, Suppressed(rest));
        NothingAnnounced(gate, text, l.w.log);
      }
    } else {
      AnnouncedStays(gate, text, l.w.log, first.w.log, w.log);
    }
  }

  lemma RepeatsEcho(cfg: Config, st: PassState, gate: string, frames: seq<Frame>)
    requires forall i | 0 <= i < |frames| :: Repeats(cfg, st, gate, frames[i])
    ensures forall i | 0 <= i < |frames| :: Echoes(cfg, st, gate, frames[i])
  {
    hide Echoes;
  }

  lemma NothingAnnounced(gate: string, text: string, log: seq<PlateItem>)
    ensures !Announced(gate, text, log, log)
  {
  }

  /** From an empty processor and a gate without a pass: the plate's first frame and `announceHoldSightings` more at an
      even cadence see it announced, if the hold ends within the samples kept. */
  lemma {:induction false} PlateIsAnnounced(
      pcfg: PP.Config, cfg: Config, l: Line, gate: string, text: string, shots: seq<Shot>)
    requires ValidLine(pcfg, l) && l.store == PP.EMPTY && Good(l.w) && gate !in l.w.passes
    requires P.LockedIsKnown(D.TrackIn(l.tracks, gate))
    requires pcfg.similarityThreshold <= 1.0 && pcfg.minConfidence >= 0.0
    requires cfg.directionEnable && cfg.passPlateSimilarity <= 1.0
    requires shots != [] && |shots[0].plates| == 1
    requires ShowsOn(pcfg, gate, text, shots[0].plates[0].timestamp, shots)
    requires |shots| == 1 + (if cfg.direction.announceHoldSightings > 0 then cfg.direction.announceHoldSightings else 0)
    requires var t := D.TrackIn(Feed(cfg, l.tracks, Unanswered(shots[0])), gate);
      EvenFrom(t.lastTs, t.lastInterval, TimesAt(gate, Suppressed(shots[1..])), 4 * cfg.direction.trackGapMs) &&
      |t.sizes| + cfg.direction.announceHoldSightings <= D.MAX_SAMPLES
    ensures Announced(gate, text, l.w.log, Lines(pcfg, cfg, l, shots).w.log)
  {
    hide PP.Process, V.Inv, OneCluster, Feed, ReadSteps, Answers, Repeats, AtGate, D.Step, Good, Shows, SoonAfter, Settles;
    hide Announced, EvenFrom, TimesAt;
    var shot, rest := shots[0], shots[1..];
    var f := FrameOf(pcfg, l.store, shot);
    var first := LineStep(pcfg, cfg, l, shot);
    AnnouncedExactly(pcfg, cfg, l, gate, text, shots);
    FirstFrame(pcfg, cfg, l, gate, text, shot);
    FeedIgnoresAnswers(pcfg, cfg, l.store, l.tracks, shot);
    FeedKeepsLockedKnown(cfg, l.tracks, f);
    var st := first.w.passes[gate];
    if st.pendingEarly {
      SuppressedRepeat(pcfg, cfg, st, gate, text, shot.plates[0].timestamp, rest);
      ReadsHoldSince(cfg, l.w, f.batch, MomentOf(first.tracks, f));
      EvenCadenceSettles(cfg, st, first.tracks, gate, Suppressed(rest));
    }
  }

  lemma AnnouncedStays(
      gate: string, text: string, before: seq<PlateItem>, middle: seq<PlateItem>, after: seq<PlateItem>)
    requires middle <= after && Announced(gate, text, before, middle)
    ensures Announced(gate, text, before, after)
  {
    var k :| |before| <= k < |middle| && IsAnnounce(gate, text, middle[k]);
    assert after[k] == middle[k];
  }

  lemma ReleasedIsAnnounced(
      held: PlateItem, gate: string, text: string, before: seq<PlateItem>, middle: seq<PlateItem>, after: seq<PlateItem>)
    requires before <= middle <= after && Released(held, middle, after)
    requires held.gate == gate && held.plate.text == text && !held.forceSend
    ensures Announced(gate, text, before, after)
  {
    var k :| |middle| <= k < |after| && IsItem(after[k], held) && after[k].plate.direction in {0, 1, 2};
    assert IsAnnounce(gate, text, after[k]);
  }
}
