/**
 Announce, hold, correct: the per-gate protocol of src/manager/DetectionWorker.cpp.

 The functions describe one plate read as a step from worker state to worker state; class `DetectionWorker` does the
 same work in place. The processor in front of the worker is a parameter: each read comes with what it returned.
 Pass ids are numbers drawn from a counter.
 */
module DetectionWorker {
  import opened Plates
  import D = Direction
  import J = JaroWinkler

  datatype Config = Config(directionEnable: bool, direction: D.Config, passGapMs: int, passPlateSimilarity: real)

  datatype PassState = PassState(
    passId: nat,
    text: string,
    lastSeenMs: int,
    lastInterval: int,
    emittedEarly: bool,
    lastSentDir: int,
    pendingEarly: bool,
    pendingItem: PlateItem,
    pendingSince: int)

  const NEW_PASS := PassState(0, "", 0, 0, false, -1, false, NO_ITEM, 0)

  const PRUNE_MS := 300000

  /** Pass states by gate, the next unused pass id, and everything emitted so far. */
  datatype Worker = Worker(passes: map<string, PassState>, nextId: nat, log: seq<PlateItem>)

  /** One recognized plate and what the processor made of it. */
  datatype Read = Read(plate: PlateResult, kept: Option<PlateResult>)

  /** What the plate loop of one frame knows besides its reads: the clocks, the settled trend and its sample count. */
  datatype Moment = Moment(gate: string, timestamp: int, nowMs: int, phys: int, sightings: int)

  // ----- One read -----

  function PassOf(passes: map<string, PassState>, gate: string): PassState {
    if gate in passes then passes[gate] else NEW_PASS
  }

  predicate Stale(st: PassState, nowMs: int) {
    nowMs - st.lastSeenMs > PRUNE_MS
  }

  function Pruned(passes: map<string, PassState>, nowMs: int): map<string, PassState> {
    map g | g in passes && !Stale(passes[g], nowMs) :: passes[g]
  }

  predicate GapSplits(cfg: Config, st: PassState, nowMs: int) {
    var gap := nowMs - st.lastSeenMs;
    gap > 4 * cfg.passGapMs || (st.lastInterval > 0 && gap > 3 * st.lastInterval)
  }

  ghost predicate Similar(cfg: Config, x: string, y: string) {
    J.JaroWinkler(x, y) >= cfg.passPlateSimilarity
  }

  /** A read with this text opens a new pass in this state. */
  ghost predicate OpensPass(cfg: Config, st: PassState, text: string, nowMs: int) {
    st.passId == 0 || GapSplits(cfg, st, nowMs) || (st.text != "" && text != "" && !Similar(cfg, st.text, text))
  }

  ghost function Joined(cfg: Config, st: PassState, text: string, nowMs: int, nextId: nat): PassState {
    var base :=
      if OpensPass(cfg, st, text, nowMs) then
        st.(passId := nextId, emittedEarly := false, lastSentDir := -1, lastInterval := 0)
      else st.(lastInterval := nowMs - st.lastSeenMs);
    base.(text := if text != "" then text else st.text, lastSeenMs := nowMs)
  }

  /** `passIdFor`: prune, then join or open the pass of the gate. */
  ghost function EnterPass(cfg: Config, w: Worker, gate: string, text: string, nowMs: int): Worker {
    var passes := Pruned(w.passes, nowMs);
    var st := PassOf(passes, gate);
    Worker(passes[gate := Joined(cfg, st, text, nowMs, w.nextId)],
           if OpensPass(cfg, st, text, nowMs) then w.nextId + 1 else w.nextId,
           w.log)
  }

  ghost predicate SamePass(cfg: Config, st: PassState, text: string) {
    st.text == "" || text == "" || Similar(cfg, st.text, text)
  }

  predicate Releases(cfg: Config, st: PassState, m: Moment) {
    m.phys != 0 || m.sightings - st.pendingSince >= cfg.direction.announceHoldSightings
  }

  function Correction(st: PassState, text: string, m: Moment): PlateItem {
    PlateItem(NO_PLATE.(text := if text == "" then st.text else text, passId := st.passId, direction := m.phys),
              m.gate, m.timestamp, true)
  }

  /** A read that the processor suppressed: the new pass state and the items emitted. */
  ghost function Dropped(cfg: Config, st: PassState, text: string, m: Moment): (PassState, seq<PlateItem>) {
    if st.pendingEarly && SamePass(cfg, st, text) then
      if Releases(cfg, st, m) then
        var item := st.pendingItem.WithDirection(m.phys);
        (st.(lastSeenMs := m.nowMs, pendingItem := item, emittedEarly := true, lastSentDir := m.phys,
             pendingEarly := false),
         [item])
      else (st, [])
    else
      var item := st.pendingItem.WithDirection(0);
      var u := if st.pendingEarly then st.(pendingItem := item, pendingEarly := false) else st;
      var flushed := if st.pendingEarly then [item] else [];
      if u.emittedEarly && SamePass(cfg, u, text) && u.passId != 0 && m.phys != 0 && m.phys != u.lastSentDir then
        (u.(lastSeenMs := m.nowMs, lastSentDir := m.phys), flushed + [Correction(u, text, m)])
      else (u, flushed)
  }

  /** The kept read overlaps a held plate that it does not resemble. */
  ghost predicate Displaces(cfg: Config, st: PassState, text: string) {
    st.pendingEarly && st.pendingItem.plate.text != "" && text != "" &&
    !Similar(cfg, st.pendingItem.plate.text, text)
  }

  function Hold(cfg: Config): int {
    if cfg.directionEnable then cfg.direction.announceHoldSightings else 0
  }

  /** A read that the processor let through, after the pass has been entered. */
  ghost function Kept(cfg: Config, st: PassState, plate: PlateResult, m: Moment): (PassState, seq<PlateItem>) {
    var phys := if cfg.directionEnable then m.phys else 0;
    var out := PlateItem(plate.(passId := st.passId), m.gate, m.timestamp, false);
    var item := st.pendingItem.WithDirection(0);
    var displaced := Displaces(cfg, st, plate.text);
    var u := if displaced then st.(pendingItem := item, pendingEarly := false) else st;
    var flushed := if displaced then [item] else [];
    if !u.emittedEarly then
      if Hold(cfg) > 0 && phys == 0 then
        (u.(pendingSince := if u.pendingEarly then u.pendingSince else if cfg.directionEnable then m.sightings else 0,
            pendingEarly := true, pendingItem := out),
         flushed)
      else
        (u.(emittedEarly := true, lastSentDir := phys, pendingEarly := false), flushed + [out.WithDirection(phys)])
    else if phys != 0 && phys != u.lastSentDir then
      (u.(lastSentDir := phys), flushed + [out.Corrected(phys)])
    else (u, flushed)
  }

  ghost function ReadStep(cfg: Config, w: Worker, r: Read, m: Moment): Worker {
    if r.kept.None? then
      if !cfg.directionEnable then w
      else
        var (st, items) := Dropped(cfg, PassOf(w.passes, m.gate), r.plate.text, m);
        w.(passes := w.passes[m.gate := st], log := w.log + items)
    else
      var v := EnterPass(cfg, w, m.gate, r.kept.value.text, m.nowMs);
      var (st, items) := Kept(cfg, v.passes[m.gate], r.kept.value, m);
      v.(passes := v.passes[m.gate := st], log := v.log + items)
  }

  ghost function ReadSteps(cfg: Config, w: Worker, batch: seq<Read>, m: Moment): Worker {
    if batch == [] then w
    else ReadStep(cfg, ReadSteps(cfg, w, batch[..|batch| - 1], m), batch[|batch| - 1], m)
  }

  // ----- One frame -----

  datatype Frame = Frame(gate: string, timestamp: int, nowMs: int, batch: seq<Read>)

  /** Index of the first largest read that has a text and a positive size, among the first `n`; -1 if there is none. */
  function Largest(batch: seq<Read>, n: nat): (k: int)
    requires n <= |batch|
    ensures -1 <= k < n
    ensures k >= 0 ==> batch[k].plate.text != "" && batch[k].plate.side > 0.0
    ensures forall i | 0 <= i < n && batch[i].plate.text != "" && batch[i].plate.side > 0.0 ::
      k >= 0 && batch[i].plate.side <= batch[k].plate.side
    ensures forall i | 0 <= i < k && batch[i].plate.text != "" :: batch[i].plate.side < batch[k].plate.side
  {
    if n == 0 then -1
    else
      var k := Largest(batch, n - 1);
      var p := batch[n - 1].plate;
      if p.text != "" && p.side > (if k >= 0 then batch[k].plate.side else 0.0) then n - 1 else k
  }

  ghost predicate ValidTracks(tracks: map<string, D.Track>) {
    forall g | g in tracks :: D.ValidTrack(tracks[g])
  }

  /** The estimator is fed once per frame, with the largest plate. */
  ghost function Feed(cfg: Config, tracks: map<string, D.Track>, f: Frame): map<string, D.Track>
    requires ValidTracks(tracks)
  {
    var k := Largest(f.batch, |f.batch|);
    if cfg.directionEnable && k >= 0 then
      var p := f.batch[k].plate;
      tracks[f.gate := D.Step(cfg.direction, D.TrackIn(tracks, f.gate), D.Sighting(p.side, p.yCenter, f.nowMs)).0]
    else tracks
  }

  function Physical(trend: D.Trend): int {
    match trend
    case Approaching => 1
    case Receding => 2
    case Unknown => 0
  }

  function MomentOf(tracks: map<string, D.Track>, f: Frame): Moment {
    var t := D.TrackIn(tracks, f.gate);
    Moment(f.gate, f.timestamp, f.nowMs, Physical(t.reported), |t.sizes|)
  }

  ghost function FrameStep(cfg: Config, w: Worker, tracks: map<string, D.Track>, f: Frame): Worker
    requires ValidTracks(tracks)
  {
    ReadSteps(cfg, w, f.batch, MomentOf(Feed(cfg, tracks, f), f))
  }

  // ----- The class -----

  class DetectionWorker {
    var cfg: Config
    const dir: D.DirectionEstimator
    var passes: map<string, PassState>
    var nextId: nat
    var emitted: seq<PlateItem>

    ghost predicate Valid()
      reads this, dir
    {
      dir.Valid() && dir.cfg == cfg.direction
    }

    ghost function State(): Worker
      reads this
    {
      Worker(passes, nextId, emitted)
    }

    constructor (cfg: Config)
      ensures Valid() && fresh(dir) && this.cfg == cfg && State() == Worker(map[], 1, []) && dir.tracks == map[]
    {
      this.cfg := cfg;
      dir := new D.DirectionEstimator(cfg.direction);
      passes := map[];
      nextId := 1;
      emitted := [];
    }

    function PhysicalDirection(gate: string): int
      reads this, dir
    {
      Physical(dir.Current(gate))
    }

    method EmitPlate(out: PlateItem)
      modifies this`emitted
      ensures emitted == old(emitted) + [out]
    {
      emitted := emitted + [out];
    }

    method AtLeastSimilar(x: string, y: string) returns (b: bool)
      ensures b <==> Similar(cfg, x, y)
    {
      var s := J.JaroWinklerDistance(x, y);
      b := s >= cfg.passPlateSimilarity;
    }

    method PruneStale(nowMs: int)
      modifies this`passes
      ensures passes == Pruned(old(passes), nowMs)
      ensures forall g ::
        if g in old(passes) && nowMs - old(passes)[g].lastSeenMs <= 5 * 60 * 1000 then
          g in passes && passes[g] == old(passes)[g]
        else g !in passes
    {
      ghost var before := passes;
      var gates := passes.Keys;
      while gates != {}
        invariant gates <= passes.Keys <= before.Keys
        invariant forall g | g in before ::
            (g in passes <==> g in gates || !Stale(before[g], nowMs)) && (g in passes ==> passes[g] == before[g])
        decreases |gates|
      {
        var g :| g in gates;
        gates := gates - {g};
        if nowMs - passes[g].lastSeenMs > PRUNE_MS {
          passes := map h | h in passes && h != g :: passes[h];
        }
      }
    }

    method PassIdFor(gate: string, text: string, nowMs: int) returns (id: nat)
      modifies this`passes, this`nextId
      ensures State() == EnterPass(cfg, old(State()), gate, text, nowMs)
      ensures gate in passes && id == passes[gate].passId
    {
      hide Similar, Pruned;
      PruneStale(nowMs);
      var st := PassOf(passes, gate);
      ghost var entered := st;
      var isFresh := st.passId == 0;
      if !isFresh {
        var gap := nowMs - st.lastSeenMs;
        var hardGap := 4 * cfg.passGapMs;
        if gap > hardGap {
          isFresh := true;
        } else if st.lastInterval > 0 && gap > 3 * st.lastInterval {
          isFresh := true;
        } else {
          st := st.(lastInterval := gap);
        }
      }
      var differentPlate := false;
      if !isFresh && st.text != "" && text != "" {
        var similar := AtLeastSimilar(st.text, text);
        differentPlate := !similar;
      }
      assert (isFresh || differentPlate) == OpensPass(cfg, entered, text, nowMs);
      if isFresh || differentPlate {
        st := st.(passId := nextId, emittedEarly := false, lastSentDir := -1, lastInterval := 0);
        nextId := nextId + 1;
      }
      if text != "" {
        st := st.(text := text);
      }
      st := st.(lastSeenMs := nowMs);
      passes := passes[gate := st];
      id := st.passId;
    }

    method HandleDropped(text: string, m: Moment)
      modifies this`passes, this`emitted
      ensures var (st, items) := Dropped(cfg, PassOf(old(passes), m.gate), text, m);
        passes == old(passes)[m.gate := st] && emitted == old(emitted) + items
    {
      hide Similar;
      var st := PassOf(passes, m.gate);
      var samePass := st.text == "" || text == "";
      if !samePass {
        samePass := AtLeastSimilar(st.text, text);
      }
      if st.pendingEarly && samePass {
        var settled := m.phys != 0;
        var expired := m.sightings - st.pendingSince >= cfg.direction.announceHoldSightings;
        if settled || expired {
          st := st.(lastSeenMs := m.nowMs, pendingItem := st.pendingItem.WithDirection(m.phys),
                    emittedEarly := true, lastSentDir := m.phys, pendingEarly := false);
          EmitPlate(st.pendingItem);
        }
        passes := passes[m.gate := st];
        return;
      }
      if st.pendingEarly && !samePass {
        st := st.(pendingItem := st.pendingItem.WithDirection(0), pendingEarly := false);
        EmitPlate(st.pendingItem);
      }
      if st.emittedEarly && samePass && st.passId != 0 && m.phys != 0 && m.phys != st.lastSentDir {
        EmitPlate(Correction(st, text, m));
        st := st.(lastSeenMs := m.nowMs, lastSentDir := m.phys);
      }
      passes := passes[m.gate := st];
    }

    method HandleKept(plate: PlateResult, m: Moment)
      modifies this`passes, this`nextId, this`emitted
      ensures State() == ReadStep(cfg, old(State()), Read(plate, Some(plate)), m)
    {
      hide EnterPass, Similar;
      var id := PassIdFor(m.gate, plate.text, m.nowMs);
      var out := PlateItem(plate.(passId := id), m.gate, m.timestamp, false);
      var phys := if cfg.directionEnable then m.phys else 0;
      var st := passes[m.gate];
      var displaced := false;
      if st.pendingEarly && st.pendingItem.plate.text != "" && out.plate.text != "" {
        var similar := AtLeastSimilar(st.pendingItem.plate.text, out.plate.text);
        displaced := !similar;
      }
      if displaced {
        st := st.(pendingItem := st.pendingItem.WithDirection(0), pendingEarly := false);
        EmitPlate(st.pendingItem);
      }
      if !st.emittedEarly {
        var hold := if cfg.directionEnable then cfg.direction.announceHoldSightings else 0;
        if hold > 0 && phys == 0 {
          if !st.pendingEarly {
            st := st.(pendingSince := if cfg.directionEnable then m.sightings else 0);
          }
          st := st.(pendingEarly := true, pendingItem := out);
          passes := passes[m.gate := st];
          return;
        }
        out := out.WithDirection(phys);
        st := st.(emittedEarly := true, lastSentDir := phys, pendingEarly := false);
        EmitPlate(out);
      } else if phys != 0 && phys != st.lastSentDir {
        out := out.Corrected(phys);
        st := st.(lastSentDir := phys);
        EmitPlate(out);
      }
      passes := passes[m.gate := st];
    }

    /** First half of `process`: feed the estimator with the largest plate of the frame. */
    method FeedDirection(f: Frame)
      requires Valid()
      modifies dir`tracks
      ensures Valid() && dir.tracks == Feed(cfg, old(dir.tracks), f)
    {
      hide D.Step;
      if cfg.directionEnable {
        var best := -1;
        var bestSz := 0.0;
        for i := 0 to |f.batch|
          invariant best == Largest(f.batch, i)
          invariant bestSz == if best >= 0 then f.batch[best].plate.side else 0.0
        {
          var p := f.batch[i].plate;
          if p.text != "" && p.side > bestSz {
            best, bestSz := i, p.side;
          }
        }
        if best >= 0 {
          var event := dir.Update(f.gate, bestSz, f.batch[best].plate.yCenter, f.nowMs);
        }
      }
    }

    /** One turn of the plate loop of `process`. */
    method HandleRead(r: Read, m: Moment)
      modifies this`passes, this`nextId, this`emitted
      ensures State() == ReadStep(cfg, old(State()), r, m)
    {
      match r.kept
      case Some(plate) =>
        HandleKept(plate, m);
      case None =>
        if cfg.directionEnable {
          HandleDropped(r.plate.text, m);
        }
    }

    /** The direction feed and the plate loop of `process`. */
    method Process(f: Frame)
      requires Valid()
      modifies this`passes, this`nextId, this`emitted, dir`tracks
      ensures Valid()
      ensures dir.tracks == Feed(cfg, old(dir.tracks), f)
      ensures State() == FrameStep(cfg, old(State()), old(dir.tracks), f)
    {
      hide ReadStep, Feed;
      FeedDirection(f);
      var m := Moment(f.gate, f.timestamp, f.nowMs, PhysicalDirection(f.gate), dir.SightingCount(f.gate));
      for i := 0 to |f.batch|
        invariant Valid() && dir.tracks == Feed(cfg, old(dir.tracks), f)
        invariant State() == ReadSteps(cfg, old(State()), f.batch[..i], m)
      {
        assert f.batch[..i + 1][..i] == f.batch[..i];
        HandleRead(f.batch[i], m);
      }
      assert f.batch[..|f.batch|] == f.batch;
    }
  }
}
