/**
 Processor, estimator and worker in one line (src/manager/DetectionWorker.cpp:274-462 with the processor of
 src/process/PlateProcessor.cpp called at lines 338-340): what a frame's plates do to all three, and that a plate that
 keeps being read is announced in time.
 */
module Pipeline {
  import opened Plates
  import opened DetectionWorker
  import opened BoundedHold
  import PP = PlateProcessor
  import V = PlateVoting
  import D = Direction

  /** The plates recognized on one frame. */
  datatype Shot = Shot(gate: string, timestamp: int, nowMs: int, plates: seq<PlateResult>)

  datatype Line = Line(store: PP.Store, w: Worker, tracks: map<string, D.Track>)

  /** The processor's answers to the plates, one after the other. */
  ghost function Answers(pcfg: PP.Config, s: PP.Store, plates: seq<PlateResult>): (r: (PP.Store, seq<Read>))
    requires V.Inv(pcfg, s)
    ensures V.Inv(pcfg, r.0) && |r.1| == |plates|
    ensures forall i | 0 <= i < |plates| :: r.1[i].plate == plates[i]
  {
    if plates == [] then (s, [])
    else
      var n := |plates| - 1;
      var (before, batch) := Answers(pcfg, s, plates[..n]);
      V.ProcessKeepsInv(pcfg, before, plates[n]);
      var (after, kept) := PP.Process(pcfg, before, plates[n]);
      (after, batch + [Read(plates[n], kept)])
  }

  ghost predicate ValidLine(pcfg: PP.Config, l: Line) {
    V.Inv(pcfg, l.store) && ValidTracks(l.tracks)
  }

  ghost function FrameOf(pcfg: PP.Config, s: PP.Store, shot: Shot): Frame
    requires V.Inv(pcfg, s)
  {
    Frame(shot.gate, shot.timestamp, shot.nowMs, Answers(pcfg, s, shot.plates).1)
  }

  ghost function LineStep(pcfg: PP.Config, cfg: Config, l: Line, shot: Shot): (r: Line)
    requires ValidLine(pcfg, l)
    ensures ValidLine(pcfg, r)
  {
    var f := FrameOf(pcfg, l.store, shot);
    FeedKeepsValid(cfg, l.tracks, f);
    Line(Answers(pcfg, l.store, shot.plates).0, FrameStep(cfg, l.w, l.tracks, f), Feed(cfg, l.tracks, f))
  }

  /** The estimator sees the plates, not the processor's answers. */
  lemma {:induction false} LargestIgnoresAnswers(x: seq<Read>, y: seq<Read>, n: nat)
    requires n <= |x| == |y| && forall i | 0 <= i < |x| :: x[i].plate == y[i].plate
    ensures Largest(x, n) == Largest(y, n)
  {
    if n == 0 {
    } else {
      LargestIgnoresAnswers(x, y, n - 1);
    }
  }

  function Unanswered(shot: Shot): Frame {
    Frame(shot.gate, shot.timestamp, shot.nowMs,
          seq(|shot.plates|, i requires 0 <= i < |shot.plates| => Read(shot.plates[i], None)))
  }

  lemma FeedIgnoresAnswers(
      pcfg: PP.Config, cfg: Config, s: PP.Store, tracks: map<string, D.Track>, shot: Shot)
    requires V.Inv(pcfg, s) && ValidTracks(tracks)
    ensures Feed(cfg, tracks, FrameOf(pcfg, s, shot)) == Feed(cfg, tracks, Unanswered(shot))
  {
    hide D.Step, V.Inv, Answers;
    var f, g := FrameOf(pcfg, s, shot), Unanswered(shot);
    LargestIgnoresAnswers(f.batch, g.batch, |f.batch|);
  }

  lemma {:induction false} NoAnswers(pcfg: PP.Config, cfg: Config, s: PP.Store, w: Worker, m: Moment)
    requires V.Inv(pcfg, s)
    ensures Answers(pcfg, s, []) == (s, []) && ReadSteps(cfg, w, [], m) == w
  {
  }

  lemma NextAnswer(
      pcfg: PP.Config, cfg: Config, s: PP.Store, w: Worker, plates: seq<PlateResult>, i: nat, m: Moment)
    requires V.Inv(pcfg, s) && i < |plates| && PP.WellKeyed(Answers(pcfg, s, plates[..i]).0)
    ensures var (before, batch) := Answers(pcfg, s, plates[..i]);
      var (after, kept) := PP.Process(pcfg, before, plates[i]);
      var (next, more) := Answers(pcfg, s, plates[..i + 1]);
      next == after && ReadSteps(cfg, w, more, m) == ReadStep(cfg, ReadSteps(cfg, w, batch, m), Read(plates[i], kept), m)
  {
    hide PP.Process, ReadStep, V.Inv, PP.WellKeyed;
    assert plates[..i + 1][..i] == plates[..i];
    var (before, batch) := Answers(pcfg, s, plates[..i]);
    var r := Read(plates[i], PP.Process(pcfg, before, plates[i]).1);
    assert (batch + [r])[..i] == batch;
  }

  class Pipeline {
    const processor: PP.PlateProcessor
    const worker: DetectionWorker

    constructor (processor: PP.PlateProcessor, worker: DetectionWorker)
      ensures this.processor == processor && this.worker == worker
    {
      this.processor := processor;
      this.worker := worker;
    }

    /** One frame, the processor being asked about each plate as its turn comes. */
    method ProcessFrame(shot: Shot)
      requires V.Inv(processor.cfg, processor.State()) && worker.Valid()
      modifies processor`tracks, processor`order, processor`untrackedCounter, processor`nextId
      modifies worker`passes, worker`nextId, worker`emitted, worker.dir`tracks
      ensures worker.Valid()
      ensures Line(processor.State(), worker.State(), worker.dir.tracks) ==
        LineStep(processor.cfg, worker.cfg, old(Line(processor.State(), worker.State(), worker.dir.tracks)), shot)
    {
      hide PP.Process, ReadStep, ReadSteps, Answers, Feed, V.Inv;
      ghost var s, w := processor.State(), worker.State();
      FeedIgnoresAnswers(processor.cfg, worker.cfg, s, worker.dir.tracks, shot);
      worker.FeedDirection(Unanswered(shot));
      var m := Moment(
        shot.gate, shot.timestamp, shot.nowMs, worker.PhysicalDirection(shot.gate), worker.dir.SightingCount(shot.gate));
      NoAnswers(processor.cfg, worker.cfg, s, w, m);
      assert shot.plates[..0] == [];
      for i := 0 to |shot.plates|
        invariant worker.Valid() && worker.dir.tracks == Feed(worker.cfg, old(worker.dir.tracks), Unanswered(shot))
        invariant processor.State() == Answers(processor.cfg, s, shot.plates[..i]).0
        invariant worker.State() == ReadSteps(worker.cfg, w, Answers(processor.cfg, s, shot.plates[..i]).1, m)
      {
        InvIsValid(processor);
        var kept := processor.ProcessRead(shot.plates[i]);
        NextAnswer(processor.cfg, worker.cfg, s, w, shot.plates, i, m);
        worker.HandleRead(Read(shot.plates[i], kept), m);
      }
      assert shot.plates[..|shot.plates|] == shot.plates;
    }
  }

  lemma InvIsValid(processor: PP.PlateProcessor)
    requires V.Inv(processor.cfg, processor.State())
    ensures processor.Valid()
  {
  }
}
