/**
 How long a vehicle keeps its pass id (src/manager/DetectionWorker.cpp:75-111): the exact condition on each read, over
 every run, with the pass clock that kept reads, releases and corrections move.
 */
module PassIds {
  import opened Cadence
  import opened Numbers
  import opened Plates
  import opened DetectionWorker
  import opened AnnounceProtocol
  import J = JaroWinkler

  ghost function RunFrom(cfg: Config, w: Worker, events: seq<Event>): Worker {
    if events == [] then w
    else
      var n := |events| - 1;
      ReadStep(cfg, RunFrom(cfg, w, events[..n]), events[n].read, events[n].at)
  }

  // ----- The clock of a pass -----

  /** The read comes soon enough: within the prune, within four times the configured gap, and within three times the gap
      learned before, if one was. */
  predicate InTime(cfg: Config, st: PassState, nowMs: int) {
    var gap := nowMs - st.lastSeenMs;
    gap <= 300000 && gap <= 4 * cfg.passGapMs && (st.lastInterval > 0 ==> gap <= 3 * st.lastInterval)
  }

  /** The suppressed read releases the held plate or corrects an announced one. */
  ghost predicate Ticks(cfg: Config, st: PassState, text: string, m: Moment) {
    cfg.directionEnable && SamePass(cfg, st, text) &&
    if st.pendingEarly then Releases(cfg, st, m)
    else st.emittedEarly && st.passId != 0 && m.phys != 0 && m.phys != st.lastSentDir
  }

  /** A kept read that does not end the pass sets its clock and learns the gap; a suppressed one sets the clock exactly
      when it ticks and learns nothing; a read at another gate moves nothing. */
  lemma PassClock(cfg: Config, w: Worker, gate: string, r: Read, m: Moment)
    requires gate in w.passes && !Ends(cfg, w, gate, Event(r, m))
    ensures var st, v := w.passes[gate], ReadStep(cfg, w, r, m);
      gate in v.passes && v.passes[gate].passId == st.passId &&
      v.passes[gate].lastSeenMs ==
        (if m.gate == gate && (r.kept.Some? || Ticks(cfg, st, r.plate.text, m)) then m.nowMs else st.lastSeenMs) &&
      v.passes[gate].lastInterval ==
        if m.gate == gate && r.kept.Some? then m.nowMs - st.lastSeenMs else st.lastInterval
  {
    hide Similar, ReadStep, Unlike;
    match r
    case Read(raw, Some(plate)) =>
      UnlikeIsOther(cfg, w.passes[gate], plate.text);
      KeptReadForm(cfg, w, plate, m, raw);
    case Read(raw, None) =>
      SuppressedReadForm(cfg, w, raw, m);
  }

  // ----- When a pass ends -----

  /** Both texts are known, and too different to be of one plate. */
  ghost predicate Unlike(cfg: Config, x: string, y: string) {
    x != "" && y != "" && J.JaroWinkler(x, y) < cfg.passPlateSimilarity
  }

  lemma UnlikeIsOther(cfg: Config, st: PassState, text: string)
    ensures Unlike(cfg, st.text, text) <==> !SamePass(cfg, st, text)
  {
  }

  /** What ends the pass of a gate: a kept read there that comes too late or does not resemble the pass's text, or a kept
      read elsewhere that finds the pass five minutes old. */
  ghost predicate Ends(cfg: Config, w: Worker, gate: string, e: Event) {
    gate in w.passes && e.read.kept.Some? &&
    if e.at.gate == gate then
      w.passes[gate].passId == 0 || !InTime(cfg, w.passes[gate], e.at.nowMs) ||
      Unlike(cfg, w.passes[gate].text, e.read.kept.value.text)
    else e.at.nowMs - w.passes[gate].lastSeenMs > 300000
  }

  /** The gate's pass is this one. */
  predicate HasId(w: Worker, gate: string, id: nat) {
    gate in w.passes && w.passes[gate].passId == id
  }

  /** One read keeps the id of a pass exactly unless it ends the pass; an id once gone never comes back. */
  lemma IdAfterOneRead(cfg: Config, w: Worker, gate: string, e: Event, id: nat)
    requires 0 < id < w.nextId
    ensures var v := ReadStep(cfg, w, e.read, e.at);
      w.nextId <= v.nextId && (HasId(v, gate, id) <==> HasId(w, gate, id) && !Ends(cfg, w, gate, e))
  {
    hide Similar, ReadStep, Unlike;
    match e.read
    case Read(raw, Some(plate)) =>
      hide Kept;
      if gate in w.passes {
        UnlikeIsOther(cfg, w.passes[gate], plate.text);
      }
      KeptReadForm(cfg, w, plate, e.at, raw);
      KeptKeepsTheId(cfg, w, plate, e.at);
    case Read(raw, None) =>
      SuppressedReadForm(cfg, w, raw, e.at);
  }

  /** The kept read that ends a pass opens the next one, with an unused id, the clock at this read and no gap learned. */
  lemma NextPassStarts(cfg: Config, w: Worker, plate: PlateResult, m: Moment, raw: PlateResult)
    requires Ends(cfg, w, m.gate, Event(Read(raw, Some(plate)), m))
    ensures var st, v := w.passes[m.gate], ReadStep(cfg, w, Read(raw, Some(plate)), m);
      m.gate in v.passes && v.passes[m.gate].passId == w.nextId && v.nextId == w.nextId + 1 &&
      v.passes[m.gate].lastSeenMs == m.nowMs && v.passes[m.gate].lastInterval == 0 &&
      v.passes[m.gate].text ==
        if plate.text != "" then plate.text else if m.nowMs - st.lastSeenMs > 300000 then "" else st.text
  {
    hide Similar, ReadStep, Unlike;
    UnlikeIsOther(cfg, w.passes[m.gate], plate.text);
    KeptReadForm(cfg, w, plate, m, raw);
  }

  lemma KeptKeepsTheId(cfg: Config, w: Worker, plate: PlateResult, m: Moment)
    ensures var st := PassOf(Pruned(w.passes, m.nowMs), m.gate);
      KeptAt(cfg, w, plate, m).0.passId == if OpensPass(cfg, st, plate.text, m.nowMs) then w.nextId else st.passId
  {
    hide Similar, OpensPass;
  }

  /** No read of the run ends the gate's pass. */
  ghost predicate Uninterrupted(cfg: Config, w: Worker, gate: string, events: seq<Event>) {
    events == [] ||
    (Uninterrupted(cfg, w, gate, events[..|events| - 1]) &&
     !Ends(cfg, RunFrom(cfg, w, events[..|events| - 1]), gate, events[|events| - 1]))
  }

  /** Over every run, from any state: a pass keeps its id exactly as long as no read ends it. */
  lemma {:induction false} IdIsKeptExactly(cfg: Config, w: Worker, gate: string, events: seq<Event>)
    requires gate in w.passes && 0 < w.passes[gate].passId < w.nextId
    ensures w.nextId <= RunFrom(cfg, w, events).nextId
    ensures HasId(RunFrom(cfg, w, events), gate, w.passes[gate].passId) <==> Uninterrupted(cfg, w, gate, events)
  {
    hide ReadStep, Ends;
    if events == [] {
    } else {
      var n := |events| - 1;
      IdIsKeptExactly(cfg, w, gate, events[..n]);
      IdAfterOneRead(cfg, RunFrom(cfg, w, events[..n]), gate, events[n], w.passes[gate].passId);
    }
  }

  /** A kept read of the same vehicle within the gap that the configuration allows ends the pass exactly if the gap is more
      than three times the one learned before. */
  lemma AllowedGapsThatEnd(cfg: Config, w: Worker, gate: string, e: Event)
    requires gate in w.passes && w.passes[gate].passId != 0 && e.at.gate == gate && e.read.kept.Some?
    requires !Unlike(cfg, w.passes[gate].text, e.read.kept.value.text) && 0 <= cfg.passGapMs <= 300000
    ensures var gap := e.at.nowMs - w.passes[gate].lastSeenMs;
      gap <= cfg.passGapMs ==> (Ends(cfg, w, gate, e) <==> 0 < 3 * w.passes[gate].lastInterval < gap)
  {
    hide Unlike;
  }

  // ----- The times of the reads of one vehicle -----

  /** Kept reads at one gate, each text like the one before. */
  ghost predicate OneVehicle(cfg: Config, gate: string, events: seq<Event>) {
    (forall i | 0 <= i < |events| ::
       events[i].at.gate == gate && events[i].read.kept.Some? && events[i].read.kept.value.text != "") &&
    forall i | 0 < i < |events| ::
      Similar(cfg, events[i - 1].read.kept.value.text, events[i].read.kept.value.text)
  }

  function Times(events: seq<Event>): (times: seq<int>)
    ensures |times| == |events|
  {
    seq(|events|, i requires 0 <= i < |events| => events[i].at.nowMs)
  }

  /** The hard limit on the gaps of one pass. */
  function HardGap(cfg: Config): int {
    Min(300000, 4 * cfg.passGapMs)
  }

  /** A kept read like the last text draws another id exactly if it comes too late. */
  lemma VehicleRead(cfg: Config, w: Worker, plate: PlateResult, m: Moment, raw: PlateResult)
    requires m.gate in w.passes && w.passes[m.gate].passId != 0 && w.nextId > 0
    requires plate.text != "" && SamePass(cfg, w.passes[m.gate], plate.text)
    ensures var st, v := w.passes[m.gate], ReadStep(cfg, w, Read(raw, Some(plate)), m);
      m.gate in v.passes && v.passes[m.gate].text == plate.text && v.passes[m.gate].lastSeenMs == m.nowMs &&
      if InTime(cfg, st, m.nowMs) then
        v.nextId == w.nextId && v.passes[m.gate].passId == st.passId &&
        v.passes[m.gate].lastInterval == m.nowMs - st.lastSeenMs
      else v.nextId == w.nextId + 1 && v.passes[m.gate].passId != 0
  {
    hide Similar, ReadStep;
    KeptReadForm(cfg, w, plate, m, raw);
  }

  lemma FirstRead(cfg: Config, plate: PlateResult, m: Moment, raw: PlateResult)
    requires plate.text != ""
    ensures var v := ReadStep(cfg, START, Read(raw, Some(plate)), m);
      v.nextId == 2 && m.gate in v.passes && v.passes[m.gate].passId == 1 && v.passes[m.gate].text == plate.text &&
      v.passes[m.gate].lastSeenMs == m.nowMs && v.passes[m.gate].lastInterval == 0
  {
    hide Similar, ReadStep;
    KeptReadForm(cfg, START, plate, m, raw);
  }

  /** One vehicle has one id exactly if its kept reads come at such gaps: another id is drawn at the first that does not
      fit. */
  lemma {:induction false} OneVehicleOneId(cfg: Config, gate: string, events: seq<Event>)
    requires OneVehicle(cfg, gate, events) && events != []
    ensures var w, n := Run(cfg, events), |events| - 1;
      w.nextId >= 2 && gate in w.passes && w.passes[gate].passId != 0 &&
      w.passes[gate].text == events[n].read.kept.value.text && w.passes[gate].lastSeenMs == events[n].at.nowMs &&
      (w.nextId == 2 <==> Even(Times(events), HardGap(cfg))) &&
      (w.nextId == 2 ==>
         w.passes[gate].passId == 1 &&
         w.passes[gate].lastInterval == if n == 0 then 0 else events[n].at.nowMs - events[n - 1].at.nowMs)
  {
    hide Similar, ReadStep, InTime, Fits, HardGap;
    var n := |events| - 1;
    var e := events[n];
    var before := events[..n];
    assert e.read == Read(e.read.plate, Some(e.read.kept.value));
    if n == 0 {
      assert Run(cfg, before) == START;
      FirstRead(cfg, e.read.kept.value, e.at, e.read.plate);
    } else {
      OneVehicleOneId(cfg, gate, before);
      assert before[n - 1] == events[n - 1];
      VehicleRead(cfg, Run(cfg, before), e.read.kept.value, e.at, e.read.plate);
      EvenOneFurther(Times(events), HardGap(cfg));
      assert Times(events)[..n] == Times(before);
      LastFitsInTime(cfg, Run(cfg, before).passes[gate], events);
    }
  }

  lemma LastFitsInTime(cfg: Config, st: PassState, events: seq<Event>)
    requires |events| >= 2 && st.lastSeenMs == events[|events| - 2].at.nowMs
    ensures var n := |events| - 1;
      st.lastInterval == (if n == 1 then 0 else events[n - 1].at.nowMs - events[n - 2].at.nowMs) ==>
      (InTime(cfg, st, events[n].at.nowMs) <==> Fits(Times(events), HardGap(cfg), n))
  {
  }

  // ----- Two vehicles -----

  /** Two vehicles are never merged: a kept read that does not resemble the pass's text gets an id used nowhere before,
      and becomes the text of the new pass. */
  lemma DifferentPlateOpensAPass(
      cfg: Config, w: Worker, plate: PlateResult, m: Moment, raw: PlateResult)
    requires Good(w)
    ensures Unlike(cfg, PassOf(w.passes, m.gate).text, plate.text) ==>
      var v := ReadStep(cfg, w, Read(raw, Some(plate)), m);
      m.gate in v.passes && v.passes[m.gate].text == plate.text &&
      var id := v.passes[m.gate].passId;
      (forall g | g in w.passes :: w.passes[g].passId != id) && forall k | 0 <= k < |w.log| :: w.log[k].plate.passId != id
  {
    hide Similar, ReadStep, LastDir, CorrectionLaw, Unlike;
    UnlikeIsOther(cfg, PassOf(w.passes, m.gate), plate.text);
    KeptReadForm(cfg, w, plate, m, raw);
    assert forall g | g in w.passes :: ValidPass(w.passes[g], g, w.nextId, w.log);
  }
}
