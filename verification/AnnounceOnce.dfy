/**
 One announce per pass id, and exactly when there is another (src/manager/DetectionWorker.cpp:75-80, 341-461): a flush by a
 suppressed read (lines 376-382) leaves the pass unannounced in its own books, so it may speak again.
 */
module AnnounceOnce {
  import opened Plates
  import opened DetectionWorker
  import opened AnnounceProtocol
  import opened PassIds

  /** The id was emitted before, and yet its pass counts as not announced. */
  ghost predicate Flushed(w: Worker, gate: string, id: nat) {
    HasId(w, gate, id) && !w.passes[gate].emittedEarly && LastDir(w.log, id).Some?
  }

  /** A pass that counts as not announced releases or flushes its held plate, or announces the plate just read. */
  ghost predicate Speaks(cfg: Config, st: PassState, e: Event) {
    match e.read.kept
    case None =>
      cfg.directionEnable && st.pendingEarly && (SamePass(cfg, st, e.read.plate.text) ==> Releases(cfg, st, e.at))
    case Some(plate) =>
      !Stale(st, e.at.nowMs) &&
      (Displaces(cfg, st, plate.text) ||
       (!OpensPass(cfg, st, plate.text, e.at.nowMs) &&
        (Hold(cfg) <= 0 || (cfg.directionEnable && e.at.phys != 0))))
  }

  /** Among what came after `before`, an unforced item whose id was emitted earlier. */
  ghost predicate AnnouncesAgain(before: seq<PlateItem>, after: seq<PlateItem>, id: nat) {
    exists k :: |before| <= k < |after| && IsRepeat(after, k, id)
  }

  ghost predicate IsRepeat(log: seq<PlateItem>, k: int, id: nat) {
    0 <= k < |log| && log[k].plate.passId == id && !log[k].forceSend && LastDir(log[..k], id).Some?
  }

  // ----- One read -----

  lemma AgainWithNone(log: seq<PlateItem>, id: nat)
    ensures !AnnouncesAgain(log, log + [], id)
  {
    assert log + [] == log;
  }

  lemma {:induction false} AgainWithOne(log: seq<PlateItem>, item: PlateItem, id: nat)
    ensures AnnouncesAgain(log, log + [item], id) <==>
      item.plate.passId == id && !item.forceSend && LastDir(log, id).Some?
  {
    var after := log + [item];
    assert after[..|log|] == log;
    assert IsRepeat(after, |log|, id) <==> item.plate.passId == id && !item.forceSend && LastDir(log, id).Some?;
  }

  lemma {:induction false} AgainWithTwo(log: seq<PlateItem>, x: PlateItem, y: PlateItem, id: nat)
    requires x.plate.passId != y.plate.passId
    ensures AnnouncesAgain(log, log + [x, y], id) <==>
      LastDir(log, id).Some? &&
      ((x.plate.passId == id && !x.forceSend) || (y.plate.passId == id && !y.forceSend))
  {
    var after := log + [x, y];
    assert after[..|log|] == log && after[..|log| + 1] == log + [x];
    LastDirAppend(log, x, id);
    assert IsRepeat(after, |log|, id) <==> x.plate.passId == id && !x.forceSend && LastDir(log, id).Some?;
    assert IsRepeat(after, |log| + 1, id) <==> y.plate.passId == id && !y.forceSend && LastDir(log + [x], id).Some?;
  }

  lemma {:induction false} SuppressedAgain(
      cfg: Config, st: PassState, text: string, m: Moment, nextId: nat, log: seq<PlateItem>, id: nat)
    requires ValidPass(st, m.gate, nextId, log)
    ensures var (_, items) := Dropped(cfg, st, text, m);
      AnnouncesAgain(log, log + items, id) <==>
      st.passId == id && LastDir(log, id).Some? && st.pendingEarly && (SamePass(cfg, st, text) ==> Releases(cfg, st, m))
  {
    hide SamePass, Releases, AnnouncesAgain;
    var (_, items) := Dropped(cfg, st, text, m);
    if items == [] {
      AgainWithNone(log, id);
    } else {
      AgainWithOne(log, items[0], id);
      assert items == [items[0]];
    }
  }

  lemma {:induction false} KeptAgain(cfg: Config, w: Worker, plate: PlateResult, m: Moment, id: nat)
    requires Good(w) && id > 0
    ensures var st := PassOf(w.passes, m.gate);
      AnnouncesAgain(w.log, w.log + KeptAt(cfg, w, plate, m).1, id) <==>
      st.passId == id && !st.emittedEarly && LastDir(w.log, id).Some? &&
      Speaks(cfg, st, Event(Read(plate, Some(plate)), m))
  {
    hide Similar, AnnouncesAgain, LastDir, CorrectionLaw, GapSplits;
    var st := PassOf(Pruned(w.passes, m.nowMs), m.gate);
    PrunedKeepsInv(w, m.nowMs);
    JoinedTurn(cfg, st, plate.text, m, w.nextId, w.log);
    var (_, items) := KeptAt(cfg, w, plate, m);
    if items == [] {
      AgainWithNone(w.log, id);
    } else if |items| == 1 {
      AgainWithOne(w.log, items[0], id);
      assert items == [items[0]];
    } else {
      AgainWithTwo(w.log, items[0], items[1], id);
      assert items == [items[0], items[1]];
    }
  }

  /** Exactly these reads emit an unforced item whose id is already out: those on which a flushed pass speaks. */
  lemma AnnouncedAgainExactly(cfg: Config, w: Worker, e: Event, id: nat)
    requires Good(w) && id > 0
    ensures AnnouncesAgain(w.log, ReadStep(cfg, w, e.read, e.at).log, id) <==>
      Flushed(w, e.at.gate, id) && Speaks(cfg, w.passes[e.at.gate], e)
  {
    hide Similar, ReadStep, Dropped, AnnouncesAgain, LastDir, CorrectionLaw, OpensPass, Displaces, KeptAt;
    match e.read
    case Read(raw, Some(plate)) =>
      KeptReadForm(cfg, w, plate, e.at, raw);
      KeptAgain(cfg, w, plate, e.at, id);
    case Read(raw, None) =>
      SuppressedReadForm(cfg, w, raw, e.at);
      if cfg.directionEnable {
        SuppressedAgain(cfg, PassOf(w.passes, e.at.gate), raw.text, e.at, w.nextId, w.log, id);
      } else {
        AgainWithNone(w.log, id);
        assert w.log + [] == w.log;
      }
  }

  // ----- How a pass comes to be flushed -----

  /** A suppressed read of another vehicle flushes the plate that the pass holds. */
  ghost predicate FlushesByDrop(cfg: Config, w: Worker, gate: string, id: nat, e: Event) {
    cfg.directionEnable && e.read.kept.None? && e.at.gate == gate && HasId(w, gate, id) &&
    w.passes[gate].pendingEarly && !SamePass(cfg, w.passes[gate], e.read.plate.text)
  }

  lemma FlushedAfterSuppressed(
      cfg: Config, w: Worker, raw: PlateResult, m: Moment, gate: string, id: nat)
    requires Good(w) && id > 0
    ensures var e, v := Event(Read(raw, None), m), ReadStep(cfg, w, Read(raw, None), m);
      Flushed(v, gate, id) <==>
      FlushesByDrop(cfg, w, gate, id, e) || (Flushed(w, gate, id) && !v.passes[gate].emittedEarly)
  {
    hide ReadStep, Similar, LastDir, CorrectionLaw;
    SuppressedReadForm(cfg, w, raw, m);
    if cfg.directionEnable {
      var st := PassOf(w.passes, m.gate);
      var (_, items) := Dropped(cfg, st, raw.text, m);
      if items != [] {
        assert items == [items[0]];
        LastDirAppend(w.log, items[0], id);
      } else {
        assert w.log + items == w.log;
      }
    }
  }

  lemma PrunedIsPart(passes: map<string, PassState>, nowMs: int)
    ensures forall g | g in Pruned(passes, nowMs) :: g in passes && Pruned(passes, nowMs)[g] == passes[g]
  {
  }

  lemma FlushedAfterKept(
      cfg: Config, w: Worker, plate: PlateResult, m: Moment, raw: PlateResult, gate: string, id: nat)
    requires Good(w) && id > 0
    ensures var v := ReadStep(cfg, w, Read(raw, Some(plate)), m);
      Flushed(v, gate, id) <==> Flushed(w, gate, id) && HasId(v, gate, id) && !v.passes[gate].emittedEarly
  {
    hide ReadStep, Similar, LastDir, CorrectionLaw, GapSplits, Pruned;
    KeptReadForm(cfg, w, plate, m, raw);
    PrunedKeepsInv(w, m.nowMs);
    PrunedIsPart(w.passes, m.nowMs);
    var st := PassOf(Pruned(w.passes, m.nowMs), m.gate);
    JoinedTurn(cfg, st, plate.text, m, w.nextId, w.log);
    var (_, items) := KeptAt(cfg, w, plate, m);
    if items == [] {
      assert w.log + items == w.log;
    } else if |items| == 1 {
      assert items == [items[0]];
      LastDirAppend(w.log, items[0], id);
    } else {
      assert w.log + items == (w.log + [items[0]]) + [items[1]];
      LastDirAppend(w.log, items[0], id);
      LastDirAppend(w.log + [items[0]], items[1], id);
    }
  }

  /** In the run so far, a suppressed read flushed this pass, and it has neither ended nor been announced since. */
  ghost predicate FlushedBefore(cfg: Config, run: seq<Event>, gate: string, id: nat) {
    run != [] &&
    var n, w := |run| - 1, Run(cfg, run);
    FlushesByDrop(cfg, Run(cfg, run[..n]), gate, id, run[n]) ||
    (FlushedBefore(cfg, run[..n], gate, id) && HasId(w, gate, id) && !w.passes[gate].emittedEarly)
  }

  lemma {:induction false} FlushedByDropOnly(cfg: Config, run: seq<Event>, gate: string, id: nat)
    requires Timed(run) && id > 0
    ensures Flushed(Run(cfg, run), gate, id) <==> FlushedBefore(cfg, run, gate, id)
  {
    hide ReadStep, Flushed, FlushesByDrop, Good;
    if run == [] {
      NothingFlushed(gate, id);
    } else {
      var n := |run| - 1;
      var w, e := Run(cfg, run[..n]), run[n];
      FlushedByDropOnly(cfg, run[..n], gate, id);
      RunsAreGood(cfg, run[..n]);
      FlushedAfterRead(cfg, w, e, gate, id);
    }
  }

  lemma NothingFlushed(gate: string, id: nat)
    ensures !Flushed(START, gate, id)
  {
  }

  lemma FlushedAfterRead(cfg: Config, w: Worker, e: Event, gate: string, id: nat)
    requires Good(w) && id > 0
    ensures var v := ReadStep(cfg, w, e.read, e.at);
      Flushed(v, gate, id) <==>
      FlushesByDrop(cfg, w, gate, id, e) ||
      (Flushed(w, gate, id) && HasId(v, gate, id) && !v.passes[gate].emittedEarly)
  {
    hide ReadStep, Good, SamePass;
    match e.read
    case Read(raw, Some(plate)) => FlushedAfterKept(cfg, w, plate, e.at, raw, gate, id);
    case Read(raw, None) =>
      FlushedAfterSuppressed(cfg, w, raw, e.at, gate, id);
  }

  // ----- Whole runs -----

  /** All of an item's predecessors with its id make it a correction. */
  ghost predicate AnnouncedOnce(log: seq<PlateItem>, id: nat) {
    forall k :: !IsRepeat(log, k, id)
  }

  /** Over every run: an id is announced at most once exactly if no read found its pass flushed and made it speak. */
  lemma {:induction false} OnceExactly(cfg: Config, run: seq<Event>, id: nat)
    requires Timed(run) && id > 0
    ensures AnnouncedOnce(Run(cfg, run).log, id) <==>
      forall i | 0 <= i < |run| :: !SpeaksFlushed(cfg, run[..i], run[i], id)
  {
    hide ReadStep, Good, SpeaksFlushed, IsRepeat;
    if run == [] {
      NothingSaid(id);
    } else {
      var n := |run| - 1;
      var before, e := run[..n], run[n];
      var w := Run(cfg, before);
      OnceExactly(cfg, before, id);
      RunsAreGood(cfg, before);
      AnnouncedAgainExactly(cfg, w, e, id);
      FlushedSpeaks(cfg, before, e, id);
      ReadAppends(cfg, w, e.read, e.at);
      RepeatsOf(w.log, Run(cfg, run).log, id);
      assert forall i | 0 <= i < n :: before[..i] == run[..i] && before[i] == run[i];
    }
  }

  /** The read finds the pass flushed by an earlier one, and makes it speak. */
  ghost predicate SpeaksFlushed(cfg: Config, before: seq<Event>, e: Event, id: nat) {
    FlushedBefore(cfg, before, e.at.gate, id) && Speaks(cfg, PassOf(Run(cfg, before).passes, e.at.gate), e)
  }

  lemma {:induction false} FlushedSpeaks(cfg: Config, before: seq<Event>, e: Event, id: nat)
    requires Timed(before) && id > 0
    ensures SpeaksFlushed(cfg, before, e, id) <==>
      Flushed(Run(cfg, before), e.at.gate, id) && Speaks(cfg, PassOf(Run(cfg, before).passes, e.at.gate), e)
  {
    hide Speaks, Flushed;
    FlushedByDropOnly(cfg, before, e.at.gate, id);
  }

  lemma NothingSaid(id: nat)
    ensures AnnouncedOnce([], id)
  {
  }

  lemma RepeatsOf(log: seq<PlateItem>, after: seq<PlateItem>, id: nat)
    requires log <= after
    ensures AnnouncedOnce(after, id) <==> AnnouncedOnce(log, id) && !AnnouncesAgain(log, after, id)
  {
    hide LastDir;
    assert forall k | 0 <= k < |log| :: log[k] == after[k] && log[..k] == after[..k];
    forall k ensures IsRepeat(log, k, id) <==> k < |log| && IsRepeat(after, k, id) {
    }
  }

  /** So an id whose own pass no suppressed read has flushed is announced at most once, whatever happens to others: all
      its later items are corrections. */
  lemma {:induction false} OneAnnouncePerPass(cfg: Config, run: seq<Event>, id: nat, j: nat, k: nat)
    requires Timed(run) && id > 0 && j < k < |Run(cfg, run).log|
    requires forall i | 0 <= i < |run| :: !FlushesByDrop(cfg, Run(cfg, run[..i]), run[i].at.gate, id, run[i])
    requires Run(cfg, run).log[j].plate.passId == Run(cfg, run).log[k].plate.passId == id
    ensures Run(cfg, run).log[k].forceSend
  {
    hide ReadStep, Good, FlushesByDrop, Speaks, FlushedBefore, LastDir;
    forall i | 0 <= i < |run| ensures !SpeaksFlushed(cfg, run[..i], run[i], id) {
      NeverFlushed(cfg, run, i, run[i].at.gate, id);
    }
    OnceExactly(cfg, run, id);
    var log := Run(cfg, run).log;
    assert !IsRepeat(log, k, id);
    assert log[..k][j] == log[j];
  }

  lemma {:induction false} NeverFlushed(cfg: Config, run: seq<Event>, i: nat, gate: string, id: nat)
    requires i <= |run|
    requires forall l | 0 <= l < |run| :: !FlushesByDrop(cfg, Run(cfg, run[..l]), run[l].at.gate, id, run[l])
    ensures !FlushedBefore(cfg, run[..i], gate, id)
  {
    hide ReadStep, Run;
    if i == 0 {
      assert run[..0] == [];
    } else {
      NeverFlushed(cfg, run, i - 1, gate, id);
      assert run[..i][..i - 1] == run[..i - 1];
    }
  }
}
