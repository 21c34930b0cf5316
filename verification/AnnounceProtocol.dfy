/**
 What the announce / hold / correct protocol promises (the comments of src/manager/DetectionWorker.cpp:75-80, 341-382
 and 407-461): invariants of every run, the law of corrections, when a pass is announced twice, and exactly when a
 held announce is lost.
 */
module AnnounceProtocol {
  import opened Plates
  import opened DetectionWorker

  // ----- The log -----

  /** Direction of the last item emitted with a pass id. */
  ghost function LastDir(log: seq<PlateItem>, id: nat): (d: Option<int>)
    ensures d.Some? ==> exists j :: 0 <= j < |log| && log[j].plate.passId == id && log[j].plate.direction == d.value
    ensures d.None? ==> forall j | 0 <= j < |log| :: log[j].plate.passId != id
  {
    if log == [] then None
    else if log[|log| - 1].plate.passId == id then Some(log[|log| - 1].plate.direction)
    else LastDir(log[..|log| - 1], id)
  }

  /** If forced, the item corrects: its pass was announced before, its direction is known, and it differs from the
      direction last sent for that pass. */
  ghost predicate Corrects(log: seq<PlateItem>, item: PlateItem) {
    var d := LastDir(log, item.plate.passId);
    item.forceSend ==> item.plate.direction in {1, 2} && d.Some? && d.value != item.plate.direction
  }

  ghost predicate CorrectionLaw(log: seq<PlateItem>) {
    log == [] || (CorrectionLaw(log[..|log| - 1]) && Corrects(log[..|log| - 1], log[|log| - 1]))
  }

  lemma {:induction false} LastDirAppend(log: seq<PlateItem>, item: PlateItem, id: nat)
    ensures LastDir(log + [item], id) ==
      if item.plate.passId == id then Some(item.plate.direction) else LastDir(log, id)
    ensures CorrectionLaw(log + [item]) == (CorrectionLaw(log) && Corrects(log, item))
  {
    assert (log + [item])[..|log + [item]| - 1] == log;
  }

  // ----- The invariant of every run -----

  ghost predicate ValidPass(st: PassState, gate: string, nextId: nat, log: seq<PlateItem>) {
    st.passId < nextId &&
    (st.emittedEarly ==> st.passId != 0 && LastDir(log, st.passId) == Some(st.lastSentDir)) &&
    (st.pendingEarly ==>
       !st.emittedEarly && st.passId != 0 && st.pendingItem.plate.passId == st.passId &&
       st.pendingItem.plate.text in {st.text, ""} && st.pendingItem.gate == gate && !st.pendingItem.forceSend)
  }

  ghost predicate OwnIds(passes: map<string, PassState>) {
    forall g, h | g in passes && h in passes && g != h && passes[g].passId == passes[h].passId :: passes[g].passId == 0
  }

  ghost predicate LogIds(log: seq<PlateItem>, nextId: nat) {
    forall j | 0 <= j < |log| :: 0 < log[j].plate.passId < nextId
  }

  ghost predicate Inv(w: Worker) {
    w.nextId >= 1 &&
    (forall g | g in w.passes :: ValidPass(w.passes[g], g, w.nextId, w.log)) &&
    OwnIds(w.passes) && LogIds(w.log, w.nextId)
  }

  lemma {:induction false} OthersUntouched(log: seq<PlateItem>, items: seq<PlateItem>, id: nat)
    requires forall j | 0 <= j < |items| :: items[j].plate.passId != id
    ensures LastDir(log + items, id) == LastDir(log, id)
  {
    if items == [] {
      assert log + items == log;
    } else {
      var n := |items| - 1;
      OthersUntouched(log, items[..n], id);
      LastDirAppend(log + items[..n], items[n], id);
      assert log + items == (log + items[..n]) + [items[n]];
    }
  }

  /** What one read may emit at its gate: items of the gate's own passes, old or new. */
  ghost predicate OwnItems(items: seq<PlateItem>, gate: string, oldId: nat, newId: nat) {
    forall j | 0 <= j < |items| ::
      items[j].plate.passId in {oldId, newId} && items[j].plate.passId != 0 && items[j].gate == gate
  }

  lemma {:induction false} DroppedTurn(
      cfg: Config, st: PassState, text: string, m: Moment, nextId: nat, log: seq<PlateItem>)
    requires ValidPass(st, m.gate, nextId, log) && CorrectionLaw(log) && m.phys in {0, 1, 2}
    ensures var (u, items) := Dropped(cfg, st, text, m);
      u.passId == st.passId && ValidPass(u, m.gate, nextId, log + items) && CorrectionLaw(log + items) &&
      OwnItems(items, m.gate, st.passId, st.passId)
  {
    hide Similar, LastDir, CorrectionLaw;
    var (u, items) := Dropped(cfg, st, text, m);
    if items == [] {
      assert log + items == log;
    } else {
      assert items == [items[0]];
      LastDirAppend(log, items[0], st.passId);
    }
  }

  /** Joining keeps what is known of a pass, or opens one with an unused id and nothing said. */
  lemma {:induction false} JoinedTurn(
      cfg: Config, st: PassState, text: string, m: Moment, nextId: nat, log: seq<PlateItem>)
    requires ValidPass(st, m.gate, nextId, log) && LogIds(log, nextId) && nextId >= 1
    ensures var u := Joined(cfg, st, text, m.nowMs, nextId);
      if OpensPass(cfg, st, text, m.nowMs) then
        u.passId == nextId && !u.emittedEarly && LastDir(log, nextId).None?
      else
        u.passId == st.passId != 0 && u.emittedEarly == st.emittedEarly && u.lastSentDir == st.lastSentDir &&
        !Displaces(cfg, u, text)
  {
    hide Similar;
  }

  /** The announce-or-correct half of a kept read, for a pass whose held plate, if any, belongs to `oldId`. */
  lemma {:induction false} KeptTurn(
      cfg: Config, st: PassState, plate: PlateResult, m: Moment, oldId: nat, nextId: nat, log: seq<PlateItem>)
    requires 0 < st.passId < nextId && oldId < nextId && m.phys in {0, 1, 2} && CorrectionLaw(log)
    requires st.emittedEarly ==> LastDir(log, st.passId) == Some(st.lastSentDir)
    requires st.text == plate.text || plate.text == ""
    requires st.pendingEarly ==>
      !st.emittedEarly && st.pendingItem.plate.passId == oldId != 0 && st.pendingItem.gate == m.gate &&
      !st.pendingItem.forceSend
    requires Displaces(cfg, st, plate.text) ==> oldId != st.passId
    ensures var (u, items) := Kept(cfg, st, plate, m);
      u.passId == st.passId && ValidPass(u, m.gate, nextId, log + items) && CorrectionLaw(log + items) &&
      OwnItems(items, m.gate, oldId, st.passId)
  {
    hide Similar, LastDir, CorrectionLaw;
    var (u, items) := Kept(cfg, st, plate, m);
    if items == [] {
      assert log + items == log;
    } else {
      LastDirAppend(log, items[0], oldId);
      LastDirAppend(log, items[0], st.passId);
      if |items| == 1 {
        assert items == [items[0]];
      } else {
        assert items == [items[0]] + [items[1]];
        assert log + items == (log + [items[0]]) + [items[1]];
        LastDirAppend(log + [items[0]], items[1], st.passId);
      }
    }
  }

  // ----- Whole reads -----

  lemma PrunedKeepsInv(w: Worker, nowMs: int)
    requires Inv(w)
    ensures Inv(w.(passes := Pruned(w.passes, nowMs)))
  {
  }

  /** One gate's turn leaves the other gates as they were. */
  lemma TurnKeepsInv(w: Worker, gate: string, st: PassState, items: seq<PlateItem>, nextId: nat)
    requires Inv(w) && w.nextId <= nextId
    requires ValidPass(st, gate, nextId, w.log + items)
    requires OwnItems(items, gate, PassOf(w.passes, gate).passId, st.passId)
    requires st.passId == PassOf(w.passes, gate).passId || w.nextId <= st.passId
    ensures Inv(Worker(w.passes[gate := st], nextId, w.log + items))
  {
    var passes := w.passes[gate := st];
    forall g | g in passes ensures ValidPass(passes[g], g, nextId, w.log + items) {
      if g != gate && passes[g].passId != 0 {
        OthersUntouched(w.log, items, passes[g].passId);
      }
    }
  }

  /** The state of a pass right after `passIdFor`, and the items that the kept read then emits. */
  ghost function KeptAt(cfg: Config, w: Worker, plate: PlateResult, m: Moment): (r: (PassState, seq<PlateItem>))
  {
    var st := PassOf(Pruned(w.passes, m.nowMs), m.gate);
    Kept(cfg, Joined(cfg, st, plate.text, m.nowMs, w.nextId), plate, m)
  }

  lemma KeptReadForm(cfg: Config, w: Worker, plate: PlateResult, m: Moment, raw: PlateResult)
    ensures var st := PassOf(Pruned(w.passes, m.nowMs), m.gate);
      var (u, items) := KeptAt(cfg, w, plate, m);
      ReadStep(cfg, w, Read(raw, Some(plate)), m) ==
      Worker(Pruned(w.passes, m.nowMs)[m.gate := u],
             if OpensPass(cfg, st, plate.text, m.nowMs) then w.nextId + 1 else w.nextId, w.log + items)
  {
    hide OpensPass, Joined, Kept, Pruned;
    var v := EnterPass(cfg, w, m.gate, plate.text, m.nowMs);
    var (u, items) := KeptAt(cfg, w, plate, m);
    assert v.passes[m.gate := u] == Pruned(w.passes, m.nowMs)[m.gate := u];
  }

  lemma SuppressedReadForm(cfg: Config, w: Worker, raw: PlateResult, m: Moment)
    ensures ReadStep(cfg, w, Read(raw, None), m) ==
      if !cfg.directionEnable then w
      else
        var (st, items) := Dropped(cfg, PassOf(w.passes, m.gate), raw.text, m);
        w.(passes := w.passes[m.gate := st], log := w.log + items)
  {
    hide Dropped;
  }

  ghost predicate Good(w: Worker) {
    Inv(w) && CorrectionLaw(w.log)
  }

  lemma KeptReadKeepsGood(cfg: Config, w: Worker, plate: PlateResult, m: Moment, raw: PlateResult)
    requires Good(w) && m.phys in {0, 1, 2}
    ensures Good(ReadStep(cfg, w, Read(raw, Some(plate)), m))
  {
    hide Similar, OpensPass, Kept, Displaces, LastDir, CorrectionLaw, Pruned, ReadStep;
    var passes := Pruned(w.passes, m.nowMs);
    var st := PassOf(passes, m.gate);
    PrunedKeepsInv(w, m.nowMs);
    JoinedTurn(cfg, st, plate.text, m, w.nextId, w.log);
    var v := Joined(cfg, st, plate.text, m.nowMs, w.nextId);
    var nextId := if OpensPass(cfg, st, plate.text, m.nowMs) then w.nextId + 1 else w.nextId;
    KeptTurn(cfg, v, plate, m, st.passId, nextId, w.log);
    var (u, items) := KeptAt(cfg, w, plate, m);
    TurnKeepsInv(w.(passes := passes), m.gate, u, items, nextId);
    KeptReadForm(cfg, w, plate, m, raw);
  }

  lemma ReadAppends(cfg: Config, w: Worker, r: Read, m: Moment)
    ensures w.log <= ReadStep(cfg, w, r, m).log
  {
    hide Dropped, Kept, Joined, Pruned, OpensPass;
  }

  lemma DroppedReadKeepsGood(cfg: Config, w: Worker, r: Read, m: Moment)
    requires Good(w) && m.phys in {0, 1, 2} && r.kept.None?
    ensures Good(ReadStep(cfg, w, r, m))
  {
    hide Similar, Dropped, LastDir, CorrectionLaw;
    if cfg.directionEnable {
      var st := PassOf(w.passes, m.gate);
      DroppedTurn(cfg, st, r.plate.text, m, w.nextId, w.log);
      var (u, items) := Dropped(cfg, st, r.plate.text, m);
      TurnKeepsInv(w, m.gate, u, items, w.nextId);
    }
  }

  lemma ReadKeepsGood(cfg: Config, w: Worker, r: Read, m: Moment)
    requires Good(w) && m.phys in {0, 1, 2}
    ensures Good(ReadStep(cfg, w, r, m))
  {
    hide ReadStep, Inv, CorrectionLaw;
    match r
    case Read(raw, None) =>
      DroppedReadKeepsGood(cfg, w, r, m);
    case Read(raw, Some(plate)) =>
      KeptReadKeepsGood(cfg, w, plate, m, raw);
  }

  // ----- Runs -----

  /** One read at one moment. Between frames everything but the worker's state may change, so a run is any sequence. */
  datatype Event = Event(read: Read, at: Moment)

  const START := Worker(map[], 1, [])

  ghost predicate Timed(run: seq<Event>) {
    forall i | 0 <= i < |run| :: run[i].at.phys in {0, 1, 2}
  }

  ghost function Run(cfg: Config, run: seq<Event>): Worker {
    if run == [] then START
    else ReadStep(cfg, Run(cfg, run[..|run| - 1]), run[|run| - 1].read, run[|run| - 1].at)
  }

  lemma {:induction false} RunsAreGood(cfg: Config, run: seq<Event>)
    requires Timed(run)
    ensures Good(Run(cfg, run))
  {
    hide ReadStep;
    if run == [] {
    } else {
      RunsAreGood(cfg, run[..|run| - 1]);
      ReadKeepsGood(cfg, Run(cfg, run[..|run| - 1]), run[|run| - 1].read, run[|run| - 1].at);
    }
  }

  lemma {:induction false} CorrectionLawAt(log: seq<PlateItem>, k: nat)
    requires CorrectionLaw(log) && k < |log|
    ensures Corrects(log[..k], log[k])
  {
    var n := |log| - 1;
    if k == n {
    } else {
      CorrectionLawAt(log[..n], k);
      assert log[..n][..k] == log[..k];
    }
  }

  /** In every run, a forced item continues a pass announced before, has a known direction, and changes the direction
      last sent for that pass. */
  lemma {:induction false} CorrectionsFollowAnAnnounce(cfg: Config, run: seq<Event>, k: nat)
    requires Timed(run) && k < |Run(cfg, run).log| && Run(cfg, run).log[k].forceSend
    ensures var log := Run(cfg, run).log;
      var id := log[k].plate.passId;
      log[k].plate.direction in {1, 2} && LastDir(log[..k], id).Some? &&
      LastDir(log[..k], id).value != log[k].plate.direction &&
      exists j :: 0 <= j < k && log[j].plate.passId == id
  {
    hide ReadStep, Inv;
    RunsAreGood(cfg, run);
    var log := Run(cfg, run).log;
    CorrectionLawAt(log, k);
    var j :| 0 <= j < |log[..k]| && log[..k][j].plate.passId == log[k].plate.passId;
    assert log[j] == log[..k][j];
  }

  /** Two items of one pass, nothing of that pass between them, the second a correction: their directions differ. So
      after its announce the directions of a pass alternate. */
  lemma {:induction false} DirectionsAlternate(cfg: Config, run: seq<Event>, j: nat, k: nat)
    requires Timed(run) && j < k < |Run(cfg, run).log|
    requires var log := Run(cfg, run).log;
      log[k].forceSend && log[j].plate.passId == log[k].plate.passId &&
      forall i | j < i < k :: log[i].plate.passId != log[k].plate.passId
    ensures Run(cfg, run).log[j].plate.direction != Run(cfg, run).log[k].plate.direction
  {
    hide ReadStep, Inv, LastDir;
    CorrectionsFollowAnAnnounce(cfg, run, k);
    LastDirFound(Run(cfg, run).log[..k], j);
  }

  lemma {:induction false} LastDirFound(log: seq<PlateItem>, j: nat)
    requires j < |log| && forall i | j < i < |log| :: log[i].plate.passId != log[j].plate.passId
    ensures LastDir(log, log[j].plate.passId) == Some(log[j].plate.direction)
  {
    var n := |log| - 1;
    if j == n {
    } else {
      LastDirFound(log[..n], j);
    }
  }

  /** A kept read of a pass that is announced and goes on is sent exactly if the direction has moved: a corrected text
      alone never is, and rides along with the direction when that moves. */
  lemma OnlyDirectionIsCorrected(
      cfg: Config, w: Worker, plate: PlateResult, m: Moment, raw: PlateResult)
    requires Good(w) && m.gate in w.passes && w.passes[m.gate].emittedEarly && !Stale(w.passes[m.gate], m.nowMs)
    requires !OpensPass(cfg, w.passes[m.gate], plate.text, m.nowMs)
    ensures var st := w.passes[m.gate];
      ReadStep(cfg, w, Read(raw, Some(plate)), m).log == w.log +
      if cfg.directionEnable && m.phys != 0 && m.phys != st.lastSentDir then
        [PlateItem(plate.(passId := st.passId, direction := m.phys), m.gate, m.timestamp, true)]
      else []
  {
    hide ReadStep, OpensPass, CorrectionLaw, LastDir;
    KeptReadForm(cfg, w, plate, m, raw);
  }

  // ----- The held announce -----

  /** The held item is out: emitted as it was, with a direction filled in. */
  ghost predicate IsItem(item: PlateItem, held: PlateItem) {
    item == held.WithDirection(item.plate.direction)
  }

  /** After a read, a held item is still held, or was emitted, or a similar plate at the same gate took its place or
      was emitted. */
  ghost predicate Accounted(cfg: Config, held: PlateItem, gate: string, before: Worker, after: Worker) {
    (gate in after.passes && after.passes[gate].pendingEarly &&
     (after.passes[gate].pendingItem == held ||
      Similar(cfg, held.plate.text, after.passes[gate].pendingItem.plate.text))) ||
    exists k :: |before.log| <= k < |after.log| &&
      (IsItem(after.log[k], held) ||
       (after.log[k].gate == gate && Similar(cfg, held.plate.text, after.log[k].plate.text)))
  }

  /** What can cost a held plate its announce: a kept read after five quiet minutes, at any gate, or a kept read
      without text at its own gate. */
  ghost predicate Endangers(w: Worker, gate: string, r: Read, m: Moment) {
    r.kept.Some? && (Stale(PassOf(w.passes, gate), m.nowMs) || (m.gate == gate && r.kept.value.text == ""))
  }

  ghost predicate Holds(w: Worker, gate: string) {
    gate in w.passes && w.passes[gate].pendingEarly && w.passes[gate].pendingItem.plate.text != ""
  }

  lemma HeldThroughDrop(cfg: Config, w: Worker, gate: string, r: Read, m: Moment)
    requires Good(w) && Holds(w, gate) && r.kept.None?
    ensures Accounted(cfg, w.passes[gate].pendingItem, gate, w, ReadStep(cfg, w, r, m))
  {
    hide Similar, LastDir, CorrectionLaw;
    var held := w.passes[gate].pendingItem;
    var v := ReadStep(cfg, w, r, m);
    if cfg.directionEnable && m.gate == gate {
      var (u, items) := Dropped(cfg, w.passes[gate], r.plate.text, m);
      if items == [] {
        assert v.passes[gate].pendingItem == held;
      } else {
        assert v.log[|w.log|] == items[0] && IsItem(items[0], held);
      }
    }
  }

  lemma HeldThroughOtherGate(
      cfg: Config, w: Worker, gate: string, plate: PlateResult, m: Moment, raw: PlateResult)
    requires Good(w) && Holds(w, gate) && m.gate != gate && m.phys in {0, 1, 2}
    ensures Accounted(cfg, w.passes[gate].pendingItem, gate, w, ReadStep(cfg, w, Read(raw, Some(plate)), m)) <==>
      !Stale(w.passes[gate], m.nowMs)
  {
    hide Similar, LastDir, CorrectionLaw, Kept, OpensPass, Joined, ReadStep;
    KeptReadForm(cfg, w, plate, m, raw);
    KeptItemsAreOwn(cfg, w, plate, m);
    var (u, items) := KeptAt(cfg, w, plate, m);
    var held := w.passes[gate].pendingItem;
    forall k | 0 <= k < |items| ensures !IsItem(items[k], held) && items[k].gate != gate {
    }
  }

  lemma KeptItemsAreOwn(cfg: Config, w: Worker, plate: PlateResult, m: Moment)
    requires Good(w) && m.phys in {0, 1, 2}
    ensures forall k | 0 <= k < |KeptAt(cfg, w, plate, m).1| :: KeptAt(cfg, w, plate, m).1[k].gate == m.gate
  {
    hide Similar, OpensPass, Kept, Displaces, LastDir, CorrectionLaw, Pruned;
    var st := PassOf(Pruned(w.passes, m.nowMs), m.gate);
    PrunedKeepsInv(w, m.nowMs);
    JoinedTurn(cfg, st, plate.text, m, w.nextId, w.log);
    KeptTurn(cfg, Joined(cfg, st, plate.text, m.nowMs, w.nextId), plate, m, st.passId, w.nextId + 1, w.log);
  }

  lemma HeldThroughKept(cfg: Config, w: Worker, plate: PlateResult, m: Moment, raw: PlateResult)
    requires Good(w) && Holds(w, m.gate) && m.phys in {0, 1, 2}
    ensures Accounted(cfg, w.passes[m.gate].pendingItem, m.gate, w, ReadStep(cfg, w, Read(raw, Some(plate)), m)) <==>
      (!Stale(w.passes[m.gate], m.nowMs) && plate.text != "") ||
      Similar(cfg, w.passes[m.gate].pendingItem.plate.text, plate.text)
  {
    hide Similar, LastDir, CorrectionLaw, OpensPass, ReadStep;
    KeptReadForm(cfg, w, plate, m, raw);
    var v := ReadStep(cfg, w, Read(raw, Some(plate)), m);
    var held := w.passes[m.gate].pendingItem;
    var st := PassOf(Pruned(w.passes, m.nowMs), m.gate);
    var joined := Joined(cfg, st, plate.text, m.nowMs, w.nextId);
    var (u, items) := KeptAt(cfg, w, plate, m);
    if !Stale(w.passes[m.gate], m.nowMs) {
      assert st == w.passes[m.gate] && joined.pendingItem == held && joined.pendingEarly;
    }
    assert forall k | |w.log| <= k < |v.log| :: v.log[k] == items[k - |w.log|];
    assert forall k | 0 <= k < |items| :: v.log[|w.log| + k] == items[k];
    if Displaces(cfg, joined, plate.text) {
      assert IsItem(items[0], held);
    } else if items == [] {
      assert v.passes[m.gate].pendingEarly;
    } else {
      assert v.log[|w.log|] == items[0];
    }
  }

  /** Exactly when a held announce is lost: a read leaves it accounted for unless the five-minute prune or an empty
      kept text strikes, and even then if a similar plate arrives at its gate. */
  lemma HeldFate(cfg: Config, w: Worker, gate: string, r: Read, m: Moment)
    requires Good(w) && Holds(w, gate) && m.phys in {0, 1, 2}
    ensures Accounted(cfg, w.passes[gate].pendingItem, gate, w, ReadStep(cfg, w, r, m)) <==>
      !Endangers(w, gate, r, m) ||
      (m.gate == gate && Similar(cfg, w.passes[gate].pendingItem.plate.text, r.kept.value.text))
  {
    hide Similar, ReadStep, Accounted, Good;
    match r
    case Read(raw, None) =>
      HeldThroughDrop(cfg, w, gate, r, m);
    case Read(raw, Some(plate)) =>
      if m.gate == gate {
        HeldThroughKept(cfg, w, plate, m, raw);
      } else {
        HeldThroughOtherGate(cfg, w, gate, plate, m, raw);
      }
  }
}
