/**
 Short runs that end badly: a held plate erased by the five-minute prune (src/manager/DetectionWorker.cpp:83-85), a pass
 announced twice after the de-duplication flush (lines 376-382), and one vehicle split in two by a gap far below the
 configured one (lines 94-96, and src/process/DirectionEstimator.cpp:58-59).
 */
module AnnounceExamples {
  import opened Plates
  import opened DetectionWorker
  import opened AnnounceProtocol
  import P = DirectionPasses
  import D = Direction
  import J = JaroWinkler

  const CFG := Config(true,
                      D.Config(3, 1.15, 3000, 8000, false, 8.0, 3, 6, 5.0, 8, 3, 1.08, 0.15, 1.0, 0, 0.9, 2),
                      5000, 0.85)

  function Seen(text: string): PlateResult { NO_PLATE.(text := text) }

  function KeptEvent(gate: string, text: string, nowMs: int, phys: int): Event {
    Event(Read(Seen(text), Some(Seen(text))), Moment(gate, 0, nowMs, phys, 1))
  }

  function DroppedEvent(gate: string, text: string, nowMs: int, phys: int): Event {
    Event(Read(Seen(text), None), Moment(gate, 0, nowMs, phys, 1))
  }

  lemma NothingInCommon()
    ensures !Similar(CFG, "a", "b")
  {
    var g := J.Scan("a", "b");
    J.ScanIsMatching("a", "b");
    assert "a"[0] != "b"[0];
    assert g.Keys == {};
  }

  lemma {:induction false} RunOf(run: seq<Event>, e: Event)
    ensures Run(CFG, run + [e]) == ReadStep(CFG, Run(CFG, run), e.read, e.at)
  {
    assert (run + [e])[..|run + [e]| - 1] == run;
  }

  /** The state after plate "a" has been read once at gate "1" and held. */
  function HeldState(): PassState {
    PassState(1, "a", 1, 0, false, -1, true, PlateItem(Seen("a").(passId := 1), "1", 0, false), 1)
  }

  lemma FirstReadIsHeld()
    ensures Run(CFG, [KeptEvent("1", "a", 1, 0)]) == Worker(map["1" := HeldState()], 2, [])
  {
    var e := KeptEvent("1", "a", 1, 0);
    RunOf([], e);
    assert [] + [e] == [e];
    KeptReadForm(CFG, START, Seen("a"), e.at, Seen("a"));
    assert Pruned(START.passes, 1) == map[];
  }

  /** Plate "a" is held at gate "1"; five quiet minutes later a read at gate "2" erases it, and nothing was emitted. */
  lemma HeldPlateIsPruned()
    ensures var w := Run(CFG, [KeptEvent("1", "a", 1, 0), KeptEvent("2", "b", 300002, 0)]);
      w.log == [] && "1" !in w.passes
  {
    var e := KeptEvent("2", "b", 300002, 0);
    RunOf([KeptEvent("1", "a", 1, 0)], e);
    assert [KeptEvent("1", "a", 1, 0)] + [e] == [KeptEvent("1", "a", 1, 0), e];
    FirstReadIsHeld();
    KeptReadForm(CFG, Worker(map["1" := HeldState()], 2, []), Seen("b"), e.at, Seen("b"));
  }

  lemma HeldReadIsFlushed()
    ensures var held := HeldState();
      var flushed := held.(pendingItem := held.pendingItem.WithDirection(0), pendingEarly := false);
      Run(CFG, [KeptEvent("1", "a", 1, 0), DroppedEvent("1", "b", 2, 0)]) ==
      Worker(map["1" := flushed], 2, [flushed.pendingItem])
  {
    var e1, e2 := KeptEvent("1", "a", 1, 0), DroppedEvent("1", "b", 2, 0);
    FirstReadIsHeld();
    NothingInCommon();
    RunOf([e1], e2);
    assert [e1] + [e2] == [e1, e2];
    SuppressedReadForm(CFG, Run(CFG, [e1]), Seen("b"), e2.at);
  }

  /** Plate "a" is held; a suppressed read of "b" flushes it; the next kept read of "a" announces the same pass id
      again. */
  lemma PassIsAnnouncedTwice()
    ensures var log := Run(CFG, [KeptEvent("1", "a", 1, 0), DroppedEvent("1", "b", 2, 0), KeptEvent("1", "a", 3, 1)]).log;
      |log| == 2 && log[0].plate.passId == log[1].plate.passId == 1 && !log[0].forceSend && !log[1].forceSend
  {
    hide Similar;
    var e1, e2, e3 := KeptEvent("1", "a", 1, 0), DroppedEvent("1", "b", 2, 0), KeptEvent("1", "a", 3, 1);
    HeldReadIsFlushed();
    RunOf([e1, e2], e3);
    assert [e1, e2] + [e3] == [e1, e2, e3];
    SimilarToItself("a");
    KeptReadForm(CFG, Run(CFG, [e1, e2]), Seen("a"), e3.at, Seen("a"));
  }

  lemma SimilarToItself(text: string)
    requires text != ""
    ensures Similar(CFG, text, text)
  {
    J.JaroWinklerIsOne(text, text);
  }

  lemma FirstReadIsAnnounced()
    ensures Run(CFG, [KeptEvent("1", "a", 1, 1)]) ==
      Worker(map["1" := PassState(1, "a", 1, 0, true, 1, false, NO_ITEM, 0)], 2,
             [PlateItem(Seen("a").(passId := 1, direction := 1), "1", 0, false)])
  {
    hide Similar;
    var e := KeptEvent("1", "a", 1, 1);
    RunOf([], e);
    assert [] + [e] == [e];
    KeptReadForm(CFG, START, Seen("a"), e.at, Seen("a"));
    assert Pruned(START.passes, 1) == map[];
  }

  lemma SecondReadIsQuiet()
    ensures Run(CFG, [KeptEvent("1", "a", 1, 1), KeptEvent("1", "a", 101, 1)]) ==
      Worker(map["1" := PassState(1, "a", 101, 100, true, 1, false, NO_ITEM, 0)], 2,
             [PlateItem(Seen("a").(passId := 1, direction := 1), "1", 0, false)])
  {
    hide Similar;
    var e1, e2 := KeptEvent("1", "a", 1, 1), KeptEvent("1", "a", 101, 1);
    FirstReadIsAnnounced();
    RunOf([e1], e2);
    assert [e1] + [e2] == [e1, e2];
    SimilarToItself("a");
    KeptReadForm(CFG, Run(CFG, [e1]), Seen("a"), e2.at, Seen("a"));
  }

  /** Plate "a" is read at 1, 101 and 501 with a configured gap of 5000; the last read opens a second pass and announces
      the vehicle again, because 400 is more than three times the 100 learned before. */
  lemma JitterSplitsAPass()
    ensures var w := Run(CFG, [KeptEvent("1", "a", 1, 1), KeptEvent("1", "a", 101, 1), KeptEvent("1", "a", 501, 1)]);
      |w.log| == 2 && w.log[0].plate.passId == 1 && w.log[1].plate.passId == 2 &&
      !w.log[0].forceSend && !w.log[1].forceSend
  {
    hide Similar;
    var e1, e2, e3 := KeptEvent("1", "a", 1, 1), KeptEvent("1", "a", 101, 1), KeptEvent("1", "a", 501, 1);
    SecondReadIsQuiet();
    RunOf([e1, e2], e3);
    assert [e1, e2] + [e3] == [e1, e2, e3];
    KeptReadForm(CFG, Run(CFG, [e1, e2]), Seen("a"), e3.at, Seen("a"));
  }

  /** Sightings at 1000, 1100 and 1500 with a configured gap of 3000: the last one starts the track afresh. */
  lemma JitterResetsATrack()
    ensures var run := [D.Sighting(10.0, 0.0, 1000), D.Sighting(11.0, 0.0, 1100)];
      D.GapResets(CFG.direction, P.Watch(CFG.direction, run).track, 1500)
  {
    var s1, s2 := D.Sighting(10.0, 0.0, 1000), D.Sighting(11.0, 0.0, 1100);
    assert [s1, s2][..1] == [s1] && [s1][..0] == [];
    assert P.Watch(CFG.direction, [s1]).track == D.Track([10.0], [0.0], 1000, 0, D.Unknown, D.Unknown, 0, 0, false);
    P.GapsThatSplit(CFG.direction, [s1, s2], D.Sighting(12.0, 0.0, 1500));
  }
}
