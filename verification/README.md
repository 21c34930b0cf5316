# A verified model of the licence-plate pipeline

The system reads licence plates at gates, groups the reads of one vehicle into a pass, decides whether the vehicle comes or
goes, announces the plate, corrects the announcement when it learns more, and hands everything to a message server that may be
away. This project models those parts in Dafny and proves what their comments and documentation promise. Code that updates
fields in place is a class whose methods are proved equal to functions on values; what the source promises is then proved about
those functions, over every input and every run.

`{:induction false}` stands wherever Dafny would try an induction of its own; all inductions are written out.

| file | models |
|---|---|
| `JaroWinkler.dfy`, `JaroWinklerLaws.dfy` | the windowed greedy string match, its window and scores in plain terms (`src/util/JaroWinkler.cpp`) |
| `PlateProcessor.dfy`, `PlateVoting.dfy`, `PlateMisread.dfy`, `PlateEvidence.dfy`, `PlateEviction.dfy` | clustering, voting, which reads are one vehicle, de-duplication, the sample sent, eviction (`src/process/PlateProcessor.cpp`) |
| `Direction.dfy`, `DirectionPasses.dfy`, `DirectionReversal.dfy`, `DirectionLaw.dfy`, `DirectionRuns.dfy` | the trend estimator, what it does over whole passes and on a pass seen backwards, its verdict in the sizes alone, and its streaks, locks and slow vehicles over runs (`src/process/DirectionEstimator.cpp`) |
| `Plates.dfy`, `DetectionWorker.dfy` | plate records; pass ids and the announce / hold / correct protocol (`src/manager/DetectionWorker.cpp`) |
| `AnnounceProtocol.dfy`, `AnnounceOnce.dfy`, `PassIds.dfy`, `AnnounceExamples.dfy` | that protocol over every run, when an id is announced again, the life of a pass id, and short runs that end badly |
| `BoundedHold.dfy`, `Pipeline.dfy`, `PlateAnnounced.dfy`, `SentDirection.dfy`, `PipelineExamples.dfy` | estimator and worker composed, then with the processor in front: exactly when a held plate is released and a plate announced, which direction is sent, and runs for which none is |
| `BlockingQueue.dfy`, `QueueProtocol.dfy` | the queue's critical sections, and all interleavings of its threads (`include/lpr/util/BlockingQueue.h`) |
| `Envelope.dfy`, `NatsOutbox.dfy`, `OutboxOrder.dfy`, `OutboxProtocol.dfy`, `OutboxLoss.dfy` | the send queue and the durable outbox, then under concurrency and crashes, and when an offline plate is lost (`src/net/NatsTransport.cpp`) |
| `Base64.dfy`, `Base64RoundTrip.dfy`, `MediaSender.dfy` | base64 in all its forms, and the chunked upload (`src/util/Base64.cpp`, `src/net/MediaSender.cpp`) |
| `RecordingService.dfy` | the age and size passes over recordings (`src/services/RecordingService.cpp`) |
| `CtcDecoder.dfy` | greedy CTC decoding (`src/detect/CtcDecoder.cpp`) |
| `Sorting.dfy`, `Numbers.dfy`, `Cadence.dfy` | what the callers of `std::sort` rely on; shared arithmetic; the gaps that both clocks of a gate tolerate |

## What turned out not to hold

* A held announce can be lost. `HeldFate` says exactly when; `HeldPlateIsPruned` is a run. The comment in
  `src/manager/DetectionWorker.cpp:421-425` promises that it is always recorded.
* A held plate may never be released although it is read in every frame, against `src/manager/DetectionWorker.cpp:355-361`. The
  hold counts samples of the gate's track, which jitter resets (`JitterIsNeverAnnounced`, for runs of any length), and which
  stop counting at 600 (`PastTheCap`; `StandingIsNeverReleased` for a vehicle that stands still). `HoldEndsExactly` says for
  every run when it is released, `AnnouncedExactly` the same through the whole pipeline; sightings at an even cadence within
  the 600 samples suffice (`HeldPlateIsReleased`, `PlateIsAnnounced`).
* A corrected text is not sent. The processor emits a pass again when its vote changes, so that the record is corrected
  (`src/process/PlateProcessor.cpp:134-145`), but once the pass is announced the worker sends only changes of direction
  (`OnlyDirectionIsCorrected`; `CorrectedTextIsNotSent` is a run, for all pairs of similar texts).
* One pass id can be announced twice. `OnceExactly` says for each id when: a suppressed read flushed its pass, and a later
  read makes that pass speak again. `PassIsAnnouncedTwice` is a run.
* A short gap can split one vehicle in two. The comments in `src/manager/DetectionWorker.cpp:87-90` and
  `src/process/DirectionEstimator.cpp:50-53` want a gap to exceed the configured one and to be well beyond the recent interval;
  the code lets the second alone suffice. `AllowedGapsThatEnd` and `AllowedGapsThatSplit` say exactly when, `JitterSplitsAPass`
  and `JitterResetsATrack` are runs.
* A plain message whose subject begins with `J|` or `DURABLE|` is parsed as something else (`CoreParsesBack`).
* Letters outside ASCII are dropped by the CTC decoder where `char` is signed (`EveryTextIsRead`).
* The base64 loop ends exactly for inputs below 2^32 bytes (`EncodingEnds`): its position is a 32-bit number that wraps around
  below the length of longer ones. No caller in the repository encodes that much.
* Outbox files are not always re-sent oldest first, as `src/net/NatsTransport.cpp:88` says: names compare as text, so number
  10 of a millisecond precedes number 9 (`TenBeforeNine`). `NameOrder` gives the order of any two names, and
  `OldestFirstExactly` the pairs of an older and a newer file for which it is right.
* A durable message is not always backed by an outbox file, as `src/net/NatsTransport.cpp:139` says: writing the file may fail
  unnoticed, and then the sender drops the only copy while offline. `OfflinePlateSurvives` says exactly when a plate published
  offline outlives the sender's look at it, and `LostForGood` that nothing brings it back.
* Reads at a gate may join clusters of a gate whose name continues its own with `#` (`PrefixMatches`).
* A recording that fills fewer chunks than measured by the time it is read arrives without its final flag, and one that
  fills more is cut short (`ChangedFile`).
* The comment in `src/process/PlateProcessor.cpp:140-141` that untracked passes are emitted exactly once is out of date: they
  are emitted again whenever their vote changes, as lines 142-145 do. The model follows the code.
* The rejection of outlier reads in `src/process/PlateProcessor.cpp:112-115` can never be taken (`EveryReadCounts`).

## Model

| member | source | states |
|---|---|---|
| JaroWinkler.ScanIsMaximum | src/util/JaroWinkler.cpp:31-56 | no one-to-one matching of equal characters within the window is larger than the one the greedy scan finds |
| JaroWinkler.ScanIsMatching | src/util/JaroWinkler.cpp:31-56 | the scan's pairs are such a matching, and its two sides have the counted size |
| JaroWinkler.MatchCountSymmetric | src/util/JaroWinkler.cpp:31-56 | the number of matching characters is the same for (a, b) and (b, a) |
| JaroWinkler.EmptyWindowEndsScan | src/util/JaroWinkler.cpp:39-43 | leaving the loop at the first empty window misses no match |
| JaroWinkler.MatchedSizes | src/util/JaroWinkler.cpp:64-94 | both position vectors have as many entries as there are matches |
| JaroWinkler.NoSingleDifference | src/util/JaroWinkler.cpp:86-101 | when every character is matched, exactly one mismatch cannot remain, so `transpositions / 2` hides nothing |
| JaroWinkler.JaroWinklerBounds | src/util/JaroWinkler.cpp:12-139 | 0 <= jaro <= jaroWinkler <= 1 |
| JaroWinkler.JaroWinklerIsOne | src/util/JaroWinkler.cpp:113-139 | the similarity is 1 exactly for equal non-empty strings |
| JaroWinkler.JaroDistance | src/util/JaroWinkler.cpp:12-102 | the flag vectors and position vectors compute the score of the scan, 0 for empty strings and no matches |
| JaroWinkler.FlagMatches | src/util/JaroWinkler.cpp:27-56 | the flags after the first loop are exactly the rows and partners of the scan, the early exit included |
| JaroWinkler.CollectPositions | src/util/JaroWinkler.cpp:65-84 | the positions list the flagged characters in order |
| JaroWinkler.JaroWinklerDistance | src/util/JaroWinkler.cpp:113-139 | the boosted score, with the boost above the threshold only |
| JaroWinkler.CountCommonPrefix | src/util/JaroWinkler.cpp:120-132 | the common prefix, cut at the limit |
| JaroWinklerLaws.LargestPairing | src/util/JaroWinkler.cpp:24-56 | the matches counted are a largest set of pairs of equal characters, each place used once, whose places differ by at most half the longer length less one, or not at all |
| JaroWinklerLaws.NothingMatches | src/util/JaroWinkler.cpp:24-62 | the score is 0 exactly if no two equal characters are that near |
| JaroWinklerLaws.ExchangeScore | src/util/JaroWinkler.cpp:64-139 | exchanging two different neighbours in a text of n >= 4 characters costs 1 / 3n, and less a tenth of it for each of up to four characters in front |
| JaroWinklerLaws.PrefixScore | src/util/JaroWinkler.cpp:93-139 | a text and the same continued score two thirds and a third of the share of the shorter in the longer, in both orders; from above 0.7 on a tenth of what is missing to 1 is added for each of up to four common characters |
| PlateProcessor.PlateProcessor.SimilarPlates | src/process/PlateProcessor.cpp:32-43 | true exactly for texts of one length that differ in 1 to maxDiffs places, all of them digits on both sides |
| PlateProcessor.PlateProcessor.WeightedConsensus | src/process/PlateProcessor.cpp:45-56 | the first text of greatest summed weight |
| PlateProcessor.PlateProcessor.SumWeights | src/process/PlateProcessor.cpp:49-50 | the map holds the summed weight of exactly the texts voted for |
| PlateProcessor.PlateProcessor.PickHeaviest | src/process/PlateProcessor.cpp:51-55 | the running maximum over the summed weights ends at the heaviest text |
| PlateProcessor.PlateProcessor.ResolveKeyOf | src/process/PlateProcessor.cpp:58-82 | the track's key, the closest cluster under the gate's key prefix and of the same pass that the text joins, or a new cluster |
| PlateProcessor.BestKey | src/process/PlateProcessor.cpp:66-80 | the chosen cluster qualifies, and no qualifying cluster under the prefix is closer |
| PlateProcessor.PlateProcessor.EvictStale | src/process/PlateProcessor.cpp:84-92 | the erasing loop leaves exactly the unexpired tracks, in their order |
| PlateProcessor.EvictKeepsWellKeyed | src/process/PlateProcessor.cpp:84-92 | eviction keeps the key order free of duplicates and equal to the tracks |
| PlateProcessor.PlateProcessor.CountRead | src/process/PlateProcessor.cpp:117-180 | the track with the read counted, and the output if any |
| PlateProcessor.PlateProcessor.ProcessRead | src/process/PlateProcessor.cpp:94-181 | one read as a step of the store, with every early return |
| PlateProcessor.PlateProcessor.constructor | src/process/PlateProcessor.cpp:25-25 | an empty store |
| PlateVoting.ConsensusWins | src/process/PlateProcessor.cpp:45-56 | with weights not negative, the consensus is a text really read and no text has a larger summed weight |
| PlateVoting.ClusterKeysDiffer | src/process/PlateProcessor.cpp:66-81 | cluster keys are equal only for equal numbers, whatever characters the gate names contain |
| PlateVoting.PrefixMatches | src/process/PlateProcessor.cpp:66-70 | whose clusters the key prefix admits: those of the gate itself, and those of a gate whose name continues it with `#` |
| PlateVoting.KeyIsNewOrJoined | src/process/PlateProcessor.cpp:58-82 | the key of an untracked read is unused, or belongs to a cluster that the read joins |
| PlateVoting.EveryReadCounts | src/process/PlateProcessor.cpp:94-127 | no valid read is discarded: in every reachable store it adds one vote to the track of its key and changes no other track |
| PlateVoting.EmitsOnChange | src/process/PlateProcessor.cpp:129-156 | a read is emitted exactly if its track is new or the new consensus differs from the text last sent, with that consensus as text |
| PlateVoting.ProcessKeepsInv | src/process/PlateProcessor.cpp:94-181 | keys stay distinct and numbered below the counter, pass ids distinct, and each track's consensus is that of its votes |
| PlateVoting.RunsTellOnlyNews | src/process/PlateProcessor.cpp:134-148 | over every run, a pass is emitted again only with a text other than the one last emitted for it |
| PlateMisread.JoinsMeansAlike | src/process/PlateProcessor.cpp:32-43 | a read joins a cluster by its text exactly if the similarity reaches the threshold, or the texts have one length and differ in 1 to maxPlateCharDiffs places, all of them digits in both |
| PlateMisread.JoinsExactly | src/process/PlateProcessor.cpp:58-127 | an untracked read that counts goes to a live cluster under its gate's prefix whose text is alike in this sense if there is one, and otherwise opens a cluster with a new pass id; its vote weighs confidence times area |
| PlateMisread.OthersLeaveNoTrace | src/process/PlateProcessor.cpp:95-97 | an empty, unsure or badly formed read changes nothing and yields nothing |
| PlateMisread.TrackedGoesToItsTrack | src/process/PlateProcessor.cpp:58-60 | a tracked read goes to the track of its number whatever its text, and different numbers have different tracks |
| PlateMisread.TwoReads | src/process/PlateProcessor.cpp:94-159 | two reads of different texts in a row: if alike, the second is sent under the same id exactly if it outweighs the first; if not, it is sent under an id of its own |
| PlateMisread.MisreadsAreOneVehicle | src/process/PlateProcessor.cpp:32-43 | so misread digits never make a second vehicle, and a differing letter does, unless the similarity reaches the threshold |
| PlateEvidence.CountKeepsBacking | src/process/PlateProcessor.cpp:117-127 | counting a read keeps: the votes are those of the track's reads, and the kept sample is the first of the largest of them |
| PlateEvidence.RunsAreBacked | src/process/PlateProcessor.cpp:117-159 | in every run each track, and so what its pass sends, is backed in this way by reads of that run |
| PlateEviction.EvictionIsInvisible | src/process/PlateProcessor.cpp:58-92 | for untracked plates at positive, non-decreasing times and 0 < passGapMs <= trackTtlMs, an evicting processor gives the outputs of one that never evicts |
| PlateEviction.SameStep | src/process/PlateProcessor.cpp:94-181 | one read gives the same output in both, and what was evicted still belongs to passes that are over |
| Direction.TrendWindow | src/process/DirectionEstimator.cpp:13-16 | the window is at least 1 and the first and last windows never overlap |
| Direction.PeakIndex | src/process/DirectionEstimator.cpp:107-112 | the first place of the largest size |
| Direction.DirectionEstimator.Update | src/process/DirectionEstimator.cpp:45-178 | one sighting as a step of the track of its key: resets, sample cap, verdict, streak, backstop, lock and event |
| Direction.DirectionEstimator.Decide | src/process/DirectionEstimator.cpp:77-151 | the verdict on one set of samples with all its guards |
| Direction.DirectionEstimator.CountAgreement | src/process/DirectionEstimator.cpp:155-178 | streak, backstop, lock, standing direction and event |
| Direction.DirectionEstimator.PeakAndSmallest | src/process/DirectionEstimator.cpp:107-112 | the scan finds the first peak and the smallest size |
| Direction.DirectionEstimator.Largest | src/process/DirectionEstimator.cpp:148-149 | the scan finds the size at the peak |
| Direction.DirectionEstimator.MeanOfFirst | src/process/DirectionEstimator.cpp:18-22 | the average over the first window |
| Direction.DirectionEstimator.MeanOfLast | src/process/DirectionEstimator.cpp:24-28 | the average over the last window, though summed backwards |
| Direction.DirectionEstimator.constructor | src/process/DirectionEstimator.cpp:45-46 | no tracks |
| Direction.StepKeepsTrackValid | src/process/DirectionEstimator.cpp:66-75 | as many sizes as positions, at most 600, all sizes positive |
| DirectionPasses.RunsAreCoherent | src/process/DirectionEstimator.cpp:45-178 | in every run the standing direction is the pass's last event, consecutive events differ, and while unlocked it is the direction being counted |
| DirectionPasses.LockedIsFinal | src/process/DirectionEstimator.cpp:54-66 | a locked track gives no event and changes nothing but its clock until it is reset |
| DirectionPasses.LockingIsSilentAfterAnEvent | src/process/DirectionEstimator.cpp:160-174 | no late outlier flip: the sighting that locks a pass gives an event exactly if the pass had given none |
| DirectionPasses.CountGrows | src/process/DirectionEstimator.cpp:66-74 | without a reset an unlocked history grows by one up to the cap, and a lock stays |
| DirectionPasses.StepKeepsLockedKnown | src/process/DirectionEstimator.cpp:160-177 | a locked track has a known direction |
| DirectionPasses.GapsThatSplit | src/process/DirectionEstimator.cpp:48-61 | in every run, a sighting splits the pass by its gap exactly if the gap is over 4 * trackGapMs, or over three times the gap learned just before |
| DirectionPasses.AllowedGapsThatSplit | src/process/DirectionEstimator.cpp:50-61 | a gap within trackGapMs, which the comment promises to tolerate, splits exactly if it is more than three times the learned one |
| DirectionPasses.ClockOfRun | src/process/DirectionEstimator.cpp:55-64 | the clock of a track in terms of the times of its run: last sighting, and the gap before it unless that one started the track afresh |
| DirectionPasses.EvenCadenceNeverSplits | src/process/DirectionEstimator.cpp:48-61 | any cadence, jittered or slow, with each gap within 4 * trackGapMs and three times a positive one before it, never splits |
| DirectionPasses.RecedingMeansShrunk | src/process/DirectionEstimator.cpp:139-151 | an exit is called only with the newest size below exitPeakGuardRatio of the largest |
| DirectionPasses.FallingNeverApproaches | src/process/DirectionEstimator.cpp:68-151 | a plate that never grows within its passes is never called approaching, sample eviction included |
| DirectionPasses.RisingNeverRecedes | src/process/DirectionEstimator.cpp:68-151 | a plate that never shrinks within its passes is never called receding |
| DirectionPasses.MonotoneRunsAreNotMisread | src/process/DirectionEstimator.cpp:45-178 | the same for sizes monotone over a whole run, wherever its passes are cut |
| DirectionPasses.TimeToDecision | src/process/DirectionEstimator.cpp:45-178 | a pass growing by minGrowthRatio each time is called approaching exactly once, at sighting minSightings, and locks exactly at sighting min(minSightings + confirmAgreeing - 1, confirmSightings) |
| DirectionLaw.VerdictExactly | src/process/DirectionEstimator.cpp:77-151 | the verdict, both ways, in the sizes alone: an entry exactly if the last sizes sum to minGrowthRatio times the first, or with enough sightings to minTrendDeltaPx each more, or neither way and the inner peak is late; an exit by the mirrored sums with the higher bars or an early peak, with enough reads and the newest well below the largest; and the vertical drift agrees where asked for |
| DirectionRuns.OverMeansFresh | src/process/DirectionEstimator.cpp:54-63 | a sighting that finds its pass over, by a gap or the cooldown, is treated as the first of a key never seen |
| DirectionRuns.PassGoesOn | src/process/DirectionEstimator.cpp:57-75 | otherwise the clock moves, a locked track changes nothing else, and an unlocked one keeps the 600 newest samples |
| DirectionRuns.RunFollows | src/process/DirectionEstimator.cpp:155-178 | over every run: the streak is the number of latest calls of the pass that agree; the direction that stands is the latest call, or the one before it if a lone outlier met the cap |
| DirectionRuns.LocksExactly | src/process/DirectionEstimator.cpp:160-177 | a sighting locks its pass exactly if it calls a direction and completes confirmAgreeing calls in a row or meets confirmSightings samples |
| DirectionRuns.CooldownExactly | src/process/DirectionEstimator.cpp:62-66 | over every run: a sighting in time finds a locked pass over exactly if more than cooldownMs have gone by since the sighting that locked it |
| DirectionRuns.SlowGrowthIsCalled | src/process/DirectionEstimator.cpp:90-98 | a pass that grows by at least step each time stands as approaching from the first sighting on at which the counts are met and half of the whole change is minTrendDeltaPx |
| DirectionRuns.SlowLossIsCalled | src/process/DirectionEstimator.cpp:90-98 | the mirrored law for receding, with the higher bar, enough reads and the newest size well below the first |
| DirectionReversal.BackwardsIsOpposite | src/process/DirectionEstimator.cpp:77-124 | a pass with one largest size that calls an exit calls an entry when seen backwards; where exits have no higher bar every call turns into its opposite |
| DirectionReversal.TrendTurns | src/process/DirectionEstimator.cpp:79-98 | the comparison of the two averages turns around when they trade places |
| DirectionReversal.PeakTurns | src/process/DirectionEstimator.cpp:118-123 | the call from the place of the peak turns around when the peak moves to the mirrored place |
| DirectionReversal.AveragesTradePlaces | src/process/DirectionEstimator.cpp:13-28 | seen backwards, the average of the first window is that of the last and the other way round |
| DirectionReversal.GuardsOnlyWithdraw | src/process/DirectionEstimator.cpp:126-151 | the later guards withdraw a call or leave it, and never turn it |
| DetectionWorker.DetectionWorker.PruneStale | src/manager/DetectionWorker.cpp:82-85 | the erasing loop leaves exactly the passes seen within five minutes |
| DetectionWorker.DetectionWorker.PassIdFor | src/manager/DetectionWorker.cpp:81-111 | prune, then join the gate's pass or open one with an unused id |
| DetectionWorker.DetectionWorker.HandleDropped | src/manager/DetectionWorker.cpp:341-398 | a suppressed read: release of the held plate, flush, or correction |
| DetectionWorker.DetectionWorker.HandleKept | src/manager/DetectionWorker.cpp:400-461 | a kept read: flush, hold, announce, or correction |
| DetectionWorker.DetectionWorker.HandleRead | src/manager/DetectionWorker.cpp:336-462 | one turn of the plate loop |
| DetectionWorker.DetectionWorker.FeedDirection | src/manager/DetectionWorker.cpp:274-293 | the estimator sees the first largest plate with text, once a frame |
| DetectionWorker.DetectionWorker.Process | src/manager/DetectionWorker.cpp:274-462 | one frame: feed the estimator, then every read in order under the settled trend |
| DetectionWorker.DetectionWorker.constructor | src/manager/DetectionWorker.cpp:81-91 | no passes and nothing emitted |
| DetectionWorker.Largest | src/manager/DetectionWorker.cpp:285-290 | the chosen read has text and positive size, no such read is larger, and all before it are smaller |
| AnnounceProtocol.ReadKeepsGood | src/manager/DetectionWorker.cpp:336-462 | every read keeps: a held plate means not announced, with the pass's own text and id; an announced pass remembers the direction last sent; each id belongs to one gate |
| AnnounceProtocol.RunsAreGood | src/manager/DetectionWorker.cpp:81-462 | the invariant and the law of corrections hold in every run |
| AnnounceProtocol.CorrectionsFollowAnAnnounce | src/manager/DetectionWorker.cpp:383-396 | every forced item continues an id emitted before, has direction 1 or 2, and differs from the direction last emitted for that id |
| AnnounceProtocol.DirectionsAlternate | src/manager/DetectionWorker.cpp:455-460 | two consecutive items of a pass, the second a correction, have different directions |
| AnnounceProtocol.OnlyDirectionIsCorrected | src/manager/DetectionWorker.cpp:407-461 | a kept read of an announced pass that goes on is sent exactly if the direction is known and has moved, as a correction with the pass's id, whatever its text |
| AnnounceProtocol.HeldFate | src/manager/DetectionWorker.cpp:81-111 | a held plate stays held, is emitted, or gives way to a similar plate, exactly unless a kept read finds the pass five minutes old or is an empty text at that gate, and no similar plate arrives with it |
| AnnounceProtocol.HeldThroughDrop | src/manager/DetectionWorker.cpp:341-398 | a suppressed read never loses a held plate |
| AnnounceProtocol.HeldThroughKept | src/manager/DetectionWorker.cpp:418-449 | when a kept read at the same gate loses a held plate |
| AnnounceProtocol.HeldThroughOtherGate | src/manager/DetectionWorker.cpp:82-85 | a kept read at another gate loses a held plate exactly by the five-minute prune |
| AnnounceOnce.AnnouncedAgainExactly | src/manager/DetectionWorker.cpp:341-461 | for every state and read: an id already emitted is emitted unforced exactly if its pass counts as not announced although it spoke, and now releases, flushes or announces a plate |
| AnnounceOnce.FlushedByDropOnly | src/manager/DetectionWorker.cpp:376-382 | over every run, a pass counts as not announced although it spoke exactly if a suppressed read flushed it and it has neither ended nor been announced since |
| AnnounceOnce.OnceExactly | src/manager/DetectionWorker.cpp:75-80 | over every run and for each id: it is announced at most once exactly if no read found its pass flushed in that way and made it speak |
| AnnounceOnce.OneAnnouncePerPass | src/manager/DetectionWorker.cpp:75-80 | an id whose own pass no suppressed read flushed is announced at most once, whatever happens to other passes: all its later items are corrections |
| PassIds.IdIsKeptExactly | src/manager/DetectionWorker.cpp:81-111 | from any state, over every run: a pass keeps its id exactly as long as no kept read comes too late or unlike its text, and none elsewhere finds it five minutes old; a lost id never returns |
| PassIds.IdAfterOneRead | src/manager/DetectionWorker.cpp:81-111 | the same for one read |
| PassIds.NextPassStarts | src/manager/DetectionWorker.cpp:91-110 | the kept read that ends a pass opens the next, with an unused id, its own time and no gap learned |
| PassIds.PassClock | src/manager/DetectionWorker.cpp:91-109 | which reads move the clock of a pass: kept ones set it and learn the gap, suppressed ones set it exactly on a release or correction, all others leave it |
| PassIds.AllowedGapsThatEnd | src/manager/DetectionWorker.cpp:87-98 | a kept read within passGapMs, which the comment promises to tolerate, ends its pass exactly if the gap is more than three times the learned one |
| PassIds.OneVehicleOneId | src/manager/DetectionWorker.cpp:87-110 | the kept reads of one vehicle draw a single id exactly if each gap is within the prune, 4 * passGapMs and three times a positive gap before it |
| PassIds.DifferentPlateOpensAPass | src/manager/DetectionWorker.cpp:99-107 | two vehicles are never merged: a kept read unlike the pass's text gets an id that no gate has and that was never emitted |
| AnnounceExamples.HeldPlateIsPruned | src/manager/DetectionWorker.cpp:82-85 | a run of two reads in which a held plate is erased and never emitted |
| AnnounceExamples.PassIsAnnouncedTwice | src/manager/DetectionWorker.cpp:376-382 | a run of three reads in which one id is announced twice |
| AnnounceExamples.JitterSplitsAPass | src/manager/DetectionWorker.cpp:94-101 | reads of one plate at 1, 101 and 501 with passGapMs 5000 make two passes and two announces |
| AnnounceExamples.JitterResetsATrack | src/process/DirectionEstimator.cpp:57-60 | sightings at 1000, 1100 and 1500 with trackGapMs 3000 start the track afresh |
| BoundedHold.FramesKeepGood | src/manager/DetectionWorker.cpp:274-462 | whole frames keep the invariant, and nothing emitted is taken back |
| BoundedHold.HoldEndsExactly | src/manager/DetectionWorker.cpp:350-375 | for any frames at any gates in which only suppressed reads of itself see it again: a held plate is released exactly if some such frame finds the direction known or announceHoldSightings more samples; otherwise it is still held, unchanged |
| BoundedHold.EvenCadenceSettles | src/process/DirectionEstimator.cpp:48-75 | sightings of an unlocked track at gaps that its clock tolerates bring the sample count to the end of the hold, if that is within the 600 kept |
| BoundedHold.HoldIsBounded | src/manager/DetectionWorker.cpp:350-375 | from any point of a hold with an unlocked track, also after a reset: once further frames that repeat the plate at an even cadence bring the samples to pendingSince + announceHoldSightings, within the 600 kept, the held item has been emitted, whatever happens at other gates |
| BoundedHold.PastTheCap | src/process/DirectionEstimator.cpp:69-74 | a hold that would run past the 600 samples kept is ended by a known direction only |
| BoundedHold.ReadsHoldSince | src/manager/DetectionWorker.cpp:432-449 | a frame that finds no plate held and leaves one held counts the hold from the sightings of that frame |
| BoundedHold.HoldStartsOnce | src/manager/DetectionWorker.cpp:432-449 | while a plate is held, similar plates that take its place do not move the start of the hold |
| BoundedHold.HeldPlateIsReleased | src/manager/DetectionWorker.cpp:350-375 | from the frame that holds a plate, announceHoldSightings further frames at its gate that repeat it at an even cadence, within the 600 samples kept, see it emitted |
| Pipeline.Pipeline.ProcessFrame | src/manager/DetectionWorker.cpp:274-462 | one frame through processor, estimator and worker, the processor asked about each plate in turn |
| Pipeline.FeedIgnoresAnswers | src/manager/DetectionWorker.cpp:278-293 | the estimator sees the plates, not the processor's answers |
| PlateAnnounced.FirstReadIsKept | src/process/PlateProcessor.cpp:94-181 | the first read of a plate passes the processor as it is |
| PlateAnnounced.NextReadIsSuppressed | src/process/PlateProcessor.cpp:94-148 | every further read of it soon after is counted and suppressed |
| PlateAnnounced.AnnouncedExactly | src/manager/DetectionWorker.cpp:355-361 | from an empty processor and a gate without a pass: a plate read again and again at one gate is announced, by all three parts together, exactly if there is no hold, its first frame knows the direction, or a later one ends the hold; otherwise nothing is emitted |
| PlateAnnounced.PlateIsAnnounced | src/manager/DetectionWorker.cpp:355-361 | at an even cadence, within the 600 samples kept, that is within its first frame and announceHoldSightings more |
| SentDirection.FrameDirections | src/manager/DetectionWorker.cpp:67-73 | for every state and frame: 1 is sent only while the gate's track stands at approaching, 2 only while at receding, and a correction tells exactly what stands |
| SentDirection.ReleaseTells | src/manager/DetectionWorker.cpp:350-375 | a held plate that its own suppressed read releases goes out as it was held, with exactly the direction that stands |
| SentDirection.AnnounceTells | src/manager/DetectionWorker.cpp:400-454 | a plate announced at once goes out as it was kept, with its pass's id, the frame's gate and time, and the direction that stands |
| SentDirection.CorrectionTells | src/manager/DetectionWorker.cpp:383-396 | a suppressed read corrects its announced pass exactly if a direction stands that was not sent last, with the pass's text and id |
| SentDirection.FlushTellsNothing | src/manager/DetectionWorker.cpp:376-382 | a held plate that another plate pushes out goes out with no direction |
| SentDirection.TracksAreWatched | src/manager/DetectionWorker.cpp:278-293 | over every run of all three parts, the track of a gate is the estimator's over that gate's largest plates |
| SentDirection.MonotoneRunsAreNotMissent | src/manager/DetectionWorker.cpp:67-73 | over every run of all three parts: where the plates fed at a gate never grow, nothing of that gate is sent with 1; where they never shrink, nothing with 2 |
| SentDirection.LastSentTells | src/manager/DetectionWorker.cpp:341-461 | after every frame of a plate that keeps being read, it is held with nothing known, or the last item sent for it tells the direction that stands |
| SentDirection.GrowingIsSentAsComing | src/manager/DetectionWorker.cpp:67-73 | a vehicle that grows by minGrowthRatio from frame to frame has last been sent with 1, from frame minSightings on |
| SentDirection.SlowEntryIsSent | src/manager/DetectionWorker.cpp:67-73 | so has a slow vehicle that comes, from the sighting on at which it is called |
| SentDirection.SlowExitIsSent | src/manager/DetectionWorker.cpp:67-73 | and a slow vehicle that goes has last been sent with 2 |
| PipelineExamples.JitterIsNeverAnnounced | src/process/DirectionEstimator.cpp:57-63 | a plate read at gaps of 100 and 400 with passGapMs 5000, trackGapMs 3000 and a hold of 2 is never announced, however often it is read |
| PipelineExamples.StandingIsNeverReleased | src/process/DirectionEstimator.cpp:69-74 | a plate held at a gate whose sample history is full and of one size is never released by frames of that size |
| PipelineExamples.CorrectedTextIsNotSent | src/process/PlateProcessor.cpp:134-145 | for all two similar texts of a tracked vehicle, with direction detection off: the processor sends the second to correct the first, and what leaves the worker is the first alone |
| BlockingQueue.BlockingQueue.Push | include/lpr/util/BlockingQueue.h:31-43 | with room the item is added behind the others and the result is true; in a full queue it takes the place of the oldest and the result is false |
| BlockingQueue.BlockingQueue.TryInsert | include/lpr/util/BlockingQueue.h:51-60 | wait while full and open, return when closed, otherwise append and notify |
| BlockingQueue.BlockingQueue.TryTake | include/lpr/util/BlockingQueue.h:64-88 | wait while empty and open, nothing when closed and drained, otherwise the oldest item |
| BlockingQueue.BlockingQueue.TryPop | include/lpr/util/BlockingQueue.h:91-99 | the oldest item, or nothing from an empty queue |
| BlockingQueue.BlockingQueue.constructor | include/lpr/util/BlockingQueue.h:24-24 | an empty open queue |
| QueueProtocol.StepKeepsCover | include/lpr/util/BlockingQueue.h:31-124 | every step keeps: while a consumer sleeps, each queued item has a woken consumer or a notify to come; while a producer sleeps, each free slot has a woken producer or a notify-all to come |
| QueueProtocol.StepKeepsOrder | include/lpr/util/BlockingQueue.h:31-124 | every step keeps the size bound and the order of delivery |
| QueueProtocol.NoLostWakeUp | include/lpr/util/BlockingQueue.h:31-124 | in every interleaving of any number of threads: no wake-up lost on either side, the bound kept, items received in the order they entered minus those dropped or cleared |
| QueueProtocol.NobodySleepsInVain | include/lpr/util/BlockingQueue.h:51-73 | once nobody is between wake-up and mutex and no notify is outstanding, consumers sleep only on an empty open queue and producers only on a full open one |
| QueueProtocol.PushDiscardsExactly | include/lpr/util/BlockingQueue.h:31-43 | in every interleaving a push discards an item, the oldest, exactly if the queue held maxSize of them |
| QueueProtocol.FillsUp | include/lpr/util/BlockingQueue.h:31-62 | as long as nobody takes or clears, the queue holds the newest maxSize of all items that entered |
| Envelope.DurableParsesBack | src/net/NatsTransport.cpp:114-125 | an offline plate's envelope parses back exactly if the path has no bar and the subject no colon, for every payload |
| Envelope.JetParsesBack | src/net/NatsTransport.cpp:126-132 | an online plate's envelope parses back exactly if the subject has no colon |
| Envelope.CoreParsesBack | src/net/NatsTransport.cpp:133-135 | a plain envelope parses back exactly if the subject has no colon and does not begin like another form |
| Envelope.Find | src/net/NatsTransport.cpp:116-122 | the first occurrence, none before it |
| NatsOutbox.Transport.EnqueueRaw | src/net/NatsTransport.cpp:58-68 | the envelope is last, the oldest gone if the queue was full |
| NatsOutbox.Transport.EnqueueOutbox | src/net/NatsTransport.cpp:89-106 | the readable files' envelopes are enqueued in file-name order |
| NatsOutbox.Transport.Publish | src/net/NatsTransport.cpp:351-356 | queued exactly while running |
| NatsOutbox.Transport.PublishDurable | src/net/NatsTransport.cpp:363-377 | to disk while stopped or disconnected, to the queue while running, in the form that goes with it |
| NatsOutbox.Transport.SendOne | src/net/NatsTransport.cpp:144-216 | which envelopes are dropped, sent, put back and where, and when a file goes |
| NatsOutbox.Transport.OnReconnected | src/net/NatsTransport.cpp:256-262 | undisturbed, with at most maxQueue readable files, the queue ends with one envelope for every file in file-name order |
| NatsOutbox.Transport.SendAll | src/net/NatsTransport.cpp:142-216 | the sender loop, online and with every send and removal succeeding: the messages of all well-formed envelopes are accepted in order, and the files they name are gone |
| NatsOutbox.Transport.ReconnectAndSend | src/net/NatsTransport.cpp:256-262 | the outbox drains: after a reconnect where everything succeeds, queue and outbox are empty and every file's message has been accepted |
| NatsOutbox.QueueDrains | src/net/NatsTransport.cpp:88-106 | whatever else is queued before them, one envelope for each file suffices for that |
| NatsOutbox.LeftExactly | src/net/NatsTransport.cpp:205-210 | a file is left exactly if no well-formed durable envelope sent names it |
| NatsOutbox.Transport.constructor | src/net/NatsTransport.cpp:42-50 | an empty queue over the files an earlier process left |
| NatsOutbox.EnqueuedAllKeeps | src/net/NatsTransport.cpp:58-68 | as many envelopes as the queue may hold all survive, in order, at its end |
| OutboxOrder.NameOrder | src/net/NatsTransport.cpp:71-95 | the order of any two file names in terms of their times and numbers, the longer number compared after dropping its last digits; at a tie the shorter of two numbers comes first, and of two times the longer |
| OutboxOrder.OldestFirstExactly | src/net/NatsTransport.cpp:88-95 | of an older and a newer file, the older is re-sent first exactly if its time (its number, within one time) is below (at most) that of the newer one cut to as many digits |
| OutboxOrder.NameOrderIsAgeOrder | src/net/NatsTransport.cpp:88-95 | so file-name order is age order among files whose times, and within one time whose numbers, have equally many digits |
| OutboxOrder.TenBeforeNine | src/net/NatsTransport.cpp:71-75 | file 10 of a millisecond sorts before file 9, so it is re-sent first |
| OutboxProtocol.TurnIsSendOne | src/net/NatsTransport.cpp:144-216 | the sender's steps, left undisturbed, amount to the method |
| OutboxProtocol.StepKeepsInv | src/net/NatsTransport.cpp:58-216 | every step of publishers, sender, callbacks, disk and crash keeps: durable envelopes name files drawn for exactly their message, and a completed file is there or accepted |
| OutboxProtocol.RemoveKeepsInv | src/net/NatsTransport.cpp:205-210 | a file is removed only after the server accepted exactly its message |
| OutboxProtocol.RunsForgetNothing | src/net/NatsTransport.cpp:71-216 | no run forgets a completed file or an accepted message, and no file name is used twice |
| OutboxProtocol.AtLeastOnce | src/net/NatsTransport.cpp:58-218 | in every run a plate once on disk is later still there, with the same subject and payload, or accepted; through overflow, disconnects, failed sends, lost acknowledgements, crashes and restarts |
| OutboxLoss.OfflinePlateSurvives | src/net/NatsTransport.cpp:139-170 | a plate published offline to an idle sender is still accepted, on disk or in memory after the sender has looked at it exactly if its file was written, or the connection was back by then and the subject is not empty |
| OutboxLoss.StepMakesNothing | src/net/NatsTransport.cpp:58-218 | no step of anyone but its publisher creates a message that is nowhere |
| OutboxLoss.LostForGood | src/net/NatsTransport.cpp:58-218 | in every run, a message that is neither accepted, on disk nor in memory stays so unless it is published anew |
| OutboxProtocol.QueueIsBounded | src/net/NatsTransport.cpp:58-68 | queue plus message in hand never exceed maxQueue + 1, despite requeues that ignore the bound |
| Base64.Base64Encode | src/util/Base64.cpp:113-162 | the loop with 32-bit positions writes the 6-bit digits of the 24-bit groups of section 4 (or 5) of RFC 4648, for every input below 2^32 bytes |
| Base64.EncodeQuad | src/util/Base64.cpp:136-155 | the masks and shifts give the digits of one group, with padding |
| Base64.EncodingEnds | src/util/Base64.cpp:133-157 | some turn of the loop reaches the end of the input exactly if it is shorter than 2^32 bytes |
| Base64.QuadOfBytes | src/util/Base64.cpp:136-154 | the 6-bit digits of a 24-bit group in terms of its bytes |
| Base64.PosOfCharAt | src/util/Base64.cpp:46-73 | looking a position up and reading it back is the identity, for both alphabets |
| Base64.AlphabetsOfRfc4648 | src/util/Base64.cpp:46-55 | the two alphabets are those of RFC 4648, sections 4 and 5, letter by letter; '=' pads the first and '.' the second |
| Base64.VectorsOfRfc4648 | src/util/Base64.cpp:113-162 | test vectors of RFC 4648, section 10 |
| Base64.Base64Decode | src/util/Base64.cpp:164-243 | the loop puts the bytes of each chunk together, drops newlines on request, and fails as the first bad chunk does |
| Base64.DecodeChunk | src/util/Base64.cpp:195-240 | the bytes of one chunk, or the exception that it raises |
| Base64.BytesOfDigits | src/util/Base64.cpp:209-235 | the bytes of up to four digits in terms of the digits |
| Base64.InsertLinebreaks | src/util/Base64.cpp:75-91 | inserting into the growing string gives the broken form |
| Base64.EncodePem | src/util/Base64.cpp:93-101 | the 64-column form |
| Base64.EncodeMime | src/util/Base64.cpp:93-106 | the 76-column form |
| Base64RoundTrip.RoundTrip | src/util/Base64.cpp:113-243 | decoding undoes encoding, for both alphabets |
| Base64RoundTrip.BrokenRoundTrip | src/util/Base64.cpp:164-181 | decoding with newlines removed undoes every line-broken form |
| Base64RoundTrip.BrokenNeedsRemoval | src/util/Base64.cpp:171-181 | without removal a broken text comes back exactly if it is a single line |
| Base64RoundTrip.BreakAt | src/util/Base64.cpp:75-91 | newlines stand in exactly every column `distance` |
| Base64RoundTrip.NoTrailingBreak | src/util/Base64.cpp:83-88 | no newline comes last |
| Base64RoundTrip.EncodedShape | src/util/Base64.cpp:113-162 | the reserved length is met, padding stands at the end only, and every character belongs to the alphabet asked for |
| Base64RoundTrip.DecodeSucceeds | src/util/Base64.cpp:195-240 | exactly which strings decode and which raise an exception |
| MediaSender.UploadRecording | src/net/MediaSender.cpp:215-263 | the parts in the order sent, for a file whose length may fail to be measured or change afterwards |
| MediaSender.UploadIsFaithful | src/net/MediaSender.cpp:224-262 | the decoded parts joined by number are exactly the file, the final flag is on exactly the last part, and an empty file sends nothing |
| MediaSender.PartsReassemble | src/net/MediaSender.cpp:239-262 | numbering, count and flags of the parts, and how much of the file they carry |
| MediaSender.ChangedFile | src/net/MediaSender.cpp:219-262 | when a file that changed meanwhile still ends with the flag, and when nothing of it is missing |
| RecordingService.Pruner.constructor | src/services/RecordingService.cpp:102-116 | all items taken in, with their summed size as total |
| RecordingService.Pruner.TryRemove | src/services/RecordingService.cpp:118-122 | total stays the summed size of what is left, freed plus total is conserved |
| RecordingService.Pruner.AgePass | src/services/RecordingService.cpp:124-128 | exactly the items last written before the cutoff that can go lose their size, and are counted |
| RecordingService.Pruner.SizePass | src/services/RecordingService.cpp:133-139 | the oldest-first loop with its early exit, and the count |
| RecordingService.Pruner.Prune | src/services/RecordingService.cpp:118-139 | both passes with the sort between them: total, freed and deleted add up over the whole call |
| RecordingService.SumOfPermutation | src/services/RecordingService.cpp:130-131 | sorting does not change the total |
| RecordingService.SizePassIsFair | src/services/RecordingService.cpp:129-139 | the cap is met unless every file left refused; a file older than a removed one had refused; nothing goes exactly if nothing needs to or can |
| RecordingService.BudgetOrRefused | src/services/RecordingService.cpp:133-139 | at every point of the pass, the total is within the cap or all files seen that are left refused |
| RecordingService.EarlierFirst | src/services/RecordingService.cpp:133-139 | nothing goes while something earlier could have gone |
| RecordingService.LastWasNeeded | src/services/RecordingService.cpp:135-138 | with the last file removed, the total would still be over the cap |
| RecordingService.KeptOrGone | src/services/RecordingService.cpp:119-122 | items keep their path and time, and only removable ones lose their size |
| CtcDecoder.ArgMax | src/detect/CtcDecoder.cpp:25-28 | the first place of the greatest value of a row |
| CtcDecoder.CtcGreedyDecode | src/detect/CtcDecoder.cpp:8-45 | the loop gives the letters of the collapsed path of best classes |
| CtcDecoder.CollapseUndoesStretching | src/detect/CtcDecoder.cpp:30-38 | collapsing runs recovers any classes that differ from their neighbours, however long each is held |
| CtcDecoder.WrittenReadsBack | src/detect/CtcDecoder.cpp:11-15 | a word's classes with blanks between equal letters give exactly the word, unless a letter is negative |
| CtcDecoder.LetterHasItsClass | src/detect/CtcDecoder.cpp:11-15 | whatever class is read as a letter is the class of that letter at its own place in the alphabet, and the blank gives none |
| CtcDecoder.PeaksGiveThePath | src/detect/CtcDecoder.cpp:22-28 | rows with one greatest value each determine the path |
| CtcDecoder.EveryTextIsRead | src/detect/CtcDecoder.cpp:8-41 | for any blank position, a word held as long as one likes is read back from peaked rows exactly if all its letters are ASCII |
| Sorting.Sort | src/net/NatsTransport.cpp:95-95 | the same elements, in order |
| Sorting.StringsAreOrdered | src/net/NatsTransport.cpp:95-95 | comparing file names gives an order that sorting can use |

## Left out

- Drawing, previews, overlays, JPEG encoding, logging and diagnostics: no state that matters to the protocols.
- Camera, video and inference backends, plate detection, ByteTrack, and the confidence of the CTC decoder: foreign calls or floating-point work.
- The message server, TLS, sockets and real files: success and failure are parameters, the disk is a map from names to contents, the server a list of accepted messages.
- `CameraStatusNotifier`, `LiveViewService`, `ModuleDiag`, `PlateSender`, `GigeRateAdapt`, `GigEBandwidthCoordinator`, `CommandRouter`: they watch, throttle and configure what is modelled here, and take no part in recording a pass or handing it on.
- `ConnectionSupervisor`: its device-removal rule depends on callers that are not part of this model.
- The free-space floor, the clean-up of empty directories and segment writing in `RecordingService`.
- Doubles and floats are real numbers and times are unbounded integers; rounding, overflow and the mix of seconds and milliseconds in plate times are not modelled.
- UUIDs are numbers from a counter: that two draws never coincide is assumed.
- The order in which an unordered map is walked is the order in which its keys were inserted; it settles ties only.
- A plate box is given by the square root of its area; images are left out of the records.
- The format check `checkPlate8` is any predicate on texts; a missing validator is the predicate that accepts everything.
- JSON writing and reading of outbox files is taken as faithful, and a completed rename as leaving the whole content.
- A send queue of capacity zero, which the source never configures, is not modelled.
- Rows of the CTC decoder have at least one class, as its caller ensures.
- Direction.DirectionEstimator.Update: excludes the calls on which the source reads an empty history, which are those with a configured minimum of no sightings, a size that is not positive, and no sample yet.
- DirectionLaw.VerdictExactly: for minGrowthRatio > 1, without which even a pass of one size counts as grown.
- BoundedHold.HeldPlateIsReleased: for sightings at an even cadence and a hold that ends within the 600 samples kept; for all others `HoldEndsExactly` says whether the plate is released.
- PlateAnnounced.PlateIsAnnounced: the same, with `AnnouncedExactly` for all others; both start from an empty processor and a gate without a pass, with no other gate's frames in between.
- DetectionWorker.DetectionWorker.Process: takes the processor's answer to each read as given, as `Pipeline.ProcessFrame` does not, and leaves out the per-camera polarity, which only reaches the log.
- Pipeline.Pipeline.ProcessFrame: always has a processor; without one the source keeps every read.
- NatsOutbox.Transport.ReconnectAndSend: assumes at most maxQueue files, as more would push the oldest out of the queue, with subjects that are not empty and without ':' and paths without '|'.
- OutboxLoss.OfflinePlateSurvives: starts from an idle sender and an empty queue; what overflow does to a queued envelope is in `Enqueued`.
- OutboxProtocol.AtLeastOnce: assumes subjects without ':' and '|', outbox paths without '|', and file names never drawn twice, across restarts too.
- MediaSender.UploadRecording: leaves out the message envelope (ids, title, extension) and takes reads to be short only at the end of the file.
- Base64.Base64Encode: inputs of 2^32 bytes or more are excluded, since the source does not terminate on them.
