/**
 Which sample a pass sends (src/process/PlateProcessor.cpp:117-127, 150-159): the first of its largest reads, whatever
 reads came in between, beside the voted text.
 */
module PlateEvidence {
  import opened Plates
  import opened PlateProcessor
  import opened PlateVoting

  /** The track holds exactly the votes of these reads, and the first of the largest of them. */
  ghost predicate Backed(t: Track, samples: seq<PlateResult>) {
    |t.votes| == |samples| > 0 && (forall i | 0 <= i < |samples| :: t.votes[i] == VoteOf(samples[i])) &&
    t.bestSize == Size(t.best) && t.lastUpdateMs == samples[|samples| - 1].timestamp &&
    exists k :: IsBest(t.best, samples, k)
  }

  /** The first of the largest reads is number `k`. */
  ghost predicate IsBest(best: PlateResult, samples: seq<PlateResult>, k: int) {
    0 <= k < |samples| && samples[k] == best && (forall i | 0 <= i < k :: Size(samples[i]) < Size(best)) &&
    forall i | k <= i < |samples| :: Size(samples[i]) <= Size(best)
  }

  ghost predicate AllFrom(samples: seq<PlateResult>, plates: seq<PlateResult>) {
    forall i | 0 <= i < |samples| :: samples[i] in plates
  }

  lemma CountKeepsBacking(s: Store, key: string, p: PlateResult, samples: seq<PlateResult>)
    requires key in s.tracks ==> Backed(s.tracks[key], samples)
    requires key !in s.tracks ==> samples == []
    ensures Backed(CountOn(s, key, p).0.tracks[key], samples + [p])
    ensures var out := CountOn(s, key, p).1;
      var t := CountOn(s, key, p).0.tracks[key];
      out.Some? ==>
        out.value == t.best.(text := out.value.text, trackId := p.trackId, passId := t.passId, gate := p.gate)
  {
    hide Consensus, Size;
    var t := TrackAt(s, key);
    if t.votes == [] || Size(p) > t.bestSize {
      if t.votes != [] {
        var k :| IsBest(t.best, samples, k);
      }
      assert IsBest(p, samples + [p], |samples|);
    } else {
      var k :| IsBest(t.best, samples, k);
      assert IsBest(t.best, samples + [p], k);
    }
  }

  /** Every track of every run is backed by reads of that run, so what a pass sends is its largest sample. */
  lemma RunsAreBacked(cfg: Config, plates: seq<PlateResult>, key: string)
    returns (samples: seq<PlateResult>)
    ensures key in Run(cfg, plates).0.tracks ==>
      Backed(Run(cfg, plates).0.tracks[key], samples) && AllFrom(samples, plates)
  {
    hide Process, CountOn, ResolveKey, Backed, Expired, WellKeyed, ValidTrack, NumberedBelow, DistinctIds;
    samples := [];
    if key !in Run(cfg, plates).0.tracks {
      return;
    }
    var n := |plates| - 1;
    var before := plates[..n];
    var s := Run(cfg, before).0;
    var p := plates[n];
    if !Acceptable(cfg, p) {
      UnacceptableChangesNothing(cfg, s, p);
      samples := RunsAreBacked(cfg, before, key);
    } else {
      EveryReadCounts(cfg, s, p);
      var (v, counted) := Target(cfg, s, p);
      EvictedIsPart(cfg, s, p.timestamp);
      if key in v.tracks {
        samples := RunsAreBacked(cfg, before, key);
      }
      if key == counted {
        CountKeepsBacking(v, key, p, samples);
        samples := samples + [p];
      }
    }
  }

  lemma EvictedIsPart(cfg: Config, s: Store, nowMs: int)
    ensures forall k | k in Evict(cfg, s, nowMs).tracks :: k in s.tracks && Evict(cfg, s, nowMs).tracks[k] == s.tracks[k]
  {
  }
}
