/**
 Eviction cannot be noticed by untracked plates (src/process/PlateProcessor.cpp:58-92, 94-181): a processor that drops
 idle clusters and one that keeps them for ever give the same answers.
 */
module PlateEviction {
  import opened Plates
  import opened PlateProcessor
  import opened PlateVoting
  import J = JaroWinkler

  function NeverEvicts(cfg: Config): Config { cfg.(trackTtlMs := 0) }

  /** The evicting store `s` lags behind the keeping store `u` only by clusters whose pass is over. */
  ghost predicate Lags(cfg: Config, s: Store, u: Store, nowMs: int) {
    s.counter == u.counter && s.nextId == u.nextId && s.order == Filter(u.order, s.tracks.Keys) &&
    (forall k | k in s.tracks :: k in u.tracks && s.tracks[k] == u.tracks[k]) &&
    (forall k | k in u.tracks && k !in s.tracks :: OtherPass(cfg, u.tracks[k], nowMs))
  }

  lemma {:induction false} FilterTwice(order: seq<string>, keep: set<string>, more: set<string>)
    requires more <= keep
    ensures Filter(Filter(order, keep), more) == Filter(order, more)
  {
    if order == [] {
    } else {
      var n := |order| - 1;
      FilterTwice(order[..n], keep, more);
      var r := Filter(order[..n], keep);
      if order[n] in keep {
        assert (r + [order[n]])[..|r|] == r;
      }
    }
  }

  lemma {:induction false} FilterAppend(order: seq<string>, k: string, keep: set<string>)
    ensures Filter(order + [k], keep) == if k in keep then Filter(order, keep) + [k] else Filter(order, keep)
  {
    assert (order + [k])[..|order|] == order;
  }

  lemma {:induction false} FilterSame(order: seq<string>, keep: set<string>, other: set<string>)
    requires forall k | k in order :: k in keep <==> k in other
    ensures Filter(order, keep) == Filter(order, other)
  {
    if order == [] {
    } else {
      var n := |order| - 1;
      assert order[n] in order;
      FilterSame(order[..n], keep, other);
    }
  }

  /** Time passing and an eviction leave the lag as it is. */
  lemma EvictKeepsLag(cfg: Config, s: Store, u: Store, before: int, nowMs: int)
    requires Lags(cfg, s, u, before) && 0 < before <= nowMs && 0 < cfg.passGapMs <= cfg.trackTtlMs
    ensures Lags(cfg, Evict(cfg, s, nowMs), u, nowMs)
  {
    var v := Evict(cfg, s, nowMs);
    FilterTwice(u.order, s.tracks.Keys, v.tracks.Keys);
  }

  lemma NothingToEvict(cfg: Config, u: Store, nowMs: int)
    ensures Evict(NeverEvicts(cfg), u, nowMs) == u
  {
  }

  /** Clusters of other passes are never chosen, so both processors choose alike. */
  lemma {:induction false} SameBestKey(cfg: Config, s: Store, u: Store, order: seq<string>, p: PlateResult, nowMs: int)
    requires KeysIn(order, u.tracks)
    requires forall k | k in s.tracks :: k in u.tracks && s.tracks[k] == u.tracks[k]
    requires forall k | k in u.tracks && k !in s.tracks :: OtherPass(cfg, u.tracks[k], nowMs)
    ensures BestKey(cfg, s.tracks, Filter(order, s.tracks.Keys), p, nowMs) ==
      BestKey(NeverEvicts(cfg), u.tracks, order, p, nowMs)
  {
    hide Joins, OtherPass;
    if order == [] {
    } else {
      var n := |order| - 1;
      assert order == order[..n] + [order[n]];
      SameBestKey(cfg, s, u, order[..n], p, nowMs);
      SameCandidate(cfg, u.tracks[order[n]], p, order[n], nowMs);
      var r := Filter(order[..n], s.tracks.Keys);
      assert order[n] in s.tracks ==> (r + [order[n]])[..|r|] == r;
    }
  }

  lemma SameCandidate(cfg: Config, t: Track, p: PlateResult, key: string, nowMs: int)
    ensures Candidate(cfg, p, nowMs, key, t) == Candidate(NeverEvicts(cfg), p, nowMs, key, t)
    ensures OtherPass(cfg, t, nowMs) ==> !Candidate(cfg, p, nowMs, key, t)
  {
    hide J.JaroWinkler, PlateSimilar;
  }

  lemma SameKey(cfg: Config, s: Store, u: Store, p: PlateResult, nowMs: int)
    requires WellKeyed(s) && WellKeyed(u) && Lags(cfg, s, u, nowMs) && p.trackId < 0
    ensures ResolveKey(cfg, s, p, nowMs) == ResolveKey(NeverEvicts(cfg), u, p, nowMs)
  {
    hide ClusterKey, Joins, Distinct, OtherPass;
    SameBestKey(cfg, s, u, u.order, p, nowMs);
  }

  lemma SameOrder(s: Store, u: Store, key: string)
    requires WellKeyed(s) && WellKeyed(u) && s.order == Filter(u.order, s.tracks.Keys)
    requires forall k | k in s.tracks :: k in u.tracks
    requires key in s.tracks || key !in u.tracks
    ensures OrderWith(s, key) == Filter(OrderWith(u, key), s.tracks.Keys + {key})
  {
    hide Distinct;
    FilterSame(u.order, s.tracks.Keys, s.tracks.Keys + {key});
    FilterAppend(u.order, key, s.tracks.Keys + {key});
  }

  /** Counting touches one key, and what it puts there depends only on that key's track and the next id. */
  lemma CountIsLocal(s: Store, u: Store, key: string, p: PlateResult)
    requires TrackAt(s, key) == TrackAt(u, key) && s.nextId == u.nextId
    ensures var (a, b) := (CountOn(s, key, p), CountOn(u, key, p));
      a.1 == b.1 && a.0.nextId == b.0.nextId && a.0.counter == s.counter && b.0.counter == u.counter &&
      a.0.order == OrderWith(s, key) && b.0.order == OrderWith(u, key) &&
      key in a.0.tracks && key in b.0.tracks && a.0.tracks[key] == b.0.tracks[key] &&
      a.0.tracks == s.tracks[key := a.0.tracks[key]] && b.0.tracks == u.tracks[key := b.0.tracks[key]]
  {
    hide Counted, Output, OrderWith;
  }

  /** Counting the read on the chosen key gives the same answer and leaves the same lag. */
  lemma SameCount(cfg: Config, s: Store, u: Store, key: string, p: PlateResult)
    requires WellKeyed(s) && WellKeyed(u) && Lags(cfg, s, u, p.timestamp)
    requires key in s.tracks || key !in u.tracks
    ensures CountOn(s, key, p).1 == CountOn(u, key, p).1
    ensures Lags(cfg, CountOn(s, key, p).0, CountOn(u, key, p).0, p.timestamp)
  {
    hide CountOn, OtherPass, WellKeyed, OrderWith, Filter;
    CountIsLocal(s, u, key, p);
    SameOrder(s, u, key);
    assert CountOn(s, key, p).0.tracks.Keys == s.tracks.Keys + {key};
  }

  lemma SameStep(cfg: Config, s: Store, u: Store, p: PlateResult, before: int)
    requires Inv(cfg, s) && Inv(NeverEvicts(cfg), u) && Lags(cfg, s, u, before)
    requires 0 < cfg.passGapMs <= cfg.trackTtlMs && p.trackId < 0 && 0 < before <= p.timestamp
    ensures Process(cfg, s, p).1 == Process(NeverEvicts(cfg), u, p).1
    ensures Lags(cfg, Process(cfg, s, p).0, Process(NeverEvicts(cfg), u, p).0, p.timestamp)
  {
    hide Process, CountOn, ResolveKey, Evict, Lags, Inv, WellKeyed;
    EvictKeepsLag(cfg, s, u, before, p.timestamp);
    var never := NeverEvicts(cfg);
    InvIsWellKeyed(cfg, s);
    InvIsWellKeyed(never, u);
    if Acceptable(cfg, p) {
      EveryReadCounts(cfg, s, p);
      EveryReadCounts(never, u, p);
      EvictKeepsWellKeyed(cfg, s, p.timestamp);
      NothingToEvict(cfg, u, p.timestamp);
      var e := Evict(cfg, s, p.timestamp);
      SameKey(cfg, e, u, p, p.timestamp);
      SameTarget(cfg, s, u, e, p);
    } else {
      UnacceptableChangesNothing(cfg, s, p);
      UnacceptableChangesNothing(never, u, p);
      TimePasses(cfg, s, u, before, p.timestamp);
    }
  }

  lemma InvIsWellKeyed(cfg: Config, s: Store)
    requires Inv(cfg, s)
    ensures WellKeyed(s) && NumberedBelow(s.tracks, s.counter)
  {
  }

  lemma TimePasses(cfg: Config, s: Store, u: Store, before: int, nowMs: int)
    requires Lags(cfg, s, u, before) && 0 < before <= nowMs
    ensures Lags(cfg, s, u, nowMs)
  {
  }

  lemma SameTarget(cfg: Config, s: Store, u: Store, e: Store, p: PlateResult)
    requires WellKeyed(s) && WellKeyed(u) && WellKeyed(e) && NumberedBelow(u.tracks, u.counter) && p.trackId < 0
    requires e == Evict(cfg, s, p.timestamp) && u == Evict(NeverEvicts(cfg), u, p.timestamp)
    requires Lags(cfg, e, u, p.timestamp)
    requires ResolveKey(cfg, e, p, p.timestamp) == ResolveKey(NeverEvicts(cfg), u, p, p.timestamp)
    ensures var (v, key) := Target(cfg, s, p);
      var (w, other) := Target(NeverEvicts(cfg), u, p);
      key == other && CountOn(v, key, p).1 == CountOn(w, key, p).1 &&
      Lags(cfg, CountOn(v, key, p).0, CountOn(w, key, p).0, p.timestamp)
  {
    hide ResolveKey, Evict, Distinct, CountOn, ClusterKey, Joins, OtherPass;
    var (v, key) := Target(cfg, s, p);
    var (w, other) := Target(NeverEvicts(cfg), u, p);
    ChosenOrNew(cfg, e, u, p);
    assert v == e.(counter := v.counter) && w == u.(counter := v.counter);
    SameCount(cfg, v, w, key, p);
  }

  lemma ChosenOrNew(cfg: Config, s: Store, u: Store, p: PlateResult)
    requires WellKeyed(s) && WellKeyed(u) && NumberedBelow(u.tracks, u.counter) && p.trackId < 0
    requires s.counter == u.counter
    ensures var key := ResolveKey(cfg, s, p, p.timestamp).0; key in s.tracks || key !in u.tracks
  {
    hide ClusterKey, Joins, Distinct, OtherPass;
  }

  // ----- Whole runs -----

  ghost predicate Untracked(plates: seq<PlateResult>) {
    (forall i | 0 <= i < |plates| :: plates[i].trackId < 0 && plates[i].timestamp > 0) &&
    forall i | 0 < i < |plates| :: plates[i - 1].timestamp <= plates[i].timestamp
  }

  ghost function LastTime(plates: seq<PlateResult>): int {
    if plates == [] then 1 else plates[|plates| - 1].timestamp
  }

  /** For untracked plates with positive, non-decreasing times, and 0 < passGapMs <= trackTtlMs, a processor that
      evicts gives exactly the outputs of one that never does. */
  lemma {:induction false} EvictionIsInvisible(cfg: Config, plates: seq<PlateResult>)
    requires 0 < cfg.passGapMs <= cfg.trackTtlMs && Untracked(plates)
    ensures Run(cfg, plates).1 == Run(NeverEvicts(cfg), plates).1
    ensures Lags(cfg, Run(cfg, plates).0, Run(NeverEvicts(cfg), plates).0, LastTime(plates))
  {
    hide Process, Lags, Inv;
    if plates != [] {
      var n := |plates| - 1;
      EvictionIsInvisible(cfg, plates[..n]);
      var s, u := Run(cfg, plates[..n]).0, Run(NeverEvicts(cfg), plates[..n]).0;
      if n == 0 {
        EmptyLags(cfg, plates[0].timestamp);
        SameStep(cfg, EMPTY, EMPTY, plates[0], plates[0].timestamp);
      } else {
        SameStep(cfg, s, u, plates[n], LastTime(plates[..n]));
      }
    } else {
      EmptyLags(cfg, 1);
    }
  }

  lemma EmptyLags(cfg: Config, nowMs: int)
    ensures Lags(cfg, EMPTY, EMPTY, nowMs)
  {
  }
}
