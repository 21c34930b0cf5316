/**
 Clustering, voting and de-duplication of plate reads (src/process/PlateProcessor.cpp).

 The unordered map of tracks is a map plus the order in which its keys were inserted; that order settles ties. Pass ids
 are numbers drawn from a counter. `Process` is one read as a function; class `PlateProcessor` does the same work in
 place, with the loops of the source.
 */
module PlateProcessor {
  import opened Numbers
  import opened Plates
  import J = JaroWinkler

  /** A null validator is one that accepts everything. */
  datatype Config = Config(
    validator: string -> bool,
    similarityThreshold: real,
    minConfidence: real,
    trackTtlMs: int,
    passGapMs: int,
    maxPlateCharDiffs: int)

  datatype Vote = Vote(text: string, weight: real)

  datatype Track = Track(
    votes: seq<Vote>,
    consensus: string,
    lastSent: string,
    sent: bool,
    lastUpdateMs: int,
    best: PlateResult,
    bestSize: real,
    passId: nat)

  const NEW_TRACK := Track([], "", "", false, 0, NO_PLATE, 0.0, 0)

  /** Tracks by key, their keys in insertion order, the cluster counter, and the next unused pass id. */
  datatype Store = Store(tracks: map<string, Track>, order: seq<string>, counter: nat, nextId: nat)

  const EMPTY := Store(map[], [], 0, 1)

  // ----- Similar plates -----

  predicate IsDigit(c: char) { '0' <= c <= '9' }

  /** Wherever the strings differ, both have digits. */
  ghost predicate OnlyDigitsDiffer(a: string, b: string, n: nat)
    requires n <= |a| == |b|
  {
    forall i | 0 <= i < n && a[i] != b[i] :: IsDigit(a[i]) && IsDigit(b[i])
  }

  ghost predicate PlateSimilar(a: string, b: string, maxDiffs: int) {
    maxDiffs > 0 && a != "" && |a| == |b| && OnlyDigitsDiffer(a, b, |a|) &&
    0 < J.Differences(a, b, |a|) <= maxDiffs
  }

  ghost predicate Joins(cfg: Config, text: string, consensus: string) {
    J.JaroWinkler(text, consensus) >= cfg.similarityThreshold ||
    PlateSimilar(text, consensus, cfg.maxPlateCharDiffs)
  }

  // ----- The vote -----

  ghost function WeightOf(votes: seq<Vote>, text: string): real {
    if votes == [] then 0.0
    else
      var v := votes[|votes| - 1];
      WeightOf(votes[..|votes| - 1], text) + if v.text == text then v.weight else 0.0
  }

  /** The distinct texts in order of first appearance. */
  ghost function Texts(votes: seq<Vote>): (r: seq<string>)
    ensures forall v | v in votes :: v.text in r
    ensures forall t | t in r :: exists i :: 0 <= i < |votes| && votes[i].text == t
  {
    if votes == [] then []
    else
      var n := |votes| - 1;
      assert votes == votes[..n] + [votes[n]];
      var r := Texts(votes[..n]);
      if votes[n].text in r then r else r + [votes[n].text]
  }

  /** The first of the texts with the largest weight, and that weight; nothing below -1 is taken. */
  ghost function Heaviest(votes: seq<Vote>, texts: seq<string>): (r: Vote)
    ensures forall t | t in texts :: WeightOf(votes, t) <= r.weight
    ensures r == Vote("", -1.0) || (r.text in texts && r.weight == WeightOf(votes, r.text))
  {
    if texts == [] then Vote("", -1.0)
    else
      var n := |texts| - 1;
      assert texts == texts[..n] + [texts[n]];
      var r := Heaviest(votes, texts[..n]);
      var w := WeightOf(votes, texts[n]);
      if w > r.weight then Vote(texts[n], w) else r
  }

  ghost function Consensus(votes: seq<Vote>): string {
    Heaviest(votes, Texts(votes)).text
  }

  // ----- Keys -----

  function TrackedKey(id: nat): string { "t:" + Decimal(id) }

  function Prefix(gate: string): string { "g:" + gate + "#" }

  function ClusterKey(gate: string, n: nat): string { Prefix(gate) + Decimal(n) }

  /** The cluster went quiet too long ago to be the same pass. */
  predicate OtherPass(cfg: Config, t: Track, nowMs: int) {
    cfg.passGapMs > 0 && nowMs > 0 && t.lastUpdateMs > 0 && nowMs - t.lastUpdateMs > cfg.passGapMs
  }

  ghost predicate Candidate(cfg: Config, p: PlateResult, nowMs: int, key: string, t: Track) {
    Prefix(p.gate) <= key && !OtherPass(cfg, t, nowMs) && Joins(cfg, p.text, t.consensus)
  }

  ghost predicate KeysIn(order: seq<string>, tracks: map<string, Track>) {
    forall k | k in order :: k in tracks
  }

  /** The first candidate of greatest similarity among the given keys. */
  ghost function BestKey(
      cfg: Config, tracks: map<string, Track>, order: seq<string>, p: PlateResult, nowMs: int): (r: Option<string>)
    requires KeysIn(order, tracks)
    ensures r.Some? ==> r.value in order && Candidate(cfg, p, nowMs, r.value, tracks[r.value])
    ensures forall k | k in order && Candidate(cfg, p, nowMs, k, tracks[k]) ::
      r.Some? && J.JaroWinkler(p.text, tracks[k].consensus) <= J.JaroWinkler(p.text, tracks[r.value].consensus)
  {
    if order == [] then None
    else
      var n := |order| - 1;
      assert order == order[..n] + [order[n]];
      var r := BestKey(cfg, tracks, order[..n], p, nowMs);
      var k := order[n];
      if Candidate(cfg, p, nowMs, k, tracks[k]) &&
         (r.None? || J.JaroWinkler(p.text, tracks[k].consensus) > J.JaroWinkler(p.text, tracks[r.value].consensus))
      then Some(k) else r
  }

  ghost function ResolveKey(cfg: Config, s: Store, p: PlateResult, nowMs: int): (r: (string, nat))
    requires KeysIn(s.order, s.tracks)
  {
    if p.trackId >= 0 then (TrackedKey(p.trackId), s.counter)
    else
      match BestKey(cfg, s.tracks, s.order, p, nowMs)
      case Some(k) => (k, s.counter)
      case None => (ClusterKey(p.gate, s.counter), s.counter + 1)
  }

  // ----- Eviction -----

  predicate Expired(cfg: Config, t: Track, nowMs: int) {
    t.lastUpdateMs > 0 && nowMs - t.lastUpdateMs > cfg.trackTtlMs
  }

  function Filter(order: seq<string>, keep: set<string>): (r: seq<string>)
    ensures forall k :: k in r <==> k in order && k in keep
  {
    if order == [] then []
    else
      var n := |order| - 1;
      assert order == order[..n] + [order[n]];
      if order[n] in keep then Filter(order[..n], keep) + [order[n]] else Filter(order[..n], keep)
  }

  ghost function Evict(cfg: Config, s: Store, nowMs: int): Store {
    if cfg.trackTtlMs <= 0 || nowMs <= 0 then s
    else
      var tracks := map k | k in s.tracks && !Expired(cfg, s.tracks[k], nowMs) :: s.tracks[k];
      s.(tracks := tracks, order := Filter(s.order, tracks.Keys))
  }

  // ----- One read -----

  function Size(p: PlateResult): (sz: real)
    ensures sz >= 1.0
  {
    var area := p.side * p.side;
    if area > 1.0 then area else 1.0
  }

  predicate Acceptable(cfg: Config, p: PlateResult) {
    p.text != "" && p.confidence >= cfg.minConfidence && cfg.validator(p.text)
  }

  ghost predicate Outlier(cfg: Config, p: PlateResult, t: Track) {
    p.trackId < 0 && t.votes != [] && !Joins(cfg, p.text, t.consensus)
  }

  function VoteOf(p: PlateResult): Vote { Vote(p.text, p.confidence * Size(p)) }

  /** The track after the read has been counted. */
  ghost function Counted(t: Track, p: PlateResult, nextId: nat): Track {
    var votes := t.votes + [VoteOf(p)];
    var larger := |votes| == 1 || Size(p) > t.bestSize;
    t.(votes := votes,
       lastUpdateMs := p.timestamp,
       best := if larger then p else t.best,
       bestSize := if larger then Size(p) else t.bestSize,
       passId := if t.passId == 0 then nextId else t.passId,
       consensus := Consensus(votes))
  }

  function Output(t: Track, p: PlateResult): PlateResult {
    t.best.(text := if t.consensus == "" then t.best.text else t.consensus,
            trackId := p.trackId, passId := t.passId, gate := p.gate)
  }

  function TrackAt(s: Store, key: string): Track {
    if key in s.tracks then s.tracks[key] else NEW_TRACK
  }

  function OrderWith(s: Store, key: string): seq<string> {
    if key in s.tracks then s.order else s.order + [key]
  }

  ghost predicate Distinct(order: seq<string>) {
    forall i, j | 0 <= i < j < |order| :: order[i] != order[j]
  }

  ghost predicate WellKeyed(s: Store) {
    (forall k :: k in s.order <==> k in s.tracks) && Distinct(s.order)
  }

  /** The read is counted on the track of its key. */
  ghost function CountOn(s: Store, key: string, p: PlateResult): (Store, Option<PlateResult>) {
    var t := TrackAt(s, key);
    var u := Counted(t, p, s.nextId);
    var nextId := if t.passId == 0 then s.nextId + 1 else s.nextId;
    if u.sent && u.consensus == u.lastSent then
      (Store(s.tracks[key := u], OrderWith(s, key), s.counter, nextId), None)
    else
      (Store(s.tracks[key := u.(sent := true, lastSent := u.consensus)], OrderWith(s, key), s.counter, nextId),
       Some(Output(u, p)))
  }

  lemma EvictKeepsWellKeyed(cfg: Config, s: Store, nowMs: int)
    requires WellKeyed(s)
    ensures WellKeyed(Evict(cfg, s, nowMs))
  {
    hide Distinct;
    if !(cfg.trackTtlMs <= 0 || nowMs <= 0) {
      FilterKeepsDistinct(s.order, Evict(cfg, s, nowMs).tracks.Keys);
    }
  }

  lemma {:induction false} FilterKeepsDistinct(order: seq<string>, keep: set<string>)
    requires Distinct(order)
    ensures Distinct(Filter(order, keep))
  {
    if order == [] {
    } else {
      var n := |order| - 1;
      FilterKeepsDistinct(order[..n], keep);
      assert forall j | 0 <= j < n :: order[..n][j] == order[j] && order[j] != order[n];
      assert order[n] !in order[..n];
      assert order[n] !in Filter(order[..n], keep);
    }
  }

  ghost function Process(cfg: Config, s: Store, p: PlateResult): (Store, Option<PlateResult>)
    requires WellKeyed(s)
  {
    if !Acceptable(cfg, p) then (s, None)
    else
      EvictKeepsWellKeyed(cfg, s, p.timestamp);
      var v := Evict(cfg, s, p.timestamp);
      var (key, counter) := ResolveKey(cfg, v, p, p.timestamp);
      var t := TrackAt(v, key);
      if Outlier(cfg, p, t) then (Store(v.tracks[key := t], OrderWith(v, key), counter, v.nextId), None)
      else CountOn(v.(counter := counter), key, p)
  }

  // ----- The class -----

  class PlateProcessor {
    var cfg: Config
    var tracks: map<string, Track>
    var order: seq<string>
    var untrackedCounter: nat
    var nextId: nat

    ghost function State(): Store
      reads this
    {
      Store(tracks, order, untrackedCounter, nextId)
    }

    ghost predicate Valid()
      reads this
    {
      WellKeyed(State())
    }

    constructor (cfg: Config)
      ensures Valid() && this.cfg == cfg && State() == EMPTY
    {
      this.cfg := cfg;
      tracks, order, untrackedCounter, nextId := map[], [], 0, 1;
    }

    static method SimilarPlates(a: string, b: string, maxDiffs: int) returns (r: bool)
      ensures r <==> PlateSimilar(a, b, maxDiffs)
    {
      if maxDiffs <= 0 || a == "" || |a| != |b| {
        return false;
      }
      var diffs := 0;
      for i := 0 to |a|
        invariant OnlyDigitsDiffer(a, b, i) && diffs == J.Differences(a, b, i) <= maxDiffs
      {
        if a[i] != b[i] {
          if !IsDigit(a[i]) || !IsDigit(b[i]) {
            return false;
          }
          diffs := diffs + 1;
          if diffs > maxDiffs {
            DifferencesGrow(a, b, i + 1, |a|);
            return false;
          }
        }
      }
      r := diffs > 0 && diffs <= maxDiffs;
    }

    static method WeightedConsensus(votes: seq<Vote>) returns (best: string)
      ensures best == Consensus(votes)
    {
      hide Tallied;
      var weight, texts := SumWeights(votes);
      best := PickHeaviest(votes, texts, weight);
    }

    /** First loop of `weightedConsensus`. */
    static method SumWeights(votes: seq<Vote>) returns (weight: map<string, real>, texts: seq<string>)
      ensures texts == Texts(votes) && Tallied(votes, texts, weight)
    {
      hide Tallied, Texts;
      weight, texts := map[], [];
      NothingTallied();
      for i := 0 to |votes|
        invariant texts == Texts(votes[..i]) && Tallied(votes[..i], texts, weight)
      {
        var v := votes[i];
        TallyNext(votes, i, texts, weight);
        if v.text in weight {
          weight := weight[v.text := weight[v.text] + v.weight];
        } else {
          texts := texts + [v.text];
          weight := weight[v.text := v.weight];
        }
      }
      assert votes[..|votes|] == votes;
    }

    /** Second loop of `weightedConsensus`. */
    static method PickHeaviest(votes: seq<Vote>, texts: seq<string>, weight: map<string, real>) returns (best: string)
      requires Tallied(votes, texts, weight)
      ensures best == Heaviest(votes, texts).text
    {
      best := "";
      var bestW := -1.0;
      for i := 0 to |texts|
        invariant Vote(best, bestW) == Heaviest(votes, texts[..i])
      {
        assert texts[..i + 1][..i] == texts[..i];
        assert texts[i] in texts;
        if weight[texts[i]] > bestW {
          best, bestW := texts[i], weight[texts[i]];
        }
      }
      assert texts[..|texts|] == texts;
    }

    method JoinsCluster(text: string, consensus: string) returns (s: real, qualifies: bool)
      ensures s == J.JaroWinkler(text, consensus)
      ensures qualifies <==> Joins(cfg, text, consensus)
    {
      s := J.JaroWinklerDistance(text, consensus);
      var similar := SimilarPlates(text, consensus, cfg.maxPlateCharDiffs);
      qualifies := s >= cfg.similarityThreshold || similar;
    }

    method ResolveKeyOf(p: PlateResult, nowMs: int) returns (key: string)
      requires Valid()
      modifies this`untrackedCounter
      ensures var (k, n) := ResolveKey(cfg, old(State()), p, nowMs); key == k && untrackedCounter == n
    {
      hide Joins, Distinct;
      if p.trackId >= 0 {
        return TrackedKey(p.trackId);
      }
      var bestKey: Option<string> := None;
      var bestSim := -1.0;
      for i := 0 to |order|
        invariant untrackedCounter == old(untrackedCounter)
        invariant bestKey == BestKey(cfg, tracks, order[..i], p, nowMs)
        invariant bestSim == match bestKey case None => -1.0 case Some(k) => J.JaroWinkler(p.text, tracks[k].consensus)
      {
        assert order[..i + 1][..i] == order[..i];
        var k := order[i];
        if Prefix(p.gate) <= k && !OtherPass(cfg, tracks[k], nowMs) {
          var s, qualifies := JoinsCluster(p.text, tracks[k].consensus);
          J.JaroWinklerBounds(p.text, tracks[k].consensus);
          if qualifies && s > bestSim {
            bestSim, bestKey := s, Some(k);
          }
        }
      }
      assert order[..|order|] == order;
      match bestKey
      case Some(k) =>
        key := k;
      case None =>
        key := ClusterKey(p.gate, untrackedCounter);
        untrackedCounter := untrackedCounter + 1;
    }

    method EvictStale(nowMs: int)
      requires Valid()
      modifies this`tracks, this`order
      ensures State() == Evict(cfg, old(State()), nowMs)
    {
      if cfg.trackTtlMs <= 0 || nowMs <= 0 {
        return;
      }
      hide Expired, Sweep, Survivors, Filter, Distinct;
      var keys := order;
      var kept: seq<string> := [];
      ghost var before := tracks;
      NothingVisited(cfg, before, nowMs);
      for i := 0 to |keys|
        invariant keys == old(order) && before == old(tracks)
        invariant tracks == Sweep(cfg, before, keys[..i], nowMs)
        invariant kept == Filter(keys[..i], Survivors(cfg, before, nowMs))
      {
        var k := keys[i];
        KeyIsUnvisited(keys, i);
        VisitOne(cfg, before, keys, i, nowMs);
        if Expired(cfg, tracks[k], nowMs) {
          tracks := map h | h in tracks && h != k :: tracks[h];
        } else {
          kept := kept + [k];
        }
      }
      assert keys[..|keys|] == keys;
      SweepAll(cfg, before, keys, nowMs);
      order := kept;
    }

    method CountRead(key: string, p: PlateResult) returns (out: Option<PlateResult>)
      modifies this`tracks, this`order, this`nextId
      ensures var (s, r) := CountOn(old(State()), key, p); State() == s && out == r
    {
      hide Consensus;
      var tr := if key in tracks then tracks[key] else NEW_TRACK;
      order := if key in tracks then order else order + [key];
      var sz := Size(p);
      tr := tr.(votes := tr.votes + [VoteOf(p)], lastUpdateMs := p.timestamp);
      if |tr.votes| == 1 || sz > tr.bestSize {
        tr := tr.(best := p, bestSize := sz);
      }
      if tr.passId == 0 {
        tr := tr.(passId := nextId);
        nextId := nextId + 1;
      }
      var consensus := WeightedConsensus(tr.votes);
      tr := tr.(consensus := consensus);
      if tr.sent && tr.consensus == tr.lastSent {
        tracks := tracks[key := tr];
        return None;
      }
      tr := tr.(sent := true, lastSent := tr.consensus);
      tracks := tracks[key := tr];
      out := Some(Output(tr, p));
    }

    method ProcessRead(p: PlateResult) returns (out: Option<PlateResult>)
      requires Valid()
      modifies this`tracks, this`order, this`untrackedCounter, this`nextId
      ensures var (s, r) := Process(cfg, old(State()), p); State() == s && out == r
    {
      hide Evict, ResolveKey, Joins, CountOn;
      if p.text == "" {
        return None;
      }
      if p.confidence < cfg.minConfidence {
        return None;
      }
      if !cfg.validator(p.text) {
        return None;
      }
      EvictKeepsWellKeyed(cfg, State(), p.timestamp);
      EvictStale(p.timestamp);
      var key := ResolveKeyOf(p, p.timestamp);
      var tr := if key in tracks then tracks[key] else NEW_TRACK;
      if p.trackId < 0 && tr.votes != [] {
        var s, qualifies := JoinsCluster(p.text, tr.consensus);
        if !qualifies {
          order := if key in tracks then order else order + [key];
          tracks := tracks[key := tr];
          return None;
        }
      }
      out := CountRead(key, p);
    }
  }

  /** The map holds the summed weight of every text voted for. */
  ghost predicate Tallied(votes: seq<Vote>, texts: seq<string>, weight: map<string, real>) {
    (forall t :: t in weight <==> t in texts) && forall t | t in weight :: weight[t] == WeightOf(votes, t)
  }

  lemma NothingTallied()
    ensures Texts([]) == [] && Tallied([], [], map[])
  {
  }

  lemma TallyNext(votes: seq<Vote>, i: nat, texts: seq<string>, weight: map<string, real>)
    requires i < |votes| && texts == Texts(votes[..i]) && Tallied(votes[..i], texts, weight)
    ensures var v := votes[i];
      if v.text in weight then
        Texts(votes[..i + 1]) == texts && Tallied(votes[..i + 1], texts, weight[v.text := weight[v.text] + v.weight])
      else
        Texts(votes[..i + 1]) == texts + [v.text] &&
        Tallied(votes[..i + 1], texts + [v.text], weight[v.text := v.weight])
  {
    hide Texts, WeightOf;
    var v := votes[i];
    NextText(votes, i);
    if v.text !in weight {
      Unseen(votes[..i], v.text);
    }
    forall t | t in texts || t == v.text
      ensures WeightOf(votes[..i + 1], t) == WeightOf(votes[..i], t) + if v.text == t then v.weight else 0.0
    {
      NextWeight(votes, i, t);
    }
  }

  lemma {:induction false} NextWeight(votes: seq<Vote>, i: nat, text: string)
    requires i < |votes|
    ensures WeightOf(votes[..i + 1], text) ==
      WeightOf(votes[..i], text) + if votes[i].text == text then votes[i].weight else 0.0
  {
    assert votes[..i + 1][..i] == votes[..i];
  }

  lemma NextText(votes: seq<Vote>, i: nat)
    requires i < |votes|
    ensures var texts := Texts(votes[..i]);
      Texts(votes[..i + 1]) == if votes[i].text in texts then texts else texts + [votes[i].text]
  {
    assert votes[..i + 1][..i] == votes[..i];
  }

  ghost function Survivors(cfg: Config, tracks: map<string, Track>, nowMs: int): set<string> {
    set k | k in tracks && !Expired(cfg, tracks[k], nowMs)
  }

  /** The tracks after the eviction loop has visited the keys in `done`. */
  ghost function Sweep(cfg: Config, tracks: map<string, Track>, done: seq<string>, nowMs: int): map<string, Track> {
    map k | k in tracks && !(k in done && Expired(cfg, tracks[k], nowMs)) :: tracks[k]
  }

  lemma SweepOne(cfg: Config, tracks: map<string, Track>, done: seq<string>, k: string, nowMs: int)
    requires k in tracks && k !in done
    ensures var before := Sweep(cfg, tracks, done, nowMs);
      k in before && before[k] == tracks[k] &&
      Sweep(cfg, tracks, done + [k], nowMs) ==
      if Expired(cfg, tracks[k], nowMs) then map h | h in before && h != k :: before[h] else before
  {
    hide Expired;
  }

  lemma KeyIsUnvisited(keys: seq<string>, i: nat)
    requires Distinct(keys) && i < |keys|
    ensures keys[i] !in keys[..i]
  {
  }

  lemma NothingVisited(cfg: Config, tracks: map<string, Track>, nowMs: int)
    ensures Sweep(cfg, tracks, [], nowMs) == tracks && Filter([], Survivors(cfg, tracks, nowMs)) == []
  {
  }

  lemma VisitOne(cfg: Config, tracks: map<string, Track>, keys: seq<string>, i: nat, nowMs: int)
    requires i < |keys| && keys[i] in tracks && keys[i] !in keys[..i]
    ensures var k := keys[i];
      var before, kept := Sweep(cfg, tracks, keys[..i], nowMs), Filter(keys[..i], Survivors(cfg, tracks, nowMs));
      var after, keeps := Sweep(cfg, tracks, keys[..i + 1], nowMs), Filter(keys[..i + 1], Survivors(cfg, tracks, nowMs));
      k in before && before[k] == tracks[k] &&
      if Expired(cfg, tracks[k], nowMs) then after == (map h | h in before && h != k :: before[h]) && keeps == kept
      else after == before && keeps == kept + [k]
  {
    hide Expired, Sweep;
    assert keys[..i + 1] == keys[..i] + [keys[i]] && keys[..i + 1][..i] == keys[..i];
    SweepOne(cfg, tracks, keys[..i], keys[i], nowMs);
  }

  lemma SweepAll(cfg: Config, tracks: map<string, Track>, keys: seq<string>, nowMs: int)
    requires forall k | k in tracks :: k in keys
    ensures Sweep(cfg, tracks, keys, nowMs) == map k | k in tracks && !Expired(cfg, tracks[k], nowMs) :: tracks[k]
    ensures Sweep(cfg, tracks, keys, nowMs).Keys == Survivors(cfg, tracks, nowMs)
  {
    hide Expired;
  }

  lemma {:induction false} DifferencesGrow(a: string, b: string, k: nat, n: nat)
    requires k <= n <= |a| == |b|
    ensures J.Differences(a, b, k) <= J.Differences(a, b, n)
  {
    if k == n {
    } else {
      DifferencesGrow(a, b, k, n - 1);
    }
  }

  lemma {:induction false} Unseen(votes: seq<Vote>, text: string)
    requires text !in Texts(votes)
    ensures WeightOf(votes, text) == 0.0
  {
    if votes == [] {
    } else {
      var n := |votes| - 1;
      assert votes[n] in votes;
      Unseen(votes[..n], text);
    }
  }
}
