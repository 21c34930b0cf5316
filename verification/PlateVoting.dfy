/**
 What the plate processor promises over whole runs (the comments of src/process/PlateProcessor.cpp): every valid read
 is counted, the vote is a text really read, a pass is emitted at once and again exactly when its vote changes, and
 eviction cannot be noticed by untracked plates.
 */
module PlateVoting {
  import opened Numbers
  import opened Plates
  import opened PlateProcessor

  // ----- The vote -----

  ghost predicate Weighty(votes: seq<Vote>) {
    forall i | 0 <= i < |votes| :: votes[i].weight >= 0.0 && votes[i].text != ""
  }

  lemma {:induction false} WeightsAreNotNegative(votes: seq<Vote>, text: string)
    requires Weighty(votes)
    ensures WeightOf(votes, text) >= 0.0
  {
    if votes == [] {
    } else {
      WeightsAreNotNegative(votes[..|votes| - 1], text);
    }
  }

  /** The consensus is a text really read, and no text has a larger summed weight. */
  lemma {:induction false} ConsensusWins(votes: seq<Vote>, text: string)
    requires votes != [] && Weighty(votes)
    ensures exists i :: 0 <= i < |votes| && votes[i].text == Consensus(votes)
    ensures WeightOf(votes, text) <= WeightOf(votes, Consensus(votes))
    ensures Consensus(votes) != ""
  {
    var texts := Texts(votes);
    assert votes[0] in votes;
    WeightsAreNotNegative(votes, votes[0].text);
    var r := Heaviest(votes, texts);
    assert r.weight >= 0.0;
    if text !in texts {
      Unseen(votes, text);
    }
  }

  lemma ProductNotNegative(x: real, y: real)
    requires x >= 0.0 && y >= 0.0
    ensures x * y >= 0.0
  {
  }

  // ----- Fresh keys -----

  lemma HashInside(k: string, d: string, e: string)
    requires |d| < |e| <= |k| && k[|k| - |d| - 1] == '#' && k[|k| - |e|..] == e
    ensures '#' in e
  {
    assert e[|e| - |d| - 1] == '#';
  }

  /** Two cluster keys are equal only if they carry the same number, whatever '#' the gate names contain. */
  lemma ClusterKeysDiffer(g: string, m: nat, h: string, n: nat)
    requires ClusterKey(g, m) == ClusterKey(h, n)
    ensures m == n
  {
    var k := ClusterKey(g, m);
    var d, e := Decimal(m), Decimal(n);
    assert k[|k| - |d|..] == d && k[|k| - |e|..] == e;
    assert k[|k| - |d| - 1] == '#' && k[|k| - |e| - 1] == '#';
    if |d| < |e| {
      HashInside(k, d, e);
    }
    if |e| < |d| {
      HashInside(k, e, d);
    }
    DecimalReads(m);
    DecimalReads(n);
  }

  /** Whose clusters a read may join: those of its own gate, and, should a gate's name go on with '#' where its own ends,
      those of that gate as well. */
  lemma PrefixMatches(gate: string, other: string, n: nat)
    ensures Prefix(gate) <= ClusterKey(other, n) <==> other == gate || gate + "#" <= other
  {
    var p, k, d := Prefix(gate), ClusterKey(other, n), Decimal(n);
    assert k == "g:" + other + "#" + d && p == "g:" + gate + "#";
    assert forall i | 0 <= i < |other| :: k[2 + i] == other[i];
    assert forall i | 0 <= i < |gate| :: p[2 + i] == gate[i];
    assert k[2 + |other|] == '#' && p[2 + |gate|] == '#';
    assert forall i | 0 <= i < |d| :: k[3 + |other| + i] == d[i] && d[i] in d;
    if p <= k {
      assert forall i | 0 <= i < |p| :: p[i] == k[i];
      assert |gate| <= |other|;
      if |gate| < |other| {
        assert gate + "#" == other[..|gate| + 1];
      } else {
        assert gate == other;
      }
    }
  }

  // ----- The invariant of every run -----

  ghost predicate ValidTrack(cfg: Config, t: Track, nextId: nat) {
    t.votes != [] && t.sent && t.consensus == Consensus(t.votes) && 0 < t.passId < nextId &&
    (cfg.minConfidence >= 0.0 ==> Weighty(t.votes))
  }

  /** Cluster keys in use carry numbers below the counter. */
  ghost predicate NumberedBelow(tracks: map<string, Track>, counter: nat) {
    forall gate: string, n: nat | ClusterKey(gate, n) in tracks :: n < counter
  }

  ghost predicate DistinctIds(tracks: map<string, Track>) {
    forall k, l | k in tracks && l in tracks && k != l :: tracks[k].passId != tracks[l].passId
  }

  ghost predicate Inv(cfg: Config, s: Store) {
    WellKeyed(s) && s.nextId >= 1 && NumberedBelow(s.tracks, s.counter) && DistinctIds(s.tracks) &&
    forall k | k in s.tracks :: ValidTrack(cfg, s.tracks[k], s.nextId)
  }

  lemma EvictKeepsInv(cfg: Config, s: Store, nowMs: int)
    requires Inv(cfg, s)
    ensures Inv(cfg, Evict(cfg, s, nowMs))
  {
    hide ClusterKey, ValidTrack, WellKeyed, Expired;
    EvictKeepsWellKeyed(cfg, s, nowMs);
    assert forall k | k in Evict(cfg, s, nowMs).tracks :: k in s.tracks && Evict(cfg, s, nowMs).tracks[k] == s.tracks[k];
  }

  /** The store in which an acceptable read is counted, and its key. */
  ghost function Target(cfg: Config, s: Store, p: PlateResult): (r: (Store, string))
    requires WellKeyed(s)
  {
    EvictKeepsWellKeyed(cfg, s, p.timestamp);
    var v := Evict(cfg, s, p.timestamp);
    var (key, counter) := ResolveKey(cfg, v, p, p.timestamp);
    (v.(counter := counter), key)
  }

  /** The key of an untracked read is new or belongs to a cluster the read joins. */
  lemma KeyIsNewOrJoined(cfg: Config, s: Store, p: PlateResult, nowMs: int)
    requires WellKeyed(s) && NumberedBelow(s.tracks, s.counter) && p.trackId < 0
    ensures var (key, counter) := ResolveKey(cfg, s, p, nowMs);
      (key in s.tracks && counter == s.counter && Joins(cfg, p.text, s.tracks[key].consensus)) ||
      (key !in s.tracks && counter == s.counter + 1 && key == ClusterKey(p.gate, s.counter))
  {
    hide ClusterKey, Joins, Distinct;
  }

  /** No acceptable read is rejected as an outlier: it is always counted on the track of its key. */
  lemma EveryReadCounts(cfg: Config, s: Store, p: PlateResult)
    requires Inv(cfg, s) && Acceptable(cfg, p)
    ensures var (v, key) := Target(cfg, s, p); Process(cfg, s, p) == CountOn(v, key, p)
    ensures var (v, key) := Target(cfg, s, p);
      Process(cfg, s, p).0.tracks.Keys == v.tracks.Keys + {key} &&
      Process(cfg, s, p).0.tracks[key].votes == TrackAt(v, key).votes + [VoteOf(p)] &&
      forall k | k in v.tracks && k != key :: Process(cfg, s, p).0.tracks[k] == v.tracks[k]
  {
    hide Evict, ResolveKey, Joins, WellKeyed, Consensus;
    EvictKeepsInv(cfg, s, p.timestamp);
    var v := Evict(cfg, s, p.timestamp);
    if p.trackId < 0 {
      KeyIsNewOrJoined(cfg, v, p, p.timestamp);
    }
  }

  // ----- What is emitted -----

  /** A new track emits its first read; an old one emits exactly when the vote has left the text last sent. */
  lemma EmitsOnChange(cfg: Config, s: Store, p: PlateResult)
    requires Inv(cfg, s) && Acceptable(cfg, p)
    ensures var (v, key) := Target(cfg, s, p);
      Process(cfg, s, p).1.Some? <==>
        key !in v.tracks || Consensus(v.tracks[key].votes + [VoteOf(p)]) != v.tracks[key].lastSent
    ensures var (v, key) := Target(cfg, s, p);
      var out := Process(cfg, s, p).1;
      (out.Some? && key !in v.tracks ==> out.value.text == p.text) &&
      (out.Some? && cfg.minConfidence >= 0.0 ==> out.value.text == Consensus(TrackAt(v, key).votes + [VoteOf(p)]))
  {
    hide Evict, ResolveKey, Joins, WellKeyed, Consensus, Process, ClusterKey;
    EveryReadCounts(cfg, s, p);
    EvictKeepsInv(cfg, s, p.timestamp);
    var (v, key) := Target(cfg, s, p);
    if key !in v.tracks {
      SingleVote(VoteOf(p));
    }
    if cfg.minConfidence >= 0.0 {
      VotesStayWeighty(cfg, TrackAt(v, key), p, v.nextId);
      ConsensusWins(TrackAt(v, key).votes + [VoteOf(p)], p.text);
    }
  }

  /** The consensus of a single vote is its text, or nothing if its weight is hopeless. */
  lemma SingleVote(v: Vote)
    ensures Consensus([] + [v]) in {v.text, ""}
  {
    var votes := [] + [v];
    var texts := Texts(votes);
    var r := Heaviest(votes, texts);
    if r != Vote("", -1.0) {
      assert r.text in texts;
    }
  }

  lemma VotesStayWeighty(cfg: Config, t: Track, p: PlateResult, nextId: nat)
    requires t.votes == [] || ValidTrack(cfg, t, nextId)
    requires Acceptable(cfg, p) && cfg.minConfidence >= 0.0
    ensures Weighty(t.votes + [VoteOf(p)])
  {
    hide Consensus;
    ProductNotNegative(p.confidence, Size(p));
  }

  lemma CountKeepsIds(cfg: Config, s: Store, key: string, p: PlateResult)
    requires Inv(cfg, s)
    ensures DistinctIds(CountOn(s, key, p).0.tracks)
  {
    hide Consensus, ClusterKey, NumberedBelow, WellKeyed, OrderWith;
  }

  lemma CountKeepsInv(cfg: Config, s: Store, key: string, p: PlateResult)
    requires Inv(cfg, s) && Acceptable(cfg, p)
    ensures var v := CountOn(s, key, p).0;
      WellKeyed(v) && v.nextId >= 1 && DistinctIds(v.tracks) &&
      forall k | k in v.tracks :: ValidTrack(cfg, v.tracks[k], v.nextId)
  {
    hide Consensus, ClusterKey, NumberedBelow, Distinct, Weighty, DistinctIds;
    CountKeepsIds(cfg, s, key, p);
    var t := TrackAt(s, key);
    assert t.votes == [] ==> t == NEW_TRACK;
    if cfg.minConfidence >= 0.0 {
      VotesStayWeighty(cfg, t, p, s.nextId);
    }
    KeyAdded(s, key);
  }

  lemma KeyAdded(s: Store, key: string)
    requires WellKeyed(s)
    ensures Distinct(OrderWith(s, key)) && forall k :: k in OrderWith(s, key) <==> k in s.tracks || k == key
  {
    if key !in s.tracks {
      assert forall i | 0 <= i < |s.order| :: s.order[i] in s.order;
    }
  }

  lemma ProcessKeepsInv(cfg: Config, s: Store, p: PlateResult)
    requires Inv(cfg, s)
    ensures Inv(cfg, Process(cfg, s, p).0)
  {
    hide Evict, ResolveKey, Joins, WellKeyed, CountOn, Process, ClusterKey, DistinctIds, ValidTrack;
    if Acceptable(cfg, p) {
      EveryReadCounts(cfg, s, p);
      EvictKeepsInv(cfg, s, p.timestamp);
      var (v, key) := Target(cfg, s, p);
      TargetNumbered(cfg, s, p);
      CountKeepsInv(cfg, v, key, p);
      CountKeys(v, key, p);
    } else {
      UnacceptableChangesNothing(cfg, s, p);
    }
  }

  lemma CountKeys(s: Store, key: string, p: PlateResult)
    ensures CountOn(s, key, p).0.tracks.Keys == s.tracks.Keys + {key} && CountOn(s, key, p).0.counter == s.counter
  {
    hide Counted;
  }

  lemma UnacceptableChangesNothing(cfg: Config, s: Store, p: PlateResult)
    requires WellKeyed(s) && !Acceptable(cfg, p)
    ensures Process(cfg, s, p) == (s, None)
  {
  }

  lemma TargetNumbered(cfg: Config, s: Store, p: PlateResult)
    requires Inv(cfg, s)
    ensures var (v, key) := Target(cfg, s, p);
      Inv(cfg, v) && forall gate: string, n: nat | ClusterKey(gate, n) in v.tracks.Keys + {key} :: n < v.counter
  {
    hide Evict, ResolveKey, Joins, Distinct, ClusterKey, DistinctIds, ValidTrack;
    EvictKeepsInv(cfg, s, p.timestamp);
    var e := Evict(cfg, s, p.timestamp);
    var (v, key) := Target(cfg, s, p);
    if p.trackId >= 0 {
      TrackedIsNoCluster(cfg, e, p);
    } else {
      KeyIsNewOrJoined(cfg, e, p, p.timestamp);
    }
    forall gate: string, n: nat | ClusterKey(gate, n) in v.tracks.Keys + {key} ensures n < v.counter {
      if p.trackId < 0 && ClusterKey(gate, n) == key && key !in e.tracks {
        ClusterKeysDiffer(gate, n, p.gate, e.counter);
      }
    }
  }

  lemma TrackedIsNoCluster(cfg: Config, s: Store, p: PlateResult)
    requires WellKeyed(s) && p.trackId >= 0
    ensures var (key, counter) := ResolveKey(cfg, s, p, p.timestamp);
      counter == s.counter && forall gate: string, n: nat :: key != ClusterKey(gate, n)
  {
    assert TrackedKey(p.trackId)[0] == 't';
    assert forall gate: string, n: nat :: ClusterKey(gate, n)[0] == 'g';
  }

  // ----- Whole runs -----

  ghost function Run(cfg: Config, plates: seq<PlateResult>): (r: (Store, seq<PlateResult>))
    ensures Inv(cfg, r.0)
  {
    if plates == [] then (EMPTY, [])
    else
      var n := |plates| - 1;
      var (s, log) := Run(cfg, plates[..n]);
      ProcessKeepsInv(cfg, s, plates[n]);
      var (u, out) := Process(cfg, s, plates[n]);
      (u, if out.Some? then log + [out.value] else log)
  }

  /** The text last emitted with a pass id. */
  ghost function LastText(log: seq<PlateResult>, id: nat): (r: Option<string>)
    ensures r.None? ==> forall i | 0 <= i < |log| :: log[i].passId != id
  {
    if log == [] then None
    else if log[|log| - 1].passId == id then Some(log[|log| - 1].text)
    else LastText(log[..|log| - 1], id)
  }

  /** Every output has a text of its own pass that differs from the one last emitted for that pass. */
  ghost predicate NewsOnly(log: seq<PlateResult>) {
    log == [] ||
    (NewsOnly(log[..|log| - 1]) &&
     LastText(log[..|log| - 1], log[|log| - 1].passId) != Some(log[|log| - 1].text))
  }

  lemma {:induction false} LogAppend(log: seq<PlateResult>, out: PlateResult, id: nat)
    ensures LastText(log + [out], id) == if out.passId == id then Some(out.text) else LastText(log, id)
    ensures NewsOnly(log + [out]) == (NewsOnly(log) && LastText(log, out.passId) != Some(out.text))
  {
    assert (log + [out])[..|log + [out]| - 1] == log;
  }

  /** The log agrees with what each live track remembers to have sent, and holds only ids already drawn. */
  ghost predicate Remembered(s: Store, log: seq<PlateResult>) {
    (forall k | k in s.tracks :: LastText(log, s.tracks[k].passId) == Some(s.tracks[k].lastSent)) &&
    forall i | 0 <= i < |log| :: log[i].passId < s.nextId
  }

  lemma {:induction false} UnusedId(log: seq<PlateResult>, id: nat)
    requires forall i | 0 <= i < |log| :: log[i].passId < id
    ensures LastText(log, id).None?
  {
    if log == [] {
    } else {
      UnusedId(log[..|log| - 1], id);
    }
  }

  lemma CountRemembers(cfg: Config, s: Store, key: string, p: PlateResult, log: seq<PlateResult>)
    requires Inv(cfg, s) && Acceptable(cfg, p) && cfg.minConfidence >= 0.0
    requires Remembered(s, log) && NewsOnly(log)
    ensures var (u, out) := CountOn(s, key, p);
      var after := if out.Some? then log + [out.value] else log;
      Remembered(u, after) && NewsOnly(after)
  {
    hide Consensus, ClusterKey, NumberedBelow, NewsOnly, LastText, WellKeyed;
    var t := TrackAt(s, key);
    var (u, out) := CountOn(s, key, p);
    VotesStayWeighty(cfg, t, p, s.nextId);
    ConsensusWins(t.votes + [VoteOf(p)], p.text);
    UnusedId(log, s.nextId);
    if out.Some? {
      forall k | k in u.tracks ensures LastText(log + [out.value], u.tracks[k].passId) == Some(u.tracks[k].lastSent) {
        LogAppend(log, out.value, u.tracks[k].passId);
      }
      LogAppend(log, out.value, 0);
    }
  }

  /** Over every run, a pass is emitted again only with a text that differs from the one last emitted for it. */
  lemma {:induction false} RunsTellOnlyNews(cfg: Config, plates: seq<PlateResult>)
    requires cfg.minConfidence >= 0.0
    ensures Remembered(Run(cfg, plates).0, Run(cfg, plates).1) && NewsOnly(Run(cfg, plates).1)
  {
    hide Process, CountOn, Evict, ResolveKey, NewsOnly, LastText, Inv;
    if plates != [] {
      var n := |plates| - 1;
      var (s, log) := Run(cfg, plates[..n]);
      RunsTellOnlyNews(cfg, plates[..n]);
      StepTellsOnlyNews(cfg, s, plates[n], log);
    } else {
      NoNewsYet();
    }
  }

  lemma NoNewsYet()
    ensures NewsOnly([])
  {
  }

  lemma StepTellsOnlyNews(cfg: Config, s: Store, p: PlateResult, log: seq<PlateResult>)
    requires Inv(cfg, s) && cfg.minConfidence >= 0.0 && Remembered(s, log) && NewsOnly(log)
    ensures var (u, out) := Process(cfg, s, p);
      var after := if out.Some? then log + [out.value] else log;
      Remembered(u, after) && NewsOnly(after)
  {
    hide Process, CountOn, ResolveKey, NewsOnly, LastText, Expired;
    if Acceptable(cfg, p) {
      EveryReadCounts(cfg, s, p);
      TargetNumbered(cfg, s, p);
      var (v, key) := Target(cfg, s, p);
      CountRemembers(cfg, v, key, p, log);
    } else {
      UnacceptableChangesNothing(cfg, s, p);
    }
  }
}
