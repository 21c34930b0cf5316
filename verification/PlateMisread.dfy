/**
 Which reads count as one vehicle (src/process/PlateProcessor.cpp:32-43, 58-92, 106-115): texts alike enough, or alike but for a
 few misread digits, at one gate and soon after each other. And what becomes of two reads in a row.
 */
module PlateMisread {
  import opened Numbers
  import opened Plates
  import opened PlateProcessor
  import opened PlateVoting
  import J = JaroWinkler

  // ----- Misread digits -----

  ghost function Places(a: string, b: string, n: nat): set<nat>
    requires n <= |a| && n <= |b|
  {
    set i: nat | i < n && a[i] != b[i]
  }

  /** Texts of one length that differ in at least one and at most `maxDiffs` places, and there in digits only. */
  ghost predicate Misread(a: string, b: string, maxDiffs: int) {
    |a| == |b| && 1 <= |Places(a, b, |a|)| <= maxDiffs &&
    forall i | 0 <= i < |a| && a[i] != b[i] :: '0' <= a[i] <= '9' && '0' <= b[i] <= '9'
  }

  lemma {:induction false} PlacesCounted(a: string, b: string, n: nat)
    requires n <= |a| && n <= |b|
    ensures J.Differences(a, b, n) == |Places(a, b, n)|
  {
    if n == 0 {
      assert Places(a, b, 0) == {};
    } else {
      PlacesCounted(a, b, n - 1);
      assert Places(a, b, n) == Places(a, b, n - 1) + if a[n - 1] != b[n - 1] then {n - 1} else {};
    }
  }

  /** Alike: by similarity, or but for misread digits. */
  ghost predicate Alike(cfg: Config, a: string, b: string) {
    J.JaroWinkler(a, b) >= cfg.similarityThreshold || Misread(a, b, cfg.maxPlateCharDiffs)
  }

  lemma JoinsMeansAlike(cfg: Config, a: string, b: string)
    ensures Joins(cfg, a, b) <==> Alike(cfg, a, b)
  {
    hide J.JaroWinkler, J.Differences;
    if |a| == |b| {
      PlacesCounted(a, b, |a|);
      if a == "" {
        assert Places(a, b, 0) == {};
      }
    }
  }

  lemma LetterIsNoMisread(a: string, b: string, maxDiffs: int, i: nat)
    requires i < |a| && i < |b| && a[i] != b[i] && !('0' <= a[i] <= '9' && '0' <= b[i] <= '9')
    ensures !Misread(a, b, maxDiffs)
  {
    hide Places;
  }

  // ----- Where a read goes -----

  /** The last read of the track is not too long ago for it to be kept. */
  predicate Young(cfg: Config, t: Track, nowMs: int) {
    !(cfg.trackTtlMs > 0 && nowMs > 0 && t.lastUpdateMs > 0 && nowMs - t.lastUpdateMs > cfg.trackTtlMs)
  }

  /** Nor for it to be of the same pass. */
  predicate Live(cfg: Config, t: Track, nowMs: int) {
    Young(cfg, t, nowMs) &&
    !(cfg.passGapMs > 0 && nowMs > 0 && t.lastUpdateMs > 0 && nowMs - t.lastUpdateMs > cfg.passGapMs)
  }

  /** A cluster that the read belongs to. */
  ghost predicate Fits(cfg: Config, s: Store, p: PlateResult, key: string) {
    key in s.tracks && "g:" + p.gate + "#" <= key && Live(cfg, s.tracks[key], p.timestamp) &&
    Alike(cfg, p.text, s.tracks[key].consensus)
  }

  /** Good enough to be counted. */
  predicate Counts(cfg: Config, p: PlateResult) {
    p.text != "" && p.confidence >= cfg.minConfidence && cfg.validator(p.text)
  }

  /** The area of the plate, which counts as at least 1. */
  function Area(p: PlateResult): real {
    if p.side * p.side > 1.0 then p.side * p.side else 1.0
  }

  function Weight(p: PlateResult): real { p.confidence * Area(p) }

  ghost predicate GoesTo(s: Store, u: Store, p: PlateResult, key: string) {
    key in s.tracks && key in u.tracks && u.tracks[key].votes == s.tracks[key].votes + [Vote(p.text, Weight(p))] &&
    u.tracks[key].passId == s.tracks[key].passId && u.tracks.Keys <= s.tracks.Keys &&
    u.counter == s.counter && u.nextId == s.nextId
  }

  ghost predicate Opens(s: Store, u: Store, p: PlateResult) {
    var key := "g:" + p.gate + "#" + Decimal(s.counter);
    key !in s.tracks && key in u.tracks && u.tracks[key].votes == [Vote(p.text, Weight(p))] &&
    u.tracks[key].passId == s.nextId && u.counter == s.counter + 1 && u.nextId == s.nextId + 1
  }

  lemma EvictedAreLive(cfg: Config, s: Store, nowMs: int, key: string)
    ensures var v := Evict(cfg, s, nowMs);
      key in v.tracks && !OtherPass(cfg, v.tracks[key], nowMs) <==> key in s.tracks && Live(cfg, s.tracks[key], nowMs)
    ensures var v := Evict(cfg, s, nowMs);
      v.tracks.Keys <= s.tracks.Keys && (key in v.tracks ==> v.tracks[key] == s.tracks[key]) &&
      v.counter == s.counter && v.nextId == s.nextId
  {
  }

  lemma CandidatesFit(cfg: Config, s: Store, p: PlateResult, key: string)
    ensures var v := Evict(cfg, s, p.timestamp);
      key in v.tracks && Candidate(cfg, p, p.timestamp, key, v.tracks[key]) <==> Fits(cfg, s, p, key)
  {
    hide Joins, Alike, Evict, Live, OtherPass;
    EvictedAreLive(cfg, s, p.timestamp, key);
    if key in s.tracks {
      JoinsMeansAlike(cfg, p.text, s.tracks[key].consensus);
    }
  }

  lemma VoteMeans(p: PlateResult)
    ensures VoteOf(p) == Vote(p.text, Weight(p))
  {
    hide Area, Size;
    AreaIsSize(p);
  }

  lemma AreaIsSize(p: PlateResult)
    ensures Size(p) == Area(p)
  {
  }

  lemma ResolvedFits(cfg: Config, s: Store, p: PlateResult)
    requires Inv(cfg, s) && p.trackId < 0
    ensures var (v, key) := Target(cfg, s, p);
      if exists k :: Fits(cfg, s, p, k) then
        Fits(cfg, s, p, key) && key in v.tracks && v.counter == s.counter
      else key == ClusterKey(p.gate, s.counter) && key !in s.tracks && v.counter == s.counter + 1
  {
    hide Fits, Candidate, Evict, ClusterKey, WellKeyed, ValidTrack, DistinctIds;
    EvictKeepsInv(cfg, s, p.timestamp);
    var e := Evict(cfg, s, p.timestamp);
    EvictedAreLive(cfg, s, p.timestamp, "");
    KeysAreOrdered(e);
    forall k ensures k in e.tracks && Candidate(cfg, p, p.timestamp, k, e.tracks[k]) <==> Fits(cfg, s, p, k) {
      CandidatesFit(cfg, s, p, k);
    }
  }

  lemma KeysAreOrdered(s: Store)
    requires WellKeyed(s)
    ensures forall k :: k in s.order <==> k in s.tracks
  {
  }

  lemma CountedForm(s: Store, key: string, p: PlateResult)
    ensures var u := CountOn(s, key, p).0;
      key in u.tracks && u.counter == s.counter && u.tracks.Keys == s.tracks.Keys + {key} &&
      u.tracks[key].votes == TrackAt(s, key).votes + [VoteOf(p)] &&
      u.tracks[key].passId == (if TrackAt(s, key).passId == 0 then s.nextId else TrackAt(s, key).passId) &&
      u.nextId == if TrackAt(s, key).passId == 0 then s.nextId + 1 else s.nextId
  {
    hide Consensus, VoteOf, Size;
  }

  /** An untracked read that counts goes to a cluster it fits, if there is one; otherwise, and only then, it opens a cluster
      with a new pass id. */
  lemma JoinsExactly(cfg: Config, s: Store, p: PlateResult)
    requires Inv(cfg, s) && Counts(cfg, p) && p.trackId < 0
    ensures var u := Process(cfg, s, p).0;
      if exists k :: Fits(cfg, s, p, k) then exists k :: Fits(cfg, s, p, k) && GoesTo(s, u, p, k)
      else Opens(s, u, p)
  {
    hide Fits, Evict, ResolveKey, Process, WellKeyed, ValidTrack, DistinctIds, Counted, NumberedBelow, Weight;
    ResolvedFits(cfg, s, p);
    EveryReadCounts(cfg, s, p);
    EvictedAreLive(cfg, s, p.timestamp, Target(cfg, s, p).1);
    VoteMeans(p);
    var (v, key) := Target(cfg, s, p);
    CountedForm(v, key, p);
    if exists k :: Fits(cfg, s, p, k) {
      FitsIsIn(cfg, s, p, key);
      assert GoesTo(s, Process(cfg, s, p).0, p, key);
    }
  }

  lemma FitsIsIn(cfg: Config, s: Store, p: PlateResult, key: string)
    requires Inv(cfg, s) && Fits(cfg, s, p, key)
    ensures key in s.tracks && s.tracks[key].passId != 0
  {
  }

  /** Other reads leave no trace. */
  lemma OthersLeaveNoTrace(cfg: Config, s: Store, p: PlateResult)
    requires WellKeyed(s) && !Counts(cfg, p)
    ensures Process(cfg, s, p) == (s, None)
  {
    UnacceptableChangesNothing(cfg, s, p);
  }

  /** A read of a tracked vehicle goes to the track of its number, whatever its text, and different numbers have different
      tracks. */
  lemma {:induction false} TrackedGoesToItsTrack(cfg: Config, s: Store, p: PlateResult, other: nat)
    requires Inv(cfg, s) && Counts(cfg, p) && p.trackId >= 0
    ensures var key, u := "t:" + Decimal(p.trackId), Process(cfg, s, p).0;
      var known := key in s.tracks && Young(cfg, s.tracks[key], p.timestamp);
      key in u.tracks && u.counter == s.counter &&
      u.tracks[key].votes == (if known then s.tracks[key].votes else []) + [Vote(p.text, Weight(p))] &&
      u.tracks[key].passId == (if known then s.tracks[key].passId else s.nextId) &&
      (other != p.trackId ==> "t:" + Decimal(other) != key)
  {
    hide Evict, ResolveKey, Process, WellKeyed, ValidTrack, DistinctIds, Counted, NumberedBelow, Weight;
    EveryReadCounts(cfg, s, p);
    VoteMeans(p);
    TrackedTarget(cfg, s, p);
    var (v, key) := Target(cfg, s, p);
    CountedForm(v, key, p);
    KnownHasId(cfg, s, key);
    NumbersDiffer(p.trackId, other);
  }

  lemma TrackedTarget(cfg: Config, s: Store, p: PlateResult)
    requires Inv(cfg, s) && p.trackId >= 0
    ensures var (v, key) := Target(cfg, s, p);
      key == "t:" + Decimal(p.trackId) && v.counter == s.counter && v.nextId == s.nextId &&
      (key in v.tracks <==> key in s.tracks && Young(cfg, s.tracks[key], p.timestamp)) &&
      (key in v.tracks ==> v.tracks[key] == s.tracks[key])
  {
    hide WellKeyed, ValidTrack, DistinctIds, NumberedBelow, Decimal;
  }

  lemma KnownHasId(cfg: Config, s: Store, key: string)
    requires Inv(cfg, s)
    ensures key in s.tracks ==> s.tracks[key].passId != 0
  {
  }

  lemma {:induction false} NumbersDiffer(m: nat, n: nat)
    ensures m != n ==> "t:" + Decimal(m) != "t:" + Decimal(n)
  {
    DecimalReads(m);
    DecimalReads(n);
    assert ("t:" + Decimal(m))[2..] == Decimal(m) && ("t:" + Decimal(n))[2..] == Decimal(n);
  }

  // ----- Two reads in a row -----

  lemma VoteOfTwo(x: string, y: string, a: real, b: real)
    requires x != "" && y != "" && x != y && a >= 0.0 && b >= 0.0
    ensures Consensus([Vote(x, a), Vote(y, b)]) == if b > a then y else x
  {
    var one, votes := [Vote(x, a)], [Vote(x, a), Vote(y, b)];
    assert votes[..1] == one && one[..0] == [] && Texts([]) == [];
    assert Texts(one) == [x] && Texts(votes) == [x, y];
    assert [x, y][..1] == [x] && [x][..0] == [];
    assert WeightOf(one, x) == a && WeightOf(one, y) == 0.0;
    assert WeightOf(votes, x) == a && WeightOf(votes, y) == b;
    assert Heaviest(votes, [x]) == Vote(x, a);
  }

  /** Two reads of different texts at one gate, the second soon after the first, in a processor that has seen nothing. */
  ghost predicate InARow(cfg: Config, p: PlateResult, q: PlateResult) {
    Counts(cfg, p) && Counts(cfg, q) && cfg.minConfidence >= 0.0 && p.trackId < 0 && q.trackId < 0 && p.text != q.text &&
    q.gate == p.gate && (cfg.passGapMs > 0 ==> q.timestamp - p.timestamp <= cfg.passGapMs) &&
    (cfg.trackTtlMs > 0 ==> q.timestamp - p.timestamp <= cfg.trackTtlMs)
  }

  /** After the first read. */
  ghost predicate OneTrack(s: Store, p: PlateResult) {
    var key := "g:" + p.gate + "#" + Decimal(0);
    s.tracks.Keys == {key} && s.counter == 1 && s.nextId == 2 &&
    var t := s.tracks[key];
    t.votes == [Vote(p.text, Weight(p))] && t.consensus == p.text && t.lastSent == p.text && t.sent && t.passId == 1 &&
    t.lastUpdateMs == p.timestamp
  }

  lemma WeightNotNegative(p: PlateResult)
    requires p.confidence >= 0.0
    ensures Weight(p) >= 0.0
  {
    AreaIsSize(p);
    ProductNotNegative(p.confidence, Size(p));
  }

  lemma VoteOfOne(x: string, a: real)
    requires x != "" && a >= 0.0
    ensures Consensus([Vote(x, a)]) == x
  {
    hide Consensus;
    ConsensusWins([Vote(x, a)], x);
  }

  lemma StartHasInv(cfg: Config)
    ensures Inv(cfg, EMPTY)
  {
  }

  lemma FirstOpens(cfg: Config, p: PlateResult)
    requires Counts(cfg, p) && cfg.minConfidence >= 0.0 && p.trackId < 0
    ensures Inv(cfg, EMPTY)
    ensures var (s, out) := Process(cfg, EMPTY, p);
      OneTrack(s, p) && out.Some? && out.value.text == p.text && out.value.passId == 1
  {
    hide Consensus, Joins, Decimal, Weight;
    StartHasInv(cfg);
    VoteMeans(p);
    WeightNotNegative(p);
    VoteOfOne(p.text, Weight(p));
    assert [] + [Vote(p.text, Weight(p))] == [Vote(p.text, Weight(p))];
  }

  lemma OnlyClusterFits(cfg: Config, s: Store, p: PlateResult, q: PlateResult)
    requires InARow(cfg, p, q) && OneTrack(s, p)
    ensures var key := "g:" + p.gate + "#" + Decimal(0);
      (Fits(cfg, s, q, key) <==> Alike(cfg, q.text, p.text)) && forall k :: Fits(cfg, s, q, k) ==> k == key
  {
    hide Alike, Decimal;
    var key := "g:" + p.gate + "#" + Decimal(0);
    assert "g:" + q.gate + "#" <= key;
  }

  lemma SecondTarget(cfg: Config, s: Store, p: PlateResult, q: PlateResult)
    requires InARow(cfg, p, q) && OneTrack(s, p) && Inv(cfg, s)
    ensures var (v, key) := Target(cfg, s, q);
      v.nextId == 2 &&
      if Alike(cfg, q.text, p.text) then
        key == "g:" + p.gate + "#" + Decimal(0) && key in s.tracks && key in v.tracks && v.tracks[key] == s.tracks[key]
      else key !in v.tracks
  {
    hide Alike, Decimal, Fits, Evict, ResolveKey, ClusterKey, Inv;
    InvIsKeyed(cfg, s);
    OnlyClusterFits(cfg, s, p, q);
    ResolvedFits(cfg, s, q);
    var (v, key) := Target(cfg, s, q);
    EvictedAreLive(cfg, s, q.timestamp, key);
  }

  lemma Recounted(s: Store, key: string, p: PlateResult, q: PlateResult)
    requires key in s.tracks && p.text != "" && q.text != "" && p.text != q.text && Weight(p) >= 0.0 && Weight(q) >= 0.0
    requires var t := s.tracks[key];
      t.votes == [Vote(p.text, Weight(p))] && t.lastSent == p.text && t.sent && t.passId == 1
    ensures var (u, out) := CountOn(s, key, q);
      u.tracks[key].passId == 1 && (out.Some? <==> Weight(q) > Weight(p)) &&
      (out.Some? ==> out.value.text == q.text && out.value.passId == 1)
  {
    hide Consensus, Weight;
    VoteMeans(q);
    VoteOfTwo(p.text, q.text, Weight(p), Weight(q));
    assert [Vote(p.text, Weight(p))] + [Vote(q.text, Weight(q))] == [Vote(p.text, Weight(p)), Vote(q.text, Weight(q))];
  }

  lemma NewlyCounted(s: Store, key: string, q: PlateResult)
    requires key !in s.tracks && q.text != "" && Weight(q) >= 0.0
    ensures var (u, out) := CountOn(s, key, q);
      key in u.tracks && u.tracks[key].passId == s.nextId &&
      out.Some? && out.value.text == q.text && out.value.passId == s.nextId
  {
    hide Consensus, Weight;
    VoteMeans(q);
    VoteOfOne(q.text, Weight(q));
    assert [] + [Vote(q.text, Weight(q))] == [Vote(q.text, Weight(q))];
  }

  /** Two reads of different texts in a row are one vehicle exactly if the texts are alike: then the second is sent, under the
      same id, exactly if it outweighs the first; otherwise it is sent under an id of its own. */
  lemma TwoReads(cfg: Config, p: PlateResult, q: PlateResult)
    requires InARow(cfg, p, q)
    ensures Inv(cfg, EMPTY)
    ensures var (s, first) := Process(cfg, EMPTY, p);
      WellKeyed(s) && first.Some? && first.value.text == p.text && first.value.passId == 1 &&
      var second := Process(cfg, s, q).1;
      if Alike(cfg, q.text, p.text) then
        (second.Some? <==> Weight(q) > Weight(p)) &&
        (second.Some? ==> second.value.text == q.text && second.value.passId == 1)
      else second.Some? && second.value.text == q.text && second.value.passId == 2
  {
    hide Process, CountOn, Alike, Target, Inv, WellKeyed, Weight, Decimal;
    FirstOpens(cfg, p);
    InvIsKeyed(cfg, EMPTY);
    ProcessKeepsInv(cfg, EMPTY, p);
    var s := Process(cfg, EMPTY, p).0;
    InvIsKeyed(cfg, s);
    SecondTarget(cfg, s, p, q);
    EveryReadCounts(cfg, s, q);
    WeightNotNegative(p);
    WeightNotNegative(q);
    var (v, key) := Target(cfg, s, q);
    if Alike(cfg, q.text, p.text) {
      Recounted(v, key, p, q);
    } else {
      NewlyCounted(v, key, q);
    }
  }

  lemma InvIsKeyed(cfg: Config, s: Store)
    requires Inv(cfg, s)
    ensures WellKeyed(s)
  {
  }

  /** So misread digits never make a second vehicle, and a letter that differs does unless the texts are similar enough. */
  lemma MisreadsAreOneVehicle(cfg: Config, p: PlateResult, q: PlateResult)
    requires InARow(cfg, p, q)
    ensures Inv(cfg, EMPTY) && WellKeyed(Process(cfg, EMPTY, p).0)
    ensures var second := Process(cfg, Process(cfg, EMPTY, p).0, q).1;
      (Misread(q.text, p.text, cfg.maxPlateCharDiffs) ==>
         (second.Some? <==> Weight(q) > Weight(p)) && (second.Some? ==> second.value.passId == 1)) &&
      ((exists i :: 0 <= i < |q.text| && i < |p.text| && q.text[i] != p.text[i] && !('0' <= q.text[i] <= '9')) &&
       J.JaroWinkler(q.text, p.text) < cfg.similarityThreshold ==>
         second.Some? && second.value.passId == 2)
  {
    hide Process, Misread, J.JaroWinkler, Inv, WellKeyed, Weight;
    TwoReads(cfg, p, q);
    if i :| 0 <= i < |q.text| && i < |p.text| && q.text[i] != p.text[i] && !('0' <= q.text[i] <= '9') {
      LetterIsNoMisread(q.text, p.text, cfg.maxPlateCharDiffs, i);
    }
  }
}
