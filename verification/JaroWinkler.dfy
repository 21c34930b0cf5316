/**
 Jaro and Jaro-Winkler similarity (src/util/JaroWinkler.cpp).

 A pairing maps positions of `a` to positions of `b`. The windowed scan of the source is the function
 `Greedy`; its partner is the set of all one-to-one pairings that respect the window, among which the
 scan is shown to be largest. Scores are real numbers.
 */
module JaroWinkler {
  import opened Numbers

  const THIRD: real := 1.0 / 3.0
  const PREFIX_SIZE := 4
  const SCALING_FACTOR: real := 0.1
  const BOOST_THRESHOLD: real := 0.7

  type Pairing = map<nat, nat>

  /** How far apart two matching characters may stand. */
  function Reach(a: string, b: string): nat {
    Max(0, Max(|a|, |b|) / 2 - 1)
  }

  ghost predicate Compatible(a: string, b: string, w: nat, i: int, j: int) {
    0 <= i < |a| && 0 <= j < |b| && i - w <= j <= i + w && a[i] == b[j]
  }

  ghost predicate OneToOne(m: Pairing) {
    forall i, k | i in m && k in m && i != k :: m[i] != m[k]
  }

  /** A one-to-one pairing of equal characters at most `w` positions apart. */
  ghost predicate IsMatching(a: string, b: string, w: nat, m: Pairing) {
    (forall i | i in m :: Compatible(a, b, w, i, m[i])) && OneToOne(m)
  }

  // ----- The windowed scan -----

  /** The first position of `b` at or after `j` that can take row `i`; |b| if there is none. */
  ghost function FirstFree(a: string, b: string, w: nat, i: nat, j: nat, taken: set<nat>): (r: nat)
    requires i < |a| && j <= |b|
    ensures j <= r <= |b|
    ensures r < |b| ==> Compatible(a, b, w, i, r) && r !in taken
    ensures forall k | j <= k < r :: !(Compatible(a, b, w, i, k) && k !in taken)
    decreases |b| - j
  {
    if j == |b| || (Compatible(a, b, w, i, j) && j !in taken) then j
    else FirstFree(a, b, w, i, j + 1, taken)
  }

  /** The pairing after the scan has handled the first `n` rows. */
  ghost function Greedy(a: string, b: string, w: nat, n: nat): (m: Pairing)
    requires n <= |a|
  {
    if n == 0 then map[]
    else
      var m := Greedy(a, b, w, n - 1);
      var j := FirstFree(a, b, w, n - 1, 0, m.Values);
      if j < |b| then m[n - 1 := j] else m
  }

  lemma {:induction false} GreedyIsMatching(a: string, b: string, w: nat, n: nat)
    requires n <= |a|
    ensures IsMatching(a, b, w, Greedy(a, b, w, n))
    ensures forall i | i in Greedy(a, b, w, n) :: i < n
  {
    if n == 0 {
    } else {
      GreedyIsMatching(a, b, w, n - 1);
    }
  }

  /** What the first loop of `jaroDistance` matches. */
  ghost function Scan(a: string, b: string): Pairing {
    Greedy(a, b, Reach(a, b), |a|)
  }

  ghost function MatchCount(a: string, b: string): nat {
    |Scan(a, b)|
  }

  ghost predicate AgreesBelow(m: Pairing, g: Pairing, n: nat) {
    forall i: nat | i < n :: (i in m <==> i in g) && (i in m ==> m[i] == g[i])
  }

  /** Two pairs may trade partners when the later row's partner comes first. */
  lemma Swap(a: string, b: string, w: nat, m: Pairing, n: nat, k: nat)
    requires IsMatching(a, b, w, m)
    requires n in m && k in m && n < k && m[k] < m[n]
    requires Compatible(a, b, w, n, m[k])
    ensures IsMatching(a, b, w, m[n := m[k]][k := m[n]])
  {
    assert Compatible(a, b, w, n, m[n]) && Compatible(a, b, w, k, m[k]);
    assert Compatible(a, b, w, k, m[n]);
  }

  ghost function Without(m: Pairing, k: nat): (r: Pairing)
    ensures r.Keys == m.Keys - {k}
  {
    map x | x in m && x != k :: m[x]
  }

  /** A row that gives up its pair hands its partner to another row. */
  lemma HandOver(a: string, b: string, w: nat, m: Pairing, n: nat, k: nat)
    requires IsMatching(a, b, w, m)
    requires n !in m && k in m && Compatible(a, b, w, n, m[k])
    ensures IsMatching(a, b, w, Without(m, k)[n := m[k]]) && |Without(m, k)[n := m[k]]| == |m|
  {
    var r := Without(m, k)[n := m[k]];
    assert r.Keys == m.Keys - {k} + {n};
    assert |r.Keys| == |m.Keys|;
  }

  /** A row may move to, or take, a partner that nobody else has. */
  lemma Take(a: string, b: string, w: nat, m: Pairing, n: nat, j: nat)
    requires IsMatching(a, b, w, m) && Compatible(a, b, w, n, j)
    requires forall k | k in m :: m[k] != j
    ensures IsMatching(a, b, w, m[n := j]) && |m[n := j]| >= |m|
  {
    assert m[n := j].Keys == m.Keys + {n};
  }

  /** Any matching that follows the scan on the first `n` rows can be made to follow it one row further,
      without losing a pair. */
  lemma Exchange(a: string, b: string, w: nat, n: nat, m: Pairing) returns (r: Pairing)
    requires n < |a|
    requires IsMatching(a, b, w, m) && AgreesBelow(m, Greedy(a, b, w, n), n)
    ensures IsMatching(a, b, w, r) && AgreesBelow(r, Greedy(a, b, w, n + 1), n + 1)
    ensures |r| >= |m|
  {
    var g := Greedy(a, b, w, n);
    var j := FirstFree(a, b, w, n, 0, g.Values);
    GreedyIsMatching(a, b, w, n);
    if n in m {
      PartnerIsFree(a, b, w, n, m, g);
    }
    if j == |b| {
      r := m;
    } else {
      if n in m && m[n] == j {
        r := m;
      } else {
        r := Redirect(a, b, w, n, m, g, j);
      }
      AgreeOneFurther(r, g, n, j);
    }
  }

  lemma AgreeOneFurther(m: Pairing, g: Pairing, n: nat, j: nat)
    requires AgreesBelow(m, g, n) && n in m && m[n] == j
    ensures AgreesBelow(m, g[n := j], n + 1)
  {
  }

  lemma Redirect(
      a: string, b: string, w: nat, n: nat, m: Pairing, g: Pairing, j: nat)
    returns (r: Pairing)
    requires IsMatching(a, b, w, m) && AgreesBelow(m, g, n)
    requires Compatible(a, b, w, n, j) && j !in g.Values
    requires n in m ==> j < m[n]
    ensures IsMatching(a, b, w, r) && AgreesBelow(r, g, n) && n in r && r[n] == j
    ensures |r| >= |m|
  {
    if k :| k in m && m[k] == j {
      assert forall x | x in g :: g[x] in g.Values;
      assert k >= n;
      if n in m {
        Swap(a, b, w, m, n, k);
        r := m[n := m[k]][k := m[n]];
        assert r.Keys == m.Keys;
      } else {
        HandOver(a, b, w, m, n, k);
        r := Without(m, k)[n := m[k]];
      }
    } else {
      Take(a, b, w, m, n, j);
      r := m[n := j];
    }
  }

  lemma {:induction false} PartnerIsFree(a: string, b: string, w: nat, n: nat, m: Pairing, g: Pairing)
    requires n < |a| && n in m && IsMatching(a, b, w, m)
    requires AgreesBelow(m, g, n) && forall i | i in g :: i < n
    ensures m[n] !in g.Values && FirstFree(a, b, w, n, 0, g.Values) <= m[n] < |b|
  {
    assert Compatible(a, b, w, n, m[n]);
    forall k | k in g ensures g[k] != m[n] { assert k in m && m[k] == g[k]; }
  }

  lemma {:induction false} FollowToTheEnd(a: string, b: string, w: nat, n: nat, m: Pairing)
    requires n <= |a|
    requires IsMatching(a, b, w, m) && AgreesBelow(m, Greedy(a, b, w, n), n)
    ensures |m| <= |Greedy(a, b, w, |a|)|
    decreases |a| - n
  {
    var g := Greedy(a, b, w, n);
    GreedyIsMatching(a, b, w, n);
    if n == |a| {
      forall i | i in m ensures i in g && m[i] == g[i] { assert Compatible(a, b, w, i, m[i]); }
      assert m.Keys == g.Keys;
    } else {
      var r := Exchange(a, b, w, n, m);
      FollowToTheEnd(a, b, w, n + 1, r);
    }
  }

  /** The scan finds a maximum matching. */
  lemma ScanIsMaximum(a: string, b: string, m: Pairing)
    requires IsMatching(a, b, Reach(a, b), m)
    ensures |m| <= MatchCount(a, b)
  {
    FollowToTheEnd(a, b, Reach(a, b), 0, m);
  }

  /** Sizes of finite sets are carried along one-to-one functions. */
  lemma ImageSize(m: Pairing, s: set<nat>, t: set<nat>)
    requires OneToOne(m) && s <= m.Keys
    requires forall i | i in s :: m[i] in t
    ensures |s| <= |t|
  {
    if s == {} {
    } else {
      var i :| i in s;
      ImageSize(m, s - {i}, t - {m[i]});
    }
  }

  ghost function Inverse(m: Pairing): Pairing
    requires OneToOne(m)
  {
    map j | j in m.Values :: var i :| i in m && m[i] == j; i
  }

  lemma InverseMatching(a: string, b: string, w: nat, m: Pairing)
    requires IsMatching(a, b, w, m)
    ensures IsMatching(b, a, w, Inverse(m)) && |Inverse(m)| == |m| == |m.Values|
  {
    var r := Inverse(m);
    assert r.Keys == m.Values;
    forall j | j in r ensures Compatible(b, a, w, j, r[j]) { assert Compatible(a, b, w, r[j], j); }
    ImageSize(m, m.Keys, m.Values);
    ImageSize(r, r.Keys, m.Keys);
  }

  lemma ScanIsMatching(a: string, b: string)
    ensures IsMatching(a, b, Reach(a, b), Scan(a, b))
    ensures forall i | i in Scan(a, b) :: i < |a| && Scan(a, b)[i] < |b| && a[i] == b[Scan(a, b)[i]]
    ensures |Scan(a, b).Values| == MatchCount(a, b)
  {
    GreedyIsMatching(a, b, Reach(a, b), |a|);
    forall i | i in Scan(a, b) ensures i < |a| && Scan(a, b)[i] < |b| && a[i] == b[Scan(a, b)[i]] {
      assert Compatible(a, b, Reach(a, b), i, Scan(a, b)[i]);
    }
    InverseMatching(a, b, Reach(a, b), Scan(a, b));
  }

  /** The number of matching characters does not depend on which string is scanned. */
  lemma MatchCountSymmetric(a: string, b: string)
    ensures MatchCount(a, b) == MatchCount(b, a)
  {
    var w := Reach(a, b);
    ScanIsMatching(a, b);
    ScanIsMatching(b, a);
    InverseMatching(a, b, w, Scan(a, b));
    ScanIsMaximum(b, a, Inverse(Scan(a, b)));
    InverseMatching(b, a, w, Scan(b, a));
    ScanIsMaximum(a, b, Inverse(Scan(b, a)));
  }

  lemma MatchCountBounds(a: string, b: string)
    ensures MatchCount(a, b) <= |a| && MatchCount(a, b) <= |b|
  {
    var g := Scan(a, b);
    ScanIsMatching(a, b);
    var id := map i | i in g :: i;
    ImageSize(id, g.Keys, IndexSet(|a|));
    ImageSize(g, g.Keys, IndexSet(|b|));
  }

  /** The positions below `n`. */
  ghost function IndexSet(n: nat): (s: set<nat>)
    ensures |s| == n
    ensures forall i: nat :: i in s <==> i < n
  {
    if n == 0 then {} else IndexSet(n - 1) + {n - 1}
  }

  /** Once a row has an empty window, so have all later rows: leaving the loop there misses no match. */
  lemma {:induction false} EmptyWindowEndsScan(a: string, b: string, w: nat, i: nat, n: nat)
    requires i <= n <= |a| && |b| > 0
    requires Max(i - w, 0) >= Min(i + w + 1, |b|)
    ensures Greedy(a, b, w, n) == Greedy(a, b, w, i)
  {
    if n == i {
    } else {
      EmptyWindowEndsScan(a, b, w, i, n - 1);
    }
  }

  // ----- Transpositions and the two scores -----

  /** The characters of the first `n` positions of `s` that are flagged in `keep`, in order. */
  ghost function Picked(s: string, keep: set<nat>, n: nat): (r: string)
    requires n <= |s|
  {
    if n == 0 then ""
    else if n - 1 in keep then Picked(s, keep, n - 1) + [s[n - 1]]
    else Picked(s, keep, n - 1)
  }

  lemma {:induction false} PickedSize(s: string, keep: set<nat>, n: nat)
    requires n <= |s|
    ensures |Picked(s, keep, n)| == |set i | i in keep && i < n|
  {
    if n > 0 {
      PickedSize(s, keep, n - 1);
      var before := set i | i in keep && i < n - 1;
      var after := set i | i in keep && i < n;
      assert after == if n - 1 in keep then before + {n - 1} else before;
    } else {
      assert (set i | i in keep && i < n) == {};
    }
  }

  lemma {:induction false} PickedGrows(s: string, keep: set<nat>, n: nat, k: nat)
    requires k <= n <= |s|
    ensures |Picked(s, keep, k)| <= |Picked(s, keep, n)|
  {
    if k == n {
    } else {
      PickedGrows(s, keep, n - 1, k);
    }
  }

  /** The number of positions below `n` at which two strings differ. */
  ghost function Differences(x: string, y: string, n: nat): (d: nat)
    requires n <= |x| && n <= |y|
    ensures d <= n
  {
    if n == 0 then 0 else Differences(x, y, n - 1) + (if x[n - 1] != y[n - 1] then 1 else 0)
  }

  ghost function MatchedA(a: string, b: string): string {
    Picked(a, Scan(a, b).Keys, |a|)
  }

  ghost function MatchedB(a: string, b: string): string {
    Picked(b, Scan(a, b).Values, |b|)
  }

  lemma MatchedSizes(a: string, b: string)
    ensures |MatchedA(a, b)| == |MatchedB(a, b)| == MatchCount(a, b)
  {
    var g := Scan(a, b);
    ScanIsMatching(a, b);
    PickedSize(a, g.Keys, |a|);
    PickedSize(b, g.Values, |b|);
    assert g.Keys == set i | i in g.Keys && i < |a|;
    assert g.Values == set i | i in g.Values && i < |b|;
  }

  ghost function Transpositions(a: string, b: string): (t: nat)
    ensures t <= MatchCount(a, b)
  {
    MatchedSizes(a, b);
    Differences(MatchedA(a, b), MatchedB(a, b), MatchCount(a, b))
  }

  function Score(m: nat, t: nat, la: nat, lb: nat): real
    requires m > 0 && la > 0 && lb > 0
  {
    THIRD * m as real / la as real + THIRD * m as real / lb as real
    + THIRD * (m - t / 2) as real / m as real
  }

  ghost function Jaro(a: string, b: string): real {
    if |a| == 0 || |b| == 0 || MatchCount(a, b) == 0 then 0.0
    else Score(MatchCount(a, b), Transpositions(a, b), |a|, |b|)
  }

  /** The length of the common prefix, at most `limit`, of two strings that agree on their first `k` characters. */
  ghost function PrefixFrom(a: string, b: string, k: nat, limit: nat): (p: nat)
    requires k <= limit && k <= |a| && k <= |b|
    requires forall i | 0 <= i < k :: a[i] == b[i]
    ensures k <= p <= limit && p <= |a| && p <= |b|
    ensures forall i | 0 <= i < p :: a[i] == b[i]
    ensures p < limit && p < |a| && p < |b| ==> a[p] != b[p]
    decreases limit - k
  {
    if k < limit && k < |a| && k < |b| && a[k] == b[k] then PrefixFrom(a, b, k + 1, limit) else k
  }

  ghost function CommonPrefix(a: string, b: string): nat {
    PrefixFrom(a, b, 0, PREFIX_SIZE)
  }

  function Boosted(d: real, p: nat): real {
    d + SCALING_FACTOR * p as real * (1.0 - d)
  }

  ghost function JaroWinkler(a: string, b: string): real {
    var d := Jaro(a, b);
    if d > BOOST_THRESHOLD then Boosted(d, CommonPrefix(a, b)) else d
  }

  // ----- What the scores promise -----

  lemma RatioRange(x: real, y: real)
    requires 0.0 <= x <= y && y > 0.0
    ensures 0.0 <= x / y <= 1.0
    ensures x / y == 1.0 <==> x == y
  {
  }

  lemma ThirdOf(x: real, y: real)
    requires y > 0.0
    ensures THIRD * x / y == THIRD * (x / y)
  {
  }

  lemma ScoreRange(m: nat, t: nat, la: nat, lb: nat)
    requires 0 < m && t <= m && m <= la && m <= lb
    ensures 0.0 <= Score(m, t, la, lb) <= 1.0
    ensures Score(m, t, la, lb) == 1.0 <==> m == la == lb && t <= 1
  {
    RatioRange(m as real, la as real);
    RatioRange(m as real, lb as real);
    RatioRange((m - t / 2) as real, m as real);
    ThirdOf(m as real, la as real);
    ThirdOf(m as real, lb as real);
    ThirdOf((m - t / 2) as real, m as real);
  }

  lemma BoostRange(d: real, p: nat)
    requires 0.0 <= d <= 1.0 && p <= PREFIX_SIZE
    ensures d <= Boosted(d, p) <= 1.0
    ensures Boosted(d, p) == 1.0 <==> d == 1.0
  {
    if p == 0 || p == 1 {
    } else if p == 2 || p == 3 {
    } else {
      assert p == 4;
    }
  }

  lemma JaroBounds(a: string, b: string)
    ensures 0.0 <= Jaro(a, b) <= 1.0
  {
    MatchCountBounds(a, b);
    if |a| > 0 && |b| > 0 && MatchCount(a, b) > 0 {
      ScoreRange(MatchCount(a, b), Transpositions(a, b), |a|, |b|);
    }
  }

  /** 0 <= jaro <= jaroWinkler <= 1. */
  lemma JaroWinklerBounds(a: string, b: string)
    ensures 0.0 <= Jaro(a, b) <= JaroWinkler(a, b) <= 1.0
  {
    JaroBounds(a, b);
    BoostRange(Jaro(a, b), CommonPrefix(a, b));
  }

  lemma {:induction false} PickedAll(s: string, keep: set<nat>, n: nat)
    requires n <= |s|
    requires forall i | 0 <= i < n :: i in keep
    ensures Picked(s, keep, n) == s[..n]
  {
    if n == 0 {
    } else {
      PickedAll(s, keep, n - 1);
    }
  }

  /** When every character is matched, every position of both strings is flagged. */
  lemma {:induction false} AllFlagged(a: string, b: string)
    requires MatchCount(a, b) == |a| == |b|
    ensures Scan(a, b).Keys == IndexSet(|a|) && Scan(a, b).Values == IndexSet(|b|)
  {
    var g := Scan(a, b);
    ScanIsMatching(a, b);
    SameSize(g.Keys, IndexSet(|a|));
    SameSize(g.Values, IndexSet(|b|));
  }

  lemma FullMatching(a: string, b: string)
    requires MatchCount(a, b) == |a| == |b|
    ensures MatchedA(a, b) == a && MatchedB(a, b) == b
  {
    AllFlagged(a, b);
    PickedAll(a, Scan(a, b).Keys, |a|);
    PickedAll(b, Scan(a, b).Values, |b|);
  }

  lemma SameSize(s: set<nat>, t: set<nat>)
    requires s <= t && |s| == |t|
    ensures s == t
  {
    assert t == s + (t - s);
    assert |t| == |s| + |t - s|;
  }

  lemma {:induction false} NoDifferenceSites(x: string, y: string, n: nat)
    requires n <= |x| && n <= |y| && Differences(x, y, n) == 0
    ensures x[..n] == y[..n]
  {
    if n == 0 {
    } else {
      NoDifferenceSites(x, y, n - 1);
      assert x[..n] == x[..n - 1] + [x[n - 1]];
      assert y[..n] == y[..n - 1] + [y[n - 1]];
    }
  }

  lemma {:induction false} DifferenceSites(x: string, y: string, n: nat)
    requires n <= |x| && n <= |y|
    ensures Differences(x, y, n) == 0 ==> x[..n] == y[..n]
    ensures Differences(x, y, n) == 1 ==> exists k: nat | k < n ::
      x[k] != y[k] && forall i | 0 <= i < n && i != k :: x[i] == y[i]
  {
    if Differences(x, y, n) == 0 {
      NoDifferenceSites(x, y, n);
    } else if Differences(x, y, n) == 1 {
      if x[n - 1] != y[n - 1] {
        NoDifferenceSites(x, y, n - 1);
        assert forall i | 0 <= i < n - 1 :: x[i] == x[..n - 1][i] && y[i] == y[..n - 1][i];
      } else {
        DifferenceSites(x, y, n - 1);
      }
    }
  }

  /** The positions below `n` at which `s` has the character `c`. */
  ghost function Sites(s: string, c: char, n: nat): (r: set<nat>)
    requires n <= |s|
    ensures forall i: nat :: i in r <==> i < n && s[i] == c
  {
    if n == 0 then {} else if s[n - 1] == c then Sites(s, c, n - 1) + {n - 1} else Sites(s, c, n - 1)
  }

  lemma {:induction false} OneMoreSite(a: string, b: string, k: nat, n: nat)
    requires n <= |a| && n <= |b| && k < n && a[k] != b[k]
    requires forall i | 0 <= i < n && i != k :: a[i] == b[i]
    ensures |Sites(a, a[k], n)| == |Sites(b, a[k], n)| + 1
  {
    assert Sites(a, a[k], n) == Sites(b, a[k], n) + {k};
  }

  /** A full matching cannot leave exactly one position different: the character that `a` has there would
      occur once more in `a` than in `b`. */
  lemma {:induction false} NoSingleDifference(a: string, b: string)
    requires MatchCount(a, b) == |a| == |b|
    ensures Differences(a, b, |a|) != 1
  {
    if Differences(a, b, |a|) == 1 {
      DifferenceSites(a, b, |a|);
      var k: nat :| k < |a| && a[k] != b[k] && forall i | 0 <= i < |a| && i != k :: a[i] == b[i];
      OneMoreSite(a, b, k, |a|);
      SitesMatch(a, b, a[k]);
      assert false;
    }
  }

  lemma {:induction false} SitesMatch(a: string, b: string, c: char)
    requires MatchCount(a, b) == |a| == |b|
    ensures |Sites(a, c, |a|)| <= |Sites(b, c, |b|)|
  {
    AllFlagged(a, b);
    ScanIsMatching(a, b);
    ImageSize(Scan(a, b), Sites(a, c, |a|), Sites(b, c, |b|));
  }

  lemma {:induction false} NoDifferences(x: string, n: nat)
    requires n <= |x|
    ensures Differences(x, x, n) == 0
  {
    if n == 0 {
    } else {
      NoDifferences(x, n - 1);
    }
  }

  lemma JaroOfEqual(a: string)
    requires a != ""
    ensures Jaro(a, a) == 1.0
  {
    var id := map i: nat | i in IndexSet(|a|) :: i;
    assert id.Keys == IndexSet(|a|);
    ScanIsMaximum(a, a, id);
    MatchCountBounds(a, a);
    FullMatching(a, a);
    NoDifferences(a, |a|);
    ScoreRange(MatchCount(a, a), Transpositions(a, a), |a|, |a|);
  }

  lemma JaroOneMeansEqual(a: string, b: string)
    requires Jaro(a, b) == 1.0
    ensures a == b && a != ""
  {
    MatchCountBounds(a, b);
    ScoreRange(MatchCount(a, b), Transpositions(a, b), |a|, |b|);
    FullMatching(a, b);
    NoSingleDifference(a, b);
    DifferenceSites(a, b, |a|);
    assert a[..|a|] == a && b[..|b|] == b;
  }

  /** The similarity is 1 for equal non-empty strings and for no others. */
  lemma JaroWinklerIsOne(a: string, b: string)
    ensures JaroWinkler(a, b) == 1.0 <==> a == b && a != ""
  {
    JaroBounds(a, b);
    BoostRange(Jaro(a, b), CommonPrefix(a, b));
    if a == b && a != "" {
      JaroOfEqual(a);
    }
    if Jaro(a, b) == 1.0 {
      JaroOneMeansEqual(a, b);
    }
  }

  // ----- The loops of the source -----

  method JaroDistance(a: string, b: string) returns (d: real)
    ensures d == Jaro(a, b)
  {
    var aLength, bLength := |a|, |b|;
    if aLength == 0 || bLength == 0 {
      return 0.0;
    }
    var maxRange := Max(0, Max(aLength, bLength) / 2 - 1);
    var aMatch, bMatch, matchingCharacters := FlagMatches(a, b, maxRange);
    if matchingCharacters == 0 {
      return 0.0;
    }
    ghost var g := Scan(a, b);
    MatchedSizes(a, b);
    var aPosition := CollectPositions(a, aMatch, matchingCharacters, g.Keys);
    var bPosition := CollectPositions(b, bMatch, matchingCharacters, g.Values);
    var transpositions := 0;
    for index := 0 to matchingCharacters
      invariant transpositions == Differences(MatchedA(a, b), MatchedB(a, b), index)
    {
      if a[aPosition[index]] != b[bPosition[index]] {
        transpositions := transpositions + 1;
      }
    }
    d := Score(matchingCharacters, transpositions, aLength, bLength);
  }

  ghost predicate Flags(f: seq<bool>, s: set<nat>) {
    forall i: nat | i < |f| :: f[i] <==> i in s
  }

  /** The flags and the count describe the scan of the first `n` rows. */
  ghost predicate Scanned(a: string, b: string, w: nat, n: nat, fa: seq<bool>, fb: seq<bool>, count: nat) {
    n <= |a| && count == |Greedy(a, b, w, n)| &&
    Flags(fa, Greedy(a, b, w, n).Keys) && Flags(fb, Greedy(a, b, w, n).Values)
  }

  lemma FlagOne(f: seq<bool>, s: set<nat>, i: nat)
    requires Flags(f, s) && i < |f|
    ensures Flags(f[i := true], s + {i})
  {
  }

  lemma {:induction false} NothingScanned(a: string, b: string, w: nat)
    ensures Greedy(a, b, w, 0) == map[]
  {
  }

  /** First loop of `jaroDistance`: the flags and the count are those of the scan. */
  method FlagMatches(a: string, b: string, maxRange: nat)
    returns (aMatch: array<bool>, bMatch: array<bool>, matchingCharacters: nat)
    requires |a| > 0 && |b| > 0
    ensures aMatch.Length == |a| && bMatch.Length == |b|
    ensures Scanned(a, b, maxRange, |a|, aMatch[..], bMatch[..], matchingCharacters)
  {
    hide Greedy, Compatible;
    NothingScanned(a, b, maxRange);
    aMatch := new bool[|a|](_ => false);
    bMatch := new bool[|b|](_ => false);
    matchingCharacters := 0;
    var aIndex := 0;
    while aIndex < |a|
      invariant 0 <= aIndex <= |a|
      invariant Scanned(a, b, maxRange, aIndex, aMatch[..], bMatch[..], matchingCharacters)
    {
      var minIndex := Max(aIndex - maxRange, 0);
      var maxIndex := Min(aIndex + maxRange + 1, |b|);
      if minIndex >= maxIndex {
        EmptyWindowEndsScan(a, b, maxRange, aIndex, |a|);
        break;
      }
      matchingCharacters :=
        ScanRow(a, b, maxRange, aIndex, minIndex, maxIndex, aMatch, bMatch, matchingCharacters);
      aIndex := aIndex + 1;
    }
  }

  /** One iteration of the scan. */
  method ScanRow(a: string, b: string, maxRange: nat, aIndex: nat, minIndex: nat, maxIndex: nat,
                 aMatch: array<bool>, bMatch: array<bool>, count: nat) returns (newCount: nat)
    requires aIndex < |a| && aMatch.Length == |a| && bMatch.Length == |b| && aMatch != bMatch
    requires minIndex == Max(aIndex - maxRange, 0) && maxIndex == Min(aIndex + maxRange + 1, |b|) && minIndex < maxIndex
    requires Scanned(a, b, maxRange, aIndex, aMatch[..], bMatch[..], count)
    modifies aMatch, bMatch
    ensures Scanned(a, b, maxRange, aIndex + 1, aMatch[..], bMatch[..], newCount)
  {
    ghost var g := Greedy(a, b, maxRange, aIndex);
    var bIndex := FindFree(a, b, maxRange, aIndex, minIndex, maxIndex, bMatch, g.Values);
    RowDone(a, b, maxRange, aIndex);
    newCount := count;
    if bIndex < maxIndex {
      FlagOne(aMatch[..], g.Keys, aIndex);
      FlagOne(bMatch[..], g.Values, bIndex);
      aMatch[aIndex] := true;
      bMatch[bIndex] := true;
      newCount := count + 1;
    }
  }

  /** Inner loop of the scan: the first unflagged equal character of the window, or the window's end. */
  method FindFree(a: string, b: string, maxRange: nat, aIndex: nat, minIndex: nat, maxIndex: nat,
                  bMatch: array<bool>, ghost taken: set<nat>) returns (bIndex: nat)
    requires aIndex < |a| && bMatch.Length == |b|
    requires minIndex == Max(aIndex - maxRange, 0) && maxIndex == Min(aIndex + maxRange + 1, |b|) && minIndex < maxIndex
    requires Flags(bMatch[..], taken)
    ensures FirstFree(a, b, maxRange, aIndex, 0, taken) == if bIndex < maxIndex then bIndex else |b|
  {
    bIndex := minIndex;
    while bIndex < maxIndex && !(!bMatch[bIndex] && a[aIndex] == b[bIndex])
      invariant minIndex <= bIndex <= maxIndex
      invariant forall k: nat | k < bIndex :: !(Compatible(a, b, maxRange, aIndex, k) && k !in taken)
    {
      bIndex := bIndex + 1;
    }
  }

  /** One row of the scan adds its pair, if it finds one, and nothing else. */
  lemma RowDone(a: string, b: string, w: nat, n: nat)
    requires n < |a|
    ensures var g, h := Greedy(a, b, w, n), Greedy(a, b, w, n + 1);
      var j := FirstFree(a, b, w, n, 0, g.Values);
      if j < |b| then h.Keys == g.Keys + {n} && h.Values == g.Values + {j} && |h| == |g| + 1 else h == g
  {
    var g := Greedy(a, b, w, n);
    var j := FirstFree(a, b, w, n, 0, g.Values);
    GreedyIsMatching(a, b, w, n);
    SizeAndValuesAfterUpdate(g, n, j);
  }

  lemma SizeAndValuesAfterUpdate(m: Pairing, i: nat, j: nat)
    requires i !in m
    ensures m[i := j].Keys == m.Keys + {i} && m[i := j].Values == m.Values + {j} && |m[i := j]| == |m| + 1
  {
    var r := m[i := j];
    assert r.Keys == m.Keys + {i};
    assert r[i] == j;
    forall v | v in m.Values ensures v in r.Values {
      var k :| k in m && m[k] == v;
      assert r[k] == v;
    }
  }

  /** Second and third loops of `jaroDistance`: the flagged positions in ascending order. */
  method CollectPositions(s: string, flags: array<bool>, count: nat, ghost keep: set<nat>) returns (positions: array<int>)
    requires flags.Length == |s|
    requires Flags(flags[..], keep)
    requires |Picked(s, keep, |s|)| == count
    ensures positions.Length == count
    ensures forall p | 0 <= p < count :: 0 <= positions[p] < |s| && s[positions[p]] == Picked(s, keep, |s|)[p]
    ensures forall p, q | 0 <= p < q < count :: positions[p] < positions[q]
  {
    positions := new int[count];
    var positionIndex := 0;
    for index := 0 to |s|
      invariant 0 <= positionIndex == |Picked(s, keep, index)| <= count
      invariant forall p | 0 <= p < positionIndex ::
          0 <= positions[p] < index && s[positions[p]] == Picked(s, keep, index)[p]
      invariant forall p, q | 0 <= p < q < positionIndex :: positions[p] < positions[q]
    {
      if flags[index] {
        PickedGrows(s, keep, |s|, index + 1);
        positions[positionIndex] := index;
        positionIndex := positionIndex + 1;
      }
    }
  }

  method JaroWinklerDistance(a: string, b: string) returns (distance: real)
    ensures distance == JaroWinkler(a, b)
  {
    distance := JaroDistance(a, b);
    if distance > BOOST_THRESHOLD {
      var commonPrefix := CountCommonPrefix(a, b);
      distance := Boosted(distance, commonPrefix);
    }
  }

  /** The loop of `jaroWinklerDistance`. */
  method CountCommonPrefix(a: string, b: string) returns (commonPrefix: nat)
    ensures commonPrefix == CommonPrefix(a, b)
  {
    commonPrefix := 0;
    var indexEnd := Min(Min(|a|, |b|), PREFIX_SIZE);
    while commonPrefix < indexEnd && a[commonPrefix] == b[commonPrefix]
      invariant 0 <= commonPrefix <= indexEnd
      invariant forall i | 0 <= i < commonPrefix :: a[i] == b[i]
      invariant PrefixFrom(a, b, commonPrefix, PREFIX_SIZE) == CommonPrefix(a, b)
    {
      commonPrefix := commonPrefix + 1;
    }
  }
}
