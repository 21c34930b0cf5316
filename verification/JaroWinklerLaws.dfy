/**
 The similarity of src/util/JaroWinkler.cpp in plain terms: how far apart matching characters may stand (lines 24-56), and the
 exact score of strings that differ by an exchange of two neighbours or by what follows one of them.
 */
module JaroWinklerLaws {
  import opened JaroWinkler

  // ----- The window -----

  /** Half the longer length less one, but not below zero: the characters may stand this far apart. */
  predicate Near(a: string, b: string, i: int, j: int) {
    var longer := if |a| >= |b| then |a| else |b|;
    var distance := if i >= j then i - j else j - i;
    distance == 0 || distance <= longer / 2 - 1
  }

  /** The characters at the two places are equal and near each other. */
  predicate MayMatch(a: string, b: string, i: int, j: int) {
    0 <= i < |a| && 0 <= j < |b| && a[i] == b[j] && Near(a, b, i, j)
  }

  ghost predicate Pairs(a: string, b: string, m: Pairing) {
    (forall i | i in m :: MayMatch(a, b, i, m[i])) && (forall i, k | i in m && k in m && i != k :: m[i] != m[k])
  }

  lemma PairsAreMatchings(a: string, b: string, m: Pairing)
    ensures Pairs(a, b, m) <==> IsMatching(a, b, Reach(a, b), m)
  {
    forall i | i in m ensures MayMatch(a, b, i, m[i]) <==> Compatible(a, b, Reach(a, b), i, m[i]) {
    }
  }

  /** The count is the size of the largest set of pairs, each place used once, of equal characters that near: the scan's pairs
      are such a set, and none is larger. */
  lemma LargestPairing(a: string, b: string, m: Pairing)
    ensures Pairs(a, b, Scan(a, b)) && |Scan(a, b)| == MatchCount(a, b)
    ensures Pairs(a, b, m) ==> |m| <= MatchCount(a, b)
  {
    PairsAreMatchings(a, b, m);
    PairsAreMatchings(a, b, Scan(a, b));
    ScanIsMatching(a, b);
    if Pairs(a, b, m) {
      ScanIsMaximum(a, b, m);
    }
  }

  lemma SomePair(a: string, b: string, m: Pairing)
    requires Pairs(a, b, m) && m != map[]
    ensures exists i, j :: MayMatch(a, b, i, j)
  {
    var i :| i in m;
    assert MayMatch(a, b, i, m[i]);
  }

  /** Nothing matches, and the score is 0, exactly if no two equal characters are that near. */
  lemma NothingMatches(a: string, b: string)
    ensures Jaro(a, b) == 0.0 <==> forall i, j :: !MayMatch(a, b, i, j)
  {
    var g := Scan(a, b);
    LargestPairing(a, b, g);
    if i, j :| MayMatch(a, b, i, j) {
      LargestPairing(a, b, map[i := j]);
      assert |map[i := j]| == 1;
      MatchCountBounds(a, b);
      PositiveScore(MatchCount(a, b), Transpositions(a, b), |a|, |b|);
    } else if g != map[] {
      SomePair(a, b, g);
    }
  }

  lemma PositiveScore(m: nat, t: nat, la: nat, lb: nat)
    requires 0 < m && t <= m && la > 0 && lb > 0
    ensures Score(m, t, la, lb) > 0.0
  {
    Fraction(m, la);
    Fraction(m, lb);
    Fraction(m - t / 2, m);
  }

  lemma Fraction(x: nat, y: nat)
    requires y > 0
    ensures THIRD * x as real / y as real >= 0.0 && (x > 0 ==> THIRD * x as real / y as real > 0.0)
  {
    ThirdOf(x as real, y as real);
  }

  // ----- Two neighbours exchanged -----

  /** The same text but for two neighbours. */
  predicate Exchanged(x: string, y: string, k: nat) {
    |x| == |y| && k + 1 < |x| && x[k] != x[k + 1] && y[k] == x[k + 1] && y[k + 1] == x[k] &&
    forall i | 0 <= i < |x| && i != k && i != k + 1 :: x[i] == y[i]
  }

  /** Every place with the place of its character in the other text. */
  ghost function Crossing(n: nat, k: nat): (m: Pairing)
    ensures m.Keys == IndexSet(n) && |m| == n
  {
    var m: Pairing := map i: nat | i in IndexSet(n) :: if i == k then k + 1 else if i == k + 1 then k else i;
    assert m.Keys == IndexSet(n);
    assert |m| == |m.Keys|;
    m
  }

  lemma CrossingPairs(x: string, y: string, k: nat)
    requires Exchanged(x, y, k) && |x| >= 4
    ensures Pairs(x, y, Crossing(|x|, k))
  {
    var m := Crossing(|x|, k);
    forall i | i in m ensures MayMatch(x, y, i, m[i]) {
      assert i < |x|;
    }
  }

  lemma ExchangedAllMatch(x: string, y: string, k: nat)
    requires Exchanged(x, y, k) && |x| >= 4
    ensures MatchCount(x, y) == |x|
  {
    hide Crossing, Pairs, MatchCount, Exchanged;
    CrossingPairs(x, y, k);
    LargestPairing(x, y, Crossing(|x|, k));
    MatchCountBounds(x, y);
  }

  lemma {:induction false} TwoDifferences(x: string, y: string, k: nat, n: nat)
    requires Exchanged(x, y, k) && n <= |x|
    ensures Differences(x, y, n) == if n <= k then 0 else if n == k + 1 then 1 else 2
  {
    if n == 0 {
    } else {
      TwoDifferences(x, y, k, n - 1);
    }
  }

  lemma ThirdsOf(n: nat)
    requires n >= 2
    ensures Score(n, 2, n, n) == 1.0 - 1.0 / (3 * n) as real
  {
    var r := n as real;
    assert THIRD * r / r == THIRD;
    ThirdOf((n - 1) as real, r);
    assert (r - 1.0) / r == 1.0 - 1.0 / r;
    ThirdOfInverse(n);
  }

  lemma ThirdOfInverse(n: nat)
    requires n >= 1
    ensures THIRD * (1.0 / n as real) == 1.0 / (3 * n) as real
  {
    var q := 1.0 / n as real;
    assert q * n as real == 1.0;
    assert (THIRD * q) * (3.0 * n as real) == 1.0;
    assert (3 * n) as real == 3.0 * n as real;
  }

  lemma {:induction false} PrefixOfExchanged(x: string, y: string, k: nat)
    requires Exchanged(x, y, k)
    ensures CommonPrefix(x, y) == if k < 4 then k else 4
  {
    hide PrefixFrom;
    if CommonPrefix(x, y) > k {
      assert false;
    }
  }

  /** Exchanging two different neighbours, as in "MARTHA" and "MARHTA", costs exactly this much: a third of one part in the
      length, less a tenth of that for each of up to four characters in front. */
  lemma ExchangeScore(x: string, y: string, k: nat)
    requires Exchanged(x, y, k) && |x| >= 4
    ensures Jaro(x, y) == 1.0 - 1.0 / (3 * |x|) as real
    ensures JaroWinkler.JaroWinkler(x, y) == 1.0 - (1.0 - 0.1 * (if k < 4 then k else 4) as real) / (3 * |x|) as real
  {
    hide Score, MatchCount, MatchedA, MatchedB;
    ExchangedAllMatch(x, y, k);
    FullMatching(x, y);
    TwoDifferences(x, y, k, |x|);
    ThirdsOf(|x|);
    PrefixOfExchanged(x, y, k);
    BoostOfExchange(|x|, if k < 4 then k else 4);
  }

  lemma BoostOfExchange(n: nat, p: nat)
    requires n >= 4 && p <= 4
    ensures var d := 1.0 - 1.0 / (3 * n) as real;
      d > BOOST_THRESHOLD && Boosted(d, p) == 1.0 - (1.0 - 0.1 * p as real) / (3 * n) as real
  {
    var r := (3 * n) as real;
    var q := 1.0 / r;
    assert q * r == 1.0;
    assert q <= 1.0 / 12.0 by {
      assert r >= 12.0;
    }
    assert (1.0 - 0.1 * p as real) / r == (1.0 - 0.1 * p as real) * q;
  }

  // ----- One text goes on where the other ends -----

  ghost function Identity(n: nat): (m: Pairing)
    ensures m.Keys == IndexSet(n) && m.Values == IndexSet(n) && |m| == n
  {
    var m: Pairing := map i: nat | i in IndexSet(n) :: i;
    assert m.Keys == IndexSet(n) && forall i | i in m :: m[i] == i;
    assert forall i | i in IndexSet(n) :: i in m && m[i] in m.Values;
    assert m.Values == IndexSet(n);
    assert |m| == |m.Keys|;
    m
  }

  lemma IdentityNext(n: nat)
    ensures Identity(n)[n := n] == Identity(n + 1)
  {
    assert IndexSet(n + 1) == IndexSet(n) + {n};
  }

  lemma NextRow(a: string, b: string, w: nat, n: nat, m: Pairing, j: nat)
    requires n < |a| && Greedy(a, b, w, n) == m && FirstFree(a, b, w, n, 0, m.Values) == j
    ensures Greedy(a, b, w, n + 1) == if j < |b| then m[n := j] else m
  {
    hide FirstFree;
  }

  lemma {:induction false} OwnPlaceIsFirst(a: string, b: string, w: nat, i: nat)
    requires i < |a| && i < |b| && a[i] == b[i]
    ensures FirstFree(a, b, w, i, 0, IndexSet(i)) == i
  {
    hide FirstFree;
    assert Compatible(a, b, w, i, i);
  }

  lemma {:induction false} NoneFree(a: string, b: string, w: nat, i: nat)
    requires i < |a|
    ensures FirstFree(a, b, w, i, 0, IndexSet(|b|)) == |b|
  {
    hide FirstFree, Compatible;
    if FirstFree(a, b, w, i, 0, IndexSet(|b|)) < |b| {
      assert false;
    }
  }

  lemma OwnRow(a: string, b: string, w: nat, n: nat)
    requires n < |a| && n < |b| && a[n] == b[n] && Greedy(a, b, w, n) == Identity(n)
    ensures Greedy(a, b, w, n + 1) == Identity(n + 1)
  {
    hide Greedy, FirstFree, IndexSet, Compatible;
    OwnPlaceIsFirst(a, b, w, n);
    NextRow(a, b, w, n, Identity(n), n);
    IdentityNext(n);
  }

  lemma SkippedRow(a: string, b: string, w: nat, n: nat)
    requires n < |a| && Greedy(a, b, w, n) == Identity(|b|)
    ensures Greedy(a, b, w, n + 1) == Identity(|b|)
  {
    hide Greedy, FirstFree, IndexSet, Compatible;
    NoneFree(a, b, w, n);
    NextRow(a, b, w, n, Identity(|b|), |b|);
  }

  /** As long as they agree, each place is matched with itself. */
  lemma {:induction false} PrefixScan(a: string, b: string, w: nat, n: nat)
    requires n <= |a| && n <= |b| && forall i | 0 <= i < n :: a[i] == b[i]
    ensures Greedy(a, b, w, n) == Identity(n)
  {
    if n == 0 {
      assert Identity(0) == map[];
    } else {
      PrefixScan(a, b, w, n - 1);
      OwnRow(a, b, w, n - 1);
    }
  }

  lemma {:induction false} NothingLeft(x: string, y: string, w: nat, n: nat)
    requires x <= y && |x| <= n <= |y|
    ensures Greedy(y, x, w, n) == Identity(|x|)
  {
    hide Greedy, Identity, IndexSet;
    if n == |x| {
      PrefixScan(y, x, w, |x|);
    } else {
      NothingLeft(x, y, w, n - 1);
      SkippedRow(y, x, w, n - 1);
    }
  }

  lemma {:induction false} PickedPrefix(x: string, y: string, n: nat)
    requires x <= y && |x| <= n <= |y|
    ensures Picked(y, IndexSet(|x|), n) == x
  {
    if n == |x| {
      PickedAll(y, IndexSet(|x|), |x|);
      assert y[..|x|] == x;
    } else {
      PickedPrefix(x, y, n - 1);
    }
  }

  lemma PrefixMatches(x: string, y: string)
    requires x <= y && x != ""
    ensures MatchCount(x, y) == MatchCount(y, x) == |x| && Transpositions(x, y) == Transpositions(y, x) == 0
  {
    hide Greedy, Picked, Identity;
    PrefixScan(x, y, Reach(x, y), |x|);
    NothingLeft(x, y, Reach(y, x), |y|);
    PickedPrefix(x, y, |y|);
    PickedPrefix(x, x, |x|);
    NoDifferences(x, |x|);
  }

  lemma PrefixOfPrefix(x: string, y: string)
    requires x <= y
    ensures CommonPrefix(x, y) == CommonPrefix(y, x) == if |x| < 4 then |x| else 4
  {
    hide PrefixFrom;
  }

  lemma FullPart(n: nat)
    requires n > 0
    ensures THIRD * n as real / n as real == THIRD
  {
    ThirdOf(n as real, n as real);
    assert n as real / n as real == 1.0;
  }

  lemma Quotient(x: real, y: real)
    requires y > 0.0
    ensures THIRD * x / y == x / (3.0 * y)
  {
    var p, q := THIRD * x / y, x / (3.0 * y);
    assert p * y == THIRD * x;
    assert q * (3.0 * y) == x;
    assert p == q by {
      assert (p - q) * y == 0.0;
    }
  }

  lemma MoreThanATenth(x: real, y: real)
    requires y > 0.0
    ensures 2.0 / 3.0 + x / (3.0 * y) > 0.7 <==> 10.0 * x > y
  {
    var q := x / (3.0 * y);
    assert q * (3.0 * y) == x;
    assert 10.0 * x - y == 30.0 * y * (q - 1.0 / 30.0);
    if q > 1.0 / 30.0 {
      assert 30.0 * y * (q - 1.0 / 30.0) > 0.0;
    } else {
      assert 30.0 * y * (q - 1.0 / 30.0) <= 0.0;
    }
  }

  lemma Ratio(m: nat, n: nat)
    requires n > 0
    ensures THIRD * m as real / n as real == m as real / (3 * n) as real
    ensures 10 * m > n <==> 2.0 / 3.0 + m as real / (3 * n) as real > 0.7
  {
    Quotient(m as real, n as real);
    MoreThanATenth(m as real, n as real);
    assert (3 * n) as real == 3.0 * n as real;
    assert (10 * m) as real == 10.0 * m as real;
  }

  /** A text and the same with more behind it: two thirds and a third of the share of the shorter in the longer, whichever comes
      first; above 0.7, which is from more than a tenth of the length on, a tenth of what is missing to 1 is added for each of
      up to four common characters. */
  lemma PrefixScore(x: string, y: string)
    requires x <= y && x != ""
    ensures var d := 2.0 / 3.0 + |x| as real / (3 * |y|) as real;
      var p := if |x| < 4 then |x| else 4;
      Jaro(x, y) == Jaro(y, x) == d &&
      JaroWinkler.JaroWinkler(x, y) == JaroWinkler.JaroWinkler(y, x) ==
      if 10 * |x| > |y| then d + 0.1 * p as real * (1.0 - d) else d
  {
    hide MatchCount, Transpositions, CommonPrefix;
    PrefixMatches(x, y);
    PrefixOfPrefix(x, y);
    FullPart(|x|);
    Ratio(|x|, |y|);
  }
}
