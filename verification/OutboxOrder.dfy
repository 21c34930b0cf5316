/**
 Outbox files are re-sent in the order of their names (src/net/NatsTransport.cpp:88-95), which is meant to be oldest first.
 A name holds the time and a running number in decimal (lines 51-56, 71-75), and names compare as text, so numbers of
 different lengths are compared after dropping the last digits of the longer one.
 */
module OutboxOrder {
  import opened Numbers
  import opened Sorting

  function FileName(dir: string, ticks: nat, number: nat): string {
    dir + (Decimal(ticks) + ("_" + (Decimal(number) + ".json")))
  }

  predicate OnlyDigits(s: string) {
    forall i | 0 <= i < |s| :: '0' <= s[i] <= '9'
  }

  lemma {:induction false} DecimalHasDigits(n: nat)
    ensures OnlyDigits(Decimal(n))
  {
    DigitReads(n % 10);
    if n < 10 {
    } else {
      DecimalHasDigits(n / 10);
    }
  }

  lemma {:induction false} CommonStart(p: string, x: string, y: string)
    ensures StringAtMost(p + x, p + y) <==> StringAtMost(x, y)
  {
    if p == "" {
      assert p + x == x && p + y == y;
    } else {
      CommonStart(p[1..], x, y);
      assert (p + x)[1..] == p[1..] + x && (p + y)[1..] == p[1..] + y;
    }
  }

  lemma {:induction false} SameValueSameDigits(d: string, e: string)
    requires |d| == |e| && OnlyDigits(d) && OnlyDigits(e) && Value(d) == Value(e)
    ensures d == e
  {
    if d == "" {
    } else {
      var n := |d| - 1;
      SameValueSameDigits(d[..n], e[..n]);
      assert d == d[..n] + [d[n]] && e == e[..n] + [e[n]];
    }
  }

  /** Numbers of equally many digits compare as their notations do, whatever follows. */
  lemma {:induction false} DigitsCompare(d: string, e: string, x: string, y: string)
    requires |d| == |e| && OnlyDigits(d) && OnlyDigits(e)
    ensures StringAtMost(d + x, e + y) <==> Value(d) < Value(e) || (Value(d) == Value(e) && StringAtMost(x, y))
  {
    if d == "" {
      assert d + x == x && e + y == y;
    } else {
      hide StringAtMost;
      var n := |d| - 1;
      DigitsCompare(d[..n], e[..n], [d[n]] + x, [e[n]] + y);
      assert d + x == d[..n] + ([d[n]] + x) && e + y == e[..n] + ([e[n]] + y);
      FirstDiffers(d[n], e[n], x, y);
    }
  }

  lemma {:induction false} FirstDiffers(c: char, b: char, x: string, y: string)
    ensures StringAtMost([c] + x, [b] + y) <==> c < b || (c == b && StringAtMost(x, y))
  {
    assert ([c] + x)[1..] == x && ([b] + y)[1..] == y;
  }

  /** The number without its last `k` digits. */
  function Cut(n: nat, k: int): nat
    decreases k
  {
    if k <= 0 then n else Cut(n / 10, k - 1)
  }

  lemma {:induction false} CutIsAPrefix(n: nat, k: nat)
    requires k < |Decimal(n)|
    ensures Decimal(Cut(n, k)) == Decimal(n)[..|Decimal(n)| - k]
  {
    if k == 0 {
    } else {
      CutIsAPrefix(n / 10, k - 1);
      assert Decimal(n)[..|Decimal(n)| - 1] == Decimal(n / 10);
    }
  }

  /** The notation begins with that of the cut number. */
  lemma CutRest(m: nat, n: nat, y: string)
    requires |Decimal(m)| <= |Decimal(n)|
    ensures var c := Decimal(Cut(n, |Decimal(n)| - |Decimal(m)|));
      |c| == |Decimal(m)| && Decimal(n) + y == c + (Decimal(n)[|Decimal(m)|..] + y)
  {
    hide Decimal, Cut;
    var s, i := Decimal(n), |Decimal(m)|;
    CutIsAPrefix(n, |s| - i);
    assert s == s[..i] + s[i..];
    assert (s[..i] + s[i..]) + y == s[..i] + (s[i..] + y);
  }

  lemma {:induction false} SameLengthCompare(m: nat, n: nat, x: string, y: string)
    requires |Decimal(m)| == |Decimal(n)|
    ensures StringAtMost(Decimal(m) + x, Decimal(n) + y) <==> m < n || (m == n && StringAtMost(x, y))
  {
    hide StringAtMost, Decimal, Value, OnlyDigits;
    DecimalHasDigits(m);
    DecimalHasDigits(n);
    DecimalReads(m);
    DecimalReads(n);
    DigitsCompare(Decimal(m), Decimal(n), x, y);
  }

  /** Two notations with anything behind them, the longer one split after as many digits as the shorter one has. */
  lemma {:induction false} SplitCompare(m: nat, n: nat, x: string, y: string)
    requires |Decimal(m)| <= |Decimal(n)|
    ensures var c, rest := Cut(n, |Decimal(n)| - |Decimal(m)|), Decimal(n)[|Decimal(m)|..] + y;
      (StringAtMost(Decimal(m) + x, Decimal(n) + y) <==> m < c || (m == c && StringAtMost(x, rest))) &&
      (StringAtMost(Decimal(n) + y, Decimal(m) + x) <==> c < m || (c == m && StringAtMost(rest, x)))
  {
    hide StringAtMost, Decimal, Cut;
    var c, rest := Cut(n, |Decimal(n)| - |Decimal(m)|), Decimal(n)[|Decimal(m)|..] + y;
    CutRest(m, n, y);
    SameLengthCompare(m, c, x, rest);
    SameLengthCompare(c, m, rest, x);
  }

  /** '.' sorts before the digits: a number comes before those that begin with it. */
  predicate NumberFirst(m: nat, n: nat) {
    var k := |Decimal(n)| - |Decimal(m)|;
    if k >= 0 then m <= Cut(n, k) else Cut(m, -k) < n
  }

  /** '_' sorts after the digits: a time comes after those that begin with it. */
  predicate TimeFirst(t: nat, u: nat) {
    var k := |Decimal(u)| - |Decimal(t)|;
    if k >= 0 then t < Cut(u, k) else Cut(t, -k) <= u
  }

  lemma {:induction false} FirstOfRest(n: nat, from: nat, y: string)
    requires from < |Decimal(n)|
    ensures var rest := Decimal(n)[from..] + y; rest != "" && '0' <= rest[0] <= '9'
  {
    DecimalHasDigits(n);
  }

  lemma {:induction false} NumbersCompare(m: nat, n: nat)
    ensures StringAtMost(Decimal(m) + ".json", Decimal(n) + ".json") <==> NumberFirst(m, n)
  {
    hide Decimal, Cut;
    if |Decimal(m)| == |Decimal(n)| {
      SplitCompare(m, n, ".json", ".json");
      assert Decimal(n)[|Decimal(m)|..] + ".json" == ".json";
      SameName(".json");
    } else if |Decimal(m)| < |Decimal(n)| {
      SplitCompare(m, n, ".json", ".json");
      FirstOfRest(n, |Decimal(m)|, ".json");
    } else {
      SplitCompare(n, m, ".json", ".json");
      FirstOfRest(m, |Decimal(n)|, ".json");
    }
  }

  lemma {:induction false} TimesCompare(t: nat, u: nat, x: string, y: string)
    requires t != u
    ensures StringAtMost(Decimal(t) + ("_" + x), Decimal(u) + ("_" + y)) <==> TimeFirst(t, u)
  {
    hide Decimal, Cut;
    if |Decimal(t)| == |Decimal(u)| {
      SplitCompare(t, u, "_" + x, "_" + y);
      assert Cut(u, 0) == u && Cut(t, 0) == t by { NothingCut(u); NothingCut(t); }
    } else if |Decimal(t)| < |Decimal(u)| {
      SplitCompare(t, u, "_" + x, "_" + y);
      FirstOfRest(u, |Decimal(t)|, "_" + y);
    } else {
      SplitCompare(u, t, "_" + y, "_" + x);
      FirstOfRest(t, |Decimal(u)|, "_" + x);
    }
  }

  lemma {:induction false} NothingCut(n: nat)
    ensures Cut(n, 0) == n
  {
  }

  /** The order of re-sending, for all pairs of files. */
  lemma NameOrder(dir: string, t: nat, m: nat, u: nat, n: nat)
    ensures StringAtMost(FileName(dir, t, m), FileName(dir, u, n)) <==>
      if t == u then NumberFirst(m, n) else TimeFirst(t, u)
  {
    hide StringAtMost, Decimal, NumberFirst, TimeFirst;
    var x, y := Decimal(m) + ".json", Decimal(n) + ".json";
    CommonStart(dir, Decimal(t) + ("_" + x), Decimal(u) + ("_" + y));
    if t == u {
      CommonStart(Decimal(t), "_" + x, "_" + y);
      CommonStart("_", x, y);
      NumbersCompare(m, n);
    } else {
      TimesCompare(t, u, x, y);
    }
  }

  lemma {:induction false} LargerIsNotShorter(m: nat, n: nat)
    requires m <= n
    ensures |Decimal(m)| <= |Decimal(n)|
  {
    if m < 10 {
    } else {
      LargerIsNotShorter(m / 10, n / 10);
    }
  }

  /** Oldest first, as it is meant, holds for exactly these pairs of an older and a newer file. */
  lemma {:induction false} OldestFirstExactly(dir: string, t: nat, m: nat, u: nat, n: nat)
    requires t < u || (t == u && m < n)
    ensures StringAtMost(FileName(dir, t, m), FileName(dir, u, n)) <==>
      if t == u then m <= Cut(n, |Decimal(n)| - |Decimal(m)|) else t < Cut(u, |Decimal(u)| - |Decimal(t)|)
  {
    hide StringAtMost, Decimal, Cut;
    NameOrder(dir, t, m, u, n);
    if t == u {
      LargerIsNotShorter(m, n);
    } else {
      LargerIsNotShorter(t, u);
    }
  }

  /** So it holds among files whose times, and within one time whose numbers, have equally many digits. */
  lemma {:induction false} NameOrderIsAgeOrder(dir: string, t: nat, m: nat, u: nat, n: nat)
    requires |Decimal(t)| == |Decimal(u)| && (t == u ==> |Decimal(m)| == |Decimal(n)|)
    ensures StringAtMost(FileName(dir, t, m), FileName(dir, u, n)) <==> t < u || (t == u && m <= n)
  {
    hide StringAtMost, Decimal;
    NameOrder(dir, t, m, u, n);
  }

  lemma {:induction false} SameName(s: string)
    ensures StringAtMost(s, s)
  {
    StringTotal(s, s);
  }

  /** The tenth file of a millisecond is re-sent before its ninth. */
  lemma TenBeforeNine(dir: string, t: nat)
    ensures !StringAtMost(FileName(dir, t, 9), FileName(dir, t, 10))
  {
    hide StringAtMost;
    CommonStart(dir, Decimal(t) + "_9.json", Decimal(t) + "_10.json");
    CommonStart(Decimal(t), "_9.json", "_10.json");
    assert "_" + ("9" + ".json") == "_9.json" && "_" + ("10" + ".json") == "_10.json";
    assert Decimal(9) == "9" && Decimal(10) == "10";
    CommonStart("_", "9.json", "10.json");
    assert "_" + "9.json" == "_9.json" && "_" + "10.json" == "_10.json";
    FirstDiffers('9', '1', ".json", "0.json");
    assert ['9'] + ".json" == "9.json" && ['1'] + "0.json" == "10.json";
  }
}
