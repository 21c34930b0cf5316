/**
 The age pass and the size-cap pass of `pruneOldRecordings` (src/services/RecordingService.cpp:102-139). Whether the file
 system lets a file go is an oracle on paths, one per pass, since it may answer differently the second time.
 */
module RecordingService {
  import opened Sorting

  datatype Item = Item(path: string, size: nat, mtime: int)

  const SECONDS_PER_DAY := 24 * 3600

  function Sum(items: seq<Item>): nat {
    if items == [] then 0 else Sum(items[..|items| - 1]) + items[|items| - 1].size
  }

  predicate OlderFirst(a: Item, b: Item) {
    a.mtime <= b.mtime
  }

  function Gone(item: Item): Item {
    item.(size := 0)
  }

  /** What the age pass makes of one item. */
  function Aged(item: Item, cutoff: int, removes: string -> bool): Item {
    if item.size > 0 && item.mtime < cutoff && removes(item.path) then Gone(item) else item
  }

  /** What age means: only a file last written before the cutoff loses its size, and it does if it can go. */
  predicate AgedOut(before: Item, after: Item, cutoff: int, removes: string -> bool) {
    after.path == before.path && after.mtime == before.mtime &&
    if before.mtime < cutoff && removes(before.path) then after.size == 0 else after.size == before.size
  }

  /** The items after the size pass has looked at the first `k`. */
  function Capped(items: seq<Item>, k: nat, cap: nat, removes: string -> bool): (r: seq<Item>)
    requires k <= |items|
    ensures |r| == |items|
  {
    if k == 0 then items
    else
      var before := Capped(items, k - 1, cap, removes);
      var item := before[k - 1];
      if Sum(before) > cap && item.size > 0 && removes(item.path) then before[k - 1 := Gone(item)] else before
  }

  /** Number of items with some size before and none after. */
  function Emptied(before: seq<Item>, after: seq<Item>): nat
    requires |before| == |after|
  {
    if before == [] then 0
    else
      var n := |before| - 1;
      Emptied(before[..n], after[..n]) + if before[n].size > 0 && after[n].size == 0 then 1 else 0
  }

  lemma SumUpdate(items: seq<Item>, i: nat)
    requires i < |items|
    ensures Sum(items[i := Gone(items[i])]) == Sum(items) - items[i].size
  {
    var n := |items| - 1;
    var updated := items[i := Gone(items[i])];
    if i == n {
      assert updated[..n] == items[..n];
    } else {
      SumUpdate(items[..n], i);
      assert updated[..n] == items[..n][i := Gone(items[i])];
    }
  }

  lemma EmptiedUpdate(before: seq<Item>, after: seq<Item>, i: nat)
    requires |before| == |after| && i < |before| && before[i] == after[i] && before[i].size > 0
    ensures Emptied(before, after[i := Gone(after[i])]) == Emptied(before, after) + 1
  {
    var n := |before| - 1;
    var updated := after[i := Gone(after[i])];
    if i == n {
      assert updated[..n] == after[..n];
    } else {
      EmptiedUpdate(before[..n], after[..n], i);
      assert updated[..n] == after[..n][i := Gone(after[i])];
    }
  }

  lemma {:induction false} NothingEmptied(items: seq<Item>)
    ensures Emptied(items, items) == 0
  {
    if items == [] {
    } else {
      NothingEmptied(items[..|items| - 1]);
    }
  }

  lemma {:induction false} SumWithout(items: seq<Item>, i: nat)
    requires i < |items|
    ensures Sum(items[..i] + items[i + 1..]) == Sum(items) - items[i].size
  {
    var n := |items| - 1;
    var rest := items[..i] + items[i + 1..];
    if i == n {
      assert rest == items[..n];
    } else {
      SumWithout(items[..n], i);
      assert rest[..n - 1] == items[..n][..i] + items[..n][i + 1..];
    }
  }

  lemma OneLess(items: seq<Item>, i: nat)
    requires i < |items|
    ensures multiset(items[..i] + items[i + 1..]) == multiset(items) - multiset{items[i]}
  {
    assert items == items[..i] + [items[i]] + items[i + 1..];
  }

  /** Sorting does not change the total. */
  lemma {:induction false} SumOfPermutation(a: seq<Item>, b: seq<Item>)
    requires multiset(a) == multiset(b)
    ensures Sum(a) == Sum(b)
  {
    if a == [] {
      assert |multiset(b)| == 0;
    } else {
      var n := |a| - 1;
      assert a[n] in multiset(b);
      var i: nat :| i < |b| && b[i] == a[n];
      var rest := b[..i] + b[i + 1..];
      SumWithout(b, i);
      OneLess(b, i);
      OneLess(a, n);
      assert a[..n] + a[n + 1..] == a[..n];
      assert multiset(a[..n]) == multiset(a) - multiset{a[n]} == multiset(rest);
      SumOfPermutation(a[..n], rest);
    }
  }

  class Pruner {
    var items: seq<Item>
    var total: int
    var deleted: nat
    var freed: int

    ghost predicate Valid()
      reads this
    {
      total == Sum(items)
    }

    /** `listing` is what the directory scan yields: finished segments whose size and time could be read. */
    constructor (listing: seq<Item>)
      ensures Valid() && items == listing && deleted == 0 && freed == 0
    {
      items, total, deleted, freed := [], 0, 0, 0;
      new;
      for i := 0 to |listing|
        invariant Valid() && items == listing[..i] && deleted == 0 && freed == 0
      {
        assert (items + [listing[i]])[..i] == items;
        items := items + [listing[i]];
        total := total + listing[i].size;
      }
      assert listing[..|listing|] == listing;
    }

    method TryRemove(i: nat, removed: bool)
      requires i < |items| && Valid()
      modifies this
      ensures Valid() && freed + total == old(freed + total)
      ensures items == if removed then old(items)[i := Gone(old(items)[i])] else old(items)
      ensures deleted == if removed then old(deleted) + 1 else old(deleted)
    {
      if removed {
        SumUpdate(items, i);
        deleted := deleted + 1;
        freed := freed + items[i].size;
        total := total - items[i].size;
        items := items[i := items[i].(size := 0)];
      }
    }

    method AgePass(cutoff: int, removes: string -> bool)
      requires Valid()
      modifies this
      ensures Valid() && freed + total == old(freed + total)
      ensures |items| == |old(items)| && forall i | 0 <= i < |items| :: items[i] == Aged(old(items)[i], cutoff, removes)
      ensures forall i | 0 <= i < |items| :: AgedOut(old(items)[i], items[i], cutoff, removes)
      ensures deleted == old(deleted) + Emptied(old(items), items)
    {
      ghost var was := items;
      NothingEmptied(items);
      for i := 0 to |items|
        invariant Valid() && freed + total == old(freed + total)
        invariant |items| == |was| && deleted == old(deleted) + Emptied(was, items)
        invariant forall j | 0 <= j < i :: items[j] == Aged(was[j], cutoff, removes)
        invariant forall j | i <= j < |items| :: items[j] == was[j]
      {
        if items[i].size > 0 && items[i].mtime < cutoff {
          EmptiedUpdate(was, items, i);
          TryRemove(i, removes(items[i].path));
        }
      }
    }

    method SizePass(cap: nat, removes: string -> bool)
      requires Valid()
      modifies this
      ensures Valid() && freed + total == old(freed + total)
      ensures items == Capped(old(items), |old(items)|, cap, removes)
      ensures deleted == old(deleted) + Emptied(old(items), items)
    {
      hide Capped, Sum, Emptied, Gone;
      ghost var was := items;
      NothingEmptied(items);
      NothingSeen(items, cap, removes);
      var i := 0;
      while i < |items|
        invariant Valid() && freed + total == old(freed + total)
        invariant i <= |items| == |was| && items == Capped(was, i, cap, removes)
        invariant deleted == old(deleted) + Emptied(was, items)
      {
        CappedNext(was, i, cap, removes);
        if total <= cap {
          WithinBudget(was, i, |was|, cap, removes);
          break;
        }
        if items[i].size > 0 {
          NotYetSeen(was, i, cap, removes);
          EmptiedUpdate(was, items, i);
          TryRemove(i, removes(items[i].path));
        }
        i := i + 1;
      }
    }

    /** The passes in order; `sorted` is the list between them. */
    method Prune(
        retentionDays: int, maxTotalBytes: int, now: int, removesAged: string -> bool, removesOldest: string -> bool)
      returns (aged: seq<Item>, sorted: seq<Item>)
      requires Valid()
      modifies this
      ensures Valid() && freed + total == old(freed + total)
      ensures |aged| == |old(items)| && forall i | 0 <= i < |aged| ::
        aged[i] ==
          if retentionDays > 0 then Aged(old(items)[i], now - SECONDS_PER_DAY * retentionDays, removesAged)
          else old(items)[i]
      ensures forall i | 0 <= i < |aged| ::
        if retentionDays > 0 then AgedOut(old(items)[i], aged[i], now - retentionDays * 86400, removesAged)
        else aged[i] == old(items)[i]
      ensures SortedBy(sorted, OlderFirst) && multiset(sorted) == multiset(aged)
      ensures |sorted| == |items|
      ensures items ==
        if maxTotalBytes > 0 then Capped(sorted, |sorted|, maxTotalBytes, removesOldest) else sorted
      ensures deleted == old(deleted) + Emptied(old(items), aged) + Emptied(sorted, items)
    {
      NothingEmptied(items);
      if retentionDays > 0 {
        var cutoff := now - SECONDS_PER_DAY * retentionDays;
        AgePass(cutoff, removesAged);
      }
      aged := items;
      sorted := Sort(items, OlderFirst);
      SumOfPermutation(sorted, items);
      NothingEmptied(sorted);
      items := sorted;
      if maxTotalBytes > 0 {
        SizePass(maxTotalBytes, removesOldest);
      }
    }
  }

  // ----- What the size pass achieves -----

  lemma {:induction false} NothingSeen(items: seq<Item>, cap: nat, removes: string -> bool)
    ensures Capped(items, 0, cap, removes) == items
  {
  }

  lemma CappedNext(items: seq<Item>, k: nat, cap: nat, removes: string -> bool)
    requires k < |items|
    ensures var before := Capped(items, k, cap, removes);
      Capped(items, k + 1, cap, removes) ==
      if Sum(before) > cap && before[k].size > 0 && removes(before[k].path) then before[k := Gone(before[k])] else before
  {
  }

  lemma {:induction false} NotYetSeen(items: seq<Item>, k: nat, cap: nat, removes: string -> bool)
    requires k <= |items|
    ensures forall i | k <= i < |items| :: Capped(items, k, cap, removes)[i] == items[i]
  {
    if k == 0 {
    } else {
      NotYetSeen(items, k - 1, cap, removes);
    }
  }

  lemma {:induction false} WithinBudget(items: seq<Item>, k: nat, n: nat, cap: nat, removes: string -> bool)
    requires k <= n <= |items| && Sum(Capped(items, k, cap, removes)) <= cap
    ensures Capped(items, n, cap, removes) == Capped(items, k, cap, removes)
  {
    if k == n {
    } else {
      WithinBudget(items, k, n - 1, cap, removes);
    }
  }

  /** Only sizes change, and only to zero. */
  lemma {:induction false} KeptOrGone(items: seq<Item>, k: nat, cap: nat, removes: string -> bool, i: nat)
    requires k <= |items| && i < |items|
    ensures var r := Capped(items, k, cap, removes); r[i] == items[i] || (r[i] == Gone(items[i]) && removes(items[i].path))
  {
    if k == 0 {
    } else {
      KeptOrGone(items, k - 1, cap, removes, i);
    }
  }

  /** Each item looked at while the total was over the cap and that still has a size has refused to go. */
  lemma {:induction false} BudgetOrRefused(items: seq<Item>, k: nat, cap: nat, removes: string -> bool)
    requires k <= |items|
    ensures var r := Capped(items, k, cap, removes);
      Sum(r) <= cap || forall i | 0 <= i < k && r[i].size > 0 :: !removes(r[i].path)
  {
    if k == 0 {
    } else {
      var before, r := Capped(items, k - 1, cap, removes), Capped(items, k, cap, removes);
      BudgetOrRefused(items, k - 1, cap, removes);
      if r != before {
        SumUpdate(before, k - 1);
      }
    }
  }

  /** Nothing goes while something earlier in the order could have gone instead. */
  lemma {:induction false} EarlierFirst(items: seq<Item>, k: nat, cap: nat, removes: string -> bool, i: nat, j: nat)
    requires i < j < k <= |items| && items[j].size > 0
    requires Capped(items, k, cap, removes)[j].size == 0 && Capped(items, k, cap, removes)[i].size > 0
    ensures !removes(items[i].path)
  {
    var before := Capped(items, k - 1, cap, removes);
    KeptOrGone(items, k - 1, cap, removes, i);
    if j < k - 1 {
      EarlierFirst(items, k - 1, cap, removes, i, j);
    } else {
      NotYetSeen(items, k - 1, cap, removes);
      BudgetOrRefused(items, k - 1, cap, removes);
      assert before[i].size > 0;
    }
  }

  /** The last item to go was needed: with it, the total would still be over the cap. */
  lemma LastWasNeeded(items: seq<Item>, k: nat, cap: nat, removes: string -> bool) returns (j: nat)
    requires k <= |items| && Capped(items, k, cap, removes) != items
    ensures j < k && items[j].size > 0 && Capped(items, k, cap, removes)[j].size == 0
    ensures forall l | j < l < |items| :: Capped(items, k, cap, removes)[l] == items[l]
    ensures Sum(Capped(items, k, cap, removes)) + items[j].size > cap
  {
    var before, r := Capped(items, k - 1, cap, removes), Capped(items, k, cap, removes);
    NotYetSeen(items, k - 1, cap, removes);
    if r == before {
      j := LastWasNeeded(items, k - 1, cap, removes);
    } else {
      j := k - 1;
      SumUpdate(before, j);
    }
  }

  /** The whole pass over a sorted list: the budget is met unless every file left refused to go; a file older than one
      that went had refused; and something went only if the total was still over the cap without it. */
  lemma {:induction false} SizePassIsFair(items: seq<Item>, cap: nat, removes: string -> bool)
    requires SortedBy(items, OlderFirst)
    ensures var r := Capped(items, |items|, cap, removes);
      (Sum(r) <= cap || forall i | 0 <= i < |r| && r[i].size > 0 :: !removes(r[i].path)) &&
      (forall i, j | 0 <= i < |r| && 0 <= j < |r| && r[i].size > 0 && items[j].size > 0 && r[j].size == 0 &&
          items[i].mtime < items[j].mtime :: !removes(items[i].path)) &&
      (r == items <==> Sum(items) <= cap || forall i | 0 <= i < |r| && items[i].size > 0 :: !removes(items[i].path)) &&
      (r != items ==> exists j: nat :: j < |r| && items[j].size > 0 && r[j].size == 0 && Sum(r) + items[j].size > cap)
  {
    var n, r := |items|, Capped(items, |items|, cap, removes);
    BudgetOrRefused(items, n, cap, removes);
    forall i, j | 0 <= i < n && 0 <= j < n && r[i].size > 0 && items[j].size > 0 && r[j].size == 0 &&
                  items[i].mtime < items[j].mtime
      ensures !removes(items[i].path)
    {
      assert i < j by {
        assert !OlderFirst(items[j], items[i]);
      }
      EarlierFirst(items, n, cap, removes, i, j);
    }
    if r != items {
      var j := LastWasNeeded(items, n, cap, removes);
      KeptOrGone(items, n, cap, removes, j);
    }
    if Sum(items) <= cap {
      WithinBudget(items, 0, n, cap, removes);
    }
  }
}
