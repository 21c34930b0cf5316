/** Sorting, as far as the callers of std::sort rely on it: the same elements, in order. */
module Sorting {

  ghost predicate TotalPreorder<T(!new)>(le: (T, T) -> bool) {
    (forall x, y :: le(x, y) || le(y, x)) &&
    (forall x, y, z :: le(x, y) && le(y, z) ==> le(x, z))
  }

  ghost predicate SortedBy<T>(s: seq<T>, le: (T, T) -> bool) {
    forall i, j | 0 <= i < j < |s| :: le(s[i], s[j])
  }

  method Insert<T(!new)>(s: seq<T>, x: T, le: (T, T) -> bool) returns (r: seq<T>)
    requires TotalPreorder(le) && SortedBy(s, le)
    ensures SortedBy(r, le) && multiset(r) == multiset(s) + multiset{x}
  {
    var i := |s|;
    while i > 0 && !le(s[i - 1], x)
      invariant 0 <= i <= |s|
      invariant forall k | i <= k < |s| :: le(x, s[k])
    {
      i := i - 1;
    }
    r := s[..i] + [x] + s[i..];
    assert s == s[..i] + s[i..];
    forall k | 0 <= k < i ensures le(s[k], x) {
      assert k == i - 1 || le(s[k], s[i - 1]);
    }
    InsertedIsSorted(s, i, x, le);
  }

  lemma InsertedIsSorted<T>(s: seq<T>, i: nat, x: T, le: (T, T) -> bool)
    requires i <= |s| && SortedBy(s, le)
    requires forall k | 0 <= k < i :: le(s[k], x)
    requires forall k | i <= k < |s| :: le(x, s[k])
    ensures SortedBy(s[..i] + [x] + s[i..], le)
  {
    var r := s[..i] + [x] + s[i..];
    assert forall k | 0 <= k < |r| :: r[k] == if k < i then s[k] else if k == i then x else s[k - 1];
  }

  method Sort<T(!new)>(s: seq<T>, le: (T, T) -> bool) returns (r: seq<T>)
    requires TotalPreorder(le)
    ensures SortedBy(r, le) && multiset(r) == multiset(s)
  {
    r := [];
    for i := 0 to |s|
      invariant SortedBy(r, le) && multiset(r) == multiset(s[..i])
    {
      assert s[..i + 1] == s[..i] + [s[i]];
      r := Insert(r, s[i], le);
    }
    assert s[..|s|] == s;
  }

  /** Lexicographic order on strings. */
  predicate StringAtMost(x: string, y: string) {
    x == "" || (y != "" && (x[0] < y[0] || (x[0] == y[0] && StringAtMost(x[1..], y[1..]))))
  }

  lemma {:induction false} StringTotal(x: string, y: string)
    ensures StringAtMost(x, y) || StringAtMost(y, x)
  {
    if x != "" && y != "" {
      StringTotal(x[1..], y[1..]);
    }
  }

  lemma {:induction false} StringTransitive(x: string, y: string, z: string)
    requires StringAtMost(x, y) && StringAtMost(y, z)
    ensures StringAtMost(x, z)
  {
    if x == "" {
    } else {
      if x[0] == y[0] == z[0] {
        StringTransitive(x[1..], y[1..], z[1..]);
      }
    }
  }

  lemma StringsAreOrdered()
    ensures TotalPreorder(StringAtMost)
  {
    forall x, y ensures StringAtMost(x, y) || StringAtMost(y, x) { StringTotal(x, y); }
    forall x, y, z | StringAtMost(x, y) && StringAtMost(y, z) ensures StringAtMost(x, z) { StringTransitive(x, y, z); }
  }
}
