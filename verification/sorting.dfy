/** Sorting by a real-valued key, as the Go code does with `sort.Slice`,
    `sort.Float64s` and an explicit exchange sort. Go's `sort.Slice` is not
    stable, so what the callers may rely on is exactly "a permutation of the
    input that is ordered by the key"; the insertion sort below is one such
    permutation. Ascending orders are obtained by sorting on the negated key. */
module Sorting {

  /** Non-increasing by `key`. */
  ghost predicate SortedDesc<T>(s: seq<T>, key: T -> real)
  {
    forall i, j | 0 <= i < j < |s| :: key(s[i]) >= key(s[j])
  }

  function Insert<T>(x: T, s: seq<T>, key: T -> real): (r: seq<T>)
    requires SortedDesc(s, key)
    ensures SortedDesc(r, key)
    ensures multiset(r) == multiset(s) + multiset{x}
    ensures |r| == |s| + 1
    decreases |s|
  {
    if |s| == 0 || key(x) >= key(s[0]) then
      ConsSorted(x, s, key);
      [x] + s
    else
      var tail := Insert(x, s[1..], key);
      assert s == [s[0]] + s[1..];
      HeadOutranks(x, s, tail, key);
      ConsSorted(s[0], tail, key);
      [s[0]] + tail
  }

  /** Putting an entry that outranks a sorted sequence in front keeps it sorted. */
  lemma ConsSorted<T>(h: T, s: seq<T>, key: T -> real)
    requires SortedDesc(s, key)
    requires |s| == 0 || key(h) >= key(s[0])
    ensures SortedDesc([h] + s, key)
  {
  }

  /** The head of a sorted sequence outranks any rearrangement of its tail
      with a lower-ranked entry added. */
  lemma HeadOutranks<T>(x: T, s: seq<T>, tail: seq<T>, key: T -> real)
    requires SortedDesc(s, key) && |s| > 0 && key(x) < key(s[0])
    requires multiset(tail) == multiset(s[1..]) + multiset{x}
    ensures |tail| == 0 || key(s[0]) >= key(tail[0])
  {
    if |tail| > 0 {
      assert tail[0] in multiset(s[1..]) + multiset{x};
      if tail[0] != x {
        var j :| 0 <= j < |s[1..]| && s[1..][j] == tail[0];
        assert s[j + 1] == tail[0];
      }
    }
  }

  /** A permutation of `s` ordered by `key`, largest first. */
  function SortDesc<T>(s: seq<T>, key: T -> real): (r: seq<T>)
    ensures SortedDesc(r, key)
    ensures multiset(r) == multiset(s)
    ensures |r| == |s|
    decreases |s|
  {
    if |s| == 0 then []
    else
      assert s == [s[0]] + s[1..];
      Insert(s[0], SortDesc(s[1..], key), key)
  }

  /** The first `k` entries of `s` sorted by `key` (Go: sort, then `s[:k]`):
      a sub-multiset of `s` of size min(k, |s|), ordered by `key`, and no
      entry left out ranks above an entry kept. */
  function TopBy<T>(s: seq<T>, key: T -> real, k: nat): (r: seq<T>)
    ensures |r| == if |s| < k then |s| else k
    ensures SortedDesc(r, key)
    ensures multiset(r) <= multiset(s)
    ensures |s| <= k ==> multiset(r) == multiset(s)
    ensures forall x, y | x in multiset(s) - multiset(r) && y in r :: key(x) <= key(y)
  {
    var sorted := SortDesc(s, key);
    var r := if |sorted| > k then sorted[..k] else sorted;
    var rest := sorted[|r|..];
    assert sorted == r + rest;
    SplitRanked(s, sorted, r, rest, key);
    r
  }

  /** Cutting a sorted permutation of `s` into a front and a rest: the
      front is a sub-multiset of `s` and outranks everything not in it. */
  lemma SplitRanked<T>(s: seq<T>, sorted: seq<T>, r: seq<T>, rest: seq<T>, key: T -> real)
    requires SortedDesc(sorted, key) && multiset(sorted) == multiset(s) && sorted == r + rest
    ensures multiset(r) <= multiset(s)
    ensures forall x, y | x in multiset(s) - multiset(r) && y in r :: key(x) <= key(y)
  {
    assert multiset(s) == multiset(r) + multiset(rest);
    forall x, y | x in multiset(s) - multiset(r) && y in r
      ensures key(x) <= key(y)
    {
      assert x in multiset(rest);
      var a :| 0 <= a < |rest| && rest[a] == x;
      var b :| 0 <= b < |r| && r[b] == y;
      assert sorted[b] == y && sorted[|r| + a] == x;
    }
  }

  /** Members of a sub-multiset are members. */
  lemma SubMembers<T>(a: seq<T>, b: seq<T>)
    requires multiset(a) <= multiset(b)
    ensures forall x | x in a :: x in b
  {
    forall x | x in a
      ensures x in b
    {
      assert x in multiset(a);
    }
  }
}
