/** The recency lists of the store: sorted by time, then key, newest first, and cut at a limit. */
module Recency {
  import opened Domain

  datatype Rank = Rank(at: Time, key: string)

  /** Go's < on strings. */
  predicate StringLess(a: string, b: string) {
    if b == "" then false
    else if a == "" then true
    else a[0] < b[0] || (a[0] == b[0] && StringLess(a[1..], b[1..]))
  }

  /** The less function handed to sort.Slice: x comes before y. */
  predicate Above(x: Rank, y: Rank) {
    x.at > y.at || (x.at == y.at && StringLess(y.key, x.key))
  }

  lemma {:induction false} StringLessTransitive(a: string, b: string, c: string)
    requires StringLess(a, b) && StringLess(b, c)
    ensures StringLess(a, c)
  {
    if a != "" && a[0] == b[0] && b[0] == c[0] {
      StringLessTransitive(a[1..], b[1..], c[1..]);
    }
  }

  lemma {:induction false} StringLessTotal(a: string, b: string)
    ensures a == b || StringLess(a, b) || StringLess(b, a)
    ensures !(StringLess(a, b) && StringLess(b, a))
    ensures !StringLess(a, a)
  {
    if a != "" && b != "" && a[0] == b[0] {
      StringLessTotal(a[1..], b[1..]);
      assert a == [a[0]] + a[1..] && b == [b[0]] + b[1..];
    }
    if a != "" {
      StringLessTotal(a[1..], a[1..]);
    }
  }

  /** The common part of two strings, up to where they first differ or one ends. */
  ghost predicate PartAt(a: string, b: string, n: nat) {
    && n <= |a| && n <= |b| && a[..n] == b[..n]
    && (n < |a| && n < |b| ==> a[n] != b[n])
  }

  /** A string is less than another if it is a proper start of it or has the smaller character where they part. */
  lemma {:induction false} LessByFirstDifference(a: string, b: string, n: nat)
    requires PartAt(a, b, n)
    ensures StringLess(a, b) <==> n < |b| && (n == |a| || a[n] < b[n])
  {
    if n > 0 {
      assert a[0] == a[..n][0] == b[..n][0] == b[0];
      assert a[1..][..n - 1] == a[..n][1..] && b[1..][..n - 1] == b[..n][1..];
      LessByFirstDifference(a[1..], b[1..], n - 1);
    }
  }

  lemma AboveTransitive(x: Rank, y: Rank, z: Rank)
    requires Above(x, y) && Above(y, z)
    ensures Above(x, z)
  {
    if x.at == y.at == z.at {
      StringLessTransitive(z.key, y.key, x.key);
    }
  }

  lemma AboveTotal(x: Rank, y: Rank)
    ensures x == y || Above(x, y) || Above(y, x)
    ensures !(Above(x, y) && Above(y, x))
    ensures !Above(x, x)
  {
    StringLessTotal(x.key, y.key);
    StringLessTotal(x.key, x.key);
  }

  ghost predicate Descending<T>(rank: T -> Rank, list: seq<T>) {
    forall i, j :: 0 <= i < j < |list| ==> Above(rank(list[i]), rank(list[j]))
  }

  /** list is the newest part of the table, at most limit records long unless limit is not positive. */
  ghost predicate IsRecentList<T>(rank: T -> Rank, table: set<T>, limit: int, list: seq<T>) {
    && Descending(rank, list)
    && (forall x :: x in list ==> x in table)
    && |list| == (if 0 < limit < |table| then limit else |table|)
    && (forall x, y :: x in table && x !in list && y in list ==> Above(rank(y), rank(x)))
  }

  ghost predicate DistinctRanks<T>(rank: T -> Rank, table: set<T>) {
    forall x, y :: x in table && y in table && rank(x) == rank(y) ==> x == y
  }

  /** There is only one such list, whatever order the table was read in. */
  lemma RecentListUnique<T>(rank: T -> Rank, table: set<T>, limit: int, a: seq<T>, b: seq<T>)
    requires DistinctRanks(rank, table)
    requires IsRecentList(rank, table, limit, a) && IsRecentList(rank, table, limit, b)
    ensures a == b
  {
    RecentPrefixAgrees(rank, table, limit, a, b, |a|);
    assert a[..|a|] == a && b[..|a|] == b;
  }

  lemma {:induction false} RecentPrefixAgrees<T>(
      rank: T -> Rank, table: set<T>, limit: int, a: seq<T>, b: seq<T>, n: nat)
    requires DistinctRanks(rank, table)
    requires IsRecentList(rank, table, limit, a) && IsRecentList(rank, table, limit, b)
    requires n <= |a|
    ensures a[..n] == b[..n]
    decreases n
  {
    if n == 0 {
    } else {
      RecentPrefixAgrees(rank, table, limit, a, b, n - 1);
      NotRankedHigher(rank, table, limit, a, b, n - 1);
      NotRankedHigher(rank, table, limit, b, a, n - 1);
      AboveTotal(rank(a[n - 1]), rank(b[n - 1]));
      assert a[..n] == a[..n - 1] + [a[n - 1]] && b[..n] == b[..n - 1] + [b[n - 1]];
    }
  }

  /** Where two such lists agree before place k, neither has the higher record there. */
  lemma NotRankedHigher<T>(rank: T -> Rank, table: set<T>, limit: int, a: seq<T>, b: seq<T>, k: nat)
    requires IsRecentList(rank, table, limit, a) && IsRecentList(rank, table, limit, b)
    requires k < |a| && a[..k] == b[..k]
    ensures !Above(rank(a[k]), rank(b[k]))
  {
    var x, y := a[k], b[k];
    AboveTotal(rank(x), rank(y));
    AboveTotal(rank(x), rank(x));
    forall i | 0 <= i < k ensures b[i] != x {
      assert a[..k][i] == b[..k][i];
      assert Above(rank(a[i]), rank(x));
    }
    assert y in b;
    assert x == y || Above(rank(y), rank(x));
  }

  lemma {:induction false} DescendingIsDistinct<T>(rank: T -> Rank, list: seq<T>)
    requires Descending(rank, list)
    ensures |set x | x in list| == |list|
  {
    if list == [] {
    } else {
      var init, last := list[..|list| - 1], list[|list| - 1];
      DescendingIsDistinct(rank, init);
      AboveTotal(rank(last), rank(last));
      forall i | 0 <= i < |init| ensures init[i] != last {
        assert Above(rank(list[i]), rank(list[|list| - 1]));
      }
      assert (set x | x in list) == (set x | x in init) + {last};
    }
  }

  lemma {:induction false} SubsetOfEqualSize<T>(a: set<T>, b: set<T>)
    requires a <= b && |a| == |b|
    ensures a == b
  {
    if a != {} {
      var x :| x in a;
      SubsetOfEqualSize(a - {x}, b - {x});
    } else {
      assert |b| == 0;
    }
  }

  /** With no limit, or a limit of at least the table size, the whole table is listed. */
  lemma FullListIsTable<T>(rank: T -> Rank, table: set<T>, limit: int, list: seq<T>)
    requires IsRecentList(rank, table, limit, list)
    requires limit <= 0 || limit >= |table|
    ensures (set x | x in list) == table
  {
    DescendingIsDistinct(rank, list);
    SubsetOfEqualSize((set x | x in list), table);
  }

  /** sort.Slice with Above, here by insertion; only the contract is used. */
  method SortSlice<T>(rank: T -> Rank, items: seq<T>) returns (sorted: seq<T>)
    requires forall i, j :: 0 <= i < j < |items| ==> rank(items[i]) != rank(items[j])
    ensures Descending(rank, sorted)
    ensures |sorted| == |items|
    ensures forall x :: x in sorted <==> x in items
  {
    sorted := [];
    for n := 0 to |items|
      invariant Descending(rank, sorted)
      invariant |sorted| == n
      invariant forall x :: x in sorted <==> x in items[..n]
    {
      var item := items[n];
      var k := 0;
      while k < |sorted| && Above(rank(sorted[k]), rank(item))
        invariant 0 <= k <= |sorted|
        invariant forall i :: 0 <= i < k ==> Above(rank(sorted[i]), rank(item))
      {
        k := k + 1;
      }
      if k < |sorted| {
        assert sorted[k] in items[..n];
        AboveTotal(rank(sorted[k]), rank(item));
        forall i | k < i < |sorted| ensures Above(rank(item), rank(sorted[i])) {
          AboveTransitive(rank(item), rank(sorted[k]), rank(sorted[i]));
        }
      }
      assert items[..n + 1] == items[..n] + [item];
      sorted := sorted[..k] + [item] + sorted[k..];
    }
    assert items[..|items|] == items;
  }

  /** Sorting a repetition-free reading of the table and cutting it at the limit. */
  method Recent<T>(rank: T -> Rank, ghost table: set<T>, items: seq<T>, limit: int) returns (list: seq<T>)
    requires DistinctRanks(rank, table)
    requires |items| == |table|
    requires forall i, j :: 0 <= i < j < |items| ==> items[i] != items[j]
    requires forall x :: x in items <==> x in table
    ensures IsRecentList(rank, table, limit, list)
  {
    list := SortSlice(rank, items);
    if limit > 0 && |list| > limit {
      ghost var all := list;
      list := list[..limit];
      assert forall x :: x in list ==> x in all;
      forall x, y | x in table && x !in list && y in list ensures Above(rank(y), rank(x)) {
        assert x in all;
      }
    }
  }
}
