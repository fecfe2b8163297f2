/**
 * The configuration record the itinerary filter chain is built from, and the
 * stable ascending sort of its group-by-similarity entries on `groupByP`
 * (a Java stream `sorted(Comparator.comparingDouble(...))`, which is stable).
 */
module FilterChainParameters {

  /** One group-by-similarity setting: the similarity threshold and the approximate minimum to keep. */
  datatype GroupBySimilarity = GroupBySimilarity(groupByP: real, approximateMinLimit: int)

  datatype Parameters = Parameters(
    groupBySimilarity: seq<GroupBySimilarity>,
    maxNumberOfItineraries: int,
    arriveBy: bool,
    removeTransitWithHigherCostThanBestOnStreetOnly: bool,
    debug: bool)

  /** Every entry's `groupByP` is at most the next ones'. */
  predicate Ascending(s: seq<GroupBySimilarity>) {
    forall i, j :: 0 <= i < j < |s| ==> s[i].groupByP <= s[j].groupByP
  }

  /** The entries of `s` whose key is `k`, in the order they have in `s`. */
  function WithKey(s: seq<GroupBySimilarity>, k: real): seq<GroupBySimilarity> {
    if s == [] then []
    else (if s[0].groupByP == k then [s[0]] else []) + WithKey(s[1..], k)
  }

  /** Puts `x` in front of the first entry whose key is not smaller than its own. */
  function Insert(x: GroupBySimilarity, s: seq<GroupBySimilarity>): (r: seq<GroupBySimilarity>)
    ensures multiset(r) == multiset(s) + multiset{x}
  {
    if s == [] || x.groupByP <= s[0].groupByP then [x] + s
    else
      assert s == [s[0]] + s[1..];
      [s[0]] + Insert(x, s[1..])
  }

  /** A bound below `x` and below every entry of `s` is below every entry after inserting `x`. */
  lemma {:induction false} InsertKeepsLowerBound(x: GroupBySimilarity, s: seq<GroupBySimilarity>, bound: real)
    requires bound <= x.groupByP
    requires forall i :: 0 <= i < |s| ==> bound <= s[i].groupByP
    ensures forall i :: 0 <= i < |Insert(x, s)| ==> bound <= Insert(x, s)[i].groupByP
  {
    if s != [] && s[0].groupByP < x.groupByP {
      InsertKeepsLowerBound(x, s[1..], bound);
    }
  }

  /** Inserting into an ascending sequence keeps it ascending. */
  lemma {:induction false} InsertKeepsAscending(x: GroupBySimilarity, s: seq<GroupBySimilarity>)
    requires Ascending(s)
    ensures Ascending(Insert(x, s))
  {
    var r := Insert(x, s);
    if s == [] || x.groupByP <= s[0].groupByP {
      assert r == [x] + s;
      forall i, j | 0 <= i < j < |r| ensures r[i].groupByP <= r[j].groupByP {
        if i == 0 {
          assert r[j] == s[j - 1];
          assert s[0].groupByP <= s[j - 1].groupByP;
        } else {
          assert r[i] == s[i - 1] && r[j] == s[j - 1];
        }
      }
    } else {
      var rest := Insert(x, s[1..]);
      assert r == [s[0]] + rest;
      InsertKeepsAscending(x, s[1..]);
      InsertKeepsLowerBound(x, s[1..], s[0].groupByP);
      forall i, j | 0 <= i < j < |r| ensures r[i].groupByP <= r[j].groupByP {
        assert r[j] == rest[j - 1];
        if i > 0 {
          assert r[i] == rest[i - 1];
        }
      }
    }
  }

  /** The group-by settings in ascending `groupByP` order, equal keys in input order. */
  function SortByGroupByP(s: seq<GroupBySimilarity>): (r: seq<GroupBySimilarity>)
    ensures multiset(r) == multiset(s)
    ensures Ascending(r)
  {
    if s == [] then []
    else
      assert s == [s[0]] + s[1..];
      InsertKeepsAscending(s[0], SortByGroupByP(s[1..]));
      Insert(s[0], SortByGroupByP(s[1..]))
  }

  lemma {:induction false} InsertWithKey(x: GroupBySimilarity, s: seq<GroupBySimilarity>, k: real)
    ensures WithKey(Insert(x, s), k) == (if x.groupByP == k then [x] else []) + WithKey(s, k)
  {
    if s == [] || x.groupByP <= s[0].groupByP {
      assert ([x] + s)[1..] == s;
    } else {
      InsertWithKey(x, s[1..], k);
      assert ([s[0]] + Insert(x, s[1..]))[1..] == Insert(x, s[1..]);
    }
  }

  /** Sorting keeps, for every key, the entries with that key in their input order (stability). */
  lemma {:induction false} SortKeepsOrderOfEqualKeys(s: seq<GroupBySimilarity>, k: real)
    ensures WithKey(SortByGroupByP(s), k) == WithKey(s, k)
  {
    if s != [] {
      SortKeepsOrderOfEqualKeys(s[1..], k);
      InsertWithKey(s[0], SortByGroupByP(s[1..]), k);
    }
  }

  lemma {:induction false} WithKeyMembers(s: seq<GroupBySimilarity>, k: real, e: GroupBySimilarity)
    requires e in WithKey(s, k)
    ensures e in s && e.groupByP == k
  {
    if s != [] {
      if e != s[0] || s[0].groupByP != k {
        WithKeyMembers(s[1..], k, e);
      }
    }
  }

  lemma WithKeyOfHead(s: seq<GroupBySimilarity>)
    requires s != []
    ensures WithKey(s, s[0].groupByP) != []
  {
  }

  /** Two ascending sequences that agree, key by key, on their entries are equal. */
  lemma {:induction false} AscendingDeterminedByKeys(t: seq<GroupBySimilarity>, u: seq<GroupBySimilarity>)
    requires Ascending(t) && Ascending(u)
    requires forall k :: WithKey(t, k) == WithKey(u, k)
    ensures t == u
  {
    if t == [] && u == [] {
    } else if t == [] {
      WithKeyOfHead(u);
      assert false;
    } else if u == [] {
      WithKeyOfHead(t);
      assert false;
    } else {
      var m := t[0].groupByP;
      var n := u[0].groupByP;
      assert u[0] in WithKey(t, n) by { assert WithKey(u, n)[0] == u[0]; }
      WithKeyMembers(t, n, u[0]);
      assert t[0] in WithKey(u, m) by { assert WithKey(t, m)[0] == t[0]; }
      WithKeyMembers(u, m, t[0]);
      assert m == n;
      assert t[0] == u[0] by { assert WithKey(t, m)[0] == WithKey(u, m)[0]; }
      forall k ensures WithKey(t[1..], k) == WithKey(u[1..], k) {
        assert WithKey(t, k) == WithKey(u, k);
        assert t[0].groupByP == m && u[0].groupByP == m;
        if k == m {
          assert WithKey(t, k) == [t[0]] + WithKey(t[1..], k);
          assert WithKey(u, k) == [u[0]] + WithKey(u[1..], k);
          assert WithKey(t[1..], k) == WithKey(t, k)[1..];
          assert WithKey(u[1..], k) == WithKey(u, k)[1..];
        } else {
          assert WithKey(t, k) == [] + WithKey(t[1..], k) == WithKey(t[1..], k);
          assert WithKey(u, k) == [] + WithKey(u[1..], k) == WithKey(u[1..], k);
        }
      }
      AscendingDeterminedByKeys(t[1..], u[1..]);
      assert t == [t[0]] + t[1..] && u == [u[0]] + u[1..];
    }
  }

  /** `t` is `s` stably sorted: ascending, and for every key the same entries in the same order. */
  ghost predicate IsStableSortOf(t: seq<GroupBySimilarity>, s: seq<GroupBySimilarity>) {
    Ascending(t) && forall k :: WithKey(t, k) == WithKey(s, k)
  }

  /**
   * `SortByGroupByP` is exactly the stable ascending sort: a sequence is its
   * result if and only if it is ascending and keeps, for every key, the input's
   * entries with that key in their input order.
   */
  lemma {:induction false} SortIsTheStableSort(s: seq<GroupBySimilarity>, t: seq<GroupBySimilarity>)
    ensures t == SortByGroupByP(s) <==> IsStableSortOf(t, s)
  {
    var sorted := SortByGroupByP(s);
    forall k ensures WithKey(sorted, k) == WithKey(s, k) {
      SortKeepsOrderOfEqualKeys(s, k);
    }
    assert IsStableSortOf(sorted, s);
    if IsStableSortOf(t, s) {
      forall k ensures WithKey(t, k) == WithKey(sorted, k) {
        assert WithKey(t, k) == WithKey(s, k);
      }
      AscendingDeterminedByKeys(t, sorted);
    }
  }
}
