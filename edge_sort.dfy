/**
 * `significantEdges.sort((a, b) => b.length - a.length)`: JavaScript's sort is
 * stable, so edges of equal length keep the order the Map gave them. The model
 * is a stable insertion sort, proved to return a permutation of its input in
 * non-increasing order of length.
 */
module EdgeSort {
  import opened Geometry
  import opened EdgeSelection

  predicate NonIncreasing(s: seq<Edge>)
  {
    forall i, j :: 0 <= i < j < |s| ==> s[i].length >= s[j].length
  }

  /** Places `e` after every element of `s` at least as long as it. */
  function Insert(e: Edge, s: seq<Edge>): (r: seq<Edge>)
    ensures |r| == |s| + 1
    ensures multiset(r) == multiset(s) + multiset{e}
  {
    if s == [] then [e]
    else if s[0].length < e.length then [e] + s
    else
      assert s == [s[0]] + s[1..];
      [s[0]] + Insert(e, s[1..])
  }

  /** Inserting adds `e` and nothing else. */
  lemma InsertMembers(e: Edge, s: seq<Edge>)
    ensures forall x :: x in Insert(e, s) ==> x == e || x in s
  {
    forall x | x in Insert(e, s)
      ensures x == e || x in s
    {
      assert x in multiset(Insert(e, s));
    }
  }

  /** An edge at least as long as every edge of a sorted sequence can lead it. */
  lemma ConsKeepsOrder(x: Edge, s: seq<Edge>)
    requires NonIncreasing(s)
    requires forall j :: 0 <= j < |s| ==> x.length >= s[j].length
    ensures NonIncreasing([x] + s)
  {
    var r := [x] + s;
    forall i, j | 0 <= i < j < |r|
      ensures r[i].length >= r[j].length
    {
      assert r[j] == s[j - 1];
      if i > 0 {
        assert r[i] == s[i - 1];
      }
    }
  }

  lemma {:induction false} InsertKeepsOrder(e: Edge, s: seq<Edge>)
    requires NonIncreasing(s)
    ensures NonIncreasing(Insert(e, s))
  {
    if s == [] {
    } else if s[0].length < e.length {
      ConsKeepsOrder(e, s);
    } else {
      var rest := Insert(e, s[1..]);
      InsertKeepsOrder(e, s[1..]);
      InsertMembers(e, s[1..]);
      forall j | 0 <= j < |rest|
        ensures s[0].length >= rest[j].length
      {
        assert rest[j] in rest;
        if rest[j] != e {
          var m :| 0 <= m < |s| - 1 && s[1..][m] == rest[j];
          assert s[m + 1] == rest[j];
        }
      }
      ConsKeepsOrder(s[0], rest);
    }
  }

  /** The edges ordered by non-increasing length; equal lengths keep their order. */
  function SortByLengthDesc(s: seq<Edge>): (r: seq<Edge>)
    ensures |r| == |s|
    ensures multiset(r) == multiset(s)
    ensures NonIncreasing(r)
  {
    if s == [] then []
    else
      assert s == s[..|s| - 1] + [s[|s| - 1]];
      InsertKeepsOrder(s[|s| - 1], SortByLengthDesc(s[..|s| - 1]));
      Insert(s[|s| - 1], SortByLengthDesc(s[..|s| - 1]))
  }

  /** No two edges share a key. */
  ghost predicate DistinctKeys(key: Edge -> string, s: seq<Edge>)
  {
    forall i, j :: 0 <= i < j < |s| ==> key(s[i]) != key(s[j])
  }

  /** An edge whose key no edge of `s` shares can lead it. */
  lemma ConsKeepsDistinctKeys(key: Edge -> string, x: Edge, s: seq<Edge>)
    requires DistinctKeys(key, s)
    requires forall j :: 0 <= j < |s| ==> key(s[j]) != key(x)
    ensures DistinctKeys(key, [x] + s)
  {
    var r := [x] + s;
    forall i, j | 0 <= i < j < |r|
      ensures key(r[i]) != key(r[j])
    {
      assert r[j] == s[j - 1];
      if i > 0 {
        assert r[i] == s[i - 1];
      }
    }
  }

  lemma {:induction false} InsertKeepsDistinctKeys(key: Edge -> string, e: Edge, s: seq<Edge>)
    requires DistinctKeys(key, s)
    requires forall x :: x in s ==> key(x) != key(e)
    ensures DistinctKeys(key, Insert(e, s))
  {
    if s == [] {
    } else if s[0].length < e.length {
      ConsKeepsDistinctKeys(key, e, s);
    } else {
      var rest := Insert(e, s[1..]);
      InsertKeepsDistinctKeys(key, e, s[1..]);
      InsertMembers(e, s[1..]);
      forall j | 0 <= j < |rest|
        ensures key(rest[j]) != key(s[0])
      {
        assert rest[j] in rest;
        if rest[j] != e {
          var m :| 0 <= m < |s| - 1 && s[1..][m] == rest[j];
          assert s[m + 1] == rest[j];
        }
      }
      ConsKeepsDistinctKeys(key, s[0], rest);
    }
  }

  /** Sorting keeps the keys distinct. */
  lemma {:induction false} SortKeepsDistinctKeys(key: Edge -> string, s: seq<Edge>)
    requires DistinctKeys(key, s)
    ensures DistinctKeys(key, SortByLengthDesc(s))
  {
    if s != [] {
      var init, last := s[..|s| - 1], s[|s| - 1];
      SortKeepsDistinctKeys(key, init);
      var sorted := SortByLengthDesc(init);
      forall x | x in sorted
        ensures key(x) != key(last)
      {
        assert x in multiset(sorted);
        var i :| 0 <= i < |init| && init[i] == x;
        assert s[i] == x;
      }
      InsertKeepsDistinctKeys(key, last, sorted);
    }
  }

  /** The first `n` sorted edges: longest first, keys distinct, all from the input. */
  lemma SortedPrefix(key: Edge -> string, s: seq<Edge>, n: nat)
    requires DistinctKeys(key, s)
    requires n <= |s|
    ensures var r := SortByLengthDesc(s)[..n];
      && NonIncreasing(r)
      && DistinctKeys(key, r)
      && forall e :: e in r ==> e in s
  {
    var sorted := SortByLengthDesc(s);
    SortKeepsDistinctKeys(key, s);
    forall e | e in sorted[..n]
      ensures e in s
    {
      assert e in multiset(sorted);
    }
  }

  /** An edge that the cut leaves out is no longer than any edge the cut keeps. */
  lemma SortedPrefixDropsShorter(s: seq<Edge>, n: nat, x: Edge)
    requires x in s
    requires n <= |s|
    ensures var r := SortByLengthDesc(s)[..n];
      x in r || (n < |s| && forall e :: e in r ==> e.length >= x.length)
  {
    var sorted := SortByLengthDesc(s);
    assert x in multiset(sorted);
    var m :| 0 <= m < |sorted| && sorted[m] == x;
    if m < n {
      assert sorted[..n][m] == x;
    } else {
      forall e | e in sorted[..n]
        ensures e.length >= x.length
      {
        var i :| 0 <= i < n && sorted[..n][i] == e;
      }
    }
  }
}
