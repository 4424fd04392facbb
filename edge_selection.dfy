/**
 * The specification of getSignificantEdges: which triangle edges are
 * candidates, which of them qualify, and the keyed table (a JavaScript Map,
 * which remembers insertion order) that keeps the longest qualifying edge
 * seen for each key.
 */
module EdgeSelection {
  import opened Geometry
  import opened EdgeKeys

  /** The object literal `{start, end, length, direction}` built for an edge. */
  datatype Edge = Edge(start: Point, end: Point, length: real, direction: Point)

  /** The test applied to each direction component: `Math.abs(Math.abs(c) - 1) < 0.26`. */
  predicate AlmostUnit(c: real)
  {
    Abs(Abs(c) - 1.0) < 0.26
  }

  /** Some component of the direction passes the test (`toArray().some(...)`). */
  predicate IsAligned(d: Point)
  {
    AlmostUnit(d.x) || AlmostUnit(d.y) || AlmostUnit(d.z)
  }

  /** As written, the test accepts a component whose magnitude lies in (0.74, 1.26). */
  lemma AlmostUnitMeans(c: real)
    ensures AlmostUnit(c) <==> 0.74 < Abs(c) < 1.26
  {
  }

  /** The edge record built for the walk from `v1` to `v2`. */
  function MakeEdge(num: Numerics, v1: Point, v2: Point): Edge
  {
    Edge(v1, v2, num.distance(v1, v2), num.normalize(Sub(v2, v1)))
  }

  /** An edge is kept when it is longer than the threshold and aligned with an axis. */
  predicate Qualifies(num: Numerics, threshold: real, v1: Point, v2: Point)
  {
    num.distance(v1, v2) > threshold && IsAligned(MakeEdge(num, v1, v2).direction)
  }

  /** The key of an edge record, from its own endpoints. */
  function KeyOf(num: Numerics, e: Edge): string
  {
    EdgeKey(num, e.start, e.end)
  }

  /** Vertex `j` of triangle `t` of a position array read as a triangle list. */
  function Vertex(positions: seq<real>, t: nat, j: nat): Point
    requires j < 3 && 9 * t + 9 <= |positions|
  {
    Point(positions[9 * t + 3 * j], positions[9 * t + 3 * j + 1], positions[9 * t + 3 * j + 2])
  }

  /** Edge `j` of triangle `t`: from vertex `j` to vertex `(j + 1) % 3`. */
  function TriangleEdge(positions: seq<real>, t: nat, j: nat): (Point, Point)
    requires j < 3 && 9 * t + 9 <= |positions|
  {
    (Vertex(positions, t, j), Vertex(positions, t, (j + 1) % 3))
  }

  /** The three edges of triangle `t`, in the order the inner loop visits them. */
  function TriangleEdges(positions: seq<real>, t: nat): seq<(Point, Point)>
    requires 9 * t + 9 <= |positions|
  {
    [TriangleEdge(positions, t, 0), TriangleEdge(positions, t, 1), TriangleEdge(positions, t, 2)]
  }

  /** The edges of the first `n` triangles, in visiting order. */
  function CandidatesUpTo(positions: seq<real>, n: nat): (c: seq<(Point, Point)>)
    requires 9 * n <= |positions|
    ensures |c| == 3 * n
  {
    if n == 0 then [] else CandidatesUpTo(positions, n - 1) + TriangleEdges(positions, n - 1)
  }

  /** Every edge the loops visit, in visiting order: three per whole triangle. */
  function Candidates(positions: seq<real>): (c: seq<(Point, Point)>)
    ensures |c| == 3 * (|positions| / 9)
  {
    CandidatesUpTo(positions, |positions| / 9)
  }

  /** A Map from key to edge together with the order in which keys were first set. */
  datatype Table = Table(entries: map<string, Edge>, order: seq<string>)

  const EmptyTable := Table(map[], [])

  /** The order lists exactly the keys of the map, each once. */
  ghost predicate WellFormed(t: Table)
  {
    && (forall k :: k in t.entries <==> k in t.order)
    && (forall i, j :: 0 <= i < j < |t.order| ==> t.order[i] != t.order[j])
  }

  /**
   * One step of the inner loop: the edge from `v1` to `v2` replaces the entry
   * of its key when it qualifies and the key is new or the edge is strictly
   * longer. Setting a key already present keeps its place in the order.
   */
  function Offer(num: Numerics, threshold: real, t: Table, v1: Point, v2: Point): Table
  {
    if !Qualifies(num, threshold, v1, v2) then t
    else
      var key := EdgeKey(num, v1, v2);
      var edge := MakeEdge(num, v1, v2);
      if key !in t.entries then Table(t.entries[key := edge], t.order + [key])
      else if edge.length > t.entries[key].length then Table(t.entries[key := edge], t.order)
      else t
  }

  /** The table after offering every candidate of `c`, first to last. */
  function Collect(num: Numerics, threshold: real, c: seq<(Point, Point)>): Table
  {
    if c == [] then EmptyTable
    else Offer(num, threshold, Collect(num, threshold, c[..|c| - 1]), c[|c| - 1].0, c[|c| - 1].1)
  }

  /** Collecting one more candidate is one more offer. */
  lemma CollectSnoc(num: Numerics, threshold: real, c: seq<(Point, Point)>, p: (Point, Point))
    ensures Collect(num, threshold, c + [p]) == Offer(num, threshold, Collect(num, threshold, c), p.0, p.1)
  {
    assert (c + [p])[..|c|] == c;
  }

  /** Offering edge `j` of triangle `t` extends the collected prefix of the triangle by one. */
  lemma CollectTriangleStep(num: Numerics, threshold: real, seen: seq<(Point, Point)>, positions: seq<real>, t: nat, j: nat)
    requires j < 3 && 9 * t + 9 <= |positions|
    ensures var e := TriangleEdge(positions, t, j);
      Collect(num, threshold, seen + TriangleEdges(positions, t)[..j + 1])
      == Offer(num, threshold, Collect(num, threshold, seen + TriangleEdges(positions, t)[..j]), e.0, e.1)
  {
    var triangle := TriangleEdges(positions, t);
    assert seen + triangle[..j + 1] == seen + triangle[..j] + [triangle[j]];
    CollectSnoc(num, threshold, seen + triangle[..j], triangle[j]);
  }

  /**
   * `Array.from(edges.values())`: the edges in the order their keys were first
   * set. The ensures only unfold the definition. That the order is insertion
   * order is proved in `CollectKeepsFirstSeenOrder`.
   */
  function Values(t: Table): (vs: seq<Edge>)
    requires WellFormed(t)
    ensures |vs| == |t.order|
    ensures forall i :: 0 <= i < |vs| ==> vs[i] == t.entries[t.order[i]]
  {
    seq(|t.order|, i requires 0 <= i < |t.order| => t.entries[t.order[i]])
  }

  /** What the table holds: well-formed entries, each a qualifying candidate stored under its own key. */
  ghost predicate Sound(num: Numerics, threshold: real, c: seq<(Point, Point)>, t: Table)
  {
    && WellFormed(t)
    && (forall k :: k in t.entries ==>
          && (t.entries[k].start, t.entries[k].end) in c
          && Qualifies(num, threshold, t.entries[k].start, t.entries[k].end)
          && t.entries[k] == MakeEdge(num, t.entries[k].start, t.entries[k].end)
          && k == KeyOf(num, t.entries[k]))
  }

  /** Every qualifying candidate seen has its key in the table, with an entry at least as long. */
  ghost predicate Longest(num: Numerics, threshold: real, c: seq<(Point, Point)>, t: Table)
  {
    forall p :: p in c && Qualifies(num, threshold, p.0, p.1) ==>
      && EdgeKey(num, p.0, p.1) in t.entries
      && t.entries[EdgeKey(num, p.0, p.1)].length >= num.distance(p.0, p.1)
  }

  /**
   * One offer keeps the table well formed: a qualifying edge with a new key
   * goes once to the end of the order, and otherwise the order stays as it
   * was, so a key already present keeps its place.
   */
  lemma OfferKeepsWellFormed(num: Numerics, threshold: real, t: Table, v1: Point, v2: Point)
    requires WellFormed(t)
    ensures WellFormed(Offer(num, threshold, t, v1, v2))
    ensures Offer(num, threshold, t, v1, v2).order ==
      if Qualifies(num, threshold, v1, v2) && EdgeKey(num, v1, v2) !in t.entries
      then t.order + [EdgeKey(num, v1, v2)]
      else t.order
  {
    var t2 := Offer(num, threshold, t, v1, v2);
    var key := EdgeKey(num, v1, v2);
    if Qualifies(num, threshold, v1, v2) && key !in t.entries {
      assert t2.order == t.order + [key];
      forall i, j | 0 <= i < j < |t2.order|
        ensures t2.order[i] != t2.order[j]
      {
        if j == |t.order| {
          assert t2.order[i] == t.order[i] && t.order[i] in t.entries;
        }
      }
    }
  }

  /**
   * The index of the first candidate of `c` that qualifies and has key `k`,
   * or `|c|` when there is none.
   */
  function FirstWith(num: Numerics, threshold: real, c: seq<(Point, Point)>, k: string): (n: nat)
    ensures n <= |c|
  {
    if c == [] then 0
    else
      var n := FirstWith(num, threshold, c[..|c| - 1], k);
      if n < |c| - 1 then n
      else if Qualifies(num, threshold, c[|c| - 1].0, c[|c| - 1].1) && EdgeKey(num, c[|c| - 1].0, c[|c| - 1].1) == k then |c| - 1
      else |c|
  }

  /** `FirstWith` finds a qualifying candidate with the key, and no earlier one has it. */
  lemma {:induction false} FirstWithIsFirst(num: Numerics, threshold: real, c: seq<(Point, Point)>, k: string)
    ensures var n := FirstWith(num, threshold, c, k);
      && (n < |c| ==> Qualifies(num, threshold, c[n].0, c[n].1) && EdgeKey(num, c[n].0, c[n].1) == k)
      && forall m :: 0 <= m < n ==> !(Qualifies(num, threshold, c[m].0, c[m].1) && EdgeKey(num, c[m].0, c[m].1) == k)
  {
    if c != [] {
      var c' := c[..|c| - 1];
      FirstWithIsFirst(num, threshold, c', k);
      assert forall m :: 0 <= m < |c'| ==> c[m] == c'[m];
    }
  }

  /**
   * Insertion order: every key of `order` belongs to some qualifying candidate
   * of `c`, and the keys are listed in the order their first qualifying
   * candidates appear in `c`.
   */
  ghost predicate FirstSeenOrder(num: Numerics, threshold: real, c: seq<(Point, Point)>, order: seq<string>)
  {
    && (forall i :: 0 <= i < |order| ==> FirstWith(num, threshold, c, order[i]) < |c|)
    && (forall i, j :: 0 <= i < j < |order| ==>
          FirstWith(num, threshold, c, order[i]) < FirstWith(num, threshold, c, order[j]))
  }

  /** One offer keeps the table sound for the candidates seen so far. */
  lemma OfferKeepsSound(num: Numerics, threshold: real, c: seq<(Point, Point)>, t: Table, v1: Point, v2: Point)
    requires Sound(num, threshold, c, t)
    ensures Sound(num, threshold, c + [(v1, v2)], Offer(num, threshold, t, v1, v2))
  {
    var c2, t2 := c + [(v1, v2)], Offer(num, threshold, t, v1, v2);
    OfferKeepsWellFormed(num, threshold, t, v1, v2);
    forall k | k in t2.entries
      ensures var e := t2.entries[k];
        && (e.start, e.end) in c2 && Qualifies(num, threshold, e.start, e.end)
        && e == MakeEdge(num, e.start, e.end) && k == KeyOf(num, e)
    {
      OfferEntry(num, threshold, t, v1, v2, k);
    }
  }

  /** An entry after an offer is the old entry, or the offered edge under its own key. */
  lemma OfferEntry(num: Numerics, threshold: real, t: Table, v1: Point, v2: Point, k: string)
    requires k in Offer(num, threshold, t, v1, v2).entries
    ensures var e := Offer(num, threshold, t, v1, v2).entries[k];
      || (k in t.entries && e == t.entries[k])
      || (Qualifies(num, threshold, v1, v2) && k == EdgeKey(num, v1, v2) && e == MakeEdge(num, v1, v2))
  {
  }

  /** One offer keeps every qualifying candidate seen so far covered by an entry at least as long. */
  lemma OfferKeepsLongest(num: Numerics, threshold: real, c: seq<(Point, Point)>, t: Table, v1: Point, v2: Point)
    requires Longest(num, threshold, c, t)
    ensures Longest(num, threshold, c + [(v1, v2)], Offer(num, threshold, t, v1, v2))
  {
    var c2, t2 := c + [(v1, v2)], Offer(num, threshold, t, v1, v2);
    if t2 != t {
      var key, edge := EdgeKey(num, v1, v2), MakeEdge(num, v1, v2);
      assert Qualifies(num, threshold, v1, v2) && t2.entries == t.entries[key := edge];
      assert key in t.entries ==> edge.length > t.entries[key].length;
      forall p | p in c2 && Qualifies(num, threshold, p.0, p.1)
        ensures EdgeKey(num, p.0, p.1) in t2.entries
        ensures t2.entries[EdgeKey(num, p.0, p.1)].length >= num.distance(p.0, p.1)
      {
        if p != (v1, v2) {
          assert p in c;
        }
      }
    } else {
      forall p | p in c2 && Qualifies(num, threshold, p.0, p.1)
        ensures EdgeKey(num, p.0, p.1) in t2.entries
        ensures t2.entries[EdgeKey(num, p.0, p.1)].length >= num.distance(p.0, p.1)
      {
        if p != (v1, v2) {
          assert p in c;
        }
      }
    }
  }

  /**
   * The deduplication map keeps, for each key, the longest qualifying candidate
   * seen under it, and holds nothing else.
   */
  lemma {:induction false} CollectKeepsLongest(num: Numerics, threshold: real, c: seq<(Point, Point)>)
    ensures Sound(num, threshold, c, Collect(num, threshold, c))
    ensures Longest(num, threshold, c, Collect(num, threshold, c))
  {
    if c != [] {
      var c' := c[..|c| - 1];
      CollectKeepsLongest(num, threshold, c');
      OfferKeepsSound(num, threshold, c', Collect(num, threshold, c'), c[|c| - 1].0, c[|c| - 1].1);
      OfferKeepsLongest(num, threshold, c', Collect(num, threshold, c'), c[|c| - 1].0, c[|c| - 1].1);
      assert c' + [(c[|c| - 1].0, c[|c| - 1].1)] == c;
    }
  }

  /** A qualifying candidate whose key the table has not seen is the first with that key. */
  lemma FirstWithNewKey(num: Numerics, threshold: real, c: seq<(Point, Point)>, t: Table)
    requires c != [] && Longest(num, threshold, c[..|c| - 1], t)
    requires Qualifies(num, threshold, c[|c| - 1].0, c[|c| - 1].1)
    requires EdgeKey(num, c[|c| - 1].0, c[|c| - 1].1) !in t.entries
    ensures FirstWith(num, threshold, c, EdgeKey(num, c[|c| - 1].0, c[|c| - 1].1)) == |c| - 1
  {
    var c' := c[..|c| - 1];
    FirstWithIsFirst(num, threshold, c', EdgeKey(num, c[|c| - 1].0, c[|c| - 1].1));
  }

  /** Seeing one more candidate keeps the order first-seen when at most its own new key is appended. */
  lemma FirstSeenSnoc(num: Numerics, threshold: real, c: seq<(Point, Point)>, before: seq<string>, after: seq<string>)
    requires c != [] && FirstSeenOrder(num, threshold, c[..|c| - 1], before)
    requires || after == before
             || (&& |after| == |before| + 1 && after[..|before|] == before
                 && FirstWith(num, threshold, c, after[|before|]) == |c| - 1)
    ensures FirstSeenOrder(num, threshold, c, after)
  {
    forall i | 0 <= i < |before|
      ensures FirstWith(num, threshold, c, after[i]) == FirstWith(num, threshold, c[..|c| - 1], before[i])
    {
      assert after[i] == before[i];
    }
  }

  /** The deduplication map lists its keys in the order their first qualifying candidates were seen. */
  lemma {:induction false} CollectKeepsFirstSeenOrder(num: Numerics, threshold: real, c: seq<(Point, Point)>)
    ensures FirstSeenOrder(num, threshold, c, Collect(num, threshold, c).order)
  {
    if c != [] {
      var c', p := c[..|c| - 1], c[|c| - 1];
      var t := Collect(num, threshold, c');
      CollectKeepsFirstSeenOrder(num, threshold, c');
      CollectKeepsLongest(num, threshold, c');
      OfferKeepsWellFormed(num, threshold, t, p.0, p.1);
      var order := Collect(num, threshold, c).order;
      if order != t.order {
        FirstWithNewKey(num, threshold, c, t);
        assert order[..|t.order|] == t.order;
      }
      FirstSeenSnoc(num, threshold, c, t.order, order);
    }
  }

  /**
   * The index of the first candidate of `c` that qualifies, has key `k` and is
   * at least `len` long, or `|c|` when there is none.
   */
  function FirstAtLeast(num: Numerics, threshold: real, c: seq<(Point, Point)>, k: string, len: real): (n: nat)
    ensures n <= |c|
  {
    if c == [] then 0
    else
      var n := FirstAtLeast(num, threshold, c[..|c| - 1], k, len);
      var p := c[|c| - 1];
      if n < |c| - 1 then n
      else if Qualifies(num, threshold, p.0, p.1) && EdgeKey(num, p.0, p.1) == k && num.distance(p.0, p.1) >= len
      then |c| - 1
      else |c|
  }

  /** `FirstAtLeast` finds a qualifying candidate with the key and at least the length. */
  lemma {:induction false} FirstAtLeastFinds(num: Numerics, threshold: real, c: seq<(Point, Point)>, k: string, len: real)
    ensures var n := FirstAtLeast(num, threshold, c, k, len);
      n < |c| ==> Qualifies(num, threshold, c[n].0, c[n].1) && EdgeKey(num, c[n].0, c[n].1) == k
                  && num.distance(c[n].0, c[n].1) >= len
  {
    if c != [] {
      var c' := c[..|c| - 1];
      FirstAtLeastFinds(num, threshold, c', k, len);
      var n := FirstAtLeast(num, threshold, c', k, len);
      if n < |c'| {
        assert c[n] == c'[n];
      }
    }
  }

  /**
   * Each entry is the earliest candidate with its key that is as long as the
   * entry. Together with `Longest`, the entry is the first of the longest
   * candidates with its key: a later edge of equal length does not replace it.
   */
  ghost predicate FirstOfLongest(num: Numerics, threshold: real, c: seq<(Point, Point)>, t: Table)
  {
    forall k :: k in t.entries ==>
      var n := FirstAtLeast(num, threshold, c, k, t.entries[k].length);
      n < |c| && t.entries[k] == MakeEdge(num, c[n].0, c[n].1)
  }

  /** No candidate seen so far reaches a length the table's entry for the key falls short of. */
  lemma FirstAtLeastNone(num: Numerics, threshold: real, c: seq<(Point, Point)>, t: Table, k: string, len: real)
    requires Longest(num, threshold, c, t)
    requires k in t.entries ==> t.entries[k].length < len
    ensures FirstAtLeast(num, threshold, c, k, len) == |c|
  {
    FirstAtLeastFinds(num, threshold, c, k, len);
    forall m | 0 <= m < |c| && Qualifies(num, threshold, c[m].0, c[m].1) && EdgeKey(num, c[m].0, c[m].1) == k
      ensures num.distance(c[m].0, c[m].1) < len
    {
      assert c[m] in c;
    }
  }

  /** One more offer keeps every entry the first of the longest candidates with its key. */
  lemma OfferKeepsFirstOfLongest(num: Numerics, threshold: real, c: seq<(Point, Point)>, t: Table)
    requires c != [] && Longest(num, threshold, c[..|c| - 1], t) && FirstOfLongest(num, threshold, c[..|c| - 1], t)
    ensures FirstOfLongest(num, threshold, c, Offer(num, threshold, t, c[|c| - 1].0, c[|c| - 1].1))
  {
    var c', p := c[..|c| - 1], c[|c| - 1];
    var t2 := Offer(num, threshold, t, p.0, p.1);
    forall k | k in t2.entries
      ensures var n := FirstAtLeast(num, threshold, c, k, t2.entries[k].length);
        n < |c| && t2.entries[k] == MakeEdge(num, c[n].0, c[n].1)
    {
      OfferEntry(num, threshold, t, p.0, p.1, k);
      if k in t.entries && t2.entries[k] == t.entries[k] {
        var n := FirstAtLeast(num, threshold, c', k, t.entries[k].length);
        assert c[n] == c'[n];
      } else {
        FirstAtLeastNone(num, threshold, c', t, k, num.distance(p.0, p.1));
      }
    }
  }

  /**
   * Because the replacement test is a strict `>`, the map keeps for each key
   * the first of the longest qualifying candidates seen under it.
   */
  lemma {:induction false} CollectKeepsFirstOfLongest(num: Numerics, threshold: real, c: seq<(Point, Point)>)
    ensures FirstOfLongest(num, threshold, c, Collect(num, threshold, c))
  {
    if c != [] {
      var c' := c[..|c| - 1];
      CollectKeepsFirstOfLongest(num, threshold, c');
      CollectKeepsLongest(num, threshold, c');
      OfferKeepsFirstOfLongest(num, threshold, c, Collect(num, threshold, c'));
    }
  }
}
