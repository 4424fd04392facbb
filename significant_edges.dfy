/**
 * getSignificantEdges: scan a position array triangle by triangle (nine
 * numbers each; the geometry's index is never read), keep the long
 * axis-aligned edges, deduplicate them by key keeping the longest, and return
 * the twelve longest.
 */
module SignificantEdges {
  import opened Geometry
  import opened EdgeKeys
  import opened EdgeSelection
  import opened EdgeSort

  /** `maxEdges`: how many edges are returned at most. */
  const MaxEdges: nat := 12

  function Min(a: nat, b: nat): nat
  {
    if a < b then a else b
  }

  /** `this.getBoundingBoxSize() * 0.1`: edges must be longer than this. */
  function Threshold(box: Box): real
  {
    ModelSize(box) * 0.1
  }

  /**
   * The Map after both loops have run over every whole triangle: each key once,
   * in the order its first qualifying edge was seen.
   */
  function Deduplicated(num: Numerics, box: Box, positions: seq<real>): (t: Table)
    ensures WellFormed(t)
    ensures FirstSeenOrder(num, Threshold(box), Candidates(positions), t.order)
  {
    CollectKeepsLongest(num, Threshold(box), Candidates(positions));
    CollectKeepsFirstSeenOrder(num, Threshold(box), Candidates(positions));
    Collect(num, Threshold(box), Candidates(positions))
  }

  /** The Map's values after sorting by descending length. */
  function Ranked(num: Numerics, box: Box, positions: seq<real>): seq<Edge>
  {
    SortByLengthDesc(Values(Deduplicated(num, box, positions)))
  }

  /** What getSignificantEdges returns: the first `MaxEdges` ranked edges. */
  function SelectSignificant(num: Numerics, box: Box, positions: seq<real>): seq<Edge>
  {
    var ranked := Ranked(num, box, positions);
    ranked[..Min(MaxEdges, |ranked|)]
  }

  /**
   * `Array.from(edges.values())` lists the edges by insertion order: of two
   * values, the one whose key was first met by a qualifying edge comes first.
   */
  lemma ValuesInFirstSeenOrder(num: Numerics, box: Box, positions: seq<real>)
    ensures var vs, c := Values(Deduplicated(num, box, positions)), Candidates(positions);
      forall i, j :: 0 <= i < j < |vs| ==>
        FirstWith(num, Threshold(box), c, KeyOf(num, vs[i])) < FirstWith(num, Threshold(box), c, KeyOf(num, vs[j]))
  {
    ValuesAreCandidates(num, box, positions);
  }

  /** Every edge in the Map is a qualifying candidate stored under its own key. */
  lemma ValuesAreCandidates(num: Numerics, box: Box, positions: seq<real>)
    ensures var vs := Values(Deduplicated(num, box, positions));
      && DistinctKeys(e => KeyOf(num, e), vs)
      && (forall i :: 0 <= i < |vs| ==> KeyOf(num, vs[i]) == Deduplicated(num, box, positions).order[i])
      && forall e :: e in vs ==>
           && (e.start, e.end) in Candidates(positions)
           && Qualifies(num, Threshold(box), e.start, e.end)
           && e == MakeEdge(num, e.start, e.end)
           && KeyOf(num, e) in Deduplicated(num, box, positions).entries
           && Deduplicated(num, box, positions).entries[KeyOf(num, e)] == e
  {
    var c := Candidates(positions);
    var t := Deduplicated(num, box, positions);
    var vs := Values(t);
    CollectKeepsLongest(num, Threshold(box), c);
    forall i | 0 <= i < |vs|
      ensures KeyOf(num, vs[i]) == t.order[i]
    {
      assert t.order[i] in t.entries;
    }
    forall e | e in vs
      ensures (e.start, e.end) in c && Qualifies(num, Threshold(box), e.start, e.end)
      ensures e == MakeEdge(num, e.start, e.end)
      ensures KeyOf(num, e) in t.entries && t.entries[KeyOf(num, e)] == e
    {
      var i :| 0 <= i < |vs| && vs[i] == e;
      assert t.order[i] in t.entries;
    }
  }

  /**
   * The guarantees of getSignificantEdges: at most twelve edges, longest
   * first, no key twice, and each one a candidate edge of the buffer longer
   * than a tenth of the model size whose direction passes the alignment test.
   */
  lemma SignificantEdgesGuarantees(num: Numerics, box: Box, positions: seq<real>)
    ensures var r := SelectSignificant(num, box, positions);
      && |r| <= MaxEdges
      && NonIncreasing(r)
      && DistinctKeys(e => KeyOf(num, e), r)
      && forall e :: e in r ==>
           && (e.start, e.end) in Candidates(positions)
           && e.length > Threshold(box)
           && IsAligned(e.direction)
           && e == MakeEdge(num, e.start, e.end)
  {
    var vs := Values(Deduplicated(num, box, positions));
    ValuesAreCandidates(num, box, positions);
    SortedPrefix(e => KeyOf(num, e), vs, Min(MaxEdges, |vs|));
  }

  /**
   * Each returned edge is the longest qualifying candidate under its key: no
   * candidate that passes the filter and shares its key is longer.
   */
  lemma ReturnedEdgesAreLongestPerKey(num: Numerics, box: Box, positions: seq<real>)
    ensures forall e, p :: e in SelectSignificant(num, box, positions) && p in Candidates(positions)
                           && Qualifies(num, Threshold(box), p.0, p.1) && EdgeKey(num, p.0, p.1) == KeyOf(num, e)
                           ==> num.distance(p.0, p.1) <= e.length
  {
    var vs := Values(Deduplicated(num, box, positions));
    ValuesAreCandidates(num, box, positions);
    CollectKeepsLongest(num, Threshold(box), Candidates(positions));
    SortedPrefix(e => KeyOf(num, e), vs, Min(MaxEdges, |vs|));
  }

  /**
   * Truncation drops only the shorter edges: the key of every qualifying
   * candidate is represented in the result, unless twelve edges were returned
   * and each of them is at least as long as that candidate.
   */
  lemma TruncationKeepsTheLongest(num: Numerics, box: Box, positions: seq<real>, p: (Point, Point))
    requires p in Candidates(positions) && Qualifies(num, Threshold(box), p.0, p.1)
    ensures var r := SelectSignificant(num, box, positions);
      || (exists e :: e in r && KeyOf(num, e) == EdgeKey(num, p.0, p.1))
      || (|r| == MaxEdges && forall e :: e in r ==> e.length >= num.distance(p.0, p.1))
  {
    var t := Deduplicated(num, box, positions);
    var vs := Values(t);
    CollectKeepsLongest(num, Threshold(box), Candidates(positions));
    ValuesAreCandidates(num, box, positions);
    var k := EdgeKey(num, p.0, p.1);
    var best := t.entries[k];
    var i :| 0 <= i < |t.order| && t.order[i] == k;
    assert vs[i] == best && KeyOf(num, best) == k;
    assert best.length >= num.distance(p.0, p.1);
    SortedPrefixDropsShorter(vs, Min(MaxEdges, |vs|), best);
  }

  /**
   * The body of the inner loop for the edge from `v1` to `v2`: measure it,
   * and when it is long enough and aligned, set its key in the Map unless the
   * Map already holds an edge under that key at least as long.
   */
  method ConsiderEdge(num: Numerics, threshold: real, edges: map<string, Edge>, order: seq<string>,
                      v1: Point, v2: Point)
    returns (edges': map<string, Edge>, order': seq<string>)
    ensures Table(edges', order') == Offer(num, threshold, Table(edges, order), v1, v2)
  {
    edges', order' := edges, order;
    var length := num.distance(v1, v2);
    if length > threshold {
      var edge := Edge(v1, v2, length, num.normalize(Sub(v2, v1)));
      var isAligned := AlmostUnit(edge.direction.x) || AlmostUnit(edge.direction.y) || AlmostUnit(edge.direction.z);
      if isAligned {
        var key := EdgeKey(num, v1, v2);
        if key !in edges || length > edges[key].length {
          if key !in edges {
            order' := order + [key];
          }
          edges' := edges[key := edge];
        }
      }
    }
  }

  /**
   * "Check each edge of the triangle": the inner loop over the three edges
   * `j -> (j + 1) % 3` of triangle `t`, whose vertices start at `9 * t`, applied
   * to the Map built from the edges `seen` so far.
   */
  method ConsiderTriangle(num: Numerics, threshold: real, edges: map<string, Edge>, order: seq<string>,
                          positions: seq<real>, t: nat, ghost seen: seq<(Point, Point)>)
    returns (edges': map<string, Edge>, order': seq<string>)
    requires 9 * t + 9 <= |positions|
    requires Table(edges, order) == Collect(num, threshold, seen)
    ensures Table(edges', order') == Collect(num, threshold, seen + TriangleEdges(positions, t))
  {
    var vertices := [Vertex(positions, t, 0), Vertex(positions, t, 1), Vertex(positions, t, 2)];
    ghost var triangle := TriangleEdges(positions, t);
    edges', order' := edges, order;
    var j := 0;
    assert seen + triangle[..0] == seen;
    while j < 3
      invariant 0 <= j <= 3
      invariant Table(edges', order') == Collect(num, threshold, seen + triangle[..j])
    {
      CollectTriangleStep(num, threshold, seen, positions, t, j);
      assert (vertices[j], vertices[(j + 1) % 3]) == triangle[j];
      edges', order' := ConsiderEdge(num, threshold, edges', order', vertices[j], vertices[(j + 1) % 3]);
      j := j + 1;
    }
    assert triangle[..3] == triangle;
  }

  /**
   * The scanning half of getSignificantEdges: a loop over the position array,
   * 9 numbers per triangle. The source does not
   * check bounds: a length that is not a multiple of 9 would make it read past
   * the end.
   */
  method CollectEdges(num: Numerics, threshold: real, positions: seq<real>)
    returns (edges: map<string, Edge>, order: seq<string>)
    requires |positions| % 9 == 0
    ensures Table(edges, order) == Collect(num, threshold, Candidates(positions))
  {
    ghost var triangles := |positions| / 9;
    assert |positions| == 9 * triangles;
    edges, order := map[], [];
    var i, t := 0, 0;
    while i < |positions|
      invariant i == 9 * t && t <= triangles
      invariant Table(edges, order) == Collect(num, threshold, CandidatesUpTo(positions, t))
    {
      edges, order := ConsiderTriangle(num, threshold, edges, order, positions, t, CandidatesUpTo(positions, t));
      i, t := i + 9, t + 1;
    }
  }

  /**
   * getSignificantEdges: the threshold from the model size, the scan, then
   * the Map's values sorted by descending length and cut to `MaxEdges`.
   */
  method GetSignificantEdges(num: Numerics, box: Box, positions: seq<real>) returns (r: seq<Edge>)
    requires |positions| % 9 == 0
    ensures r == SelectSignificant(num, box, positions)
  {
    var threshold := ModelSize(box) * 0.1;
    var edges, order := CollectEdges(num, threshold, positions);
    assert Table(edges, order) == Deduplicated(num, box, positions);
    var significantEdges := Values(Table(edges, order));
    significantEdges := SortByLengthDesc(significantEdges);
    r := significantEdges[..Min(MaxEdges, |significantEdges|)];
  }
}
