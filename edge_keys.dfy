/**
 * The order-independent key under which getSignificantEdges deduplicates
 * edges: each endpoint printed with three decimals, and the two endpoint
 * strings joined with the smaller one (by JavaScript's `<` on strings) first.
 */
module EdgeKeys {
  import opened Geometry

  /**
   * JavaScript's `<` on strings: lexicographic order on UTF-16 code units,
   * where a proper prefix comes first. Dafny compares characters by Unicode
   * scalar value instead; the two orders agree on the ASCII text that
   * `toFixed` produces, which is all the keys hold. (Dafny's own `<` on
   * sequences means "proper prefix", so it is spelled out here.)
   */
  predicate LexLess(a: string, b: string)
  {
    if a == [] then b != []
    else if b == [] then false
    else if a[0] != b[0] then a[0] < b[0]
    else LexLess(a[1..], b[1..])
  }

  lemma {:induction false} LexLessIrreflexive(a: string)
    ensures !LexLess(a, a)
  {
    if a != [] {
      LexLessIrreflexive(a[1..]);
    }
  }

  lemma {:induction false} LexLessAsymmetric(a: string, b: string)
    ensures !(LexLess(a, b) && LexLess(b, a))
  {
    if a != [] && b != [] && a[0] == b[0] {
      LexLessAsymmetric(a[1..], b[1..]);
    }
  }

  lemma {:induction false} LexLessTotal(a: string, b: string)
    ensures a == b || LexLess(a, b) || LexLess(b, a)
  {
    if a != [] && b != [] && a[0] == b[0] {
      LexLessTotal(a[1..], b[1..]);
      if a[1..] == b[1..] {
        assert a == [a[0]] + a[1..] && b == [b[0]] + b[1..];
      }
    }
  }

  /** `${v.x.toFixed(3)},${v.y.toFixed(3)},${v.z.toFixed(3)}`. */
  function PointKey(num: Numerics, v: Point): string
  {
    num.toFixed(v.x, 3) + "," + num.toFixed(v.y, 3) + "," + num.toFixed(v.z, 3)
  }

  /** getEdgeKey: the endpoint strings joined by "-", the smaller one first. */
  function EdgeKey(num: Numerics, v1: Point, v2: Point): string
  {
    var p1, p2 := PointKey(num, v1), PointKey(num, v2);
    if LexLess(p1, p2) then p1 + "-" + p2 else p2 + "-" + p1
  }

  /** The key names both endpoints, the one that is not greater first. */
  lemma EdgeKeyOrdered(num: Numerics, v1: Point, v2: Point)
    ensures var k, p1, p2 := EdgeKey(num, v1, v2), PointKey(num, v1), PointKey(num, v2);
      || (k == p1 + "-" + p2 && !LexLess(p2, p1))
      || (k == p2 + "-" + p1 && !LexLess(p1, p2))
  {
    LexLessAsymmetric(PointKey(num, v1), PointKey(num, v2));
  }

  /** The key does not depend on the direction in which the edge is walked. */
  lemma EdgeKeySymmetric(num: Numerics, v1: Point, v2: Point)
    ensures EdgeKey(num, v1, v2) == EdgeKey(num, v2, v1)
  {
    var p1, p2 := PointKey(num, v1), PointKey(num, v2);
    LexLessTotal(p1, p2);
    LexLessAsymmetric(p1, p2);
  }
}
