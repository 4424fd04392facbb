/** Optional values: a ray hit that may be missing, a start point that may be null. */
module Wrappers {

  datatype Option<+T> = None | Some(value: T)
}

/**
 * Points, bounding boxes and the numeric primitives that the measurement code
 * borrows from the rendering library (Vector3.distanceTo, Vector3.normalize and
 * Number.prototype.toFixed). Those three are taken as given functions over reals;
 * the model never looks inside them.
 */
module Geometry {

  /** A Vector3 used as a position. */
  datatype Point = Point(x: real, y: real, z: real)

  const Origin := Point(0.0, 0.0, 0.0)

  /** `v2.clone().sub(v1)`: the vector from `b` to `a`. */
  function Sub(a: Point, b: Point): Point
  {
    Point(a.x - b.x, a.y - b.y, a.z - b.z)
  }

  /** `new Vector3().addVectors(start, end).multiplyScalar(0.5)`. */
  function Midpoint(a: Point, b: Point): Point
  {
    Point((a.x + b.x) * 0.5, (a.y + b.y) * 0.5, (a.z + b.z) * 0.5)
  }

  /** The midpoint is as far from `a` as `b` is from it, in the same direction. */
  lemma MidpointHalves(a: Point, b: Point)
    ensures Sub(Midpoint(a, b), a) == Sub(b, Midpoint(a, b))
  {
  }

  /** `Math.abs`. */
  function Abs(r: real): (a: real)
    ensures a >= 0.0 && (a == r || a == -r)
  {
    if r < 0.0 then -r else r
  }

  /** An axis-aligned box with its two extreme corners (three.js Box3). */
  datatype Box = Box(min: Point, max: Point)

  /** Box3.isEmpty: some maximum lies below its minimum. */
  predicate IsEmpty(b: Box)
  {
    b.max.x < b.min.x || b.max.y < b.min.y || b.max.z < b.min.z
  }

  /** Box3.getSize: the extent along each axis, all zero for an empty box. */
  function Size(b: Box): Point
  {
    if IsEmpty(b) then Origin else Sub(b.max, b.min)
  }

  /** The size of a box is never negative, and spans a non-empty box corner to corner. */
  lemma SizeOfBox(b: Box)
    ensures Size(b).x >= 0.0 && Size(b).y >= 0.0 && Size(b).z >= 0.0
    ensures !IsEmpty(b) ==> Sub(b.max, b.min) == Size(b)
  {
  }

  /** `Math.max` of three numbers. */
  function Max3(a: real, b: real, c: real): real
  {
    if a >= b && a >= c then a else if b >= c then b else c
  }

  /**
   * getBoundingBoxSize: the largest dimension of the content's bounding box.
   * The box itself comes from Box3.setFromObject, which belongs to the
   * rendering library; callers pass it in.
   */
  function ModelSize(b: Box): real
  {
    var size := Size(b);
    Max3(size.x, size.y, size.z)
  }

  /** The model size is the largest of the three dimensions, hence never negative. */
  lemma ModelSizeIsLargestDimension(b: Box)
    ensures ModelSize(b) >= 0.0
    ensures ModelSize(b) >= Size(b).x && ModelSize(b) >= Size(b).y && ModelSize(b) >= Size(b).z
    ensures ModelSize(b) == Size(b).x || ModelSize(b) == Size(b).y || ModelSize(b) == Size(b).z
  {
  }

  /**
   * The floating-point primitives of the rendering library and of JavaScript,
   * taken as given: `distance(a, b)` is `a.distanceTo(b)`, `normalize(v)` is
   * `v.normalize()`, and `toFixed(r, d)` is `r.toFixed(d)`.
   */
  datatype Numerics = Numerics(
    distance: (Point, Point) -> real,
    normalize: Point -> Point,
    toFixed: (real, nat) -> string)

  /** The text of every distance label: the distance with two decimals, then "m". */
  function DistanceText(num: Numerics, start: Point, end: Point): string
  {
    num.toFixed(num.distance(start, end), 2) + "m"
  }
}
