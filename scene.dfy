/**
 * The scene as the measurement code sees it: `scene.add` gives an object a
 * handle and `scene.remove` takes the handle away. The objects are the ones
 * the measurement code creates; rendering them is not modelled.
 */
module Scene {
  import opened Geometry
  import opened LabelScale

  /** What the measurement code adds to the scene. */
  datatype SceneObject =
    | Marker(center: Point)                                      // the red sphere of a picked point
    | Segment(start: Point, end: Point)                          // a red line between two points
    | Label(position: Point, text: string, scale: SpriteScale)  // a distance sprite
    | BoxOutline(box: Box)                                       // the Box3Helper

  type SceneMap = map<nat, SceneObject>

  /** The kinds of object, numbered so that lists of one kind can be told apart. */
  function Kind(o: SceneObject): nat
  {
    match o
    case Marker(_) => MarkerKind
    case Segment(_, _) => SegmentKind
    case Label(_, _, _) => LabelKind
    case BoxOutline(_) => OutlineKind
  }

  const MarkerKind: nat := 0
  const SegmentKind: nat := 1
  const LabelKind: nat := 2
  const OutlineKind: nat := 3

  /**
   * The sprite that labels a segment from `start` to `end`: at its midpoint,
   * reading the distance with two decimals and "m", scaled by the step table.
   */
  function MeasurementLabel(num: Numerics, modelSize: real, start: Point, end: Point): SceneObject
  {
    Label(Midpoint(start, end), DistanceText(num, start, end), LabelScaleFor(modelSize))
  }

  /** The handles of a list, as a set. */
  function Handles(hs: seq<nat>): set<nat>
  {
    set h | h in hs
  }

  /** Every handle of `hs` is in the scene and holds an object of kind `k`. */
  ghost predicate AllOfKind(sc: SceneMap, hs: seq<nat>, k: nat)
  {
    forall i :: 0 <= i < |hs| ==> hs[i] in sc && Kind(sc[hs[i]]) == k
  }

  /**
   * `lines[i]` is a segment in the scene and `labels[i]` is its label: one
   * label per line, in the same order.
   */
  ghost predicate PairedIn(num: Numerics, modelSize: real, sc: SceneMap, lines: seq<nat>, labels: seq<nat>)
  {
    && |lines| == |labels|
    && AllOfKind(sc, lines, SegmentKind)
    && (forall i :: 0 <= i < |labels| ==>
          && labels[i] in sc && lines[i] in sc && sc[lines[i]].Segment?
          && sc[labels[i]] == MeasurementLabel(num, modelSize, sc[lines[i]].start, sc[lines[i]].end))
  }

  /** `sc2` has every object of `sc`, under the same handle. */
  ghost predicate Grows(sc: SceneMap, sc2: SceneMap)
  {
    forall h :: h in sc ==> h in sc2 && sc2[h] == sc[h]
  }

  /** No handle of `hs` is in `gone`. */
  ghost predicate Outside(hs: seq<nat>, gone: set<nat>)
  {
    forall i :: 0 <= i < |hs| ==> hs[i] !in gone
  }

  lemma GrowsKeepsKind(sc: SceneMap, sc2: SceneMap, hs: seq<nat>, k: nat)
    requires AllOfKind(sc, hs, k) && Grows(sc, sc2)
    ensures AllOfKind(sc2, hs, k)
  {
  }

  lemma GrowsKeepsPaired(num: Numerics, modelSize: real, sc: SceneMap, sc2: SceneMap, lines: seq<nat>, labels: seq<nat>)
    requires PairedIn(num, modelSize, sc, lines, labels) && Grows(sc, sc2)
    ensures PairedIn(num, modelSize, sc2, lines, labels)
  {
    forall i | 0 <= i < |labels|
      ensures labels[i] in sc2 && lines[i] in sc2 && sc2[lines[i]].Segment?
      ensures sc2[labels[i]] == MeasurementLabel(num, modelSize, sc2[lines[i]].start, sc2[lines[i]].end)
    {
      assert lines[i] in sc && labels[i] in sc;
    }
  }

  /** An object added under a handle not yet in use extends a list of its kind. */
  lemma AddKeepsKind(sc: SceneMap, h: nat, o: SceneObject, hs: seq<nat>)
    requires h !in sc && AllOfKind(sc, hs, Kind(o))
    ensures AllOfKind(sc[h := o], hs + [h], Kind(o))
  {
    var hs2 := hs + [h];
    forall i | 0 <= i < |hs2|
      ensures hs2[i] in sc[h := o] && Kind(sc[h := o][hs2[i]]) == Kind(o)
    {
      if i < |hs| {
        assert hs2[i] == hs[i];
      }
    }
  }

  /** A new segment and its label, under new handles, extend a paired list. */
  lemma AddKeepsPaired(num: Numerics, modelSize: real, sc: SceneMap, lines: seq<nat>, labels: seq<nat>,
                       segment: nat, sprite: nat, start: Point, end: Point)
    requires segment !in sc && sprite !in sc && segment != sprite
    requires PairedIn(num, modelSize, sc, lines, labels)
    ensures var sc2 := sc[segment := Segment(start, end)][sprite := MeasurementLabel(num, modelSize, start, end)];
      PairedIn(num, modelSize, sc2, lines + [segment], labels + [sprite])
  {
    var sc2 := sc[segment := Segment(start, end)][sprite := MeasurementLabel(num, modelSize, start, end)];
    var ls, bs := lines + [segment], labels + [sprite];
    forall i | 0 <= i < |ls|
      ensures ls[i] in sc2 && Kind(sc2[ls[i]]) == SegmentKind
    {
      if i < |lines| {
        assert ls[i] == lines[i];
      }
    }
    forall i | 0 <= i < |bs|
      ensures bs[i] in sc2 && ls[i] in sc2 && sc2[ls[i]].Segment?
      ensures sc2[bs[i]] == MeasurementLabel(num, modelSize, sc2[ls[i]].start, sc2[ls[i]].end)
    {
      if i < |labels| {
        assert bs[i] == labels[i] && ls[i] == lines[i];
      }
    }
  }

  lemma RemoveKeepsKind(sc: SceneMap, gone: set<nat>, hs: seq<nat>, k: nat)
    requires AllOfKind(sc, hs, k) && Outside(hs, gone)
    ensures AllOfKind(sc - gone, hs, k)
  {
  }

  lemma RemoveKeepsPaired(num: Numerics, modelSize: real, sc: SceneMap, gone: set<nat>, lines: seq<nat>, labels: seq<nat>)
    requires PairedIn(num, modelSize, sc, lines, labels) && Outside(lines, gone) && Outside(labels, gone)
    ensures PairedIn(num, modelSize, sc - gone, lines, labels)
  {
    var sc2 := sc - gone;
    forall i | 0 <= i < |labels|
      ensures labels[i] in sc2 && lines[i] in sc2 && sc2[lines[i]].Segment?
      ensures sc2[labels[i]] == MeasurementLabel(num, modelSize, sc2[lines[i]].start, sc2[lines[i]].end)
    {
      assert lines[i] !in gone && labels[i] !in gone;
    }
  }

  /** Lists that hold objects of different kinds share no handle. */
  lemma KindsApart(sc: SceneMap, hs: seq<nat>, k: nat, others: seq<nat>, k2: nat)
    requires AllOfKind(sc, hs, k) && AllOfKind(sc, others, k2) && k != k2
    ensures Outside(hs, Handles(others))
  {
  }

  /** Removing three sets of handles in turn removes their union. */
  lemma RemoveInTurn(sc: SceneMap, a: set<nat>, b: set<nat>, c: set<nat>)
    ensures sc - a - b - c == sc - (a + b + c)
  {
    assert (sc - a - b - c).Keys == (sc - (a + b + c)).Keys;
  }

  /** Removing the handles of an empty list leaves the scene as it was. */
  lemma RemoveNothing(sc: SceneMap)
    ensures sc - Handles([]) == sc
  {
    assert (sc - Handles([])).Keys == sc.Keys;
  }

  /** Two lists are apart whichever way round the question is put. */
  lemma OutsideSymmetric(hs: seq<nat>, others: seq<nat>)
    requires Outside(hs, Handles(others))
    ensures Outside(others, Handles(hs))
  {
  }
}
