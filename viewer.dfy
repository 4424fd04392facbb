/**
 * The measurement state of the viewer: the point-measurement session, the
 * edge measurements and the bounding-box annotations. The scene is the map of
 * handles of the Scene module; `this.state` contributes the three check boxes.
 */
module Measurements {
  import opened Wrappers
  import opened Geometry
  import opened Scene
  import opened EdgeSelection
  import opened SignificantEdges

  /** `this.boundingBoxMeasurements`: the lines and labels of the box dimensions. */
  datatype BoxMeasurements = BoxMeasurements(lines: seq<nat>, labels: seq<nat>)

  /** The holder as createBoundingBoxMeasurement finds it: created empty when null. */
  function BoxSoFar(holder: Option<BoxMeasurements>): BoxMeasurements
  {
    if holder.Some? then holder.value else BoxMeasurements([], [])
  }

  /** The handle of the box helper, as a list: empty when there is none. */
  function HelperHandles(helper: Option<nat>): seq<nat>
  {
    if helper.Some? then [helper.value] else []
  }

  /** The six dimension lines of a box: width, height, depth on the front, then on the back. */
  function BoxDimensionLines(box: Box): (ls: seq<(Point, Point)>)
    ensures |ls| == 6
  {
    var lo, hi := box.min, box.max;
    [ (Point(lo.x, lo.y, lo.z), Point(hi.x, lo.y, lo.z)),
      (Point(lo.x, lo.y, lo.z), Point(lo.x, hi.y, lo.z)),
      (Point(lo.x, lo.y, lo.z), Point(lo.x, lo.y, hi.z)),
      (Point(lo.x, hi.y, hi.z), Point(hi.x, hi.y, hi.z)),
      (Point(hi.x, lo.y, hi.z), Point(hi.x, hi.y, hi.z)),
      (Point(hi.x, hi.y, lo.z), Point(hi.x, hi.y, hi.z)) ]
  }

  /** The vector of length `size` along axis 0 (x), 1 (y) or 2 (z). */
  function AlongAxis(axis: nat, size: real): Point
  {
    if axis == 0 then Point(size, 0.0, 0.0)
    else if axis == 1 then Point(0.0, size, 0.0)
    else Point(0.0, 0.0, size)
  }

  /**
   * Each dimension line of a non-empty box runs along one axis (width, height,
   * depth, in turn) and is exactly as long as the box in that dimension.
   */
  lemma BoxLinesSpanDimensions(box: Box, i: nat)
    requires i < 6 && !IsEmpty(box)
    ensures var l := BoxDimensionLines(box)[i];
      var size := Size(box);
      Sub(l.1, l.0) == AlongAxis(i % 3, if i % 3 == 0 then size.x else if i % 3 == 1 then size.y else size.z)
  {
  }

  /** The significant edges of every geometry of the content, in traversal order. */
  function AllSignificant(num: Numerics, box: Box, geometries: seq<seq<real>>): (es: seq<Edge>)
    ensures |es| <= MaxEdges * |geometries|
  {
    if geometries == [] then []
    else
      SignificantEdgesGuarantees(num, box, geometries[|geometries| - 1]);
      AllSignificant(num, box, geometries[..|geometries| - 1])
      + SelectSignificant(num, box, geometries[|geometries| - 1])
  }

  /**
   * The box annotations in scene `sc`: the helper outlines the content box,
   * and the holder has the six dimension lines of the box, each with its
   * label, none of them among the segments `es` or labels `ls` of the
   * measurements.
   */
  ghost predicate Annotations(num: Numerics, box: Box, helper: Option<nat>, holder: Option<BoxMeasurements>,
                              sc: SceneMap, es: seq<nat>, ls: seq<nat>)
  {
    && (helper.Some? ==> helper.value in sc && sc[helper.value] == BoxOutline(box))
    && (holder.Some? ==>
          var bm := holder.value;
          && |bm.lines| == 6
          && PairedIn(num, ModelSize(box), sc, bm.lines, bm.labels)
          && (forall i :: 0 <= i < 6 ==>
                sc[bm.lines[i]] == Segment(BoxDimensionLines(box)[i].0, BoxDimensionLines(box)[i].1))
          && Outside(bm.lines, Handles(es))
          && Outside(bm.labels, Handles(ls)))
  }

  /** The box annotations survive the scene growing. */
  lemma AnnotationsGrow(num: Numerics, box: Box, helper: Option<nat>, holder: Option<BoxMeasurements>,
                        sc: SceneMap, sc2: SceneMap, es: seq<nat>, ls: seq<nat>)
    requires Annotations(num, box, helper, holder, sc, es, ls) && Grows(sc, sc2)
    ensures Annotations(num, box, helper, holder, sc2, es, ls)
  {
    if holder.Some? {
      GrowsKeepsPaired(num, ModelSize(box), sc, sc2, holder.value.lines, holder.value.labels);
    }
  }

  /** New segments and labels are not box annotations. */
  lemma AnnotationsAppend(num: Numerics, box: Box, helper: Option<nat>, holder: Option<BoxMeasurements>,
                          sc: SceneMap, es: seq<nat>, ls: seq<nat>, e: nat, l: nat)
    requires Annotations(num, box, helper, holder, sc, es, ls) && e !in sc && l !in sc
    ensures Annotations(num, box, helper, holder, sc, es + [e], ls + [l])
  {
  }

  /** The box annotations survive the removal of other objects. */
  lemma AnnotationsRemove(num: Numerics, box: Box, helper: Option<nat>, holder: Option<BoxMeasurements>,
                          sc: SceneMap, gone: set<nat>, es: seq<nat>, ls: seq<nat>, es2: seq<nat>, ls2: seq<nat>)
    requires Annotations(num, box, helper, holder, sc, es, ls)
    requires Outside(HelperHandles(helper), gone)
    requires holder.Some? ==> Outside(holder.value.lines, gone) && Outside(holder.value.labels, gone)
    requires Handles(es2) <= Handles(es) && Handles(ls2) <= Handles(ls)
    ensures Annotations(num, box, helper, holder, sc - gone, es2, ls2)
  {
    if helper.Some? {
      assert HelperHandles(helper)[0] == helper.value;
    }
    if holder.Some? {
      RemoveKeepsPaired(num, ModelSize(box), sc, gone, holder.value.lines, holder.value.labels);
    }
  }

  /** Removing the measurements' segments, markers and labels leaves the box annotations in place. */
  lemma ClearKeepsAnnotations(num: Numerics, box: Box, helper: Option<nat>, holder: Option<BoxMeasurements>,
                              sc: SceneMap, es: seq<nat>, ps: seq<nat>, ls: seq<nat>)
    requires AllOfKind(sc, ps, MarkerKind)
    requires PairedIn(num, ModelSize(box), sc, es, ls)
    requires Annotations(num, box, helper, holder, sc, es, ls)
    ensures Annotations(num, box, helper, holder, sc - (Handles(es) + Handles(ps) + Handles(ls)), [], [])
  {
    var hs := HelperHandles(helper);
    assert AllOfKind(sc, ls, LabelKind);
    if helper.Some? {
      assert AllOfKind(sc, hs, OutlineKind);
      KindsApart(sc, hs, OutlineKind, es, SegmentKind);
      KindsApart(sc, hs, OutlineKind, ps, MarkerKind);
      KindsApart(sc, hs, OutlineKind, ls, LabelKind);
    }
    if holder.Some? {
      var bm := holder.value;
      KindsApart(sc, bm.lines, SegmentKind, ps, MarkerKind);
      KindsApart(sc, bm.lines, SegmentKind, ls, LabelKind);
      assert AllOfKind(sc, bm.labels, LabelKind);
      KindsApart(sc, bm.labels, LabelKind, ps, MarkerKind);
      KindsApart(sc, bm.labels, LabelKind, es, SegmentKind);
    }
    AnnotationsRemove(num, box, helper, holder, sc, Handles(es) + Handles(ps) + Handles(ls), es, ls, [], []);
  }

  /** Removing the markers leaves every segment, label and box annotation in place. */
  lemma RemoveMarkersKeepsRest(num: Numerics, box: Box, helper: Option<nat>, holder: Option<BoxMeasurements>,
                               sc: SceneMap, es: seq<nat>, ps: seq<nat>, ls: seq<nat>)
    requires AllOfKind(sc, ps, MarkerKind)
    requires PairedIn(num, ModelSize(box), sc, es, ls)
    requires Annotations(num, box, helper, holder, sc, es, ls)
    ensures PairedIn(num, ModelSize(box), sc - Handles(ps), es, ls)
    ensures Annotations(num, box, helper, holder, sc - Handles(ps), es, ls)
  {
    KindsApart(sc, es, SegmentKind, ps, MarkerKind);
    assert AllOfKind(sc, ls, LabelKind);
    KindsApart(sc, ls, LabelKind, ps, MarkerKind);
    RemoveKeepsPaired(num, ModelSize(box), sc, Handles(ps), es, ls);
    var hs := HelperHandles(helper);
    if helper.Some? {
      assert AllOfKind(sc, hs, OutlineKind);
      KindsApart(sc, hs, OutlineKind, ps, MarkerKind);
    }
    if holder.Some? {
      var bm := holder.value;
      KindsApart(sc, bm.lines, SegmentKind, ps, MarkerKind);
      assert AllOfKind(sc, bm.labels, LabelKind);
      KindsApart(sc, bm.labels, LabelKind, ps, MarkerKind);
    }
    AnnotationsRemove(num, box, helper, holder, sc, Handles(ps), es, ls, es, ls);
  }

  /** `hs[i]` holds the segment of edge `es[i]`, each under a handle of its own. */
  ghost predicate SegmentsAre(sc: SceneMap, hs: seq<nat>, es: seq<Edge>)
  {
    && |hs| == |es|
    && (forall i :: 0 <= i < |hs| ==> hs[i] in sc && sc[hs[i]] == Segment(es[i].start, es[i].end))
    && (forall i, j :: 0 <= i < j < |hs| ==> hs[i] != hs[j])
  }

  lemma SegmentsAppend(sc: SceneMap, hs: seq<nat>, es: seq<Edge>, line: nat, e: Edge, sprite: nat, o: SceneObject)
    requires SegmentsAre(sc, hs, es) && line !in sc && sprite !in sc && line != sprite
    ensures SegmentsAre(sc[line := Segment(e.start, e.end)][sprite := o], hs + [line], es + [e])
  {
    var sc2 := sc[line := Segment(e.start, e.end)][sprite := o];
    var hs2, es2 := hs + [line], es + [e];
    forall i | 0 <= i < |hs2|
      ensures hs2[i] in sc2 && sc2[hs2[i]] == Segment(es2[i].start, es2[i].end)
    {
      if i < |hs| {
        assert hs2[i] == hs[i] && es2[i] == es[i];
      }
    }
    forall i, j | 0 <= i < j < |hs2|
      ensures hs2[i] != hs2[j]
    {
      if j == |hs| {
        assert hs2[i] == hs[i] && hs[i] in sc;
      }
    }
  }

  lemma AllSignificantStep(num: Numerics, box: Box, geometries: seq<seq<real>>, g: nat)
    requires g < |geometries|
    ensures AllSignificant(num, box, geometries[..g + 1])
            == AllSignificant(num, box, geometries[..g]) + SelectSignificant(num, box, geometries[g])
  {
    assert geometries[..g + 1][..g] == geometries[..g];
  }

  /** The first `k` dimension lines of the box are built, under handles from `n0` on. */
  ghost predicate BoxBuilt(num: Numerics, box: Box, sc: SceneMap, bm: BoxMeasurements, k: nat, n0: nat)
  {
    && k <= 6
    && |bm.lines| == k
    && PairedIn(num, ModelSize(box), sc, bm.lines, bm.labels)
    && (forall i :: 0 <= i < k ==>
          sc[bm.lines[i]] == Segment(BoxDimensionLines(box)[i].0, BoxDimensionLines(box)[i].1))
    && (forall i :: 0 <= i < k ==> bm.lines[i] >= n0 && bm.labels[i] >= n0)
  }

  /** Dimension line `k` of the box under handle `line`, and its label under `line + 1`. */
  function AddDimension(num: Numerics, box: Box, sc: SceneMap, k: nat, line: nat): SceneMap
    requires k < 6
  {
    var l := BoxDimensionLines(box)[k];
    sc[line := Segment(l.0, l.1)][line + 1 := MeasurementLabel(num, ModelSize(box), l.0, l.1)]
  }

  /**
   * Adding dimension line `k` of the box and its label under the handles
   * `line` and `line + 1`, both new, builds one more line.
   */
  lemma DimensionStep(num: Numerics, box: Box, n0: nat, sc: SceneMap, bm: BoxMeasurements, k: nat, line: nat)
    requires BoxBuilt(num, box, sc, bm, k, n0) && k < 6
    requires line >= n0 && line !in sc && line + 1 !in sc
    ensures BoxBuilt(num, box, AddDimension(num, box, sc, k, line),
                     BoxMeasurements(bm.lines + [line], bm.labels + [line + 1]), k + 1, n0)
  {
    var l := BoxDimensionLines(box)[k];
    var sc2 := AddDimension(num, box, sc, k, line);
    var bm2 := BoxMeasurements(bm.lines + [line], bm.labels + [line + 1]);
    AddKeepsPaired(num, ModelSize(box), sc, bm.lines, bm.labels, line, line + 1, l.0, l.1);
    forall i | 0 <= i < k + 1
      ensures sc2[bm2.lines[i]] == Segment(BoxDimensionLines(box)[i].0, BoxDimensionLines(box)[i].1)
      ensures bm2.lines[i] >= n0 && bm2.labels[i] >= n0
    {
      if i < k {
        assert bm2.lines[i] == bm.lines[i] && bm2.labels[i] == bm.labels[i];
        assert bm.lines[i] in sc;
      }
    }
  }

  /** The handles of the first `k` lines (`offset` 0) or labels (`offset` 1) after an outline at `n0`. */
  function BoxAnnotationHandles(n0: nat, offset: nat, k: nat): (hs: seq<nat>)
    ensures |hs| == k
  {
    if k == 0 then [] else BoxAnnotationHandles(n0, offset, k - 1) + [n0 + 1 + 2 * (k - 1) + offset]
  }

  /** The scene after the outline at `n0` and the first `k` dimension lines, in the order they are added. */
  function BoxScene(num: Numerics, box: Box, sc: SceneMap, n0: nat, k: nat): SceneMap
    requires k <= 6
  {
    if k == 0 then sc[n0 := BoxOutline(box)]
    else AddDimension(num, box, BoxScene(num, box, sc, n0, k - 1), k - 1, n0 + 1 + 2 * (k - 1))
  }

  /** Over a scene whose handles are all below `n0`, the box scene uses no handle past the last one given out. */
  lemma {:induction false} BoxSceneFresh(num: Numerics, box: Box, sc: SceneMap, n0: nat, k: nat)
    requires forall h :: h in sc ==> h < n0
    requires k <= 6
    ensures forall h :: h in BoxScene(num, box, sc, n0, k) ==> h < n0 + 1 + 2 * k
  {
    if k > 0 {
      BoxSceneFresh(num, box, sc, n0, k - 1);
    }
  }

  /**
   * Over a scene whose handles are all below `n0`, the box scene keeps every
   * object, has the outline at `n0` and adds only handles from `n0` on.
   */
  lemma {:induction false} BoxSceneGrows(num: Numerics, box: Box, sc: SceneMap, n0: nat, k: nat)
    requires forall h :: h in sc ==> h < n0
    requires k <= 6
    ensures var sc2 := BoxScene(num, box, sc, n0, k);
      n0 in sc2 && sc2[n0] == BoxOutline(box) && Extends(sc, sc2, n0)
  {
    if k > 0 {
      BoxSceneGrows(num, box, sc, n0, k - 1);
      BoxSceneFresh(num, box, sc, n0, k - 1);
      BoxSceneGrowsStep(num, box, sc, n0, k, BoxScene(num, box, sc, n0, k - 1));
    }
  }

  lemma BoxSceneGrowsStep(num: Numerics, box: Box, sc: SceneMap, n0: nat, k: nat, prev: SceneMap)
    requires 0 < k <= 6 && prev == BoxScene(num, box, sc, n0, k - 1)
    requires n0 in prev && prev[n0] == BoxOutline(box) && Extends(sc, prev, n0)
    requires forall h :: h in prev ==> h < n0 + 1 + 2 * (k - 1)
    ensures var sc2 := BoxScene(num, box, sc, n0, k);
      n0 in sc2 && sc2[n0] == BoxOutline(box) && Extends(sc, sc2, n0)
  {
    AddDimensionExtends(num, box, sc, prev, n0, k - 1, n0 + 1 + 2 * (k - 1));
  }

  /** Adding a dimension line under two new handles from `n0` on keeps what the scene extended. */
  lemma AddDimensionExtends(num: Numerics, box: Box, sc0: SceneMap, sc: SceneMap, n0: nat, k: nat, line: nat)
    requires k < 6 && Extends(sc0, sc, n0) && n0 in sc
    requires n0 < line && forall h :: h in sc ==> h < line
    ensures var sc2 := AddDimension(num, box, sc, k, line);
      n0 in sc2 && sc2[n0] == sc[n0] && Extends(sc0, sc2, n0)
  {
  }

  /** The box scene holds the first `k` dimension lines with their labels. */
  lemma {:induction false} BoxSceneBuilt(num: Numerics, box: Box, sc: SceneMap, n0: nat, k: nat)
    requires forall h :: h in sc ==> h < n0
    requires k <= 6
    ensures BoxBuilt(num, box, BoxScene(num, box, sc, n0, k),
                     BoxMeasurements(BoxAnnotationHandles(n0, 0, k), BoxAnnotationHandles(n0, 1, k)), k, n0)
  {
    if k > 0 {
      BoxSceneBuilt(num, box, sc, n0, k - 1);
      BoxSceneFresh(num, box, sc, n0, k - 1);
      BoxSceneStep(num, box, n0, BoxScene(num, box, sc, n0, k - 1), k);
    }
  }

  /** One more dimension line, under the next pair of handles, extends the built box scene. */
  lemma BoxSceneStep(num: Numerics, box: Box, n0: nat, prev: SceneMap, k: nat)
    requires 0 < k <= 6
    requires BoxBuilt(num, box, prev, BoxMeasurements(BoxAnnotationHandles(n0, 0, k - 1), BoxAnnotationHandles(n0, 1, k - 1)), k - 1, n0)
    requires forall h :: h in prev ==> h < n0 + 1 + 2 * (k - 1)
    ensures BoxBuilt(num, box, AddDimension(num, box, prev, k - 1, n0 + 1 + 2 * (k - 1)),
                     BoxMeasurements(BoxAnnotationHandles(n0, 0, k), BoxAnnotationHandles(n0, 1, k)), k, n0)
  {
    var line := n0 + 1 + 2 * (k - 1);
    var lines, labels := BoxAnnotationHandles(n0, 0, k - 1), BoxAnnotationHandles(n0, 1, k - 1);
    assert line !in prev && line + 1 !in prev;
    DimensionStep(num, box, n0, prev, BoxMeasurements(lines, labels), k - 1, line);
    assert BoxAnnotationHandles(n0, 0, k) == lines + [line];
    assert BoxAnnotationHandles(n0, 1, k) == labels + [line + 1];
  }

  /** Six built lines under new handles, and the outline, are the box annotations. */
  lemma BuiltIsAnnotations(num: Numerics, box: Box, helper: nat, sc: SceneMap, bm: BoxMeasurements, n0: nat,
                           es: seq<nat>, ls: seq<nat>)
    requires BoxBuilt(num, box, sc, bm, 6, n0)
    requires helper in sc && sc[helper] == BoxOutline(box)
    requires forall i :: 0 <= i < |es| ==> es[i] < n0
    requires forall i :: 0 <= i < |ls| ==> ls[i] < n0
    ensures Annotations(num, box, Some(helper), Some(bm), sc, es, ls)
  {
  }

  /**
   * The outline and the six dimension lines, added over a scene whose handles
   * are all below `n0`, are the box annotations, and the markers and the
   * point measurements stay as they were.
   */
  lemma BoxShownKeepsParts(num: Numerics, box: Box, sc: SceneMap, n0: nat, es: seq<nat>, ps: seq<nat>, ls: seq<nat>)
    requires forall h :: h in sc ==> h < n0
    requires AllOfKind(sc, ps, MarkerKind) && PairedIn(num, ModelSize(box), sc, es, ls)
    ensures var sc2 := BoxScene(num, box, sc, n0, 6);
      var bm := BoxMeasurements(BoxAnnotationHandles(n0, 0, 6), BoxAnnotationHandles(n0, 1, 6));
      && Annotations(num, box, Some(n0), Some(bm), sc2, es, ls)
      && AllOfKind(sc2, ps, MarkerKind) && PairedIn(num, ModelSize(box), sc2, es, ls)
      && Extends(sc, sc2, n0)
      && forall h :: h in sc2 ==> h < n0 + 13
  {
    var sc2 := BoxScene(num, box, sc, n0, 6);
    HandlesBelow(sc, n0, es, ps, ls);
    BoxSceneGrows(num, box, sc, n0, 6);
    BoxSceneFresh(num, box, sc, n0, 6);
    BoxSceneBuilt(num, box, sc, n0, 6);
    BuiltIsAnnotations(num, box, n0, sc2, BoxMeasurements(BoxAnnotationHandles(n0, 0, 6), BoxAnnotationHandles(n0, 1, 6)), n0, es, ls);
    GrowsKeepsKind(sc, sc2, ps, MarkerKind);
    GrowsKeepsPaired(num, ModelSize(box), sc, sc2, es, ls);
  }

  /** The handles clearBoundingBoxMeasurements removes. */
  function BoxHandles(helper: Option<nat>, holder: Option<BoxMeasurements>): set<nat>
  {
    Handles(HelperHandles(helper)) + Handles(BoxSoFar(holder).lines) + Handles(BoxSoFar(holder).labels)
  }

  /** Removing the box annotations leaves the markers, segments and labels of the measurements. */
  lemma ClearBoxKeepsMeasurements(num: Numerics, box: Box, helper: Option<nat>, holder: Option<BoxMeasurements>,
                                  sc: SceneMap, es: seq<nat>, ps: seq<nat>, ls: seq<nat>)
    requires AllOfKind(sc, ps, MarkerKind)
    requires PairedIn(num, ModelSize(box), sc, es, ls)
    requires Annotations(num, box, helper, holder, sc, es, ls)
    ensures var gone := BoxHandles(helper, holder);
      && Outside(ps, gone)
      && AllOfKind(sc - gone, ps, MarkerKind)
      && PairedIn(num, ModelSize(box), sc - gone, es, ls)
  {
    var hs := HelperHandles(helper);
    var bm := BoxSoFar(holder);
    assert AllOfKind(sc, ls, LabelKind);
    if helper.Some? {
      assert AllOfKind(sc, hs, OutlineKind);
    }
    assert AllOfKind(sc, bm.labels, LabelKind);
    KindsApart(sc, ps, MarkerKind, hs, OutlineKind);
    KindsApart(sc, ps, MarkerKind, bm.lines, SegmentKind);
    KindsApart(sc, ps, MarkerKind, bm.labels, LabelKind);
    KindsApart(sc, es, SegmentKind, hs, OutlineKind);
    KindsApart(sc, es, SegmentKind, bm.labels, LabelKind);
    KindsApart(sc, ls, LabelKind, hs, OutlineKind);
    KindsApart(sc, ls, LabelKind, bm.lines, SegmentKind);
    if holder.Some? {
      OutsideSymmetric(bm.lines, es);
      OutsideSymmetric(bm.labels, ls);
    }
    var gone := BoxHandles(helper, holder);
    RemoveKeepsKind(sc, gone, ps, MarkerKind);
    RemoveKeepsPaired(num, ModelSize(box), sc, gone, es, ls);
  }

  /** Every handle of the three lists is in `sc`, hence below the next handle. */
  lemma HandlesBelow(sc: SceneMap, next: nat, es: seq<nat>, ps: seq<nat>, ls: seq<nat>)
    requires forall h :: h in sc ==> h < next
    requires AllOfKind(sc, es, SegmentKind) && AllOfKind(sc, ps, MarkerKind) && AllOfKind(sc, ls, LabelKind)
    ensures forall i :: 0 <= i < |es + ps + ls| ==> (es + ps + ls)[i] < next
    ensures forall i :: 0 <= i < |es| ==> es[i] < next
    ensures forall i :: 0 <= i < |ls| ==> ls[i] < next
  {
    var all := es + ps + ls;
    forall i | 0 <= i < |all|
      ensures all[i] < next
    {
      if i < |es| {
        assert all[i] == es[i];
      } else if i < |es| + |ps| {
        assert all[i] == ps[i - |es|];
      } else {
        assert all[i] == ls[i - |es| - |ps|];
      }
    }
  }

  /** No handle of the three lists is left once they are removed. */
  lemma OutsideRemoved(sc: SceneMap, es: seq<nat>, ps: seq<nat>, ls: seq<nat>)
    ensures Outside(es + ps + ls, (sc - (Handles(es) + Handles(ps) + Handles(ls))).Keys)
  {
    var all := es + ps + ls;
    forall i | 0 <= i < |all|
      ensures all[i] in Handles(es) + Handles(ps) + Handles(ls)
    {
      if i < |es| {
        assert all[i] == es[i];
      } else if i < |es| + |ps| {
        assert all[i] == ps[i - |es|];
      } else {
        assert all[i] == ls[i - |es| - |ps|];
      }
    }
  }

  /** `sc` has every object of `sc0`, and every other object is under a handle from `n0` on. */
  ghost predicate Extends(sc0: SceneMap, sc: SceneMap, n0: nat)
  {
    Grows(sc0, sc) && forall h :: h in sc ==> h in sc0 || n0 <= h
  }

  /** None of the handles `gone` is in the scene, and all were given out before `next`. */
  ghost predicate Gone(gone: seq<nat>, sc: SceneMap, next: nat)
  {
    forall i :: 0 <= i < |gone| ==> gone[i] !in sc && gone[i] < next
  }

  lemma ExtendsTransitive(sc0: SceneMap, sc1: SceneMap, sc2: SceneMap, n0: nat, n1: nat)
    requires Extends(sc0, sc1, n0) && Extends(sc1, sc2, n1) && n0 <= n1
    ensures Extends(sc0, sc2, n0)
  {
  }

  lemma GoneExtends(gone: seq<nat>, sc: SceneMap, next: nat, sc2: SceneMap, next2: nat)
    requires Gone(gone, sc, next) && Extends(sc, sc2, next) && next <= next2
    ensures Gone(gone, sc2, next2)
  {
  }

  lemma PrefixStep<T>(before: seq<T>, s: seq<T>, k: nat)
    requires k < |s|
    ensures before + s[..k + 1] == before + s[..k] + [s[k]]
  {
    assert s[..k + 1] == s[..k] + [s[k]];
  }

  /** A new marker keeps the markers, the measurements and the box annotations in place. */
  lemma MarkerKeepsParts(num: Numerics, box: Box, helper: Option<nat>, holder: Option<BoxMeasurements>,
                         sc: SceneMap, ps: seq<nat>, es: seq<nat>, ls: seq<nat>, h: nat, point: Point)
    requires Annotations(num, box, helper, holder, sc, es, ls)
    requires AllOfKind(sc, ps, MarkerKind) && PairedIn(num, ModelSize(box), sc, es, ls)
    requires forall x :: x in sc ==> x < h
    ensures var sc2 := sc[h := Marker(point)];
      && Annotations(num, box, helper, holder, sc2, es, ls)
      && AllOfKind(sc2, ps + [h], MarkerKind)
      && PairedIn(num, ModelSize(box), sc2, es, ls)
      && forall x :: x in sc2 ==> x < h + 1
  {
    var sc2 := sc[h := Marker(point)];
    AddKeepsKind(sc, h, Marker(point), ps);
    GrowsKeepsPaired(num, ModelSize(box), sc, sc2, es, ls);
    AnnotationsGrow(num, box, helper, holder, sc, sc2, es, ls);
  }

  /**
   * The second marker, its segment and its label keep the markers, the
   * measurements (one more) and the box annotations in place.
   */
  lemma MeasurementKeepsParts(num: Numerics, box: Box, helper: Option<nat>, holder: Option<BoxMeasurements>,
                              sc: SceneMap, ps: seq<nat>, es: seq<nat>, ls: seq<nat>, h: nat, start: Point, point: Point)
    requires Annotations(num, box, helper, holder, sc, es, ls)
    requires AllOfKind(sc, ps, MarkerKind) && PairedIn(num, ModelSize(box), sc, es, ls)
    requires forall x :: x in sc ==> x < h
    ensures var sc2 := sc[h := Marker(point)][h + 1 := Segment(start, point)]
                         [h + 2 := MeasurementLabel(num, ModelSize(box), start, point)];
      && Annotations(num, box, helper, holder, sc2, es + [h + 1], ls + [h + 2])
      && AllOfKind(sc2, ps + [h], MarkerKind)
      && PairedIn(num, ModelSize(box), sc2, es + [h + 1], ls + [h + 2])
      && forall x :: x in sc2 ==> x < h + 3
  {
    var modelSize := ModelSize(box);
    var withMarker := sc[h := Marker(point)];
    var sc2: SceneMap := withMarker[h + 1 := Segment(start, point)][h + 2 := MeasurementLabel(num, modelSize, start, point)];
    AddKeepsKind(sc, h, Marker(point), ps);
    GrowsKeepsKind(withMarker, sc2, ps + [h], MarkerKind);
    GrowsKeepsPaired(num, modelSize, sc, withMarker, es, ls);
    AddKeepsPaired(num, modelSize, withMarker, es, ls, h + 1, h + 2, start, point);
    AnnotationsGrow(num, box, helper, holder, sc, withMarker, es, ls);
    AnnotationsAppend(num, box, helper, holder, withMarker, es, ls, h + 1, h + 2);
    AnnotationsGrow(num, box, helper, holder, withMarker, sc2, es + [h + 1], ls + [h + 2]);
  }

  /** Handle `h` is remembered by `measurements` or by one of the box holders. */
  ghost predicate Remembered(h: nat, es: seq<nat>, ps: seq<nat>, ls: seq<nat>,
                             helper: Option<nat>, holder: Option<BoxMeasurements>)
  {
    h in Handles(es) + Handles(ps) + Handles(ls) + BoxHandles(helper, holder)
  }

  /**
   * No orphans: every object in the scene is remembered by `measurements` or
   * by one of the box holders, so one of the clear operations removes it.
   */
  ghost predicate Tracked(sc: SceneMap, es: seq<nat>, ps: seq<nat>, ls: seq<nat>,
                          helper: Option<nat>, holder: Option<BoxMeasurements>)
  {
    forall h {:trigger Remembered(h, es, ps, ls, helper, holder)} ::
      h in sc ==> Remembered(h, es, ps, ls, helper, holder)
  }

  lemma HandlesAppend(hs: seq<nat>, h: nat)
    ensures Handles(hs + [h]) == Handles(hs) + {h}
  {
  }

  /** A new marker is remembered in `points`. */
  lemma TrackedMarker(sc: SceneMap, es: seq<nat>, ps: seq<nat>, ls: seq<nat>,
                      helper: Option<nat>, holder: Option<BoxMeasurements>, h: nat, o: SceneObject)
    requires Tracked(sc, es, ps, ls, helper, holder)
    ensures Tracked(sc[h := o], es, ps + [h], ls, helper, holder)
  {
    HandlesAppend(ps, h);
    forall x | x in sc[h := o]
      ensures Remembered(x, es, ps + [h], ls, helper, holder)
    {
      if x != h {
        assert Remembered(x, es, ps, ls, helper, holder);
      }
    }
  }

  /** A new segment and its label are remembered in `edges` and `labels`. */
  lemma TrackedSegment(sc: SceneMap, es: seq<nat>, ps: seq<nat>, ls: seq<nat>,
                       helper: Option<nat>, holder: Option<BoxMeasurements>, h: nat, line: SceneObject, sprite: SceneObject)
    requires Tracked(sc, es, ps, ls, helper, holder)
    ensures Tracked(sc[h := line][h + 1 := sprite], es + [h], ps, ls + [h + 1], helper, holder)
  {
    var sc2, es2, ls2 := sc[h := line][h + 1 := sprite], es + [h], ls + [h + 1];
    HandlesAppend(es, h);
    HandlesAppend(ls, h + 1);
    forall x | x in sc2
      ensures Remembered(x, es2, ps, ls2, helper, holder)
    {
      if x != h && x != h + 1 {
        assert Remembered(x, es, ps, ls, helper, holder);
      }
    }
  }

  /** Clearing `measurements` takes every object it remembered out of the scene. */
  lemma TrackedCleared(sc: SceneMap, es: seq<nat>, ps: seq<nat>, ls: seq<nat>,
                       helper: Option<nat>, holder: Option<BoxMeasurements>)
    requires Tracked(sc, es, ps, ls, helper, holder)
    ensures Tracked(sc - (Handles(es) + Handles(ps) + Handles(ls)), [], [], [], helper, holder)
    ensures Tracked(sc - Handles(ps), es, [], ls, helper, holder)
  {
    assert Handles([]) == {};
    forall x | x in sc - (Handles(es) + Handles(ps) + Handles(ls))
      ensures Remembered(x, [], [], [], helper, holder)
    {
      assert Remembered(x, es, ps, ls, helper, holder);
    }
    forall x | x in sc - Handles(ps)
      ensures Remembered(x, es, [], ls, helper, holder)
    {
      assert Remembered(x, es, ps, ls, helper, holder);
    }
  }

  /** Clearing the box annotations takes every object the holders remembered out of the scene. */
  lemma TrackedBoxCleared(sc: SceneMap, es: seq<nat>, ps: seq<nat>, ls: seq<nat>,
                          helper: Option<nat>, holder: Option<BoxMeasurements>)
    requires Tracked(sc, es, ps, ls, helper, holder)
    ensures Tracked(sc - BoxHandles(helper, holder), es, ps, ls, None, None)
  {
    assert Handles([]) == {};
    forall x | x in sc - BoxHandles(helper, holder)
      ensures Remembered(x, es, ps, ls, None, None)
    {
      assert Remembered(x, es, ps, ls, helper, holder);
    }
  }

  lemma AddDimensionKeys(num: Numerics, box: Box, sc: SceneMap, k: nat, line: nat)
    requires k < 6
    ensures AddDimension(num, box, sc, k, line).Keys == sc.Keys + {line, line + 1}
  {
  }

  /** The handles of the box scene: the old ones, the outline, and the lines and labels so far. */
  lemma {:induction false} BoxSceneKeys(num: Numerics, box: Box, sc: SceneMap, n0: nat, k: nat)
    requires k <= 6
    ensures BoxScene(num, box, sc, n0, k).Keys
      == sc.Keys + {n0} + Handles(BoxAnnotationHandles(n0, 0, k)) + Handles(BoxAnnotationHandles(n0, 1, k))
  {
    if k > 0 {
      BoxSceneKeys(num, box, sc, n0, k - 1);
      BoxSceneKeysStep(num, box, sc, n0, k, BoxScene(num, box, sc, n0, k - 1));
    } else {
      assert Handles([]) == {};
    }
  }

  lemma BoxSceneKeysStep(num: Numerics, box: Box, sc: SceneMap, n0: nat, k: nat, prev: SceneMap)
    requires 0 < k <= 6 && prev == BoxScene(num, box, sc, n0, k - 1)
    requires prev.Keys
      == sc.Keys + {n0} + Handles(BoxAnnotationHandles(n0, 0, k - 1)) + Handles(BoxAnnotationHandles(n0, 1, k - 1))
    ensures BoxScene(num, box, sc, n0, k).Keys
      == sc.Keys + {n0} + Handles(BoxAnnotationHandles(n0, 0, k)) + Handles(BoxAnnotationHandles(n0, 1, k))
  {
    var line: nat := n0 + 1 + 2 * (k - 1);
    HandlesAppend(BoxAnnotationHandles(n0, 0, k - 1), line);
    HandlesAppend(BoxAnnotationHandles(n0, 1, k - 1), line + 1);
    AddDimensionKeys(num, box, prev, k - 1, line);
  }

  /** The outline and the dimension lines are remembered by the box holders. */
  lemma TrackedBoxShown(num: Numerics, box: Box, sc: SceneMap, n0: nat, es: seq<nat>, ps: seq<nat>, ls: seq<nat>)
    requires Tracked(sc, es, ps, ls, None, None)
    ensures Tracked(BoxScene(num, box, sc, n0, 6), es, ps, ls, Some(n0),
                    Some(BoxMeasurements(BoxAnnotationHandles(n0, 0, 6), BoxAnnotationHandles(n0, 1, 6))))
  {
    var bm := BoxMeasurements(BoxAnnotationHandles(n0, 0, 6), BoxAnnotationHandles(n0, 1, 6));
    BoxSceneKeys(num, box, sc, n0, 6);
    assert Handles(HelperHandles(Some(n0))) == {n0};
    forall x | x in BoxScene(num, box, sc, n0, 6)
      ensures Remembered(x, es, ps, ls, Some(n0), Some(bm))
    {
      if x in sc {
        assert Remembered(x, es, ps, ls, None, None);
      }
    }
  }

  class Viewer {
    /** Vector3.distanceTo, Vector3.normalize and Number.prototype.toFixed. */
    const num: Numerics
    /** `new Box3().setFromObject(this.content)`. */
    const contentBox: Box
    /** The position buffers of the content's meshes, in traversal order. */
    const geometries: seq<seq<real>>

    /** The scene: the objects added and not yet removed, by handle. */
    var scene: SceneMap
    /** The next handle to give out; every handle in use is below it. */
    var nextHandle: nat

    /** `this.state`: the three measurement check boxes. */
    var enablePointMeasure: bool
    var showEdgeMeasurements: bool
    var showBoundingBox: bool

    /** `this.measurements`. */
    var edges: seq<nat>
    var points: seq<nat>
    var measurementLabels: seq<nat>
    var measuring: bool
    var startPoint: Option<Point>

    var boundingBoxHelper: Option<nat>
    var boundingBoxMeasurements: Option<BoxMeasurements>

    /** The label every measured segment gets, at the current model size. */
    function LabelFor(start: Point, end: Point): SceneObject
    {
      MeasurementLabel(num, ModelSize(contentBox), start, end)
    }

    /** Every position array holds whole triangles, nine numbers each. */
    ghost predicate WholeTriangles()
    {
      forall i :: 0 <= i < |geometries| ==> |geometries[i]| % 9 == 0
    }

    /** Every handle in the scene was given out already. */
    ghost predicate Allocated()
      reads this
    {
      forall h :: h in scene ==> h < nextHandle
    }

    /**
     * The point-measurement session: a pending measurement has a start point
     * whose marker is the last one, and the marker count is odd exactly while
     * a measurement is pending.
     */
    ghost predicate Session()
      reads this
    {
      && (measuring ==> startPoint.Some? && |points| > 0 && points[|points| - 1] in scene
                        && scene[points[|points| - 1]] == Marker(startPoint.value))
      && (|points| % 2 == 1 <==> measuring)
    }

    /** The markers are in the scene, and each segment of `edges` has its label. */
    ghost predicate Core()
      reads this
    {
      && Allocated()
      && AllOfKind(scene, points, MarkerKind)
      && PairedIn(num, ModelSize(contentBox), scene, edges, measurementLabels)
      && Session()
    }

    /** The box annotations of the current scene. */
    ghost predicate BoxParts()
      reads this
    {
      Annotations(num, contentBox, boundingBoxHelper, boundingBoxMeasurements, scene, edges, measurementLabels)
    }

    /** The check box says whether the annotations are there. */
    ghost predicate BoxFlag()
      reads this
    {
      && (showBoundingBox <==> boundingBoxHelper.Some?)
      && (showBoundingBox <==> boundingBoxMeasurements.Some?)
    }

    /** Every object in the scene is remembered by `measurements` or by a box holder. */
    ghost predicate NoOrphans()
      reads this`scene, this`edges, this`points, this`measurementLabels
      reads this`boundingBoxHelper, this`boundingBoxMeasurements
    {
      Tracked(scene, edges, points, measurementLabels, boundingBoxHelper, boundingBoxMeasurements)
    }

    ghost predicate Valid()
      reads this
    {
      Core() && BoxParts() && BoxFlag() && NoOrphans()
    }

    /**
     * The viewer as its constructor leaves the measurement state: every check
     * box off, and `this.measurements` as addMeasurementTools creates it.
     */
    constructor (num: Numerics, contentBox: Box, geometries: seq<seq<real>>)
      ensures this.num == num && this.contentBox == contentBox && this.geometries == geometries
      ensures scene == map[] && nextHandle == 0
      ensures !enablePointMeasure && !showEdgeMeasurements && !showBoundingBox
      ensures edges == [] && points == [] && measurementLabels == []
      ensures !measuring && startPoint == None
      ensures boundingBoxHelper == None && boundingBoxMeasurements == None
      ensures Valid()
    {
      this.num := num;
      this.contentBox := contentBox;
      this.geometries := geometries;
      scene := map[];
      nextHandle := 0;
      enablePointMeasure := false;
      showEdgeMeasurements := false;
      showBoundingBox := false;
      edges := [];
      points := [];
      measurementLabels := [];
      measuring := false;
      startPoint := None;
      boundingBoxHelper := None;
      boundingBoxMeasurements := None;
    }

    /** `scene.add(obj)`: the object gets the next handle. */
    method AddToScene(obj: SceneObject) returns (h: nat)
      requires Allocated()
      modifies this`scene, this`nextHandle
      ensures h == old(nextHandle) && h !in old(scene)
      ensures scene == old(scene)[h := obj] && nextHandle == h + 1
      ensures Allocated() && Grows(old(scene), scene)
    {
      h := nextHandle;
      scene := scene[h := obj];
      nextHandle := nextHandle + 1;
    }

    /** `hs.forEach(h => this.scene.remove(h))`. */
    method RemoveFromScene(hs: seq<nat>)
      requires Allocated()
      modifies this`scene
      ensures scene == old(scene) - Handles(hs)
      ensures Allocated()
    {
      var i := 0;
      while i < |hs|
        invariant 0 <= i <= |hs|
        invariant scene == old(scene) - Handles(hs[..i])
      {
        assert hs[..i + 1][..i] == hs[..i];
        scene := scene - {hs[i]};
        i := i + 1;
      }
      assert hs[..i] == hs;
    }

    /** addMeasurementPoint: a marker at `position`, remembered in `points`. */
    method AddMeasurementPoint(position: Point)
      requires Allocated()
      modifies this`scene, this`nextHandle, this`points
      ensures scene == old(scene)[old(nextHandle) := Marker(position)] && nextHandle == old(nextHandle) + 1
      ensures points == old(points) + [old(nextHandle)]
      ensures old(nextHandle) !in old(scene) && Allocated() && Grows(old(scene), scene)
      ensures old(NoOrphans()) ==> NoOrphans()
    {
      if NoOrphans() {
        TrackedMarker(scene, edges, points, measurementLabels, boundingBoxHelper, boundingBoxMeasurements,
                      nextHandle, Marker(position));
      }
      var sphere := AddToScene(Marker(position));
      points := points + [sphere];
    }

    /** createMeasurementLabel: a sprite reading `text` at the midpoint, scaled by the step table. */
    method CreateMeasurementLabel(start: Point, end: Point, text: string)
      requires Allocated()
      modifies this`scene, this`nextHandle, this`measurementLabels
      ensures var sprite := Label(Midpoint(start, end), text, LabelScale.LabelScaleFor(ModelSize(contentBox)));
        scene == old(scene)[old(nextHandle) := sprite] && nextHandle == old(nextHandle) + 1
      ensures measurementLabels == old(measurementLabels) + [old(nextHandle)]
      ensures old(nextHandle) !in old(scene) && Allocated()
    {
      var modelSize := ModelSize(contentBox);
      var sprite := AddToScene(Label(Midpoint(start, end), text, LabelScale.LabelScaleFor(modelSize)));
      measurementLabels := measurementLabels + [sprite];
    }

    /**
     * createMeasurementLine: a segment from `start` to `end` in `edges`, then
     * its label, reading the distance with two decimals and "m".
     */
    method CreateMeasurementLine(start: Point, end: Point)
      requires Allocated()
      modifies this`scene, this`nextHandle, this`edges, this`measurementLabels
      ensures var line := old(nextHandle);
        && line !in old(scene) && line + 1 !in old(scene)
        && scene == old(scene)[line := Segment(start, end)][line + 1 := LabelFor(start, end)]
        && nextHandle == line + 2
        && edges == old(edges) + [line]
        && measurementLabels == old(measurementLabels) + [line + 1]
      ensures Allocated() && Grows(old(scene), scene)
      ensures old(NoOrphans()) ==> NoOrphans()
    {
      if NoOrphans() {
        TrackedSegment(scene, edges, points, measurementLabels, boundingBoxHelper, boundingBoxMeasurements,
                       nextHandle, Segment(start, end), LabelFor(start, end));
      }
      var line := AddToScene(Segment(start, end));
      edges := edges + [line];
      var distance := num.toFixed(num.distance(start, end), 2);
      CreateMeasurementLabel(start, end, distance + "m");
    }

    /**
     * createEdgeMeasurement: a measured segment from `start` to `end` with its
     * label. The source repeats the body of createMeasurementLine here.
     */
    method CreateEdgeMeasurement(start: Point, end: Point)
      requires Valid()
      modifies this`scene, this`nextHandle, this`edges, this`measurementLabels
      ensures Valid()
      ensures var line := old(nextHandle);
        && scene == old(scene)[line := Segment(start, end)][line + 1 := LabelFor(start, end)]
        && nextHandle == line + 2
        && edges == old(edges) + [line]
        && measurementLabels == old(measurementLabels) + [line + 1]
    {
      TrackedSegment(scene, edges, points, measurementLabels, boundingBoxHelper, boundingBoxMeasurements,
                     nextHandle, Segment(start, end), LabelFor(start, end));
      CreateMeasurementLine(start, end);
      GrowsKeepsKind(old(scene), scene, points, MarkerKind);
      AddKeepsPaired(num, ModelSize(contentBox), old(scene), old(edges), old(measurementLabels),
                     old(nextHandle), old(nextHandle) + 1, start, end);
      AnnotationsAppend(num, contentBox, boundingBoxHelper, boundingBoxMeasurements, old(scene), old(edges), old(measurementLabels), old(nextHandle), old(nextHandle) + 1);
      AnnotationsGrow(num, contentBox, boundingBoxHelper, boundingBoxMeasurements, old(scene), scene, edges, measurementLabels);
    }

    /**
     * handleMeasurementClick, given the ray hit (`None` when the ray missed).
     * The first hit starts a measurement at the hit; the second places its
     * end, draws the segment and labels it. Completing a measurement leaves
     * `startPoint` as it was.
     */
    method HandleMeasurementClick(hit: Option<Point>)
      requires Valid()
      modifies this`scene, this`nextHandle, this`edges, this`points, this`measurementLabels
      modifies this`measuring, this`startPoint
      ensures Valid()
      ensures hit == None ==> unchanged(this)
      ensures hit.Some? && !old(measuring) ==>
        && measuring && startPoint == hit
        && scene == old(scene)[old(nextHandle) := Marker(hit.value)]
        && nextHandle == old(nextHandle) + 1
        && points == old(points) + [old(nextHandle)]
        && edges == old(edges) && measurementLabels == old(measurementLabels)
      ensures hit.Some? && old(measuring) ==>
        var marker, start := old(nextHandle), old(startPoint).value;
        && !measuring && startPoint == old(startPoint)
        && scene == old(scene)[marker := Marker(hit.value)][marker + 1 := Segment(start, hit.value)]
                              [marker + 2 := LabelFor(start, hit.value)]
        && nextHandle == marker + 3
        && points == old(points) + [marker]
        && edges == old(edges) + [marker + 1]
        && measurementLabels == old(measurementLabels) + [marker + 2]
    {
      if hit.Some? {
        var point := hit.value;
        if !measuring {
          BeginMeasurement(point);
        } else {
          CompleteMeasurement(point);
        }
      }
    }

    /** The first branch of handleMeasurementClick: a marker at `point` starts a measurement there. */
    method BeginMeasurement(point: Point)
      requires Valid() && !measuring
      modifies this`scene, this`nextHandle, this`points, this`measuring, this`startPoint
      ensures Valid()
      ensures measuring && startPoint == Some(point)
      ensures scene == old(scene)[old(nextHandle) := Marker(point)]
      ensures nextHandle == old(nextHandle) + 1
      ensures points == old(points) + [old(nextHandle)]
    {
      ghost var helper, holder := boundingBoxHelper, boundingBoxMeasurements;
      ghost var sc0, es0, ps0, ls0 := scene, edges, points, measurementLabels;
      MarkerKeepsParts(num, contentBox, helper, holder, sc0, ps0, es0, ls0, nextHandle, point);
      startPoint := Some(point);
      AddMeasurementPoint(point);
      measuring := true;
    }

    /**
     * The second branch of handleMeasurementClick: a marker at `point`, then
     * the segment from the start point to it and its label.
     */
    method CompleteMeasurement(point: Point)
      requires Valid() && measuring
      modifies this`scene, this`nextHandle, this`edges, this`points, this`measurementLabels, this`measuring
      ensures Valid()
      ensures var marker, start := old(nextHandle), old(startPoint).value;
        && !measuring
        && scene == old(scene)[marker := Marker(point)][marker + 1 := Segment(start, point)]
                              [marker + 2 := LabelFor(start, point)]
        && nextHandle == marker + 3
        && points == old(points) + [marker]
        && edges == old(edges) + [marker + 1]
        && measurementLabels == old(measurementLabels) + [marker + 2]
    {
      ghost var helper, holder := boundingBoxHelper, boundingBoxMeasurements;
      ghost var sc0, es0, ps0, ls0 := scene, edges, points, measurementLabels;
      ghost var n, start := nextHandle, startPoint.value;
      MeasurementKeepsParts(num, contentBox, helper, holder, sc0, ps0, es0, ls0, n, start, point);
      AddMeasurementPoint(point);
      CreateMeasurementLine(startPoint.value, point);
      measuring := false;
    }

    /** The click listener: clicks are ignored unless the point tool is on. */
    method OnClick(hit: Option<Point>)
      requires Valid()
      modifies this`scene, this`nextHandle, this`edges, this`points, this`measurementLabels
      modifies this`measuring, this`startPoint
      ensures Valid()
      ensures !enablePointMeasure || hit == None ==> unchanged(this)
      ensures enablePointMeasure && hit.Some? && !old(measuring) ==>
        && measuring && startPoint == hit
        && scene == old(scene)[old(nextHandle) := Marker(hit.value)]
        && nextHandle == old(nextHandle) + 1
        && points == old(points) + [old(nextHandle)]
        && edges == old(edges) && measurementLabels == old(measurementLabels)
      ensures enablePointMeasure && hit.Some? && old(measuring) ==>
        var marker, start := old(nextHandle), old(startPoint).value;
        && !measuring && startPoint == old(startPoint)
        && scene == old(scene)[marker := Marker(hit.value)][marker + 1 := Segment(start, hit.value)]
                              [marker + 2 := LabelFor(start, hit.value)]
        && nextHandle == marker + 3
        && points == old(points) + [marker]
        && edges == old(edges) + [marker + 1]
        && measurementLabels == old(measurementLabels) + [marker + 2]
    {
      if !enablePointMeasure {
        return;
      }
      HandleMeasurementClick(hit);
    }

    /**
     * clearEdgeMeasurements: every segment, marker and label of `measurements`
     * leaves the scene, whether it came from the point tool or from the edge
     * measurements, and the session starts over.
     */
    method ClearEdgeMeasurements()
      requires Valid()
      modifies this`scene, this`edges, this`points, this`measurementLabels, this`measuring, this`startPoint
      ensures Valid()
      ensures scene == old(scene) - (Handles(old(edges)) + Handles(old(points)) + Handles(old(measurementLabels)))
      ensures edges == [] && points == [] && measurementLabels == []
      ensures !measuring && startPoint == None
    {
      ghost var helper, holder := boundingBoxHelper, boundingBoxMeasurements;
      ghost var sc0, es0, ps0, ls0 := scene, edges, points, measurementLabels;
      ClearKeepsAnnotations(num, contentBox, helper, holder, sc0, es0, ps0, ls0);
      TrackedCleared(sc0, es0, ps0, ls0, helper, holder);
      RemoveInTurn(sc0, Handles(es0), Handles(ps0), Handles(ls0));
      RemoveFromScene(edges);
      RemoveFromScene(points);
      RemoveFromScene(measurementLabels);
      edges := [];
      points := [];
      measurementLabels := [];
      measuring := false;
      startPoint := None;
    }

    /**
     * togglePointMeasurement, after the check box changed: turning the tool
     * off in the middle of a measurement removes every marker (those of
     * completed measurements too) and abandons the measurement; segments and
     * labels stay. In every other case nothing changes.
     */
    method TogglePointMeasurement()
      requires Valid()
      modifies this`scene, this`points, this`measuring, this`startPoint
      ensures Valid()
      ensures enablePointMeasure || !old(measuring) ==> unchanged(this)
      ensures !enablePointMeasure && old(measuring) ==>
        && scene == old(scene) - Handles(old(points))
        && points == [] && !measuring && startPoint == None
    {
      if enablePointMeasure {
        // Only the cursor changes.
      } else {
        if measuring {
          if |points| > 0 {
            RemoveMarkersKeepsRest(num, contentBox, boundingBoxHelper, boundingBoxMeasurements, scene, edges, points, measurementLabels);
            TrackedCleared(scene, edges, points, measurementLabels, boundingBoxHelper, boundingBoxMeasurements);
            RemoveFromScene(points);
            points := [];
          }
          measuring := false;
          startPoint := None;
        }
      }
    }

    /** The "Point Measure Tool" check box was clicked: it flips, then the tool follows it. */
    method OnPointMeasureToolChange()
      requires Valid()
      modifies this`enablePointMeasure, this`scene, this`points, this`measuring, this`startPoint
      ensures Valid()
      ensures enablePointMeasure == !old(enablePointMeasure)
      ensures !enablePointMeasure && old(measuring) ==>
        && scene == old(scene) - Handles(old(points))
        && points == [] && !measuring && startPoint == None
      ensures enablePointMeasure || !old(measuring) ==>
        && scene == old(scene) && points == old(points)
        && measuring == old(measuring) && startPoint == old(startPoint)
    {
      enablePointMeasure := !enablePointMeasure;
      TogglePointMeasurement();
    }

    /**
     * The "Clear Measurements" button: clear the measurements, switch the
     * point tool off and apply the switch.
     */
    method ClearMeasurements()
      requires Valid()
      modifies this`scene, this`edges, this`points, this`measurementLabels, this`measuring, this`startPoint
      modifies this`enablePointMeasure
      ensures Valid()
      ensures scene == old(scene) - (Handles(old(edges)) + Handles(old(points)) + Handles(old(measurementLabels)))
      ensures edges == [] && points == [] && measurementLabels == []
      ensures !measuring && startPoint == None && !enablePointMeasure
    {
      ClearEdgeMeasurements();
      enablePointMeasure := false;
      TogglePointMeasurement();
    }

    /** toggleEdgeMeasurements: show the edge measurements when the check box is on, clear them when off. */
    method ToggleEdgeMeasurements()
      requires Valid() && (showEdgeMeasurements ==> WholeTriangles())
      modifies this`scene, this`nextHandle, this`edges, this`points, this`measurementLabels
      modifies this`measuring, this`startPoint
      ensures Valid()
      ensures points == [] && !measuring && startPoint == None
      ensures Outside(old(edges) + old(points) + old(measurementLabels), scene.Keys)
      ensures showEdgeMeasurements ==> SegmentsAre(scene, edges, AllSignificant(num, contentBox, geometries))
      ensures !showEdgeMeasurements ==>
        && scene == old(scene) - (Handles(old(edges)) + Handles(old(points)) + Handles(old(measurementLabels)))
        && edges == [] && measurementLabels == []
    {
      if showEdgeMeasurements {
        ShowEdgeMeasurements();
      } else {
        ClearEdgeMeasurements();
        OutsideRemoved(old(scene), old(edges), old(points), old(measurementLabels));
      }
    }

    /** The "Show Edge Measurements" check box was clicked: it flips, then the measurements follow it. */
    method OnEdgeMeasurementsChange()
      requires Valid() && (!showEdgeMeasurements ==> WholeTriangles())
      modifies this`showEdgeMeasurements, this`scene, this`nextHandle, this`edges, this`points
      modifies this`measurementLabels, this`measuring, this`startPoint
      ensures Valid()
      ensures showEdgeMeasurements == !old(showEdgeMeasurements)
      ensures points == [] && !measuring && startPoint == None
      ensures Outside(old(edges) + old(points) + old(measurementLabels), scene.Keys)
      ensures showEdgeMeasurements ==> SegmentsAre(scene, edges, AllSignificant(num, contentBox, geometries))
      ensures !showEdgeMeasurements ==>
        && scene == old(scene) - (Handles(old(edges)) + Handles(old(points)) + Handles(old(measurementLabels)))
        && edges == [] && measurementLabels == []
    {
      showEdgeMeasurements := !showEdgeMeasurements;
      ToggleEdgeMeasurements();
    }

    /**
     * showEdgeMeasurements: clear the measurements, then measure the
     * significant edges of every geometry of the content, in traversal order.
     * Every old segment, marker and label is gone; the segments in `edges` are
     * exactly the significant edges, each with its label.
     */
    method ShowEdgeMeasurements()
      requires Valid() && WholeTriangles()
      modifies this`scene, this`nextHandle, this`edges, this`points, this`measurementLabels
      modifies this`measuring, this`startPoint
      ensures Valid()
      ensures points == [] && !measuring && startPoint == None
      ensures SegmentsAre(scene, edges, AllSignificant(num, contentBox, geometries))
      ensures Outside(old(edges) + old(points) + old(measurementLabels), scene.Keys)
    {
      ghost var gone := edges + points + measurementLabels;
      HandlesBelow(scene, nextHandle, edges, points, measurementLabels);
      ClearEdgeMeasurements();
      OutsideRemoved(old(scene), old(edges), old(points), old(measurementLabels));
      ghost var sc, n := scene, nextHandle;
      assert Gone(gone, sc, n);
      MeasureContent();
      GoneExtends(gone, sc, n, scene, nextHandle);
    }

    /**
     * The traversal of showEdgeMeasurements, once the measurements are
     * cleared: the significant edges of every geometry of the content,
     * measured in traversal order.
     */
    method MeasureContent()
      requires Valid() && WholeTriangles() && edges == []
      modifies this`scene, this`nextHandle, this`edges, this`measurementLabels
      ensures Valid()
      ensures SegmentsAre(scene, edges, AllSignificant(num, contentBox, geometries))
      ensures Extends(old(scene), scene, old(nextHandle)) && nextHandle >= old(nextHandle)
    {
      ghost var sc0, n0 := scene, nextHandle;
      var g := 0;
      while g < |geometries|
        invariant 0 <= g <= |geometries|
        invariant Valid()
        invariant SegmentsAre(scene, edges, AllSignificant(num, contentBox, geometries[..g]))
        invariant Extends(sc0, scene, n0) && nextHandle >= n0
      {
        var significant := GetSignificantEdges(num, contentBox, geometries[g]);
        ghost var sc, n := scene, nextHandle;
        CreateEdgeMeasurements(significant, AllSignificant(num, contentBox, geometries[..g]));
        ExtendsTransitive(sc0, sc, scene, n0, n);
        AllSignificantStep(num, contentBox, geometries, g);
        g := g + 1;
      }
      assert geometries[..g] == geometries;
    }

    /** `edges.forEach(edge => this.createEdgeMeasurement(edge.start, edge.end))`. */
    method CreateEdgeMeasurements(es: seq<Edge>, ghost done: seq<Edge>)
      requires Valid() && SegmentsAre(scene, edges, done)
      modifies this`scene, this`nextHandle, this`edges, this`measurementLabels
      ensures Valid() && SegmentsAre(scene, edges, done + es)
      ensures Extends(old(scene), scene, old(nextHandle)) && nextHandle >= old(nextHandle)
    {
      ghost var sc0, n0 := scene, nextHandle;
      var k := 0;
      while k < |es|
        invariant 0 <= k <= |es|
        invariant Valid() && SegmentsAre(scene, edges, done + es[..k])
        invariant Extends(sc0, scene, n0) && nextHandle >= n0
      {
        ghost var sc, ls, n := scene, edges, nextHandle;
        var edge := es[k];
        CreateEdgeMeasurement(edge.start, edge.end);
        SegmentsAppend(sc, ls, done + es[..k], n, edge, n + 1, LabelFor(edge.start, edge.end));
        PrefixStep(done, es, k);
        k := k + 1;
      }
      assert es[..k] == es;
    }

    /**
     * createBoundingBoxMeasurement: a segment from `start` to `end` in the
     * box holder, created empty if there is none yet, then its label. The
     * `dimensionType` argument is not used.
     */
    method CreateBoundingBoxMeasurement(start: Point, end: Point, dimensionType: string)
      requires Allocated()
      modifies this`scene, this`nextHandle, this`boundingBoxMeasurements
      ensures var line, bm := old(nextHandle), BoxSoFar(old(boundingBoxMeasurements));
        && line !in old(scene) && line + 1 !in old(scene)
        && scene == old(scene)[line := Segment(start, end)][line + 1 := LabelFor(start, end)]
        && nextHandle == line + 2
        && boundingBoxMeasurements == Some(BoxMeasurements(bm.lines + [line], bm.labels + [line + 1]))
      ensures Allocated()
    {
      var line := AddToScene(Segment(start, end));
      if boundingBoxMeasurements.None? {
        boundingBoxMeasurements := Some(BoxMeasurements([], []));
      }
      var bm := boundingBoxMeasurements.value;
      boundingBoxMeasurements := Some(bm.(lines := bm.lines + [line]));
      var distance := num.toFixed(num.distance(start, end), 2);
      var midPoint := Midpoint(start, end);
      var modelSize := ModelSize(contentBox);
      var sprite := AddToScene(Label(midPoint, distance + "m", LabelScale.LabelScaleFor(modelSize)));
      bm := boundingBoxMeasurements.value;
      boundingBoxMeasurements := Some(bm.(labels := bm.labels + [sprite]));
    }

    /**
     * The on-branch of the "Bounding Box" check box: the outline of the
     * content box, then its six dimension lines with their labels (width,
     * height and depth on the front face, then on the back face), all under
     * new handles. Nothing already in the scene changes.
     */
    method ShowBoundingBox()
      requires Allocated() && boundingBoxHelper == None && boundingBoxMeasurements == None
      modifies this`scene, this`nextHandle, this`boundingBoxHelper, this`boundingBoxMeasurements
      ensures var n0 := old(nextHandle);
        && scene == BoxScene(num, contentBox, old(scene), n0, 6)
        && boundingBoxHelper == Some(n0)
        && boundingBoxMeasurements == Some(BoxMeasurements(BoxAnnotationHandles(n0, 0, 6), BoxAnnotationHandles(n0, 1, 6)))
        && nextHandle == n0 + 13
      ensures Allocated()
    {
      ghost var sc0 := scene;
      var box := contentBox;
      var helper := AddToScene(BoxOutline(box));
      boundingBoxHelper := Some(helper);
      var min, max := box.min, box.max;
      assert scene == BoxScene(num, contentBox, sc0, helper, 0);

      // Front face.
      CreateBoundingBoxMeasurement(Point(min.x, min.y, min.z), Point(max.x, min.y, min.z), "Width");
      assert scene == BoxScene(num, contentBox, sc0, helper, 1);
      assert boundingBoxMeasurements == Some(BoxMeasurements(BoxAnnotationHandles(helper, 0, 1), BoxAnnotationHandles(helper, 1, 1)));
      CreateBoundingBoxMeasurement(Point(min.x, min.y, min.z), Point(min.x, max.y, min.z), "Height");
      assert scene == BoxScene(num, contentBox, sc0, helper, 2);
      assert boundingBoxMeasurements == Some(BoxMeasurements(BoxAnnotationHandles(helper, 0, 2), BoxAnnotationHandles(helper, 1, 2)));
      CreateBoundingBoxMeasurement(Point(min.x, min.y, min.z), Point(min.x, min.y, max.z), "Depth");
      assert scene == BoxScene(num, contentBox, sc0, helper, 3);
      assert boundingBoxMeasurements == Some(BoxMeasurements(BoxAnnotationHandles(helper, 0, 3), BoxAnnotationHandles(helper, 1, 3)));

      // Back face.
      CreateBoundingBoxMeasurement(Point(min.x, max.y, max.z), Point(max.x, max.y, max.z), "Width");
      assert scene == BoxScene(num, contentBox, sc0, helper, 4);
      assert boundingBoxMeasurements == Some(BoxMeasurements(BoxAnnotationHandles(helper, 0, 4), BoxAnnotationHandles(helper, 1, 4)));
      CreateBoundingBoxMeasurement(Point(max.x, min.y, max.z), Point(max.x, max.y, max.z), "Height");
      assert scene == BoxScene(num, contentBox, sc0, helper, 5);
      assert boundingBoxMeasurements == Some(BoxMeasurements(BoxAnnotationHandles(helper, 0, 5), BoxAnnotationHandles(helper, 1, 5)));
      CreateBoundingBoxMeasurement(Point(max.x, max.y, min.z), Point(max.x, max.y, max.z), "Depth");
      assert scene == BoxScene(num, contentBox, sc0, helper, 6);
      assert boundingBoxMeasurements == Some(BoxMeasurements(BoxAnnotationHandles(helper, 0, 6), BoxAnnotationHandles(helper, 1, 6)));
    }

    /**
     * clearBoundingBoxMeasurements: the outline and every line and label of
     * the holder leave the scene, and both holders are null again.
     */
    method ClearBoundingBoxMeasurements()
      requires Core() && BoxParts() && NoOrphans()
      modifies this`scene, this`boundingBoxHelper, this`boundingBoxMeasurements
      ensures Core() && BoxParts() && NoOrphans()
      ensures boundingBoxHelper == None && boundingBoxMeasurements == None
      ensures scene == old(scene) - BoxHandles(old(boundingBoxHelper), old(boundingBoxMeasurements))
    {
      ghost var helper, holder := boundingBoxHelper, boundingBoxMeasurements;
      ghost var sc0, es0, ps0, ls0 := scene, edges, points, measurementLabels;
      ClearBoxKeepsMeasurements(num, contentBox, helper, holder, sc0, es0, ps0, ls0);
      TrackedBoxCleared(sc0, es0, ps0, ls0, helper, holder);
      RemoveInTurn(sc0, Handles(HelperHandles(helper)), Handles(BoxSoFar(holder).lines), Handles(BoxSoFar(holder).labels));
      ghost var sc1 := sc0 - Handles(HelperHandles(helper));
      RemoveNothing(sc0);
      if boundingBoxHelper.Some? {
        RemoveFromScene([boundingBoxHelper.value]);
        boundingBoxHelper := None;
      }
      assert scene == sc1;
      RemoveNothing(sc1);
      if boundingBoxMeasurements.Some? {
        RemoveFromScene(boundingBoxMeasurements.value.lines);
        RemoveFromScene(boundingBoxMeasurements.value.labels);
        boundingBoxMeasurements := None;
      }
      assert scene == sc1 - Handles(BoxSoFar(holder).lines) - Handles(BoxSoFar(holder).labels);
    }

    /**
     * The "Bounding Box" check box was clicked: it flips; on, the outline and
     * the six dimension lines are added; off, they are cleared.
     */
    method OnBoundingBoxChange()
      requires Valid()
      modifies this`showBoundingBox, this`scene, this`nextHandle, this`boundingBoxHelper
      modifies this`boundingBoxMeasurements
      ensures Valid()
      ensures showBoundingBox == !old(showBoundingBox)
      ensures showBoundingBox ==>
        && boundingBoxHelper == Some(old(nextHandle)) && nextHandle == old(nextHandle) + 13
        && Grows(old(scene), scene)
        && forall h :: h in scene ==> h in old(scene) || old(nextHandle) <= h
      ensures !showBoundingBox ==>
        && boundingBoxHelper == None && boundingBoxMeasurements == None
        && scene == old(scene) - BoxHandles(old(boundingBoxHelper), old(boundingBoxMeasurements))
    {
      showBoundingBox := !showBoundingBox;
      if showBoundingBox {
        ghost var sc0, n0 := scene, nextHandle;
        ghost var es0, ps0, ls0 := edges, points, measurementLabels;
        assert AllOfKind(sc0, ps0, MarkerKind) && PairedIn(num, ModelSize(contentBox), sc0, es0, ls0);
        BoxShownKeepsParts(num, contentBox, sc0, n0, es0, ps0, ls0);
        TrackedBoxShown(num, contentBox, sc0, n0, es0, ps0, ls0);
        ShowBoundingBox();
        assert edges == es0 && points == ps0 && measurementLabels == ls0;
        assert BoxParts();
        assert Session();
      } else {
        ClearBoundingBoxMeasurements();
      }
    }
  }
}
