# Measurements of the gaze viewer, in Dafny

This project models the measurement subsystem of the `Viewer` class in
`gaze/src/viewer.js`, a three.js model viewer, and proves properties of it.
The model covers four parts:

- **The point-measurement session.** `handleMeasurementClick` places a red marker at the first hit and a second marker at the next one. It then draws a segment between them and adds a distance label.
- **The edge measurements.** `getSignificantEdges` reads the position array of every geometry as a list of triangles, nine numbers each; it never reads the geometry's index. It keeps the edges longer than a tenth of the model size whose direction passes the axis-alignment test, and deduplicates them by an order-independent key, keeping the longest. It then sorts them longest first and returns at most twelve. `showEdgeMeasurements` measures each of these edges.
- **The bounding-box annotations.** The "Bounding Box" check box adds a `Box3Helper` outline and six labelled dimension lines, or removes them.
- **The label-scale table.** It is shared by all distance labels: `modelSize * 0.05` times a factor of 2, 1, 0.5 or 0.25, by model size.

The three.js scene is modelled as a map from handles to the objects the
measurement code adds: markers, segments, label sprites and the box
outline. `scene.add` gives out the next handle and `scene.remove` deletes
one. The `Viewer` class keeps the fields that the source updates in place:

- `this.measurements` (`edges`, `points`, `measurementLabels`, `measuring`, `startPoint`);
- `boundingBoxHelper` and `boundingBoxMeasurements`;
- the three check boxes of `this.state`.

Its invariant `Valid()` says five things:

- every marker is in the scene;
- every segment in `edges` has its label, in the same order;
- a pending measurement's start point is the last marker, and the marker count is odd exactly while measuring;
- the box annotations are present exactly while the check box is on: the outline of the content box, plus six dimension lines each with its label;
- no orphans: every object in the scene is remembered by `this.measurements` or by one of the box holders, so one of the clear operations removes it.

The constructor establishes `Valid()`. These methods require it and keep it:

- the GUI handlers `OnClick`, `OnPointMeasureToolChange`, `OnEdgeMeasurementsChange` and `OnBoundingBoxChange`;
- the operations they reach: `HandleMeasurementClick` with `BeginMeasurement` and `CompleteMeasurement`, `TogglePointMeasurement`, `ToggleEdgeMeasurements`, `ShowEdgeMeasurements` with `MeasureContent`, `CreateEdgeMeasurements`, `CreateEdgeMeasurement`, `ClearEdgeMeasurements` and `ClearMeasurements`.

`ClearBoundingBoxMeasurements` runs while the check box is being switched off, so it keeps every part of `Valid()` except the check-box link. `OnBoundingBoxChange` restores that link. The smaller helpers (`AddToScene`, `RemoveFromScene`, `AddMeasurementPoint`, `CreateMeasurementLabel`, `CreateMeasurementLine`, `CreateBoundingBoxMeasurement`, `ShowBoundingBox`) do not keep `Valid()`. Instead they state their exact effect on the scene and on the lists, and their callers prove the invariant from that. `AddMeasurementPoint` and `CreateMeasurementLine` also keep the no-orphans part.

`getSignificantEdges` is specified by pure functions:

- `Collect` is the keyed table after offering every candidate edge. It is a JavaScript `Map`, so it keeps the order in which keys were first set.
- `Values` is `Array.from(map.values())`.
- `SortByLengthDesc` is a stable insertion sort.
- `SelectSignificant` takes the first twelve.

The loops of the source are methods proved equal to these functions.

Behaviour of the source that the model keeps on purpose:

- Completing a measurement leaves `startPoint` as it was.
- Unticking the point tool in the middle of a measurement removes every marker, including those of completed measurements. Segments and labels stay.
- `clearEdgeMeasurements` clears everything in `this.measurements`, including the segments, markers and labels made with the point tool.
- The alignment test is copied as written: `Math.abs(Math.abs(c) - 1) < 0.26`. It accepts a direction component whose magnitude lies strictly between 0.74 and 1.26 (`AlmostUnitMeans`). The comment beside it speaks of 15 degrees, which the constant does not give.
- `createBoundingBoxMeasurement` ignores its `dimensionType` argument.

Source files:

- `gaze/src/viewer.js` is the only core file.
- `serviceWorker.js` is not part of this model.

## Model

| member | source | states |
|---|---|---|
| Geometry.MidpointHalves | gaze/src/viewer.js:1075 | The label position `addVectors(start, end).multiplyScalar(0.5)` is as far from `start` as `end` is from it. |
| Geometry.Abs | gaze/src/viewer.js:993 | `Math.abs` is non-negative and is the number or its negation. |
| Geometry.SizeOfBox | gaze/src/viewer.js:1020 | `getSize` is never negative and spans a non-empty box from corner to corner. |
| Geometry.ModelSizeIsLargestDimension | gaze/src/viewer.js:1018-1022 | getBoundingBoxSize is non-negative, at least each dimension, and equal to one of them. |
| LabelScale.ScaleFactorHalvesPerThreshold | gaze/src/viewer.js:1106-1115 | The factor is 2 halved once per threshold (1, 10, 100) reached. |
| LabelScale.ScaleFactorNonIncreasing | gaze/src/viewer.js:1224-1233 | A larger model never gets a larger factor. |
| LabelScale.LabelScaleShape | gaze/src/viewer.js:1103-1118 | The sprite is `(finalScale, finalScale/2, 1)`, and its width lies between `modelSize/80` and `modelSize/10`. |
| LabelScale.LabelGrowsAtMostWithModel | gaze/src/viewer.js:1220-1236 | The label width never grows faster than the model size. |
| EdgeKeys.LexLessIrreflexive | gaze/src/viewer.js:962 | JavaScript `<` on strings is irreflexive. |
| EdgeKeys.LexLessAsymmetric | gaze/src/viewer.js:962 | JavaScript `<` on strings is asymmetric. |
| EdgeKeys.LexLessTotal | gaze/src/viewer.js:962 | Any two distinct strings are ordered one way or the other. |
| EdgeKeys.EdgeKeyOrdered | gaze/src/viewer.js:959-963 | getEdgeKey joins both endpoint strings with `-`, the one that is not greater first. |
| EdgeKeys.EdgeKeySymmetric | gaze/src/viewer.js:959-963 | The key of an edge does not depend on the direction in which it is walked. |
| EdgeSelection.AlmostUnitMeans | gaze/src/viewer.js:992-994 | The alignment test holds exactly when the component's magnitude lies in (0.74, 1.26). |
| EdgeSelection.OfferKeepsWellFormed | gaze/src/viewer.js:996-1000 | The Map stays well formed: its order lists exactly its keys, each once. A qualifying edge with a new key appends that key at the end; every other offer leaves the order as it was, so a key already set keeps its position. |
| EdgeSelection.FirstWithIsFirst | gaze/src/viewer.js:966-1004 | `FirstWith` is the index of the first visited candidate that qualifies and has the given key: that candidate qualifies with the key, and no earlier one does. |
| EdgeSelection.CollectKeepsFirstSeenOrder | gaze/src/viewer.js:966-1004 | Map insertion order: every key belongs to a qualifying candidate, and the keys are listed in the order their first qualifying candidates were visited. |
| EdgeSelection.OfferKeepsSound | gaze/src/viewer.js:983-1000 | After each step, every entry is a qualifying candidate seen so far, stored under its own key. |
| EdgeSelection.OfferKeepsLongest | gaze/src/viewer.js:996-1000 | After each step, every qualifying candidate seen has its key in the Map, with an entry at least as long. |
| EdgeSelection.CollectKeepsLongest | gaze/src/viewer.js:966-1004 | The Map holds only qualifying candidates under their own keys, and for every key the longest one seen. |
| EdgeSelection.FirstAtLeastFinds | gaze/src/viewer.js:966-1004 | `FirstAtLeast` is the index of the first visited candidate that qualifies, has the given key and reaches the given length. |
| EdgeSelection.CollectKeepsFirstOfLongest | gaze/src/viewer.js:996-1000 | Of several equally long qualifying candidates with one key, the Map keeps the first visited: each entry is the earliest candidate with its key that is as long as the entry. The test is a strict `>`. |
| EdgeSort.InsertKeepsOrder | gaze/src/viewer.js:1010 | Inserting into a list sorted longest-first keeps it sorted. |
| EdgeSort.SortByLengthDesc | gaze/src/viewer.js:1010 | `sort((a, b) => b.length - a.length)` returns a permutation of its input, longest first. |
| EdgeSort.SortKeepsDistinctKeys | gaze/src/viewer.js:1010 | Sorting keeps the keys of the edges distinct. |
| EdgeSort.SortedPrefix | gaze/src/viewer.js:1010-1014 | The first `n` sorted edges are longest first, have distinct keys and all come from the input. |
| EdgeSort.SortedPrefixDropsShorter | gaze/src/viewer.js:1010-1014 | An edge that `slice` cuts off is no longer than any edge it keeps. |
| SignificantEdges.Deduplicated | gaze/src/viewer.js:954-1004 | The Map after both loops lists each of its keys exactly once, in the order its first qualifying edge was visited. |
| SignificantEdges.ValuesInFirstSeenOrder | gaze/src/viewer.js:1007 | `Array.from(edges.values())` lists the edges by insertion order: of two values, the one whose key was first met by a qualifying edge comes first. |
| SignificantEdges.ValuesAreCandidates | gaze/src/viewer.js:1007 | Every value of the Map is a qualifying candidate edge of the buffer, stored under its own key, and no key occurs twice. |
| SignificantEdges.SignificantEdgesGuarantees | gaze/src/viewer.js:953-1015 | At most twelve edges come back, longest first, with no key twice. Each is a candidate edge of the buffer, longer than a tenth of the model size, whose direction passes the alignment test. |
| SignificantEdges.ReturnedEdgesAreLongestPerKey | gaze/src/viewer.js:996-1014 | No qualifying candidate with the same key as a returned edge is longer than it. |
| SignificantEdges.TruncationKeepsTheLongest | gaze/src/viewer.js:1010-1014 | The key of every qualifying candidate is represented in the result, unless twelve edges came back and each is at least as long as that candidate. |
| SignificantEdges.ConsiderEdge | gaze/src/viewer.js:975-1001 | One pass of the inner loop is one offer to the Map: it skips short or unaligned edges and keeps the longer edge per key. |
| SignificantEdges.ConsiderTriangle | gaze/src/viewer.js:967-1003 | The inner loop offers the three edges `j -> (j+1) % 3` of the triangle, in order. |
| SignificantEdges.CollectEdges | gaze/src/viewer.js:966-1004 | The outer loop, nine numbers per triangle, leaves the Map that collects every candidate in visiting order. |
| SignificantEdges.GetSignificantEdges | gaze/src/viewer.js:953-1015 | getSignificantEdges returns exactly the twelve (or fewer) longest deduplicated edges. |
| Measurements.BoxLinesSpanDimensions | gaze/src/viewer.js:633-667 | Each of the six dimension lines of a non-empty box runs along one axis (width, height, depth) and is as long as the box in that dimension. |
| Measurements.AllSignificant | gaze/src/viewer.js:943-950 | The traversal measures at most twelve edges per geometry. |
| Measurements.ClearKeepsAnnotations | gaze/src/viewer.js:1124-1135 | Removing the measurements' segments, markers and labels leaves the box outline and the box dimension lines in place. |
| Measurements.RemoveMarkersKeepsRest | gaze/src/viewer.js:1159-1167 | Removing the markers leaves every segment, label and box annotation in place. |
| Measurements.DimensionStep | gaze/src/viewer.js:1171-1240 | One createBoundingBoxMeasurement under two new handles adds the next dimension line and its label to those already built. |
| Measurements.BoxSceneGrows | gaze/src/viewer.js:626-668 | Adding the box keeps every object already in the scene, puts the outline first, and uses only new handles. |
| Measurements.BoxSceneFresh | gaze/src/viewer.js:626-668 | The outline and dimension lines use handles only up to the last one given out. |
| Measurements.BoxSceneBuilt | gaze/src/viewer.js:633-667 | After `k` calls, the first `k` dimension lines are in the scene with their labels, in call order. |
| Measurements.BoxShownKeepsParts | gaze/src/viewer.js:625-668 | Turning the box on yields the box annotations, and leaves the markers and point measurements as they were. |
| Measurements.ClearBoxKeepsMeasurements | gaze/src/viewer.js:1242-1253 | clearBoundingBoxMeasurements removes no marker, segment or label of `this.measurements`. |
| Measurements.MarkerKeepsParts | gaze/src/viewer.js:1037-1041 | Starting a measurement adds one marker and disturbs nothing else. |
| Measurements.MeasurementKeepsParts | gaze/src/viewer.js:1042-1047 | Completing a measurement adds a marker and one more labelled segment, and disturbs nothing else. |
| Measurements.TrackedMarker | gaze/src/viewer.js:1051-1059 | A new marker is remembered in `points`, so no object becomes an orphan. |
| Measurements.TrackedSegment | gaze/src/viewer.js:1061-1072 | A new segment and its label are remembered in `edges` and `measurementLabels`, so no object becomes an orphan. |
| Measurements.TrackedCleared | gaze/src/viewer.js:1124-1135 | After clearing `this.measurements`, or only its markers, every object left in the scene is still remembered. |
| Measurements.TrackedBoxCleared | gaze/src/viewer.js:1242-1253 | After clearing the box holders, every object left in the scene is remembered by `this.measurements`. |
| Measurements.BoxSceneKeys | gaze/src/viewer.js:626-668 | The box adds exactly the outline's handle and the handles of the lines and labels built so far. |
| Measurements.TrackedBoxShown | gaze/src/viewer.js:626-668 | After the box is shown, every object in the scene is remembered by `this.measurements` or by the box holders. |
| Measurements.Viewer.constructor | gaze/src/viewer.js:916-923 | `this.measurements` starts empty, with no measurement pending, no box annotations and every check box off. The invariant holds. |
| Measurements.Viewer.AddToScene | gaze/src/viewer.js:1057 | `scene.add` stores the object under a new handle. |
| Measurements.Viewer.RemoveFromScene | gaze/src/viewer.js:1126 | `forEach(h => scene.remove(h))` removes exactly the listed handles. |
| Measurements.Viewer.AddMeasurementPoint | gaze/src/viewer.js:1051-1059 | A marker at the position is added and appended to `points`. |
| Measurements.Viewer.CreateMeasurementLabel | gaze/src/viewer.js:1074-1122 | A sprite with the text, at the midpoint and at the table's scale, is added and appended to `measurementLabels`. |
| Measurements.Viewer.CreateMeasurementLine | gaze/src/viewer.js:1061-1072 | A segment is added to `edges`, then its distance label to `measurementLabels`, under the next two handles. |
| Measurements.Viewer.CreateEdgeMeasurement | gaze/src/viewer.js:1137-1149 | Same as createMeasurementLine, and the invariant is kept. |
| Measurements.Viewer.HandleMeasurementClick | gaze/src/viewer.js:1024-1049 | A miss changes nothing. The first hit starts a measurement with one marker. The second adds a marker, the segment from the start point and its label, and ends the measurement without resetting `startPoint`. |
| Measurements.Viewer.BeginMeasurement | gaze/src/viewer.js:1037-1041 | The first hit: `startPoint` becomes the hit, a marker there is added under the next handle and appended to `points`, and a measurement is pending. |
| Measurements.Viewer.CompleteMeasurement | gaze/src/viewer.js:1042-1047 | The second hit: a marker, the segment from the start point and its label are added under the next three handles and appended to their lists, and no measurement is pending. |
| Measurements.Viewer.OnClick | gaze/src/viewer.js:926-929 | Clicks are ignored while the point tool is off. Otherwise a hit has exactly the effect of handleMeasurementClick: the first adds a marker and starts a measurement, the second adds a marker, the segment and its label and ends it. |
| Measurements.Viewer.ClearEdgeMeasurements | gaze/src/viewer.js:1124-1135 | Every segment, marker and label of `this.measurements` leaves the scene, nothing else does, and the session resets. |
| Measurements.Viewer.TogglePointMeasurement | gaze/src/viewer.js:1152-1169 | Turning the tool off mid-measurement removes every marker and abandons the measurement. Otherwise nothing changes. |
| Measurements.Viewer.OnPointMeasureToolChange | gaze/src/viewer.js:903-905 | The check box flips and togglePointMeasurement follows it. |
| Measurements.Viewer.ClearMeasurements | gaze/src/viewer.js:908-914 | The button clears the measurements and leaves the point tool off with no session. |
| Measurements.Viewer.ToggleEdgeMeasurements | gaze/src/viewer.js:932-938 | When on, `edges` holds exactly one labelled segment per significant edge of all geometries, each under a handle of its own, and with the invariant nothing else but the box annotations is in the scene. When off, the scene is the old one minus the measurements. Either way no old measurement object remains. |
| Measurements.Viewer.OnEdgeMeasurementsChange | gaze/src/viewer.js:898-900 | The check box flips and toggleEdgeMeasurements follows it: on, `edges` holds the significant edges, under pairwise distinct handles; off, the scene is the old one minus the measurements. |
| Measurements.Viewer.ShowEdgeMeasurements | gaze/src/viewer.js:940-951 | Old measurements are gone. Then `edges` holds one labelled segment per significant edge of every geometry, in traversal order and under pairwise distinct handles, and no markers remain; with the invariant, every other object in the scene is a box annotation. |
| Measurements.Viewer.MeasureContent | gaze/src/viewer.js:943-950 | The traversal appends one labelled segment per significant edge of every geometry, in traversal order, keeps every object already in the scene and uses only new handles. |
| Measurements.Viewer.CreateEdgeMeasurements | gaze/src/viewer.js:946-948 | Each edge gets a labelled segment under a handle of its own, in order. Nothing already in the scene changes. |
| Measurements.Viewer.CreateBoundingBoxMeasurement | gaze/src/viewer.js:1171-1240 | A segment and its distance label are added under new handles and appended to the box holder, which is created when null. |
| Measurements.Viewer.ShowBoundingBox | gaze/src/viewer.js:626-668 | The outline, then the six dimension lines (front face, then back face) with their labels, under thirteen new handles. |
| Measurements.Viewer.ClearBoundingBoxMeasurements | gaze/src/viewer.js:1242-1253 | The outline and every line and label of the holder leave the scene, both holders become null, and the measurements stay intact. |
| Measurements.Viewer.OnBoundingBoxChange | gaze/src/viewer.js:623-673 | The check box flips. On adds the box annotations under new handles and keeps every object. Off removes exactly the box annotations. |

## Left out

- Rendering: materials, colours, line widths, sphere geometry, canvas drawing, textures and `depthTest`. The scene stores what each object is, not how it looks.
- Raycasting and the click's screen coordinates (1025-1032): `HandleMeasurementClick` takes the first hit point, or `None` for a miss, as its input.
- The cursor style set by togglePointMeasurement (1155, 1158): it is not state the measurements read.
- `distanceTo`, `normalize` and `toFixed` are floating-point library calls. They are parameters of the model (`Numerics`), not computed.
- `Box3.setFromObject(this.content)` and the traversal of `this.content`. The content box and the position arrays of the geometries are constants of the viewer, in traversal order.
- Loading content: the model fixes one loaded content for the viewer's whole lifetime, although the source starts with `this.content = null` (71). It therefore does not cover two things:
  - Turning on "Bounding Box" or "Edge Measurements" before the first load. In the source this calls `setFromObject(null)` or `null.traverse`, which throws after the GUI has already flipped the flag.
  - Annotations carried across `setContent`. Its `clear()` (266-268, 872-891) keeps every measurement and box annotation, so after a second load the old outline and labels describe the old model.
  The box invariant's "outline of the content box" and the label scale hold only because the box is a constant.
- The GUI library, which flips a check box before calling its handler. The `On...Change` methods flip the flag first, as the library does.
- Objects in the scene other than the measurement objects: the lights, the grid and the model itself.
- `measurements.line`, which is set to null and never read.
- EdgeSort.SortByLengthDesc: the model is a stable sort, but the contract does not state stability. It states only the permutation and the longest-first order.
- SignificantEdges.GetSignificantEdges: requires the buffer length to be a multiple of 9. The source reads past the end of any other buffer, which yields `undefined` coordinates that the model has no value for.
- Measurements.Viewer.ToggleEdgeMeasurements: requires every position array to hold whole triangles (a length that is a multiple of 9) when the edges are shown, for the same reason.
- Indexed geometries: the source never reads `geometry.index`, so for an indexed mesh it pairs up vertices of the position array that need not share a triangle. The model reads the arrays the same way. A whole-triangle length does not mean the geometry is non-indexed, and the model says nothing about which edges of an indexed mesh are measured.
- Exact arithmetic: the threshold `size * 0.1`, the axis-alignment test, `Midpoint`, the label scale and the sort's length comparison use exact reals. IEEE rounding, NaN and Infinity are not modelled.
- Measurements.Viewer.ShowBoundingBox: requires both box holders to be null. The check box invariant guarantees this whenever the box is turned on. When they are not null, the source would orphan the old outline, which the model does not cover.
- Measurements.Viewer.OnBoundingBoxChange: the on-branch states growth and fresh handles. The exact scene is stated by `ShowBoundingBox`, which it calls.
- serviceWorker.js is not part of this model.
