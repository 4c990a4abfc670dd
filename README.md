# newcanvasflow2 — a Dafny model of the editor's core

newcanvasflow2 is a browser canvas design editor. A scene is an ordered list of
element records: rects, circles, text boxes, artboards, and the transient
group box that stands for a multiple selection. The editor turns mouse,
wheel and keyboard events into new scenes, and keeps those scenes on an
undo ledger. Everything except drawing and React markup is deterministic
logic over that list. This project models that logic in Dafny and proves
what each operation promises.

Two generations of the interaction code coexist in the repository, and they
are modelled separately where they differ:

- The older one is `src/interactions/*`, `src/utils/actionHandlers.js` and
  `src/artboard/*`. The canvas hook `src/hooks/useCanvasInteraction.js` is
  wired to it. Its drag is incremental, and a press on empty canvas inside
  no box falls back to a marquee.
- The newer one is `src/modules/*` and `src/core/*`. Its drag is absolute:
  it works from the start snapshot and snaps. Its artboard parent is the
  artboard overlapping more than half of the element, where the older rule
  is the last artboard that contains the element's centre.

The modules follow the source:

| module | models |
|---|---|
| `Model` | the element record, JavaScript's `\|\|` defaults, lookups and filters by id |
| `Geometry` | `src/utils/geometry.js`: centres, rotation, corners, boxes, the minimum-area group box, hit tests, handles, screen to world |
| `Transformations` | `src/core/transformations.js`: translate from a snapshot, rotate with 15° snapping, resize about a pivot or the centre, group rotate and resize |
| `Snapping` | `src/modules/snapping/snapUtils.js`: snap lines, the best snap per axis, guides |
| `ArtboardAssociation` | both revisions of `artboardAssociation.js` |
| `ArtboardResize` | `resizeArtboard` and the older artboard-resize gesture |
| `History` | `useHistory` as a class over (history, currentIndex) |
| `ChangeDetection` | `haveElementsChanged`; `src/utils/history.js` and `src/utils/helpers.js` hold the same code, modelled once |
| `Layers` | `useLayerOperations`: to front, to back, forward and backward by one |
| `Keyboard` | `useKeyboardInteractions`: the key dispatch and the clipboard |
| `Interactions`, `ActionHandlers` | the older gesture starters and per-move handlers |
| `Gestures` | the newer gesture starters and per-move handlers |
| `CanvasInteraction` | `useCanvasInteraction` as a class: mouse down, move and up, and `tryDuplicateOnDrag` |
| `SelectionBox`, `Navigation`, `Panels` | the selection-box choice, zoom about the pointer, the two-open-panels rule |
| `LayersPanel`, `TransformPanel` | the layer tree's flattening and defaults; the angle fields |
| `Factories`, `Exporter` | both revisions of the element factories; `getArtboardContent` and `hexToRgba` |

Numbers are `real`. `Math.cos`, `Math.sin`, `Math.atan2` and `Math.sqrt` enter
through a `Trig` record passed as an argument. Lemmas that need trigonometry
require the identities they use at the angle in question: cosine is even,
sine is odd, and cos² + sin² = 1. `Math.PI` is the decimal 3.141592653589793.
`Math.round(x)` is ⌊x + 0.5⌋. A JavaScript optional number is an `Option<real>`,
and `a || b` is written out (`Model.Or`, `Model.OrText`).

## Model

| member | source | states |
|---|---|---|
| Model.Num | src/modules/interactions/transformInteraction.js:74 | `x \|\| 0` on a number: 0 when absent, the value itself otherwise |
| Model.Or | src/core/element.js:30-31 | JavaScript's `x \|\| d` on a number: the value when present and nonzero, otherwise the fallback |
| Model.OrText | src/core/element.js:31 | `x \|\| d` on a string: the value when present and non-empty, otherwise the fallback |
| Model.Rotation | src/core/transformations.js:38 | an element's rotation, 0 when absent |
| Model.BoxOf | src/modules/interactions/transformInteraction.js:74 | an element's corner and size, with absent sizes as 0 |
| Model.Ids | src/hooks/useCanvasInteraction.js:144 | the ids of a scene, one per element, in order |
| Model.IndexById | src/hooks/useLayerOperations.js:31 | `findIndex` by id: the first index with the id, or -1 exactly when there is none |
| Model.FindById | src/modules/interactions/dragInteraction.js:134 | `find` by id: none exactly when no element has the id, otherwise an element of the scene with it |
| Model.FindByIdUnique | src/utils/history.js:5 | with distinct ids, looking up an element's id finds that element |
| Model.ReplaceById | src/utils/actionHandlers.js:74 | every element with the id becomes the updated one; the rest and the order stay |
| Model.Partition | src/hooks/useLayerOperations.js:11-12 | exactly the elements whose id is listed (or not listed), and no more of them than the scene holds; the order is `Model.PartitionAppend` |
| Model.PartitionAppend | src/hooks/useLayerOperations.js:11-12 | filtering a scene cut in two is filtering each part and joining them in the same order, so the filter keeps scene order |
| Model.PartitionHead | src/hooks/useLayerOperations.js:11-12 | the first element kept is the scene's first element that passes the filter |
| Model.PartitionIsSplit | src/hooks/useLayerOperations.js:11-12 | the listed and unlisted parts together hold exactly the scene's elements |
| Model.PartitionUnique | src/hooks/useLayerOperations.js:11-12 | filtering keeps ids distinct |
| Model.PartitionSameMembership | src/modules/interactions/dragInteraction.js:34 | two id lists that agree on the scene's ids filter alike |
| Model.PartitionByOwnIds | src/modules/interactions/dragInteraction.js:34 | filtering again by the ids of the selected part gives the same part |
| Model.PartitionByOneId | src/modules/interactions/dragInteraction.js:34 | filtering by one element's id gives just that element |
| Model.NoneListed | src/hooks/useKeyboardInteractions.js:52 | when no element's id is listed, the selected part is empty |
| Geometry.RotatePoint | src/utils/geometry.js:46-55 | rotating the centre itself leaves it where it is |
| Geometry.RotatePointAsVector | src/utils/geometry.js:46-55 | rotating about a centre is the centre plus the rotated offset (`rotateVector`, `subtractVectors`, `addVectors`) |
| Geometry.RotateVectorAdditive | src/utils/geometry.js:511-514 | rotating a sum of vectors is the sum of the rotated vectors |
| Geometry.RotateRoundTrip | src/utils/geometry.js:46-55 | rotating by an angle and then by its negation, in either order, returns the point |
| Geometry.RotateKeepsDistance | src/utils/geometry.js:46-55 | turning two points about the same centre by the same angle keeps the distance between them |
| Geometry.RotateVector | src/utils/geometry.js:511-514 | turning a vector is turning the point it reaches about the origin |
| Geometry.SubtractVectors | src/utils/geometry.js:517-520 | the difference `p2 - p1` added back to `p1` gives `p2` |
| Geometry.AddVectors | src/utils/geometry.js:523-525 | the sum less the first vector gives the second |
| Geometry.WorldCoordinateRoundTrip | src/utils/geometry.js:434-437 | a screen coordinate taken to the world and scaled back gives the coordinate again |
| Geometry.PointInWorld | src/utils/geometry.js:434-437 | the world point maps back to the screen point under the same offset and scale |
| Geometry.Center | src/utils/geometry.js:8-27 | a circle's centre is its position; text uses half its size; any other element with both sizes uses half of them, and without them its position |
| Geometry.CenterOrOrigin | src/utils/geometry.js:9 | no element gives the origin |
| Geometry.ElementCorners | src/utils/geometry.js:208-240 | rects and circles have four corners; every other kind has none |
| Geometry.RotateOppositeOffsets | src/utils/geometry.js:46-55 | points at opposite offsets from a centre stay symmetric about it after any rotation |
| Geometry.CornersSymmetricAboutCenter | src/utils/geometry.js:208-240 | opposite corners of a rect or circle are symmetric about the element's centre |
| Geometry.SeqMin | src/utils/geometry.js:246-247 | the minimum is one of the values and no value is smaller |
| Geometry.SeqMax | src/utils/geometry.js:248-249 | the maximum is one of the values and no value is larger |
| Geometry.BoundingBoxFromPoints | src/utils/geometry.js:242-257 | no points give the zero box; otherwise the box has non-negative size and holds every point |
| Geometry.BoundingBoxFromPointsSmallest | src/utils/geometry.js:242-257 | any box that holds every point also holds the computed box, so it is the smallest such box |
| Geometry.AllCorners | src/utils/geometry.js:263 | the collected corners are the first element's corners followed by the rest's |
| Geometry.CornersInAllCorners | src/utils/geometry.js:263 | every corner of every listed element is among the collected corners |
| Geometry.GroupBox | src/utils/geometry.js:335-339 | a group element carrying the box and the rotation given |
| Geometry.AxisAlignedBoundingBox | src/utils/geometry.js:327-340 | null exactly for no elements; otherwise a group box with rotation 0 |
| Geometry.AxisAlignedBoxHoldsCorners | src/utils/geometry.js:327-340 | the axis-aligned box holds every corner of every element |
| Geometry.AxisAlignedBoxOfUnrotatedRect | src/utils/geometry.js:327-340 | one unrotated rect of non-negative size gives exactly its own box |
| Geometry.ElementBoundingBox | src/utils/geometry.js:156-200 | an unrotated rect's own box; a rotated rect's box holds its corners; an unrotated circle's box from its radii; any circle's box, rotated or not, centred on the circle's centre; the zero box for other kinds |
| Geometry.UnrotatedRectCornersInBox | src/utils/geometry.js:159-162 | an unrotated rect's corners lie in its own box |
| Geometry.Dedup | src/utils/geometry.js:267 | the distinct values, without repeats, holding exactly the values of the input |
| Geometry.Rotations | src/utils/geometry.js:267 | each element's rotation, or 0 when falsy, in scene order |
| Geometry.DedupKeepsFirstAppearanceOrder | src/utils/geometry.js:267 | the distinct values come in order of first appearance, as a `Set` iterates them |
| Geometry.CandidateAngles | src/utils/geometry.js:265-271 | the forced angle alone; otherwise exactly 0 and the elements' rotations |
| Geometry.CandidateAnglesOrder | src/utils/geometry.js:265-271 | without a forced angle each candidate comes once, the rotations in order of first appearance and 0 last when no element has it |
| Geometry.RotateAll | src/utils/geometry.js:278 | every vertex turned by minus the angle about the origin |
| Geometry.Areas | src/utils/geometry.js:277-287 | one area per candidate angle |
| Geometry.AreasAt | src/utils/geometry.js:278-280 | each area is the area of the box around the vertices in that candidate's frame |
| Geometry.FirstMinIndex | src/utils/geometry.js:282-286 | the kept index holds the least area seen, and every earlier area is strictly larger |
| Geometry.BestAngle | src/utils/geometry.js:273-287 | the chosen angle is one of the candidates |
| Geometry.BoxInFrame | src/utils/geometry.js:289-303 | a group box with the frame's size and the angle as its rotation |
| Geometry.BestFrameBox | src/utils/geometry.js:289-303 | a group box with the chosen angle as rotation and non-negative size |
| Geometry.BestFrameBoxIsSmallest | src/utils/geometry.js:277-287 | no candidate angle gives a box of smaller area than the chosen one |
| Geometry.BestFrameBoxFirstWins | src/utils/geometry.js:282 | among candidates of equal least area the earliest wins |
| Geometry.GroupSelectionBox | src/utils/geometry.js:259-304 | null exactly for at most one element; otherwise a group box with non-negative size, rotated by the forced angle or by 0 or one of the elements' rotations |
| Geometry.CalculateGroupSelectionBox | src/utils/geometry.js:259-304 | the loop over candidate angles yields exactly the group selection box |
| Geometry.PointInsideRotatedBox | src/utils/geometry.js:306-325 | true exactly when the point, turned back about the box centre, lies within half the size on both axes |
| Geometry.RotateAboutShifted | src/utils/geometry.js:294 | rotating about a centre is rotating about the origin, then shifting by the centre minus its image |
| Geometry.FramePointInsideBox | src/utils/geometry.js:289-303 | a vertex that lies in a frame's box lies inside the box that frame turns into |
| Geometry.GroupSelectionBoxHoldsCorners | src/utils/geometry.js:259-325 | every corner of every element lies inside the group box, read through `isPointInsideRotatedBox` |
| Geometry.FrameBoxHoldsPoints | src/utils/geometry.js:277-303 | every vertex lies inside the turned box of any frame |
| Geometry.NormalizeRect | src/utils/geometry.js:352-357 | the marquee with non-negative size, the absolute sizes, at the lesser corner |
| Geometry.IntersectsSelection | src/utils/geometry.js:348-366 | selected exactly when the element's bounding box and the normalised marquee overlap with positive length on both axes |
| Geometry.MarqueeDirectionIrrelevant | src/utils/geometry.js:352-357 | dragging the marquee the other way over the same area selects the same elements |
| Geometry.TouchingEdgeNotSelected | src/utils/geometry.js:360-365 | a box that only touches the marquee along one of its four edges is not selected |
| Geometry.PointInRotatedRect | src/utils/geometry.js:389-400 | a rect missing width, height or rotation is never hit; otherwise a point is hit exactly when, turned back about the centre by the rotation, it lies in the unrotated rect |
| Geometry.RotatedRectHitIsTurnedBox | src/utils/geometry.js:389-400 | the points hit are exactly the points of the unrotated rect turned about its centre by the rotation |
| Geometry.PointInRect | src/utils/geometry.js:374-380 | a hit means a rect of non-negative size, and such a rect is hit at its two opposite corners |
| Geometry.PointInCircle | src/utils/geometry.js:408-425 | a zero radius is never hit; otherwise a point is hit exactly when its offset from the centre, turned back by the rotation, satisfies (x/rX)² + (y/rY)² ≤ 1 |
| Geometry.CircleCenterHit | src/utils/geometry.js:408-425 | an ellipse with non-zero radii is hit at its centre |
| Geometry.CircleHitIsTurnedEllipse | src/utils/geometry.js:408-425 | a rotated ellipse is hit at a point exactly when the same ellipse unrotated is hit at that point turned back |
| Geometry.Hits | src/utils/geometry.js:450-459 | only rects and circles can be hit |
| Geometry.ClickedElement | src/utils/geometry.js:445-466 | none exactly when no element is hit; otherwise a hit element with no hit element above it |
| Geometry.ClickedElementStep | src/utils/geometry.js:447-463 | the top element of a prefix wins when hit, otherwise the search continues below |
| Geometry.GetClickedElement | src/utils/geometry.js:445-466 | the downward scan returns exactly the top-most hit element |
| Geometry.Opposite | src/utils/geometry.js:87-95 | every resize handle's pivot handle is a different handle; only the rotation handle has none |
| Geometry.Handles | src/utils/geometry.js:64-149 | rects, groups and circles get the nine handles in creation order; every other element gets none |
| Geometry.HandlePivots | src/utils/geometry.js:86-146 | each resize handle pivots on the opposite handle's position, and the rotation handle on the centre |
| Geometry.HandleFrameCentred | src/utils/geometry.js:71-128 | the element's centre is the middle of its handle frame |
| Geometry.HitboxSize | src/utils/geometry.js:480 | the hit box is positive and spans 24 screen pixels at any zoom |
| Geometry.FirstHandleHit | src/utils/geometry.js:482-505 | none exactly when no handle is hit; otherwise the first hit handle in creation order |
| Geometry.HandleAtPoint | src/utils/geometry.js:474-506 | null without an element or handles; a result is one of the element's handles whose hit box holds the point; null otherwise only when no hit box holds it |
| Geometry.HandleHitInScreenPixels | src/utils/geometry.js:480-491 | at any zoom a handle is hit exactly when the pointer is within 12 screen pixels of it on both axes |
| Geometry.WithinHalf | src/utils/geometry.js:484-491 | a coordinate lies in a 24-pixel hit span exactly when it is within 12 pixels of the handle |
| Transformations.LastIndexById | src/core/transformations.js:14-16 | the last start entry with the id, as a `Map` built from the list keeps it; -1 exactly when no entry has it |
| Transformations.LastById | src/core/transformations.js:14-19 | none exactly when no start entry has the id; otherwise a start entry with that id |
| Transformations.TranslateElements | src/core/transformations.js:11-25 | same length; each element with a start position sits at that position plus the offset; the rest are unchanged |
| Transformations.TranslateIsAbsolute | src/core/transformations.js:18-24 | the move depends only on the start positions: where the moved elements are now does not matter |
| Transformations.TranslateByZero | src/core/transformations.js:18-24 | a zero offset puts every moved element back at its start position |
| Transformations.Round | src/core/transformations.js:43 | `Math.round`: the integer within half of the value, halves rounding up |
| Transformations.SnapAngle | src/core/transformations.js:41-44 | a whole multiple of 15 degrees, within 7.5 degrees of the angle |
| Transformations.RotateElement | src/core/transformations.js:36-47 | only the rotation changes: the start rotation plus the angle swept since the grab, or, with shift, a multiple of 15 degrees within half a step of it |
| Transformations.AspectRatio | src/core/transformations.js:69 | always positive |
| Transformations.Constrain | src/core/transformations.js:95-138 | without shift the size is kept; with shift it keeps the aspect ratio, a corner only grows it, and a side handle keeps the dimension it drags |
| Transformations.PointerSize | src/core/transformations.js:84-126 | a horizontal side handle keeps the original height and a vertical one the original width |
| Transformations.ResizeFrameOf | src/core/transformations.js:65-157 | with ctrl the centre stays; with shift the aspect ratio is kept; without shift a side handle keeps the other dimension |
| Transformations.ResizeElement | src/core/transformations.js:57-174 | a collapsed size or an element without handles is returned as it is; rects and groups take the new width and height, circles half of them as radii, and nothing else changes |
| Transformations.ResizeFromCenterKeepsCenter | src/core/transformations.js:81-164 | resizing with ctrl keeps the element's centre |
| Transformations.OffsetInTurnedFrame | src/core/transformations.js:164 | an offset from the turned new centre, turned about it, equals the offset from the local centre turned about the old centre |
| Transformations.ResizeKeepsPivotCorner | src/core/transformations.js:112-170 | dragging a corner leaves the opposite corner, the pivot, where it was |
| Transformations.ResizeKeepsPivotCornerOfGroup | src/core/transformations.js:112-170 | a group's box resizes as a rectangle, so dragging its corner leaves the pivot at a corner of the new box |
| Transformations.ResizeKeepsPivotSideOfGroup | src/core/transformations.js:112-170 | a group's box dragged by a side handle keeps the pivot at the middle of the opposite side |
| Transformations.ResizeKeepsPivotSide | src/core/transformations.js:112-170 | dragging a side handle leaves the pivot at the middle of the opposite side: in the element's frame it is level with the new centre on one axis and half the new size from it on the other |
| Transformations.PivotOffsetFromNewCenter | src/core/transformations.js:143-149 | the pivot lies half the new size from the new centre, in the turned frame, on each axis's side |
| Transformations.PivotedCenter | src/core/transformations.js:143-149 | the new centre is half the new size from the pivot, towards the pointer, on each axis the handle moves, and level with the pivot on the axis a side handle does not move |
| Transformations.CornerAtOffset | src/utils/geometry.js:208-240 | a point half the size from an element's centre in its frame is one of its corners |
| Transformations.HalfOrZero | src/core/transformations.js:199-200 | half a present size, or 0 when absent |
| Transformations.RotateMember | src/core/transformations.js:190-211 | an element not selected or not in the start state is unchanged; otherwise only its position changes, its centre is its start centre turned about the group centre by the turn, and its rotation becomes its start rotation plus the turn |
| Transformations.RotateMembers | src/core/transformations.js:190-211 | every element handled on its own, in scene order |
| Transformations.TransformGroupRotate | src/core/transformations.js:185-228 | each element turned by the new angle less the start angle; the box keeps its size, takes the new angle, and its centre is turned about the group centre by the same turn |
| Transformations.GroupRotateIsRigid | src/core/transformations.js:184-228 | a group rotation keeps the distance between any two members' centres, from each member to the group centre, and from the box centre to the group centre |
| Transformations.GroupMemberCenter | src/core/transformations.js:198-201 | the guarded `width ? width / 2 : 0` centre is the box centre with an absent size read as 0 |
| Transformations.GroupRotateBackRestores | src/core/transformations.js:185-228 | turning a group to its start angle puts every member, and the box, back where they started |
| Transformations.ScaleFactor | src/core/transformations.js:243-244 | 1 for a zero or absent start size; otherwise the factor taking the start size to the new one |
| Transformations.Scaled | src/core/transformations.js:290-302 | an unchanged box leaves the value as it is |
| Transformations.ResizedMemberCenterUnchanged | src/core/transformations.js:246-285 | an unchanged box leaves a member's centre where it started |
| Transformations.ResizeMember | src/core/transformations.js:255-314 | unselected elements, missing start entries and other kinds are unchanged; a rect's size and a circle's radii are scaled, the rotation shifted by the box's turn, and the centre moved to the resized member centre |
| Transformations.ResizedMemberScalesLocalOffset | src/core/transformations.js:243-285 | the resized member centre's offset from the new box centre, read in the new box's frame, is the member's start offset read in the start box's frame, scaled by the box's growth on each axis |
| Transformations.TransformGroupResize | src/core/transformations.js:238-315 | every element handled on its own, in scene order |
| Transformations.GroupResizeToStartRestores | src/core/transformations.js:238-315 | resizing to the start box puts every selected rect back as it started |
| Snapping.ElementSnapLines | src/modules/snapping/snapUtils.js:8-65 | three lines per axis: the two edges and the centre midway between them, in order for a non-negative size |
| Snapping.CircleSnapLinesAtCentre | src/modules/snapping/snapUtils.js:26-46 | a circle's lines, with its absent sizes read as 0, all lie on its centre |
| Snapping.AxisLines | src/modules/snapping/snapUtils.js:101-114 | the three lines of one axis |
| Snapping.Consider | src/modules/snapping/snapUtils.js:104-107 | the best so far or the new candidate |
| Snapping.BestFrom | src/modules/snapping/snapUtils.js:95-123 | the starting best, or a candidate strictly inside the threshold |
| Snapping.BestFromAppend | src/modules/snapping/snapUtils.js:95-123 | scanning two runs of candidates is scanning the first and going on from its result |
| Snapping.BestFromSnoc | src/modules/snapping/snapUtils.js:104-107 | one more candidate is one more comparison |
| Snapping.BestIsMinimal | src/modules/snapping/snapUtils.js:95-123 | none exactly when no candidate is inside the threshold; otherwise no candidate inside it is nearer |
| Snapping.BestFirstWins | src/modules/snapping/snapUtils.js:105 | the chosen snap is the first candidate at the least distance |
| Snapping.RowSnoc | src/modules/snapping/snapUtils.js:102-103 | one more static line adds its distance as the last candidate |
| Snapping.PairCandidatesFrom | src/modules/snapping/snapUtils.js:101-110 | every candidate of one element names that element and one of its lines |
| Snapping.RowFrom | src/modules/snapping/snapUtils.js:102-106 | every candidate of one moving line names the static element and one of its lines |
| Snapping.CandidatesFrom | src/modules/snapping/snapUtils.js:95-123 | every candidate names another static element and one of its lines on that axis |
| Snapping.CandidatesStep | src/modules/snapping/snapUtils.js:95-98 | each static element's candidates are scanned after those of the elements before it |
| Snapping.ApplySnaps | src/modules/snapping/snapUtils.js:126-155 | the offset is each axis's best distance or 0; a vertical guide, when there is one, comes first; at most two guides |
| Snapping.SnapAdjustments | src/modules/snapping/snapUtils.js:78-156 | snapping off gives no offset and no guides; any nonzero offset is inside the scaled threshold; at most two guides, the vertical first |
| Snapping.NoVerticalSnapWhenNoneClose | src/modules/snapping/snapUtils.js:101-140 | with no vertical line inside the threshold there is no horizontal offset and only horizontal guides |
| Snapping.VerticalSnapIsNearest | src/modules/snapping/snapUtils.js:95-140 | any line inside the threshold yields a vertical snap at least as near, with a guide on another element's line spanning both elements |
| Snapping.VerticalSearchFindsNearest | src/modules/snapping/snapUtils.js:95-123 | a line inside the threshold means a best vertical snap at least as near |
| Snapping.VerticalHalf | src/modules/snapping/snapUtils.js:78-140 | with snapping on, the result applies the vertical search's best snap |
| Snapping.VerticalGuideOfSnap | src/modules/snapping/snapUtils.js:129-140 | a vertical snap sets the offset and draws the first guide at its line, from the higher top to the lower bottom |
| Snapping.BestSnap | src/modules/snapping/snapUtils.js:92-123 | nothing with object snapping off; a snap found is inside the threshold, on a line of another static element on that axis |
| Snapping.HorizontalSnapIsNearest | src/modules/snapping/snapUtils.js:111-154 | any line inside the threshold yields a horizontal snap at least as near, with the last guide on another element's line spanning both elements, the moving one shifted by the vertical snap |
| Snapping.HorizontalSearchFindsNearest | src/modules/snapping/snapUtils.js:111-122 | a line inside the threshold means a best horizontal snap at least as near |
| Snapping.HorizontalHalf | src/modules/snapping/snapUtils.js:78-154 | with snapping on, the result applies the horizontal search's best snap |
| Snapping.HorizontalGuideOfSnap | src/modules/snapping/snapUtils.js:126-154 | a horizontal snap sets the offset and draws the last guide at its line, from the leftmost left to the rightmost right, after the vertical shift |
| Snapping.HorizontalGuideOnStatic | src/modules/snapping/snapUtils.js:111-154 | a horizontal snap found on another scene element's line leaves the last guide on that element's line, spanning both elements |
| Snapping.VerticalGuideFor | src/modules/snapping/snapUtils.js:129-140 | the guide lies on the snap line and spans both boxes, from the higher of the two tops to the lower of the two bottoms |
| Snapping.HorizontalGuideFor | src/modules/snapping/snapUtils.js:142-153 | the guide lies on the snap line and spans both boxes, from the leftmost left edge to the rightmost right edge |
| Snapping.ScanRow | src/modules/snapping/snapUtils.js:102-109 | the inner loop yields the best of its candidates |
| Snapping.ScanPairs | src/modules/snapping/snapUtils.js:101-110 | the double loop yields the best of all line pairs |
| Snapping.ApplyBestSnaps | src/modules/snapping/snapUtils.js:126-155 | the guides and offset as specified |
| Snapping.FindSnapAdjustments | src/modules/snapping/snapUtils.js:78-156 | the loops yield exactly the specified adjustment |
| ArtboardAssociation.Artboards | src/modules/artboard/artboardAssociation.js:56 | exactly the artboards of the scene |
| ArtboardAssociation.ElementBounds | src/modules/artboard/artboardAssociation.js:13 | the element's axis-aligned bounds, of non-negative size |
| ArtboardAssociation.Overlaps | src/modules/artboard/artboardAssociation.js:16-18 | one overlap per artboard |
| ArtboardAssociation.OverlapAt | src/modules/artboard/artboardAssociation.js:17-18 | each overlap is the shared area of the element's bounds and that artboard's box |
| ArtboardAssociation.LargestOverlap | src/modules/artboard/artboardAssociation.js:16-24 | -1 exactly when no overlap is positive; otherwise the first positive overlap that no later one exceeds and every earlier one falls short of |
| ArtboardAssociation.MaxOverlap | src/modules/artboard/artboardAssociation.js:11-21 | the largest overlap, or 0 when none is positive |
| ArtboardAssociation.LargestOverlapSnoc | src/modules/artboard/artboardAssociation.js:20-23 | one more artboard wins only with a positive overlap above the best so far |
| ArtboardAssociation.OverlapsSnoc | src/modules/artboard/artboardAssociation.js:16-18 | one more artboard adds its overlap last |
| ArtboardAssociation.MoreThanHalfOfArea | src/modules/artboard/artboardAssociation.js:27 | for a non-negative area, more than half is twice the overlap exceeding the area, zero areas included |
| ArtboardAssociation.IdAt | src/modules/artboard/artboardAssociation.js:22 | no index gives no id; otherwise the artboard's id |
| ArtboardAssociation.ParentOfBox | src/modules/artboard/artboardAssociation.js:9-32 | a parent exactly when the largest overlap is more than half the element's area, and then an artboard with that largest overlap |
| ArtboardAssociation.BestOfBox | src/modules/artboard/artboardAssociation.js:77-99 | none exactly when no artboard overlaps; otherwise an artboard with the largest overlap |
| ArtboardAssociation.ParentIsBestAboveHalf | src/modules/artboard/artboardAssociation.js:9-99 | a parent found is the best-fitting artboard; a best fit covering at most half the element is not a parent |
| ArtboardAssociation.ScanOverlaps | src/modules/artboard/artboardAssociation.js:16-24 | the loop keeps the largest overlap and the first artboard that reaches it |
| ArtboardAssociation.FindParentArtboard | src/modules/artboard/artboardAssociation.js:9-32 | the loop and the half-area test give exactly the specified parent |
| ArtboardAssociation.FindBestArtboardForElement | src/modules/artboard/artboardAssociation.js:77-99 | the loop gives exactly the specified best artboard |
| ArtboardAssociation.ParentArtboard | src/modules/artboard/artboardAssociation.js:9-32 | a parent exactly when the largest overlap is more than half the element's area, and then an artboard with that largest, positive overlap |
| ArtboardAssociation.BestArtboard | src/modules/artboard/artboardAssociation.js:77-99 | none exactly when no artboard overlaps the element; otherwise an artboard with the largest, positive overlap |
| ArtboardAssociation.ArtboardHighlight | src/modules/artboard/artboardAssociation.js:40-47 | nothing moved highlights nothing; otherwise the highlight is the parent, under the 50% rule among the scene's artboards, of the first moved element, and so an artboard of the scene |
| ArtboardAssociation.Reparent | src/modules/artboard/artboardAssociation.js:59-66 | only the parent changes, and only for a moved element, to the artboard it mostly lies on |
| ArtboardAssociation.ReparentAll | src/modules/artboard/artboardAssociation.js:59-66 | every element handled on its own, in scene order |
| ArtboardAssociation.UpdateArtboardAssociation | src/modules/artboard/artboardAssociation.js:55-69 | same length and order; only moved elements' parents change, each to the artboard it mostly lies on |
| ArtboardAssociation.ArtboardsSameButParents | src/modules/artboard/artboardAssociation.js:56 | scenes differing only in parents have artboards differing only in parents |
| ArtboardAssociation.ElementBoundsIgnoreParent | src/modules/artboard/artboardAssociation.js:13 | an element's bounds do not depend on its parent |
| ArtboardAssociation.OverlapsIgnoreParents | src/modules/artboard/artboardAssociation.js:16-18 | overlaps do not depend on the artboards' parents |
| ArtboardAssociation.IdsIgnoreParents | src/modules/artboard/artboardAssociation.js:59-60 | scenes differing only in parents have the same ids in the same places |
| ArtboardAssociation.ParentIgnoresParents | src/modules/artboard/artboardAssociation.js:9-32 | the parent found does not depend on any element's current parent |
| ArtboardAssociation.ParentOfBoxIgnoresParents | src/modules/artboard/artboardAssociation.js:9-32 | the half-area choice does not depend on the artboards' parents |
| ArtboardAssociation.UpdateAssociationIdempotent | src/modules/artboard/artboardAssociation.js:55-69 | re-associating the same moved elements changes nothing more |
| ArtboardAssociation.InitializeElementParents | src/modules/artboard/artboardAssociation.js:106-125 | artboards and elements with an existing parent are kept; every other element gets the best-overlapping artboard or none |
| ArtboardAssociation.Initialized | src/modules/artboard/artboardAssociation.js:108-123 | one element as the map sees it |
| ArtboardAssociation.InitializeFrom | src/modules/artboard/artboardAssociation.js:108-124 | every element handled on its own, in scene order |
| ArtboardAssociation.ArtboardUnder | src/artboard/artboardAssociation.js:9-19 | none exactly when no artboard holds the point; otherwise the last artboard that does |
| ArtboardAssociation.ArtboardUnderStep | src/artboard/artboardAssociation.js:12-17 | a later artboard holding the point wins over earlier ones |
| ArtboardAssociation.GetArtboardUnderElement | src/artboard/artboardAssociation.js:9-19 | the backward loop gives exactly the top-most artboard under the element's centre |
| ArtboardAssociation.SetParent | src/artboard/artboardAssociation.js:41-47 | listed elements take the parent; the rest are unchanged |
| ArtboardAssociation.UpdateAssociationByCenter | src/artboard/artboardAssociation.js:27-50 | nothing dragged or an artboard dragged leaves the scene and highlights nothing; otherwise every dragged element takes the highlighted artboard, the top-most artboard holding the first dragged element's centre, none when no artboard does, and the rest are unchanged |
| ArtboardResize.HeightFor | src/modules/artboard/artboardTransform.js:39-64 | the height that keeps the aspect ratio at the given width |
| ArtboardResize.WidthFor | src/modules/artboard/artboardTransform.js:41-68 | the width that keeps the aspect ratio at the given height |
| ArtboardResize.CenterModeSize | src/modules/artboard/artboardTransform.js:27-44 | without shift, twice the pointer's distance from the centre in the dimensions the handle moves; with shift, the aspect ratio kept, one of those dimensions unchanged |
| ArtboardResize.PivotModeFrame | src/modules/artboard/artboardTransform.js:49-60 | a right or bottom handle keeps that side's origin and sets the size to the pointer, at least 1; a left or top handle moves the origin to the pointer and keeps the far edge while at least 1 wide; untouched dimensions stay |
| ArtboardResize.ResizeArtboard | src/modules/artboard/artboardTransform.js:11-76 | only the frame changes; ctrl keeps the centre; without shift the size follows the pointer as the handle says; with shift the aspect ratio is kept and the edge opposite a top handle stays put |
| ArtboardResize.HandleArtboardResizing | src/artboard/artboardInteractions.js:10-27 | the resized start artboard replaces the element with its id and becomes the new box; the rest are unchanged |
| ArtboardResize.TryStartArtboardResize | src/artboard/artboardInteractions.js:33-63 | a gesture starts only for exactly one selected artboard with a handle under the pointer, carrying that handle's kind and pivot and the scene |
| ArtboardResize.ArtboardResizeNeverStarts | src/artboard/artboardInteractions.js:33-48 | since artboards get no handles, the artboard resize gesture never starts |
| History.Resolve | src/hooks/useHistory.js:12-20 | a value is taken as it is; a function is applied to the current state |
| History.Initial | src/hooks/useHistory.js:3-7 | one entry, the initial state, with nothing to undo or redo |
| History.Overwritten | src/hooks/useHistory.js:11-16 | the current entry is replaced by the resolved state; the cursor and every other entry stay |
| History.Committed | src/hooks/useHistory.js:19-25 | the entries after the cursor are dropped and the resolved state is appended and made current; nothing to redo, something to undo |
| History.Undone | src/hooks/useHistory.js:27-31 | the cursor steps back when it can; the entries stay |
| History.Redone | src/hooks/useHistory.js:33-37 | the cursor steps forward when it can; the entries stay |
| History.UndoThenRedo | src/hooks/useHistory.js:27-37 | an undo that moved is reversed by a redo |
| History.RedoThenUndo | src/hooks/useHistory.js:27-37 | a redo that moved is reversed by an undo |
| History.CommitAfterUndo | src/hooks/useHistory.js:19-31 | committing after an undo drops the undone future, keeps the past, and can itself be undone to the state it started from |
| History.SetStates | src/hooks/useHistory.js:11-16 | any run of live edits leaves a valid history |
| History.SetStatesKeepCursor | src/hooks/useHistory.js:11-16 | live edits never add undo steps: the length, the cursor and every other entry stay |
| History.HistoryState.constructor | src/hooks/useHistory.js:3-5 | the hook starts from the initial ledger |
| History.HistoryState.SetState | src/hooks/useHistory.js:11-16 | `setState` overwrites the current entry |
| History.HistoryState.Commit | src/hooks/useHistory.js:19-25 | `commit` truncates and appends |
| History.HistoryState.Undo | src/hooks/useHistory.js:27-31 | `undo` steps back |
| History.HistoryState.Redo | src/hooks/useHistory.js:33-37 | `redo` steps forward |
| ChangeDetection.HaveElementsChanged | src/utils/history.js:1-20 | changed exactly when the lengths differ or some element of the first scene has no element with its id in the second, or differs from it in position, size, rotation or radius |
| ChangeDetection.ElementsChanged | src/utils/history.js:1-20 | scenes of different lengths have changed; two empty scenes have not |
| ChangeDetection.UnchangedAgainstItself | src/utils/history.js:1-20 | a scene with distinct ids is never reported changed against itself |
| ChangeDetection.IndexByIdOnlyIds | src/utils/history.js:5 | the partner lookup depends only on the ids |
| ChangeDetection.OnlyGeometryCounts | src/utils/history.js:7-17 | edits to anything but position, size, rotation and radius (a fill, a parent, text) are never reported |
| ChangeDetection.FindByIdReordered | src/utils/history.js:5 | with distinct ids, the partner found does not depend on the order of the second scene |
| ChangeDetection.OrderOfSecondIrrelevant | src/utils/history.js:1-20 | with distinct ids, reordering the second scene does not change the verdict |
| Keyboard.Pasted | src/hooks/useKeyboardInteractions.js:61-66 | one clone per clipboard element, with the drawn id, moved 20 units right and down, otherwise identical |
| Keyboard.PastedIdsDistinct | src/hooks/useKeyboardInteractions.js:61-66 | distinct drawn ids give clones with distinct ids |
| Keyboard.RepeatedPasteSameOffset | src/hooks/useKeyboardInteractions.js:59-71 | every paste of the same clipboard lands at the same place, differing only in ids |
| Keyboard.KeyboardHandler.constructor | src/hooks/useKeyboardInteractions.js:15 | the clipboard starts empty |
| Keyboard.KeyboardHandler.HandleKeyDown | src/hooks/useKeyboardInteractions.js:18-80 | with Cmd or Ctrl: z undoes, or redoes with Shift; ] and [ move one layer, or to the end with Shift; c copies a non-empty selection; v appends and selects the clones; Delete or Backspace commits the scene without the selection and clears it; other keys do nothing |
| SelectionBox.GroupRotation | src/hooks/useSelectionBox.js:29-35 | the first element's rotation when nonzero and every rotation is within 1e-5 of it; 0 otherwise |
| SelectionBox.ChooseSelectionBox | src/hooks/useSelectionBox.js:7-47 | an active box wins; no selection gives none; one element is its own box; a group gets the rotated group box when its shared rotation is nonzero and the axis-aligned box otherwise |
| SelectionBox.GroupChoiceEnclosesSelection | src/hooks/useSelectionBox.js:28-46 | the group box chosen holds every corner of every selected element |
| SelectionBox.AxisAlignedBoxEncloses | src/hooks/useSelectionBox.js:43-45 | the axis-aligned box holds every corner of every element |
| SelectionBox.UnrotatedBoxHolds | src/utils/geometry.js:306-325 | a point in an unrotated box is inside it as the rotated test sees it |
| SelectionBox.SelectionBoxState.constructor | src/hooks/useSelectionBox.js:4-5 | no active box at first |
| SelectionBox.SelectionBoxState.Current | src/hooks/useSelectionBox.js:7-47 | without an active box, the computed choice; with one, that box |
| SelectionBox.SelectionBoxState.SetActiveGroupBoundingBox | src/hooks/useSelectionBox.js:5 | the setter stores the box |
| SelectionBox.SelectionBoxState.SelectionRendered | src/hooks/useSelectionBox.js:49-52 | a changed selection drops the active box; an unchanged one keeps it |
| Layers.BringToFront | src/hooks/useLayerOperations.js:9-16 | nothing when the selection is empty; otherwise the unselected elements then the selected ones, a permutation of the scene |
| Layers.SendToBack | src/hooks/useLayerOperations.js:18-25 | nothing when the selection is empty; otherwise the selected elements then the unselected ones, a permutation of the scene |
| Layers.FrontAndBackSeparate | src/hooks/useLayerOperations.js:11-13 | after bringing to front no selected element lies below an unselected one, and after sending to back none lies above |
| Layers.Indices | src/hooks/useLayerOperations.js:30-31 | one looked-up position per selected id, each the first index carrying that id or -1 |
| Layers.SortAscending | src/hooks/useLayerOperations.js:49-51 | the positions in ascending order, as a permutation of the input |
| Layers.SortDescending | src/hooks/useLayerOperations.js:30-32 | the positions in descending order, as a permutation of the input |
| Layers.Swap | src/hooks/useLayerOperations.js:36-38 | the two positions are exchanged, every other position is unchanged, and the multiset of elements is the same |
| Layers.ForwardStep | src/hooks/useLayerOperations.js:34-40 | corrected: an element below the top trades places with the one above it and nothing else moves; any other index, a stale id's -1 included, leaves the scene as it is; always a permutation (as written the guard lets -1 through: Layers.ForwardStepAsWritten) |
| Layers.BackwardStep | src/hooks/useLayerOperations.js:53-59 | an element above the bottom trades places with the one below it and nothing else moves; any other index leaves the scene as it is; always a permutation |
| Layers.BringForwardAsWritten | src/hooks/useLayerOperations.js:27-44 | the steps as written keep the array's length, though a stale id can leave a hole in it |
| Layers.ForwardSteps | src/hooks/useLayerOperations.js:34-40 | applying the corrected forward steps in order keeps the scene's length (as written: Layers.ForwardStepsAsWritten) |
| Layers.BackwardSteps | src/hooks/useLayerOperations.js:53-59 | applying the backward steps in order keeps the scene's length |
| Layers.StepsArePermutations | src/hooks/useLayerOperations.js:34-59 | any sequence of backward steps, or of corrected forward steps, is a permutation of the scene (as written, a forward step at -1 is not: Layers.StaleIdLosesBottomElement) |
| Layers.IndicesInRange | src/hooks/useLayerOperations.js:49-51 | every sorted position is -1 or a valid index of the scene |
| Layers.IndicesInRangeDescending | src/hooks/useLayerOperations.js:30-32 | every position sorted descending is -1 or a valid index of the scene |
| Layers.SortOne | src/hooks/useLayerOperations.js:30-32 | sorting one position either way leaves it as it is |
| Layers.IndicesOne | src/hooks/useLayerOperations.js:30-31 | a one-id selection looks up exactly that id's first index |
| Layers.SwapInPlace | src/hooks/useLayerOperations.js:36-38 | the array afterwards is the swap of its old contents |
| Layers.ForwardStepInPlace | src/hooks/useLayerOperations.js:35-39 | one loop pass leaves the array equal to one forward step of its old contents |
| Layers.BackwardStepInPlace | src/hooks/useLayerOperations.js:54-58 | one loop pass leaves the array equal to one backward step of its old contents |
| Layers.ForwardInPlace | src/hooks/useLayerOperations.js:34-40 | the in-place loop leaves the array equal to the forward steps applied to its old contents |
| Layers.BackwardInPlace | src/hooks/useLayerOperations.js:53-59 | the in-place loop leaves the array equal to the backward steps applied to its old contents |
| Layers.BringForward | src/hooks/useLayerOperations.js:27-44 | corrected: nothing for an empty selection; otherwise the scene after the corrected forward steps, with a stale id's -1 skipped, over the positions sorted from the top down, a permutation of the scene (as written: Layers.BringForwardAsWritten) |
| Layers.SendBackward | src/hooks/useLayerOperations.js:46-63 | nothing for an empty selection; otherwise the scene after the backward steps over the positions sorted from the bottom up, a permutation of the scene |
| Layers.ForwardOne | src/hooks/useLayerOperations.js:27-44 | with one selected element in the scene, the corrected operation trades it with the element above it, and the top element stays put |
| Layers.BackwardOne | src/hooks/useLayerOperations.js:46-63 | with one selected element, it trades places with the element below it, and the bottom element stays put |
| Layers.ForwardStepAsWritten | src/hooks/useLayerOperations.js:35-39 | the guard as written lets -1 through, so the swap moves position 0 into a slot at -1 and keeps the length |
| Layers.ForwardStepsAsWritten | src/hooks/useLayerOperations.js:34-40 | the as-written loop keeps the number of positions |
| Layers.StaleIdLosesBottomElement | src/hooks/useLayerOperations.js:30-40 | a selected id that is not in the scene makes the bottom position `undefined` and loses its element |
| Layers.StaleIdIgnored | src/hooks/useLayerOperations.js:27-44 | once -1 is skipped, a stale id leaves the scene unchanged |
| ActionHandlers.HandlePanning | src/utils/actionHandlers.js:3-13 | the pointer becomes the new pan point; the first event leaves the offset, later ones add the pointer's movement to it |
| ActionHandlers.PanKeepsGrabbedPoint | src/utils/actionHandlers.js:3-13 | after a pan step the world point under the pointer is the one that was under it before |
| ActionHandlers.PanningCalledWithContext | src/utils/actionHandlers.js:3-6 | called with one context argument, as the canvas hook calls it, the handler returns the context and never moves the offset |
| ActionHandlers.MarqueeRect | src/utils/actionHandlers.js:18-23 | the marquee starts at the grab point and ends at the pointer |
| ActionHandlers.MarqueeSpansBothCorners | src/utils/actionHandlers.js:15-24 | once normalised, the marquee holds both the grab point and the pointer |
| ActionHandlers.HandleSelecting | src/utils/actionHandlers.js:15-24 | sets the marquee from the grab point to the pointer and returns nothing |
| ActionHandlers.MoveBy | src/utils/actionHandlers.js:34-42 | the listed elements move by the offset; the rest are unchanged |
| ActionHandlers.MoveByComposes | src/utils/actionHandlers.js:37-42 | two drag steps are one step by the summed offset |
| ActionHandlers.HandleDragging | src/utils/actionHandlers.js:26-52 | without an interaction box the scene comes back unchanged; with one, the dragged elements and the box move by the step |
| ActionHandlers.GroupAngle | src/utils/actionHandlers.js:59-67 | the group's start rotation plus the angle swept about the box centre, or with shift a multiple of 15 degrees within half a step of it |
| ActionHandlers.HandleRotating | src/utils/actionHandlers.js:54-77 | a group is turned to the new angle about the box centre; a single element is rotated about its box centre and replaces itself, becoming the box |
| ActionHandlers.HandleResizing | src/utils/actionHandlers.js:79-97 | a group's box is resized and, when that gives a box, its members follow it, otherwise the scene comes back unchanged with no box; a single element is resized from its pivot and replaces itself, becoming the box (a null result: see Left out) |
| Interactions.SelectingFrom | src/interactions/select.js:15-20 | a marquee interaction anchored at the pointer |
| Interactions.TryStartPanning | src/interactions/pan.js:8-25 | starts exactly for the middle button, remembering the pointer as the pan point |
| Interactions.TryStartTransform | src/interactions/transform.js:12-61 | starts exactly when there is a selection box with a handle under the pointer: rotating for the rotation handle, resizing otherwise; a group records its box, pivot and rotation, a single element itself and the pivot |
| Interactions.Toggled | src/interactions/drag.js:24-26 | shift-click removes a selected id and appends an unselected one |
| Interactions.FilterOut | src/interactions/drag.js:25 | exactly the other ids |
| Interactions.DraggingFrom | src/interactions/drag.js:65-81 | a drag from the pointer carrying the elements to drag and the scene; a group state exactly when there is a box |
| Interactions.DragBox | src/interactions/drag.js:59-63 | a drag on the current selection keeps its box; a new selection gets a group box exactly when it has more than one element |
| Interactions.ShouldDuplicate | src/interactions/duplicate.js:23-26 | never twice in one drag, and only while dragging with Meta or Ctrl held |
| Interactions.TryStartDragging | src/interactions/drag.js:12-82 | nothing hit and outside the box: no drag; shift-click toggles and idles; an emptied box falls back to a marquee; a new click drags the clicked element alone and selects it; otherwise the selection is dragged |
| Interactions.ClickedSelectedIsDragged | src/interactions/drag.js:32-36 | a clicked element that is selected is among the elements dragged |
| Interactions.NewClickDragHasNoBox | src/interactions/drag.js:32-63 | a drag started on an unselected element has no box, so every drag step leaves the scene unchanged |
| Interactions.DragBoxCorrected | src/interactions/drag.js:59-63 | a new single-element drag uses the element itself as its box |
| Interactions.NewClickDragMovesWhenCorrected | src/utils/actionHandlers.js:26-52 | with the corrected box the clicked element follows every drag step |
| Interactions.StartMarqueeSelection | src/interactions/select.js:9-22 | clears the selection and starts a zero-size marquee at the pointer |
| Interactions.Clones | src/interactions/duplicate.js:39-43 | one clone per dragged element, the i-th with id now + i, otherwise identical |
| Interactions.ClonesHaveDistinctIds | src/interactions/duplicate.js:39-43 | the clones' ids are distinct |
| Interactions.Duplicated | src/interactions/duplicate.js:45-50 | the clones are appended to the live scene and become the dragged elements; nothing else changes |
| Gestures.TryStartPanning | src/modules/interactions/panInteraction.js:6-23 | starts exactly for the middle button, remembering the pointer |
| Gestures.HandlePanning | src/modules/interactions/panInteraction.js:29-41 | without a pan point nothing happens; otherwise the offset moves by the pointer's movement and the pointer is returned |
| Gestures.PanKeepsWorldPointUnderPointer | src/modules/interactions/panInteraction.js:29-41 | after a pan step the world point under the pointer is the one that was under it before |
| Gestures.StartMarqueeSelection | src/modules/interactions/selectionInteraction.js:6-19 | clears the selection and starts a zero-size marquee at the pointer |
| Gestures.HandleSelecting | src/modules/interactions/selectionInteraction.js:25-34 | the marquee runs from the grab point to the pointer |
| Gestures.MarqueeAgreesWithOlderRevision | src/modules/interactions/selectionInteraction.js:25-34 | the newer marquee is the older one, and starts at zero size |
| Gestures.Offsets | src/modules/interactions/dragInteraction.js:56-60 | each dragged element's offset from the grab point, in order |
| Gestures.DragStateFor | src/modules/interactions/dragInteraction.js:62-79 | the drag data: grab point, dragged elements and their offsets, box, a group state exactly when there is a box, and the scene |
| Gestures.TryStartDragging | src/modules/interactions/dragInteraction.js:13-80 | nothing hit and outside the box: nothing; shift-click toggles; an emptied box sets a zero marquee and starts nothing; a new click drags the clicked element with itself as box; otherwise the selection drags with the selection box |
| Gestures.StartedDragIsWellFormed | src/modules/interactions/dragInteraction.js:30-79 | a started drag has elements, one offset each, the first offset for the first element, a group state exactly when it has a box, and its primary element in the scene it starts over |
| Gestures.Tolerance | src/modules/interactions/dragInteraction.js:105-110 | shift strengthens the snap tolerance, Cmd or Ctrl switches it off, otherwise the setting |
| Gestures.FindOffset | src/modules/interactions/dragInteraction.js:90 | none exactly when no offset has the id; otherwise the first that does |
| Gestures.IdealPosition | src/modules/interactions/dragInteraction.js:95-97 | the primary element's position that keeps its grab offset under the pointer |
| Gestures.DragSnap | src/modules/interactions/dragInteraction.js:99-119 | no snap when snapping is off or the tolerance is not positive; any offset is inside the scaled tolerance |
| Gestures.TotalDelta | src/modules/interactions/dragInteraction.js:123-128 | the step that takes the primary element from its start to the snapped ideal position |
| Gestures.MovedFromStart | src/modules/interactions/dragInteraction.js:130-138 | each dragged element is placed at its start position plus the step; the rest are unchanged |
| Gestures.FirstIsLastWhenUnique | src/modules/interactions/dragInteraction.js:134 | with distinct ids the first and last start entries with an id agree |
| Gestures.MovedFromStartIsTranslate | src/core/transformations.js:11-25 | with distinct start ids the drag's placement is `translateElements` |
| Gestures.ArtboardChildIds | src/modules/interactions/dragInteraction.js:141-151 | every id added for an artboard drag is a dragged element's |
| Gestures.ArtboardStepAddsNoId | src/modules/interactions/dragInteraction.js:144-151 | dragging an artboard adds no id beyond the dragged elements to the highlight set |
| Gestures.MovedKeepsIds | src/modules/interactions/dragInteraction.js:132-138 | placing the dragged elements keeps every id |
| Gestures.DragHighlight | src/modules/interactions/dragInteraction.js:129-157 | the children an artboard drags along are already dragged, so the highlight is the 50%-rule parent of the first dragged element in scene order, an artboard of the scene |
| Gestures.HighlightReadsFirstDragged | src/modules/interactions/dragInteraction.js:129-157 | the element the highlight is computed for is dragged, and no element before it in the scene is |
| Gestures.HandleDragging | src/modules/interactions/dragInteraction.js:82-168 | without the drag data the scene comes back unchanged; otherwise every dragged element moves from its start by one step, the box with it, with the snap guides and, as highlight, the 50%-rule parent of the first dragged element in the moved scene |
| Gestures.MovingStep | src/modules/interactions/dragInteraction.js:95-167 | a drag step as specified |
| Gestures.ShiftedBox | src/modules/interactions/dragInteraction.js:159-165 | the box moved by the step, otherwise unchanged |
| Gestures.DraggedElementsShareOneDelta | src/modules/interactions/dragInteraction.js:127-165 | every dragged element moves from its start exactly as far as the box; the rest stay |
| Gestures.UnsnappedPrimaryFollowsPointer | src/modules/interactions/dragInteraction.js:95-128 | with snapping off, the primary element keeps its grab offset under the pointer |
| Gestures.SnappedPrimaryStaysNearPointer | src/modules/interactions/dragInteraction.js:95-128 | a snap moves the primary element less than the scaled tolerance from where the pointer puts it |
| Gestures.StaticsAgree | src/modules/interactions/dragInteraction.js:114 | scenes that differ only in dragged elements' positions have the same statics |
| Gestures.SnapSeesOnlyStatics | src/modules/interactions/dragInteraction.js:112-118 | the snap and the step depend only on the elements not being dragged |
| Gestures.MovedForgetsPositions | src/modules/interactions/dragInteraction.js:132-138 | where the dragged elements are now does not matter to the placement |
| Gestures.MovedForgetsPositionAt | src/modules/interactions/dragInteraction.js:132-138 | one element's placement ignores its current position when dragged |
| Gestures.DragIsAbsolute | src/modules/interactions/dragInteraction.js:82-168 | a drag step's result does not depend on where earlier steps left the dragged elements |
| Gestures.TryStartTransform | src/modules/interactions/transformInteraction.js:6-54 | starts exactly when there is a selection box with a handle under the pointer; a group records the selected elements, box, pivot, grab angle and rotation; a single element itself and the pivot |
| Gestures.TransformStartersAgree | src/modules/interactions/transformInteraction.js:6-54 | the newer transform starter records what the older one does |
| Gestures.GroupNewAngle | src/modules/interactions/transformInteraction.js:60-70 | the group's rotation plus the angle swept about the box centre, or with shift a multiple of 15 degrees within half a step of it |
| Gestures.HandleRotating | src/modules/interactions/transformInteraction.js:56-79 | a group turns to the new angle about the box centre; a single element rotates about its box centre and replaces itself as the box |
| Gestures.GroupRotationTurnsMembersAlike | src/modules/interactions/transformInteraction.js:60-71 | the box takes the new angle and every selected member turns by the same amount from its start |
| Gestures.SingleRotationTouchesOnlyItsElement | src/modules/interactions/transformInteraction.js:72-78 | only the rotated element changes, and only in its rotation |
| Gestures.HandleResizing | src/modules/interactions/transformInteraction.js:81-99 | a group's box is resized from its pivot and the members follow; a single element is resized and replaces itself as the box |
| Gestures.CenterResizeKeepsElementCenter | src/modules/interactions/transformInteraction.js:92-97 | with Ctrl or Cmd a single element keeps its centre and nothing else changes |
| Gestures.CenterResizeKeepsGroupCenter | src/modules/interactions/transformInteraction.js:85-90 | with Ctrl or Cmd the group box keeps its centre |
| CanvasInteraction.DownContextOf | src/hooks/useCanvasInteraction.js:46-53 | the pointer is taken into the world through the current offset and scale |
| CanvasInteraction.FirstStart | src/hooks/useCanvasInteraction.js:56-60 | the first starter that applies, in the order pan, transform, drag, marquee |
| CanvasInteraction.Down | src/hooks/useCanvasInteraction.js:42-64 | the interaction is the first that applies; its selection and marquee replace the old ones only when it sets them; the offset stays |
| CanvasInteraction.MiddleButtonAlwaysPans | src/hooks/useCanvasInteraction.js:56-57 | the middle button always starts a pan from the pointer and leaves the selection alone |
| CanvasInteraction.EmptyClickStartsMarquee | src/hooks/useCanvasInteraction.js:56-60 | with nothing selected and nothing hit, a press clears the selection and starts a marquee at the pointer |
| CanvasInteraction.ShiftClickTogglesAndIdles | src/hooks/useCanvasInteraction.js:56-60 | a shift-click on an element away from any handle toggles it in the selection and starts nothing |
| CanvasInteraction.RunHandler | src/hooks/useCanvasInteraction.js:93 | the stored handler runs: the pan handler with the context as its one argument, the others as written |
| CanvasInteraction.MoveDelta | src/hooks/useCanvasInteraction.js:77-82 | the pointer's movement since the last world position, or nothing without one |
| CanvasInteraction.MovedData | src/hooks/useCanvasInteraction.js:95-107 | a result replaces the live scene and, when it has one, the box; a pan records the pointer; the last world position follows the pointer |
| CanvasInteraction.Move | src/hooks/useCanvasInteraction.js:66-108 | without a handler nothing changes; otherwise the handler runs on the pointer's movement and its result is stored; the gesture, the selection and the offset stay |
| CanvasInteraction.Moves | src/hooks/useCanvasInteraction.js:66-108 | any run of moves keeps the interaction well formed |
| CanvasInteraction.MovesKeepStart | src/hooks/useCanvasInteraction.js:66-108 | moves never change the gesture, its start data or the selection |
| CanvasInteraction.IdleIgnoresMoves | src/hooks/useCanvasInteraction.js:67-68 | with no gesture, moves change nothing |
| CanvasInteraction.DragMoveFollowsPointer | src/hooks/useCanvasInteraction.js:77-107 | a drag step moves the dragged elements and the box by the pointer's movement since the last step |
| CanvasInteraction.TwoDragMovesAddUp | src/hooks/useCanvasInteraction.js:77-107 | two drag steps move the dragged elements by the whole movement since the first position |
| CanvasInteraction.PanMoveLeavesOffset | src/hooks/useCanvasInteraction.js:93-104 | a pan move, as wired, records the pointer but never changes the offset, and drops the live scene |
| CanvasInteraction.MarqueeMoveStretchesRect | src/hooks/useCanvasInteraction.js:93 | a marquee move stretches the rect so that it holds the grab point and the pointer |
| CanvasInteraction.StaticCopies | src/hooks/useCanvasInteraction.js:120-123 | one copy per dragged element at its start position, with a drawn id |
| CanvasInteraction.Caught | src/hooks/useCanvasInteraction.js:144 | exactly the elements the marquee intersects |
| CanvasInteraction.CommitOnUp | src/hooks/useCanvasInteraction.js:114-141 | a duplicating drop commits the live scene plus the copies; a plain drop commits only when the dragged elements changed; a transform commits exactly when it has single-element starts; nothing else commits |
| CanvasInteraction.SelectionOnUp | src/hooks/useCanvasInteraction.js:116-146 | a duplicating drop keeps the dragged ids selected; a marquee selects what it caught; nothing else selects |
| CanvasInteraction.Up | src/hooks/useCanvasInteraction.js:110-155 | without a gesture nothing happens; otherwise the commit and selection as specified, the gesture ends and the marquee clears |
| CanvasInteraction.ClickWithoutMoveDoesNotCommit | src/hooks/useCanvasInteraction.js:131-135 | pressing and releasing without moving does not add an undo step |
| CanvasInteraction.DragDownStartsFromScene | src/hooks/useCanvasInteraction.js:56-62 | a drag starts from the current scene with distinct dragged elements taken from it in order |
| CanvasInteraction.DragStartFromScene | src/interactions/drag.js:32-81 | the drag data holds the scene and the dragged elements as the scene has them |
| CanvasInteraction.DuplicatingDropKeepsCopies | src/hooks/useCanvasInteraction.js:118-131 | the commit holds the live scene followed by the copies at the start positions, and the originals stay selected |
| CanvasInteraction.GroupTransformNeverCommits | src/hooks/useCanvasInteraction.js:137-140 | a group rotate or resize, whatever the moves, never commits |
| CanvasInteraction.SingleTransformAlwaysCommits | src/hooks/useCanvasInteraction.js:137-140 | a single-element transform always commits the live scene, moved or not |
| CanvasInteraction.TransformCommitCorrected | src/hooks/useCanvasInteraction.js:137-140 | a commit, when there is one, is the live scene |
| CanvasInteraction.CorrectedCommitsChangedGroup | src/hooks/useCanvasInteraction.js:137-140 | with the corrected test a group whose member changed geometry is committed |
| CanvasInteraction.CorrectedSkipsUnchanged | src/hooks/useCanvasInteraction.js:137-140 | with the corrected test an untouched group is not committed |
| CanvasInteraction.CaughtIds | src/hooks/useCanvasInteraction.js:144 | an id is selected exactly when an element with it meets the marquee |
| CanvasInteraction.MarqueeUpSelectsCaught | src/hooks/useCanvasInteraction.js:143-146 | releasing a marquee commits nothing and selects exactly the ids of the elements it meets |
| CanvasInteraction.UpEndsGesture | src/hooks/useCanvasInteraction.js:152-154 | a release always ends the gesture and clears the marquee, leaving the offset |
| CanvasInteraction.CanvasInteractionState.Snapshot | src/hooks/useCanvasInteraction.js:35-37 | the hook's state as one value |
| CanvasInteraction.CanvasInteractionState.constructor | src/hooks/useCanvasInteraction.js:35-37 | no gesture, nothing selected, no marquee |
| CanvasInteraction.CanvasInteractionState.HandleMouseDown | src/hooks/useCanvasInteraction.js:42-64 | the press as specified |
| CanvasInteraction.CanvasInteractionState.HandleMouseMove | src/hooks/useCanvasInteraction.js:66-108 | the move as specified |
| CanvasInteraction.CanvasInteractionState.HandleMouseUp | src/hooks/useCanvasInteraction.js:110-155 | the release and its commit as specified |
| CanvasInteraction.CanvasInteractionState.TryDuplicateOnDrag | src/interactions/duplicate.js:15-54 | only a drag with Cmd or Ctrl not yet duplicated clones: the clones join the live scene, become the dragged and selected elements, and the flag is set |
| Navigation.ZoomedScale | src/hooks/useCanvasNavigation.js:29-32 | never below 0.1; scrolling up zooms in by the factor, anything else zooms out by it |
| Navigation.WorldUnder | src/hooks/useCanvasNavigation.js:18-21 | the world point under the pointer maps back to the pointer under the same view |
| Navigation.Zoom | src/hooks/useCanvasNavigation.js:19-38 | the new scale, with the offset that keeps the world point under the pointer where it was |
| Navigation.UnitFactorKeepsView | src/hooks/useCanvasNavigation.js:29-38 | a wheel event with no vertical movement leaves the view as it was |
| Navigation.ZoomInThenOutRestores | src/hooks/useCanvasNavigation.js:29-38 | zooming in and then out by the same factor about the same point restores the view |
| Navigation.CanvasNavigation.constructor | src/hooks/useCanvasNavigation.js:9-10 | no offset and scale 1 |
| Navigation.CanvasNavigation.HandleWheel | src/hooks/useCanvasNavigation.js:12-42 | without a canvas nothing changes; otherwise the view zooms about the pointer and the scale stays at least 0.1 |
| Panels.Flags.With | src/hooks/usePanelManager.js:17-22 | a setter changes its own panel's flag to the value given and no other flag |
| Panels.Flags.OpenCount | src/hooks/usePanelManager.js:29 | the count of open panels among the four is at most 4 |
| Panels.FirstToClose | src/hooks/usePanelManager.js:34-40 | the first panel in the priority order that is open and is not the target, and none exactly when no such panel exists |
| Panels.Toggle | src/hooks/usePanelManager.js:10-43 | an open target closes; a closed target opens, after closing the first open other panel in priority order when two or more are open |
| Panels.ToggleKeepsAtMostTwoOpen | src/hooks/usePanelManager.js:10-43 | with at most two panels open before a toggle, at most two are open after it |
| Panels.ToggleFlipsTarget | src/hooks/usePanelManager.js:24-42 | a toggle always flips the target's flag |
| Panels.ToggleClosesAtMostOneOther | src/hooks/usePanelManager.js:33-41 | a toggle changes at most one panel besides the target, and only by closing it |
| Panels.ToggleTwiceRestores | src/hooks/usePanelManager.js:24-32 | opening a panel while fewer than two are open, then toggling it again, restores every flag |
| Panels.PanelManager.constructor | src/hooks/usePanelManager.js:4-8 | only the layers panel starts open, and the export panel starts closed |
| Panels.PanelManager.SetOpen | src/hooks/usePanelManager.js:17-22 | the new flags are the old ones with that one panel set; the export flag is unchanged |
| Panels.PanelManager.HandlePanelToggle | src/hooks/usePanelManager.js:10-43 | the new flags are the toggle of the old ones; the export flag is unchanged |
| LayersPanel.IsVisible | src/components/panels/LayersPanel/LayersPanel.js:33 | a row shows visible exactly when `visible` is not explicitly false |
| LayersPanel.IsLocked | src/components/panels/LayersPanel/LayersPanel.js:34 | a row shows locked exactly when `locked` is explicitly true |
| LayersPanel.DefaultFlags | src/components/panels/LayersPanel/LayersPanel.js:33-34 | an element with neither flag is shown visible and unlocked |
| LayersPanel.Roots | src/components/panels/LayersPanel/LayersPanel.js:78-86 | the root list is never longer than the scene |
| LayersPanel.ChildrenOf | src/components/panels/LayersPanel/LayersPanel.js:78-86 | a parent's child list is never longer than the scene |
| LayersPanel.RootsAreParentless | src/components/panels/LayersPanel/LayersPanel.js:78-86 | an element is a root exactly when its parent id names no element of the scene |
| LayersPanel.ChildrenHaveThatParent | src/components/panels/LayersPanel/LayersPanel.js:78-86 | an element is filed under `id` exactly when its parent is `id` and that parent is in the scene |
| LayersPanel.Subtree | src/components/panels/LayersPanel/LayersPanel.js:89-95 | an element's rows start with its own row, drawn with the child flag it was given |
| LayersPanel.Forest | src/components/panels/LayersPanel/LayersPanel.js:93 | a list's rows include at least one row per listed element |
| LayersPanel.SubtreeBelowIsChild | src/components/panels/LayersPanel/LayersPanel.js:89-95 | every row after an element's own row is drawn as a child |
| LayersPanel.ForestOfChildrenIsChild | src/components/panels/LayersPanel/LayersPanel.js:93 | every row of the children's subtrees is drawn as a child |
| LayersPanel.ForestRowsFromScene | src/components/panels/LayersPanel/LayersPanel.js:89-97 | every row shows a listed element or an element of the scene |
| LayersPanel.RowsAreSceneElements | src/components/panels/LayersPanel/LayersPanel.js:73-99 | the panel lists only elements of the scene |
| LayersPanel.ForestTopLevel | src/components/panels/LayersPanel/LayersPanel.js:97 | the top-level rows of the roots' subtrees are exactly the roots, in order |
| LayersPanel.TopLevelRowsAreRoots | src/components/panels/LayersPanel/LayersPanel.js:73-99 | the rows drawn at top level are the roots in scene order, and every other row is a child |
| LayersPanel.FirstChildFollowsParent | src/components/panels/LayersPanel/LayersPanel.js:90-94 | an element with children is followed directly by its first child's row |
| LayersPanel.RenderHierarchicalList | src/components/panels/LayersPanel/LayersPanel.js:73-99 | the loops build exactly the hierarchical list: every root's subtree, roots in scene order |
| LayersPanel.HierarchicalList | src/components/panels/LayersPanel/LayersPanel.js:73-99 | at least one row per root; a first element that is a root gives the first row, drawn as a top-level row |
| LayersPanel.GroupStep | src/components/panels/LayersPanel/LayersPanel.js:79-85 | filing one more element under its parent keeps every parent's child list equal to its children so far |
| LayersPanel.GroupByParent | src/components/panels/LayersPanel/LayersPanel.js:74-86 | the first loop yields the roots in scene order and, for every id, its children in scene order |
| LayersPanel.BuildList | src/components/panels/LayersPanel/LayersPanel.js:89-95 | the rows pushed for an element are exactly its subtree: its row, then each child's subtree |
| LayersPanel.GroupedAt | src/components/panels/LayersPanel/LayersPanel.js:91 | the map lookup, or no entry, gives exactly that id's children |
| LayersPanel.SubtreeUnfold | src/components/panels/LayersPanel/LayersPanel.js:89-95 | with depth left, a subtree is the element's row followed by its children's subtrees |
| LayersPanel.BuildChildren | src/components/panels/LayersPanel/LayersPanel.js:92-94 | the rows pushed for a child list are exactly the children's subtrees, in order |
| LayersPanel.ForestStep | src/components/panels/LayersPanel/LayersPanel.js:93 | one more listed element appends exactly its subtree's rows |
| LayersPanel.RootsSnoc | src/components/panels/LayersPanel/LayersPanel.js:83-85 | one more scanned element adds itself to the roots exactly when it has no parent in the scene |
| LayersPanel.ChildrenSnocAt | src/components/panels/LayersPanel/LayersPanel.js:79-82 | one more scanned element is appended to `id`'s children exactly when its parent is `id` and in the scene |
| LayersPanel.UpperChar | src/components/panels/LayersPanel/LayersPanel.js:11 | lower-case ASCII letters become upper case and every other character is kept |
| LayersPanel.AsciiUpper | src/components/panels/LayersPanel/LayersPanel.js:11 | the ASCII mapping gives one character per character |
| LayersPanel.AsciiUpperSingleCharIdempotent | src/components/panels/LayersPanel/LayersPanel.js:11 | upper-casing an ASCII upper-case result again changes nothing |
| LayersPanel.CapitalizeFirstLetter | src/components/panels/LayersPanel/LayersPanel.js:9-12 | absent or empty gives the empty string; otherwise the upper-case form of the first character followed by the rest unchanged, the length changing only by that form's length less one |
| LayersPanel.CapitalizeKeepsLength | src/components/panels/LayersPanel/LayersPanel.js:9-12 | with an upper-case mapping that gives one character per character, the length is kept |
| LayersPanel.CapitalizeIdempotent | src/components/panels/LayersPanel/LayersPanel.js:9-12 | with an upper-case mapping that gives one character and is stable on its own results, capitalising twice is the same as capitalising once |
| TransformPanel.Trunc | src/components/panels/TransformPanel/TransformPanel.js:48 | the integer part toward zero: within one below a non-negative value, within one above a negative value |
| TransformPanel.Remainder360 | src/components/panels/TransformPanel/TransformPanel.js:48 | `% 360` keeps the dividend's sign, stays within one turn, and differs from the dividend by whole turns |
| TransformPanel.WholeTurnsShift | src/components/panels/TransformPanel/TransformPanel.js:49-53 | adding or removing a turn keeps a whole number of turns |
| TransformPanel.NormalizedDegrees | src/components/panels/TransformPanel/TransformPanel.js:48-53 | the displayed angle lies in (-180, 180] and differs from the element's angle by whole turns |
| TransformPanel.HalfOpenTurnUnique | src/components/panels/TransformPanel/TransformPanel.js:47-53 | two angles in (-180, 180] a whole number of turns apart are equal, so the normalised angle is unique |
| TransformPanel.NormalizedDegreesFixesRange | src/components/panels/TransformPanel/TransformPanel.js:47-53 | an angle already in (-180, 180] is shown unchanged, and normalising is idempotent |
| TransformPanel.DegreesRoundTrip | src/components/panels/TransformPanel/TransformPanel.js:45-87 | converting degrees to radians and back gives the degrees typed |
| TransformPanel.DegreesToRadians | src/components/panels/TransformPanel/TransformPanel.js:87 | the radians, converted back at 180/π, give the degrees |
| TransformPanel.RadiansToDegrees | src/components/panels/TransformPanel/TransformPanel.js:45 | the degrees, converted to radians, give the angle back |
| TransformPanel.DisplayFor | src/components/panels/TransformPanel/TransformPanel.js:41-65 | no element shows zeros; otherwise the rotation shows within half a degree of the normalised angle, in [-180, 180], and the shear within half a degree of its degrees |
| TransformPanel.ClampInput | src/components/panels/TransformPanel/TransformPanel.js:75-82 | NaN gives 0; the value stays in [-150, 150], unchanged inside it and clamped to the nearer bound outside it |
| TransformPanel.AngleInputChange | src/components/panels/TransformPanel/TransformPanel.js:73-107 | the field shows the clamped degrees; an update is sent exactly when an element is selected, to that element and field, in radians that convert back to the shown degrees |
| TransformPanel.RotationInputRoundTrip | src/components/panels/TransformPanel/TransformPanel.js:41-90 | after a typed rotation is written back, the field displays exactly the clamped degrees typed |
| TransformPanel.PropertyChange | src/components/panels/TransformPanel/TransformPanel.js:67-71 | an update is sent exactly when an element is selected, for that id and property, with the parsed number when there is one (0 stays 0) and 0 for NaN |
| Factories.Base | src/core/element.js:15-20 | the base element carries the id, type and position given, no parent, and no size, radius, rotation or fill |
| Factories.NewRect | src/core/element.js:23-32 | a rect with the box given, rotation and fill defaulted when falsy, and no radius |
| Factories.NewCircle | src/core/element.js:33-41 | a circle at the position and radius given, without width or height, rotation and fill defaulted when falsy |
| Factories.TextStyle | src/core/element.js:42-60 | the text styles with each falsy prop replaced by its stock value and absent content by the placeholder |
| Factories.NewText | src/core/element.js:42-60 | a text box 200 by 50 unless a nonzero size is given, rotation defaulted, no fill, with the defaulted styles |
| Factories.CreateElement | src/core/element.js:15-64 | success exactly for rect, circle and text, each built by its branch with the id and type given and no parent; any other type fails |
| Factories.CreateElementOlder | src/utils/element.js:15-45 | success exactly for rect and circle, with the id and type given and no parent; any other type fails |
| Factories.NewerExtendsOlder | src/utils/element.js:15-45 | whatever the older factory builds the newer builds identically; only text is new |
| Factories.TextDefaultBox | src/core/element.js:42-50 | text with no or zero size gets the 200 by 50 box at the given corner |
| Factories.TextDefaultContent | src/core/element.js:42-50 | text without content shows the one unstyled placeholder span |
| Factories.CreateArtboard | src/core/element.js:3-13 | an artboard with the box given, a white background, no children, and the title given or "Artboard" when none is passed |
| Exporter.ArtboardContent | src/core/exporter.js:12-14 | exactly the scene's elements whose parent is the artboard |
| Exporter.ArtboardContentSplits | src/core/exporter.js:12-14 | the content keeps scene order: a split scene's content is its parts' contents in turn |
| Exporter.DigitValue | src/core/exporter.js:67 | a hex digit's value is below 16 |
| Exporter.SixDigits | src/core/exporter.js:63-66 | six hex digits: the short form's digits doubled, a long form as given |
| Exporter.HexToRgba | src/core/exporter.js:59-71 | the opacity passes through, 1 when none is given; a missing, empty or malformed colour gives black; every channel is a byte |
| Exporter.IsHexColor | src/core/exporter.js:62 | the pattern test: a `#` followed by exactly three or six hex digits |
| Exporter.HexValue | src/core/exporter.js:67 | a string of n hex digits denotes a number below 16 to the n |
| Exporter.SixDigitValue | src/core/exporter.js:67 | six hex digits read as one number are three bytes, most significant first |
| Exporter.SixDigitChannels | src/core/exporter.js:62-68 | for `#RRGGBB` each channel is the two-digit hex number at its place |
| Exporter.ThreeDigitChannels | src/core/exporter.js:62-68 | for `#RGB` each channel is its digit times 17, the same as the doubled long form |

## Left out

- Canvas drawing, React markup, the cursor style and `getMousePosition` are not modelled. They are 2D-context and DOM side effects. The pointer enters the model already in canvas coordinates.
- Floating point is not modelled. Coordinates are exact reals, so there is no rounding, overflow or NaN. An absent number that the source would turn into NaN reads as 0 (`Model.Num`). The source's ids, numbers or uuid strings, are integers here.
- `Math.cos`, `Math.sin`, `Math.atan2` and `Math.sqrt` are arguments. Their values are constrained only by the identities each lemma requires. The zoom factor `Math.pow(1 + sensitivity, |deltaY|)` is also an argument, taken to be at least 1.
- `getIntersectionArea` is an argument (an overlap function of two boxes). The newer modules import their geometry from `src/core/geometry.js` (for example `src/modules/interactions/transformInteraction.js:1`), which is not part of this model. The model uses the functions of the same names in `src/utils/geometry.js` in their place.
- `rotateElement`, `resizeElement`, `transformGroup_rotate` and `transformGroup_resize`, which `src/utils/actionHandlers.js:1` imports from `./transformations`, are an argument (`LegacyTransforms`). `src/utils/transformations.js` is not part of this model. `translateElements` is imported there too but never called.
- The older artboard gesture's `resizeArtboard` is an argument (`Resizer`). `src/artboard/artboardTransform.js` is not part of this model. The newer `src/modules/artboard/artboardTransform.js` is modelled in full.
- Fresh ids (`Date.now() + Math.random()` and uuids) are arguments, and the model assumes them fresh where it needs to.
- `deepClone` is the identity on values, since elements are values here. The clipboard keeps the elements it copied.
- `useKeyMonitor` is not modelled. Its window listeners become the `duplicateIntended` argument of mouse-up.
- `parseInt` and `parseFloat` in the transform panel are not modelled. Their results are inputs, with None standing for NaN.
- The `rgba(...)` text that `hexToRgba` prints is not modelled. The model keeps its four values.
- The `Error` that `createElement` throws for an unknown type becomes a `Failure`. Its message does not carry the type name.
- The element record has no shear field. The transform panel reads shear from its own `Selected` record.
- Gestures.TryStartTransform: requires that a selection box that is not a group comes with a selected element. Without one the source would not throw: `getElementCenter(undefined)` gives (0, 0) (`src/utils/geometry.js:9`) and `{ ...undefined }` is an empty object, so it would record an element with only a `startAngle`, which the element record here cannot express. The requirement holds at every call: a selection box that is not a group exists only when exactly one element is selected, and every caller in the model meets it.
- Interactions.TryStartTransform: the same requirement, for the same reason (`src/interactions/transform.js:41-46`).
- ActionHandlers.HandleResizing: when `resizeElement` gives null for a single element, the source puts null in the element's place in the scene (`src/utils/actionHandlers.js:93`) and reports a null box. A scene here cannot hold null, so the model returns the scene unchanged with no box in that case. The group case's null fallback (`src/utils/actionHandlers.js:86-89, 96`) is modelled as the source has it.
- Gestures.HandleDragging: requires, once the guards pass, that the primary dragged element is in the scene. Without it the source throws a TypeError reading `primaryDraggedElement.type` (`src/modules/interactions/dragInteraction.js:141-144`). Callers always meet it: Gestures.StartedDragIsWellFormed shows a drag starts with its primary element in the scene, and Gestures.MovedKeepsIds shows each drag step keeps every id. Only a change to the scene made between two moves by something other than the drag, such as deleting the element mid-drag, would break it.
- SelectionBox.SelectionBoxState.SelectionRendered: compares the selected ids by value. React reruns the effect at `src/hooks/useSelectionBox.js:49-52` whenever the array is a new object, so a fresh array holding the same ids drops the box there but keeps it here.
- ArtboardResize.ResizeArtboard: with Shift, requires a nonzero width and height. The source divides the width by the height to get the aspect ratio and then divides by that ratio, which gives Infinity or NaN when either is 0.
- LayersPanel.Subtree: nesting deeper than the fuel argument is cut off. The source recurses through `parentId` links without a bound. Elements on a `parentId` cycle are never roots, so they are never reached and the panel omits them. Only duplicate ids make `buildList` recurse forever, for example a root with id 1 and another element with id 1 whose `parentId` is 1. With distinct ids, every element has at most one parent, so a chain from a root never repeats an element, and the fuel `|elements|` that HierarchicalList gives is never used up.
- LayersPanel.Forest: the same fuel bound, for the same reason.
- LayersPanel.UpperChar: covers ASCII only. JavaScript's `toUpperCase` applies the full Unicode case mapping (é becomes É, ß becomes SS), and `charAt(0)` reads a UTF-16 code unit where a Dafny `char` is a code point. CapitalizeFirstLetter therefore takes the upper-case mapping as an argument, and its lemmas state what they need of it.
- Snapping reads `width` and `height` as it does in the source, and a circle has only radii. With absent sizes read as 0, all three lines of each axis of a circle fall on its position, which is its centre (Snapping.CircleSnapLinesAtCentre), so in the model a circle snaps, and is snapped to, at its centre. In the source those lines are NaN, and a distance of NaN is never below the threshold (`src/modules/snapping/snapUtils.js:26-46`, `src/modules/snapping/snapUtils.js:92-100`), so a circle never snaps and is never snapped to.
- `tryDuplicateOnDrag` (`src/interactions/duplicate.js`) is modelled as `CanvasInteraction.CanvasInteractionState.TryDuplicateOnDrag`. No code in the repository calls it. The hook duplicates on mouse-up instead, and that path is modelled too.
- The layers panel's clicks and drags, the export panel and the text panel are not modelled, because they are UI wiring only.

## Findings

| source | as written | input that shows it | evidently intended | confidence | as-written member | corrected member |
|---|---|---|---|---|---|---|
| src/hooks/useLayerOperations.js:30-38 | `bringForward` swaps at every index `findIndex` returns, and a stale id gives -1, which passes the `index < length - 1` guard | scene [a(id 1), b(id 2)], selection [7]: the result is [undefined, b], so a is lost | ids not in the scene are skipped and the order stays a permutation | not executed | Layers.StaleIdLosesBottomElement | Layers.StaleIdIgnored |
| src/hooks/useCanvasInteraction.js:93 | the move handler calls `handlePanning(context)` with a single argument, so `mousePos` is the context and `lastPanPoint` is undefined | any middle-button drag: `setOffset` is never called and the canvas does not pan | `handlePanning(mousePos, data.lastPanPoint, setOffset)`, which moves the offset by the pointer's movement | not executed | ActionHandlers.PanningCalledWithContext | ActionHandlers.PanKeepsGrabbedPoint |
| src/interactions/drag.js:61-63 | a drag started on an element that was not selected takes `calculateGroupSelectionBox([el])` as its box, which is null for one element | click an unselected rect and drag: `handleDragging` sees no box and leaves every element in place | the element itself is the box, as the newer `dragInteraction.js:53` does | not executed | Interactions.NewClickDragHasNoBox | Interactions.NewClickDragMovesWhenCorrected |
| src/hooks/useCanvasInteraction.js:137-140 | the transform commit compares `startElements` with the live elements of the same ids; a group transform records `startElements: []`, and a single transform records entries without an `id` | rotate two selected rects by 90° and release: `haveElementsChanged([], [])` is false and nothing is committed; press a single element's handle and release without moving: an undo step is committed | compare the elements the transform started from (the group's recorded members, or the single element) with their live versions | not executed | CanvasInteraction.GroupTransformNeverCommits | CanvasInteraction.CorrectedCommitsChangedGroup |
