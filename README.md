# Document-corner geometry of scanner-app

This project models the integer corner geometry in the scanner's two image
processors, `EdgeDetector` and `PerspectiveCorrector`, and proves properties
of that model.

**EdgeDetector.** `detectDocumentCorners` tries the Hough-line path first:
1. Hough lines are found with a threshold that depends on the image size.
2. They are classified as near-vertical or near-horizontal by their normal angle.
3. In each kind, a line is dropped when its rho is within 30 pixels of a line
   kept before it.
4. The least- and greatest-rho line of each kind is taken.
5. The four intersections are checked: inside the image, and enclosing at least 10% of it.

The Hough path intersects exactly these four extreme lines. There is no
clustering of lines.

When the Hough path fails, the contour fallback runs instead. It takes the
first contour of greatest area among those covering more than 10% of the
image. It keeps that contour's polygon approximation when it has exactly four
vertices, and puts them in corner order.

**PerspectiveCorrector.** `correctPerspective` works in this order:
1. It rejects an empty input.
2. When it is not given four corners, it falls back to the largest contour.
3. It clamps the corners into the image and puts them in corner order.
4. It takes the output width and height as the longer pair of opposite
   edges, and rejects outputs narrower or shorter than 50 pixels.
5. It rejects quadrilaterals under 5% of the image.
6. It asks for the transform that maps the sorted corners onto the rectangle
   (0, 0), (W, 0), (W, H), (0, H).
7. It warps the input to W x H rounded to whole pixels.
8. It rejects a result smaller than 10 x 10.

When every quadrant is taken, the model proves that each corner is paired
with the rectangle corner of the same quadrant (`RectifiedCorrespondence`).

**Corner order.** Both classes hold identical private copies of `sortCorners`
and `calculateQuadrilateralArea`. The model has one copy of each, in the
modules `CornerOrder` and `Geometry`. `sortCorners` works in two steps:
- It first assigns each corner to a quadrant around the centroid. A later
  corner in the same quadrant overwrites an earlier one.
- When some quadrant stays empty, it falls back instead to the first least
  and first greatest x + y (top-left, bottom-right) and x − y (bottom-left,
  top-right). So the point of greatest x − y becomes the top-right corner and
  the point of least x − y the bottom-left corner (EdgeDetector.java:418-419).

The model proves the following about corner order:
- When every quadrant is taken, the result is a permutation of the input in
  top-left, top-right, bottom-right, bottom-left order.
- Sorting again then changes nothing. Idempotence holds only after a
  successful quadrant pass.
- Through the fallback, a second sort can lose a corner. The corners (400, 500),
  (0, 100), (500, 500), (600, 200) sort to a permutation in which two corners
  tied on x − y have swapped places. Sorting that again returns (0, 100) twice
  and drops (400, 500) (`SortTwiceDropsCorner`). The contour path sorts once
  (EdgeDetector.java:282), and `correctPerspective` sorts again
  (PerspectiveCorrector.java:43).
- The fallback is not a permutation. A square turned by 45 degrees comes back
  with its top vertex twice and its left vertex missing (`DiamondRepeatsCorner`).

**Exact integer forms.** Points are OpenCV integer points. The Java code
compares several `double` values against thresholds. The model restates each
comparison exactly on integers:
- The centroid test `x <= sumX / 4.0` becomes `4 * x <= sumX`.
- `sqrt(d²) < 50` becomes `d² < 2500`, for an exact square root.
- `|S| / 2 < 0.1 * W * H` becomes `5 * |S| < W * H`.
- `|S| / 2 < 0.05 * W * H` becomes `10 * |S| < W * H`.

Here S is the shoelace sum, and W and H are the image width and height. The
`double` constants 0.1 and 0.05 differ from the true fractions by less than
half a unit in the last place. The rounded products therefore decide every
case the exact ones do, for image areas far beyond any real image.

**OpenCV calls are inputs to the model:**
- `HoughLines`: a function from the vote threshold to the lines found.
- `intersection`: a function of two lines.
- `findContours`, `contourArea` and `approxPolyDP`: a list of contours, each
  given by its area and its approximation's vertices.
- `getPerspectiveTransform`: a partial function of the sorted corners and the
  destination rectangle. `None` stands for an empty matrix.
- `warpPerspective`: a partial function of the input, the transform and the
  output size. `None` stands for an empty result or a caught exception.
- `Math.sqrt`: a function on the squared edge lengths. The lemmas that relate
  the output size to squared distances assume it is exact (`ExactSqrt`).

## Model

| member | source | states |
|---|---|---|
| Geometry.QuadrilateralArea | src/main/java/com/scanner/processor/EdgeDetector.java:353-362 | the accumulated area is half the absolute shoelace sum of the four corners, and never negative |
| Geometry.ShoelacePrefixComplete | src/main/java/com/scanner/processor/EdgeDetector.java:356-360 | the four loop steps with j = (i + 1) % 4 add up to exactly the closed-polygon shoelace sum |
| Geometry.ShoelaceRotation | src/main/java/com/scanner/processor/EdgeDetector.java:353-362 | starting the walk at the next corner leaves the signed sum and the area unchanged |
| Geometry.ShoelaceReversal | src/main/java/com/scanner/processor/EdgeDetector.java:353-362 | walking the corners the other way negates the signed sum and leaves the area unchanged |
| Geometry.SqDist | src/main/java/com/scanner/processor/PerspectiveCorrector.java:233-235 | the squared distance is zero exactly when the two points coincide |
| Geometry.DistanceBelowIff | src/main/java/com/scanner/processor/PerspectiveCorrector.java:233-235 | a distance (the square root of its square) is below a limit exactly when its square is below the limit squared |
| Geometry.AreaBelowFractionIff | src/main/java/com/scanner/processor/EdgeDetector.java:344-348 | half a shoelace sum is below 1/d of the image area exactly when the sum times d is below twice the image area |
| CornerOrder.SumsOfFour | src/main/java/com/scanner/processor/EdgeDetector.java:383-389 | the coordinate sums over four corners are the four coordinates added up |
| CornerOrder.LastWithRole | src/main/java/com/scanner/processor/EdgeDetector.java:394-404 | the chosen corner lies in the role's quadrant and no later corner does; -1 when none does |
| CornerOrder.FirstMinIndex | src/main/java/com/scanner/processor/EdgeDetector.java:412-420 | the index holds a least key, and every earlier key is strictly greater |
| CornerOrder.FirstMaxIndex | src/main/java/com/scanner/processor/EdgeDetector.java:412-420 | the index holds a greatest key, and every earlier key is strictly smaller |
| CornerOrder.SortedCorners | src/main/java/com/scanner/processor/EdgeDetector.java:381-432 | the sorted array holds four corners, each one of the input corners |
| CornerOrder.CentroidSums | src/main/java/com/scanner/processor/EdgeDetector.java:383-389 | the first loop computes the x and y sums of the corners, four times the centroid |
| CornerOrder.QuadrantPass | src/main/java/com/scanner/processor/EdgeDetector.java:394-404 | each role variable ends as the last corner in that quadrant of the centroid, or null when there is none |
| CornerOrder.KeepMin | src/main/java/com/scanner/processor/EdgeDetector.java:416-418 | one step of a running minimum keeps the first least key of the prefix seen so far |
| CornerOrder.KeepMax | src/main/java/com/scanner/processor/EdgeDetector.java:417-419 | one step of a running maximum keeps the first greatest key of the prefix seen so far |
| CornerOrder.ExtremeIndices | src/main/java/com/scanner/processor/EdgeDetector.java:407-425 | the fallback loop finds the first least and greatest x + y and the first least and greatest x - y |
| CornerOrder.OrderCorners | src/main/java/com/scanner/processor/EdgeDetector.java:381-426 | the three passes produce the top-left, top-right, bottom-right and bottom-left corners of the sorted order |
| CornerOrder.SortCorners | src/main/java/com/scanner/processor/EdgeDetector.java:381-432 | the array is overwritten in place with the sorted order of its old contents |
| CornerOrder.DistinctIndicesPermute | src/main/java/com/scanner/processor/EdgeDetector.java:428-431 | writing back four corners taken from four distinct positions is a permutation, and keeps both coordinate sums |
| CornerOrder.QuadrantOrder | src/main/java/com/scanner/processor/EdgeDetector.java:394-431 | when every quadrant is taken, the result is a permutation with the same centroid, and holds the TL, TR, BR and BL quadrant corners in positions 0 to 3 |
| CornerOrder.OrderedCornersAreFixed | src/main/java/com/scanner/processor/PerspectiveCorrector.java:194-204 | corners already in TL, TR, BR, BL quadrant order take every quadrant and are left where they are |
| CornerOrder.SortCornersIdempotent | src/main/java/com/scanner/processor/PerspectiveCorrector.java:183-231 | after a successful quadrant pass, sorting again takes every quadrant again and changes nothing |
| CornerOrder.FallbackOrder | src/main/java/com/scanner/processor/EdgeDetector.java:406-425 | when a quadrant is empty: position 0 has the least x + y, position 2 the greatest x + y, position 1 the greatest x - y and position 3 the least x - y of all corners |
| CornerOrder.DiamondRepeatsCorner | src/main/java/com/scanner/processor/EdgeDetector.java:381-432 | a square turned by 45 degrees misses a quadrant; the fallback returns its top vertex twice and drops its left vertex |
| CornerOrder.SortTwiceDropsCorner | src/main/java/com/scanner/processor/PerspectiveCorrector.java:183-231 | outside a successful quadrant pass sorting is not idempotent: a first sort permutes four corners tied on x - y, and a second sort returns (0, 100) twice and drops (400, 500) |
| HoughLines.ClassifyLines | src/main/java/com/scanner/processor/EdgeDetector.java:143-158 | the classification loop builds exactly the near-vertical and the near-horizontal lines, in input order |
| HoughLines.ClassificationMembership | src/main/java/com/scanner/processor/EdgeDetector.java:148-157 | a line is among the verticals exactly when it is an input line with an angle in [0, 20] or [160, 180]; it is among the horizontals exactly when it is an input line with an angle in [70, 110]; no line is in both |
| HoughLines.VerticalsSubsequence | src/main/java/com/scanner/processor/EdgeDetector.java:150-153 | the verticals are an order-preserving subsequence of the input lines |
| HoughLines.HorizontalsSubsequence | src/main/java/com/scanner/processor/EdgeDetector.java:154-157 | the horizontals are an order-preserving subsequence of the input lines |
| HoughLines.ClassificationSizes | src/main/java/com/scanner/processor/EdgeDetector.java:143-158 | the two groups together hold no more lines than the input |
| HoughLines.FilterSimilarLines | src/main/java/com/scanner/processor/EdgeDetector.java:310-327 | the nested loop keeps a line exactly when no previously kept line is within the tolerance |
| HoughLines.FilterSubsequence | src/main/java/com/scanner/processor/EdgeDetector.java:310-327 | the kept lines are an order-preserving subsequence of the input: no more of them, each one an input line |
| HoughLines.FilterKeepsFirst | src/main/java/com/scanner/processor/EdgeDetector.java:313-323 | the first input line is always kept, in first place |
| HoughLines.FilterSeparated | src/main/java/com/scanner/processor/EdgeDetector.java:315-323 | any two kept lines are at least the tolerance apart in rho |
| HoughLines.FilterDecision | src/main/java/com/scanner/processor/EdgeDetector.java:313-323 | the lines kept from a prefix start the final list, and line i is appended exactly when it is not near any of them |
| HoughLines.FilterCovers | src/main/java/com/scanner/processor/EdgeDetector.java:316-318 | with a positive tolerance, every input line is within the tolerance of some kept line |
| HoughLines.SeparatedPassUnchanged | src/main/java/com/scanner/processor/EdgeDetector.java:310-327 | lines already at least the tolerance apart pass the filter unchanged |
| HoughLines.FilterIdempotent | src/main/java/com/scanner/processor/EdgeDetector.java:310-327 | filtering the filtered lines again changes nothing |
| HoughLines.LowestIndex | src/main/java/com/scanner/processor/EdgeDetector.java:179-186 | the chosen line has the least rho, and every earlier line has a strictly greater rho |
| HoughLines.HighestIndex | src/main/java/com/scanner/processor/EdgeDetector.java:179-187 | the chosen line has the greatest rho, and every later line has a strictly smaller rho |
| HoughLines.SortedEnds | src/main/java/com/scanner/processor/EdgeDetector.java:179-187 | for lines a positive tolerance apart, every rho-sorted rearrangement starts with the least-rho line and ends with the greatest-rho line |
| HoughLines.ExtremesApart | src/main/java/com/scanner/processor/EdgeDetector.java:168-187 | of two or more separated lines, the greatest rho exceeds the least by at least the tolerance |
| Contours.LargestIndex | src/main/java/com/scanner/processor/EdgeDetector.java:250-260 | the choice is a large-enough contour, at least as large as every large-enough contour and strictly larger than the earlier ones; there is none exactly when no contour is large enough |
| Contours.LargestContour | src/main/java/com/scanner/processor/EdgeDetector.java:246-260 | the selection loop (with the maximum starting at 0) returns the contour Contours.LargestIndex picks, or null |
| Contours.LargestIsFirstMaximum | src/main/java/com/scanner/processor/PerspectiveCorrector.java:129-139 | there is no selection exactly when no contour covers more than 10% of the image; otherwise the selection is such a contour with the greatest area among them, and every such contour before it is strictly smaller |
| Contours.ContourQuadSource | src/main/java/com/scanner/processor/PerspectiveCorrector.java:141-145 | a quadrilateral is the vertex list of a large-enough contour of greatest area; without a large-enough contour there is none |
| EdgeDetector.HoughThreshold | src/main/java/com/scanner/processor/EdgeDetector.java:117 | the threshold is at least 100, and above 100 only when it is at most a quarter of both image sides |
| EdgeDetector.HoughThresholdMonotone | src/main/java/com/scanner/processor/EdgeDetector.java:117 | a larger image never gets a lower threshold |
| EdgeDetector.ValidateCorners | src/main/java/com/scanner/processor/EdgeDetector.java:329-351 | corners are valid exactly when there are four, each lies on a pixel of the image, and the enclosed area is at least 10% of the image; also stated on integers |
| EdgeDetector.EarlyChecksRedundant | src/main/java/com/scanner/processor/EdgeDetector.java:122-176 | the early exits (fewer than 4 lines, fewer than 2 of a kind before near-duplicates are dropped) never change the result; only the check after dropping matters |
| EdgeDetector.GroupExtremes | src/main/java/com/scanner/processor/EdgeDetector.java:168-187 | the two picked lines of a filtered group are input lines at least 30 apart that bound every kept line, and are the first and last line of every rho-sorted arrangement of the group |
| EdgeDetector.MainLinesChosen | src/main/java/com/scanner/processor/EdgeDetector.java:140-187 | the main lines are two vertical and two horizontal input lines, each pair at least 30 apart in rho and bounding its kept group, and are the ends of the sorted lists the source indexes |
| EdgeDetector.HoughCornersValid | src/main/java/com/scanner/processor/EdgeDetector.java:204-214 | Hough-path corners are the intersections of the main lines, lie inside the image and enclose at least 10% of it |
| EdgeDetector.DetectCornersWithHoughLines | src/main/java/com/scanner/processor/EdgeDetector.java:114-238 | with the dynamic threshold, the Hough path returns exactly the validated intersections of the main lines, or null |
| EdgeDetector.DetectCornersWithContours | src/main/java/com/scanner/processor/EdgeDetector.java:240-308 | the contour path returns the chosen four-vertex approximation in corner order, or null |
| EdgeDetector.ContourCornersFromQuad | src/main/java/com/scanner/processor/EdgeDetector.java:275-282 | contour-path corners are four vertices of the chosen approximation, and a permutation of them when the quadrant pass succeeds |
| EdgeDetector.DetectDocumentCorners | src/main/java/com/scanner/processor/EdgeDetector.java:86-112 | the result is the Hough path's corners when it finds any, else the contour path's, else null |
| EdgeDetector.DocumentCornersSource | src/main/java/com/scanner/processor/EdgeDetector.java:86-112 | detection fails exactly when both paths fail; detected corners are the Hough path's corners, which are valid, or a sorted contour quadrilateral |
| PerspectiveCorrector.Clamp | src/main/java/com/scanner/processor/PerspectiveCorrector.java:36-41 | a clamped corner lies inside any non-empty image, and a corner already inside is left unchanged |
| PerspectiveCorrector.ClampIdempotent | src/main/java/com/scanner/processor/PerspectiveCorrector.java:36-41 | clamping twice is the same as clamping once |
| PerspectiveCorrector.ClampAllInside | src/main/java/com/scanner/processor/PerspectiveCorrector.java:36-41 | corners all inside the image are not moved by the clamping loop |
| PerspectiveCorrector.ClampCorners | src/main/java/com/scanner/processor/PerspectiveCorrector.java:36-41 | the loop replaces each of the four corners in place by its clamped value |
| PerspectiveCorrector.SizeFloorExact | src/main/java/com/scanner/processor/PerspectiveCorrector.java:46-57 | for exact edge lengths, the longer of two is below 50 exactly when the larger squared length is below 2500, and its square is that squared length |
| PerspectiveCorrector.OutputWidthExact | src/main/java/com/scanner/processor/PerspectiveCorrector.java:46-48 | with an exact square root, maxWidth squared is the larger squared top or bottom edge, and maxWidth < 50 exactly when that is below 2500 |
| PerspectiveCorrector.OutputHeightExact | src/main/java/com/scanner/processor/PerspectiveCorrector.java:50-52 | with an exact square root, maxHeight squared is the larger squared left or right edge, and maxHeight < 50 exactly when that is below 2500 |
| PerspectiveCorrector.Round | src/main/java/com/scanner/processor/PerspectiveCorrector.java:97 | Math.round gives the integer within one half of its argument, halves rounded up |
| PerspectiveCorrector.AreaFloorExact | src/main/java/com/scanner/processor/PerspectiveCorrector.java:77-85 | the area is below 5% of the image exactly when ten times the shoelace sum is below the image area |
| PerspectiveCorrector.DestinationOrder | src/main/java/com/scanner/processor/PerspectiveCorrector.java:70-75 | for a positive size, the destination corners (0, 0), (W, 0), (W, H), (0, H) lie in the TL, TR, BR and BL quadrants of their own centroid, the order of the sorted source corners, and enclose W x H |
| PerspectiveCorrector.FindFourCorners | src/main/java/com/scanner/processor/PerspectiveCorrector.java:156-181 | it returns a fresh array holding the approximation's vertices when there are exactly four, and null otherwise |
| PerspectiveCorrector.FindContourCorners | src/main/java/com/scanner/processor/PerspectiveCorrector.java:123-154 | it returns the four vertices of the largest large-enough contour, unsorted, or null when there is none or it does not have four |
| PerspectiveCorrector.PreparedInImage | src/main/java/com/scanner/processor/PerspectiveCorrector.java:36-43 | clamped and sorted corners of a non-empty image all lie inside it |
| PerspectiveCorrector.RectifySorted | src/main/java/com/scanner/processor/PerspectiveCorrector.java:45-120 | after sorting: the 50-pixel size floor, the 5% area floor, the transform onto the destination rectangle of the output size, the warp at the rounded size and the 10 x 10 result floor, in the source's order; otherwise null |
| PerspectiveCorrector.RectifyChecks | src/main/java/com/scanner/processor/PerspectiveCorrector.java:45-108 | a successful rectification of sorted corners has an output at least 10 x 10 and spans of at least 50; the transform accepted the corners with their destination rectangle; the area is at least 5% of the image; the squared spans are at least 2500 for an exact square root |
| PerspectiveCorrector.CorrectPerspective | src/main/java/com/scanner/processor/PerspectiveCorrector.java:23-121 | the result is the rectification of the given or fallback corners; a caller's four-corner array is clamped and sorted in place; any other caller array is untouched |
| PerspectiveCorrector.RectifiedSuccess | src/main/java/com/scanner/processor/PerspectiveCorrector.java:23-121 | a returned image comes from a non-empty input and is at least 10 x 10; its corners lie inside the input, span at least 50 pixels each way, were accepted by the transform with their destination rectangle and enclose at least 5% of the input |
| PerspectiveCorrector.RectifiedCorrespondence | src/main/java/com/scanner/processor/PerspectiveCorrector.java:60-93 | when the quadrant pass succeeds, the transform of a successful correction received each sorted corner paired with the destination corner of the same quadrant: TL to (0, 0), TR to (W, 0), BR to (W, H), BL to (0, H) |
| PerspectiveCorrector.PreparedStable | src/main/java/com/scanner/processor/PerspectiveCorrector.java:29-43 | preparing corners that a successful quadrant pass produced gives them back unchanged: already clamped and already in order |

## Left out

- The OpenCV operations are parameters or data, not modelled. These are
  `HoughLines`, `findContours`, `contourArea`, `arcLength`, `approxPolyDP`,
  `getPerspectiveTransform` and `warpPerspective`. The preprocessing in
  `detectEdges` is left out too. The contours stand in for whatever
  `findContours` returns on the edge image or on the input.
- `intersection` (EdgeDetector.java:364-379) is a parameter. Its trigonometry,
  its parallel-line case and its rounding are floating point, not modelled.
- The angle conversion `Math.toDegrees` and the `float` storage of rho and
  theta are left out. A line carries its rho and its angle in degrees as
  exact reals.
- `Math.sqrt` is a parameter. The lemmas that compare the output size with
  2500 assume an exact square root, which ignores the rounding of the `double`
  result. `Math.pow(d, 2)` is taken as the exact square.
- PerspectiveCorrector.Rectify: the `(float)` casts in the source and
  destination points are left out. For the integer corner coordinates they
  are exact below 2^24. The cast of `maxWidth` and `maxHeight`
  (PerspectiveCorrector.java:72-74) rounds these square roots to `float`,
  for example 70.71067811865476 to 70.71068. The model leaves this rounding
  out and hands the transform the unrounded sizes.
- Java `int` overflow is not modelled. This covers `cols * rows` and the
  products in the shoelace sum, which overflow only for coordinates above
  about 46,000. Integers are unbounded in the model.
- `Double.compare` on NaN or -0.0 in the rho sort is left out. Rho values are
  exact reals.
- HoughLines.LowestIndex and HoughLines.HighestIndex model the `List.sort`
  followed by taking the first and last element. They pick the least- and
  greatest-rho lines instead. HoughLines.SortedEnds shows that any rho-sorted
  arrangement of a filtered group has exactly these lines at its ends.
- Reading the approximation's vertices through `getDouble` is left out. The
  model takes the vertices as integer points.
- Exceptions, logging (`System.out`, `System.err`), the debug images written
  with `imwrite`, and `release` calls are left out. The source turns an
  exception in the Hough path, the contour path, `findContourCorners` or
  `findFourCorners` into null (EdgeDetector.java:234-237 and 304-307,
  PerspectiveCorrector.java:150-153 and 177-180). The line and contour
  parameters have no failure value, so the model meets such a failure only
  as an empty line list, an empty contour list or an approximation without
  four vertices, each of which also gives null. Only two calls fail as
  `None`: `getPerspectiveTransform` returning an empty matrix
  (PerspectiveCorrector.java:88) and `warpPerspective` returning an empty
  result or throwing (PerspectiveCorrector.java:104-113).
- An exception thrown by `getPerspectiveTransform` is not modelled. The call at
  PerspectiveCorrector.java:87 is outside the `try` of lines 99-118, so such an
  exception escapes `correctPerspective` to its caller instead of becoming
  null.
- `ScannerProcessor`, `ImageFilter`, `ExportHandler`, `ImageController` and
  `DocumentScannerApp` are not part of this model.
