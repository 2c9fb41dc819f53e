/**
 * The decisions of the perspective corrector around the warp: fall back to
 * the largest contour when no usable corners are given, clamp the corners
 * into the image, put them in corner order, reject quadrilaterals that are too
 * narrow, too short or too small, and reject a warped result under 10 x 10.
 */
module PerspectiveCorrector {
  import opened Wrappers
  import opened Geometry
  import opened CornerOrder
  import opened Contours

  /** The 3 x 3 matrix getPerspectiveTransform computes; only passed on to the warp. */
  datatype Homography = Homography(entries: seq<real>)

  /** A point with real coordinates, as in the destination rectangle. */
  datatype RealPoint = RealPoint(x: real, y: real)

  // ---------------------------------------------------------------------------
  // Clamping
  // ---------------------------------------------------------------------------

  /** Each coordinate pulled into [0, cols - 1] and [0, rows - 1]. */
  function Clamp(p: Point, cols: nat, rows: nat): (q: Point)
    ensures cols >= 1 && rows >= 1 ==> InImage(q, cols, rows)
    ensures InImage(p, cols, rows) ==> q == p
  {
    Point(Max(0, Min(p.x, cols - 1)), Max(0, Min(p.y, rows - 1)))
  }

  /** Clamping twice is clamping once. */
  lemma ClampIdempotent(p: Point, cols: nat, rows: nat)
    ensures Clamp(Clamp(p, cols, rows), cols, rows) == Clamp(p, cols, rows)
  {
  }

  function ClampAll(s: seq<Point>, cols: nat, rows: nat): (r: seq<Point>)
    ensures |r| == |s| && forall i :: 0 <= i < |s| ==> r[i] == Clamp(s[i], cols, rows)
  {
    seq(|s|, i requires 0 <= i < |s| => Clamp(s[i], cols, rows))
  }

  /** Points already inside a non-empty image are left where they are. */
  lemma ClampAllInside(s: seq<Point>, cols: nat, rows: nat)
    requires forall i :: 0 <= i < |s| ==> InImage(s[i], cols, rows)
    ensures ClampAll(s, cols, rows) == s
  {
  }

  // ---------------------------------------------------------------------------
  // Output size, area floor and destination rectangle
  // ---------------------------------------------------------------------------

  /** The squared output width: the longer of the top and bottom edges, squared. */
  function WidthSq(c: seq<Point>): nat
    requires |c| == 4
  {
    Max(SqDist(c[0], c[1]), SqDist(c[2], c[3]))
  }

  /** The squared output height: the longer of the left and right edges, squared. */
  function HeightSq(c: seq<Point>): nat
    requires |c| == 4
  {
    Max(SqDist(c[0], c[3]), SqDist(c[1], c[2]))
  }

  /**
   * Math.sqrt as the model takes it, a parameter: exact on the squared
   * distances it is applied to.
   */
  ghost predicate ExactSqrt(sqrt: nat -> real) {
    forall n: nat :: sqrt(n) >= 0.0 && sqrt(n) * sqrt(n) == n as real
  }

  /** maxWidth: the longer of the top and bottom edges, each measured with sqrt. */
  function OutputWidth(c: seq<Point>, sqrt: nat -> real): real
    requires |c| == 4
  {
    RealMax(sqrt(SqDist(c[0], c[1])), sqrt(SqDist(c[2], c[3])))
  }

  /** maxHeight: the longer of the left and right edges, each measured with sqrt. */
  function OutputHeight(c: seq<Point>, sqrt: nat -> real): real
    requires |c| == 4
  {
    RealMax(sqrt(SqDist(c[0], c[3])), sqrt(SqDist(c[1], c[2])))
  }

  /**
   * The size floor on the true distances: with a, b the lengths of two
   * opposite edges, max(a, b) < 50 exactly when both squared lengths, and so
   * their maximum, are below 2500.
   */
  lemma SizeFloorExact(a: real, b: real, sqA: nat, sqB: nat)
    requires a >= 0.0 && a * a == sqA as real
    requires b >= 0.0 && b * b == sqB as real
    ensures RealMax(a, b) < 50.0 <==> Max(sqA, sqB) < 2500
    ensures RealMax(a, b) * RealMax(a, b) == Max(sqA, sqB) as real
  {
    DistanceBelowIff(a, sqA, 50);
    DistanceBelowIff(b, sqB, 50);
    if a >= b {
      assert a * a >= a * b >= b * b;
    } else {
      assert b * b >= b * a >= a * a;
    }
  }

  lemma SqrtOf(sqrt: nat -> real, n: nat)
    requires ExactSqrt(sqrt)
    ensures sqrt(n) >= 0.0 && sqrt(n) * sqrt(n) == n as real
  {
  }

  /** The longer of two edges, measured with an exact square root, against its squared length. */
  lemma LongerEdgeExact(sqrt: nat -> real, sqA: nat, sqB: nat)
    requires ExactSqrt(sqrt)
    ensures RealMax(sqrt(sqA), sqrt(sqB)) * RealMax(sqrt(sqA), sqrt(sqB)) == Max(sqA, sqB) as real
    ensures RealMax(sqrt(sqA), sqrt(sqB)) < 50.0 <==> Max(sqA, sqB) < 2500
  {
    SqrtOf(sqrt, sqA);
    SqrtOf(sqrt, sqB);
    SizeFloorExact(sqrt(sqA), sqrt(sqB), sqA, sqB);
  }

  /** With an exact square root, the output width is the square root of WidthSq. */
  lemma OutputWidthExact(c: seq<Point>, sqrt: nat -> real)
    requires |c| == 4 && ExactSqrt(sqrt)
    ensures OutputWidth(c, sqrt) * OutputWidth(c, sqrt) == WidthSq(c) as real
    ensures OutputWidth(c, sqrt) < 50.0 <==> WidthSq(c) < 2500
  {
    var top, bottom := SqDist(c[0], c[1]), SqDist(c[2], c[3]);
    var w := OutputWidth(c, sqrt);
    assert w == RealMax(sqrt(top), sqrt(bottom)) && WidthSq(c) == Max(top, bottom);
    LongerEdgeExact(sqrt, top, bottom);
    assert w * w == Max(top, bottom) as real;
  }

  /** With an exact square root, the output height is the square root of HeightSq. */
  lemma OutputHeightExact(c: seq<Point>, sqrt: nat -> real)
    requires |c| == 4 && ExactSqrt(sqrt)
    ensures OutputHeight(c, sqrt) * OutputHeight(c, sqrt) == HeightSq(c) as real
    ensures OutputHeight(c, sqrt) < 50.0 <==> HeightSq(c) < 2500
  {
    var left, right := SqDist(c[0], c[3]), SqDist(c[1], c[2]);
    var h := OutputHeight(c, sqrt);
    assert h == RealMax(sqrt(left), sqrt(right)) && HeightSq(c) == Max(left, right);
    LongerEdgeExact(sqrt, left, right);
    assert h * h == Max(left, right) as real;
  }

  /** Math.round: the nearest integer, halves rounded up. */
  function Round(r: real): (n: int)
    ensures n as real <= r + 0.5 < n as real + 1.0
  {
    (r + 0.5).Floor
  }

  /** The area floor: half the shoelace sum below 5% of the image is 10 |S| < cols * rows. */
  lemma AreaFloorExact(c: seq<Point>, cols: nat, rows: nat)
    requires |c| == 4
    ensures TwiceArea(c) as real / 2.0 < (cols * rows) as real * 0.05 <==> 10 * TwiceArea(c) < cols * rows
  {
    AreaBelowFractionIff(TwiceArea(c), cols * rows, 20);
  }

  /**
   * The rectangle the corners are paired with: (0, 0), (W, 0), (W, H), (0, H)
   * for the top-left, top-right, bottom-right and bottom-left corner.
   */
  function DestinationCorners(width: real, height: real): seq<RealPoint> {
    [RealPoint(0.0, 0.0), RealPoint(width, 0.0), RealPoint(width, height), RealPoint(0.0, height)]
  }

  /** The quadrant of p against the centroid of the four points d, as sortCorners decides it. */
  function RealRoleOf(p: RealPoint, d: seq<RealPoint>): Role
    requires |d| == 4
  {
    var sx, sy := d[0].x + d[1].x + d[2].x + d[3].x, d[0].y + d[1].y + d[2].y + d[3].y;
    if 4.0 * p.x <= sx && 4.0 * p.y <= sy then TopLeft
    else if 4.0 * p.x > sx && 4.0 * p.y <= sy then TopRight
    else if 4.0 * p.x <= sx && 4.0 * p.y > sy then BottomLeft
    else BottomRight
  }

  /**
   * For a positive size, the destination corners fall into the top-left,
   * top-right, bottom-right and bottom-left quadrants of their own centroid,
   * the order sortCorners gives the source corners, and enclose width x height.
   */
  lemma DestinationOrder(width: real, height: real)
    requires width > 0.0 && height > 0.0
    ensures var d := DestinationCorners(width, height);
      && RealRoleOf(d[0], d) == TopLeft && RealRoleOf(d[1], d) == TopRight
      && RealRoleOf(d[2], d) == BottomRight && RealRoleOf(d[3], d) == BottomLeft
    ensures var d := DestinationCorners(width, height);
      (d[0].x * d[1].y - d[1].x * d[0].y) + (d[1].x * d[2].y - d[2].x * d[1].y)
      + (d[2].x * d[3].y - d[3].x * d[2].y) + (d[3].x * d[0].y - d[0].x * d[3].y) == 2.0 * width * height
  {
  }

  // ---------------------------------------------------------------------------
  // The contour fallback of the corrector
  // ---------------------------------------------------------------------------

  /** findFourCorners: the approximation's vertices when it has exactly four. */
  method FindFourCorners(contour: Contour) returns (corners: array?<Point>)
    ensures corners == null <==> |contour.vertices| != 4
    ensures corners != null ==> fresh(corners) && corners[..] == contour.vertices
  {
    var approx := contour.vertices;
    if |approx| != 4 {
      return null;
    }
    corners := new Point[4];
    for i := 0 to 4
      invariant corners[..i] == approx[..i]
    {
      corners[i] := approx[i];
    }
    assert corners[..] == approx;
  }

  /** findContourCorners, over the contours found in the input image; no sorting here. */
  method FindContourCorners(image: Image, contours: seq<Contour>) returns (corners: array?<Point>)
    ensures corners == null <==> ContourQuad(contours, image.cols * image.rows).None?
    ensures corners != null ==> fresh(corners) && corners[..] == ContourQuad(contours, image.cols * image.rows).value
  {
    var largest := LargestContour(contours, image.cols * image.rows);
    if largest.None? {
      return null;
    }
    corners := FindFourCorners(largest.value);
  }

  // ---------------------------------------------------------------------------
  // correctPerspective
  // ---------------------------------------------------------------------------

  /** The corners the corrector starts from: the given four, or else the contour fallback's. */
  function StartCorners(image: Image, given: Option<seq<Point>>, contours: seq<Contour>): (s: Option<seq<Point>>)
    ensures s.Some? ==> |s.value| == 4
  {
    if given.Some? && |given.value| == 4 then given else ContourQuad(contours, image.cols * image.rows)
  }

  /** The starting corners clamped into the image and put in corner order. */
  function PreparedCorners(image: Image, given: Option<seq<Point>>, contours: seq<Contour>): (c: Option<seq<Point>>)
    ensures c.Some? ==> |c.value| == 4
  {
    match StartCorners(image, given, contours)
    case None => None
    case Some(s) => Some(SortedCorners(ClampAll(s, image.cols, image.rows)))
  }

  /** Clamped and ordered corners of a non-empty image lie inside it. */
  lemma {:induction false} PreparedInImage(s: seq<Point>, cols: nat, rows: nat)
    requires |s| == 4 && cols >= 1 && rows >= 1
    ensures forall k :: 0 <= k < 4 ==> InImage(SortedCorners(ClampAll(s, cols, rows))[k], cols, rows)
  {
    var clamped := ClampAll(s, cols, rows);
    var c := SortedCorners(clamped);
    forall k | 0 <= k < 4
      ensures InImage(c[k], cols, rows)
    {
      var j :| 0 <= j < 4 && clamped[j] == c[k];
    }
  }

  /**
   * The checks around the warp, on corners already in corner order. The
   * transform maps the corners onto the destination rectangle of the output
   * size; the warp produces an image of that size rounded to whole pixels.
   */
  function Rectify(image: Image, c: seq<Point>, sqrt: nat -> real,
                   transform: (seq<Point>, seq<RealPoint>) -> Option<Homography>,
                   warp: (Image, Homography, nat, nat) -> Option<Image>): Option<Image>
    requires |c| == 4
  {
    var width, height := OutputWidth(c, sqrt), OutputHeight(c, sqrt);
    if width < 50.0 || height < 50.0 then None
    else if 10 * TwiceArea(c) < image.cols * image.rows then None
    else match transform(c, DestinationCorners(width, height))
      case None => None
      case Some(t) =>
        match warp(image, t, Round(width) as nat, Round(height) as nat)
        case None => None
        case Some(out) => if Empty(out) || out.cols < 10 || out.rows < 10 then None else Some(out)
  }

  /** What correctPerspective returns. */
  function Rectified(input: Option<Image>, given: Option<seq<Point>>, contours: seq<Contour>, sqrt: nat -> real,
                     transform: (seq<Point>, seq<RealPoint>) -> Option<Homography>,
                     warp: (Image, Homography, nat, nat) -> Option<Image>): Option<Image>
  {
    if input.None? || Empty(input.value) then None
    else match PreparedCorners(input.value, given, contours)
      case None => None
      case Some(c) => Rectify(input.value, c, sqrt, transform, warp)
  }

  /**
   * correctPerspective. Math.sqrt, the perspective transform and the warp are
   * parameters. When the caller's array holds four corners it is clamped and
   * sorted in place, as in the source.
   */
  method CorrectPerspective(input: Option<Image>, corners: array?<Point>, contours: seq<Contour>, sqrt: nat -> real,
                            transform: (seq<Point>, seq<RealPoint>) -> Option<Homography>,
                            warp: (Image, Homography, nat, nat) -> Option<Image>)
    returns (result: Option<Image>)
    modifies corners
    ensures result == Rectified(input, if corners == null then None else Some(old(corners[..])), contours, sqrt, transform, warp)
    ensures corners != null && corners.Length == 4 && input.Some? && !Empty(input.value) ==>
      corners[..] == SortedCorners(ClampAll(old(corners[..]), input.value.cols, input.value.rows))
    ensures corners != null && !(corners.Length == 4 && input.Some? && !Empty(input.value)) ==>
      corners[..] == old(corners[..])
  {
    if input.None? || Empty(input.value) {
      return None;
    }
    var image := input.value;
    ghost var given := if corners == null then None else Some(corners[..]);
    var work: array<Point>;
    if corners == null || corners.Length != 4 {
      var found := FindContourCorners(image, contours);
      if found == null {
        return None;
      }
      work := found;
    } else {
      work := corners;
    }
    assert StartCorners(image, given, contours) == Some(work[..]);
    ClampCorners(work, image.cols, image.rows);
    SortCorners(work);
    assert PreparedCorners(image, given, contours) == Some(work[..]);
    result := RectifySorted(image, work, sqrt, transform, warp);
  }

  /** The clamping loop of correctPerspective. */
  method ClampCorners(corners: array<Point>, cols: nat, rows: nat)
    requires corners.Length == 4
    modifies corners
    ensures corners[..] == ClampAll(old(corners[..]), cols, rows)
  {
    for i := 0 to 4
      invariant forall k :: 0 <= k < i ==> corners[k] == Clamp(old(corners[k]), cols, rows)
      invariant forall k :: i <= k < 4 ==> corners[k] == old(corners[k])
    {
      corners[i] := Clamp(corners[i], cols, rows);
    }
  }

  /**
   * The part of correctPerspective after sorting: output size and its floor,
   * destination rectangle, area floor, transform, warp at the rounded size,
   * result floor.
   */
  method RectifySorted(image: Image, corners: array<Point>, sqrt: nat -> real,
                       transform: (seq<Point>, seq<RealPoint>) -> Option<Homography>,
                       warp: (Image, Homography, nat, nat) -> Option<Image>)
    returns (result: Option<Image>)
    requires corners.Length == 4
    ensures result == Rectify(image, corners[..], sqrt, transform, warp)
  {
    var widthA, widthB := sqrt(SqDist(corners[0], corners[1])), sqrt(SqDist(corners[2], corners[3]));
    var maxWidth := RealMax(widthA, widthB);
    var heightA, heightB := sqrt(SqDist(corners[0], corners[3])), sqrt(SqDist(corners[1], corners[2]));
    var maxHeight := RealMax(heightA, heightB);
    if maxWidth < 50.0 || maxHeight < 50.0 {
      return None;
    }
    var destination := DestinationCorners(maxWidth, maxHeight);
    var area := QuadrilateralArea(corners);
    var minArea := (image.cols * image.rows) as real * 0.05;
    AreaFloorExact(corners[..], image.cols, image.rows);
    if area < minArea {
      return None;
    }
    var perspectiveTransform := transform(corners[..], destination);
    if perspectiveTransform.None? {
      return None;
    }
    var outputWidth, outputHeight := Round(maxWidth), Round(maxHeight);
    var warped := warp(image, perspectiveTransform.value, outputWidth, outputHeight);
    if warped.None? || Empty(warped.value) || warped.value.cols < 10 || warped.value.rows < 10 {
      return None;
    }
    result := warped;
  }

  /** What a successful Rectify has checked about the corners and the warped image. */
  lemma RectifyChecks(image: Image, c: seq<Point>, sqrt: nat -> real,
                      transform: (seq<Point>, seq<RealPoint>) -> Option<Homography>,
                      warp: (Image, Homography, nat, nat) -> Option<Image>)
    requires |c| == 4 && Rectify(image, c, sqrt, transform, warp).Some?
    ensures var out := Rectify(image, c, sqrt, transform, warp).value;
      out.cols >= 10 && out.rows >= 10
    ensures OutputWidth(c, sqrt) >= 50.0 && OutputHeight(c, sqrt) >= 50.0
    ensures transform(c, DestinationCorners(OutputWidth(c, sqrt), OutputHeight(c, sqrt))).Some?
    ensures TwiceArea(c) as real / 2.0 >= (image.cols * image.rows) as real * 0.05
    ensures ExactSqrt(sqrt) ==> WidthSq(c) >= 2500 && HeightSq(c) >= 2500
  {
    AreaFloorExact(c, image.cols, image.rows);
    if ExactSqrt(sqrt) {
      OutputWidthExact(c, sqrt);
      OutputHeightExact(c, sqrt);
    }
  }

  /**
   * A rectified image comes from a non-empty input and is at least 10 x 10.
   * The corners it was cut along lie inside the input, in corner order, and
   * enclose at least 5% of it. They span at least 50 pixels in each direction,
   * and the transform accepted them with the destination rectangle of that
   * size. With an exact square root, the squared spans are at least 2500.
   */
  lemma RectifiedSuccess(input: Option<Image>, given: Option<seq<Point>>, contours: seq<Contour>, sqrt: nat -> real,
                         transform: (seq<Point>, seq<RealPoint>) -> Option<Homography>,
                         warp: (Image, Homography, nat, nat) -> Option<Image>)
    requires Rectified(input, given, contours, sqrt, transform, warp).Some?
    ensures input.Some? && !Empty(input.value)
    ensures var out := Rectified(input, given, contours, sqrt, transform, warp).value;
      out.cols >= 10 && out.rows >= 10
    ensures var image := input.value;
      var c := PreparedCorners(image, given, contours);
      && c.Some?
      && (forall k :: 0 <= k < 4 ==> InImage(c.value[k], image.cols, image.rows))
      && OutputWidth(c.value, sqrt) >= 50.0 && OutputHeight(c.value, sqrt) >= 50.0
      && transform(c.value, DestinationCorners(OutputWidth(c.value, sqrt), OutputHeight(c.value, sqrt))).Some?
      && TwiceArea(c.value) as real / 2.0 >= (image.cols * image.rows) as real * 0.05
      && (ExactSqrt(sqrt) ==> WidthSq(c.value) >= 2500 && HeightSq(c.value) >= 2500)
  {
    var image := input.value;
    var c := PreparedCorners(image, given, contours).value;
    assert Rectified(input, given, contours, sqrt, transform, warp) == Rectify(image, c, sqrt, transform, warp);
    RectifyChecks(image, c, sqrt, transform, warp);
    NonEmptySides(image);
    assert StartCorners(image, given, contours).Some?;
    PreparedInImage(StartCorners(image, given, contours).value, image.cols, image.rows);
  }

  /**
   * When the quadrant pass succeeds, the transform of a successful correction
   * receives each corner paired with the destination corner of the same
   * quadrant: top-left with (0, 0), top-right with (W, 0), bottom-right with
   * (W, H) and bottom-left with (0, H).
   */
  lemma {:induction false} RectifiedCorrespondence(image: Image, given: Option<seq<Point>>, contours: seq<Contour>,
                                                    sqrt: nat -> real,
                                                    transform: (seq<Point>, seq<RealPoint>) -> Option<Homography>,
                                                    warp: (Image, Homography, nat, nat) -> Option<Image>)
    requires Rectified(Some(image), given, contours, sqrt, transform, warp).Some?
    requires StartCorners(image, given, contours).Some?
    requires QuadrantSuccess(ClampAll(StartCorners(image, given, contours).value, image.cols, image.rows))
    ensures var c := PreparedCorners(image, given, contours).value;
      var d := DestinationCorners(OutputWidth(c, sqrt), OutputHeight(c, sqrt));
      && transform(c, d).Some?
      && forall k :: 0 <= k < 4 ==> RealRoleOf(d[k], d) == RoleOf(c[k], SumX(c), SumY(c))
  {
    var clamped := ClampAll(StartCorners(image, given, contours).value, image.cols, image.rows);
    var c := SortedCorners(clamped);
    assert PreparedCorners(image, given, contours).value == c;
    QuadrantOrder(clamped);
    DestinationOrder(OutputWidth(c, sqrt), OutputHeight(c, sqrt));
  }

  /**
   * Preparing corners that came out of a preparation whose quadrant pass
   * succeeded gives them back unchanged: they are already inside the image
   * and already in corner order.
   */
  lemma {:induction false} PreparedStable(image: Image, given: Option<seq<Point>>, contours: seq<Contour>)
    requires !Empty(image)
    requires StartCorners(image, given, contours).Some?
    requires QuadrantSuccess(ClampAll(StartCorners(image, given, contours).value, image.cols, image.rows))
    ensures var c := PreparedCorners(image, given, contours);
      PreparedCorners(image, c, contours) == c
  {
    var clamped := ClampAll(StartCorners(image, given, contours).value, image.cols, image.rows);
    var c := SortedCorners(clamped);
    PreparedInImage(StartCorners(image, given, contours).value, image.cols, image.rows);
    ClampAllInside(c, image.cols, image.rows);
    SortCornersIdempotent(clamped);
    assert StartCorners(image, Some(c), contours) == Some(c);
  }
}
