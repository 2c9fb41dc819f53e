/**
 * Corner detection of the edge detector: the Hough-line path (classify the
 * lines, drop near-duplicates, take the extreme line on each side, intersect
 * them and check the four corners), and the contour fallback used when the
 * Hough path finds nothing.
 */
module EdgeDetector {
  import opened Wrappers
  import opened Geometry
  import opened CornerOrder
  import opened HoughLines
  import opened Contours

  /** A line closer than this in rho to a line already kept in its group is dropped. */
  const LineTolerance: real := 30.0

  /**
   * The vote threshold handed to the Hough transform: a quarter of the
   * shorter image side, but never below 100.
   */
  function HoughThreshold(cols: nat, rows: nat): (t: nat)
    ensures t >= 100
    ensures t > 100 ==> 4 * t <= cols && 4 * t <= rows
  {
    var quarter := Min(cols, rows) / 4;
    if quarter > 100 then quarter else 100
  }

  /** A larger image never gets a lower threshold. */
  lemma HoughThresholdMonotone(cols: nat, rows: nat, cols': nat, rows': nat)
    requires cols <= cols' && rows <= rows'
    ensures HoughThreshold(cols, rows) <= HoughThreshold(cols', rows')
  {
    var m, m' := Min(cols, rows), Min(cols', rows');
    assert m <= m';
    assert m / 4 <= m' / 4;
  }

  // ---------------------------------------------------------------------------
  // Corner validation
  // ---------------------------------------------------------------------------

  /** Four corners inside the image whose quadrilateral covers at least 10% of it, on integers. */
  predicate CornersValid(s: seq<Point>, width: nat, height: nat) {
    && |s| == 4
    && (forall k :: 0 <= k < 4 ==> InImage(s[k], width, height))
    && 5 * TwiceArea(s) >= width * height
  }

  /**
   * validateCorners: four corners, each on a pixel of the image, enclosing at
   * least a tenth of the image area. The second postcondition is the same
   * decision on integers.
   */
  method ValidateCorners(corners: array?<Point>, width: nat, height: nat) returns (valid: bool)
    ensures valid <==>
      && corners != null && corners.Length == 4
      && (forall k :: 0 <= k < 4 ==> InImage(corners[k], width, height))
      && TwiceArea(corners[..]) as real / 2.0 >= (width * height) as real * 0.1
    ensures valid <==> corners != null && CornersValid(corners[..], width, height)
  {
    if corners == null || corners.Length != 4 {
      return false;
    }
    for i := 0 to 4
      invariant forall k :: 0 <= k < i ==> InImage(corners[k], width, height)
    {
      var corner := corners[i];
      if corner.x < 0 || corner.x >= width || corner.y < 0 || corner.y >= height {
        return false;
      }
    }
    var area := QuadrilateralArea(corners);
    var imageArea := (width * height) as real;
    AreaBelowFractionIff(TwiceArea(corners[..]), width * height, 10);
    if area < imageArea * 0.1 {
      return false;
    }
    return true;
  }

  // ---------------------------------------------------------------------------
  // The Hough-line path
  // ---------------------------------------------------------------------------

  /**
   * The four main lines: least- and greatest-rho vertical, least- and
   * greatest-rho horizontal, after dropping near-duplicates; None when there
   * are fewer than four lines, or fewer than two of either kind before or
   * after dropping near-duplicates.
   */
  function MainLines(lines: seq<Line>): (m: Option<seq<Line>>)
    ensures m.Some? ==> |m.value| == 4
  {
    if |lines| < 4 then None
    else
      var verticals, horizontals := Verticals(lines), Horizontals(lines);
      if |verticals| < 2 || |horizontals| < 2 then None
      else
        var v, h := FilterSimilar(verticals, LineTolerance), FilterSimilar(horizontals, LineTolerance);
        if |v| < 2 || |h| < 2 then None
        else Some([v[LowestIndex(v)], v[HighestIndex(v)], h[LowestIndex(h)], h[HighestIndex(h)]])
  }

  /** The same choice with only the count check after near-duplicates are dropped. */
  function MainLinesAfterFiltering(lines: seq<Line>): Option<seq<Line>> {
    var v := FilterSimilar(Verticals(lines), LineTolerance);
    var h := FilterSimilar(Horizontals(lines), LineTolerance);
    if |v| < 2 || |h| < 2 then None
    else Some([v[LowestIndex(v)], v[HighestIndex(v)], h[LowestIndex(h)], h[HighestIndex(h)]])
  }

  /**
   * The early exits (fewer than four lines, fewer than two of a kind before
   * dropping near-duplicates) never change the outcome: dropping only removes lines, and no
   * line is both vertical and horizontal.
   */
  lemma {:induction false} EarlyChecksRedundant(lines: seq<Line>)
    ensures MainLines(lines) == MainLinesAfterFiltering(lines)
  {
    FilterSubsequence(Verticals(lines), LineTolerance);
    FilterSubsequence(Horizontals(lines), LineTolerance);
    ClassificationSizes(lines);
  }

  /**
   * The least- and greatest-rho lines of a filtered group of at least two: at
   * least the tolerance apart, bounding every line of the group, and the ends
   * of every rho-sorted arrangement of the group.
   */
  lemma {:induction false} GroupExtremes(group: seq<Line>)
    requires |FilterSimilar(group, LineTolerance)| >= 2
    ensures var v := FilterSimilar(group, LineTolerance);
      var lo, hi := v[LowestIndex(v)], v[HighestIndex(v)];
      && lo in group && hi in group
      && hi.rho - lo.rho >= LineTolerance
      && (forall l :: l in v ==> lo.rho <= l.rho <= hi.rho)
      && (forall t :: multiset(t) == multiset(v) && SortedByRho(t) ==> |t| > 0 && t[0] == lo && t[|t| - 1] == hi)
  {
    var v := FilterSimilar(group, LineTolerance);
    FilterSubsequence(group, LineTolerance);
    FilterSeparated(group, LineTolerance);
    ExtremesApart(v, LineTolerance);
    forall l | l in v
      ensures v[LowestIndex(v)].rho <= l.rho <= v[HighestIndex(v)].rho
    {
      var k :| 0 <= k < |v| && v[k] == l;
    }
    forall t | multiset(t) == multiset(v) && SortedByRho(t)
      ensures |t| > 0 && t[0] == v[LowestIndex(v)] && t[|t| - 1] == v[HighestIndex(v)]
    {
      SortedEnds(v, t, LineTolerance);
    }
  }

  /**
   * The main lines are input lines of the right kinds; the two verticals and
   * the two horizontals are each at least the tolerance apart and bound every
   * kept line of their group; and any rho-sorted arrangement of a kept group
   * starts and ends with the chosen pair, as the sort in the source does.
   */
  lemma {:induction false} MainLinesChosen(lines: seq<Line>)
    requires MainLines(lines).Some?
    ensures var m := MainLines(lines).value;
      && m[0] in lines && m[1] in lines && IsVertical(m[0]) && IsVertical(m[1])
      && m[2] in lines && m[3] in lines && IsHorizontal(m[2]) && IsHorizontal(m[3])
      && m[1].rho - m[0].rho >= LineTolerance && m[3].rho - m[2].rho >= LineTolerance
    ensures var m, v := MainLines(lines).value, FilterSimilar(Verticals(lines), LineTolerance);
      && (forall l :: l in v ==> m[0].rho <= l.rho <= m[1].rho)
      && (forall t :: multiset(t) == multiset(v) && SortedByRho(t) ==> |t| > 0 && t[0] == m[0] && t[|t| - 1] == m[1])
    ensures var m, h := MainLines(lines).value, FilterSimilar(Horizontals(lines), LineTolerance);
      && (forall l :: l in h ==> m[2].rho <= l.rho <= m[3].rho)
      && (forall t :: multiset(t) == multiset(h) && SortedByRho(t) ==> |t| > 0 && t[0] == m[2] && t[|t| - 1] == m[3])
  {
    ClassificationMembership(lines);
    GroupExtremes(Verticals(lines));
    GroupExtremes(Horizontals(lines));
  }

  /** The intersections of the main lines: left-top, right-top, right-bottom, left-bottom. */
  function LineCorners(m: seq<Line>, intersect: (Line, Line) -> Point): (c: seq<Point>)
    requires |m| == 4
    ensures |c| == 4
  {
    [intersect(m[0], m[2]), intersect(m[1], m[2]), intersect(m[1], m[3]), intersect(m[0], m[3])]
  }

  /** What the Hough path returns: the corners of the main lines, when they pass validation. */
  function HoughCorners(image: Image, lines: seq<Line>, intersect: (Line, Line) -> Point): Option<seq<Point>> {
    match MainLines(lines)
    case None => None
    case Some(m) =>
      var corners := LineCorners(m, intersect);
      if CornersValid(corners, image.cols, image.rows) then Some(corners) else None
  }

  /**
   * Corners from the Hough path are four points inside the image enclosing at
   * least a tenth of it, where the main vertical and horizontal lines meet.
   */
  lemma HoughCornersValid(image: Image, lines: seq<Line>, intersect: (Line, Line) -> Point)
    requires HoughCorners(image, lines, intersect).Some?
    ensures var c := HoughCorners(image, lines, intersect).value;
      && |c| == 4
      && (forall k :: 0 <= k < 4 ==> InImage(c[k], image.cols, image.rows))
      && TwiceArea(c) as real / 2.0 >= (image.cols * image.rows) as real * 0.1
      && MainLines(lines).Some? && c == LineCorners(MainLines(lines).value, intersect)
  {
    var c := HoughCorners(image, lines, intersect).value;
    AreaBelowFractionIff(TwiceArea(c), image.cols * image.rows, 10);
  }

  /**
   * detectCornersWithHoughLines: the lines come from the Hough transform
   * (a parameter of the model) run with the dynamic threshold; the sort by rho
   * followed by taking the first and last line is the least/greatest-rho pick
   * (see MainLinesChosen).
   */
  method DetectCornersWithHoughLines(image: Image, houghLines: nat -> seq<Line>, intersect: (Line, Line) -> Point)
    returns (corners: array?<Point>)
    ensures corners == null <==> HoughCorners(image, houghLines(HoughThreshold(image.cols, image.rows)), intersect).None?
    ensures corners != null ==>
      fresh(corners) && corners[..] == HoughCorners(image, houghLines(HoughThreshold(image.cols, image.rows)), intersect).value
  {
    var threshold := HoughThreshold(image.cols, image.rows);
    var lines := houghLines(threshold);
    if |lines| < 4 {
      return null;
    }
    var verticals, horizontals := ClassifyLines(lines);
    if |verticals| < 2 || |horizontals| < 2 {
      return null;
    }
    verticals := FilterSimilarLines(verticals, LineTolerance);
    horizontals := FilterSimilarLines(horizontals, LineTolerance);
    if |verticals| < 2 || |horizontals| < 2 {
      return null;
    }
    var mainLines := [verticals[LowestIndex(verticals)], verticals[HighestIndex(verticals)],
                      horizontals[LowestIndex(horizontals)], horizontals[HighestIndex(horizontals)]];
    assert MainLines(lines) == Some(mainLines);
    corners := new Point[4];
    corners[0] := intersect(mainLines[0], mainLines[2]);
    corners[1] := intersect(mainLines[1], mainLines[2]);
    corners[2] := intersect(mainLines[1], mainLines[3]);
    corners[3] := intersect(mainLines[0], mainLines[3]);
    assert corners[..] == LineCorners(mainLines, intersect);
    var valid := ValidateCorners(corners, image.cols, image.rows);
    if !valid {
      return null;
    }
  }

  // ---------------------------------------------------------------------------
  // The contour fallback
  // ---------------------------------------------------------------------------

  /** What the contour fallback returns: the chosen quadrilateral, put in corner order. */
  function ContourCorners(image: Image, contours: seq<Contour>): Option<seq<Point>> {
    match ContourQuad(contours, image.cols * image.rows)
    case None => None
    case Some(q) => Some(SortedCorners(q))
  }

  /** detectCornersWithContours, over the contours found in the edge image. */
  method DetectCornersWithContours(image: Image, contours: seq<Contour>) returns (corners: array?<Point>)
    ensures corners == null <==> ContourCorners(image, contours).None?
    ensures corners != null ==> fresh(corners) && corners[..] == ContourCorners(image, contours).value
  {
    var largest := LargestContour(contours, image.cols * image.rows);
    if largest.None? {
      return null;
    }
    var approx := largest.value.vertices;
    if |approx| != 4 {
      return null;
    }
    corners := new Point[4];
    for i := 0 to 4
      invariant corners[..i] == approx[..i]
    {
      corners[i] := approx[i];
    }
    assert corners[..] == approx;
    SortCorners(corners);
  }

  /** Contour-fallback corners are vertices of the chosen contour, in corner order. */
  lemma ContourCornersFromQuad(image: Image, contours: seq<Contour>)
    requires ContourCorners(image, contours).Some?
    ensures var c, q := ContourCorners(image, contours).value, ContourQuad(contours, image.cols * image.rows);
      && q.Some? && |c| == 4
      && (forall k :: 0 <= k < 4 ==> c[k] in q.value)
      && (QuadrantSuccess(q.value) ==> multiset(c) == multiset(q.value))
  {
    var q := ContourQuad(contours, image.cols * image.rows).value;
    assert ContourCorners(image, contours).value == SortedCorners(q);
    if QuadrantSuccess(q) {
      QuadrantOrder(q);
    }
  }

  // ---------------------------------------------------------------------------
  // detectDocumentCorners
  // ---------------------------------------------------------------------------

  /** The Hough path's corners when it finds any, otherwise the contour fallback's. */
  function DocumentCorners(image: Image, lines: seq<Line>, intersect: (Line, Line) -> Point,
                           contours: seq<Contour>): Option<seq<Point>>
  {
    var fromLines := HoughCorners(image, lines, intersect);
    if fromLines.Some? then fromLines else ContourCorners(image, contours)
  }

  /**
   * detectDocumentCorners: the edge image is left out; the Hough transform over
   * it and the contours found in it are parameters.
   */
  method DetectDocumentCorners(image: Image, houghLines: nat -> seq<Line>, intersect: (Line, Line) -> Point,
                               contours: seq<Contour>) returns (corners: array?<Point>)
    ensures var lines := houghLines(HoughThreshold(image.cols, image.rows));
      corners == null <==> DocumentCorners(image, lines, intersect, contours).None?
    ensures var lines := houghLines(HoughThreshold(image.cols, image.rows));
      corners != null ==> fresh(corners) && corners[..] == DocumentCorners(image, lines, intersect, contours).value
  {
    corners := DetectCornersWithHoughLines(image, houghLines, intersect);
    if corners != null {
      return;
    }
    corners := DetectCornersWithContours(image, contours);
  }

  /**
   * Detected corners are four points: either the Hough path's valid corners or a
   * large-enough contour's quadrilateral in corner order; there are none only
   * when both paths fail.
   */
  lemma DocumentCornersSource(image: Image, lines: seq<Line>, intersect: (Line, Line) -> Point,
                              contours: seq<Contour>)
    ensures DocumentCorners(image, lines, intersect, contours).None? <==>
      HoughCorners(image, lines, intersect).None? && ContourQuad(contours, image.cols * image.rows).None?
    ensures DocumentCorners(image, lines, intersect, contours).Some? ==>
      var c := DocumentCorners(image, lines, intersect, contours).value;
      || (HoughCorners(image, lines, intersect) == Some(c) && CornersValid(c, image.cols, image.rows))
      || c == SortedCorners(ContourQuad(contours, image.cols * image.rows).value)
  {
  }
}
