/**
 * The canonical corner order of `sortCorners` (the EdgeDetector and the
 * PerspectiveCorrector hold identical private copies): top-left, top-right,
 * bottom-right, bottom-left, chosen first by quadrant against the centroid and,
 * when some quadrant stays empty, by the extremes of x + y and x - y.
 */
module CornerOrder {
  import opened Wrappers
  import opened Geometry

  datatype Role = TopLeft | TopRight | BottomLeft | BottomRight

  function SumX(s: seq<Point>): int {
    if s == [] then 0 else SumX(s[..|s| - 1]) + s[|s| - 1].x
  }

  function SumY(s: seq<Point>): int {
    if s == [] then 0 else SumY(s[..|s| - 1]) + s[|s| - 1].y
  }

  /** The coordinate sums of four points, written out. */
  lemma {:induction false} SumsOfFour(s: seq<Point>)
    requires |s| == 4
    ensures SumX(s) == s[0].x + s[1].x + s[2].x + s[3].x
    ensures SumY(s) == s[0].y + s[1].y + s[2].y + s[3].y
  {
    assert s[..1][..0] == [] && s[..2][..1] == s[..1] && s[..3][..2] == s[..2] && s[..4][..3] == s[..3];
    assert s[..4] == s;
    assert SumX(s[..1]) == s[0].x && SumY(s[..1]) == s[0].y;
    assert SumX(s[..2]) == s[0].x + s[1].x && SumY(s[..2]) == s[0].y + s[1].y;
    assert SumX(s[..3]) == s[0].x + s[1].x + s[2].x && SumY(s[..3]) == s[0].y + s[1].y + s[2].y;
  }

  /**
   * The quadrant of p against the centroid (sumX / 4, sumY / 4). The source
   * compares against the double centroid; `x <= sumX / 4.0` is `4 * x <= sumX`.
   */
  function RoleOf(p: Point, sumX: int, sumY: int): Role {
    if 4 * p.x <= sumX && 4 * p.y <= sumY then TopLeft
    else if 4 * p.x > sumX && 4 * p.y <= sumY then TopRight
    else if 4 * p.x <= sumX && 4 * p.y > sumY then BottomLeft
    else BottomRight
  }

  /** Index of the last point with the given role, or -1: later points overwrite earlier ones. */
  function LastWithRole(s: seq<Point>, role: Role, sumX: int, sumY: int): (r: int)
    ensures -1 <= r < |s|
    ensures r >= 0 ==> RoleOf(s[r], sumX, sumY) == role
    ensures forall j :: r < j < |s| ==> RoleOf(s[j], sumX, sumY) != role
  {
    if s == [] then -1
    else if RoleOf(s[|s| - 1], sumX, sumY) == role then |s| - 1
    else LastWithRole(s[..|s| - 1], role, sumX, sumY)
  }

  /** The point a role variable of the source holds: null when no point took the role. */
  function Held(s: seq<Point>, i: int): Option<Point>
    requires i < |s|
  {
    if i < 0 then None else Some(s[i])
  }

  /** The x + y of each point, the key of the top-left and bottom-right fallback. */
  function SumKeys(s: seq<Point>): (k: seq<int>)
    ensures |k| == |s| && forall i :: 0 <= i < |s| ==> k[i] == s[i].x + s[i].y
  {
    seq(|s|, i requires 0 <= i < |s| => s[i].x + s[i].y)
  }

  /** The x - y of each point, the key of the top-right and bottom-left fallback. */
  function DiffKeys(s: seq<Point>): (k: seq<int>)
    ensures |k| == |s| && forall i :: 0 <= i < |s| ==> k[i] == s[i].x - s[i].y
  {
    seq(|s|, i requires 0 <= i < |s| => s[i].x - s[i].y)
  }

  /** Index of the first least key: a later key must be strictly smaller to win. */
  function FirstMinIndex(keys: seq<int>): (i: nat)
    requires |keys| > 0
    ensures i < |keys|
    ensures forall k :: 0 <= k < |keys| ==> keys[i] <= keys[k]
    ensures forall k :: 0 <= k < i ==> keys[k] > keys[i]
  {
    if |keys| == 1 then 0
    else
      var j := FirstMinIndex(keys[..|keys| - 1]);
      if keys[|keys| - 1] < keys[j] then |keys| - 1 else j
  }

  /** Index of the first greatest key. */
  function FirstMaxIndex(keys: seq<int>): (i: nat)
    requires |keys| > 0
    ensures i < |keys|
    ensures forall k :: 0 <= k < |keys| ==> keys[i] >= keys[k]
    ensures forall k :: 0 <= k < i ==> keys[k] < keys[i]
  {
    if |keys| == 1 then 0
    else
      var j := FirstMaxIndex(keys[..|keys| - 1]);
      if keys[|keys| - 1] > keys[j] then |keys| - 1 else j
  }

  lemma FirstMinStep(keys: seq<int>, i: nat)
    requires 0 < i < |keys|
    ensures FirstMinIndex(keys[..i + 1]) ==
      var j := FirstMinIndex(keys[..i]); if keys[i] < keys[j] then i else j
  {
    assert keys[..i + 1][..i] == keys[..i];
  }

  lemma FirstMaxStep(keys: seq<int>, i: nat)
    requires 0 < i < |keys|
    ensures FirstMaxIndex(keys[..i + 1]) ==
      var j := FirstMaxIndex(keys[..i]); if keys[i] > keys[j] then i else j
  {
    assert keys[..i + 1][..i] == keys[..i];
  }

  /** Every role is taken by some point, so the quadrant pass decides the order. */
  predicate QuadrantSuccess(s: seq<Point>)
    requires |s| == 4
  {
    var sx, sy := SumX(s), SumY(s);
    LastWithRole(s, TopLeft, sx, sy) >= 0 && LastWithRole(s, TopRight, sx, sy) >= 0 &&
    LastWithRole(s, BottomLeft, sx, sy) >= 0 && LastWithRole(s, BottomRight, sx, sy) >= 0
  }

  /** What sortCorners leaves in the array: TL, TR, BR, BL. */
  function SortedCorners(s: seq<Point>): (r: seq<Point>)
    requires |s| == 4
    ensures |r| == 4
    ensures forall k :: 0 <= k < 4 ==> r[k] in s
  {
    var sx, sy := SumX(s), SumY(s);
    var tl, tr := LastWithRole(s, TopLeft, sx, sy), LastWithRole(s, TopRight, sx, sy);
    var bl, br := LastWithRole(s, BottomLeft, sx, sy), LastWithRole(s, BottomRight, sx, sy);
    if tl >= 0 && tr >= 0 && bl >= 0 && br >= 0 then
      [s[tl], s[tr], s[br], s[bl]]
    else
      [s[FirstMinIndex(SumKeys(s))], s[FirstMaxIndex(DiffKeys(s))],
       s[FirstMaxIndex(SumKeys(s))], s[FirstMinIndex(DiffKeys(s))]]
  }

  /** First pass of sortCorners: the coordinate sums, four times the centroid. */
  method CentroidSums(corners: seq<Point>) returns (sumX: int, sumY: int)
    ensures sumX == SumX(corners) && sumY == SumY(corners)
  {
    sumX, sumY := 0, 0;
    for i := 0 to |corners|
      invariant sumX == SumX(corners[..i]) && sumY == SumY(corners[..i])
    {
      assert corners[..i + 1][..i] == corners[..i];
      sumX := sumX + corners[i].x;
      sumY := sumY + corners[i].y;
    }
    assert corners[..|corners|] == corners;
  }

  /**
   * Second pass of sortCorners: each point overwrites the role variable of its
   * quadrant, so each role ends up with the last point in that quadrant.
   */
  method QuadrantPass(corners: seq<Point>, sumX: int, sumY: int)
    returns (topLeft: Option<Point>, topRight: Option<Point>, bottomLeft: Option<Point>, bottomRight: Option<Point>)
    ensures topLeft == Held(corners, LastWithRole(corners, TopLeft, sumX, sumY))
    ensures topRight == Held(corners, LastWithRole(corners, TopRight, sumX, sumY))
    ensures bottomLeft == Held(corners, LastWithRole(corners, BottomLeft, sumX, sumY))
    ensures bottomRight == Held(corners, LastWithRole(corners, BottomRight, sumX, sumY))
  {
    topLeft, topRight, bottomLeft, bottomRight := None, None, None, None;
    for i := 0 to |corners|
      invariant topLeft == Held(corners, LastWithRole(corners[..i], TopLeft, sumX, sumY))
      invariant topRight == Held(corners, LastWithRole(corners[..i], TopRight, sumX, sumY))
      invariant bottomLeft == Held(corners, LastWithRole(corners[..i], BottomLeft, sumX, sumY))
      invariant bottomRight == Held(corners, LastWithRole(corners[..i], BottomRight, sumX, sumY))
    {
      assert corners[..i + 1][..i] == corners[..i];
      var p := corners[i];
      if 4 * p.x <= sumX && 4 * p.y <= sumY {
        topLeft := Some(p);
      } else if 4 * p.x > sumX && 4 * p.y <= sumY {
        topRight := Some(p);
      } else if 4 * p.x <= sumX && 4 * p.y > sumY {
        bottomLeft := Some(p);
      } else {
        bottomRight := Some(p);
      }
    }
    assert corners[..|corners|] == corners;
  }

  /**
   * One step of a running minimum: position i replaces the current best only
   * when its key is strictly smaller (the first position always does, as the
   * source seeds the minimum with Double.MAX_VALUE).
   */
  method KeepMin(keys: seq<int>, i: nat, index: nat, best: int) returns (index': nat, best': int)
    requires i < |keys|
    requires i > 0 ==> index == FirstMinIndex(keys[..i]) && best == keys[index]
    ensures index' == FirstMinIndex(keys[..i + 1]) && best' == keys[index']
  {
    if i > 0 {
      FirstMinStep(keys, i);
    }
    index', best' := index, best;
    if i == 0 || keys[i] < best {
      index', best' := i, keys[i];
    }
  }

  /** One step of a running maximum, seeded with -Double.MAX_VALUE in the source. */
  method KeepMax(keys: seq<int>, i: nat, index: nat, best: int) returns (index': nat, best': int)
    requires i < |keys|
    requires i > 0 ==> index == FirstMaxIndex(keys[..i]) && best == keys[index]
    ensures index' == FirstMaxIndex(keys[..i + 1]) && best' == keys[index']
  {
    if i > 0 {
      FirstMaxStep(keys, i);
    }
    index', best' := index, best;
    if i == 0 || keys[i] > best {
      index', best' := i, keys[i];
    }
  }

  /**
   * The sum/difference fallback of sortCorners: running minimum and maximum of
   * x + y and x - y, each replaced only by a strictly better point.
   */
  method ExtremeIndices(corners: seq<Point>)
    returns (topLeftIdx: nat, topRightIdx: nat, bottomRightIdx: nat, bottomLeftIdx: nat)
    requires |corners| > 0
    ensures topLeftIdx == FirstMinIndex(SumKeys(corners))
    ensures bottomRightIdx == FirstMaxIndex(SumKeys(corners))
    ensures bottomLeftIdx == FirstMinIndex(DiffKeys(corners))
    ensures topRightIdx == FirstMaxIndex(DiffKeys(corners))
  {
    var sums, diffs := SumKeys(corners), DiffKeys(corners);
    topLeftIdx, topRightIdx, bottomRightIdx, bottomLeftIdx := 0, 0, 0, 0;
    var minSum, maxSum, minDiff, maxDiff := 0, 0, 0, 0;
    for i := 0 to |corners|
      invariant i > 0 ==> topLeftIdx == FirstMinIndex(sums[..i]) && minSum == sums[topLeftIdx]
      invariant i > 0 ==> bottomRightIdx == FirstMaxIndex(sums[..i]) && maxSum == sums[bottomRightIdx]
      invariant i > 0 ==> bottomLeftIdx == FirstMinIndex(diffs[..i]) && minDiff == diffs[bottomLeftIdx]
      invariant i > 0 ==> topRightIdx == FirstMaxIndex(diffs[..i]) && maxDiff == diffs[topRightIdx]
    {
      topLeftIdx, minSum := KeepMin(sums, i, topLeftIdx, minSum);
      bottomRightIdx, maxSum := KeepMax(sums, i, bottomRightIdx, maxSum);
      bottomLeftIdx, minDiff := KeepMin(diffs, i, bottomLeftIdx, minDiff);
      topRightIdx, maxDiff := KeepMax(diffs, i, topRightIdx, maxDiff);
    }
    assert sums[..|corners|] == sums && diffs[..|corners|] == diffs;
  }

  /**
   * The three passes of sortCorners over the current corners, giving the
   * values it then writes to positions 0 to 3.
   */
  method OrderCorners(s: seq<Point>) returns (topLeft: Point, topRight: Point, bottomRight: Point, bottomLeft: Point)
    requires |s| == 4
    ensures [topLeft, topRight, bottomRight, bottomLeft] == SortedCorners(s)
  {
    var sumX, sumY := CentroidSums(s);
    var tl, tr, bl, br := QuadrantPass(s, sumX, sumY);
    if tl.None? || tr.None? || bl.None? || br.None? {
      var topLeftIdx, topRightIdx, bottomRightIdx, bottomLeftIdx := ExtremeIndices(s);
      tl := Some(s[topLeftIdx]);
      tr := Some(s[topRightIdx]);
      br := Some(s[bottomRightIdx]);
      bl := Some(s[bottomLeftIdx]);
    }
    topLeft, topRight, bottomRight, bottomLeft := tl.value, tr.value, br.value, bl.value;
  }

  /** sortCorners: reorders the four corners in place. */
  method SortCorners(corners: array<Point>)
    requires corners.Length == 4
    modifies corners
    ensures corners[..] == SortedCorners(old(corners[..]))
  {
    var topLeft, topRight, bottomRight, bottomLeft := OrderCorners(corners[..]);
    corners[0], corners[1], corners[2], corners[3] := topLeft, topRight, bottomRight, bottomLeft;
    assert corners[..] == [topLeft, topRight, bottomRight, bottomLeft];
  }

  /** The coordinate sums do not depend on the order in which the points are taken. */
  lemma PermutedCoordinateSums(s: seq<Point>, a: int, b: int, c: int, d: int)
    requires |s| == 4
    requires 0 <= a < 4 && 0 <= b < 4 && 0 <= c < 4 && 0 <= d < 4
    requires a != b && a != c && a != d && b != c && b != d && c != d
    ensures s[a].x + s[b].x + s[c].x + s[d].x == s[0].x + s[1].x + s[2].x + s[3].x
    ensures s[a].y + s[b].y + s[c].y + s[d].y == s[0].y + s[1].y + s[2].y + s[3].y
  {
  }

  /** 1 when position i of s holds p: the summands of the multiplicity of p. */
  function Hit(s: seq<Point>, i: int, p: Point): (h: nat)
    requires 0 <= i < |s|
    ensures h == 1 <==> s[i] == p
    ensures h <= 1
  {
    if s[i] == p then 1 else 0
  }

  lemma {:induction false} MultiplicityOfFour(t: seq<Point>, p: Point)
    requires |t| == 4
    ensures multiset(t)[p] == Hit(t, 0, p) + Hit(t, 1, p) + Hit(t, 2, p) + Hit(t, 3, p)
  {
    assert t == [t[0]] + [t[1]] + [t[2]] + [t[3]];
  }

  /** Four distinct indices pick each point of s as often as s holds it. */
  lemma {:induction false} DistinctIndicesMultiplicity(s: seq<Point>, a: int, b: int, c: int, d: int, p: Point)
    requires |s| == 4
    requires 0 <= a < 4 && 0 <= b < 4 && 0 <= c < 4 && 0 <= d < 4
    requires a != b && a != c && a != d && b != c && b != d && c != d
    ensures multiset([s[a], s[b], s[c], s[d]])[p] == multiset(s)[p]
  {
    var t := [s[a], s[b], s[c], s[d]];
    MultiplicityOfFour(t, p);
    MultiplicityOfFour(s, p);
    HitSum(s, p, a, b, c, d);
    assert Hit(t, 0, p) == Hit(s, a, p) && Hit(t, 1, p) == Hit(s, b, p);
    assert Hit(t, 2, p) == Hit(s, c, p) && Hit(t, 3, p) == Hit(s, d, p);
  }

  lemma HitSum(s: seq<Point>, p: Point, a: int, b: int, c: int, d: int)
    requires |s| == 4
    requires 0 <= a < 4 && 0 <= b < 4 && 0 <= c < 4 && 0 <= d < 4
    requires a != b && a != c && a != d && b != c && b != d && c != d
    ensures Hit(s, a, p) + Hit(s, b, p) + Hit(s, c, p) + Hit(s, d, p)
         == Hit(s, 0, p) + Hit(s, 1, p) + Hit(s, 2, p) + Hit(s, 3, p)
  {
  }

  /** Four distinct indices into four points pick every point once. */
  lemma {:induction false} DistinctIndicesPermute(s: seq<Point>, a: int, b: int, c: int, d: int)
    requires |s| == 4
    requires 0 <= a < 4 && 0 <= b < 4 && 0 <= c < 4 && 0 <= d < 4
    requires a != b && a != c && a != d && b != c && b != d && c != d
    ensures multiset([s[a], s[b], s[c], s[d]]) == multiset(s)
    ensures s[a].x + s[b].x + s[c].x + s[d].x == s[0].x + s[1].x + s[2].x + s[3].x
    ensures s[a].y + s[b].y + s[c].y + s[d].y == s[0].y + s[1].y + s[2].y + s[3].y
  {
    PermutedCoordinateSums(s, a, b, c, d);
    forall p ensures multiset([s[a], s[b], s[c], s[d]])[p] == multiset(s)[p] {
      DistinctIndicesMultiplicity(s, a, b, c, d, p);
    }
  }

  /**
   * When every quadrant is taken, the result is a permutation of the input with
   * the top-left, top-right, bottom-right and bottom-left quadrant points (as
   * seen from the centroid) in positions 0, 1, 2 and 3; the centroid is unchanged.
   */
  lemma {:induction false} QuadrantOrder(s: seq<Point>)
    requires |s| == 4 && QuadrantSuccess(s)
    ensures var r, sx, sy := SortedCorners(s), SumX(s), SumY(s);
      && multiset(r) == multiset(s)
      && SumX(r) == sx && SumY(r) == sy
      && RoleOf(r[0], sx, sy) == TopLeft && RoleOf(r[1], sx, sy) == TopRight
      && RoleOf(r[2], sx, sy) == BottomRight && RoleOf(r[3], sx, sy) == BottomLeft
  {
    var sx, sy := SumX(s), SumY(s);
    var tl, tr := LastWithRole(s, TopLeft, sx, sy), LastWithRole(s, TopRight, sx, sy);
    var bl, br := LastWithRole(s, BottomLeft, sx, sy), LastWithRole(s, BottomRight, sx, sy);
    DistinctIndicesPermute(s, tl, tr, br, bl);
    SumsOfFour(s);
    SumsOfFour(SortedCorners(s));
  }

  /** Four points already in top-left, top-right, bottom-right, bottom-left quadrants stay where they are. */
  lemma {:induction false} OrderedCornersAreFixed(r: seq<Point>)
    requires |r| == 4
    requires var sx, sy := SumX(r), SumY(r);
      && RoleOf(r[0], sx, sy) == TopLeft && RoleOf(r[1], sx, sy) == TopRight
      && RoleOf(r[2], sx, sy) == BottomRight && RoleOf(r[3], sx, sy) == BottomLeft
    ensures QuadrantSuccess(r) && SortedCorners(r) == r
  {
    var sx, sy := SumX(r), SumY(r);
    assert r[..3][..2] == r[..2] && r[..4] == r;
    assert LastWithRole(r, TopLeft, sx, sy) == 0;
    assert LastWithRole(r, TopRight, sx, sy) == 1;
    assert LastWithRole(r, BottomRight, sx, sy) == 2;
    assert LastWithRole(r, BottomLeft, sx, sy) == 3;
  }

  /** Sorting corners that the quadrant pass already ordered changes nothing. */
  lemma {:induction false} SortCornersIdempotent(s: seq<Point>)
    requires |s| == 4 && QuadrantSuccess(s)
    ensures QuadrantSuccess(SortedCorners(s))
    ensures SortedCorners(SortedCorners(s)) == SortedCorners(s)
  {
    QuadrantOrder(s);
    OrderedCornersAreFixed(SortedCorners(s));
  }

  /**
   * When some quadrant is empty, position 0 holds a point of least x + y,
   * position 2 one of greatest x + y, position 1 one of greatest x - y and
   * position 3 one of least x - y.
   */
  lemma FallbackOrder(s: seq<Point>)
    requires |s| == 4 && !QuadrantSuccess(s)
    ensures var r := SortedCorners(s);
      forall p :: p in s ==>
        && r[0].x + r[0].y <= p.x + p.y && r[2].x + r[2].y >= p.x + p.y
        && r[1].x - r[1].y >= p.x - p.y && r[3].x - r[3].y <= p.x - p.y
  {
    var r := SortedCorners(s);
    forall p | p in s
      ensures r[0].x + r[0].y <= p.x + p.y && r[2].x + r[2].y >= p.x + p.y
      ensures r[1].x - r[1].y >= p.x - p.y && r[3].x - r[3].y <= p.x - p.y
    {
      var k :| 0 <= k < 4 && s[k] == p;
      assert SumKeys(s)[k] == p.x + p.y && DiffKeys(s)[k] == p.x - p.y;
    }
  }

  lemma {:induction false} DiamondQuadrants(s: seq<Point>)
    requires s == [Point(50, 0), Point(100, 50), Point(50, 100), Point(0, 50)]
    ensures SumX(s) == 200 && SumY(s) == 200
    ensures LastWithRole(s, BottomRight, 200, 200) == -1 && !QuadrantSuccess(s)
  {
    SumsOfFour(s);
    assert s[..3][..2] == s[..2] && s[..2][..1] == s[..1] && s[..1][..0] == [] && s[..4] == s;
  }

  lemma {:induction false} DiamondExtremes(s: seq<Point>)
    requires s == [Point(50, 0), Point(100, 50), Point(50, 100), Point(0, 50)]
    ensures FirstMinIndex(SumKeys(s)) == 0 && FirstMaxIndex(SumKeys(s)) == 1
    ensures FirstMaxIndex(DiffKeys(s)) == 0 && FirstMinIndex(DiffKeys(s)) == 2
  {
    var sums, diffs := SumKeys(s), DiffKeys(s);
    assert sums == [50, 150, 150, 50] && diffs == [50, 50, -50, -50];
    assert sums[..4] == sums && diffs[..4] == diffs;
    FirstMinStep(sums, 1); FirstMinStep(sums, 2); FirstMinStep(sums, 3);
    FirstMaxStep(sums, 1); FirstMaxStep(sums, 2); FirstMaxStep(sums, 3);
    FirstMinStep(diffs, 1); FirstMinStep(diffs, 2); FirstMinStep(diffs, 3);
    FirstMaxStep(diffs, 1); FirstMaxStep(diffs, 2); FirstMaxStep(diffs, 3);
  }

  /**
   * A square turned by 45 degrees leaves the bottom-right quadrant empty; the
   * fallback then returns the top vertex twice and drops the left vertex.
   */
  lemma {:induction false} DiamondRepeatsCorner()
    ensures var s := [Point(50, 0), Point(100, 50), Point(50, 100), Point(0, 50)];
      && !QuadrantSuccess(s)
      && SortedCorners(s) == [Point(50, 0), Point(50, 0), Point(100, 50), Point(50, 100)]
      && Point(0, 50) !in SortedCorners(s)
  {
    var s := [Point(50, 0), Point(100, 50), Point(50, 100), Point(0, 50)];
    DiamondQuadrants(s);
    DiamondExtremes(s);
    assert SortedCorners(s) == [s[0], s[0], s[1], s[2]];
  }

  lemma {:induction false} TieQuadrants(s: seq<Point>)
    requires s == [Point(400, 500), Point(0, 100), Point(500, 500), Point(600, 200)]
    ensures SumX(s) == 1500 && SumY(s) == 1300
    ensures LastWithRole(s, BottomLeft, 1500, 1300) == -1 && !QuadrantSuccess(s)
  {
    SumsOfFour(s);
    assert s[..3][..2] == s[..2] && s[..2][..1] == s[..1] && s[..1][..0] == [] && s[..4] == s;
  }

  lemma {:induction false} TieExtremes(s: seq<Point>)
    requires s == [Point(400, 500), Point(0, 100), Point(500, 500), Point(600, 200)]
    ensures FirstMinIndex(SumKeys(s)) == 1 && FirstMaxIndex(SumKeys(s)) == 2
    ensures FirstMaxIndex(DiffKeys(s)) == 3 && FirstMinIndex(DiffKeys(s)) == 0
  {
    var sums, diffs := SumKeys(s), DiffKeys(s);
    assert sums == [900, 100, 1000, 800] && diffs == [-100, -100, 0, 400];
    assert sums[..4] == sums && diffs[..4] == diffs;
    FirstMinStep(sums, 1); FirstMinStep(sums, 2); FirstMinStep(sums, 3);
    FirstMaxStep(sums, 1); FirstMaxStep(sums, 2); FirstMaxStep(sums, 3);
    FirstMinStep(diffs, 1); FirstMinStep(diffs, 2); FirstMinStep(diffs, 3);
    FirstMaxStep(diffs, 1); FirstMaxStep(diffs, 2); FirstMaxStep(diffs, 3);
  }

  lemma {:induction false} ResortQuadrants(r: seq<Point>)
    requires r == [Point(0, 100), Point(600, 200), Point(500, 500), Point(400, 500)]
    ensures SumX(r) == 1500 && SumY(r) == 1300
    ensures LastWithRole(r, BottomLeft, 1500, 1300) == -1 && !QuadrantSuccess(r)
  {
    SumsOfFour(r);
    assert r[..3][..2] == r[..2] && r[..2][..1] == r[..1] && r[..1][..0] == [] && r[..4] == r;
  }

  lemma {:induction false} ResortExtremes(r: seq<Point>)
    requires r == [Point(0, 100), Point(600, 200), Point(500, 500), Point(400, 500)]
    ensures FirstMinIndex(SumKeys(r)) == 0 && FirstMaxIndex(SumKeys(r)) == 2
    ensures FirstMaxIndex(DiffKeys(r)) == 1 && FirstMinIndex(DiffKeys(r)) == 0
  {
    var sums, diffs := SumKeys(r), DiffKeys(r);
    assert sums == [100, 800, 1000, 900] && diffs == [-100, 400, 0, -100];
    assert sums[..4] == sums && diffs[..4] == diffs;
    FirstMinStep(sums, 1); FirstMinStep(sums, 2); FirstMinStep(sums, 3);
    FirstMaxStep(sums, 1); FirstMaxStep(sums, 2); FirstMaxStep(sums, 3);
    FirstMinStep(diffs, 1); FirstMinStep(diffs, 2); FirstMinStep(diffs, 3);
    FirstMaxStep(diffs, 1); FirstMaxStep(diffs, 2); FirstMaxStep(diffs, 3);
  }

  /**
   * Outside a successful quadrant pass, sorting is not idempotent. Two of these
   * corners tie on x - y, and the first of them becomes the bottom-left corner.
   * The first sort is a permutation that moves the tied corners. The second
   * sort, still without a bottom-left quadrant point, then takes the top-left
   * corner as bottom-left and drops (400, 500).
   */
  lemma {:induction false} SortTwiceDropsCorner()
    ensures var s := [Point(400, 500), Point(0, 100), Point(500, 500), Point(600, 200)];
      var r := [Point(0, 100), Point(600, 200), Point(500, 500), Point(400, 500)];
      && !QuadrantSuccess(s) && SortedCorners(s) == r && multiset(r) == multiset(s)
      && !QuadrantSuccess(r)
      && SortedCorners(r) == [Point(0, 100), Point(600, 200), Point(500, 500), Point(0, 100)]
      && SortedCorners(SortedCorners(s)) != SortedCorners(s)
  {
    var s := [Point(400, 500), Point(0, 100), Point(500, 500), Point(600, 200)];
    var r := [Point(0, 100), Point(600, 200), Point(500, 500), Point(400, 500)];
    TieQuadrants(s);
    TieExtremes(s);
    assert SortedCorners(s) == [s[1], s[3], s[2], s[0]];
    assert r == [s[1], s[3], s[2], s[0]];
    DistinctIndicesPermute(s, 1, 3, 2, 0);
    ResortQuadrants(r);
    ResortExtremes(r);
    assert SortedCorners(r) == [r[0], r[1], r[2], r[0]];
    assert SortedCorners(r)[3] != r[3];
  }
}
