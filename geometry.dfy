/** Optional values: `None` stands for the Java `null` the scanner returns on failure. */
module Wrappers {
  datatype Option<+T> = None | Some(value: T)
}

/**
 * Integer corner geometry shared by the edge detector and the perspective
 * corrector: points, the shoelace sum, squared distances, and the exact
 * integer forms of the floating-point thresholds the Java code compares.
 */
module Geometry {

  /** An OpenCV integer point in image pixel space. */
  datatype Point = Point(x: int, y: int)

  /** The dimensions of an OpenCV image (a Mat): columns and rows. */
  datatype Image = Image(cols: nat, rows: nat)

  /** An image with no pixels, what Mat.empty() reports. */
  predicate Empty(image: Image) {
    image.cols * image.rows == 0
  }

  /** A non-empty image has at least one column and one row. */
  lemma NonEmptySides(image: Image)
    requires !Empty(image)
    ensures image.cols >= 1 && image.rows >= 1
  {
  }

  /** p lies on a pixel of a width x height image. */
  predicate InImage(p: Point, width: int, height: int) {
    0 <= p.x < width && 0 <= p.y < height
  }

  function Abs(n: int): (r: nat)
    ensures r == n || r == -n
  {
    if n < 0 then -n else n
  }

  /** Abs on reals, for the distances between Hough lines. */
  function AbsReal(r: real): (a: real)
    ensures a >= 0.0 && (a == r || a == -r)
  {
    if r < 0.0 then -r else r
  }

  function Min(a: int, b: int): (m: int)
    ensures m <= a && m <= b && (m == a || m == b)
  {
    if a <= b then a else b
  }

  function Max(a: int, b: int): (m: int)
    ensures m >= a && m >= b && (m == a || m == b)
  {
    if a >= b then a else b
  }

  /**
   * Max on reals. It is kept beside Max because the output size is the larger
   * of two square roots, which are reals, while Max works on integers.
   */
  function RealMax(a: real, b: real): (m: real)
    ensures m >= a && m >= b && (m == a || m == b)
  {
    if a >= b then a else b
  }

  /** One term of the shoelace sum: x_i * y_j - x_j * y_i. */
  function Cross(p: Point, q: Point): int {
    p.x * q.y - q.x * p.y
  }

  /** The signed shoelace sum over the closed polygon p0 -> p1 -> p2 -> p3 -> p0. */
  function Shoelace(s: seq<Point>): int
    requires |s| == 4
  {
    Cross(s[0], s[1]) + Cross(s[1], s[2]) + Cross(s[2], s[3]) + Cross(s[3], s[0])
  }

  /** Twice the quadrilateral's area, which is an integer. */
  function TwiceArea(s: seq<Point>): nat
    requires |s| == 4
  {
    Abs(Shoelace(s))
  }

  /** The first k terms of the accumulator loop of calculateQuadrilateralArea. */
  function ShoelacePrefix(s: seq<Point>, k: nat): int
    requires |s| == 4 && k <= 4
  {
    if k == 0 then 0 else ShoelacePrefix(s, k - 1) + Cross(s[k - 1], s[k % 4])
  }

  lemma {:induction false} ShoelacePrefixComplete(s: seq<Point>)
    requires |s| == 4
    ensures ShoelacePrefix(s, 4) == Shoelace(s)
  {
    calc {
      ShoelacePrefix(s, 4);
      ShoelacePrefix(s, 3) + Cross(s[3], s[0]);
      ShoelacePrefix(s, 2) + Cross(s[2], s[3]) + Cross(s[3], s[0]);
      ShoelacePrefix(s, 1) + Cross(s[1], s[2]) + Cross(s[2], s[3]) + Cross(s[3], s[0]);
      ShoelacePrefix(s, 0) + Cross(s[0], s[1]) + Cross(s[1], s[2]) + Cross(s[2], s[3]) + Cross(s[3], s[0]);
      Shoelace(s);
    }
  }

  /**
   * calculateQuadrilateralArea: accumulates the shoelace sum over the four
   * corners and returns half its absolute value.
   */
  method QuadrilateralArea(corners: array<Point>) returns (area: real)
    requires corners.Length == 4
    ensures area >= 0.0
    ensures area == TwiceArea(corners[..]) as real / 2.0
  {
    var sum := 0;
    for i := 0 to 4
      invariant sum == ShoelacePrefix(corners[..], i)
    {
      var j := (i + 1) % 4;
      sum := sum + corners[i].x * corners[j].y;
      sum := sum - corners[j].x * corners[i].y;
    }
    ShoelacePrefixComplete(corners[..]);
    area := Abs(sum) as real / 2.0;
  }

  function RotateLeft(s: seq<Point>): (r: seq<Point>)
    requires |s| == 4
    ensures |r| == 4 && forall i :: 0 <= i < 4 ==> r[i] == s[(i + 1) % 4]
  {
    s[1..] + [s[0]]
  }

  function Reverse(s: seq<Point>): (r: seq<Point>)
    requires |s| == 4
    ensures |r| == 4 && forall i :: 0 <= i < 4 ==> r[i] == s[3 - i]
  {
    [s[3], s[2], s[1], s[0]]
  }

  /** Starting the walk at another corner does not change the signed sum. */
  lemma ShoelaceRotation(s: seq<Point>)
    requires |s| == 4
    ensures Shoelace(RotateLeft(s)) == Shoelace(s)
    ensures TwiceArea(RotateLeft(s)) == TwiceArea(s)
  {
  }

  /** Walking the corners the other way round negates the signed sum, so the area is unchanged. */
  lemma ShoelaceReversal(s: seq<Point>)
    requires |s| == 4
    ensures Shoelace(Reverse(s)) == -Shoelace(s)
    ensures TwiceArea(Reverse(s)) == TwiceArea(s)
  {
  }

  /** Squared Euclidean distance; the Java `distance` is its square root. */
  function SqDist(p: Point, q: Point): (d: nat)
    ensures d == 0 <==> p == q
  {
    (p.x - q.x) * (p.x - q.x) + (p.y - q.y) * (p.y - q.y)
  }

  /**
   * The distance d = sqrt(sq) is below the limit exactly when sq is below the
   * limit's square: the size floor `distance < 50` is `SqDist < 2500`.
   */
  lemma DistanceBelowIff(d: real, sq: nat, limit: nat)
    requires d >= 0.0 && d * d == sq as real
    ensures d < limit as real <==> sq < limit * limit
  {
    var l := limit as real;
    assert (limit * limit) as real == l * l;
    if d < l {
      assert d * d <= d * l;
      assert d * l < l * l;
    } else {
      assert l * l <= l * d <= d * d;
    }
  }

  /**
   * The minimum-area tests, restated on integers: with S the shoelace sum the
   * area is |S|/2, and |S|/2 < fraction * W * H exactly when
   * |S| * denominator < 2 * W * H for fraction = 1/denominator.
   */
  lemma AreaBelowFractionIff(twiceArea: nat, imageArea: nat, denominator: nat)
    requires denominator > 0
    ensures (twiceArea as real / 2.0 < imageArea as real / denominator as real)
        <==> (twiceArea * denominator < 2 * imageArea)
  {
    var t, a, d := twiceArea as real, imageArea as real, denominator as real;
    assert t / 2.0 < a / d <==> t * d < 2.0 * a;
  }
}
