/**
 * The contour fallback shared by the edge detector and the perspective
 * corrector: among the contours found in an image, take the first one of
 * greatest area that covers more than a tenth of the image, and use its
 * polygon approximation when that has exactly four vertices.
 */
module Contours {
  import opened Wrappers
  import opened Geometry

  /**
   * A contour as the fallback sees it: the area OpenCV reports for it and the
   * vertices of its polygon approximation.
   */
  datatype Contour = Contour(area: real, vertices: seq<Point>)

  /** A contour large enough to be a document: more than 10% of the image. */
  predicate LargeEnough(c: Contour, imageArea: nat) {
    c.area > imageArea as real * 0.1
  }

  /**
   * Index of the contour the selection loop ends on, or -1 when it keeps none:
   * a contour replaces the current choice when it is large enough and its area
   * exceeds the largest area seen so far (which starts at 0).
   */
  function LargestIndex(contours: seq<Contour>, imageArea: nat): (i: int)
    ensures -1 <= i < |contours|
    ensures i == -1 <==> forall j :: 0 <= j < |contours| ==> !LargeEnough(contours[j], imageArea)
    ensures i >= 0 ==> LargeEnough(contours[i], imageArea)
    ensures i >= 0 ==> forall j :: 0 <= j < |contours| && LargeEnough(contours[j], imageArea) ==>
      contours[j].area <= contours[i].area
    ensures i >= 0 ==> forall j :: 0 <= j < i && LargeEnough(contours[j], imageArea) ==>
      contours[j].area < contours[i].area
  {
    if contours == [] then -1
    else
      var prefix := contours[..|contours| - 1];
      var j := LargestIndex(prefix, imageArea);
      var maxArea := if j < 0 then 0.0 else prefix[j].area;
      var c := contours[|contours| - 1];
      if c.area > maxArea && LargeEnough(c, imageArea) then |contours| - 1 else j
  }

  function Largest(contours: seq<Contour>, imageArea: nat): Option<Contour> {
    var i := LargestIndex(contours, imageArea);
    if i < 0 then None else Some(contours[i])
  }

  /** The contour-selection loop shared by detectCornersWithContours and findContourCorners. */
  method LargestContour(contours: seq<Contour>, imageArea: nat) returns (largest: Option<Contour>)
    ensures largest == Largest(contours, imageArea)
  {
    var maxArea := 0.0;
    largest := None;
    ghost var index := -1;
    for i := 0 to |contours|
      invariant index == LargestIndex(contours[..i], imageArea)
      invariant index < i
      invariant maxArea == if index < 0 then 0.0 else contours[index].area
      invariant largest == if index < 0 then None else Some(contours[index])
    {
      assert contours[..i + 1][..i] == contours[..i];
      var contour := contours[i];
      var area := contour.area;
      if area > maxArea && area > imageArea as real * 0.1 {
        maxArea := area;
        largest := Some(contour);
        index := i;
      }
    }
    assert contours[..|contours|] == contours;
  }

  /**
   * The chosen contour is large enough and at least as large as every other
   * large-enough contour, and it is the first such: every large-enough contour
   * before it is strictly smaller. There is none exactly when no contour is
   * large enough.
   */
  lemma LargestIsFirstMaximum(contours: seq<Contour>, imageArea: nat)
    ensures Largest(contours, imageArea).None? <==>
      forall c :: c in contours ==> !LargeEnough(c, imageArea)
    ensures Largest(contours, imageArea).Some? ==>
      var best := Largest(contours, imageArea).value;
      && best in contours && LargeEnough(best, imageArea)
      && forall c :: c in contours && LargeEnough(c, imageArea) ==> c.area <= best.area
    ensures Largest(contours, imageArea).Some? ==>
      exists i :: 0 <= i < |contours| && contours[i] == Largest(contours, imageArea).value &&
        forall j :: 0 <= j < i && LargeEnough(contours[j], imageArea) ==>
          contours[j].area < contours[i].area
  {
    var i := LargestIndex(contours, imageArea);
    if i >= 0 {
      assert contours[i] == Largest(contours, imageArea).value;
      forall c | c in contours && LargeEnough(c, imageArea)
        ensures c.area <= contours[i].area
      {
        var j :| 0 <= j < |contours| && contours[j] == c;
      }
    }
  }

  /** The four vertices of the chosen contour's approximation, when it has exactly four. */
  function ContourQuad(contours: seq<Contour>, imageArea: nat): (q: Option<seq<Point>>)
    ensures q.Some? ==> |q.value| == 4
  {
    match Largest(contours, imageArea)
    case None => None
    case Some(c) => if |c.vertices| == 4 then Some(c.vertices) else None
  }

  /**
   * A quadrilateral comes from a large-enough input contour that is at least as
   * large as every other large-enough one; without a large-enough contour
   * there is none.
   */
  lemma ContourQuadSource(contours: seq<Contour>, imageArea: nat)
    ensures (forall c :: c in contours ==> !LargeEnough(c, imageArea)) ==>
      ContourQuad(contours, imageArea).None?
    ensures ContourQuad(contours, imageArea).Some? ==>
      exists c :: c in contours && LargeEnough(c, imageArea) &&
        ContourQuad(contours, imageArea).value == c.vertices &&
        forall d :: d in contours && LargeEnough(d, imageArea) ==> d.area <= c.area
  {
    LargestIsFirstMaximum(contours, imageArea);
  }
}
