/**
 * The Hough-line half of corner detection: lines in normal form are split into
 * near-vertical and near-horizontal groups by their normal angle, lines whose
 * distances from the origin are too close to an earlier one are dropped, and the two extreme
 * lines of each group (least and greatest distance) are picked.
 */
module HoughLines {
  import opened Geometry

  /**
   * A Hough line in normal form: rho is the signed distance from the origin,
   * degrees the angle of the normal (HoughLines reports radians in [0, pi); the
   * detector converts them to degrees before classifying).
   */
  datatype Line = Line(rho: real, degrees: real)

  /** A near-vertical line: its normal is within 20 degrees of the x axis. */
  predicate IsVertical(l: Line) {
    (0.0 <= l.degrees <= 20.0) || (160.0 <= l.degrees <= 180.0)
  }

  /** A near-horizontal line: its normal is within 20 degrees of the y axis. */
  predicate IsHorizontal(l: Line) {
    70.0 <= l.degrees <= 110.0
  }

  // ---------------------------------------------------------------------------
  // Order-preserving subsequences
  // ---------------------------------------------------------------------------

  /** a can be obtained from b by deleting elements, keeping the order of the rest. */
  predicate IsSubsequence(a: seq<Line>, b: seq<Line>)
    decreases |b|
  {
    if a == [] then true
    else if b == [] then false
    else
      || (a[|a| - 1] == b[|b| - 1] && IsSubsequence(a[..|a| - 1], b[..|b| - 1]))
      || IsSubsequence(a, b[..|b| - 1])
  }

  lemma SubsequenceGrow(a: seq<Line>, b: seq<Line>, x: Line)
    requires IsSubsequence(a, b)
    ensures IsSubsequence(a, b + [x])
    ensures IsSubsequence(a + [x], b + [x])
  {
    assert (b + [x])[..|b|] == b;
    assert (a + [x])[..|a|] == a;
  }

  /** A subsequence is no longer than its source, and each of its elements is drawn from it. */
  lemma {:induction false} SubsequenceBounds(a: seq<Line>, b: seq<Line>)
    requires IsSubsequence(a, b)
    ensures |a| <= |b|
    ensures forall l :: l in a ==> l in b
    decreases |b|
  {
    if a == [] {
    } else if a[|a| - 1] == b[|b| - 1] && IsSubsequence(a[..|a| - 1], b[..|b| - 1]) {
      SubsequenceBounds(a[..|a| - 1], b[..|b| - 1]);
      assert a == a[..|a| - 1] + [a[|a| - 1]];
      assert b == b[..|b| - 1] + [b[|b| - 1]];
    } else {
      SubsequenceBounds(a, b[..|b| - 1]);
      assert b == b[..|b| - 1] + [b[|b| - 1]];
    }
  }

  // ---------------------------------------------------------------------------
  // Classification by angle
  // ---------------------------------------------------------------------------

  /** The near-vertical lines, in input order. */
  function Verticals(lines: seq<Line>): seq<Line> {
    if lines == [] then []
    else
      var last := lines[|lines| - 1];
      Verticals(lines[..|lines| - 1]) + (if IsVertical(last) then [last] else [])
  }

  /** The near-horizontal lines, in input order. */
  function Horizontals(lines: seq<Line>): seq<Line> {
    if lines == [] then []
    else
      var last := lines[|lines| - 1];
      Horizontals(lines[..|lines| - 1]) + (if IsHorizontal(last) then [last] else [])
  }

  /**
   * The classification loop of detectCornersWithHoughLines: a line goes to the
   * verticals when its angle is near 0 or 180 degrees, otherwise to the
   * horizontals when it is near 90 degrees, otherwise nowhere.
   */
  method ClassifyLines(lines: seq<Line>) returns (verticals: seq<Line>, horizontals: seq<Line>)
    ensures verticals == Verticals(lines)
    ensures horizontals == Horizontals(lines)
  {
    verticals, horizontals := [], [];
    for i := 0 to |lines|
      invariant verticals == Verticals(lines[..i])
      invariant horizontals == Horizontals(lines[..i])
    {
      assert lines[..i + 1][..i] == lines[..i];
      var line := lines[i];
      if IsVertical(line) {
        verticals := verticals + [line];
      } else if IsHorizontal(line) {
        horizontals := horizontals + [line];
      }
    }
    assert lines[..|lines|] == lines;
  }

  /**
   * A line lands among the verticals exactly when it is an input line with a
   * near-vertical angle, and among the horizontals exactly when it is an input
   * line with a near-horizontal angle; no line lands in both groups.
   */
  lemma {:induction false} ClassificationMembership(lines: seq<Line>)
    ensures forall l :: l in Verticals(lines) <==> l in lines && IsVertical(l)
    ensures forall l :: l in Horizontals(lines) <==> l in lines && IsHorizontal(l)
    ensures forall l :: l in Verticals(lines) ==> l !in Horizontals(lines)
  {
    if lines != [] {
      var prefix := lines[..|lines| - 1];
      ClassificationMembership(prefix);
      assert lines == prefix + [lines[|lines| - 1]];
    }
  }

  /** The verticals keep the input order. */
  lemma {:induction false} VerticalsSubsequence(lines: seq<Line>)
    ensures IsSubsequence(Verticals(lines), lines)
  {
    if lines != [] {
      var prefix, last := lines[..|lines| - 1], lines[|lines| - 1];
      VerticalsSubsequence(prefix);
      assert lines == prefix + [last];
      SubsequenceGrow(Verticals(prefix), prefix, last);
      if IsVertical(last) {
        assert Verticals(lines) == Verticals(prefix) + [last];
      } else {
        assert Verticals(lines) == Verticals(prefix);
      }
    }
  }

  /** The horizontals keep the input order. */
  lemma {:induction false} HorizontalsSubsequence(lines: seq<Line>)
    ensures IsSubsequence(Horizontals(lines), lines)
  {
    if lines != [] {
      var prefix, last := lines[..|lines| - 1], lines[|lines| - 1];
      HorizontalsSubsequence(prefix);
      assert lines == prefix + [last];
      SubsequenceGrow(Horizontals(prefix), prefix, last);
      if IsHorizontal(last) {
        assert Horizontals(lines) == Horizontals(prefix) + [last];
      } else {
        assert Horizontals(lines) == Horizontals(prefix);
      }
    }
  }

  /** Together the two groups hold no more lines than the input. */
  lemma {:induction false} ClassificationSizes(lines: seq<Line>)
    ensures |Verticals(lines)| + |Horizontals(lines)| <= |lines|
  {
    if lines != [] {
      var last := lines[|lines| - 1];
      ClassificationSizes(lines[..|lines| - 1]);
      assert !(IsVertical(last) && IsHorizontal(last));
    }
  }

  // ---------------------------------------------------------------------------
  // Dropping similar lines
  // ---------------------------------------------------------------------------

  /** Some kept line has a distance from the origin closer than tolerance to l's. */
  predicate NearAny(l: Line, kept: seq<Line>, tolerance: real) {
    exists k :: 0 <= k < |kept| && AbsReal(l.rho - kept[k].rho) < tolerance
  }

  /**
   * filterSimilarLines: each line in turn is kept unless its rho is within the
   * tolerance of a line kept before it.
   */
  function FilterSimilar(lines: seq<Line>, tolerance: real): seq<Line> {
    if lines == [] then []
    else
      var kept := FilterSimilar(lines[..|lines| - 1], tolerance);
      var last := lines[|lines| - 1];
      if NearAny(last, kept, tolerance) then kept else kept + [last]
  }

  /** Any two lines in the sequence are at least tolerance apart in rho. */
  predicate Separated(lines: seq<Line>, tolerance: real) {
    forall i, j :: 0 <= i < j < |lines| ==> AbsReal(lines[i].rho - lines[j].rho) >= tolerance
  }

  method FilterSimilarLines(lines: seq<Line>, tolerance: real) returns (filtered: seq<Line>)
    ensures filtered == FilterSimilar(lines, tolerance)
  {
    filtered := [];
    for i := 0 to |lines|
      invariant filtered == FilterSimilar(lines[..i], tolerance)
    {
      assert lines[..i + 1][..i] == lines[..i];
      var line := lines[i];
      var similar := false;
      var j := 0;
      while j < |filtered|
        invariant 0 <= j <= |filtered|
        invariant forall k :: 0 <= k < j ==> AbsReal(line.rho - filtered[k].rho) >= tolerance
      {
        if AbsReal(line.rho - filtered[j].rho) < tolerance {
          similar := true;
          break;
        }
        j := j + 1;
      }
      if !similar {
        filtered := filtered + [line];
      }
    }
    assert lines[..|lines|] == lines;
  }

  /** The kept lines are an order-preserving subsequence of the input, so never more numerous. */
  lemma {:induction false} FilterSubsequence(lines: seq<Line>, tolerance: real)
    ensures IsSubsequence(FilterSimilar(lines, tolerance), lines)
    ensures |FilterSimilar(lines, tolerance)| <= |lines|
    ensures forall l :: l in FilterSimilar(lines, tolerance) ==> l in lines
  {
    if lines != [] {
      var prefix, last := lines[..|lines| - 1], lines[|lines| - 1];
      FilterSubsequence(prefix, tolerance);
      assert lines == prefix + [last];
      SubsequenceGrow(FilterSimilar(prefix, tolerance), prefix, last);
    }
    SubsequenceBounds(FilterSimilar(lines, tolerance), lines);
  }

  /** The first line of a non-empty input is always kept, in first place. */
  lemma {:induction false} FilterKeepsFirst(lines: seq<Line>, tolerance: real)
    requires |lines| > 0
    ensures |FilterSimilar(lines, tolerance)| > 0
    ensures FilterSimilar(lines, tolerance)[0] == lines[0]
  {
    var prefix := lines[..|lines| - 1];
    if prefix != [] {
      FilterKeepsFirst(prefix, tolerance);
      assert prefix[0] == lines[0];
    }
  }

  /** Any two kept lines are at least the tolerance apart. */
  lemma {:induction false} FilterSeparated(lines: seq<Line>, tolerance: real)
    ensures Separated(FilterSimilar(lines, tolerance), tolerance)
  {
    if lines != [] {
      var prefix := lines[..|lines| - 1];
      FilterSeparated(prefix, tolerance);
    }
  }

  /**
   * The lines kept from the first i input lines start the final result, and
   * line i is kept exactly when it is not near any of them: a dropped line is
   * within the tolerance of a line kept before it.
   */
  lemma {:induction false} FilterDecision(lines: seq<Line>, tolerance: real, i: nat)
    requires i < |lines|
    ensures FilterSimilar(lines[..i], tolerance) <= FilterSimilar(lines, tolerance)
    ensures NearAny(lines[i], FilterSimilar(lines[..i], tolerance), tolerance)
        <==> FilterSimilar(lines[..i + 1], tolerance) == FilterSimilar(lines[..i], tolerance)
    ensures !NearAny(lines[i], FilterSimilar(lines[..i], tolerance), tolerance)
        <==> FilterSimilar(lines[..i + 1], tolerance) == FilterSimilar(lines[..i], tolerance) + [lines[i]]
    decreases |lines|
  {
    assert lines[..i + 1][..i] == lines[..i];
    FilterPrefix(lines, tolerance, i);
  }

  lemma {:induction false} FilterPrefix(lines: seq<Line>, tolerance: real, i: nat)
    requires i <= |lines|
    ensures FilterSimilar(lines[..i], tolerance) <= FilterSimilar(lines, tolerance)
    decreases |lines|
  {
    if i < |lines| {
      var prefix := lines[..|lines| - 1];
      FilterPrefix(prefix, tolerance, i);
      assert prefix[..i] == lines[..i];
    } else {
      assert lines[..i] == lines;
    }
  }

  /** With a positive tolerance, every input line is within the tolerance of some kept line. */
  lemma {:induction false} FilterCovers(lines: seq<Line>, tolerance: real)
    requires tolerance > 0.0
    ensures forall i :: 0 <= i < |lines| ==> NearAny(lines[i], FilterSimilar(lines, tolerance), tolerance)
  {
    forall i | 0 <= i < |lines|
      ensures NearAny(lines[i], FilterSimilar(lines, tolerance), tolerance)
    {
      FilterDecision(lines, tolerance, i);
      FilterPrefix(lines, tolerance, i + 1);
      var before := FilterSimilar(lines[..i], tolerance);
      var final := FilterSimilar(lines, tolerance);
      if NearAny(lines[i], before, tolerance) {
        var k :| 0 <= k < |before| && AbsReal(lines[i].rho - before[k].rho) < tolerance;
        assert final[k] == before[k];
      } else {
        var k := |before|;
        assert final[k] == lines[i];
      }
    }
  }

  /** Lines that are already separated pass the filter unchanged. */
  lemma {:induction false} SeparatedPassUnchanged(lines: seq<Line>, tolerance: real)
    requires Separated(lines, tolerance)
    ensures FilterSimilar(lines, tolerance) == lines
  {
    if lines != [] {
      var prefix, last := lines[..|lines| - 1], lines[|lines| - 1];
      assert Separated(prefix, tolerance);
      SeparatedPassUnchanged(prefix, tolerance);
      forall k | 0 <= k < |prefix|
        ensures AbsReal(last.rho - prefix[k].rho) >= tolerance
      {
        assert AbsReal(lines[k].rho - lines[|lines| - 1].rho) >= tolerance;
      }
      assert !NearAny(last, prefix, tolerance);
      assert lines == prefix + [last];
    }
  }

  /** Filtering an already filtered list returns it unchanged. */
  lemma {:induction false} FilterIdempotent(lines: seq<Line>, tolerance: real)
    ensures FilterSimilar(FilterSimilar(lines, tolerance), tolerance) == FilterSimilar(lines, tolerance)
  {
    FilterSeparated(lines, tolerance);
    SeparatedPassUnchanged(FilterSimilar(lines, tolerance), tolerance);
  }

  // ---------------------------------------------------------------------------
  // The extreme lines after sorting by rho
  // ---------------------------------------------------------------------------

  /** Ascending by rho, as List.sort with a rho comparator leaves a list. */
  predicate SortedByRho(lines: seq<Line>) {
    forall i, j :: 0 <= i < j < |lines| ==> lines[i].rho <= lines[j].rho
  }

  /** Index of the first line of least rho. */
  function LowestIndex(lines: seq<Line>): (i: nat)
    requires |lines| > 0
    ensures i < |lines|
    ensures forall k :: 0 <= k < |lines| ==> lines[i].rho <= lines[k].rho
    ensures forall k :: 0 <= k < i ==> lines[k].rho > lines[i].rho
  {
    if |lines| == 1 then 0
    else
      var j := LowestIndex(lines[..|lines| - 1]);
      if lines[|lines| - 1].rho < lines[j].rho then |lines| - 1 else j
  }

  /** Index of the last line of greatest rho. */
  function HighestIndex(lines: seq<Line>): (i: nat)
    requires |lines| > 0
    ensures i < |lines|
    ensures forall k :: 0 <= k < |lines| ==> lines[i].rho >= lines[k].rho
    ensures forall k :: i < k < |lines| ==> lines[k].rho < lines[i].rho
  {
    if |lines| == 1 then 0
    else
      var j := HighestIndex(lines[..|lines| - 1]);
      if lines[|lines| - 1].rho >= lines[j].rho then |lines| - 1 else j
  }

  /** Two separated lines with the same rho are the same line. */
  lemma SameRhoSameIndex(lines: seq<Line>, tolerance: real, a: nat, b: nat)
    requires tolerance > 0.0 && Separated(lines, tolerance)
    requires a < |lines| && b < |lines| && lines[a].rho == lines[b].rho
    ensures a == b
  {
  }

  lemma {:induction false} SortedFirst(lines: seq<Line>, sorted: seq<Line>, tolerance: real)
    requires |lines| > 0 && tolerance > 0.0 && Separated(lines, tolerance)
    requires multiset(sorted) == multiset(lines) && SortedByRho(sorted) && |sorted| == |lines|
    ensures sorted[0] == lines[LowestIndex(lines)]
  {
    var lo := LowestIndex(lines);
    assert sorted[0] in multiset(lines);
    var a :| 0 <= a < |lines| && lines[a] == sorted[0];
    assert lines[lo] in multiset(sorted);
    var c :| 0 <= c < |sorted| && sorted[c] == lines[lo];
    assert sorted[0].rho <= sorted[c].rho;
    SameRhoSameIndex(lines, tolerance, a, lo);
  }

  lemma {:induction false} SortedLast(lines: seq<Line>, sorted: seq<Line>, tolerance: real)
    requires |lines| > 0 && tolerance > 0.0 && Separated(lines, tolerance)
    requires multiset(sorted) == multiset(lines) && SortedByRho(sorted) && |sorted| == |lines|
    ensures sorted[|sorted| - 1] == lines[HighestIndex(lines)]
  {
    var hi, n := HighestIndex(lines), |lines|;
    assert sorted[n - 1] in multiset(lines);
    var b :| 0 <= b < n && lines[b] == sorted[n - 1];
    assert lines[hi] in multiset(sorted);
    var d :| 0 <= d < n && sorted[d] == lines[hi];
    assert sorted[d].rho <= sorted[n - 1].rho;
    SameRhoSameIndex(lines, tolerance, b, hi);
  }

  /**
   * For lines at least a positive tolerance apart, every rho-sorted
   * rearrangement starts with the least-rho line and ends with the
   * greatest-rho line, so picking those two is what sorting and taking the
   * first and last element does.
   */
  lemma {:induction false} SortedEnds(lines: seq<Line>, sorted: seq<Line>, tolerance: real)
    requires |lines| > 0 && tolerance > 0.0 && Separated(lines, tolerance)
    requires multiset(sorted) == multiset(lines) && SortedByRho(sorted)
    ensures |sorted| == |lines|
    ensures sorted[0] == lines[LowestIndex(lines)]
    ensures sorted[|sorted| - 1] == lines[HighestIndex(lines)]
  {
    assert |sorted| == |multiset(sorted)| == |multiset(lines)| == |lines|;
    SortedFirst(lines, sorted, tolerance);
    SortedLast(lines, sorted, tolerance);
  }

  /** Two separated lines: the greatest rho exceeds the least by at least the tolerance. */
  lemma ExtremesApart(lines: seq<Line>, tolerance: real)
    requires |lines| >= 2 && Separated(lines, tolerance)
    ensures lines[HighestIndex(lines)].rho - lines[LowestIndex(lines)].rho >= tolerance
  {
    var lo, hi := LowestIndex(lines), HighestIndex(lines);
    var other := if lo == 0 then 1 else 0;
    assert lines[lo].rho <= lines[other].rho <= lines[hi].rho;
    if lo < other {
      assert AbsReal(lines[lo].rho - lines[other].rho) >= tolerance;
    } else {
      assert AbsReal(lines[other].rho - lines[lo].rho) >= tolerance;
    }
  }
}
