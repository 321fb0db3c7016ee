/** Pickup grading (src/grading/pickup_grader.py). Square roots, pi and the
    Euclidean norm are not modelled: a ROI's radius is given as a function of
    its area and the distance between two centres as a function of the centres. */
module Grading {
  import opened Labels
  import opened Detection

  datatype GraderConfig = GraderConfig(
    checkOrientation: bool,
    plateWidthMm: real,
    minDistanceMm: real,
    imageWidthPx: Option<int>,
    minDistancePx: Option<real>)   // derived from the three fields above

  /** The constructor: with a known image width the minimum distance is
      converted from millimetres to pixels through the plate's width. */
  function NewGrader(checkOrientation: bool, plateWidthMm: real, minDistanceMm: real, imageWidthPx: Option<int>): (g: GraderConfig)
    requires imageWidthPx.Some? ==> plateWidthMm != 0.0
    ensures g.checkOrientation == checkOrientation && g.imageWidthPx == imageWidthPx
    ensures g.minDistancePx.Some? <==> imageWidthPx.Some?
    ensures imageWidthPx.Some? ==> g.minDistancePx.value * plateWidthMm == minDistanceMm * imageWidthPx.value as real
  {
    var px := match imageWidthPx
      case Some(w) => Some(minDistanceMm * (w as real / plateWidthMm))
      case None => None;
    GraderConfig(checkOrientation, plateWidthMm, minDistanceMm, imageWidthPx, px)
  }

  /** Default plate of 100 mm and minimum gap of 2 mm. */
  function DefaultGrader(imageWidthPx: Option<int>): GraderConfig
  {
    NewGrader(true, 100.0, 2.0, imageWidthPx)
  }

  /** One graded ROI: grade None when it is not pickable (tilted), -1.0 when
      it is too close to a neighbour, a priority in [0, 10] otherwise. */
  datatype GradedDiamond = GradedDiamond(
    roi: DiamondRoi,
    grade: Option<real>,
    nearestDistance: Option<real>,
    radius: real)

  predicate IsRoundTable(roi: DiamondRoi)
  {
    roi.detectedType == Round && roi.orientation == Some(Table)
  }

  /** `_get_safety_threshold`: the fixed pixel distance when known; otherwise
      the radius for a round ROI lying on its table, a third of it for any other. */
  function SafetyThreshold(g: GraderConfig, roi: DiamondRoi, radius: nat -> real): (t: real)
    ensures g.minDistancePx.Some? ==> t == g.minDistancePx.value
    ensures g.minDistancePx.None? && IsRoundTable(roi) ==> t == radius(roi.area)
    ensures g.minDistancePx.None? && !IsRoundTable(roi) ==> 3.0 * t == radius(roi.area)
  {
    if g.minDistancePx.Some? then g.minDistancePx.value
    else if IsRoundTable(roi) then radius(roi.area)
    else radius(roi.area) / 3.0
  }

  /** With a known pixel distance every ROI has the same threshold. */
  lemma ThresholdUniformWithWidth(g: GraderConfig, a: DiamondRoi, b: DiamondRoi, radius: nat -> real)
    requires g.minDistancePx.Some?
    ensures SafetyThreshold(g, a, radius) == SafetyThreshold(g, b, radius)
  {
  }

  /** Centre distance minus both radii. */
  function EdgeDistance(target: DiamondRoi, other: DiamondRoi, radius: nat -> real, dist: (Point2, Point2) -> real): real
  {
    dist(target.center, other.center) - radius(target.area) - radius(other.area)
  }

  /** The running state of `_find_nearest_edge_distance` after a prefix of the
      ROIs: the minimum edge distance so far (None while it is infinite) and
      the threshold recorded with it. */
  datatype EdgeScanState = EdgeScanState(minEdge: Option<real>, required: real)

  function EdgeScan(g: GraderConfig, target: DiamondRoi, rois: seq<DiamondRoi>,
                    radius: nat -> real, dist: (Point2, Point2) -> real): (s: EdgeScanState)
    ensures s.minEdge.None? <==> forall k :: 0 <= k < |rois| ==> rois[k].id == target.id
    ensures s.minEdge.Some? ==>
              forall k :: 0 <= k < |rois| && rois[k].id != target.id ==>
                s.minEdge.value <= EdgeDistance(target, rois[k], radius, dist)
    ensures s.minEdge.Some? ==>
              exists k :: 0 <= k < |rois| && rois[k].id != target.id &&
                s.minEdge.value == EdgeDistance(target, rois[k], radius, dist) &&
                s.required == Min(SafetyThreshold(g, target, radius), SafetyThreshold(g, rois[k], radius))
    ensures s.minEdge.None? ==> s.required == SafetyThreshold(g, target, radius)
    ensures s.required <= SafetyThreshold(g, target, radius)
    decreases |rois|
  {
    if |rois| == 0 then EdgeScanState(None, SafetyThreshold(g, target, radius))
    else
      var prev := EdgeScan(g, target, rois[..|rois| - 1], radius, dist);
      var other := rois[|rois| - 1];
      if other.id == target.id then prev
      else
        var e := EdgeDistance(target, other, radius, dist);
        if prev.minEdge.None? || e < prev.minEdge.value then
          EdgeScanState(Some(e), Min(SafetyThreshold(g, target, radius), SafetyThreshold(g, other, radius)))
        else prev
  }

  /** What `_find_nearest_edge_distance` returns: the scan's minimum, 0.0 when
      it stayed infinite, and the recorded threshold. */
  function NearestEdge(g: GraderConfig, target: DiamondRoi, rois: seq<DiamondRoi>,
                       radius: nat -> real, dist: (Point2, Point2) -> real): (real, real)
  {
    var s := EdgeScan(g, target, rois, radius, dist);
    (if s.minEdge.Some? then s.minEdge.value else 0.0, s.required)
  }

  /** `_find_nearest_edge_distance`: one pass over every ROI with a different
      id, keeping a strict running minimum. */
  method FindNearestEdgeDistance(g: GraderConfig, target: DiamondRoi, rois: seq<DiamondRoi>,
                                 radius: nat -> real, dist: (Point2, Point2) -> real)
    returns (edge: real, required: real)
    ensures (edge, required) == NearestEdge(g, target, rois, radius, dist)
    ensures required <= SafetyThreshold(g, target, radius)
    ensures (forall k :: 0 <= k < |rois| ==> rois[k].id == target.id) ==> edge == 0.0
    ensures forall k :: 0 <= k < |rois| && rois[k].id != target.id ==> edge <= EdgeDistance(target, rois[k], radius, dist)
  {
    var targetThreshold := SafetyThreshold(g, target, radius);
    var minEdge: Option<real> := None;
    required := targetThreshold;
    for i := 0 to |rois|
      invariant EdgeScan(g, target, rois[..i], radius, dist) == EdgeScanState(minEdge, required)
    {
      assert rois[..i + 1][..i] == rois[..i];
      var other := rois[i];
      if other.id == target.id {
        continue;
      }
      var e := EdgeDistance(target, other, radius, dist);
      if minEdge.None? || e < minEdge.value {
        minEdge := Some(e);
        required := Min(targetThreshold, SafetyThreshold(g, other, radius));
      }
    }
    assert rois[..|rois|] == rois;
    edge := if minEdge.Some? then minEdge.value else 0.0;
  }

  /** The running minimum of `_find_nearest_neighbor_distance` over a prefix (None while infinite). */
  function CentreScan(target: DiamondRoi, rois: seq<DiamondRoi>, dist: (Point2, Point2) -> real): (m: Option<real>)
    ensures m.None? <==> forall k :: 0 <= k < |rois| ==> rois[k].id == target.id
    ensures m.Some? ==> forall k :: 0 <= k < |rois| && rois[k].id != target.id ==> m.value <= dist(target.center, rois[k].center)
    ensures m.Some? ==> exists k :: 0 <= k < |rois| && rois[k].id != target.id && m.value == dist(target.center, rois[k].center)
    decreases |rois|
  {
    if |rois| == 0 then None
    else
      var prev := CentreScan(target, rois[..|rois| - 1], dist);
      var other := rois[|rois| - 1];
      if other.id == target.id then prev
      else
        var d := dist(target.center, other.center);
        if prev.None? || d < prev.value then Some(d) else prev
  }

  /** `_find_nearest_neighbor_distance`: the least centre distance to a ROI
      with a different id, or 0.0 when there is none. */
  method FindNearestNeighborDistance(target: DiamondRoi, rois: seq<DiamondRoi>, dist: (Point2, Point2) -> real)
    returns (d: real)
    ensures (forall k :: 0 <= k < |rois| ==> rois[k].id == target.id) ==> d == 0.0
    ensures forall k :: 0 <= k < |rois| && rois[k].id != target.id ==> d <= dist(target.center, rois[k].center)
    ensures (exists k :: 0 <= k < |rois| && rois[k].id != target.id) ==>
              exists k :: 0 <= k < |rois| && rois[k].id != target.id && d == dist(target.center, rois[k].center)
  {
    var minDistance: Option<real> := None;
    for i := 0 to |rois|
      invariant CentreScan(target, rois[..i], dist) == minDistance
    {
      assert rois[..i + 1][..i] == rois[..i];
      if rois[i].id == target.id {
        continue;
      }
      var candidate := dist(target.center, rois[i].center);
      if minDistance.None? || candidate < minDistance.value {
        minDistance := Some(candidate);
      }
    }
    assert rois[..|rois|] == rois;
    d := if minDistance.Some? then minDistance.value else 0.0;
  }

  // ---------------------------------------------------------------- grades

  /** The isolation grade of a ROI that is not too close: 0 at the threshold,
      10 from six radii on, linear in between, clamped to [0, 10]. When the
      span is zero the float division gives +inf (grade 10) or NaN (which the
      clamp turns into 0). */
  function IsolationGrade(edge: real, threshold: real, radius: real): (grade: real)
    ensures 0.0 <= grade <= 10.0
  {
    var span := 6.0 * radius - threshold;
    if span == 0.0 then (if edge - threshold > 0.0 then 10.0 else 0.0)
    else Min(10.0, Max(0.0, (edge - threshold) / span * 10.0))
  }

  /** With a positive span the grade is 0 at the threshold, 10 from six
      radii on, and never decreases as the gap grows. */
  lemma IsolationGradeShape(e1: real, e2: real, threshold: real, radius: real)
    requires 6.0 * radius - threshold > 0.0
    requires threshold <= e1 <= e2
    ensures IsolationGrade(threshold, threshold, radius) == 0.0
    ensures e1 >= 6.0 * radius ==> IsolationGrade(e1, threshold, radius) == 10.0
    ensures IsolationGrade(e1, threshold, radius) <= IsolationGrade(e2, threshold, radius)
  {
    var span := 6.0 * radius - threshold;
    assert (e1 - threshold) / span <= (e2 - threshold) / span;
    if e1 >= 6.0 * radius {
      assert (e1 - threshold) / span >= 1.0;
    }
  }

  /** How `grade_diamonds` grades one ROI, as written. */
  function GradeOne(g: GraderConfig, roi: DiamondRoi, rois: seq<DiamondRoi>,
                    radius: nat -> real, dist: (Point2, Point2) -> real): (d: GradedDiamond)
    ensures d.roi == roi && d.radius == radius(roi.area)
    ensures d.grade.None? <==> g.checkOrientation && roi.orientation == Some(Tilted)
    ensures d.grade.None? <==> d.nearestDistance.None?
    ensures d.grade.Some? ==> d.nearestDistance.value == NearestEdge(g, roi, rois, radius, dist).0
    ensures d.grade.Some? ==>
              (d.grade.value == -1.0 <==> NearestEdge(g, roi, rois, radius, dist).0 < NearestEdge(g, roi, rois, radius, dist).1)
    ensures d.grade.Some? ==> d.grade.value == -1.0 || 0.0 <= d.grade.value <= 10.0
  {
    var r := radius(roi.area);
    if g.checkOrientation && roi.orientation == Some(Tilted) then GradedDiamond(roi, None, None, r)
    else
      var (edge, threshold) := NearestEdge(g, roi, rois, radius, dist);
      var grade := if edge < threshold then -1.0 else IsolationGrade(edge, threshold, r);
      GradedDiamond(roi, Some(grade), Some(edge), r)
  }

  /** `grade_diamonds` as written: one graded entry per ROI, in order. */
  method GradeDiamonds(g: GraderConfig, rois: seq<DiamondRoi>, radius: nat -> real, dist: (Point2, Point2) -> real)
    returns (graded: seq<GradedDiamond>)
    ensures |graded| == |rois|
    ensures forall k {:trigger graded[k]} :: 0 <= k < |rois| ==> graded[k] == GradeOne(g, rois[k], rois, radius, dist)
  {
    graded := [];
    for i := 0 to |rois|
      invariant |graded| == i
      invariant forall k {:trigger graded[k]} :: 0 <= k < i ==> graded[k] == GradeOne(g, rois[k], rois, radius, dist)
    {
      var roi := rois[i];
      var r := radius(roi.area);
      if g.checkOrientation && roi.orientation == Some(Tilted) {
        graded := graded + [GradedDiamond(roi, None, None, r)];
        continue;
      }
      var edge, threshold := FindNearestEdgeDistance(g, roi, rois, radius, dist);
      var grade := if edge < threshold then -1.0 else IsolationGrade(edge, threshold, r);
      graded := graded + [GradedDiamond(roi, Some(grade), Some(edge), r)];
    }
  }

  /** A lone ROI on the plate, not tilted, with a positive safety threshold is
      graded invalid (-1): with no neighbour the edge distance falls back to
      0.0, which is below the threshold. */
  lemma LoneDiamondGradedInvalid(g: GraderConfig, roi: DiamondRoi, radius: nat -> real, dist: (Point2, Point2) -> real)
    requires !(g.checkOrientation && roi.orientation == Some(Tilted))
    requires SafetyThreshold(g, roi, radius) > 0.0
    ensures GradeOne(g, roi, [roi], radius, dist).grade == Some(-1.0)
  {
    assert [roi][..0] == [];
  }

  /** The same on the default grader for a 2592-pixel-wide image: the threshold is 51.84 px. */
  lemma LoneDiamondExample(roi: DiamondRoi, radius: nat -> real, dist: (Point2, Point2) -> real)
    requires roi.orientation == Some(Table)
    ensures GradeOne(DefaultGrader(Some(2592)), roi, [roi], radius, dist).grade == Some(-1.0)
  {
    var g := DefaultGrader(Some(2592));
    assert g.minDistancePx == Some(51.84);
    LoneDiamondGradedInvalid(g, roi, radius, dist);
  }

  /** The intended grading: as written, except that a ROI with no neighbour
      at all is as isolated as can be and gets the top grade, with no
      nearest distance. */
  function GradeOneCorrected(g: GraderConfig, roi: DiamondRoi, rois: seq<DiamondRoi>,
                             radius: nat -> real, dist: (Point2, Point2) -> real): (d: GradedDiamond)
    ensures d.roi == roi && d.radius == radius(roi.area)
    ensures d.grade.None? <==> g.checkOrientation && roi.orientation == Some(Tilted)
    ensures d.grade.Some? ==> d.grade.value == -1.0 || 0.0 <= d.grade.value <= 10.0
  {
    var r := radius(roi.area);
    if g.checkOrientation && roi.orientation == Some(Tilted) then GradedDiamond(roi, None, None, r)
    else
      var s := EdgeScan(g, roi, rois, radius, dist);
      if s.minEdge.None? then GradedDiamond(roi, Some(10.0), None, r)
      else
        var grade := if s.minEdge.value < s.required then -1.0 else IsolationGrade(s.minEdge.value, s.required, r);
        GradedDiamond(roi, Some(grade), Some(s.minEdge.value), r)
  }

  /** With the correction a ROI is invalid only because of a real neighbour
      whose edge lies closer than the threshold recorded for it; a ROI with
      no neighbour gets grade 10. */
  lemma CorrectedInvalidNeedsNeighbour(g: GraderConfig, roi: DiamondRoi, rois: seq<DiamondRoi>,
                                       radius: nat -> real, dist: (Point2, Point2) -> real)
    ensures GradeOneCorrected(g, roi, rois, radius, dist).grade == Some(-1.0) ==>
              exists k :: 0 <= k < |rois| && rois[k].id != roi.id &&
                EdgeDistance(roi, rois[k], radius, dist) <
                  Min(SafetyThreshold(g, roi, radius), SafetyThreshold(g, rois[k], radius))
    ensures !(g.checkOrientation && roi.orientation == Some(Tilted)) &&
            (forall k :: 0 <= k < |rois| ==> rois[k].id == roi.id) ==>
              GradeOneCorrected(g, roi, rois, radius, dist).grade == Some(10.0)
  {
    var s := EdgeScan(g, roi, rois, radius, dist);
    if GradeOneCorrected(g, roi, rois, radius, dist).grade == Some(-1.0) {
      assert s.minEdge.Some?;
      var k :| 0 <= k < |rois| && rois[k].id != roi.id &&
                s.minEdge.value == EdgeDistance(roi, rois[k], radius, dist) &&
                s.required == Min(SafetyThreshold(g, roi, radius), SafetyThreshold(g, rois[k], radius));
    }
  }

  /** Where some neighbour exists, the correction changes nothing. */
  lemma CorrectionAgreesWithNeighbours(g: GraderConfig, roi: DiamondRoi, rois: seq<DiamondRoi>,
                                       radius: nat -> real, dist: (Point2, Point2) -> real)
    requires exists k :: 0 <= k < |rois| && rois[k].id != roi.id
    ensures GradeOneCorrected(g, roi, rois, radius, dist) == GradeOne(g, roi, rois, radius, dist)
  {
  }

  /** `grade_diamonds` with the correction, as the rest of the pipeline uses it. */
  method GradeDiamondsCorrected(g: GraderConfig, rois: seq<DiamondRoi>, radius: nat -> real, dist: (Point2, Point2) -> real)
    returns (graded: seq<GradedDiamond>)
    ensures |graded| == |rois|
    ensures forall k {:trigger graded[k]} :: 0 <= k < |rois| ==> graded[k] == GradeOneCorrected(g, rois[k], rois, radius, dist)
  {
    graded := [];
    for i := 0 to |rois|
      invariant |graded| == i
      invariant forall k {:trigger graded[k]} :: 0 <= k < i ==> graded[k] == GradeOneCorrected(g, rois[k], rois, radius, dist)
    {
      var d := GradeRoiCorrected(g, rois[i], rois, radius, dist);
      graded := graded + [d];
    }
  }

  /** One pass of the corrected loop: tilted ROIs are skipped, a ROI with no
      neighbour gets 10, the others are graded on their nearest edge. */
  method GradeRoiCorrected(g: GraderConfig, roi: DiamondRoi, rois: seq<DiamondRoi>,
                           radius: nat -> real, dist: (Point2, Point2) -> real)
    returns (d: GradedDiamond)
    ensures d == GradeOneCorrected(g, roi, rois, radius, dist)
  {
    var r := radius(roi.area);
    if g.checkOrientation && roi.orientation == Some(Tilted) {
      return GradedDiamond(roi, None, None, r);
    }
    var edge, threshold := FindNearestEdgeDistance(g, roi, rois, radius, dist);
    var s := EdgeScan(g, roi, rois, radius, dist);
    if s.minEdge.None? {
      return GradedDiamond(roi, Some(10.0), None, r);
    }
    var grade := if edge < threshold then -1.0 else IsolationGrade(edge, threshold, r);
    d := GradedDiamond(roi, Some(grade), Some(edge), r);
  }
}
