/** The orientation rules of the pure geometric classifier
    (src/classification/pure_geometric_classifier.py): four scores measured
    on a diamond and the thresholds that turn them into 'table' or 'tilted'.
    The reflection score, the spot components and their symmetry are
    measurements given as inputs. */
module GeometricClassifier {
  import opened Labels
  import ShapeSymmetry

  datatype Thresholds = Thresholds(outline: real, reflection: real, spot: real, aspectRatio: real)

  function DefaultThresholds(): Thresholds
  {
    Thresholds(0.70, 0.65, 0.60, 0.58)
  }

  datatype Decision = Decision(orientation: Orientation, confidence: real)

  // ---------------------------------------------------------------- decision

  predicate StrongTable(th: Thresholds, outline: real, reflection: real, aspect: real)
  {
    outline >= th.outline && reflection >= th.reflection && aspect >= th.aspectRatio
  }

  /** How many of the three primary scores are weak. */
  function WeakCount(outline: real, reflection: real, aspect: real): (n: nat)
    ensures n <= 3
    ensures n == 0 <==> outline >= 0.60 && reflection >= 0.55 && aspect >= 0.52
  {
    (if outline < 0.60 then 1 else 0) + (if reflection < 0.55 then 1 else 0) + (if aspect < 0.52 then 1 else 0)
  }

  function PrimaryScore(outline: real, reflection: real, aspect: real): real
  {
    0.25 * outline + 0.35 * reflection + 0.40 * aspect
  }

  /** The primary score, blended with the spot symmetry only near the 0.60
      boundary when a large enough symmetric spot was found. */
  function FinalScore(th: Thresholds, outline: real, reflection: real, hasSpot: bool, spotSym: real, aspect: real): real
  {
    var primary := PrimaryScore(outline, reflection, aspect);
    var distance := if primary - 0.60 >= 0.0 then primary - 0.60 else 0.60 - primary;
    if distance < 0.05 && hasSpot && spotSym >= th.spot then 0.7 * primary + 0.3 * spotSym
    else primary
  }

  predicate InUnit(x: real)
  {
    0.0 <= x <= 1.0
  }

  /** `_make_decision`. */
  function MakeDecision(th: Thresholds, outline: real, reflection: real, hasSpot: bool, spotSym: real, aspect: real): (d: Decision)
    ensures StrongTable(th, outline, reflection, aspect) ==>
              d == Decision(Table, (outline + reflection + aspect) / 3.0)
    ensures !StrongTable(th, outline, reflection, aspect) && WeakCount(outline, reflection, aspect) >= 2 ==>
              d == Decision(Tilted, 1.0 - (outline + reflection + aspect) / 3.0)
    ensures !StrongTable(th, outline, reflection, aspect) && WeakCount(outline, reflection, aspect) < 2 ==>
              (d.orientation == Table <==> FinalScore(th, outline, reflection, hasSpot, spotSym, aspect) >= 0.60)
    ensures InUnit(outline) && InUnit(reflection) && InUnit(spotSym) && InUnit(aspect) ==> InUnit(d.confidence)
  {
    if StrongTable(th, outline, reflection, aspect) then
      Decision(Table, (outline + reflection + aspect) / 3.0)
    else if WeakCount(outline, reflection, aspect) >= 2 then
      Decision(Tilted, 1.0 - (outline + reflection + aspect) / 3.0)
    else
      var final := FinalScore(th, outline, reflection, hasSpot, spotSym, aspect);
      if final >= 0.60 then Decision(Table, final) else Decision(Tilted, 1.0 - final)
  }

  /** With the default thresholds a strong table has no weak score, so the
      first two rules never compete. */
  lemma DefaultStrongTableHasNoWeakScore(outline: real, reflection: real, aspect: real)
    requires StrongTable(DefaultThresholds(), outline, reflection, aspect)
    ensures WeakCount(outline, reflection, aspect) == 0
  {
  }

  /** A spot threshold of at least 0.60 makes the spot a pure tie-breaker
      toward 'table': it never turns a table verdict of the mixed rule into tilted. */
  lemma SpotNeverDemotesTable(th: Thresholds, outline: real, reflection: real, spotSym: real, aspect: real)
    requires th.spot >= 0.60
    requires !StrongTable(th, outline, reflection, aspect) && WeakCount(outline, reflection, aspect) < 2
    requires MakeDecision(th, outline, reflection, false, spotSym, aspect).orientation == Table
    ensures MakeDecision(th, outline, reflection, true, spotSym, aspect).orientation == Table
  {
  }

  /** A table verdict always comes with a confidence of at least the smaller
      of 0.60 and the mean of the three primary thresholds. */
  lemma TableConfidenceFloor(th: Thresholds, outline: real, reflection: real, hasSpot: bool, spotSym: real, aspect: real)
    requires MakeDecision(th, outline, reflection, hasSpot, spotSym, aspect).orientation == Table
    ensures MakeDecision(th, outline, reflection, hasSpot, spotSym, aspect).confidence >=
              Min(0.60, (th.outline + th.reflection + th.aspectRatio) / 3.0)
  {
  }

  // ---------------------------------------------------------------- metrics

  /** `_calculate_aspect_ratio`: 0 for a contour too short to fit an ellipse. */
  function CalculateAspectRatio(contourLength: nat, axes: (real, real)): (r: real)
    ensures contourLength < 5 ==> r == 0.0
    ensures axes.0 >= 0.0 && axes.1 >= 0.0 ==> InUnit(r)
  {
    if contourLength < 5 then 0.0 else AxisRatio(axes)
  }

  /** The ratio does not depend on which axis OpenCV reports first, and it
      is 1 exactly for equal, non-degenerate axes. */
  lemma AspectRatioSymmetric(contourLength: nat, a: real, b: real)
    requires a >= 0.0 && b >= 0.0
    ensures CalculateAspectRatio(contourLength, (a, b)) == CalculateAspectRatio(contourLength, (b, a))
    ensures contourLength >= 5 ==> (CalculateAspectRatio(contourLength, (a, b)) == 1.0 <==> a == b && a > 0.0)
  {
    if contourLength >= 5 && Max(a, b) > 0.0 {
      var r := CalculateAspectRatio(contourLength, (a, b));
      if r == 1.0 {
        assert Min(a, b) == Max(a, b);
      }
    }
  }

  /** `_analyze_outline_symmetry`: the best mirror score and the angle of the
      axis that scored it (the major axis on a tie). */
  function OutlineSymmetry(contourLength: nat, s: ShapeSymmetry.SymmetryResult): (r: (real, real))
    ensures contourLength < 5 ==> r == (0.0, 0.0)
    ensures contourLength >= 5 ==> r.0 == s.bestSymmetry
    ensures contourLength >= 5 ==>
              r.1 == (if s.symmetryMajor >= s.symmetryMinor then s.majorAxisAngle else s.minorAxisAngle)
  {
    if contourLength < 5 then (0.0, 0.0)
    else (s.bestSymmetry, if s.symmetryMajor >= s.symmetryMinor then s.majorAxisAngle else s.minorAxisAngle)
  }

  datatype SpotAnalysis = SpotAnalysis(hasSpot: bool, symmetry: real, isLight: bool)

  /** A largest component counts as a large spot when it covers more than 15%
      of the mask. */
  predicate Large(largest: Option<nat>, totalArea: real)
  {
    largest.Some? && largest.value as real > 0.15 * totalArea
  }

  function AreaOf(largest: Option<nat>): nat
  {
    if largest.Some? then largest.value else 0
  }

  /** The selection in `_analyze_large_spots`. `lightLargest` and `darkLargest`
      are the areas of the largest bright and dark components (None when there
      is none) and the symmetries those spots would measure. */
  function AnalyzeLargeSpots(maskPixels: nat, totalArea: real,
                             lightLargest: Option<nat>, darkLargest: Option<nat>,
                             lightSymmetry: real, darkSymmetry: real): (r: SpotAnalysis)
    ensures maskPixels == 0 ==> r == SpotAnalysis(false, 0.0, false)
    ensures maskPixels > 0 ==> (r.hasSpot <==> Large(lightLargest, totalArea) || Large(darkLargest, totalArea))
    ensures !r.hasSpot ==> r.symmetry == 0.0
    ensures r.hasSpot && r.isLight ==> Large(lightLargest, totalArea) && r.symmetry == lightSymmetry
    ensures r.hasSpot && !r.isLight ==> Large(darkLargest, totalArea) && r.symmetry == darkSymmetry
    ensures maskPixels > 0 && !r.hasSpot ==> r.isLight
  {
    if maskPixels == 0 then SpotAnalysis(false, 0.0, false)
    else
      var largeLight := Large(lightLargest, totalArea);
      var largeDark := Large(darkLargest, totalArea);
      if largeLight && AreaOf(lightLargest) >= AreaOf(darkLargest) then SpotAnalysis(true, lightSymmetry, true)
      else if largeDark then SpotAnalysis(true, darkSymmetry, false)
      else SpotAnalysis(false, 0.0, true)
  }

  /** Of the large spots, the larger one is chosen; the light spot wins a tie. */
  lemma LargerSpotChosen(maskPixels: nat, totalArea: real, lightLargest: Option<nat>, darkLargest: Option<nat>,
                         lightSymmetry: real, darkSymmetry: real)
    requires maskPixels > 0
    ensures var r := AnalyzeLargeSpots(maskPixels, totalArea, lightLargest, darkLargest, lightSymmetry, darkSymmetry);
            (r.hasSpot && r.isLight && Large(darkLargest, totalArea) ==> AreaOf(lightLargest) >= AreaOf(darkLargest)) &&
            (r.hasSpot && !r.isLight && Large(lightLargest, totalArea) ==> AreaOf(darkLargest) > AreaOf(lightLargest))
  {
  }

  // ---------------------------------------------------------------- analyse

  /** The measurements `analyze` combines. */
  datatype Measurements = Measurements(
    symmetry: ShapeSymmetry.SymmetryResult,
    reflectionScore: real,
    numReflectionSpots: nat,
    maskPixels: nat,
    totalArea: real,
    lightLargest: Option<nat>,
    darkLargest: Option<nat>,
    lightSymmetry: real,
    darkSymmetry: real,
    axes: (real, real))

  datatype GeometricAnalysis = GeometricAnalysis(
    outlineScore: real,
    outlineAxis: real,
    reflectionScore: real,
    numReflectionSpots: nat,
    hasLargeSpot: bool,
    spotSymmetry: real,
    spotIsLight: bool,
    aspectRatio: real,
    orientation: Orientation,
    confidence: real)

  /** `analyze`: the four metrics and the decision drawn from them. */
  function Analyze(th: Thresholds, contourLength: nat, m: Measurements): (a: GeometricAnalysis)
    ensures Decision(a.orientation, a.confidence) ==
              MakeDecision(th, a.outlineScore, a.reflectionScore, a.hasLargeSpot, a.spotSymmetry, a.aspectRatio)
    ensures (a.outlineScore, a.outlineAxis) == OutlineSymmetry(contourLength, m.symmetry)
    ensures a.aspectRatio == CalculateAspectRatio(contourLength, m.axes)
    ensures SpotAnalysis(a.hasLargeSpot, a.spotSymmetry, a.spotIsLight) ==
              AnalyzeLargeSpots(m.maskPixels, m.totalArea, m.lightLargest, m.darkLargest, m.lightSymmetry, m.darkSymmetry)
  {
    var (outline, axis) := OutlineSymmetry(contourLength, m.symmetry);
    var spot := AnalyzeLargeSpots(m.maskPixels, m.totalArea, m.lightLargest, m.darkLargest, m.lightSymmetry, m.darkSymmetry);
    var aspect := CalculateAspectRatio(contourLength, m.axes);
    var d := MakeDecision(th, outline, m.reflectionScore, spot.hasSpot, spot.symmetry, aspect);
    GeometricAnalysis(outline, axis, m.reflectionScore, m.numReflectionSpots, spot.hasSpot, spot.symmetry,
                      spot.isLight, aspect, d.orientation, d.confidence)
  }

  /** `classify_orientation`: without an image, without a mask or with a
      contour of fewer than 5 points the answer is tilted with no confidence. */
  function ClassifyOrientation(th: Thresholds, hasImage: bool, hasMask: bool, contourLength: nat, m: Measurements): (d: Decision)
    ensures !hasImage || !hasMask || contourLength < 5 ==> d == Decision(Tilted, 0.0)
    ensures hasImage && hasMask && contourLength >= 5 ==>
              d == Decision(Analyze(th, contourLength, m).orientation, Analyze(th, contourLength, m).confidence)
  {
    if !hasImage || !hasMask || contourLength < 5 then Decision(Tilted, 0.0)
    else
      var a := Analyze(th, contourLength, m);
      Decision(a.orientation, a.confidence)
  }
}
