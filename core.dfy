/** The classification engine (src/core.py): detection, per-diamond
    features, the orientation model, grading and the per-image summary.
    The trained model is given as two functions of the feature vector; the
    image is given through its FastSAM masks and the measurements the
    detector, the feature extractor and the pickup grader would take from it. */
module Core {
  import opened Labels
  import opened Detection
  import opened Grading
  import opened GeometricClassifier

  /** The random forest: whether it predicts class 1 ('table') and its two
      class probabilities. */
  datatype Model = Model(predictTable: seq<real> -> bool, probability: seq<real> -> (real, real))

  /** What one image supplies to `classify_image`. */
  datatype ImageInputs = ImageInputs(
    height: nat,
    width: nat,
    masks: seq<RawMask>,
    measure: Mask -> Shape,
    centreInside: (Contour, Point2) -> bool,
    measurements: DiamondRoi -> Measurements,
    radius: nat -> real,
    dist: (Point2, Point2) -> real)

  datatype FeatureRecord = FeatureRecord(
    outlineSym: real,
    reflectionSym: real,
    aspectRatio: real,
    spotSym: real,
    hasSpot: bool,
    numReflections: nat)

  datatype ClassificationResult = ClassificationResult(
    roiId: int,
    diamondType: DiamondType,
    orientation: Orientation,
    confidence: real,
    features: FeatureRecord,
    boundingBox: Box,
    center: Point2,
    area: nat)

  datatype ImageResult = ImageResult(
    imageName: string,
    totalDiamonds: nat,
    tableCount: nat,
    tiltedCount: nat,
    pickableCount: nat,
    invalidCount: nat,
    averageGrade: real,
    classifications: seq<ClassificationResult>)

  // ---------------------------------------------------------------- detector bounds

  /** `_initialize_detector`'s area window, scaled with the pixel count
      relative to a 2592x1944 image (the square root and its square cancel). */
  function DetectorFor(h: nat, w: nat): (cfg: DetectorConfig)
    ensures cfg.minArea >= 30 && cfg.maxArea >= 1000
    ensures cfg.minArea <= cfg.maxArea
    ensures cfg.padding == 10 && !cfg.mergeOverlapping
  {
    var scale := (h * w) as real / (1944 * 2592) as real;
    var minArea := MaxInt(30, (200.0 * scale).Floor);
    var maxArea := MaxInt(1000, (20000.0 * scale).Floor);
    assert (200.0 * scale).Floor <= (20000.0 * scale).Floor;
    DetectorConfig(minArea, maxArea, 10, false, 0.25)
  }

  /** At the reference resolution the window is the detector's own 200..20000. */
  lemma DetectorAtReferenceResolution()
    ensures DetectorFor(1944, 2592).minArea == 200 && DetectorFor(1944, 2592).maxArea == 20000
  {
    assert (1944 * 2592) as real / (1944 * 2592) as real == 1.0;
  }

  // ---------------------------------------------------------------- features

  /** The eight model inputs, in the model's order. */
  function EncodeFeatures(a: GeometricAnalysis, t: DiamondType): (f: seq<real>)
    ensures |f| == 8
    ensures f[0] == a.outlineScore && f[1] == a.reflectionScore && f[2] == a.aspectRatio && f[3] == a.spotSymmetry
    ensures f[4] == 0.0 || f[4] == 1.0
    ensures f[5] == a.numReflectionSpots as real
    ensures (f[6] == 0.0 || f[6] == 1.0) && (f[7] == 0.0 || f[7] == 1.0) && f[6] + f[7] <= 1.0
  {
    [a.outlineScore, a.reflectionScore, a.aspectRatio, a.spotSymmetry,
     if a.hasLargeSpot then 1.0 else 0.0,
     a.numReflectionSpots as real,
     if t == Emerald then 1.0 else 0.0,
     if t == Other then 1.0 else 0.0]
  }

  /** Reads the type back from its one-hot flags; both zero means round. */
  function DecodeType(f: seq<real>): DiamondType
    requires |f| == 8
  {
    if f[6] == 1.0 then Emerald else if f[7] == 1.0 then Other else Round
  }

  /** The encoding loses neither the type nor the spot flag. */
  lemma EncodeFeaturesRoundTrip(a: GeometricAnalysis, t: DiamondType)
    ensures DecodeType(EncodeFeatures(a, t)) == t
    ensures (EncodeFeatures(a, t)[4] == 1.0) == a.hasLargeSpot
  {
  }

  /** One entry of `classify_image`'s loop: features, prediction, and the
      confidence the model gives the predicted class. */
  function ClassifyRoi(model: Model, th: Thresholds, roi: DiamondRoi, m: Measurements): (c: ClassificationResult)
    ensures c.roiId == roi.id && c.diamondType == roi.detectedType && c.area == roi.area
    ensures c.boundingBox == roi.bbox && c.center == roi.center
    ensures var f := EncodeFeatures(Analyze(th, |roi.contour|, m), roi.detectedType);
            (c.orientation == Table <==> model.predictTable(f)) &&
            c.confidence == (if model.predictTable(f) then model.probability(f).1 else model.probability(f).0)
  {
    var a := Analyze(th, |roi.contour|, m);
    var f := EncodeFeatures(a, roi.detectedType);
    var isTable := model.predictTable(f);
    var probability := model.probability(f);
    ClassificationResult(
      roi.id, roi.detectedType, if isTable then Table else Tilted,
      if isTable then probability.1 else probability.0,
      FeatureRecord(a.outlineScore, a.reflectionScore, a.aspectRatio, a.spotSymmetry, a.hasLargeSpot, a.numReflectionSpots),
      roi.bbox, roi.center, roi.area)
  }

  // ---------------------------------------------------------------- aggregation

  function CountOrientation(cs: seq<ClassificationResult>, o: Orientation): (n: nat)
    ensures n <= |cs|
  {
    if |cs| == 0 then 0
    else CountOrientation(cs[..|cs| - 1], o) + (if cs[|cs| - 1].orientation == o then 1 else 0)
  }

  /** Appending one classification raises exactly its own orientation's tally. */
  lemma CountOrientationSnoc(cs: seq<ClassificationResult>, c: ClassificationResult, o: Orientation)
    ensures CountOrientation(cs + [c], o) == CountOrientation(cs, o) + (if c.orientation == o then 1 else 0)
  {
    assert (cs + [c])[..|cs|] == cs;
  }

  /** Every classification is counted once, as table or as tilted. */
  lemma {:induction false} TableAndTiltedPartition(cs: seq<ClassificationResult>)
    ensures CountOrientation(cs, Table) + CountOrientation(cs, Tilted) == |cs|
  {
    if |cs| > 0 {
      TableAndTiltedPartition(cs[..|cs| - 1]);
    }
  }

  predicate IsPickable(d: GradedDiamond)
  {
    d.grade.Some? && d.grade.value >= 0.0
  }

  predicate IsInvalid(d: GradedDiamond)
  {
    d.grade == Some(-1.0)
  }

  function Pickable(ds: seq<GradedDiamond>): (p: seq<GradedDiamond>)
    ensures |p| <= |ds|
    ensures forall k :: 0 <= k < |p| ==> IsPickable(p[k])
    ensures forall k :: 0 <= k < |p| ==> p[k] in ds
  {
    if |ds| == 0 then []
    else Pickable(ds[..|ds| - 1]) + (if IsPickable(ds[|ds| - 1]) then [ds[|ds| - 1]] else [])
  }

  function InvalidCount(ds: seq<GradedDiamond>): (n: nat)
    ensures n <= |ds|
  {
    if |ds| == 0 then 0
    else InvalidCount(ds[..|ds| - 1]) + (if IsInvalid(ds[|ds| - 1]) then 1 else 0)
  }

  /** A grade of -1 is never pickable, so the two counts never overlap. */
  lemma {:induction false} PickableAndInvalidDisjoint(ds: seq<GradedDiamond>)
    ensures |Pickable(ds)| + InvalidCount(ds) <= |ds|
  {
    if |ds| > 0 {
      PickableAndInvalidDisjoint(ds[..|ds| - 1]);
    }
  }

  function SumGrades(ds: seq<GradedDiamond>): real
    requires forall k :: 0 <= k < |ds| ==> ds[k].grade.Some?
  {
    if |ds| == 0 then 0.0 else SumGrades(ds[..|ds| - 1]) + ds[|ds| - 1].grade.value
  }

  lemma {:induction false} SumGradesBounds(ds: seq<GradedDiamond>)
    requires forall k :: 0 <= k < |ds| ==> ds[k].grade.Some? && 0.0 <= ds[k].grade.value <= 10.0
    ensures 0.0 <= SumGrades(ds) <= 10.0 * |ds| as real
  {
    if |ds| > 0 {
      SumGradesBounds(ds[..|ds| - 1]);
    }
  }

  /** The mean grade of the pickable diamonds, 0.0 when there are none. */
  function AverageGrade(ds: seq<GradedDiamond>): real
  {
    var p := Pickable(ds);
    if |p| > 0 then SumGrades(p) / |p| as real else 0.0
  }

  /** When every grade is -1, None or within [0, 10], so is the average, and it lies in [0, 10]. */
  lemma AverageGradeInRange(ds: seq<GradedDiamond>)
    requires forall k :: 0 <= k < |ds| ==> ds[k].grade.None? || ds[k].grade.value == -1.0 || 0.0 <= ds[k].grade.value <= 10.0
    ensures 0.0 <= AverageGrade(ds) <= 10.0
  {
    var p := Pickable(ds);
    if |p| > 0 {
      forall k | 0 <= k < |p|
        ensures p[k].grade.Some? && 0.0 <= p[k].grade.value <= 10.0
      {
        assert p[k] in ds;
      }
      SumGradesBounds(p);
    }
  }

  /** The loop of `classify_image`: each ROI classified in order by the
      per-ROI classifier, a copy of it carrying the predicted orientation
      (what the pickup grader sees), and the table and tilted tallies. */
  method ClassifyRois(classify: DiamondRoi -> ClassificationResult, rois: seq<DiamondRoi>)
    returns (classifications: seq<ClassificationResult>, oriented: seq<DiamondRoi>, tableCount: nat, tiltedCount: nat)
    ensures |classifications| == |oriented| == |rois|
    ensures forall k :: 0 <= k < |rois| ==> classifications[k] == classify(rois[k])
    ensures forall k :: 0 <= k < |rois| ==> oriented[k] == rois[k].(orientation := Some(classifications[k].orientation))
    ensures tableCount == CountOrientation(classifications, Table)
    ensures tiltedCount == CountOrientation(classifications, Tilted)
    ensures tableCount + tiltedCount == |rois|
  {
    tableCount, tiltedCount := 0, 0;
    classifications, oriented := [], [];
    for i := 0 to |rois|
      invariant |classifications| == |oriented| == i
      invariant forall k :: 0 <= k < i ==> classifications[k] == classify(rois[k])
      invariant forall k :: 0 <= k < i ==> oriented[k] == rois[k].(orientation := Some(classifications[k].orientation))
      invariant tableCount == CountOrientation(classifications, Table)
      invariant tiltedCount == CountOrientation(classifications, Tilted)
    {
      var roi := rois[i];
      var c := classify(roi);
      oriented := oriented + [roi.(orientation := Some(c.orientation))];
      CountOrientationSnoc(classifications, c, Table);
      CountOrientationSnoc(classifications, c, Tilted);
      if c.orientation == Table {
        tableCount := tableCount + 1;
      } else {
        tiltedCount := tiltedCount + 1;
      }
      classifications := classifications + [c];
    }
    TableAndTiltedPartition(classifications);
  }

  /** The ROIs as the pickup grader sees them: each carrying the
      orientation its classification predicts. */
  function Oriented(rois: seq<DiamondRoi>, cs: seq<ClassificationResult>): (oriented: seq<DiamondRoi>)
    requires |cs| == |rois|
    ensures |oriented| == |rois|
    ensures forall k :: 0 <= k < |rois| ==> oriented[k].id == rois[k].id && oriented[k].orientation == Some(cs[k].orientation)
  {
    seq(|rois|, k requires 0 <= k < |rois| => rois[k].(orientation := Some(cs[k].orientation)))
  }

  /** The grading half of `classify_image`: the oriented ROIs are graded
      by `grade_diamonds` as written and the pickable diamonds, the invalid
      ones and the mean pickable grade are counted. */
  method GradeAndSummarise(g: GraderConfig, oriented: seq<DiamondRoi>, radius: nat -> real, dist: (Point2, Point2) -> real)
    returns (graded: seq<GradedDiamond>, pickableCount: nat, invalidCount: nat, averageGrade: real)
    ensures |graded| == |oriented|
    ensures forall k {:trigger graded[k]} :: 0 <= k < |oriented| ==> graded[k] == GradeOne(g, oriented[k], oriented, radius, dist)
    ensures pickableCount == |Pickable(graded)| && invalidCount == InvalidCount(graded)
    ensures averageGrade == AverageGrade(graded)
    ensures pickableCount + invalidCount <= |oriented|
    ensures 0.0 <= averageGrade <= 10.0
  {
    graded := GradeDiamonds(g, oriented, radius, dist);
    PickableAndInvalidDisjoint(graded);
    AverageGradeInRange(graded);
    pickableCount, invalidCount, averageGrade := |Pickable(graded)|, InvalidCount(graded), AverageGrade(graded);
  }

  /** When exactly the tilted predictions go ungraded and every grade is
      -1 or non-negative, each table prediction is counted once, as
      pickable or as invalid. */
  lemma {:induction false} GradedSplitTableCount(cs: seq<ClassificationResult>, graded: seq<GradedDiamond>)
    requires |graded| == |cs|
    requires forall k :: 0 <= k < |cs| ==> (graded[k].grade.None? <==> cs[k].orientation == Tilted)
    requires forall k :: 0 <= k < |cs| && graded[k].grade.Some? ==> graded[k].grade.value == -1.0 || graded[k].grade.value >= 0.0
    ensures |Pickable(graded)| + InvalidCount(graded) == CountOrientation(cs, Table)
  {
    if |cs| > 0 {
      GradedSplitTableCount(cs[..|cs| - 1], graded[..|graded| - 1]);
    }
  }

  /** On an image with two or more ROIs numbered by position every ROI has
      a neighbour, so `grade_diamonds` as written and the corrected grading
      agree: the two differ only on a lone diamond. */
  lemma AsWrittenAgreesWithCorrected(g: GraderConfig, oriented: seq<DiamondRoi>, radius: nat -> real, dist: (Point2, Point2) -> real)
    requires |oriented| >= 2
    requires forall k :: 0 <= k < |oriented| ==> oriented[k].id == k
    ensures forall k :: 0 <= k < |oriented| ==>
              GradeOne(g, oriented[k], oriented, radius, dist) == GradeOneCorrected(g, oriented[k], oriented, radius, dist)
  {
    forall k | 0 <= k < |oriented|
      ensures GradeOne(g, oriented[k], oriented, radius, dist) == GradeOneCorrected(g, oriented[k], oriented, radius, dist)
    {
      var j := if k == 0 then 1 else 0;
      assert oriented[j].id != oriented[k].id;
      CorrectionAgreesWithNeighbours(g, oriented[k], oriented, radius, dist);
    }
  }

  /** What `classify_image` reports about the ROIs it detected: one
      classification per ROI in order, the table and tilted tallies, each
      ROI graded by the pickup grader `g` among all ROIs carrying their
      predicted orientations, and the pickable, invalid and mean-grade
      figures of those grades. */
  ghost predicate ImageSummary(model: Model, th: Thresholds, g: GraderConfig, img: ImageInputs, imageName: string,
                               rois: seq<DiamondRoi>, graded: seq<GradedDiamond>, r: ImageResult)
  {
    r.imageName == imageName && r.totalDiamonds == |rois| == |r.classifications| &&
    (forall k :: 0 <= k < |rois| ==> r.classifications[k] == ClassifyRoi(model, th, rois[k], img.measurements(rois[k]))) &&
    r.tableCount == CountOrientation(r.classifications, Table) &&
    r.tiltedCount == CountOrientation(r.classifications, Tilted) &&
    r.tableCount + r.tiltedCount == r.totalDiamonds &&
    |graded| == |rois| &&
    (var oriented := Oriented(rois, r.classifications);
     forall k {:trigger graded[k]} :: 0 <= k < |rois| ==> graded[k] == GradeOne(g, oriented[k], oriented, img.radius, img.dist)) &&
    r.pickableCount == |Pickable(graded)| && r.invalidCount == InvalidCount(graded) &&
    r.averageGrade == AverageGrade(graded)
  }

  /** `rois` is what the detector `cfg` finds on the image. */
  ghost predicate DetectedOn(cfg: DetectorConfig, img: ImageInputs, rois: seq<DiamondRoi>)
  {
    exists merged, built, picked, removed, survivors ::
      DetectedFrom(cfg, img.masks, img.width, img.height, img.measure, img.centreInside,
                   rois, merged, built, picked, removed, survivors)
  }

  /** `r` is `classify_image`'s result on the image for the detector
      `cfg` and grader `g`: `rois` is what `cfg` detects, each is classified
      by the model, the oriented ROIs are graded into `graded`, and `r`
      summarises them. */
  ghost predicate ClassifiedWith(model: Model, th: Thresholds, cfg: DetectorConfig, g: GraderConfig, img: ImageInputs,
                             imageName: string, rois: seq<DiamondRoi>, graded: seq<GradedDiamond>, r: ImageResult)
  {
    DetectedOn(cfg, img, rois) && ImageSummary(model, th, g, img, imageName, rois, graded, r)
  }

  /** `classify_image` from the detected ROIs on: an all-zero result when
      there are none; otherwise classify each ROI, grade the oriented ROIs
      and summarise. */
  method SummariseRois(g: GraderConfig, model: Model, th: Thresholds, img: ImageInputs, imageName: string,
                       rois: seq<DiamondRoi>)
    returns (r: ImageResult, graded: seq<GradedDiamond>)
    ensures |rois| == 0 ==> r == ImageResult(imageName, 0, 0, 0, 0, 0, 0.0, []) && graded == []
    ensures ImageSummary(model, th, g, img, imageName, rois, graded, r)
    ensures r.pickableCount + r.invalidCount <= r.totalDiamonds && 0.0 <= r.averageGrade <= 10.0
    ensures g.checkOrientation ==> r.pickableCount + r.invalidCount == r.tableCount
  {
    if |rois| == 0 {
      r, graded := ImageResult(imageName, 0, 0, 0, 0, 0, 0.0, []), [];
      return;
    }
    var classifications, oriented, tableCount, tiltedCount := ClassifyRois(roi => ClassifyRoi(model, th, roi, img.measurements(roi)), rois);
    var pickableCount, invalidCount, averageGrade;
    assert oriented == Oriented(rois, classifications);
    graded, pickableCount, invalidCount, averageGrade := GradeAndSummarise(g, oriented, img.radius, img.dist);
    if g.checkOrientation {
      GradedSplitTableCount(classifications, graded);
    }
    r := ImageResult(imageName, |rois|, tableCount, tiltedCount, pickableCount, invalidCount,
                     averageGrade, classifications);
  }

  /** `classify_image` once the detector `cfg` and grader `g` are set up:
      detect the ROIs, then classify, grade and summarise them. */
  method ClassifyWith(model: Model, th: Thresholds, cfg: DetectorConfig, g: GraderConfig, img: ImageInputs,
                      imageName: string)
    returns (r: ImageResult, ghost rois: seq<DiamondRoi>, graded: seq<GradedDiamond>)
    ensures ClassifiedWith(model, th, cfg, g, img, imageName, rois, graded, r)
    ensures forall k :: 0 <= k < |rois| ==> rois[k].id == k && WellFormedRoi(cfg, img.width, img.height, rois[k])
    ensures |rois| == 0 ==> r == ImageResult(imageName, 0, 0, 0, 0, 0, 0.0, []) && graded == []
    ensures r.pickableCount + r.invalidCount <= r.totalDiamonds && 0.0 <= r.averageGrade <= 10.0
    ensures g.checkOrientation ==> r.pickableCount + r.invalidCount == r.tableCount
    ensures forall k :: 0 <= k < |r.classifications| ==> r.classifications[k].roiId == k
  {
    var detected;
    ghost var merged, built, picked, removed, survivors;
    detected, merged, built, picked, removed, survivors := Detect(cfg, img.masks, img.width, img.height, img.measure, img.centreInside);
    rois := detected;
    r, graded := SummariseRois(g, model, th, img, imageName, detected);
  }

  // ---------------------------------------------------------------- set-up

  /** What the classifier has set up: its detector and its grader, None
      before the first image. */
  datatype Setup = Setup(detector: Option<DetectorConfig>, grader: Option<GraderConfig>)

  /** The set-up `classify_image` leaves after an image: what was set up
      is kept, and what was missing is made for this image's size. */
  function SetUpFor(s: Setup, img: ImageInputs): (t: Setup)
    ensures t.detector.Some? && t.grader.Some?
  {
    Setup(if s.detector.Some? then s.detector else Some(DetectorFor(img.height, img.width)),
          if s.grader.Some? then s.grader else Some(NewGrader(true, 100.0, 2.0, Some(img.width))))
  }

  /** The set-up after an image was offered: unchanged when it could not
      be loaded (None), otherwise what `classify_image` leaves. */
  function Offered(s: Setup, image: Option<ImageInputs>): Setup
  {
    if image.None? then s else SetUpFor(s, image.value)
  }

  /** The set-up after the k-th image is what offering it leaves. */
  ghost predicate Link(setups: seq<Setup>, loads: seq<Option<ImageInputs>>, k: int)
    requires 0 <= k < |setups| - 1 && k < |loads|
  {
    setups[k + 1] == Offered(setups[k], loads[k])
  }

  /** `setups[k]` is the set-up before the k-th image of `loads` is
      offered. */
  ghost predicate SetupChain(setups: seq<Setup>, loads: seq<Option<ImageInputs>>)
  {
    0 < |setups| <= |loads| + 1 &&
    forall k :: 0 <= k < |setups| - 1 ==> Link(setups, loads, k)
  }

  /** A chain grows by what offering the next image leaves. */
  lemma ChainSnoc(setups: seq<Setup>, loads: seq<Option<ImageInputs>>, next: Setup)
    requires SetupChain(setups, loads) && |setups| <= |loads|
    requires next == Offered(setups[|setups| - 1], loads[|setups| - 1])
    ensures SetupChain(setups + [next], loads)
  {
    var longer := setups + [next];
    forall k | 0 <= k < |longer| - 1
      ensures Link(longer, loads, k)
    {
      if k < |setups| - 1 {
        assert Link(setups, loads, k);
      }
    }
  }

  /** Nothing is set up while no image has loaded. */
  lemma {:induction false} NoLoadNoSetup(setups: seq<Setup>, loads: seq<Option<ImageInputs>>, n: nat)
    requires SetupChain(setups, loads) && setups[0] == Setup(None, None) && n < |setups|
    requires forall j :: 0 <= j < n ==> loads[j].None?
    ensures setups[n] == Setup(None, None)
  {
    if n > 0 {
      NoLoadNoSetup(setups, loads, n - 1);
      assert Link(setups, loads, n - 1);
    }
  }

  /** Once the k-th image is the first to load, the set-up is the one made
      for that image's size, for every later image. */
  lemma {:induction false} FirstLoadedFixesSetup(setups: seq<Setup>, loads: seq<Option<ImageInputs>>, k: nat, n: nat)
    requires SetupChain(setups, loads) && setups[0] == Setup(None, None) && k < n < |setups|
    requires loads[k].Some? && forall j :: 0 <= j < k ==> loads[j].None?
    ensures setups[n] == SetUpFor(Setup(None, None), loads[k].value)
    ensures setups[n].detector == Some(DetectorFor(loads[k].value.height, loads[k].value.width))
    ensures setups[n].grader == Some(NewGrader(true, 100.0, 2.0, Some(loads[k].value.width)))
  {
    assert Link(setups, loads, n - 1);
    if n == k + 1 {
      NoLoadNoSetup(setups, loads, k);
    } else {
      FirstLoadedFixesSetup(setups, loads, k, n - 1);
    }
  }

  /** Every image that loads, from the first one on, is classified under
      the detector and grader made for the first loaded image's size. */
  lemma {:induction false} LoadedUnderFirstSetup(setups: seq<Setup>, loads: seq<Option<ImageInputs>>, k: nat, n: nat)
    requires SetupChain(setups, loads) && setups[0] == Setup(None, None) && k <= n < |setups| && n < |loads|
    requires loads[k].Some? && forall j :: 0 <= j < k ==> loads[j].None?
    requires loads[n].Some?
    ensures SetUpFor(setups[n], loads[n].value) == SetUpFor(Setup(None, None), loads[k].value)
  {
    if n == k {
      NoLoadNoSetup(setups, loads, k);
    } else {
      FirstLoadedFixesSetup(setups, loads, k, n);
    }
  }

  // ---------------------------------------------------------------- the engine

  class DiamondClassifier {
    const model: Model
    const thresholds: Thresholds
    var detector: Option<DetectorConfig>
    var grader: Option<GraderConfig>
    /** The graded diamonds of the last image that had any; None before. */
    var lastGraded: Option<seq<GradedDiamond>>

    constructor (model: Model)
      ensures this.model == model && thresholds == DefaultThresholds()
      ensures detector == None && grader == None && lastGraded == None
    {
      this.model := model;
      thresholds := DefaultThresholds();
      detector := None;
      grader := None;
      lastGraded := None;
    }

    /** `classify_image`. The detector and grader are set up from the first
        image's size and kept afterwards. An image without detections gives
        an all-zero result and leaves the last graded diamonds in place;
        otherwise the graded diamonds are kept for `get_roi_image`. */
    method ClassifyImage(img: ImageInputs, imageName: string)
      returns (r: ImageResult, ghost rois: seq<DiamondRoi>, ghost graded: seq<GradedDiamond>)
      modifies this
      ensures old(detector).None? ==> detector == Some(DetectorFor(img.height, img.width))
      ensures old(detector).Some? ==> detector == old(detector)
      ensures old(grader).None? ==> grader == Some(NewGrader(true, 100.0, 2.0, Some(img.width)))
      ensures old(grader).Some? ==> grader == old(grader)
      ensures detector.Some? && grader.Some?
      ensures Setup(detector, grader) == SetUpFor(Setup(old(detector), old(grader)), img)
      ensures ClassifiedWith(model, thresholds, detector.value, grader.value, img, imageName, rois, graded, r)
      ensures forall k :: 0 <= k < |rois| ==> rois[k].id == k && WellFormedRoi(detector.value, img.width, img.height, rois[k])
      ensures |rois| == 0 ==> r == ImageResult(imageName, 0, 0, 0, 0, 0, 0.0, []) && lastGraded == old(lastGraded)
      ensures |rois| > 0 ==> lastGraded == Some(graded)
      ensures r.pickableCount + r.invalidCount <= r.totalDiamonds && 0.0 <= r.averageGrade <= 10.0
      ensures grader.value.checkOrientation ==> r.pickableCount + r.invalidCount == r.tableCount
      ensures forall k :: 0 <= k < |r.classifications| ==> r.classifications[k].roiId == k
    {
      SetUp(img);
      var diamonds;
      r, rois, diamonds := ClassifyWith(model, thresholds, detector.value, grader.value, img, imageName);
      graded := diamonds;
      lastGraded := if |diamonds| > 0 then Some(diamonds) else lastGraded;
    }

    /** The start of `classify_image`: a detector and a grader for this
        image's size are made when there is none yet. */
    method SetUp(img: ImageInputs)
      modifies this
      ensures Setup(detector, grader) == SetUpFor(Setup(old(detector), old(grader)), img)
      ensures old(detector).None? ==> detector == Some(DetectorFor(img.height, img.width))
      ensures old(detector).Some? ==> detector == old(detector)
      ensures old(grader).None? ==> grader == Some(NewGrader(true, 100.0, 2.0, Some(img.width)))
      ensures old(grader).Some? ==> grader == old(grader)
      ensures lastGraded == old(lastGraded)
    {
      if detector.None? {
        detector := Some(DetectorFor(img.height, img.width));
      }
      if grader.None? {
        grader := Some(NewGrader(true, 100.0, 2.0, Some(img.width)));
      }
    }

    /** `get_roi_image`: the crop window of the first graded ROI of the last
        image with the given id; None before any image was graded or when no
        ROI has that id. */
    method GetRoiImage(roiId: int) returns (crop: Option<Window>)
      ensures lastGraded.None? ==> crop.None?
      ensures lastGraded.Some? && crop.None? ==> forall k :: 0 <= k < |lastGraded.value| ==> lastGraded.value[k].roi.id != roiId
      ensures crop.Some? ==> lastGraded.Some?
      ensures crop.Some? && lastGraded.Some? ==>
                exists k :: 0 <= k < |lastGraded.value| && lastGraded.value[k].roi.id == roiId &&
                  lastGraded.value[k].roi.crop == crop.value &&
                  forall j :: 0 <= j < k ==> lastGraded.value[j].roi.id != roiId
    {
      if lastGraded.None? {
        return None;
      }
      var graded := lastGraded.value;
      for k := 0 to |graded|
        invariant forall j :: 0 <= j < k ==> graded[j].roi.id != roiId
      {
        if graded[k].roi.id == roiId {
          return Some(graded[k].roi.crop);
        }
      }
      return None;
    }
  }
}
