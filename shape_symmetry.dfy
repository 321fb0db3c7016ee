/** The decision rules of the shape-based symmetry detector
    (src/classification/shape_based_symmetry.py). Ellipse fitting, contour
    circularity, mirror correlation, ring brightness and connected components
    are measurements given as inputs; the grey image handed in is the one
    after contrast normalisation. */
module ShapeSymmetry {
  import opened Labels

  /** A grey-level or mask image, row by row. */
  type Image = seq<seq<int>>

  predicate Rectangular(img: Image, h: int, w: int)
  {
    |img| == h && forall y :: 0 <= y < h ==> |img[y]| == w
  }

  predicate ValuesIn(img: Image, lo: int, hi: int)
  {
    forall y, x :: 0 <= y < |img| && 0 <= x < |img[y]| ==> lo <= img[y][x] <= hi
  }

  // ---------------------------------------------------------------- circular test

  /** `is_circular_diamond`, given the centre and ring brightness it would measure. */
  function IsCircularDiamond(circularity: real, aspectRatio: real,
                             circularityThreshold: real, aspectRatioThreshold: real,
                             verifyDarkCenter: bool, centreBrightness: real, ringBrightness: real): (r: bool)
    ensures circularity < circularityThreshold || aspectRatio < aspectRatioThreshold ==> !r
    ensures !verifyDarkCenter ==> (r <==> circularity >= circularityThreshold && aspectRatio >= aspectRatioThreshold)
    ensures verifyDarkCenter ==>
              (r <==> circularity >= circularityThreshold && aspectRatio >= aspectRatioThreshold &&
                      (ringBrightness > centreBrightness + 0.05 || (circularity > 0.92 && aspectRatio > 0.92)))
  {
    if circularity < circularityThreshold then false
    else if aspectRatio < aspectRatioThreshold then false
    else if verifyDarkCenter then
      if ringBrightness > centreBrightness + 0.05 then true
      else if circularity > 0.92 && aspectRatio > 0.92 then true
      else false
    else true
  }

  // ---------------------------------------------------------------- multi-axis symmetry

  /** The test angles i*180/n, in degrees. */
  function Angles(numAngles: int): (angles: seq<real>)
    ensures |angles| == if numAngles > 0 then numAngles else 0
    ensures forall i :: 0 <= i < |angles| ==> angles[i] == i as real * 180.0 / numAngles as real
    ensures forall i :: 0 <= i < |angles| ==> 0.0 <= angles[i] < 180.0
  {
    if numAngles <= 0 then []
    else
      var n := numAngles as real;
      var angles := seq(numAngles, i requires 0 <= i < numAngles => i as real * 180.0 / n);
      assert forall i :: 0 <= i < numAngles ==> angles[i] < 180.0 by {
        forall i | 0 <= i < numAngles
          ensures angles[i] < 180.0
        {
          assert i as real < n;
          assert i as real * 180.0 < n * 180.0;
        }
      }
      angles
  }

  function Sum(xs: seq<real>): real
  {
    if |xs| == 0 then 0.0 else Sum(xs[..|xs| - 1]) + xs[|xs| - 1]
  }

  lemma {:induction false} SumBounds(xs: seq<real>)
    requires forall i :: 0 <= i < |xs| ==> 0.0 <= xs[i] <= 1.0
    ensures 0.0 <= Sum(xs) <= |xs| as real
  {
    if |xs| > 0 {
      SumBounds(xs[..|xs| - 1]);
    }
  }

  /** How many scores lie strictly above the threshold. */
  function CountAbove(scores: seq<real>, threshold: real): (c: nat)
    ensures c <= |scores|
    ensures c == |scores| <==> forall i :: 0 <= i < |scores| ==> scores[i] > threshold
    ensures c == 0 <==> forall i :: 0 <= i < |scores| ==> scores[i] <= threshold
  {
    if |scores| == 0 then 0
    else CountAbove(scores[..|scores| - 1], threshold) + (if scores[|scores| - 1] > threshold then 1 else 0)
  }

  /** The mirror score at each test angle. */
  function Scores(numAngles: int, mirror: real -> real): (scores: seq<real>)
    ensures |scores| == |Angles(numAngles)|
    ensures forall i :: 0 <= i < |scores| ==> scores[i] == mirror(Angles(numAngles)[i])
  {
    var angles := Angles(numAngles);
    seq(|angles|, i requires 0 <= i < |angles| => mirror(angles[i]))
  }

  /** `compute_multi_axis_symmetry`: the mirror score at every test angle,
      their mean (None for the NaN mean of no angles) and how many exceed 0.75. */
  method ComputeMultiAxisSymmetry(numAngles: int, mirror: real -> real)
    returns (avgSymmetry: Option<real>, numSymmetric: nat)
    ensures numSymmetric == CountAbove(Scores(numAngles, mirror), 0.75)
    ensures avgSymmetry.None? <==> numAngles <= 0
    ensures avgSymmetry.Some? ==>
              avgSymmetry.value == Sum(Scores(numAngles, mirror)) / |Scores(numAngles, mirror)| as real
    ensures numSymmetric <= if numAngles > 0 then numAngles else 0
  {
    var angles := Angles(numAngles);
    var scores: seq<real> := [];
    var threshold := 0.75;
    numSymmetric := 0;
    ghost var expected := Scores(numAngles, mirror);
    for k := 0 to |angles|
      invariant scores == expected[..k]
      invariant numSymmetric == CountAbove(scores, threshold)
    {
      var symmetry := mirror(angles[k]);
      assert (scores + [symmetry])[..k] == scores;
      scores := scores + [symmetry];
      assert scores == expected[..k + 1];
      if symmetry > threshold {
        numSymmetric := numSymmetric + 1;
      }
    }
    assert scores == expected;
    avgSymmetry := if |scores| == 0 then None else Some(Sum(scores) / |scores| as real);
  }

  /** With every mirror score in [0, 1] the mean lies in [0, 1]. */
  lemma MeanInUnit(scores: seq<real>)
    requires |scores| > 0
    requires forall i :: 0 <= i < |scores| ==> 0.0 <= scores[i] <= 1.0
    ensures 0.0 <= Sum(scores) / |scores| as real <= 1.0
  {
    SumBounds(scores);
  }

  // ---------------------------------------------------------------- bright spots

  /** How many component areas lie in the window [minArea, maxArea]. */
  function CountInRange(areas: seq<int>, minArea: int, maxArea: int): (c: nat)
    ensures c <= |areas|
    ensures c == |areas| <==> forall i :: 0 <= i < |areas| ==> minArea <= areas[i] <= maxArea
  {
    if |areas| == 0 then 0
    else CountInRange(areas[..|areas| - 1], minArea, maxArea) + (if minArea <= areas[|areas| - 1] <= maxArea then 1 else 0)
  }

  /** Widening the window never loses a spot. */
  lemma {:induction false} CountInRangeMonotone(areas: seq<int>, lo1: int, hi1: int, lo2: int, hi2: int)
    requires lo2 <= lo1 && hi1 <= hi2
    ensures CountInRange(areas, lo1, hi1) <= CountInRange(areas, lo2, hi2)
  {
    if |areas| > 0 {
      CountInRangeMonotone(areas[..|areas| - 1], lo1, hi1, lo2, hi2);
    }
  }

  /** The counting in `extract_bright_regions`: no spots for an empty mask,
      otherwise the connected components whose area lies in the window.
      `componentAreas` are the areas of the bright components, background excluded. */
  method CountBrightSpots(maskPixels: nat, componentAreas: seq<int>, minArea: int, maxArea: int)
    returns (numSpots: nat)
    ensures maskPixels == 0 ==> numSpots == 0
    ensures maskPixels > 0 ==> numSpots == CountInRange(componentAreas, minArea, maxArea)
    ensures numSpots <= |componentAreas|
  {
    if maskPixels == 0 {
      return 0;
    }
    numSpots := 0;
    for k := 0 to |componentAreas|
      invariant numSpots == CountInRange(componentAreas[..k], minArea, maxArea)
    {
      assert componentAreas[..k + 1][..k] == componentAreas[..k];
      var area := componentAreas[k];
      if minArea <= area <= maxArea {
        numSpots := numSpots + 1;
      }
    }
    assert componentAreas[..|componentAreas|] == componentAreas;
  }

  // ---------------------------------------------------------------- central brightness

  /** Python's int() on a float: truncation toward zero. */
  function Trunc(x: real): int
  {
    if x >= 0.0 then x.Floor else -((-x).Floor)
  }

  /** The window [y1, y2) x [x1, x2) of `compute_central_brightness`. */
  function CentralWindow(h: nat, w: nat, radiusFraction: real): (win: (int, int, int, int))
    ensures 0 <= win.0 && win.1 <= h && 0 <= win.2 && win.3 <= w
    ensures radiusFraction >= 0.0 ==> win.0 <= win.1 && win.2 <= win.3
  {
    var centreY, centreX := h / 2, w / 2;
    var radius := Trunc(MinInt(h, w) as real * radiusFraction);
    (MaxInt(0, centreY - radius), MinInt(h, centreY + radius),
     MaxInt(0, centreX - radius), MinInt(w, centreX + radius))
  }

  /** The (grey, mask) pairs of the window, row by row. */
  function WindowPixels(gray: Image, mask: Image, y1: int, y2: int, x1: int, x2: int): (ps: seq<(int, int)>)
    requires 0 <= y1 && 0 <= x1
    requires y2 <= |gray| && y2 <= |mask|
    requires forall y :: y1 <= y < y2 ==> x2 <= |gray[y]| && x2 <= |mask[y]|
    ensures (forall y, x :: y1 <= y < y2 && x1 <= x < x2 ==> mask[y][x] <= 127) ==>
              forall k :: 0 <= k < |ps| ==> ps[k].1 <= 127
    ensures ValuesIn(gray, 0, 255) ==> forall k :: 0 <= k < |ps| ==> 0 <= ps[k].0 <= 255
    decreases y2 - y1
  {
    if y1 >= y2 || x1 >= x2 then []
    else
      var row := seq(x2 - x1, k requires 0 <= k < x2 - x1 => (gray[y1][x1 + k], mask[y1][x1 + k]));
      assert forall k :: 0 <= k < |row| ==> row[k] == (gray[y1][x1 + k], mask[y1][x1 + k]);
      row + WindowPixels(gray, mask, y1 + 1, y2, x1, x2)
  }

  function MaskSum(ps: seq<(int, int)>): int
  {
    if |ps| == 0 then 0 else MaskSum(ps[..|ps| - 1]) + ps[|ps| - 1].1
  }

  /** The grey values of the pixels whose mask value exceeds 127. */
  function MaskedGray(ps: seq<(int, int)>): (g: seq<int>)
    ensures |g| <= |ps|
    ensures (forall i :: 0 <= i < |ps| ==> 0 <= ps[i].0 <= 255) ==> forall k :: 0 <= k < |g| ==> 0 <= g[k] <= 255
    ensures |g| == 0 <==> forall i :: 0 <= i < |ps| ==> ps[i].1 <= 127
  {
    if |ps| == 0 then []
    else
      var last := ps[|ps| - 1];
      MaskedGray(ps[..|ps| - 1]) + (if last.1 > 127 then [last.0] else [])
  }

  function SumInt(xs: seq<int>): int
  {
    if |xs| == 0 then 0 else SumInt(xs[..|xs| - 1]) + xs[|xs| - 1]
  }

  lemma {:induction false} SumIntBounds(xs: seq<int>)
    ensures (forall i :: 0 <= i < |xs| ==> 0 <= xs[i] <= 255) ==> 0 <= SumInt(xs) <= 255 * |xs|
  {
    if |xs| > 0 {
      SumIntBounds(xs[..|xs| - 1]);
    }
  }

  /** `compute_central_brightness`: the mean grey level, scaled to [0, 1], of
      the masked pixels (mask > 127) inside the central window; 0.0 when the
      window holds no mask at all or no pixel above 127. */
  function CentralBrightness(gray: Image, mask: Image, h: nat, w: nat, radiusFraction: real): (b: real)
    requires Rectangular(gray, h, w) && Rectangular(mask, h, w)
    ensures var win := CentralWindow(h, w, radiusFraction);
            (forall y, x :: win.0 <= y < win.1 && win.2 <= x < win.3 ==> mask[y][x] <= 127) ==> b == 0.0
    ensures ValuesIn(gray, 0, 255) ==> 0.0 <= b <= 1.0
  {
    var win := CentralWindow(h, w, radiusFraction);
    var ps := WindowPixels(gray, mask, win.0, win.1, win.2, win.3);
    if MaskSum(ps) == 0 then 0.0
    else
      var selected := MaskedGray(ps);
      if |selected| == 0 then 0.0
      else
        MeanByteInUnit(selected);
        SumInt(selected) as real / |selected| as real / 255.0
  }

  /** The mean of byte values, scaled by 1/255, lies in [0, 1]. */
  lemma MeanByteInUnit(xs: seq<int>)
    requires |xs| > 0
    ensures (forall i :: 0 <= i < |xs| ==> 0 <= xs[i] <= 255) ==>
              0.0 <= SumInt(xs) as real / |xs| as real / 255.0 <= 1.0
  {
    SumIntBounds(xs);
    var s, n := SumInt(xs) as real, |xs| as real;
    if forall i :: 0 <= i < |xs| ==> 0 <= xs[i] <= 255 {
      assert 0.0 <= s <= 255.0 * n;
      assert s / n <= 255.0;
    }
  }

  // ---------------------------------------------------------------- analyse

  /** The fitted ellipse: its two axis lengths and rotation in degrees. */
  datatype Ellipse = Ellipse(width: real, height: real, angle: real)

  /** What `analyze_symmetry` reads from OpenCV and the helper measurements. */
  datatype SymmetryInputs = SymmetryInputs(
    gray: Image,
    mask: Image,
    height: nat,
    width: nat,
    ellipse: Option<Ellipse>,
    contourCircularity: Option<real>, // 4*pi*area/perimeter^2 of the largest contour (0 for a zero perimeter); None without contours
    mirror: real -> real,             // compute_mirror_symmetry at an angle
    maskPixels: nat,
    componentAreas: seq<int>,         // bright components after erosion
    ringBrightness: real,             // compute_ring_brightness, 0.30 to 0.60 of the size
    ringBrightnessDefault: real,      // compute_ring_brightness with its default fractions
    uniformity: real,
    directionalGradient: real)

  datatype SymmetryResult = SymmetryResult(
    majorAxisAngle: real,
    minorAxisAngle: real,
    symmetryMajor: real,
    symmetryMinor: real,
    bestSymmetry: real,
    tableBrightness: real,
    uniformity: real,
    directionalGradient: real,
    numBrightSpots: nat,
    aspectRatio: real,
    circularity: real,
    isCircular: bool,
    ringBrightness: real,
    multiAxisSymmetry: Option<real>,
    numSymmetricAxes: nat)

  const MinBrightArea := 10
  const MaxBrightArea := 1000

  /** `analyze_symmetry` with the default detector settings. */
  method AnalyzeSymmetry(m: SymmetryInputs) returns (r: SymmetryResult)
    requires Rectangular(m.gray, m.height, m.width) && Rectangular(m.mask, m.height, m.width)
    ensures m.ellipse.None? ==> r.majorAxisAngle == 0.0 && r.minorAxisAngle == 90.0 && r.aspectRatio == 1.0
    ensures m.ellipse.Some? ==> r.majorAxisAngle == m.ellipse.value.angle && r.minorAxisAngle == m.ellipse.value.angle + 90.0
    ensures m.ellipse.Some? && Max(m.ellipse.value.width, m.ellipse.value.height) > 0.0 ==>
              r.aspectRatio == AxisRatio((m.ellipse.value.width, m.ellipse.value.height))
    ensures m.ellipse.Some? && Max(m.ellipse.value.width, m.ellipse.value.height) <= 0.0 ==> r.aspectRatio == 1.0
    ensures r.symmetryMajor == m.mirror(r.majorAxisAngle) && r.symmetryMinor == m.mirror(r.minorAxisAngle)
    ensures r.bestSymmetry >= r.symmetryMajor && r.bestSymmetry >= r.symmetryMinor
    ensures r.bestSymmetry == r.symmetryMajor || r.bestSymmetry == r.symmetryMinor
    ensures r.circularity <= 1.0
    ensures m.contourCircularity.None? ==> r.circularity == 0.0
    ensures m.contourCircularity.Some? && m.contourCircularity.value <= 1.0 ==> r.circularity == m.contourCircularity.value
    ensures r.isCircular <==> IsCircularDiamond(r.circularity, r.aspectRatio, 0.75, 0.85, true,
                                               CentralBrightness(m.gray, m.mask, m.height, m.width, 0.20), m.ringBrightness)
    ensures !r.isCircular ==> r.multiAxisSymmetry == Some(r.bestSymmetry) && r.numSymmetricAxes == 0
    ensures r.isCircular ==> r.numSymmetricAxes <= 8 && r.numSymmetricAxes == CountAbove(Scores(8, m.mirror), 0.75)
    ensures r.isCircular ==> r.multiAxisSymmetry == Some(Sum(Scores(8, m.mirror)) / |Scores(8, m.mirror)| as real)
    ensures r.numBrightSpots == if m.maskPixels == 0 then 0 else CountInRange(m.componentAreas, MinBrightArea, MaxBrightArea)
    ensures r.numBrightSpots <= |m.componentAreas|
    ensures r.tableBrightness == CentralBrightness(m.gray, m.mask, m.height, m.width, 0.25)
  {
    var majorAngle, minorAngle, aspectRatio;
    if m.ellipse.None? {
      majorAngle, minorAngle, aspectRatio := 0.0, 90.0, 1.0;
    } else {
      var e := m.ellipse.value;
      majorAngle, minorAngle := e.angle, e.angle + 90.0;
      aspectRatio := if Max(e.width, e.height) > 0.0 then AxisRatio((e.width, e.height)) else 1.0;
    }
    var circularity := if m.contourCircularity.Some? then Min(m.contourCircularity.value, 1.0) else 0.0;

    var symmetryMajor := m.mirror(majorAngle);
    var symmetryMinor := m.mirror(minorAngle);
    var bestSymmetry := Max(symmetryMajor, symmetryMinor);

    var numBright := CountBrightSpots(m.maskPixels, m.componentAreas, MinBrightArea, MaxBrightArea);
    var tableBrightness := CentralBrightness(m.gray, m.mask, m.height, m.width, 0.25);
    var centre := CentralBrightness(m.gray, m.mask, m.height, m.width, 0.20);
    var isCircular := IsCircularDiamond(circularity, aspectRatio, 0.75, 0.85, true, centre, m.ringBrightness);

    var multiAxis: Option<real>;
    var numAxes: nat;
    if isCircular {
      multiAxis, numAxes := ComputeMultiAxisSymmetry(8, m.mirror);
    } else {
      multiAxis, numAxes := Some(bestSymmetry), 0;
    }
    r := SymmetryResult(majorAngle, minorAngle, symmetryMajor, symmetryMinor, bestSymmetry,
                        tableBrightness, m.uniformity, m.directionalGradient, numBright,
                        aspectRatio, circularity, isCircular, m.ringBrightnessDefault, multiAxis, numAxes);
  }
}
