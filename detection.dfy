/** Post-processing of FastSAM's masks into diamond regions of interest
    (src/preprocessing/sam_detector.py). Segmentation itself and every OpenCV
    measurement of a mask are given as inputs: `measure` stands for contour
    extraction, the shape checks, moments and the ellipse fit, `centreInside`
    for the point-in-contour test. */
module Detection {
  import opened Labels

  type Pixel = (int, int)

  /** A binarised mask: the pixels whose score exceeds 0.5. */
  type Mask = set<Pixel>

  /** A soft mask as FastSAM returns it; a pixel absent from the map scores 0.0. */
  type RawMask = map<Pixel, real>

  type Point2 = (real, real)

  /** Contour points, only ever handed to `centreInside`. */
  type Contour = seq<(int, int)>

  datatype Box = Box(x: int, y: int, w: int, h: int)

  /** Half-open pixel window [x0, x1) x [y0, y1) cut out of the image. */
  datatype Window = Window(x0: int, y0: int, x1: int, y1: int)

  datatype DetectorConfig = DetectorConfig(
    minArea: int,
    maxArea: int,
    padding: int,
    mergeOverlapping: bool,
    overlapThreshold: real)

  function DefaultDetector(): DetectorConfig
  {
    DetectorConfig(200, 50000, 10, false, 0.25)
  }

  /** What OpenCV reports about one binarised mask after morphological closing. */
  datatype Shape = Shape(
    usable: bool,       // a contour exists, has at least 5 points, passes the shape checks, m00 != 0
    contour: Contour,
    bbox: Box,
    center: Point2,
    perimeter: real,
    axes: (real, real)) // the two axis lengths of the fitted ellipse

  /** One detected diamond. `orientation` is None while it is 'unknown'. */
  datatype DiamondRoi = DiamondRoi(
    contour: Contour,
    bbox: Box,
    center: Point2,
    area: nat,
    perimeter: real,
    crop: Window,
    id: int,
    majorAxis: real,
    minorAxis: real,
    aspectRatio: real,
    orientation: Option<Orientation>,
    detectedType: DiamondType)

  // ---------------------------------------------------------------- masks

  function Binarise(m: RawMask): Mask
  {
    set p | p in m && m[p] > 0.5
  }

  /** A binary mask written back as a float mask of ones. */
  function Indicator(s: Mask): RawMask
  {
    map p | p in s :: 1.0
  }

  lemma BinariseIndicator(s: Mask)
    ensures Binarise(Indicator(s)) == s
  {
  }

  function Binarised(ms: seq<RawMask>): (bs: seq<Mask>)
    ensures |bs| == |ms|
    ensures forall i :: 0 <= i < |ms| ==> bs[i] == Binarise(ms[i])
  {
    seq(|ms|, i requires 0 <= i < |ms| => Binarise(ms[i]))
  }

  /** Every pixel covered by some mask of the list. */
  function Union(ms: seq<Mask>): set<Pixel>
  {
    set i, p | 0 <= i < |ms| && p in ms[i] :: p
  }

  lemma SubsetCard(x: Mask, y: Mask)
    requires x <= y
    ensures |x| <= |y|
  {
    assert y == x + (y - x);
    assert x * (y - x) == {};
  }

  /** Intersection over union; 0.0 when both masks are empty. */
  function IoU(a: Mask, b: Mask): (r: real)
    ensures |a + b| == 0 ==> r == 0.0
    ensures 0.0 <= r <= 1.0
  {
    var union := |a + b|;
    SubsetCard(a * b, a + b);
    if union > 0 then RatioInUnit(|a * b| as real, union as real); |a * b| as real / union as real else 0.0
  }

  lemma IoUSymmetric(a: Mask, b: Mask)
    ensures IoU(a, b) == IoU(b, a)
  {
    assert a + b == b + a;
    assert a * b == b * a;
  }

  /** IoU reaches 1 exactly for identical non-empty masks. */
  lemma IoUOneIffEqual(a: Mask, b: Mask)
    requires a + b != {}
    ensures IoU(a, b) == 1.0 <==> a == b
  {
    var u, i := a + b, a * b;
    assert |u| > 0 by {
      var p :| p in u;
    }
    if a != b {
      var p :| p in u && p !in i;
      SubsetCard(i, u - {p});
      assert |i| as real < |u| as real;
    } else {
      assert i == u;
    }
  }

  /** The merge test applied to the mask grown so far and one unused candidate. */
  predicate ShouldMerge(current: Mask, candidate: Mask, overlapThreshold: real)
  {
    var inter := |current * candidate| as real;
    var areaJ := |candidate| as real;
    var areaCurrent := |current| as real;
    var containmentJ := if areaJ > 0.0 then inter / areaJ else 0.0;
    var containmentCurrent := if areaCurrent > 0.0 then inter / areaCurrent else 0.0;
    var maxContainment := Max(containmentJ, containmentCurrent);
    var small := Min(areaCurrent, areaJ);
    var sizeRatio := if small > 0.0 then Max(areaCurrent, areaJ) / small else 1.0;
    var iou := IoU(current, candidate);
    maxContainment > 0.5 || (iou > overlapThreshold && sizeRatio > 1.5) || iou > 0.4
  }

  /** A non-empty mask lying inside the grown mask is always absorbed. */
  lemma NestedMaskMerges(current: Mask, candidate: Mask, overlapThreshold: real)
    requires candidate != {} && candidate <= current
    ensures ShouldMerge(current, candidate, overlapThreshold)
  {
    assert current * candidate == candidate;
    var p :| p in candidate;
    assert |candidate| > 0;
    var areaJ := |candidate| as real;
    assert areaJ > 0.0;
    assert |current * candidate| as real / areaJ == 1.0;
  }

  /** Disjoint masks are never merged, whatever their sizes. */
  lemma DisjointMasksStayApart(current: Mask, candidate: Mask, overlapThreshold: real)
    requires current * candidate == {} && overlapThreshold >= 0.0
    ensures !ShouldMerge(current, candidate, overlapThreshold)
  {
  }

  // ---------------------------------------------------------------- merging

  /** The pixels of every mask assigned to output `k`. */
  ghost function Group(masks: seq<Mask>, owner: seq<int>, k: int): set<Pixel>
    requires |owner| == |masks|
  {
    set i, p | 0 <= i < |masks| && owner[i] == k && p in masks[i] :: p
  }

  function UnusedSet(used: seq<bool>): set<int>
  {
    set j | 0 <= j < |used| && !used[j]
  }

  /** The bookkeeping of `_merge_masks` while output |merged| is being grown:
      a mask is used exactly when it has an owner, owners are finished outputs
      or the one being grown, each finished output is the union of its masks,
      and no mask left for later passes the merge test against a finished output. */
  ghost predicate Bookkeeping(masks: seq<Mask>, thr: real, used: seq<bool>, owner: seq<int>, merged: seq<Mask>)
  {
    |used| == |masks| && |owner| == |masks| &&
    (forall j :: 0 <= j < |masks| ==> (used[j] <==> owner[j] >= 0)) &&
    (forall j :: 0 <= j < |masks| ==> owner[j] <= |merged|) &&
    (forall k :: 0 <= k < |merged| ==> merged[k] == Group(masks, owner, k)) &&
    (forall k, j :: 0 <= k < |merged| && 0 <= j < |masks| && (owner[j] < 0 || owner[j] > k) ==>
       !ShouldMerge(merged[k], masks[j], thr))
  }

  /** Absorbing an unused mask into the output being grown keeps the bookkeeping. */
  lemma AbsorbKeepsBookkeeping(masks: seq<Mask>, thr: real, used: seq<bool>, owner: seq<int>,
                               merged: seq<Mask>, j: int)
    requires Bookkeeping(masks, thr, used, owner, merged)
    requires 0 <= j < |masks| && !used[j]
    ensures Bookkeeping(masks, thr, used[j := true], owner[j := |merged|], merged)
    ensures Group(masks, owner[j := |merged|], |merged|) == Group(masks, owner, |merged|) + masks[j]
    ensures |UnusedSet(used[j := true])| == |UnusedSet(used)| - 1
  {
    var K := |merged|;
    var o := owner[j := K];
    forall k | 0 <= k <= K
      ensures Group(masks, o, k) == Group(masks, owner, k) + (if k == K then masks[j] else {})
    {
      GroupAfterReassign(masks, owner, j, K, k);
    }
    forall k, i | 0 <= k < K && 0 <= i < |masks| && (o[i] < 0 || o[i] > k)
      ensures !ShouldMerge(merged[k], masks[i], thr)
    {
      assert owner[i] < 0 || owner[i] > k;
    }
    UseOneMore(used, j);
  }

  lemma UseOneMore(used: seq<bool>, j: int)
    requires 0 <= j < |used| && !used[j]
    ensures |UnusedSet(used[j := true])| == |UnusedSet(used)| - 1
  {
    assert UnusedSet(used[j := true]) == UnusedSet(used) - {j};
  }

  /** Giving the unowned mask j to output K adds its pixels to group K and
      leaves every other group alone. */
  lemma GroupAfterReassign(masks: seq<Mask>, owner: seq<int>, j: int, K: int, k: int)
    requires |owner| == |masks| && 0 <= j < |masks| && owner[j] < 0 && 0 <= k <= K
    ensures Group(masks, owner[j := K], k) == Group(masks, owner, k) + (if k == K then masks[j] else {})
  {
    var o := owner[j := K];
    forall p | p in Group(masks, owner, k)
      ensures p in Group(masks, o, k)
    {
      var i :| 0 <= i < |masks| && owner[i] == k && p in masks[i];
      assert o[i] == k;
    }
  }

  /** Closing the grown output once no unused mask passes the test against it. */
  lemma FinishKeepsBookkeeping(masks: seq<Mask>, thr: real, used: seq<bool>, owner: seq<int>,
                               merged: seq<Mask>, current: Mask)
    requires Bookkeeping(masks, thr, used, owner, merged)
    requires current == Group(masks, owner, |merged|)
    requires forall j :: 0 <= j < |masks| && !used[j] ==> !ShouldMerge(current, masks[j], thr)
    ensures Bookkeeping(masks, thr, used, owner, merged + [current])
  {
  }

  lemma GroupEmpty(masks: seq<Mask>, owner: seq<int>, k: int)
    requires |owner| == |masks|
    requires forall i :: 0 <= i < |owner| ==> owner[i] != k
    ensures Group(masks, owner, k) == {}
  {
  }

  /** When every input is owned by one output and each output is its group,
      the outputs cover exactly the pixels of the inputs. */
  lemma GroupsCoverUnion(masks: seq<Mask>, owner: seq<int>, merged: seq<Mask>)
    requires |owner| == |masks|
    requires forall i :: 0 <= i < |masks| ==> 0 <= owner[i] < |merged|
    requires forall k :: 0 <= k < |merged| ==> merged[k] == Group(masks, owner, k)
    ensures Union(merged) == Union(masks)
  {
    forall p | p in Union(masks)
      ensures p in Union(merged)
    {
      var i :| 0 <= i < |masks| && p in masks[i];
      assert p in Group(masks, owner, owner[i]);
    }
    forall p | p in Union(merged)
      ensures p in Union(masks)
    {
      var k :| 0 <= k < |merged| && p in merged[k];
      assert p in Group(masks, owner, k);
      var i :| 0 <= i < |masks| && owner[i] == k && p in masks[i];
    }
  }

  /** The pixels of the masks output k had absorbed before time t. */
  ghost function GroupBefore(masks: seq<Mask>, owner: seq<int>, stamp: seq<int>, k: int, t: int): set<Pixel>
    requires |owner| == |masks| && |stamp| == |masks|
  {
    set i, p | 0 <= i < |masks| && owner[i] == k && 0 <= stamp[i] < t && p in masks[i] :: p
  }

  /** The open output as it stood when mask j was tested and absorbed. */
  ghost function Absorbing(masks: seq<Mask>, owner: seq<int>, stamp: seq<int>, j: int): set<Pixel>
    requires |owner| == |masks| && |stamp| == |masks| && 0 <= j < |masks|
  {
    GroupBefore(masks, owner, stamp, owner[j], stamp[j])
  }

  /** How the outputs were grown: output k was opened on `seeds[k]`, the
      lowest index still unused at the time; every other mask it owns has a
      higher index, was absorbed (at time `stamp`) after the seed, and
      passed the merge test against the output as it stood then. */
  ghost predicate History(masks: seq<Mask>, thr: real, owner: seq<int>, stamp: seq<int>, seeds: seq<int>)
  {
    SeedOrder(masks, owner, stamp, seeds) && AbsorbedByTest(masks, thr, owner, stamp, seeds)
  }

  /** The ownership and seed layout of `History`. */
  ghost predicate SeedOrder(masks: seq<Mask>, owner: seq<int>, stamp: seq<int>, seeds: seq<int>)
  {
    |owner| == |masks| && |stamp| == |masks| &&
    (forall j :: 0 <= j < |masks| ==> owner[j] < |seeds| && (owner[j] < 0 <==> stamp[j] < 0)) &&
    (forall k :: 0 <= k < |seeds| ==> 0 <= seeds[k] < |masks| && owner[seeds[k]] == k) &&
    (forall k, l :: 0 <= k < l < |seeds| ==> seeds[k] < seeds[l]) &&
    (forall k, j :: 0 <= k < |seeds| && 0 <= j < seeds[k] ==> 0 <= owner[j] < k) &&
    (forall j :: 0 <= j < |masks| && owner[j] >= 0 ==> seeds[owner[j]] <= j)
  }

  /** The merge tests of `History`: each absorbed mask came after its seed
      and passed the test against the output as it stood then. */
  ghost predicate AbsorbedByTest(masks: seq<Mask>, thr: real, owner: seq<int>, stamp: seq<int>, seeds: seq<int>)
    requires SeedOrder(masks, owner, stamp, seeds)
  {
    forall j {:trigger Absorbing(masks, owner, stamp, j)} ::
      0 <= j < |masks| && owner[j] >= 0 && j != seeds[owner[j]] ==>
        stamp[seeds[owner[j]]] < stamp[j] && ShouldMerge(Absorbing(masks, owner, stamp, j), masks[j], thr)
  }

  /** Every absorption so far happened before time `clock`. */
  ghost predicate StampsBelow(stamp: seq<int>, clock: int)
  {
    forall j :: 0 <= j < |stamp| ==> stamp[j] < clock
  }

  /** Giving the unowned mask j to output K at a time no earlier than t
      leaves what any output held before t unchanged. */
  lemma GroupBeforeStable(masks: seq<Mask>, owner: seq<int>, stamp: seq<int>, j: int, K: int, t: int, k: int, s: int)
    requires |owner| == |masks| && |stamp| == |masks| && 0 <= j < |masks| && stamp[j] < 0 && s <= t
    ensures GroupBefore(masks, owner[j := K], stamp[j := t], k, s) == GroupBefore(masks, owner, stamp, k, s)
  {
  }

  /** With every mask the seed of its own output nothing is absorbed, and
      the history holds. */
  lemma EachMaskItsOwnSeed(masks: seq<Mask>, thr: real, ids: seq<int>)
    requires |ids| == |masks| && forall i :: 0 <= i < |ids| ==> ids[i] == i
    ensures History(masks, thr, ids, ids, ids)
  {
  }

  /** Once every absorption lies before `clock`, an output is what it held before `clock`. */
  lemma GroupIsBefore(masks: seq<Mask>, owner: seq<int>, stamp: seq<int>, k: int, clock: int)
    requires |owner| == |masks| && |stamp| == |masks| && 0 <= k && StampsBelow(stamp, clock)
    requires forall j :: 0 <= j < |masks| ==> (owner[j] < 0 <==> stamp[j] < 0)
    ensures Group(masks, owner, k) == GroupBefore(masks, owner, stamp, k, clock)
  {
  }

  /** Opening output |seeds| on the lowest unused mask i keeps the history. */
  lemma SeedKeepsHistory(masks: seq<Mask>, thr: real, owner: seq<int>, stamp: seq<int>, seeds: seq<int>,
                         i: int, clock: int)
    requires History(masks, thr, owner, stamp, seeds) && StampsBelow(stamp, clock) && clock >= 0
    requires 0 <= i < |masks| && owner[i] < 0
    requires forall j :: 0 <= j < i ==> 0 <= owner[j] < |seeds|
    requires forall k :: 0 <= k < |seeds| ==> seeds[k] < i
    ensures History(masks, thr, owner[i := |seeds|], stamp[i := clock], seeds + [i])
    ensures StampsBelow(stamp[i := clock], clock + 1)
  {
    var o, st, sd := owner[i := |seeds|], stamp[i := clock], seeds + [i];
    assert SeedOrder(masks, o, st, sd);
    forall j | 0 <= j < |masks| && o[j] >= 0 && j != sd[o[j]]
      ensures st[sd[o[j]]] < st[j] && ShouldMerge(Absorbing(masks, o, st, j), masks[j], thr)
    {
      assert j != i && o[j] == owner[j] && sd[o[j]] == seeds[owner[j]];
      SeedKeepsEarlierTest(masks, thr, owner, stamp, seeds, i, clock, j);
    }
  }

  /** Opening an output on mask i changes neither when nor against what an
      absorbed mask j was tested. */
  lemma SeedKeepsEarlierTest(masks: seq<Mask>, thr: real, owner: seq<int>, stamp: seq<int>, seeds: seq<int>,
                             i: int, clock: int, j: int)
    requires History(masks, thr, owner, stamp, seeds) && StampsBelow(stamp, clock)
    requires 0 <= i < |masks| && owner[i] < 0
    requires 0 <= j < |masks| && owner[j] >= 0 && j != seeds[owner[j]]
    ensures stamp[seeds[owner[j]]] < stamp[j]
    ensures ShouldMerge(Absorbing(masks, owner[i := |seeds|], stamp[i := clock], j), masks[j], thr)
  {
    GroupBeforeStable(masks, owner, stamp, i, |seeds|, clock, owner[j], stamp[j]);
    assert Absorbing(masks, owner[i := |seeds|], stamp[i := clock], j) == Absorbing(masks, owner, stamp, j);
  }

  /** Absorbing the unused mask j into the open output (the last seed),
      when it passes the merge test against that output, keeps the history. */
  lemma AbsorbKeepsHistory(masks: seq<Mask>, thr: real, owner: seq<int>, stamp: seq<int>, seeds: seq<int>,
                           j: int, clock: int)
    requires History(masks, thr, owner, stamp, seeds) && StampsBelow(stamp, clock) && clock >= 0 && |seeds| > 0
    requires 0 <= j < |masks| && owner[j] < 0 && seeds[|seeds| - 1] < j
    requires ShouldMerge(Group(masks, owner, |seeds| - 1), masks[j], thr)
    ensures History(masks, thr, owner[j := |seeds| - 1], stamp[j := clock], seeds)
    ensures StampsBelow(stamp[j := clock], clock + 1)
  {
    var o, st := owner[j := |seeds| - 1], stamp[j := clock];
    AbsorbKeepsSeedOrder(masks, owner, stamp, seeds, j, clock);
    assert AbsorbedByTest(masks, thr, o, st, seeds) by {
      forall x | 0 <= x < |masks| && o[x] >= 0 && x != seeds[o[x]]
        ensures st[seeds[o[x]]] < st[x] && ShouldMerge(Absorbing(masks, o, st, x), masks[x], thr)
      {
        if x == j {
          AbsorbingIsOpenOutput(masks, thr, owner, stamp, seeds, j, clock);
        } else {
          AbsorbKeepsEarlierTest(masks, thr, owner, stamp, seeds, j, clock, x);
        }
      }
    }
  }

  lemma AbsorbKeepsSeedOrder(masks: seq<Mask>, owner: seq<int>, stamp: seq<int>, seeds: seq<int>, j: int, clock: int)
    requires SeedOrder(masks, owner, stamp, seeds) && clock >= 0 && |seeds| > 0
    requires 0 <= j < |masks| && owner[j] < 0 && seeds[|seeds| - 1] < j
    ensures SeedOrder(masks, owner[j := |seeds| - 1], stamp[j := clock], seeds)
  {
  }

  /** The output the absorbed mask j is recorded as tested against is the
      open output just before j joined it, which it passed, after the seed. */
  lemma AbsorbingIsOpenOutput(masks: seq<Mask>, thr: real, owner: seq<int>, stamp: seq<int>, seeds: seq<int>,
                              j: int, clock: int)
    requires SeedOrder(masks, owner, stamp, seeds) && StampsBelow(stamp, clock) && |seeds| > 0
    requires 0 <= j < |masks| && owner[j] < 0
    requires ShouldMerge(Group(masks, owner, |seeds| - 1), masks[j], thr)
    ensures stamp[seeds[|seeds| - 1]] < clock
    ensures Absorbing(masks, owner[j := |seeds| - 1], stamp[j := clock], j) == Group(masks, owner, |seeds| - 1)
    ensures ShouldMerge(Absorbing(masks, owner[j := |seeds| - 1], stamp[j := clock], j), masks[j], thr)
  {
    GroupIsBefore(masks, owner, stamp, |seeds| - 1, clock);
    GroupBeforeStable(masks, owner, stamp, j, |seeds| - 1, clock, |seeds| - 1, clock);
  }

  /** Absorbing mask j changes neither when nor against what an earlier
      absorbed mask x was tested. */
  lemma AbsorbKeepsEarlierTest(masks: seq<Mask>, thr: real, owner: seq<int>, stamp: seq<int>, seeds: seq<int>,
                               j: int, clock: int, x: int)
    requires History(masks, thr, owner, stamp, seeds) && StampsBelow(stamp, clock) && |seeds| > 0
    requires 0 <= j < |masks| && owner[j] < 0
    requires 0 <= x < |masks| && x != j && owner[x] >= 0 && x != seeds[owner[x]]
    ensures stamp[seeds[owner[x]]] < stamp[x]
    ensures ShouldMerge(Absorbing(masks, owner[j := |seeds| - 1], stamp[j := clock], x), masks[x], thr)
  {
    GroupBeforeStable(masks, owner, stamp, j, |seeds| - 1, clock, owner[x], stamp[x]);
    assert Absorbing(masks, owner[j := |seeds| - 1], stamp[j := clock], x) == Absorbing(masks, owner, stamp, x);
  }

  /** A mask disjoint from every other mask is never absorbed: it opens its
      own output. */
  lemma IsolatedMaskIsSeed(masks: seq<Mask>, thr: real, owner: seq<int>, stamp: seq<int>, seeds: seq<int>, x: int)
    requires History(masks, thr, owner, stamp, seeds) && thr >= 0.0
    requires 0 <= x < |masks| && owner[x] >= 0
    requires forall i :: 0 <= i < |masks| && i != x ==> masks[i] * masks[x] == {}
    ensures seeds[owner[x]] == x
  {
    if x != seeds[owner[x]] {
      var before := Absorbing(masks, owner, stamp, x);
      assert before * masks[x] == {} by {
        forall p | p in before
          ensures p !in masks[x]
        {
          var i :| 0 <= i < |masks| && owner[i] == owner[x] && 0 <= stamp[i] < stamp[x] && p in masks[i];
          assert i != x && masks[i] * masks[x] == {};
          assert p !in masks[i] * masks[x];
        }
      }
      DisjointMasksStayApart(before, masks[x], thr);
      assert false;
    }
  }

  /** Pairwise disjoint masks all stay apart: no two share an output. */
  lemma DisjointMasksGetOwnOutputs(masks: seq<Mask>, thr: real, owner: seq<int>, stamp: seq<int>, seeds: seq<int>,
                                   i: int, j: int)
    requires History(masks, thr, owner, stamp, seeds) && thr >= 0.0
    requires forall a, b :: 0 <= a < |masks| && 0 <= b < |masks| && a != b ==> masks[a] * masks[b] == {}
    requires 0 <= i < j < |masks| && owner[i] >= 0 && owner[j] >= 0
    ensures owner[i] != owner[j]
  {
    IsolatedMaskIsSeed(masks, thr, owner, stamp, seeds, i);
    IsolatedMaskIsSeed(masks, thr, owner, stamp, seeds, j);
  }

  /** The state of `_merge_masks` while output |merged| is grown from seed
      mask i: the bookkeeping and the history hold, the open output is the
      union of its masks, and every mask up to the seed is used. */
  ghost predicate Growing(masks: seq<Mask>, thr: real, used: seq<bool>, owner: seq<int>, stamp: seq<int>,
                          seeds: seq<int>, clock: int, merged: seq<Mask>, current: Mask, i: int)
  {
    Bookkeeping(masks, thr, used, owner, merged) &&
    History(masks, thr, owner, stamp, seeds) && |seeds| == |merged| + 1 &&
    StampsBelow(stamp, clock) && clock >= 0 &&
    current == Group(masks, owner, |merged|) &&
    0 <= i < |masks| && seeds[|merged|] == i && (forall j :: 0 <= j <= i ==> used[j])
  }

  /** Absorbing an unused mask that passes the merge test against the open
      output keeps the growing state and uses up one mask. */
  lemma AbsorbStep(masks: seq<Mask>, thr: real, used: seq<bool>, owner: seq<int>, stamp: seq<int>,
                   seeds: seq<int>, clock: int, merged: seq<Mask>, current: Mask, i: int, j: int)
    requires Growing(masks, thr, used, owner, stamp, seeds, clock, merged, current, i)
    requires 0 <= j < |masks| && !used[j] && ShouldMerge(current, masks[j], thr)
    ensures Growing(masks, thr, used[j := true], owner[j := |merged|], stamp[j := clock], seeds, clock + 1,
                    merged, current + masks[j], i)
    ensures |UnusedSet(used[j := true])| == |UnusedSet(used)| - 1
  {
    AbsorbKeepsBookkeeping(masks, thr, used, owner, merged, j);
    AbsorbKeepsHistory(masks, thr, owner, stamp, seeds, j, clock);
  }

  /** The `while changed` loop of `_merge_masks`: the open output keeps
      absorbing every unused mask that passes the merge test against it,
      pass after pass, until a whole pass absorbs nothing. It ends with no
      unused mask passing the test and the growing state kept. */
  method GrowMerged(masks: seq<Mask>, thr: real, used0: seq<bool>, ghost owner0: seq<int>,
                    ghost stamp0: seq<int>, ghost seeds: seq<int>, ghost clock0: int,
                    merged: seq<Mask>, current0: Mask, ghost i: int)
    returns (used: seq<bool>, ghost owner: seq<int>, ghost stamp: seq<int>, ghost clock: int, current: Mask)
    requires Growing(masks, thr, used0, owner0, stamp0, seeds, clock0, merged, current0, i)
    ensures Growing(masks, thr, used, owner, stamp, seeds, clock, merged, current, i)
    ensures forall j :: 0 <= j < |masks| && !used[j] ==> !ShouldMerge(current, masks[j], thr)
  {
    used, owner, stamp, clock, current := used0, owner0, stamp0, clock0, current0;
    var changed := true;
    while changed
      invariant Growing(masks, thr, used, owner, stamp, seeds, clock, merged, current, i)
      invariant !changed ==> forall j :: 0 <= j < |masks| && !used[j] ==> !ShouldMerge(current, masks[j], thr)
      decreases |UnusedSet(used)|, if changed then 1 else 0
    {
      used, owner, stamp, clock, current, changed := AbsorbPass(masks, thr, used, owner, stamp, seeds, clock, merged, current, i);
    }
  }

  /** One pass of the inner `for` loop: every unused mask that passes the
      merge test against the growing union is absorbed into it, and the
      history records it as tested against the union as it stood then. A
      pass that absorbs nothing leaves no unused mask that would pass the test. */
  method AbsorbPass(masks: seq<Mask>, thr: real, used0: seq<bool>, ghost owner0: seq<int>,
                    ghost stamp0: seq<int>, ghost seeds: seq<int>, ghost clock0: int,
                    merged: seq<Mask>, current0: Mask, ghost i: int)
    returns (used: seq<bool>, ghost owner: seq<int>, ghost stamp: seq<int>, ghost clock: int,
             current: Mask, changed: bool)
    requires Growing(masks, thr, used0, owner0, stamp0, seeds, clock0, merged, current0, i)
    ensures Growing(masks, thr, used, owner, stamp, seeds, clock, merged, current, i)
    ensures |UnusedSet(used)| + (if changed then 1 else 0) <= |UnusedSet(used0)|
    ensures !changed ==> forall j :: 0 <= j < |masks| && !used[j] ==> !ShouldMerge(current, masks[j], thr)
  {
    used, owner, stamp, clock, current := used0, owner0, stamp0, clock0, current0;
    changed := false;
    for j := 0 to |masks|
      invariant Growing(masks, thr, used, owner, stamp, seeds, clock, merged, current, i)
      invariant |UnusedSet(used)| + (if changed then 1 else 0) <= |UnusedSet(used0)|
      invariant !changed ==> forall j' :: 0 <= j' < j && !used[j'] ==> !ShouldMerge(current, masks[j'], thr)
    {
      if used[j] {
        continue;
      }
      if ShouldMerge(current, masks[j], thr) {
        AbsorbStep(masks, thr, used, owner, stamp, seeds, clock, merged, current, i, j);
        current := current + masks[j];
        used := used[j := true];
        owner := owner[j := |merged|];
        stamp := stamp[j := clock];
        clock := clock + 1;
        changed := true;
      }
    }
  }

  /** A mask absorbed into an output was tested against at least that
      output's seed and at most the finished output. */
  lemma AbsorbingBetween(masks: seq<Mask>, thr: real, owner: seq<int>, stamp: seq<int>, seeds: seq<int>, j: int)
    requires History(masks, thr, owner, stamp, seeds)
    requires 0 <= j < |masks| && owner[j] >= 0 && j != seeds[owner[j]]
    ensures masks[seeds[owner[j]]] <= Absorbing(masks, owner, stamp, j) <= Group(masks, owner, owner[j])
  {
    var s := seeds[owner[j]];
    assert ShouldMerge(Absorbing(masks, owner, stamp, j), masks[j], thr);
    forall p | p in masks[s]
      ensures p in Absorbing(masks, owner, stamp, j)
    {
      assert owner[s] == owner[j] && 0 <= stamp[s] < stamp[j];
    }
  }

  /** The merging fixpoint of `_merge_masks` on binarised masks. Each input is
      marked used exactly once, by the output that absorbed it (`owner`);
      output k was opened on the lowest mask still unused (`seeds[k]`); each
      other mask it absorbed has a higher index and passed the merge test
      against the output as it stood when that mask was reached, which holds
      at least the seed and at most the finished output; each output is the
      union of the masks it absorbed; no mask that a later output absorbed
      would have passed the merge test against an earlier, finished output;
      and the outputs cover the inputs' pixels. */
  method MergeBinary(masks: seq<Mask>, overlapThreshold: real)
    returns (merged: seq<Mask>, ghost owner: seq<int>, ghost stamp: seq<int>, ghost seeds: seq<int>)
    ensures |owner| == |masks| && |merged| <= |masks|
    ensures forall i :: 0 <= i < |masks| ==> 0 <= owner[i] < |merged|
    ensures History(masks, overlapThreshold, owner, stamp, seeds) && |seeds| == |merged|
    ensures forall j :: 0 <= j < |masks| && j != seeds[owner[j]] ==>
              ShouldMerge(Absorbing(masks, owner, stamp, j), masks[j], overlapThreshold) &&
              masks[seeds[owner[j]]] <= Absorbing(masks, owner, stamp, j) <= merged[owner[j]]
    ensures forall k :: 0 <= k < |merged| ==> merged[k] == Group(masks, owner, k)
    ensures forall k, i :: 0 <= k < |merged| && 0 <= i < |masks| && owner[i] > k ==>
              !ShouldMerge(merged[k], masks[i], overlapThreshold)
    ensures Union(merged) == Union(masks)
  {
    var n := |masks|;
    var used := seq(n, _ => false);
    owner := seq(n, _ => -1);
    stamp := seq(n, _ => -1);
    seeds := [];
    ghost var clock := 0;
    merged := [];
    for i := 0 to n
      invariant Bookkeeping(masks, overlapThreshold, used, owner, merged)
      invariant History(masks, overlapThreshold, owner, stamp, seeds) && |seeds| == |merged|
      invariant StampsBelow(stamp, clock) && clock >= 0
      invariant forall k :: 0 <= k < |seeds| ==> seeds[k] < i
      invariant forall j :: 0 <= j < n ==> owner[j] < |merged|
      invariant forall j :: 0 <= j < i ==> used[j]
      invariant |merged| <= i
    {
      if used[i] {
        continue;
      }
      GroupEmpty(masks, owner, |merged|);
      AbsorbKeepsBookkeeping(masks, overlapThreshold, used, owner, merged, i);
      SeedKeepsHistory(masks, overlapThreshold, owner, stamp, seeds, i, clock);
      var current := masks[i];
      used := used[i := true];
      owner := owner[i := |merged|];
      stamp := stamp[i := clock];
      seeds := seeds + [i];
      clock := clock + 1;

      used, owner, stamp, clock, current := GrowMerged(masks, overlapThreshold, used, owner, stamp, seeds, clock, merged, current, i);
      FinishKeepsBookkeeping(masks, overlapThreshold, used, owner, merged, current);
      merged := merged + [current];
    }
    GroupsCoverUnion(masks, owner, merged);
    forall j | 0 <= j < n && j != seeds[owner[j]]
      ensures masks[seeds[owner[j]]] <= Absorbing(masks, owner, stamp, j) <= merged[owner[j]]
    {
      AbsorbingBetween(masks, overlapThreshold, owner, stamp, seeds, j);
    }
  }

  /** `merged` is what `_merge_masks` makes of `masks`, with `owner`,
      `stamp` and `seeds` its history: the identity when merging is off or
      there is nothing to merge; the same pixels either way; the history of
      `MergeBinary` over the binarised inputs; and, with merging on, each
      output is the union of the inputs it absorbed and no input that a
      later output absorbed would have passed the merge test against an
      earlier, finished output. */
  ghost predicate MergedFrom(masks: seq<RawMask>, mergeOverlapping: bool, overlapThreshold: real,
                             merged: seq<RawMask>, owner: seq<int>, stamp: seq<int>, seeds: seq<int>)
  {
    (!mergeOverlapping || |masks| == 0 ==> merged == masks) &&
    |merged| <= |masks| && Union(Binarised(merged)) == Union(Binarised(masks)) &&
    |owner| == |masks| && (forall i :: 0 <= i < |masks| ==> 0 <= owner[i] < |merged|) &&
    History(Binarised(masks), overlapThreshold, owner, stamp, seeds) && |seeds| == |merged| &&
    (mergeOverlapping ==>
       (forall k :: 0 <= k < |merged| ==> Binarise(merged[k]) == Group(Binarised(masks), owner, k)) &&
       (forall k, i :: 0 <= k < |merged| && 0 <= i < |masks| && owner[i] > k ==>
          !ShouldMerge(Binarise(merged[k]), Binarise(masks[i]), overlapThreshold)))
  }

  /** `_merge_masks`: the identity when merging is off or there is nothing to
      merge; otherwise the binarised masks are merged and returned as masks of
      ones, each the union of the inputs it absorbed (`owner`), together
      covering exactly the pixels the inputs covered, and no input that a
      later output absorbed would have passed the merge test against an
      earlier output. Either way the history of `MergeBinary` holds of the
      binarised inputs: with merging off every mask is its own seed and
      nothing is absorbed. */
  method MergeMasks(masks: seq<RawMask>, mergeOverlapping: bool, overlapThreshold: real)
    returns (merged: seq<RawMask>, ghost owner: seq<int>, ghost stamp: seq<int>, ghost seeds: seq<int>)
    ensures !mergeOverlapping || |masks| == 0 ==> merged == masks
    ensures |merged| <= |masks|
    ensures Union(Binarised(merged)) == Union(Binarised(masks))
    ensures mergeOverlapping ==> forall k, p :: 0 <= k < |merged| && p in merged[k] ==> merged[k][p] == 1.0
    ensures |owner| == |masks| && forall i :: 0 <= i < |masks| ==> 0 <= owner[i] < |merged|
    ensures History(Binarised(masks), overlapThreshold, owner, stamp, seeds) && |seeds| == |merged|
    ensures mergeOverlapping ==>
              forall k :: 0 <= k < |merged| ==> Binarise(merged[k]) == Group(Binarised(masks), owner, k)
    ensures mergeOverlapping ==>
              forall k, i :: 0 <= k < |merged| && 0 <= i < |masks| && owner[i] > k ==>
                !ShouldMerge(Binarise(merged[k]), Binarise(masks[i]), overlapThreshold)
    ensures MergedFrom(masks, mergeOverlapping, overlapThreshold, merged, owner, stamp, seeds)
  {
    if !mergeOverlapping || |masks| == 0 {
      var ids := seq(|masks|, i => i);
      EachMaskItsOwnSeed(Binarised(masks), overlapThreshold, ids);
      return masks, ids, ids, ids;
    }
    var binary := Binarised(masks);
    var groups;
    groups, owner, stamp, seeds := MergeBinary(binary, overlapThreshold);
    merged := seq(|groups|, k requires 0 <= k < |groups| => Indicator(groups[k]));
    assert Binarised(merged) == groups by {
      forall k | 0 <= k < |groups|
        ensures Binarised(merged)[k] == groups[k]
      {
        BinariseIndicator(groups[k]);
      }
    }
  }

  // ---------------------------------------------------------------- building ROIs

  predicate AreaInRange(cfg: DetectorConfig, area: int)
  {
    cfg.minArea <= area <= cfg.maxArea
  }

  /** A mask becomes a ROI when its area passes the filter and OpenCV finds a usable contour. */
  predicate Accepted(cfg: DetectorConfig, m: RawMask, measure: Mask -> Shape)
  {
    var b := Binarise(m);
    AreaInRange(cfg, |b|) && measure(b).usable
  }

  function DetectedType(aspectRatio: real): (t: DiamondType)
    ensures t == Round <==> aspectRatio > 0.85
    ensures t != Emerald
  {
    if aspectRatio > 0.85 then Round else Other
  }

  /** The bounding box grown by `padding` on every side and clipped to the image. */
  function PadWindow(b: Box, padding: int, width: int, height: int): (r: Window)
    ensures 0 <= r.x0 && 0 <= r.y0 && r.x1 <= width && r.y1 <= height
    ensures padding >= 0 && b.x >= 0 ==> r.x0 <= b.x
    ensures padding >= 0 && b.y >= 0 ==> r.y0 <= b.y
    ensures padding >= 0 && b.x + b.w <= width ==> b.x + b.w <= r.x1
    ensures padding >= 0 && b.y + b.h <= height ==> b.y + b.h <= r.y1
  {
    Window(MaxInt(0, b.x - padding), MaxInt(0, b.y - padding),
           MinInt(width, b.x + b.w + padding), MinInt(height, b.y + b.h + padding))
  }

  function MakeRoi(cfg: DetectorConfig, area: nat, s: Shape, id: int, width: int, height: int): (roi: DiamondRoi)
    ensures roi.area == area && roi.id == id && roi.orientation == None
    ensures roi.detectedType == Round <==> roi.aspectRatio > 0.85
    ensures roi.crop == PadWindow(s.bbox, cfg.padding, width, height)
  {
    var ratio := AxisRatio(s.axes);
    DiamondRoi(s.contour, s.bbox, s.center, area, s.perimeter,
               PadWindow(s.bbox, cfg.padding, width, height), id,
               Max(s.axes.0, s.axes.1), Min(s.axes.0, s.axes.1), ratio,
               None, DetectedType(ratio))
  }

  /** What every ROI leaving the detector satisfies: it passed the area
      filter, has no orientation yet, is typed round exactly when its axis
      ratio exceeds 0.85, and its crop window lies inside the image. */
  predicate WellFormedRoi(cfg: DetectorConfig, width: int, height: int, roi: DiamondRoi)
  {
    AreaInRange(cfg, roi.area) && roi.orientation == None &&
    (roi.detectedType == Round <==> roi.aspectRatio > 0.85) &&
    0 <= roi.crop.x0 && 0 <= roi.crop.y0 && roi.crop.x1 <= width && roi.crop.y1 <= height
  }

  /** The body of `detect`'s loop: masks outside the area window or without a
      usable contour are dropped; the rest become ROIs numbered in order. */
  method BuildRois(cfg: DetectorConfig, masks: seq<RawMask>, width: int, height: int, measure: Mask -> Shape)
    returns (rois: seq<DiamondRoi>, ghost picked: seq<int>)
    ensures |rois| == |picked| <= |masks|
    ensures forall k :: 0 <= k < |picked| ==> 0 <= picked[k] < |masks|
    ensures forall k, l :: 0 <= k < l < |picked| ==> picked[k] < picked[l]
    ensures forall i :: 0 <= i < |masks| ==> (i in picked <==> Accepted(cfg, masks[i], measure))
    ensures forall k :: 0 <= k < |rois| ==>
              rois[k] == MakeRoi(cfg, |Binarise(masks[picked[k]])|, measure(Binarise(masks[picked[k]])), k, width, height)
    ensures forall k :: 0 <= k < |rois| ==> WellFormedRoi(cfg, width, height, rois[k]) && rois[k].id == k
  {
    rois, picked := BuildRoisWith(cfg, masks, measure, (area: nat, s: Shape, id: int) => MakeRoi(cfg, area, s, id, width, height));
    forall k | 0 <= k < |rois|
      ensures WellFormedRoi(cfg, width, height, rois[k]) && rois[k].id == k
    {
      assert picked[k] in picked;
    }
  }

  /** The loop of `detect` with the ROI construction passed in: the
      accepted masks, in order, each built with its area, its shape and the
      next id. */
  method BuildRoisWith(cfg: DetectorConfig, masks: seq<RawMask>, measure: Mask -> Shape, make: (nat, Shape, int) -> DiamondRoi)
    returns (rois: seq<DiamondRoi>, ghost picked: seq<int>)
    ensures |rois| == |picked| <= |masks|
    ensures forall k :: 0 <= k < |picked| ==> 0 <= picked[k] < |masks|
    ensures forall k, l :: 0 <= k < l < |picked| ==> picked[k] < picked[l]
    ensures forall i :: 0 <= i < |masks| ==> (i in picked <==> Accepted(cfg, masks[i], measure))
    ensures forall k :: 0 <= k < |rois| ==>
              rois[k] == make(|Binarise(masks[picked[k]])|, measure(Binarise(masks[picked[k]])), k)
  {
    rois, picked := [], [];
    var roiId := 0;
    for i := 0 to |masks|
      invariant roiId == |rois| == |picked| <= i
      invariant forall k :: 0 <= k < |picked| ==> 0 <= picked[k] < i
      invariant forall k, l :: 0 <= k < l < |picked| ==> picked[k] < picked[l]
      invariant forall i' :: 0 <= i' < i ==> (i' in picked <==> Accepted(cfg, masks[i'], measure))
      invariant forall k :: 0 <= k < |rois| ==>
                  rois[k] == make(|Binarise(masks[picked[k]])|, measure(Binarise(masks[picked[k]])), k)
    {
      var b := Binarise(masks[i]);
      var area := |b|;
      if area < cfg.minArea || area > cfg.maxArea {
        continue;
      }
      var s := measure(b);
      if !s.usable {
        continue;
      }
      rois := rois + [make(area, s, roiId)];
      picked := picked + [i];
      roiId := roiId + 1;
    }
  }

  // ---------------------------------------------------------------- nested ROIs

  predicate BoxWithin(inner: Box, outer: Box)
  {
    inner.x >= outer.x && inner.y >= outer.y &&
    inner.x + inner.w <= outer.x + outer.w && inner.y + inner.h <= outer.y + outer.h
  }

  /** `inner` lies inside the strictly larger `outer`: its centre is inside
      or on `outer`'s contour and its bounding box inside `outer`'s. */
  predicate Nested(inner: DiamondRoi, outer: DiamondRoi, centreInside: (Contour, Point2) -> bool)
  {
    inner.area < outer.area && centreInside(outer.contour, inner.center) && BoxWithin(inner.bbox, outer.bbox)
  }


  /** The removal rule: index i is removed exactly when some other ROI that
      was still present when i was examined (a later one, or an earlier
      survivor) swallows it. */
  ghost predicate RemovalRule(rois: seq<DiamondRoi>, removed: set<int>, i: int, centreInside: (Contour, Point2) -> bool)
    requires 0 <= i < |rois|
  {
    i in removed <==>
      exists j :: 0 <= j < |rois| && j != i && (j > i || j !in removed) && Nested(rois[i], rois[j], centreInside)
  }

  /** Removing a later index does not change the verdict on an earlier one. */
  lemma RemovalRuleStable(rois: seq<DiamondRoi>, removed: set<int>, x: int, i: int, centreInside: (Contour, Point2) -> bool)
    requires 0 <= i < x < |rois| && RemovalRule(rois, removed, i, centreInside)
    ensures RemovalRule(rois, removed + {x}, i, centreInside)
  {
    var r := removed + {x};
    if i in r {
      var j :| 0 <= j < |rois| && j != i && (j > i || j !in removed) && Nested(rois[i], rois[j], centreInside);
      assert j > i || j !in r;
    }
  }

  /** The index of a largest ROI. */
  function ArgMaxArea(rois: seq<DiamondRoi>): (m: nat)
    requires |rois| > 0
    ensures m < |rois|
    ensures forall j :: 0 <= j < |rois| ==> rois[j].area <= rois[m].area
  {
    if |rois| == 1 then 0
    else
      var m := ArgMaxArea(rois[..|rois| - 1]);
      if rois[|rois| - 1].area > rois[m].area then |rois| - 1 else m
  }

  /** The marking loops of `_remove_nested_rois`: each ROI is tested, in
      order, against every other ROI not yet marked; a strictly larger one
      whose contour holds its centre and whose box holds its box marks it. */
  method MarkNested(rois: seq<DiamondRoi>, centreInside: (Contour, Point2) -> bool)
    returns (removed: set<int>)
    ensures forall i :: i in removed ==> 0 <= i < |rois|
    ensures forall i :: 0 <= i < |rois| ==> RemovalRule(rois, removed, i, centreInside)
  {
    removed := {};
    var n := |rois|;
    // The source also skips i when it is already marked; only i itself is
    // ever marked at step i, so that test never fires and is not repeated here.
    for i := 0 to n
      invariant forall i' :: i' in removed ==> 0 <= i' < i
      invariant forall i' :: 0 <= i' < i ==> RemovalRule(rois, removed, i', centreInside)
    {
      for j := 0 to n
        invariant i !in removed
        invariant forall i' :: i' in removed ==> 0 <= i' < i
        invariant forall j' :: 0 <= j' < j && j' != i && (j' > i || j' !in removed) ==> !Nested(rois[i], rois[j'], centreInside)
      {
        if i == j || j in removed {
          continue;
        }
        if rois[i].area >= rois[j].area {
          continue;
        }
        if centreInside(rois[j].contour, rois[i].center) && BoxWithin(rois[i].bbox, rois[j].bbox) {
          forall i' | 0 <= i' < i
            ensures RemovalRule(rois, removed + {i}, i', centreInside)
          {
            RemovalRuleStable(rois, removed, i, i', centreInside);
          }
          removed := removed + {i};
          break;
        }
      }
    }
  }

  /** The list comprehension keeping the unmarked ROIs in order. */
  method FilterUnmarked(rois: seq<DiamondRoi>, removed: set<int>)
    returns (kept: seq<DiamondRoi>, ghost survivors: seq<int>)
    ensures |survivors| == |kept|
    ensures forall k :: 0 <= k < |survivors| ==> 0 <= survivors[k] < |rois| && survivors[k] !in removed
    ensures forall i :: 0 <= i < |rois| && i !in removed ==> i in survivors
    ensures forall k, l :: 0 <= k < l < |survivors| ==> survivors[k] < survivors[l]
    ensures forall k :: 0 <= k < |kept| ==> kept[k] == rois[survivors[k]]
  {
    kept := [];
    survivors := [];
    for idx := 0 to |rois|
      invariant |kept| == |survivors|
      invariant forall k :: 0 <= k < |survivors| ==> 0 <= survivors[k] < idx && survivors[k] !in removed
      invariant forall k :: 0 <= k < |kept| ==> kept[k] == rois[survivors[k]]
      invariant forall k, l :: 0 <= k < l < |survivors| ==> survivors[k] < survivors[l]
      invariant forall i' :: 0 <= i' < idx && i' !in removed ==> i' in survivors
    {
      if idx !in removed {
        kept := kept + [rois[idx]];
        survivors := survivors + [idx];
      }
    }
  }

  /** `_remove_nested_rois`: lists of at most one ROI come back untouched;
      otherwise the ROIs the removal rule spares (`survivors`) keep their
      order and are renumbered 0..n-1. A largest ROI is never removed. */
  method RemoveNestedRois(rois: seq<DiamondRoi>, centreInside: (Contour, Point2) -> bool)
    returns (kept: seq<DiamondRoi>, removed: set<int>, ghost survivors: seq<int>)
    ensures |rois| <= 1 ==> kept == rois && removed == {}
    ensures forall i :: i in removed ==> 0 <= i < |rois|
    ensures forall i :: 0 <= i < |rois| ==> RemovalRule(rois, removed, i, centreInside)
    ensures |survivors| == |kept|
    ensures forall k :: 0 <= k < |survivors| ==> 0 <= survivors[k] < |rois| && survivors[k] !in removed
    ensures forall i :: 0 <= i < |rois| && i !in removed ==> i in survivors
    ensures forall k, l :: 0 <= k < l < |survivors| ==> survivors[k] < survivors[l]
    ensures forall k :: 0 <= k < |kept| ==> kept[k] == rois[survivors[k]].(id := kept[k].id)
    ensures forall k :: 0 <= k < |kept| ==> kept[k].id == (if |rois| > 1 then k else rois[survivors[k]].id)
    ensures |rois| > 0 ==> ArgMaxArea(rois) !in removed && |kept| > 0
  {
    if |rois| <= 1 {
      survivors := if |rois| == 0 then [] else [0];
      return rois, {}, survivors;
    }
    removed := MarkNested(rois, centreInside);
    kept, survivors := FilterUnmarked(rois, removed);
    for newId := 0 to |kept|
      invariant |kept| == |survivors|
      invariant forall k :: 0 <= k < newId ==> kept[k] == rois[survivors[k]].(id := k)
      invariant forall k :: newId <= k < |kept| ==> kept[k] == rois[survivors[k]]
    {
      kept := kept[newId := kept[newId].(id := newId)];
    }
    var m := ArgMaxArea(rois);
    assert RemovalRule(rois, removed, m, centreInside);
    assert m in survivors;
  }

  // ---------------------------------------------------------------- detect

  /** `picked` lists, in increasing order, exactly the masks the area filter
      and the contour accept. */
  ghost predicate PicksAccepted(cfg: DetectorConfig, masks: seq<RawMask>, measure: Mask -> Shape, picked: seq<int>)
  {
    (forall k :: 0 <= k < |picked| ==> 0 <= picked[k] < |masks|) &&
    (forall k, l :: 0 <= k < l < |picked| ==> picked[k] < picked[l]) &&
    (forall i :: 0 <= i < |masks| ==> (i in picked <==> Accepted(cfg, masks[i], measure)))
  }

  /** `survivors` lists, in increasing order, exactly the ROIs outside
      `removed`, and `removed` follows the removal rule. */
  ghost predicate SparedByRule(rois: seq<DiamondRoi>, removed: set<int>, survivors: seq<int>,
                               centreInside: (Contour, Point2) -> bool)
  {
    (forall i :: 0 <= i < |rois| ==> RemovalRule(rois, removed, i, centreInside)) &&
    (forall k :: 0 <= k < |survivors| ==> 0 <= survivors[k] < |rois| && survivors[k] !in removed) &&
    (forall i :: 0 <= i < |rois| && i !in removed ==> i in survivors) &&
    (forall k, l :: 0 <= k < l < |survivors| ==> survivors[k] < survivors[l])
  }

  /** `rois` is what `detect` makes of `masks`: `merged` are the masks
      after merging, with some merge history as MergedFrom states, `built`
      the ROIs made from the accepted ones (at positions `picked`), and
      `rois` the `built` ROIs at positions `survivors`, renumbered by
      position. */
  ghost predicate DetectedFrom(cfg: DetectorConfig, masks: seq<RawMask>, width: int, height: int,
                               measure: Mask -> Shape, centreInside: (Contour, Point2) -> bool,
                               rois: seq<DiamondRoi>, merged: seq<RawMask>, built: seq<DiamondRoi>,
                               picked: seq<int>, removed: set<int>, survivors: seq<int>)
  {
    (!cfg.mergeOverlapping ==> merged == masks) &&
    |merged| <= |masks| && Union(Binarised(merged)) == Union(Binarised(masks)) &&
    (exists owner, stamp, seeds ::
       MergedFrom(masks, cfg.mergeOverlapping, cfg.overlapThreshold, merged, owner, stamp, seeds)) &&
    |built| == |picked| && PicksAccepted(cfg, merged, measure, picked) &&
    (forall k :: 0 <= k < |built| ==>
       built[k] == MakeRoi(cfg, |Binarise(merged[picked[k]])|, measure(Binarise(merged[picked[k]])), k, width, height)) &&
    SparedByRule(built, removed, survivors, centreInside) &&
    |rois| == |survivors| &&
    (forall k {:trigger rois[k]} :: 0 <= k < |rois| ==> rois[k] == built[survivors[k]].(id := k))
  }

  /** `detect` after inference: merge (when configured), build ROIs, drop
      nested ones. `merged` are the masks after merging, `built` the ROIs
      made from the accepted ones (at positions `picked`), and the result is
      the `built` ROIs at positions `survivors`, renumbered by position. A
      largest built ROI always survives, so some ROI comes out whenever one
      was built. */
  method Detect(cfg: DetectorConfig, masks: seq<RawMask>, width: int, height: int,
                measure: Mask -> Shape, centreInside: (Contour, Point2) -> bool)
    returns (rois: seq<DiamondRoi>, ghost merged: seq<RawMask>, ghost built: seq<DiamondRoi>,
             ghost picked: seq<int>, ghost removed: set<int>, ghost survivors: seq<int>)
    ensures !cfg.mergeOverlapping ==> merged == masks
    ensures |merged| <= |masks| && Union(Binarised(merged)) == Union(Binarised(masks))
    ensures |built| == |picked| && PicksAccepted(cfg, merged, measure, picked)
    ensures forall k :: 0 <= k < |built| ==>
              built[k] == MakeRoi(cfg, |Binarise(merged[picked[k]])|, measure(Binarise(merged[picked[k]])), k, width, height)
    ensures SparedByRule(built, removed, survivors, centreInside)
    ensures |rois| == |survivors|
    ensures forall k :: 0 <= k < |rois| ==> rois[k] == built[survivors[k]].(id := k)
    ensures exists owner, stamp, seeds ::
              MergedFrom(masks, cfg.mergeOverlapping, cfg.overlapThreshold, merged, owner, stamp, seeds)
    ensures DetectedFrom(cfg, masks, width, height, measure, centreInside, rois, merged, built, picked, removed, survivors)
    ensures |built| > 0 ==> ArgMaxArea(built) in survivors && |rois| > 0
    ensures |rois| <= |masks|
    ensures forall k :: 0 <= k < |rois| ==> rois[k].id == k && WellFormedRoi(cfg, width, height, rois[k])
  {
    var ms, owner, stamp, seeds := MergeMasks(masks, cfg.mergeOverlapping, cfg.overlapThreshold);
    assert MergedFrom(masks, cfg.mergeOverlapping, cfg.overlapThreshold, ms, owner, stamp, seeds);
    var bs, ps := BuildRois(cfg, ms, width, height, measure);
    var rs;
    rois, rs, survivors := RemoveNestedRois(bs, centreInside);
    merged, built, picked, removed := ms, bs, ps, rs;
    assert |rois| <= |built| by {
      SurvivorsFit(survivors, |built|);
    }
    forall k | 0 <= k < |rois|
      ensures rois[k] == built[survivors[k]].(id := k) && WellFormedRoi(cfg, width, height, rois[k])
    {
      var b := built[survivors[k]];
      assert WellFormedRoi(cfg, width, height, b) && b.id == survivors[k];
      assert rois[k] == b.(id := rois[k].id);
    }
  }
}
