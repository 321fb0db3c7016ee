/** Training-data export (export_training_data.py): saved verdicts are
    grouped by image, each image is found on disk and classified again, and
    every verdict whose ROI id is among the new classifications becomes one
    row of features and verified labels. The file system is given as a
    predicate saying which names exist and a loader for the images. */
module Export {
  import opened Labels
  import opened Core
  import opened Verification
  import opened GeometricClassifier

  /** One training row. The three flags are 0 or 1. */
  datatype Sample = Sample(
    image: string,
    roiId: int,
    outlineSym: real,
    reflectionSym: real,
    aspectRatio: real,
    spotSym: real,
    hasSpot: int,
    numReflections: nat,
    typeEmerald: int,
    typeOther: int,
    tableLabel: int,
    diamondType: DiamondType,
    orientation: Orientation)

  // ---------------------------------------------------------------- grouping

  /** Image names in order of first appearance. */
  function Images(vs: seq<Record>): (names: seq<string>)
    ensures forall i, j :: 0 <= i < j < |names| ==> names[i] != names[j]
  {
    if |vs| == 0 then []
    else
      var p := Images(vs[..|vs| - 1]);
      if vs[|vs| - 1].image in p then p else p + [vs[|vs| - 1].image]
  }

  /** The records of one image, in input order. */
  function ForImage(vs: seq<Record>, name: string): (g: seq<Record>)
    ensures |g| <= |vs|
    ensures forall v :: v in g ==> v in vs && v.image == name
  {
    if |vs| == 0 then []
    else
      var p := ForImage(vs[..|vs| - 1], name);
      if vs[|vs| - 1].image == name then p + [vs[|vs| - 1]] else p
  }

  /** Where an image name first occurs. */
  function FirstIndex(vs: seq<Record>, name: string): (k: nat)
    requires name in Images(vs)
    ensures k < |vs| && vs[k].image == name
    ensures forall j :: 0 <= j < k ==> vs[j].image != name
  {
    var p := vs[..|vs| - 1];
    if name in Images(p) then
      var k := FirstIndex(p, name);
      assert vs[k] == p[k];
      assert forall j :: 0 <= j < k ==> vs[j] == p[j];
      k
    else
      NotListedNotPresent(p, name);
      assert forall j :: 0 <= j < |p| ==> vs[j] == p[j];
      |vs| - 1
  }

  /** A name that is not listed occurs in no record. */
  lemma {:induction false} NotListedNotPresent(vs: seq<Record>, name: string)
    requires name !in Images(vs)
    ensures forall j :: 0 <= j < |vs| ==> vs[j].image != name
    ensures ForImage(vs, name) == []
  {
    if |vs| > 0 {
      var p := vs[..|vs| - 1];
      NotListedNotPresent(p, name);
      assert forall j :: 0 <= j < |p| ==> vs[j] == p[j];
    }
  }

  /** Every record's image is listed. */
  lemma {:induction false} EveryImageListed(vs: seq<Record>)
    ensures forall j :: 0 <= j < |vs| ==> vs[j].image in Images(vs)
  {
    if |vs| > 0 {
      var p := vs[..|vs| - 1];
      EveryImageListed(p);
      assert forall j :: 0 <= j < |p| ==> vs[j] == p[j];
    }
  }

  /** The groups come in the order their images first occur. */
  lemma {:induction false} ImagesInFirstAppearanceOrder(vs: seq<Record>)
    ensures forall i, j :: 0 <= i < j < |Images(vs)| ==>
              FirstIndex(vs, Images(vs)[i]) < FirstIndex(vs, Images(vs)[j])
  {
    if |vs| > 0 {
      var p := vs[..|vs| - 1];
      ImagesInFirstAppearanceOrder(p);
      var names, old_names := Images(vs), Images(p);
      forall i, j | 0 <= i < j < |names|
        ensures FirstIndex(vs, names[i]) < FirstIndex(vs, names[j])
      {
        assert names[i] in old_names;
        assert FirstIndex(vs, names[i]) == FirstIndex(p, names[i]);
        if j < |old_names| {
          assert names[j] == old_names[j];
          assert FirstIndex(vs, names[j]) == FirstIndex(p, names[j]);
        } else {
          assert names[j] !in old_names;
        }
      }
    }
  }

  /** The total size of the groups of the given names. */
  function GroupSizes(vs: seq<Record>, names: seq<string>): nat
  {
    if |names| == 0 then 0
    else GroupSizes(vs, names[..|names| - 1]) + |ForImage(vs, names[|names| - 1])|
  }

  /** One more record adds one to the total exactly when its image is named. */
  lemma {:induction false} GroupSizesSnoc(vs: seq<Record>, v: Record, names: seq<string>)
    requires forall i, j :: 0 <= i < j < |names| ==> names[i] != names[j]
    ensures GroupSizes(vs + [v], names) == GroupSizes(vs, names) + (if v.image in names then 1 else 0)
  {
    var w := vs + [v];
    assert w[..|w| - 1] == vs;
    if |names| > 0 {
      var p := names[..|names| - 1];
      GroupSizesSnoc(vs, v, p);
      assert v.image in names <==> v.image in p || v.image == names[|names| - 1];
    }
  }

  /** The groups together hold every record exactly once. */
  lemma {:induction false} GroupsCoverAll(vs: seq<Record>)
    ensures GroupSizes(vs, Images(vs)) == |vs|
  {
    if |vs| > 0 {
      var p, v := vs[..|vs| - 1], vs[|vs| - 1];
      assert vs == p + [v];
      GroupsCoverAll(p);
      GroupSizesSnoc(p, v, Images(p));
      if v.image !in Images(p) {
        var names := Images(vs);
        assert names[..|names| - 1] == Images(p);
        NotListedNotPresent(p, v.image);
      }
    }
  }

  /** The `by_image` dictionary: the keys in insertion order and the map. */
  method GroupByImage(vs: seq<Record>) returns (order: seq<string>, groups: map<string, seq<Record>>)
    ensures order == Images(vs)
    ensures forall n :: n in groups <==> n in order
    ensures forall n :: n in groups ==> groups[n] == ForImage(vs, n)
  {
    order, groups := [], map[];
    for k := 0 to |vs|
      invariant order == Images(vs[..k])
      invariant forall n :: n in groups <==> n in order
      invariant forall n :: n in groups ==> groups[n] == ForImage(vs[..k], n)
    {
      var name := vs[k].image;
      assert vs[..k + 1][..k] == vs[..k];
      if name !in groups {
        NotListedNotPresent(vs[..k], name);
        order := order + [name];
        groups := groups[name := []];
      }
      groups := groups[name := groups[name] + [vs[k]]];
    }
    assert vs[..|vs|] == vs;
  }

  // ---------------------------------------------------------------- matching

  /** The first classification with the given ROI id. */
  function FirstMatch(cs: seq<ClassificationResult>, roiId: int): (r: Option<ClassificationResult>)
    ensures r.None? <==> forall i :: 0 <= i < |cs| ==> cs[i].roiId != roiId
    ensures r.Some? ==> r.value.roiId == roiId && r.value in cs
  {
    if |cs| == 0 then None
    else if cs[0].roiId == roiId then Some(cs[0])
    else
      var r := FirstMatch(cs[1..], roiId);
      assert forall i :: 1 <= i < |cs| ==> cs[i] == cs[1..][i - 1];
      r
  }

  /** What FirstMatch finds is the earliest classification with the id. */
  lemma {:induction false} FirstMatchIsEarliest(cs: seq<ClassificationResult>, roiId: int)
    requires FirstMatch(cs, roiId).Some?
    ensures exists i :: 0 <= i < |cs| && cs[i] == FirstMatch(cs, roiId).value &&
                        forall j :: 0 <= j < i ==> cs[j].roiId != roiId
  {
    if cs[0].roiId != roiId {
      FirstMatchIsEarliest(cs[1..], roiId);
      var i :| 0 <= i < |cs[1..]| && cs[1..][i] == FirstMatch(cs[1..], roiId).value &&
               forall j :: 0 <= j < i ==> cs[1..][j].roiId != roiId;
      assert cs[i + 1] == FirstMatch(cs, roiId).value;
      assert forall j :: 1 <= j < i + 1 ==> cs[j] == cs[1..][j - 1];
    }
  }

  /** The inner search loop with its `break`. */
  method FindClassification(cs: seq<ClassificationResult>, roiId: int) returns (found: Option<ClassificationResult>)
    ensures found == FirstMatch(cs, roiId)
  {
    found := None;
    var i := 0;
    while i < |cs|
      invariant 0 <= i <= |cs|
      invariant FirstMatch(cs, roiId) == FirstMatch(cs[i..], roiId)
    {
      if cs[i].roiId == roiId {
        found := Some(cs[i]);
        break;
      }
      assert cs[i..][1..] == cs[i + 1..];
      i := i + 1;
    }
  }

  /** One row: the classification's features and the operator's labels;
      the label is 1 for table and 0 for tilted, and the type flags are a
      one-of-two encoding with round as neither. */
  function MakeSample(image: string, v: Record, c: ClassificationResult): (s: Sample)
    ensures s.image == image && s.roiId == v.roiId
    ensures s.diamondType == v.verifiedType && s.orientation == v.verifiedOrientation
    ensures s.tableLabel in {0, 1} && (s.tableLabel == 1 <==> v.verifiedOrientation == Table)
    ensures s.typeEmerald in {0, 1} && (s.typeEmerald == 1 <==> v.verifiedType == Emerald)
    ensures s.typeOther in {0, 1} && (s.typeOther == 1 <==> v.verifiedType == Other)
    ensures s.typeEmerald + s.typeOther <= 1
    ensures s.hasSpot in {0, 1} && (s.hasSpot == 1 <==> c.features.hasSpot)
    ensures s.outlineSym == c.features.outlineSym && s.reflectionSym == c.features.reflectionSym
    ensures s.aspectRatio == c.features.aspectRatio && s.spotSym == c.features.spotSym
    ensures s.numReflections == c.features.numReflections
  {
    var f := c.features;
    Sample(image, v.roiId, f.outlineSym, f.reflectionSym, f.aspectRatio, f.spotSym,
           if f.hasSpot then 1 else 0, f.numReflections,
           if v.verifiedType == Emerald then 1 else 0,
           if v.verifiedType == Other then 1 else 0,
           if v.verifiedOrientation == Table then 1 else 0,
           v.verifiedType, v.verifiedOrientation)
  }

  /** Reads the labels back from a row's numeric columns. */
  function DecodeLabels(s: Sample): (Orientation, DiamondType)
  {
    (if s.tableLabel == 1 then Table else Tilted,
     if s.typeEmerald == 1 then Emerald else if s.typeOther == 1 then Other else Round)
  }

  /** The numeric columns carry the verified labels without loss. */
  lemma LabelsRoundTrip(image: string, v: Record, c: ClassificationResult)
    ensures DecodeLabels(MakeSample(image, v, c)) == (v.verifiedOrientation, v.verifiedType)
  {
  }

  /** A row whose numeric columns agree with the verdict it came from. */
  ghost predicate FromRecord(s: Sample, v: Record)
  {
    s.image == v.image && s.roiId == v.roiId &&
    s.diamondType == v.verifiedType && s.orientation == v.verifiedOrientation &&
    DecodeLabels(s) == (v.verifiedOrientation, v.verifiedType)
  }

  /** The rows of a group, in order: one per verdict that has a matching
      classification, built from its first match. */
  function Matched<R>(group: seq<Record>, cs: seq<ClassificationResult>, make: (Record, ClassificationResult) -> R): (rows: seq<R>)
    ensures |rows| <= |group|
  {
    if |group| == 0 then []
    else
      var v := group[|group| - 1];
      Matched(group[..|group| - 1], cs, make) +
        (match FirstMatch(cs, v.roiId) case None => [] case Some(c) => [make(v, c)])
  }

  /** The row builder of one image. */
  function RowMaker(image: string): (Record, ClassificationResult) -> Sample
  {
    (v, c) => MakeSample(image, v, c)
  }

  /** The rows one image contributes given its classifications. */
  function MatchedRows(image: string, group: seq<Record>, cs: seq<ClassificationResult>): (rows: seq<Sample>)
    ensures |rows| <= |group|
  {
    Matched(group, cs, RowMaker(image))
  }

  /** A verdict with a matching classification yields its row. */
  lemma {:induction false} MatchedHas<R>(group: seq<Record>, cs: seq<ClassificationResult>,
                                          make: (Record, ClassificationResult) -> R, i: nat)
    requires i < |group| && FirstMatch(cs, group[i].roiId).Some?
    ensures make(group[i], FirstMatch(cs, group[i].roiId).value) in Matched(group, cs, make)
  {
    if i < |group| - 1 {
      var p := group[..|group| - 1];
      assert p[i] == group[i];
      MatchedHas(p, cs, make, i);
    }
  }

  /** Every row of MatchedRows agrees with the verdict it came from. */
  lemma {:induction false} MatchedRowsTraceable(image: string, group: seq<Record>, cs: seq<ClassificationResult>)
    requires forall v :: v in group ==> v.image == image
    ensures Traceable(MatchedRows(image, group, cs), group)
  {
    if |group| > 0 {
      var p, v := group[..|group| - 1], group[|group| - 1];
      MatchedRowsTraceable(image, p, cs);
      var a := MatchedRows(image, p, cs);
      var rows := MatchedRows(image, group, cs);
      forall k | 0 <= k < |rows|
        ensures TracesTo(rows[k], group)
      {
        if k < |a| {
          assert TracesTo(a[k], p);
          var w :| w in p && FromRecord(a[k], w);
          assert w in group;
        } else {
          LabelsRoundTrip(image, v, FirstMatch(cs, v.roiId).value);
          assert FromRecord(rows[k], v);
        }
      }
    }
  }

  /** The loop over one image's verdicts: each verdict with a matching
      classification, in order, gives the row built from its first match. */
  method MatchGroup(image: string, group: seq<Record>, cs: seq<ClassificationResult>) returns (samples: seq<Sample>)
    requires forall v :: v in group ==> v.image == image
    ensures samples == MatchedRows(image, group, cs)
    ensures Traceable(samples, group)
  {
    samples := MatchWith(group, cs, RowMaker(image));
    MatchedRowsTraceable(image, group, cs);
  }

  /** The loop of `MatchGroup` with the row builder as a parameter. */
  method MatchWith<R>(group: seq<Record>, cs: seq<ClassificationResult>, make: (Record, ClassificationResult) -> R)
    returns (samples: seq<R>)
    ensures samples == Matched(group, cs, make)
  {
    samples := [];
    for i := 0 to |group|
      invariant samples == Matched(group[..i], cs, make)
    {
      assert group[..i + 1][..i] == group[..i];
      var ver := group[i];
      var c := FindClassification(cs, ver.roiId);
      if c.None? {
        continue;
      }
      samples := samples + [make(ver, c.value)];
    }
    assert group[..|group|] == group;
  }

  // ---------------------------------------------------------------- image lookup

  /** The position of the last '.', or -1. */
  function LastDot(s: string): (i: int)
    ensures -1 <= i < |s|
    ensures i >= 0 ==> s[i] == '.'
    ensures forall j :: i < j < |s| ==> s[j] != '.'
  {
    if |s| == 0 then -1
    else if s[|s| - 1] == '.' then |s| - 1
    else LastDot(s[..|s| - 1])
  }

  /** Python's `Path(name).stem` for a bare file name: the name without its
      last suffix, where a leading or trailing dot does not start one. */
  function Stem(name: string): (stem: string)
    ensures stem <= name
    ensures stem != name ==> name[|stem|] == '.' && 0 < |stem| < |name| - 1
    ensures stem != name ==> forall j :: |stem| < j < |name| ==> name[j] != '.'
  {
    var i := LastDot(name);
    if 0 < i < |name| - 1 then name[..i] else name
  }

  /** A name made of a non-empty base and a dot-free suffix has that base as
      its stem. */
  lemma StemOfSuffixed(base: string, ext: string)
    requires |base| > 0 && |ext| > 0 && forall j :: 0 <= j < |ext| ==> ext[j] != '.'
    ensures Stem(base + "." + ext) == base
  {
    var name := base + "." + ext;
    assert forall j :: |base| < j < |name| ==> name[j] == ext[j - |base| - 1];
    assert LastDot(name) == |base| by {
      LastDotOfDotFreeTail(name, |base|);
    }
  }

  lemma {:induction false} LastDotOfDotFreeTail(s: string, i: nat)
    requires i < |s| && s[i] == '.' && forall j :: i < j < |s| ==> s[j] != '.'
    ensures LastDot(s) == i
  {
    if i < |s| - 1 {
      LastDotOfDotFreeTail(s[..|s| - 1], i);
    }
  }

  const Extensions: seq<string> := [".jp2", ".jpg", ".jpeg", ".png"]

  /** The names tried, in order: the name itself, then the stem with each
      extension. */
  function Candidates(name: string): (cs: seq<string>)
    ensures |cs| == 5 && cs[0] == name
    ensures forall e :: 0 <= e < 4 ==> cs[e + 1] == Stem(name) + Extensions[e]
  {
    [name] + seq(4, e requires 0 <= e < 4 => Stem(name) + Extensions[e])
  }

  /** The first name in the list that exists. */
  function FirstExisting(names: seq<string>, fileExists: string -> bool): (f: Option<string>)
    ensures f.None? <==> forall i :: 0 <= i < |names| ==> !fileExists(names[i])
    ensures f.Some? ==> exists i :: 0 <= i < |names| && f.value == names[i] && fileExists(names[i]) &&
                                    forall j :: 0 <= j < i ==> !fileExists(names[j])
  {
    if |names| == 0 then None
    else if fileExists(names[0]) then Some(names[0])
    else
      var f := FirstExisting(names[1..], fileExists);
      assert forall i :: 1 <= i < |names| ==> names[i] == names[1..][i - 1];
      f
  }

  /** A name that exists after names that do not is the first that exists. */
  lemma {:induction false} FirstExistingAt(names: seq<string>, fileExists: string -> bool, i: nat)
    requires i < |names| && fileExists(names[i]) && forall j :: 0 <= j < i ==> !fileExists(names[j])
    ensures FirstExisting(names, fileExists) == Some(names[i])
  {
    if i > 0 {
      assert names[1..][i - 1] == names[i];
      FirstExistingAt(names[1..], fileExists, i - 1);
    }
  }

  /** The file an image name resolves to. */
  function FoundFile(name: string, fileExists: string -> bool): Option<string>
  {
    FirstExisting(Candidates(name), fileExists)
  }

  /** The image's file is found and can be read. */
  predicate Loadable(name: string, fileExists: string -> bool, load: string -> Option<ImageInputs>)
  {
    FoundFile(name, fileExists).Some? && load(FoundFile(name, fileExists).value).Some?
  }

  /** The image the name loads to, or None when it is missing or
      unreadable. */
  function LoadedImage(name: string, fileExists: string -> bool, load: string -> Option<ImageInputs>): (image: Option<ImageInputs>)
    ensures image.Some? <==> Loadable(name, fileExists, load)
    ensures image.Some? ==> image == load(FoundFile(name, fileExists).value)
  {
    if Loadable(name, fileExists, load) then load(FoundFile(name, fileExists).value) else None
  }

  /** What each image of `order` loads to. */
  function LoadsOf(order: seq<string>, fileExists: string -> bool, load: string -> Option<ImageInputs>)
    : (loads: seq<Option<ImageInputs>>)
    ensures |loads| == |order|
    ensures forall g :: 0 <= g < |order| ==> loads[g] == LoadedImage(order[g], fileExists, load)
  {
    seq(|order|, g requires 0 <= g < |order| => LoadedImage(order[g], fileExists, load))
  }

  /** None of the image's five candidate files exists. */
  predicate Missing(name: string, fileExists: string -> bool)
  {
    forall i :: 0 <= i < 5 ==> !fileExists(Candidates(name)[i])
  }

  /** The file found is missing exactly when no candidate exists, and is
      otherwise the first candidate that does. */
  lemma FoundFileFacts(name: string, fileExists: string -> bool)
    ensures FoundFile(name, fileExists).None? <==> Missing(name, fileExists)
    ensures FoundFile(name, fileExists).Some? ==>
              exists i :: 0 <= i < 5 && FoundFile(name, fileExists).value == Candidates(name)[i] &&
                          fileExists(Candidates(name)[i]) &&
                          forall j :: 0 <= j < i ==> !fileExists(Candidates(name)[j])
  {
  }

  /** The lookup loop: the first candidate that exists, or None. */
  method FindImageFile(name: string, fileExists: string -> bool) returns (file: Option<string>)
    ensures file == FoundFile(name, fileExists)
    ensures file.None? <==> Missing(name, fileExists)
    ensures file.Some? ==> exists i :: 0 <= i < 5 && file.value == Candidates(name)[i] && fileExists(file.value) &&
                                       forall j :: 0 <= j < i ==> !fileExists(Candidates(name)[j])
  {
    FoundFileFacts(name, fileExists);
    var cands := Candidates(name);
    file := None;
    for e := 0 to 4
      invariant file.None? && (e > 0 ==> !fileExists(name)) && forall j :: 1 <= j < e + 1 ==> !fileExists(cands[j])
    {
      var potential := name;
      ghost var tried := 0;
      if !fileExists(potential) {
        potential := Stem(name) + Extensions[e];
        tried := e + 1;
      }
      assert potential == cands[tried];
      if fileExists(potential) {
        file := Some(potential);
        FirstExistingAt(cands, fileExists, tried);
        break;
      }
    }
  }

  // ---------------------------------------------------------------- export

  /** The parts one after another. */
  function Concat<T>(parts: seq<seq<T>>): seq<T>
  {
    if |parts| == 0 then [] else Concat(parts[..|parts| - 1]) + parts[|parts| - 1]
  }

  /** Whatever is in a part is in the concatenation. */
  lemma {:induction false} ConcatHas<T>(parts: seq<seq<T>>, g: nat, x: T)
    requires g < |parts| && x in parts[g]
    ensures x in Concat(parts)
  {
    var n := |parts| - 1;
    if g < n {
      assert parts[..n][g] == parts[g];
      ConcatHas(parts[..n], g, x);
    }
  }

  /** The rows of one image: none when it could not be loaded, otherwise
      its verdicts matched against its classifications. */
  function ImageRows(vs: seq<Record>, name: string, found: Option<seq<ClassificationResult>>): seq<Sample>
  {
    if found.Some? then MatchedRows(name, ForImage(vs, name), found.value) else []
  }

  /** The rows of the images `order`, in order, where `found` holds the
      classifications of each image that could be loaded. */
  function Exported(vs: seq<Record>, order: seq<string>, found: seq<Option<seq<ClassificationResult>>>): seq<Sample>
    requires |found| == |order|
  {
    Concat(seq(|order|, g requires 0 <= g < |order| => ImageRows(vs, order[g], found[g])))
  }

  /** Classifications numbered by position. */
  predicate IdsArePositions(cs: seq<ClassificationResult>)
  {
    forall k :: 0 <= k < |cs| ==> cs[k].roiId == k
  }

  /** How the export treated one image offered under set-up `s`: `found`
      holds its classifications exactly when it could be loaded, and then
      they are numbered by position and are the classifications of
      `classify_image`'s result on the loaded image for the model and
      thresholds, under the detector and grader `s` leaves for that image
      (those already set up, or made for its size). */
  ghost predicate Classified(model: Model, th: Thresholds, s: Setup, name: string,
                             found: Option<seq<ClassificationResult>>,
                             fileExists: string -> bool, load: string -> Option<ImageInputs>)
  {
    (found.Some? <==> Loadable(name, fileExists, load)) &&
    (found.Some? ==>
       var img := load(FoundFile(name, fileExists).value).value;
       IdsArePositions(found.value) &&
       exists rois, graded, r ::
         ClassifiedWith(model, th, SetUpFor(s, img).detector.value, SetUpFor(s, img).grader.value,
                        img, name, rois, graded, r) &&
         found.value == r.classifications)
  }

  /** Classified holds for every image of `order`, the g-th offered under
      `setups[g]`. */
  ghost predicate AllClassified(model: Model, th: Thresholds, setups: seq<Setup>, order: seq<string>,
                                found: seq<Option<seq<ClassificationResult>>>,
                                fileExists: string -> bool, load: string -> Option<ImageInputs>)
    requires |found| == |order| <= |setups|
  {
    |order| == 0 ||
    (AllClassified(model, th, setups, order[..|order| - 1], found[..|order| - 1], fileExists, load) &&
     Classified(model, th, setups[|order| - 1], order[|order| - 1], found[|order| - 1], fileExists, load))
  }

  lemma {:induction false} AllClassifiedEach(model: Model, th: Thresholds, setups: seq<Setup>, order: seq<string>,
                                             found: seq<Option<seq<ClassificationResult>>>,
                                             fileExists: string -> bool, load: string -> Option<ImageInputs>)
    requires |found| == |order| <= |setups| && AllClassified(model, th, setups, order, found, fileExists, load)
    ensures forall g :: 0 <= g < |order| ==> Classified(model, th, setups[g], order[g], found[g], fileExists, load)
  {
    if |order| > 0 {
      var n := |order| - 1;
      AllClassifiedEach(model, th, setups, order[..n], found[..n], fileExists, load);
      forall g | 0 <= g < n
        ensures Classified(model, th, setups[g], order[g], found[g], fileExists, load)
      {
        assert order[..n][g] == order[g] && found[..n][g] == found[g];
      }
    }
  }

  /** `export_training_data` after loading the verdicts: group by image, find
      and load each image (skipping those that are missing or unreadable),
      classify it, and turn every verdict with a matching ROI into a row.
      `found` holds, for each image in order of first appearance, the
      classifications it was given when it could be loaded; `setups[g]` is
      the fresh classifier's set-up before that image, so the first image
      that loads fixes the detector and grader for all the later ones
      (LoadedUnderFirstSetup). There are never more rows than verdicts,
      every row agrees with a verdict, and the CSV is written exactly when
      there is a row. */
  method ExportTrainingData(verifications: seq<Record>, model: Model,
                            fileExists: string -> bool, load: string -> Option<ImageInputs>)
    returns (samples: seq<Sample>, written: bool, ghost found: seq<Option<seq<ClassificationResult>>>,
             ghost setups: seq<Setup>)
    ensures |found| == |Images(verifications)| && |setups| == |found| + 1
    ensures setups[0] == Setup(None, None) && SetupChain(setups, LoadsOf(Images(verifications), fileExists, load))
    ensures samples == Exported(verifications, Images(verifications), found)
    ensures forall g :: 0 <= g < |found| ==>
              Classified(model, DefaultThresholds(), setups[g], Images(verifications)[g], found[g], fileExists, load)
    ensures |samples| <= |verifications|
    ensures written <==> |samples| > 0
    ensures Traceable(samples, verifications)
    ensures (forall v :: v in verifications ==> Missing(v.image, fileExists)) ==> samples == []
  {
    var classifier := new DiamondClassifier(model);
    var order, groups := GroupByImage(verifications);
    assert forall g :: 0 <= g < |order| ==> order[g] in order;
    samples, found, setups := ExportGroups(classifier, verifications, order, groups, fileExists, load);
    AllClassifiedEach(model, DefaultThresholds(), setups, order, found, fileExists, load);
    ExportedWithinGroups(verifications, order, found);
    GroupsCoverAll(verifications);
    if forall v :: v in verifications ==> Missing(v.image, fileExists) {
      forall g | 0 <= g < |order|
        ensures found[g].None?
      {
        var k := FirstIndex(verifications, order[g]);
        assert verifications[k] in verifications;
      }
      NothingFoundNothingExported(verifications, order, found);
    }
    written := |samples| > 0;
  }

  /** The loop over the images in order of first appearance: image g is
      offered under set-up `setups[g]`, starting from the classifier's own,
      and the set-up each image leaves is the next one's. */
  method ExportGroups(classifier: DiamondClassifier, verifications: seq<Record>,
                      order: seq<string>, groups: map<string, seq<Record>>,
                      fileExists: string -> bool, load: string -> Option<ImageInputs>)
    returns (samples: seq<Sample>, ghost found: seq<Option<seq<ClassificationResult>>>, ghost setups: seq<Setup>)
    requires forall g :: 0 <= g < |order| ==> order[g] in groups && groups[order[g]] == ForImage(verifications, order[g])
    modifies classifier
    ensures |found| == |order| && |setups| == |order| + 1
    ensures setups[0] == Setup(old(classifier.detector), old(classifier.grader))
    ensures setups[|order|] == Setup(classifier.detector, classifier.grader)
    ensures SetupChain(setups, LoadsOf(order, fileExists, load))
    ensures samples == Exported(verifications, order, found)
    ensures AllClassified(classifier.model, classifier.thresholds, setups, order, found, fileExists, load)
  {
    ghost var loads := LoadsOf(order, fileExists, load);
    samples, found, setups := [], [], [Setup(classifier.detector, classifier.grader)];
    for g := 0 to |order|
      invariant |found| == g && |setups| == g + 1
      invariant setups[0] == Setup(old(classifier.detector), old(classifier.grader))
      invariant setups[g] == Setup(classifier.detector, classifier.grader)
      invariant SetupChain(setups, loads)
      invariant samples == Exported(verifications, order[..g], found)
      invariant AllClassified(classifier.model, classifier.thresholds, setups, order[..g], found, fileExists, load)
    {
      ghost var cs;
      var rows;
      rows, cs := ExportImage(classifier, order[g], groups[order[g]], fileExists, load);
      ghost var next, found', setups' := order[..g + 1], found + [cs], setups + [Setup(classifier.detector, classifier.grader)];
      assert next[..g] == order[..g] && found'[..g] == found;
      ExportedSnoc(verifications, next, found');
      ChainSnoc(setups, loads, setups'[g + 1]);
      AllClassifiedLonger(classifier.model, classifier.thresholds, setups, setups', order[..g], found, fileExists, load);
      samples, found, setups := samples + rows, found', setups';
    }
    assert order[..|order|] == order;
  }

  /** AllClassified only looks at the set-ups of the images it covers. */
  lemma {:induction false} AllClassifiedLonger(model: Model, th: Thresholds, setups: seq<Setup>, longer: seq<Setup>,
                                               order: seq<string>, found: seq<Option<seq<ClassificationResult>>>,
                                               fileExists: string -> bool, load: string -> Option<ImageInputs>)
    requires |found| == |order| <= |setups| <= |longer| && setups == longer[..|setups|]
    requires AllClassified(model, th, setups, order, found, fileExists, load)
    ensures AllClassified(model, th, longer, order, found, fileExists, load)
  {
    if |order| > 0 {
      var n := |order| - 1;
      AllClassifiedLonger(model, th, setups, longer, order[..n], found[..n], fileExists, load);
      assert longer[n] == setups[n];
    }
  }

  /** The body of the export loop for one image: find and load it (no
      rows when it is missing or unreadable), classify it (`cs`), and turn
      each of its verdicts with a matching ROI into a row. */
  method ExportImage(classifier: DiamondClassifier, name: string, group: seq<Record>,
                     fileExists: string -> bool, load: string -> Option<ImageInputs>)
    returns (rows: seq<Sample>, ghost cs: Option<seq<ClassificationResult>>)
    requires forall v :: v in group ==> v.image == name
    modifies classifier
    ensures Classified(classifier.model, classifier.thresholds, Setup(old(classifier.detector), old(classifier.grader)),
                       name, cs, fileExists, load)
    ensures Setup(classifier.detector, classifier.grader) ==
              Offered(Setup(old(classifier.detector), old(classifier.grader)), LoadedImage(name, fileExists, load))
    ensures cs.None? ==> rows == []
    ensures cs.Some? ==> rows == MatchedRows(name, group, cs.value)
    ensures |rows| <= |group|
    ensures Traceable(rows, group)
    ensures Missing(name, fileExists) ==> rows == []
  {
    rows, cs := [], None;
    var file := FindImageFile(name, fileExists);
    if file.None? {
      return;
    }
    var image := load(file.value);
    if image.None? {
      return;
    }
    var result;
    ghost var rois, graded;
    result, rois, graded := classifier.ClassifyImage(image.value, name);
    rows := MatchGroup(name, group, result.classifications);
    cs := Some(result.classifications);
    ghost var setup := SetUpFor(Setup(old(classifier.detector), old(classifier.grader)), image.value);
    assert ClassifiedWith(classifier.model, classifier.thresholds, setup.detector.value, setup.grader.value,
                          image.value, name, rois, graded, result);
  }

  /** The export of a non-empty list of images is that of all but the last,
      followed by the last one's rows. */
  lemma ExportedSnoc(vs: seq<Record>, order: seq<string>, found: seq<Option<seq<ClassificationResult>>>)
    requires |found| == |order| > 0
    ensures Exported(vs, order, found) ==
              Exported(vs, order[..|order| - 1], found[..|order| - 1]) + ImageRows(vs, order[|order| - 1], found[|order| - 1])
  {
    var n := |order| - 1;
    var parts := seq(|order|, g requires 0 <= g < |order| => ImageRows(vs, order[g], found[g]));
    assert parts[..n] == seq(n, g requires 0 <= g < n => ImageRows(vs, order[..n][g], found[..n][g]));
  }

  /** The export holds no more rows than the images' verdicts, and every
      row agrees with a verdict. */
  lemma {:induction false} ExportedWithinGroups(vs: seq<Record>, order: seq<string>, found: seq<Option<seq<ClassificationResult>>>)
    requires |found| == |order|
    ensures |Exported(vs, order, found)| <= GroupSizes(vs, order)
    ensures Traceable(Exported(vs, order, found), vs)
  {
    if |order| > 0 {
      var n := |order| - 1;
      ExportedSnoc(vs, order, found);
      ExportedWithinGroups(vs, order[..n], found[..n]);
      var group := ForImage(vs, order[n]);
      var rows := ImageRows(vs, order[n], found[n]);
      if found[n].Some? {
        MatchedRowsTraceable(order[n], group, found[n].value);
      }
      TraceableAppend(Exported(vs, order[..n], found[..n]), rows, group, vs);
    }
  }

  /** No image loaded, no rows. */
  lemma {:induction false} NothingFoundNothingExported(vs: seq<Record>, order: seq<string>, found: seq<Option<seq<ClassificationResult>>>)
    requires |found| == |order|
    requires forall g :: 0 <= g < |found| ==> found[g].None?
    ensures Exported(vs, order, found) == []
  {
    if |order| > 0 {
      var n := |order| - 1;
      ExportedSnoc(vs, order, found);
      NothingFoundNothingExported(vs, order[..n], found[..n]);
    }
  }

  // ---------------------------------------------------------------- what the rows are

  /** A verdict is among the records of its own image. */
  lemma {:induction false} InOwnGroup(vs: seq<Record>, v: Record)
    requires v in vs
    ensures v in ForImage(vs, v.image)
  {
    var p := vs[..|vs| - 1];
    if v != vs[|vs| - 1] {
      assert v in p;
      InOwnGroup(p, v);
    }
  }

  /** With classifications numbered by position, a verdict of a loadable
      image whose ROI id is a position among its classifications gives the
      row of features and verified labels built from that classification. */
  lemma VerdictExported(vs: seq<Record>, found: seq<Option<seq<ClassificationResult>>>, g: nat, v: Record)
    requires |found| == |Images(vs)| && g < |found| && found[g].Some? && IdsArePositions(found[g].value)
    requires v in vs && v.image == Images(vs)[g]
    requires 0 <= v.roiId < |found[g].value|
    ensures MakeSample(v.image, v, found[g].value[v.roiId]) in Exported(vs, Images(vs), found)
  {
    var cs, group := found[g].value, ForImage(vs, v.image);
    InOwnGroup(vs, v);
    var i :| 0 <= i < |group| && group[i] == v;
    assert cs[v.roiId].roiId == v.roiId;
    FirstMatchIsEarliest(cs, v.roiId);
    assert FirstMatch(cs, v.roiId).value == cs[v.roiId];
    MatchedHas(group, cs, RowMaker(v.image), i);
    var order := Images(vs);
    var parts := seq(|order|, h requires 0 <= h < |order| => ImageRows(vs, order[h], found[h]));
    assert parts[g] == MatchedRows(v.image, group, cs);
    ConcatHas(parts, g, MakeSample(v.image, v, cs[v.roiId]));
  }

  /** The row agrees with some verdict of `vs`. */
  ghost predicate TracesTo(s: Sample, vs: seq<Record>)
  {
    exists v :: v in vs && FromRecord(s, v)
  }

  /** Every row agrees with some verdict of `vs`. */
  ghost predicate Traceable(rows: seq<Sample>, vs: seq<Record>)
  {
    forall k :: 0 <= k < |rows| ==> TracesTo(rows[k], vs)
  }

  lemma TraceableAppend(a: seq<Sample>, b: seq<Sample>, group: seq<Record>, vs: seq<Record>)
    requires Traceable(a, vs) && Traceable(b, group)
    requires forall v :: v in group ==> v in vs
    ensures Traceable(a + b, vs)
  {
    forall k | 0 <= k < |a + b|
      ensures TracesTo((a + b)[k], vs)
    {
      if k < |a| {
        assert TracesTo(a[k], vs);
      } else {
        assert TracesTo(b[k - |a|], group);
        var v :| v in group && FromRecord(b[k - |a|], v);
        assert v in vs;
      }
    }
  }
}
