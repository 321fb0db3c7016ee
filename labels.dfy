/** Labels shared by the whole pipeline: the closed sets of orientations and
    diamond types, the words the operator types for them, and Python's
    two-argument max/min, which return the first argument on a tie. */
module Labels {

  datatype Option<+T> = None | Some(value: T)

  /** A diamond lies with its table facet up, or tilted. */
  datatype Orientation = Table | Tilted

  /** Cut categories; the detector itself only ever produces Round or Other. */
  datatype DiamondType = Round | Emerald | Other

  function OrientationName(o: Orientation): string
  {
    match o
    case Table => "table"
    case Tilted => "tilted"
  }

  function TypeName(t: DiamondType): string
  {
    match t
    case Round => "round"
    case Emerald => "emerald"
    case Other => "other"
  }

  /** Reads an operator answer; only the two orientation words are accepted. */
  function ParseOrientation(s: string): (r: Option<Orientation>)
    ensures r.Some? ==> OrientationName(r.value) == s
    ensures (exists o: Orientation :: OrientationName(o) == s) ==> r.Some?
  {
    if s == "table" then Some(Table)
    else if s == "tilted" then Some(Tilted)
    else None
  }

  /** Reads an operator answer; only the three type words are accepted. */
  function ParseType(s: string): (r: Option<DiamondType>)
    ensures r.Some? ==> TypeName(r.value) == s
    ensures (exists t: DiamondType :: TypeName(t) == s) ==> r.Some?
  {
    if s == "round" then Some(Round)
    else if s == "emerald" then Some(Emerald)
    else if s == "other" then Some(Other)
    else None
  }

  lemma OrientationNameRoundTrip(o: Orientation)
    ensures ParseOrientation(OrientationName(o)) == Some(o)
  {
  }

  lemma TypeNameRoundTrip(t: DiamondType)
    ensures ParseType(TypeName(t)) == Some(t)
  {
  }

  function Max(a: real, b: real): real { if a >= b then a else b }

  function Min(a: real, b: real): real { if a <= b then a else b }

  function MaxInt(a: int, b: int): int { if a >= b then a else b }

  function MinInt(a: int, b: int): int { if a <= b then a else b }

  /** min/max of an ellipse's two axis lengths, 0 for a degenerate ellipse. */
  function AxisRatio(axes: (real, real)): (r: real)
    ensures Max(axes.0, axes.1) > 0.0 ==> r <= 1.0
    ensures axes.0 >= 0.0 && axes.1 >= 0.0 ==> 0.0 <= r
    ensures Max(axes.0, axes.1) <= 0.0 ==> r == 0.0
  {
    var major := Max(axes.0, axes.1);
    var minor := Min(axes.0, axes.1);
    if major > 0.0 then
      assert minor <= major;
      QuotientAtMostOne(minor, major);
      minor / major
    else 0.0
  }

  /** Scaling by a positive number keeps the sign. */
  lemma PositiveScale(p: real, y: real)
    requires y > 0.0
    ensures p < 0.0 ==> p * y < 0.0
    ensures p > 0.0 ==> p * y > 0.0
  {
  }

  /** A number over a positive bound at least as large is at most 1, and
      not negative when the number is not. */
  lemma QuotientAtMostOne(x: real, y: real)
    requires x <= y && y > 0.0
    ensures x / y <= 1.0
    ensures 0.0 <= x ==> 0.0 <= x / y
  {
    var q := x / y;
    assert q * y == x;
    PositiveScale(q, y);
    PositiveScale(1.0 - q, y);
    assert (1.0 - q) * y == y - x;
  }

  /** A part over a positive whole lies in [0, 1], and is 1 exactly when
      the part is the whole. */
  lemma RatioInUnit(x: real, y: real)
    requires 0.0 <= x <= y && y > 0.0
    ensures 0.0 <= x / y <= 1.0
    ensures x / y == 1.0 <==> x == y
  {
    var q := x / y;
    assert q * y == x;
    PositiveScale(q, y);
    PositiveScale(1.0 - q, y);
    assert (1.0 - q) * y == y - x;
  }

  /** In a strictly increasing list of natural numbers, entry k is at least k. */
  lemma {:induction false} IncreasingAtLeastIndex(s: seq<int>, k: int)
    requires 0 <= k < |s|
    requires forall i :: 0 <= i < |s| ==> 0 <= s[i]
    requires forall i, j :: 0 <= i < j < |s| ==> s[i] < s[j]
    ensures k <= s[k]
  {
    if k > 0 {
      IncreasingAtLeastIndex(s, k - 1);
    }
  }

  /** A strictly increasing list of indices below n has at most n entries. */
  lemma SurvivorsFit(s: seq<int>, n: int)
    requires n >= 0
    requires forall k :: 0 <= k < |s| ==> 0 <= s[k] < n
    requires forall k, l :: 0 <= k < l < |s| ==> s[k] < s[l]
    ensures |s| <= n
  {
    if |s| > 0 {
      IncreasingAtLeastIndex(s, |s| - 1);
    }
  }
}
