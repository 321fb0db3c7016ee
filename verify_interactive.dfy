/** Interactive verification (verify_interactive.py): the operator walks
    through one image's classifications with the keys y (correct), n (wrong,
    then typed corrections), s (skip) and q (quit); every verdict is
    appended to a list that outlives the image and is summarised at the end
    of a batch. Key presses and typed answers arrive as parameters; the
    window, the prompts' wording and the timestamp are not modelled. */
module Verification {
  import opened Labels
  import opened Core
  import opened Detection
  import opened Grading
  import opened GeometricClassifier

  /** One saved verdict (a JSON object in the source; the timestamp is left out). */
  datatype Record = Record(
    image: string,
    roiId: int,
    predictedType: DiamondType,
    predictedOrientation: Orientation,
    confidence: real,
    isCorrect: bool,
    verifiedType: DiamondType,
    verifiedOrientation: Orientation)

  /** A key press, with the lines the operator types if it opens the
      correction prompts (already stripped and lower-cased). */
  datatype KeyEvent = KeyEvent(key: string, answers: seq<string>)

  /** A confirmed record repeats the prediction as the verified label. */
  ghost predicate Consistent(vs: seq<Record>)
  {
    forall k :: 0 <= k < |vs| && vs[k].isCorrect ==>
      vs[k].verifiedType == vs[k].predictedType && vs[k].verifiedOrientation == vs[k].predictedOrientation
  }

  /** The records `added` were made, one each, for the classifications at
      positions `from` of the named image. */
  ghost predicate Traced(added: seq<Record>, from: seq<nat>, image: string, cs: seq<ClassificationResult>)
  {
    |added| == |from| &&
    forall j :: 0 <= j < |from| ==> from[j] < |cs| && added[j].image == image && added[j].roiId == cs[from[j]].roiId
  }

  // ---------------------------------------------------------------- prompts

  /** The first answer `parse` accepts and how many answers it takes to
      reach it; None when no answer is accepted. */
  function FirstParsed<T>(answers: seq<string>, parse: string -> Option<T>): (r: Option<(T, nat)>)
    ensures r.None? <==> forall k :: 0 <= k < |answers| ==> parse(answers[k]).None?
    ensures r.Some? ==> 0 < r.value.1 <= |answers| && parse(answers[r.value.1 - 1]) == Some(r.value.0)
    ensures r.Some? ==> forall k :: 0 <= k < r.value.1 - 1 ==> parse(answers[k]).None?
    decreases |answers|
  {
    if |answers| == 0 then None
    else if parse(answers[0]).Some? then Some((parse(answers[0]).value, 1))
    else
      match FirstParsed(answers[1..], parse)
      case None => None
      case Some((x, n)) =>
        assert forall k :: 1 <= k < |answers| ==> answers[k] == answers[1..][k - 1];
        Some((x, n + 1))
  }

  /** The accepted answer at position n - 1, with none accepted before it,
      is the one FirstParsed finds. */
  lemma FirstParsedUnique<T>(answers: seq<string>, parse: string -> Option<T>, x: T, n: nat)
    requires 0 < n <= |answers| && parse(answers[n - 1]) == Some(x)
    requires forall k :: 0 <= k < n - 1 ==> parse(answers[k]).None?
    ensures FirstParsed(answers, parse) == Some((x, n))
  {
    var r := FirstParsed(answers, parse);
    assert parse(answers[n - 1]).Some?;
    var m := r.value.1;
    assert parse(answers[m - 1]).Some?;
    assert parse(answers[n - 1]).Some?;
    assert m == n;
  }

  /** The type answers: an empty first answer stands for the predicted
      type; otherwise the first answer naming a type (an empty answer to a
      re-prompt is not a default any more). */
  function FirstType(predicted: DiamondType, answers: seq<string>): (r: Option<(DiamondType, nat)>)
  {
    if |answers| > 0 && answers[0] == "" then Some((predicted, 1)) else FirstParsed(answers, ParseType)
  }

  /** The orientation prompt and its re-prompt loop: the first answer that
      names an orientation, and how many answers were read. When the
      answers run out first, None (input() would fail) after reading them all. */
  method PromptOrientation(answers: seq<string>) returns (o: Option<Orientation>, used: nat)
    ensures o.None? <==> FirstParsed(answers, ParseOrientation).None?
    ensures o.Some? ==> FirstParsed(answers, ParseOrientation) == Some((o.value, used))
    ensures o.None? ==> used == |answers|
  {
    if |answers| == 0 {
      return None, 0;
    }
    var current := answers[0];
    used := 1;
    while ParseOrientation(current) == None
      invariant 1 <= used <= |answers|
      invariant current == answers[used - 1]
      invariant forall k :: 0 <= k < used - 1 ==> ParseOrientation(answers[k]) == None
      decreases |answers| - used
    {
      if used == |answers| {
        assert forall k :: 0 <= k < |answers| ==> ParseOrientation(answers[k]).None?;
        return None, used;
      }
      current := answers[used];
      used := used + 1;
    }
    o := ParseOrientation(current);
    FirstParsedUnique(answers, ParseOrientation, o.value, used);
  }

  /** The type prompt: what FirstType finds, and how many answers were
      read; None after reading them all when no type is given. */
  method PromptType(predicted: DiamondType, answers: seq<string>) returns (t: Option<DiamondType>, used: nat)
    ensures t.None? <==> FirstType(predicted, answers).None?
    ensures t.Some? ==> FirstType(predicted, answers) == Some((t.value, used))
    ensures t.None? ==> used == |answers|
  {
    if |answers| == 0 {
      return None, 0;
    }
    var current := answers[0];
    used := 1;
    if current == "" {
      current := TypeName(predicted);
      TypeNameRoundTrip(predicted);
    }
    while ParseType(current) == None
      invariant 1 <= used <= |answers|
      invariant used > 1 ==> current == answers[used - 1]
      invariant used == 1 && answers[0] != "" ==> current == answers[0]
      invariant answers[0] == "" ==> current == TypeName(predicted) && used == 1
      invariant forall k :: 0 <= k < used - 1 ==> ParseType(answers[k]) == None
      invariant answers[0] == "" ==> ParseType(current).Some?
      decreases |answers| - used
    {
      if used == |answers| {
        assert forall k :: 0 <= k < |answers| ==> ParseType(answers[k]).None?;
        return None, used;
      }
      current := answers[used];
      used := used + 1;
    }
    t := ParseType(current);
    if answers[0] != "" {
      FirstParsedUnique(answers, ParseType, t.value, used);
    } else {
      TypeNameRoundTrip(predicted);
    }
  }

  /** The record n appends for classification c, read from the typed
      answers: the prediction marked wrong, with the first orientation
      answer and then the type answers after it. None when the answers run
      out before both labels are read. */
  function Correction(image: string, c: ClassificationResult, answers: seq<string>): (v: Option<Record>)
    ensures v.Some? ==> v.value.image == image && v.value.roiId == c.roiId && !v.value.isCorrect
    ensures v.Some? ==> v.value.predictedType == c.diamondType && v.value.predictedOrientation == c.orientation &&
                        v.value.confidence == c.confidence
  {
    match FirstParsed(answers, ParseOrientation)
    case None => None
    case Some((o, used)) =>
      match FirstType(c.diamondType, answers[used..])
      case None => None
      case Some((t, _)) => Some(Record(image, c.roiId, c.diamondType, c.orientation, c.confidence, false, t, o))
  }

  /** No answer from position n on is accepted exactly when FirstParsed
      finds nothing in the answers from n. */
  lemma FirstParsedInSuffix<T>(answers: seq<string>, n: nat, parse: string -> Option<T>)
    requires n <= |answers|
    ensures FirstParsed(answers[n..], parse).None? <==> forall j :: n <= j < |answers| ==> parse(answers[j]).None?
    ensures FirstParsed(answers[n..], parse).Some? ==>
              n <= n + FirstParsed(answers[n..], parse).value.1 - 1 < |answers| &&
              parse(answers[n + FirstParsed(answers[n..], parse).value.1 - 1]).Some?
  {
    var rest := answers[n..];
    assert forall j :: n <= j < |answers| ==> answers[j] == rest[j - n];
  }

  /** Answer i is the first to name an orientation and, after it, the
      next answer is empty or a later one names a type. */
  ghost predicate AnswersCorrection(answers: seq<string>, i: int)
  {
    0 <= i < |answers| && ParseOrientation(answers[i]).Some? &&
    (forall k :: 0 <= k < i ==> ParseOrientation(answers[k]).None?) &&
    ((i + 1 < |answers| && answers[i + 1] == "") || exists j :: i < j < |answers| && ParseType(answers[j]).Some?)
  }

  /** A correction is recorded exactly when the answers hold an
      orientation followed by a type (or by an empty type answer). */
  lemma CorrectionNeedsAnswers(image: string, c: ClassificationResult, answers: seq<string>)
    ensures Correction(image, c, answers).Some? <==> exists i :: AnswersCorrection(answers, i)
  {
    var fo := FirstParsed(answers, ParseOrientation);
    if fo.Some? {
      var n := fo.value.1;
      FirstParsedInSuffix(answers, n, ParseType);
      forall i | AnswersCorrection(answers, i)
        ensures i == n - 1
      {
      }
      if Correction(image, c, answers).Some? {
        assert AnswersCorrection(answers, n - 1);
      } else {
        assert !AnswersCorrection(answers, n - 1);
      }
    }
  }

  /** A recorded correction carries the first orientation answer, and the
      predicted type when the answer after it is empty. */
  lemma CorrectionLabels(image: string, c: ClassificationResult, answers: seq<string>)
    requires Correction(image, c, answers).Some?
    ensures exists i :: 0 <= i < |answers| && ParseOrientation(answers[i]) == Some(Correction(image, c, answers).value.verifiedOrientation) &&
              (forall k :: 0 <= k < i ==> ParseOrientation(answers[k]).None?) &&
              (i + 1 < |answers| && answers[i + 1] == "" ==> Correction(image, c, answers).value.verifiedType == c.diamondType)
  {
    var n := FirstParsed(answers, ParseOrientation).value.1;
    assert n - 1 + 1 < |answers| ==> answers[n..][0] == answers[n];
  }

  // ---------------------------------------------------------------- summary

  /** The number of confirmed records. */
  function CountCorrect(vs: seq<Record>): nat
  {
    if |vs| == 0 then 0
    else CountCorrect(vs[..|vs| - 1]) + (if vs[|vs| - 1].isCorrect then 1 else 0)
  }

  /** At most every record is confirmed; all are exactly when the count is
      the length, none exactly when it is zero. */
  lemma {:induction false} CountCorrectBounds(vs: seq<Record>)
    ensures CountCorrect(vs) <= |vs|
    ensures CountCorrect(vs) == |vs| <==> forall k :: 0 <= k < |vs| ==> vs[k].isCorrect
    ensures CountCorrect(vs) == 0 <==> forall k :: 0 <= k < |vs| ==> !vs[k].isCorrect
  {
    if |vs| > 0 {
      var p := vs[..|vs| - 1];
      CountCorrectBounds(p);
      assert forall k :: 0 <= k < |p| ==> p[k] == vs[k];
    }
  }

  /** 100 * c / n, as Python computes it on two integers. */
  function Percentage(c: nat, n: nat): real
    requires n > 0
  {
    100.0 * c as real / n as real
  }

  /** For c <= n the percentage lies in [0, 100] and is 100 exactly when c = n. */
  lemma Percent(c: nat, n: nat)
    requires c <= n && n > 0
    ensures 0.0 <= Percentage(c, n) <= 100.0
    ensures Percentage(c, n) * n as real == 100.0 * c as real
    ensures Percentage(c, n) == 100.0 <==> c == n
  {
    var a, x, y := Percentage(c, n), c as real, n as real;
    assert a * y == 100.0 * x;
    PositiveScale(a, y);
    PositiveScale(100.0 - a, y);
    assert (100.0 - a) * y == 100.0 * (y - x);
    if c == n {
      assert (100.0 - a) * y == 0.0;
    } else {
      assert (100.0 - a) * y > 0.0;
    }
  }

  /** The statistics `save_verifications` prints. */
  datatype Summary = Summary(total: nat, correct: nat, wrong: int, accuracy: real)

  // ---------------------------------------------------------------- the session

  /** What a session works on: every verdict so far, the position in the
      image's classifications and the quit flag. */
  datatype Session = Session(verifications: seq<Record>, idx: nat, quit: bool)

  /** The cursor moves on by one; past the last classification the window
      closes and the quit flag is set. */
  function MoveOn(s: Session, cs: seq<ClassificationResult>): Session
  {
    if s.idx + 1 >= |cs| then Session(s.verifications, s.idx + 1, true) else Session(s.verifications, s.idx + 1, s.quit)
  }

  /** `_on_key` on the classifications `cs` of the named image: past the
      last classification nothing happens; y confirms the classification at
      the cursor, n records the typed correction (nothing happens when the
      answers run out), s records nothing, and all three move on; q sets the
      quit flag; any other key does nothing. At most one record is added,
      for the classification at the cursor, and the flag is only ever set by
      q or by moving past the end. */
  function Step(s: Session, image: string, cs: seq<ClassificationResult>, e: KeyEvent): (t: Session)
    ensures |s.verifications| <= |t.verifications| <= |s.verifications| + 1
    ensures t.verifications[..|s.verifications|] == s.verifications
    ensures |t.verifications| > |s.verifications| ==>
              (e.key == "y" || e.key == "n") && s.idx < |cs| && t.idx == s.idx + 1 &&
              t.verifications[|s.verifications|].image == image &&
              t.verifications[|s.verifications|].roiId == cs[s.idx].roiId
    ensures s.idx <= t.idx <= s.idx + 1 && (s.idx <= |cs| ==> t.idx <= |cs|)
    ensures s.quit ==> t.quit
    ensures t.quit && !s.quit ==> e.key == "q" || t.idx == |cs|
    ensures e.key !in {"y", "n", "s", "q"} ==> t == s
  {
    if s.idx >= |cs| then s
    else
      var c := cs[s.idx];
      if e.key == "y" then MoveOn(Session(s.verifications + [Confirmed(image, c)], s.idx, s.quit), cs)
      else if e.key == "n" then
        match Correction(image, c, e.answers)
        case None => s
        case Some(v) => MoveOn(Session(s.verifications + [v], s.idx, s.quit), cs)
      else if e.key == "s" then MoveOn(s, cs)
      else if e.key == "q" then Session(s.verifications, s.idx, true)
      else s
  }

  /** The window's event loop: the presses are handled in order until the
      quit flag is set or they run out. Earlier verdicts are kept, the
      cursor stays within the classifications, and the flag, once set, was
      set by a q or by moving past the last classification. */
  function Replay(s: Session, image: string, cs: seq<ClassificationResult>, events: seq<KeyEvent>): (t: Session)
    ensures |s.verifications| <= |t.verifications| && t.verifications[..|s.verifications|] == s.verifications
    ensures s.idx <= t.idx && (s.idx <= |cs| ==> t.idx <= |cs|)
    ensures s.quit ==> t == s
    ensures t.quit && !s.quit ==> t.idx == |cs| || exists j :: 0 <= j < |events| && events[j].key == "q"
    decreases |events|
  {
    if |events| == 0 || s.quit then s
    else
      var t := Replay(Step(s, image, cs, events[0]), image, cs, events[1..]);
      assert forall j :: 0 <= j < |events[1..]| ==> events[1..][j] == events[j + 1];
      t
  }

  /** The confirmations of the classifications, in order. */
  function Confirmations(image: string, cs: seq<ClassificationResult>): (vs: seq<Record>)
    ensures |vs| == |cs|
    ensures forall k :: 0 <= k < |cs| ==> vs[k] == Confirmed(image, cs[k])
  {
    if |cs| == 0 then [] else [Confirmed(image, cs[0])] + Confirmations(image, cs[1..])
  }

  /** The loop handles the first press, then the rest. */
  lemma ReplayFirst(s: Session, image: string, cs: seq<ClassificationResult>, events: seq<KeyEvent>)
    requires !s.quit && |events| > 0
    ensures Replay(s, image, cs, events) == Replay(Step(s, image, cs, events[0]), image, cs, events[1..])
  {
  }

  /** y at a classification confirms it and moves on. */
  lemma StepConfirms(s: Session, image: string, cs: seq<ClassificationResult>, e: KeyEvent)
    requires s.idx < |cs| && e.key == "y"
    ensures Step(s, image, cs, e) == MoveOn(Session(s.verifications + [Confirmed(image, cs[s.idx])], s.idx, s.quit), cs)
  {
  }

  /** Pressing y at every classification from position i on confirms each
      of them, in order, and closes the window at the end. */
  lemma {:induction false} ConfirmEveryClassification(vs: seq<Record>, image: string, cs: seq<ClassificationResult>,
                                                      i: nat, events: seq<KeyEvent>)
    requires i < |cs| && |cs| - i <= |events|
    requires forall j :: 0 <= j < |events| ==> events[j].key == "y"
    ensures Replay(Session(vs, i, false), image, cs, events) == Session(vs + Confirmations(image, cs[i..]), |cs|, true)
    decreases |cs| - i
  {
    ReplayFirst(Session(vs, i, false), image, cs, events);
    StepConfirms(Session(vs, i, false), image, cs, events[0]);
    assert cs[i..][0] == cs[i] && cs[i..][1..] == cs[i + 1..];
    if i + 1 == |cs| {
      assert cs[i + 1..] == [];
    } else {
      ConfirmEveryClassification(vs + [Confirmed(image, cs[i])], image, cs, i + 1, events[1..]);
      assert vs + [Confirmed(image, cs[i])] + Confirmations(image, cs[i + 1..]) == vs + Confirmations(image, cs[i..]);
    }
  }

  /** Pressing s at every classification from position i on records
      nothing and closes the window at the end. */
  lemma {:induction false} SkipEveryClassification(vs: seq<Record>, image: string, cs: seq<ClassificationResult>,
                                                   i: nat, events: seq<KeyEvent>)
    requires i < |cs| && |cs| - i <= |events|
    requires forall j :: 0 <= j < |events| ==> events[j].key == "s"
    ensures Replay(Session(vs, i, false), image, cs, events) == Session(vs, |cs|, true)
    decreases |cs| - i
  {
    if i + 1 < |cs| {
      SkipEveryClassification(vs, image, cs, i + 1, events[1..]);
    }
  }

  /** A q at a classification closes the window without a record. */
  lemma QuitRecordsNothing(s: Session, image: string, cs: seq<ClassificationResult>, events: seq<KeyEvent>)
    requires !s.quit && s.idx < |cs| && |events| > 0 && events[0].key == "q"
    ensures Replay(s, image, cs, events) == Session(s.verifications, s.idx, true)
  {
  }

  // ---------------------------------------------------------------- the verifier

  class InteractiveVerifier {
    const classifier: DiamondClassifier
    /** Every verdict so far, across all images of the batch. */
    var verifications: seq<Record>
    /** The position in the current image's classifications. */
    var currentIdx: nat
    var shouldQuit: bool
    /** The current image's name and its classifications. */
    var imageName: string
    var classifications: seq<ClassificationResult>

    constructor (classifier: DiamondClassifier)
      ensures this.classifier == classifier
      ensures verifications == [] && currentIdx == 0 && !shouldQuit
      ensures imageName == "" && classifications == []
    {
      this.classifier := classifier;
      verifications := [];
      currentIdx := 0;
      shouldQuit := false;
      imageName := "";
      classifications := [];
    }

    /** The verdicts, the cursor and the quit flag. */
    function State(): Session
      reads this
    {
      Session(verifications, currentIdx, shouldQuit)
    }

    /** `_on_key`. Past the last classification a key changes nothing. At
        position i: y appends a confirming record for classification i, n
        appends a correction read from the typed answers, s appends nothing;
        all three move on by one, and reaching the end sets the quit flag.
        q sets the quit flag only; any other key changes nothing. When the
        typed answers run out before both labels are read, the handler ends
        without a record and without moving on. */
    method OnKey(e: KeyEvent)
      modifies this
      ensures classifications == old(classifications) && imageName == old(imageName)
      ensures old(currentIdx) >= |classifications| ==>
                verifications == old(verifications) && currentIdx == old(currentIdx) && shouldQuit == old(shouldQuit)
      ensures e.key !in {"y", "n", "s", "q"} ==>
                verifications == old(verifications) && currentIdx == old(currentIdx) && shouldQuit == old(shouldQuit)
      ensures old(currentIdx) < |classifications| && e.key == "q" ==>
                verifications == old(verifications) && currentIdx == old(currentIdx) && shouldQuit
      ensures old(currentIdx) < |classifications| && e.key == "s" ==>
                verifications == old(verifications) && currentIdx == old(currentIdx) + 1
      ensures old(currentIdx) < |classifications| && e.key == "y" ==>
                currentIdx == old(currentIdx) + 1 &&
                verifications == old(verifications) + [Confirmed(imageName, classifications[old(currentIdx)])]
      ensures old(currentIdx) < |classifications| && e.key == "n" ==>
                var v := Correction(imageName, classifications[old(currentIdx)], e.answers);
                (v.None? ==> currentIdx == old(currentIdx) && verifications == old(verifications) && shouldQuit == old(shouldQuit)) &&
                (v.Some? ==> currentIdx == old(currentIdx) + 1 && verifications == old(verifications) + [v.value])
      ensures currentIdx != old(currentIdx) ==> shouldQuit == (old(shouldQuit) || currentIdx >= |classifications|)
      ensures currentIdx <= old(currentIdx) + 1
      ensures old(shouldQuit) ==> shouldQuit
      ensures old(currentIdx) <= |classifications| ==> currentIdx <= |classifications|
      ensures Consistent(old(verifications)) ==> Consistent(verifications)
      ensures State() == Step(old(State()), imageName, classifications, e)
    {
      if currentIdx >= |classifications| {
        return;
      }
      var c := classifications[currentIdx];
      if e.key == "y" {
        verifications := verifications + [Confirmed(imageName, c)];
        currentIdx := currentIdx + 1;
      } else if e.key == "n" {
        var o, used := PromptOrientation(e.answers);
        if o.None? {
          return;
        }
        var t, used2 := PromptType(c.diamondType, e.answers[used..]);
        if t.None? {
          return;
        }
        verifications := verifications + [Record(imageName, c.roiId, c.diamondType, c.orientation, c.confidence,
                                                 false, t.value, o.value)];
        currentIdx := currentIdx + 1;
      } else if e.key == "s" {
        currentIdx := currentIdx + 1;
      } else if e.key == "q" {
        shouldQuit := true;
        return;
      }
      if currentIdx >= |classifications| {
        shouldQuit := true;
      }
    }

    /** `_start_interactive_session` and the window's event loop: the
        cursor goes back to the first classification and key presses are
        handled, `handled` of them, until the window closes (quit or end)
        or the presses run out. Each press moves the cursor by at most one
        from the start. Each new record belongs to a distinct
        classification passed over, in order; a session that ends without
        the quit flag handled every press and stopped before the last
        classification. */
    method RunSession(events: seq<KeyEvent>) returns (ghost from: seq<nat>, ghost handled: nat)
      requires !shouldQuit
      modifies this
      ensures classifications == old(classifications) && imageName == old(imageName)
      ensures |verifications| == |old(verifications)| + |from|
      ensures verifications[..|old(verifications)|] == old(verifications)
      ensures handled <= |events| && (handled < |events| ==> shouldQuit)
      ensures currentIdx <= handled && currentIdx <= |classifications|
      ensures forall j :: 0 <= j < |from| ==> from[j] < currentIdx
      ensures forall j, l :: 0 <= j < l < |from| ==> from[j] < from[l]
      ensures Traced(verifications[|old(verifications)|..], from, imageName, classifications)
      ensures currentIdx == |classifications| && |classifications| > 0 ==> shouldQuit
      ensures |classifications| > 0 && |events| > 0 && events[0].key == "y" ==> |from| > 0 && from[0] == 0
      ensures Consistent(old(verifications)) ==> Consistent(verifications)
      ensures handled == 0 ==> currentIdx == 0 && verifications == old(verifications) && !shouldQuit
      ensures State() == Replay(Session(old(verifications), 0, false), imageName, classifications, events)
    {
      currentIdx := 0;
      from := [];
      ghost var v0 := verifications;
      var i := 0;
      while i < |events| && !shouldQuit
        invariant classifications == old(classifications) && imageName == old(imageName)
        invariant 0 <= i <= |events| && currentIdx <= i
        invariant SessionState(v0, from)
        invariant Consistent(v0) ==> Consistent(verifications)
        invariant i == 0 ==> !shouldQuit && from == [] && currentIdx == 0
        invariant i > 0 && |classifications| > 0 && events[0].key == "y" ==> |from| > 0 && from[0] == 0
        invariant Replay(State(), imageName, classifications, events[i..]) ==
                  Replay(Session(v0, 0, false), imageName, classifications, events)
        decreases |events| - i
      {
        assert events[i..][0] == events[i] && events[i..][1..] == events[i + 1..];
        from := SessionStep(events[i], v0, from);
        i := i + 1;
      }
      assert i == |events| ==> events[i..] == [];
      handled := i;
    }

    /** The session so far: the records after `v0` were made, one each and
        in order, for the classifications at positions `from`, all before
        the cursor; a cursor at the end of a non-empty list has set the
        quit flag. */
    ghost predicate SessionState(v0: seq<Record>, from: seq<nat>)
      reads this
    {
      |verifications| == |v0| + |from| && verifications[..|v0|] == v0 &&
      currentIdx <= |classifications| &&
      (forall j :: 0 <= j < |from| ==> from[j] < currentIdx) &&
      (forall j, l :: 0 <= j < l < |from| ==> from[j] < from[l]) &&
      Traced(verifications[|v0|..], from, imageName, classifications) &&
      (currentIdx == |classifications| && |classifications| > 0 ==> shouldQuit)
    }

    /** One key press of the session: the position it recorded, if any, is
        added to `from`; y at a valid position always records. */
    method SessionStep(e: KeyEvent, ghost v0: seq<Record>, ghost from0: seq<nat>) returns (ghost from: seq<nat>)
      requires SessionState(v0, from0)
      modifies this
      ensures classifications == old(classifications) && imageName == old(imageName)
      ensures SessionState(v0, from)
      ensures |from0| <= |from| && from[..|from0|] == from0
      ensures currentIdx <= old(currentIdx) + 1
      ensures old(currentIdx) < |classifications| && e.key == "y" ==> from == from0 + [old(currentIdx)]
      ensures Consistent(old(verifications)) ==> Consistent(verifications)
      ensures State() == Step(old(State()), imageName, classifications, e)
    {
      ghost var before := verifications;
      ghost var idx := currentIdx;
      from := from0;
      OnKey(e);
      if |verifications| != |before| {
        assert currentIdx == idx + 1 && verifications[..|before|] == before;
        assert verifications[|v0|..] == before[|v0|..] + [verifications[|before|]];
        from := from + [idx];
      } else {
        assert verifications == before;
      }
    }

    /** `verify_image`: the name is taken even when the image cannot be
        loaded, which changes nothing else; otherwise `classify_image` sets
        up the detector and grader if this is the first image, its result
        under them becomes the current classifications and, when it has any
        diamonds, the session runs the key presses over them from the
        first. */
    method VerifyImage(image: Option<ImageInputs>, name: string, events: seq<KeyEvent>)
      returns (ghost from: seq<nat>, ghost r: ImageResult, ghost rois: seq<DiamondRoi>, ghost graded: seq<GradedDiamond>)
      requires !shouldQuit
      modifies this, classifier
      ensures imageName == name
      ensures Setup(classifier.detector, classifier.grader) ==
                Offered(Setup(old(classifier.detector), old(classifier.grader)), image)
      ensures image.None? ==> classifications == old(classifications) && currentIdx == old(currentIdx)
      ensures image.Some? ==>
                classifications == r.classifications && classifier.detector.Some? && classifier.grader.Some? &&
                ClassifiedWith(classifier.model, classifier.thresholds, classifier.detector.value, classifier.grader.value,
                           image.value, name, rois, graded, r)
      ensures image.Some? && |classifications| > 0 ==>
                State() == Replay(Session(old(verifications), 0, false), name, classifications, events)
      ensures |verifications| == |old(verifications)| + |from|
      ensures Traced(verifications[|old(verifications)|..], from, name, classifications)
      ensures forall j, l :: 0 <= j < l < |from| ==> from[j] < from[l]
      ensures |from| > 0 ==> image.Some? && from[|from| - 1] < currentIdx <= |classifications|
      ensures image.Some? && |classifications| > 0 ==> currentIdx <= |events|
      ensures image.Some? && |classifications| > 0 && |events| > 0 && events[0].key == "y" ==>
                |from| > 0 && from[0] == 0
      ensures |old(verifications)| <= |verifications| && verifications[..|old(verifications)|] == old(verifications)
      ensures image.None? ==> verifications == old(verifications) && !shouldQuit
      ensures |classifications| == 0 ==> verifications == old(verifications) && !shouldQuit
      ensures image.Some? && !shouldQuit && |classifications| > 0 ==> currentIdx < |classifications|
      ensures Consistent(old(verifications)) ==> Consistent(verifications)
    {
      imageName := name;
      from, r, rois, graded := [], ImageResult(name, 0, 0, 0, 0, 0, 0.0, []), [], [];
      if image.Some? {
        from, r, rois, graded := VerifyLoaded(image.value, name, events);
      }
    }

    /** `verify_image` once the image is loaded, under the name already
        taken: classify it, and run a session when it has any diamonds. */
    method VerifyLoaded(img: ImageInputs, name: string, events: seq<KeyEvent>)
      returns (ghost from: seq<nat>, ghost r: ImageResult, ghost rois: seq<DiamondRoi>, ghost graded: seq<GradedDiamond>)
      requires !shouldQuit && imageName == name
      modifies this, classifier
      ensures imageName == name
      ensures Setup(classifier.detector, classifier.grader) ==
                SetUpFor(Setup(old(classifier.detector), old(classifier.grader)), img)
      ensures classifications == r.classifications && classifier.detector.Some? && classifier.grader.Some? &&
              ClassifiedWith(classifier.model, classifier.thresholds, classifier.detector.value, classifier.grader.value,
                             img, name, rois, graded, r)
      ensures |classifications| > 0 ==>
                State() == Replay(Session(old(verifications), 0, false), name, classifications, events)
      ensures |verifications| == |old(verifications)| + |from|
      ensures Traced(verifications[|old(verifications)|..], from, name, classifications)
      ensures forall j, l :: 0 <= j < l < |from| ==> from[j] < from[l]
      ensures |from| > 0 ==> from[|from| - 1] < currentIdx <= |classifications|
      ensures |classifications| > 0 ==> currentIdx <= |events|
      ensures |classifications| > 0 && |events| > 0 && events[0].key == "y" ==> |from| > 0 && from[0] == 0
      ensures |old(verifications)| <= |verifications| && verifications[..|old(verifications)|] == old(verifications)
      ensures |classifications| == 0 ==> verifications == old(verifications) && !shouldQuit
      ensures !shouldQuit && |classifications| > 0 ==> currentIdx < |classifications|
      ensures Consistent(old(verifications)) ==> Consistent(verifications)
    {
      from := [];
      var result;
      result, rois, graded := classifier.ClassifyImage(img, name);
      r := result;
      classifications := result.classifications;
      if result.totalDiamonds == 0 {
        return;
      }
      ghost var handled;
      from, handled := RunSession(events);
    }

    /** Image n of the batch, handed to `verify_image`: the batch so far
        (BatchSoFar) grows by this image, its records, its quit flag and
        the set-up it leaves. */
    method VerifyImageInBatch(model: Model, images: seq<(Option<ImageInputs>, string, seq<KeyEvent>)>, n: nat,
                              ghost quits: seq<bool>, ghost starts: seq<nat>,
                              ghost setups: seq<Setup>, ghost snaps: seq<seq<Record>>)
      requires n < |images| && !shouldQuit
      requires classifier.model == model && classifier.thresholds == DefaultThresholds()
      requires BatchSoFar(model, images, n, quits, starts, setups, snaps, verifications, shouldQuit, imageName)
      requires setups[n] == Setup(classifier.detector, classifier.grader)
      modifies this, classifier
      ensures BatchSoFar(model, images, n + 1, quits + [shouldQuit], starts + [|verifications|],
                         setups + [Setup(classifier.detector, classifier.grader)], snaps + [verifications],
                         verifications, shouldQuit, imageName)
    {
      var (image, name, events) := images[n];
      ghost var before, previous := verifications, imageName;
      ghost var setup := Setup(classifier.detector, classifier.grader);
      ghost var from, r, rois, graded := VerifyImage(image, name, events);
      AddedUnderName(before, verifications, from, name, classifications);
      if image.Some? {
        var t := SetUpFor(setup, image.value);
        assert ClassifiedWith(model, DefaultThresholds(), t.detector.value, t.grader.value, image.value, name, rois, graded, r);
      }
      assert ImageOutcome(model, DefaultThresholds(), setups[n], images[n].0, images[n].1, images[n].2, snaps[n],
                          verifications, shouldQuit);
      OutcomesSnoc(model, images, setups, snaps, quits, Setup(classifier.detector, classifier.grader),
                   verifications, shouldQuit);
      BatchGrows(model, images, n, quits, starts, setups, snaps, before, previous, verifications, shouldQuit, imageName,
                 Setup(classifier.detector, classifier.grader));
    }

    /** `save_verifications`: nothing is saved from an empty list; otherwise
        the number of records, how many confirm the prediction, how many
        correct it, and the share of confirmations in percent. */
    method SaveVerifications() returns (s: Option<Summary>)
      ensures s.None? <==> |verifications| == 0
      ensures s.Some? ==> s.value.total == |verifications| && s.value.correct == CountCorrect(verifications)
      ensures s.Some? ==> s.value.correct <= s.value.total && s.value.wrong == s.value.total - s.value.correct
      ensures s.Some? ==> s.value.accuracy == Percentage(s.value.correct, s.value.total)
      ensures s.Some? ==> 0.0 <= s.value.accuracy <= 100.0
      ensures s.Some? ==> (s.value.accuracy == 100.0 <==> forall k :: 0 <= k < |verifications| ==> verifications[k].isCorrect)
    {
      if |verifications| == 0 {
        return None;
      }
      var vs := verifications;
      var correct := 0;
      for k := 0 to |vs|
        invariant correct == CountCorrect(vs[..k])
      {
        assert vs[..k + 1][..k] == vs[..k];
        if vs[k].isCorrect {
          correct := correct + 1;
        }
      }
      assert vs[..|vs|] == vs;
      CountCorrectBounds(vs);
      Percent(correct, |vs|);
      s := Some(Summary(|vs|, correct, |vs| - correct, Percentage(correct, |vs|)));
    }
  }

  /** Records appended after `before` and traced to an image are all under
      that image's name, and the earlier ones are unchanged. */
  lemma AddedUnderName(before: seq<Record>, after: seq<Record>, from: seq<nat>, name: string,
                       cs: seq<ClassificationResult>)
    requires |before| <= |after| && after[..|before|] == before
    requires Traced(after[|before|..], from, name, cs)
    ensures forall m :: 0 <= m < |before| ==> after[m] == before[m]
    ensures forall m :: |before| <= m < |after| ==> after[m].image == name
  {
    forall m | |before| <= m < |after|
      ensures after[m].image == name
    {
      assert after[m] == after[|before|..][m - |before|];
    }
    forall m | 0 <= m < |before|
      ensures after[m] == before[m]
    {
      assert after[m] == after[..|before|][m];
    }
  }

  /** What `verify_image` does to the verdicts and the quit flag, from the
      set-up `s`: an image that cannot be loaded, or in which no diamond is
      found, adds nothing and leaves the flag off; otherwise the session
      over its classifications, from the first, turns `before` into `after`
      and leaves the flag `quit`. The classifications are `classify_image`'s
      result under the set-up the image leaves. */
  ghost predicate ImageOutcome(model: Model, th: Thresholds, s: Setup, image: Option<ImageInputs>, name: string,
                               events: seq<KeyEvent>, before: seq<Record>, after: seq<Record>, quit: bool)
  {
    if image.None? then after == before && !quit
    else
      var t := SetUpFor(s, image.value);
      exists rois, graded, r ::
        ClassifiedWith(model, th, t.detector.value, t.grader.value, image.value, name, rois, graded, r) &&
        if |r.classifications| == 0 then after == before && !quit
        else
          var u := Replay(Session(before, 0, false), name, r.classifications, events);
          u.verifications == after && u.quit == quit
  }

  /** Image k of the batch had the outcome ImageOutcome describes, from
      the k-th set-up and the records before it (`snaps[k]`) to those after
      it and its quit flag. */
  ghost predicate Outcome(model: Model, images: seq<(Option<ImageInputs>, string, seq<KeyEvent>)>, setups: seq<Setup>,
                          snaps: seq<seq<Record>>, quits: seq<bool>, k: int)
    requires 0 <= k < |images| && k < |setups| && k + 1 < |snaps| && k < |quits|
  {
    ImageOutcome(model, DefaultThresholds(), setups[k], images[k].0, images[k].1, images[k].2, snaps[k], snaps[k + 1], quits[k])
  }

  /** The batch after its first n images: no image before the last set
      the quit flag, and the last one's flag is `quit`; `name` is the last
      image's name; the records of image k are those from `starts[k]` to
      `starts[k + 1]`, all under its name, none for an image that could not
      be loaded; confirmations repeat the prediction; `setups` is the
      set-up chain and `snaps[k]` the records before image k; and every
      image had its Outcome. */
  ghost predicate BatchSoFar(model: Model, images: seq<(Option<ImageInputs>, string, seq<KeyEvent>)>, n: nat,
                             quits: seq<bool>, starts: seq<nat>, setups: seq<Setup>, snaps: seq<seq<Record>>,
                             vs: seq<Record>, quit: bool, name: string)
  {
    n <= |images| && |quits| == n &&
    (forall k :: 0 <= k < n - 1 ==> !quits[k]) &&
    (0 < n ==> quits[n - 1] == quit && name == images[n - 1].1) &&
    (n == 0 ==> !quit) &&
    |starts| == n + 1 && starts[0] == 0 && starts[n] == |vs| &&
    (forall k, l :: 0 <= k <= l <= n ==> starts[k] <= starts[l]) &&
    (forall k :: 0 <= k < n && images[k].0.None? ==> starts[k] == starts[k + 1]) &&
    (forall k, m :: 0 <= k < n && starts[k] <= m < starts[k + 1] ==> vs[m].image == images[k].1) &&
    Consistent(vs) &&
    |setups| == n + 1 && setups[0] == Setup(None, None) && SetupChain(setups, Loads(images)) &&
    |snaps| == n + 1 && snaps[0] == [] && snaps[n] == vs &&
    (forall k :: 0 <= k <= n ==> |snaps[k]| == starts[k]) &&
    (forall k :: 0 <= k < n ==> Outcome(model, images, setups, snaps, quits, k))
  }

  /** The batch grows by image n when that image keeps the earlier
      records, adds records under its own name only (none when it cannot
      be loaded, in which case the flag stays off), keeps confirmations
      consistent, and had its Outcome. */
  lemma BatchGrows(model: Model, images: seq<(Option<ImageInputs>, string, seq<KeyEvent>)>, n: nat,
                   quits: seq<bool>, starts: seq<nat>, setups: seq<Setup>, snaps: seq<seq<Record>>,
                   vs: seq<Record>, name: string, vs': seq<Record>, quit': bool, name': string, setup': Setup)
    requires n < |images| && BatchSoFar(model, images, n, quits, starts, setups, snaps, vs, false, name)
    requires setup' == Offered(setups[n], images[n].0) && name' == images[n].1
    requires |vs| <= |vs'| && (forall m :: 0 <= m < |vs| ==> vs'[m] == vs[m])
    requires forall m :: |vs| <= m < |vs'| ==> vs'[m].image == images[n].1
    requires images[n].0.None? ==> vs' == vs && !quit'
    requires Consistent(vs')
    requires forall k :: 0 <= k <= n ==> Outcome(model, images, setups + [setup'], snaps + [vs'], quits + [quit'], k)
    ensures BatchSoFar(model, images, n + 1, quits + [quit'], starts + [|vs'|], setups + [setup'], snaps + [vs'],
                       vs', quit', name')
  {
    ChainSnoc(setups, Loads(images), setup');
    var starts' := starts + [|vs'|];
    forall k, m | 0 <= k < n + 1 && starts'[k] <= m < starts'[k + 1]
      ensures vs'[m].image == images[k].1
    {
      if k < n {
        assert vs'[m] == vs[m];
      }
    }
  }

  /** The outcomes of the images so far, followed by that of the next. */
  lemma OutcomesSnoc(model: Model, images: seq<(Option<ImageInputs>, string, seq<KeyEvent>)>, setups: seq<Setup>,
                     snaps: seq<seq<Record>>, quits: seq<bool>, next: Setup, after: seq<Record>, quit: bool)
    requires |quits| < |images| && |setups| == |snaps| == |quits| + 1
    requires forall k :: 0 <= k < |quits| ==> Outcome(model, images, setups, snaps, quits, k)
    requires ImageOutcome(model, DefaultThresholds(), setups[|quits|], images[|quits|].0, images[|quits|].1,
                          images[|quits|].2, snaps[|quits|], after, quit)
    ensures forall k :: 0 <= k <= |quits| ==> Outcome(model, images, setups + [next], snaps + [after], quits + [quit], k)
  {
    forall k | 0 <= k <= |quits|
      ensures Outcome(model, images, setups + [next], snaps + [after], quits + [quit], k)
    {
      assert (setups + [next])[k] == setups[k] && (snaps + [after])[k] == snaps[k];
      if k < |quits| {
        assert Outcome(model, images, setups, snaps, quits, k);
        assert (snaps + [after])[k + 1] == snaps[k + 1] && (quits + [quit])[k] == quits[k];
      }
    }
  }

  /** The images' loads, in order. */
  function Loads(images: seq<(Option<ImageInputs>, string, seq<KeyEvent>)>): (loads: seq<Option<ImageInputs>>)
    ensures |loads| == |images| && forall k :: 0 <= k < |images| ==> loads[k] == images[k].0
  {
    seq(|images|, k requires 0 <= k < |images| => images[k].0)
  }

  /** The record y appends: the prediction, confirmed. */
  function Confirmed(image: string, c: ClassificationResult): (v: Record)
    ensures v.isCorrect && v.verifiedType == v.predictedType && v.verifiedOrientation == v.predictedOrientation
    ensures v.image == image && v.roiId == c.roiId
    ensures v.predictedType == c.diamondType && v.predictedOrientation == c.orientation && v.confidence == c.confidence
  {
    Record(image, c.roiId, c.diamondType, c.orientation, c.confidence, true, c.diamondType, c.orientation)
  }

  /** `verify_batch` after the files are listed: a fresh verifier goes
      through the images in order, handing each to `verify_image`, and
      stops after the first image that sets the quit flag (`quits` holds
      the flag after each image), which reaching the end of any image does;
      the records of image k are the ones from `starts[k]` to
      `starts[k + 1]`, all under its name, and an image that cannot be
      loaded adds none. `setups[k]` is the classifier's set-up before
      image k and `snaps[k]` the records before it; the records after it
      and its quit flag are the image's outcome (Outcome). The summary is
      saved from all records; an empty list saves nothing. */
  method VerifyBatch(model: Model, images: seq<(Option<ImageInputs>, string, seq<KeyEvent>)>)
    returns (verifier: InteractiveVerifier, processed: nat, summary: Option<Summary>,
             ghost quits: seq<bool>, ghost starts: seq<nat>, ghost setups: seq<Setup>, ghost snaps: seq<seq<Record>>)
    ensures fresh(verifier) && fresh(verifier.classifier)
    ensures processed <= |images| && |quits| == processed
    ensures |images| > 0 <==> 0 < processed
    ensures forall k :: 0 <= k < processed - 1 ==> !quits[k]
    ensures 0 < processed ==> quits[processed - 1] == verifier.shouldQuit
    ensures processed < |images| ==> verifier.shouldQuit
    ensures 0 < processed ==> verifier.imageName == images[processed - 1].1
    ensures |starts| == processed + 1 && starts[0] == 0 && starts[processed] == |verifier.verifications|
    ensures forall k, l :: 0 <= k <= l <= processed ==> starts[k] <= starts[l]
    ensures forall k :: 0 <= k < processed && images[k].0.None? ==> starts[k] == starts[k + 1]
    ensures forall k, m :: 0 <= k < processed && starts[k] <= m < starts[k + 1] ==>
              verifier.verifications[m].image == images[k].1
    ensures Consistent(verifier.verifications)
    ensures |setups| == processed + 1 && setups[0] == Setup(None, None) && SetupChain(setups, Loads(images))
    ensures |snaps| == processed + 1 && snaps[0] == [] && snaps[processed] == verifier.verifications
    ensures forall k :: 0 <= k <= processed ==> |snaps[k]| == starts[k]
    ensures forall k :: 0 <= k < processed ==> Outcome(model, images, setups, snaps, quits, k)
    ensures summary.None? <==> |verifier.verifications| == 0
    ensures summary.Some? ==>
              summary.value.total == |verifier.verifications| &&
              summary.value.correct == CountCorrect(verifier.verifications) &&
              summary.value.accuracy == Percentage(summary.value.correct, summary.value.total)
  {
    var classifier := new DiamondClassifier(model);
    verifier := new InteractiveVerifier(classifier);
    processed := 0;
    quits, starts, setups, snaps := [], [0], [Setup(None, None)], [[]];
    while processed < |images| && !verifier.shouldQuit
      invariant verifier.classifier == classifier
      invariant fresh(verifier) && fresh(classifier)
      invariant BatchSoFar(model, images, processed, quits, starts, setups, snaps,
                           verifier.verifications, verifier.shouldQuit, verifier.imageName)
      invariant setups[processed] == Setup(classifier.detector, classifier.grader)
      decreases |images| - processed
    {
      verifier.VerifyImageInBatch(model, images, processed, quits, starts, setups, snaps);
      processed := processed + 1;
      quits := quits + [verifier.shouldQuit];
      starts := starts + [|verifier.verifications|];
      setups := setups + [Setup(classifier.detector, classifier.grader)];
      snaps := snaps + [verifier.verifications];
    }
    summary := verifier.SaveVerifications();
  }
}
