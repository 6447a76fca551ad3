/**
 * The three agents of triangle_agents.cpp over `sc::MemoryContext`. Both
 * worker agents first get "input_triangle" as a `Triangle` and "rules_set"
 * as a rule map, so either get can throw before any angle is looked at; the
 * classifier stores a `bool`. Each `Execute` is proved equal to a step
 * function on the two maps; the lemmas state what the steps promise.
 */
module CppAgents {
  import opened Domain
  import opened AngleRules
  import opened CppMemory

  /** `sc::Result`. */
  datatype Result = Ok | Error

  /** How `execute` ends: with a `Result`, or with the type-mismatch error thrown for `addr`. */
  datatype Outcome = Returned(result: Result) | Threw(addr: string)

  /** Both gets the worker agents begin with would succeed. */
  predicate InputsReadable(b: Board)
  {
    InputTriangleKey in b.data && TagOf(b.data[InputTriangleKey]) == TriangleTag &&
    RulesSetKey in b.data && TagOf(b.data[RulesSetKey]) == RulesTag
  }

  /** The opening gets of both worker agents: the triangle, or the address whose get threw. */
  function FetchInputs(b: Board): (r: (Option<Triangle>, string, Board))
    requires Consistent(b)
    ensures Consistent(r.2)
    ensures r.0.Some? <==> InputsReadable(b)
    ensures r.0.Some? ==> b.data[InputTriangleKey] == TriangleV(r.0.value) && r.2 == b
    ensures r.0.None? ==> r.2.data == b.data
    ensures r.0.None? ==>
      r.1 == if InputTriangleKey in b.data && TagOf(b.data[InputTriangleKey]) == TriangleTag
             then RulesSetKey else InputTriangleKey
  {
    var (tri, b1) := Fetch(b, InputTriangleKey, TriangleTag);
    if tri.TypeMismatch? then (None, InputTriangleKey, b1)
    else
      var (rules, b2) := Fetch(b1, RulesSetKey, RulesTag);
      if rules.TypeMismatch? then (None, RulesSetKey, b2)
      else (Some(tri.data.triangle), "", b2)
  }

  /** `CalculateAnglesAgent::execute`: the outcome and the maps afterwards. */
  function CalculateAnglesStep(b: Board): (r: (Outcome, Board))
    requires Consistent(b)
    ensures Consistent(r.1)
  {
    var (tri, thrower, b1) := FetchInputs(b);
    if tri.None? then (Threw(thrower), b1)
    else match Completion(tri.value)
      case None => (Returned(Error), b1)
      case Some(t) => (Returned(Ok), WithStored(b1, InputTriangleKey, TriangleV(t)))
  }

  /** `CheckRightAngleAgent::execute`: the outcome and the maps afterwards. */
  function CheckRightAngleStep(b: Board): (r: (Outcome, Board))
    requires Consistent(b)
    ensures Consistent(r.1)
  {
    var (tri, thrower, b1) := FetchInputs(b);
    if tri.None? then (Threw(thrower), b1)
    else (Returned(Ok), WithStored(b1, IsRightKey, BoolV(HasRightAngle(tri.value))))
  }

  /** `TriangleProcessingAgent::execute`: completion, classification, then getting the verdict back. */
  function ProcessStep(b: Board): (Outcome, Board)
    requires Consistent(b)
  {
    var (calculated, b1) := CalculateAnglesStep(b);
    if calculated.Threw? then (calculated, b1)
    else if calculated.result != Ok then (Returned(Error), b1)
    else
      var (checked, b2) := CheckRightAngleStep(b1);
      if checked.Threw? then (checked, b2)
      else if checked.result != Ok then (Returned(Error), b2)
      else
        var (isRight, b3) := Fetch(b2, IsRightKey, BoolTag);
        if isRight.TypeMismatch? then (Threw(IsRightKey), b3)
        else (Returned(Ok), b3)
  }

  // ----- The agents -----

  /** The opening gets of both worker agents, on the context. */
  method GetInputs(ctx: MemoryContext) returns (tri: Option<Triangle>, thrower: string)
    requires ctx.Valid()
    modifies ctx
    ensures ctx.Valid()
    ensures (tri, thrower, ctx.Snapshot()) == FetchInputs(old(ctx.Snapshot()))
  {
    var triangle := ctx.Get(InputTriangleKey, TriangleTag);
    if triangle.TypeMismatch? {
      return None, InputTriangleKey;
    }
    var rules := ctx.Get(RulesSetKey, RulesTag);
    if rules.TypeMismatch? {
      return None, RulesSetKey;
    }
    return Some(triangle.data.triangle), "";
  }

  class CalculateAnglesAgent {
    method Execute(ctx: MemoryContext) returns (out: Outcome)
      requires ctx.Valid()
      modifies ctx
      ensures ctx.Valid()
      ensures (out, ctx.Snapshot()) == CalculateAnglesStep(old(ctx.Snapshot()))
    {
      var tri, thrower := GetInputs(ctx);
      if tri.None? {
        return Threw(thrower);
      }
      var completed := CompleteAngles(tri.value);
      if completed.None? {
        return Returned(Error);
      }
      ctx.Store(InputTriangleKey, TriangleV(completed.value));
      return Returned(Ok);
    }
  }

  class CheckRightAngleAgent {
    method Execute(ctx: MemoryContext) returns (out: Outcome)
      requires ctx.Valid()
      modifies ctx
      ensures ctx.Valid()
      ensures (out, ctx.Snapshot()) == CheckRightAngleStep(old(ctx.Snapshot()))
    {
      var tri, thrower := GetInputs(ctx);
      if tri.None? {
        return Threw(thrower);
      }
      var isRight := FindRightAngle(tri.value);
      if isRight {
        ctx.Store(IsRightKey, BoolV(true));
        return Returned(Ok);
      }
      ctx.Store(IsRightKey, BoolV(false));
      return Returned(Ok);
    }
  }

  class TriangleProcessingAgent {
    method Execute(ctx: MemoryContext) returns (out: Outcome)
      requires ctx.Valid()
      modifies ctx
      ensures ctx.Valid()
      ensures (out, ctx.Snapshot()) == ProcessStep(old(ctx.Snapshot()))
    {
      ghost var b := ctx.Snapshot();
      var anglesAgent := new CalculateAnglesAgent;
      var calculated := anglesAgent.Execute(ctx);
      if calculated.Threw? {
        return calculated;
      }
      if calculated.result != Ok {
        return Returned(Error);
      }
      ghost var b1 := ctx.Snapshot();
      CompletionKeepsInputsReadable(b);
      var checkAgent := new CheckRightAngleAgent;
      var checked := checkAgent.Execute(ctx);
      if checked.Threw? || checked.result != Ok {
        // Classification cannot fail once completion succeeded.
        assert false;
      }
      var isRight := ctx.Get(IsRightKey, BoolTag);
      if isRight.TypeMismatch? {
        // The verdict was just stored as a bool.
        assert false;
      }
      return Returned(Ok);
    }
  }

  // ----- Properties of the agents -----

  /** After a successful completion both gets of the classifier still succeed. */
  lemma CompletionKeepsInputsReadable(b: Board)
    requires Consistent(b) && CalculateAnglesStep(b).0 == Returned(Ok)
    ensures InputsReadable(CalculateAnglesStep(b).1)
  {
    assert InputsReadable(b);
  }

  /**
   * If "input_triangle" is not a stored `Triangle` or "rules_set" not a
   * stored rule map, both worker agents throw for the first address whose get
   * fails, and no stored value (in particular no angle) has changed.
   */
  lemma UnreadableInputsThrow(b: Board)
    requires Consistent(b) && !InputsReadable(b)
    ensures CalculateAnglesStep(b).0.Threw? && CalculateAnglesStep(b).1.data == b.data
    ensures CheckRightAngleStep(b).0.Threw? && CheckRightAngleStep(b).1.data == b.data
    ensures CalculateAnglesStep(b).0.addr == CheckRightAngleStep(b).0.addr ==
      if InputTriangleKey in b.data && TagOf(b.data[InputTriangleKey]) == TriangleTag
      then RulesSetKey else InputTriangleKey
  {
  }

  /**
   * Completion of a triangle with a single gap at `i`: OK; the stored
   * triangle now has angle `i` known and equal to 180 minus the known sum,
   * the other angles unchanged and a total of exactly 180; nothing else in
   * either map changes.
   */
  lemma CalculateAnglesCompletes(b: Board, t: Triangle, i: int)
    requires Consistent(b) && InputsReadable(b) && b.data[InputTriangleKey] == TriangleV(t)
    requires OnlyGapAt(t, i)
    ensures CalculateAnglesStep(b).0 == Returned(Ok)
    ensures CalculateAnglesStep(b).1.types == b.types
    ensures CalculateAnglesStep(b).1.data.Keys == b.data.Keys
    ensures forall k :: k in b.data && k != InputTriangleKey ==> CalculateAnglesStep(b).1.data[k] == b.data[k]
    ensures CalculateAnglesStep(b).1.data[InputTriangleKey].TriangleV?
    ensures var t' := CalculateAnglesStep(b).1.data[InputTriangleKey].triangle;
      t'[i] == Angle(StraightAngle - SumKnown(t), true) &&
      (forall j :: 0 <= j < 3 && j != i ==> t'[j] == t[j]) &&
      AllKnown(t') && SumValues(t') == StraightAngle
  {
    CompletionFillsTheGap(t, i);
    var t' := Completion(t).value;
    assert CalculateAnglesStep(b).1.data == b.data[InputTriangleKey := TriangleV(t')];
  }

  /** With no gap or more than one, completion returns Error and changes neither map. */
  lemma CalculateAnglesRejects(b: Board, t: Triangle)
    requires Consistent(b) && InputsReadable(b) && b.data[InputTriangleKey] == TriangleV(t)
    requires !exists i :: OnlyGapAt(t, i)
    ensures CalculateAnglesStep(b) == (Returned(Error), b)
  {
    CompletionRejects(t);
  }

  /**
   * Classification returns Ok and stores `true` under "is_right_triangle"
   * exactly when some known angle is within 0.001 of 90; no other address
   * changes.
   */
  lemma CheckRightAngleStoresVerdict(b: Board, t: Triangle)
    requires Consistent(b) && InputsReadable(b) && b.data[InputTriangleKey] == TriangleV(t)
    ensures CheckRightAngleStep(b).0 == Returned(Ok)
    ensures CheckRightAngleStep(b).1.data == b.data[IsRightKey :=
      BoolV(exists i :: 0 <= i < 3 && t[i].isKnown && Abs(t[i].value - 90.0) < 0.001)]
    ensures CheckRightAngleStep(b).1.types == b.types[IsRightKey := Named(BoolTag)]
  {
  }

  /** Re-running classification on its own result changes nothing and gives the same outcome. */
  lemma CheckRightAngleIdempotent(b: Board)
    requires Consistent(b)
    ensures CheckRightAngleStep(CheckRightAngleStep(b).1) == CheckRightAngleStep(b)
  {
    if InputsReadable(b) {
      var b' := CheckRightAngleStep(b).1;
      assert InputsReadable(b') && b'.data[InputTriangleKey] == b.data[InputTriangleKey];
      assert b'.data[IsRightKey := b'.data[IsRightKey]] == b'.data;
      assert b'.types[IsRightKey := b'.types[IsRightKey]] == b'.types;
    }
  }

  /**
   * The pipeline returns Error exactly when completion does, and then it has
   * not run classification: the maps are as completion left them, which is
   * as they were.
   */
  lemma ProcessErrorIffCompletionError(b: Board)
    requires Consistent(b)
    ensures ProcessStep(b).0 == Returned(Error) <==> CalculateAnglesStep(b).0 == Returned(Error)
    ensures ProcessStep(b).0 == Returned(Error) ==> ProcessStep(b).1 == b
  {
    if CalculateAnglesStep(b).0 == Returned(Ok) {
      CompletionKeepsInputsReadable(b);
    }
  }

  /**
   * When both gets succeed and completion succeeds, the pipeline returns Ok,
   * the stored triangle is the completed one and "is_right_triangle" holds
   * its verdict as a bool.
   */
  lemma ProcessStoresVerdict(b: Board, t: Triangle)
    requires Consistent(b) && InputsReadable(b) && b.data[InputTriangleKey] == TriangleV(t)
    requires Completion(t).Some?
    ensures ProcessStep(b).0 == Returned(Ok)
    ensures ProcessStep(b).1.data ==
      b.data[InputTriangleKey := TriangleV(Completion(t).value)][IsRightKey := BoolV(HasRightAngle(Completion(t).value))]
  {
    CompletionKeepsInputsReadable(b);
  }

  // ----- The two runs of the C++ harness -----

  const HarnessRules: map<string, string> := map["right_angle_threshold" := "90.0"]

  /** The first harness run: (90, 45, ?) completes to 45 and is classified right-angled. */
  lemma RightTriangleScenario()
    ensures var b := WithStored(WithStored(Board(map[], map[]), InputTriangleKey,
                       TriangleV([Angle(90.0, true), Angle(45.0, true), Angle(0.0, false)])),
                       RulesSetKey, RulesV(HarnessRules));
      ProcessStep(b).0 == Returned(Ok) &&
      ProcessStep(b).1.data == map[
        InputTriangleKey := TriangleV([Angle(90.0, true), Angle(45.0, true), Angle(45.0, true)]),
        RulesSetKey := RulesV(HarnessRules),
        IsRightKey := BoolV(true)]
  {
    var t: Triangle := [Angle(90.0, true), Angle(45.0, true), Angle(0.0, false)];
    var done: Triangle := [Angle(90.0, true), Angle(45.0, true), Angle(45.0, true)];
    var b := WithStored(WithStored(Board(map[], map[]), InputTriangleKey, TriangleV(t)), RulesSetKey, RulesV(HarnessRules));
    SumOfTwoKnown(t);
    CompletionFillsTheGap(t, 2);
    var r := Completion(t).value;
    assert r[0] == done[0] && r[1] == done[1] && r[2] == done[2];
    assert r == done;
    assert done[0].isKnown && NearRight(done[0].value);
    ProcessStoresVerdict(b, t);
  }

  /** The second harness run, on the context the first left: (60, 60, ?) completes to 60 and is not right-angled. */
  lemma AcuteTriangleScenario()
    ensures var before := Board(
                map[InputTriangleKey := TriangleV([Angle(90.0, true), Angle(45.0, true), Angle(45.0, true)]),
                    RulesSetKey := RulesV(HarnessRules),
                    IsRightKey := BoolV(true)],
                map[InputTriangleKey := Named(TriangleTag), RulesSetKey := Named(RulesTag), IsRightKey := Named(BoolTag)]);
      var b := WithStored(before, InputTriangleKey, TriangleV([Angle(60.0, true), Angle(60.0, true), Angle(0.0, false)]));
      ProcessStep(b).0 == Returned(Ok) &&
      ProcessStep(b).1.data == map[
        InputTriangleKey := TriangleV([Angle(60.0, true), Angle(60.0, true), Angle(60.0, true)]),
        RulesSetKey := RulesV(HarnessRules),
        IsRightKey := BoolV(false)]
  {
    var before := Board(
      map[InputTriangleKey := TriangleV([Angle(90.0, true), Angle(45.0, true), Angle(45.0, true)]),
          RulesSetKey := RulesV(HarnessRules),
          IsRightKey := BoolV(true)],
      map[InputTriangleKey := Named(TriangleTag), RulesSetKey := Named(RulesTag), IsRightKey := Named(BoolTag)]);
    var t: Triangle := [Angle(60.0, true), Angle(60.0, true), Angle(0.0, false)];
    var done: Triangle := [Angle(60.0, true), Angle(60.0, true), Angle(60.0, true)];
    var b := WithStored(before, InputTriangleKey, TriangleV(t));
    SumOfTwoKnown(t);
    CompletionFillsTheGap(t, 2);
    var r := Completion(t).value;
    assert r[0] == done[0] && r[1] == done[1] && r[2] == done[2];
    assert r == done;
    assert !HasRightAngle(done);
    ProcessStoresVerdict(b, t);
  }
}
