/**
 * The three agents of triangle_agents.c over the C store: angle completion,
 * right-angle classification (an `int` verdict) and the pipeline that runs
 * them in turn. Each agent is a method on a `Context`, proved equal to a step
 * function on the store's entries; the lemmas state what the steps promise.
 */
module CAgents {
  import opened Domain
  import opened AngleRules
  import opened CMemory

  /** `sc_result`. */
  datatype ScResult = Ok | Error

  /**
   * The ways the C program stops instead of returning: `exit(EXIT_FAILURE)`
   * inside `sc_memory_get` on a type mismatch, or dereferencing the NULL it
   * returns for an address that is not stored.
   */
  datatype Abort = TypeMismatchExit | NullDereference

  datatype Outcome = Returned(result: ScResult) | Aborted(cause: Abort)

  /** How the process stops when an agent uses a failed get. */
  function AbortOf(got: Lookup): (r: Outcome)
    requires !got.Found?
    ensures r.Aborted?
    ensures r.cause == NullDereference <==> got.Absent?
  {
    if got.Absent? then Aborted(NullDereference) else Aborted(TypeMismatchExit)
  }

  /** The verdict as the C agent stores it: 1 for right-angled, 0 otherwise. */
  function Verdict(t: Triangle): Payload
  {
    IntV(if HasRightAngle(t) then 1 else 0)
  }

  /** `calculate_angles_agent_execute`: the outcome and the entries afterwards. */
  function CalculateAnglesStep(es: seq<Entry>): (r: (Outcome, seq<Entry>))
    requires Conforming(es)
    ensures Conforming(r.1)
  {
    var got := Find(es, InputTriangleKey, TriangleTag);
    if !got.Found? then (AbortOf(got), es)
    else match Completion(got.data.triangle)
      case None => (Returned(Error), es)
      case Some(t) =>
        StoreKeepsConforming(es, InputTriangleKey, TriangleV(t), TriangleTag);
        (Returned(Ok), Stored(es, InputTriangleKey, TriangleV(t), TriangleTag))
  }

  /** `check_right_angle_agent_execute`: the outcome and the entries afterwards. */
  function CheckRightAngleStep(es: seq<Entry>): (r: (Outcome, seq<Entry>))
    requires Conforming(es)
    ensures Conforming(r.1)
  {
    var got := Find(es, InputTriangleKey, TriangleTag);
    if !got.Found? then (AbortOf(got), es)
    else
      var verdict := Verdict(got.data.triangle);
      StoreKeepsConforming(es, IsRightKey, verdict, IntTag);
      (Returned(Ok), Stored(es, IsRightKey, verdict, IntTag))
  }

  /** `triangle_processing_agent_execute`: completion, classification, then reading the verdict back. */
  function ProcessStep(es: seq<Entry>): (Outcome, seq<Entry>)
    requires Conforming(es)
  {
    var (calculated, es1) := CalculateAnglesStep(es);
    if calculated.Aborted? then (calculated, es1)
    else if calculated.result != Ok then (Returned(Error), es1)
    else
      var (checked, es2) := CheckRightAngleStep(es1);
      if checked.Aborted? then (checked, es2)
      else if checked.result != Ok then (Returned(Error), es2)
      else
        var isRight := Find(es2, IsRightKey, IntTag);
        if !isRight.Found? then (AbortOf(isRight), es2)
        else (Returned(Ok), es2)
  }

  // ----- The agents -----

  method CalculateAnglesAgent(ctx: Context) returns (out: Outcome)
    requires ctx.Valid()
    modifies ctx, ctx.entries
    ensures ctx.Valid() && (ctx.entries == old(ctx.entries) || fresh(ctx.entries))
    ensures (out, ctx.Contents()) == CalculateAnglesStep(old(ctx.Contents()))
  {
    var got := ctx.Get(InputTriangleKey, TriangleTag);
    if !got.Found? {
      return AbortOf(got);
    }
    var completed := CompleteAngles(got.data.triangle);
    if completed.None? {
      return Returned(Error);
    }
    ctx.Store(InputTriangleKey, TriangleV(completed.value), TriangleTag);
    return Returned(Ok);
  }

  method CheckRightAngleAgent(ctx: Context) returns (out: Outcome)
    requires ctx.Valid()
    modifies ctx, ctx.entries
    ensures ctx.Valid() && (ctx.entries == old(ctx.entries) || fresh(ctx.entries))
    ensures (out, ctx.Contents()) == CheckRightAngleStep(old(ctx.Contents()))
  {
    var got := ctx.Get(InputTriangleKey, TriangleTag);
    if !got.Found? {
      return AbortOf(got);
    }
    var isRight := FindRightAngle(got.data.triangle);
    if isRight {
      ctx.Store(IsRightKey, IntV(1), IntTag);
      return Returned(Ok);
    }
    ctx.Store(IsRightKey, IntV(0), IntTag);
    return Returned(Ok);
  }

  method TriangleProcessingAgent(ctx: Context) returns (out: Outcome)
    requires ctx.Valid()
    modifies ctx, ctx.entries
    ensures ctx.Valid() && (ctx.entries == old(ctx.entries) || fresh(ctx.entries))
    ensures (out, ctx.Contents()) == ProcessStep(old(ctx.Contents()))
  {
    ghost var es := ctx.Contents();
    var calculated := CalculateAnglesAgent(ctx);
    if calculated.Aborted? {
      return calculated;
    }
    if calculated.result != Ok {
      return Returned(Error);
    }
    ghost var es1 := ctx.Contents();
    CompletedTriangleStaysReadable(es);
    var checked := CheckRightAngleAgent(ctx);
    if checked.Aborted? || checked.result != Ok {
      // Classification cannot fail once completion succeeded.
      assert false;
    }
    StoreThenGet(es1, IsRightKey, Verdict(Find(es1, InputTriangleKey, TriangleTag).data.triangle), IntTag);
    var isRight := ctx.Get(IsRightKey, IntTag);
    if !isRight.Found? {
      // The verdict was just stored with the tag "int".
      assert false;
    }
    return Returned(Ok);
  }

  // ----- Properties of the agents -----

  /** After a successful completion the triangle is still stored under its address and tag. */
  lemma CompletedTriangleStaysReadable(es: seq<Entry>)
    requires Conforming(es) && CalculateAnglesStep(es).0 == Returned(Ok)
    ensures Find(CalculateAnglesStep(es).1, InputTriangleKey, TriangleTag).Found?
  {
    var t := Find(es, InputTriangleKey, TriangleTag).data.triangle;
    StoreThenGet(es, InputTriangleKey, TriangleV(Completion(t).value), TriangleTag);
  }

  /**
   * Completion of a stored triangle with a single gap at `i`: the agent
   * returns OK; the stored triangle now has angle `i` known and equal to 180
   * minus the known sum, the other angles unchanged and a total of exactly
   * 180; no entry is added and every other address yields what it did.
   */
  lemma CalculateAnglesCompletes(es: seq<Entry>, t: Triangle, i: int)
    requires Conforming(es) && Find(es, InputTriangleKey, TriangleTag) == Found(TriangleV(t))
    requires OnlyGapAt(t, i)
    ensures CalculateAnglesStep(es).0 == Returned(Ok)
    ensures |CalculateAnglesStep(es).1| == |es|
    ensures Find(CalculateAnglesStep(es).1, InputTriangleKey, TriangleTag).Found?
    ensures var t' := Find(CalculateAnglesStep(es).1, InputTriangleKey, TriangleTag).data.triangle;
      t'[i] == Angle(StraightAngle - SumKnown(t), true) &&
      (forall j :: 0 <= j < 3 && j != i ==> t'[j] == t[j]) &&
      AllKnown(t') && SumValues(t') == StraightAngle
    ensures forall key, tag :: key != InputTriangleKey ==>
      Find(CalculateAnglesStep(es).1, key, tag) == Find(es, key, tag)
  {
    CompletionFillsTheGap(t, i);
    var t' := Completion(t).value;
    StoreThenGet(es, InputTriangleKey, TriangleV(t'), TriangleTag);
    forall key, tag | key != InputTriangleKey
      ensures Find(CalculateAnglesStep(es).1, key, tag) == Find(es, key, tag)
    {
      StoreLeavesOtherKeys(es, InputTriangleKey, TriangleV(t'), TriangleTag, key, tag);
    }
  }

  /** With no gap or more than one, completion returns ERROR and changes nothing. */
  lemma CalculateAnglesRejects(es: seq<Entry>, t: Triangle)
    requires Conforming(es) && Find(es, InputTriangleKey, TriangleTag) == Found(TriangleV(t))
    requires !exists i :: OnlyGapAt(t, i)
    ensures CalculateAnglesStep(es) == (Returned(Error), es)
  {
    CompletionRejects(t);
  }

  /**
   * Classification returns OK and stores 1 under "is_right_triangle" when
   * some known angle is within 0.001 of 90 and 0 otherwise; the triangle
   * and every other address are left as they were.
   */
  lemma CheckRightAngleStoresVerdict(es: seq<Entry>, t: Triangle)
    requires Conforming(es) && Find(es, InputTriangleKey, TriangleTag) == Found(TriangleV(t))
    ensures CheckRightAngleStep(es).0 == Returned(Ok)
    ensures Find(CheckRightAngleStep(es).1, IsRightKey, IntTag) ==
      Found(IntV(if exists i :: 0 <= i < 3 && t[i].isKnown && Abs(t[i].value - 90.0) < 0.001 then 1 else 0))
    ensures forall key, tag :: key != IsRightKey ==>
      Find(CheckRightAngleStep(es).1, key, tag) == Find(es, key, tag)
  {
    StoreThenGet(es, IsRightKey, Verdict(t), IntTag);
    forall key, tag | key != IsRightKey
      ensures Find(CheckRightAngleStep(es).1, key, tag) == Find(es, key, tag)
    {
      StoreLeavesOtherKeys(es, IsRightKey, Verdict(t), IntTag, key, tag);
    }
  }

  /** Storing the same data under the same address twice is storing it once. */
  lemma StoreTwice(es: seq<Entry>, addr: string, data: Payload, tag: Tag)
    ensures Stored(Stored(es, addr, data, tag), addr, data, tag) == Stored(es, addr, data, tag)
  {
    var es' := Stored(es, addr, data, tag);
    match IndexOf(es, addr)
    case Some(i) =>
      IndexOfIs(es', addr, i);
    case None =>
      IndexOfIs(es', addr, |es|);
  }

  /** Re-running classification on its own result changes nothing and gives the same outcome. */
  lemma CheckRightAngleIdempotent(es: seq<Entry>)
    requires Conforming(es)
    ensures CheckRightAngleStep(CheckRightAngleStep(es).1) == CheckRightAngleStep(es)
  {
    var got := Find(es, InputTriangleKey, TriangleTag);
    if got.Found? {
      var verdict := Verdict(got.data.triangle);
      StoreLeavesOtherKeys(es, IsRightKey, verdict, IntTag, InputTriangleKey, TriangleTag);
      StoreTwice(es, IsRightKey, verdict, IntTag);
    }
  }

  /**
   * The pipeline returns ERROR exactly when completion does, and then it has
   * not run classification: the entries are exactly as completion left them,
   * which is as they were.
   */
  lemma ProcessErrorIffCompletionError(es: seq<Entry>)
    requires Conforming(es)
    ensures ProcessStep(es).0 == Returned(Error) <==> CalculateAnglesStep(es).0 == Returned(Error)
    ensures ProcessStep(es).0 == Returned(Error) ==> ProcessStep(es).1 == es
  {
    if CalculateAnglesStep(es).0 == Returned(Ok) {
      CompletedTriangleStaysReadable(es);
    }
  }

  /**
   * When completion succeeds the pipeline returns OK, the stored triangle is
   * the completed one and "is_right_triangle" holds its verdict.
   */
  lemma ProcessStoresVerdict(es: seq<Entry>, t: Triangle)
    requires Conforming(es) && Find(es, InputTriangleKey, TriangleTag) == Found(TriangleV(t))
    requires Completion(t).Some?
    ensures ProcessStep(es).0 == Returned(Ok)
    ensures Find(ProcessStep(es).1, InputTriangleKey, TriangleTag) == Found(TriangleV(Completion(t).value))
    ensures Find(ProcessStep(es).1, IsRightKey, IntTag) == Found(Verdict(Completion(t).value))
  {
    var t' := Completion(t).value;
    var es1 := CalculateAnglesStep(es).1;
    StoreThenGet(es, InputTriangleKey, TriangleV(t'), TriangleTag);
    StoreThenGet(es1, IsRightKey, Verdict(t'), IntTag);
    StoreLeavesOtherKeys(es1, IsRightKey, Verdict(t'), IntTag, InputTriangleKey, TriangleTag);
  }

  // ----- The two runs of the C harness -----

  /** The first harness run: (90, 45, ?) completes to 45 and is classified right-angled. */
  lemma RightTriangleScenario()
    ensures var es := [Entry(InputTriangleKey, TriangleV([Angle(90.0, true), Angle(45.0, true), Angle(0.0, false)]), TriangleTag),
                       Entry(RulesSetKey, RulesV(map[]), RulesTag)];
      ProcessStep(es) ==
        (Returned(Ok),
         [Entry(InputTriangleKey, TriangleV([Angle(90.0, true), Angle(45.0, true), Angle(45.0, true)]), TriangleTag),
          Entry(RulesSetKey, RulesV(map[]), RulesTag),
          Entry(IsRightKey, IntV(1), IntTag)])
  {
    var t: Triangle := [Angle(90.0, true), Angle(45.0, true), Angle(0.0, false)];
    var done: Triangle := [Angle(90.0, true), Angle(45.0, true), Angle(45.0, true)];
    SumOfTwoKnown(t);
    CompletionFillsTheGap(t, 2);
    var r := Completion(t).value;
    assert r[0] == done[0] && r[1] == done[1] && r[2] == done[2];
    assert r == done;
    assert done[0].isKnown && NearRight(done[0].value);
    var es := [Entry(InputTriangleKey, TriangleV(t), TriangleTag), Entry(RulesSetKey, RulesV(map[]), RulesTag)];
    assert IndexOf(es, InputTriangleKey) == Some(0);
    var es1 := es[0 := Entry(InputTriangleKey, TriangleV(done), TriangleTag)];
    assert CalculateAnglesStep(es) == (Returned(Ok), es1);
    assert IndexOf(es1, InputTriangleKey) == Some(0);
    assert IndexOf(es1, IsRightKey) == None;
    var es2 := es1 + [Entry(IsRightKey, IntV(1), IntTag)];
    assert CheckRightAngleStep(es1) == (Returned(Ok), es2);
    assert es2 == Stored(es1, IsRightKey, IntV(1), IntTag);
    StoreThenGet(es1, IsRightKey, IntV(1), IntTag);
    assert ProcessStep(es) == (Returned(Ok), es2);
    assert es2 == [Entry(InputTriangleKey, TriangleV(done), TriangleTag),
                   Entry(RulesSetKey, RulesV(map[]), RulesTag),
                   Entry(IsRightKey, IntV(1), IntTag)];
  }

  /**
   * The second harness run, on the store the first one left: storing
   * (60, 60, ?) over the triangle, the pipeline completes it to 60 and
   * overwrites the verdict with 0.
   */
  lemma AcuteTriangleScenario()
    ensures var before := [Entry(InputTriangleKey, TriangleV([Angle(90.0, true), Angle(45.0, true), Angle(45.0, true)]), TriangleTag),
                           Entry(RulesSetKey, RulesV(map[]), RulesTag),
                           Entry(IsRightKey, IntV(1), IntTag)];
      var es := Stored(before, InputTriangleKey, TriangleV([Angle(60.0, true), Angle(60.0, true), Angle(0.0, false)]), TriangleTag);
      ProcessStep(es).0 == Returned(Ok) &&
      Find(ProcessStep(es).1, InputTriangleKey, TriangleTag) == Found(TriangleV([Angle(60.0, true), Angle(60.0, true), Angle(60.0, true)])) &&
      Find(ProcessStep(es).1, IsRightKey, IntTag) == Found(IntV(0)) &&
      |ProcessStep(es).1| == 3
  {
    var before := [Entry(InputTriangleKey, TriangleV([Angle(90.0, true), Angle(45.0, true), Angle(45.0, true)]), TriangleTag),
                   Entry(RulesSetKey, RulesV(map[]), RulesTag),
                   Entry(IsRightKey, IntV(1), IntTag)];
    var t: Triangle := [Angle(60.0, true), Angle(60.0, true), Angle(0.0, false)];
    var done: Triangle := [Angle(60.0, true), Angle(60.0, true), Angle(60.0, true)];
    var es := Stored(before, InputTriangleKey, TriangleV(t), TriangleTag);
    assert IndexOf(before, InputTriangleKey) == Some(0);
    StoreThenGet(before, InputTriangleKey, TriangleV(t), TriangleTag);
    SumOfTwoKnown(t);
    CompletionFillsTheGap(t, 2);
    var r := Completion(t).value;
    assert r[0] == done[0] && r[1] == done[1] && r[2] == done[2];
    assert r == done;
    assert !HasRightAngle(done);
    ProcessStoresVerdict(es, t);
    assert es == before[0 := before[0].(data := TriangleV(t))];
    assert IndexOf(es, InputTriangleKey) == Some(0);
    var es1 := CalculateAnglesStep(es).1;
    assert es1 == es[0 := es[0].(data := TriangleV(done))];
    IndexOfIs(es1, IsRightKey, 2);
  }

  /**
   * A triangle whose two known angles are both 90 is not rejected: the gap
   * becomes 0 and the triangle is classified right-angled.
   */
  lemma DegenerateTriangleScenario()
    ensures var es := [Entry(InputTriangleKey, TriangleV([Angle(90.0, true), Angle(90.0, true), Angle(0.0, false)]), TriangleTag)];
      ProcessStep(es).0 == Returned(Ok) &&
      Find(ProcessStep(es).1, InputTriangleKey, TriangleTag) == Found(TriangleV([Angle(90.0, true), Angle(90.0, true), Angle(0.0, true)])) &&
      Find(ProcessStep(es).1, IsRightKey, IntTag) == Found(IntV(1))
  {
    var t: Triangle := [Angle(90.0, true), Angle(90.0, true), Angle(0.0, false)];
    var done: Triangle := [Angle(90.0, true), Angle(90.0, true), Angle(0.0, true)];
    var es := [Entry(InputTriangleKey, TriangleV(t), TriangleTag)];
    assert IndexOf(es, InputTriangleKey) == Some(0);
    SumOfTwoKnown(t);
    CompletionFillsTheGap(t, 2);
    var r := Completion(t).value;
    assert r[0] == done[0] && r[1] == done[1] && r[2] == done[2];
    assert r == done;
    assert done[0].isKnown && NearRight(done[0].value);
    ProcessStoresVerdict(es, t);
  }

}
