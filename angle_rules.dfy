/**
 * The two rules of triangle_agents, identical in the C and the C++ version:
 * completing the one missing angle of a triangle, and deciding whether some
 * known angle is (within a tolerance) a right angle. The functions are the
 * specification; the methods are the loops the agents run.
 */
module AngleRules {
  import opened Domain

  const StraightAngle: real := 180.0
  const RightAngle: real := 90.0
  const Tolerance: real := 0.001

  /** How many angles of `s` are unknown. */
  function UnknownCount(s: seq<Angle>): nat
  {
    if s == [] then 0
    else UnknownCount(s[..|s| - 1]) + (if s[|s| - 1].isKnown then 0 else 1)
  }

  /** The sum of the known values of `s`; unknown angles contribute nothing. */
  function SumKnown(s: seq<Angle>): real
  {
    if s == [] then 0.0
    else SumKnown(s[..|s| - 1]) + (if s[|s| - 1].isKnown then s[|s| - 1].value else 0.0)
  }

  /** The sum of every value of `s`, known or not. */
  function SumValues(s: seq<Angle>): real
  {
    if s == [] then 0.0 else SumValues(s[..|s| - 1]) + s[|s| - 1].value
  }

  predicate AllKnown(s: seq<Angle>)
  {
    forall i :: 0 <= i < |s| ==> s[i].isKnown
  }

  /** Angle `i` is unknown and every other angle of `s` is known. */
  predicate OnlyGapAt(s: seq<Angle>, i: int)
  {
    0 <= i < |s| && !s[i].isKnown &&
    forall j :: 0 <= j < |s| && j != i ==> s[j].isKnown
  }

  /** The position of the first unknown angle. */
  function FirstUnknown(s: seq<Angle>): (i: nat)
    requires exists k :: 0 <= k < |s| && !s[k].isKnown
    ensures i < |s| && !s[i].isKnown
    ensures forall j :: 0 <= j < i ==> s[j].isKnown
  {
    if !s[0].isKnown then 0
    else
      UnknownInTail(s);
      1 + FirstUnknown(s[1..])
  }

  lemma UnknownInTail(s: seq<Angle>)
    requires exists k :: 0 <= k < |s| && !s[k].isKnown
    requires s[0].isKnown
    ensures exists k :: 0 <= k < |s[1..]| && !s[1..][k].isKnown
  {
    var k :| 0 <= k < |s| && !s[k].isKnown;
    assert s[1..][k - 1] == s[k];
  }

  /**
   * Angle completion: with exactly one unknown angle, that angle becomes
   * known with value 180 minus the sum of the known ones; otherwise the
   * triangle is rejected.
   */
  function Completion(t: Triangle): Option<Triangle>
  {
    if UnknownCount(t) == 1 then
      AllKnownIffNoUnknown(t);
      var i := FirstUnknown(t);
      Some(t[i := Angle(StraightAngle - SumKnown(t), true)])
    else
      None
  }

  function Abs(x: real): real
  {
    if x < 0.0 then -x else x
  }

  /** `v` lies strictly within `Tolerance` of 90. */
  predicate NearRight(v: real)
  {
    Abs(v - RightAngle) < Tolerance
  }

  /** Right-angle classification: some KNOWN angle is near 90. */
  predicate HasRightAngle(s: seq<Angle>)
  {
    exists i :: 0 <= i < |s| && s[i].isKnown && NearRight(s[i].value)
  }

  // ----- Loops of the agents -----

  /** The first loop of both completion agents: count the gaps, add up the known values. */
  method TallyAngles(t: Triangle) returns (unknownCount: nat, sumKnown: real)
    ensures unknownCount == UnknownCount(t) && sumKnown == SumKnown(t)
  {
    unknownCount, sumKnown := 0, 0.0;
    for i := 0 to 3
      invariant unknownCount == UnknownCount(t[..i])
      invariant sumKnown == SumKnown(t[..i])
    {
      assert t[..i + 1][..i] == t[..i];
      if t[i].isKnown {
        sumKnown := sumKnown + t[i].value;
      } else {
        unknownCount := unknownCount + 1;
      }
    }
    assert t[..3] == t;
  }

  /** Both completion agents without the store: tally, then fill the first gap when there is exactly one. */
  method CompleteAngles(t: Triangle) returns (r: Option<Triangle>)
    ensures r == Completion(t)
  {
    var unknownCount, sumKnown := TallyAngles(t);
    if unknownCount == 1 {
      for i := 0 to 3
        invariant forall j :: 0 <= j < i ==> t[j].isKnown
      {
        if !t[i].isKnown {
          return Some(t[i := Angle(StraightAngle - sumKnown, true)]);
        }
      }
      AllKnownIffNoUnknown(t);
      assert false;
    }
    r := None;
  }

  /** The loop of both classification agents: stop at the first known angle near 90. */
  method FindRightAngle(t: Triangle) returns (isRight: bool)
    ensures isRight == HasRightAngle(t)
  {
    for i := 0 to 3
      invariant forall j :: 0 <= j < i ==> !(t[j].isKnown && NearRight(t[j].value))
    {
      if t[i].isKnown && NearRight(t[i].value) {
        return true;
      }
    }
    return false;
  }

  // ----- Properties -----

  /** No gap is counted exactly when every angle is known. */
  lemma {:induction false} AllKnownIffNoUnknown(s: seq<Angle>)
    ensures UnknownCount(s) == 0 <==> AllKnown(s)
  {
    if s != [] {
      var init := s[..|s| - 1];
      AllKnownIffNoUnknown(init);
      if AllKnown(s) {
        assert AllKnown(init) by {
          forall j | 0 <= j < |init| ensures init[j].isKnown { assert init[j] == s[j]; }
        }
      }
      if UnknownCount(s) == 0 {
        forall j | 0 <= j < |s| ensures s[j].isKnown {
          if j < |s| - 1 { assert init[j] == s[j]; }
        }
      }
    }
  }

  /** Filling one gap with a known value removes one gap and adds the value to the known sum. */
  lemma {:induction false} FillGap(s: seq<Angle>, i: int, v: real)
    requires 0 <= i < |s| && !s[i].isKnown
    ensures UnknownCount(s[i := Angle(v, true)]) == UnknownCount(s) - 1
    ensures SumKnown(s[i := Angle(v, true)]) == SumKnown(s) + v
  {
    var s' := s[i := Angle(v, true)];
    var n := |s|;
    if i == n - 1 {
      assert s'[..n - 1] == s[..n - 1];
    } else {
      assert s'[..n - 1] == s[..n - 1][i := Angle(v, true)];
      FillGap(s[..n - 1], i, v);
    }
  }

  /** Once every angle is known, the known sum is the sum of all values. */
  lemma {:induction false} SumKnownOfAllKnown(s: seq<Angle>)
    requires AllKnown(s)
    ensures SumKnown(s) == SumValues(s)
  {
    if s != [] {
      var init := s[..|s| - 1];
      assert AllKnown(init) by {
        forall j | 0 <= j < |init| ensures init[j].isKnown { assert init[j] == s[j]; }
      }
      SumKnownOfAllKnown(init);
    }
  }

  /** Counting exactly one gap is the same as having a single unknown angle. */
  lemma UnknownCountIsOne(s: seq<Angle>)
    ensures UnknownCount(s) == 1 <==> exists i :: OnlyGapAt(s, i)
  {
    if UnknownCount(s) == 1 {
      AllKnownIffNoUnknown(s);
      var i := FirstUnknown(s);
      FillGap(s, i, 0.0);
      AllKnownIffNoUnknown(s[i := Angle(0.0, true)]);
      assert forall j :: 0 <= j < |s| && j != i ==> s[i := Angle(0.0, true)][j] == s[j];
      assert OnlyGapAt(s, i);
    }
    if exists i :: OnlyGapAt(s, i) {
      var i :| OnlyGapAt(s, i);
      var s' := s[i := Angle(0.0, true)];
      assert AllKnown(s');
      AllKnownIffNoUnknown(s');
      FillGap(s, i, 0.0);
    }
  }

  /**
   * Completion of a triangle with a single gap: the gap gets 180 minus the
   * known sum and becomes known, the known angles stay as they were, and the
   * three values of the result add up to exactly 180.
   */
  lemma CompletionFillsTheGap(t: Triangle, i: int)
    requires OnlyGapAt(t, i)
    ensures Completion(t).Some?
    ensures Completion(t).value[i] == Angle(StraightAngle - SumKnown(t), true)
    ensures forall j :: 0 <= j < 3 && j != i ==> Completion(t).value[j] == t[j]
    ensures AllKnown(Completion(t).value)
    ensures SumValues(Completion(t).value) == StraightAngle
  {
    UnknownCountIsOne(t);
    AllKnownIffNoUnknown(t);
    var r := t[i := Angle(StraightAngle - SumKnown(t), true)];
    assert FirstUnknown(t) == i;
    assert Completion(t) == Some(r);
    FillGap(t, i, StraightAngle - SumKnown(t));
    SumKnownOfAllKnown(r);
  }

  /** Completion rejects a triangle exactly when it has no gap or more than one. */
  lemma CompletionRejects(t: Triangle)
    ensures Completion(t) == None <==> !exists i :: OnlyGapAt(t, i)
  {
    UnknownCountIsOne(t);
  }

  /** Completion never turns a known angle unknown nor changes a known value. */
  lemma CompletionKeepsKnown(t: Triangle)
    requires Completion(t).Some?
    ensures forall j :: 0 <= j < 3 && t[j].isKnown ==> Completion(t).value[j] == t[j]
  {
    UnknownCountIsOne(t);
    var i :| OnlyGapAt(t, i);
    CompletionFillsTheGap(t, i);
  }

  /** The known sum of a triangle whose third angle is the gap is the sum of the first two. */
  lemma SumOfTwoKnown(t: Triangle)
    requires t[0].isKnown && t[1].isKnown && !t[2].isKnown
    ensures SumKnown(t) == t[0].value + t[1].value
  {
    var ab := t[..2];
    var a := ab[..1];
    assert a[..0] == [];
    assert SumKnown(a) == t[0].value;
    assert SumKnown(ab) == SumKnown(a) + t[1].value;
  }

  /** The value of an unknown angle never affects the classification. */
  lemma UnknownValueIgnored(s: seq<Angle>, i: int, v: real)
    requires 0 <= i < |s| && !s[i].isKnown
    ensures HasRightAngle(s[i := Angle(v, false)]) == HasRightAngle(s)
  {
    var s' := s[i := Angle(v, false)];
    if HasRightAngle(s) {
      var j :| 0 <= j < |s| && s[j].isKnown && NearRight(s[j].value);
      assert s'[j] == s[j];
    }
    if HasRightAngle(s') {
      var j :| 0 <= j < |s'| && s'[j].isKnown && NearRight(s'[j].value);
      assert s[j] == s'[j];
    }
  }
}
