/**
 * Hand-geometry aggregation: roll, pitch and yaw of one tracked hand.
 *
 * Roll and pitch look only at the fingers that are neither a thumb (type 0)
 * nor a pinky (type 4), but both divide by the number of ALL fingers of the
 * hand. Each calculation is a method with the `forEach` loop of src/helpers.js, proved
 * against a reference function (`Roll`, `Pitch`) about which the lemmas below
 * state what the calculation means.
 */
module Helpers {
  import opened Wrappers
  import opened Geometry

  /** A finger: its anatomical type (0 thumb ... 4 pinky) and the position of its distal joint. */
  datatype Finger = Finger(fingerType: int, dipPosition: Vec3)

  /** A tracked hand: `"left"` or `"right"`, the palm centre and the fingers in tracking order. */
  datatype Hand = Hand(handType: string, palmPosition: Vec3, fingers: seq<Finger>)

  predicate Skipped(f: Finger)
  {
    f.fingerType == 0 || f.fingerType == 4
  }

  /** The fingers that roll and pitch use, in the hand's order. */
  function Kept(fingers: seq<Finger>): (kept: seq<Finger>)
    ensures |kept| <= |fingers|
  {
    if fingers == [] then []
    else
      var last := fingers[|fingers| - 1];
      Kept(fingers[..|fingers| - 1]) + (if Skipped(last) then [] else [last])
  }

  /** The most recent kept finger, which the roll loop keeps as `lastFinger`. */
  function LastOf(kept: seq<Finger>): Option<Finger>
  {
    if kept == [] then None else Some(kept[|kept| - 1])
  }

  /** The sum, over consecutive pairs of kept fingers, of the change of one coordinate. */
  function DeltaSum(kept: seq<Finger>, a: Axis): real
  {
    if |kept| < 2 then 0.0
    else
      var n := |kept|;
      DeltaSum(kept[..n - 1], a) + (Coord(kept[n - 1].dipPosition, a) - Coord(kept[n - 2].dipPosition, a))
  }

  /**
   * Roll as `calculateRoll` defines it: `-atan(avgDeltaY / avgDeltaX)`, averages
   * over all fingers. It has a value only when the hand has fingers and the
   * x-deltas do not cancel, so never with fewer than two kept fingers.
   */
  function Roll(hand: Hand, atan: real -> real): (r: Number)
    ensures r.Finite? ==> hand.fingers != [] && DeltaSum(Kept(hand.fingers), X) != 0.0
    ensures |Kept(hand.fingers)| < 2 ==> r == Degenerate
  {
    var count := Finite(|hand.fingers| as real);
    var kept := Kept(hand.fingers);
    var avgDeltaX := Div(Finite(DeltaSum(kept, X)), count);
    var avgDeltaY := Div(Finite(DeltaSum(kept, Y)), count);
    Neg(Atan(atan, Div(avgDeltaY, avgDeltaX)))
  }

  /** A finger level with the palm in depth: its angle divides by zero. */
  predicate Flat(f: Finger, palm: Vec3)
  {
    f.dipPosition.z - palm.z == 0.0
  }

  predicate AnyFlat(kept: seq<Finger>, palm: Vec3)
  {
    kept != [] && (AnyFlat(kept[..|kept| - 1], palm) || Flat(kept[|kept| - 1], palm))
  }

  /** The angle of one finger against the palm, in the vertical plane through the depth axis. */
  function Angle(f: Finger, palm: Vec3, atan: real -> real): real
    requires !Flat(f, palm)
  {
    atan((f.dipPosition.y - palm.y) / (f.dipPosition.z - palm.z))
  }

  function AngleSum(kept: seq<Finger>, palm: Vec3, atan: real -> real): real
    requires !AnyFlat(kept, palm)
  {
    if kept == [] then 0.0
    else AngleSum(kept[..|kept| - 1], palm, atan) + Angle(kept[|kept| - 1], palm, atan)
  }

  /**
   * Pitch: minus the sum of the kept fingers' angles, divided by the number of
   * all fingers. A hand without fingers has none; a hand of only thumbs and
   * pinkies has pitch 0.
   */
  function Pitch(hand: Hand, atan: real -> real): (r: Number)
    ensures hand.fingers == [] ==> r == Degenerate
    ensures hand.fingers != [] && Kept(hand.fingers) == [] ==> r == Finite(0.0)
  {
    var kept := Kept(hand.fingers);
    if |hand.fingers| == 0 || AnyFlat(kept, hand.palmPosition) then Degenerate
    else Finite((-AngleSum(kept, hand.palmPosition, atan)) / (|hand.fingers| as real))
  }

  lemma KeptStep(fingers: seq<Finger>, i: nat)
    requires i < |fingers|
    ensures Kept(fingers[..i + 1]) == Kept(fingers[..i]) + (if Skipped(fingers[i]) then [] else [fingers[i]])
  {
    assert fingers[..i + 1][..i] == fingers[..i];
  }

  lemma DeltaSumStep(before: seq<Finger>, f: Finger, a: Axis)
    requires before != []
    ensures DeltaSum(before + [f], a) ==
      DeltaSum(before, a) + (Coord(f.dipPosition, a) - Coord(before[|before| - 1].dipPosition, a))
  {
    assert (before + [f])[..|before|] == before;
  }

  /** `Math.atan(deltaY / deltaZ)` for one finger, as the pitch loop computes it. */
  function FingerAngle(f: Finger, palm: Vec3, atan: real -> real): Number
  {
    Atan(atan, Div(Finite(f.dipPosition.y - palm.y), Finite(f.dipPosition.z - palm.z)))
  }

  /** The pitch loop's accumulator after the kept fingers `kept`. */
  function AngleTotal(kept: seq<Finger>, palm: Vec3, atan: real -> real): Number
  {
    if kept == [] then Finite(0.0)
    else Add(AngleTotal(kept[..|kept| - 1], palm, atan), FingerAngle(kept[|kept| - 1], palm, atan))
  }

  lemma AngleTotalStep(before: seq<Finger>, f: Finger, palm: Vec3, atan: real -> real)
    ensures AngleTotal(before + [f], palm, atan) == Add(AngleTotal(before, palm, atan), FingerAngle(f, palm, atan))
  {
    assert (before + [f])[..|before|] == before;
  }

  /** The accumulator is the real angle sum, or undetermined once a kept finger is level with the palm. */
  lemma {:induction false} AngleTotalIsAngleSum(kept: seq<Finger>, palm: Vec3, atan: real -> real)
    ensures AngleTotal(kept, palm, atan) ==
      if AnyFlat(kept, palm) then Degenerate else Finite(AngleSum(kept, palm, atan))
  {
    if kept != [] {
      AngleTotalIsAngleSum(kept[..|kept| - 1], palm, atan);
    }
  }

  lemma PitchFromAngleTotal(hand: Hand, atan: real -> real)
    ensures Pitch(hand, atan) ==
      Div(Neg(AngleTotal(Kept(hand.fingers), hand.palmPosition, atan)), Finite(|hand.fingers| as real))
  {
    AngleTotalIsAngleSum(Kept(hand.fingers), hand.palmPosition, atan);
  }

  /**
   * The `forEach` pass of `calculateRoll`: it sums, on both axes, the change from
   * each kept finger to the next, the first kept finger serving only as reference.
   */
  method SumConsecutiveDeltas(fingers: seq<Finger>) returns (deltaX: real, deltaY: real)
    ensures deltaX == DeltaSum(Kept(fingers), X) && deltaY == DeltaSum(Kept(fingers), Y)
  {
    deltaX, deltaY := 0.0, 0.0;
    var lastFinger: Option<Finger> := None;
    ghost var kept: seq<Finger> := [];
    var i := 0;
    while i < |fingers|
      invariant 0 <= i <= |fingers|
      invariant kept == Kept(fingers[..i])
      invariant lastFinger == LastOf(kept)
      invariant deltaX == DeltaSum(kept, X) && deltaY == DeltaSum(kept, Y)
    {
      var finger := fingers[i];
      KeptStep(fingers, i);
      if finger.fingerType == 0 || finger.fingerType == 4 {
        // a thumb or a pinky: skipped
      } else if lastFinger.None? {
        lastFinger := Some(finger);
        kept := [finger];
      } else {
        DeltaSumStep(kept, finger, X);
        DeltaSumStep(kept, finger, Y);
        deltaX := deltaX + (finger.dipPosition.x - lastFinger.value.dipPosition.x);
        deltaY := deltaY + (finger.dipPosition.y - lastFinger.value.dipPosition.y);
        lastFinger := Some(finger);
        kept := kept + [finger];
      }
      i := i + 1;
    }
    assert fingers[..i] == fingers;
  }

  /** `calculateRoll`: the sums of the pass, averaged over all fingers, then `-atan(avgY / avgX)`. */
  method CalculateRoll(hand: Hand, atan: real -> real) returns (roll: Number)
    ensures roll == Roll(hand, atan)
  {
    var deltaX, deltaY := SumConsecutiveDeltas(hand.fingers);
    var count := Finite(|hand.fingers| as real);
    var avgDeltaX := Div(Finite(deltaX), count);
    var avgDeltaY := Div(Finite(deltaY), count);
    roll := Neg(Atan(atan, Div(avgDeltaY, avgDeltaX)));
  }

  /** The `forEach` pass of `calculatePitch`: it adds up the kept fingers' angles against the palm. */
  method SumAngles(hand: Hand, atan: real -> real) returns (avgAngle: Number)
    ensures avgAngle == AngleTotal(Kept(hand.fingers), hand.palmPosition, atan)
  {
    var fingers := hand.fingers;
    var palmY := hand.palmPosition.y;
    var palmZ := hand.palmPosition.z;
    avgAngle := Finite(0.0);
    ghost var kept: seq<Finger> := [];
    var i := 0;
    while i < |fingers|
      invariant 0 <= i <= |fingers|
      invariant kept == Kept(fingers[..i])
      invariant avgAngle == AngleTotal(kept, hand.palmPosition, atan)
    {
      var finger := fingers[i];
      KeptStep(fingers, i);
      if !(finger.fingerType == 0 || finger.fingerType == 4) {
        var deltaY := finger.dipPosition.y - palmY;
        var deltaZ := finger.dipPosition.z - palmZ;
        var angle := Atan(atan, Div(Finite(deltaY), Finite(deltaZ)));
        assert angle == FingerAngle(finger, hand.palmPosition, atan);
        AngleTotalStep(kept, finger, hand.palmPosition, atan);
        avgAngle := Add(avgAngle, angle);
        kept := kept + [finger];
      }
      i := i + 1;
    }
    assert fingers[..i] == fingers;
  }

  /** `calculatePitch`: minus the angle sum of the pass, divided by the number of all fingers. */
  method CalculatePitch(hand: Hand, atan: real -> real) returns (pitch: Number)
    ensures pitch == Pitch(hand, atan)
  {
    var avgAngle := SumAngles(hand, atan);
    PitchFromAngleTotal(hand, atan);
    pitch := Div(Neg(avgAngle), Finite(|hand.fingers| as real));
  }

  /** `calculateYaw`: yaw is not derived from the hand at all. */
  function CalculateYaw(hand: Hand): (yaw: real)
    ensures yaw == 0.0
  {
    0.0
  }

  // ---------------------------------------------------------------------------
  // What the calculations mean

  /** Kept is exactly the fingers of the hand that are not thumbs or pinkies. */
  lemma {:induction false} KeptIsFilter(fingers: seq<Finger>, f: Finger)
    ensures f in Kept(fingers) <==> f in fingers && !Skipped(f)
  {
    if fingers != [] {
      var init := fingers[..|fingers| - 1];
      assert fingers == init + [fingers[|fingers| - 1]];
      KeptIsFilter(init, f);
    }
  }

  /** The consecutive deltas telescope: last kept minus first kept, and 0 below two kept fingers. */
  lemma {:induction false} DeltaSumTelescopes(kept: seq<Finger>, a: Axis)
    ensures DeltaSum(kept, a) ==
      if |kept| < 2 then 0.0
      else Coord(kept[|kept| - 1].dipPosition, a) - Coord(kept[0].dipPosition, a)
  {
    if |kept| > 2 {
      DeltaSumTelescopes(kept[..|kept| - 1], a);
    }
  }

  lemma QuotientOfAverages(sumY: real, sumX: real, n: real)
    requires n != 0.0 && sumX != 0.0
    ensures (sumY / n) / (sumX / n) == sumY / sumX
  {
    var q := sumY / sumX;
    assert q * sumX == sumY;
    assert (q * (sumX / n)) * n == sumY;
  }

  /**
   * The finger count cancels out of roll: it is minus the arctangent of the slope
   * from the first kept finger to the last, and undetermined when the hand has no
   * fingers, fewer than two kept fingers, or a zero horizontal run.
   */
  lemma RollIsEndpointSlope(hand: Hand, atan: real -> real)
    ensures var kept := Kept(hand.fingers);
      Roll(hand, atan) ==
        if |hand.fingers| == 0 || |kept| < 2 || kept[|kept| - 1].dipPosition.x == kept[0].dipPosition.x
        then Degenerate
        else Finite(-atan((kept[|kept| - 1].dipPosition.y - kept[0].dipPosition.y)
                          / (kept[|kept| - 1].dipPosition.x - kept[0].dipPosition.x)))
  {
    var kept := Kept(hand.fingers);
    DeltaSumTelescopes(kept, X);
    DeltaSumTelescopes(kept, Y);
    if |hand.fingers| != 0 && DeltaSum(kept, X) != 0.0 {
      QuotientOfAverages(DeltaSum(kept, Y), DeltaSum(kept, X), |hand.fingers| as real);
    }
  }

  /** Pitch is determined exactly when the hand has fingers and no kept finger is level with the palm. */
  lemma {:induction false} AnyFlatIsSome(kept: seq<Finger>, palm: Vec3)
    ensures AnyFlat(kept, palm) <==> exists f :: f in kept && Flat(f, palm)
  {
    if kept != [] {
      var init := kept[..|kept| - 1];
      assert kept == init + [kept[|kept| - 1]];
      AnyFlatIsSome(init, palm);
    }
  }

  lemma PitchIsDetermined(hand: Hand, atan: real -> real)
    ensures Pitch(hand, atan).Finite? <==>
      |hand.fingers| != 0 && forall f :: f in Kept(hand.fingers) ==> !Flat(f, hand.palmPosition)
  {
    AnyFlatIsSome(Kept(hand.fingers), hand.palmPosition);
  }

  /** Two finger lists that agree in types, and in positions wherever the finger is kept, keep the same fingers. */
  lemma {:induction false} KeptAgree(fs: seq<Finger>, gs: seq<Finger>)
    requires |fs| == |gs|
    requires forall i :: 0 <= i < |fs| ==> fs[i].fingerType == gs[i].fingerType
    requires forall i :: 0 <= i < |fs| && !Skipped(fs[i]) ==> fs[i].dipPosition == gs[i].dipPosition
    ensures Kept(fs) == Kept(gs)
  {
    if fs != [] {
      KeptAgree(fs[..|fs| - 1], gs[..|gs| - 1]);
    }
  }

  /** Where a thumb or a pinky is, has no influence on roll or pitch. */
  lemma SkippedFingersDoNotMatter(h: Hand, g: Hand, atan: real -> real)
    requires h.palmPosition == g.palmPosition && |h.fingers| == |g.fingers|
    requires forall i :: 0 <= i < |h.fingers| ==> h.fingers[i].fingerType == g.fingers[i].fingerType
    requires forall i :: 0 <= i < |h.fingers| && !Skipped(h.fingers[i]) ==>
      h.fingers[i].dipPosition == g.fingers[i].dipPosition
    ensures Roll(h, atan) == Roll(g, atan)
    ensures Pitch(h, atan) == Pitch(g, atan)
  {
    KeptAgree(h.fingers, g.fingers);
  }

  lemma KeptIgnoresExtraSkipped(fingers: seq<Finger>, f: Finger)
    requires Skipped(f)
    ensures Kept(fingers + [f]) == Kept(fingers)
  {
    assert (fingers + [f])[..|fingers|] == fingers;
  }

  /** A thumb or a pinky inserted anywhere in the finger list leaves the kept fingers as they were. */
  lemma {:induction false} KeptIgnoresInsertedSkipped(fingers: seq<Finger>, i: nat, f: Finger)
    requires i <= |fingers| && Skipped(f)
    ensures Kept(fingers[..i] + [f] + fingers[i..]) == Kept(fingers)
    decreases |fingers|
  {
    var inserted := fingers[..i] + [f] + fingers[i..];
    if i == |fingers| {
      assert inserted == fingers + [f];
      KeptIgnoresExtraSkipped(fingers, f);
    } else {
      var init := fingers[..|fingers| - 1];
      assert inserted[..|inserted| - 1] == init[..i] + [f] + init[i..];
      KeptIgnoresInsertedSkipped(init, i, f);
    }
  }

  /** Roll sees a hand only through its kept fingers and its finger count. */
  lemma RollOfSameKeptAndCount(h: Hand, g: Hand, atan: real -> real)
    requires Kept(h.fingers) == Kept(g.fingers) && |h.fingers| == |g.fingers|
    ensures Roll(h, atan) == Roll(g, atan)
  {
  }

  lemma AppendedSkippedFingerKeepsRoll(hand: Hand, f: Finger, atan: real -> real)
    requires Skipped(f)
    ensures Roll(hand.(fingers := hand.fingers + [f]), atan) == Roll(hand, atan)
  {
    KeptIgnoresExtraSkipped(hand.fingers, f);
    RollIsEndpointSlope(hand, atan);
    RollIsEndpointSlope(hand.(fingers := hand.fingers + [f]), atan);
  }

  /**
   * Roll, whose finger count cancels, does not change when one more thumb or
   * pinky is tracked, wherever in the finger list it appears.
   */
  lemma ExtraSkippedFingerKeepsRoll(hand: Hand, i: nat, f: Finger, atan: real -> real)
    requires i <= |hand.fingers| && Skipped(f)
    ensures Roll(hand.(fingers := hand.fingers[..i] + [f] + hand.fingers[i..]), atan) == Roll(hand, atan)
  {
    var fs := hand.fingers;
    var appended := hand.(fingers := fs + [f]);
    KeptIgnoresInsertedSkipped(fs, i, f);
    KeptIgnoresExtraSkipped(fs, f);
    RollOfSameKeptAndCount(hand.(fingers := fs[..i] + [f] + fs[i..]), appended, atan);
    AppendedSkippedFingerKeepsRoll(hand, f, atan);
  }

  /**
   * Pitch divides by all fingers, skipped ones included: a hand of a thumb and
   * one index finger at angle `atan(1)` has pitch `-atan(1)/2`, not the kept
   * fingers' average `-atan(1)`.
   */
  lemma ThumbCountsInPitchDivisor(atan: real -> real)
    ensures var hand := Hand("right", Origin, [Finger(0, Vec3(0.0, 1.0, 1.0)), Finger(1, Vec3(0.0, 1.0, 1.0))]);
      Pitch(hand, atan) == Finite(-atan(1.0) / 2.0)
  {
    var dip := Vec3(0.0, 1.0, 1.0);
    var f0, f1 := Finger(0, dip), Finger(1, dip);
    assert [f0, f1][..1] == [f0];
    assert Kept([f0]) == [];
    assert Kept([f0, f1]) == [f1];
    assert [f1][..0] == [];
    assert (dip.y - Origin.y) / (dip.z - Origin.z) == 1.0;
    assert AngleSum([f1], Origin, atan) == atan(1.0);
  }
}
