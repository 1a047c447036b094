/**
 * `detectAbsence`: for every column and every tier, how many of the most
 * recent draws went by since it last came up. The history is most recent
 * first, so this is the index of its first occurrence; a value that never
 * occurs gets min(length, 30).
 */
module Absence {
  import opened Wrappers
  import opened Classifier

  /** Absence counts, slot v - 1 for value v on each axis. */
  datatype Absences = Absences(columns: seq<nat>, tiers: seq<nat>)
  {
    function On(axis: Axis): seq<nat> {
      if axis == ColumnAxis then columns else tiers
    }
  }

  /** Cap on the count of a value that never occurs. */
  const AbsenceCap := 30

  /**
   * The index of the first draw classifying to v on the axis, or |numbers|
   * when there is none.
   */
  function FirstIndexOn(numbers: seq<int>, axis: Axis, v: Target): (i: nat)
    ensures i <= |numbers|
    ensures i < |numbers| ==> AxisValue(numbers[i], axis) == Some(v)
    ensures forall j :: 0 <= j < i ==> AxisValue(numbers[j], axis) != Some(v)
    decreases |numbers|
  {
    if numbers == [] then 0
    else if AxisValue(numbers[0], axis) == Some(v) then 0
    else 1 + FirstIndexOn(numbers[1..], axis, v)
  }

  /** The absence count of value v on the axis. */
  function AbsenceOf(numbers: seq<int>, axis: Axis, v: Target): nat {
    var i := FirstIndexOn(numbers, axis, v);
    if i < |numbers| then i else Min(|numbers|, AbsenceCap)
  }

  /**
   * A value that occurs counts the index of its first occurrence, and no
   * earlier draw is on it; a value that never occurs counts min(length, 30).
   * Either way the count is at most the length of the history.
   */
  lemma AbsenceCharacterized(numbers: seq<int>, axis: Axis, v: Target)
    ensures AbsenceOf(numbers, axis, v) <= |numbers|
    ensures (exists i :: 0 <= i < |numbers| && AxisValue(numbers[i], axis) == Some(v)) ==>
              var r := AbsenceOf(numbers, axis, v);
              r < |numbers| && AxisValue(numbers[r], axis) == Some(v) &&
              forall j :: 0 <= j < r ==> AxisValue(numbers[j], axis) != Some(v)
    ensures (forall i :: 0 <= i < |numbers| ==> AxisValue(numbers[i], axis) != Some(v)) ==>
              AbsenceOf(numbers, axis, v) == Min(|numbers|, AbsenceCap)
  {
  }

  /** The counts of the three values of one axis. */
  function AxisAbsences(numbers: seq<int>, axis: Axis): seq<nat> {
    [AbsenceOf(numbers, axis, 1), AbsenceOf(numbers, axis, 2), AbsenceOf(numbers, axis, 3)]
  }

  /** What `detectAbsence` returns. */
  function AbsencesOf(numbers: seq<int>): Absences {
    Absences(AxisAbsences(numbers, ColumnAxis), AxisAbsences(numbers, TierAxis))
  }

  /**
   * The scan of one value: walk the history until the first draw on the
   * value, or fall back to the cap.
   */
  method FirstOccurrence(numbers: seq<int>, axis: Axis, v: Target) returns (absence: nat)
    ensures absence == AbsenceOf(numbers, axis, v)
  {
    absence := 0;
    var found := false;
    var i := 0;
    while i < |numbers|
      invariant 0 <= i <= |numbers|
      invariant !found ==> forall j :: 0 <= j < i ==> AxisValue(numbers[j], axis) != Some(v)
      invariant found ==> absence == FirstIndexOn(numbers, axis, v)
    {
      if AxisValue(numbers[i], axis) == Some(v) {
        absence := i;
        found := true;
        break;
      }
      i := i + 1;
    }
    if !found {
      absence := Min(|numbers|, AbsenceCap);
    }
  }

  /** One of the two loops of `detectAbsence`: the three values of an axis. */
  method AxisScan(numbers: seq<int>, axis: Axis) returns (counts: seq<nat>)
    ensures counts == AxisAbsences(numbers, axis)
  {
    ghost var spec := AxisAbsences(numbers, axis);
    counts := [];
    for v := 1 to 4
      invariant counts == spec[..v - 1]
    {
      var n := FirstOccurrence(numbers, axis, v);
      assert spec[..v] == spec[..v - 1] + [spec[v - 1]];
      counts := counts + [n];
    }
  }

  /** `detectAbsence`: the columns, then the tiers. */
  method DetectAbsence(numbers: seq<int>) returns (a: Absences)
    ensures a == AbsencesOf(numbers)
  {
    var columns := AxisScan(numbers, ColumnAxis);
    var tiers := AxisScan(numbers, TierAxis);
    a := Absences(columns, tiers);
  }

  /** Every count lies in [0, |numbers|]; an empty history gives all zeros. */
  lemma AbsencesBounded(numbers: seq<int>, axis: Axis)
    ensures var a := AxisAbsences(numbers, axis);
      |a| == 3 && (forall k :: 0 <= k < 3 ==> a[k] <= |numbers|) &&
      (numbers == [] ==> a == [0, 0, 0])
  {
  }

  /**
   * The cap applies only to a value that never occurs: in a history longer
   * than 30 draws, a value first seen at index 35 counts 35, more than a
   * value never seen at all, which counts 30.
   */
  lemma AbsenceNotCappedWhenFound()
    ensures var numbers := seq(35, _ => 0) + [1];
      AbsenceOf(numbers, ColumnAxis, 1) == 35 && AbsenceOf(numbers, ColumnAxis, 2) == AbsenceCap
  {
    var numbers := seq(35, _ => 0) + [1];
    assert AxisValue(numbers[35], ColumnAxis) == Some(1);
    forall j | 0 <= j < 35 ensures AxisValue(numbers[j], ColumnAxis) == None {
      assert numbers[j] == 0;
    }
    assert AxisValue(numbers[35], ColumnAxis) != Some(2);
  }
}
