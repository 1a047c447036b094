/**
 * `detectNoRepetition`: whether the most recent draws keep changing column
 * (or tier) from one draw to the next, without a 0 in between, and whether
 * that run has not just settled: the draw one past the window must differ
 * from the last draw in it.
 */
module NoRepetition {
  import opened Wrappers
  import opened Classifier

  /** `{ columns, tiers }`: one flag per axis. */
  datatype NoRepetitionFlags = NoRepetitionFlags(columns: bool, tiers: bool)

  /** The window length the analysis uses (the source's default). */
  const DefaultMinLength := 5

  /**
   * Draws i - 1 and i both have a value on the axis, and the values differ:
   * the walk in `detectNoRepetition` goes on past index i.
   */
  predicate ChangesAt(numbers: seq<int>, axis: Axis, i: int)
    requires 1 <= i < |numbers|
  {
    AxisValue(numbers[i], axis).Some? && AxisValue(numbers[i - 1], axis).Some? &&
    AxisValue(numbers[i], axis) != AxisValue(numbers[i - 1], axis)
  }

  /**
   * The flag of one axis: enough draws, no 0 and no repeat among neighbours
   * 0..minLength-1, and draw minLength not on the same value as draw
   * minLength-1.
   */
  predicate AlternatesOn(numbers: seq<int>, axis: Axis, minLength: nat)
    requires minLength >= 1
  {
    |numbers| >= minLength + 1 &&
    (forall i :: 1 <= i < minLength ==> ChangesAt(numbers, axis, i)) &&
    AxisValue(numbers[minLength], axis) != AxisValue(numbers[minLength - 1], axis)
  }

  /** What `detectNoRepetition` returns. */
  function NoRepetitionOf(numbers: seq<int>, minLength: nat): NoRepetitionFlags
    requires minLength >= 1
  {
    NoRepetitionFlags(AlternatesOn(numbers, ColumnAxis, minLength), AlternatesOn(numbers, TierAxis, minLength))
  }

  /**
   * One axis of `detectNoRepetition`: the walk over the window that stops at
   * the first 0 or repeat, then the check against the draw past the window.
   * Called only once the history is long enough.
   */
  method AxisChanges(numbers: seq<int>, axis: Axis, minLength: nat) returns (changes: bool)
    requires minLength >= 1 && |numbers| >= minLength + 1
    ensures changes == AlternatesOn(numbers, axis, minLength)
  {
    changes := true;
    var previous := AxisValue(numbers[0], axis);
    var i := 1;
    while i < minLength
      invariant 1 <= i <= minLength
      invariant previous == AxisValue(numbers[i - 1], axis)
      invariant changes ==> forall j :: 1 <= j < i ==> ChangesAt(numbers, axis, j)
      invariant !changes ==> !AlternatesOn(numbers, axis, minLength)
    {
      var current := AxisValue(numbers[i], axis);
      if current.None? || previous.None? {
        assert !ChangesAt(numbers, axis, i);
        changes := false;
        break;
      }
      if current == previous {
        assert !ChangesAt(numbers, axis, i);
        changes := false;
        break;
      }
      previous := current;
      i := i + 1;
    }
    if changes && |numbers| > minLength {
      var older := AxisValue(numbers[minLength], axis);
      if older == AxisValue(numbers[minLength - 1], axis) {
        changes := false;
      }
    }
  }

  /**
   * `detectNoRepetition(numbers, minLength)`. A minLength of 0 is not
   * modelled: the source then reads a field of the element before index 0.
   */
  method DetectNoRepetition(numbers: seq<int>, minLength: nat) returns (r: NoRepetitionFlags)
    requires minLength >= 1
    ensures r == NoRepetitionOf(numbers, minLength)
  {
    if |numbers| < minLength + 1 {
      return NoRepetitionFlags(false, false);
    }
    var columns := AxisChanges(numbers, ColumnAxis, minLength);
    var tiers := AxisChanges(numbers, TierAxis, minLength);
    r := NoRepetitionFlags(columns, tiers);
  }

  /** A history of at most minLength draws never raises either flag. */
  lemma ShortHistoryNoFlags(numbers: seq<int>, minLength: nat)
    requires minLength >= 1 && |numbers| < minLength + 1
    ensures NoRepetitionOf(numbers, minLength) == NoRepetitionFlags(false, false)
  {
  }

  /**
   * A raised flag means: draws 0..minLength-1 all have a value on the axis
   * (given a window of at least two, since a window of one is never
   * checked for 0), each differs from its neighbour, and draw minLength
   * differs from draw minLength-1.
   */
  lemma {:induction false} FlagMeansAlternation(numbers: seq<int>, axis: Axis, minLength: nat)
    requires minLength >= 2 && AlternatesOn(numbers, axis, minLength)
    ensures forall i :: 0 <= i < minLength ==> AxisValue(numbers[i], axis).Some?
    ensures forall i :: 0 <= i < minLength ==> Classify(numbers[i]) != Classification(None, None) && numbers[i] != 0
    ensures forall i :: 1 <= i < minLength ==> AxisValue(numbers[i], axis) != AxisValue(numbers[i - 1], axis)
    ensures AxisValue(numbers[minLength], axis) != AxisValue(numbers[minLength - 1], axis)
  {
    assert ChangesAt(numbers, axis, 1);
    forall i | 0 <= i < minLength ensures AxisValue(numbers[i], axis).Some? {
      if i > 0 {
        assert ChangesAt(numbers, axis, i);
      }
    }
    forall i | 1 <= i < minLength ensures AxisValue(numbers[i], axis) != AxisValue(numbers[i - 1], axis) {
      assert ChangesAt(numbers, axis, i);
    }
  }

  /** With a window of one, a 0 as the most recent draw does not lower the flag. */
  lemma WindowOfOneIgnoresZero()
    ensures AlternatesOn([0, 5], ColumnAxis, 1)
    ensures AlternatesOn([0, 5], TierAxis, 1)
  {
  }
}
