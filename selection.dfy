/**
 * Signal selection: among the absence counts that reach a threshold, the
 * largest one, the first of equals winning (the scans compare with a
 * strict `>`). `detectSignal` runs it over the columns then the tiers;
 * `analyzeRouletteHistory` runs it over each axis on its own.
 */
module Selection {
  import opened Wrappers
  import opened Classifier
  import opened Absence

  /** The source's `signal.type` strings. */
  datatype SignalKind = Column | Tier | NoRepetitionColumn | NoRepetitionTier

  /**
   * `{ type, target, absence }`. Absence signals carry their count; the
   * no-repetition signals have no `absence` field (`None`).
   */
  datatype Signal = Signal(kind: SignalKind, target: Target, absence: Option<nat>)

  /** The threshold `analyzeRouletteHistory` uses for both axes. */
  const MinAbsence := 5

  /**
   * The index of the first largest value among those at least thr, or
   * `None` when no value reaches thr.
   */
  function FirstMaxAtLeast(vals: seq<int>, thr: int): (r: Option<nat>)
    ensures r.None? <==> forall j :: 0 <= j < |vals| ==> vals[j] < thr
    ensures r.Some? ==> r.value < |vals| && vals[r.value] >= thr
    ensures r.Some? ==> forall j :: 0 <= j < |vals| && vals[j] >= thr ==> vals[j] <= vals[r.value]
    ensures r.Some? ==> forall j :: 0 <= j < r.value && vals[j] >= thr ==> vals[j] < vals[r.value]
    decreases |vals|
  {
    if vals == [] then None
    else
      var n := |vals| - 1;
      var r := FirstMaxAtLeast(vals[..n], thr);
      if vals[n] >= thr && (r.None? || vals[n] > vals[r.value]) then Some(n) else r
  }

  /** Extending the scanned prefix by one value. */
  lemma FirstMaxAtLeastStep(vals: seq<int>, i: nat, thr: int)
    requires i < |vals|
    ensures var r := FirstMaxAtLeast(vals[..i], thr);
      FirstMaxAtLeast(vals[..i + 1], thr) ==
        if vals[i] >= thr && (r.None? || vals[i] > vals[r.value]) then Some(i) else r
  {
    assert vals[..i + 1][..i] == vals[..i];
  }

  /**
   * The selection loop: a running maximum that starts at floor, and a
   * candidate replaced only by a value at least minAbsence and strictly
   * above the running maximum.
   */
  method SelectStrongest(vals: seq<int>, minAbsence: int, floor: int) returns (best: Option<nat>)
    ensures best == FirstMaxAtLeast(vals, Max(minAbsence, floor + 1))
  {
    ghost var thr := Max(minAbsence, floor + 1);
    var maxAbsence := floor;
    best := None;
    for i := 0 to |vals|
      invariant best == FirstMaxAtLeast(vals[..i], thr)
      invariant maxAbsence == if best.Some? then vals[best.value] else floor
    {
      FirstMaxAtLeastStep(vals, i, thr);
      if vals[i] >= minAbsence && vals[i] > maxAbsence {
        maxAbsence := vals[i];
        best := Some(i);
      }
    }
    assert vals[..|vals|] == vals;
  }

  /** The signal `detectSignal` returns for the absence counts. */
  function DetectSignalOf(a: Absences, minAbsence: int): Option<Signal>
    requires |a.columns| == 3 && |a.tiers| == 3
  {
    match FirstMaxAtLeast(a.columns + a.tiers, Max(minAbsence, 1))
    case None => None
    case Some(k) =>
      if k < 3 then Some(Signal(Column, k + 1, Some(a.columns[k])))
      else Some(Signal(Tier, k - 2, Some(a.tiers[k - 3])))
  }

  /**
   * `detectSignal(absences, minAbsence)`: the column scan and then the tier
   * scan share one running maximum that starts at 0.
   */
  method DetectSignal(a: Absences, minAbsence: int) returns (s: Option<Signal>)
    requires |a.columns| == 3 && |a.tiers| == 3
    ensures s == DetectSignalOf(a, minAbsence)
  {
    var best := SelectStrongest(a.columns + a.tiers, minAbsence, 0);
    if best.None? {
      return None;
    }
    var k := best.value;
    if k < 3 {
      s := Some(Signal(Column, k + 1, Some(a.columns[k])));
    } else {
      s := Some(Signal(Tier, k - 2, Some(a.tiers[k - 3])));
    }
  }

  /**
   * What `detectSignal` promises: no signal exactly when no count reaches
   * the threshold (and 1: a count of 0 is never a signal); otherwise the
   * signal's count reaches it, no count on either axis is larger, a column
   * wins every tie with a tier, and within an axis the lower value wins ties.
   */
  lemma {:induction false} DetectSignalChoosesStrongest(a: Absences, minAbsence: int)
    requires |a.columns| == 3 && |a.tiers| == 3
    ensures var s := DetectSignalOf(a, minAbsence);
      (s.None? <==> forall k :: 0 <= k < 3 ==> a.columns[k] < Max(minAbsence, 1) && a.tiers[k] < Max(minAbsence, 1))
    ensures var s := DetectSignalOf(a, minAbsence);
      s.Some? ==>
        s.value.absence.Some? &&
        var n := s.value.absence.value;
        n >= minAbsence && n >= 1 &&
        (forall k :: 0 <= k < 3 ==> a.columns[k] <= n && a.tiers[k] <= n) &&
        (s.value.kind == Column ==>
           n == a.columns[s.value.target - 1] &&
           forall k :: 0 <= k < s.value.target - 1 ==> a.columns[k] < n) &&
        (s.value.kind == Tier ==>
           n == a.tiers[s.value.target - 1] &&
           (forall k :: 0 <= k < 3 ==> a.columns[k] < n) &&
           (forall k :: 0 <= k < s.value.target - 1 ==> a.tiers[k] < n))
    ensures var s := DetectSignalOf(a, minAbsence);
      s.None? || s.value.kind == Column || s.value.kind == Tier
  {
    var vals: seq<int> := a.columns + a.tiers;
    var thr := Max(minAbsence, 1);
    assert forall k :: 0 <= k < 3 ==> vals[k] == a.columns[k] && vals[k + 3] == a.tiers[k];
    var r := FirstMaxAtLeast(vals, thr);
    if r.Some? {
      var n := vals[r.value];
      forall k | 0 <= k < 3 ensures a.columns[k] <= n && a.tiers[k] <= n {
        assert vals[k] == a.columns[k] && vals[k + 3] == a.tiers[k];
      }
      if r.value >= 3 {
        forall k | 0 <= k < 3 ensures a.columns[k] < n {
          assert vals[k] == a.columns[k];
        }
        forall k | 0 <= k < r.value - 3 ensures a.tiers[k] < n {
          assert vals[k + 3] == a.tiers[k];
        }
      }
    } else {
      forall k | 0 <= k < 3 ensures a.columns[k] < thr && a.tiers[k] < thr {
        assert vals[k] == a.columns[k] && vals[k + 3] == a.tiers[k];
      }
    }
  }
}
