/**
 * `analyzeRouletteHistory` and the engine that owns the progression
 * tables. The pure function Analyze says what one analysis returns and how
 * it changes the tables; RouletteEngine keeps the tables in two 2x3 arrays
 * (row 0 the columns, row 1 the tiers; column v - 1 for target v) and its
 * methods are proved to do exactly what BuildBet and Analyze say.
 */
module Engine {
  import opened Wrappers
  import opened Classifier
  import opened Absence
  import opened NoRepetition
  import opened Selection
  import opened Progression

  /** `validateNumbers`: a non-empty list of numbers of the wheel. */
  predicate ValidNumbers(numbers: seq<int>) {
    |numbers| > 0 && forall i :: 0 <= i < |numbers| ==> 0 <= numbers[i] <= 36
  }

  /** Fewer draws than this give no recommendation at all. */
  const MinDraws := 5

  /** The four recommendations of one analysis. */
  datatype AnalysisResult = AnalysisResult(
    column: BetResult, tier: BetResult, noRepetitionColumn: BetResult, noRepetitionTier: BetResult)

  /** What an invalid or too short history gets: "AUCUN" everywhere. */
  const NoRecommendation := AnalysisResult(NoSignal, NoSignal, NoSignal, NoSignal)

  /**
   * The absence signal of one axis: the first strongest count, scanning
   * with a running maximum from 4 and a threshold of 5.
   */
  function AxisSignal(counts: seq<nat>, kind: SignalKind): Option<Signal>
    requires |counts| == 3
  {
    match FirstMaxAtLeast(counts, Max(MinAbsence, 4 + 1))
    case None => None
    case Some(k) => Some(Signal(kind, k + 1, Some(counts[k])))
  }

  /**
   * The no-repetition signal of one axis: raised flag and a most recent draw
   * with a value on the axis, which becomes the target.
   */
  function NoRepetitionSignal(flag: bool, mostRecent: int, axis: Axis, kind: SignalKind): Option<Signal> {
    var v := AxisValue(mostRecent, axis);
    if flag && v.Some? then Some(Signal(kind, v.value, None)) else None
  }

  /** The four signals of one analysis, `null` being `None`. */
  datatype Signals = Signals(
    column: Option<Signal>, tier: Option<Signal>,
    noRepetitionColumn: Option<Signal>, noRepetitionTier: Option<Signal>)

  /** The signals `analyzeRouletteHistory` derives from a non-empty history. */
  function SignalsOf(numbers: seq<int>): Signals
    requires |numbers| > 0
  {
    var a := AbsencesOf(numbers);
    var flags := NoRepetitionOf(numbers, DefaultMinLength);
    Signals(
      AxisSignal(a.columns, Column),
      AxisSignal(a.tiers, Tier),
      NoRepetitionSignal(flags.columns, numbers[0], ColumnAxis, NoRepetitionColumn),
      NoRepetitionSignal(flags.tiers, numbers[0], TierAxis, NoRepetitionTier))
  }

  /**
   * The four stakes, built in the source's order, each on the tables the
   * previous one left.
   */
  function BuildAll(t: Table, signals: Signals, maxBet: int, numbers: seq<int>): (AnalysisResult, Table) {
    var (r1, t1) := BuildBet(t, signals.column, maxBet, numbers);
    var (r2, t2) := BuildBet(t1, signals.tier, maxBet, numbers);
    var (r3, t3) := BuildBet(t2, signals.noRepetitionColumn, maxBet, numbers);
    var (r4, t4) := BuildBet(t3, signals.noRepetitionTier, maxBet, numbers);
    (AnalysisResult(r1, r2, r3, r4), t4)
  }

  /** One analysis on the tables t: the four results and the tables afterwards. */
  function Analyze(t: Table, numbers: seq<int>, maxBet: int): (AnalysisResult, Table) {
    if !ValidNumbers(numbers) || |numbers| < MinDraws then (NoRecommendation, t)
    else BuildAll(t, SignalsOf(numbers), maxBet, numbers)
  }

  /** One per-axis selection loop of `analyzeRouletteHistory` and the signal it builds. */
  method SelectAxisSignal(counts: seq<nat>, kind: SignalKind) returns (signal: Option<Signal>)
    requires |counts| == 3
    ensures signal == AxisSignal(counts, kind)
  {
    signal := None;
    var best := SelectStrongest(counts, MinAbsence, 4);
    if best.Some? {
      signal := Some(Signal(kind, best.value + 1, Some(counts[best.value])));
    }
  }

  /**
   * The detection half of `analyzeRouletteHistory`: the absence counts and
   * the no-repetition flags, the per-axis selection loops, and the
   * no-repetition targets taken from the most recent draw.
   */
  method DetectSignals(numbers: seq<int>) returns (signals: Signals)
    requires |numbers| > 0
    ensures signals == SignalsOf(numbers)
  {
    var absences := DetectAbsence(numbers);
    var flags := DetectNoRepetition(numbers, DefaultMinLength);
    var columnSignal := SelectAxisSignal(absences.columns, Column);
    var tierSignal := SelectAxisSignal(absences.tiers, Tier);
    var noRepetitionColumnSignal := NoRepetitionSignal(flags.columns, numbers[0], ColumnAxis, NoRepetitionColumn);
    var noRepetitionTierSignal := NoRepetitionSignal(flags.tiers, numbers[0], TierAxis, NoRepetitionTier);
    signals := Signals(columnSignal, tierSignal, noRepetitionColumnSignal, noRepetitionTierSignal);
  }

  /**
   * The per-axis absence signal: none exactly when every count is below 5;
   * otherwise it carries the kind it was asked for, a count of at least 5
   * that no count exceeds, and every lower target has a smaller count.
   */
  lemma {:induction false} AxisSignalChoosesStrongest(counts: seq<nat>, kind: SignalKind)
    requires |counts| == 3
    ensures AxisSignal(counts, kind).None? <==> forall k :: 0 <= k < 3 ==> counts[k] < MinAbsence
    ensures AxisSignal(counts, kind).Some? ==>
      var s := AxisSignal(counts, kind).value;
      s.kind == kind && s.absence == Some(counts[s.target - 1]) && counts[s.target - 1] >= MinAbsence &&
      (forall k :: 0 <= k < 3 ==> counts[k] <= counts[s.target - 1]) &&
      (forall k :: 0 <= k < s.target - 1 ==> counts[k] < counts[s.target - 1])
  {
    var r := FirstMaxAtLeast(counts, Max(MinAbsence, 4 + 1));
    assert Max(MinAbsence, 4 + 1) == MinAbsence;
    if r.Some? {
      assert r.value < 3;
    }
  }

  /** An invalid history, or one of fewer than 5 draws, gives "AUCUN" everywhere and leaves the tables alone. */
  lemma AnalyzeRejectsShortOrInvalid(t: Table, numbers: seq<int>, maxBet: int)
    requires !ValidNumbers(numbers) || |numbers| < MinDraws
    ensures Analyze(t, numbers, maxBet) == (NoRecommendation, t)
  {
  }

  /**
   * With a maximum stake of at least 1, an analysis keeps every index of
   * both tables within the unfiltered default series (13 stakes), so any
   * sequence of analyses does, whatever maxima they use.
   */
  lemma AnalyzeKeepsIndicesBounded(t: Table, numbers: seq<int>, maxBet: int)
    requires maxBet >= 1 && IndicesBounded(t)
    ensures IndicesBounded(Analyze(t, numbers, maxBet).1)
  {
    if ValidNumbers(numbers) && |numbers| >= MinDraws {
      var signals := SignalsOf(numbers);
      var t1 := BuildBet(t, signals.column, maxBet, numbers).1;
      var t2 := BuildBet(t1, signals.tier, maxBet, numbers).1;
      var t3 := BuildBet(t2, signals.noRepetitionColumn, maxBet, numbers).1;
      BuildBetKeepsIndicesBounded(t, signals.column, maxBet, numbers);
      BuildBetKeepsIndicesBounded(t1, signals.tier, maxBet, numbers);
      BuildBetKeepsIndicesBounded(t2, signals.noRepetitionColumn, maxBet, numbers);
      BuildBetKeepsIndicesBounded(t3, signals.noRepetitionTier, maxBet, numbers);
    }
  }

  /**
   * For a fixed maximum stake of at least 1, an analysis keeps every index
   * of both tables inside the filtered series, so any sequence of analyses
   * with that maximum does, starting from the initial tables.
   */
  lemma AnalyzeKeepsInSeries(t: Table, numbers: seq<int>, maxBet: int)
    requires maxBet >= 1 && InSeries(t, |BetSeries(maxBet)|)
    ensures InSeries(Analyze(t, numbers, maxBet).1, |BetSeries(maxBet)|)
  {
    if ValidNumbers(numbers) && |numbers| >= MinDraws {
      var signals := SignalsOf(numbers);
      var t1 := BuildBet(t, signals.column, maxBet, numbers).1;
      var t2 := BuildBet(t1, signals.tier, maxBet, numbers).1;
      var t3 := BuildBet(t2, signals.noRepetitionColumn, maxBet, numbers).1;
      BuildBetKeepsInSeries(t, signals.column, maxBet, numbers);
      BuildBetKeepsInSeries(t1, signals.tier, maxBet, numbers);
      BuildBetKeepsInSeries(t2, signals.noRepetitionColumn, maxBet, numbers);
      BuildBetKeepsInSeries(t3, signals.noRepetitionTier, maxBet, numbers);
    }
  }

  /** The initial tables lie inside the series of any maximum of at least 1. */
  lemma InitialTableInSeries(maxBet: int)
    requires maxBet >= 1
    ensures InSeries(InitialTable, |BetSeries(maxBet)|)
  {
    BetSeriesIsPrefix(maxBet);
  }

  /** A bet whose stake is one of the series and at most the maximum. */
  predicate StakeWithin(r: BetResult, maxBet: int) {
    r.Bet? ==> r.nextBet.Some? && r.nextBet.value <= maxBet && r.nextBet.value in DefaultBetSeries
  }

  /** BuildBet on bounded tables yields a stake within the maximum. */
  lemma BuildBetStakeWithin(t: Table, signal: Option<Signal>, maxBet: int, numbers: seq<int>)
    requires maxBet >= 1 && IndicesBounded(t) && |numbers| > 0
    ensures StakeWithin(BuildBet(t, signal, maxBet, numbers).0, maxBet)
  {
    if signal.Some? {
      BuildBetIndexInRange(t, signal.value, maxBet, numbers);
    }
  }

  /**
   * With a maximum stake of at least 1 and bounded tables, every
   * recommendation of an analysis is "AUCUN" or a stake of the series at
   * most the maximum.
   */
  lemma AnalyzeStakesWithinMax(t: Table, numbers: seq<int>, maxBet: int)
    requires maxBet >= 1 && IndicesBounded(t)
    ensures var r := Analyze(t, numbers, maxBet).0;
      StakeWithin(r.column, maxBet) && StakeWithin(r.tier, maxBet) &&
      StakeWithin(r.noRepetitionColumn, maxBet) && StakeWithin(r.noRepetitionTier, maxBet)
  {
    if ValidNumbers(numbers) && |numbers| >= MinDraws {
      var signals := SignalsOf(numbers);
      var t1 := BuildBet(t, signals.column, maxBet, numbers).1;
      var t2 := BuildBet(t1, signals.tier, maxBet, numbers).1;
      var t3 := BuildBet(t2, signals.noRepetitionColumn, maxBet, numbers).1;
      BuildBetKeepsIndicesBounded(t, signals.column, maxBet, numbers);
      BuildBetKeepsIndicesBounded(t1, signals.tier, maxBet, numbers);
      BuildBetKeepsIndicesBounded(t2, signals.noRepetitionColumn, maxBet, numbers);
      BuildBetStakeWithin(t, signals.column, maxBet, numbers);
      BuildBetStakeWithin(t1, signals.tier, maxBet, numbers);
      BuildBetStakeWithin(t2, signals.noRepetitionColumn, maxBet, numbers);
      BuildBetStakeWithin(t3, signals.noRepetitionTier, maxBet, numbers);
    }
  }

  /**
   * The column absence recommendation of a valid history of at least 5
   * draws: "AUCUN" exactly when every column count is below 5; otherwise
   * the strongest column, the lowest of equals.
   */
  lemma AnalyzeColumnAbsence(t: Table, numbers: seq<int>, maxBet: int)
    requires ValidNumbers(numbers) && |numbers| >= MinDraws
    ensures var r := Analyze(t, numbers, maxBet).0.column;
      var counts := AbsencesOf(numbers).columns;
      (r == NoSignal <==> forall v: Target :: AbsenceOf(numbers, ColumnAxis, v) < MinAbsence) &&
      (r.Bet? ==>
        r.signal.kind == Column && r.signal.absence == Some(counts[r.signal.target - 1]) &&
        counts[r.signal.target - 1] >= MinAbsence &&
        (forall v: Target :: AbsenceOf(numbers, ColumnAxis, v) <= counts[r.signal.target - 1]) &&
        (forall v: Target :: v < r.signal.target ==> AbsenceOf(numbers, ColumnAxis, v) < counts[r.signal.target - 1]))
  {
    var counts := AbsencesOf(numbers).columns;
    AxisSignalChoosesStrongest(counts, Column);
    assert forall v: Target :: counts[v - 1] == AbsenceOf(numbers, ColumnAxis, v);
  }

  /**
   * The tier absence recommendation of a valid history of at least 5
   * draws: "AUCUN" exactly when every tier count is below 5; otherwise
   * the strongest tier, the lowest of equals.
   */
  lemma AnalyzeTierAbsence(t: Table, numbers: seq<int>, maxBet: int)
    requires ValidNumbers(numbers) && |numbers| >= MinDraws
    ensures var r := Analyze(t, numbers, maxBet).0.tier;
      var counts := AbsencesOf(numbers).tiers;
      (r == NoSignal <==> forall v: Target :: AbsenceOf(numbers, TierAxis, v) < MinAbsence) &&
      (r.Bet? ==>
        r.signal.kind == Tier && r.signal.absence == Some(counts[r.signal.target - 1]) &&
        counts[r.signal.target - 1] >= MinAbsence &&
        (forall v: Target :: AbsenceOf(numbers, TierAxis, v) <= counts[r.signal.target - 1]) &&
        (forall v: Target :: v < r.signal.target ==> AbsenceOf(numbers, TierAxis, v) < counts[r.signal.target - 1]))
  {
    var counts := AbsencesOf(numbers).tiers;
    var signals := SignalsOf(numbers);
    var t1 := BuildBet(t, signals.column, maxBet, numbers).1;
    AxisSignalChoosesStrongest(counts, Tier);
    assert forall v: Target :: counts[v - 1] == AbsenceOf(numbers, TierAxis, v);
    assert Analyze(t, numbers, maxBet).0.tier == BuildBet(t1, signals.tier, maxBet, numbers).0;
  }

  /**
   * The no-repetition column recommendation of a valid history of at least
   * 5 draws: a bet exactly when the column flag is raised and the most
   * recent draw has a column; it targets that column, recommends the stake
   * 1, and leaves the TIER entry of that target reset after the analysis.
   */
  lemma AnalyzeNoRepetitionColumn(t: Table, numbers: seq<int>, maxBet: int)
    requires ValidNumbers(numbers) && |numbers| >= MinDraws && maxBet >= 1
    ensures var (result, t') := Analyze(t, numbers, maxBet);
      var r := result.noRepetitionColumn;
      (r.Bet? <==> AlternatesOn(numbers, ColumnAxis, DefaultMinLength) && Classify(numbers[0]).column.Some?) &&
      (r.Bet? ==>
        r.signal.kind == NoRepetitionColumn && Some(r.signal.target) == Classify(numbers[0]).column &&
        r.nextBet == Some(1) && t'.At(TierAxis, r.signal.target) == Entry(0, false))
  {
    var signals := SignalsOf(numbers);
    var t1 := BuildBet(t, signals.column, maxBet, numbers).1;
    var t2 := BuildBet(t1, signals.tier, maxBet, numbers).1;
    var t3 := BuildBet(t2, signals.noRepetitionColumn, maxBet, numbers).1;
    if signals.noRepetitionColumn.Some? {
      var s := signals.noRepetitionColumn.value;
      BuildBetNoRepetitionResetsTier(t2, s, maxBet, numbers);
      if signals.noRepetitionTier.Some? {
        BuildBetNoRepetitionResetsTier(t3, signals.noRepetitionTier.value, maxBet, numbers);
      }
    }
  }

  /**
   * The no-repetition tier recommendation of a valid history of at least 5
   * draws: a bet exactly when the tier flag is raised and the most recent
   * draw has a tier; it targets that tier, recommends the stake 1, and
   * leaves that tier's entry reset.
   */
  lemma AnalyzeNoRepetitionTier(t: Table, numbers: seq<int>, maxBet: int)
    requires ValidNumbers(numbers) && |numbers| >= MinDraws && maxBet >= 1
    ensures var (result, t') := Analyze(t, numbers, maxBet);
      var r := result.noRepetitionTier;
      (r.Bet? <==> AlternatesOn(numbers, TierAxis, DefaultMinLength) && Classify(numbers[0]).tier.Some?) &&
      (r.Bet? ==>
        r.signal.kind == NoRepetitionTier && Some(r.signal.target) == Classify(numbers[0]).tier &&
        r.nextBet == Some(1) && t'.At(TierAxis, r.signal.target) == Entry(0, false))
  {
    var signals := SignalsOf(numbers);
    var t1 := BuildBet(t, signals.column, maxBet, numbers).1;
    var t2 := BuildBet(t1, signals.tier, maxBet, numbers).1;
    var t3 := BuildBet(t2, signals.noRepetitionColumn, maxBet, numbers).1;
    if signals.noRepetitionTier.Some? {
      BuildBetNoRepetitionResetsTier(t3, signals.noRepetitionTier.value, maxBet, numbers);
    }
  }

  /** The array row of an axis. */
  function RowOf(axis: Axis): nat {
    if axis == ColumnAxis then 0 else 1
  }

  /** The progression tables `betIndices` and `signalHits`. */
  class RouletteEngine {
    var betIndices: array2<int>
    var signalHits: array2<bool>

    ghost predicate Valid()
      reads this
    {
      betIndices.Length0 == 2 && betIndices.Length1 == 3 &&
      signalHits.Length0 == 2 && signalHits.Length1 == 3
    }

    /** The entry of one target in the arrays. */
    ghost function EntryAt(row: nat, j: nat): Entry
      reads this, betIndices, signalHits
      requires Valid() && row < 2 && j < 3
    {
      Entry(betIndices[row, j], signalHits[row, j])
    }

    /** The tables the arrays hold. */
    ghost function State(): Table
      reads this, betIndices, signalHits
      requires Valid()
    {
      Table(Row(EntryAt(0, 0), EntryAt(0, 1), EntryAt(0, 2)),
            Row(EntryAt(1, 0), EntryAt(1, 1), EntryAt(1, 2)))
    }

    /** The tables as the module starts: index 0 and no hit everywhere. */
    constructor ()
      ensures Valid() && fresh(betIndices) && fresh(signalHits)
      ensures State() == InitialTable
    {
      betIndices := new int[2, 3]((_, _) => 0);
      signalHits := new bool[2, 3]((_, _) => false);
    }

    /** Writes the index and the hit flag of one entry. */
    method Store(axis: Axis, target: Target, e: Entry)
      requires Valid()
      modifies betIndices, signalHits
      ensures State() == old(State()).With(axis, target, e)
    {
      betIndices[RowOf(axis), target - 1] := e.index;
      signalHits[RowOf(axis), target - 1] := e.hit;
    }

    /** Writes the index of one entry and leaves its hit flag. */
    method StoreIndex(axis: Axis, target: Target, index: int)
      requires Valid()
      modifies betIndices
      ensures State() == old(State()).With(axis, target, Entry(index, old(State()).At(axis, target).hit))
    {
      betIndices[RowOf(axis), target - 1] := index;
    }

    /** `buildBetResult(signal, maxBet, lastNumbers)`. */
    method BuildBetResult(signal: Option<Signal>, maxBet: int, lastNumbers: seq<int>) returns (r: BetResult)
      requires Valid()
      modifies betIndices, signalHits
      ensures (r, State()) == BuildBet(old(State()), signal, maxBet, lastNumbers)
    {
      if signal.None? {
        return NoSignal;
      }
      var s := signal.value;
      ghost var t0 := State();
      var series := BetSeries(maxBet);
      var axis := LowerCaseAxis(s.kind);
      var target := s.target;
      var j := target as int - 1;
      if |lastNumbers| > 0 {
        var drawn := Classify(lastNumbers[0]);
        if axis == Some(ColumnAxis) && drawn.column == Some(target) {
          Store(ColumnAxis, target, Entry(0, true));
        } else if axis == Some(TierAxis) && drawn.tier == Some(target) {
          Store(TierAxis, target, Entry(0, true));
        } else if axis == Some(ColumnAxis) && !signalHits[0, j] {
          StoreIndex(ColumnAxis, target, Min(betIndices[0, j] + 1, |series| - 1));
        } else if axis == Some(TierAxis) && !signalHits[1, j] {
          StoreIndex(TierAxis, target, Min(betIndices[1, j] + 1, |series| - 1));
        } else if axis == Some(ColumnAxis) {
          Store(ColumnAxis, target, Entry(0, false));
        } else {
          Store(TierAxis, target, Entry(0, false));
        }
      }
      ghost var t1 := if |lastNumbers| > 0 then Transition(t0, s.kind, target, Classify(lastNumbers[0]), |series|) else t0;
      assert State() == t1;
      var stored := if axis == Some(ColumnAxis) then ColumnAxis else TierAxis;
      assert stored == StoredAxis(s.kind);
      var betIndex := betIndices[RowOf(stored), j];
      assert betIndex == t1.At(stored, target).index;
      if SeriesAt(series, betIndex) == Some(maxBet) {
        StoreIndex(stored, target, 0);
      }
      r := Bet(s, series, SeriesAt(series, betIndices[RowOf(stored), j]));
    }

    /**
     * `analyzeRouletteHistory(numbers, maxBet)`. The history is a value, so
     * the caller's list cannot change.
     */
    method AnalyzeRouletteHistory(numbers: seq<int>, maxBet: int) returns (r: AnalysisResult)
      requires Valid()
      modifies betIndices, signalHits
      ensures (r, State()) == Analyze(old(State()), numbers, maxBet)
    {
      if !ValidNumbers(numbers) || |numbers| < MinDraws {
        return NoRecommendation;
      }
      var signals := DetectSignals(numbers);
      var columnResult := BuildBetResult(signals.column, maxBet, numbers);
      var tierResult := BuildBetResult(signals.tier, maxBet, numbers);
      var noRepetitionColumnResult := BuildBetResult(signals.noRepetitionColumn, maxBet, numbers);
      var noRepetitionTierResult := BuildBetResult(signals.noRepetitionTier, maxBet, numbers);
      r := AnalysisResult(columnResult, tierResult, noRepetitionColumnResult, noRepetitionTierResult);
    }
  }
}
