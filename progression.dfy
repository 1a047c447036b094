/**
 * The stake progression of `buildBetResult`: for every axis and target an
 * index into the bet series and a "hit" flag (the module-level tables
 * `betIndices` and `signalHits`), the win / miss / reset transition run on
 * the most recent draw, the max-stake guard, and the stake it recommends.
 * This module holds the tables as a value; Engine keeps them in arrays.
 */
module Progression {
  import opened Wrappers
  import opened Classifier
  import opened Selection

  /** The stakes, in the order a losing run climbs them. */
  const DefaultBetSeries: seq<int> := [1, 1, 1, 2, 3, 5, 8, 12, 18, 27, 41, 60, 100]

  /** `s.filter(bet => bet <= maxBet)`. */
  function FilterAtMost(s: seq<int>, maxBet: int): seq<int> {
    if s == [] then []
    else (if s[0] <= maxBet then [s[0]] else []) + FilterAtMost(s[1..], maxBet)
  }

  /** The series filtered to the stakes the caller allows. */
  function BetSeries(maxBet: int): seq<int> {
    FilterAtMost(DefaultBetSeries, maxBet)
  }

  /**
   * The filter keeps exactly the stakes of s that are at most maxBet: each
   * kept stake is one of s and at most maxBet, and no such stake is lost.
   */
  lemma {:induction false} FilterAtMostKeeps(s: seq<int>, maxBet: int)
    ensures |FilterAtMost(s, maxBet)| <= |s|
    ensures forall x :: x in FilterAtMost(s, maxBet) <==> x in s && x <= maxBet
    ensures forall x :: multiset(FilterAtMost(s, maxBet))[x] == if x <= maxBet then multiset(s)[x] else 0
  {
    if s != [] {
      FilterAtMostKeeps(s[1..], maxBet);
      assert forall x :: x in s <==> x == s[0] || x in s[1..];
      assert s == [s[0]] + s[1..];
      assert multiset(s) == multiset([s[0]]) + multiset(s[1..]);
    }
  }

  predicate Ascending(s: seq<int>) {
    forall i, j :: 0 <= i < j < |s| ==> s[i] <= s[j]
  }

  /** A series whose every stake exceeds maxBet filters to nothing. */
  lemma {:induction false} FilterAllAbove(s: seq<int>, maxBet: int)
    requires forall k :: 0 <= k < |s| ==> s[k] > maxBet
    ensures FilterAtMost(s, maxBet) == []
  {
    if s != [] {
      FilterAllAbove(s[1..], maxBet);
    }
  }

  /** Filtering an ascending series keeps a prefix of it, in order. */
  lemma {:induction false} FilterAscendingIsPrefix(s: seq<int>, maxBet: int)
    requires Ascending(s)
    ensures |FilterAtMost(s, maxBet)| <= |s|
    ensures FilterAtMost(s, maxBet) == s[..|FilterAtMost(s, maxBet)|]
  {
    FilterAtMostKeeps(s, maxBet);
    if s != [] {
      var rest := FilterAtMost(s[1..], maxBet);
      FilterAscendingIsPrefix(s[1..], maxBet);
      if s[0] > maxBet {
        forall k | 0 <= k < |s[1..]| ensures s[1..][k] > maxBet {
          assert s[0] <= s[k + 1];
        }
        FilterAllAbove(s[1..], maxBet);
      } else {
        assert [s[0]] + s[1..][..|rest|] == s[..|rest| + 1];
      }
    }
  }

  /**
   * Filtering an ascending series stops at the first stake above maxBet:
   * the prefix it keeps is the longest one, so the stake just past it, if
   * any, exceeds maxBet.
   */
  lemma {:induction false} FilterAscendingStopsAbove(s: seq<int>, maxBet: int)
    requires Ascending(s)
    ensures |FilterAtMost(s, maxBet)| < |s| ==> s[|FilterAtMost(s, maxBet)|] > maxBet
  {
    if s != [] {
      if s[0] > maxBet {
        forall k | 0 <= k < |s[1..]| ensures s[1..][k] > maxBet {
          assert s[0] <= s[k + 1];
        }
        FilterAllAbove(s[1..], maxBet);
      } else {
        assert Ascending(s[1..]) by {
          forall i, j | 0 <= i < j < |s[1..]| ensures s[1..][i] <= s[1..][j] {
            assert s[i + 1] <= s[j + 1];
          }
        }
        FilterAscendingStopsAbove(s[1..], maxBet);
      }
    }
  }

  /**
   * The filtered series is a prefix of the default series whose every stake
   * is at most maxBet; with a maximum stake of at least 1 it starts with
   * the stake 1, and below 1 it is empty.
   */
  lemma BetSeriesIsPrefix(maxBet: int)
    ensures |BetSeries(maxBet)| <= |DefaultBetSeries|
    ensures BetSeries(maxBet) == DefaultBetSeries[..|BetSeries(maxBet)|]
    ensures forall i :: 0 <= i < |BetSeries(maxBet)| ==> BetSeries(maxBet)[i] <= maxBet
    ensures maxBet >= 1 ==> |BetSeries(maxBet)| >= 1 && BetSeries(maxBet)[0] == 1
    ensures maxBet < 1 ==> BetSeries(maxBet) == []
  {
    var d := DefaultBetSeries;
    DefaultSeriesAscending();
    FilterAscendingIsPrefix(d, maxBet);
    FilterAtMostKeeps(d, maxBet);
    var r := BetSeries(maxBet);
    assert forall i :: 0 <= i < |r| ==> r[i] in r;
    if maxBet >= 1 {
      assert 1 in r;
    } else {
      assert forall x :: x in d ==> x >= 1;
    }
  }

  /**
   * The filtered series is the longest prefix of the default series within
   * the maximum: the first stake it leaves out exceeds maxBet. Its length
   * is therefore the number of stakes at most maxBet, the bound that caps
   * a losing run.
   */
  lemma BetSeriesIsLongestPrefix(maxBet: int)
    ensures |BetSeries(maxBet)| < |DefaultBetSeries| ==> DefaultBetSeries[|BetSeries(maxBet)|] > maxBet
  {
    DefaultSeriesAscending();
    FilterAscendingStopsAbove(DefaultBetSeries, maxBet);
  }

  /** The lengths of the filtered series for the maxima of 1 and 8. */
  lemma BetSeriesLength(maxBet: int)
    requires maxBet == 1 || maxBet == 8
    ensures |BetSeries(maxBet)| == if maxBet == 1 then 3 else 7
  {
    BetSeriesIsPrefix(maxBet);
    BetSeriesIsLongestPrefix(maxBet);
    DefaultSeriesAscending();
    var m := if maxBet == 1 then 3 else 7;
    PrefixWithinLength(DefaultBetSeries, BetSeries(maxBet), maxBet, m);
  }

  /**
   * A prefix of an ascending s whose stakes are at most maxBet and past
   * which s exceeds maxBet has length m when s[m - 1] <= maxBet < s[m].
   */
  lemma PrefixWithinLength(s: seq<int>, r: seq<int>, maxBet: int, m: int)
    requires Ascending(s) && 0 < m < |s| && s[m - 1] <= maxBet < s[m]
    requires |r| <= |s| && r == s[..|r|]
    requires forall i :: 0 <= i < |r| ==> r[i] <= maxBet
    requires |r| < |s| ==> s[|r|] > maxBet
    ensures |r| == m
  {
  }

  /** The default series never decreases. */
  lemma DefaultSeriesAscending()
    ensures Ascending(DefaultBetSeries)
  {
    var d := DefaultBetSeries;
    forall i, j | 0 <= i < j < |d| ensures d[i] <= d[j] {
      assert forall k :: 0 <= k < |d| - 1 ==> d[k] <= d[k + 1];
      AscendingStep(d, i, j);
    }
  }

  /** Neighbours in order make the whole sequence ascending. */
  lemma {:induction false} AscendingStep(s: seq<int>, i: int, j: int)
    requires forall k :: 0 <= k < |s| - 1 ==> s[k] <= s[k + 1]
    requires 0 <= i <= j < |s|
    ensures s[i] <= s[j]
    decreases j - i
  {
    if i < j {
      AscendingStep(s, i + 1, j);
    }
  }

  /** `series[i]`, which is `undefined` (`None`) outside the series. */
  function SeriesAt(series: seq<int>, i: int): Option<int> {
    if 0 <= i < |series| then Some(series[i]) else None
  }

  /** One (index, hit) pair of the tables. */
  datatype Entry = Entry(index: int, hit: bool)

  /** The entries of targets 1, 2 and 3 on one axis. */
  datatype Row = Row(e1: Entry, e2: Entry, e3: Entry)
  {
    function At(t: Target): Entry {
      if t == 1 then e1 else if t == 2 then e2 else e3
    }

    function With(t: Target, e: Entry): Row {
      if t == 1 then Row(e, e2, e3) else if t == 2 then Row(e1, e, e3) else Row(e1, e2, e)
    }
  }

  /** `betIndices` and `signalHits` together, per axis. */
  datatype Table = Table(columns: Row, tiers: Row)
  {
    function At(axis: Axis, t: Target): Entry {
      if axis == ColumnAxis then columns.At(t) else tiers.At(t)
    }

    function With(axis: Axis, t: Target, e: Entry): Table {
      if axis == ColumnAxis then Table(columns.With(t, e), tiers) else Table(columns, tiers.With(t, e))
    }
  }

  /** The tables as the module starts: index 0 and not hit everywhere. */
  const InitialTable := Table(Row(Entry(0, false), Entry(0, false), Entry(0, false)),
                              Row(Entry(0, false), Entry(0, false), Entry(0, false)))

  /** Every index lies within the unfiltered default series (13 stakes). */
  predicate IndicesBounded(t: Table) {
    InSeries(t, |DefaultBetSeries|)
  }

  /** Every index lies within a series of n stakes. */
  predicate InSeries(t: Table, n: int) {
    forall axis: Axis, v: Target :: 0 <= t.At(axis, v).index < n
  }

  /**
   * `signal.type.toLowerCase()` compared with 'column' and 'tier'. The
   * lower-cased no-repetition types match neither.
   */
  function LowerCaseAxis(kind: SignalKind): Option<Axis> {
    match kind
    case Column => Some(ColumnAxis)
    case Tier => Some(TierAxis)
    case _ => None
  }

  /** The table `type === 'column' ? columns : tiers` reads and guards. */
  function StoredAxis(kind: SignalKind): Axis {
    if LowerCaseAxis(kind) == Some(ColumnAxis) then ColumnAxis else TierAxis
  }

  /**
   * The win / miss / reset transition on the most recent draw: a hit on
   * the target restarts the series and records the hit; a miss while not
   * hit climbs one step, no further than the last stake; anything else
   * (a miss after a hit, and every no-repetition signal) restarts the
   * series on the tier table if the type is not 'column'.
   */
  function Transition(t: Table, kind: SignalKind, target: Target, drawn: Classification, seriesLength: int): Table {
    var axis := LowerCaseAxis(kind);
    if axis == Some(ColumnAxis) && drawn.column == Some(target) then
      t.With(ColumnAxis, target, Entry(0, true))
    else if axis == Some(TierAxis) && drawn.tier == Some(target) then
      t.With(TierAxis, target, Entry(0, true))
    else if axis == Some(ColumnAxis) && !t.At(ColumnAxis, target).hit then
      t.With(ColumnAxis, target, Entry(Min(t.At(ColumnAxis, target).index + 1, seriesLength - 1), false))
    else if axis == Some(TierAxis) && !t.At(TierAxis, target).hit then
      t.With(TierAxis, target, Entry(Min(t.At(TierAxis, target).index + 1, seriesLength - 1), false))
    else if axis == Some(ColumnAxis) then
      t.With(ColumnAxis, target, Entry(0, false))
    else
      t.With(TierAxis, target, Entry(0, false))
  }

  /** The object `buildBetResult` returns; `NoSignal` is the "AUCUN" result. */
  datatype BetResult =
    | NoSignal
    | Bet(signal: Signal, betSeries: seq<int>, nextBet: Option<int>)

  /**
   * `buildBetResult(signal, maxBet, lastNumbers)` on the tables t: the
   * result and the tables afterwards. The transition runs only when there
   * is a most recent draw; the max-stake guard runs always.
   */
  function BuildBet(t: Table, signal: Option<Signal>, maxBet: int, lastNumbers: seq<int>): (BetResult, Table) {
    if signal.None? then (NoSignal, t)
    else BetOn(t, signal.value, BetSeries(maxBet), maxBet, lastNumbers)
  }

  /** The body of `buildBetResult` for a signal, once the series is filtered. */
  function BetOn(t: Table, s: Signal, series: seq<int>, maxBet: int, lastNumbers: seq<int>): (BetResult, Table) {
    var t1 := if |lastNumbers| > 0 then Transition(t, s.kind, s.target, Classify(lastNumbers[0]), |series|) else t;
    var axis := StoredAxis(s.kind);
    var e := t1.At(axis, s.target);
    var t2 := if SeriesAt(series, e.index) == Some(maxBet) then t1.With(axis, s.target, Entry(0, e.hit)) else t1;
    (Bet(s, series, SeriesAt(series, t2.At(axis, s.target).index)), t2)
  }

  /**
   * On any non-empty series, a call with a most recent draw leaves the
   * entry it writes inside the series, if its index was not negative.
   */
  lemma BetOnIndexInRange(t: Table, s: Signal, series: seq<int>, maxBet: int, lastNumbers: seq<int>)
    requires |series| >= 1 && |lastNumbers| > 0 && t.At(StoredAxis(s.kind), s.target).index >= 0
    ensures var (r, t') := BetOn(t, s, series, maxBet, lastNumbers);
      var i := t'.At(StoredAxis(s.kind), s.target).index;
      0 <= i < |series| && r.nextBet == Some(series[i])
  {
    TransitionStoredIndex(t, s.kind, s.target, Classify(lastNumbers[0]), |series|);
  }

  /** Without a most recent draw the entry's index is kept or set to 0. */
  lemma BetOnWithoutDraw(t: Table, s: Signal, series: seq<int>, maxBet: int)
    ensures var i := BetOn(t, s, series, maxBet, []).1.At(StoredAxis(s.kind), s.target).index;
      i == 0 || i == t.At(StoredAxis(s.kind), s.target).index
  {
  }

  /** A missing signal gives "AUCUN" and leaves the tables as they were. */
  lemma BuildBetNoSignal(t: Table, maxBet: int, lastNumbers: seq<int>)
    ensures BuildBet(t, None, maxBet, lastNumbers) == (NoSignal, t)
  {
  }

  /**
   * Only the entry of the signal's target on the table it reads changes;
   * every other entry of both tables is left as it was.
   */
  lemma BuildBetFrame(t: Table, s: Signal, maxBet: int, lastNumbers: seq<int>, axis: Axis, v: Target)
    requires axis != StoredAxis(s.kind) || v != s.target
    ensures BuildBet(t, Some(s), maxBet, lastNumbers).1.At(axis, v) == t.At(axis, v)
  {
  }

  /**
   * Win: when the most recent draw lies on the absence signal's target, the
   * entry restarts at index 0 with the hit recorded, and the next stake is
   * the first of the series.
   */
  lemma BuildBetHit(t: Table, s: Signal, maxBet: int, lastNumbers: seq<int>)
    requires LowerCaseAxis(s.kind).Some? && |lastNumbers| > 0
    requires Classify(lastNumbers[0]).On(StoredAxis(s.kind)) == Some(s.target)
    ensures var (r, t') := BuildBet(t, Some(s), maxBet, lastNumbers);
      t'.At(StoredAxis(s.kind), s.target) == Entry(0, true) &&
      r.nextBet == SeriesAt(BetSeries(maxBet), 0)
  {
  }

  /**
   * Loss while pursuing: a miss on a target not hit before climbs one step
   * (staying at the last stake), unless that step is the maximum stake,
   * which sends the index back to 0.
   */
  lemma BuildBetMissWhilePursuing(t: Table, s: Signal, maxBet: int, lastNumbers: seq<int>)
    requires LowerCaseAxis(s.kind).Some? && |lastNumbers| > 0
    requires Classify(lastNumbers[0]).On(StoredAxis(s.kind)) != Some(s.target)
    requires !t.At(StoredAxis(s.kind), s.target).hit
    ensures var series := BetSeries(maxBet);
      var climbed := Min(t.At(StoredAxis(s.kind), s.target).index + 1, |series| - 1);
      BuildBet(t, Some(s), maxBet, lastNumbers).1.At(StoredAxis(s.kind), s.target) ==
        Entry(if SeriesAt(series, climbed) == Some(maxBet) then 0 else climbed, false)
  {
  }

  /** A miss after a hit starts the series again and clears the hit. */
  lemma BuildBetMissAfterHit(t: Table, s: Signal, maxBet: int, lastNumbers: seq<int>)
    requires LowerCaseAxis(s.kind).Some? && |lastNumbers| > 0
    requires Classify(lastNumbers[0]).On(StoredAxis(s.kind)) != Some(s.target)
    requires t.At(StoredAxis(s.kind), s.target).hit
    ensures BuildBet(t, Some(s), maxBet, lastNumbers).1.At(StoredAxis(s.kind), s.target) == Entry(0, false)
  {
  }

  /**
   * A no-repetition signal, whatever the draw, resets the entry of its
   * target on the TIER table (also for a column signal), and so always
   * recommends the first stake of the series: 1 when the maximum is at
   * least 1.
   */
  lemma BuildBetNoRepetitionResetsTier(t: Table, s: Signal, maxBet: int, lastNumbers: seq<int>)
    requires LowerCaseAxis(s.kind).None? && |lastNumbers| > 0
    ensures var (r, t') := BuildBet(t, Some(s), maxBet, lastNumbers);
      t' == t.With(TierAxis, s.target, Entry(0, false)) &&
      r.nextBet == SeriesAt(BetSeries(maxBet), 0) &&
      (maxBet >= 1 ==> r.nextBet == Some(1))
  {
    BetSeriesIsPrefix(maxBet);
  }

  /**
   * The max-stake guard: after the call the entry's index is 0 or points
   * at a stake other than the maximum, so the maximum is never
   * recommended from a later step of the series.
   */
  lemma BuildBetGuardsMaxStake(t: Table, s: Signal, maxBet: int, lastNumbers: seq<int>)
    ensures var e := BuildBet(t, Some(s), maxBet, lastNumbers).1.At(StoredAxis(s.kind), s.target);
      e.index == 0 || SeriesAt(BetSeries(maxBet), e.index) != Some(maxBet)
  {
  }

  /**
   * With a maximum stake of at least 1, a most recent draw, and a
   * non-negative index before the call, the entry's index lands inside the
   * filtered series and the recommended stake is one of its stakes, at
   * most the maximum.
   */
  lemma BuildBetIndexInRange(t: Table, s: Signal, maxBet: int, lastNumbers: seq<int>)
    requires maxBet >= 1 && |lastNumbers| > 0
    requires t.At(StoredAxis(s.kind), s.target).index >= 0
    ensures var (r, t') := BuildBet(t, Some(s), maxBet, lastNumbers);
      var series := BetSeries(maxBet);
      var i := t'.At(StoredAxis(s.kind), s.target).index;
      0 <= i < |series| && r.nextBet == Some(series[i]) &&
      r.nextBet.value <= maxBet && r.nextBet.value in DefaultBetSeries
  {
    BetSeriesIsPrefix(maxBet);
    var series := BetSeries(maxBet);
    BetOnIndexInRange(t, s, series, maxBet, lastNumbers);
    var i := BetOn(t, s, series, maxBet, lastNumbers).1.At(StoredAxis(s.kind), s.target).index;
    assert series[i] == DefaultBetSeries[i];
  }

  /**
   * The transition leaves the entry it writes inside a series of the given
   * non-zero length, when its index was not negative.
   */
  lemma TransitionStoredIndex(t: Table, kind: SignalKind, target: Target, drawn: Classification, seriesLength: int)
    requires seriesLength >= 1 && t.At(StoredAxis(kind), target).index >= 0
    ensures 0 <= Transition(t, kind, target, drawn, seriesLength).At(StoredAxis(kind), target).index < seriesLength
  {
  }

  /**
   * With a maximum stake of at least 1 the entry a call writes stays
   * within the unfiltered default series (13 stakes) when it was before, with or without a most recent
   * draw.
   */
  lemma BuildBetStoredIndexBounded(t: Table, s: Signal, maxBet: int, lastNumbers: seq<int>)
    requires maxBet >= 1
    requires 0 <= t.At(StoredAxis(s.kind), s.target).index < |DefaultBetSeries|
    ensures 0 <= BuildBet(t, Some(s), maxBet, lastNumbers).1.At(StoredAxis(s.kind), s.target).index < |DefaultBetSeries|
  {
    BetSeriesIsPrefix(maxBet);
    if |lastNumbers| > 0 {
      BetOnIndexInRange(t, s, BetSeries(maxBet), maxBet, lastNumbers);
    } else {
      BetOnWithoutDraw(t, s, BetSeries(maxBet), maxBet);
    }
  }

  /**
   * With a maximum stake of at least 1 the call keeps every index of both
   * tables within the unfiltered default series (13 stakes), whatever
   * maximum earlier calls used, and whether or not there is a most recent
   * draw.
   */
  lemma BuildBetKeepsIndicesBounded(t: Table, signal: Option<Signal>, maxBet: int, lastNumbers: seq<int>)
    requires maxBet >= 1 && IndicesBounded(t)
    ensures IndicesBounded(BuildBet(t, signal, maxBet, lastNumbers).1)
  {
    if signal.Some? {
      var s := signal.value;
      var t' := BuildBet(t, signal, maxBet, lastNumbers).1;
      forall axis: Axis, v: Target ensures 0 <= t'.At(axis, v).index < |DefaultBetSeries| {
        if axis == StoredAxis(s.kind) && v == s.target {
          BuildBetStoredIndexBounded(t, s, maxBet, lastNumbers);
        } else {
          BuildBetFrame(t, s, maxBet, lastNumbers, axis, v);
        }
      }
    }
  }

  /**
   * For a fixed maximum stake of at least 1, a call keeps every index of
   * both tables inside the filtered series, with or without a most recent
   * draw.
   */
  lemma BuildBetKeepsInSeries(t: Table, signal: Option<Signal>, maxBet: int, lastNumbers: seq<int>)
    requires maxBet >= 1 && InSeries(t, |BetSeries(maxBet)|)
    ensures InSeries(BuildBet(t, signal, maxBet, lastNumbers).1, |BetSeries(maxBet)|)
  {
    if signal.Some? {
      var s := signal.value;
      var n := |BetSeries(maxBet)|;
      var t' := BuildBet(t, signal, maxBet, lastNumbers).1;
      BetSeriesIsPrefix(maxBet);
      forall axis: Axis, v: Target ensures 0 <= t'.At(axis, v).index < n {
        if axis == StoredAxis(s.kind) && v == s.target {
          if |lastNumbers| > 0 {
            BuildBetIndexInRange(t, s, maxBet, lastNumbers);
          } else {
            BetOnWithoutDraw(t, s, BetSeries(maxBet), maxBet);
          }
        } else {
          BuildBetFrame(t, s, maxBet, lastNumbers, axis, v);
        }
      }
    }
  }

  /**
   * A change of maximum stake between calls can leave an untouched entry
   * past the new series: a column entry at index 6, inside the 7 stakes
   * allowed by a maximum of 8, stays 6 through a call on the tier table
   * with a maximum of 1, whose series has only 3 stakes.
   */
  lemma MaxChangeLeavesIndexPastSeries(t: Table, s: Signal, lastNumbers: seq<int>)
    requires t.At(ColumnAxis, 1).index == 6 && StoredAxis(s.kind) == TierAxis
    ensures var t' := BuildBet(t, Some(s), 1, lastNumbers).1;
      t.At(ColumnAxis, 1).index < |BetSeries(8)| &&
      t'.At(ColumnAxis, 1).index == 6 && |BetSeries(1)| == 3 && !InSeries(t', |BetSeries(1)|)
  {
    BetSeriesLength(8);
    BetSeriesLength(1);
    BuildBetFrame(t, s, 1, lastNumbers, ColumnAxis, 1);
  }

  /**
   * With a maximum stake of at least 2 the recommended stake, when there is
   * one, is strictly below the maximum.
   */
  lemma BuildBetStaysBelowMax(t: Table, s: Signal, maxBet: int, lastNumbers: seq<int>)
    requires maxBet >= 2
    ensures var r := BuildBet(t, Some(s), maxBet, lastNumbers).0;
      r.nextBet.Some? ==> r.nextBet.value < maxBet
  {
    BetSeriesIsPrefix(maxBet);
    var series := BetSeries(maxBet);
    var (r, t') := BetOn(t, s, series, maxBet, lastNumbers);
    var i := t'.At(StoredAxis(s.kind), s.target).index;
    assert r.nextBet == SeriesAt(series, i);
    BuildBetGuardsMaxStake(t, s, maxBet, lastNumbers);
    assert i == 0 || SeriesAt(series, i) != Some(maxBet);
  }

  /**
   * Below a maximum of 1 the filtered series is empty: a miss while pursuing
   * drives the index to -1 and no stake is recommended.
   */
  lemma BuildBetEmptySeries(t: Table, s: Signal, maxBet: int, lastNumbers: seq<int>)
    requires maxBet < 1
    requires LowerCaseAxis(s.kind).Some? && |lastNumbers| > 0
    requires Classify(lastNumbers[0]).On(StoredAxis(s.kind)) != Some(s.target)
    requires !t.At(StoredAxis(s.kind), s.target).hit && t.At(StoredAxis(s.kind), s.target).index >= 0
    ensures var (r, t') := BuildBet(t, Some(s), maxBet, lastNumbers);
      t'.At(StoredAxis(s.kind), s.target).index == -1 && r.nextBet == None
  {
    BetSeriesIsPrefix(maxBet);
  }
}
