# Roulette decision support: the analysis engine

A Dafny model of `roulette-logic.js`, the engine of a roulette betting
assistant. The engine takes the drawn numbers, most recent first, and a
maximum stake. It recommends up to four bets:

- the column absent the longest;
- the tier absent the longest;
- a "no repetition" bet on the column of the last draw;
- a "no repetition" bet on the tier of the last draw.

A column is a vertical line of the layout (1, 4, 7, …). A tier is a block
of twelve numbers (1–12, 13–24, 25–36). A stake is taken from the series
1, 1, 1, 2, 3, 5, 8, 12, 18, 27, 41, 60, 100, filtered to the stakes at
most the maximum. Two module-level tables, `betIndices` and `signalHits`,
remember between calls, for each axis and target, how far up the series a
losing run has climbed and whether the target was last hit.

Modules, leaf first:

- `Classifier` (classifier.dfy): `classifyNumber`. It is kept once as
  written, with the six literal lists (`ClassifyNumber`). It is also kept
  once in closed form, column = (n-1) % 3 + 1 and tier = (n-1) / 12 + 1
  (`Classify`). A lemma proves the two equal on every integer, and the rest
  of the model uses the closed form.
- `Absence` (absence.dfy): `detectAbsence`. A pure specification plus the
  loops with their `found` flag and `break`.
- `NoRepetition` (no_repetition.dfy): `detectNoRepetition`. A pure
  specification plus the walk that stops at the first 0 or repeat.
- `Selection` (selection.dfy): the running-maximum selection loops, used by
  `detectSignal` and by the per-axis selection in `analyzeRouletteHistory`.
- `Progression` (progression.dfy): the filtered series, the tables as a
  value, and the win / miss / reset transition with the max-stake guard.
  `BuildBet` is the pure specification of `buildBetResult`.
- `Engine` (engine.dfy): `validateNumbers`, `Analyze` (the pure
  specification of `analyzeRouletteHistory`) and the class
  `RouletteEngine`. The class holds `betIndices` and `signalHits` as two
  2×3 arrays. Its methods `BuildBetResult` and `AnalyzeRouletteHistory`
  update the arrays in place and are proved to do exactly what `BuildBet`
  and `Analyze` say.

Behaviour of the code that the model keeps:

- A no-repetition signal has type `NO_REPETITION_COLUMN` or
  `NO_REPETITION_TIER`. Lower-cased, that matches neither `'column'` nor
  `'tier'`, so `buildBetResult` always takes its reset branch on the TIER
  table entry of that target. This happens even for a column signal. Its
  stake is therefore always the first of the series.
- The code keeps a single pair of tables, keyed by axis and target. An
  absence signal and a no-repetition signal on the same tier share an entry.
  A no-repetition column signal on target v resets tier v.
- When a value never occurs, the absence count is capped at
  min(length, 30). A value that does occur counts its index even past 30
  (`AbsenceNotCappedWhenFound`).
- For a fixed maximum stake, every index stays inside the filtered
  series, [0, length - 1] (`AnalyzeKeepsInSeries`). The tables are shared
  by all calls, but the maximum is an argument of each call. A call
  rewrites only the entry of its own target, so after a change of maximum
  an untouched entry can lie past the new, shorter series
  (`MaxChangeLeavesIndexPastSeries`). The bound that holds across every
  sequence of calls is therefore the unfiltered series of 13 stakes
  (`AnalyzeKeepsIndicesBounded`). An analysis always passes a non-empty
  history, so its next call on such an entry brings the index back into
  the series: a hit or a reset gives 0, and a miss gives
  min(index + 1, length - 1).
- The max-stake guard fires only when the maximum is itself a stake of the
  series. With a maximum of 10, a losing run stays at 8.
- The code has no run-length counter, no separate stake curve for
  no-repetition signals and no composite "a + b = total" stake. The model
  follows the code and has none of them either.

## Model

| member | source | states |
|---|---|---|
| Classifier.ClassifyNumber | roulette-logic.js:28-57 | `classifyNumber` as written: 0 gives (null, null), otherwise the first column list and the first tier list that hold n; its properties are stated by ClassifyNumberClosedForm, ListsPartitionWheel and ClassifyMatchesLists |
| Classifier.Classify | roulette-logic.js:28-57 | the closed form of `classifyNumber`, proved equal to it by ClassifyNumberClosedForm and used by the rest of the model |
| Absence.AbsenceOf | roulette-logic.js:101-116 | the absence count of one value: the index of its first draw, or min(length, 30) when none is found; stated by AbsenceCharacterized |
| Absence.AxisAbsences | roulette-logic.js:101-117 | the three counts of one axis, values 1, 2, 3 in order |
| Absence.AbsencesOf | roulette-logic.js:89-142 | the result of `detectAbsence`: the column counts and the tier counts |
| NoRepetition.AlternatesOn | roulette-logic.js:162-191 | one axis flag: draws 0..minLength-1 all have a value and each differs from the previous, and the value of draw minLength differs from that of draw minLength-1 (null equal to null); stated by FlagMeansAlternation and WindowOfOneIgnoresZero |
| NoRepetition.NoRepetitionOf | roulette-logic.js:150-228 | the result of `detectNoRepetition`: both flags false below minLength + 1 draws, otherwise the two axis flags; stated by ShortHistoryNoFlags |
| Selection.DetectSignalOf | roulette-logic.js:236-267 | the result of `detectSignal`: the first largest count over the columns then the tiers, at least max(minAbsence, 1); stated by DetectSignalChoosesStrongest |
| Progression.FilterAtMost | roulette-logic.js:288 | `filter(bet => bet <= maxBet)`, in order; stated by FilterAtMostKeeps and FilterAscendingIsPrefix |
| Progression.BetSeries | roulette-logic.js:288 | the default series filtered to the maximum; stated by BetSeriesIsPrefix and BetSeriesIsLongestPrefix |
| Progression.LowerCaseAxis | roulette-logic.js:290 | `signal.type.toLowerCase()` compared with 'column' and 'tier': the no-repetition types match neither |
| Progression.StoredAxis | roulette-logic.js:326-338 | the table `type === 'column' ? columns : tiers` reads: the tier table for every type but COLUMN |
| Progression.Transition | roulette-logic.js:294-323 | the six branches of the win / miss / reset step on the most recent draw; stated by TransitionStoredIndex and the BuildBet lemmas |
| Progression.BetOn | roulette-logic.js:287-346 | `buildBetResult` for a signal: the transition when there is a draw, the max-stake guard, then the stake at the stored index; stated by BetOnIndexInRange |
| Progression.BuildBet | roulette-logic.js:276-347 | `buildBetResult`: "AUCUN" with the tables unchanged for no signal, otherwise BetOn on the filtered series; stated by the BuildBet lemmas |
| Engine.ValidNumbers | roulette-logic.js:354-364 | `validateNumbers`: a non-empty list whose every number lies in 0..36 |
| Engine.AxisSignal | roulette-logic.js:394-424 | the per-axis absence signal: running maximum from 4, threshold 5; stated by AxisSignalChoosesStrongest |
| Engine.NoRepetitionSignal | roulette-logic.js:430-460 | a raised flag and a non-null value of the most recent draw on the axis give a signal on that value |
| Engine.SignalsOf | roulette-logic.js:386-460 | the four signals of a history: two absence signals and two no-repetition signals |
| Engine.BuildAll | roulette-logic.js:467-490 | the four `buildBetResult` calls in source order, each on the tables the previous one left |
| Engine.Analyze | roulette-logic.js:372-491 | `analyzeRouletteHistory`: "AUCUN" four times with the tables unchanged for an invalid or short history, otherwise BuildAll on SignalsOf; stated by the Analyze lemmas |
| Classifier.ColumnListMembers | roulette-logic.js:35-37 | column list k holds exactly the numbers 1..36 with (n-1) % 3 + 1 = k |
| Classifier.TierListMembers | roulette-logic.js:40-42 | tier list k holds exactly the twelve numbers with (n-1) / 12 + 1 = k |
| Classifier.ClassifyNumberClosedForm | roulette-logic.js:28-57 | `classifyNumber` as written equals the closed form on every integer; 0 gives (null, null); every n in 1..36 gets a column and a tier |
| Classifier.ListsPartitionWheel | roulette-logic.js:35-42 | the three column lists partition 1..36 and so do the three tier lists: pairwise disjoint, and their union is exactly 1..36 |
| Classifier.ClassifyMatchesLists | roulette-logic.js:44-54 | n classifies to column (tier) k exactly when n is in column (tier) list k |
| Absence.FirstIndexOn | roulette-logic.js:104-111 | the scan index is at most the length; below it, it is a draw on the value and no earlier draw is |
| Absence.AbsenceCharacterized | roulette-logic.js:101-136 | a value that occurs counts the index of its first occurrence, with no earlier draw on it; a value that never occurs counts min(length, 30); the count never exceeds the length |
| Absence.FirstOccurrence | roulette-logic.js:101-116 | the loop with `found` and `break` computes the absence count of one value |
| Absence.AxisScan | roulette-logic.js:120-136 | the loop over the three values of an axis yields their three counts in order |
| Absence.DetectAbsence | roulette-logic.js:89-142 | `detectAbsence` returns the counts of the three columns and the three tiers |
| Absence.AbsencesBounded | roulette-logic.js:91-94 | every count lies in [0, length], and an empty history gives all zeros |
| Absence.AbsenceNotCappedWhenFound | roulette-logic.js:107-115 | in a 36-draw history, a column first seen at index 35 counts 35, while a column never seen counts 30 |
| NoRepetition.AxisChanges | roulette-logic.js:162-191 | the walk, stopping at the first null or repeat, plus the stabilised check at index minLength, yields the axis flag |
| NoRepetition.DetectNoRepetition | roulette-logic.js:150-228 | `detectNoRepetition` returns both axis flags |
| NoRepetition.ShortHistoryNoFlags | roulette-logic.js:152-154 | a history shorter than minLength + 1 raises neither flag |
| NoRepetition.FlagMeansAlternation | roulette-logic.js:163-221 | a raised flag with a window of at least 2 means: draws 0..minLength-1 are non-zero with a value on the axis, each differs from its neighbour, and draw minLength differs from draw minLength-1 |
| NoRepetition.WindowOfOneIgnoresZero | roulette-logic.js:166-173 | with a window of 1 the null check never runs: [0, 5] raises both flags |
| Selection.FirstMaxAtLeast | roulette-logic.js:241-264 | no choice exactly when no value reaches the threshold; otherwise the chosen value reaches it, none is larger, and every earlier one that reaches it is smaller |
| Selection.SelectStrongest | roulette-logic.js:396-408 | the running-maximum loop with strict `>` picks the first largest value at least max(minAbsence, start + 1) |
| Selection.DetectSignal | roulette-logic.js:236-267 | `detectSignal` returns the signal for the first largest count over the columns and then the tiers |
| Selection.DetectSignalChoosesStrongest | roulette-logic.js:236-267 | no signal exactly when every count is below max(minAbsence, 1); otherwise its count reaches minAbsence, none is larger, ties go to columns and then to the lower value, and a tier wins only with a count strictly above every column |
| Progression.FilterAtMostKeeps | roulette-logic.js:288 | the filter keeps exactly the stakes that are at most the maximum, each with every copy it has in the input (equal multisets on those stakes, none of the others) |
| Progression.FilterAscendingIsPrefix | roulette-logic.js:288 | filtering an ascending series keeps a prefix of it, in order |
| Progression.BetSeriesIsPrefix | roulette-logic.js:9 | the filtered series is a prefix of the default series, each stake at most the maximum; it starts with 1 when the maximum is at least 1 and is empty below 1 |
| Progression.FilterAscendingStopsAbove | roulette-logic.js:288 | filtering an ascending series keeps the longest prefix within the maximum: the first stake left out exceeds it |
| Progression.BetSeriesIsLongestPrefix | roulette-logic.js:288 | the first default stake left out of the filtered series exceeds the maximum, so the series length that caps a losing run (line 309) is the number of stakes at most the maximum |
| Progression.BetSeriesLength | roulette-logic.js:288 | the filtered series has 3 stakes for a maximum of 1 and 7 for a maximum of 8 |
| Progression.TransitionStoredIndex | roulette-logic.js:298-322 | the win/miss/reset transition keeps the entry it writes inside a series of non-zero length |
| Progression.BetOnIndexInRange | roulette-logic.js:325-345 | after the transition and the guard, the index is inside the series and the stake is the series value at that index |
| Progression.BuildBetNoSignal | roulette-logic.js:277-285 | a null signal returns "AUCUN" and leaves both tables unchanged |
| Progression.BuildBetFrame | roulette-logic.js:298-335 | a call changes only the entry of its target on the table it reads; every other entry of both tables stays as it was |
| Progression.BuildBetHit | roulette-logic.js:298-305 | win: a last draw on the absence signal's target sets the entry to index 0, hit true; the stake is the first of the series |
| Progression.BuildBetMissWhilePursuing | roulette-logic.js:307-311 | a miss while not hit climbs to min(index + 1, last index), or to 0 when that stake equals the maximum; hit stays false |
| Progression.BuildBetMissAfterHit | roulette-logic.js:312-320 | a miss after a hit sets the entry to index 0, hit false |
| Progression.BuildBetNoRepetitionResetsTier | roulette-logic.js:290-326 | a no-repetition signal (column or tier) changes only the tier entry of its target, to index 0 and hit false, and its stake is the first of the series (1 for a maximum of at least 1) |
| Progression.BuildBetGuardsMaxStake | roulette-logic.js:328-335 | afterwards the entry's index is 0 or points at a stake other than the maximum |
| Progression.BuildBetIndexInRange | roulette-logic.js:309-345 | with a maximum of at least 1, a last draw and a non-negative index, the index lands in [0, series length - 1] and the stake is that series value, at most the maximum, and one of the default series |
| Progression.BuildBetStoredIndexBounded | roulette-logic.js:294-335 | with a maximum of at least 1, the written entry stays within the default series, with or without a last draw |
| Progression.BuildBetKeepsIndicesBounded | roulette-logic.js:12-15 | with a maximum of at least 1, every index of both tables stays within the unfiltered default series (13 stakes) after a call, whatever maximum earlier calls used |
| Progression.BuildBetKeepsInSeries | roulette-logic.js:294-335 | for a fixed maximum of at least 1, a call keeps every index of both tables inside the filtered series, [0, length - 1] |
| Progression.MaxChangeLeavesIndexPastSeries | roulette-logic.js:309-326 | when the maximum changes between calls, an entry the call does not touch keeps its index: a column index of 6, inside the 7 stakes of a maximum of 8, stays 6 past the 3 stakes of a maximum of 1 |
| Progression.BuildBetStaysBelowMax | roulette-logic.js:329-345 | with a maximum of at least 2, the recommended stake is strictly below the maximum |
| Progression.BuildBetEmptySeries | roulette-logic.js:309 | below a maximum of 1 the series is empty: a miss while pursuing stores index -1 and the stake is undefined |
| Engine.SelectAxisSignal | roulette-logic.js:394-408 | the per-axis selection loop builds the absence signal of the first strongest count |
| Engine.DetectSignals | roulette-logic.js:383-460 | the detection half of the analysis yields the four signals |
| Engine.AxisSignalChoosesStrongest | roulette-logic.js:410-424 | the absence signal of an axis is absent exactly when every count is below 5; otherwise it carries a count of at least 5 that no count exceeds, and lower targets have smaller counts |
| Engine.AnalyzeRejectsShortOrInvalid | roulette-logic.js:354-381 | an empty history, an out-of-range number, or fewer than 5 draws give "AUCUN" four times and leave the tables unchanged |
| Engine.AnalyzeKeepsIndicesBounded | roulette-logic.js:467-483 | with a maximum of at least 1, an analysis keeps every index of both tables within the unfiltered default series (13 stakes), even when the maximum changes between analyses |
| Engine.AnalyzeKeepsInSeries | roulette-logic.js:467-483 | for a fixed maximum of at least 1, an analysis keeps every index of both tables inside the filtered series, so every sequence of analyses with that maximum does |
| Engine.InitialTableInSeries | roulette-logic.js:12-15 | the initial tables lie inside the filtered series of every maximum of at least 1 |
| Engine.AnalyzeStakesWithinMax | roulette-logic.js:467-490 | with a maximum of at least 1 and bounded tables, each of the four recommendations is "AUCUN" or a stake of the series at most the maximum |
| Engine.AnalyzeColumnAbsence | roulette-logic.js:394-408 | the column absence bet is "AUCUN" exactly when every column count is below 5; otherwise it targets the strongest column, lowest of equals, with its count |
| Engine.AnalyzeTierAbsence | roulette-logic.js:410-424 | the tier absence bet is "AUCUN" exactly when every tier count is below 5; otherwise it targets the strongest tier, lowest of equals, with its count |
| Engine.AnalyzeNoRepetitionColumn | roulette-logic.js:430-444 | the no-repetition column bet exists exactly when the column flag is up and the last draw has a column; it targets that column, stakes 1, and leaves tier entry of that target at index 0, hit false |
| Engine.AnalyzeNoRepetitionTier | roulette-logic.js:446-460 | the no-repetition tier bet exists exactly when the tier flag is up and the last draw has a tier; it targets that tier, stakes 1, and leaves that tier entry at index 0, hit false |
| Engine.RouletteEngine.constructor | roulette-logic.js:12-21 | the tables start at index 0 and not hit for every axis and target |
| Engine.RouletteEngine.BuildBetResult | roulette-logic.js:276-347 | the in-place update of the two arrays and the result are exactly those of `BuildBet` on the old tables |
| Engine.RouletteEngine.AnalyzeRouletteHistory | roulette-logic.js:372-491 | the four results and the new arrays are exactly those of `Analyze` on the old tables |

## Left out

- Logging: the `console.log` calls and `logClassifications` only print.
- The display constants `COLUMN_NUMBERS` and `TIER_NUMBERS` are not used
  by the engine. They repeat the classifier's lists.
- `validateNumbers` coerces with `parseInt` and `isNaN`. Here the input is
  a sequence of integers. Validation is "non-empty and every element in
  0..36" (`Engine.ValidNumbers`).
- `detectNoRepetition` with `minLength` 0 is not modelled. The code then
  reads a field of `classifications[-1]`, which is undefined, and throws.
  The methods require `minLength >= 1`; the analysis always passes 5.
- `detectNoRepetition` first builds an array of classifications. The model
  classifies each draw when it is needed, which gives the same values.
- JavaScript's loose result objects become datatypes. The "AUCUN" objects
  (target "-", absence 0, empty series, stake 0) are `NoSignal`. A missing
  `absence` field on a no-repetition signal is `None`. An undefined stake
  (an index outside the series) is `None`.
- Default parameters (`maxBet = 8`, `lastNumbers = []`, `minLength = 5`,
  `minAbsence = 5`) are explicit arguments.
- app.js is not part of this model. It holds the page, the random history,
  the 30-entry history cap and the select that supplies the maximum stake.
  test-no-repetition.js is not part of this model either: it imports a
  `calculateNoRepetitionCounts` that `roulette-logic.js` does not define.
- There is no reset operation. The code has none: the tables start at
  their module-level values, which the constructor models, and are never
  cleared.
- Aliasing and concurrency: the history is a value, so the caller's list
  cannot change. The engine is single-threaded, and calls are modelled one
  after another.
