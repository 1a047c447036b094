/**
 * Classification of a roulette number into one of the three columns
 * (vertical lines of the layout) and one of the three tiers (blocks of
 * twelve). The source spells both out as literal membership lists; the
 * lemmas below show they agree with the closed forms
 * column = (n - 1) % 3 + 1 and tier = (n - 1) / 12 + 1.
 */
module Classifier {
  import opened Wrappers

  /** A column or tier value. */
  type Target = v: int | 1 <= v <= 3 witness 1

  /** The two classification axes. */
  datatype Axis = ColumnAxis | TierAxis

  /** `{ column, tier }`; `None` stands for the source's `null`. */
  datatype Classification = Classification(column: Option<Target>, tier: Option<Target>)
  {
    /** The classification on one axis. */
    function On(axis: Axis): Option<Target> {
      if axis == ColumnAxis then column else tier
    }
  }

  const Column1: seq<int> := [1, 4, 7, 10, 13, 16, 19, 22, 25, 28, 31, 34]
  const Column2: seq<int> := [2, 5, 8, 11, 14, 17, 20, 23, 26, 29, 32, 35]
  const Column3: seq<int> := [3, 6, 9, 12, 15, 18, 21, 24, 27, 30, 33, 36]

  const Tier1: seq<int> := [1, 2, 3, 4, 5, 6, 7, 8, 9, 10, 11, 12]
  const Tier2: seq<int> := [13, 14, 15, 16, 17, 18, 19, 20, 21, 22, 23, 24]
  const Tier3: seq<int> := [25, 26, 27, 28, 29, 30, 31, 32, 33, 34, 35, 36]

  /** Column k, as the source lists it. */
  function ColumnList(k: Target): seq<int> {
    if k == 1 then Column1 else if k == 2 then Column2 else Column3
  }

  /** Tier k, as the source lists it. */
  function TierList(k: Target): seq<int> {
    if k == 1 then Tier1 else if k == 2 then Tier2 else Tier3
  }

  /** Column list k holds exactly the numbers 1..36 congruent to k modulo 3. */
  lemma ColumnListMembers(k: Target, n: int)
    ensures n in ColumnList(k) <==> 1 <= n <= 36 && (n - 1) % 3 + 1 == k
  {
    var s := ColumnList(k);
    forall i | 0 <= i < 12 ensures s[i] == 3 * i + k {
    }
  }

  /** Tier list k holds exactly the twelve numbers 12(k-1)+1 .. 12k. */
  lemma TierListMembers(k: Target, n: int)
    ensures n in TierList(k) <==> 1 <= n <= 36 && (n - 1) / 12 + 1 == k
  {
    var s := TierList(k);
    forall i | 0 <= i < 12 ensures s[i] == 12 * (k - 1) + i + 1 {
    }
  }

  /**
   * `classifyNumber` as written: the first column list and the first tier
   * list that contain n; 0, like any integer in no list, has neither.
   */
  function ClassifyNumber(n: int): Classification {
    if n == 0 then Classification(None, None)
    else
      var column: Option<Target> :=
        if n in Column1 then Some(1)
        else if n in Column2 then Some(2)
        else if n in Column3 then Some(3)
        else None;
      var tier: Option<Target> :=
        if n in Tier1 then Some(1)
        else if n in Tier2 then Some(2)
        else if n in Tier3 then Some(3)
        else None;
      Classification(column, tier)
  }

  /**
   * The same classification in closed form. The rest of the model uses this
   * one; ClassifyNumberClosedForm proves the two equal on every integer.
   */
  function Classify(n: int): Classification {
    if 1 <= n <= 36 then Classification(Some((n - 1) % 3 + 1), Some((n - 1) / 12 + 1))
    else Classification(None, None)
  }

  /**
   * The literal lists agree with the closed form everywhere: 0 has neither a
   * column nor a tier, every n in 1..36 has one of each, and any other
   * integer classifies like 0.
   */
  lemma ClassifyNumberClosedForm(n: int)
    ensures ClassifyNumber(n) == Classify(n)
    ensures n == 0 ==> ClassifyNumber(n) == Classification(None, None)
    ensures 1 <= n <= 36 ==> ClassifyNumber(n).column.Some? && ClassifyNumber(n).tier.Some?
  {
    ColumnListMembers(1, n); ColumnListMembers(2, n); ColumnListMembers(3, n);
    TierListMembers(1, n); TierListMembers(2, n); TierListMembers(3, n);
  }

  /** The classification of draw n on one axis. */
  function AxisValue(n: int, axis: Axis): Option<Target> {
    Classify(n).On(axis)
  }

  /**
   * The three column lists partition 1..36 and so do the three tier lists:
   * every number of the wheel other than 0 is in exactly one of each, and
   * nothing else is in any.
   */
  lemma ListsPartitionWheel(n: int)
    ensures 1 <= n <= 36 <==> n in Column1 || n in Column2 || n in Column3
    ensures 1 <= n <= 36 <==> n in Tier1 || n in Tier2 || n in Tier3
    ensures !(n in Column1 && n in Column2) && !(n in Column1 && n in Column3) && !(n in Column2 && n in Column3)
    ensures !(n in Tier1 && n in Tier2) && !(n in Tier1 && n in Tier3) && !(n in Tier2 && n in Tier3)
  {
    ColumnListMembers(1, n); ColumnListMembers(2, n); ColumnListMembers(3, n);
    TierListMembers(1, n); TierListMembers(2, n); TierListMembers(3, n);
  }

  /** A number is in column list k exactly when it classifies to column k, and likewise for tiers. */
  lemma ClassifyMatchesLists(n: int, k: Target)
    ensures Classify(n).column == Some(k) <==> n in ColumnList(k)
    ensures Classify(n).tier == Some(k) <==> n in TierList(k)
  {
    ColumnListMembers(k, n);
    TierListMembers(k, n);
  }
}
