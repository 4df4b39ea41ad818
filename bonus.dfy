/** Royalty bonuses: table lookups for the back and mid rows, a formula for
    the front row. */
module Bonus {
  import opened Wrappers
  import opened Cards
  import opened Hands

  /** Scoring rules. An absent table (or an absent front flag) means no bonus
      for that row; an absent scoop means the default of 3. */
  datatype Rules = Rules(back: Option<seq<int>>, mid: Option<seq<int>>, front: bool, scoop: Option<int>)

  const StraightFlush := 9
  const RoyalRank := 10

  /** Slot k of a table, or 0 where the library reads `undefined || 0`. */
  function Slot(table: seq<int>, k: int): (r: int)
    ensures 0 <= k < |table| ==> r == table[k]
    ensures !(0 <= k < |table|) ==> r == 0
  {
    if 0 <= k < |table| then table[k] else 0
  }

  /** The six-slot table: straight .. straight flush use slots 0..4 by
      category, a royal flush (straight flush ranked 10) the last slot. */
  function TableBonus(table: seq<int>, e: HandEval): (r: int)
    requires |table| == 6
    ensures e.handType == StraightFlush && e.handRank == RoyalRank ==> r == table[5]
    ensures !(e.handType == StraightFlush && e.handRank == RoyalRank) && 5 <= e.handType <= 10 ==>
      r == table[e.handType - 5]
    ensures e.handType < 5 || e.handType > 10 ==> r == 0
    ensures r == 0 || r in table
  {
    if e.handType == StraightFlush && e.handRank == RoyalRank then table[e.handType - 4]
    else Slot(table, e.handType - 5)
  }

  function BackTable(rules: Option<Rules>): Option<seq<int>> {
    if rules.Some? then rules.value.back else None
  }

  function MidTable(rules: Option<Rules>): Option<seq<int>> {
    if rules.Some? then rules.value.mid else None
  }

  /** Shared shape of getBackBonus and getMidBonus: no table, no bonus; a
      table must have six slots (checked before the row is evaluated). */
  function RowBonus(table: Option<seq<int>>, shapeError: Error, eval: Result<HandEval, Error>): (r: Result<int, Error>)
    ensures table.None? ==> r == Success(0)
    ensures table.Some? && |table.value| != 6 ==> r == Failure(shapeError)
    ensures table.Some? && |table.value| == 6 && eval.Failure? ==> r == Failure(eval.error)
    ensures table.Some? && |table.value| == 6 && eval.Success? ==> r == Success(TableBonus(table.value, eval.value))
  {
    if table.None? then Success(0)
    else if |table.value| != 6 then Failure(shapeError)
    else
      var e :- eval;
      Success(TableBonus(table.value, e))
  }

  /** getBackBonus. */
  function BackBonus(o: Oracle, row: seq<int>, rules: Option<Rules>): (r: Result<int, Error>)
    ensures BackTable(rules).None? ==> r == Success(0)
    ensures BackTable(rules).Some? && |BackTable(rules).value| != 6 ==> r == Failure(BadBackRules)
    ensures BackTable(rules).Some? && |BackTable(rules).value| == 6 ==>
      (r.Success? <==> EvalBack(o, row).Success?) &&
      (r.Success? ==> r.value == TableBonus(BackTable(rules).value, EvalBack(o, row).value))
    ensures BackTable(rules).Some? && |BackTable(rules).value| == 6 && EvalBack(o, row).Failure? ==>
      r == Failure(EvalBack(o, row).error)
  {
    RowBonus(BackTable(rules), BadBackRules, EvalBack(o, row))
  }

  /** getMidBonus. */
  function MidBonus(o: Oracle, row: seq<int>, rules: Option<Rules>): (r: Result<int, Error>)
    ensures MidTable(rules).None? ==> r == Success(0)
    ensures MidTable(rules).Some? && |MidTable(rules).value| != 6 ==> r == Failure(BadMidRules)
    ensures MidTable(rules).Some? && |MidTable(rules).value| == 6 ==>
      (r.Success? <==> EvalMid(o, row).Success?) &&
      (r.Success? ==> r.value == TableBonus(MidTable(rules).value, EvalMid(o, row).value))
    ensures MidTable(rules).Some? && |MidTable(rules).value| == 6 && EvalMid(o, row).Failure? ==>
      r == Failure(EvalMid(o, row).error)
  {
    RowBonus(MidTable(rules), BadMidRules, EvalMid(o, row))
  }

  /** Every present table has only non-negative slots. */
  predicate NonNegativeTables(rules: Option<Rules>) {
    && (BackTable(rules).Some? ==> forall k :: 0 <= k < |BackTable(rules).value| ==> BackTable(rules).value[k] >= 0)
    && (MidTable(rules).Some? ==> forall k :: 0 <= k < |MidTable(rules).value| ==> MidTable(rules).value[k] >= 0)
  }

  /** With non-negative tables, back and mid bonuses are never negative. */
  lemma TableBonusesNonNegative(o: Oracle, row: seq<int>, rules: Option<Rules>)
    requires NonNegativeTables(rules)
    ensures BackBonus(o, row, rules).Success? ==> BackBonus(o, row, rules).value >= 0
    ensures MidBonus(o, row, rules).Success? ==> MidBonus(o, row, rules).value >= 0
  {
  }

  function Max0(x: int): int {
    if x > 0 then x else 0
  }

  /** getFrontBonus: trips score 9 + rank, a pair scores its rank above 4,
      a high card nothing. The library does not check the row length here;
      its callers pass evaluated three-card rows. */
  function FrontBonus(row: seq<int>, rules: Option<Rules>): (r: int)
    requires |row| >= 3
    ensures rules.None? || !rules.value.front ==> r == 0
  {
    if rules.None? || !rules.value.front then 0
    else FrontScore(SortAsc(Ranks(row)))
  }

  /** The front formula on ascending ranks [r0, r1, r2]. */
  function FrontScore(s: seq<int>): int
    requires |s| >= 3
  {
    if s[0] == s[2] then 9 + s[0]
    else if s[0] == s[1] || s[1] == s[2] then Max0(s[1] - 4)
    else 0
  }

  lemma FrontBonusSorted(row: seq<int>, rules: Option<Rules>)
    requires |row| >= 3 && rules.Some? && rules.value.front
    ensures FrontBonus(row, rules) == FrontScore(SortAsc(Ranks(row)))
  {
  }

  /** The formula against the classification of the same ascending ranks:
      trips score 9 + the trip rank, a pair its middle rank above 4,
      a high card nothing. */
  lemma FrontScoreByClass(s: seq<int>)
    requires |s| == 3
    ensures ClassifyThree(s).handType == ThreeOfAKind ==> FrontScore(s) == 9 + ClassifyThree(s).handRank
    ensures ClassifyThree(s).handType == OnePair ==> FrontScore(s) == Max0(s[1] - 4)
    ensures ClassifyThree(s).handType == HighCard ==> FrontScore(s) == 0
  {
  }

  /** The front bonus read on the ranks as dealt. */
  lemma FrontBonusByRanks(row: seq<int>, rules: Option<Rules>)
    requires |row| == 3 && rules.Some? && rules.value.front
    ensures var a, b, c := Rank(row[0]), Rank(row[1]), Rank(row[2]);
      && (a == b && b == c ==> FrontBonus(row, rules) == 9 + a)
      && (a == b && b != c ==> FrontBonus(row, rules) == Max0(a - 4))
      && (a == c && b != c ==> FrontBonus(row, rules) == Max0(a - 4))
      && (b == c && a != b ==> FrontBonus(row, rules) == Max0(b - 4))
      && (a != b && b != c && a != c ==> FrontBonus(row, rules) == 0)
  {
    var a, b, c := Rank(row[0]), Rank(row[1]), Rank(row[2]);
    assert Ranks(row) == [a, b, c];
    assert multiset(Ranks(row)) == multiset{a, b, c};
    SortedThree(SortAsc(Ranks(row)), a, b, c);
    ScoreRanks(a, b, c);
  }

  lemma ScoreRanks(a: int, b: int, c: int)
    ensures var t := FrontScore([Min3(a, b, c), Mid3(a, b, c), Max3(a, b, c)]);
      && (a == b && b == c ==> t == 9 + a)
      && (a == b && b != c ==> t == Max0(a - 4))
      && (a == c && b != c ==> t == Max0(a - 4))
      && (b == c && a != b ==> t == Max0(b - 4))
      && (a != b && b != c && a != c ==> t == 0)
  {
  }

  /** The front bonus agrees with the front evaluator's category: trips earn
      9 + trip rank, a pair its pair rank above 4, high cards nothing. */
  lemma FrontBonusByCategory(row: seq<int>, rules: Option<Rules>)
    requires |row| == 3 && rules.Some? && rules.value.front
    ensures EvalFront(row).value.handType == ThreeOfAKind ==> FrontBonus(row, rules) == 9 + EvalFront(row).value.handRank
    ensures EvalFront(row).value.handType == OnePair ==> FrontBonus(row, rules) == Max0(SortAsc(Ranks(row))[1] - 4)
    ensures EvalFront(row).value.handType == HighCard ==> FrontBonus(row, rules) == 0
  {
    EvalFrontSorted(row);
    FrontBonusSorted(row, rules);
    FrontScoreByClass(SortAsc(Ranks(row)));
  }

  predicate ValidCards(row: seq<int>) {
    forall i :: 0 <= i < |row| ==> 1 <= row[i] <= 52
  }

  /** For real cards the front bonus is never negative, trips score at least
      10 (deuces) and at most 22 (aces), and a pair scores at most 9. */
  lemma FrontBonusRange(row: seq<int>, rules: Option<Rules>)
    requires |row| == 3 && ValidCards(row)
    ensures 0 <= FrontBonus(row, rules) <= 22
    ensures rules.Some? && rules.value.front && EvalFront(row).value.handType == ThreeOfAKind ==>
      FrontBonus(row, rules) >= 10
    ensures EvalFront(row).value.handType != ThreeOfAKind ==> FrontBonus(row, rules) <= 9
  {
    var a, b, c := Rank(row[0]), Rank(row[1]), Rank(row[2]);
    assert Ranks(row) == [a, b, c];
    var s := SortAsc(Ranks(row));
    SortedThree(s, a, b, c);
    EvalFrontSorted(row);
    FrontScoreRange(s);
    if rules.Some? && rules.value.front {
      FrontBonusSorted(row, rules);
    }
  }

  /** For real cards the front bonus is never negative. */
  lemma FrontBonusNonNegative(row: seq<int>, rules: Option<Rules>)
    requires |row| == 3 && ValidCards(row)
    ensures FrontBonus(row, rules) >= 0
  {
    FrontBonusRange(row, rules);
  }

  /** FrontBonusRange on three ranks of real cards. */
  lemma FrontScoreRange(s: seq<int>)
    requires |s| == 3 && 1 <= s[0] <= 13 && 1 <= s[1] <= 13 && 1 <= s[2] <= 13
    ensures 0 <= FrontScore(s) <= 22
    ensures ClassifyThree(s).handType == ThreeOfAKind ==> FrontScore(s) >= 10
    ensures ClassifyThree(s).handType != ThreeOfAKind ==> FrontScore(s) <= 9
  {
  }
}
