/** Settlement of one hand between two players: foul checks, row
    comparisons, royalty bonuses and the scoop, as one signed score
    (positive favours player 1). */
module Settlement {
  import opened Wrappers
  import opened Cards
  import opened Hands
  import opened Foul
  import opened Compare
  import opened Bonus

  /** One player's three rows. */
  datatype Arrangement = Arrangement(back: seq<int>, mid: seq<int>, front: seq<int>)

  /** The scoop: rules.scoop when given, else 3. */
  function ScoopValue(rules: Option<Rules>): (s: int)
    ensures rules.Some? && rules.value.scoop.Some? ==> s == rules.value.scoop.value
    ensures rules.None? || rules.value.scoop.None? ==> s == 3
  {
    if rules.Some? && rules.value.scoop.Some? then rules.value.scoop.value else 3
  }

  function Fouled(o: Oracle, p: Arrangement): (r: Result<bool, Error>)
    ensures r.Success? ==> |p.back| == 5 && |p.mid| == 5 && |p.front| == 3
    ensures r.Success? ==> EvalBack(o, p.back).Success? && EvalMid(o, p.mid).Success?
  {
    FoulVerdict(o, p.back, p.mid, p.front)
  }

  /** A player's three bonuses, back first, then mid, then front. */
  function BonusSum(o: Oracle, p: Arrangement, rules: Option<Rules>): (r: Result<int, Error>)
    requires |p.front| >= 3
    ensures r.Success? <==> BackBonus(o, p.back, rules).Success? && MidBonus(o, p.mid, rules).Success?
    ensures r.Success? ==>
      r.value == BackBonus(o, p.back, rules).value + MidBonus(o, p.mid, rules).value + FrontBonus(p.front, rules)
  {
    var b :- BackBonus(o, p.back, rules);
    var m :- MidBonus(o, p.mid, rules);
    Success(b + m + FrontBonus(p.front, rules))
  }

  /** One row's points as the library computes them: the comparison, plus
      player 1's bonus if the row is then positive, minus player 2's bonus
      if it is then negative (two tests in a row, not an if/else). */
  function RowPoints(cmp: int, bonus1: Result<int, Error>, bonus2: Result<int, Error>): Result<int, Error>
  {
    var won :- (if cmp > 0 then (var b :- bonus1; Success(cmp + b)) else Success(cmp));
    if won < 0 then (var b :- bonus2; Success(won - b)) else Success(won)
  }

  /** The scoop goes to the side whose three row totals are all positive
      (player 1) or all negative (player 2). */
  function Sweep(back: int, mid: int, front: int, scoop: int): int
  {
    if back > 0 && mid > 0 && front > 0 then scoop
    else if back < 0 && mid < 0 && front < 0 then -scoop
    else 0
  }

  /** The neither-fouled case after the three comparisons. */
  function RowsScore(cb: int, cm: int, cf: int,
                     back1: Result<int, Error>, back2: Result<int, Error>,
                     mid1: Result<int, Error>, mid2: Result<int, Error>,
                     front1: int, front2: int, scoop: int): Result<int, Error>
  {
    var back :- RowPoints(cb, back1, back2);
    var mid :- RowPoints(cm, mid1, mid2);
    var front :- RowPoints(cf, Success(front1), Success(front2));
    Success(back + mid + front + Sweep(back, mid, front, scoop))
  }

  /** The signed score of player 1 against player 2. */
  function SettleScore(o: Oracle, p1: Arrangement, p2: Arrangement, rules: Option<Rules>): (r: Result<int, Error>)
    ensures r.Success? ==> Fouled(o, p1).Success? && Fouled(o, p2).Success?
  {
    var foul1 :- Fouled(o, p1);
    var foul2 :- Fouled(o, p2);
    ScoreAfterFouls(o, p1, p2, rules, foul1, foul2)
  }

  /** The score once both foul checks have come back. */
  function ScoreAfterFouls(o: Oracle, p1: Arrangement, p2: Arrangement, rules: Option<Rules>,
                           foul1: bool, foul2: bool): Result<int, Error>
    requires |p1.front| >= 3 && |p2.front| >= 3
  {
    var scoop := ScoopValue(rules);
    if foul1 && foul2 then Success(0)
    else if !foul1 && foul2 then FoulWin(o, p1, rules, scoop)
    else if foul1 && !foul2 then
      var w :- FoulWin(o, p2, rules, scoop);
      Success(-w)
    else UnfouledScore(o, p1, p2, rules)
  }

  /** What the clean player wins from a fouled opponent: one point and the
      bonus for each row, plus the scoop. */
  function FoulWin(o: Oracle, p: Arrangement, rules: Option<Rules>, scoop: int): (r: Result<int, Error>)
    requires |p.front| >= 3
    ensures r.Success? <==> BonusSum(o, p, rules).Success?
    ensures r.Success? ==> r.value == 3 + BonusSum(o, p, rules).value + scoop
  {
    var t :- BonusSum(o, p, rules);
    Success(3 + t + scoop)
  }

  /** The score when neither player has fouled: compare the rows, then add
      bonuses and the scoop. */
  function UnfouledScore(o: Oracle, p1: Arrangement, p2: Arrangement, rules: Option<Rules>): Result<int, Error>
    requires |p1.front| >= 3 && |p2.front| >= 3
  {
    var cb :- SettleBack(o, p1.back, p2.back);
    var cm :- SettleMid(o, p1.mid, p2.mid);
    var cf :- SettleFront(p1.front, p2.front);
    RowsScore(cb, cm, cf,
              BackBonus(o, p1.back, rules), BackBonus(o, p2.back, rules),
              MidBonus(o, p1.mid, rules), MidBonus(o, p2.mid, rules),
              FrontBonus(p1.front, rules), FrontBonus(p2.front, rules), ScoopValue(rules))
  }

  /** The library's settle: both fouled scores nothing, one foul pays the
      clean player, otherwise the rows are compared and the bonuses added. */
  method Settle(o: Oracle, p1: Arrangement, p2: Arrangement, rules: Option<Rules>) returns (r: Result<int, Error>)
    ensures r == SettleScore(o, p1, p2, rules)
  {
    var foul1 :- IsFoul(o, p1.back, p1.mid, p1.front);
    var foul2 :- IsFoul(o, p2.back, p2.mid, p2.front);
    r := SettleAfterFouls(o, p1, p2, rules, foul1, foul2);
  }

  /** Settle's branches on the two foul verdicts. */
  method SettleAfterFouls(o: Oracle, p1: Arrangement, p2: Arrangement, rules: Option<Rules>,
                          foul1: bool, foul2: bool) returns (r: Result<int, Error>)
    requires |p1.front| >= 3 && |p2.front| >= 3
    ensures r == ScoreAfterFouls(o, p1, p2, rules, foul1, foul2)
  {
    var scoop := ScoopValue(rules);
    if foul1 && foul2 {
      return Success(0);
    }
    if !foul1 && foul2 {
      r := WinByFoul(o, p1, rules, scoop);
    } else if foul1 && !foul2 {
      var w :- WinByFoul(o, p2, rules, scoop);
      r := Success(-w);
    } else {
      r := SettleUnfouled(o, p1, p2, rules);
    }
  }

  /** The one-foul branch of settle for the clean player p: each row is
      one point plus its bonus, and the scoop is added on top. */
  method WinByFoul(o: Oracle, p: Arrangement, rules: Option<Rules>, scoop: int) returns (r: Result<int, Error>)
    requires |p.front| >= 3
    ensures r == FoulWin(o, p, rules, scoop)
  {
    var b :- BackBonus(o, p.back, rules);
    var back := 1 + b;
    var m :- MidBonus(o, p.mid, rules);
    var mid := 1 + m;
    var front := 1 + FrontBonus(p.front, rules);
    return Success(back + mid + front + scoop);
  }

  /** The neither-fouled branch of settle: the three comparisons, each of
      which may fail on a malformed row. */
  method SettleUnfouled(o: Oracle, p1: Arrangement, p2: Arrangement, rules: Option<Rules>) returns (r: Result<int, Error>)
    requires |p1.front| >= 3 && |p2.front| >= 3
    ensures r == UnfouledScore(o, p1, p2, rules)
  {
    var cb :- SettleBack(o, p1.back, p2.back);
    var cm :- SettleMid(o, p1.mid, p2.mid);
    var cf :- SettleFront(p1.front, p2.front);
    r := ScoreRows(cb, cm, cf,
                   BackBonus(o, p1.back, rules), BackBonus(o, p2.back, rules),
                   MidBonus(o, p1.mid, rules), MidBonus(o, p2.mid, rules),
                   FrontBonus(p1.front, rules), FrontBonus(p2.front, rules), ScoopValue(rules));
  }

  /** The rest of the neither-fouled branch, from the three comparisons:
      each row collects its bonus, and a clean sweep collects the scoop. */
  method ScoreRows(cb: int, cm: int, cf: int,
                   back1: Result<int, Error>, back2: Result<int, Error>,
                   mid1: Result<int, Error>, mid2: Result<int, Error>,
                   front1: int, front2: int, scoop: int) returns (r: Result<int, Error>)
    ensures r == RowsScore(cb, cm, cf, back1, back2, mid1, mid2, front1, front2, scoop)
  {
    var bonus := 0;
    var back :- AddRowBonus(cb, back1, back2);
    var mid :- AddRowBonus(cm, mid1, mid2);
    var front :- AddRowBonus(cf, Success(front1), Success(front2));
    if back > 0 && mid > 0 && front > 0 {
      bonus := bonus + scoop;
    }
    if back < 0 && mid < 0 && front < 0 {
      bonus := bonus - scoop;
    }
    return Success(back + mid + front + bonus);
  }

  /** One row's bonus step: `if (row > 0) row += bonus1; if (row < 0) row -= bonus2`.
      A bonus is only looked at (and its error only raised) when its test passes. */
  method AddRowBonus(cmp: int, bonus1: Result<int, Error>, bonus2: Result<int, Error>) returns (r: Result<int, Error>)
    ensures r == RowPoints(cmp, bonus1, bonus2)
  {
    var row := cmp;
    if row > 0 {
      var b :- bonus1;
      row := row + b;
    }
    if row < 0 {
      var b :- bonus2;
      row := row - b;
    }
    return Success(row);
  }

  // ---------------------------------------------------------------------
  // Properties of the score
  // ---------------------------------------------------------------------

  /** A bonus that is missing (an error) or not negative. */
  predicate NonNegative(b: Result<int, Error>) {
    b.Success? ==> b.value >= 0
  }

  /** The score a row is meant to contribute: the winner of the row gets one
      point and its own bonus, a tied row nothing. */
  function IntendedRow(cmp: int, bonus1: int, bonus2: int): (r: int)
    requires cmp in {-1, 0, 1}
    ensures cmp == 0 ==> r == 0
    ensures bonus1 >= 0 && bonus2 >= 0 ==> (r > 0 <==> cmp == 1) && (r < 0 <==> cmp == -1)
  {
    if cmp == 1 then 1 + bonus1 else if cmp == -1 then -1 - bonus2 else 0
  }

  /** The score two clean hands are meant to produce: the intended row
      scores, and the scoop for whoever wins all three rows. */
  function IntendedScore(cb: int, cm: int, cf: int, back1: int, back2: int,
                         mid1: int, mid2: int, front1: int, front2: int, scoop: int): int
    requires cb in {-1, 0, 1} && cm in {-1, 0, 1} && cf in {-1, 0, 1}
  {
    IntendedRow(cb, back1, back2) + IntendedRow(cm, mid1, mid2) + IntendedRow(cf, front1, front2) +
    (if cb == 1 && cm == 1 && cf == 1 then scoop
     else if cb == -1 && cm == -1 && cf == -1 then -scoop
     else 0)
  }

  /** With bonuses that are not negative, the library's two tests in a row
      give the intended row score: only the winner's bonus is consulted, and
      the row keeps the sign of the comparison. */
  lemma RowPointsIntended(cmp: int, bonus1: Result<int, Error>, bonus2: Result<int, Error>)
    requires cmp in {-1, 0, 1} && NonNegative(bonus1) && NonNegative(bonus2)
    ensures cmp == 0 ==> RowPoints(cmp, bonus1, bonus2) == Success(0)
    ensures cmp == 1 ==> (RowPoints(cmp, bonus1, bonus2).Success? <==> bonus1.Success?)
    ensures cmp == -1 ==> (RowPoints(cmp, bonus1, bonus2).Success? <==> bonus2.Success?)
    ensures bonus1.Success? && bonus2.Success? ==>
      RowPoints(cmp, bonus1, bonus2) == Success(IntendedRow(cmp, bonus1.value, bonus2.value))
  {
    if cmp == 1 && bonus1.Success? {
      assert RowPoints(cmp, bonus1, bonus2) == Success(1 + bonus1.value);
    }
  }

  /** Swapping the players negates the row score and keeps it defined
      exactly when it was. */
  lemma RowPointsSwap(cmp: int, bonus1: Result<int, Error>, bonus2: Result<int, Error>)
    requires NonNegative(bonus1) && NonNegative(bonus2)
    ensures RowPoints(-cmp, bonus2, bonus1).Success? == RowPoints(cmp, bonus1, bonus2).Success?
    ensures RowPoints(cmp, bonus1, bonus2).Success? ==>
      RowPoints(-cmp, bonus2, bonus1).value == -RowPoints(cmp, bonus1, bonus2).value
    ensures RowPoints(cmp, bonus1, bonus2).Success? ==>
      (RowPoints(cmp, bonus1, bonus2).value > 0 <==> cmp > 0) &&
      (RowPoints(cmp, bonus1, bonus2).value < 0 <==> cmp < 0)
  {
    if cmp > 0 && bonus1.Success? {
      assert RowPoints(cmp, bonus1, bonus2) == Success(cmp + bonus1.value);
      assert RowPoints(-cmp, bonus2, bonus1) == Success(-cmp - bonus1.value);
    } else if cmp < 0 && bonus2.Success? {
      assert RowPoints(cmp, bonus1, bonus2) == Success(cmp - bonus2.value);
      assert RowPoints(-cmp, bonus2, bonus1) == Success(-cmp + bonus2.value);
    }
  }

  /** The sweep is antisymmetric. */
  lemma SweepSwap(back: int, mid: int, front: int, scoop: int)
    ensures Sweep(-back, -mid, -front, scoop) == -Sweep(back, mid, front, scoop)
  {
  }

  /** With a negative table entry the row points are not antisymmetric:
      player 1 wins a row by 1 with a bonus of -3, so the row is now lost
      and player 2's bonus of 5 is subtracted too (-7); swapped, the same
      row scores 2, not 7. */
  lemma NegativeBonusNotZeroSum()
    ensures RowPoints(1, Success(-3), Success(5)) == Success(-7)
    ensures RowPoints(-1, Success(5), Success(-3)) == Success(2)
    ensures RowPoints(-1, Success(5), Success(-3)).value != -RowPoints(1, Success(-3), Success(5)).value
  {
  }

  /** Swapping the players in the neither-fouled case negates the score and
      keeps it defined exactly when it was. */
  lemma RowsScoreSwap(cb: int, cm: int, cf: int,
                      back1: Result<int, Error>, back2: Result<int, Error>,
                      mid1: Result<int, Error>, mid2: Result<int, Error>,
                      front1: int, front2: int, scoop: int)
    requires NonNegative(back1) && NonNegative(back2) && NonNegative(mid1) && NonNegative(mid2)
    requires front1 >= 0 && front2 >= 0
    ensures RowsScore(-cb, -cm, -cf, back2, back1, mid2, mid1, front2, front1, scoop).Success? ==
            RowsScore(cb, cm, cf, back1, back2, mid1, mid2, front1, front2, scoop).Success?
    ensures RowsScore(cb, cm, cf, back1, back2, mid1, mid2, front1, front2, scoop).Success? ==>
            RowsScore(-cb, -cm, -cf, back2, back1, mid2, mid1, front2, front1, scoop).value ==
            -RowsScore(cb, cm, cf, back1, back2, mid1, mid2, front1, front2, scoop).value
  {
    RowPointsSwap(cb, back1, back2);
    RowPointsSwap(cm, mid1, mid2);
    RowPointsSwap(cf, Success(front1), Success(front2));
    var b, m, f := RowPoints(cb, back1, back2), RowPoints(cm, mid1, mid2), RowPoints(cf, Success(front1), Success(front2));
    RowsScoreOfRows(cb, cm, cf, back1, back2, mid1, mid2, front1, front2, scoop);
    RowsScoreOfRows(-cb, -cm, -cf, back2, back1, mid2, mid1, front2, front1, scoop);
    if b.Success? && m.Success? && f.Success? {
      SweepSwap(b.value, m.value, f.value, scoop);
    }
  }

  /** The neither-fouled score is defined exactly when all three row scores
      are, and is then their sum and the sweep. */
  lemma RowsScoreOfRows(cb: int, cm: int, cf: int,
                        back1: Result<int, Error>, back2: Result<int, Error>,
                        mid1: Result<int, Error>, mid2: Result<int, Error>,
                        front1: int, front2: int, scoop: int)
    ensures var b, m, f := RowPoints(cb, back1, back2), RowPoints(cm, mid1, mid2), RowPoints(cf, Success(front1), Success(front2));
      && (RowsScore(cb, cm, cf, back1, back2, mid1, mid2, front1, front2, scoop).Success? <==> b.Success? && m.Success? && f.Success?)
      && (b.Success? && m.Success? && f.Success? ==>
            RowsScore(cb, cm, cf, back1, back2, mid1, mid2, front1, front2, scoop).value ==
            b.value + m.value + f.value + Sweep(b.value, m.value, f.value, scoop))
  {
  }

  /** With bonuses that are not negative, the neither-fouled score is the sum
      of the intended row scores, and the scoop goes to player 1 exactly when
      it wins all three rows and to player 2 exactly when it does. */
  lemma RowsScoreIntended(cb: int, cm: int, cf: int,
                          back1: int, back2: int, mid1: int, mid2: int,
                          front1: int, front2: int, scoop: int)
    requires cb in {-1, 0, 1} && cm in {-1, 0, 1} && cf in {-1, 0, 1}
    requires back1 >= 0 && back2 >= 0 && mid1 >= 0 && mid2 >= 0 && front1 >= 0 && front2 >= 0
    ensures RowsScore(cb, cm, cf, Success(back1), Success(back2), Success(mid1), Success(mid2), front1, front2, scoop) ==
      Success(IntendedScore(cb, cm, cf, back1, back2, mid1, mid2, front1, front2, scoop))
  {
    RowPointsIntended(cb, Success(back1), Success(back2));
    RowPointsIntended(cm, Success(mid1), Success(mid2));
    RowPointsIntended(cf, Success(front1), Success(front2));
  }

  /** Player-level bonuses are not negative for non-negative tables and a
      front row of real cards. */
  lemma BonusesNonNegative(o: Oracle, p: Arrangement, rules: Option<Rules>)
    requires NonNegativeTables(rules) && |p.front| == 3 && ValidCards(p.front)
    ensures NonNegative(BackBonus(o, p.back, rules)) && NonNegative(MidBonus(o, p.mid, rules))
    ensures FrontBonus(p.front, rules) >= 0
    ensures NonNegative(BonusSum(o, p, rules))
  {
    TableBonusesNonNegative(o, p.back, rules);
    TableBonusesNonNegative(o, p.mid, rules);
    FrontBonusNonNegative(p.front, rules);
  }

  /** Against a fouled opponent the clean player wins at least three points
      and the scoop. */
  lemma FoulWinBound(o: Oracle, p: Arrangement, rules: Option<Rules>, scoop: int)
    requires NonNegativeTables(rules) && |p.front| == 3 && ValidCards(p.front)
    ensures FoulWin(o, p, rules, scoop).Success? ==> FoulWin(o, p, rules, scoop).value >= 3 + scoop
  {
    BonusesNonNegative(o, p, rules);
  }

  /** Fouls decide the score on their own: both fouled is a draw whatever
      the rules, one foul pays the clean player three points, its bonuses
      and the scoop. An error while looking for fouls is the result. */
  lemma SettleFouls(o: Oracle, p1: Arrangement, p2: Arrangement, rules: Option<Rules>)
    ensures Fouled(o, p1).Failure? ==> SettleScore(o, p1, p2, rules) == Failure(Fouled(o, p1).error)
    ensures Fouled(o, p1).Success? && Fouled(o, p2).Failure? ==>
      SettleScore(o, p1, p2, rules) == Failure(Fouled(o, p2).error)
    ensures Fouled(o, p1) == Success(true) && Fouled(o, p2) == Success(true) ==>
      SettleScore(o, p1, p2, rules) == Success(0)
    ensures Fouled(o, p1) == Success(false) && Fouled(o, p2) == Success(true) ==>
      (SettleScore(o, p1, p2, rules).Success? <==> BonusSum(o, p1, rules).Success?) &&
      (SettleScore(o, p1, p2, rules).Success? ==>
         SettleScore(o, p1, p2, rules).value == 3 + BonusSum(o, p1, rules).value + ScoopValue(rules))
    ensures Fouled(o, p1) == Success(true) && Fouled(o, p2) == Success(false) ==>
      (SettleScore(o, p1, p2, rules).Success? <==> BonusSum(o, p2, rules).Success?) &&
      (SettleScore(o, p1, p2, rules).Success? ==>
         SettleScore(o, p1, p2, rules).value == -(3 + BonusSum(o, p2, rules).value + ScoopValue(rules)))
  {
  }

  /** Neither fouled: the three comparisons succeed, and the score is the
      rows' score from them. */
  lemma UnfouledRows(o: Oracle, p1: Arrangement, p2: Arrangement, rules: Option<Rules>)
    requires Fouled(o, p1) == Success(false) && Fouled(o, p2) == Success(false)
    ensures SettleBack(o, p1.back, p2.back).Success?
    ensures SettleMid(o, p1.mid, p2.mid).Success?
    ensures SettleFront(p1.front, p2.front).Success?
    ensures SettleScore(o, p1, p2, rules) ==
      RowsScore(SettleBack(o, p1.back, p2.back).value, SettleMid(o, p1.mid, p2.mid).value,
                SettleFront(p1.front, p2.front).value,
                BackBonus(o, p1.back, rules), BackBonus(o, p2.back, rules),
                MidBonus(o, p1.mid, rules), MidBonus(o, p2.mid, rules),
                FrontBonus(p1.front, rules), FrontBonus(p2.front, rules), ScoopValue(rules))
  {
  }

  /** Settlement is zero-sum: swapping the players negates the score, and
      it is defined exactly when the swapped one is (for non-negative bonus
      tables and front rows of real cards; see RowPoints for why). */
  lemma SettleAntisymmetric(o: Oracle, p1: Arrangement, p2: Arrangement, rules: Option<Rules>)
    requires NonNegativeTables(rules) && ValidCards(p1.front) && ValidCards(p2.front)
    ensures SettleScore(o, p2, p1, rules).Success? == SettleScore(o, p1, p2, rules).Success?
    ensures SettleScore(o, p1, p2, rules).Success? ==>
      SettleScore(o, p2, p1, rules).value == -SettleScore(o, p1, p2, rules).value
  {
    if Fouled(o, p1).Failure? || Fouled(o, p2).Failure? {
    } else if Fouled(o, p1) == Success(false) && Fouled(o, p2) == Success(false) {
      UnfouledAntisymmetric(o, p1, p2, rules);
    } else {
      FouledAntisymmetric(o, p1, p2, rules, Fouled(o, p1).value, Fouled(o, p2).value);
    }
  }

  /** The case of SettleAntisymmetric where somebody fouled. */
  lemma FouledAntisymmetric(o: Oracle, p1: Arrangement, p2: Arrangement, rules: Option<Rules>, foul1: bool, foul2: bool)
    requires |p1.front| >= 3 && |p2.front| >= 3 && (foul1 || foul2)
    ensures ScoreAfterFouls(o, p2, p1, rules, foul2, foul1).Success? == ScoreAfterFouls(o, p1, p2, rules, foul1, foul2).Success?
    ensures ScoreAfterFouls(o, p1, p2, rules, foul1, foul2).Success? ==>
      ScoreAfterFouls(o, p2, p1, rules, foul2, foul1).value == -ScoreAfterFouls(o, p1, p2, rules, foul1, foul2).value
  {
  }

  /** The neither-fouled case of SettleAntisymmetric. */
  lemma UnfouledAntisymmetric(o: Oracle, p1: Arrangement, p2: Arrangement, rules: Option<Rules>)
    requires Fouled(o, p1) == Success(false) && Fouled(o, p2) == Success(false)
    requires NonNegativeTables(rules) && ValidCards(p1.front) && ValidCards(p2.front)
    ensures SettleScore(o, p2, p1, rules).Success? == SettleScore(o, p1, p2, rules).Success?
    ensures SettleScore(o, p1, p2, rules).Success? ==>
      SettleScore(o, p2, p1, rules).value == -SettleScore(o, p1, p2, rules).value
  {
    UnfouledRows(o, p1, p2, rules);
    UnfouledRows(o, p2, p1, rules);
    SettleRowsAntisymmetric(o, p1.back, p2.back);
    SettleRowsAntisymmetric(o, p1.mid, p2.mid);
    SettleRowsAntisymmetric(o, p1.front, p2.front);
    BonusesNonNegative(o, p1, rules);
    BonusesNonNegative(o, p2, rules);
    RowsScoreSwap(SettleBack(o, p1.back, p2.back).value, SettleMid(o, p1.mid, p2.mid).value,
                  SettleFront(p1.front, p2.front).value,
                  BackBonus(o, p1.back, rules), BackBonus(o, p2.back, rules),
                  MidBonus(o, p1.mid, rules), MidBonus(o, p2.mid, rules),
                  FrontBonus(p1.front, rules), FrontBonus(p2.front, rules), ScoopValue(rules));
  }

  /** A hand settled against itself is a draw, and settling it fails
      exactly when checking it for a foul does. */
  lemma SettleSelf(o: Oracle, p: Arrangement, rules: Option<Rules>)
    ensures SettleScore(o, p, p, rules).Success? <==> Fouled(o, p).Success?
    ensures Fouled(o, p).Success? ==> SettleScore(o, p, p, rules) == Success(0)
  {
    SettleFouls(o, p, p, rules);
    if Fouled(o, p) == Success(false) {
      UnfouledRows(o, p, p, rules);
      SettleRowsReflexive(o, p.back);
      SettleRowsReflexive(o, p.mid);
      SettleRowsReflexive(o, p.front);
    }
  }

  /** With non-negative tables and real front cards, a settlement between
      two clean hands is the sum of the intended row scores, with the scoop
      going to whoever wins all three rows. */
  lemma SettleIntended(o: Oracle, p1: Arrangement, p2: Arrangement, rules: Option<Rules>)
    requires Fouled(o, p1) == Success(false) && Fouled(o, p2) == Success(false)
    requires NonNegativeTables(rules) && ValidCards(p1.front) && ValidCards(p2.front)
    requires BackBonus(o, p1.back, rules).Success? && BackBonus(o, p2.back, rules).Success?
    requires MidBonus(o, p1.mid, rules).Success? && MidBonus(o, p2.mid, rules).Success?
    ensures var cb, cm, cf := SettleBack(o, p1.back, p2.back), SettleMid(o, p1.mid, p2.mid), SettleFront(p1.front, p2.front);
      cb.Success? && cm.Success? && cf.Success? &&
      SettleScore(o, p1, p2, rules) ==
        Success(IntendedScore(cb.value, cm.value, cf.value,
                              BackBonus(o, p1.back, rules).value, BackBonus(o, p2.back, rules).value,
                              MidBonus(o, p1.mid, rules).value, MidBonus(o, p2.mid, rules).value,
                              FrontBonus(p1.front, rules), FrontBonus(p2.front, rules), ScoopValue(rules)))
  {
    UnfouledRows(o, p1, p2, rules);
    UnfouledIntended(o, p1, p2, rules);
  }

  /** SettleIntended once the rows are known to compare. */
  lemma UnfouledIntended(o: Oracle, p1: Arrangement, p2: Arrangement, rules: Option<Rules>)
    requires |p1.front| == 3 && |p2.front| == 3
    requires SettleBack(o, p1.back, p2.back).Success? && SettleMid(o, p1.mid, p2.mid).Success?
    requires NonNegativeTables(rules) && ValidCards(p1.front) && ValidCards(p2.front)
    requires BackBonus(o, p1.back, rules).Success? && BackBonus(o, p2.back, rules).Success?
    requires MidBonus(o, p1.mid, rules).Success? && MidBonus(o, p2.mid, rules).Success?
    ensures var cb, cm, cf := SettleBack(o, p1.back, p2.back), SettleMid(o, p1.mid, p2.mid), SettleFront(p1.front, p2.front);
      UnfouledScore(o, p1, p2, rules) ==
        Success(IntendedScore(cb.value, cm.value, cf.value,
                              BackBonus(o, p1.back, rules).value, BackBonus(o, p2.back, rules).value,
                              MidBonus(o, p1.mid, rules).value, MidBonus(o, p2.mid, rules).value,
                              FrontBonus(p1.front, rules), FrontBonus(p2.front, rules), ScoopValue(rules)))
  {
    var cb, cm, cf := SettleBack(o, p1.back, p2.back).value, SettleMid(o, p1.mid, p2.mid).value,
                      SettleFront(p1.front, p2.front).value;
    var b1, b2, m1, m2 := BackBonus(o, p1.back, rules), BackBonus(o, p2.back, rules),
                          MidBonus(o, p1.mid, rules), MidBonus(o, p2.mid, rules);
    var f1, f2 := FrontBonus(p1.front, rules), FrontBonus(p2.front, rules);
    assert UnfouledScore(o, p1, p2, rules) == RowsScore(cb, cm, cf, b1, b2, m1, m2, f1, f2, ScoopValue(rules));
    TableBonusesNonNegative(o, p1.back, rules);
    TableBonusesNonNegative(o, p2.back, rules);
    TableBonusesNonNegative(o, p1.mid, rules);
    TableBonusesNonNegative(o, p2.mid, rules);
    FrontBonusNonNegative(p1.front, rules);
    FrontBonusNonNegative(p2.front, rules);
    RowsScoreIntended(cb, cm, cf, b1.value, b2.value, m1.value, m2.value, f1, f2, ScoopValue(rules));
  }
}
