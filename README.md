# OFCP settlement, modelled in Dafny

A model of the scoring core of an Open-Face Chinese Poker settlement
library (`lib/ofcp.js`). A player's hand is three rows of integer card
codes: a five-card back row, a five-card mid row and a three-card front
row. Settlement:

1. checks each player for a foul. A hand is fouled unless the back row
   beats the mid row and the mid row is at least as strong as the front
   row;
2. compares the players' rows pairwise with a three-way comparison on
   (hand type, hand rank);
3. adds royalty bonuses from six-slot tables (back and mid) or from a
   formula on ranks (front);
4. adds the scoop when one player takes all three rows.

The result is one signed integer; a positive score favours player 1.

Modules, one per file:

- `wrappers.dfy` (`Wrappers`): `Option` and `Result`. Every `throw` of the
  library becomes a `Failure` carrying an `Error` value.
- `cards.dfy` (`Cards`): rank decoding `floor((code - 1) / 4) + 1` and the
  ascending numeric sort. The sort is specified as sorted plus a
  permutation, and `SortedUnique` shows any correct sort gives the same
  list.
- `hands.dfy` (`Hands`): the back/mid guards around the five-card
  evaluator, and the three-card front evaluator.
- `foul.dfy` (`Foul`): the foul check. `FoulVerdict` is the
  specification; `IsFoul` and `KickerWalk` are the library's
  step-by-step code, including the descending high-card loop.
- `compare.dfy` (`Compare`): the three row comparators.
- `bonus.dfy` (`Bonus`): the bonus getters.
- `settle.dfy` (`Settlement`): the settlement and its properties.
  `SettleScore` is the specification; `Settle` and the methods under it
  build the score in locals, as the library does.

The external five-card evaluator (`pe.evalHand` of the poker-evaluator
package) is a parameter `o: Oracle`. `Oracle` is a total function from a
card list to `HandEval(handType, handRank)`. Nothing is assumed about it
beyond what the code itself checks, which is only that `handType == 0`
means an invalid hand. The front evaluator uses the oracle's numbers for
high card, one pair and three of a kind (1, 2, 4), so the foul check
compares mid and front categories directly.

Two behaviours of the code, modelled as written:

- In the neither-fouled case, the per-row bonus code (`ofcp.js:327-332`)
  is two `if`s in a row, not an `if`/`else`. The scoop test
  (`ofcp.js:335-336`) looks at the row totals after the bonuses. With
  non-negative tables and real cards this is the intended scoring
  (`SettleIntended`). A negative table entry can flip a won row's sign,
  so the loser's bonus is also subtracted. Then settlement is no longer
  zero-sum (`NegativeBonusNotZeroSum`), which is why `SettleAntisymmetric`
  assumes non-negative tables.
- The final `throw` of `isFoul` (`ofcp.js:180`) cannot be reached: the
  front evaluator only returns the types 1, 2 and 4, and that code runs
  only when the mid type equals the front type. The model has no error
  for it (`KickerVerdict`, `KickerCategories`, `KickerErrors`).

## Model

| member | source | states |
|---|---|---|
| Cards.Rank | lib/ofcp.js:59-61 | the rank r of a code satisfies 4(r-1) < code <= 4r (floor division); codes 1..52 give ranks 1..13 |
| Cards.Ranks | lib/ofcp.js:59-61 | the rank list has the row's length and holds the rank of each card at the same position |
| Cards.Insert | lib/ofcp.js:59-61 | inserting into a sorted list keeps it sorted and adds exactly that element (multiset) |
| Cards.SortAsc | lib/ofcp.js:6-8 | the ascending sort returns a sorted permutation of the same length |
| Cards.SortedUnique | lib/ofcp.js:6-8 | two sorted lists with the same elements are equal, so every correct ascending sort returns the same list |
| Cards.SortAscOfSorted | lib/ofcp.js:6-8 | sorting an already sorted list leaves it unchanged |
| Hands.EvalBack | lib/ofcp.js:28-44 | a row whose length is not 5 fails with NotFiveCards; an oracle type of 0 fails with InvalidHand; otherwise the oracle's result is returned unchanged |
| Hands.EvalMid | lib/ofcp.js:46-48 | the same three guards and result as the back evaluator: a five-card row of non-zero oracle type returns the oracle's result |
| Hands.EvalFront | lib/ofcp.js:50-87 | fails exactly when the row does not have 3 cards; a success always has type 1, 2 or 4 |
| Hands.ClassifyThree | lib/ofcp.js:63-86 | the three-card classification only yields high card, one pair or three of a kind |
| Hands.SortedThree | lib/ofcp.js:59-61 | a sorted permutation of three values is [minimum, middle, maximum] |
| Hands.OrderedThree | lib/ofcp.js:59-61 | three ascending values holding the values a, b, c (with multiplicity) are their minimum, middle and maximum |
| Hands.ClassifyRanks | lib/ofcp.js:63-86 | trips give (4, rank); exactly two equal ranks give (2, pair*13 + kicker); three distinct give (1, max*169 + mid*13 + min), for ranks in any order |
| Hands.FrontSorted | lib/ofcp.js:59-86 | the front evaluator sees the dealt ranks as minimum, middle, maximum |
| Hands.FrontThreeOfAKind | lib/ofcp.js:63-70 | three equal dealt ranks give (4, that rank) |
| Hands.FrontOnePair | lib/ofcp.js:72-79 | each of the three dealt patterns with exactly one pair gives (2, pair*13 + kicker) |
| Hands.FrontHighCard | lib/ofcp.js:81-86 | three distinct dealt ranks give (1, max*169 + mid*13 + min) |
| Hands.FrontExamples | lib/ofcp.js:50-87 | worked examples, dealt out of order: three treys is (4, 2); a pair of treys with a six kicker is (2, 31); ten-six-trey high is (1, 1588) |
| Foul.LexLessFirstDifference | lib/ofcp.js:120-128 | the lexicographic order is decided at the first position where the lists differ |
| Foul.Without | lib/ofcp.js:147-152 | filtering never lengthens the list |
| Foul.WithoutAbsent | lib/ofcp.js:147-152 | filtering out a value the list lacks leaves the list as it is |
| Foul.WithoutPair | lib/ofcp.js:147-152 | filtering v out of a + [v, v] + b leaves a + b when a and b lack v |
| Foul.FoulVerdict | lib/ofcp.js:89-181 | a verdict is only reached when all three rows evaluate, which needs 5, 5 and 3 cards |
| Foul.IsFoul | lib/ofcp.js:89-181 | the library's step-by-step foul check returns exactly FoulVerdict, errors included |
| Foul.KickerWalk | lib/ofcp.js:118-178 | the descending high-card loop with early returns, and the pair and trips stages, return exactly the kicker verdict |
| Foul.WalkFromTop | lib/ofcp.js:120-128 | the loop's walk from position 4 down is the lexicographic comparison of mid's top three ranks with front's ranks |
| Foul.FoulErrors | lib/ofcp.js:89-92 | a bad back row's error comes first, then a bad mid row's, then NotThreeCards for a front row without 3 cards |
| Foul.FoulDuplicateTrips | lib/ofcp.js:161-178 | once all rows evaluate, the only possible error is DuplicateThreeOfAKind, with both mid and front trips |
| Foul.KickerErrors | lib/ofcp.js:118-180 | the kicker stage fails only outside high card and one pair, and only with the duplicate-trips error |
| Foul.FoulOnCategoryOrder | lib/ofcp.js:94-109 | a foul when back does not beat mid or mid's type is below front's; no foul when back beats mid and mid's type is above front's; a clean verdict implies both orderings |
| Foul.KickerCategories | lib/ofcp.js:103-180 | on a category tie after back has beaten mid, the shared category is high card, one pair or three of a kind, and outside the first two the verdict is the trips stage, so the `unexpected hand type` throw is never reached |
| Foul.HighCardWalk | lib/ofcp.js:118-131 | high-card comparison: a foul exactly when, at the highest differing position (mid 4, 3, 2 against front 2, 1, 0), mid is lower |
| Foul.FoulHighCard | lib/ofcp.js:118-131 | with both rows high card, the verdict is that first-difference rule; all equal is no foul |
| Foul.MidPairParts | lib/ofcp.js:138-152 | for a mid row with exactly one pair, the library's pair rank is that pair, and the kicker filter leaves the other three ranks in order |
| Foul.FrontPairParts | lib/ofcp.js:135-149 | for a front pair, the pair rank is the middle rank and the kicker filter leaves the single other rank |
| Foul.PairKickers | lib/ofcp.js:133-159 | pair stage on sorted lists: different pairs decide by pair rank; equal pairs decide by mid's highest kicker against front's kicker |
| Foul.FoulOnePair | lib/ofcp.js:133-159 | with both rows one pair: a foul iff mid's pair is lower, or the pairs are equal and mid's highest kicker is below front's kicker |
| Foul.TripsKickers | lib/ofcp.js:161-178 | trips stage on sorted lists: the lower trip rank fouls; equal trip ranks are the duplicate error |
| Foul.FoulThreeOfAKind | lib/ofcp.js:161-178 | with both rows trips: a foul iff mid's trip rank is lower; equal ranks fail with DuplicateThreeOfAKind |
| Compare.CompareEvals | lib/ofcp.js:183-204 | the three-way comparison returns only -1, 0 or 1; 0 exactly for equal evaluations; 1 exactly when the type is higher, or equal with a higher rank |
| Compare.CompareAntisymmetric | lib/ofcp.js:183-204 | swapping the arguments negates the comparison |
| Compare.CompareTransitive | lib/ofcp.js:183-204 | the comparison is transitive |
| Compare.SettleBack | lib/ofcp.js:183-204 | succeeds exactly when both back rows evaluate, with the first row's error first; the value is the comparison of the two evaluations |
| Compare.SettleMid | lib/ofcp.js:206-227 | the same for mid rows |
| Compare.SettleFront | lib/ofcp.js:229-250 | succeeds exactly when both front rows have 3 cards; the value is the comparison of the two front evaluations |
| Compare.SettleRowsAntisymmetric | lib/ofcp.js:183-250 | each comparator, with its arguments swapped, is defined exactly when before, and its value is negated |
| Compare.SettleRowsReflexive | lib/ofcp.js:183-250 | a row compared with itself gives 0 |
| Bonus.Slot | lib/ofcp.js:262 | a table slot inside the table is its entry; outside the table it is 0 (`undefined \|\| 0`) |
| Bonus.TableBonus | lib/ofcp.js:257-262 | a royal (type 9, rank 10) earns slot 5; types 5..10 earn slot type-5; lower or higher types earn 0; the bonus is 0 or a table entry |
| Bonus.RowBonus | lib/ofcp.js:252-263 | no table earns 0; a table without 6 slots is the row's rules error; otherwise the row's evaluation error, or the table bonus of the evaluation |
| Bonus.BackBonus | lib/ofcp.js:252-263 | no back table earns 0; a table without 6 slots fails with BadBackRules before the row is evaluated; with a six-slot table a failing back row fails with the evaluation's own error, and a success is the table bonus of its evaluation |
| Bonus.MidBonus | lib/ofcp.js:265-276 | the same with the mid table and BadMidRules: the mid evaluation's own error, or the table bonus of its evaluation |
| Bonus.TableBonusesNonNegative | lib/ofcp.js:252-276 | tables without negative entries never yield a negative back or mid bonus |
| Bonus.FrontBonus | lib/ofcp.js:278-279 | no rules, or rules without the front flag, earn 0 |
| Bonus.FrontScoreByClass | lib/ofcp.js:285-294 | on ranks classified as trips the formula gives 9 + trip rank; on a pair, max(0, middle rank - 4); on high card, 0 |
| Bonus.ScoreRanks | lib/ofcp.js:285-294 | the formula on dealt ranks in any order: 9 + rank for trips, max(0, pair rank - 4) for a pair, 0 otherwise |
| Bonus.FrontBonusByRanks | lib/ofcp.js:278-295 | the front bonus of a dealt row, by the pattern of its three ranks |
| Bonus.FrontBonusByCategory | lib/ofcp.js:278-295 | the front bonus agrees with the front evaluator's category: 9 + trip rank, pair rank above 4, or 0 |
| Bonus.FrontBonusRange | lib/ofcp.js:278-295 | for real cards the front bonus lies in 0..22; trips earn at least 10 ("ten points for 222"); anything else at most 9 |
| Bonus.FrontBonusNonNegative | lib/ofcp.js:278-295 | for real cards the front bonus is never negative |
| Bonus.FrontScoreRange | lib/ofcp.js:285-294 | the formula on ranks 1..13 lies in 0..22, is at least 10 on trips and at most 9 otherwise |
| Settlement.ScoopValue | lib/ofcp.js:300 | the scoop is the rules' number when given, otherwise 3 |
| Settlement.Fouled | lib/ofcp.js:298-299 | a foul verdict is only reached for rows of 5, 5 and 3 cards whose back and mid evaluate |
| Settlement.BonusSum | lib/ofcp.js:312-314 | a player's three bonuses: defined exactly when the back and mid bonuses are, and then their sum plus the front bonus |
| Settlement.SettleScore | lib/ofcp.js:297-340 | a score is only reached when both foul checks succeed |
| Settlement.FoulWin | lib/ofcp.js:311-320 | the clean player's win against a fouled opponent: defined exactly when its bonuses are, and then 3 + bonuses + scoop |
| Settlement.Settle | lib/ofcp.js:297-340 | the library's settle, building the score in locals, returns exactly SettleScore, errors included |
| Settlement.SettleAfterFouls | lib/ofcp.js:302-337 | settle's branches on the two foul verdicts return exactly the specified score |
| Settlement.WinByFoul | lib/ofcp.js:311-320 | settle's one-foul branch, row by row `1 + bonus` plus the scoop, returns exactly FoulWin |
| Settlement.SettleUnfouled | lib/ofcp.js:321-337 | settle's neither-fouled branch returns exactly the specified neither-fouled score |
| Settlement.ScoreRows | lib/ofcp.js:326-337 | the per-row bonus steps and the two scoop tests return exactly the specified row score |
| Settlement.AddRowBonus | lib/ofcp.js:327-332 | one row's two bonus tests in a row return exactly the specified row points, consulting a bonus only when its test passes |
| Settlement.IntendedRow | lib/ofcp.js:321-332 | reference row score: a tie is 0; with non-negative bonuses the row is positive exactly when player 1 won it and negative exactly when player 2 won it |
| Settlement.RowPointsIntended | lib/ofcp.js:327-332 | with non-negative bonuses the library's row points are the intended row score; a tie is 0 and consults no bonus; only the winner's bonus can fail the row |
| Settlement.RowPointsSwap | lib/ofcp.js:327-332 | with non-negative bonuses, swapping the players negates the row points, keeps them defined exactly when before, and the row has the comparison's sign |
| Settlement.NegativeBonusNotZeroSum | lib/ofcp.js:327-332 | with a negative bonus the row points are not antisymmetric: a row won by 1 with bonus -3 against bonus 5 scores -7, the swapped row scores 2 |
| Settlement.SweepSwap | lib/ofcp.js:334-336 | the scoop test is antisymmetric |
| Settlement.RowsScoreSwap | lib/ofcp.js:321-337 | with non-negative bonuses, swapping the players in the neither-fouled case negates the score and keeps it defined exactly when before |
| Settlement.RowsScoreIntended | lib/ofcp.js:321-337 | with non-negative bonuses, the neither-fouled score is the sum of intended row scores plus the scoop for whoever won all three rows |
| Settlement.BonusesNonNegative | lib/ofcp.js:252-295 | with non-negative tables and real front cards, no bonus and no bonus sum is negative |
| Settlement.FoulWinBound | lib/ofcp.js:311-315 | with non-negative tables and real front cards, the clean player wins at least 3 + scoop from a fouled opponent |
| Settlement.SettleFouls | lib/ofcp.js:297-320 | a foul-check error is the result (player 1's first); both fouled scores 0 whatever the rules; one foul scores ±(3 + clean player's bonuses + scoop) toward the clean player |
| Settlement.UnfouledRows | lib/ofcp.js:321-337 | with neither fouled, all three comparisons succeed and the score is the row score built from them |
| Settlement.SettleAntisymmetric | lib/ofcp.js:297-340 | with non-negative tables and real front cards, settle(B, A) is defined exactly when settle(A, B) is, and is its negation |
| Settlement.FouledAntisymmetric | lib/ofcp.js:302-320 | when somebody fouled, swapping the players negates the score and keeps it defined exactly when before |
| Settlement.UnfouledAntisymmetric | lib/ofcp.js:321-337 | the neither-fouled case of the antisymmetry |
| Settlement.SettleSelf | lib/ofcp.js:297-340 | a hand settled against itself scores 0, and fails exactly when its foul check fails |
| Settlement.SettleIntended | lib/ofcp.js:321-337 | with non-negative tables, real front cards and defined bonuses, two clean hands score each row ±(1 + winner's bonus), ties 0, plus ±scoop for sweeping all three rows |
| Settlement.UnfouledIntended | lib/ofcp.js:321-337 | the same statement, once the back and mid comparisons are known to succeed |

## Left out

- Card-string parsing (`hand`, `hands`, `ofcp.js:11-26`) depends on the evaluator package's card table and on string splitting. Rows are integer card codes.
- Oracle internals: the five-card evaluator (`ofcp.js:37`) is a function parameter. Its handType range and the meaning of its ranks are not modelled.
- The `_.isArray` checks (`ofcp.js:29`, `51`) are covered by typing: a row is always a sequence.
- `_.isNumber(rules.scoop)` (`ofcp.js:300`) becomes an `Option<int>`. Fractional, infinite and NaN scoops are not modelled.
- The rules object's fields are `Option`s and a flag. JavaScript truthiness of other values (`rules.back` set to `0` or `""`, say) is not modelled. Table entries are integers, so `|| 0` only matters for slots outside the table.
- The `handName` strings (`ofcp.js:67`, `76`, `84`) are used by no logic.
- Error messages are reduced to one `Error` constructor per distinct `throw`.
- The bitwise `&` in `hand1Foul & !hand2Foul` (`ofcp.js:316`) acts on booleans as a logical and, and is written `&&`.
- The module wiring (`this`/`ofcp` dispatch, `require`) is plumbing.
- FrontBonus: requires a row of at least three cards. The library indexes `ranks[0..2]` without a length check: a two-card row scores `max(0, rank - 4)` for a pair and 0 otherwise, and only empty and one-card rows reach `undefined` and `NaN`. Without rules or without the front flag a row of any length earns 0. These cases are not modelled because settlement only calls it after the foul checks have demanded three front cards.
- In settle the bonus getters run only inside the branch that uses them. The model passes their results as `Result` values, which is the same thing for pure code. Which error is raised, and when, is kept: a bonus's error surfaces only if its test passes.
- WinByFoul: the second player's one-foul branch (`ofcp.js:316-320`) writes each row as `-1 - bonus`. The model negates the first player's formula, which gives the same sum.
- SettleAntisymmetric: requires tables without negative entries, and front rows of real cards (codes 1..52), because a negative bonus can flip a won row's sign (see above). It also states only that the swapped call is defined exactly when the original is, not that both fail with the same error: swapping the players swaps which row's error is raised first.
- SettleIntended: requires non-negative tables, real front cards and defined back and mid bonuses, for the same reason.
- RowsScoreSwap, RowPointsSwap, RowPointsIntended, RowsScoreIntended: require non-negative bonuses, for the same reason.
- SettleRowsAntisymmetric: states only that the swapped comparison is defined exactly when the original is, not that both have the same error, because the two rows are evaluated in the other order.
- FrontBonusRange: requires codes 1..52. Other codes give ranks outside 1..13, and trips of rank below -9 would score negative.
- FoulOnePair: stated for a mid row whose sorted ranks hold exactly one pair, FoulThreeOfAKind for exactly trips. The oracle is abstract, so the model cannot tie its category to the ranks.
- Without: its contract states only the length bound. What the filter removes is stated by WithoutAbsent and WithoutPair, for the shapes the foul check produces.
