/** Row evaluation: the back and mid rows go to an external five-card
    evaluator, the front row is classified here. */
module Hands {
  import opened Wrappers
  import opened Cards

  /** The library's thrown errors, one constructor per distinct message. */
  datatype Error =
    | NotFiveCards            // "hand must have five cards"
    | InvalidHand             // the evaluator reported hand type 0
    | NotThreeCards           // "hand must have three cards"
    | BadBackRules            // "back rules must have 6 items"
    | BadMidRules             // "mid rules must have 6 items"
    | DuplicateThreeOfAKind   // "impossible duplicate three of a kind"

  /** A hand category (`handType`) and a rank that orders hands inside it. */
  datatype HandEval = HandEval(handType: int, handRank: int)

  /** The five-card evaluator, passed in as a value. Its numbering: 0 invalid,
      1 high card, 2 one pair, 4 three of a kind, ..., 9 straight flush. */
  type Oracle = seq<int> -> HandEval

  const HighCard := 1
  const OnePair := 2
  const ThreeOfAKind := 4

  /** Back row: exactly five cards, and the evaluator must not call it invalid. */
  function EvalBack(o: Oracle, row: seq<int>): (r: Result<HandEval, Error>)
    ensures |row| != 5 ==> r == Failure(NotFiveCards)
    ensures |row| == 5 && o(row).handType == 0 ==> r == Failure(InvalidHand)
    ensures |row| == 5 && o(row).handType != 0 ==> r == Success(o(row))
    ensures r.Success? ==> |row| == 5 && r.value == o(row) && r.value.handType != 0
  {
    if |row| != 5 then Failure(NotFiveCards)
    else if o(row).handType == 0 then Failure(InvalidHand)
    else Success(o(row))
  }

  /** Mid row: evaluated exactly as the back row. */
  function EvalMid(o: Oracle, row: seq<int>): (r: Result<HandEval, Error>)
    ensures |row| != 5 ==> r == Failure(NotFiveCards)
    ensures |row| == 5 && o(row).handType == 0 ==> r == Failure(InvalidHand)
    ensures |row| == 5 && o(row).handType != 0 ==> r == Success(o(row))
    ensures r.Success? ==> |row| == 5 && r.value == o(row) && r.value.handType != 0
  {
    EvalBack(o, row)
  }

  /** Front row: three cards, classified on their ascending ranks. */
  function EvalFront(row: seq<int>): (r: Result<HandEval, Error>)
    ensures r.Failure? <==> |row| != 3
    ensures r.Failure? ==> r.error == NotThreeCards
    ensures r.Success? ==> r.value.handType in {HighCard, OnePair, ThreeOfAKind}
  {
    if |row| != 3 then Failure(NotThreeCards)
    else Success(ClassifyThree(SortAsc(Ranks(row))))
  }

  /** Classification of ascending ranks [r0, r1, r2]. */
  function ClassifyThree(s: seq<int>): (e: HandEval)
    requires |s| == 3
    ensures e.handType in {HighCard, OnePair, ThreeOfAKind}
  {
    if s[0] == s[2] then HandEval(ThreeOfAKind, s[0])
    else if s[0] == s[1] || s[1] == s[2] then
      HandEval(OnePair, s[1] * 13 + (if s[0] == s[1] then s[2] else s[0]))
    else HandEval(HighCard, s[2] * 13 * 13 + s[1] * 13 + s[0])
  }

  /** A three-card front row is classified on its ascending ranks. */
  lemma EvalFrontSorted(row: seq<int>)
    requires |row| == 3
    ensures EvalFront(row) == Success(ClassifyThree(SortAsc(Ranks(row))))
  {
  }

  function Min3(a: int, b: int, c: int): int {
    if a <= b && a <= c then a else if b <= c then b else c
  }

  function Max3(a: int, b: int, c: int): int {
    if a >= b && a >= c then a else if b >= c then b else c
  }

  function Mid3(a: int, b: int, c: int): int {
    if (a <= b <= c) || (c <= b <= a) then b
    else if (b <= a <= c) || (c <= a <= b) then a
    else c
  }

  /** A sorted permutation of three values is minimum, middle, maximum. */
  lemma SortedThree(s: seq<int>, a: int, b: int, c: int)
    requires Sorted(s) && multiset(s) == multiset{a, b, c}
    ensures s == [Min3(a, b, c), Mid3(a, b, c), Max3(a, b, c)]
  {
    assert |s| == 3 by { assert |multiset(s)| == 3; }
    assert s == [s[0], s[1], s[2]];
    assert multiset(s) == multiset{s[0], s[1], s[2]};
    OrderedThree(s[0], s[1], s[2], a, b, c);
  }

  /** Three ascending values holding the same values as a, b, c are their
      minimum, middle and maximum (counting each value's occurrences). */
  lemma OrderedThree(x: int, y: int, z: int, a: int, b: int, c: int)
    requires x <= y <= z && multiset{x, y, z} == multiset{a, b, c}
    ensures x == Min3(a, b, c) && y == Mid3(a, b, c) && z == Max3(a, b, c)
  {
    var m, n := multiset{x, y, z}, multiset{a, b, c};
    assert m[a] == n[a] && m[b] == n[b] && m[c] == n[c];
    assert m[x] == n[x] && m[y] == n[y] && m[z] == n[z];
  }

  /** Classification of three ranks in any order: three equal ranks are trips
      ranked by that rank; exactly two equal are a pair ranked pair*13 + kicker;
      three distinct ranks are a high card ranked max*169 + middle*13 + min. */
  lemma ClassifyRanks(a: int, b: int, c: int)
    ensures var e := ClassifyThree([Min3(a, b, c), Mid3(a, b, c), Max3(a, b, c)]);
      && (a == b && b == c ==> e == HandEval(ThreeOfAKind, a))
      && (a == b && b != c ==> e == HandEval(OnePair, a * 13 + c))
      && (a == c && b != c ==> e == HandEval(OnePair, a * 13 + b))
      && (b == c && a != b ==> e == HandEval(OnePair, b * 13 + a))
      && (a != b && b != c && a != c ==>
            e == HandEval(HighCard, Max3(a, b, c) * 169 + Mid3(a, b, c) * 13 + Min3(a, b, c)))
  {
  }

  /** The front evaluator sees the dealt ranks as minimum, middle, maximum. */
  lemma FrontSorted(row: seq<int>)
    requires |row| == 3
    ensures var a, b, c := Rank(row[0]), Rank(row[1]), Rank(row[2]);
      EvalFront(row) == Success(ClassifyThree([Min3(a, b, c), Mid3(a, b, c), Max3(a, b, c)]))
  {
    var a, b, c := Rank(row[0]), Rank(row[1]), Rank(row[2]);
    assert Ranks(row) == [a, b, c];
    assert multiset(Ranks(row)) == multiset{a, b, c};
    SortedThree(SortAsc(Ranks(row)), a, b, c);
  }

  /** Three equal dealt ranks make trips ranked by that rank. */
  lemma FrontThreeOfAKind(row: seq<int>)
    requires |row| == 3
    ensures var a, b, c := Rank(row[0]), Rank(row[1]), Rank(row[2]);
      a == b && b == c ==> EvalFront(row) == Success(HandEval(ThreeOfAKind, a))
  {
    FrontSorted(row);
    ClassifyRanks(Rank(row[0]), Rank(row[1]), Rank(row[2]));
  }

  /** Exactly two equal dealt ranks, wherever they sit, make a pair ranked
      pair*13 + kicker. */
  lemma FrontOnePair(row: seq<int>)
    requires |row| == 3
    ensures var a, b, c := Rank(row[0]), Rank(row[1]), Rank(row[2]);
      && (a == b && b != c ==> EvalFront(row) == Success(HandEval(OnePair, a * 13 + c)))
      && (a == c && b != c ==> EvalFront(row) == Success(HandEval(OnePair, a * 13 + b)))
      && (b == c && a != b ==> EvalFront(row) == Success(HandEval(OnePair, b * 13 + a)))
  {
    FrontSorted(row);
    ClassifyRanks(Rank(row[0]), Rank(row[1]), Rank(row[2]));
  }

  /** Three distinct dealt ranks make a high card ranked max*169 + middle*13 + min. */
  lemma FrontHighCard(row: seq<int>)
    requires |row| == 3
    ensures var a, b, c := Rank(row[0]), Rank(row[1]), Rank(row[2]);
      a != b && b != c && a != c ==>
        EvalFront(row) == Success(HandEval(HighCard, Max3(a, b, c) * 169 + Mid3(a, b, c) * 13 + Min3(a, b, c)))
  {
    FrontSorted(row);
    ClassifyRanks(Rank(row[0]), Rank(row[1]), Rank(row[2]));
  }

  /** Worked examples: ranks 2,2,2 / 2,2,5 / 2,5,9 (codes 5..8 have rank 2,
      17..20 rank 5, 33..36 rank 9), dealt out of order. */
  lemma FrontExamples()
    ensures EvalFront([7, 5, 6]) == Success(HandEval(ThreeOfAKind, 2))
    ensures EvalFront([17, 5, 6]) == Success(HandEval(OnePair, 31))
    ensures EvalFront([33, 5, 17]) == Success(HandEval(HighCard, 1588))
  {
    FrontThreeOfAKind([7, 5, 6]);
    FrontOnePair([17, 5, 6]);
    FrontHighCard([33, 5, 17]);
  }
}
