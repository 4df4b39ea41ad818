/** Per-row comparison between the two players' same-position rows. */
module Compare {
  import opened Wrappers
  import opened Hands

  /** Three-way order on evaluations: category first, then rank. */
  function CompareEvals(a: HandEval, b: HandEval): (r: int)
    ensures r in {-1, 0, 1}
    ensures r == 0 <==> a == b
    ensures r == 1 <==> a.handType > b.handType || (a.handType == b.handType && a.handRank > b.handRank)
  {
    if a.handType > b.handType then 1
    else if a.handType < b.handType then -1
    else if a.handRank > b.handRank then 1
    else if a.handRank < b.handRank then -1
    else 0
  }

  lemma CompareAntisymmetric(a: HandEval, b: HandEval)
    ensures CompareEvals(a, b) == -CompareEvals(b, a)
  {
  }

  lemma CompareTransitive(a: HandEval, b: HandEval, c: HandEval)
    requires CompareEvals(a, b) == 1 && CompareEvals(b, c) == 1
    ensures CompareEvals(a, c) == 1
  {
  }

  /** settleBack: +1 when the first back row is stronger, -1 when weaker, 0 on a tie. */
  function SettleBack(o: Oracle, row1: seq<int>, row2: seq<int>): (r: Result<int, Error>)
    ensures r.Success? <==> EvalBack(o, row1).Success? && EvalBack(o, row2).Success?
    ensures EvalBack(o, row1).Failure? ==> r == Failure(EvalBack(o, row1).error)
    ensures EvalBack(o, row1).Success? && EvalBack(o, row2).Failure? ==> r == Failure(EvalBack(o, row2).error)
    ensures r.Success? ==> r.value == CompareEvals(EvalBack(o, row1).value, EvalBack(o, row2).value)
  {
    var e1 :- EvalBack(o, row1);
    var e2 :- EvalBack(o, row2);
    Success(CompareEvals(e1, e2))
  }

  /** settleMid: the same comparison on the mid rows. */
  function SettleMid(o: Oracle, row1: seq<int>, row2: seq<int>): (r: Result<int, Error>)
    ensures r.Success? <==> EvalMid(o, row1).Success? && EvalMid(o, row2).Success?
    ensures EvalMid(o, row1).Failure? ==> r == Failure(EvalMid(o, row1).error)
    ensures EvalMid(o, row1).Success? && EvalMid(o, row2).Failure? ==> r == Failure(EvalMid(o, row2).error)
    ensures r.Success? ==> r.value == CompareEvals(EvalMid(o, row1).value, EvalMid(o, row2).value)
  {
    var e1 :- EvalMid(o, row1);
    var e2 :- EvalMid(o, row2);
    Success(CompareEvals(e1, e2))
  }

  /** settleFront: the same comparison on the front rows. */
  function SettleFront(row1: seq<int>, row2: seq<int>): (r: Result<int, Error>)
    ensures r.Success? <==> |row1| == 3 && |row2| == 3
    ensures |row1| != 3 || |row2| != 3 ==> r == Failure(NotThreeCards)
    ensures r.Success? ==> r.value == CompareEvals(EvalFront(row1).value, EvalFront(row2).value)
  {
    var e1 :- EvalFront(row1);
    var e2 :- EvalFront(row2);
    Success(CompareEvals(e1, e2))
  }

  /** Swapping the players negates every row comparison (and keeps it
      defined exactly when it was). */
  lemma SettleRowsAntisymmetric(o: Oracle, x: seq<int>, y: seq<int>)
    ensures SettleBack(o, x, y).Success? == SettleBack(o, y, x).Success?
    ensures SettleBack(o, x, y).Success? ==> SettleBack(o, x, y).value == -SettleBack(o, y, x).value
    ensures SettleMid(o, x, y).Success? == SettleMid(o, y, x).Success?
    ensures SettleMid(o, x, y).Success? ==> SettleMid(o, x, y).value == -SettleMid(o, y, x).value
    ensures SettleFront(x, y).Success? == SettleFront(y, x).Success?
    ensures SettleFront(x, y).Success? ==> SettleFront(x, y).value == -SettleFront(y, x).value
  {
    if SettleBack(o, x, y).Success? {
      CompareAntisymmetric(EvalBack(o, x).value, EvalBack(o, y).value);
    }
    if SettleMid(o, x, y).Success? {
      CompareAntisymmetric(EvalMid(o, x).value, EvalMid(o, y).value);
    }
    if SettleFront(x, y).Success? {
      CompareAntisymmetric(EvalFront(x).value, EvalFront(y).value);
    }
  }

  /** A row compared with itself is a tie. */
  lemma SettleRowsReflexive(o: Oracle, x: seq<int>)
    ensures SettleBack(o, x, x).Success? ==> SettleBack(o, x, x).value == 0
    ensures SettleMid(o, x, x).Success? ==> SettleMid(o, x, x).value == 0
    ensures SettleFront(x, x).Success? ==> SettleFront(x, x).value == 0
  {
  }
}
