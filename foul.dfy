/** The foul check: a player's rows must satisfy back > mid >= front. */
module Foul {
  import opened Wrappers
  import opened Cards
  import opened Hands

  /** Strict lexicographic order on sequences of equal length. */
  function LexLess(a: seq<int>, b: seq<int>): bool
    requires |a| == |b|
  {
    if a == [] then false
    else if a[0] < b[0] then true
    else if a[0] > b[0] then false
    else LexLess(a[1..], b[1..])
  }

  /** LexLess is decided by the first position where the sequences differ. */
  lemma {:induction false} LexLessFirstDifference(a: seq<int>, b: seq<int>)
    requires |a| == |b|
    ensures LexLess(a, b) <==> exists k :: 0 <= k < |a| && a[..k] == b[..k] && a[k] < b[k]
  {
    if a == [] {
    } else if a[0] < b[0] {
      assert a[..0] == b[..0];
    } else if a[0] > b[0] {
      forall k | 0 <= k < |a| && a[..k] == b[..k]
        ensures a[k] >= b[k]
      {
      }
    } else {
      LexLessFirstDifference(a[1..], b[1..]);
      if LexLess(a, b) {
        var k :| 0 <= k < |a| - 1 && a[1..][..k] == b[1..][..k] && a[1..][k] < b[1..][k];
        assert a[..k + 1] == [a[0]] + a[1..][..k];
        assert b[..k + 1] == [b[0]] + b[1..][..k];
      } else {
        forall k | 0 <= k < |a| && a[..k] == b[..k]
          ensures a[k] >= b[k]
        {
          if k > 0 {
            assert a[1..][..k - 1] == a[..k][1..];
            assert b[1..][..k - 1] == b[..k][1..];
            assert a[k] == a[1..][k - 1] && b[k] == b[1..][k - 1];
          }
        }
      }
    }
  }

  /** The three highest of five ascending mid ranks, highest first. */
  function MidTop(m: seq<int>): seq<int>
    requires |m| == 5
  {
    [m[4], m[3], m[2]]
  }

  /** The three ascending front ranks, highest first. */
  function FrontTop(f: seq<int>): seq<int>
    requires |f| == 3
  {
    [f[2], f[1], f[0]]
  }

  /** Removes every occurrence of v (the library's `filter(x => x !== v)`). */
  function Without(s: seq<int>, v: int): (r: seq<int>)
    ensures |r| <= |s|
  {
    if s == [] then []
    else (if s[0] == v then [] else [s[0]]) + Without(s[1..], v)
  }

  lemma {:induction false} WithoutAbsent(s: seq<int>, v: int)
    requires v !in s
    ensures Without(s, v) == s
  {
    if s != [] {
      WithoutAbsent(s[1..], v);
    }
  }

  /** Pair rank of ascending front ranks: the first of an adjacent equal pair. */
  function PairRankOfFront(f: seq<int>): int
    requires |f| == 3
  {
    if f[0] == f[1] then f[0] else f[1]
  }

  /** Pair rank of ascending mid ranks: the first adjacent equal pair. */
  function PairRankOfMid(m: seq<int>): int
    requires |m| == 5
  {
    if m[0] == m[1] then m[0]
    else if m[1] == m[2] then m[1]
    else if m[2] == m[3] then m[2]
    else m[3]
  }

  /** Trip rank of ascending mid ranks. */
  function TripRankOfMid(m: seq<int>): int
    requires |m| == 5
  {
    if m[0] == m[1] then m[0]
    else if m[1] == m[2] then m[1]
    else m[2]
  }

  /** Mid and front both one pair: the higher pair wins; on equal pairs only
      mid's highest kicker is matched against the front's kicker. An absent
      kicker compares as false, as `undefined < x` does. */
  function PairFoul(m: seq<int>, f: seq<int>): bool
    requires |m| == 5 && |f| == 3
  {
    var fp := PairRankOfFront(f);
    var mp := PairRankOfMid(m);
    if mp != fp then mp < fp
    else
      var fk := Without(f, fp);
      var mk := Without(m, mp);
      |mk| > 2 && |fk| > 0 && mk[2] < fk[0]
  }

  /** Mid and front both three of a kind: equal trip ranks cannot come from
      one deck and are reported as an error. */
  function TripsFoul(m: seq<int>, f: seq<int>): Result<bool, Error>
    requires |m| == 5 && |f| == 3
  {
    var mt := TripRankOfMid(m);
    if mt > f[0] then Success(false)
    else if mt < f[0] then Success(true)
    else Failure(DuplicateThreeOfAKind)
  }

  /** Whether the arrangement (back, mid, front) is fouled. */
  function FoulVerdict(o: Oracle, back: seq<int>, mid: seq<int>, front: seq<int>): (r: Result<bool, Error>)
    ensures r.Success? ==> EvalBack(o, back).Success? && EvalMid(o, mid).Success? && EvalFront(front).Success?
    ensures r.Success? ==> |back| == 5 && |mid| == 5 && |front| == 3
  {
    var b :- EvalBack(o, back);
    var m :- EvalMid(o, mid);
    var f :- EvalFront(front);
    if b.handType < m.handType then Success(true)
    else if b.handType == m.handType && b.handRank <= m.handRank then Success(true)
    else if m.handType < f.handType then Success(true)
    else if m.handType > f.handType then Success(false)
    else
      KickerVerdict(m.handType, SortAsc(Ranks(mid)), SortAsc(Ranks(front)))
  }

  /** The kicker stage, reached when mid and front share a category. */
  function KickerVerdict(category: int, mr: seq<int>, fr: seq<int>): Result<bool, Error>
    requires |mr| == 5 && |fr| == 3
  {
    if category == HighCard then Success(LexLess(MidTop(mr), FrontTop(fr)))
    else if category == OnePair then Success(PairFoul(mr, fr))
    else TripsFoul(mr, fr)
  }

  /** The library's isFoul: evaluate, compare categories, and on a mid/front
      category tie walk the kickers. */
  method IsFoul(o: Oracle, back: seq<int>, mid: seq<int>, front: seq<int>) returns (r: Result<bool, Error>)
    ensures r == FoulVerdict(o, back, mid, front)
  {
    var b :- EvalBack(o, back);
    var m :- EvalMid(o, mid);
    var f :- EvalFront(front);
    if b.handType < m.handType {
      return Success(true);
    }
    if b.handType == m.handType && b.handRank <= m.handRank {
      return Success(true);
    }
    if m.handType < f.handType {
      return Success(true);
    }
    if m.handType > f.handType {
      return Success(false);
    }
    r := KickerWalk(m.handType, SortAsc(Ranks(mid)), SortAsc(Ranks(front)));
  }

  /** The kicker stage of isFoul on the ascending rank lists: high cards are
      walked from the top, pairs and trips compared by their ranks. */
  method KickerWalk(category: int, midRanks: seq<int>, frontRanks: seq<int>) returns (r: Result<bool, Error>)
    requires |midRanks| == 5 && |frontRanks| == 3
    ensures r == KickerVerdict(category, midRanks, frontRanks)
  {
    if category == HighCard {
      WalkFromTop(midRanks, frontRanks);
      var i := 4;
      while i >= 2
        invariant 1 <= i <= 4
        invariant WalkFrom(midRanks, frontRanks, i) == WalkFrom(midRanks, frontRanks, 4)
      {
        if midRanks[i] < frontRanks[i - 2] {
          return Success(true);
        }
        if midRanks[i] > frontRanks[i - 2] {
          return Success(false);
        }
        i := i - 1;
      }
      return Success(false);
    }
    if category == OnePair {
      return Success(PairFoul(midRanks, frontRanks));
    }
    r := TripsFoul(midRanks, frontRanks);
  }

  /** The high-card walk still to do from position i of the mid ranks down
      to position 2. */
  ghost function WalkFrom(mr: seq<int>, fr: seq<int>, i: int): bool
    requires |mr| == 5 && |fr| == 3 && 1 <= i <= 4
    decreases i
  {
    if i < 2 then false
    else if mr[i] < fr[i - 2] then true
    else if mr[i] > fr[i - 2] then false
    else WalkFrom(mr, fr, i - 1)
  }

  /** The whole walk is the lexicographic comparison of the top ranks. */
  lemma WalkFromTop(mr: seq<int>, fr: seq<int>)
    requires |mr| == 5 && |fr| == 3
    ensures WalkFrom(mr, fr, 4) == LexLess(MidTop(mr), FrontTop(fr))
  {
    var a, c := MidTop(mr), FrontTop(fr);
    assert a[1..] == [mr[3], mr[2]] && c[1..] == [fr[1], fr[0]];
    assert a[1..][1..] == [mr[2]] && c[1..][1..] == [fr[0]];
    assert a[1..][1..][1..] == [] && c[1..][1..][1..] == [];
    assert WalkFrom(mr, fr, 1) == LexLess(a[1..][1..][1..], c[1..][1..][1..]);
    assert WalkFrom(mr, fr, 2) == LexLess(a[1..][1..], c[1..][1..]);
    assert WalkFrom(mr, fr, 3) == LexLess(a[1..], c[1..]);
  }

  /** The back row is strictly stronger than the mid row. */
  predicate BackBeatsMid(b: HandEval, m: HandEval) {
    b.handType > m.handType || (b.handType == m.handType && b.handRank > m.handRank)
  }

  /** Errors: a bad back row is reported first, then a bad mid row, then a
      bad front row; the only other error is the duplicate three of a kind. */
  lemma FoulErrors(o: Oracle, back: seq<int>, mid: seq<int>, front: seq<int>)
    ensures EvalBack(o, back).Failure? ==> FoulVerdict(o, back, mid, front) == Failure(EvalBack(o, back).error)
    ensures EvalBack(o, back).Success? && EvalMid(o, mid).Failure? ==>
      FoulVerdict(o, back, mid, front) == Failure(EvalMid(o, mid).error)
    ensures EvalBack(o, back).Success? && EvalMid(o, mid).Success? && |front| != 3 ==>
      FoulVerdict(o, back, mid, front) == Failure(NotThreeCards)
  {
  }

  /** Once all three rows evaluate, the only error left is two three of a
      kinds of the same rank in mid and front. */
  lemma FoulDuplicateTrips(o: Oracle, back: seq<int>, mid: seq<int>, front: seq<int>)
    requires EvalBack(o, back).Success? && EvalMid(o, mid).Success? && EvalFront(front).Success?
    requires FoulVerdict(o, back, mid, front).Failure?
    ensures FoulVerdict(o, back, mid, front).error == DuplicateThreeOfAKind
    ensures EvalMid(o, mid).value.handType == ThreeOfAKind
    ensures EvalFront(front).value.handType == ThreeOfAKind
  {
    var m, f := EvalMid(o, mid).value, EvalFront(front).value;
    assert m.handType == f.handType;
    KickerErrors(m.handType, SortAsc(Ranks(mid)), SortAsc(Ranks(front)));
  }

  /** The kicker stage fails only on trips, with the duplicate error. */
  lemma KickerErrors(category: int, mr: seq<int>, fr: seq<int>)
    requires |mr| == 5 && |fr| == 3
    ensures KickerVerdict(category, mr, fr).Failure? ==>
      category != HighCard && category != OnePair && KickerVerdict(category, mr, fr).error == DuplicateThreeOfAKind
  {
  }

  /** The category checks: a foul when back does not beat mid or mid is in a
      lower category than front; no foul when back beats mid and mid is in a
      higher category than front. */
  lemma FoulOnCategoryOrder(o: Oracle, back: seq<int>, mid: seq<int>, front: seq<int>,
                            b: HandEval, m: HandEval, f: HandEval)
    requires EvalBack(o, back) == Success(b) && EvalMid(o, mid) == Success(m) && EvalFront(front) == Success(f)
    ensures !BackBeatsMid(b, m) || m.handType < f.handType ==> FoulVerdict(o, back, mid, front) == Success(true)
    ensures BackBeatsMid(b, m) && m.handType > f.handType ==> FoulVerdict(o, back, mid, front) == Success(false)
    ensures FoulVerdict(o, back, mid, front) == Success(false) ==> BackBeatsMid(b, m) && m.handType >= f.handType
  {
  }

  /** When back beats mid and mid and front share a category, the verdict is
      the kicker stage on the sorted rank lists. */
  lemma FoulOnTie(o: Oracle, back: seq<int>, mid: seq<int>, front: seq<int>,
                  b: HandEval, m: HandEval, f: HandEval)
    requires EvalBack(o, back) == Success(b) && EvalMid(o, mid) == Success(m) && EvalFront(front) == Success(f)
    requires BackBeatsMid(b, m) && m.handType == f.handType
    ensures FoulVerdict(o, back, mid, front) == KickerVerdict(m.handType, SortAsc(Ranks(mid)), SortAsc(Ranks(front)))
    ensures f == ClassifyThree(SortAsc(Ranks(front)))
  {
  }

  /** The kicker stage is reached only with a category the front evaluator
      can return, so its last branch is the trips case and the library's
      "unexpected hand type" throw never runs. */
  lemma KickerCategories(o: Oracle, back: seq<int>, mid: seq<int>, front: seq<int>,
                         b: HandEval, m: HandEval, f: HandEval)
    requires EvalBack(o, back) == Success(b) && EvalMid(o, mid) == Success(m) && EvalFront(front) == Success(f)
    requires BackBeatsMid(b, m) && m.handType == f.handType
    ensures m.handType in {HighCard, OnePair, ThreeOfAKind}
    ensures m.handType != HighCard && m.handType != OnePair ==>
      m.handType == ThreeOfAKind &&
      FoulVerdict(o, back, mid, front) == TripsFoul(SortAsc(Ranks(mid)), SortAsc(Ranks(front)))
  {
    FoulOnTie(o, back, mid, front, b, m, f);
  }

  /** The high-card walk: from the highest rank down, mid's ranks at
      positions 4, 3, 2 meet front's at 2, 1, 0; the first difference decides. */
  lemma HighCardWalk(mr: seq<int>, fr: seq<int>)
    requires |mr| == 5 && |fr| == 3
    ensures LexLess(MidTop(mr), FrontTop(fr)) <==>
      exists k :: 2 <= k <= 4 && mr[k] < fr[k - 2] && forall j :: k < j <= 4 ==> mr[j] == fr[j - 2]
  {
    var a, c := MidTop(mr), FrontTop(fr);
    LexLessFirstDifference(a, c);
    if exists k :: 2 <= k <= 4 && mr[k] < fr[k - 2] && forall j :: k < j <= 4 ==> mr[j] == fr[j - 2] {
      var k :| 2 <= k <= 4 && mr[k] < fr[k - 2] && forall j :: k < j <= 4 ==> mr[j] == fr[j - 2];
      assert a[..4 - k] == c[..4 - k];
      assert a[4 - k] < c[4 - k];
    }
    if LexLess(a, c) {
      var d :| 0 <= d < 3 && a[..d] == c[..d] && a[d] < c[d];
      forall j | 4 - d < j <= 4
        ensures mr[j] == fr[j - 2]
      {
        assert a[..d][4 - j] == c[..d][4 - j];
      }
      assert mr[4 - d] < fr[2 - d];
    }
  }

  /** High card in both mid and front: it is a foul exactly when, at the
      highest position where mid's top three ranks and front's ranks differ,
      mid's rank is the lower. */
  lemma FoulHighCard(o: Oracle, back: seq<int>, mid: seq<int>, front: seq<int>,
                     b: HandEval, m: HandEval, f: HandEval)
    requires EvalBack(o, back) == Success(b) && EvalMid(o, mid) == Success(m) && EvalFront(front) == Success(f)
    requires BackBeatsMid(b, m) && m.handType == HighCard && f.handType == HighCard
    ensures var mr, fr := SortAsc(Ranks(mid)), SortAsc(Ranks(front));
      FoulVerdict(o, back, mid, front) ==
        Success(exists k :: 2 <= k <= 4 && mr[k] < fr[k - 2] && forall j :: k < j <= 4 ==> mr[j] == fr[j - 2])
  {
    FoulOnTie(o, back, mid, front, b, m, f);
    HighCardWalk(SortAsc(Ranks(mid)), SortAsc(Ranks(front)));
  }

  /** Ascending ranks whose only adjacent equal pair sits at position i:
      exactly one pair and nothing better. */
  predicate OnePairAt(m: seq<int>, i: int) {
    && 0 <= i < |m| - 1
    && m[i] == m[i + 1]
    && forall j :: 0 <= j < |m| - 1 && j != i ==> m[j] != m[j + 1]
  }

  /** For a genuine one pair in the mid row, the library's pair rank is that
      pair and its kicker filter leaves the three other ranks, ascending. */
  lemma MidPairParts(m: seq<int>, i: int)
    requires |m| == 5 && Sorted(m) && OnePairAt(m, i)
    ensures PairRankOfMid(m) == m[i]
    ensures Without(m, m[i]) == m[..i] + m[i + 2..]
  {
    var v := m[i];
    assert m == m[..i] + [v, v] + m[i + 2..];
    assert v !in m[..i] by {
      forall j | 0 <= j < i
        ensures m[j] < v
      {
        assert m[j] <= m[i - 1] && m[i - 1] != m[i];
      }
    }
    assert v !in m[i + 2..] by {
      forall j | i + 2 <= j < 5
        ensures m[j] > v
      {
        assert m[j] >= m[i + 2] && m[i + 1] != m[i + 2];
      }
    }
    WithoutPair(m[..i], m[i + 2..], v);
  }

  /** Filtering v out of a + [v, v] + b leaves a + b when a and b lack v. */
  lemma {:induction false} WithoutPair(a: seq<int>, b: seq<int>, v: int)
    requires v !in a && v !in b
    ensures Without(a + [v, v] + b, v) == a + b
  {
    var s := a + [v, v] + b;
    if a == [] {
      assert s == [v, v] + b;
      assert s[1..] == [v] + b && s[1..][1..] == b;
      assert Without(s, v) == Without(s[1..], v) == Without(b, v);
      WithoutAbsent(b, v);
    } else {
      assert a[0] in a && a == [a[0]] + a[1..];
      assert s[0] == a[0] && s[1..] == a[1..] + [v, v] + b;
      assert Without(s, v) == [a[0]] + Without(s[1..], v);
      WithoutPair(a[1..], b, v);
      assert a + b == [a[0]] + (a[1..] + b);
    }
  }

  /** For a front one pair, the pair rank is the middle rank and the kicker
      filter leaves the single other rank. */
  lemma FrontPairParts(fr: seq<int>)
    requires |fr| == 3 && Sorted(fr) && ClassifyThree(fr).handType == OnePair
    ensures OnePairAt(fr, if fr[0] == fr[1] then 0 else 1)
    ensures PairRankOfFront(fr) == fr[1]
    ensures Without(fr, fr[1]) == [if fr[0] == fr[1] then fr[2] else fr[0]]
  {
    var p := fr[1];
    if fr[0] == fr[1] {
      assert fr == [] + [p, p] + [fr[2]];
      WithoutPair([], [fr[2]], p);
    } else {
      assert fr == [fr[0]] + [p, p] + [];
      WithoutPair([fr[0]], [], p);
    }
  }

  /** The pair kicker stage on sorted rank lists. */
  lemma PairKickers(mr: seq<int>, fr: seq<int>, i: int)
    requires |mr| == 5 && Sorted(mr) && OnePairAt(mr, i)
    requires |fr| == 3 && Sorted(fr) && ClassifyThree(fr).handType == OnePair
    ensures var kickers := mr[..i] + mr[i + 2..];
      var frontKicker := if fr[0] == fr[1] then fr[2] else fr[0];
      && |kickers| == 3
      && (forall k :: 0 <= k < 3 ==> kickers[k] <= kickers[2])
      && PairFoul(mr, fr) == if mr[i] != fr[1] then mr[i] < fr[1] else kickers[2] < frontKicker
  {
    MidPairParts(mr, i);
    FrontPairParts(fr);
  }

  /** One pair in both mid and front (mid holding exactly one pair): different
      pairs decide by pair rank; equal pairs decide by mid's highest kicker
      against the front's single kicker, and mid's two lower kickers are
      ignored. */
  lemma FoulOnePair(o: Oracle, back: seq<int>, mid: seq<int>, front: seq<int>,
                    b: HandEval, m: HandEval, f: HandEval, i: int)
    requires EvalBack(o, back) == Success(b) && EvalMid(o, mid) == Success(m) && EvalFront(front) == Success(f)
    requires BackBeatsMid(b, m) && m.handType == OnePair && f.handType == OnePair
    requires OnePairAt(SortAsc(Ranks(mid)), i)
    ensures var mr, fr := SortAsc(Ranks(mid)), SortAsc(Ranks(front));
      var kickers := mr[..i] + mr[i + 2..];
      var frontKicker := if fr[0] == fr[1] then fr[2] else fr[0];
      && OnePairAt(fr, if fr[0] == fr[1] then 0 else 1)
      && |kickers| == 3
      && (forall k :: 0 <= k < 3 ==> kickers[k] <= kickers[2])
      && FoulVerdict(o, back, mid, front) ==
           Success(if mr[i] != fr[1] then mr[i] < fr[1] else kickers[2] < frontKicker)
  {
    var mr, fr := SortAsc(Ranks(mid)), SortAsc(Ranks(front));
    FoulOnTie(o, back, mid, front, b, m, f);
    PairKickers(mr, fr, i);
    FrontPairParts(fr);
  }

  /** Ascending ranks whose only run of equal ranks is three long, from i. */
  predicate TripsAt(m: seq<int>, i: int) {
    && 0 <= i < |m| - 2
    && m[i] == m[i + 1] == m[i + 2]
    && forall j :: 0 <= j < |m| - 1 && j != i && j != i + 1 ==> m[j] != m[j + 1]
  }

  /** The trips kicker stage on sorted rank lists. */
  lemma TripsKickers(mr: seq<int>, fr: seq<int>, i: int)
    requires |mr| == 5 && TripsAt(mr, i)
    requires |fr| == 3 && Sorted(fr) && ClassifyThree(fr).handType == ThreeOfAKind
    ensures fr[0] == fr[1] == fr[2]
    ensures TripsFoul(mr, fr) ==
      if mr[i] < fr[0] then Success(true)
      else if mr[i] > fr[0] then Success(false)
      else Failure(DuplicateThreeOfAKind)
  {
  }

  /** Three of a kind in both mid and front (mid holding exactly trips): the
      higher trip rank wins; equal trip ranks are the duplicate error. */
  lemma FoulThreeOfAKind(o: Oracle, back: seq<int>, mid: seq<int>, front: seq<int>,
                         b: HandEval, m: HandEval, f: HandEval, i: int)
    requires EvalBack(o, back) == Success(b) && EvalMid(o, mid) == Success(m) && EvalFront(front) == Success(f)
    requires BackBeatsMid(b, m) && m.handType == ThreeOfAKind && f.handType == ThreeOfAKind
    requires TripsAt(SortAsc(Ranks(mid)), i)
    ensures var mr, fr := SortAsc(Ranks(mid)), SortAsc(Ranks(front));
      && fr[0] == fr[1] == fr[2]
      && FoulVerdict(o, back, mid, front) ==
           if mr[i] < fr[0] then Success(true)
           else if mr[i] > fr[0] then Success(false)
           else Failure(DuplicateThreeOfAKind)
  {
    FoulOnTie(o, back, mid, front, b, m, f);
    TripsKickers(SortAsc(Ranks(mid)), SortAsc(Ranks(front)), i);
  }
}
