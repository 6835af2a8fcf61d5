/**
 * The hand-strength classifier: counts the cards of the hand and the board
 * by rank and by suit, looks for a flush and for five consecutive ranks, and
 * maps the counts onto a fixed ladder of categories with fixed percentages.
 * There is no tie-breaking between hands of the same category.
 */
module HandStrength {
  import opened PokerTypes

  datatype HandRank =
    | HighCard | Pair | TwoPair | ThreeOfAKind | Straight
    | Flush | FullHouse | FourOfAKind | StraightFlush | RoyalFlush

  /** The category of a hand and its strength in percent. */
  datatype Strength = Strength(rank: HandRank, percentage: int)

  /** The fixed percentage of each category. */
  function PercentOf(r: HandRank): (p: int)
    ensures 30 <= p <= 100
  {
    match r
    case HighCard => 30
    case Pair => 50
    case TwoPair => 60
    case ThreeOfAKind => 70
    case Straight => 75
    case Flush => 80
    case FullHouse => 85
    case FourOfAKind => 90
    case StraightFlush => 95
    case RoyalFlush => 100
  }

  /** What a card is counted by: its rank or its suit. */
  datatype Feature = OfRank(r: Rank) | OfSuit(s: Suit)

  predicate Has(c: Card, f: Feature)
  {
    match f
    case OfRank(r) => c.rank == r
    case OfSuit(s) => c.suit == s
  }

  /** The number of cards with feature `f`. */
  function Count(cards: seq<Card>, f: Feature): (n: nat)
    ensures n <= |cards|
  {
    if cards == [] then 0 else (if Has(cards[0], f) then 1 else 0) + Count(cards[1..], f)
  }

  lemma {:induction false} CountAppend(a: seq<Card>, b: seq<Card>, f: Feature)
    ensures Count(a + b, f) == Count(a, f) + Count(b, f)
  {
    if a == [] {
      assert a + b == b;
    } else {
      assert (a + b)[1..] == a[1..] + b;
      CountAppend(a[1..], b, f);
    }
  }

  /** Counting does not depend on the order of the cards. */
  lemma {:induction false} CountPermutation(a: seq<Card>, b: seq<Card>, f: Feature)
    requires multiset(a) == multiset(b)
    ensures Count(a, f) == Count(b, f)
    decreases |a|
  {
    if a != [] {
      var x := a[0];
      assert x in multiset(b);
      var j :| 0 <= j < |b| && b[j] == x;
      var rest := b[..j] + b[j + 1..];
      RemoveOne(a, b, j);
      CountPermutation(a[1..], rest, f);
      CountWithout(b, j, f);
    }
  }

  /** Taking the first card off `a` and a copy of it off `b` keeps the two multisets equal. */
  lemma RemoveOne(a: seq<Card>, b: seq<Card>, j: nat)
    requires multiset(a) == multiset(b) && a != [] && j < |b| && b[j] == a[0]
    ensures multiset(a[1..]) == multiset(b[..j] + b[j + 1..])
  {
    var x := a[0];
    var rest := b[..j] + b[j + 1..];
    assert b == b[..j] + ([x] + b[j + 1..]);
    assert a == [x] + a[1..];
    forall y ensures multiset(a[1..])[y] == multiset(rest)[y] {
      assert multiset(b)[y] == multiset(b[..j])[y] + multiset([x])[y] + multiset(b[j + 1..])[y];
      assert multiset(a)[y] == multiset([x])[y] + multiset(a[1..])[y];
    }
  }

  /** Removing the card at `j` removes its contribution to the count. */
  lemma CountWithout(b: seq<Card>, j: nat, f: Feature)
    requires j < |b|
    ensures Count(b, f) == (if Has(b[j], f) then 1 else 0) + Count(b[..j] + b[j + 1..], f)
  {
    assert b == b[..j] + ([b[j]] + b[j + 1..]);
    CountAppend(b[..j], [b[j]] + b[j + 1..], f);
    CountAppend([b[j]], b[j + 1..], f);
    CountAppend(b[..j], b[j + 1..], f);
    assert [b[j]][1..] == [];
  }

  /** The rank dictionary of the hook: each rank that occurs, with the number of its cards. */
  function RankGroups(cards: seq<Card>): (rg: map<Rank, nat>)
    ensures forall r :: r in rg <==> Count(cards, OfRank(r)) > 0
    ensures forall r :: r in rg ==> rg[r] == Count(cards, OfRank(r))
  {
    map r | r in Ranks && Count(cards, OfRank(r)) > 0 :: Count(cards, OfRank(r))
  }

  /** The suit dictionary of the hook: each suit that occurs, with the number of its cards. */
  function SuitGroups(cards: seq<Card>): (sg: map<Suit, nat>)
    ensures forall s :: s in sg <==> Count(cards, OfSuit(s)) > 0
    ensures forall s :: s in sg ==> sg[s] == Count(cards, OfSuit(s))
  {
    map s | s in Suits && Count(cards, OfSuit(s)) > 0 :: Count(cards, OfSuit(s))
  }

  /** Ranks from lowest to highest, each at most once. */
  predicate Ascending(u: seq<Rank>)
  {
    forall i, j :: 0 <= i < j < |u| ==> RankIndex(u[i]) < RankIndex(u[j])
  }

  /** The ranks of `rs` that are keys of `rg`, in the order of `rs`. */
  function RanksIn(rs: seq<Rank>, rg: map<Rank, nat>): (u: seq<Rank>)
    ensures forall r :: r in u <==> r in rs && r in rg
    ensures |u| <= |rs|
  {
    if rs == [] then []
    else (if rs[0] in rg then [rs[0]] else []) + RanksIn(rs[1..], rg)
  }

  /** The distinct ranks of the hand, from lowest to highest. */
  function UniqueRanks(rg: map<Rank, nat>): (u: seq<Rank>)
    ensures forall r :: r in u <==> r in rg
    ensures Ascending(u)
  {
    EveryRankListed();
    RanksAscending();
    RanksInAscending(Ranks, rg);
    RanksIn(Ranks, rg)
  }

  /** Keeping some ranks of an ascending list keeps it ascending. */
  lemma {:induction false} RanksInAscending(rs: seq<Rank>, rg: map<Rank, nat>)
    requires Ascending(rs)
    ensures Ascending(RanksIn(rs, rg))
  {
    if rs != [] {
      AscendingTail(rs);
      RanksInAscending(rs[1..], rg);
      var w := RanksIn(rs[1..], rg);
      HeadBelowTail(rs, w);
      if rs[0] in rg {
        ConsAscending(rs[0], w);
        assert RanksIn(rs, rg) == [rs[0]] + w;
      } else {
        assert RanksIn(rs, rg) == w;
      }
    }
  }

  /** The head of an ascending list is below every rank taken from its tail. */
  lemma HeadBelowTail(rs: seq<Rank>, w: seq<Rank>)
    requires Ascending(rs) && rs != [] && forall r :: r in w ==> r in rs[1..]
    ensures forall r :: r in w ==> RankIndex(rs[0]) < RankIndex(r)
  {
    forall r | r in w ensures RankIndex(rs[0]) < RankIndex(r) {
      var k :| 0 <= k < |rs| - 1 && rs[1..][k] == r;
      assert rs[k + 1] == r;
    }
  }

  /** A rank below every rank of an ascending list can be put in front of it. */
  lemma ConsAscending(x: Rank, w: seq<Rank>)
    requires Ascending(w) && forall r :: r in w ==> RankIndex(x) < RankIndex(r)
    ensures Ascending([x] + w)
  {
    var u := [x] + w;
    forall i, j | 0 <= i < j < |u| ensures RankIndex(u[i]) < RankIndex(u[j]) {
      assert u[j] == w[j - 1];
      if i == 0 {
        assert u[j] in w;
      } else {
        assert u[i] == w[i - 1];
      }
    }
  }

  /** The first rank of an ascending list is its lowest. */
  lemma AscendingHead(u: seq<Rank>, r: Rank)
    requires Ascending(u) && r in u
    ensures RankIndex(u[0]) <= RankIndex(r)
  {
    var k :| 0 <= k < |u| && u[k] == r;
  }

  lemma RanksAscending()
    ensures Ascending(Ranks)
  {
    forall i | 0 <= i < |Ranks|
      ensures RankIndex(Ranks[i]) == i
    {
      if i < 4 {
        assert i == 0 || i == 1 || i == 2 || i == 3;
      } else if i < 8 {
        assert i == 4 || i == 5 || i == 6 || i == 7;
      } else {
        assert i == 8 || i == 9 || i == 10 || i == 11 || i == 12;
      }
    }
  }

  /** Two ascending lists of the same ranks are the same list. */
  lemma {:induction false} AscendingUnique(u: seq<Rank>, v: seq<Rank>)
    requires Ascending(u) && Ascending(v)
    requires forall r :: r in u <==> r in v
    ensures u == v
  {
    if v != [] {
      assert v[0] in u;
    }
    if u != [] {
      assert u[0] in v;
      AscendingHead(u, v[0]);
      AscendingHead(v, u[0]);
      assert Ranks[RankIndex(u[0])] == u[0] && Ranks[RankIndex(v[0])] == v[0];
      assert u[0] == v[0];
      forall r ensures r in u[1..] <==> r in v[1..] {
        if r in u[1..] {
          var k :| 1 <= k < |u| && u[k] == r;
          assert r in u && r in v;
          var m :| 0 <= m < |v| && v[m] == r;
          assert m != 0 && v[1..][m - 1] == r;
        }
        if r in v[1..] {
          var k :| 1 <= k < |v| && v[k] == r;
          assert r in v && r in u;
          var m :| 0 <= m < |u| && u[m] == r;
          assert m != 0 && u[1..][m - 1] == r;
        }
      }
      AscendingTail(u);
      AscendingTail(v);
      AscendingUnique(u[1..], v[1..]);
      assert u == [u[0]] + u[1..] && v == [v[0]] + v[1..];
    }
  }

  lemma AscendingTail(u: seq<Rank>)
    requires Ascending(u) && u != []
    ensures Ascending(u[1..])
  {
    var tail := u[1..];
    forall i, j | 0 <= i < j < |tail| ensures RankIndex(tail[i]) < RankIndex(tail[j]) {
      assert tail[i] == u[i + 1] && tail[j] == u[j + 1];
    }
  }

  /** Five ranks from position `i` on that follow each other without a gap. */
  predicate Consecutive(u: seq<Rank>, i: nat)
  {
    i + 5 <= |u| &&
    var window := u[i..i + 5];
    forall k :: 0 <= k < 5 ==> RankIndex(window[k]) == RankIndex(window[0]) + k
  }

  /**
   * The top rank of the first run of five consecutive ranks starting at or
   * after position `i`, or None when there is no such run.
   */
  function LowestStraight(u: seq<Rank>, i: nat): (h: Option<Rank>)
    ensures h.Some? ==> exists j :: i <= j && Consecutive(u, j) && u[j + 4] == h.value &&
                          forall j' :: i <= j' < j ==> !Consecutive(u, j')
    ensures h.None? ==> forall j :: i <= j ==> !Consecutive(u, j)
    decreases |u| - i
  {
    if i + 5 > |u| then None
    else if Consecutive(u, i) then Some(u[i + 4])
    else LowestStraight(u, i + 1)
  }

  /** The number of ranks of `rs` that occur exactly `c` times according to `rg` (the hook counts over the keys of its rank dictionary). */
  function RanksWithCount(rs: seq<Rank>, rg: map<Rank, nat>, c: nat): (n: nat)
    ensures n <= |rs|
  {
    if rs == [] then 0
    else (if rs[0] in rg && rg[rs[0]] == c then 1 else 0) + RanksWithCount(rs[1..], rg, c)
  }

  /** No rank is counted when none of them occurs exactly `c` times, and conversely. */
  lemma {:induction false} RanksWithCountZero(rs: seq<Rank>, rg: map<Rank, nat>, c: nat)
    ensures RanksWithCount(rs, rg, c) == 0 <==> forall r :: r in rs && r in rg ==> rg[r] != c
  {
    if rs != [] {
      RanksWithCountZero(rs[1..], rg, c);
      forall r | r in rs ensures r == rs[0] || r in rs[1..] {
        var k :| 0 <= k < |rs| && rs[k] == r;
        if k > 0 {
          assert rs[1..][k - 1] == r;
        }
      }
    }
  }

  /** Some suit has five cards or more (`Object.values(suitGroups).some(count => count >= 5)`). */
  predicate SomeSuitWithFive(sg: map<Suit, nat>)
  {
    exists s :: s in sg && sg[s] >= 5
  }

  predicate SomeRankWithCount(rg: map<Rank, nat>, c: nat)
  {
    exists r :: r in rg && rg[r] == c
  }

  /**
   * The category ladder: the first row whose condition holds decides the
   * category, and the category decides the percentage.
   */
  function Ladder(straightHigh: Option<Rank>, hasFlush: bool, pairs: nat, hasTrips: bool, hasQuads: bool): (s: Strength)
    ensures s.percentage == PercentOf(s.rank)
  {
    var rank :=
      if straightHigh.Some? && hasFlush then
        (if straightHigh.value == Ace then RoyalFlush else StraightFlush)
      else if hasQuads then FourOfAKind
      else if hasTrips && pairs > 0 then FullHouse
      else if hasFlush then Flush
      else if straightHigh.Some? then Straight
      else if hasTrips then ThreeOfAKind
      else if pairs == 2 then TwoPair
      else if pairs == 1 then Pair
      else HighCard;
    Strength(rank, PercentOf(rank))
  }

  /** Each category of the ladder, and the exact condition under which the hook reports it. */
  lemma LadderRows(straightHigh: Option<Rank>, hasFlush: bool, pairs: nat, hasTrips: bool, hasQuads: bool)
    ensures var r := Ladder(straightHigh, hasFlush, pairs, hasTrips, hasQuads).rank;
      (r == RoyalFlush <==> straightHigh == Some(Ace) && hasFlush) &&
      (r == StraightFlush <==> straightHigh.Some? && straightHigh != Some(Ace) && hasFlush) &&
      (r == FourOfAKind <==> !(straightHigh.Some? && hasFlush) && hasQuads) &&
      (r == FullHouse <==> !(straightHigh.Some? && hasFlush) && !hasQuads && hasTrips && pairs > 0) &&
      (r == Flush <==> hasFlush && straightHigh.None? && !hasQuads && !(hasTrips && pairs > 0)) &&
      (r == Straight <==> straightHigh.Some? && !hasFlush && !hasQuads && !(hasTrips && pairs > 0)) &&
      (r == ThreeOfAKind <==> straightHigh.None? && !hasFlush && !hasQuads && hasTrips && pairs == 0) &&
      (r == TwoPair <==> straightHigh.None? && !hasFlush && !hasQuads && !hasTrips && pairs == 2) &&
      (r == Pair <==> straightHigh.None? && !hasFlush && !hasQuads && !hasTrips && pairs == 1) &&
      (r == HighCard <==> straightHigh.None? && !hasFlush && !hasQuads && !hasTrips && pairs != 1 && pairs != 2)
  {
  }

  /** The strength of a hand whose cards, hole cards and board together, are `cards`. */
  function Evaluate(cards: seq<Card>): (s: Strength)
    ensures |cards| < 2 ==> s == Strength(HighCard, 0)
    ensures 0 <= s.percentage <= 100
    ensures |cards| >= 2 ==> s.percentage == PercentOf(s.rank)
  {
    if |cards| < 2 then Strength(HighCard, 0)
    else Classify(RankGroups(cards), SuitGroups(cards))
  }

  /**
   * The ladder applied to a rank dictionary and a suit dictionary; which
   * category it picks is stated row by row by `LadderRows`.
   */
  function Classify(rg: map<Rank, nat>, sg: map<Suit, nat>): (s: Strength)
    ensures s.percentage == PercentOf(s.rank)
    ensures s.rank in {RoyalFlush, StraightFlush, Flush} ==> SomeSuitWithFive(sg)
    ensures s.rank == FourOfAKind ==> SomeRankWithCount(rg, 4)
  {
    var u := UniqueRanks(rg);
    Ladder(LowestStraight(u, 0), SomeSuitWithFive(sg), RanksWithCount(u, rg, 2),
           SomeRankWithCount(rg, 3), SomeRankWithCount(rg, 4))
  }

  /** The hand has a flush exactly when five or more of its cards share a suit. */
  lemma FlushIff(cards: seq<Card>)
    requires |cards| >= 2
    ensures Evaluate(cards).rank in {Flush, StraightFlush, RoyalFlush} ==>
              exists s :: Count(cards, OfSuit(s)) >= 5
    ensures (exists s :: Count(cards, OfSuit(s)) >= 5) ==>
              Evaluate(cards).rank in {Flush, StraightFlush, RoyalFlush, FourOfAKind, FullHouse}
  {
    var sg := SuitGroups(cards);
    if exists s :: Count(cards, OfSuit(s)) >= 5 {
      var s :| Count(cards, OfSuit(s)) >= 5;
      assert s in sg && sg[s] >= 5;
    }
  }

  /** Reordering the cards changes neither the category nor the percentage. */
  lemma EvaluatePermutation(a: seq<Card>, b: seq<Card>)
    requires multiset(a) == multiset(b)
    ensures Evaluate(a) == Evaluate(b)
  {
    assert |a| == |multiset(a)| == |b|;
    forall f: Feature
      ensures Count(a, f) == Count(b, f)
    {
      CountPermutation(a, b, f);
    }
    assert RankGroups(a) == RankGroups(b);
    assert SuitGroups(a) == SuitGroups(b);
  }

  /** The hook: groups the cards, looks for a flush and a straight, and climbs the ladder. */
  method EvaluateHand(holeCards: seq<Card>, communityCards: seq<Card>) returns (s: Strength)
    ensures s == Evaluate(holeCards + communityCards)
  {
    var allCards := holeCards + communityCards;
    if |allCards| < 2 {
      return Strength(HighCard, 0);
    }
    var rankGroups, suitGroups := GroupCards(allCards);
    var hasFlush := SomeSuitWithFive(suitGroups);
    var uniqueRanks := UniqueRanks(rankGroups);
    var hasStraight, straightHigh := FindStraight(uniqueRanks);
    var pairs := RanksWithCount(uniqueRanks, rankGroups, 2);
    var hasTrips := SomeRankWithCount(rankGroups, 3);
    var hasQuads := SomeRankWithCount(rankGroups, 4);
    s := Ladder(straightHigh, hasFlush, pairs, hasTrips, hasQuads);
    assert s == Classify(rankGroups, suitGroups);
  }

  /** Counts the cards by rank and by suit, one card at a time. */
  method GroupCards(cards: seq<Card>) returns (rankGroups: map<Rank, nat>, suitGroups: map<Suit, nat>)
    ensures rankGroups == RankGroups(cards) && suitGroups == SuitGroups(cards)
  {
    rankGroups, suitGroups := map[], map[];
    for i := 0 to |cards|
      invariant IsTally(rankGroups, suitGroups, cards[..i])
    {
      var card := cards[i];
      rankGroups := rankGroups[card.rank := (if card.rank in rankGroups then rankGroups[card.rank] else 0) + 1];
      suitGroups := suitGroups[card.suit := (if card.suit in suitGroups then suitGroups[card.suit] else 0) + 1];
      assert cards[..i + 1] == cards[..i] + [card];
      forall f: Feature
        ensures Count(cards[..i + 1], f) == Count(cards[..i], f) + (if Has(card, f) then 1 else 0)
      {
        CountAppend(cards[..i], [card], f);
        assert [card][1..] == [];
      }
    }
    assert cards[..|cards|] == cards;
    TallyIsGroups(rankGroups, suitGroups, cards);
  }

  /** `rg` and `sg` hold, for each rank and suit that occurs in `cards`, the number of its cards. */
  predicate IsTally(rg: map<Rank, nat>, sg: map<Suit, nat>, cards: seq<Card>)
  {
    (forall r :: (r in rg <==> Count(cards, OfRank(r)) > 0) && (r in rg ==> rg[r] == Count(cards, OfRank(r)))) &&
    (forall s :: (s in sg <==> Count(cards, OfSuit(s)) > 0) && (s in sg ==> sg[s] == Count(cards, OfSuit(s))))
  }

  lemma TallyIsGroups(rg: map<Rank, nat>, sg: map<Suit, nat>, cards: seq<Card>)
    requires IsTally(rg, sg, cards)
    ensures rg == RankGroups(cards) && sg == SuitGroups(cards)
  {
  }

  /**
   * Looks at the windows of five ranks from the lowest up and stops at the
   * first one that is a run; its top rank is the straight's high card.
   */
  method FindStraight(uniqueRanks: seq<Rank>) returns (hasStraight: bool, straightHigh: Option<Rank>)
    ensures straightHigh == LowestStraight(uniqueRanks, 0)
    ensures hasStraight <==> straightHigh.Some?
  {
    hasStraight, straightHigh := false, None;
    var i := 0;
    while i <= |uniqueRanks| - 5
      invariant LowestStraight(uniqueRanks, i) == LowestStraight(uniqueRanks, 0)
      decreases |uniqueRanks| - i
    {
      if Consecutive(uniqueRanks, i) {
        hasStraight, straightHigh := true, Some(uniqueRanks[i + 4]);
        break;
      }
      i := i + 1;
    }
  }

  /** One for a card with feature `f`, zero otherwise. */
  function Ind(c: Card, f: Feature): (n: nat)
    ensures n == 1 <==> Has(c, f)
    ensures n <= 1
  {
    if Has(c, f) then 1 else 0
  }

  lemma CountFive(a: Card, b: Card, c: Card, d: Card, e: Card)
    ensures forall f :: Count([a, b, c, d, e], f) == Ind(a, f) + Ind(b, f) + Ind(c, f) + Ind(d, f) + Ind(e, f)
  {
    forall f ensures Count([a, b, c, d, e], f) == Ind(a, f) + Ind(b, f) + Ind(c, f) + Ind(d, f) + Ind(e, f) {
      assert [e][1..] == [];
      assert Count([e], f) == Ind(e, f);
      assert [d, e][1..] == [e];
      assert Count([d, e], f) == Ind(d, f) + Ind(e, f);
      assert [c, d, e][1..] == [d, e];
      assert Count([c, d, e], f) == Ind(c, f) + Count([d, e], f);
      assert [b, c, d, e][1..] == [c, d, e];
      assert Count([b, c, d, e], f) == Ind(b, f) + Count([c, d, e], f);
      assert [a, b, c, d, e][1..] == [b, c, d, e];
    }
  }

  lemma CountSix(a: Card, b: Card, c: Card, d: Card, e: Card, g: Card)
    ensures forall f :: Count([a, b, c, d, e, g], f) == Ind(a, f) + Count([b, c, d, e, g], f)
    ensures forall f :: Count([a, b, c, d, e, g], f) ==
                          Ind(a, f) + Ind(b, f) + Ind(c, f) + Ind(d, f) + Ind(e, f) + Ind(g, f)
  {
    assert [a, b, c, d, e, g][1..] == [b, c, d, e, g];
    CountFive(b, c, d, e, g);
  }

  function C(s: Suit, r: Rank): Card
  {
    Card(s, r, None)
  }

  /**
   * The classifier in terms of card counts: given the hand's distinct ranks
   * in ascending order, the category is read off the counts alone.
   */
  lemma EvaluateByCounts(cards: seq<Card>, u: seq<Rank>)
    requires |cards| >= 2
    requires Ascending(u) && forall r :: Count(cards, OfRank(r)) > 0 <==> r in u
    ensures Evaluate(cards) ==
      Ladder(LowestStraight(u, 0),
             exists s :: Count(cards, OfSuit(s)) >= 5,
             RanksWithCount(u, RankGroups(cards), 2),
             exists r :: Count(cards, OfRank(r)) == 3,
             exists r :: Count(cards, OfRank(r)) == 4)
  {
    var rg, sg := RankGroups(cards), SuitGroups(cards);
    AscendingUnique(UniqueRanks(rg), u);
    var hasFlush := SomeSuitWithFive(sg);
    assert hasFlush <==> exists s :: Count(cards, OfSuit(s)) >= 5 by {
      if exists s :: Count(cards, OfSuit(s)) >= 5 {
        var s :| Count(cards, OfSuit(s)) >= 5;
        assert s in sg;
      }
    }
    assert SomeRankWithCount(rg, 3) <==> exists r :: Count(cards, OfRank(r)) == 3 by {
      if exists r :: Count(cards, OfRank(r)) == 3 {
        var r :| Count(cards, OfRank(r)) == 3;
        assert r in rg;
      }
    }
    assert SomeRankWithCount(rg, 4) <==> exists r :: Count(cards, OfRank(r)) == 4 by {
      if exists r :: Count(cards, OfRank(r)) == 4 {
        var r :| Count(cards, OfRank(r)) == 4;
        assert r in rg;
      }
    }
    assert Evaluate(cards) == Classify(rg, sg);
  }

  /** Five ranks in a row, stated step by step. */
  lemma RunOfFive(u: seq<Rank>, i: nat)
    requires i + 5 <= |u|
    requires RankIndex(u[i + 1]) == RankIndex(u[i]) + 1 && RankIndex(u[i + 2]) == RankIndex(u[i]) + 2
    requires RankIndex(u[i + 3]) == RankIndex(u[i]) + 3 && RankIndex(u[i + 4]) == RankIndex(u[i]) + 4
    ensures Consecutive(u, i)
  {
    var window := u[i..i + 5];
    forall k | 0 <= k < 5 ensures RankIndex(window[k]) == RankIndex(window[0]) + k {
      assert window[k] == u[i + k];
    }
  }

  /** Hole cards A and K of hearts with Q, J and 10 of hearts on the board: a royal flush. */
  lemma RoyalFlushExample(hole: seq<Card>, board: seq<Card>)
    requires hole == [C(Hearts, Ace), C(Hearts, King)]
    requires board == [C(Hearts, Queen), C(Hearts, Jack), C(Hearts, Ten)]
    ensures Evaluate(hole + board) == Strength(RoyalFlush, 100)
  {
    var cards := hole + board;
    var u := [Ten, Jack, Queen, King, Ace];
    RoyalFlushCounts(cards, u);
    EvaluateByCounts(cards, u);
    LadderRows(LowestStraight(u, 0), exists s :: Count(cards, OfSuit(s)) >= 5, RanksWithCount(u, RankGroups(cards), 2),
               exists r :: Count(cards, OfRank(r)) == 3, exists r :: Count(cards, OfRank(r)) == 4);
  }

  lemma RoyalFlushCounts(cards: seq<Card>, u: seq<Rank>)
    requires cards == [C(Hearts, Ace), C(Hearts, King)] + [C(Hearts, Queen), C(Hearts, Jack), C(Hearts, Ten)]
    requires u == [Ten, Jack, Queen, King, Ace]
    ensures |cards| >= 2 && Ascending(u) && forall r :: Count(cards, OfRank(r)) > 0 <==> r in u
    ensures LowestStraight(u, 0) == Some(Ace)
    ensures Count(cards, OfSuit(Hearts)) == 5
  {
    assert cards == [C(Hearts, Ace), C(Hearts, King), C(Hearts, Queen), C(Hearts, Jack), C(Hearts, Ten)];
    CountFive(C(Hearts, Ace), C(Hearts, King), C(Hearts, Queen), C(Hearts, Jack), C(Hearts, Ten));
    RunOfFive(u, 0);
  }

  /** Hole cards 8 and 7 of clubs with 6, 5 and 4 of clubs on the board: a straight flush. */
  lemma StraightFlushExample(hole: seq<Card>, board: seq<Card>)
    requires hole == [C(Clubs, Eight), C(Clubs, Seven)]
    requires board == [C(Clubs, Six), C(Clubs, Five), C(Clubs, Four)]
    ensures Evaluate(hole + board) == Strength(StraightFlush, 95)
  {
    var cards := hole + board;
    var u := [Four, Five, Six, Seven, Eight];
    StraightFlushCounts(cards, u);
    EvaluateByCounts(cards, u);
    LadderRows(LowestStraight(u, 0), exists s :: Count(cards, OfSuit(s)) >= 5, RanksWithCount(u, RankGroups(cards), 2),
               exists r :: Count(cards, OfRank(r)) == 3, exists r :: Count(cards, OfRank(r)) == 4);
  }

  lemma StraightFlushCounts(cards: seq<Card>, u: seq<Rank>)
    requires cards == [C(Clubs, Eight), C(Clubs, Seven)] + [C(Clubs, Six), C(Clubs, Five), C(Clubs, Four)]
    requires u == [Four, Five, Six, Seven, Eight]
    ensures |cards| >= 2 && Ascending(u) && forall r :: Count(cards, OfRank(r)) > 0 <==> r in u
    ensures LowestStraight(u, 0) == Some(Eight)
    ensures Count(cards, OfSuit(Clubs)) == 5
  {
    assert cards == [C(Clubs, Eight), C(Clubs, Seven), C(Clubs, Six), C(Clubs, Five), C(Clubs, Four)];
    CountFive(C(Clubs, Eight), C(Clubs, Seven), C(Clubs, Six), C(Clubs, Five), C(Clubs, Four));
    RunOfFive(u, 0);
  }

  /** Two aces in the hand and two more with a king on the board: four of a kind. */
  lemma FourOfAKindExample(hole: seq<Card>, board: seq<Card>)
    requires hole == [C(Hearts, Ace), C(Diamonds, Ace)]
    requires board == [C(Clubs, Ace), C(Spades, Ace), C(Hearts, King)]
    ensures Evaluate(hole + board) == Strength(FourOfAKind, 90)
  {
    var cards := hole + board;
    var u := [King, Ace];
    FourOfAKindCounts(cards, u);
    FourOfAKindTallies(cards, u);
    EvaluateByCounts(cards, u);
    LadderRows(LowestStraight(u, 0), exists s :: Count(cards, OfSuit(s)) >= 5, RanksWithCount(u, RankGroups(cards), 2),
               exists r :: Count(cards, OfRank(r)) == 3, exists r :: Count(cards, OfRank(r)) == 4);
  }

  lemma FourOfAKindCounts(cards: seq<Card>, u: seq<Rank>)
    requires cards == [C(Hearts, Ace), C(Diamonds, Ace)] + [C(Clubs, Ace), C(Spades, Ace), C(Hearts, King)]
    requires u == [King, Ace]
    ensures |cards| >= 2 && Ascending(u) && forall r :: Count(cards, OfRank(r)) > 0 <==> r in u
    ensures LowestStraight(u, 0).None?
  {
    assert cards == [C(Hearts, Ace), C(Diamonds, Ace), C(Clubs, Ace), C(Spades, Ace), C(Hearts, King)];
    CountFive(C(Hearts, Ace), C(Diamonds, Ace), C(Clubs, Ace), C(Spades, Ace), C(Hearts, King));
  }

  lemma FourOfAKindTallies(cards: seq<Card>, u: seq<Rank>)
    requires cards == [C(Hearts, Ace), C(Diamonds, Ace)] + [C(Clubs, Ace), C(Spades, Ace), C(Hearts, King)]
    requires u == [King, Ace]
    ensures Count(cards, OfRank(Ace)) == 4
  {
    assert cards == [C(Hearts, Ace), C(Diamonds, Ace), C(Clubs, Ace), C(Spades, Ace), C(Hearts, King)];
    CountFive(C(Hearts, Ace), C(Diamonds, Ace), C(Clubs, Ace), C(Spades, Ace), C(Hearts, King));
  }

  /** Two aces in the hand, a third ace and two kings on the board: a full house. */
  lemma FullHouseExample(hole: seq<Card>, board: seq<Card>)
    requires hole == [C(Hearts, Ace), C(Diamonds, Ace)]
    requires board == [C(Clubs, Ace), C(Spades, King), C(Hearts, King)]
    ensures Evaluate(hole + board) == Strength(FullHouse, 85)
  {
    var cards := hole + board;
    var u := [King, Ace];
    FullHouseCounts(cards, u);
    FullHouseTallies(cards, u);
    EvaluateByCounts(cards, u);
    LadderRows(LowestStraight(u, 0), exists s :: Count(cards, OfSuit(s)) >= 5, RanksWithCount(u, RankGroups(cards), 2),
               exists r :: Count(cards, OfRank(r)) == 3, exists r :: Count(cards, OfRank(r)) == 4);
  }

  lemma FullHouseCounts(cards: seq<Card>, u: seq<Rank>)
    requires cards == [C(Hearts, Ace), C(Diamonds, Ace)] + [C(Clubs, Ace), C(Spades, King), C(Hearts, King)]
    requires u == [King, Ace]
    ensures |cards| >= 2 && Ascending(u) && forall r :: Count(cards, OfRank(r)) > 0 <==> r in u
    ensures LowestStraight(u, 0).None?
  {
    assert cards == [C(Hearts, Ace), C(Diamonds, Ace), C(Clubs, Ace), C(Spades, King), C(Hearts, King)];
    CountFive(C(Hearts, Ace), C(Diamonds, Ace), C(Clubs, Ace), C(Spades, King), C(Hearts, King));
  }

  lemma FullHouseTallies(cards: seq<Card>, u: seq<Rank>)
    requires cards == [C(Hearts, Ace), C(Diamonds, Ace)] + [C(Clubs, Ace), C(Spades, King), C(Hearts, King)]
    requires u == [King, Ace]
    ensures forall s :: Count(cards, OfSuit(s)) < 5
    ensures forall r :: Count(cards, OfRank(r)) != 4
    ensures Count(cards, OfRank(Ace)) == 3
    ensures RanksWithCount(u, RankGroups(cards), 2) > 0
  {
    assert cards == [C(Hearts, Ace), C(Diamonds, Ace), C(Clubs, Ace), C(Spades, King), C(Hearts, King)];
    CountFive(C(Hearts, Ace), C(Diamonds, Ace), C(Clubs, Ace), C(Spades, King), C(Hearts, King));
    assert RankGroups(cards)[King] == 2;
  }

  /** Ace and king in the hand, an ace, a 2 and a 3 on the board: one pair. */
  lemma PairExample(hole: seq<Card>, board: seq<Card>)
    requires hole == [C(Hearts, Ace), C(Diamonds, King)]
    requires board == [C(Clubs, Ace), C(Spades, Two), C(Hearts, Three)]
    ensures Evaluate(hole + board) == Strength(Pair, 50)
  {
    var cards := hole + board;
    var u := [Two, Three, King, Ace];
    PairCounts(cards, u);
    PairTallies(cards, u);
    PairPairs(cards, u);
    EvaluateByCounts(cards, u);
    LadderRows(LowestStraight(u, 0), exists s :: Count(cards, OfSuit(s)) >= 5, RanksWithCount(u, RankGroups(cards), 2),
               exists r :: Count(cards, OfRank(r)) == 3, exists r :: Count(cards, OfRank(r)) == 4);
  }

  lemma PairCounts(cards: seq<Card>, u: seq<Rank>)
    requires cards == [C(Hearts, Ace), C(Diamonds, King)] + [C(Clubs, Ace), C(Spades, Two), C(Hearts, Three)]
    requires u == [Two, Three, King, Ace]
    ensures |cards| >= 2 && Ascending(u) && forall r :: Count(cards, OfRank(r)) > 0 <==> r in u
    ensures LowestStraight(u, 0).None?
  {
    assert cards == [C(Hearts, Ace), C(Diamonds, King), C(Clubs, Ace), C(Spades, Two), C(Hearts, Three)];
    CountFive(C(Hearts, Ace), C(Diamonds, King), C(Clubs, Ace), C(Spades, Two), C(Hearts, Three));
  }

  lemma PairTallies(cards: seq<Card>, u: seq<Rank>)
    requires cards == [C(Hearts, Ace), C(Diamonds, King)] + [C(Clubs, Ace), C(Spades, Two), C(Hearts, Three)]
    requires u == [Two, Three, King, Ace]
    ensures forall s :: Count(cards, OfSuit(s)) < 5
    ensures forall r :: Count(cards, OfRank(r)) != 3 && Count(cards, OfRank(r)) != 4
  {
    assert cards == [C(Hearts, Ace), C(Diamonds, King), C(Clubs, Ace), C(Spades, Two), C(Hearts, Three)];
    CountFive(C(Hearts, Ace), C(Diamonds, King), C(Clubs, Ace), C(Spades, Two), C(Hearts, Three));
  }

  lemma PairPairs(cards: seq<Card>, u: seq<Rank>)
    requires cards == [C(Hearts, Ace), C(Diamonds, King)] + [C(Clubs, Ace), C(Spades, Two), C(Hearts, Three)]
    requires u == [Two, Three, King, Ace]
    ensures RanksWithCount(u, RankGroups(cards), 2) == 1
  {
    var rg := RankGroups(cards);
    assert Two in rg && rg[Two] == 1 && Three in rg && rg[Three] == 1 && King in rg && rg[King] == 1 && Ace in rg && rg[Ace] == 2 by {
      assert cards == [C(Hearts, Ace), C(Diamonds, King), C(Clubs, Ace), C(Spades, Two), C(Hearts, Three)];
      CountFive(C(Hearts, Ace), C(Diamonds, King), C(Clubs, Ace), C(Spades, Two), C(Hearts, Three));
    }
    RanksWithCountFour(Two, Three, King, Ace, rg, 2);
  }

  lemma RanksWithCountFour(a: Rank, b: Rank, c: Rank, d: Rank, rg: map<Rank, nat>, k: nat)
    ensures RanksWithCount([a, b, c, d], rg, k) ==
      (if a in rg && rg[a] == k then 1 else 0) + (if b in rg && rg[b] == k then 1 else 0) +
      (if c in rg && rg[c] == k then 1 else 0) + (if d in rg && rg[d] == k then 1 else 0)
  {
    assert [d][1..] == [];
    assert RanksWithCount([d], rg, k) == (if d in rg && rg[d] == k then 1 else 0);
    assert [c, d][1..] == [d];
    assert RanksWithCount([c, d], rg, k) == (if c in rg && rg[c] == k then 1 else 0) + RanksWithCount([d], rg, k);
    assert [b, c, d][1..] == [c, d];
    assert RanksWithCount([b, c, d], rg, k) == (if b in rg && rg[b] == k then 1 else 0) + RanksWithCount([c, d], rg, k);
    assert [a, b, c, d][1..] == [b, c, d];
  }

  /** A, 2, 3, 4 and 5 of mixed suits: the ace only counts high, so there is no straight and the hand is a high card. */
  lemma WheelIsHighCardExample(hole: seq<Card>, board: seq<Card>)
    requires hole == [C(Hearts, Ace), C(Diamonds, Two)]
    requires board == [C(Clubs, Three), C(Spades, Four), C(Hearts, Five)]
    ensures Evaluate(hole + board) == Strength(HighCard, 30)
  {
    var cards := hole + board;
    var u := [Two, Three, Four, Five, Ace];
    WheelIsHighCardCounts(cards, u);
    WheelIsHighCardTallies(cards, u);
    EvaluateByCounts(cards, u);
    LadderRows(LowestStraight(u, 0), exists s :: Count(cards, OfSuit(s)) >= 5, RanksWithCount(u, RankGroups(cards), 2),
               exists r :: Count(cards, OfRank(r)) == 3, exists r :: Count(cards, OfRank(r)) == 4);
  }

  lemma WheelIsHighCardCounts(cards: seq<Card>, u: seq<Rank>)
    requires cards == [C(Hearts, Ace), C(Diamonds, Two)] + [C(Clubs, Three), C(Spades, Four), C(Hearts, Five)]
    requires u == [Two, Three, Four, Five, Ace]
    ensures |cards| >= 2 && Ascending(u) && forall r :: Count(cards, OfRank(r)) > 0 <==> r in u
    ensures LowestStraight(u, 0).None?
  {
    assert cards == [C(Hearts, Ace), C(Diamonds, Two), C(Clubs, Three), C(Spades, Four), C(Hearts, Five)];
    CountFive(C(Hearts, Ace), C(Diamonds, Two), C(Clubs, Three), C(Spades, Four), C(Hearts, Five));
    assert !Consecutive(u, 0) by {
      assert u[0..5][4] == Ace;
    }
  }

  lemma WheelIsHighCardTallies(cards: seq<Card>, u: seq<Rank>)
    requires cards == [C(Hearts, Ace), C(Diamonds, Two)] + [C(Clubs, Three), C(Spades, Four), C(Hearts, Five)]
    requires u == [Two, Three, Four, Five, Ace]
    ensures forall s :: Count(cards, OfSuit(s)) < 5
    ensures forall r :: Count(cards, OfRank(r)) <= 1
    ensures RanksWithCount(u, RankGroups(cards), 2) == 0
  {
    assert cards == [C(Hearts, Ace), C(Diamonds, Two), C(Clubs, Three), C(Spades, Four), C(Hearts, Five)];
    CountFive(C(Hearts, Ace), C(Diamonds, Two), C(Clubs, Three), C(Spades, Four), C(Hearts, Five));
    RanksWithCountZero(u, RankGroups(cards), 2);
  }

  /** The straight (2 to 6, through the 6 of clubs) and the flush (2, 3, 4, 5 and 7 of hearts) use different cards, yet the hand is reported as a straight flush: the two tests are independent. */
  lemma StraightFlushAcrossSuitsExample(hole: seq<Card>, board: seq<Card>)
    requires hole == [C(Hearts, Two), C(Hearts, Three)]
    requires board == [C(Hearts, Four), C(Hearts, Five), C(Hearts, Seven), C(Clubs, Six)]
    ensures Evaluate(hole + board) == Strength(StraightFlush, 95)
  {
    var cards := hole + board;
    var u := [Two, Three, Four, Five, Six, Seven];
    StraightFlushAcrossSuitsCounts(cards, u);
    EvaluateByCounts(cards, u);
    LadderRows(LowestStraight(u, 0), exists s :: Count(cards, OfSuit(s)) >= 5, RanksWithCount(u, RankGroups(cards), 2),
               exists r :: Count(cards, OfRank(r)) == 3, exists r :: Count(cards, OfRank(r)) == 4);
  }

  lemma StraightFlushAcrossSuitsCounts(cards: seq<Card>, u: seq<Rank>)
    requires cards == [C(Hearts, Two), C(Hearts, Three)] + [C(Hearts, Four), C(Hearts, Five), C(Hearts, Seven), C(Clubs, Six)]
    requires u == [Two, Three, Four, Five, Six, Seven]
    ensures |cards| >= 2 && Ascending(u) && forall r :: Count(cards, OfRank(r)) > 0 <==> r in u
    ensures LowestStraight(u, 0) == Some(Six)
    ensures Count(cards, OfSuit(Hearts)) == 5
  {
    assert cards == [C(Hearts, Two), C(Hearts, Three), C(Hearts, Four), C(Hearts, Five), C(Hearts, Seven), C(Clubs, Six)];
    CountSix(C(Hearts, Two), C(Hearts, Three), C(Hearts, Four), C(Hearts, Five), C(Hearts, Seven), C(Clubs, Six));
    RunOfFive(u, 0);
  }

  /** A to 10 of hearts with the 9 of clubs: the lowest run of five (9 to K) decides the high card, so a royal flush is reported as a straight flush. */
  lemma RoyalReadLowExample(hole: seq<Card>, board: seq<Card>)
    requires hole == [C(Clubs, Nine), C(Hearts, Ace)]
    requires board == [C(Hearts, King), C(Hearts, Queen), C(Hearts, Jack), C(Hearts, Ten)]
    ensures Evaluate(hole + board) == Strength(StraightFlush, 95)
  {
    var cards := hole + board;
    var u := [Nine, Ten, Jack, Queen, King, Ace];
    RoyalReadLowCounts(cards, u);
    EvaluateByCounts(cards, u);
    LadderRows(LowestStraight(u, 0), exists s :: Count(cards, OfSuit(s)) >= 5, RanksWithCount(u, RankGroups(cards), 2),
               exists r :: Count(cards, OfRank(r)) == 3, exists r :: Count(cards, OfRank(r)) == 4);
  }

  lemma RoyalReadLowCounts(cards: seq<Card>, u: seq<Rank>)
    requires cards == [C(Clubs, Nine), C(Hearts, Ace)] + [C(Hearts, King), C(Hearts, Queen), C(Hearts, Jack), C(Hearts, Ten)]
    requires u == [Nine, Ten, Jack, Queen, King, Ace]
    ensures |cards| >= 2 && Ascending(u) && forall r :: Count(cards, OfRank(r)) > 0 <==> r in u
    ensures LowestStraight(u, 0) == Some(King)
    ensures Count(cards, OfSuit(Hearts)) == 5
  {
    assert cards == [C(Clubs, Nine), C(Hearts, Ace), C(Hearts, King), C(Hearts, Queen), C(Hearts, Jack), C(Hearts, Ten)];
    CountSix(C(Clubs, Nine), C(Hearts, Ace), C(Hearts, King), C(Hearts, Queen), C(Hearts, Jack), C(Hearts, Ten));
    RunOfFive(u, 0);
  }
}
