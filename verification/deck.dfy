/**
 * The deck hook: the 52-card deck built suit by suit, a Fisher-Yates shuffle
 * done by swaps in place, and dealing by popping the last card. The random
 * choices of the shuffle are a parameter: `picks[i]` is the index the step for
 * position `i` swaps with.
 */
module Deck {
  import opened PokerTypes

  /** The thirteen cards of suit `s`, Two to Ace, in the order the inner loop of `createDeck` pushes them. */
  function SuitRow(s: Suit): (row: seq<Card>)
    ensures |row| == 13 && forall r :: 0 <= r < 13 ==> row[r] == Card(s, Ranks[r], None)
  {
    seq(13, r requires 0 <= r < 13 => Card(s, Ranks[r], None))
  }

  /** The rows of the first `k` suits of `Suits`, one after the other. */
  function Rows(k: nat): (d: seq<Card>)
    requires k <= 4
    ensures |d| == 13 * k
  {
    if k == 0 then [] else Rows(k - 1) + SuitRow(Suits[k - 1])
  }

  /** The deck `createDeck` returns. */
  function NewDeck(): (d: seq<Card>)
    ensures |d| == 52
  {
    Rows(4)
  }

  /** Position `13 * s + r` of the rows holds suit `s` and rank `r`. */
  lemma {:induction false} RowsAt(k: nat, s: nat, r: nat)
    requires s < k <= 4 && r < 13
    ensures Rows(k)[13 * s + r] == Card(Suits[s], Ranks[r], None)
  {
    if s < k - 1 {
      RowsAt(k - 1, s, r);
    }
  }

  /** Position `i` of the fresh deck holds suit number `i / 13` and rank number `i % 13`. */
  lemma NewDeckAt(i: nat)
    requires i < 52
    ensures i / 13 < 4 && NewDeck()[i] == Card(Suits[i / 13], Ranks[i % 13], None)
  {
    RowsAt(4, i / 13, i % 13);
  }

  /** The positions of the two lists are the indexes of their elements, so the lists have no repeats. */
  lemma ListsIndexed()
    ensures forall a :: 0 <= a < 4 ==> SuitIndex(Suits[a]) == a
    ensures forall a :: 0 <= a < 13 ==> RankIndex(Ranks[a]) == a
  {
  }

  /** Every (suit, rank) pair appears in the fresh deck, and nothing else does. */
  lemma NewDeckComplete()
    ensures forall s: Suit, r: Rank :: Card(s, r, None) in NewDeck()
    ensures forall c :: c in NewDeck() <==> c.visibleTo == None
  {
    var d := NewDeck();
    forall s: Suit, r: Rank
      ensures Card(s, r, None) in d
    {
      RowsAt(4, SuitIndex(s), RankIndex(r));
      assert d[13 * SuitIndex(s) + RankIndex(r)] == Card(s, r, None);
    }
    forall c: Card | c.visibleTo == None
      ensures c in d
    {
      assert c == Card(c.suit, c.rank, None);
    }
    forall i | 0 <= i < 52
      ensures d[i].visibleTo == None
    {
      NewDeckAt(i);
    }
  }

  /** No card appears twice in the fresh deck. */
  lemma NewDeckDistinct()
    ensures forall i, j :: 0 <= i < 52 && 0 <= j < 52 && i != j ==> NewDeck()[i] != NewDeck()[j]
  {
    var d := NewDeck();
    ListsIndexed();
    forall i, j | 0 <= i < 52 && 0 <= j < 52 && d[i] == d[j]
      ensures i == j
    {
      NewDeckAt(i);
      NewDeckAt(j);
      var si, ri, sj, rj := i / 13, i % 13, j / 13, j % 13;
      assert Suits[si] == Suits[sj] && Ranks[ri] == Ranks[rj];
      assert SuitIndex(Suits[si]) == si && SuitIndex(Suits[sj]) == sj;
      assert RankIndex(Ranks[ri]) == ri && RankIndex(Ranks[rj]) == rj;
    }
  }

  /** `createDeck`: one push per (suit, rank), suits outside, ranks inside. */
  method CreateDeck() returns (deck: seq<Card>)
    ensures deck == NewDeck()
  {
    deck := [];
    var s := 0;
    while s < |Suits|
      invariant s <= 4 && deck == Rows(s)
    {
      var r := 0;
      ghost var row := SuitRow(Suits[s]);
      while r < |Ranks|
        invariant r <= 13 && deck == Rows(s) + row[..r]
      {
        assert row[..r + 1] == row[..r] + [Card(Suits[s], Ranks[r], None)];
        deck := deck + [Card(Suits[s], Ranks[r], None)];
        r := r + 1;
      }
      assert row[..13] == row;
      s := s + 1;
    }
  }

  /** The deck with the cards at `i` and `j` exchanged. */
  function Swap(d: seq<Card>, i: nat, j: nat): (r: seq<Card>)
    requires i < |d| && j < |d|
    ensures |r| == |d|
  {
    d[i := d[j]][j := d[i]]
  }

  /** A swap keeps every card. */
  lemma SwapPermutes(d: seq<Card>, i: nat, j: nat)
    requires i < |d| && j < |d|
    ensures multiset(Swap(d, i, j)) == multiset(d)
  {
  }

  /**
   * The Fisher-Yates pass from position `i` down to position 1: the step for
   * position `i` swaps it with position `picks[i]`, which is at most `i`.
   */
  function ShuffleSteps(d: seq<Card>, picks: seq<nat>, i: int): (r: seq<Card>)
    requires |picks| == |d| && i < |d|
    requires forall k :: 0 <= k < |picks| ==> picks[k] <= k
    ensures |r| == |d|
    decreases i
  {
    if i <= 0 then d else ShuffleSteps(Swap(d, i, picks[i]), picks, i - 1)
  }

  /** One step of the pass, taken first. */
  lemma ShuffleStep(d: seq<Card>, picks: seq<nat>, i: nat)
    requires |picks| == |d| && 0 < i < |d|
    requires forall k :: 0 <= k < |picks| ==> picks[k] <= k
    ensures ShuffleSteps(d, picks, i) == ShuffleSteps(Swap(d, i, picks[i]), picks, i - 1)
  {
  }

  /** A shuffle only rearranges the deck: no card is lost or duplicated. */
  lemma {:induction false} ShuffleIsPermutation(d: seq<Card>, picks: seq<nat>, i: int)
    requires |picks| == |d| && i < |d|
    requires forall k :: 0 <= k < |picks| ==> picks[k] <= k
    ensures multiset(ShuffleSteps(d, picks, i)) == multiset(d)
    decreases i
  {
    if i > 0 {
      SwapPermutes(d, i, picks[i]);
      ShuffleIsPermutation(Swap(d, i, picks[i]), picks, i - 1);
    }
  }

  /** A shuffle never moves a card into a position above `i` that the pass has already settled. */
  lemma {:induction false} ShuffleKeepsSettled(d: seq<Card>, picks: seq<nat>, i: int)
    requires |picks| == |d| && i < |d|
    requires forall k :: 0 <= k < |picks| ==> picks[k] <= k
    ensures forall k :: i < k < |d| && k >= 0 ==> ShuffleSteps(d, picks, i)[k] == d[k]
    decreases i
  {
    if i > 0 {
      ShuffleKeepsSettled(Swap(d, i, picks[i]), picks, i - 1);
    }
  }

  /** The sequence in reverse order. */
  function Reversed(s: seq<Card>): (r: seq<Card>)
    ensures |r| == |s|
    ensures s != [] ==> r[0] == s[|s| - 1]
  {
    if s == [] then [] else [s[|s| - 1]] + Reversed(s[..|s| - 1])
  }

  /** Reversing keeps every card. */
  lemma {:induction false} ReversedPermutes(s: seq<Card>)
    ensures multiset(Reversed(s)) == multiset(s)
  {
    if s != [] {
      var last := |s| - 1;
      ReversedPermutes(s[..last]);
      assert s == s[..last] + [s[last]];
    }
  }

  /** `dealCard` on values: the last card and the deck without it, or nothing from an empty deck. */
  function Pop(d: seq<Card>): (r: (Option<Card>, seq<Card>))
    ensures r.0.None? <==> d == []
    ensures r.0.None? ==> r.1 == d
    ensures r.0.Some? ==> d == r.1 + [r.0.value]
  {
    if d == [] then (None, d) else (Some(d[|d| - 1]), d[..|d| - 1])
  }

  /** The deck the hook holds; every operation replaces it. */
  class DeckState {
    var deck: seq<Card>

    /** `useState(() => createDeck())`. */
    constructor ()
      ensures deck == NewDeck()
    {
      var built := CreateDeck();
      deck := built;
    }

    /** `shuffleDeck`: swaps in place in a copy of the deck, from the last position down to position 1. */
    method ShuffleDeck(picks: seq<nat>)
      requires |picks| == |deck|
      requires forall k :: 0 <= k < |picks| ==> picks[k] <= k
      modifies this
      ensures deck == ShuffleSteps(old(deck), picks, |old(deck)| - 1)
    {
      var d := deck;
      var n := |d|;
      var newDeck := new Card[n](k requires 0 <= k < n => d[k]);
      ghost var cur := d;
      assert newDeck[..] == cur;
      var i := n - 1;
      while i > 0
        invariant i < n && newDeck[..] == cur && |cur| == n
        invariant ShuffleSteps(cur, picks, i) == ShuffleSteps(d, picks, n - 1)
        decreases i
      {
        var j := picks[i];
        newDeck[i], newDeck[j] := newDeck[j], newDeck[i];
        ShuffleStep(cur, picks, i);
        cur := Swap(cur, i, j);
        assert newDeck[..] == cur;
        i := i - 1;
      }
      deck := newDeck[..];
    }

    /** `dealCard`: the last card, removed from the deck; an empty deck is left as it is. */
    method DealCard() returns (card: Option<Card>)
      modifies this
      ensures (card, deck) == Pop(old(deck))
    {
      if |deck| == 0 {
        return None;
      }
      card := Some(deck[|deck| - 1]);
      deck := deck[..|deck| - 1];
    }

    /**
     * `dealCards`: deals one card at a time until `numCards` are dealt or the
     * deck is empty. The cards come back in the order they were popped, so the
     * deck before is the deck after followed by the dealt cards reversed.
     */
    method DealCards(numCards: int) returns (cards: seq<Card>)
      modifies this
      ensures |cards| == if numCards <= 0 then 0 else if numCards < |old(deck)| then numCards else |old(deck)|
      ensures old(deck) == deck + Reversed(cards)
      ensures multiset(cards) + multiset(deck) == multiset(old(deck))
    {
      cards := [];
      var i := 0;
      while i < numCards && |deck| > 0
        invariant 0 <= i == |cards| && (i > 0 ==> i <= numCards)
        invariant old(deck) == deck + Reversed(cards)
        decreases |deck|
      {
        ghost var before, dealt := deck, cards;
        var card := DealCard();
        cards := cards + [card.value];
        assert before == deck + [card.value];
        assert cards[..|cards| - 1] == dealt;
        assert Reversed(cards) == [card.value] + Reversed(dealt);
        i := i + 1;
      }
      ReversedPermutes(cards);
      assert multiset(old(deck)) == multiset(deck) + multiset(Reversed(cards));
    }

    /** `resetDeck`: the fresh deck again, whatever was dealt or shuffled. */
    method ResetDeck()
      modifies this
      ensures deck == NewDeck()
    {
      deck := CreateDeck();
    }
  }
}
