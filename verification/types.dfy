/**
 * The data model of the Texas Hold'em table: cards, players, the betting-round
 * bookkeeping and the whole game state, as immutable values.
 */
module PokerTypes {

  datatype Option<T> = None | Some(value: T)

  type PlayerId = string

  datatype Suit = Hearts | Diamonds | Clubs | Spades

  datatype Rank = Two | Three | Four | Five | Six | Seven | Eight | Nine | Ten | Jack | Queen | King | Ace

  /** The suits in the order the deck is built. */
  const Suits: seq<Suit> := [Hearts, Diamonds, Clubs, Spades]

  /** The ranks from lowest to highest: '2' .. '10', 'J', 'Q', 'K', 'A'. */
  const Ranks: seq<Rank> := [Two, Three, Four, Five, Six, Seven, Eight, Nine, Ten, Jack, Queen, King, Ace]

  /** Position of a suit in `Suits`. */
  function SuitIndex(s: Suit): (i: nat)
    ensures i < |Suits| == 4 && Suits[i] == s
  {
    match s
    case Hearts => 0
    case Diamonds => 1
    case Clubs => 2
    case Spades => 3
  }

  /** Position of a rank in `Ranks`, i.e. its strength (Two = 0 .. Ace = 12). */
  function RankIndex(r: Rank): (i: nat)
    ensures i < |Ranks| == 13 && Ranks[i] == r
  {
    match r
    case Two => 0
    case Three => 1
    case Four => 2
    case Five => 3
    case Six => 4
    case Seven => 5
    case Eight => 6
    case Nine => 7
    case Ten => 8
    case Jack => 9
    case Queen => 10
    case King => 11
    case Ace => 12
  }

  /** Every rank and every suit is listed, so the deck built from the two lists is complete. */
  lemma EveryRankListed()
    ensures forall r: Rank :: r in Ranks
    ensures forall s: Suit :: s in Suits
  {
    forall r: Rank ensures r in Ranks {
      assert Ranks[RankIndex(r)] == r;
    }
    forall s: Suit ensures s in Suits {
      assert Suits[SuitIndex(s)] == s;
    }
  }

  /** A card is a suit and a rank, plus the optional list of players allowed to see it. */
  datatype Card = Card(suit: Suit, rank: Rank, visibleTo: Option<seq<PlayerId>>)

  /** Whether the player `id` may see the face of `c`. */
  predicate CanSee(c: Card, id: PlayerId)
  {
    c.visibleTo.Some? && id in c.visibleTo.value
  }

  datatype PlayerAction = Fold | Check | Call | Raise | AllIn

  /** One entry of the betting log of a round. */
  datatype BettingAction = BettingAction(kind: PlayerAction, playerId: PlayerId, amount: Option<int>)

  datatype BettingRoundState = BettingRoundState(
    roundComplete: bool,
    actionsThisRound: seq<BettingAction>,
    lastAction: Option<BettingAction>,
    roundStartPlayer: PlayerId,
    currentPlayer: PlayerId,
    playersActed: set<PlayerId>,
    lastRaisePlayerId: Option<PlayerId>,
    lastRaiseAmount: int,
    actionsNeeded: set<PlayerId>,   // players who still have to act after the last raise
    minRaise: int)

  datatype HandState = HandState(
    handInProgress: bool,
    blindsPosted: bool,
    currentBettor: Option<PlayerId>,
    lastRaiser: Option<PlayerId>,
    minRaiseAmount: int,
    dealerPosition: int,
    smallBlindPosition: int,
    bigBlindPosition: int)

  datatype Player = Player(
    id: PlayerId,
    name: string,
    stack: int,
    position: int,
    holeCards: seq<Card>,
    isActive: bool,     // still in the hand, i.e. has not folded
    hasActed: bool,     // has acted in the current betting round
    betAmount: int,     // chips put in during the current betting round
    isDealer: bool,
    isSmallBlind: bool,
    isBigBlind: bool,
    isAI: bool)

  /** The betting rounds (phases) of a hand, in the order they are played. */
  datatype BettingRound = Preflop | Flop | Turn | River | Showdown

  datatype GameState = GameState(
    players: seq<Player>,
    communityCards: seq<Card>,
    pot: int,
    activePlayerIndex: int,
    currentBettingRound: BettingRound,
    bettingRoundState: BettingRoundState,
    handState: HandState,
    minBet: int,
    currentBet: int,
    deck: seq<Card>,
    isTrainingMode: bool,
    lastAction: Option<string>,
    bigBlind: int,
    smallBlind: int,
    showdown: bool)

  /** Sum of the stacks of a list of players. */
  function SumStacks(ps: seq<Player>): int
  {
    if ps == [] then 0 else ps[0].stack + SumStacks(ps[1..])
  }

  /** Sum of the current-round bets of a list of players. */
  function SumBets(ps: seq<Player>): int
  {
    if ps == [] then 0 else ps[0].betAmount + SumBets(ps[1..])
  }

  /** Replacing one player changes the stack total by exactly the difference of the two stacks. */
  lemma {:induction false} SumStacksUpdate(ps: seq<Player>, i: nat, p: Player)
    requires i < |ps|
    ensures SumStacks(ps[i := p]) == SumStacks(ps) - ps[i].stack + p.stack
  {
    if i > 0 {
      assert ps[i := p][1..] == ps[1..][i - 1 := p];
      SumStacksUpdate(ps[1..], i - 1, p);
    }
  }

  /** Replacing one player changes the bet total by exactly the difference of the two bets. */
  lemma {:induction false} SumBetsUpdate(ps: seq<Player>, i: nat, p: Player)
    requires i < |ps|
    ensures SumBets(ps[i := p]) == SumBets(ps) - ps[i].betAmount + p.betAmount
  {
    if i > 0 {
      assert ps[i := p][1..] == ps[1..][i - 1 := p];
      SumBetsUpdate(ps[1..], i - 1, p);
    }
  }

  /** Two tables whose seats hold the same stacks have the same stack total. */
  lemma {:induction false} SumStacksPointwise(ps: seq<Player>, qs: seq<Player>)
    requires |ps| == |qs|
    requires forall i :: 0 <= i < |ps| ==> ps[i].stack == qs[i].stack
    ensures SumStacks(ps) == SumStacks(qs)
  {
    if ps != [] {
      SumStacksPointwise(ps[1..], qs[1..]);
    }
  }
}
