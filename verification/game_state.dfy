/**
 * The table reducers of the game-state hook: each operation maps the previous
 * `GameState` to the next one. Operations that the hook writes with a `while`
 * loop (the seat walks of `updatePlayerBet`, `nextPlayer` and `postBlinds`)
 * are methods; the others are functions.
 */
module GameEngine {
  import opened PokerTypes
  import opened Seating

  /** The minimum raise a fresh betting round starts with (the default big blind). */
  const DefaultMinRaise := 20

  /** All chips on the table: the players' stacks plus the pot. */
  function TotalChips(s: GameState): int
  {
    SumStacks(s.players) + s.pot
  }

  /** Position of a phase in the order preflop, flop, turn, river, showdown. */
  function PhaseIndex(r: BettingRound): (i: nat)
    ensures i <= 4
    ensures i == 0 <==> r == Preflop
    ensures i == 4 <==> r == Showdown
  {
    match r
    case Preflop => 0
    case Flop => 1
    case Turn => 2
    case River => 3
    case Showdown => 4
  }

  /** The phase after `r`; there is nothing after the showdown. */
  function NextPhase(r: BettingRound): (next: BettingRound)
    ensures r != Showdown ==> PhaseIndex(next) == PhaseIndex(r) + 1
    ensures r == Showdown ==> next == Showdown
  {
    match r
    case Preflop => Flop
    case Flop => Turn
    case Turn => River
    case River => Showdown
    case Showdown => Showdown
  }

  /** The players still in the hand, in seat order (`players.filter(p => p.isActive)`). */
  function ActivePlayers(ps: seq<Player>): (r: seq<Player>)
    ensures forall p :: p in r <==> p in ps && p.isActive
    ensures |r| <= |ps|
  {
    if ps == [] then []
    else (if ps[0].isActive then [ps[0]] else []) + ActivePlayers(ps[1..])
  }

  /** `ActivePlayers` keeps every seat in the hand, each as often as it occurs, and drops every other one. */
  lemma {:induction false} ActivePlayersCounts(ps: seq<Player>)
    ensures forall p :: multiset(ActivePlayers(ps))[p] == if p.isActive then multiset(ps)[p] else 0
  {
    if ps != [] {
      ActivePlayersCounts(ps[1..]);
      assert ps == [ps[0]] + ps[1..];
    }
  }

  /** The ids of the players still in the hand, except `id`. */
  function ActiveIdsExcept(ps: seq<Player>, id: PlayerId): (r: set<PlayerId>)
    ensures id !in r
    ensures forall p :: p in ps && p.isActive && p.id != id ==> p.id in r
    ensures forall x :: x in r ==> exists p :: p in ps && p.isActive && p.id == x
  {
    set p | p in ps && p.isActive && p.id != id :: p.id
  }

  /** The ids of all players, in seat order. */
  function PlayerIds(ps: seq<Player>): (ids: seq<PlayerId>)
    ensures |ids| == |ps| && forall i :: 0 <= i < |ps| ==> ids[i] == ps[i].id
  {
    seq(|ps|, i requires 0 <= i < |ps| => ps[i].id)
  }

  /** The same cards, each now visible exactly to the players listed in `ids`. */
  function WithViewers(cards: seq<Card>, ids: seq<PlayerId>): (r: seq<Card>)
    ensures |r| == |cards|
    ensures forall k :: 0 <= k < |cards| ==> r[k] == cards[k].(visibleTo := Some(ids))
  {
    seq(|cards|, k requires 0 <= k < |cards| => cards[k].(visibleTo := Some(ids)))
  }

  /**
   * The betting-round state at the start of a round whose first actor is
   * `first`: nothing logged, nobody has acted, and every other player still
   * in the hand is awaited.
   */
  function CreateInitialBettingRoundState(first: Player, ps: seq<Player>): (r: BettingRoundState)
    ensures !r.roundComplete && r.actionsThisRound == [] && r.playersActed == {}
    ensures r.roundStartPlayer == first.id && r.currentPlayer == first.id
    ensures r.minRaise == DefaultMinRaise && r.lastRaisePlayerId == None
    ensures r.actionsNeeded == ActiveIdsExcept(ps, first.id)
    ensures r.lastAction == None && r.lastRaiseAmount == 0
  {
    BettingRoundState(
      roundComplete := false,
      actionsThisRound := [],
      lastAction := None,
      roundStartPlayer := first.id,
      currentPlayer := first.id,
      playersActed := {},
      lastRaisePlayerId := None,
      lastRaiseAmount := 0,
      actionsNeeded := ActiveIdsExcept(ps, first.id),
      minRaise := DefaultMinRaise)
  }

  /**
   * The hand record before any hand: nothing in progress, no blinds, no
   * bettor and no raiser, the default minimum raise, and the dealer on seat 0
   * with the blinds on the next two seats.
   */
  function CreateInitialHandState(): (h: HandState)
    ensures !h.handInProgress && !h.blindsPosted && h.currentBettor.None? && h.lastRaiser.None?
    ensures h.minRaiseAmount == DefaultMinRaise
    ensures h.dealerPosition == 0 && h.smallBlindPosition == h.dealerPosition + 1 &&
            h.bigBlindPosition == h.dealerPosition + 2
  {
    HandState(
      handInProgress := false,
      blindsPosted := false,
      currentBettor := None,
      lastRaiser := None,
      minRaiseAmount := DefaultMinRaise,
      dealerPosition := 0,
      smallBlindPosition := 1,
      bigBlindPosition := 2)
  }

  /**
   * Every seat back in the hand with no cards and no bet, and the three role
   * flags set on the given seats only (the player map shared by `rotateDealer`
   * and `startNewHand`).
   */
  function ResetSeats(ps: seq<Player>, dealer: int, sb: int, bb: int): (r: seq<Player>)
    ensures |r| == |ps|
    ensures forall i :: 0 <= i < |ps| ==>
      r[i] == ps[i].(isDealer := i == dealer, isSmallBlind := i == sb, isBigBlind := i == bb,
                     isActive := true, hasActed := false, betAmount := 0, holeCards := [])
  {
    seq(|ps|, i requires 0 <= i < |ps| =>
      ps[i].(isDealer := i == dealer, isSmallBlind := i == sb, isBigBlind := i == bb,
             isActive := true, hasActed := false, betAmount := 0, holeCards := []))
  }

  /** The seat that becomes dealer: the one after the current dealer, or seat 0 when there is none. */
  function NextDealerSeat(ps: seq<Player>): (d: nat)
    requires |ps| > 0
    ensures d < |ps|
  {
    (IndexOfRole(ps, Dealer) + 1) % |ps|
  }

  /** The seat that opens a betting round after the flop: the one after the small blind, or seat 0 when there is none. */
  function SeatAfterSmallBlind(ps: seq<Player>): (j: nat)
    requires |ps| > 0
    ensures j < |ps|
  {
    (IndexOfRole(ps, SmallBlind) + 1) % |ps|
  }

  /** Hands the hole cards `cards` to the player at `playerIndex`, visible to that player only. */
  function DealCards(s: GameState, playerIndex: int, cards: seq<Card>): (r: GameState)
    ensures r == s.(players := r.players)
    ensures |r.players| == |s.players|
    ensures forall i :: 0 <= i < |s.players| && i != playerIndex ==> r.players[i] == s.players[i]
    ensures 0 <= playerIndex < |s.players| ==>
      var q := r.players[playerIndex];
      q == s.players[playerIndex].(holeCards := q.holeCards) &&
      |q.holeCards| == |cards| &&
      forall k :: 0 <= k < |cards| ==>
        q.holeCards[k].suit == cards[k].suit && q.holeCards[k].rank == cards[k].rank &&
        forall id :: CanSee(q.holeCards[k], id) <==> id == q.id
  {
    if 0 <= playerIndex < |s.players| then
      var p := s.players[playerIndex];
      s.(players := s.players[playerIndex := p.(holeCards := WithViewers(cards, [p.id]))])
    else s
  }

  /** Adds `card` to the board, visible to every player. */
  function DealCommunityCard(s: GameState, card: Card): (r: GameState)
    ensures r == s.(communityCards := r.communityCards)
    ensures |r.communityCards| == |s.communityCards| + 1
    ensures r.communityCards[..|s.communityCards|] == s.communityCards
    ensures var c := r.communityCards[|s.communityCards|];
      c.suit == card.suit && c.rank == card.rank &&
      forall i :: 0 <= i < |s.players| ==> CanSee(c, s.players[i].id)
    ensures var c := r.communityCards[|s.communityCards|];
      c == card.(visibleTo := Some(PlayerIds(s.players))) &&
      forall id :: CanSee(c, id) <==> exists i :: 0 <= i < |s.players| && s.players[i].id == id
  {
    s.(communityCards := s.communityCards + [card.(visibleTo := Some(PlayerIds(s.players)))])
  }

  /**
   * Starts a new deal: the dealer button moves one seat, small and big blind
   * follow it, every seat is back in the hand with no cards and no bet, and
   * the pot is emptied.
   */
  function RotateDealer(s: GameState): (r: GameState)
    requires |s.players| > 0
    ensures |r.players| == |s.players|
    ensures var n := |s.players|; var d := NextDealerSeat(s.players);
      forall i :: 0 <= i < n ==>
        (r.players[i].isDealer <==> i == d) &&
        (r.players[i].isSmallBlind <==> i == After(d, n)) &&
        (r.players[i].isBigBlind <==> i == After(After(d, n), n))
    ensures forall i :: 0 <= i < |s.players| ==>
      var p, q := s.players[i], r.players[i];
      q.id == p.id && q.stack == p.stack && q.isActive && !q.hasActed && q.betAmount == 0 && q.holeCards == []
    ensures r.pot == 0 && r.currentBet == 0 && r.currentBettingRound == Preflop && !r.showdown
    ensures SumStacks(r.players) == SumStacks(s.players)
    ensures r.bettingRoundState.actionsThisRound == [] && r.bettingRoundState.playersActed == {}
    ensures r == s.(showdown := false, currentBet := 0, pot := 0, currentBettingRound := Preflop,
                    players := r.players, bettingRoundState := r.bettingRoundState, handState := r.handState)
    ensures r.handState == CreateInitialHandState()
    ensures var n := |s.players|; var d := NextDealerSeat(s.players);
      r.players == ResetSeats(s.players, d, After(d, n), After(After(d, n), n)) &&
      r.bettingRoundState == CreateInitialBettingRoundState(s.players[After(After(After(d, n), n), n)], s.players)
  {
    var n := |s.players|;
    var dealer := NextDealerSeat(s.players);
    var sb := After(dealer, n);
    var bb := After(sb, n);
    var firstToAct := s.players[After(bb, n)];
    var players := ResetSeats(s.players, dealer, sb, bb);
    SumStacksPointwise(players, s.players);
    s.(showdown := false,
       currentBet := 0,
       pot := 0,
       currentBettingRound := Preflop,
       bettingRoundState := CreateInitialBettingRoundState(firstToAct, s.players),
       handState := CreateInitialHandState(),
       players := players)
  }

  /** A run of consecutive deals: every state is the rotation of the one before it. */
  predicate IsRotationRun(states: seq<GameState>)
  {
    |states| > 0 && |states[0].players| > 0 &&
    forall i :: 0 <= i < |states| - 1 ==>
      |states[i].players| == |states[0].players| && states[i + 1] == RotateDealer(states[i])
  }

  /**
   * The button moves one seat per deal: in a run of rotations starting from a
   * table whose next dealer seat is `d`, the k-th rotated state has its dealer
   * k - 1 seats after `d`, so every seat deals once in every n deals.
   */
  lemma {:induction false} DealerAfterRotations(states: seq<GameState>)
    requires IsRotationRun(states) && |states| >= 2
    ensures IndexOfRole(states[|states| - 1].players, Dealer) ==
              Seat(NextDealerSeat(states[0].players), |states| - 2, |states[0].players|)
  {
    var m, n, d := |states|, |states[0].players|, NextDealerSeat(states[0].players);
    if m == 2 {
      SeatFormula(d, 0, n);
      RotateDealerMovesButton(states[0], states[1]);
    } else {
      var prefix := states[..m - 1];
      RunPrefix(states);
      DealerAfterRotations(prefix);
      assert prefix[m - 2] == states[m - 2] && prefix[0] == states[0];
      var prev := IndexOfRole(states[m - 2].players, Dealer);
      assert prev == Seat(d, m - 3, n);
      assert |states[m - 2].players| == n;
      assert NextDealerSeat(states[m - 2].players) == After(prev, n);
      RunStep(states, m - 2);
      SeatAfter(d, m - 3, n);
    }
  }

  /** Dropping the last state of a run of rotations leaves a run of rotations. */
  lemma RunPrefix(states: seq<GameState>)
    requires IsRotationRun(states) && |states| >= 2
    ensures IsRotationRun(states[..|states| - 1])
  {
    var prefix := states[..|states| - 1];
    forall i | 0 <= i < |prefix| - 1
      ensures |prefix[i].players| == |prefix[0].players| && prefix[i + 1] == RotateDealer(prefix[i])
    {
      assert prefix[i] == states[i] && prefix[i + 1] == states[i + 1];
    }
  }

  /** One step of a run of rotations moves the button by one seat. */
  lemma RunStep(states: seq<GameState>, i: nat)
    requires IsRotationRun(states) && i < |states| - 1
    ensures IndexOfRole(states[i + 1].players, Dealer) == NextDealerSeat(states[i].players)
  {
    RotateDealerMovesButton(states[i], states[i + 1]);
  }

  /** After one rotation `findIndex` finds the dealer on the seat after the old dealer's. */
  lemma RotateDealerMovesButton(s: GameState, r: GameState)
    requires |s.players| > 0 && r == RotateDealer(s)
    ensures IndexOfRole(r.players, Dealer) == NextDealerSeat(s.players)
  {
    RoleIsUnique(r.players, Dealer, NextDealerSeat(s.players));
  }

  /** JavaScript's clamping of a `slice` bound `i` against a length `n`. */
  function SliceBound(i: int, n: nat): (b: nat)
    ensures b <= n
    ensures 0 <= i <= n ==> b == i
    ensures i > n ==> b == n
    ensures i < 0 && n + i >= 0 ==> b == n + i
    ensures n + i < 0 ==> b == 0
  {
    if i < 0 then (if n + i < 0 then 0 else n + i)
    else if i > n then n
    else i
  }

  /**
   * The round-completion test. Preflop it walks the players starting after the
   * big blind; on later streets it also needs nobody left in `actionsNeeded`.
   */
  predicate IsBettingRoundComplete(s: GameState)
  {
    var active := ActivePlayers(s.players);
    var acted := s.bettingRoundState.playersActed;
    var allBetsMatched := forall p | p in active :: !p.isActive || p.betAmount == s.currentBet;
    if s.currentBettingRound == Preflop then
      var cut := SliceBound(s.handState.bigBlindPosition + 1, |s.players|);
      var playersAfterBB := ActivePlayers(s.players[cut..] + s.players[..cut]);
      (forall p | p in playersAfterBB :: p.id in acted) && allBetsMatched
    else
      (forall p | p in active :: p.id in acted) && allBetsMatched &&
      |s.bettingRoundState.actionsNeeded| == 0
  }

  /**
   * A round is complete iff every player still in the hand has acted and has
   * matched the current bet, and, after the preflop, nobody is still awaited.
   * The preflop rotation starting after the big blind visits every seat, so the
   * big-blind position recorded in the hand state does not matter.
   */
  lemma RoundCompleteIff(s: GameState)
    ensures IsBettingRoundComplete(s) <==>
      (forall i :: 0 <= i < |s.players| && s.players[i].isActive ==>
         s.players[i].id in s.bettingRoundState.playersActed &&
         s.players[i].betAmount == s.currentBet) &&
      (s.currentBettingRound != Preflop ==> s.bettingRoundState.actionsNeeded == {})
  {
    var ps := s.players;
    var cut := SliceBound(s.handState.bigBlindPosition + 1, |ps|);
    var rotated := ps[cut..] + ps[..cut];
    assert forall p :: p in rotated <==> p in ps by {
      assert ps == ps[..cut] + ps[cut..];
    }
  }

  /**
   * Moves to the next phase when the betting round is complete, and does
   * nothing otherwise. Bets and `hasActed` are cleared, chips stay where they
   * are; at the showdown every hole card is shown to every player, before it
   * a fresh betting round starts after the small blind.
   */
  function EndRound(s: GameState): (r: GameState)
    requires |s.players| > 0 || !IsBettingRoundComplete(s) || NextPhase(s.currentBettingRound) == Showdown
    ensures !IsBettingRoundComplete(s) ==> r == s
    ensures IsBettingRoundComplete(s) ==>
      r.currentBettingRound == NextPhase(s.currentBettingRound) &&
      r.pot == s.pot && r.currentBet == s.currentBet && r.communityCards == s.communityCards &&
      |r.players| == |s.players| &&
      forall i :: 0 <= i < |s.players| ==>
        var p, q := s.players[i], r.players[i];
        q.id == p.id && q.stack == p.stack && q.isActive == p.isActive &&
        q.betAmount == 0 && !q.hasActed && |q.holeCards| == |p.holeCards|
    ensures IsBettingRoundComplete(s) ==> TotalChips(r) == TotalChips(s)
    ensures IsBettingRoundComplete(s) && r.currentBettingRound == Showdown ==>
      r.showdown &&
      forall i, j, k :: 0 <= i < |r.players| && 0 <= j < |s.players| && 0 <= k < |r.players[i].holeCards| ==>
        CanSee(r.players[i].holeCards[k], s.players[j].id)
    ensures IsBettingRoundComplete(s) && r.currentBettingRound != Showdown ==>
      r.showdown == s.showdown &&
      r.bettingRoundState.actionsThisRound == [] && r.bettingRoundState.playersActed == {} &&
      !r.bettingRoundState.roundComplete &&
      forall i :: 0 <= i < |s.players| ==> r.players[i].holeCards == s.players[i].holeCards
    ensures IsBettingRoundComplete(s) ==>
      r == s.(currentBettingRound := r.currentBettingRound, showdown := r.showdown,
              players := r.players, bettingRoundState := r.bettingRoundState)
    ensures IsBettingRoundComplete(s) && NextPhase(s.currentBettingRound) == Showdown ==>
      r.players == ShowAllCards(s.players) && r.bettingRoundState == s.bettingRoundState
    ensures IsBettingRoundComplete(s) && NextPhase(s.currentBettingRound) != Showdown ==>
      r.players == ClearBets(s.players) &&
      r.bettingRoundState ==
        CreateInitialBettingRoundState(s.players[SeatAfterSmallBlind(s.players)], s.players)
  {
    if !IsBettingRoundComplete(s) then s
    else
      var nextRound := NextPhase(s.currentBettingRound);
      if nextRound == Showdown then
        s.(currentBettingRound := nextRound, showdown := true, players := ShowAllCards(s.players))
      else
        var firstToAct := s.players[SeatAfterSmallBlind(s.players)];
        s.(currentBettingRound := nextRound,
           players := ClearBets(s.players),
           bettingRoundState := CreateInitialBettingRoundState(firstToAct, s.players))
  }

  /** Every seat with its bet of the round cleared and `hasActed` reset. */
  function ClearBets(ps: seq<Player>): (r: seq<Player>)
    ensures |r| == |ps| && SumStacks(r) == SumStacks(ps)
    ensures forall i :: 0 <= i < |ps| ==> r[i] == ps[i].(betAmount := 0, hasActed := false)
  {
    var r := seq(|ps|, i requires 0 <= i < |ps| => ps[i].(betAmount := 0, hasActed := false));
    SumStacksPointwise(r, ps);
    r
  }

  /** `ClearBets`, and every hole card made visible to every seated player. */
  function ShowAllCards(ps: seq<Player>): (r: seq<Player>)
    ensures |r| == |ps| && SumStacks(r) == SumStacks(ps)
    ensures forall i :: 0 <= i < |ps| ==>
      r[i] == ps[i].(betAmount := 0, hasActed := false, holeCards := WithViewers(ps[i].holeCards, PlayerIds(ps)))
  {
    var ids := PlayerIds(ps);
    var r := seq(|ps|, i requires 0 <= i < |ps| =>
      ps[i].(betAmount := 0, hasActed := false, holeCards := WithViewers(ps[i].holeCards, ids)));
    SumStacksPointwise(r, ps);
    r
  }

  /** The stand-in AI: the player to act, when it is an AI, calls the current bet. */
  function HandleAIAction(s: GameState): (r: GameState)
    requires 0 <= s.activePlayerIndex < |s.players|
    ensures !s.players[s.activePlayerIndex].isAI ==> r == s
    ensures TotalChips(r) == TotalChips(s)
    ensures |r.players| == |s.players|
    ensures forall i :: 0 <= i < |s.players| && i != s.activePlayerIndex ==> r.players[i] == s.players[i]
    ensures s.players[s.activePlayerIndex].isAI ==>
      var p, q := s.players[s.activePlayerIndex], r.players[s.activePlayerIndex];
      q.betAmount == s.currentBet && q.stack + q.betAmount == p.stack + p.betAmount && q.hasActed &&
      r.bettingRoundState.actionsThisRound ==
        s.bettingRoundState.actionsThisRound + [BettingAction(Call, p.id, Some(s.currentBet))] &&
      r.bettingRoundState.playersActed == s.bettingRoundState.playersActed + {p.id}
    ensures s.players[s.activePlayerIndex].isAI ==>
      var p, q := s.players[s.activePlayerIndex], r.players[s.activePlayerIndex];
      q == p.(betAmount := q.betAmount, stack := q.stack, hasActed := true) &&
      r == s.(players := r.players, pot := r.pot,
              bettingRoundState := s.bettingRoundState.(actionsThisRound := r.bettingRoundState.actionsThisRound,
                                                        playersActed := r.bettingRoundState.playersActed))
  {
    var i := s.activePlayerIndex;
    var currentPlayer := s.players[i];
    if !currentPlayer.isAI then s
    else
      var callAmount := s.currentBet;
      var q := currentPlayer.(betAmount := callAmount,
                              stack := currentPlayer.stack - (callAmount - currentPlayer.betAmount),
                              hasActed := true);
      SumStacksUpdate(s.players, i, q);
      s.(players := s.players[i := q],
         pot := s.pot + (callAmount - currentPlayer.betAmount),
         bettingRoundState := s.bettingRoundState.(
           actionsThisRound := s.bettingRoundState.actionsThisRound +
                               [BettingAction(Call, currentPlayer.id, Some(callAmount))],
           playersActed := s.bettingRoundState.playersActed + {currentPlayer.id}))
  }

  /** How `updatePlayerBet` names a bet of `amount` against the current bet. */
  function ClassifyBet(amount: int, currentBet: int): (a: PlayerAction)
    ensures a == Fold <==> amount == 0
    ensures a == Call <==> amount != 0 && amount == currentBet
    ensures a == Raise <==> amount != 0 && amount > currentBet
    ensures a == Check <==> amount != 0 && amount < currentBet
  {
    if amount == 0 then Fold
    else if amount == currentBet then Call
    else if amount > currentBet then Raise
    else Check
  }

  /** The round's log after the player at `playerIndex` bets `amount`, with the seat `nextPlayerIndex` to act next. */
  function LogBet(s: GameState, playerIndex: nat, amount: int, nextPlayerIndex: nat): (brs: BettingRoundState)
    requires playerIndex < |s.players| && nextPlayerIndex < |s.players|
    ensures brs.roundComplete == s.bettingRoundState.roundComplete
    ensures brs.actionsThisRound ==
      s.bettingRoundState.actionsThisRound + [BettingAction(ClassifyBet(amount, s.currentBet), s.players[playerIndex].id, Some(amount))]
  {
    var player := s.players[playerIndex];
    var isRaise := amount > s.currentBet;
    var actionType := ClassifyBet(amount, s.currentBet);
    var action := BettingAction(actionType, player.id, Some(amount));
    var nextPlayer := s.players[nextPlayerIndex];
    var logged := s.bettingRoundState.(
      actionsThisRound := s.bettingRoundState.actionsThisRound + [action],
      lastAction := Some(action),
      playersActed := s.bettingRoundState.playersActed + {player.id},
      currentPlayer := nextPlayer.id);
    var brs :=
      if isRaise then
        // everyone else still in the hand has to act again
        logged.(lastRaisePlayerId := Some(player.id),
                lastRaiseAmount := amount,
                actionsNeeded := ActiveIdsExcept(s.players, player.id))
      else
        logged.(actionsNeeded := logged.actionsNeeded - {player.id});
    brs
  }

  /**
   * Records that the player at `playerIndex` now has `amount` in for this
   * round, given the seat `nextPlayerIndex` that acts next: the difference
   * moves between the stack and the pot, the action is logged and classified,
   * and the completion flag is recomputed.
   */
  function ApplyBet(s: GameState, playerIndex: nat, amount: int, nextPlayerIndex: nat): (r: GameState)
    requires playerIndex < |s.players| && nextPlayerIndex < |s.players|
    ensures r == s.(players := r.players, pot := r.pot, currentBet := r.currentBet,
                    bettingRoundState := r.bettingRoundState, handState := r.handState)
    ensures |r.players| == |s.players|
    ensures forall k :: 0 <= k < |s.players| && k != playerIndex ==> r.players[k] == s.players[k]
    ensures var p := s.players[playerIndex];
      r.players[playerIndex] == p.(betAmount := amount, stack := p.stack - (amount - p.betAmount),
                                   hasActed := true, isActive := amount != 0)
    ensures r.handState == s.handState.(currentBettor := r.handState.currentBettor, lastRaiser := r.handState.lastRaiser)
    ensures var brs := r.bettingRoundState;
      brs == s.bettingRoundState.(roundComplete := brs.roundComplete, actionsThisRound := brs.actionsThisRound,
                                  lastAction := brs.lastAction, playersActed := brs.playersActed,
                                  currentPlayer := brs.currentPlayer, lastRaisePlayerId := brs.lastRaisePlayerId,
                                  lastRaiseAmount := brs.lastRaiseAmount, actionsNeeded := brs.actionsNeeded)
  {
    var player := s.players[playerIndex];
    var betDiff := amount - player.betAmount;
    var isRaise := amount > s.currentBet;
    var actionType := ClassifyBet(amount, s.currentBet);
    var nextPlayer := s.players[nextPlayerIndex];
    var brs := LogBet(s, playerIndex, amount, nextPlayerIndex);
    var updated := player.(betAmount := amount, stack := player.stack - betDiff,
                           hasActed := true, isActive := actionType != Fold);
    assert updated.isActive == (amount != 0);
    var players := s.players[playerIndex := updated];
    var currentBet := if s.currentBet >= amount then s.currentBet else amount;
    var isComplete := IsBettingRoundComplete(s.(players := players, currentBet := currentBet,
                                                bettingRoundState := brs));
    var r := s.(currentBet := currentBet,
                players := players,
                pot := s.pot + betDiff,
                bettingRoundState := brs.(roundComplete := isComplete),
                handState := s.handState.(currentBettor := Some(nextPlayer.id),
                                          lastRaiser := if isRaise then Some(player.id) else s.handState.lastRaiser));
    r
  }

  /** The bet's difference goes into the pot, and the current bet becomes the larger of itself and the bet. */
  lemma ApplyBetPotAndBet(s: GameState, playerIndex: nat, amount: int, nextPlayerIndex: nat)
    requires playerIndex < |s.players| && nextPlayerIndex < |s.players|
    ensures var r := ApplyBet(s, playerIndex, amount, nextPlayerIndex);
      r.pot == s.pot + (amount - s.players[playerIndex].betAmount) &&
      r.currentBet >= s.currentBet && r.currentBet >= amount &&
      (r.currentBet == s.currentBet || r.currentBet == amount)
  {
  }

  /**
   * A bet only moves chips between the bettor's stack and the pot; a "fold"
   * (an amount of 0) hands the bettor's chips of this round back from the pot.
   */
  lemma ApplyBetConservesChips(s: GameState, playerIndex: nat, amount: int, nextPlayerIndex: nat)
    requires playerIndex < |s.players| && nextPlayerIndex < |s.players|
    ensures var r := ApplyBet(s, playerIndex, amount, nextPlayerIndex);
      TotalChips(r) == TotalChips(s) &&
      (amount == 0 ==>
         r.players[playerIndex].stack == s.players[playerIndex].stack + s.players[playerIndex].betAmount &&
         r.pot == s.pot - s.players[playerIndex].betAmount)
  {
    var r := ApplyBet(s, playerIndex, amount, nextPlayerIndex);
    SumStacksUpdate(s.players, playerIndex, r.players[playerIndex]);
    assert r.players == s.players[playerIndex := r.players[playerIndex]];
  }

  /**
   * The bet is appended to the round's log under its classification and the
   * bettor counts as having acted. A raise makes every other player still in
   * the hand owe an action again and marks the raiser; any other bet only
   * takes the bettor off the awaited set.
   */
  lemma ApplyBetRecordsAction(s: GameState, playerIndex: nat, amount: int, nextPlayerIndex: nat)
    requires playerIndex < |s.players| && nextPlayerIndex < |s.players|
    ensures var r := ApplyBet(s, playerIndex, amount, nextPlayerIndex);
      var brs, old_brs := r.bettingRoundState, s.bettingRoundState;
      var id := s.players[playerIndex].id;
      var action := BettingAction(ClassifyBet(amount, s.currentBet), id, Some(amount));
      brs.actionsThisRound == old_brs.actionsThisRound + [action] &&
      brs.lastAction == Some(action) &&
      brs.playersActed == old_brs.playersActed + {id} &&
      brs.currentPlayer == s.players[nextPlayerIndex].id &&
      brs.roundStartPlayer == old_brs.roundStartPlayer && brs.minRaise == old_brs.minRaise &&
      r.handState == s.handState.(currentBettor := r.handState.currentBettor, lastRaiser := r.handState.lastRaiser) &&
      r.handState.currentBettor == Some(s.players[nextPlayerIndex].id) &&
      (amount > s.currentBet ==>
         brs.actionsNeeded == ActiveIdsExcept(s.players, id) && brs.lastRaisePlayerId == Some(id) &&
         brs.lastRaiseAmount == amount && r.handState.lastRaiser == Some(id)) &&
      (amount <= s.currentBet ==>
         brs.actionsNeeded == old_brs.actionsNeeded - {id} && brs.lastRaisePlayerId == old_brs.lastRaisePlayerId &&
         brs.lastRaiseAmount == old_brs.lastRaiseAmount && r.handState.lastRaiser == s.handState.lastRaiser)
  {
  }

  /** The completion flag stored after a bet is the completion test of the state the bet produces. */
  lemma ApplyBetRecomputesCompletion(s: GameState, playerIndex: nat, amount: int, nextPlayerIndex: nat)
    requires playerIndex < |s.players| && nextPlayerIndex < |s.players|
    ensures var r := ApplyBet(s, playerIndex, amount, nextPlayerIndex);
      r.bettingRoundState.roundComplete == IsBettingRoundComplete(r)
  {
    var r := ApplyBet(s, playerIndex, amount, nextPlayerIndex);
    var hypothetical := r.(pot := s.pot, handState := s.handState,
                           bettingRoundState := r.bettingRoundState.(roundComplete := s.bettingRoundState.roundComplete));
    CompletionDependsOnBets(hypothetical, r);
  }

  /**
   * `updatePlayerBet`: finds the next player still in the hand, clockwise from
   * the bettor, and applies the bet.
   */
  method UpdatePlayerBet(s: GameState, playerIndex: nat, amount: int) returns (r: GameState)
    requires playerIndex < |s.players| && AnyEligible(s.players, NotFolded)
    ensures r == ApplyBet(s, playerIndex, amount, FirstEligible(s.players, NotFolded, After(playerIndex, |s.players|)))
  {
    var ps := s.players;
    var n := |ps|;
    var nextPlayerIndex := (playerIndex + 1) % n;
    ghost var start := nextPlayerIndex;
    ScanFullLap(ps, NotFolded, start);
    ghost var g := Scan(ps, NotFolded, start, 0, n).value;
    ghost var t := 0;
    SeatFormula(start, 0, n);
    while !ps[nextPlayerIndex].isActive
      invariant t <= g && nextPlayerIndex == Seat(start, t, n)
      decreases g - t
    {
      SeatNext(start, t, n);
      nextPlayerIndex := (nextPlayerIndex + 1) % n;
      t := t + 1;
    }
    assert t == g;
    r := ApplyBet(s, playerIndex, amount, nextPlayerIndex);
  }

  /** The completion test reads only the seats, the current bet, the phase and the acted/awaited sets. */
  lemma CompletionDependsOnBets(s: GameState, t: GameState)
    requires s.players == t.players && s.currentBet == t.currentBet
    requires s.currentBettingRound == t.currentBettingRound
    requires s.handState.bigBlindPosition == t.handState.bigBlindPosition
    requires s.bettingRoundState.playersActed == t.bettingRoundState.playersActed
    requires s.bettingRoundState.actionsNeeded == t.bettingRoundState.actionsNeeded
    ensures IsBettingRoundComplete(s) == IsBettingRoundComplete(t)
  {
  }

  /** Moves the turn to the next player, clockwise, who has not folded. */
  method NextPlayer(s: GameState) returns (r: GameState)
    requires |s.players| > 0 && s.activePlayerIndex >= -1 && AnyEligible(s.players, NotFolded)
    ensures r == s.(activePlayerIndex := r.activePlayerIndex)
    ensures r.activePlayerIndex ==
              FirstEligible(s.players, NotFolded, (s.activePlayerIndex + 1) % |s.players|)
  {
    var ps := s.players;
    var n := |ps|;
    var nextIndex := (s.activePlayerIndex + 1) % n;
    ghost var start := nextIndex;
    ScanFullLap(ps, NotFolded, start);
    ghost var g := Scan(ps, NotFolded, start, 0, n).value;
    ghost var t := 0;
    SeatFormula(start, 0, n);
    while !ps[nextIndex].isActive
      invariant t <= g && nextIndex == Seat(start, t, n)
      decreases g - t
    {
      SeatNext(start, t, n);
      nextIndex := (nextIndex + 1) % n;
      t := t + 1;
    }
    r := s.(activePlayerIndex := nextIndex);
  }

  /** The ids of the seats still in the hand other than the big blind's seat `bb`. */
  function AwaitedAfterBlinds(ps: seq<Player>, bb: nat): set<PlayerId>
  {
    set j | 0 <= j < |ps| && j != bb && ps[j].isActive :: ps[j].id
  }

  /**
   * The blind-posting walk: from the seat after `bb` round to `bb`, collect the
   * ids of the seats still in the hand.
   */
  method CollectAwaited(ps: seq<Player>, bb: nat) returns (needed: set<PlayerId>)
    requires bb < |ps|
    ensures needed == AwaitedAfterBlinds(ps, bb)
  {
    var n := |ps|;
    needed := {};
    var currentIndex := (bb + 1) % n;
    ghost var start := currentIndex;
    ghost var t := 0;
    SeatFormula(start, 0, n);
    LastSeatOfLap(bb, n);
    while currentIndex != bb
      invariant t <= n - 1 && currentIndex == Seat(start, t, n)
      invariant needed == set k | 0 <= k < t && ps[Seat(start, k, n)].isActive :: ps[Seat(start, k, n)].id
      decreases n - 1 - t
    {
      var player := ps[currentIndex];
      if player.isActive {
        needed := needed + {player.id};
      }
      SeatNext(start, t, n);
      currentIndex := (currentIndex + 1) % n;
      t := t + 1;
    }
    if t < n - 1 {
      SeatBeforeLapEnd(bb, t, n);
    }
    LapAfterSeat(ps, bb);
  }

  /**
   * The table once seat `sb` has paid the small blind and seat `bb` the big
   * blind: both count as having acted, the pot holds exactly the two blinds,
   * the bet to match is the big blind, the log holds the two blinds as raises,
   * and the player after the big blind is to act.
   */
  function WithBlinds(s: GameState, sb: nat, bb: nat, needed: set<PlayerId>): (r: GameState)
    requires sb < |s.players| && bb < |s.players|
    ensures r == s.(currentBet := r.currentBet, pot := r.pot, players := r.players,
                    bettingRoundState := r.bettingRoundState, handState := r.handState)
    ensures r.currentBet == s.bigBlind && r.pot == s.smallBlind + s.bigBlind
    ensures |r.players| == |s.players|
    ensures forall k :: 0 <= k < |s.players| && k != sb && k != bb ==> r.players[k] == s.players[k]
    ensures var p := s.players[sb];
      r.players[sb] == p.(betAmount := s.smallBlind, stack := p.stack - s.smallBlind, hasActed := true)
    ensures var p := s.players[bb];
      sb != bb ==> r.players[bb] == p.(betAmount := s.bigBlind, stack := p.stack - s.bigBlind, hasActed := true)
    ensures var ps, first := s.players, s.players[After(bb, |s.players|)].id;
      r.bettingRoundState == s.bettingRoundState.(
        actionsThisRound := [BettingAction(Raise, ps[sb].id, Some(s.smallBlind)),
                             BettingAction(Raise, ps[bb].id, Some(s.bigBlind))],
        currentPlayer := first,
        playersActed := {ps[sb].id, ps[bb].id},
        actionsNeeded := needed) &&
      r.handState == s.handState.(blindsPosted := true, currentBettor := Some(first),
                                  lastRaiser := Some(ps[bb].id))
  {
    var ps, n := s.players, |s.players|;
    var sbPlayer, bbPlayer := ps[sb], ps[bb];
    var firstToAct := ps[(bb + 1) % n];
    var players := seq(n, i requires 0 <= i < n =>
      if i == sb then sbPlayer.(betAmount := s.smallBlind, stack := sbPlayer.stack - s.smallBlind, hasActed := true)
      else if i == bb then bbPlayer.(betAmount := s.bigBlind, stack := bbPlayer.stack - s.bigBlind, hasActed := true)
      else ps[i]);
    s.(currentBet := s.bigBlind,
       pot := s.smallBlind + s.bigBlind,
       players := players,
       bettingRoundState := s.bettingRoundState.(
         actionsThisRound := [BettingAction(Raise, sbPlayer.id, Some(s.smallBlind)),
                              BettingAction(Raise, bbPlayer.id, Some(s.bigBlind))],
         currentPlayer := firstToAct.id,
         playersActed := {sbPlayer.id, bbPlayer.id},
         actionsNeeded := needed),
       handState := s.handState.(blindsPosted := true,
                                 currentBettor := Some(firstToAct.id),
                                 lastRaiser := Some(bbPlayer.id)))
  }

  /**
   * Posting the blinds on two distinct seats takes exactly the two blinds out
   * of the stacks, and the pot then holds those chips and nothing else.
   */
  lemma BlindsLeaveStacks(s: GameState, sb: nat, bb: nat, needed: set<PlayerId>)
    requires sb < |s.players| && bb < |s.players| && sb != bb
    ensures var r := WithBlinds(s, sb, bb, needed);
      SumStacks(r.players) == SumStacks(s.players) - s.smallBlind - s.bigBlind &&
      SumStacks(r.players) + r.pot == SumStacks(s.players)
  {
    var ps, r := s.players, WithBlinds(s, sb, bb, needed);
    assert r.players == ps[sb := r.players[sb]][bb := r.players[bb]];
    SumStacksUpdate(ps, sb, r.players[sb]);
    SumStacksUpdate(ps[sb := r.players[sb]], bb, r.players[bb]);
  }

  /**
   * Posts the blinds: the first small-blind seat pays `smallBlind` and the
   * first big-blind seat `bigBlind`, and every other seat still in the hand is
   * awaited. A table without a small or a big blind is returned as it is.
   */
  method PostBlinds(s: GameState) returns (r: GameState)
    ensures IndexOfRole(s.players, SmallBlind) == -1 || IndexOfRole(s.players, BigBlind) == -1 ==> r == s
    ensures IndexOfRole(s.players, SmallBlind) >= 0 && IndexOfRole(s.players, BigBlind) >= 0 ==>
      var sb, bb := IndexOfRole(s.players, SmallBlind), IndexOfRole(s.players, BigBlind);
      r == WithBlinds(s, sb, bb, AwaitedAfterBlinds(s.players, bb))
  {
    var smallBlindIndex := IndexOfRole(s.players, SmallBlind);
    var bigBlindIndex := IndexOfRole(s.players, BigBlind);
    if smallBlindIndex == -1 || bigBlindIndex == -1 {
      return s;
    }
    var actionsNeeded := CollectAwaited(s.players, bigBlindIndex);
    r := WithBlinds(s, smallBlindIndex, bigBlindIndex, actionsNeeded);
  }

  /** The lap that starts after seat `bb` and stops before returning to it visits every other seat once. */
  lemma LapAfterSeat(ps: seq<Player>, bb: nat)
    requires bb < |ps|
    ensures var n, start := |ps|, After(bb, |ps|);
      (set k | 0 <= k < n - 1 && ps[Seat(start, k, n)].isActive :: ps[Seat(start, k, n)].id) ==
      (set j | 0 <= j < n && j != bb && ps[j].isActive :: ps[j].id)
  {
    var n, start := |ps|, After(bb, |ps|);
    var lhs := set k | 0 <= k < n - 1 && ps[Seat(start, k, n)].isActive :: ps[Seat(start, k, n)].id;
    var rhs := set j | 0 <= j < n && j != bb && ps[j].isActive :: ps[j].id;
    forall x | x in lhs ensures x in rhs {
      var k :| 0 <= k < n - 1 && ps[Seat(start, k, n)].isActive && x == ps[Seat(start, k, n)].id;
      SeatBeforeLapEnd(bb, k, n);
    }
    forall x | x in rhs ensures x in lhs {
      var j :| 0 <= j < n && j != bb && ps[j].isActive && x == ps[j].id;
      var k := SeatCovers(start, j, n);
      LastSeatOfLap(bb, n);
      assert k != n - 1;
    }
  }

  /**
   * A hand before its blinds: the roles rotate as in `RotateDealer`, the board
   * and the pot are cleared, every seat is back in the hand without cards or
   * bet, and the seat after the big blind opens the betting round.
   */
  function FreshHand(s: GameState): (h: GameState)
    requires |s.players| > 0
    ensures var n, d := |s.players|, NextDealerSeat(s.players);
      var sb, bb := After(d, n), After(After(d, n), n);
      |h.players| == n &&
      h == s.(communityCards := [], pot := 0, currentBet := 0, currentBettingRound := Preflop,
              handState := CreateInitialHandState().(handInProgress := true),
              players := h.players,
              bettingRoundState := CreateInitialBettingRoundState(h.players[After(bb, n)], h.players)) &&
      (forall i :: 0 <= i < n ==>
        h.players[i] == s.players[i].(isDealer := i == d, isSmallBlind := i == sb, isBigBlind := i == bb,
                                      isActive := true, hasActed := false, betAmount := 0, holeCards := [])) &&
      IndexOfRole(h.players, SmallBlind) == sb && IndexOfRole(h.players, BigBlind) == bb
    ensures SumStacks(h.players) == SumStacks(s.players)
  {
    var n := |s.players|;
    var nextDealerIndex := NextDealerSeat(s.players);
    var nextSmallBlindIndex := After(nextDealerIndex, n);
    var nextBigBlindIndex := After(nextSmallBlindIndex, n);
    var players := ResetSeats(s.players, nextDealerIndex, nextSmallBlindIndex, nextBigBlindIndex);
    var firstToAct := players[After(nextBigBlindIndex, n)];
    RoleIsUnique(players, SmallBlind, nextSmallBlindIndex);
    RoleIsUnique(players, BigBlind, nextBigBlindIndex);
    SumStacksPointwise(players, s.players);
    s.(communityCards := [],
       pot := 0,
       currentBet := 0,
       currentBettingRound := Preflop,
       handState := CreateInitialHandState().(handInProgress := true),
       players := players,
       bettingRoundState := CreateInitialBettingRoundState(firstToAct, players))
  }

  /** Starts a hand: the fresh hand of `FreshHand` with its blinds posted. */
  method StartNewHand(s: GameState) returns (r: GameState)
    requires |s.players| > 0
    ensures var n, d := |s.players|, NextDealerSeat(s.players);
      var h, bb := FreshHand(s), After(After(d, n), n);
      r == WithBlinds(h, After(d, n), bb, AwaitedAfterBlinds(h.players, bb))
  {
    var newState := FreshHand(s);
    r := PostBlinds(newState);
  }

  /**
   * At a table of two or more seats a new hand keeps every seat's identity,
   * puts everyone back in the hand without cards and moves the three roles
   * one seat on.
   */
  lemma NewHandSeats(s: GameState)
    requires |s.players| >= 2
    ensures var n, d := |s.players|, NextDealerSeat(s.players);
      var sb, bb := After(d, n), After(After(d, n), n);
      var h := FreshHand(s);
      var r := WithBlinds(h, sb, bb, AwaitedAfterBlinds(h.players, bb));
      |r.players| == n &&
      forall i :: 0 <= i < n ==>
        r.players[i].id == s.players[i].id && r.players[i].isActive && r.players[i].holeCards == [] &&
        (r.players[i].isDealer <==> i == d) &&
        (r.players[i].isSmallBlind <==> i == sb) &&
        (r.players[i].isBigBlind <==> i == bb)
  {
    var n, d := |s.players|, NextDealerSeat(s.players);
    var sb, bb := After(d, n), After(After(d, n), n);
    var h := FreshHand(s);
    var r := WithBlinds(h, sb, bb, AwaitedAfterBlinds(h.players, bb));
    BlindsKeepSeats(h, sb, bb, AwaitedAfterBlinds(h.players, bb));
    forall i | 0 <= i < n
      ensures r.players[i].id == s.players[i].id && r.players[i].isActive && r.players[i].holeCards == []
      ensures (r.players[i].isDealer <==> i == d) && (r.players[i].isSmallBlind <==> i == sb)
      ensures r.players[i].isBigBlind <==> i == bb
    {
      assert SameSeat(r.players[i], h.players[i]);
      assert h.players[i] == s.players[i].(isDealer := i == d, isSmallBlind := i == sb, isBigBlind := i == bb,
                                           isActive := true, hasActed := false, betAmount := 0, holeCards := []);
    }
  }

  /** The same player on the same seat in the same role, whatever their chips. */
  predicate SameSeat(p: Player, q: Player)
  {
    p.id == q.id && p.isActive == q.isActive && p.holeCards == q.holeCards &&
    p.isDealer == q.isDealer && p.isSmallBlind == q.isSmallBlind && p.isBigBlind == q.isBigBlind
  }

  /** Posting the blinds touches chips only: every seat keeps its player, cards and role. */
  lemma BlindsKeepSeats(s: GameState, sb: nat, bb: nat, needed: set<PlayerId>)
    requires sb < |s.players| && bb < |s.players|
    ensures var r := WithBlinds(s, sb, bb, needed);
      forall i :: 0 <= i < |s.players| ==> SameSeat(r.players[i], s.players[i])
  {
  }

  /** A new hand opens the preflop round with an empty board and the blinds posted. */
  lemma NewHandRound(s: GameState)
    requires |s.players| >= 2
    ensures var n, d := |s.players|, NextDealerSeat(s.players);
      var bb := After(After(d, n), n);
      var h := FreshHand(s);
      var r := WithBlinds(h, After(d, n), bb, AwaitedAfterBlinds(h.players, bb));
      r.communityCards == [] && r.currentBettingRound == Preflop &&
      r.handState.handInProgress && r.handState.blindsPosted && r.handState.lastRaiser == Some(s.players[bb].id)
  {
  }

  /**
   * At a table of two or more seats the small blind is charged to the seat
   * after the dealer and the big blind to the seat after that. The chips of
   * the previous pot are not handed back: the stacks and the new pot together
   * hold exactly the old stacks.
   */
  lemma NewHandChips(s: GameState)
    requires |s.players| >= 2
    ensures var n, d := |s.players|, NextDealerSeat(s.players);
      var sb, bb := After(d, n), After(After(d, n), n);
      var h := FreshHand(s);
      var r := WithBlinds(h, sb, bb, AwaitedAfterBlinds(h.players, bb));
      r.pot == s.smallBlind + s.bigBlind && r.currentBet == s.bigBlind &&
      r.players[sb].stack == s.players[sb].stack - s.smallBlind &&
      r.players[bb].stack == s.players[bb].stack - s.bigBlind &&
      SumStacks(r.players) + r.pot == SumStacks(s.players)
  {
    var n, d := |s.players|, NextDealerSeat(s.players);
    var sb, bb := After(d, n), After(After(d, n), n);
    var h := FreshHand(s);
    SeatFormula(d, 1, n);
    SeatFormula(sb, 1, n);
    assert sb != bb;
    BlindsLeaveStacks(h, sb, bb, AwaitedAfterBlinds(h.players, bb));
  }

  /** At a table of two or more seats every seat but the big blind's is awaited once the blinds are in. */
  lemma NewHandAwaited(s: GameState)
    requires |s.players| >= 2
    ensures var n, d := |s.players|, NextDealerSeat(s.players);
      var bb := After(After(d, n), n);
      var h := FreshHand(s);
      var r := WithBlinds(h, After(d, n), bb, AwaitedAfterBlinds(h.players, bb));
      r.bettingRoundState.actionsNeeded == (set j | 0 <= j < n && j != bb :: s.players[j].id)
  {
    var n, d := |s.players|, NextDealerSeat(s.players);
    var bb := After(After(d, n), n);
    AwaitedAllButBigBlind(FreshHand(s).players, s.players, bb);
  }

  /** When every seat is in the hand, the seats awaited after the blinds are all seats but the big blind's. */
  lemma AwaitedAllButBigBlind(ps: seq<Player>, qs: seq<Player>, bb: nat)
    requires |ps| == |qs| && forall i :: 0 <= i < |ps| ==> ps[i].isActive && ps[i].id == qs[i].id
    ensures AwaitedAfterBlinds(ps, bb) == (set j | 0 <= j < |qs| && j != bb :: qs[j].id)
  {
    var a, b := AwaitedAfterBlinds(ps, bb), (set j | 0 <= j < |qs| && j != bb :: qs[j].id);
    forall x ensures x in a <==> x in b {
      if x in a {
        var j :| 0 <= j < |ps| && j != bb && ps[j].isActive && ps[j].id == x;
        assert qs[j].id == x;
      }
      if x in b {
        var j :| 0 <= j < |qs| && j != bb && qs[j].id == x;
        assert ps[j].id == x && ps[j].isActive;
      }
    }
  }

  /** Where exactly one seat holds a role, that seat is the one `findIndex` returns. */
  lemma {:induction false} RoleIsUnique(ps: seq<Player>, role: Role, d: nat)
    requires d < |ps| && forall i :: 0 <= i < |ps| ==> (HasRole(ps[i], role) <==> i == d)
    ensures IndexOfRole(ps, role) == d
  {
    if d > 0 {
      RoleIsUnique(ps[1..], role, d - 1);
    }
  }
}
