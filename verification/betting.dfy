/**
 * The betting hook: a table of players and the betting state of the current
 * round, and the legality rules for fold, check, call, raise and all-in.
 * An action by a player who is not seated, an illegal check and an illegal
 * raise leave everything as it was; a legal action changes the acting player
 * in place and the betting state field by field.
 */
module Betting {
  import opened PokerTypes
  import GameEngine

  /** The betting state of the hook. */
  datatype BettingState = BettingState(
    pot: int,
    currentBet: int,
    minRaise: int,
    lastRaise: int,
    roundComplete: bool)

  /** An action as the hook receives it; `amount` is only read by a raise. */
  datatype TableAction = TableAction(playerId: PlayerId, action: PlayerAction, amount: Option<int>)

  /** The acting player and the betting state after one legal action, before the round-complete test. */
  datatype Move = Move(player: Player, state: BettingState)

  /** The index of the first player with id `id`, or -1 (JavaScript `find` on the player list). */
  function FindPlayer(ps: seq<Player>, id: PlayerId): (r: int)
    ensures -1 <= r < |ps|
    ensures r >= 0 ==> ps[r].id == id && forall k :: 0 <= k < r ==> ps[k].id != id
    ensures r == -1 <==> forall k :: 0 <= k < |ps| ==> ps[k].id != id
  {
    if ps == [] then -1
    else if ps[0].id == id then 0
    else
      var r := FindPlayer(ps[1..], id);
      if r == -1 then -1 else r + 1
  }

  /** What a call costs: the amount still owed, but never more than the stack. */
  function CallAmount(p: Player, currentBet: int): (amount: int)
    ensures amount <= p.stack && amount <= currentBet - p.betAmount
    ensures amount == p.stack || amount == currentBet - p.betAmount
  {
    if currentBet - p.betAmount > p.stack then p.stack else currentBet - p.betAmount
  }

  /** Whether a raise to `amount` is refused: no amount (or 0), less than twice the current bet, or more than the stack covers. */
  predicate RaiseRefused(p: Player, currentBet: int, amount: Option<int>)
  {
    amount.None? || amount.value == 0 || amount.value < currentBet * 2 ||
    amount.value - p.betAmount > p.stack
  }

  /**
   * The effect of one action on the acting player `p` and the betting state,
   * or None when the action is refused.
   */
  function PlayerMove(p: Player, st: BettingState, action: PlayerAction, amount: Option<int>): (m: Option<Move>)
    ensures m.None? <==>
      (action == Check && st.currentBet > p.betAmount) ||
      (action == Raise && RaiseRefused(p, st.currentBet, amount))
  {
    match action
    case Fold => Some(Move(p.(isActive := false), st))
    case Check => if st.currentBet > p.betAmount then None else Some(Move(p, st))
    case Call =>
      var c := CallAmount(p, st.currentBet);
      Some(Move(p.(stack := p.stack - c, betAmount := p.betAmount + c), st.(pot := st.pot + c)))
    case Raise =>
      if RaiseRefused(p, st.currentBet, amount) then None
      else
        var a := amount.value;
        var c := a - p.betAmount;
        var lastRaise := a - st.currentBet;
        Some(Move(p.(stack := p.stack - c, betAmount := p.betAmount + c),
                  st.(currentBet := a, lastRaise := lastRaise, minRaise := st.currentBet + lastRaise,
                      pot := st.pot + c)))
    case AllIn =>
      var bet := p.betAmount + p.stack;
      var t := if bet > st.currentBet
               then st.(currentBet := bet, lastRaise := bet - st.currentBet,
                        minRaise := st.currentBet + (bet - st.currentBet))
               else st;
      Some(Move(p.(betAmount := bet, stack := 0), t.(pot := st.pot + p.stack)))
  }

  /**
   * An accepted move changes only the player's stack, bet and in-hand flag
   * and the pot and bet fields of the betting state; chips only move from the
   * player's stack onto the player's bet and into the pot.
   */
  lemma MoveConservesChips(p: Player, st: BettingState, action: PlayerAction, amount: Option<int>)
    ensures var m := PlayerMove(p, st, action, amount);
      m.Some? ==>
        var q, t := m.value.player, m.value.state;
        q == p.(stack := q.stack, betAmount := q.betAmount, isActive := q.isActive) &&
        t == st.(pot := t.pot, currentBet := t.currentBet, minRaise := t.minRaise, lastRaise := t.lastRaise) &&
        q.stack + t.pot == p.stack + st.pot &&
        q.betAmount - p.betAmount == t.pot - st.pot &&
        (q.isActive <==> p.isActive && action != Fold)
  {
    match action
    case Fold =>
    case Check =>
    case Call =>
    case Raise =>
    case AllIn =>
  }

  /** Unfolds the fold and check branches of `PlayerMove`: no chips move and the betting state is kept. */
  lemma FoldOrCheckMove(p: Player, st: BettingState, action: PlayerAction, amount: Option<int>)
    requires action == Fold || action == Check
    ensures var m := PlayerMove(p, st, action, amount);
      m.Some? ==> m.value.player.stack == p.stack && m.value.player.betAmount == p.betAmount && m.value.state == st
  {
  }

  /** Unfolds the call branch of `PlayerMove`: always accepted, moving the owed amount, capped at the stack, onto the bet and into the pot. */
  lemma CallMove(p: Player, st: BettingState, amount: Option<int>)
    ensures var m, c := PlayerMove(p, st, Call, amount), CallAmount(p, st.currentBet);
      m.Some? && m.value.player.stack == p.stack - c && m.value.player.betAmount == p.betAmount + c &&
      m.value.state == st.(pot := st.pot + c)
  {
  }

  /**
   * Unfolds the raise branch of `PlayerMove`.
   * An accepted raise to `a` makes `a` the player's bet and the current bet,
   * records the raise over the old current bet, and sets the minimum raise to `a`.
   */
  lemma RaiseMove(p: Player, st: BettingState, amount: Option<int>)
    requires !RaiseRefused(p, st.currentBet, amount)
    ensures var m, a := PlayerMove(p, st, Raise, amount), amount.value;
      m.Some? &&
      m.value.player.betAmount == a && m.value.player.stack == p.stack - (a - p.betAmount) &&
      m.value.state.currentBet == a && m.value.state.lastRaise == a - st.currentBet &&
      m.value.state.minRaise == a && m.value.state.pot == st.pot + (a - p.betAmount)
  {
  }

  /**
   * Unfolds the all-in branch of `PlayerMove`.
   * All-in puts the whole stack on the bet; only when that tops the current
   * bet does it become the new current bet and count as a raise.
   */
  lemma AllInMove(p: Player, st: BettingState, amount: Option<int>)
    ensures var m := PlayerMove(p, st, AllIn, amount);
      var q, t := m.value.player, m.value.state;
      m.Some? && q.stack == 0 && q.betAmount == p.betAmount + p.stack && t.pot == st.pot + p.stack &&
      (q.betAmount > st.currentBet ==>
         t.currentBet == q.betAmount && t.lastRaise == q.betAmount - st.currentBet && t.minRaise == q.betAmount) &&
      (q.betAmount <= st.currentBet ==> t == st.(pot := t.pot))
  {
  }

  /**
   * The round-complete test: exactly one player is still in the hand, or
   * every player still in the hand has matched the current bet or has no
   * chips left (which also holds when nobody is left).
   */
  predicate RoundClosed(ps: seq<Player>, currentBet: int)
  {
    var active := GameEngine.ActivePlayers(ps);
    |active| == 1 || forall p | p in active :: p.betAmount == currentBet || p.stack == 0
  }

  /**
   * The test seat by seat: a single player left in the hand closes the round;
   * otherwise every seat still in the hand must have matched the current bet
   * or be all in.
   */
  lemma RoundClosedSeats(ps: seq<Player>, currentBet: int)
    ensures RoundClosed(ps, currentBet) <==>
      |GameEngine.ActivePlayers(ps)| == 1 ||
      forall i :: 0 <= i < |ps| && ps[i].isActive ==> ps[i].betAmount == currentBet || ps[i].stack == 0
  {
  }

  /** A whole table and its betting state. */
  datatype Table = Table(players: seq<Player>, state: BettingState)

  /**
   * `handleAction` on values: find the acting player, apply the move to that
   * player only, and mark the round complete once the test holds. The flag is
   * never cleared again.
   */
  function Act(t: Table, a: TableAction): (r: Table)
    ensures |r.players| == |t.players|
    ensures var i := FindPlayer(t.players, a.playerId);
      (i == -1 ==> r == t) &&
      (forall k :: 0 <= k < |t.players| && k != i ==> r.players[k] == t.players[k]) &&
      (i >= 0 ==>
         var m := PlayerMove(t.players[i], t.state, a.action, a.amount);
         (m.None? ==> r == t) &&
         (m.Some? ==>
            r.players[i] == m.value.player &&
            r.state == m.value.state.(roundComplete := t.state.roundComplete ||
                                                       RoundClosed(r.players, m.value.state.currentBet))))
    ensures SumStacks(r.players) + r.state.pot == SumStacks(t.players) + t.state.pot
    ensures SumBets(r.players) - SumBets(t.players) == r.state.pot - t.state.pot
    ensures t.state.roundComplete ==> r.state.roundComplete
  {
    var i := FindPlayer(t.players, a.playerId);
    if i == -1 then t
    else
      match PlayerMove(t.players[i], t.state, a.action, a.amount)
      case None => t
      case Some(m) =>
        var players := t.players[i := m.player];
        MoveConservesChips(t.players[i], t.state, a.action, a.amount);
        SumStacksUpdate(t.players, i, m.player);
        SumBetsUpdate(t.players, i, m.player);
        Table(players, m.state.(roundComplete := t.state.roundComplete || RoundClosed(players, m.state.currentBet)))
  }

  /** The players of the hook, updated in place, and its betting state. */
  class BettingTable {
    const players: array<Player>
    var pot: int
    var currentBet: int
    var minRaise: int
    var lastRaise: int
    var roundComplete: bool

    function State(): BettingState
      reads this
    {
      BettingState(pot, currentBet, minRaise, lastRaise, roundComplete)
    }

    /** The table as a value. */
    function Contents(): Table
      reads this, players
    {
      Table(players[..], State())
    }

    /** An empty pot, no bet yet, and a minimum raise of twice the small blind. */
    constructor (players: array<Player>, smallBlind: int := 10)
      ensures this.players == players
      ensures State() == BettingState(0, 0, smallBlind * 2, 0, false)
    {
      this.players := players;
      pot := 0;
      currentBet := 0;
      minRaise := smallBlind * 2;
      lastRaise := 0;
      roundComplete := false;
    }

    /** Applies one action; an unknown player or a refused action changes nothing. */
    method HandleAction(a: TableAction)
      modifies this, players
      ensures Contents() == Act(old(Contents()), a)
    {
      var i := FindPlayer(players[..], a.playerId);
      if i == -1 {
        return;
      }
      var accepted := ApplyMove(i, a);
      if accepted && RoundClosed(players[..], currentBet) {
        roundComplete := true;
      }
    }

    /** The `switch` of `handleAction`: the acting player's seat and the betting state after the move, if it is accepted. */
    method ApplyMove(i: nat, a: TableAction) returns (accepted: bool)
      requires i < players.Length
      modifies this, players
      ensures var m := PlayerMove(old(players[i]), old(State()), a.action, a.amount);
        accepted == m.Some? &&
        (m.None? ==> players[..] == old(players[..]) && State() == old(State())) &&
        (m.Some? ==> players[..] == old(players[..])[i := m.value.player] && State() == m.value.state)
    {
      var player := players[i];
      var amount := 0;
      var prevCurrentBet := currentBet;
      accepted := false;
      match a.action {
        case Fold =>
          players[i] := player.(isActive := false);
          assert PlayerMove(player, old(State()), a.action, a.amount) == Some(Move(players[i], State()));
        case Check =>
          if currentBet > player.betAmount {
            return;
          }
          assert PlayerMove(player, old(State()), a.action, a.amount) == Some(Move(players[i], State()));
        case Call =>
          amount := currentBet - player.betAmount;
          if amount > player.stack {
            amount := player.stack;
          }
          players[i] := player.(stack := player.stack - amount, betAmount := player.betAmount + amount);
          pot := pot + amount;
          assert PlayerMove(player, old(State()), a.action, a.amount) == Some(Move(players[i], State()));
        case Raise =>
          if a.amount.None? || a.amount.value == 0 || a.amount.value < currentBet * 2 {
            return;
          }
          amount := a.amount.value - player.betAmount;
          if amount > player.stack {
            return;
          }
          players[i] := player.(stack := player.stack - amount, betAmount := player.betAmount + amount);
          currentBet := a.amount.value;
          lastRaise := a.amount.value - prevCurrentBet;
          minRaise := prevCurrentBet + lastRaise;
          pot := pot + amount;
          assert PlayerMove(player, old(State()), a.action, a.amount) == Some(Move(players[i], State()));
        case AllIn =>
          amount := player.stack;
          var bet := player.betAmount + amount;
          players[i] := player.(betAmount := bet, stack := 0);
          if bet > prevCurrentBet {
            currentBet := bet;
            lastRaise := bet - prevCurrentBet;
            minRaise := prevCurrentBet + lastRaise;
          }
          pot := pot + amount;
          assert PlayerMove(player, old(State()), a.action, a.amount) == Some(Move(players[i], State()));
      }
      accepted := true;
    }
  }
}
