/**
 * The turn hook: whose turn it is at a fixed table, which betting round of
 * the hand is being played, and whether the current round is over. Seats are
 * walked clockwise; a seat can act when its player has not folded and has a
 * stack that is not 0.
 */
module PlayerTurns {
  import opened PokerTypes
  import opened Seating

  /** JavaScript's `a % n`: the remainder takes the sign of `a`. */
  function JsRem(a: int, n: nat): (r: int)
    requires n > 0
    ensures a >= 0 ==> r == a % n
    ensures a < 0 ==> -(n as int) < r <= 0
    ensures (a - r) % n == 0
  {
    if a >= 0 then
      var q := a / n;
      ModBetween(q * n, n, q);
      a % n
    else
      var q, m := (-a) / n, (-a) % n;
      assert (-q) * n == -(q * n) && a + m == (-q) * n;
      ModBetween(a + m, n, -q);
      -m
  }

  /** The players in the hand with a positive stack (`filter(p => p.isActive && p.stack > 0)`). */
  function Funded(ps: seq<Player>): (r: seq<Player>)
    ensures |r| <= |ps|
    ensures forall p :: p in r <==> p in ps && p.isActive && p.stack > 0
  {
    if ps == [] then []
    else (if ps[0].isActive && ps[0].stack > 0 then [ps[0]] else []) + Funded(ps[1..])
  }

  /** `Funded` keeps every funded seat in the hand, each as often as it occurs, and drops every other one. */
  lemma {:induction false} FundedCounts(ps: seq<Player>)
    ensures forall p :: multiset(Funded(ps))[p] == if p.isActive && p.stack > 0 then multiset(ps)[p] else 0
  {
    if ps != [] {
      FundedCounts(ps[1..]);
      assert ps == [ps[0]] + ps[1..];
    }
  }

  /** The largest bet on the table (`Math.max(...betAmounts)`), None for an empty table. */
  function MaxBet(ps: seq<Player>): (m: Option<int>)
    ensures m.None? <==> ps == []
    ensures m.Some? ==> (exists i :: 0 <= i < |ps| && ps[i].betAmount == m.value) &&
                        forall i :: 0 <= i < |ps| ==> ps[i].betAmount <= m.value
  {
    if ps == [] then None
    else
      var rest := MaxBet(ps[1..]);
      if rest.None? || ps[0].betAmount >= rest.value then Some(ps[0].betAmount) else rest
  }

  /** The seat a new betting round starts its walk from: three seats after the dealer preflop, one after it later. */
  function StartSeat(phase: BettingRound, dealerPosition: int, n: nat): (s: int)
    requires n > 0
    ensures -(n as int) < s < n
    ensures dealerPosition >= 0 ==>
      s == if phase == Preflop then (dealerPosition + 3) % n else (dealerPosition + 1) % n
    ensures dealerPosition + (if phase == Preflop then 3 else 1) >= 0 ==>
      s == (dealerPosition + (if phase == Preflop then 3 else 1)) % n
    ensures (dealerPosition + (if phase == Preflop then 3 else 1) - s) % n == 0
    ensures dealerPosition + (if phase == Preflop then 3 else 1) < 0 ==> s <= 0
  {
    JsRem(dealerPosition + (if phase == Preflop then 3 else 1), n)
  }

  class TurnTracker {
    const players: seq<Player>
    const currentPhase: BettingRound
    const dealerPosition: int
    var activePlayerIndex: int
    var currentBettingRound: int
    var isRoundComplete: bool

    /** Seat 0 to act, round 0, not complete. */
    constructor (players: seq<Player>, currentPhase: BettingRound, dealerPosition: int)
      ensures this.players == players && this.currentPhase == currentPhase && this.dealerPosition == dealerPosition
      ensures activePlayerIndex == 0 && currentBettingRound == 0 && !isRoundComplete
    {
      this.players := players;
      this.currentPhase := currentPhase;
      this.dealerPosition := dealerPosition;
      activePlayerIndex := 0;
      currentBettingRound := 0;
      isRoundComplete := false;
    }

    /**
     * The first seat after `currentIndex`, clockwise, that can act; when no
     * other seat can, the walk comes back to `currentIndex` itself.
     */
    method GetNextActivePlayerIndex(currentIndex: nat) returns (nextIndex: nat)
      requires currentIndex < |players|
      ensures nextIndex == NextEligibleAfter(players, HasChips, currentIndex)
    {
      var n := |players|;
      nextIndex := (currentIndex + 1) % n;
      ghost var start := nextIndex;
      ghost var t := 0;
      SeatFormula(start, 0, n);
      LastSeatOfLap(currentIndex, n);
      while nextIndex != currentIndex && (!players[nextIndex].isActive || players[nextIndex].stack == 0)
        invariant t <= n - 1 && nextIndex == Seat(start, t, n)
        invariant forall k :: 0 <= k < t ==> !Eligible(players[Seat(start, k, n)], HasChips)
        decreases n - 1 - t
      {
        assert t < n - 1;
        SeatNext(start, t, n);
        nextIndex := (nextIndex + 1) % n;
        t := t + 1;
      }
      if t < n - 1 {
        SeatBeforeLapEnd(currentIndex, t, n);
      }
    }

    /**
     * Passes the turn on. When the walk comes back to the current seat, or at
     * most one player in the hand has chips, the round is marked complete and
     * the turn stays where it is.
     */
    method NextTurn()
      requires 0 <= activePlayerIndex < |players|
      modifies this
      ensures currentBettingRound == old(currentBettingRound)
      ensures var next := NextEligibleAfter(players, HasChips, old(activePlayerIndex));
        if next == old(activePlayerIndex) || |Funded(players)| <= 1
        then isRoundComplete && activePlayerIndex == old(activePlayerIndex)
        else isRoundComplete == old(isRoundComplete) && activePlayerIndex == next
    {
      var nextIndex := GetNextActivePlayerIndex(activePlayerIndex);
      if nextIndex == activePlayerIndex || |Funded(players)| <= 1 {
        isRoundComplete := true;
        return;
      }
      activePlayerIndex := nextIndex;
    }

    /**
     * Starts the next betting round: the first seat that can act, walking
     * clockwise from the round's start seat, gets the turn.
     */
    method StartNewRound()
      requires |players| > 0 && StartSeat(currentPhase, dealerPosition, |players|) >= 0
      requires AnyEligible(players, HasChips)
      modifies this
      ensures activePlayerIndex == FirstEligible(players, HasChips, StartSeat(currentPhase, dealerPosition, |players|))
      ensures currentBettingRound == old(currentBettingRound) + 1 && !isRoundComplete
    {
      var n := |players|;
      var startingPosition: nat := StartSeat(currentPhase, dealerPosition, n);
      ghost var start := startingPosition;
      ScanFullLap(players, HasChips, start);
      ghost var g := Scan(players, HasChips, start, 0, n).value;
      ghost var t := 0;
      SeatFormula(start, 0, n);
      while !players[startingPosition].isActive || players[startingPosition].stack == 0
        invariant t <= g && startingPosition == Seat(start, t, n)
        invariant unchanged(this)
        decreases g - t
      {
        SeatNext(start, t, n);
        startingPosition := (startingPosition + 1) % n;
        t := t + 1;
      }
      assert t == g;
      activePlayerIndex := startingPosition;
      currentBettingRound := currentBettingRound + 1;
      isRoundComplete := false;
    }

    /**
     * Leaves the turn where it is when that seat can act; otherwise moves it
     * to the next seat that can, or, when the walk comes back round, marks the
     * round complete without moving it.
     */
    method SkipFoldedPlayers()
      requires 0 <= activePlayerIndex < |players|
      modifies this
      ensures currentBettingRound == old(currentBettingRound)
      ensures Eligible(players[old(activePlayerIndex)], HasChips) ==>
        activePlayerIndex == old(activePlayerIndex) && isRoundComplete == old(isRoundComplete)
      ensures !Eligible(players[old(activePlayerIndex)], HasChips) ==>
        var next := NextEligibleAfter(players, HasChips, old(activePlayerIndex));
        if next == old(activePlayerIndex)
        then isRoundComplete && activePlayerIndex == old(activePlayerIndex)
        else isRoundComplete == old(isRoundComplete) && activePlayerIndex == next
    {
      var n := |players|;
      var cur: nat := activePlayerIndex;
      var nextIndex := activePlayerIndex;
      ghost var start := After(cur, n);
      ghost var t := 0;   // seats visited after `cur`
      LastSeatOfLap(cur, n);
      while !players[nextIndex].isActive || players[nextIndex].stack == 0
        invariant t <= n - 1
        invariant t == 0 ==> nextIndex == cur
        invariant t > 0 ==> nextIndex == Seat(start, t - 1, n) && nextIndex != cur
        invariant forall k :: 0 <= k < t - 1 ==> !Eligible(players[Seat(start, k, n)], HasChips)
        invariant t > 0 ==> !Eligible(players[cur], HasChips)
        invariant unchanged(this)
        decreases n - 1 - t
      {
        if t == 0 {
          SeatFormula(start, 0, n);
        } else {
          SeatAfter(start, t - 1, n);
        }
        nextIndex := (nextIndex + 1) % n;
        if nextIndex == cur {
          assert t == n - 1 by {
            if t < n - 1 {
              SeatBeforeLapEnd(cur, t, n);
            }
          }
          isRoundComplete := true;
          return;
        }
        t := t + 1;
      }
      activePlayerIndex := nextIndex;
    }

    /** The player whose turn it is, None when the turn index is off the table. */
    function GetCurrentPlayer(): (p: Option<Player>)
      reads this
      ensures p.Some? <==> 0 <= activePlayerIndex < |players|
      ensures p.Some? ==> p.value == players[activePlayerIndex] && p.value in players
    {
      if 0 <= activePlayerIndex < |players| then Some(players[activePlayerIndex]) else None
    }

    /** A player may check exactly when no bet on the table is larger than theirs and one is equal to it. */
    function CanCheck(player: Player): (b: bool)
      ensures b <==>
        (exists i :: 0 <= i < |players| && players[i].betAmount == player.betAmount) &&
        forall i :: 0 <= i < |players| ==> players[i].betAmount <= player.betAmount
    {
      var highestBet := MaxBet(players);
      highestBet.Some? && player.betAmount == highestBet.value
    }
  }
}
