# Texas Hold'em engine hooks, modelled in Dafny

The engine of this poker trainer lives in a handful of React hooks. This project models what those hooks compute, without the React layer.

- **`useGameState`** holds the whole table as one `GameState` value. Every operation maps the previous state to the next one:
  - `rotateDealer` and `startNewHand` move the dealer button and the two blinds.
  - `postBlinds` charges the blinds.
  - `updatePlayerBet` applies a bet, classifies it and logs it.
  - `isBettingRoundComplete` is the completion test.
  - `endRound` advances the phase and reveals the cards at the showdown.
  - `handleAIAction` is the stand-in AI.
  - `dealCards` and `dealCommunityCard` deal cards.
- **`useBetting`** validates fold, check, call, raise and all-in. It refuses illegal actions without changing anything, and it updates the acting player in place.
- **`usePlayerTurns`** walks the seats clockwise, skipping seats that folded or have no chips, and picks who acts first in a round.
- **`useHandStrength`** counts the cards by rank and by suit, detects a flush and a run of five ranks, and climbs a fixed ladder of categories with fixed percentages.
- **`useDeck`** builds the 52-card deck, shuffles it with Fisher-Yates swaps and deals by popping from the end.

Files and modules:

| file | module | contents |
|---|---|---|
| `types.dfy` | `PokerTypes` | The data model: suits, ranks, cards, actions, players, the betting-round and hand bookkeeping, the game state, and stack totals. |
| `seating.dfy` | `Seating` | Specifications of the clockwise seat walks, which all run `i = (i + 1) % n` until a seat qualifies, and of `findIndex` on the role flags. |
| `game_state.dfy` | `GameEngine` | The `useGameState` reducers. The three operations that loop are methods: `updatePlayerBet`, `nextPlayer` and the `postBlinds` walk. |
| `betting.dfy` | `Betting` | `handleAction` as a class. It holds the player array, which the hook mutates, and the betting fields. `Act` is its value-level specification. |
| `player_turns.dfy` | `PlayerTurns` | The turn hook as a class whose methods carry the hook's loops. |
| `hand_strength.dfy` | `HandStrength` | The classifier. The counting and straight-search loops are methods, proved against the functional `Evaluate`. |
| `deck.dfy` | `Deck` | The deck hook as a class, with the shuffle done in place on an array. |

JavaScript numbers are modelled as unbounded integers. Where JavaScript behaves differently from Dafny, the model spells it out:

- `%` on a negative operand (`JsRem`);
- `slice` bounds (`SliceBound`);
- `findIndex` returning -1 (`IndexOfRole`, `FindPlayer`).

The model keeps these quirks as the code has them, and proves them as properties:

- **A fold refunds chips.** `updatePlayerBet` treats an amount of 0 as a fold. It then sets the bet to 0, so the bettor's chips of the round go back from the pot to the stack (`ApplyBetConservesChips`).
- **The straight and the flush are tested independently.** Five suited cards plus a run that uses an off-suit card count as a straight flush (`StraightFlushAcrossSuitsExample`).
- **The lowest run sets the straight's high card.** With six or more consecutive ranks, the first window of five decides the high card. A royal flush with a lower card below it therefore reads as a straight flush (`RoyalReadLowExample`).
- **An ace never plays low** (`WheelIsHighCardExample`).
- **`rotateDealer` keeps the board.** It resets seats, pot and phase but leaves the community cards and the deck as they were (`RotateDealer`).
- **`startNewHand` does not pay out the previous pot.** The new stacks plus the new pot equal the old stacks (`NewHandChips`).

## Model

| member | source | states |
|---|---|---|
| PokerTypes.SuitIndex | src/types/poker.ts:3 | Each of the four suits has a position below 4 in the suit list, and the list holds that suit at that position. |
| PokerTypes.RankIndex | src/types/poker.ts:4 | Each of the thirteen ranks has a position below 13 in the list '2'..'A', and the list holds that rank there. The position orders ranks by strength. |
| PokerTypes.EveryRankListed | src/types/poker.ts:3-4 | The suit list and the rank list name every suit and every rank of the two union types. |
| Seating.Scan | src/hooks/usePlayerTurns.ts:65-70 | The step count returned reaches an eligible seat, and no earlier step in the range did. None means no seat in the range is eligible. |
| Seating.ScanFullLap | src/hooks/usePlayerTurns.ts:65-70 | A walk of one full lap finds an eligible seat exactly when some seat at the table is eligible. |
| Seating.FirstEligible | src/hooks/useGameState.ts:310-312 | The seat where a `while (!eligible) i = (i + 1) % n` walk stops. It is eligible, no eligible seat is skipped on the way, and it is the start seat whenever that seat is eligible. |
| Seating.NextEligibleAfter | src/hooks/usePlayerTurns.ts:26-33 | Equals the current seat exactly when no other seat is eligible. Otherwise it is eligible and is the first eligible seat after the current one, going clockwise. |
| Seating.IndexOfRole | src/hooks/useGameState.ts:130 | `findIndex` on a role flag: the first seat that has the flag, or -1 exactly when no seat has it. |
| PlayerTurns.JsRem | src/hooks/usePlayerTurns.ts:58 | JavaScript's `%`: it equals Dafny's remainder for a non-negative numerator. For a negative numerator it lies in (-n, 0]. The numerator less the result is always a multiple of `n`. |
| PlayerTurns.Funded | src/hooks/usePlayerTurns.ts:44 | Holds exactly the players who are still in the hand and have a positive stack. |
| PlayerTurns.FundedCounts | src/hooks/usePlayerTurns.ts:44 | Each funded player in the hand occurs in the result as often as on the table, and every other player does not occur at all, so the length is the number of qualifying seats. |
| PlayerTurns.MaxBet | src/hooks/usePlayerTurns.ts:97 | None exactly for an empty table. Otherwise it is the bet of some player, and no player's bet exceeds it. |
| PlayerTurns.StartSeat | src/hooks/usePlayerTurns.ts:55-62 | Three seats after the dealer preflop and one seat after the dealer on later streets. Whenever that sum is non-negative the result is its remainder modulo the table size; for every dealer position it is congruent to the sum, lies in (-n, n), and is at most 0 when the sum is negative. |
| PlayerTurns.TurnTracker.constructor | src/hooks/usePlayerTurns.ts:20-22 | The turn starts at seat 0, in round 0, with the round not complete. |
| PlayerTurns.TurnTracker.GetNextActivePlayerIndex | src/hooks/usePlayerTurns.ts:24-36 | The loop returns the first seat after `currentIndex` that is in the hand and has chips, or `currentIndex` itself when no other seat qualifies. |
| PlayerTurns.TurnTracker.NextTurn | src/hooks/usePlayerTurns.ts:38-51 | If the walk comes back to the current seat, or at most one player in the hand has chips, the round is marked complete and the turn stays put. Otherwise the turn moves to the next qualifying seat. The round counter never changes. |
| PlayerTurns.TurnTracker.StartNewRound | src/hooks/usePlayerTurns.ts:53-75 | The turn goes to the first qualifying seat, walking from `StartSeat`. The round counter goes up by one and the complete flag is cleared. |
| PlayerTurns.TurnTracker.SkipFoldedPlayers | src/hooks/usePlayerTurns.ts:77-87 | A qualifying current seat keeps the turn. Otherwise the turn moves to the next qualifying seat; if none exists, the round is marked complete and the turn does not move. |
| PlayerTurns.TurnTracker.GetCurrentPlayer | src/hooks/usePlayerTurns.ts:89-92 | The player at the turn index, or None exactly when the index is off the table. |
| PlayerTurns.TurnTracker.CanCheck | src/hooks/usePlayerTurns.ts:94-101 | True exactly when some player has the same bet as `player` and no player has a larger bet. |
| GameEngine.PhaseIndex | src/types/poker.ts:67 | Numbers the five phases 0 to 4. Preflop is 0 and showdown is 4. |
| GameEngine.NextPhase | src/hooks/useGameState.ts:328-334 | Each phase before the showdown is followed by the next one in order. After the showdown comes the showdown again. |
| GameEngine.ActivePlayers | src/hooks/useGameState.ts:161 | Holds exactly the players still in the hand, and no more players than the table. |
| GameEngine.ActivePlayersCounts | src/hooks/useGameState.ts:161 | Each player in the hand occurs in the result as often as on the table, and every other player does not occur at all, so the length is the number of seats still in the hand. |
| GameEngine.ActiveIdsExcept | src/hooks/useGameState.ts:70-74 | Holds exactly the ids of the players still in the hand, other than `id`. |
| GameEngine.PlayerIds | src/hooks/useGameState.ts:199 | The players' ids, in seat order. |
| GameEngine.WithViewers | src/hooks/useGameState.ts:347-350 | The same cards, each now visible to exactly the listed players. |
| GameEngine.CreateInitialBettingRoundState | src/hooks/useGameState.ts:62-76 | A round with an empty log, no last action, nobody acted, no raiser and a last raise of 0. The first player is start and current player, and the minimum raise is 20. Every other player still in the hand is awaited. |
| GameEngine.CreateInitialHandState | src/hooks/useGameState.ts:78-85 | The initial hand record: no hand in progress, no blinds posted, no current bettor or raiser, a minimum raise of 20, the dealer on seat 0 and the blinds on the two seats after it. |
| GameEngine.ResetSeats | src/hooks/useGameState.ts:146-155 | Every seat is back in the hand with no cards, no bet and not acted, and each role flag is set on its given seat only. Nothing else about a seat changes. |
| GameEngine.DealCards | src/hooks/useGameState.ts:111-126 | Only the hole cards of the seat at `playerIndex` change. They become the dealt suits and ranks, and each card is visible to that player and nobody else. An index off the table changes nothing. |
| GameEngine.DealCommunityCard | src/hooks/useGameState.ts:194-202 | The board grows by exactly the given card, made visible to exactly the seated players: every seated id can see it and no other id can. Nothing else changes. |
| GameEngine.RotateDealer | src/hooks/useGameState.ts:128-158 | The dealer flag is on the seat after the old dealer (seat 0 when there was none), the small blind one seat on and the big blind two seats on, each flag on exactly one seat. Ids and stacks are kept; every seat is active with no cards, no bet and not acted. Pot and current bet are 0, the phase is preflop, and total stacks are unchanged. The betting round starts three seats after the new dealer, the hand record is the initial one, and every other field, the board and the deck included, is kept. |
| GameEngine.DealerAfterRotations | src/hooks/useGameState.ts:128-132 | Over a run of consecutive rotations the button advances one seat per deal. After k rotations, `findIndex` finds the dealer k - 1 seats after the first new dealer. |
| GameEngine.RotateDealerMovesButton | src/hooks/useGameState.ts:130 | After one rotation, `findIndex` finds the dealer on exactly the seat the rotation chose. |
| GameEngine.SliceBound | src/hooks/useGameState.ts:166-168 | JavaScript clamping of a `slice` bound: an index within the length is itself, one past the length is the length, and a negative index counts from the end, or is 0 when it reaches before the start. |
| GameEngine.IsBettingRoundComplete | src/hooks/useGameState.ts:160-192 | The completion test as the source writes it, with the preflop rotation after the big blind. It carries no contract of its own; `RoundCompleteIff` states its meaning in both directions and `ApplyBetRecomputesCompletion` ties the stored flag to it. |
| GameEngine.RoundCompleteIff | src/hooks/useGameState.ts:160-192 | The round is complete exactly when every player still in the hand has acted and matched the current bet, and, after the preflop, nobody is still awaited. The preflop rotation covers every seat whatever the recorded big-blind position. |
| GameEngine.CompletionDependsOnBets | src/hooks/useGameState.ts:160-192 | The completion test depends only on the seats, the current bet, the phase, the big-blind position and the acted and awaited sets. |
| GameEngine.EndRound | src/hooks/useGameState.ts:321-371 | Nothing happens unless the round is complete. Otherwise the phase advances, and only the phase, the showdown flag, the seats and the round record may change. Every bet and acted flag is cleared, while stacks, pot, board and membership in the hand are kept, so total chips are unchanged. At the showdown every hole card becomes visible to every player and the round record is kept. Before it, hole cards are untouched and a fresh betting round starts at the seat after the small blind (seat 0 when there is none). |
| GameEngine.ClearBets | src/hooks/useGameState.ts:363-367 | Every seat has its bet and acted flag cleared and nothing else changed. Total stacks are kept. |
| GameEngine.ShowAllCards | src/hooks/useGameState.ts:338-351 | Like `ClearBets`, and every hole card becomes visible to all seated players. Total stacks are kept. |
| GameEngine.HandleAIAction | src/hooks/useGameState.ts:450-481 | A human to act changes nothing. An AI to act is brought up to the current bet, with chips moving only between its stack and the pot, so total chips are kept. The AI is marked acted and nothing else about it changes; a call is logged and it joins the acted set. No other seat and no other field changes; in particular the awaited set and the current player stay as they were. |
| GameEngine.ClassifyBet | src/hooks/useGameState.ts:210-220 | 0 is a fold, the current bet is a call, more is a raise, and anything else is a check. Each holds in both directions. |
| GameEngine.LogBet | src/hooks/useGameState.ts:236-258 | The log grows by exactly one entry: the classified bet by the bettor. The completion flag is left for the caller to set. |
| GameEngine.ApplyBet | src/hooks/useGameState.ts:237-301 | Only the bettor's seat changes among the players. Its bet becomes `amount`, its stack drops by the difference, it has acted, and it stays in the hand exactly when `amount` is not 0. Apart from the seats, only the pot, current bet, round state and hand state may change. Within the hand state only the current bettor and last raiser may change, and the round state keeps its start player and minimum raise. |
| GameEngine.ApplyBetPotAndBet | src/hooks/useGameState.ts:274-294 | The pot grows by the bet difference. The current bet becomes the larger of the old current bet and `amount`, so it never decreases. |
| GameEngine.ApplyBetConservesChips | src/hooks/useGameState.ts:283-294 | Stacks plus pot are unchanged. For an amount of 0, the bettor's chips of the round go from the pot back to their stack. |
| GameEngine.ApplyBetRecordsAction | src/hooks/useGameState.ts:237-300 | The classified action is appended to the log and becomes the last action, the bettor joins the acted set, and the next player becomes current and the current bettor. A raise makes every other player in the hand awaited and records the raiser, in the round and in the hand, and the raise amount. Any other bet only removes the bettor from the awaited set and keeps the raiser and raise amount. The round's start player and minimum raise are kept, and every other field of the hand state is kept. |
| GameEngine.ApplyBetRecomputesCompletion | src/hooks/useGameState.ts:260-278 | The stored completion flag equals the completion test of the state the bet produces. |
| GameEngine.UpdatePlayerBet | src/hooks/useGameState.ts:204-303 | The loop finds the first seat still in the hand after the bettor, and the result is `ApplyBet` with that seat as the next to act. |
| GameEngine.NextPlayer | src/hooks/useGameState.ts:305-319 | The turn moves to the first seat still in the hand after the current one, and nothing else changes. |
| GameEngine.CollectAwaited | src/hooks/useGameState.ts:400-409 | The walk from the seat after the big blind back round to it collects exactly the ids of the other seats still in the hand. |
| GameEngine.LapAfterSeat | src/hooks/useGameState.ts:400-409 | The seats that lap visits before returning are exactly all seats other than the big blind's. |
| GameEngine.WithBlinds | src/hooks/useGameState.ts:411-447 | The blinds come out of the two seats' stacks onto their bets and both seats have acted. The pot is exactly the two blinds, the bet to match is the big blind, and the log holds the two blinds as raises. The seat after the big blind is to act and the big blind is the last raiser. No other seat changes. |
| GameEngine.BlindsLeaveStacks | src/hooks/useGameState.ts:413-433 | On two distinct seats, total stacks drop by exactly the two blinds, and stacks plus pot equal the old stacks. |
| GameEngine.BlindsKeepSeats | src/hooks/useGameState.ts:415-433 | Posting the blinds keeps every seat's player, cards, membership in the hand and role flags. |
| GameEngine.PostBlinds | src/hooks/useGameState.ts:373-448 | A table without a small-blind or a big-blind seat is returned unchanged. Otherwise the first such seats post the blinds, and every other seat still in the hand, besides the big blind's, is awaited. |
| GameEngine.FreshHand | src/hooks/useGameState.ts:486-518 | The roles rotate as in `RotateDealer`. Board and pot are cleared, the phase is preflop, the hand is in progress, and the seat after the big blind opens the round. `findIndex` then finds the new blinds on the rotated seats, and total stacks are kept. |
| GameEngine.StartNewHand | src/hooks/useGameState.ts:483-525 | The fresh hand with its blinds posted on the seats after the new dealer. |
| GameEngine.NewHandSeats | src/hooks/useGameState.ts:498-513 | At a table of two or more, every seat keeps its player, is back in the hand without cards, and the three roles move one seat on. |
| GameEngine.NewHandRound | src/hooks/useGameState.ts:486-496 | A new hand opens preflop with an empty board, hand in progress, blinds posted, and the big blind as last raiser. |
| GameEngine.NewHandChips | src/hooks/useGameState.ts:499-521 | The small blind is charged to the seat after the dealer and the big blind to the seat after that. The pot is exactly the two blinds, and the new stacks plus the new pot equal the old stacks. |
| GameEngine.NewHandAwaited | src/hooks/useGameState.ts:400-409 | After a new hand's blinds, every seat except the big blind's is awaited. |
| Betting.FindPlayer | src/hooks/useBetting.ts:29-30 | The first seat with the given id, or -1 exactly when no seat has it. |
| Betting.CallAmount | src/hooks/useBetting.ts:47-51 | A call costs the amount still owed, capped at the stack. It is at most both and equal to one of them. |
| Betting.RaiseRefused | src/hooks/useBetting.ts:57-66 | The two guards of the raise branch: no amount or 0, less than twice the current bet, or more than the stack covers. It carries no contract of its own; `PlayerMove` states that a raise is refused exactly when it holds. |
| Betting.PlayerMove | src/hooks/useBetting.ts:35-86 | An action is refused exactly when it is a check facing a larger bet, or a raise with no amount, 0, less than twice the current bet, or more than the stack covers. |
| Betting.MoveConservesChips | src/hooks/useBetting.ts:35-86 | An accepted move changes only the player's stack, bet and in-hand flag, and the pot and bet fields of the state. Chips only move from the stack to the bet and into the pot. Only a fold takes the player out of the hand. |
| Betting.FoldOrCheckMove | src/hooks/useBetting.ts:36-45 | Fold and accepted check move no chips and leave the betting state as it was. |
| Betting.CallMove | src/hooks/useBetting.ts:47-55 | A call is always accepted. It moves the capped amount from the stack onto the bet and into the pot, and nothing else changes. |
| Betting.RaiseMove | src/hooks/useBetting.ts:57-73 | An accepted raise to `a` makes `a` the player's bet and the current bet. The last raise becomes `a` less the old current bet, the minimum raise becomes `a`, and the difference goes into the pot. |
| Betting.AllInMove | src/hooks/useBetting.ts:75-85 | All-in empties the stack onto the bet and into the pot. Only a bet that tops the current bet becomes the new current bet and updates the raise fields. |
| Betting.Act | src/hooks/useBetting.ts:27-103 | An unknown player or a refused move changes nothing. Otherwise only the actor's seat changes, to the move's result, and the round is marked complete once the test holds; the flag is never cleared. Stacks plus pot are conserved, and the bets grow by what the pot grows. |
| Betting.RoundClosed | src/hooks/useBetting.ts:88-99 | The round-complete test of `handleAction`. It carries no contract of its own; `RoundClosedSeats` states it seat by seat and `Act` sets the flag from it. |
| Betting.RoundClosedSeats | src/hooks/useBetting.ts:88-99 | The round-complete test seat by seat: one player left in the hand, or every seat still in the hand has matched the current bet or has an empty stack. |
| Betting.BettingTable.constructor | src/hooks/useBetting.ts:18-25 | An empty pot, no bet, a minimum raise of twice the small blind (10 unless given), and the round not complete. |
| Betting.BettingTable.HandleAction | src/hooks/useBetting.ts:27-103 | The player array and the betting fields after the call are exactly `Act` of the table before it. |
| Betting.BettingTable.ApplyMove | src/hooks/useBetting.ts:35-86 | The switch accepts exactly the moves `PlayerMove` accepts. An accepted move writes the player into the array at its seat and sets the betting fields. A refused move changes nothing. |
| HandStrength.PercentOf | src/hooks/useHandStrength.ts:57-104 | Each category's fixed percentage, between 30 and 100. |
| HandStrength.CountPermutation | src/hooks/useHandStrength.ts:18-21 | Counting cards by rank or suit does not depend on their order. |
| HandStrength.RankGroups | src/hooks/useHandStrength.ts:15-21 | Has a key exactly for each rank that occurs, mapped to the number of cards of that rank. |
| HandStrength.SuitGroups | src/hooks/useHandStrength.ts:15-21 | Has a key exactly for each suit that occurs, mapped to the number of cards of that suit. |
| HandStrength.UniqueRanks | src/hooks/useHandStrength.ts:27-30 | Holds exactly the ranks that occur, strictly ascending in the order '2'..'A'. |
| HandStrength.AscendingUnique | src/hooks/useHandStrength.ts:28-30 | Two strictly ascending lists of the same ranks are equal, so the sorted key list is determined by the set of ranks. |
| HandStrength.LowestStraight | src/hooks/useHandStrength.ts:34-46 | When Some, it is the top of a run of five consecutive ranks, and no earlier window is such a run. None means no window is. |
| HandStrength.RanksWithCountZero | src/hooks/useHandStrength.ts:49 | The pair count is 0 exactly when no listed rank occurs exactly twice. |
| HandStrength.Ladder | src/hooks/useHandStrength.ts:57-104 | The percentage is always the chosen category's fixed percentage. |
| HandStrength.Classify | src/hooks/useHandStrength.ts:49-104 | The ladder on the two dictionaries: the percentage belongs to the chosen category, a flush category needs five cards of one suit, and four of a kind needs a rank counted four times. Which category it picks is stated row by row by `LadderRows`. |
| HandStrength.LadderRows | src/hooks/useHandStrength.ts:57-104 | For each of the ten categories, the exact condition under which the ladder reports it. Each holds in both directions. |
| HandStrength.Evaluate | src/hooks/useHandStrength.ts:11-12 | Fewer than two cards give High Card at 0. Otherwise the percentage is the category's. Always between 0 and 100. |
| HandStrength.FlushIff | src/hooks/useHandStrength.ts:23-24 | A flush category needs five cards of one suit. Five cards of one suit always give a flush, or a category above it. |
| HandStrength.EvaluatePermutation | src/hooks/useHandStrength.ts:15-21 | Reordering the cards changes neither the category nor the percentage. |
| HandStrength.EvaluateByCounts | src/hooks/useHandStrength.ts:49-51 | The category is read off the card counts and the ascending list of ranks alone. |
| HandStrength.EvaluateHand | src/hooks/useHandStrength.ts:6-111 | The hook's result for hole cards and board is `Evaluate` of all the cards together. |
| HandStrength.GroupCards | src/hooks/useHandStrength.ts:18-21 | The counting loop produces exactly the rank and suit dictionaries. |
| HandStrength.FindStraight | src/hooks/useHandStrength.ts:31-46 | The loop with its `break` finds exactly the lowest run of five, and reports a straight exactly when there is one. |
| HandStrength.RoyalFlushExample | src/hooks/useHandStrength.test.ts:7-22 | A♥ K♥ with Q♥ J♥ 10♥ is a royal flush at 100. |
| HandStrength.StraightFlushExample | src/hooks/useHandStrength.test.ts:24-39 | 8♣ 7♣ with 6♣ 5♣ 4♣ is a straight flush at 95. |
| HandStrength.FourOfAKindExample | src/hooks/useHandStrength.test.ts:41-56 | Four aces and a king are four of a kind at 90. |
| HandStrength.FullHouseExample | src/hooks/useHandStrength.test.ts:58-73 | Three aces and two kings are a full house at 85. |
| HandStrength.PairExample | src/hooks/useHandStrength.test.ts:86-101 | A A K 2 3 is a pair at 50. |
| HandStrength.WheelIsHighCardExample | src/hooks/useHandStrength.ts:27-46 | A 2 3 4 5 of mixed suits is only High Card at 30, because an ace never plays low. |
| HandStrength.StraightFlushAcrossSuitsExample | src/hooks/useHandStrength.ts:57-66 | Five hearts plus a run that needs an off-suit six count as a straight flush at 95. |
| HandStrength.RoyalReadLowExample | src/hooks/useHandStrength.ts:34-46 | 9♣ with A♥ K♥ Q♥ J♥ 10♥ is a straight flush at 95, not a royal flush: the lowest run, 9 to K, sets the high card. |
| Deck.SuitRow | src/hooks/useDeck.ts:79-81 | Thirteen cards of one suit, Two to Ace in order, with no viewers. |
| Deck.Rows | src/hooks/useDeck.ts:78-82 | The first k suits' rows hold 13 cards per suit. |
| Deck.RowsAt | src/hooks/useDeck.ts:78-82 | Position 13·s + r of the rows holds suit s and rank r. |
| Deck.NewDeck | src/hooks/useDeck.ts:59-83 | The fresh deck holds 52 cards. |
| Deck.NewDeckAt | src/hooks/useDeck.ts:59-83 | Position i holds suit number i / 13 and rank number i % 13, so the deck is suit-major. |
| Deck.NewDeckComplete | src/hooks/useDeck.ts:59-83 | Every (suit, rank) pair is in the fresh deck, and nothing else is. |
| Deck.NewDeckDistinct | src/hooks/useDeck.ts:59-83 | No card appears twice in the fresh deck. |
| Deck.CreateDeck | src/hooks/useDeck.ts:59-83 | The nested push loops build exactly the fresh deck. |
| Deck.ShuffleIsPermutation | src/hooks/useDeck.ts:15-24 | A shuffle with any choices `j <= i` keeps exactly the same cards. |
| Deck.ShuffleKeepsSettled | src/hooks/useDeck.ts:18-21 | The pass never touches a position above the one it has reached. |
| Deck.ReversedPermutes | src/hooks/useDeck.ts:34-44 | Reversing the dealt cards keeps every card. |
| Deck.Pop | src/hooks/useDeck.ts:26-32 | An empty deck gives nothing and stays as it is. Otherwise the result is the last card, and the deck is what remains in front of it. |
| Deck.DeckState.constructor | src/hooks/useDeck.ts:13 | The hook starts with the fresh deck. |
| Deck.DeckState.ShuffleDeck | src/hooks/useDeck.ts:15-24 | The in-place swap loop on the copied array leaves the deck as the Fisher-Yates pass from the last position down to 1 defines it. That pass is a permutation. |
| Deck.DeckState.DealCard | src/hooks/useDeck.ts:26-32 | The returned card and the new deck are exactly `Pop` of the old deck. |
| Deck.DeckState.DealCards | src/hooks/useDeck.ts:34-44 | Deals `numCards` cards, or the whole deck when it holds fewer, and none for a count of 0 or less. The old deck is the new deck followed by the dealt cards in reverse, so no card is lost or duplicated. |
| Deck.DeckState.ResetDeck | src/hooks/useDeck.ts:46-48 | The deck becomes exactly the fresh deck. |

## Left out

- React plumbing is left out: `useState`, `useCallback` and `useMemo`, re-renders, and the functional-update queue. Each `setX(prev => ...)` is a function or method from the old state to the new one.
- `Math.random` in `shuffleDeck` is a parameter: `picks[i]` is the index that the step for position `i` swaps with. The model requires `picks[i] <= i`, the range `Math.floor(Math.random() * (i + 1))` produces. Randomness and its distribution are not modelled.
- Deck.DeckState.DealCards: the hook's `dealCards` reads the `deck` captured at render, so in the running app all its `dealCard` calls return the same card. The model has each step pop the current deck, the behaviour the hook evidently intends.
- `console.error` messages and every `description` string of `useHandStrength` are left out. This includes 'Waiting for cards' and 'Pair of As', which the repository's test file expects; the model states only their rank and percentage.
- The player fields `aiLevel` and `aiStyle` are left out because the engine never reads them. An absent `isAI` is false.
- `visibleTo` is kept as an optional list of ids; card display beyond the "who can see" predicate is not modelled.
- Side pots, tie-breaking between hands, showdown winner selection and pot award are not modelled. The hooks do not implement them.
- The chance percentages of `usePotOdds.ts` use floating-point rounding. That file is not part of this model.
- Several seat walks do not terminate when no seat qualifies: `updatePlayerBet` (useGameState.ts:231), `nextPlayer` (useGameState.ts:310) and `startNewRound` (usePlayerTurns.ts:65-70). For them the model requires that some seat qualifies; the hang is not modelled.
- Calls that crash in JavaScript are excluded by preconditions: an index off the table, `.id` of `undefined`, or `% 0` on an empty table.
- `actionsNeeded.delete` in `updatePlayerBet` mutates a set shared with the previous state. The model produces a new set, so the previous state's set is not seen to change.
- JavaScript numbers are unbounded integers here. Fractional amounts, `NaN` and floating-point overflow are not modelled.
- GameEngine.NextDealerSeat only promises a seat on the table; its relation to the dealer flag is stated through `RotateDealerMovesButton` and `DealerAfterRotations`.
- Deck.Swap, Deck.Reversed and Deck.ShuffleSteps state only the length in their own contracts. Their permutation properties are separate lemmas: `SwapPermutes`, `ReversedPermutes` and `ShuffleIsPermutation`.
