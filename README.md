# Card-game rule engines: Blackjack, five-card draw poker, High & Low

A Dafny model of the game logic of three React components: the Blackjack
table, the five-card draw poker table and the High & Low guessing game. Each
component keeps its state in `useState` variables and changes it from click
handlers and `useEffect` rules. Each game is modelled as a class whose fields
are those variables. Each handler or effect is a method that makes the same
guarded updates in the same order. The cards a handler would fetch from the
deck service are a parameter: `None` means the draw returned nothing. Whether
the service created or reshuffled a deck is a `bool` parameter.

- `cards.dfy` (module `Cards`): the card record as the deck service returns
  it, its thirteen rank strings, the numeral values `parseInt` gives them,
  the parsed bet input field, and the permutation facts the games rely on.
- `blackjack.dfy` (module `Blackjack`):
  - the soft-ace total;
  - the ordered settlement table;
  - the session: deal, hit, stand, reset, and the bust, dealer, betting and
    result effects.
  Chips are `real`, because a natural credits 1.5 times the stake. The
  stake is deducted at the deal, so a natural nets half the stake and a win
  or a push only returns it. The model keeps this behaviour.
- `poker_hands.dfy` (module `PokerHands`):
  - the ranking of a five-card hand and the payout table;
  - the symbol-to-value map, which recognises only the one-letter symbols
    `2`–`9`, `T`, `J`, `Q`, `K`, `A`. Every other string is worth 0,
    including the deck service's own `10`, `JACK`, `QUEEN`, `KING` and
    `ACE`, and takes no part in the ace-low and royal tests. The model
    keeps this behaviour, and `DeckRoyalIsPlainFlush` shows a consequence:
    a royal flush in the deck's spelling ranks only as a flush.
- `poker.dfy` (module `Poker`): the poker table with phases betting, initial,
  exchange and final. It covers selection toggling, the in-place
  replacement of selected cards (at most two exchanges), finalisation with
  payout, and the start of a new game.
- `high_low.dfy` (module `HighLow`): the High & Low table. It covers the
  bet, the guess settled against the current card, cash-out, double-up and
  restart. The second card is stored in `secondCard`, so the current card
  stays in place. The double-up stakes the winnings without deducting them
  from the chips. The model keeps both behaviours.
- `scenarios.dfy` (module `Scenarios`): concrete rounds played through the
  methods above.

A natural on a 10-chip stake from 10 chips ends at 15 chips: the stake is
taken at the deal (src/blackjack.jsx:125) and 1.5 times the stake is
credited when the game ends (src/blackjack.jsx:248).
`Scenarios.BlackjackNatural` states this round.

## Model

| member | source | states |
|---|---|---|
| Cards.BetValue | src/poker.jsx:158 | the stake is 0 exactly for an empty field or a zero bet (JavaScript multiplies `''` as 0), and a bet kept non-negative gives a non-negative stake |
| Cards.NumeralValue | src/blackjack.jsx:89 | `parseInt` gives each numeral rank a value from 2 to 10, and that value's numeral is the rank again (inverse pair with `NumeralSymbol`) |
| Cards.NumeralValueInjective | src/high_low.jsx:134 | distinct numeral ranks have distinct values |
| Blackjack.CardValue | src/blackjack.jsx:86-90 | a card is worth 1 exactly for an ace, 10 exactly for a 10 or a face, and otherwise its numeral value, always between 1 and 10 |
| Blackjack.HandTotal | src/blackjack.jsx:93-101 | the reference total: the base sum, or the base sum plus 10 only with an ace and at most 21; with an ace and a base sum of at most 11 the upgrade is always taken |
| Blackjack.BaseSumCoversAces | src/blackjack.jsx:94-95 | the all-aces-as-1 sum is at least the number of aces |
| Blackjack.CalculateTotal | src/blackjack.jsx:93-101 | the reduce and the per-ace loop compute the soft total: the base sum, or the base sum plus 10 only when there is an ace and the result stays at most 21, so at most one ace is upgraded and an upgrade never busts |
| Blackjack.BaseSumPermutation | src/blackjack.jsx:94 | the base sum does not depend on the order of the cards |
| Blackjack.HandTotalPermutation | src/blackjack.jsx:93-101 | any reordering of a hand gives the same total |
| Blackjack.TwoCardsNeverBust | src/blackjack.jsx:93-101 | a hand of at most two cards totals at most 21 |
| Blackjack.NaturalIsAceAndTen | src/blackjack.jsx:134-135 | a two-card 21 is exactly an ace with a 10 or a face |
| Blackjack.Payout | src/blackjack.jsx:245-262 | a natural credits 1.5 times the stake, a dealer win nothing, a player win or a push the stake back; for a positive stake only a natural credits more than the stake |
| Blackjack.Settle | src/blackjack.jsx:245-260 | the outcome is a natural exactly when the player has a natural; the dealer wins exactly on a player bust or (without a dealer bust) a higher dealer total; a push exactly on equal totals with no bust |
| Blackjack.SettlementCredit | src/blackjack.jsx:242-264 | the credit is never negative, and for a positive stake it is at least the stake exactly when the player has a natural or has not bust and the dealer bust or has no higher total |
| Blackjack.BlackjackGame.constructor | src/blackjack.jsx:8-24 | the session starts with 10 chips, a bet of 0, empty hands and all flags off |
| Blackjack.BlackjackGame.ChangeBet | src/blackjack.jsx:279-282 | the bet becomes the parsed number, or 0 when the input is not a number |
| Blackjack.BlackjackGame.CanDealMeansDealGuard | src/blackjack.jsx:285 | the deal button is enabled exactly when the deal's own guard (src/blackjack.jsx:110) holds and betting is open, so a deal from the button leaves the chips non-negative |
| Blackjack.BlackjackGame.DealInitialCards | src/blackjack.jsx:109-148 | only with a positive bet covered by the chips and a deck: the stake is deducted exactly once (chips stay non-negative), the round is cleared, the deal button is disabled, the two draws are held, and a two-card 21 sets the natural flag, ends the game and the player's turn; otherwise nothing changes |
| Blackjack.BlackjackGame.HoldInitialCards | src/blackjack.jsx:130-141 | on a cleared round the draws become the hands, and the game ends at once exactly on a natural |
| Blackjack.BlackjackGame.PlayerDrawCard | src/blackjack.jsx:151-158 | during a live turn without bust, exactly the drawn card is appended and earlier cards stay; otherwise the hand is unchanged |
| Blackjack.BlackjackGame.PlayerStand | src/blackjack.jsx:172-177 | afterwards it is not the player's turn, and nothing else changes |
| Blackjack.BlackjackGame.ResetGame | src/blackjack.jsx:180-211 | after a reshuffle the round, flags, result and bet are cleared and betting is allowed, the chips unchanged; without one nothing changes |
| Blackjack.BlackjackGame.PlayerBustEffect | src/blackjack.jsx:214-220 | a player total over 21 sets the bust, ends the turn and the game (so the dealer step is then a no-op) |
| Blackjack.BlackjackGame.DealerTurnEffect | src/blackjack.jsx:223-231 | after the player's turn, a dealer under 17 takes exactly the drawn card and the game goes on; at 17 or more the game ends; otherwise nothing changes |
| Blackjack.BlackjackGame.DealerBustEffect | src/blackjack.jsx:234-239 | a dealer total over 21 sets the dealer bust and ends the game |
| Blackjack.BlackjackGame.CanBetEffect | src/blackjack.jsx:271-276 | once the game has ended betting is allowed |
| Blackjack.BlackjackGame.ResultEffect | src/blackjack.jsx:241-267 | once the game has ended, the outcome of the ordered table is recorded and its payout credited |
| Blackjack.BlackjackGame.RecordResult | src/blackjack.jsx:263-266 | the outcome is recorded, its payout added to the chips, betting reopened |
| PokerHands.PayoutMultiplier | src/poker.jsx:19-31 | only a high card pays nothing, no name pays more than 250, and only a royal flush pays 250 |
| PokerHands.Multiplier | src/poker.jsx:157 | an unranked hand multiplies by 0; no multiplier exceeds 250 |
| PokerHands.MultiplierFollowsPrecedence | src/poker.jsx:19-31 | every name tested earlier pays strictly more than every name tested later |
| PokerHands.RankToValue | src/poker.jsx:229-237 | every symbol is worth 0 or a value from 2 to 14 |
| PokerHands.RankToValueOnto | src/poker.jsx:229-237 | each value 2 to 14 is the value of its one-letter symbol |
| PokerHands.RankToValueRecognised | src/poker.jsx:229-237 | a string with a non-zero value is exactly that value's one-letter symbol |
| PokerHands.DeckSpellingsFallThrough | src/poker.jsx:229-237 | `10`, `JACK`, `QUEEN`, `KING` and `ACE` are worth 0 |
| PokerHands.InsertSorted | src/poker.jsx:243 | inserting into a value-sorted sequence keeps it sorted and adds exactly one occurrence |
| PokerHands.SortByValueSorted | src/poker.jsx:243 | the comparator sort gives a value-sorted permutation of its input |
| PokerHands.CountRanks | src/poker.jsx:220-226 | the counting loop maps each rank present to the number of its occurrences, each at least 1 |
| PokerHands.Classify | src/poker.jsx:254-264 | first match: each of the ten names is given exactly when its own test passes and the tests of all names before it fail |
| PokerHands.DetermineHand | src/poker.jsx:240-241 | no name (the empty string) exactly for a hand that does not hold five cards |
| PokerHands.StraightFlushRanking | src/poker.jsx:254-255 | a five-card straight flush is named by the royal test alone |
| PokerHands.SortedValuesAreSorted | src/poker.jsx:243-246 | the value sequence of the sorted ranks is non-decreasing |
| PokerHands.AllSamePermutation | src/poker.jsx:248 | the same-suit test does not depend on order |
| PokerHands.SortedRanksPermutation | src/poker.jsx:243-244 | reordering a hand reorders its sorted ranks and its suits |
| PokerHands.RankFactsPermutation | src/poker.jsx:245-252 | the counts, the ace-low test and the royal test do not depend on order |
| PokerHands.SortedValuesPermutation | src/poker.jsx:243-246 | reordering a hand leaves its sorted values identical |
| PokerHands.DetermineHandPermutation | src/poker.jsx:240-265 | the name of a hand is the same for every reordering of its cards |
| PokerHands.AceLowStraight | src/poker.jsx:249-250 | `A`, `2`, `3`, `4`, `5` in mixed suits rank as a straight through the literal ace-low test |
| PokerHands.DeckRoyalIsPlainFlush | src/poker.jsx:248-252 | ten to ace of one suit in the deck's spelling ranks only as a flush |
| Poker.Without | src/poker.jsx:113 | the filter keeps exactly the other indices, in their order, and keeps them distinct: an absent index changes nothing, and a present one in a duplicate-free selection is cut out at its own position |
| Poker.Toggled | src/poker.jsx:111-115 | the index is selected afterwards exactly when it was not before, no other index changes, and the selection stays duplicate-free; a new index is appended at the end, and a deselection cuts out just that index with the others keeping their order (which decides which drawn card lands where) |
| Poker.ToggleTwice | src/poker.jsx:109-116 | two clicks on one card restore the selection as a set, and exactly when the card was not selected |
| Poker.Replaced | src/poker.jsx:129-132 | the replacement keeps the hand's length |
| Poker.ReplacedPointwise | src/poker.jsx:129-132 | with distinct positions, the k-th selected position holds the k-th new card and every other position keeps its card |
| Poker.ReplacePositions | src/poker.jsx:129-132 | the `forEach` loop computes the replacement one position at a time |
| Poker.Payout | src/poker.jsx:156-161 | no chips or a multiplier of 0 win nothing, a positive stake with a positive multiplier wins at least the stake, never a negative amount |
| Poker.PokerGame.constructor | src/poker.jsx:7-18 | the table starts with 100 chips, an empty bet and hand, phase betting |
| Poker.PokerGame.HandleBetChange | src/poker.jsx:194-201 | a number from 0 to the chips is kept, an emptied field clears the bet, anything else leaves it |
| Poker.PokerGame.PlaceBet | src/poker.jsx:204-211 | only with a positive bet in the betting phase: the stake is deducted, and with a deck and five drawn cards the hand is held in the initial phase with the exchanges open; otherwise nothing changes |
| Poker.PokerGame.ToggleSelectCard | src/poker.jsx:109-117 | while selection is open the index is toggled, otherwise the selection stays |
| Poker.PokerGame.ExchangeSelectedCards | src/poker.jsx:120-142 | while exchange is open and the cards arrive, the hand becomes the replacement, the selection is cleared, the count grows by exactly 1 and the phase is exchange; the count never exceeds 2 |
| Poker.PokerGame.FinalizeHand | src/poker.jsx:145-153 | the hand's name is recorded, the phase is final, chips grow by bet times its multiplier, and afterwards toggle, exchange and finalize are all closed |
| Poker.PokerGame.RecordHand | src/poker.jsx:148-160 | the name is recorded, exchanges are closed, and the payout is added to the chips |
| Poker.PokerGame.StartNewGame | src/poker.jsx:164-191 | after a reshuffle hand, selection, name and count are cleared and the bet is 0, the chips unchanged |
| HighLow.CardValue | src/high_low.jsx:127-135 | no card is 0, ace 14, king 13, queen 12, jack 11, a numeral its value from 2 to 10 |
| HighLow.CardValueInjective | src/high_low.jsx:127-135 | equal values mean equal ranks |
| HighLow.Judge | src/high_low.jsx:92-114 | a guess wins exactly on a strictly higher (high) or lower (low) card and ties exactly on an equal one |
| HighLow.ExactlyOneGuessWins | src/high_low.jsx:92-96 | on different values exactly one of the two guesses wins and neither ties |
| HighLow.ExtremeCards | src/high_low.jsx:92 | nothing beats an ace going high or a two going low |
| HighLow.Winnings | src/high_low.jsx:94-102 | for a non-negative bet a round returns between nothing and twice the stake; for a positive one, more than the stake exactly on a win, the stake exactly on a tie, nothing exactly on a miss |
| HighLow.HighLowGame.constructor | src/high_low.jsx:8-18 | the table starts with 100 chips, an empty bet, no cards, state betting |
| HighLow.HighLowGame.HandleInputChange | src/high_low.jsx:145-153 | a number from 1 to the chips is kept, an emptied field clears the bet, anything else leaves it |
| HighLow.HighLowGame.DrawFirstCard | src/high_low.jsx:46-72 | with a deck and a drawn card the card is current on a fresh table and a guess is awaited |
| HighLow.HighLowGame.HandleBetSubmit | src/high_low.jsx:156-166 | only a bet from 1 to the chips in the betting state is deducted (chips stay non-negative) before the first card is drawn |
| HighLow.HighLowGame.HandleGuess | src/high_low.jsx:138-142 | only with a drawn card: it becomes the previous card, the new card goes to `secondCard`, and the guess is settled |
| HighLow.HighLowGame.DrawSecondCard | src/high_low.jsx:75-124 | the verdict sets the winnings and the state (win choice, draw, or on a miss game over without chips and otherwise betting with the table cleared), never the transient lose state, and the chips are untouched |
| HighLow.HighLowGame.HandleContinueGame | src/high_low.jsx:169-179 | winnings are banked and become the next bet without being deducted, and the next first card is drawn |
| HighLow.HighLowGame.HandleCashOut | src/high_low.jsx:182-191 | winnings are banked, the bet and the cards are cleared, state betting |
| HighLow.HighLowGame.HandleLose | src/high_low.jsx:194-202 | winnings are forfeited, the bet and the cards are cleared, the chips unchanged; its button shows only in the `lose` state, which `Valid` proves is never left standing, so no click reaches it |
| HighLow.HighLowGame.HandleRestart | src/high_low.jsx:205-218 | back to 100 chips, empty bet, no winnings, no cards, state betting |
| Scenarios.TwoAces | src/blackjack.jsx:93-101 | two aces total 12 |
| Scenarios.AceKing | src/blackjack.jsx:93-101 | an ace and a king total 21 |
| Scenarios.FacesThenAce | src/blackjack.jsx:93-101 | king, queen, ace total 21 |
| Scenarios.BlackjackNaturalDeal | src/blackjack.jsx:109-140 | after the reset that opens betting, a deal of ace and king on all 10 chips leaves 0 chips and ends the game as a natural |
| Scenarios.BlackjackNatural | src/blackjack.jsx:241-264 | settling that natural gives 15 chips |
| Scenarios.BlackjackNaturalRecredited | src/blackjack.jsx:241-268 | after the natural is settled at 15 chips, betting reopens and typing a bet of 4 re-runs the result effect (its dependencies include `betAmount`), which credits 1.5 times 4 again: 21 chips |
| Scenarios.PokerFirstExchange | src/poker.jsx:109-142 | exchanging the first two cards puts the new cards there in order and keeps the rest |
| Scenarios.PokerSecondExchange | src/poker.jsx:109-142 | after the second exchange no further selection is possible |
| Scenarios.HighLowMiss | src/high_low.jsx:100-113 | a missed guess on 20 of 100 chips leaves 80 chips and a betting table |
| Scenarios.HighLowDoubleUp | src/high_low.jsx:169-178 | a won double-up round followed by a miss still leaves 110 chips and a bet of 20 |

## Left out

- The deck service is not modelled: creating, drawing and reshuffling.
  Drawn cards and the service's success are parameters. `remaining` comes
  from the service's answer and is not modelled either.
- A short draw is not modelled. Every draw that answers is taken to answer
  with the count asked for (two, five, one per selected card). The
  handlers' `requires` clauses say this.
- The following are presentation and not modelled:
  - the `loading`, `error` and `resultMessage` state and the alerts;
  - the hidden dealer card;
  - `showBettingBox`;
  - the card images;
  - outcome and hand names as Japanese strings (they are datatypes here).
  An error message in the poker component replaces the whole table until
  reload. The model keeps the table.
- The 1.5 second delay before the dealer draws is not modelled. Nor is
  React's scheduling of effects and batched updates. Each effect is a step
  method that the caller applies to the state it observes.
- Blackjack.BlackjackGame.ResultEffect: the effect also re-runs when
  `betAmount` changes after the game ended, and each re-run credits the
  payout again on the new bet (`Scenarios.BlackjackNaturalRecredited`). The
  model leaves the number of applications to the caller.
- Number parsing beyond accepting or rejecting an input is not modelled. A
  field like `5.5` parses to 5, and poker keeps the text itself as its bet.
  The bet is an integer here.
- Card ranks are limited to the deck's thirteen strings in Blackjack and
  High & Low.
- Poker.PokerGame.ToggleSelectCard: requires the index to be a position of
  the hand, as the rendered card buttons guarantee.
- HighLow.HighLowGame.DrawFirstCard: requires the betting state. Both of
  its callers are in that state when they call it.
- `src/title.jsx` and `src/index.jsx` (navigation and routing) are not part
  of this model.
