# Blackjack round engine, modelled in Dafny

This project models the rule engine of BLACKHACK, a one-round console
Blackjack game: a 52-card deck built in a fixed order, a Fisher-Yates
shuffle, drawing from the top of the deck, the Ace-aware hand value, the
deal (player, player, dealer, dealer), the player's Hit/Stand turn, the
dealer's "draw below 17" turn and the final comparison.

Modules, one per part of the program:

- `Wrappers`: `Option`, the model of the `null` that `Deck.Draw` returns on an empty deck.
- `Cards`: `Suit`, `Card` (rank 1..13) and the display form of a card (`Card.ToString`).
- `Scoring`: the reference definition of a hand's value (raw total with Aces as 11, then softening) and its properties.
- `Decks`: the unshuffled deck order, the shuffle as a function of the random choices, and class `Deck` with its constructor, `Shuffle` and `Draw`.
- `Rules`: one round as a pure state machine over a `Table` (deck, player hand, dealer hand), with `PlayerTurn`, `DealerTurn`, `Settle` and `PlayRound`, and the lemmas about a round.
- `Blackjack`: class `Game` with the fields `deck`, `playerHand` and `dealerHand`, its dealing constructor, `Play` and `CalculateHandValue`. Each method is proved to do what the pure definitions say.

Choices the model makes:

- The random source is a parameter. `picks[i]` is the index that `random.Next(i + 1)` returns when the shuffle loop is at `i`. It must lie in `[0, i]` (`Decks.ValidPicks`).
- The console input is a finite sequence of parsed commands: `Hit` for `"H"`, `Stand` for `"S"`, `Other` for any other line (after upper-casing).
- The program does not stop cleanly when a round goes wrong, and the model gives each such stop its own end:
  - If the input ends before the player stands or busts, `Console.ReadLine()` returns `null` and `ToUpper()` throws. The model ends the round with `InputEnded`.
  - A draw from an empty deck returns `null`, which is added to a hand; the next hand value then throws. The model ends the round with `DeckEmpty` and proves that this cannot happen in a dealt round (`Rules.DealtRoundNeverRunsOut`).
- The five printed result messages are modelled as the `Outcome` values `PlayerBust`, `DealerBust`, `PlayerWin`, `DealerWin` and `Push`.

- On a line other than "H" or "S" the loop goes round again and prints the prompt once more before reading the next line. The model ignores the `Other` command and leaves out only the printed prompt.

## Model

| member | source | states |
|---|---|---|
| `Cards.FaceLabel` | BLACKHACK/Program.cs:25-28 | rank 1 shows as "A", 2..9 as their digit, 10 as "10", 11/12/13 as "J"/"Q"/"K" |
| `Cards.FaceLabelShape` | BLACKHACK/Program.cs:27 | labels have one or two characters and no space, and only "10" has two |
| `Cards.FaceLabelInjective` | BLACKHACK/Program.cs:27 | distinct ranks have distinct labels |
| `Cards.SuitNameInjective` | BLACKHACK/Program.cs:28 | distinct suits print under distinct names |
| `Cards.JoinedAtFirstSpace` | BLACKHACK/Program.cs:28 | a string "<label> of <name>" whose label has no space determines both the label and the name |
| `Cards.CardString` | BLACKHACK/Program.cs:25-29 | the display form "<label> of <suit>" has between 10 ("A of Clubs") and 14 ("10 of Diamonds") characters |
| `Cards.CardStringInjective` | BLACKHACK/Program.cs:25-29 | two cards with the same display string "<label> of <suit>" are the same card |
| `Cards.CardIndex` | BLACKHACK/Program.cs:39-44 | a card's position in a new deck is below 52, with the suit index as quotient by 13 and rank - 1 as remainder |
| `Cards.CardIndexInjective` | BLACKHACK/Program.cs:39-44 | different cards have different positions in a new deck |
| `Decks.CardAt` | BLACKHACK/Program.cs:39-44 | the card built for position k of a new deck is the one whose position is k |
| `Decks.StandardDeck` | BLACKHACK/Program.cs:36-46 | a new deck has 52 cards |
| `Decks.StandardDeckPositions` | BLACKHACK/Program.cs:36-46 | card i of a new deck is the card whose position (13 × suit index + rank − 1) is i |
| `Decks.StandardDeckComplete` | BLACKHACK/Program.cs:36-46 | every (suit, rank) card is in a new deck, at its own position |
| `Decks.StandardDeckDistinct` | BLACKHACK/Program.cs:36-46 | no card occurs twice in a new deck |
| `Decks.StandardDeckOrder` | BLACKHACK/Program.cs:39-44 | a new deck is suit-major in the order Hearts, Diamonds, Clubs, Spades, with ranks ascending within each suit |
| `Decks.StandardDeckOnceEach` | BLACKHACK/Program.cs:36-46 | every card occurs exactly once in a new deck (multiset count 1) |
| `Decks.Deck.constructor` | BLACKHACK/Program.cs:36-46 | the nested suit/rank loop leaves exactly the standard deck order |
| `Decks.Swap` | BLACKHACK/Program.cs:54-56 | the swap through a temporary exchanges positions i and j and leaves every other position and the length unchanged |
| `Decks.SwapIsPermutation` | BLACKHACK/Program.cs:54-56 | a swap keeps the multiset of cards |
| `Decks.ShuffleDown` | BLACKHACK/Program.cs:51-57 | the swap steps from index i down to 1 keep the length and never touch a position above i, so each step fixes its own position for good |
| `Decks.Shuffled` | BLACKHACK/Program.cs:48-58 | the shuffle keeps the length, and a deck of at most one card is left as it was |
| `Decks.ShuffledIsPermutation` | BLACKHACK/Program.cs:48-58 | for any choices with 0 <= j <= i, the shuffle keeps the length and the multiset of cards |
| `Decks.ShuffledDeckOnceEach` | BLACKHACK/Program.cs:48-58 | a shuffled new deck has 52 cards and holds every card exactly once |
| `Decks.Deck.Shuffle` | BLACKHACK/Program.cs:48-58 | the swap loop from the last index down to 1 leaves the deck equal to the shuffle function of the old deck, a permutation of it |
| `Decks.Deck.Draw` | BLACKHACK/Program.cs:60-66 | on an empty deck: no card and the deck unchanged; otherwise the old top card, and the deck becomes the old tail in order |
| `Scoring.CardPoints` | BLACKHACK/Program.cs:154-166 | a card adds between 2 and 11 to the first total, and 11 exactly when it is an Ace |
| `Scoring.RawIsHardPlusAces` | BLACKHACK/Program.cs:152-167 | the total with Aces as 11 is the total with Aces as 1 plus 10 per Ace |
| `Scoring.HardTotalAtLeastLength` | BLACKHACK/Program.cs:152-167 | every card adds at least 1 to the hard total, and there are no more Aces than cards |
| `Scoring.AppendCard` | BLACKHACK/Program.cs:152-167 | appending a card adds its points to the raw and hard totals, and 1 to the Ace count if it is an Ace |
| `Scoring.NoAcesValue` | BLACKHACK/Program.cs:152-167 | a hand without Aces is worth the sum of its ranks, each capped at 10 |
| `Scoring.Soften` | BLACKHACK/Program.cs:170-174 | the softening loop subtracts 10 at most once per Ace and never adds, and a total still over 21 at the end has had all its Aces re-read as 1 |
| `Scoring.SoftenIsFewestAces` | BLACKHACK/Program.cs:169-175 | softening subtracts 10 for each of the fewest Aces that bring the total to at most 21, or for all Aces if that is not enough |
| `Scoring.SoftenHasFewestAces` | BLACKHACK/Program.cs:169-175 | such a fewest count always exists and softening subtracts exactly 10 times it |
| `Scoring.HandValue` | BLACKHACK/Program.cs:147-176 | a hand's value is at most its total with Aces as 11, and a value over 21 means every Ace already counts 1 |
| `Scoring.HandValueSoftensFewestAces` | BLACKHACK/Program.cs:147-176 | a hand's value is its raw total less 10 for each of the fewest Aces needed |
| `Scoring.ValueBetweenHardAndRaw` | BLACKHACK/Program.cs:147-176 | a hand's value is at least its hard total (Aces as 1) and at most its raw total (Aces as 11) |
| `Scoring.ValueAtMost21Iff` | BLACKHACK/Program.cs:147-176 | a hand's value is at most 21 exactly when its hard total is at most 21 |
| `Scoring.SmallHands` | BLACKHACK/Program.cs:147-176 | the empty hand is worth 0 and two Aces are worth 12 |
| `Scoring.TwoCardHandAtMost21` | BLACKHACK/Program.cs:147-176 | every two-card hand is worth between 4 and 21, so no dealt hand is bust |
| `Blackjack.Game.CalculateHandValue` | BLACKHACK/Program.cs:147-176 | the summing loop and the softening loop return exactly the reference hand value |
| `Blackjack.Game.constructor` | BLACKHACK/Program.cs:75-86 | after shuffling a new deck, the player holds the first two cards, the dealer the next two, the deck keeps the rest in order, and all 52 cards are on the table once each |
| `Blackjack.Game.DealTwoEach` | BLACKHACK/Program.cs:79-85 | the four draws give the player the deck's first two cards and the dealer the next two, leave the rest of the deck in order, and keep every card on the table |
| `Rules.DealKeepsCards` | BLACKHACK/Program.cs:82-85 | dealing two cards each from a deck of at least four keeps the multiset of cards |
| `Rules.PlayerTurnStep` | BLACKHACK/Program.cs:94-113 | one pass of the command loop, the unfolding the loop method is proved with: Stand ends the turn with the table unchanged, an unknown command changes nothing, Hit on an empty deck aborts, and Hit moves the top card to the player's hand, ending the turn as a bust if the hand goes over 21 |
| `Rules.DealerTurnStep` | BLACKHACK/Program.cs:119-123 | one pass of the dealer loop, the unfolding the loop method is proved with: below 17 the dealer draws the top card, or the turn aborts on an empty deck |
| `Rules.PlayerTurn` | BLACKHACK/Program.cs:94-114 | the player's turn ends on an empty deck only when the deck is empty, and ends as a bust only with a hand over 21 |
| `Rules.DealerTurn` | BLACKHACK/Program.cs:119-123 | the dealer's turn stops for want of a card only when the deck is empty |
| `Rules.PlayerTurnDrawsFromTop` | BLACKHACK/Program.cs:94-114 | the player's turn leaves the dealer's hand unchanged and only appends top-of-deck cards, in order, to the player's hand |
| `Rules.DealerTurnDrawsFromTop` | BLACKHACK/Program.cs:119-123 | the dealer's turn leaves the player's hand unchanged and only appends top-of-deck cards, in order, to the dealer's hand |
| `Rules.PlayRoundDrawsFromTop` | BLACKHACK/Program.cs:94-123 | over a round the hands only grow, and the old deck is the player's new cards, then the dealer's new cards, then the remaining deck |
| `Rules.PlayRoundKeepsCards` | BLACKHACK/Program.cs:94-123 | a round neither creates, loses nor duplicates a card |
| `Rules.OtherCommandsIgnored` | BLACKHACK/Program.cs:96-114 | the player's turn with unknown commands removed is exactly the same turn |
| `Rules.InputAfterTurnUnread` | BLACKHACK/Program.cs:94-114 | once the player has stood or bust, further input changes neither the turn nor the round |
| `Rules.PlayerTurnBust` | BLACKHACK/Program.cs:99-108 | from a hand that is not bust, the turn ends as a bust exactly when the hand is over 21, and the last card drawn caused it |
| `Rules.PlayerBustKeepsDealerHand` | BLACKHACK/Program.cs:104-108 | after a player bust the dealer's hand is the dealt one: the dealer draws nothing |
| `Rules.PlayerBustEndsRound` | BLACKHACK/Program.cs:104-108 | from a hand that is not bust, the round ends as a player bust exactly when the player's hand is over 21 |
| `Rules.DealerTurnStops` | BLACKHACK/Program.cs:119-123 | the dealer's turn ends by standing or by running out of cards, and it stands exactly when the hand is at 17 or more |
| `Rules.DealerTurnDrawsBelow17` | BLACKHACK/Program.cs:119-123 | the dealer's turn only extends the hand, and every hand the dealer drew to was below 17 |
| `Rules.DealerPolicy` | BLACKHACK/Program.cs:116-123 | in a round settled after a Stand, the dealer finished at 17 or more, drew only while below 17, and the player is not bust |
| `Rules.Settle` | BLACKHACK/Program.cs:129-144 | the comparison never gives a player bust; it gives a dealer bust exactly when the dealer is over 21, and otherwise a player win, a dealer win or a push exactly when the player's value is higher, lower or equal |
| `Rules.SettleByScore` | BLACKHACK/Program.cs:129-144 | for a non-bust player, dealer over 21 gives a dealer bust, and otherwise the higher non-bust score wins, lower loses, equal pushes |
| `Rules.RoundOutcome` | BLACKHACK/Program.cs:125-144 | a round is settled other than by player bust exactly when both turns stood, and then the outcome is the comparison of the final values |
| `Rules.PlayerTurnHasCards` | BLACKHACK/Program.cs:99-101 | with at least 38 cards on the table and a dealer hand of at most 16 cards, no Hit meets an empty deck, and a Stand leaves the player not bust |
| `Rules.DealerTurnHasCards` | BLACKHACK/Program.cs:119-121 | with at least 38 cards on the table and at most 21 player cards, no dealer draw meets an empty deck |
| `Rules.DealtRoundNeverRunsOut` | BLACKHACK/Program.cs:82-123 | after a two-and-two deal from a deck of at least 38 cards (the program has 52), no draw of the round hits the null branch |
| `Rules.PlayRound` | BLACKHACK/Program.cs:88-145 | a round aborts for want of a card only when the deck is empty, and is settled as a player bust only with a player hand over 21 |
| `Blackjack.Game.RunPlayerTurn` | BLACKHACK/Program.cs:94-114 | the command loop leaves the table and ends the turn exactly as the pure player's turn says |
| `Blackjack.Game.RunDealerTurn` | BLACKHACK/Program.cs:119-123 | the "below 17" loop leaves the table and ends the turn exactly as the pure dealer's turn says |
| `Blackjack.Game.Play` | BLACKHACK/Program.cs:88-145 | the two loops and the settlement end the round and leave the table exactly as the pure round model says; all cards stay on the table; a bust leaves the dealer's hand alone; a dealt round never runs out of cards; after a Stand the player is not bust and the dealer is at 17 or more |

## Left out

- Console output (`Console.WriteLine`, the Japanese messages, `DisplayHands`): output only. The result of a round is the `Outcome` value instead.
- `System.Random` and the uniformity of the shuffle: the random choices are a parameter, and no claim is made about their distribution or about which permutations can be reached.
- `Console.ReadLine().ToUpper()`: string handling in the library. Input arrives as parsed commands.
- `Main`: it only creates a game and plays it.
- The public setters of `Card.Suit` and `Card.Value`: they are never used after construction, so `Card` is an immutable datatype with rank 1..13.
- The null card itself: when a draw meets an empty deck, the program adds `null` to a hand and throws later. The model stops the round with `DeckEmpty` and leaves the hands as they were.
