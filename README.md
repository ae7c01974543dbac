# Blackjack game core, modelled in Dafny

A model of the core of a single-player Blackjack game written in Java:
the cards, the shoe of one or two 52-card sets, a participant's hand with
its Ace-adjusted score, the dealer's drawing rule, one round of play
(deal, player hits, player stands, dealer draws to 17, resolution) and the
record kept of a finished round.

| file | module | Java source | form |
|---|---|---|---|
| `cards.dfy` | `Cards` | `model/Card.java` | datatypes and functions |
| `deck.dfy` | `Decks` | `model/Deck.java` | class `Deck` with a `seq<Card>` field |
| `player.dfy` | `Players` | `model/Player.java` | class `Player`; `Score` specifies `GetScore` |
| `dealer.dfy` | `Dealers` | `model/Dealer.java` | a `Player` named "Dealer" plus the hit rule |
| `game.dfy` | `Game` | `logic/BlackjackGame.java` | class `BlackjackGame`; resolution as functions |
| `round_result.dfy` | `Rounds` | `logic/RoundResult.java` | datatype and functions |
| `statistics.dfy` | `Statistics` | `gui/StatisticsFrame.java` (the last-ten sublist only) | functions |

Main points of the model:

- Point values: numerals at face value, faces 10, Ace 11. A hand's score
  adds the values, then counts one Ace at a time as 1 while the total is
  over 21. `GetScore` runs that loop and is proved equal to `Score`.
  `Score` is proved to use the least number of demoted Aces that brings
  the total to 21 or below, or all Aces when no number does.
- The deck keeps its undrawn cards in a sequence whose index 0 is the
  top. A deck of `n` sets holds each (suit, rank) pair exactly `n` times.
  A requested count outside 1..2 becomes 1. The shuffle is Fisher–Yates
  over a caller-supplied choice function `choose`, standing in for the
  library's random source. Only "same cards, new order" is promised.
- Asking an empty deck for a card throws in Java. Here it returns
  `Failure(DeckEmpty)` (deck) or `Failed(DeckEmpty)` (game action) and
  leaves the state as Java leaves it at the throw.
- The dealer's turn is also given as a function, `DealerTurn`, on the
  dealer's hand and the deck. `PlayerStand` is proved to end exactly where
  `DealerTurn` says. Lemmas then prove each draw happens under 17, the turn
  ends at 17 or more unless the deck ran out, and no card is lost or gained.
- A game keeps the round's shuffled shoe as ghost state. Every action keeps
  this invariant: both hands plus the deck hold exactly the shoe's cards.
- The result label comes from a six-way `Outcome`. Each outcome is
  characterised on its own by an if-and-only-if, so the order of the Java
  if-chain is proved rather than assumed.

Where the code and its tests disagree, the model follows the code. The
game test `src/test/java/blackjack/logic/BlackjackGameTest.java` calls
`BlackjackGame(String, int)`, `getNumberOfDecks`, `isPlayerTurn` and
`getResultsHistory`, and expects labels containing "You lost (You went
over:" and "You won (Dealer went over:". None of these exist in
`src/main/java/blackjack/logic/BlackjackGame.java`, which has no deck-count
setting, no automatic end on a natural 21 and no result history. Its bust
labels are "You lost (Too much)!" and "You won (Dealer busted)!". Those
two tests assert only inside an `if`, and the model proves that the code
gives the other labels in those cases (`Game.Resolve`, `Game.BustPlayerLoses`).

The `Rank` and `Suit` enumerations live in files that are not part of this
model. The values above and the glyphs ♥ ♦ ♣ ♠ are the game's stated rules
and the symbols `Card.toString` prints. The order of the enumerations is
used only to fill the deck. No statement depends on it.

## Model

| member | source | states |
|---|---|---|
| Cards.RankValue | src/main/java/blackjack/model/Card.java:27-29 | a rank's value lies in 2..11; it is 11 exactly for ACE and 10 exactly for TEN, JACK, QUEEN, KING |
| Cards.Value | src/main/java/blackjack/model/Card.java:27-29 | a card's value is its rank's value, between 2 and 11 |
| Cards.ValueIgnoresSuit | src/main/java/blackjack/model/Card.java:27-29 | two cards of the same rank have the same value, whatever their suits |
| Cards.ValueExamples | src/test/java/blackjack/model/CardTest.java:15-24 | FIVE is worth 5, KING 10, ACE 11 |
| Cards.ToString | src/main/java/blackjack/model/Card.java:53-78 | the display form is the rank's name, one space, then the suit's glyph |
| Cards.ParseCard | src/main/java/blackjack/model/Card.java:53-78 | any text it reads as a card is exactly that card's display form |
| Cards.ParseToString | src/main/java/blackjack/model/Card.java:53-78 | reading a card's display form gives back the card |
| Cards.ToStringInjective | src/main/java/blackjack/model/Card.java:53-78 | two cards with the same display form are the same card |
| Cards.TenShowsName | src/test/java/blackjack/model/CardTest.java:30-34 | a TEN's display form starts with "TEN", for every suit |
| Decks.ClampDecks | src/main/java/blackjack/model/Deck.java:34-43 | the set count used is 1 or 2; a count in 1..2 is kept; any other count becomes 1 |
| Decks.Deck.Default | src/main/java/blackjack/model/Deck.java:26-28 | the no-argument deck is the deck of count 1: one set, every card exactly once |
| Decks.Deck.constructor | src/main/java/blackjack/model/Deck.java:34-43 | the deck uses the clamped count and holds 52 cards per set, every (suit, rank) pair once per set |
| Decks.Deck.InitializeDeck | src/main/java/blackjack/model/Deck.java:48-59 | after filling and shuffling, the deck holds 52·n cards, each pair exactly n times |
| Decks.Deck.Shuffle | src/main/java/blackjack/model/Deck.java:64-66 | shuffling keeps the same cards and the same count; only the order changes |
| Decks.Deck.DealCard | src/main/java/blackjack/model/Deck.java:74-79 | a non-empty deck gives its top card and keeps the rest in order; an empty deck fails with DeckEmpty and is unchanged |
| Decks.Deck.GetCardCount | src/main/java/blackjack/model/Deck.java:85-87 | the count is the number of undrawn cards |
| Decks.DeckSizes | src/test/java/blackjack/model/DeckTest.java:14-37 | one set holds 52 cards and two sets 104; dealing from a full set leaves 51 |
| Players.Player.constructor | src/main/java/blackjack/model/Player.java:11-14 | a new participant has the given name and an empty hand |
| Players.Player.AddCard | src/main/java/blackjack/model/Player.java:16-18 | the card goes at the end of the hand; the earlier cards stay in place |
| Players.Player.ClearHand | src/main/java/blackjack/model/Player.java:20-22 | the hand becomes empty |
| Players.Player.GetScore | src/main/java/blackjack/model/Player.java:24-41 | the summing loop and the Ace-demotion loop compute exactly `Score` of the hand |
| Players.Player.GetName | src/main/java/blackjack/model/Player.java:43 | the name is the one given at construction |
| Players.Demote | src/main/java/blackjack/model/Player.java:35-39 | the demotion loop ends between the total less 10 per Ace and the total, and above 21 only when every Ace was demoted |
| Players.Score | src/main/java/blackjack/model/Player.java:24-41 | the score lies between the all-Aces-as-1 sum and the raw sum, and is over 21 only when it is the all-Aces-as-1 sum |
| Players.Demotions | src/main/java/blackjack/model/Player.java:35-39 | the closed-form number of demoted Aces never exceeds the number of Aces |
| Players.DemoteClosedForm | src/main/java/blackjack/model/Player.java:35-39 | the demotion loop ends at the raw sum less 10 per demoted Ace, with the count in closed form |
| Players.ScoreIsLeastDemotion | src/main/java/blackjack/model/Player.java:24-41 | the score demotes the least number of Aces that reaches 21 or below, or all Aces when none does |
| Players.NoAcesScoresRawSum | src/main/java/blackjack/model/Player.java:24-41 | a hand without Aces scores the plain sum of its values |
| Players.SumsSnoc | src/main/java/blackjack/model/Player.java:28-33 | adding a card adds its value to the raw sum and one to the Ace count if it is an Ace |
| Players.ScoreExamples | src/test/java/blackjack/model/PlayerTest.java:14-43 | TEN+FIVE scores 15, ACE+SIX 17, ACE+TEN+EIGHT 19; also ACE+ACE+NINE 21 and TEN+TEN+FIVE 25 |
| Dealers.NewDealer | src/main/java/blackjack/model/Dealer.java:5-7 | a new dealer is named "Dealer" and holds no cards |
| Dealers.ShouldHit | src/main/java/blackjack/model/Dealer.java:13-15 | the dealer hits if and only if its score is under 17 |
| Dealers.ShouldHitExamples | src/test/java/blackjack/model/DealerTest.java:14-30 | TEN+SIX (16) hits and TEN+SEVEN (17) stands |
| Game.Resolve | src/main/java/blackjack/logic/BlackjackGame.java:57-67 | each outcome holds exactly when its own condition holds (in progress, player bust, dealer bust, higher, lower, tie) |
| Game.Message | src/main/java/blackjack/logic/BlackjackGame.java:57-67 | a label starts with "You won" exactly when the player wins and with "You lost" exactly when the dealer wins |
| Game.MessageInjective | src/main/java/blackjack/logic/BlackjackGame.java:57-67 | the six labels are pairwise different, so the label tells the outcome |
| Game.ResolveWinner | src/main/java/blackjack/logic/BlackjackGame.java:57-67 | a finished round: the player wins iff not bust and the dealer is bust or lower; the dealer wins iff the player is bust or the dealer is higher and not bust; otherwise a tie |
| Game.BustPlayerLoses | src/main/java/blackjack/logic/BlackjackGame.java:62 | a bust player gets "You lost (Too much)!" even against a bust dealer |
| Game.ResolveExamples | src/main/java/blackjack/logic/BlackjackGame.java:57-67 | 20 vs 17 "You won!", 22 vs 18 "You lost (Too much)!", 19 vs 23 "You won (Dealer busted)!", 18 vs 18 "Tie!" |
| Game.DealKeepsCards | src/main/java/blackjack/logic/BlackjackGame.java:29-32 | dealing player, dealer, player, dealer splits a shoe between the two hands and the rest, with no card lost or gained |
| Game.DrawKeepsCards | src/main/java/blackjack/logic/BlackjackGame.java:37 | moving top cards of the deck onto a hand keeps the total of cards |
| Game.DealerTurn | src/main/java/blackjack/logic/BlackjackGame.java:44-50 | a finished dealer turn stands at 17 or more; a failed one has emptied the deck and is still under 17 |
| Game.DealerTurnDrawsFromTop | src/main/java/blackjack/logic/BlackjackGame.java:44-50 | the dealer's hand only grows, by the deck's top cards in order; the rest of the deck is left |
| Game.DealerTurnDrawsUnder17 | src/main/java/blackjack/logic/BlackjackGame.java:44-50 | every card the dealer takes is taken on a score under 17 |
| Game.DealerTurnKeepsCards | src/main/java/blackjack/logic/BlackjackGame.java:44-50 | the dealer's turn neither loses nor gains a card |
| Game.DealerStandsAtOnce | src/main/java/blackjack/logic/BlackjackGame.java:44-50 | a dealer already at 17 or more draws nothing |
| Game.BlackjackGame.constructor | src/main/java/blackjack/logic/BlackjackGame.java:15-20 | a new game has the player's name, a "Dealer", the first round dealt from a full one-set shoe, and is not over |
| Game.BlackjackGame.StartNewRound | src/main/java/blackjack/logic/BlackjackGame.java:22-33 | a new full shuffled one-set deck; the round is not over; the player holds shoe cards 1 and 3, the dealer 2 and 4; 48 cards remain |
| Game.BlackjackGame.DealInitialCards | src/main/java/blackjack/logic/BlackjackGame.java:29-32 | the four top cards go to player, dealer, player, dealer |
| Game.BlackjackGame.DealTo | src/main/java/blackjack/logic/BlackjackGame.java:29 | the deck's top card moves to the end of the hand; an empty deck fails and changes nothing |
| Game.BlackjackGame.PlayerHit | src/main/java/blackjack/logic/BlackjackGame.java:35-42 | no change once over; otherwise the top card joins the player's hand, the deck loses it, the dealer is untouched, and the round is over iff the player's score is over 21; an empty deck fails and changes nothing |
| Game.BlackjackGame.PlayerStand | src/main/java/blackjack/logic/BlackjackGame.java:44-50 | the dealer ends exactly where the dealer's turn says; the player's hand is untouched; on success the round is over with the dealer at 17 or more; on failure the deck is empty |
| Game.BlackjackGame.GameResult | src/main/java/blackjack/logic/BlackjackGame.java:57-67 | "Game in progress" until the round is over; then a "You won" label exactly when the player is not bust and the dealer is bust or lower, and a "You lost" label exactly when the player is bust or the dealer is higher and not bust |
| Game.TwoCardScores | src/test/java/blackjack/logic/BlackjackGameTest.java:89-95 | TEN+TEN scores 20 and TEN+SEVEN 17 |
| Game.NewGameWithHands | src/test/java/blackjack/logic/BlackjackGameTest.java:85-95 | a new game whose hands have been cleared and refilled holds exactly the given cards and is not over |
| Game.PlayerWinsByScore | src/test/java/blackjack/logic/BlackjackGameTest.java:84-100 | player 20 against dealer 17, after the stand, reads "You won!" |
| Game.GameStart | src/test/java/blackjack/logic/BlackjackGameTest.java:18-30 | a new game has four cards in the two hands and is not over |
| Rounds.NatToString | src/main/java/blackjack/logic/RoundResult.java:70 | a natural number prints as at least one digit, with no leading zero |
| Rounds.IntToString | src/main/java/blackjack/logic/RoundResult.java:70 | a score prints as digits, with a leading minus exactly when negative |
| Rounds.IntToStringNoLeadingZero | src/main/java/blackjack/logic/RoundResult.java:70 | a printed score has no leading zero |
| Rounds.ParseNatToString | src/main/java/blackjack/logic/RoundResult.java:70 | reading back a number's digits gives the number |
| Rounds.ParseIntToString | src/main/java/blackjack/logic/RoundResult.java:70 | reading back a printed score gives the score |
| Rounds.IntToStringInjective | src/main/java/blackjack/logic/RoundResult.java:70 | two different scores never print alike |
| Rounds.Summary | src/main/java/blackjack/logic/RoundResult.java:68-71 | the summary starts with "Winner: " and the winner, and ends with the printed dealer score |
| Rounds.SummaryPlayerScoreAt | src/main/java/blackjack/logic/RoundResult.java:68-71 | the printed player score sits right after "Winner: ", the winner and the 17-character player-score label |
| Rounds.SummaryIgnoresHands | src/main/java/blackjack/logic/RoundResult.java:68-71 | the summary line does not depend on either hand |
| Rounds.SummaryDeterminesScores | src/main/java/blackjack/logic/RoundResult.java:68-71 | for the same winner, the same summary means the same player and dealer scores |
| Statistics.LastRounds | src/main/java/blackjack/gui/StatisticsFrame.java:27-31 | the view lists min(10, size) rounds, and they are the latest ones, oldest first |
| Statistics.LastRoundsAfterRound | src/main/java/blackjack/gui/StatisticsFrame.java:27-31 | after one more round the view lists it last, after the earlier ones; the oldest drops out once ten were listed |

## Left out

- The Swing windows (`gui/GameFrame.java`, most of `gui/StatisticsFrame.java`) and `Main.java`: user interface only. From the statistics window only the last-ten sublist is modelled.
- `io/SaveManager.java` and the `Serializable` markers: Java object serialisation and file I/O.
- Randomness: `Collections.shuffle` is modelled as Fisher–Yates driven by the parameter `choose`. Nothing is stated about uniformity.
- The order of `Rank.values()` and `Suit.values()`: no statement names the card at a given position of an unshuffled deck.
- Decks.Deck.Shuffle: promises only that the cards and the count are kept, not which permutation results.
- Decks.Deck.DealCard: the thrown `IllegalStateException` and its message become `Failure(DeckEmpty)`.
- Game.BlackjackGame.PlayerHit and Game.BlackjackGame.PlayerStand: an exception from the deck becomes a `Failed` status. The state is what Java leaves at the throw: nothing changed for a hit, and for a stand the dealer keeps the cards drawn so far and the round is not marked over.
- Game.AddCards (the test setup's repeated `addCard` calls), Game.BlackjackGame.DealTo and Game.BlackjackGame.DealInitialCards: helpers that name `p.addCard(deck.dealCard())` and the four-card initial deal. The Java code writes these inline.
- `getHand()` returns the live list, and callers can change a hand through it. The model gives direct access to the `hand` field instead. Java's aliasing of that list is not modelled. Likewise `RoundResult` keeps the caller's hand lists by reference and its getters return those live lists; the model's record holds immutable sequences, so later changes to those lists are not modelled.
- `Dealer` extends `Player` in Java. Here a dealer is a `Player` built by `NewDealer`, and the hit rule is `Dealers.ShouldHit` taking that player. No separate subclass exists.
- `getPlayer`, `getDealer`, `isGameOver`, `getSuit`/`getRank` and the `RoundResult` getters are field reads. Datatype fields in Dafny are immutable, which matches the record's final fields but not the mutable lists they point to (see the aliasing line above).
- Rounds.IntToString: prints ASCII digits '0'..'9', which is what `String.format` gives under a locale with ASCII digits (such as `Locale.ROOT`). Under a default locale with other native digits, Java's `%d` prints those digits; that rendering is not modelled.
- Java's 32-bit `int`: scores and counts here are unbounded. No reachable hand comes near overflow.
- Test-only behaviour missing from the code: a deck-count setting for the game, the natural-21 turn pass, the result history, and the "went over" labels. These are described above.

