# War card game engine, modelled in Dafny

This project models the core of the deck-of-cards repository, a C++ simulation of the two-player card game War:

- **Cards** (`cards.dfy`, module `Cards`).
  - The playing-card value with its suite and rank enumerations, which keep their C++ enumerator values (Ace = 1 up to King = 13).
  - The names of suites, ranks and cards.
  - `buildStandardDeck`, which builds the 52 cards in their canonical order with two nested loops.
- **Decks** (`deck.dfy`, module `Decks`).
  - `knuthShuffle`: the in-place shuffle pass over an array.
  - `Deck<T>`: a class holding the card vector (its back is the top of the deck) and the deck's own generator.
  - The deck's constructor, `shuffle`, `empty` and `deal_card`, plus `EmptyDeckException` as an error result.
- **War rules** (`war_rules.dfy`, module `WarRules`).
  - Every field of the engine as a value. A `Player` holds a deck with its generator, a win pile and a war-card pile; a `Game` holds two players and the turn counter.
  - Each engine operation as a function from the old `Game` to the new one.
  - The lemmas that state what the engine guarantees.
- **War engine** (`war_card_game.dfy`, module `WarGame`).
  - The class `WarCardGame` with the fields of `include/war_card_game.h`, updated in place.
  - Each state-changing operation of the turn (`PlayTurn`, `ResolveTurn`, `SettleWar`, `War`, `ReplenishDecks`, `Initialize`) is proved to move the engine exactly as the matching `WarRules` function does, with a contract of the form `State() == WarRules.X(old(State()))`. So every lemma about the functions holds of the engine. The constructors state their new state as `WarRules.NewGame`; `DealOut` states the two win piles it fills in terms of `WarRules.DealAlternately`; `GameOver` and `TurnsPlayed` change nothing and return a function of `State()`.

Randomness is an oracle. `RandomGen` is a fixed stream of raw generator outputs, standing for the state fixed by a seed, together with the number of outputs consumed so far. A draw in `[0, n-1]` takes the next output modulo `n`. A shuffle of `n` elements draws `n` times, each from the full range `[0, n-1]`, as the source does. This full-range variant is not the shrinking-range algorithm, and it is reproduced as written.

Where the rules documented in include/war_card_game.h:25-45 and the code disagree, the model follows the code:

- The face-up comparison inside a war (src/war_card_game.cpp:198-205) lets player one win with an Ace or a larger enumerator value. A player-two Ace therefore loses to every other player-one card. The rules in include/war_card_game.h:35 say that Ace is high, and lines 37-38 say that the player with the higher rank card takes all the cards of a war; but only the ordinary turn comparison is Ace-high. `WarRules.WarFaceUpIgnoresPlayerTwoAce` states the difference exactly.
- The second exhaustion check in a war runs without replenishing. A player whose face-down card was the last card of their deck loses even if their win pile still holds cards.
- No uniformity is claimed for the shuffle. Only permutation and length facts are proved.

Source inconsistencies and how they are resolved:

- `Deck`'s only constructor takes the data and a generator (include/deck.h:77), but the engine default-constructs its decks and builds its dealing deck from data alone (src/war_card_game.cpp:227). The model passes a generator explicitly: each player's deck starts empty with its own generator, and the dealing deck receives `dealGen`.
- `Deck::assign` and `Deck::size` are called but not declared in `include/deck.h`.
  - `assign` is modelled as replacing the contents and leaving the generator alone.
  - `size` is needed only for `reserve` and `printScore`, which are left out.
- The source increments `turnCounter`, while the header declares `mTurnCounter`. The model has the one field `mTurnCounter`.
- `turnsPlayed` is declared (include/war_card_game.h:92) but never defined. It is modelled as returning the counter, as its comment describes.

## Model

| member | source | states |
|---|---|---|
| Cards.SuiteName | src/playing_card.cpp:20-35 | every suite has a non-empty name without a blank |
| Cards.RankName | src/playing_card.cpp:38-71 | every rank has a non-empty name of at most two characters without a blank |
| Cards.PipRankNamesAreDecimal | src/playing_card.cpp:44-61 | Two to Ten are named by their enumerator value written in decimal |
| Cards.NamesAreInjective | src/playing_card.cpp:20-71 | distinct suites have distinct names, and so do distinct ranks |
| Cards.AccessorsReturnConstructorArguments | src/playing_card.cpp:73-85 | `suite()` and `rank()` return exactly the constructor arguments |
| Cards.PlayingCard.Str | src/playing_card.cpp:87-92 | a card's name is 7 to 11 characters long and has a blank right after the rank name |
| Cards.StrIdentifiesCard | src/playing_card.cpp:87-92 | a card's name is its rank name, one blank, then its suite name; two cards with the same name are the same card |
| Cards.SuitesAndRanksAreIndexedByOrd | src/playing_card.cpp:96-115 | the suite list runs Clubs to Spades by enumerator value; the rank list runs King down to Ace |
| Cards.StandardDeck | src/playing_card.cpp:94-128 | the standard deck has 52 cards; index i holds suite i / 13 of the suite order and rank i % 13 of the rank order |
| Cards.BuildStandardDeck | src/playing_card.cpp:94-128 | the nested loops build exactly StandardDeck(): 52 cards; the card at index i has suite value i / 13 and rank value 13 - i % 13; no two are equal; every card occurs, exactly once |
| Decks.RandomGen.Next | include/deck.h:35 | a draw lies below its bound and advances the generator by one output |
| Decks.RandomGen.DrawIsIndex | include/deck.h:35-38 | the draw made after k draws of the same range is the k-th index of the pass, and the generator has advanced k + 1 times |
| Decks.Swap | include/deck.h:38 | exchanging two positions keeps the length |
| Decks.SwapExchanges | include/deck.h:38 | an exchange puts each of the two elements in the other's place, leaves every other position alone and keeps the multiset |
| Decks.SwapStepKeepsElements | include/deck.h:36-39 | one step of the pass keeps the multiset of elements |
| Decks.SwapPrefix | include/deck.h:36-39 | the first k steps of the pass keep the length |
| Decks.SwapPrefixKeepsElements | include/deck.h:36-39 | every prefix of the pass keeps the multiset of elements |
| Decks.KnuthShuffled | include/deck.h:32-40 | the whole pass, one exchange per position, keeps the length |
| Decks.KnuthShuffledIsPermutation | include/deck.h:32-40 | the shuffle keeps the length and the multiset of elements, so it keeps membership too |
| Decks.KnuthShuffledEmpty | include/deck.h:36 | shuffling an empty vector leaves it empty |
| Decks.FullRangeDrawsRevisitEarlierPositions | include/deck.h:35 | the draws 1 then 0 are allowed on two elements, and they swap an element back to the end |
| Decks.Exchange | include/deck.h:38 | the array afterwards is the old contents with the two positions exchanged |
| Decks.KnuthShuffle | include/deck.h:32-40 | the array afterwards is the full-range pass applied with the next n draws of the generator, and the generator has advanced n draws |
| Decks.Deck.constructor | include/deck.h:107-111 | the data and the generator are stored unchanged |
| Decks.Deck.Shuffle | include/deck.h:113-117 | the contents become the shuffle of the old contents with the deck's own generator, whose oracle advances one output per card; the multiset is unchanged |
| Decks.Deck.Empty | include/deck.h:119-123 | true exactly when the deck holds no card |
| Decks.Deck.Assign | src/war_card_game.cpp:212 | the contents are replaced wholesale and the generator is kept |
| Decks.Deck.DealCard | include/deck.h:125-136 | an empty deck throws EmptyDeckException and is unchanged; otherwise it returns the back element and drops it |
| WarRules.GameOver | src/war_card_game.cpp:133-142 | the game is over exactly when some player holds no card in deck or win pile |
| WarRules.Refill | src/war_card_game.cpp:210-215 | replenishment keeps the player's card count and war cards; the deck is empty afterwards exactly when the player had no card in deck or win pile |
| WarRules.RefillKeepsHand | src/war_card_game.cpp:208-223 | the player holds the same multiset of cards. A non-empty deck leaves the player unchanged. Otherwise the deck becomes a permutation of the win pile, the win pile is cleared and the generator's oracle advances one output per card |
| WarRules.Replenish | src/war_card_game.cpp:208-223 | each player is replenished on their own; the counter and the total card count are kept |
| WarRules.LiveGameReplenishesBothDecks | src/war_card_game.cpp:36-42 | the game is not over exactly when both decks are non-empty after replenishment, so both deals of a live turn succeed |
| WarRules.TurnWinner | src/war_card_game.cpp:74-97 | an untied turn is won by player 1 or player 2 |
| WarRules.TurnWinnerIsAceHigh | src/war_card_game.cpp:74-97 | the turn's winner is the owner of the card of greater Ace-high strength |
| WarRules.WarFaceUpWinner | src/war_card_game.cpp:196-205 | an untied war level is won by player 1 or player 2 |
| WarRules.WarFaceUpIgnoresPlayerTwoAce | src/war_card_game.cpp:196-205 | in a war, player one wins exactly with an Ace or a larger enumerator value; a player-two Ace always loses; the war and turn comparisons differ exactly when player two shows an Ace |
| WarRules.ExhaustionResult | src/war_card_game.cpp:161-188 | when a deck runs out, the war is a draw (3) exactly when both decks are empty; otherwise the player whose deck is not empty wins |
| WarRules.Commit | src/war_card_game.cpp:174-175 | the deck's top card moves onto the end of the war-card pile; generator and win pile are kept; the count drops by one |
| WarRules.CommitKeepsOwn | src/war_card_game.cpp:174-175 | committing a card keeps the cards the player owns, war cards included |
| WarRules.Stage | src/war_card_game.cpp:174-193 | each staging takes one card from each deck, so the total count of decks and win piles drops by two |
| WarRules.War | src/war_card_game.cpp:155-206 | the result is 1, 2 or 3 and the counter is kept; the recursion ends because each level takes four cards from the total |
| WarRules.WarKeepsOwnCards | src/war_card_game.cpp:155-206 | a war moves cards only from a player's deck and win pile onto that player's own war-card pile |
| WarRules.WarExtendsWarPiles | src/war_card_game.cpp:174-197 | a war only appends to the war-card piles, the same number of cards to each |
| WarRules.WarEndsByExhaustionOrComparison | src/war_card_game.cpp:159-205 | a war ends either on an empty deck, with the exhaustion result, or on two differing face-up cards, with the war comparison of those cards; a draw leaves both decks empty |
| WarRules.FaceDownExhaustionIgnoresWinPile | src/war_card_game.cpp:174-188 | a player whose face-down card was their last deck card loses although their win pile holds a card |
| WarRules.SimultaneousExhaustionIsDraw | src/war_card_game.cpp:174-178 | both decks running out on the face-down cards is a draw, whatever the win piles hold |
| WarRules.TurnStart | src/war_card_game.cpp:36-39 | in a live game both decks are non-empty after the counter is advanced and the decks are replenished |
| WarRules.DealtCards | src/war_card_game.cpp:41-42 | each player deals a card that player holds |
| WarRules.Deal | src/war_card_game.cpp:41-42 | dealing removes the top of the deck and changes nothing else about the player |
| WarRules.DealTakesTop | src/war_card_game.cpp:41-42 | dealing takes exactly the top card out of the player's hand |
| WarRules.AfterDeal | src/war_card_game.cpp:36-42 | after the deal the counter is one higher and the war-card piles are unchanged |
| WarRules.AfterDealTakesDealtCards | src/war_card_game.cpp:36-42 | each player's hand loses exactly the card that player dealt |
| WarRules.SettleWar | src/war_card_game.cpp:44-72 | after a war is settled both war-card piles are empty; decks, generators and counter are unchanged |
| WarRules.SettleWarPlayerOneWins | src/war_card_game.cpp:46-53 | player one gains player two's dealt card and war cards, which player two loses |
| WarRules.SettleWarPlayerTwoWins | src/war_card_game.cpp:54-61 | player two gains player one's dealt card and war cards, which player one loses |
| WarRules.SettleWarDraw | src/war_card_game.cpp:62-70 | on a draw each player gets back exactly their own dealt card and war cards |
| WarRules.Resolve | src/war_card_game.cpp:44-97 | resolving the dealt cards keeps the counter; a tie ends with both war-card piles empty; otherwise decks and war-card piles are untouched |
| WarRules.PlayTurn | src/war_card_game.cpp:34-104 | a turn adds exactly one to the counter when the game is live, however many war levels it takes, and nothing when it is over |
| WarRules.PlayTurnOnFinishedGameIsNoOp | src/war_card_game.cpp:36 | a turn on a finished game changes nothing |
| WarRules.PlayTurnUntiedMovesLosingCard | src/war_card_game.cpp:74-97 | an untied turn moves exactly the loser's dealt card to the owner of the Ace-high stronger card; the war-card piles are untouched |
| WarRules.PlayTurnUntiedAppendsDealtCards | src/war_card_game.cpp:74-97 | an untied turn appends card1 then card2 to the win pile of the Ace-high winner and changes nothing else after the deal |
| WarRules.PlayTurnTiedAppendsInOrder | src/war_card_game.cpp:44-72 | after a tie, the winner's pile gets card1, card2, the winner's war cards, then the loser's; on a draw each pile gets its owner's card and war cards; both war-card piles end empty |
| WarRules.PlayTurnTiedOutcome | src/war_card_game.cpp:44-72 | after a tie, a draw leaves each hand as it was; otherwise the winner gains exactly the loser's dealt card and war cards, and the loser loses them |
| WarRules.PlayTurnTiedConservesCards | src/war_card_game.cpp:44-72 | a tied turn conserves the two hands together and leaves both war-card piles empty |
| WarRules.PlayTurnUntiedConservesCards | src/war_card_game.cpp:74-97 | an untied turn conserves the two hands together and keeps the war-card piles |
| WarRules.PlayTurnConservesCards | src/war_card_game.cpp:34-104 | a turn from a settled game creates and destroys no card and leaves both war-card piles empty |
| WarRules.Trim | src/war_card_game.cpp:28-31 | the result is a prefix of the input of even length, the input length rounded down to an even number; so an even-sized list is kept whole and an odd-sized list loses exactly its last card |
| WarRules.DealAlternately | src/war_card_game.cpp:231-235 | alternate dealing of an even-sized deck gives each player half of the cards; an odd-sized deck is outside the model, since its last deal would throw EmptyDeckException |
| WarRules.DealAlternatelyStep | src/war_card_game.cpp:231-235 | dealing the top two cards onto the win piles and then the rest of the deck deals the whole deck |
| WarRules.DealAlternatelySplitsEvenly | src/war_card_game.cpp:231-235 | alternate dealing of an even deck gives each player half the cards, and the two hands together are the deck |
| WarRules.Initialize | src/war_card_game.cpp:225-241 | after initialisation the players hold their old win piles plus the new cards; the old decks are discarded |
| WarRules.InitializeDealsHalves | src/war_card_game.cpp:225-241 | each deck becomes the old win pile plus half of the cards; the new cards together are a permutation of the input; the win piles are cleared; generators, war piles and counter are kept |
| WarRules.NewGame | src/war_card_game.cpp:26-32 | a new game holds the even part of the card list and starts at turn zero |
| WarRules.NewGameDealsEvenly | src/war_card_game.cpp:26-32 | a new game gives each player half the cards, rounded down; the decks together are a permutation of the input less the last card of an odd-sized list; piles start empty and the counter at zero |
| WarRules.ShuffleOfTwinsIsFixed | include/deck.h:36-39 | two equal cards shuffle to themselves whatever is drawn |
| WarRules.TwoAcesScenario | src/war_card_game.cpp:26-104 | with two Aces of Spades, the first turn ties, the war is a draw on empty decks, and each player ends with just their own Ace in the win pile |
| WarRules.TwoAcesNewGame | src/war_card_game.cpp:26-32 | a new game from two Aces of Spades gives each player one Ace in the deck, with empty piles and counter zero |
| WarRules.WarWithoutCardsIsDraw | src/war_card_game.cpp:157-162 | a war between two players without cards is a draw and changes nothing |
| WarRules.ShuffleOfOneIsFixed | include/deck.h:32-40 | a single card shuffles to itself |
| WarRules.TwoAcesDeal | src/war_card_game.cpp:36-42 | from each player holding one Ace of Spades in the win pile, the game is live, each deck is refilled with its Ace and both Aces are dealt |
| WarRules.TwoAcesTurnRepeats | src/war_card_game.cpp:34-104 | from each player holding one Ace of Spades in the win pile, the game is live and a turn returns to the same layout, only the generators and counter advanced; so the two-Aces game never ends |
| WarGame.WarCardGame.constructor | src/war_card_game.cpp:26-32 | the engine is the new game built from the trimmed card list, with two distinct fresh decks |
| WarGame.WarCardGame.Standard | src/war_card_game.cpp:21-24 | the engine is the new game built from StandardDeck(), with two distinct fresh decks; hence 26 cards in each deck, every card of the standard deck held exactly once, empty piles and counter zero |
| WarGame.WarCardGame.PlayTurn | src/war_card_game.cpp:34-104 | the engine moves exactly as WarRules.PlayTurn; from a state with both war-card piles empty, the two players together hold the same cards afterwards and both war-card piles are empty again |
| WarGame.WarCardGame.ResolveTurn | src/war_card_game.cpp:44-97 | after the deal, the engine moves exactly as WarRules.Resolve: a tie goes to war and is settled, otherwise the Ace-high winner takes both cards |
| WarGame.WarCardGame.SettleWar | src/war_card_game.cpp:46-72 | the engine moves exactly as WarRules.SettleWar for the war's result, and both war-card piles are cleared |
| WarGame.WarCardGame.GameOver | src/war_card_game.cpp:133-142 | true exactly when some player has an empty deck and an empty win pile |
| WarGame.WarCardGame.TurnsPlayed | include/war_card_game.h:87-92 | the turn counter |
| WarGame.WarCardGame.War | src/war_card_game.cpp:155-206 | the result and the engine's new state are exactly those of WarRules.War |
| WarGame.WarCardGame.ReplenishDecks | src/war_card_game.cpp:208-223 | the engine moves exactly as WarRules.Replenish |
| WarGame.WarCardGame.Initialize | src/war_card_game.cpp:225-241 | the engine moves exactly as WarRules.Initialize: the cards are shuffled by a dealing deck of their own, dealt alternately until that deck is empty, and the win piles become the decks |
| WarGame.WarCardGame.DealOut | src/war_card_game.cpp:231-235 | the dealing deck ends empty; player one's win pile gains the top card, the third and so on, player two's the second, the fourth and so on, exactly as WarRules.DealAlternately |

## Left out

- Console output: every `std::cout` line and `printScore` (src/war_card_game.cpp:106-117) only print.
- `autoPlay` (src/war_card_game.cpp:119-130) loops until the game is over, which provably never happens on some inputs. With the two cards [A♠, A♠] every turn ties, the war finds both decks empty and is a draw, and each player gets their own Ace back, whatever the shuffles draw: `WarRules.TwoAcesScenario` and `WarRules.TwoAcesTurnRepeats` show the layout recurring. It also increments the turn counter a second time on each iteration (line 126).
- The random machinery: `std::mt19937`, `uniform_int_distribution` and seeding are foreign library code. They are replaced by the output-stream oracle. No statistical property is stated.
- `reserve` calls (src/war_card_game.cpp:229-230, src/playing_card.cpp:118) only change capacity.
- `EmptyDeckException::what()` (include/deck.h:47-50) returns a fixed message. The exception is modelled as an error result.
- The `default: return ""` branches of the two `toString` switches. Dafny datatypes admit no value outside the enumerators.
- `toInt`, declared in include/playing_card.h, is never defined. Only the enumerator values are used.
- WarGame.WarCardGame.Initialize: requires an even number of cards. Both callers guarantee this. On an odd count the source's second `deal_card` would throw.
- WarRules.DealAlternately and WarGame.WarCardGame.DealOut: require an even-sized deck, which `Initialize` passes on. The throw of the last `deal_card` on an odd-sized deck is not modelled.
- WarGame.WarCardGame.TurnsPlayed: the counter is an unbounded `nat`. It does not model the wrap-around of `unsigned long long`, which cannot be reached in practice.
- Decks.RandomGen.Next: maps one raw output into the range by `%`. `uniform_int_distribution` is library code; it may consume more than one raw `mt19937` output per draw (rejection sampling), so "one output per card" describes the oracle, not the real generator's state.
