/**
 * The War engine as an object: two decks, two win piles, two war-card piles
 * and a turn counter, updated in place by its methods. Every method is
 * proved to move the engine exactly as the corresponding function on
 * WarRules.Game does, so the properties proved there hold of the engine.
 */
module WarGame {
  import opened Cards
  import opened Decks
  import WarRules

  class WarCardGame {
    const mP1Deck: Deck<PlayingCard>
    const mP2Deck: Deck<PlayingCard>
    var mP1WinPile: seq<PlayingCard>
    var mP2WinPile: seq<PlayingCard>
    var mP1WarCards: seq<PlayingCard>
    var mP2WarCards: seq<PlayingCard>
    var mTurnCounter: nat

    /** The two decks are separate objects. */
    ghost predicate Valid()
      reads this
    {
      mP1Deck != mP2Deck
    }

    /** The engine's fields as a value. */
    ghost function State(): WarRules.Game
      reads this, mP1Deck, mP2Deck
    {
      WarRules.Game(
        WarRules.Player(mP1Deck.mData, mP1Deck.mRandomGen, mP1WinPile, mP1WarCards),
        WarRules.Player(mP2Deck.mData, mP2Deck.mRandomGen, mP2WinPile, mP2WarCards),
        mTurnCounter)
    }

    /**
     * A game with a custom list of cards: an odd-sized list loses its last
     * card, the rest is shuffled with dealGen and dealt alternately.
     */
    constructor (cards: seq<PlayingCard>, dealGen: RandomGen, p1Gen: RandomGen, p2Gen: RandomGen)
      ensures Valid() && fresh(mP1Deck) && fresh(mP2Deck)
      ensures State() == WarRules.NewGame(cards, dealGen, p1Gen, p2Gen)
    {
      mP1Deck := new Deck([], p1Gen);
      mP2Deck := new Deck([], p2Gen);
      mP1WinPile, mP2WinPile := [], [];
      mP1WarCards, mP2WarCards := [], [];
      mTurnCounter := 0;
      new;
      if |cards| % 2 == 1 {
        Initialize(cards[..|cards| - 1], dealGen);
      } else {
        Initialize(cards, dealGen);
      }
    }

    /**
     * The standard game: the new game built from the 52 cards of a standard
     * deck, so 26 cards to each player, every card held exactly once.
     */
    constructor Standard(dealGen: RandomGen, p1Gen: RandomGen, p2Gen: RandomGen)
      ensures Valid() && fresh(mP1Deck) && fresh(mP2Deck)
      ensures State() == WarRules.NewGame(StandardDeck(), dealGen, p1Gen, p2Gen)
      ensures |mP1Deck.mData| == 26 && |mP2Deck.mData| == 26
      ensures forall c: PlayingCard :: (State().p1.Hand() + State().p2.Hand())[c] == 1
      ensures State().Settled() && mP1WinPile == [] && mP2WinPile == [] && mTurnCounter == 0
      ensures mP1Deck.mRandomGen == p1Gen && mP2Deck.mRandomGen == p2Gen
    {
      mP1Deck := new Deck([], p1Gen);
      mP2Deck := new Deck([], p2Gen);
      mP1WinPile, mP2WinPile := [], [];
      mP1WarCards, mP2WarCards := [], [];
      mTurnCounter := 0;
      new;
      var deck := BuildStandardDeck();
      assert WarRules.Trim(deck) == deck;
      assert State() == WarRules.Game(WarRules.Fresh(p1Gen), WarRules.Fresh(p2Gen), 0);
      Initialize(deck, dealGen);
      WarRules.NewGameDealsEvenly(deck, dealGen, p1Gen, p2Gen);
    }

    /**
     * One turn of the game, exactly as WarRules.PlayTurn describes it; from a
     * state between turns it creates and destroys no card and ends between
     * turns again.
     */
    method PlayTurn()
      requires Valid()
      modifies this, mP1Deck, mP2Deck
      ensures Valid()
      ensures State() == WarRules.PlayTurn(old(State()))
      ensures old(State()).Settled() ==> State().Settled()
      ensures old(State()).Settled() ==>
                State().p1.Hand() + State().p2.Hand() == old(State().p1.Hand() + State().p2.Hand())
    {
      ghost var g := State();
      if g.Settled() {
        WarRules.PlayTurnConservesCards(g);
      }
      var over := GameOver();
      if !over {
        mTurnCounter := mTurnCounter + 1;
        ReplenishDecks();
        assert State() == WarRules.TurnStart(g);
        var dealt1 := mP1Deck.DealCard();
        var dealt2 := mP2Deck.DealCard();
        var card1, card2 := dealt1.card, dealt2.card;
        assert (card1, card2) == WarRules.DealtCards(g);
        assert State() == WarRules.AfterDeal(g);
        ResolveTurn(card1, card2);
      }
    }

    /**
     * The comparison of the dealt cards: a tie goes to war and is settled,
     * otherwise the owner of the stronger card, an Ace beating every other
     * rank, takes both cards onto the win pile.
     */
    method ResolveTurn(card1: PlayingCard, card2: PlayingCard)
      requires Valid()
      modifies this, mP1Deck, mP2Deck
      ensures Valid()
      ensures State() == WarRules.Resolve(card1, card2, old(State()))
    {
      if card1.rank == card2.rank {
        var winner := War();
        SettleWar(winner, card1, card2);
      } else if card1.rank == Ace {
        mP1WinPile := mP1WinPile + [card1, card2];
      } else if card2.rank == Ace {
        mP2WinPile := mP2WinPile + [card1, card2];
      } else if card1.rank.Ord() > card2.rank.Ord() {
        mP1WinPile := mP1WinPile + [card1, card2];
      } else {
        mP2WinPile := mP2WinPile + [card1, card2];
      }
    }

    /**
     * Hands out the cards of a finished war: the winner's win pile takes the
     * two dealt cards, the winner's war cards and then the loser's; on a
     * draw each win pile takes its owner's dealt card and war cards. Both
     * war-card piles are cleared.
     */
    method SettleWar(winner: int, card1: PlayingCard, card2: PlayingCard)
      modifies this
      ensures State() == WarRules.SettleWar(winner, card1, card2, old(State()))
    {
      if winner == 1 {
        mP1WinPile := mP1WinPile + [card1, card2] + mP1WarCards + mP2WarCards;
      } else if winner == 2 {
        mP2WinPile := mP2WinPile + [card1, card2] + mP2WarCards + mP1WarCards;
      } else {
        mP1WinPile := mP1WinPile + [card1] + mP1WarCards;
        mP2WinPile := mP2WinPile + [card2] + mP2WarCards;
      }
      mP1WarCards := [];
      mP2WarCards := [];
    }

    /** The game is over when a player has neither a deck nor a win pile left. */
    method GameOver() returns (over: bool)
      ensures over <==> WarRules.GameOver(State())
    {
      var empty1 := mP1Deck.Empty();
      var empty2 := mP2Deck.Empty();
      over := (empty1 && |mP1WinPile| == 0) || (empty2 && |mP2WinPile| == 0);
    }

    /** The number of turns played, a turn with wars counting once. */
    method TurnsPlayed() returns (turns: nat)
      ensures turns == State().turnCounter
    {
      turns := mTurnCounter;
    }

    /** The war procedure, exactly as WarRules.War describes it; recursive on a tie. */
    method War() returns (winner: int)
      requires Valid()
      modifies this, mP1Deck, mP2Deck
      ensures Valid()
      ensures (winner, State()) == WarRules.War(old(State()))
      decreases State().Total()
    {
      ghost var g := State();
      ReplenishDecks();
      ghost var g1 := State();
      var empty1 := mP1Deck.Empty();
      var empty2 := mP2Deck.Empty();
      if empty1 && empty2 {
        return 3;
      } else if empty1 {
        return 2;
      } else if empty2 {
        return 1;
      }

      var down1 := mP1Deck.DealCard();
      mP1WarCards := mP1WarCards + [down1.card];
      var down2 := mP2Deck.DealCard();
      mP2WarCards := mP2WarCards + [down2.card];
      assert State() == WarRules.Stage(g1);
      ghost var g2 := State();

      empty1 := mP1Deck.Empty();
      empty2 := mP2Deck.Empty();
      if empty1 && empty2 {
        return 3;
      } else if empty1 {
        return 2;
      } else if empty2 {
        return 1;
      }

      var up1 := mP1Deck.DealCard();
      var up2 := mP2Deck.DealCard();
      var card1, card2 := up1.card, up2.card;
      mP1WarCards := mP1WarCards + [card1];
      mP2WarCards := mP2WarCards + [card2];
      assert State() == WarRules.Stage(g2);

      if card1.rank == card2.rank {
        winner := War();
      } else if card1.rank == Ace || card1.rank.Ord() > card2.rank.Ord() {
        winner := 1;
      } else if card2.rank == Ace {
        winner := 2;
      } else if card1.rank.Ord() < card2.rank.Ord() {
        winner := 2;
      } else {
        winner := 1;
      }
    }

    /** Refills each empty deck from its owner's win pile and shuffles it. */
    method ReplenishDecks()
      requires Valid()
      modifies this, mP1Deck, mP2Deck
      ensures Valid()
      ensures State() == WarRules.Replenish(old(State()))
    {
      var empty1 := mP1Deck.Empty();
      if empty1 {
        mP1Deck.Assign(mP1WinPile);
        mP1WinPile := [];
        mP1Deck.Shuffle();
      }
      var empty2 := mP2Deck.Empty();
      if empty2 {
        mP2Deck.Assign(mP2WinPile);
        mP2WinPile := [];
        mP2Deck.Shuffle();
      }
    }

    /**
     * Shuffles an even number of cards with a dealing deck of its own, deals
     * them alternately onto the win piles, and turns each win pile into its
     * owner's deck.
     */
    method Initialize(cards: seq<PlayingCard>, dealGen: RandomGen)
      requires Valid() && |cards| % 2 == 0
      modifies this, mP1Deck, mP2Deck
      ensures Valid()
      ensures State() == WarRules.Initialize(old(State()), cards, dealGen)
    {
      var dealDeck := new Deck(cards, dealGen);
      dealDeck.Shuffle();
      DealOut(dealDeck);
      mP1Deck.Assign(mP1WinPile);
      mP2Deck.Assign(mP2WinPile);
      mP1WinPile := [];
      mP2WinPile := [];
    }

    /**
     * The dealing loop of initialisation: until the dealing deck is empty,
     * player one's win pile takes the top card and player two's the next.
     */
    method DealOut(dealDeck: Deck<PlayingCard>)
      requires |dealDeck.mData| % 2 == 0
      modifies dealDeck`mData, this`mP1WinPile, this`mP2WinPile
      ensures dealDeck.mData == []
      ensures mP1WinPile == old(mP1WinPile) + WarRules.DealAlternately(old(dealDeck.mData)).0
      ensures mP2WinPile == old(mP2WinPile) + WarRules.DealAlternately(old(dealDeck.mData)).1
    {
      ghost var hands := WarRules.DealAlternately(dealDeck.mData);
      ghost var pairs: nat := |dealDeck.mData| / 2;
      var empty := dealDeck.Empty();
      while !empty
        invariant |dealDeck.mData| == 2 * pairs && (empty <==> pairs == 0)
        invariant mP1WinPile + WarRules.DealAlternately(dealDeck.mData).0 == old(mP1WinPile) + hands.0
        invariant mP2WinPile + WarRules.DealAlternately(dealDeck.mData).1 == old(mP2WinPile) + hands.1
        decreases pairs
      {
        ghost var s, w1, w2 := dealDeck.mData, mP1WinPile, mP2WinPile;
        WarRules.DealAlternatelyStep(w1, w2, s);
        var dealt1 := dealDeck.DealCard();
        assert dealt1.card == s[|s| - 1] && dealDeck.mData == s[..|s| - 1];
        mP1WinPile := mP1WinPile + [dealt1.card];
        var dealt2 := dealDeck.DealCard();
        assert dealt2.card == s[|s| - 2] && dealDeck.mData == s[..|s| - 2];
        mP2WinPile := mP2WinPile + [dealt2.card];
        pairs := pairs - 1;
        empty := dealDeck.Empty();
      }
    }
  }
}
