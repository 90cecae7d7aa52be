/**
 * The War engine as values: a Game holds every field of the engine (for
 * each player the deck with its generator, the win pile and the war-card
 * pile; and the turn counter), and each operation of the engine is a
 * function from the old Game to the new one. The engine class is proved to
 * follow these functions; the lemmas here state what the functions
 * guarantee.
 */
module WarRules {
  import opened Cards
  import opened Decks

  /** One player's piles: the deck (back = top) with its generator, the win pile and the war cards. */
  datatype Player = Player(deck: seq<PlayingCard>, gen: RandomGen, winPile: seq<PlayingCard>, warCards: seq<PlayingCard>)
  {
    /** The cards the player holds between turns: deck and win pile. */
    function Hand(): multiset<PlayingCard> { multiset(deck) + multiset(winPile) }

    /** The player's cards including those staged in a war in progress. */
    function Own(): multiset<PlayingCard> { Hand() + multiset(warCards) }

    /** The number of cards in the deck and the win pile: the player's score. */
    function Count(): nat { |deck| + |winPile| }

    /** The player has no card left to play. */
    predicate Out() { deck == [] && winPile == [] }
  }

  datatype Game = Game(p1: Player, p2: Player, turnCounter: nat)
  {
    /** The number of cards in both decks and win piles: what each war level consumes. */
    function Total(): nat { p1.Count() + p2.Count() }

    /** Between turns both war-card piles are empty. */
    predicate Settled() { p1.warCards == [] && p2.warCards == [] }
  }

  /** The top card of a deck: the back of its vector. */
  function Top(deck: seq<PlayingCard>): PlayingCard
    requires deck != []
  {
    deck[|deck| - 1]
  }

  /** The deck after its top card is dealt. */
  function Rest(deck: seq<PlayingCard>): (r: seq<PlayingCard>)
    requires deck != []
    ensures |r| == |deck| - 1 && deck == r + [Top(deck)]
  {
    deck[..|deck| - 1]
  }

  /** The game is over when some player has neither a deck nor a win pile left: that player holds no card. */
  function GameOver(g: Game): (over: bool)
    ensures over <==> g.p1.Count() == 0 || g.p2.Count() == 0
  {
    g.p1.Out() || g.p2.Out()
  }

  /**
   * Replenishment of one player: an empty deck becomes the win pile,
   * shuffled with the deck's generator, and the win pile is cleared; a
   * non-empty deck is left alone. The deck is empty afterwards exactly when
   * the player holds no card.
   */
  function Refill(p: Player): (r: Player)
    ensures r.warCards == p.warCards && r.Count() == p.Count()
    ensures r.deck == [] <==> p.Out()
  {
    if p.deck == [] then
      Player(KnuthShuffled(p.winPile, p.gen.Indices(|p.winPile|)), p.gen.Advance(|p.winPile|), [], p.warCards)
    else p
  }

  /**
   * Replenishment keeps the cards the player holds; a non-empty deck leaves
   * the player as it is; an empty deck becomes a permutation of the win
   * pile, which is cleared, and the generator advances by one draw per card.
   */
  lemma RefillKeepsHand(p: Player)
    ensures Refill(p).Hand() == p.Hand() && Refill(p).Own() == p.Own()
    ensures p.deck != [] ==> Refill(p) == p
    ensures p.deck == [] ==> Refill(p).winPile == [] && multiset(Refill(p).deck) == multiset(p.winPile)
                             && Refill(p).gen == p.gen.Advance(|p.winPile|)
  {
    KnuthShuffledIsPermutation(p.winPile, p.gen.Indices(|p.winPile|));
  }

  /** Both players are replenished, each independently of the other. */
  function Replenish(g: Game): (r: Game)
    ensures r.turnCounter == g.turnCounter && r.Total() == g.Total()
  {
    Game(Refill(g.p1), Refill(g.p2), g.turnCounter)
  }

  /** When the game is not over, both decks are non-empty after replenishment, so both deals succeed. */
  lemma LiveGameReplenishesBothDecks(g: Game)
    ensures !GameOver(g) <==> Replenish(g).p1.deck != [] && Replenish(g).p2.deck != []
  {
  }

  /** Ace-high strength of a rank: the Ace above the King, the others by enumerator value. */
  function AceHigh(rank: Rank): int {
    if rank == Ace then 14 else rank.Ord()
  }

  /** The owner (1 or 2) of the winning card of an ordinary, untied turn. */
  function TurnWinner(card1: PlayingCard, card2: PlayingCard): (winner: int)
    requires card1.rank != card2.rank
    ensures winner == 1 || winner == 2
  {
    if card1.rank == Ace then 1
    else if card2.rank == Ace then 2
    else if card1.rank.Ord() > card2.rank.Ord() then 1
    else 2
  }

  /** The turn comparison is Ace high: the card of greater Ace-high strength wins. */
  lemma TurnWinnerIsAceHigh(card1: PlayingCard, card2: PlayingCard)
    requires card1.rank != card2.rank
    ensures TurnWinner(card1, card2) == 1 <==> AceHigh(card1.rank) > AceHigh(card2.rank)
    ensures TurnWinner(card1, card2) == 2 <==> AceHigh(card2.rank) > AceHigh(card1.rank)
  {
  }

  /** The owner of the winning face-up card of an untied war level, as the war code compares them. */
  function WarFaceUpWinner(card1: PlayingCard, card2: PlayingCard): (winner: int)
    requires card1.rank != card2.rank
    ensures winner == 1 || winner == 2
  {
    if card1.rank == Ace || card1.rank.Ord() > card2.rank.Ord() then 1
    else if card2.rank == Ace then 2
    else if card1.rank.Ord() < card2.rank.Ord() then 2
    else 1
  }

  /**
   * The war comparison lets player one win exactly when player one shows an
   * Ace or the larger enumerator value; the branch for a player-two Ace is
   * never taken, so a player-two Ace loses to every other card, and the war
   * comparison disagrees with the turn comparison exactly then.
   */
  lemma WarFaceUpIgnoresPlayerTwoAce(card1: PlayingCard, card2: PlayingCard)
    requires card1.rank != card2.rank
    ensures WarFaceUpWinner(card1, card2) == 1 <==> card1.rank == Ace || card1.rank.Ord() > card2.rank.Ord()
    ensures WarFaceUpWinner(card1, card2) == 2 <==> card1.rank != Ace && card1.rank.Ord() < card2.rank.Ord()
    ensures card2.rank == Ace ==> WarFaceUpWinner(card1, card2) == 1
    ensures WarFaceUpWinner(card1, card2) != TurnWinner(card1, card2) <==> card2.rank == Ace
  {
  }

  /** The result of a war that a deck ran out of: 3 a draw, 2 player two wins, 1 player one wins. */
  function ExhaustionResult(p1Empty: bool, p2Empty: bool): (result: int)
    requires p1Empty || p2Empty
    ensures result == 3 <==> p1Empty && p2Empty
    ensures result == 1 <==> !p1Empty
    ensures result == 2 <==> p1Empty && !p2Empty
  {
    if p1Empty && p2Empty then 3
    else if p1Empty then 2
    else 1
  }

  /** The player moves the top card of the deck onto the war-card pile. */
  function Commit(p: Player): (r: Player)
    requires p.deck != []
    ensures r.deck == Rest(p.deck) && r.warCards == p.warCards + [Top(p.deck)]
    ensures r.gen == p.gen && r.winPile == p.winPile
    ensures r.Count() == p.Count() - 1
  {
    p.(deck := Rest(p.deck), warCards := p.warCards + [Top(p.deck)])
  }

  /** Committing a card moves it between two piles of the same player. */
  lemma CommitKeepsOwn(p: Player)
    requires p.deck != []
    ensures Commit(p).Own() == p.Own()
  {
    assert p.deck == Rest(p.deck) + [Top(p.deck)];
  }

  /** Each player commits the top card of their deck to the war. */
  function Stage(g: Game): (r: Game)
    requires g.p1.deck != [] && g.p2.deck != []
    ensures r.turnCounter == g.turnCounter && r.Total() == g.Total() - 2
  {
    Game(Commit(g.p1), Commit(g.p2), g.turnCounter)
  }

  /**
   * The war procedure: replenish; stop if a deck is empty; stage a face-down
   * card each; stop if a deck is now empty (without replenishing); stage a
   * face-up card each and compare them, escalating on equal ranks. Returns
   * 1, 2 or 3 (draw) and the new game. Each level takes two cards from each
   * player's deck, so the decks and win piles shrink by four per level and
   * the recursion ends.
   */
  function War(g: Game): (r: (int, Game))
    ensures r.0 == 1 || r.0 == 2 || r.0 == 3
    ensures r.1.turnCounter == g.turnCounter
    decreases g.Total()
  {
    var g1 := Replenish(g);
    if g1.p1.deck == [] || g1.p2.deck == [] then
      (ExhaustionResult(g1.p1.deck == [], g1.p2.deck == []), g1)
    else
      var g2 := Stage(g1);
      if g2.p1.deck == [] || g2.p2.deck == [] then
        (ExhaustionResult(g2.p1.deck == [], g2.p2.deck == []), g2)
      else
        var card1, card2 := Top(g2.p1.deck), Top(g2.p2.deck);
        var g3 := Stage(g2);
        if card1.rank == card2.rank then War(g3)
        else (WarFaceUpWinner(card1, card2), g3)
  }

  /** A sequence that extends a + [x] + [y] extends a. */
  lemma PrefixOfExtension(a: seq<PlayingCard>, x: PlayingCard, y: PlayingCard, b: seq<PlayingCard>)
    requires a + [x] + [y] <= b
    ensures a <= b
  {
    assert b[..|a|] == (a + [x] + [y])[..|a|];
  }

  /**
   * A war moves cards only from each player's deck and win pile onto that
   * player's own war-card pile: each player owns the same cards afterwards.
   */
  lemma {:induction false} WarKeepsOwnCards(g: Game)
    ensures War(g).1.p1.Own() == g.p1.Own() && War(g).1.p2.Own() == g.p2.Own()
    decreases g.Total()
  {
    RefillKeepsHand(g.p1);
    RefillKeepsHand(g.p2);
    var g1 := Replenish(g);
    if g1.p1.deck != [] && g1.p2.deck != [] {
      var g2 := Stage(g1);
      if g2.p1.deck != [] && g2.p2.deck != [] {
        var g3 := Stage(g2);
        CommitKeepsOwn(g2.p1);
        CommitKeepsOwn(g2.p2);
        if Top(g2.p1.deck).rank == Top(g2.p2.deck).rank {
          assert War(g) == War(g3);
          WarKeepsOwnCards(g3);
        }
      }
      CommitKeepsOwn(g1.p1);
      CommitKeepsOwn(g1.p2);
    }
  }

  /**
   * A war only appends to the war-card piles, the same number of cards to
   * each: the old piles are prefixes of the new ones.
   */
  lemma {:induction false} WarExtendsWarPiles(g: Game)
    ensures var e := War(g).1;
      && g.p1.warCards <= e.p1.warCards && g.p2.warCards <= e.p2.warCards
      && |e.p1.warCards| - |g.p1.warCards| == |e.p2.warCards| - |g.p2.warCards|
    decreases g.Total()
  {
    var g1 := Replenish(g);
    if g1.p1.deck == [] || g1.p2.deck == [] {
      assert War(g).1 == g1;
    } else {
      var g2 := Stage(g1);
      if g2.p1.deck == [] || g2.p2.deck == [] {
        assert War(g).1 == g2;
      } else {
        var g3 := Stage(g2);
        if Top(g2.p1.deck).rank == Top(g2.p2.deck).rank {
          var e := War(g3).1;
          assert War(g).1 == e;
          WarExtendsWarPiles(g3);
          PrefixOfExtension(g.p1.warCards, Top(g1.p1.deck), Top(g2.p1.deck), e.p1.warCards);
          PrefixOfExtension(g.p2.warCards, Top(g1.p2.deck), Top(g2.p2.deck), e.p2.warCards);
        } else {
          assert War(g).1 == g3;
        }
      }
    }
  }

  /**
   * A war ends in one of two ways: a deck is empty and the result is the
   * exhaustion result for the two decks, or the last face-up cards differ in
   * rank and the result is the war comparison of those two cards. A draw
   * therefore leaves both decks empty.
   */
  lemma {:induction false} WarEndsByExhaustionOrComparison(g: Game)
    ensures var (w, e) := War(g);
      || ((e.p1.deck == [] || e.p2.deck == []) && w == ExhaustionResult(e.p1.deck == [], e.p2.deck == []))
      || (|e.p1.warCards| > |g.p1.warCards| && |e.p2.warCards| > |g.p2.warCards|
          && Top(e.p1.warCards).rank != Top(e.p2.warCards).rank
          && w == WarFaceUpWinner(Top(e.p1.warCards), Top(e.p2.warCards)))
    ensures War(g).0 == 3 ==> War(g).1.p1.deck == [] && War(g).1.p2.deck == []
    decreases g.Total()
  {
    var g1 := Replenish(g);
    if g1.p1.deck != [] && g1.p2.deck != [] {
      var g2 := Stage(g1);
      if g2.p1.deck != [] && g2.p2.deck != [] {
        var g3 := Stage(g2);
        if Top(g2.p1.deck).rank == Top(g2.p2.deck).rank {
          assert War(g) == War(g3);
          WarEndsByExhaustionOrComparison(g3);
        }
      }
    }
  }

  /**
   * The second exhaustion check does not replenish: a player whose face-down
   * card was the last of their deck loses the war although their win pile
   * still holds a card.
   */
  lemma FaceDownExhaustionIgnoresWinPile(a: PlayingCard, b: PlayingCard, x: PlayingCard, y: PlayingCard,
                                         z: PlayingCard, gen1: RandomGen, gen2: RandomGen)
    ensures War(Game(Player([a], gen1, [b], []), Player([x, y, z], gen2, [], []), 0)).0 == 2
  {
    var g := Game(Player([a], gen1, [b], []), Player([x, y, z], gen2, [], []), 0);
    assert Replenish(g) == g;
  }

  /** When both decks run out on the same face-down card the war is a draw, whatever the win piles hold. */
  lemma SimultaneousExhaustionIsDraw(a: PlayingCard, b: PlayingCard, w1: seq<PlayingCard>, w2: seq<PlayingCard>,
                                     gen1: RandomGen, gen2: RandomGen)
    ensures War(Game(Player([a], gen1, w1, []), Player([b], gen2, w2, []), 0)).0 == 3
  {
    var g := Game(Player([a], gen1, w1, []), Player([b], gen2, w2, []), 0);
    assert Replenish(g) == g;
  }

  /** The start of a live turn: the counter is advanced and both decks are replenished. */
  function TurnStart(g: Game): (r: Game)
    requires !GameOver(g)
    ensures r.p1.deck != [] && r.p2.deck != []
  {
    Replenish(g.(turnCounter := g.turnCounter + 1))
  }

  /** The cards the two players deal in a live turn: the tops of their replenished decks. */
  function DealtCards(g: Game): (cards: (PlayingCard, PlayingCard))
    requires !GameOver(g)
    ensures cards.0 in g.p1.Hand() && cards.1 in g.p2.Hand()
  {
    RefillKeepsHand(g.p1);
    RefillKeepsHand(g.p2);
    (Top(TurnStart(g).p1.deck), Top(TurnStart(g).p2.deck))
  }

  /** The player after dealing the top card of the deck. */
  function Deal(p: Player): (r: Player)
    requires p.deck != []
    ensures r.deck == Rest(p.deck) && r.gen == p.gen && r.winPile == p.winPile && r.warCards == p.warCards
  {
    p.(deck := Rest(p.deck))
  }

  /** Dealing takes exactly the top card out of the player's hand. */
  lemma DealTakesTop(p: Player)
    requires p.deck != []
    ensures Deal(p).Hand() + multiset{Top(p.deck)} == p.Hand()
  {
    assert p.deck == Rest(p.deck) + [Top(p.deck)];
  }

  /** A live turn after each player has dealt the top card of their deck. */
  function AfterDeal(g: Game): (r: Game)
    requires !GameOver(g)
    ensures r.turnCounter == g.turnCounter + 1
    ensures r.p1.warCards == g.p1.warCards && r.p2.warCards == g.p2.warCards
  {
    var g1 := TurnStart(g);
    Game(Deal(g1.p1), Deal(g1.p2), g1.turnCounter)
  }

  /** Dealing takes exactly the dealt card out of each player's hand. */
  lemma AfterDealTakesDealtCards(g: Game)
    requires !GameOver(g)
    ensures AfterDeal(g).p1.Hand() + multiset{DealtCards(g).0} == g.p1.Hand()
    ensures AfterDeal(g).p2.Hand() + multiset{DealtCards(g).1} == g.p2.Hand()
  {
    RefillKeepsHand(g.p1);
    RefillKeepsHand(g.p2);
    DealTakesTop(TurnStart(g).p1);
    DealTakesTop(TurnStart(g).p2);
  }

  /**
   * The cards go to the war's winner: card1, card2, the winner's war cards,
   * then the loser's; on a draw each player's own card and war cards return
   * to that player's win pile. Both war-card piles are cleared.
   */
  function SettleWar(winner: int, card1: PlayingCard, card2: PlayingCard, w: Game): (r: Game)
    ensures r.Settled() && r.turnCounter == w.turnCounter
    ensures r.p1.deck == w.p1.deck && r.p2.deck == w.p2.deck && r.p1.gen == w.p1.gen && r.p2.gen == w.p2.gen
  {
    if winner == 1 then
      Game(w.p1.(winPile := w.p1.winPile + [card1, card2] + w.p1.warCards + w.p2.warCards, warCards := []),
           w.p2.(warCards := []), w.turnCounter)
    else if winner == 2 then
      Game(w.p1.(warCards := []),
           w.p2.(winPile := w.p2.winPile + [card1, card2] + w.p2.warCards + w.p1.warCards, warCards := []),
           w.turnCounter)
    else
      Game(w.p1.(winPile := w.p1.winPile + [card1] + w.p1.warCards, warCards := []),
           w.p2.(winPile := w.p2.winPile + [card2] + w.p2.warCards, warCards := []),
           w.turnCounter)
  }

  /**
   * The rest of a live turn once card1 and card2 are dealt from d: a tie goes
   * to war and is settled; otherwise the turn's winner takes both cards,
   * card1 first.
   */
  function Resolve(card1: PlayingCard, card2: PlayingCard, d: Game): (r: Game)
    ensures r.turnCounter == d.turnCounter
    ensures card1.rank == card2.rank ==> r.Settled()
    ensures card1.rank != card2.rank ==> r.p1.deck == d.p1.deck && r.p2.deck == d.p2.deck
    ensures card1.rank != card2.rank ==> r.p1.warCards == d.p1.warCards && r.p2.warCards == d.p2.warCards
  {
    if card1.rank == card2.rank then
      var (winner, w) := War(d);
      SettleWar(winner, card1, card2, w)
    else if TurnWinner(card1, card2) == 1 then
      d.(p1 := d.p1.(winPile := d.p1.winPile + [card1, card2]))
    else
      d.(p2 := d.p2.(winPile := d.p2.winPile + [card1, card2]))
  }

  /** One turn: a no-op on a finished game; otherwise deal, compare, and go to war on a tie. */
  function PlayTurn(g: Game): (r: Game)
    ensures r.turnCounter == if GameOver(g) then g.turnCounter else g.turnCounter + 1
  {
    if GameOver(g) then g
    else Resolve(DealtCards(g).0, DealtCards(g).1, AfterDeal(g))
  }

  /** A turn on a finished game changes nothing. */
  lemma PlayTurnOnFinishedGameIsNoOp(g: Game)
    requires GameOver(g)
    ensures PlayTurn(g) == g
  {
  }

  /** Cards that one player gains and the other loses leave the sum of the two hands as it was. */
  lemma TransferKeepsSum(r1: multiset<PlayingCard>, r2: multiset<PlayingCard>, h1: multiset<PlayingCard>,
                         h2: multiset<PlayingCard>, card: PlayingCard, cards: multiset<PlayingCard>)
    requires r1 == h1 + multiset{card} + cards && r2 + multiset{card} + cards == h2
    ensures r1 + r2 == h1 + h2 && r2 + r1 == h2 + h1
  {
  }

  /** A tied turn from a settled game conserves the cards of the two players together. */
  lemma PlayTurnTiedConservesCards(g: Game)
    requires !GameOver(g) && g.Settled()
    requires DealtCards(g).0.rank == DealtCards(g).1.rank
    ensures PlayTurn(g).Settled()
    ensures PlayTurn(g).p1.Hand() + PlayTurn(g).p2.Hand() == g.p1.Hand() + g.p2.Hand()
  {
    var r := PlayTurn(g);
    var cards := DealtCards(g);
    var e := War(AfterDeal(g));
    PlayTurnTiedOutcome(g);
    if e.0 == 1 {
      TransferKeepsSum(r.p1.Hand(), r.p2.Hand(), g.p1.Hand(), g.p2.Hand(), cards.1, multiset(e.1.p2.warCards));
    } else if e.0 == 2 {
      TransferKeepsSum(r.p2.Hand(), r.p1.Hand(), g.p2.Hand(), g.p1.Hand(), cards.0, multiset(e.1.p1.warCards));
    }
  }

  /** An untied turn conserves the cards of the two players together. */
  lemma PlayTurnUntiedConservesCards(g: Game)
    requires !GameOver(g)
    requires DealtCards(g).0.rank != DealtCards(g).1.rank
    ensures PlayTurn(g).p1.warCards == g.p1.warCards && PlayTurn(g).p2.warCards == g.p2.warCards
    ensures PlayTurn(g).p1.Hand() + PlayTurn(g).p2.Hand() == g.p1.Hand() + g.p2.Hand()
  {
    var r := PlayTurn(g);
    var (card1, card2) := DealtCards(g);
    PlayTurnUntiedMovesLosingCard(g);
    TurnWinnerIsAceHigh(card1, card2);
    if AceHigh(card1.rank) > AceHigh(card2.rank) {
      TransferKeepsSum(r.p1.Hand(), r.p2.Hand(), g.p1.Hand(), g.p2.Hand(), card2, multiset{});
    } else {
      TransferKeepsSum(r.p2.Hand(), r.p1.Hand(), g.p2.Hand(), g.p1.Hand(), card1, multiset{});
    }
  }

  /** A turn creates and destroys no card, and leaves both war-card piles empty. */
  lemma PlayTurnConservesCards(g: Game)
    requires g.Settled()
    ensures PlayTurn(g).Settled()
    ensures PlayTurn(g).p1.Hand() + PlayTurn(g).p2.Hand() == g.p1.Hand() + g.p2.Hand()
  {
    if !GameOver(g) {
      if DealtCards(g).0.rank == DealtCards(g).1.rank {
        PlayTurnTiedConservesCards(g);
      } else {
        PlayTurnUntiedConservesCards(g);
      }
    }
  }

  /**
   * An untied turn moves exactly one card: the loser's dealt card goes to the
   * winner, who is the owner of the Ace-high stronger card; the war-card
   * piles are untouched.
   */
  lemma PlayTurnUntiedMovesLosingCard(g: Game)
    requires !GameOver(g)
    requires DealtCards(g).0.rank != DealtCards(g).1.rank
    ensures var (card1, card2) := DealtCards(g);
      var r := PlayTurn(g);
      && r.p1.warCards == g.p1.warCards && r.p2.warCards == g.p2.warCards
      && (AceHigh(card1.rank) > AceHigh(card2.rank) ==>
            r.p1.Hand() == g.p1.Hand() + multiset{card2} && r.p2.Hand() + multiset{card2} == g.p2.Hand())
      && (AceHigh(card2.rank) > AceHigh(card1.rank) ==>
            r.p2.Hand() == g.p2.Hand() + multiset{card1} && r.p1.Hand() + multiset{card1} == g.p1.Hand())
  {
    var (card1, card2) := DealtCards(g);
    var d := AfterDeal(g);
    AfterDealTakesDealtCards(g);
    PlayTurnUntiedAppendsDealtCards(g);
    if AceHigh(card1.rank) > AceHigh(card2.rank) {
      AwardAddsBothCards(d.p1, card1, card2);
    } else {
      AwardAddsBothCards(d.p2, card1, card2);
    }
  }

  /** A player awarded two cards holds exactly those two cards more. */
  lemma AwardAddsBothCards(p: Player, card1: PlayingCard, card2: PlayingCard)
    ensures p.(winPile := p.winPile + [card1, card2]).Hand() == p.Hand() + multiset{card1} + multiset{card2}
    ensures p.(winPile := p.winPile + [card1, card2]).warCards == p.warCards
  {
  }

  /**
   * An untied turn appends the two dealt cards, card1 then card2, to the win
   * pile of the owner of the Ace-high stronger card, and changes nothing else
   * after the deal.
   */
  lemma PlayTurnUntiedAppendsDealtCards(g: Game)
    requires !GameOver(g)
    requires DealtCards(g).0.rank != DealtCards(g).1.rank
    ensures var (card1, card2) := DealtCards(g);
      var d := AfterDeal(g);
      && (AceHigh(card1.rank) > AceHigh(card2.rank) ==>
            PlayTurn(g) == d.(p1 := d.p1.(winPile := d.p1.winPile + [card1, card2])))
      && (AceHigh(card2.rank) > AceHigh(card1.rank) ==>
            PlayTurn(g) == d.(p2 := d.p2.(winPile := d.p2.winPile + [card1, card2])))
  {
    TurnWinnerIsAceHigh(DealtCards(g).0, DealtCards(g).1);
  }

  /**
   * A tied turn hands the cards out in a fixed order after the war: the
   * winner's pile gets card1, card2, the winner's war cards, then the
   * loser's; on a draw each pile gets its owner's dealt card and war cards.
   * The decks are left as the war left them and both war-card piles are empty.
   */
  lemma PlayTurnTiedAppendsInOrder(g: Game)
    requires !GameOver(g)
    requires DealtCards(g).0.rank == DealtCards(g).1.rank
    ensures var (card1, card2) := DealtCards(g);
      var (winner, w) := War(AfterDeal(g));
      var r := PlayTurn(g);
      && r.Settled() && r.p1.deck == w.p1.deck && r.p2.deck == w.p2.deck
      && (winner == 1 ==> r.p1.winPile == w.p1.winPile + [card1, card2] + w.p1.warCards + w.p2.warCards
                          && r.p2.winPile == w.p2.winPile)
      && (winner == 2 ==> r.p2.winPile == w.p2.winPile + [card1, card2] + w.p2.warCards + w.p1.warCards
                          && r.p1.winPile == w.p1.winPile)
      && (winner == 3 ==> r.p1.winPile == w.p1.winPile + [card1] + w.p1.warCards
                          && r.p2.winPile == w.p2.winPile + [card2] + w.p2.warCards)
  {
  }

  /**
   * A tied turn: on a draw each player ends with exactly the cards they held;
   * otherwise the war's winner gains the loser's dealt card and war cards,
   * which are exactly what the loser gives up.
   */
  lemma PlayTurnTiedOutcome(g: Game)
    requires !GameOver(g) && g.Settled()
    requires DealtCards(g).0.rank == DealtCards(g).1.rank
    ensures var (card1, card2) := DealtCards(g);
      var (winner, w) := War(AfterDeal(g));
      var r := PlayTurn(g);
      && r.Settled()
      && (winner == 3 ==> r.p1.Hand() == g.p1.Hand() && r.p2.Hand() == g.p2.Hand())
      && (winner == 1 ==> r.p1.Hand() == g.p1.Hand() + multiset{card2} + multiset(w.p2.warCards)
                          && r.p2.Hand() + multiset{card2} + multiset(w.p2.warCards) == g.p2.Hand())
      && (winner == 2 ==> r.p2.Hand() == g.p2.Hand() + multiset{card1} + multiset(w.p1.warCards)
                          && r.p1.Hand() + multiset{card1} + multiset(w.p1.warCards) == g.p1.Hand())
  {
    var (card1, card2) := DealtCards(g);
    var g2 := AfterDeal(g);
    AfterDealTakesDealtCards(g);
    var (winner, w) := War(g2);
    WarKeepsOwnCards(g2);
    assert w.p1.Own() == g2.p1.Hand() && w.p2.Own() == g2.p2.Hand();
    assert PlayTurn(g) == SettleWar(winner, card1, card2, w);
    if winner == 1 {
      SettleWarPlayerOneWins(card1, card2, w, g.p1.Hand(), g.p2.Hand());
    } else if winner == 2 {
      SettleWarPlayerTwoWins(card1, card2, w, g.p1.Hand(), g.p2.Hand());
    } else {
      SettleWarDraw(winner, card1, card2, w, g.p1.Hand(), g.p2.Hand());
    }
  }

  /**
   * Settling a war that player one won, when the players held h1 and h2
   * before dealing card1 and card2: player one gains player two's dealt card
   * and war cards, and player two loses exactly those.
   */
  lemma SettleWarPlayerOneWins(card1: PlayingCard, card2: PlayingCard, w: Game,
                               h1: multiset<PlayingCard>, h2: multiset<PlayingCard>)
    requires w.p1.Own() + multiset{card1} == h1 && w.p2.Own() + multiset{card2} == h2
    ensures var r := SettleWar(1, card1, card2, w);
      && r.p1.Hand() == h1 + multiset{card2} + multiset(w.p2.warCards)
      && r.p2.Hand() + multiset{card2} + multiset(w.p2.warCards) == h2
  {
    var r := SettleWar(1, card1, card2, w);
    assert r.p1.winPile == w.p1.winPile + [card1, card2] + w.p1.warCards + w.p2.warCards;
    assert r.p2.Hand() == w.p2.Hand();
  }

  /** Settling a war that player two won: the mirror image of SettleWarPlayerOneWins. */
  lemma SettleWarPlayerTwoWins(card1: PlayingCard, card2: PlayingCard, w: Game,
                               h1: multiset<PlayingCard>, h2: multiset<PlayingCard>)
    requires w.p1.Own() + multiset{card1} == h1 && w.p2.Own() + multiset{card2} == h2
    ensures var r := SettleWar(2, card1, card2, w);
      && r.p2.Hand() == h2 + multiset{card1} + multiset(w.p1.warCards)
      && r.p1.Hand() + multiset{card1} + multiset(w.p1.warCards) == h1
  {
    var r := SettleWar(2, card1, card2, w);
    assert r.p2.winPile == w.p2.winPile + [card1, card2] + w.p2.warCards + w.p1.warCards;
    assert r.p1.Hand() == w.p1.Hand();
  }

  /** Settling a drawn war gives each player back exactly the cards they held before the deal. */
  lemma SettleWarDraw(winner: int, card1: PlayingCard, card2: PlayingCard, w: Game,
                      h1: multiset<PlayingCard>, h2: multiset<PlayingCard>)
    requires winner != 1 && winner != 2
    requires w.p1.Own() + multiset{card1} == h1 && w.p2.Own() + multiset{card2} == h2
    ensures SettleWar(winner, card1, card2, w).p1.Hand() == h1
    ensures SettleWar(winner, card1, card2, w).p2.Hand() == h2
  {
    var r := SettleWar(winner, card1, card2, w);
    assert r.p1.winPile == w.p1.winPile + [card1] + w.p1.warCards;
    assert r.p2.winPile == w.p2.winPile + [card2] + w.p2.warCards;
  }

  /** The custom-input rule: an odd number of cards loses its last card. */
  function Trim(cards: seq<PlayingCard>): (t: seq<PlayingCard>)
    ensures |t| % 2 == 0 && |t| == |cards| - |cards| % 2 && t <= cards
    ensures |cards| % 2 == 1 ==> cards == t + [cards[|cards| - 1]]
  {
    if |cards| % 2 == 1 then cards[..|cards| - 1] else cards
  }

  /**
   * Alternate dealing from the top of a deck, two cards at a time: player
   * one gets the top card, player two the next, and so on. Each hand lists
   * its cards in the order dealt. Only even-sized decks are dealt: on an
   * odd one the last deal would find the deck empty.
   */
  function DealAlternately(s: seq<PlayingCard>): (hands: (seq<PlayingCard>, seq<PlayingCard>))
    requires |s| % 2 == 0
    ensures |hands.0| == |hands.1| == |s| / 2
    decreases |s|
  {
    if s == [] then ([], [])
    else
      var rest := DealAlternately(s[..|s| - 2]);
      ([s[|s| - 1]] + rest.0, [s[|s| - 2]] + rest.1)
  }

  /** Concatenation is associative. */
  lemma AppendAssoc<T>(a: seq<T>, b: seq<T>, c: seq<T>)
    ensures a + b + c == a + (b + c)
  {
  }

  /** Dealing the top two cards onto the piles w1 and w2 and then the rest deals the whole deck. */
  lemma DealAlternatelyStep(w1: seq<PlayingCard>, w2: seq<PlayingCard>, s: seq<PlayingCard>)
    requires |s| >= 2 && |s| % 2 == 0
    ensures w1 + [s[|s| - 1]] + DealAlternately(s[..|s| - 2]).0 == w1 + DealAlternately(s).0
    ensures w2 + [s[|s| - 2]] + DealAlternately(s[..|s| - 2]).1 == w2 + DealAlternately(s).1
  {
    var n := |s|;
    var rest := DealAlternately(s[..n - 2]);
    assert DealAlternately(s).0 == [s[n - 1]] + rest.0;
    AppendAssoc(w1, [s[n - 1]], rest.0);
    assert DealAlternately(s).1 == [s[n - 2]] + rest.1;
    AppendAssoc(w2, [s[n - 2]], rest.1);
  }

  /** A deck of two or more cards is the deck under its top two cards, then those two cards. */
  lemma DropTopTwo(s: seq<PlayingCard>)
    requires |s| >= 2
    ensures multiset(s) == multiset(s[..|s| - 2]) + multiset{s[|s| - 2]} + multiset{s[|s| - 1]}
  {
    assert s == s[..|s| - 1] + [s[|s| - 1]];
    assert s[..|s| - 1] == s[..|s| - 2] + [s[|s| - 2]];
  }

  /** Alternate dealing splits the deck into two halves of equal size that together are the deck. */
  lemma {:induction false} DealAlternatelySplitsEvenly(s: seq<PlayingCard>)
    requires |s| % 2 == 0
    ensures |DealAlternately(s).0| == |s| / 2 && |DealAlternately(s).1| == |s| / 2
    ensures multiset(DealAlternately(s).0) + multiset(DealAlternately(s).1) == multiset(s)
  {
    if s != [] {
      var n := |s|;
      DealAlternatelySplitsEvenly(s[..n - 2]);
      DropTopTwo(s);
    }
  }

  /**
   * Initialisation from an even-sized list of cards: shuffle it with the
   * dealing deck's generator, deal alternately onto the win piles, then make
   * each win pile its owner's deck and clear the win piles.
   */
  function Initialize(g: Game, cards: seq<PlayingCard>, dealGen: RandomGen): (r: Game)
    requires |cards| % 2 == 0
    ensures r.Total() == |g.p1.winPile| + |g.p2.winPile| + |cards|
  {
    var hands := DealAlternately(KnuthShuffled(cards, dealGen.Indices(|cards|)));
    Game(g.p1.(deck := g.p1.winPile + hands.0, winPile := []),
         g.p2.(deck := g.p2.winPile + hands.1, winPile := []),
         g.turnCounter)
  }

  /**
   * Initialisation hands each player half of the cards on top of their old
   * win pile, which becomes their deck; together the new cards are a
   * permutation of the input; generators, war piles and counter are kept.
   */
  lemma InitializeDealsHalves(g: Game, cards: seq<PlayingCard>, dealGen: RandomGen)
    requires |cards| % 2 == 0
    ensures var r := Initialize(g, cards, dealGen);
      && |r.p1.deck| == |g.p1.winPile| + |cards| / 2 && |r.p2.deck| == |g.p2.winPile| + |cards| / 2
      && r.p1.winPile == [] && r.p2.winPile == []
      && r.p1.Hand() + r.p2.Hand() == multiset(g.p1.winPile) + multiset(g.p2.winPile) + multiset(cards)
      && r.p1.warCards == g.p1.warCards && r.p2.warCards == g.p2.warCards
      && r.turnCounter == g.turnCounter && r.p1.gen == g.p1.gen && r.p2.gen == g.p2.gen
  {
    var shuffled := KnuthShuffled(cards, dealGen.Indices(|cards|));
    KnuthShuffledIsPermutation(cards, dealGen.Indices(|cards|));
    DealAlternatelySplitsEvenly(shuffled);
  }

  /** A player before the deal: empty piles and the deck's own generator. */
  function Fresh(gen: RandomGen): Player {
    Player([], gen, [], [])
  }

  /** A new game from a custom card list: empty piles, two decks with their own generators, counter zero. */
  function NewGame(cards: seq<PlayingCard>, dealGen: RandomGen, p1Gen: RandomGen, p2Gen: RandomGen): (g: Game)
    ensures g.Total() == |cards| - |cards| % 2 && g.turnCounter == 0
  {
    Initialize(Game(Fresh(p1Gen), Fresh(p2Gen), 0), Trim(cards), dealGen)
  }

  /**
   * A new game gives each player half of the cards, rounded down; together
   * the two decks are a permutation of the cards less the last one of an
   * odd-sized input; win piles and war piles start empty and no turn has
   * been played.
   */
  lemma NewGameDealsEvenly(cards: seq<PlayingCard>, dealGen: RandomGen, p1Gen: RandomGen, p2Gen: RandomGen)
    ensures var g := NewGame(cards, dealGen, p1Gen, p2Gen);
      && |g.p1.deck| == |cards| / 2 && |g.p2.deck| == |cards| / 2
      && (|cards| % 2 == 0 ==> g.p1.Hand() + g.p2.Hand() == multiset(cards))
      && (|cards| % 2 == 1 ==> g.p1.Hand() + g.p2.Hand() + multiset{cards[|cards| - 1]} == multiset(cards))
      && g.p1.winPile == [] && g.p2.winPile == [] && g.Settled() && g.turnCounter == 0
      && g.p1.gen == p1Gen && g.p2.gen == p2Gen
  {
    InitializeDealsHalves(Game(Fresh(p1Gen), Fresh(p2Gen), 0), Trim(cards), dealGen);
  }

  /** Two equal cards shuffle to themselves, whatever the generator draws. */
  lemma ShuffleOfTwinsIsFixed(c: PlayingCard, dealGen: RandomGen)
    ensures KnuthShuffled([c, c], dealGen.Indices(2)) == [c, c]
  {
    var s := KnuthShuffled([c, c], dealGen.Indices(2));
    KnuthShuffledIsPermutation([c, c], dealGen.Indices(2));
    assert s[0] in multiset([c, c]) && s[1] in multiset([c, c]);
  }

  /**
   * Two Aces of Spades: the first turn ties, the war finds both decks and
   * win piles empty and is a draw, and each player gets their own Ace back.
   */
  lemma TwoAcesScenario(dealGen: RandomGen, p1Gen: RandomGen, p2Gen: RandomGen)
    ensures var ace := PlayingCard(Spades, Ace);
      var g := NewGame([ace, ace], dealGen, p1Gen, p2Gen);
      && g.p1.deck == [ace] && g.p2.deck == [ace]
      && War(AfterDeal(g)).0 == 3
      && PlayTurn(g).p1.winPile == [ace] && PlayTurn(g).p2.winPile == [ace]
      && PlayTurn(g).p1.deck == [] && PlayTurn(g).p2.deck == [] && PlayTurn(g).turnCounter == 1
      && PlayTurn(g) == Game(AceInWinPile(p1Gen), AceInWinPile(p2Gen), 1)
  {
    var ace := PlayingCard(Spades, Ace);
    TwoAcesNewGame(dealGen, p1Gen, p2Gen);
    var g := Game(Player([ace], p1Gen, [], []), Player([ace], p2Gen, [], []), 0);
    assert TurnStart(g) == g.(turnCounter := 1);
    var g2 := AfterDeal(g);
    assert g2 == Game(Fresh(p1Gen), Fresh(p2Gen), 1);
    WarWithoutCardsIsDraw(g2);
    assert PlayTurn(g) == SettleWar(3, ace, ace, g2);
  }

  /** A new game from two Aces of Spades gives each player one Ace in the deck. */
  lemma TwoAcesNewGame(dealGen: RandomGen, p1Gen: RandomGen, p2Gen: RandomGen)
    ensures var ace := PlayingCard(Spades, Ace);
      NewGame([ace, ace], dealGen, p1Gen, p2Gen) == Game(Player([ace], p1Gen, [], []), Player([ace], p2Gen, [], []), 0)
  {
    var ace := PlayingCard(Spades, Ace);
    ShuffleOfTwinsIsFixed(ace, dealGen);
    var none: seq<PlayingCard> := [];
    var two := [ace, ace];
    assert two[..|two| - 2] == none && DealAlternately(none) == (none, none);
    assert DealAlternately(two) == ([two[1]] + none, [two[0]] + none);
  }

  /** A war between two players without a card left is a draw that changes nothing. */
  lemma WarWithoutCardsIsDraw(g: Game)
    requires g.p1.Out() && g.p2.Out()
    ensures War(g) == (3, g)
  {
    KnuthShuffledEmpty(g.p1.winPile, g.p1.gen.Indices(0));
    KnuthShuffledEmpty(g.p2.winPile, g.p2.gen.Indices(0));
    assert Replenish(g) == g;
  }

  /** A single card shuffles to itself: its only draw is its own position. */
  lemma ShuffleOfOneIsFixed(c: PlayingCard, gen: RandomGen)
    ensures KnuthShuffled([c], gen.Indices(1)) == [c]
  {
    var rs := gen.Indices(1);
    assert rs[0] == 0;
    assert SwapPrefix([c], rs, 1) == Swap([c], 0, 0);
  }

  /** A player whose only card is an Ace of Spades, lying in the win pile. */
  function AceInWinPile(gen: RandomGen): Player {
    Player([], gen, [PlayingCard(Spades, Ace)], [])
  }

  /** From the two-Aces layout each player refills the deck with their Ace and deals it. */
  lemma TwoAcesDeal(gen1: RandomGen, gen2: RandomGen, n: nat)
    ensures var g := Game(AceInWinPile(gen1), AceInWinPile(gen2), n);
      && !GameOver(g)
      && DealtCards(g) == (PlayingCard(Spades, Ace), PlayingCard(Spades, Ace))
      && AfterDeal(g) == Game(Fresh(gen1.Advance(1)), Fresh(gen2.Advance(1)), n + 1)
  {
    var ace := PlayingCard(Spades, Ace);
    var g := Game(AceInWinPile(gen1), AceInWinPile(gen2), n);
    ShuffleOfOneIsFixed(ace, gen1);
    ShuffleOfOneIsFixed(ace, gen2);
    assert TurnStart(g) == Game(Player([ace], gen1.Advance(1), [], []), Player([ace], gen2.Advance(1), [], []), n + 1);
  }

  /**
   * Each player holding one Ace of Spades in the win pile is a live game,
   * and a turn from it comes back to the same layout: each deck is refilled
   * with its Ace, the Aces tie, the war is a draw on two empty decks, and
   * each Ace returns to its owner's win pile.
   */
  lemma TwoAcesTurnRepeats(gen1: RandomGen, gen2: RandomGen, n: nat)
    ensures var g := Game(AceInWinPile(gen1), AceInWinPile(gen2), n);
      && !GameOver(g)
      && PlayTurn(g) == Game(AceInWinPile(gen1.Advance(1)), AceInWinPile(gen2.Advance(1)), n + 1)
  {
    var ace := PlayingCard(Spades, Ace);
    var g := Game(AceInWinPile(gen1), AceInWinPile(gen2), n);
    var d := AfterDeal(g);
    TwoAcesDeal(gen1, gen2, n);
    WarWithoutCardsIsDraw(d);
    assert PlayTurn(g) == SettleWar(3, ace, ace, d);
  }
}
