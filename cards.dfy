/**
 * French-suited playing cards of a standard 52-card deck: the suite and rank
 * enumerations, their names, and the builder of the canonical ordered deck.
 */
module Cards {

  /** The four suites; Ord() is the enumerator's value (Clubs = 0 ... Spades = 3). */
  datatype Suite = Clubs | Diamonds | Hearts | Spades {
    function Ord(): (n: int)
      ensures 0 <= n <= 3
    {
      match this
      case Clubs => 0
      case Diamonds => 1
      case Hearts => 2
      case Spades => 3
    }
  }

  /** The thirteen ranks; Ord() is the enumerator's value, Ace low (Ace = 1 ... King = 13). */
  datatype Rank = Ace | Two | Three | Four | Five | Six | Seven | Eight | Nine | Ten | Jack | Queen | King {
    function Ord(): (n: int)
      ensures 1 <= n <= 13
    {
      match this
      case Ace => 1
      case Two => 2
      case Three => 3
      case Four => 4
      case Five => 5
      case Six => 6
      case Seven => 7
      case Eight => 8
      case Nine => 9
      case Ten => 10
      case Jack => 11
      case Queen => 12
      case King => 13
    }
  }

  /** No name contains the blank that separates rank and suite in a card's name. */
  predicate Blankless(s: string) {
    forall k :: 0 <= k < |s| ==> s[k] != ' '
  }

  function SuiteName(suite: Suite): (name: string)
    ensures |name| > 0 && Blankless(name)
  {
    match suite
    case Clubs => "Clubs"
    case Diamonds => "Diamonds"
    case Hearts => "Hearts"
    case Spades => "Spades"
  }

  function RankName(rank: Rank): (name: string)
    ensures 0 < |name| <= 2 && Blankless(name)
  {
    match rank
    case Ace => "A"
    case Two => "2"
    case Three => "3"
    case Four => "4"
    case Five => "5"
    case Six => "6"
    case Seven => "7"
    case Eight => "8"
    case Nine => "9"
    case Ten => "10"
    case Jack => "J"
    case Queen => "Q"
    case King => "K"
  }

  /** Decimal notation of a natural number, most significant digit first. */
  function Decimal(n: nat): (s: string)
    ensures |s| > 0
  {
    var digit := ('0' as int + n % 10) as char;
    if n < 10 then [digit] else Decimal(n / 10) + [digit]
  }

  /** The pip ranks are named by their enumerator value written in decimal. */
  lemma PipRankNamesAreDecimal(rank: Rank)
    requires 2 <= rank.Ord() <= 10
    ensures RankName(rank) == Decimal(rank.Ord())
  {
    if rank == Ten {
      assert Decimal(10) == Decimal(1) + "0";
    }
  }

  /** Distinct suites have distinct names, and so do distinct ranks. */
  lemma NamesAreInjective(s1: Suite, s2: Suite, r1: Rank, r2: Rank)
    ensures SuiteName(s1) == SuiteName(s2) ==> s1 == s2
    ensures RankName(r1) == RankName(r2) ==> r1 == r2
  {
  }

  datatype PlayingCard = PlayingCard(suite: Suite, rank: Rank) {

    /**
     * The card's name: rank name, one blank, suite name; between "A Clubs"
     * and "10 Diamonds" it is 7 to 11 characters long.
     */
    function Str(): (name: string)
      ensures 7 <= |name| <= 11 && name[|RankName(rank)|] == ' '
    {
      RankName(rank) + " " + SuiteName(suite)
    }
  }

  /** The accessors return exactly what the card was constructed with. */
  lemma AccessorsReturnConstructorArguments(suite: Suite, rank: Rank)
    ensures PlayingCard(suite, rank).suite == suite && PlayingCard(suite, rank).rank == rank
  {
  }

  /**
   * A card's name is its rank name and its suite name around a blank, and it
   * identifies the card: two cards with the same name are the same card.
   */
  lemma {:induction false} StrIdentifiesCard(c1: PlayingCard, c2: PlayingCard)
    ensures c1.Str()[..|RankName(c1.rank)|] == RankName(c1.rank)
    ensures c1.Str()[|RankName(c1.rank)|] == ' '
    ensures c1.Str()[|RankName(c1.rank)| + 1..] == SuiteName(c1.suite)
    ensures c1.Str() == c2.Str() ==> c1 == c2
  {
    var n1, n2 := RankName(c1.rank), RankName(c2.rank);
    var s := c1.Str();
    assert s == n1 + " " + SuiteName(c1.suite);
    assert s[..|n1|] == n1;
    assert s[|n1| + 1..] == SuiteName(c1.suite);
    if s == c2.Str() {
      // The first blank of the name ends the rank name, so both rank names have the same length.
      assert s[|n1|] == ' ' && forall k :: 0 <= k < |n1| ==> s[k] != ' ';
      assert c2.Str()[|n2|] == ' ' && forall k :: 0 <= k < |n2| ==> c2.Str()[k] != ' ';
      assert |n1| == |n2|;
      assert n1 == s[..|n1|] == c2.Str()[..|n2|] == n2;
      assert SuiteName(c1.suite) == s[|n1| + 1..] == c2.Str()[|n2| + 1..] == SuiteName(c2.suite);
      NamesAreInjective(c1.suite, c2.suite, c1.rank, c2.rank);
    }
  }

  /** The suite order of the standard deck. */
  const Suites: seq<Suite> := [Clubs, Diamonds, Hearts, Spades]

  /** The rank order of the standard deck within each suite: King down to Ace. */
  const Ranks: seq<Rank> := [King, Queen, Jack, Ten, Nine, Eight, Seven, Six, Five, Four, Three, Two, Ace]

  lemma SuitesAndRanksAreIndexedByOrd(suite: Suite, rank: Rank)
    ensures |Suites| == 4 && |Ranks| == 13
    ensures Suites[suite.Ord()] == suite
    ensures Ranks[13 - rank.Ord()] == rank
    ensures forall i :: 0 <= i < 4 ==> Suites[i].Ord() == i
    ensures forall i :: 0 <= i < 13 ==> Ranks[i].Ord() == 13 - i
  {
  }

  /**
   * The canonical standard deck: index i holds the suite i / 13 of the suite
   * order and the rank i % 13 of the rank order.
   */
  function StandardDeck(): (deck: seq<PlayingCard>)
    ensures |deck| == 52
  {
    seq(52, i requires 0 <= i < 52 => PlayingCard(Suites[i / 13], Ranks[i % 13]))
  }

  /** In a sequence without repetitions every element occurs exactly once. */
  lemma {:induction false} DistinctElementsOccurOnce(s: seq<PlayingCard>)
    requires forall i, j :: 0 <= i < j < |s| ==> s[i] != s[j]
    ensures forall c :: c in s ==> multiset(s)[c] == 1
  {
    if s != [] {
      var init := s[..|s| - 1];
      DistinctElementsOccurOnce(init);
      assert s == init + [s[|s| - 1]];
      assert s[|s| - 1] !in init;
    }
  }

  /**
   * The 52 cards of a standard deck, suite by suite (Clubs, Diamonds, Hearts,
   * Spades), each suite from King down to Ace.
   */
  method BuildStandardDeck() returns (deck: seq<PlayingCard>)
    ensures deck == StandardDeck()
    ensures |deck| == 52
    ensures forall i :: 0 <= i < |deck| ==> deck[i].suite.Ord() == i / 13 && deck[i].rank.Ord() == 13 - i % 13
    ensures forall i, j :: 0 <= i < j < |deck| ==> deck[i] != deck[j]
    ensures forall c: PlayingCard :: c in deck
    ensures forall c: PlayingCard :: multiset(deck)[c] == 1
  {
    deck := [];
    for si := 0 to |Suites|
      invariant |deck| == 13 * si
      invariant forall i :: 0 <= i < |deck| ==> deck[i] == PlayingCard(Suites[i / 13], Ranks[i % 13])
    {
      for ri := 0 to |Ranks|
        invariant |deck| == 13 * si + ri
        invariant forall i :: 0 <= i < |deck| ==> deck[i] == PlayingCard(Suites[i / 13], Ranks[i % 13])
      {
        deck := deck + [PlayingCard(Suites[si], Ranks[ri])];
      }
    }
    SuitesAndRanksAreIndexedByOrd(Clubs, Ace);
    forall i, j | 0 <= i < j < |deck| ensures deck[i] != deck[j] {
      assert i / 13 != j / 13 || i % 13 != j % 13;
    }
    forall c: PlayingCard ensures c in deck {
      SuitesAndRanksAreIndexedByOrd(c.suite, c.rank);
      var i := 13 * c.suite.Ord() + (13 - c.rank.Ord());
      assert i / 13 == c.suite.Ord() && i % 13 == 13 - c.rank.Ord();
      assert deck[i] == c;
    }
    DistinctElementsOccurOnce(deck);
  }
}
