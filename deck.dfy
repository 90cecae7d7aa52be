/**
 * A deck of values of any type held in a vector whose back is the top of the
 * deck, shuffled in place by the full-range Knuth/Fisher-Yates swap pass.
 *
 * The pseudo-random generator is an oracle: a fixed stream of raw outputs
 * (fixed by the seed) and the number of outputs already consumed. Every
 * shuffle draws one output per element and maps it into [0, n-1].
 */
module Decks {

  datatype RandomGen = RandomGen(outputs: nat -> nat, drawn: nat) {

    /** One draw from the distribution over [0, bound - 1], and the advanced generator. */
    function Next(bound: nat): (r: (nat, RandomGen))
      requires bound > 0
      ensures r.0 < bound
      ensures r.1.outputs == outputs && r.1.drawn == drawn + 1
    {
      (outputs(drawn) % bound, RandomGen(outputs, drawn + 1))
    }

    /** The generator after n further draws. */
    function Advance(n: nat): (g: RandomGen)
      ensures g.outputs == outputs && g.drawn == drawn + n
    {
      RandomGen(outputs, drawn + n)
    }

    /** The n indices that a shuffle of n elements draws, in order. */
    function Indices(n: nat): (rs: seq<nat>)
      ensures |rs| == n && InRange(rs, n)
    {
      seq(n, k requires 0 <= k < n => outputs(drawn + k) % n)
    }

    /** The draw made after k earlier draws of the same range is the k-th index. */
    lemma DrawIsIndex(k: nat, n: nat)
      requires k < n
      ensures Advance(k).Next(n).0 == Indices(n)[k]
      ensures Advance(k).Next(n).1 == Advance(k + 1)
    {
    }
  }

  predicate InRange(rs: seq<nat>, n: nat) {
    forall k :: 0 <= k < |rs| ==> rs[k] < n
  }

  /** s with the elements at i and j exchanged. */
  function Swap<T>(s: seq<T>, i: nat, j: nat): (r: seq<T>)
    requires i < |s| && j < |s|
    ensures |r| == |s|
  {
    s[i := s[j]][j := s[i]]
  }

  /** An exchange moves the two elements and keeps every element with its multiplicity. */
  lemma SwapExchanges<T>(s: seq<T>, i: nat, j: nat)
    requires i < |s| && j < |s|
    ensures Swap(s, i, j)[i] == s[j] && Swap(s, i, j)[j] == s[i]
    ensures forall k :: 0 <= k < |s| && k != i && k != j ==> Swap(s, i, j)[k] == s[k]
    ensures multiset(Swap(s, i, j)) == multiset(s)
  {
  }

  /**
   * The sequence after the first k steps of the shuffle pass: step k exchanges
   * position k with position rs[k], which may be anywhere in [0, |s| - 1].
   */
  function SwapPrefix<T>(s: seq<T>, rs: seq<nat>, k: nat): (r: seq<T>)
    requires k <= |s| == |rs| && InRange(rs, |s|)
    ensures |r| == |s|
  {
    if k == 0 then s else Swap(SwapPrefix(s, rs, k - 1), k - 1, rs[k - 1])
  }

  /** One step of the pass keeps every element with its multiplicity. */
  lemma SwapStepKeepsElements<T>(s: seq<T>, rs: seq<nat>, k: nat)
    requires 0 < k <= |s| == |rs| && InRange(rs, |s|)
    ensures multiset(SwapPrefix(s, rs, k)) == multiset(SwapPrefix(s, rs, k - 1))
  {
    SwapExchanges(SwapPrefix(s, rs, k - 1), k - 1, rs[k - 1]);
  }

  /** Every prefix of the pass keeps every element with its multiplicity. */
  lemma SwapPrefixKeepsElements<T>(s: seq<T>, rs: seq<nat>, k: nat)
    requires k <= |s| == |rs| && InRange(rs, |s|)
    ensures multiset(SwapPrefix(s, rs, k)) == multiset(s)
  {
    for i := 0 to k
      invariant multiset(SwapPrefix(s, rs, i)) == multiset(s)
    {
      SwapStepKeepsElements(s, rs, i + 1);
    }
  }

  /** The result of the whole pass: exactly |s| swaps, one per position. */
  function KnuthShuffled<T>(s: seq<T>, rs: seq<nat>): (r: seq<T>)
    requires |rs| == |s| && InRange(rs, |s|)
    ensures |r| == |s|
  {
    SwapPrefix(s, rs, |s|)
  }

  /** The shuffle is a permutation: same length, same elements with the same multiplicities. */
  lemma KnuthShuffledIsPermutation<T>(s: seq<T>, rs: seq<nat>)
    requires |rs| == |s| && InRange(rs, |s|)
    ensures |KnuthShuffled(s, rs)| == |s|
    ensures multiset(KnuthShuffled(s, rs)) == multiset(s)
    ensures forall x :: x in KnuthShuffled(s, rs) <==> x in s
  {
    var r := KnuthShuffled(s, rs);
    SwapPrefixKeepsElements(s, rs, |s|);
    forall x ensures x in r <==> x in s {
      assert x in r <==> x in multiset(r);
    }
  }

  /** Shuffling an empty sequence performs no swap and leaves it empty. */
  lemma KnuthShuffledEmpty<T>(s: seq<T>, rs: seq<nat>)
    requires s == [] && rs == []
    ensures KnuthShuffled(s, rs) == []
  {
  }

  /**
   * The full-range pass can send the last element of a two-element sequence
   * back to the end: drawing 1 then 0 swaps twice and ends with the input,
   * a draw sequence that the shrinking-range algorithm never produces
   * (its second step may only draw 1).
   */
  lemma FullRangeDrawsRevisitEarlierPositions<T>(a: T, b: T)
    ensures KnuthShuffled([a, b], [1, 0]) == [a, b]
  {
    assert SwapPrefix([a, b], [1, 0], 1) == [b, a];
  }

  /** Exchanges two elements of an array in place, as std::swap does. */
  method Exchange<T>(data: array<T>, i: nat, j: nat)
    requires i < data.Length && j < data.Length
    modifies data
    ensures data[..] == Swap(old(data[..]), i, j)
  {
    var tmp := data[i];
    data[i] := data[j];
    data[j] := tmp;
  }

  /**
   * The in-place shuffle pass: for each position in order, swap it with a
   * position drawn from the whole range. Returns the advanced generator.
   */
  method KnuthShuffle<T>(data: array<T>, randomGenerator: RandomGen) returns (gen: RandomGen)
    modifies data
    ensures data[..] == KnuthShuffled(old(data[..]), randomGenerator.Indices(data.Length))
    ensures gen == randomGenerator.Advance(data.Length)
  {
    ghost var rs := randomGenerator.Indices(data.Length);
    gen := randomGenerator;
    for i := 0 to data.Length
      invariant gen == randomGenerator.Advance(i)
      invariant data[..] == SwapPrefix(old(data[..]), rs, i)
    {
      randomGenerator.DrawIsIndex(i, data.Length);
      var draw;
      draw, gen := gen.Next(data.Length).0, gen.Next(data.Length).1;
      Exchange(data, i, draw);
    }
  }

  /** Thrown by a deal from an empty deck. */
  datatype EmptyDeckException = EmptyDeckException

  datatype DealResult<T> = Dealt(card: T) | Thrown(error: EmptyDeckException)

  /** A deck: the back of mData is the top of the deck, the front its bottom. */
  class Deck<T> {
    var mData: seq<T>
    var mRandomGen: RandomGen

    constructor(data: seq<T>, randomGenerator: RandomGen)
      ensures mData == data && mRandomGen == randomGenerator
    {
      mData := data;
      mRandomGen := randomGenerator;
    }

    /** Shuffles the deck with its own generator, which advances by one draw per card. */
    method Shuffle()
      modifies this
      ensures mData == KnuthShuffled(old(mData), old(mRandomGen).Indices(|old(mData)|))
      ensures multiset(mData) == multiset(old(mData))
      ensures mRandomGen == old(mRandomGen).Advance(|old(mData)|)
    {
      var d := mData;
      var a := new T[|d|](i requires 0 <= i < |d| => d[i]);
      assert a[..] == d;
      mRandomGen := KnuthShuffle(a, mRandomGen);
      mData := a[..];
      KnuthShuffledIsPermutation(d, old(mRandomGen).Indices(|d|));
    }

    method Empty() returns (empty: bool)
      ensures empty <==> |mData| == 0
    {
      empty := |mData| == 0;
    }

    /** Replaces the contents wholesale; the generator is left as it is. */
    method Assign(data: seq<T>)
      modifies this`mData
      ensures mData == data
    {
      mData := data;
    }

    /**
     * Removes and returns the top card; on an empty deck throws
     * EmptyDeckException and leaves the deck as it is.
     */
    method DealCard() returns (r: DealResult<T>)
      modifies this`mData
      ensures old(mData) == [] ==> r == Thrown(EmptyDeckException) && mData == old(mData)
      ensures old(mData) != [] ==> r == Dealt(old(mData)[|old(mData)| - 1]) && mData == old(mData)[..|old(mData)| - 1]
      ensures old(mData) == mData + (if r.Dealt? then [r.card] else [])
    {
      if mData == [] {
        r := Thrown(EmptyDeckException);
      } else {
        r := Dealt(mData[|mData| - 1]);
        mData := mData[..|mData| - 1];
      }
    }
  }
}
