// The shoe: one or two 52-card sets, shuffled, dealt from the front.

module Decks {
  import opened Cards

  /** Upper bound on the number of 52-card sets. */
  const MAX_DECKS: int := 2
  /** Number of sets used when none (or an invalid count) is given. */
  const DEFAULT_DECKS: int := 1

  /** The failure raised when a card is asked of an empty deck. */
  datatype DeckError = DeckEmpty

  datatype Result<T> = Success(value: T) | Failure(error: DeckError)

  /** The deck count actually used for a requested count. */
  function ClampDecks(count: int): (n: int)
    ensures n == 1 || n == 2
    ensures 1 <= count <= MAX_DECKS ==> n == count
    ensures !(1 <= count <= MAX_DECKS) ==> n == DEFAULT_DECKS
  {
    if count < 1 || count > MAX_DECKS then DEFAULT_DECKS else count
  }

  /** A full shoe of `n` sets: 52·n cards, every (suit, rank) pair exactly `n` times. */
  ghost predicate IsFullShoe(cards: multiset<Card>, n: int)
  {
    |cards| == 52 * n && forall c :: cards[c] == n
  }

  /** How many copies of `c` the fill loops have added after `i` whole sets,
      `j` whole suits of the next set and `k` ranks of the suit after those. */
  function FilledCount(i: nat, j: nat, k: nat, c: Card): nat
  {
    i + (if SuitIndex(c.suit) < j || (SuitIndex(c.suit) == j && RankIndex(c.rank) < k) then 1 else 0)
  }

  lemma IndexInjective(a: Card, b: Card)
    requires SuitIndex(a.suit) == SuitIndex(b.suit) && RankIndex(a.rank) == RankIndex(b.rank)
    ensures a == b
  {
  }

  class Deck {
    /** The undrawn cards; index 0 is the top of the deck. */
    var cards: seq<Card>
    /** The clamped number of 52-card sets; fixed at construction. */
    const numberOfDecks: int

    /** Same as `Deck(1)`. The shuffle's random choices are `choose`. */
    constructor Default(choose: nat -> nat)
      ensures numberOfDecks == DEFAULT_DECKS
      ensures IsFullShoe(multiset(cards), DEFAULT_DECKS)
    {
      numberOfDecks := DEFAULT_DECKS;
      cards := [];
      new;
      InitializeDeck(choose);
    }

    /** A deck of `count` sets, clamped to 1 or 2, filled and shuffled. */
    constructor (count: int, choose: nat -> nat)
      ensures numberOfDecks == ClampDecks(count)
      ensures IsFullShoe(multiset(cards), numberOfDecks)
    {
      if count < 1 || count > MAX_DECKS {
        numberOfDecks := DEFAULT_DECKS;
      } else {
        numberOfDecks := count;
      }
      cards := [];
      new;
      InitializeDeck(choose);
    }

    /** Clears the list, adds `numberOfDecks` full sets, then shuffles. */
    method InitializeDeck(choose: nat -> nat)
      requires 1 <= numberOfDecks <= MAX_DECKS
      modifies this
      ensures IsFullShoe(multiset(cards), numberOfDecks)
    {
      cards := [];
      for i := 0 to numberOfDecks
        invariant |cards| == 52 * i
        invariant forall c :: multiset(cards)[c] == i
      {
        for j := 0 to SUITS
          invariant |cards| == 52 * i + 13 * j
          invariant forall c :: multiset(cards)[c] == FilledCount(i, j, 0, c)
        {
          var suit := SuitOf(j);
          for k := 0 to RANKS
            invariant |cards| == 52 * i + 13 * j + k
            invariant forall c :: multiset(cards)[c] == FilledCount(i, j, k, c)
          {
            var card := Card(suit, RankOf(k));
            forall c ensures multiset(cards + [card])[c] == FilledCount(i, j, k + 1, c) {
              if c != card && SuitIndex(c.suit) == j && RankIndex(c.rank) == k {
                IndexInjective(c, card);
              }
            }
            cards := cards + [card];
          }
        }
      }
      Shuffle(choose);
    }

    /**
     * Shuffles in place by Fisher-Yates, as the library shuffle does: for
     * i from the size down to 2, swap positions i-1 and choose(i) mod i.
     * Only the order changes.
     */
    method Shuffle(choose: nat -> nat)
      modifies this
      ensures multiset(cards) == multiset(old(cards))
      ensures |cards| == |old(cards)|
    {
      var i := |cards|;
      while i > 1
        invariant 0 <= i <= |cards|
        invariant |cards| == |old(cards)|
        invariant multiset(cards) == multiset(old(cards))
      {
        var j := choose(i) % i;
        cards := Swap(cards, i - 1, j);
        i := i - 1;
      }
    }

    /**
     * Removes and returns the top card; on an empty deck fails with
     * `DeckEmpty` and changes nothing.
     */
    method DealCard() returns (r: Result<Card>)
      modifies this
      ensures old(cards) == [] ==> r == Failure(DeckEmpty) && cards == old(cards)
      ensures old(cards) != [] ==> r == Success(old(cards)[0]) && cards == old(cards)[1..]
    {
      if cards == [] {
        return Failure(DeckEmpty);
      }
      r := Success(cards[0]);
      cards := cards[1..];
    }

    /** Number of undrawn cards; reads only. */
    method GetCardCount() returns (n: int)
      ensures n == |cards|
    {
      n := |cards|;
    }
  }

  /** Exchanges two positions; only the order changes. */
  function Swap(s: seq<Card>, i: nat, j: nat): (t: seq<Card>)
    requires i < |s| && j < |s|
    ensures |t| == |s| && t[i] == s[j] && t[j] == s[i]
    ensures forall k :: 0 <= k < |s| && k != i && k != j ==> t[k] == s[k]
    ensures multiset(t) == multiset(s)
  {
    s[i := s[j]][j := s[i]]
  }

  /** The deck tests: one set holds 52 cards, two sets 104, and dealing
      from a full set leaves 51. */
  method DeckSizes(choose: nat -> nat) returns (single: int, double: int, afterDeal: int)
    ensures single == 52 && double == 104 && afterDeal == 51
  {
    var deck := new Deck(1, choose);
    single := deck.GetCardCount();
    var twoSets := new Deck(2, choose);
    double := twoSets.GetCardCount();
    var card := deck.DealCard();
    afterDeal := deck.GetCardCount();
  }
}
