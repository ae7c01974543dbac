// A participant's hand and its Ace-adjusted score.

module Players {
  import opened Cards

  /** A hand over this many points is bust. */
  const BLACKJACK: int := 21
  /** What demoting one Ace from 11 to 1 takes off the score. */
  const ACE_DEMOTION: int := 10

  /** Sum of the initial values of the cards (every Ace at 11). */
  function RawSum(hand: seq<Card>): int
  {
    if hand == [] then 0 else RawSum(hand[..|hand| - 1]) + Value(hand[|hand| - 1])
  }

  /** Number of Aces in the hand. */
  function AceCount(hand: seq<Card>): nat
  {
    if hand == [] then 0
    else AceCount(hand[..|hand| - 1]) + (if hand[|hand| - 1].rank == ACE then 1 else 0)
  }

  /** The correction rule: while the total is over 21 and an Ace is still
      counted at 11, count one more Ace as 1. */
  function Demote(total: int, aces: nat): (r: int)
    ensures total - ACE_DEMOTION * aces <= r <= total
    ensures r > BLACKJACK ==> r == total - ACE_DEMOTION * aces
  {
    if total > BLACKJACK && aces > 0 then Demote(total - ACE_DEMOTION, aces - 1) else total
  }

  /**
   * The score of a hand: the raw sum, corrected for Aces. It never exceeds
   * the raw sum nor falls below the sum with every Ace at 1, and it is
   * only over 21 when every Ace is already counted as 1.
   */
  function Score(hand: seq<Card>): (s: int)
    ensures RawSum(hand) - ACE_DEMOTION * AceCount(hand) <= s <= RawSum(hand)
    ensures s > BLACKJACK ==> s == RawSum(hand) - ACE_DEMOTION * AceCount(hand)
  {
    Demote(RawSum(hand), AceCount(hand))
  }

  /**
   * How many Aces the correction demotes, in closed form: none if the raw
   * sum is at most 21; otherwise as many as it takes to reach 21, but no
   * more than there are.
   */
  function Demotions(raw: int, aces: nat): (k: nat)
    ensures k <= aces
  {
    if raw <= BLACKJACK then 0
    else if aces < (raw - BLACKJACK + ACE_DEMOTION - 1) / ACE_DEMOTION then aces
    else (raw - BLACKJACK + ACE_DEMOTION - 1) / ACE_DEMOTION
  }

  /** The correction loop equals its closed form. */
  lemma {:induction false} DemoteClosedForm(raw: int, aces: nat)
    ensures Demote(raw, aces) == raw - ACE_DEMOTION * Demotions(raw, aces)
  {
    if raw > BLACKJACK && aces > 0 {
      DemoteClosedForm(raw - ACE_DEMOTION, aces - 1);
    }
  }

  /**
   * The score is the rule as stated: the number of demoted Aces is the
   * least k in [0, aces] that brings the total to 21 or below, or all of
   * them when no such k exists.
   */
  lemma ScoreIsLeastDemotion(hand: seq<Card>)
    ensures var raw, aces, k := RawSum(hand), AceCount(hand), Demotions(RawSum(hand), AceCount(hand));
      && 0 <= k <= aces
      && Score(hand) == raw - ACE_DEMOTION * k
      && (raw - ACE_DEMOTION * k <= BLACKJACK || k == aces)
      && forall j :: 0 <= j < k ==> raw - ACE_DEMOTION * j > BLACKJACK
  {
    DemoteClosedForm(RawSum(hand), AceCount(hand));
  }

  lemma {:induction false} AceCountBound(hand: seq<Card>)
    ensures AceCount(hand) <= |hand|
    ensures AceCount(hand) == 0 <==> forall i :: 0 <= i < |hand| ==> hand[i].rank != ACE
  {
    if hand != [] {
      var init := hand[..|hand| - 1];
      AceCountBound(init);
      assert forall i :: 0 <= i < |init| ==> init[i] == hand[i];
    }
  }

  /** Without Aces the score is the plain sum of the values. */
  lemma NoAcesScoresRawSum(hand: seq<Card>)
    requires forall i :: 0 <= i < |hand| ==> hand[i].rank != ACE
    ensures Score(hand) == RawSum(hand)
  {
    AceCountBound(hand);
    ScoreIsLeastDemotion(hand);
  }

  /** Appending a card adds its value to the raw sum and counts it if an Ace. */
  lemma SumsSnoc(hand: seq<Card>, c: Card)
    ensures RawSum(hand + [c]) == RawSum(hand) + Value(c)
    ensures AceCount(hand + [c]) == AceCount(hand) + (if c.rank == ACE then 1 else 0)
  {
    assert (hand + [c])[..|hand|] == hand;
  }

  lemma SumsOfThree(a: Card, b: Card, c: Card)
    ensures RawSum([a, b, c]) == Value(a) + Value(b) + Value(c)
    ensures AceCount([a, b, c]) == AceCount([a]) + AceCount([b]) + AceCount([c])
  {
    SumsSnoc([a], b);
    SumsSnoc([a, b], c);
    assert [a] + [b] == [a, b] && [a, b] + [c] == [a, b, c];
  }

  /** The worked examples of the hand tests. */
  lemma ScoreExamples()
    ensures Score([Card(HEARTS, TEN), Card(DIAMONDS, FIVE)]) == 15
    ensures Score([Card(SPADES, ACE), Card(DIAMONDS, SIX)]) == 17
    ensures Score([Card(HEARTS, ACE), Card(CLUBS, TEN), Card(DIAMONDS, EIGHT)]) == 19
    ensures Score([Card(HEARTS, ACE), Card(CLUBS, ACE), Card(DIAMONDS, NINE)]) == 21
    ensures Score([Card(HEARTS, TEN), Card(CLUBS, TEN), Card(DIAMONDS, FIVE)]) == 25
  {
    SumsSnoc([Card(HEARTS, TEN)], Card(DIAMONDS, FIVE));
    assert [Card(HEARTS, TEN)] + [Card(DIAMONDS, FIVE)] == [Card(HEARTS, TEN), Card(DIAMONDS, FIVE)];
    SumsOfThree(Card(HEARTS, ACE), Card(CLUBS, TEN), Card(DIAMONDS, EIGHT));
    SumsOfThree(Card(HEARTS, ACE), Card(CLUBS, ACE), Card(DIAMONDS, NINE));
    SumsOfThree(Card(HEARTS, TEN), Card(CLUBS, TEN), Card(DIAMONDS, FIVE));
  }

  class Player {
    /** The participant's name; fixed at construction. */
    const name: string
    /** The cards held, in the order received. */
    var hand: seq<Card>

    constructor (name: string)
      ensures this.name == name && hand == []
    {
      this.name := name;
      hand := [];
    }

    /** Appends a card at the end; earlier cards stay in place. */
    method AddCard(card: Card)
      modifies this
      ensures hand == old(hand) + [card]
    {
      hand := hand + [card];
    }

    /** Empties the hand. */
    method ClearHand()
      modifies this
      ensures hand == []
    {
      hand := [];
    }

    /**
     * Sums the values and counts the Aces in one pass, then demotes one Ace
     * at a time while the total is over 21. Reads the hand only.
     */
    method GetScore() returns (score: int)
      ensures score == Score(hand)
    {
      score := 0;
      var aceCount := 0;
      for i := 0 to |hand|
        invariant score == RawSum(hand[..i])
        invariant aceCount == AceCount(hand[..i])
      {
        assert hand[..i + 1][..i] == hand[..i];
        score := score + Value(hand[i]);
        if hand[i].rank == ACE {
          aceCount := aceCount + 1;
        }
      }
      assert hand[..|hand|] == hand;
      ghost var raw, aces := score, aceCount;
      while score > BLACKJACK && aceCount > 0
        invariant 0 <= aceCount
        invariant Demote(score, aceCount) == Demote(raw, aces)
      {
        score := score - ACE_DEMOTION;
        aceCount := aceCount - 1;
      }
    }

    /** The name given at construction. */
    method GetName() returns (n: string)
      ensures n == name
    {
      n := name;
    }
  }
}
