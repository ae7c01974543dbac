// The dealer: a participant named "Dealer" with a fixed drawing rule.

module Dealers {
  import opened Cards
  import opened Players

  /** The name every dealer carries. */
  const DEALER_NAME: string := "Dealer"
  /** The dealer draws below this score and stands at or above it. */
  const DEALER_STANDS_AT: int := 17

  /** A new dealer: named "Dealer", holding no cards. */
  method NewDealer() returns (d: Player)
    ensures fresh(d)
    ensures d.name == DEALER_NAME && d.hand == []
  {
    d := new Player(DEALER_NAME);
  }

  /** The dealer's rule: hit exactly when the hand scores under 17. Reads only. */
  method ShouldHit(dealer: Player) returns (hit: bool)
    ensures hit <==> Score(dealer.hand) < DEALER_STANDS_AT
  {
    var score := dealer.GetScore();
    hit := score < DEALER_STANDS_AT;
  }

  /** The two dealer tests: TEN+SIX (16) hits, TEN+SEVEN (17) stands. */
  method ShouldHitExamples() returns (onSixteen: bool, onSeventeen: bool)
    ensures onSixteen && !onSeventeen
  {
    var dealer := NewDealer();
    dealer.AddCard(Card(HEARTS, TEN));
    dealer.AddCard(Card(DIAMONDS, SIX));
    NoAcesScoresRawSum(dealer.hand);
    SumsSnoc([Card(HEARTS, TEN)], Card(DIAMONDS, SIX));
    onSixteen := ShouldHit(dealer);

    dealer := NewDealer();
    dealer.AddCard(Card(HEARTS, TEN));
    dealer.AddCard(Card(DIAMONDS, SEVEN));
    NoAcesScoresRawSum(dealer.hand);
    SumsSnoc([Card(HEARTS, TEN)], Card(DIAMONDS, SEVEN));
    onSeventeen := ShouldHit(dealer);
  }
}
