// One round of Blackjack: deal, player turn, dealer turn, resolution.

module Game {
  import opened Cards
  import opened Decks
  import opened Players
  import opened Dealers

  predicate StartsWith(s: string, prefix: string)
  {
    |prefix| <= |s| && s[..|prefix|] == prefix
  }

  /** Where a round stands, in the priority order of the resolution rule. */
  datatype Outcome =
    | InProgress    // the round is not over yet
    | PlayerBust    // the player went over 21
    | DealerBust    // the dealer went over 21 (the player did not)
    | PlayerHigher  // both at most 21, the player higher
    | DealerHigher  // both at most 21, the dealer higher
    | Tie           // both at most 21 and equal

  /**
   * The resolution rule as an if-chain: the first of bust, dealer bust,
   * higher, lower that applies decides; otherwise a tie. Each outcome is
   * characterised below on its own, without reference to the order.
   */
  function Resolve(over: bool, player: int, dealer: int): (o: Outcome)
    ensures o == InProgress <==> !over
    ensures o == PlayerBust <==> over && player > BLACKJACK
    ensures o == DealerBust <==> over && player <= BLACKJACK && dealer > BLACKJACK
    ensures o == PlayerHigher <==> over && player <= BLACKJACK && dealer <= BLACKJACK && player > dealer
    ensures o == DealerHigher <==> over && player <= BLACKJACK && dealer <= BLACKJACK && player < dealer
    ensures o == Tie <==> over && player <= BLACKJACK && dealer <= BLACKJACK && player == dealer
  {
    if !over then InProgress
    else if player > BLACKJACK then PlayerBust
    else if dealer > BLACKJACK then DealerBust
    else if player > dealer then PlayerHigher
    else if player < dealer then DealerHigher
    else Tie
  }

  predicate PlayerWins(o: Outcome) { o == DealerBust || o == PlayerHigher }
  predicate DealerWins(o: Outcome) { o == PlayerBust || o == DealerHigher }

  /** The label shown for an outcome. It starts with "You won" exactly when
      the player wins, and with "You lost" exactly when the dealer wins. */
  function Message(o: Outcome): (msg: string)
    ensures PlayerWins(o) <==> StartsWith(msg, "You won")
    ensures DealerWins(o) <==> StartsWith(msg, "You lost")
  {
    match o
    case InProgress => "Game in progress"
    case PlayerBust => assert "You lost (Too much)!"[4] == 'l'; "You lost (Too much)!"
    case DealerBust => assert "You won (Dealer busted)!"[4] == 'w'; "You won (Dealer busted)!"
    case PlayerHigher => "You won!"
    case DealerHigher => "You lost!"
    case Tie => "Tie!"
  }

  /** Every outcome has its own label, so the label tells the outcome. */
  lemma MessageInjective(a: Outcome, b: Outcome)
    requires Message(a) == Message(b)
    ensures a == b
  {
  }

  /**
   * Who wins a finished round, without the if-chain: the player when not
   * bust and the dealer is bust or lower; the dealer when the player is
   * bust, or neither is and the dealer is higher; a tie otherwise.
   */
  lemma ResolveWinner(player: int, dealer: int)
    ensures PlayerWins(Resolve(true, player, dealer))
        <==> player <= BLACKJACK && (dealer > BLACKJACK || player > dealer)
    ensures DealerWins(Resolve(true, player, dealer))
        <==> player > BLACKJACK || (dealer <= BLACKJACK && player < dealer)
    ensures Resolve(true, player, dealer) == Tie
        <==> player <= BLACKJACK && dealer <= BLACKJACK && player == dealer
    ensures Resolve(true, player, dealer) != InProgress
  {
  }

  /** A bust player loses whatever the dealer holds, even a bust dealer. */
  lemma BustPlayerLoses(player: int, dealer: int)
    requires player > BLACKJACK
    ensures Message(Resolve(true, player, dealer)) == "You lost (Too much)!"
  {
  }

  /** The resolution examples: 20 vs 17 wins, 22 vs 18 loses, 19 vs 23 wins, 18 vs 18 ties. */
  lemma ResolveExamples()
    ensures Message(Resolve(true, 20, 17)) == "You won!"
    ensures Message(Resolve(true, 22, 18)) == "You lost (Too much)!"
    ensures Message(Resolve(true, 19, 23)) == "You won (Dealer busted)!"
    ensures Message(Resolve(true, 18, 18)) == "Tie!"
  {
  }

  /** Dealing P, D, P, D from a shoe splits its cards between the hands and the rest. */
  lemma DealKeepsCards(shoe: seq<Card>)
    requires |shoe| >= 4
    ensures multiset([shoe[0], shoe[2]]) + multiset([shoe[1], shoe[3]]) + multiset(shoe[4..]) == multiset(shoe)
  {
    assert shoe == [shoe[0], shoe[1], shoe[2], shoe[3]] + shoe[4..];
  }

  /** Cards drawn from the top of a deck into a hand are neither lost nor gained. */
  lemma DrawKeepsCards(hand0: seq<Card>, hand: seq<Card>, cards0: seq<Card>, cards: seq<Card>, other: seq<Card>)
    requires |hand0| <= |hand| && hand[..|hand0|] == hand0
    requires cards0 == hand[|hand0|..] + cards
    ensures multiset(hand) + multiset(other) + multiset(cards) == multiset(hand0) + multiset(other) + multiset(cards0)
    ensures multiset(other) + multiset(hand) + multiset(cards) == multiset(other) + multiset(hand0) + multiset(cards0)
  {
    assert hand == hand0 + hand[|hand0|..];
  }

  /** Where the dealer's turn ends: the final hand, the undrawn cards, and
      whether the deck ran out while the dealer still had to draw. */
  datatype DealerRun = DealerRun(hand: seq<Card>, rest: seq<Card>, ranOut: bool)

  /**
   * The dealer's turn on a hand and a deck: stand at 17 or more; otherwise
   * take the top card and go on; an empty deck when a card is needed ends
   * the turn as a failure.
   */
  function DealerTurn(hand: seq<Card>, cards: seq<Card>): (run: DealerRun)
    ensures !run.ranOut ==> Score(run.hand) >= DEALER_STANDS_AT
    ensures run.ranOut ==> run.rest == [] && Score(run.hand) < DEALER_STANDS_AT
    decreases |cards|
  {
    if Score(hand) >= DEALER_STANDS_AT then DealerRun(hand, cards, false)
    else if cards == [] then DealerRun(hand, cards, true)
    else DealerTurn(hand + [cards[0]], cards[1..])
  }

  /** The dealer's hand only grows, by exactly the top cards of the deck, in order. */
  lemma {:induction false} DealerTurnDrawsFromTop(hand: seq<Card>, cards: seq<Card>)
    ensures var run := DealerTurn(hand, cards);
      && |hand| <= |run.hand|
      && run.hand[..|hand|] == hand
      && cards == run.hand[|hand|..] + run.rest
    decreases |cards|
  {
    if Score(hand) < DEALER_STANDS_AT && cards != [] {
      var next := hand + [cards[0]];
      DealerTurnDrawsFromTop(next, cards[1..]);
      var run := DealerTurn(next, cards[1..]);
      assert DealerTurn(hand, cards) == run;
      TakeOneMore(hand, cards[0], cards[1..], run.hand, run.rest);
      assert cards == [cards[0]] + cards[1..];
    }
  }

  /** One step of `DealerTurnDrawsFromTop`: a final hand that extends
      `hand + [c]` by the top of `rest` extends `hand` by the top of `[c] + rest`. */
  lemma TakeOneMore(hand: seq<Card>, c: Card, rest: seq<Card>, final: seq<Card>, left: seq<Card>)
    requires |hand| + 1 <= |final| && final[..|hand| + 1] == hand + [c]
    requires rest == final[|hand| + 1..] + left
    ensures |hand| <= |final| && final[..|hand|] == hand
    ensures [c] + rest == final[|hand|..] + left
  {
    assert final[..|hand| + 1][..|hand|] == final[..|hand|];
    assert final[|hand|..] == [c] + final[|hand| + 1..] by {
      assert final[|hand|] == (hand + [c])[|hand|];
    }
  }

  /** Every card the dealer takes is taken on a score under 17. */
  lemma {:induction false} DealerTurnDrawsUnder17(hand: seq<Card>, cards: seq<Card>)
    ensures var run := DealerTurn(hand, cards);
      forall j :: |hand| <= j < |run.hand| ==> Score(run.hand[..j]) < DEALER_STANDS_AT
    decreases |cards|
  {
    if Score(hand) < DEALER_STANDS_AT && cards != [] {
      var next := hand + [cards[0]];
      DealerTurnDrawsUnder17(next, cards[1..]);
      DealerTurnDrawsFromTop(next, cards[1..]);
      var run := DealerTurn(next, cards[1..]);
      assert run.hand[..|hand|] == hand by {
        assert run.hand[..|next|][..|hand|] == run.hand[..|hand|];
      }
    }
  }

  /** The dealer's turn neither loses nor gains a card. */
  lemma DealerTurnKeepsCards(hand: seq<Card>, cards: seq<Card>, other: seq<Card>)
    ensures var run := DealerTurn(hand, cards);
      multiset(other) + multiset(run.hand) + multiset(run.rest)
        == multiset(other) + multiset(hand) + multiset(cards)
  {
    DealerTurnDrawsFromTop(hand, cards);
    var run := DealerTurn(hand, cards);
    assert run.hand == hand + run.hand[|hand|..];
  }

  /** A dealer already at 17 or more draws nothing. */
  lemma DealerStandsAtOnce(hand: seq<Card>, cards: seq<Card>)
    requires Score(hand) >= DEALER_STANDS_AT
    ensures DealerTurn(hand, cards) == DealerRun(hand, cards, false)
  {
  }

  /** How a player action ended: normally, or by asking an empty deck for a card. */
  datatype Status = Completed | Failed(error: DeckError)

  class BlackjackGame {
    /** The shoe of the current round; replaced at every round start. */
    var deck: Deck
    /** The player; the same object for the whole game. */
    const player: Player
    /** The dealer; the same object for the whole game. */
    const dealer: Player
    /** Whether the current round is resolved. */
    var isGameOver: bool
    /** The shuffled shoe as it was when the current round was dealt. */
    ghost var roundShoe: seq<Card>

    /** Player and dealer are two different participants. */
    ghost predicate Valid()
      reads this
    {
      player != dealer && dealer.name == DEALER_NAME
    }

    /** The cards in both hands and the deck are exactly those of the round's shoe. */
    ghost predicate CardsConserved()
      reads this, deck, player, dealer
    {
      multiset(player.hand) + multiset(dealer.hand) + multiset(deck.cards) == multiset(roundShoe)
    }

    /** The current hands and deck are what dealing P, D, P, D from `shoe` leaves. */
    ghost predicate DealtFrom(shoe: seq<Card>)
      reads this, deck, player, dealer
    {
      |shoe| >= 4
      && player.hand == [shoe[0], shoe[2]]
      && dealer.hand == [shoe[1], shoe[3]]
      && deck.cards == shoe[4..]
    }

    /** A new game for the named player, with the first round already dealt. */
    constructor (playerName: string, choose: nat -> nat)
      ensures Valid() && fresh(deck) && fresh(player) && fresh(dealer)
      ensures player.name == playerName
      ensures !isGameOver
      ensures DealtFrom(roundShoe) && IsFullShoe(multiset(roundShoe), 1)
      ensures CardsConserved()
    {
      deck := new Deck.Default(choose);
      player := new Player(playerName);
      var d := NewDealer();
      dealer := d;
      isGameOver := false;
      roundShoe := [];
      new;
      StartNewRound(choose);
    }

    /**
     * Starts a round: a fresh shuffled one-set deck, both hands emptied,
     * then two cards each, dealt player, dealer, player, dealer. The round
     * is never over at this point, whatever was dealt.
     */
    method StartNewRound(choose: nat -> nat)
      requires Valid()
      modifies this, player, dealer
      ensures Valid() && fresh(deck)
      ensures !isGameOver
      ensures DealtFrom(roundShoe) && IsFullShoe(multiset(roundShoe), 1)
      ensures |player.hand| == 2 && |dealer.hand| == 2 && |deck.cards| == 48
      ensures CardsConserved()
    {
      isGameOver := false;
      deck := new Deck.Default(choose);
      roundShoe := deck.cards;
      player.ClearHand();
      dealer.ClearHand();

      assert |roundShoe| == 52;
      DealInitialCards();
      DealKeepsCards(roundShoe);
    }

    /** The initial deal: one card each to player, dealer, player, dealer. */
    method DealInitialCards()
      requires Valid() && |deck.cards| >= 4
      modifies deck, player, dealer
      ensures deck.cards == old(deck.cards)[4..]
      ensures player.hand == old(player.hand) + [old(deck.cards)[0], old(deck.cards)[2]]
      ensures dealer.hand == old(dealer.hand) + [old(deck.cards)[1], old(deck.cards)[3]]
    {
      var status := DealTo(player);
      if status.Failed? { assert false; }
      status := DealTo(dealer);
      if status.Failed? { assert false; }
      status := DealTo(player);
      if status.Failed? { assert false; }
      status := DealTo(dealer);
      if status.Failed? { assert false; }
    }

    /**
     * `p.addCard(deck.dealCard())`: the top card of the deck moves to the
     * end of `p`'s hand; on an empty deck this fails and changes nothing.
     */
    method DealTo(p: Player) returns (status: Status)
      modifies deck, p
      ensures old(deck.cards) == [] ==>
        status == Failed(DeckEmpty) && deck.cards == old(deck.cards) && p.hand == old(p.hand)
      ensures old(deck.cards) != [] ==>
        status == Completed && deck.cards == old(deck.cards)[1..]
        && p.hand == old(p.hand) + [old(deck.cards)[0]]
    {
      var r := deck.DealCard();
      if r.Failure? {
        return Failed(r.error);
      }
      p.AddCard(r.value);
      status := Completed;
    }

    /**
     * The player takes a card: nothing happens once the round is over;
     * otherwise the deck's top card joins the player's hand and the round
     * ends exactly when that hand goes over 21. An empty deck fails and
     * changes nothing.
     */
    method PlayerHit() returns (status: Status)
      requires Valid()
      modifies this, deck, player
      ensures Valid() && deck == old(deck) && roundShoe == old(roundShoe)
      ensures dealer.hand == old(dealer.hand)
      ensures old(isGameOver) ==>
        status == Completed && isGameOver
        && player.hand == old(player.hand) && deck.cards == old(deck.cards)
      ensures !old(isGameOver) && old(deck.cards) == [] ==>
        status == Failed(DeckEmpty) && !isGameOver
        && player.hand == old(player.hand) && deck.cards == old(deck.cards)
      ensures !old(isGameOver) && old(deck.cards) != [] ==>
        status == Completed
        && player.hand == old(player.hand) + [old(deck.cards)[0]]
        && deck.cards == old(deck.cards)[1..]
        && (isGameOver <==> Score(player.hand) > BLACKJACK)
      ensures old(CardsConserved()) ==> CardsConserved()
    {
      status := Completed;
      if !isGameOver {
        ghost var hand, cards := player.hand, deck.cards;
        status := DealTo(player);
        if status.Failed? {
          return;
        }
        DrawKeepsCards(hand, player.hand, cards, deck.cards, dealer.hand);
        var score := player.GetScore();
        if score > BLACKJACK {
          isGameOver := true;
        }
      }
    }

    /**
     * The player stands: the dealer draws from the top of the deck while
     * the dealer's score is under 17, then the round is over. The player's
     * hand is untouched. Should the deck run out while the dealer must
     * draw, the stand fails with the cards drawn so far kept and the round
     * not marked over.
     */
    method PlayerStand() returns (status: Status)
      requires Valid()
      modifies this, deck, dealer
      ensures Valid() && deck == old(deck) && roundShoe == old(roundShoe)
      ensures player.hand == old(player.hand)
      ensures var run := DealerTurn(old(dealer.hand), old(deck.cards));
        && dealer.hand == run.hand && deck.cards == run.rest
        && (status == Completed <==> !run.ranOut)
        && isGameOver == (old(isGameOver) || !run.ranOut)
      ensures status == Completed ==> isGameOver && Score(dealer.hand) >= DEALER_STANDS_AT
      ensures status != Completed ==> status == Failed(DeckEmpty) && deck.cards == []
      ensures old(CardsConserved()) ==> CardsConserved()
    {
      ghost var hand0, cards0 := dealer.hand, deck.cards;
      DealerTurnKeepsCards(hand0, cards0, player.hand);
      var hit := ShouldHit(dealer);
      while hit
        invariant Valid() && deck == old(deck) && roundShoe == old(roundShoe)
        invariant isGameOver == old(isGameOver)
        invariant player.hand == old(player.hand)
        invariant DealerTurn(dealer.hand, deck.cards) == DealerTurn(hand0, cards0)
        invariant hit <==> Score(dealer.hand) < DEALER_STANDS_AT
        decreases |deck.cards|
      {
        status := DealTo(dealer);
        if status.Failed? {
          return;
        }
        hit := ShouldHit(dealer);
      }
      isGameOver := true;
      status := Completed;
    }

    /**
     * The label of the current round: "Game in progress" until the round
     * is over; then it starts with "You won" exactly when the player is
     * not bust and the dealer is bust or lower, and with "You lost"
     * exactly when the player is bust or the dealer is higher and not bust.
     */
    function GameResult(): (msg: string)
      reads this, player, dealer
      ensures !isGameOver ==> msg == "Game in progress"
      ensures var p, d := Score(player.hand), Score(dealer.hand);
        isGameOver ==>
          && (StartsWith(msg, "You won") <==> p <= BLACKJACK && (d > BLACKJACK || p > d))
          && (StartsWith(msg, "You lost") <==> p > BLACKJACK || (d <= BLACKJACK && p < d))
    {
      Message(Resolve(isGameOver, Score(player.hand), Score(dealer.hand)))
    }
  }

  lemma TwoCardScores()
    ensures Score([Card(HEARTS, TEN), Card(HEARTS, TEN)]) == 20
    ensures Score([Card(CLUBS, TEN), Card(CLUBS, SEVEN)]) == 17
  {
    SumsSnoc([Card(HEARTS, TEN)], Card(HEARTS, TEN));
    SumsSnoc([Card(CLUBS, TEN)], Card(CLUBS, SEVEN));
    assert [Card(HEARTS, TEN)] + [Card(HEARTS, TEN)] == [Card(HEARTS, TEN), Card(HEARTS, TEN)];
    assert [Card(CLUBS, TEN)] + [Card(CLUBS, SEVEN)] == [Card(CLUBS, TEN), Card(CLUBS, SEVEN)];
  }

  /**
   * The scenario of the game test: the player holds TEN+TEN (20), the dealer
   * TEN+SEVEN (17); after the stand the dealer draws nothing and the result
   * reads "You won!".
   */
  method PlayerWinsByScore(choose: nat -> nat) returns (msg: string)
    ensures msg == "You won!"
  {
    var game := NewGameWithHands(choose,
      [Card(HEARTS, TEN), Card(HEARTS, TEN)], [Card(CLUBS, TEN), Card(CLUBS, SEVEN)]);
    TwoCardScores();
    DealerStandsAtOnce(game.dealer.hand, game.deck.cards);
    var status := game.PlayerStand();
    msg := game.GameResult();
  }

  /** A new game whose two hands are then replaced card by card, as the
      game test arranges them. */
  method NewGameWithHands(choose: nat -> nat, playerCards: seq<Card>, dealerCards: seq<Card>)
    returns (game: BlackjackGame)
    ensures fresh(game) && fresh(game.deck) && fresh(game.player) && fresh(game.dealer)
    ensures game.Valid() && !game.isGameOver
    ensures game.player.hand == playerCards && game.dealer.hand == dealerCards
  {
    game := new BlackjackGame("Winner", choose);
    game.player.ClearHand();
    game.dealer.ClearHand();
    AddCards(game.player, playerCards);
    AddCards(game.dealer, dealerCards);
  }

  /** `p.addCard` for each card in turn. */
  method AddCards(p: Player, cards: seq<Card>)
    modifies p
    ensures p.hand == old(p.hand) + cards
  {
    for i := 0 to |cards|
      invariant p.hand == old(p.hand) + cards[..i]
    {
      p.AddCard(cards[i]);
      assert cards[..i + 1] == cards[..i] + [cards[i]];
    }
    assert cards[..|cards|] == cards;
  }


  /** The start of a game: four cards are out, two in each hand, and the
      round is not over, whatever the shuffle dealt. */
  method GameStart(choose: nat -> nat) returns (dealt: int, over: bool)
    ensures dealt == 4 && !over
  {
    var game := new BlackjackGame("Gamer", choose);
    dealt := |game.player.hand| + |game.dealer.hand|;
    over := game.isGameOver;
  }
}
