/** Concrete rounds of the three games, played through the models' own
    operations: each states the outcome the components produce. */
module Scenarios {
  import opened Cards
  import Blackjack
  import PokerHands
  import Poker
  import HighLow

  /** calculateTotal on two aces: one of them counts 11, the other 1. */
  method TwoAces() returns (total: int)
    ensures total == 12
  {
    var ace := Card("ACE", "SPADES");
    Blackjack.TwoCardSum([ace, ace]);
    Blackjack.TwoCardAces([ace, ace]);
    total := Blackjack.CalculateTotal([ace, ace]);
  }

  /** calculateTotal on an ace and a king: 21. */
  method AceKing() returns (total: int)
    ensures total == 21
  {
    var hand := [Card("ACE", "SPADES"), Card("KING", "HEARTS")];
    Blackjack.NaturalIsAceAndTen(hand);
    total := Blackjack.CalculateTotal(hand);
  }

  /** calculateTotal on king, queen, ace: the ace counts 1. */
  method FacesThenAce() returns (total: int)
    ensures total == 21
  {
    var hand := [Card("KING", "HEARTS"), Card("QUEEN", "CLUBS"), Card("ACE", "SPADES")];
    Blackjack.TwoCardSum(hand[1..]);
    Blackjack.TwoCardAces(hand[1..]);
    assert Blackjack.BaseSum(hand) == 10 + Blackjack.BaseSum(hand[1..]);
    assert Ranks(hand) == ["KING"] + Ranks(hand[1..]);
    total := Blackjack.CalculateTotal(hand);
  }

  /** The reset opens betting, a bet of all 10 chips enables the deal
      button, and a deal of an ace and a king takes the stake and ends the
      game at once as a natural. */
  method BlackjackNaturalDeal() returns (game: Blackjack.BlackjackGame)
    ensures fresh(game) && game.Valid()
    ensures game.gameEnded && game.isBlackjack && game.playerChips == 0.0 && game.betAmount == 10
  {
    game := new Blackjack.BlackjackGame(true);
    game.ResetGame(true);
    game.ChangeBet(Number(10));
    assert game.CanDeal();
    var player := [Card("ACE", "SPADES"), Card("KING", "HEARTS")];
    var dealer := [Card("5", "CLUBS"), Card("9", "DIAMONDS")];
    Blackjack.NaturalIsAceAndTen(player);
    game.DealInitialCards(Some(player), Some(dealer));
  }

  /** The natural is then settled: 1.5 times the stake is credited, so the
      player ends with 15 chips. */
  method BlackjackNatural() returns (chips: real, result: Option<Blackjack.Outcome>)
    ensures chips == 15.0 && result == Some(Blackjack.NaturalBlackjack)
  {
    var game := BlackjackNaturalDeal();
    game.ResultEffect();
    chips, result := game.playerChips, game.gameResult;
  }

  /** The result effect also runs again when the bet changes after the
      game ended: typing 4 into the reopened bet field settles the same
      natural once more, crediting 1.5 times the new bet on top of the 15. */
  method BlackjackNaturalRecredited() returns (chips: real)
    ensures chips == 21.0
  {
    var game := BlackjackNaturalDeal();
    game.ResultEffect();
    game.CanBetEffect();
    game.ChangeBet(Number(4));
    game.ResultEffect();
    chips := game.playerChips;
  }

  /** A poker deal and a first exchange of the first two cards: those
      positions take the new cards in order, the others keep theirs. */
  method PokerFirstExchange() returns (game: Poker.PokerGame)
    ensures fresh(game) && game.Valid()
    ensures game.gamePhase == Poker.Exchange && game.exchangeCount == 1 && game.deckReady
    ensures game.selectedCards == [] && game.chip == 95
    ensures game.playerHand == [Card("3", "S"), Card("K", "H"), Card("9", "D"), Card("K", "C"), Card("K", "S")]
  {
    game := new Poker.PokerGame(true);
    game.HandleBetChange(Number(5));
    var hand := [Card("2", "S"), Card("7", "H"), Card("9", "D"), Card("K", "C"), Card("K", "S")];
    game.PlaceBet(Some(hand));
    game.ToggleSelectCard(0);
    game.ToggleSelectCard(1);
    assert game.selectedCards == [0, 1];
    var drawn := [Card("3", "S"), Card("K", "H")];
    game.ExchangeSelectedCards(Some(drawn));
    assert [0, 1][1..] == [1] && drawn[1..] == [drawn[1]];
    assert game.playerHand == Poker.Replaced(hand[0 := drawn[0]][1 := drawn[1]], [], []);
  }

  /** The second exchange is the last: afterwards a further selection is
      refused and a further exchange does nothing. */
  method PokerSecondExchange() returns (game: Poker.PokerGame)
    ensures game.gamePhase == Poker.Exchange && game.exchangeCount == 2
    ensures game.selectedCards == [] && !game.SelectionOpen() && game.chip == 95
    ensures game.playerHand == [Card("3", "S"), Card("K", "H"), Card("Q", "D"), Card("K", "C"), Card("K", "S")]
  {
    game := PokerFirstExchange();
    game.ToggleSelectCard(2);
    assert game.selectedCards == [2];
    game.ExchangeSelectedCards(Some([Card("Q", "D")]));
    game.ToggleSelectCard(0);
    game.ExchangeSelectedCards(Some([]));
  }

  /** A missed guess: 20 of 100 chips on a 5, guess higher, a 3 comes; the
      stake is lost and the table is cleared for the next bet. */
  method HighLowMiss() returns (chips: int, state: HighLow.GameState)
    ensures chips == 80 && state == HighLow.Betting
  {
    var game := new HighLow.HighLowGame(true);
    game.HandleInputChange(Number(20));
    game.HandleBetSubmit(Some(Card("5", "HEARTS")));
    game.HandleGuess(HighLow.High, Some(Card("3", "CLUBS")));
    chips, state := game.chips, game.gameState;
  }

  /** Double-up: a win on 10 chips pays 20, continuing banks the 20 and
      stakes 20 more without taking them from the chips, so a miss on the
      second round still leaves 110. */
  method HighLowDoubleUp() returns (chips: int, bet: Option<int>)
    ensures chips == 110 && bet == Some(20)
  {
    var game := new HighLow.HighLowGame(true);
    game.HandleInputChange(Number(10));
    game.HandleBetSubmit(Some(Card("5", "HEARTS")));
    game.HandleGuess(HighLow.High, Some(Card("9", "CLUBS")));
    assert game.gameState == HighLow.WinChoice && game.winnings == 20;
    game.HandleContinueGame(Some(Card("KING", "SPADES")));
    game.HandleGuess(HighLow.High, Some(Card("3", "DIAMONDS")));
    chips, bet := game.chips, game.bet;
  }
}
