/** The High & Low component: stake chips on one card, guess whether the
    next card is higher or lower, then cash out or stake the winnings again
    (double-up). */
module HighLow {
  import opened Cards

  /** gameState. `Lose` is set only to be overwritten in the same update,
      so no render ever shows it. */
  datatype GameState = Betting | CardDrawn | WinChoice | Draw | Lose | GameOver

  datatype Guess = High | Low

  /** How a guess compares the new card with the current one. */
  datatype Verdict = Win | Tie | Miss

  const StartingChips: int := 100

  /** getCardValue: no card is 0, the ace ranks highest (14), then king,
      queen and jack, and a numeral card is its number. */
  function CardValue(card: Option<Card>): (v: int)
    requires card.Some? ==> IsDeckRank(card.value.value)
    ensures card.None? ==> v == 0
    ensures card.Some? ==> 2 <= v <= 14
    ensures card.Some? ==> (v == 14 <==> card.value.value == "ACE")
    ensures card.Some? ==> (v == 13 <==> card.value.value == "KING")
    ensures card.Some? ==> (v == 12 <==> card.value.value == "QUEEN")
    ensures card.Some? ==> (v == 11 <==> card.value.value == "JACK")
    ensures card.Some? && card.value.value in NumeralRanks ==> v <= 10 && NumeralSymbol(v) == card.value.value
  {
    match card
    case None => 0
    case Some(c) =>
      if c.value == "ACE" then 14
      else if c.value == "KING" then 13
      else if c.value == "QUEEN" then 12
      else if c.value == "JACK" then 11
      else NumeralValue(c.value)
  }

  /** Two cards of different ranks never compare equal: a tie means the
      same rank. */
  lemma CardValueInjective(a: Card, b: Card)
    requires IsDeckRank(a.value) && IsDeckRank(b.value)
    requires CardValue(Some(a)) == CardValue(Some(b))
    ensures a.value == b.value
  {
    if a.value in NumeralRanks && b.value in NumeralRanks {
      NumeralValueInjective(a.value, b.value);
    }
  }

  /** The comparison in drawSecondCard: the guess wins on a strictly
      higher (`High`) or strictly lower (`Low`) new card, ties on an equal
      one, and misses otherwise. */
  function Judge(guess: Guess, prevValue: int, currValue: int): (v: Verdict)
    ensures v == Win <==> (guess == High && currValue > prevValue) || (guess == Low && currValue < prevValue)
    ensures v == Tie <==> currValue == prevValue
  {
    if (guess == High && currValue > prevValue) || (guess == Low && currValue < prevValue) then Win
    else if currValue == prevValue then Tie
    else Miss
  }

  /** On two different values exactly one of the two guesses wins. */
  lemma ExactlyOneGuessWins(prevValue: int, currValue: int)
    requires prevValue != currValue
    ensures (Judge(High, prevValue, currValue) == Win) != (Judge(Low, prevValue, currValue) == Win)
    ensures Judge(High, prevValue, currValue) != Tie && Judge(Low, prevValue, currValue) != Tie
  {
  }

  /** Nothing can be higher than an ace or lower than a two. */
  lemma ExtremeCards(current: Card, next: Card)
    requires IsDeckRank(current.value) && IsDeckRank(next.value)
    ensures current.value == "ACE" ==> Judge(High, CardValue(Some(current)), CardValue(Some(next))) != Win
    ensures current.value == "2" ==> Judge(Low, CardValue(Some(current)), CardValue(Some(next))) != Win
  {
    if current.value == "2" {
      assert NumeralValue("2") == 2 by {
        assert ParseDecimal("2") == 2;
      }
    }
  }

  /** The winnings a verdict sets: twice the bet on a win, the bet back on
      a tie, nothing on a miss. For a non-negative bet a round returns
      between nothing and twice the stake; for a positive one it returns
      more than the stake exactly on a win, the stake exactly on a tie, and
      nothing exactly on a miss. */
  function Winnings(verdict: Verdict, bet: int): (w: int)
    ensures bet >= 0 ==> 0 <= w <= 2 * bet
    ensures bet > 0 ==> (w > bet <==> verdict == Win)
    ensures bet > 0 ==> (w == bet <==> verdict == Tie)
    ensures bet > 0 ==> (w == 0 <==> verdict == Miss)
  {
    match verdict
    case Win => bet * 2
    case Tie => bet
    case Miss => 0
  }

  /** A card, if any, with a rank the deck service hands out. */
  predicate DeckCard(card: Option<Card>) {
    card.Some? ==> IsDeckRank(card.value.value)
  }

  class HighLowGame {
    var deckReady: bool          // deckId is set
    var chips: int
    var bet: Option<int>         // None is the empty input ''
    var winnings: int
    var gameState: GameState
    var currentCard: Option<Card>
    var previousCard: Option<Card>
    var secondCard: Option<Card>

    /** Chips and winnings are never negative, winnings are pending only
        while the player chooses between double-up and cash-out, the
        game is over only without chips, a guess always has a card to
        compare with, and betting starts from an empty table. */
    ghost predicate Valid()
      reads this
    {
      && DeckCard(currentCard) && DeckCard(previousCard) && DeckCard(secondCard)
      && chips >= 0 && winnings >= 0
      && (bet.Some? ==> bet.value >= 0)
      && gameState != Lose
      && (gameState == GameOver ==> chips == 0)
      && (gameState != WinChoice && gameState != Draw ==> winnings == 0)
      && (gameState == CardDrawn ==> currentCard.Some?)
      && (gameState == Betting ==> currentCard.None? && previousCard.None? && secondCard.None?)
    }

    /** The initial state; `deckCreated` says whether the deck service
        answered the component's first request. */
    constructor (deckCreated: bool)
      ensures Valid()
      ensures deckReady == deckCreated && chips == StartingChips && bet == None && winnings == 0
      ensures gameState == Betting && currentCard == None && previousCard == None && secondCard == None
    {
      deckReady := deckCreated;
      chips := StartingChips;
      bet := None;
      winnings := 0;
      gameState := Betting;
      currentCard, previousCard, secondCard := None, None, None;
    }

    /** handleInputChange: keep a number from 1 up to the chips, keep an
        emptied field, ignore anything else. */
    method HandleInputChange(input: BetInput)
      requires Valid()
      modifies this`bet
      ensures Valid()
      ensures bet == match input
        case Number(n) => if 0 < n <= chips then Some(n) else old(bet)
        case Blank => None
        case NotANumber => old(bet)
    {
      match input
      case Number(n) =>
        if 0 < n <= chips {
          bet := Some(n);
        }
      case Blank =>
        bet := None;
      case NotANumber =>
    }

    /** drawFirstCard: with a deck and a drawn card, show it as the
        current card on a fresh table and wait for a guess. Both callers
        reach it from the betting state. */
    method DrawFirstCard(drawn: Option<Card>)
      requires Valid() && gameState == Betting
      requires drawn.Some? ==> IsDeckRank(drawn.value.value)
      modifies this`currentCard, this`secondCard, this`previousCard, this`gameState
      ensures Valid()
      ensures if deckReady && drawn.Some? then
          currentCard == drawn && secondCard == None && previousCard == None && gameState == CardDrawn
        else
          unchanged(this)
    {
      if deckReady && drawn.Some? {
        currentCard := drawn;
        secondCard := None;
        previousCard := None;
        gameState := CardDrawn;
      }
    }

    /** The guard of handleBetSubmit. */
    predicate BetAccepted()
      reads this
    {
      bet.Some? && 0 < bet.value <= chips && gameState == Betting
    }

    /** handleBetSubmit: take the stake from the chips and draw the first
        card. */
    method HandleBetSubmit(drawn: Option<Card>)
      requires Valid()
      requires drawn.Some? ==> IsDeckRank(drawn.value.value)
      modifies this`chips, this`currentCard, this`secondCard, this`previousCard, this`gameState
      ensures Valid()
      ensures !old(BetAccepted()) ==> unchanged(this)
      ensures old(BetAccepted()) ==>
        && chips == old(chips) - old(bet.value) && chips >= 0
        && (if deckReady && drawn.Some? then
              currentCard == drawn && gameState == CardDrawn
            else
              currentCard == None && gameState == Betting)
        && previousCard == None && secondCard == None
    {
      if bet.Some? && 0 < bet.value <= chips && gameState == Betting {
        chips := chips - bet.value;
        DrawFirstCard(drawn);
      }
    }

    /** handleGuess: with a card on the table, keep it as the previous card
        and draw the next one. */
    method HandleGuess(guess: Guess, drawn: Option<Card>)
      requires Valid()
      requires drawn.Some? ==> IsDeckRank(drawn.value.value)
      modifies this`previousCard, this`secondCard, this`winnings, this`gameState, this`currentCard
      ensures Valid()
      ensures !(old(gameState) == CardDrawn && old(currentCard).Some?) ==> unchanged(this)
      ensures old(gameState) == CardDrawn && old(currentCard).Some? && !(deckReady && drawn.Some?) ==>
        && previousCard == old(currentCard) && currentCard == old(currentCard)
        && secondCard == old(secondCard) && winnings == old(winnings) && gameState == CardDrawn
      ensures old(gameState) == CardDrawn && old(currentCard).Some? && deckReady && drawn.Some? ==>
        var verdict := Judge(guess, CardValue(old(currentCard)), CardValue(drawn));
        && winnings == Winnings(verdict, BetValue(bet))
        && (verdict == Win ==> gameState == WinChoice)
        && (verdict == Tie ==> gameState == Draw)
        && (verdict == Miss && chips == 0 ==> gameState == GameOver)
        && (verdict == Miss && chips != 0 ==> gameState == Betting)
        && (verdict == Miss && chips != 0 ==> currentCard == None && previousCard == None && secondCard == None)
        && (verdict != Miss || chips == 0 ==>
              currentCard == old(currentCard) && previousCard == old(currentCard) && secondCard == drawn)
    {
      if gameState != CardDrawn || currentCard.None? {
        return;
      }
      previousCard := currentCard;
      DrawSecondCard(guess, drawn);
    }

    /** drawSecondCard: show the drawn card and settle the guess against
        the current card. A miss with chips left clears the table for the
        next bet; a miss without chips ends the game. */
    method DrawSecondCard(guess: Guess, drawn: Option<Card>)
      requires Valid()
      requires drawn.Some? ==> IsDeckRank(drawn.value.value)
      modifies this`secondCard, this`winnings, this`gameState, this`currentCard, this`previousCard
      ensures Valid()
      ensures !(deckReady && drawn.Some?) ==> unchanged(this)
      ensures deckReady && drawn.Some? ==>
        var verdict := Judge(guess, CardValue(old(currentCard)), CardValue(drawn));
        && winnings == Winnings(verdict, BetValue(bet))
        && gameState == (match verdict
             case Win => WinChoice
             case Tie => Draw
             case Miss => if chips == 0 then GameOver else Betting)
        && (if verdict == Miss && chips != 0 then
              currentCard == None && previousCard == None && secondCard == None
            else
              currentCard == old(currentCard) && previousCard == old(previousCard) && secondCard == drawn)
    {
      if !deckReady || drawn.None? {
        return;
      }
      var newCard := drawn.value;
      secondCard := Some(newCard);
      var prevValue := CardValue(currentCard);
      var currValue := CardValue(Some(newCard));
      if (guess == High && currValue > prevValue) || (guess == Low && currValue < prevValue) {
        winnings := BetValue(bet) * 2;
        gameState := WinChoice;
      } else if currValue == prevValue {
        winnings := BetValue(bet);
        gameState := Draw;
      } else {
        winnings := 0;
        gameState := Lose;
        if chips == 0 {
          gameState := GameOver;
        } else {
          currentCard := None;
          previousCard := None;
          secondCard := None;
          gameState := Betting;
        }
      }
    }

    /** handleContinueGame (double-up): bank the winnings, make them the
        next bet without taking them from the chips, clear the table and
        draw the next first card. */
    method HandleContinueGame(drawn: Option<Card>)
      requires Valid()
      requires drawn.Some? ==> IsDeckRank(drawn.value.value)
      modifies this
      ensures Valid()
      ensures chips == old(chips) + old(winnings) && bet == Some(old(winnings)) && winnings == 0
      ensures deckReady == old(deckReady) && previousCard == None && secondCard == None
      ensures if deckReady && drawn.Some? then currentCard == drawn && gameState == CardDrawn
              else currentCard == None && gameState == Betting
    {
      chips := chips + winnings;
      bet := Some(winnings);
      winnings := 0;
      currentCard := None;
      previousCard := None;
      secondCard := None;
      gameState := Betting;
      DrawFirstCard(drawn);
    }

    /** handleCashOut: bank the winnings and return to an empty bet. */
    method HandleCashOut()
      requires Valid()
      modifies this`chips, this`winnings, this`bet, this`gameState, this`currentCard, this`previousCard, this`secondCard
      ensures Valid()
      ensures chips == old(chips) + old(winnings) && winnings == 0 && bet == None
      ensures gameState == Betting && currentCard == None && previousCard == None && secondCard == None
    {
      chips := chips + winnings;
      winnings := 0;
      bet := None;
      gameState := Betting;
      currentCard, previousCard, secondCard := None, None, None;
    }

    /** handleLose: forfeit the winnings and return to an empty bet; the
        chips stay as they are. */
    method HandleLose()
      requires Valid()
      modifies this`winnings, this`bet, this`gameState, this`currentCard, this`previousCard, this`secondCard
      ensures Valid()
      ensures winnings == 0 && bet == None && chips == old(chips)
      ensures gameState == Betting && currentCard == None && previousCard == None && secondCard == None
    {
      winnings := 0;
      bet := None;
      secondCard, currentCard, previousCard := None, None, None;
      gameState := Betting;
    }

    /** handleRestart: back to the starting chips with a new deck;
        `deckCreated` says whether the deck service answered. */
    method HandleRestart(deckCreated: bool)
      requires Valid()
      modifies this
      ensures Valid()
      ensures deckReady == deckCreated && chips == StartingChips && bet == None && winnings == 0
      ensures gameState == Betting && currentCard == None && previousCard == None && secondCard == None
    {
      deckReady := deckCreated;
      currentCard, previousCard, secondCard := None, None, None;
      chips := StartingChips;
      bet := None;
      gameState := Betting;
      winnings := 0;
    }
  }
}
