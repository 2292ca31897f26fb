/** Blackjack: soft-ace scoring, the ordered settlement table, and the
    session whose fields are the component's state variables. The deck
    service is outside the model: every draw is a parameter, `None` when the
    draw returned nothing, and each `useEffect` is a step method applied to
    the state it observes. */
module Blackjack {
  import opened Cards

  /** getCardValue: an ace counts 1, a face card 10, a numeral its value. */
  function CardValue(v: string): (n: int)
    requires IsDeckRank(v)
    ensures 1 <= n <= 10
    ensures n == 1 <==> v == "ACE"
    ensures n == 10 <==> v == "10" || v in FaceRanks
    ensures v in NumeralRanks ==> NumeralSymbol(n) == v
  {
    if v == "ACE" then 1
    else if v in FaceRanks then 10
    else NumeralValue(v)
  }

  predicate AllDeckRanks(cards: seq<Card>) {
    forall i :: 0 <= i < |cards| ==> IsDeckRank(cards[i].value)
  }

  /** The `reduce` of calculateTotal: every ace counted as 1. */
  function BaseSum(cards: seq<Card>): int
    requires AllDeckRanks(cards)
  {
    if cards == [] then 0 else CardValue(cards[0].value) + BaseSum(cards[1..])
  }

  /** The number of cards whose value is "ACE" (the `filter` of calculateTotal). */
  function AceCount(cards: seq<Card>): nat {
    multiset(Ranks(cards))["ACE"]
  }

  /** The soft total: the base sum, plus 10 when the hand holds an ace that
      can count 11 without taking the hand over 21. */
  function HandTotal(cards: seq<Card>): (t: int)
    requires AllDeckRanks(cards)
    ensures t == BaseSum(cards) || (t == BaseSum(cards) + 10 && AceCount(cards) > 0 && t <= 21)
    ensures AceCount(cards) > 0 && BaseSum(cards) <= 11 ==> t == BaseSum(cards) + 10
  {
    var base := BaseSum(cards);
    if AceCount(cards) > 0 && base + 10 <= 21 then base + 10 else base
  }

  /** Each ace adds at least 1 to the base sum, so the base sum is at least
      the number of aces. */
  lemma {:induction false} BaseSumCoversAces(cards: seq<Card>)
    requires AllDeckRanks(cards)
    ensures BaseSum(cards) >= AceCount(cards)
  {
    if cards != [] {
      BaseSumCoversAces(cards[1..]);
      assert Ranks(cards) == [cards[0].value] + Ranks(cards[1..]);
    }
  }

  /** calculateTotal as written: the base sum, then one pass per ace that
      adds 10 while the sum stays at most 21. The loop upgrades at most one
      ace, and an upgrade never takes the hand over 21. */
  method CalculateTotal(cards: seq<Card>) returns (sum: int)
    requires AllDeckRanks(cards)
    ensures sum == HandTotal(cards)
    ensures sum == BaseSum(cards) || (sum == BaseSum(cards) + 10 && AceCount(cards) > 0 && sum <= 21)
  {
    sum := BaseSum(cards);
    var aceCount := AceCount(cards);
    BaseSumCoversAces(cards);
    ghost var base := sum;
    for i := 0 to aceCount
      invariant sum == if i > 0 && base + 10 <= 21 then base + 10 else base
    {
      if sum + 10 <= 21 {
        sum := sum + 10;
      }
    }
  }

  lemma {:induction false} BaseSumAppend(s: seq<Card>, t: seq<Card>)
    requires AllDeckRanks(s) && AllDeckRanks(t)
    ensures AllDeckRanks(s + t) && BaseSum(s + t) == BaseSum(s) + BaseSum(t)
  {
    if s != [] {
      BaseSumAppend(s[1..], t);
      assert (s + t)[1..] == s[1..] + t;
    } else {
      assert s + t == t;
    }
  }

  /** Deck ranks on every card are kept by any reordering. */
  lemma DeckRanksPermutation(a: seq<Card>, b: seq<Card>)
    requires AllDeckRanks(a) && multiset(a) == multiset(b)
    ensures AllDeckRanks(b)
  {
    forall j | 0 <= j < |b| ensures IsDeckRank(b[j].value) {
      assert b[j] in multiset(a);
      var k := IndexOf(a, b[j]);
    }
  }

  /** The base sum is the value of any one card plus the base sum of the others. */
  lemma {:induction false} BaseSumWithout(b: seq<Card>, i: nat)
    requires AllDeckRanks(b) && i < |b|
    ensures AllDeckRanks(b[..i] + b[i + 1..])
    ensures BaseSum(b) == CardValue(b[i].value) + BaseSum(b[..i] + b[i + 1..])
  {
    var pre, post := b[..i], b[i + 1..];
    var mid := [b[i]] + post;
    assert AllDeckRanks(pre) && AllDeckRanks(post) && AllDeckRanks(mid);
    assert pre + mid == b;
    assert mid[1..] == post;
    BaseSumAppend(pre, mid);
    BaseSumAppend(pre, post);
  }

  /** The base sum does not depend on the order of the cards. */
  lemma {:induction false} BaseSumPermutation(a: seq<Card>, b: seq<Card>)
    requires AllDeckRanks(a) && multiset(a) == multiset(b)
    ensures AllDeckRanks(b) && BaseSum(a) == BaseSum(b)
  {
    DeckRanksPermutation(a, b);
    if a != [] {
      var i := PermutationTail(a, b);
      BaseSumWithout(b, i);
      BaseSumPermutation(a[1..], b[..i] + b[i + 1..]);
    } else {
      assert |b| == |multiset(b)| == 0;
    }
  }

  /** calculateTotal depends only on the multiset of cards: reordering a
      hand never changes its total. */
  lemma HandTotalPermutation(a: seq<Card>, b: seq<Card>)
    requires AllDeckRanks(a) && multiset(a) == multiset(b)
    ensures AllDeckRanks(b) && HandTotal(a) == HandTotal(b)
  {
    BaseSumPermutation(a, b);
    MapPermutation(RankOf, a, b);
  }

  /** The base sum of a two-card hand. */
  lemma TwoCardSum(cards: seq<Card>)
    requires AllDeckRanks(cards) && |cards| == 2
    ensures BaseSum(cards) == CardValue(cards[0].value) + CardValue(cards[1].value)
  {
    var rest := cards[1..];
    assert rest[1..] == [];
    assert BaseSum(rest) == CardValue(rest[0].value) + BaseSum(rest[1..]);
  }

  /** The aces of a two-card hand. */
  lemma TwoCardAces(cards: seq<Card>)
    requires |cards| == 2
    ensures AceCount(cards) == (if cards[0].value == "ACE" then 1 else 0) + (if cards[1].value == "ACE" then 1 else 0)
  {
    assert Ranks(cards) == [cards[0].value] + [cards[1].value];
  }

  /** A hand of at most two cards never exceeds 21. */
  lemma TwoCardsNeverBust(cards: seq<Card>)
    requires AllDeckRanks(cards) && |cards| <= 2
    ensures HandTotal(cards) <= 21
  {
    if |cards| == 2 {
      TwoCardSum(cards);
      TwoCardAces(cards);
    } else if |cards| == 1 {
      assert cards[1..] == [];
      assert BaseSum(cards) == CardValue(cards[0].value);
    }
  }

  /** A two-card 21, the natural that ends the deal, is exactly an ace with
      a ten-valued card (a 10 or a face). */
  lemma NaturalIsAceAndTen(cards: seq<Card>)
    requires AllDeckRanks(cards) && |cards| == 2
    ensures HandTotal(cards) == 21 <==>
      (cards[0].value == "ACE" && CardValue(cards[1].value) == 10) ||
      (cards[1].value == "ACE" && CardValue(cards[0].value) == 10)
  {
    TwoCardSum(cards);
    TwoCardAces(cards);
  }

  /** How a finished round went, one per message of the result effect. */
  datatype Outcome = NaturalBlackjack | DealerWins | PlayerWins | Tie

  /** What the result effect credits for an outcome: the stake was already
      taken at the deal, so a tie gives it back and a win gives it back too
      (no extra), while a natural gives 1.5 times it. */
  function Payout(outcome: Outcome, bet: int): (p: real)
    ensures outcome == NaturalBlackjack ==> p == 1.5 * bet as real
    ensures outcome == DealerWins ==> p == 0.0
    ensures outcome == PlayerWins || outcome == Tie ==> p == bet as real
    ensures bet > 0 ==> (p > bet as real <==> outcome == NaturalBlackjack)
  {
    match outcome
    case NaturalBlackjack => bet as real * 1.5
    case DealerWins => 0.0
    case PlayerWins => bet as real
    case Tie => bet as real
  }

  /** The result effect's decision chain, checked in this order: natural,
      player bust, dealer bust, higher player total, higher dealer total,
      equal totals. */
  function Settle(isBlackjack: bool, playerBurst: bool, dealerBurst: bool,
                  playerTotal: int, dealerTotal: int): (o: Outcome)
    ensures o == NaturalBlackjack <==> isBlackjack
    ensures o == DealerWins <==> !isBlackjack && (playerBurst || (!dealerBurst && dealerTotal > playerTotal))
    ensures o == Tie <==> !isBlackjack && !playerBurst && !dealerBurst && playerTotal == dealerTotal
  {
    if isBlackjack then NaturalBlackjack
    else if playerBurst then DealerWins
    else if dealerBurst then PlayerWins
    else if playerTotal > dealerTotal then PlayerWins
    else if dealerTotal > playerTotal then DealerWins
    else Tie
  }

  /** The credit is never negative for a non-negative stake, and the player
      gets at least the stake back exactly when the outcome is not a loss. */
  lemma SettlementCredit(isBlackjack: bool, playerBurst: bool, dealerBurst: bool,
                         playerTotal: int, dealerTotal: int, bet: nat)
    ensures var credit := Payout(Settle(isBlackjack, playerBurst, dealerBurst, playerTotal, dealerTotal), bet);
      && credit >= 0.0
      && (bet > 0 ==> (credit >= bet as real <==> isBlackjack || (!playerBurst && (dealerBurst || playerTotal >= dealerTotal))))
  {
  }

  class BlackjackGame {
    var deckReady: bool          // deckId is set
    var playerCards: seq<Card>
    var dealerCards: seq<Card>
    var playerBurst: bool
    var dealerBurst: bool
    var isPlayerTurn: bool
    var gameEnded: bool
    var gameResult: Option<Outcome>
    var playerChips: real
    var betAmount: int
    var canBet: bool
    var isBlackjack: bool

    /** The flags never contradict each other: a bust or a natural ends the
        game and the player's turn, and during the player's turn the dealer
        holds at most the two dealt cards. */
    ghost predicate Valid()
      reads this
    {
      && AllDeckRanks(playerCards) && AllDeckRanks(dealerCards)
      && (playerBurst ==> gameEnded && !isPlayerTurn)
      && (isBlackjack ==> gameEnded && !isPlayerTurn)
      && (dealerBurst ==> gameEnded)
      && (isPlayerTurn ==> !gameEnded && |dealerCards| <= 2)
    }

    function PlayerTotal(): int
      reads this`playerCards
      requires AllDeckRanks(playerCards)
    {
      HandTotal(playerCards)
    }

    function DealerTotal(): int
      reads this`dealerCards
      requires AllDeckRanks(dealerCards)
    {
      HandTotal(dealerCards)
    }

    /** The initial state; `deckCreated` says whether the deck service
        answered the component's first request. */
    constructor (deckCreated: bool)
      ensures Valid()
      ensures deckReady == deckCreated && playerChips == 10.0 && betAmount == 0
      ensures playerCards == [] && dealerCards == []
      ensures !playerBurst && !dealerBurst && !isPlayerTurn && !gameEnded && !isBlackjack
      ensures gameResult == None && !canBet
    {
      deckReady := deckCreated;
      playerCards, dealerCards := [], [];
      playerBurst, dealerBurst, isPlayerTurn, gameEnded := false, false, false, false;
      gameResult := None;
      playerChips := 10.0;
      betAmount := 0;
      canBet := false;
      isBlackjack := false;
    }

    /** handleBetChange: the parsed input, or 0 when it is NaN. */
    method ChangeBet(input: BetInput)
      modifies this`betAmount
      ensures betAmount == if input.Number? then input.n else 0
    {
      betAmount := if input.Number? then input.n else 0;
    }

    /** canDeal: what enables the deal button. */
    predicate CanDeal()
      reads this
    {
      betAmount > 0 && playerChips >= betAmount as real && deckReady && canBet
    }

    /** The guard of dealInitialCards (it does not look at canBet). */
    predicate DealGuard()
      reads this
    {
      betAmount > 0 && playerChips >= betAmount as real && deckReady
    }

    /** The deal button is enabled exactly when the deal's own guard holds
        and betting is open, so a deal started from the button always
        takes the stake. */
    lemma CanDealMeansDealGuard()
      ensures CanDeal() <==> DealGuard() && canBet
      ensures CanDeal() ==> playerChips - betAmount as real >= 0.0
    {
    }

    /** dealInitialCards: when the guard holds, clear the round, take the
        stake and hold the two draws; a two-card 21 is a natural that ends
        the game at once. */
    method DealInitialCards(playerDraw: Option<seq<Card>>, dealerDraw: Option<seq<Card>>)
      requires Valid()
      requires playerDraw.Some? ==> |playerDraw.value| == 2 && AllDeckRanks(playerDraw.value)
      requires dealerDraw.Some? ==> |dealerDraw.value| == 2 && AllDeckRanks(dealerDraw.value)
      modifies this`canBet, this`playerCards, this`dealerCards, this`playerBurst, this`dealerBurst
      modifies this`gameEnded, this`gameResult, this`isPlayerTurn, this`isBlackjack, this`playerChips
      ensures Valid()
      ensures !old(DealGuard()) ==> unchanged(this)
      ensures old(DealGuard()) ==>
        && playerChips == old(playerChips) - old(betAmount) as real
        && playerChips >= 0.0
        && !canBet && !CanDeal() && !playerBurst && !dealerBurst && gameResult == None
        && (if playerDraw.Some? && dealerDraw.Some? then
              && playerCards == playerDraw.value && dealerCards == dealerDraw.value
              && isBlackjack == (HandTotal(playerDraw.value) == 21)
              && gameEnded == isBlackjack && isPlayerTurn == !isBlackjack
            else
              && playerCards == [] && dealerCards == []
              && !isBlackjack && !gameEnded && isPlayerTurn)
    {
      if betAmount > 0 && playerChips >= betAmount as real && deckReady {
        canBet := false;
        playerCards, dealerCards := [], [];
        playerBurst, dealerBurst := false, false;
        gameEnded := false;
        gameResult := None;
        isPlayerTurn := true;
        isBlackjack := false;
        playerChips := playerChips - betAmount as real;
        assert Valid();
        if playerDraw.Some? && dealerDraw.Some? {
          HoldInitialCards(playerDraw.value, dealerDraw.value);
        }
      }
    }

    /** The second half of dealInitialCards, on a cleared round: hold the
        two draws and end the game at once on a two-card 21. */
    method HoldInitialCards(player: seq<Card>, dealer: seq<Card>)
      requires Valid() && isPlayerTurn && !gameEnded && !playerBurst && !dealerBurst && !isBlackjack
      requires |player| == 2 && AllDeckRanks(player) && |dealer| == 2 && AllDeckRanks(dealer)
      modifies this`playerCards, this`dealerCards, this`isBlackjack, this`gameEnded, this`isPlayerTurn
      ensures Valid()
      ensures playerCards == player && dealerCards == dealer
      ensures isBlackjack == (HandTotal(player) == 21)
      ensures gameEnded == isBlackjack && isPlayerTurn == !isBlackjack
    {
      playerCards, dealerCards := player, dealer;
      var initialPlayerTotal := CalculateTotal(player);
      if initialPlayerTotal == 21 {
        isBlackjack := true;
        gameEnded := true;
        isPlayerTurn := false;
      }
    }

    /** playerDrawCard: during the player's live turn, append the one drawn
        card and leave the earlier cards as they were. */
    method PlayerDrawCard(drawn: Option<seq<Card>>)
      requires Valid()
      requires drawn.Some? ==> |drawn.value| == 1 && AllDeckRanks(drawn.value)
      modifies this`playerCards
      ensures Valid()
      ensures if old(isPlayerTurn && !gameEnded && !playerBurst) && drawn.Some?
              then playerCards == old(playerCards) + [drawn.value[0]]
              else playerCards == old(playerCards)
    {
      if isPlayerTurn && !gameEnded && !playerBurst {
        if drawn.Some? {
          playerCards := playerCards + [drawn.value[0]];
        }
      }
    }

    /** playerStand: end the player's turn, if it is live. */
    method PlayerStand()
      requires Valid()
      modifies this`isPlayerTurn
      ensures Valid()
      ensures !isPlayerTurn
    {
      if isPlayerTurn && !gameEnded {
        isPlayerTurn := false;
      }
    }

    /** resetGame: after a successful reshuffle, clear the round and the bet
        and allow betting; the chips are kept. */
    method ResetGame(reshuffled: bool)
      requires Valid()
      modifies this
      ensures Valid()
      ensures !reshuffled ==> unchanged(this)
      ensures reshuffled ==>
        && playerCards == [] && dealerCards == []
        && !playerBurst && !dealerBurst && !isPlayerTurn && !gameEnded && !isBlackjack
        && gameResult == None && betAmount == 0 && canBet
        && playerChips == old(playerChips) && deckReady == old(deckReady)
    {
      if reshuffled {
        playerCards, dealerCards := [], [];
        playerBurst, dealerBurst := false, false;
        isPlayerTurn := false;
        gameEnded := false;
        gameResult := None;
        betAmount := 0;
        canBet := true;
        isBlackjack := false;
      }
    }

    /** The player-bust effect: a player total over 21 marks the bust and
        ends both the turn and the game, so the dealer step does nothing
        afterwards. */
    method PlayerBustEffect()
      requires Valid()
      modifies this`playerBurst, this`isPlayerTurn, this`gameEnded
      ensures Valid()
      ensures if old(PlayerTotal()) > 21 && !old(playerBurst)
              then playerBurst && !isPlayerTurn && gameEnded
              else unchanged(this)
    {
      if PlayerTotal() > 21 && !playerBurst {
        playerBurst := true;
        isPlayerTurn := false;
        gameEnded := true;
      }
    }

    /** The dealer effect together with dealerDrawCard: once the player's
        turn is over and the game is still running, a dealer below 17 takes
        the drawn card and a dealer at 17 or more ends the game. */
    method DealerTurnEffect(drawn: Option<seq<Card>>)
      requires Valid()
      requires drawn.Some? ==> |drawn.value| == 1 && AllDeckRanks(drawn.value)
      modifies this`dealerCards, this`gameEnded
      ensures Valid()
      ensures old(isPlayerTurn || gameEnded || playerCards == []) ==> unchanged(this)
      ensures old(!isPlayerTurn && !gameEnded && playerCards != []) ==>
        if old(DealerTotal()) < 17 then
          && !gameEnded
          && dealerCards == if drawn.Some? && !old(dealerBurst) then old(dealerCards) + [drawn.value[0]] else old(dealerCards)
        else
          gameEnded && dealerCards == old(dealerCards)
    {
      if !isPlayerTurn && !gameEnded && |playerCards| > 0 {
        if DealerTotal() < 17 {
          if !(gameEnded || dealerBurst) && drawn.Some? {
            dealerCards := dealerCards + [drawn.value[0]];
          }
        } else {
          gameEnded := true;
        }
      }
    }

    /** The dealer-bust effect: a dealer total over 21 marks the bust and
        ends the game. */
    method DealerBustEffect()
      requires Valid()
      modifies this`dealerBurst, this`gameEnded
      ensures Valid()
      ensures if old(DealerTotal()) > 21 && !old(dealerBurst)
              then dealerBurst && gameEnded
              else unchanged(this)
    {
      if isPlayerTurn {
        TwoCardsNeverBust(dealerCards);
      }
      if DealerTotal() > 21 && !dealerBurst {
        dealerBurst := true;
        gameEnded := true;
      }
    }

    /** The betting effect: once the game has ended, betting is allowed
        again. */
    method CanBetEffect()
      requires Valid()
      modifies this`canBet
      ensures Valid()
      ensures canBet == (old(canBet) || gameEnded)
    {
      if gameEnded {
        canBet := true;
      }
    }

    /** The result effect: once the game has ended, settle in the fixed
        order, record the outcome and credit its payout; betting is allowed
        again. */
    method ResultEffect()
      requires Valid()
      modifies this`gameResult, this`playerChips, this`canBet
      ensures Valid()
      ensures !old(gameEnded) ==> unchanged(this)
      ensures old(gameEnded) ==>
        var outcome := Settle(isBlackjack, playerBurst, dealerBurst, PlayerTotal(), DealerTotal());
        && gameResult == Some(outcome)
        && playerChips == old(playerChips) + Payout(outcome, betAmount)
        && canBet
    {
      if gameEnded {
        var outcome := Settle(isBlackjack, playerBurst, dealerBurst, PlayerTotal(), DealerTotal());
        RecordResult(outcome);
      }
    }

    /** The updates of the result effect once the outcome is decided: show
        it, credit its payout and reopen betting. */
    method RecordResult(outcome: Outcome)
      requires Valid()
      modifies this`gameResult, this`playerChips, this`canBet
      ensures Valid()
      ensures gameResult == Some(outcome) && canBet
      ensures playerChips == old(playerChips) + Payout(outcome, betAmount)
    {
      gameResult := Some(outcome);
      playerChips := playerChips + Payout(outcome, betAmount);
      canBet := true;
    }
  }
}
