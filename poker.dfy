/** The poker component: bet, deal five cards, exchange selected cards at
    most twice, then fix the hand and pay the bet times the multiplier of
    its name. */
module Poker {
  import opened Cards
  import opened PokerHands

  /** gamePhase. */
  datatype Phase = Betting | Initial | Exchange | Final

  const StartingChips: int := 100
  const HandSize: int := 5
  const MaxExchanges: int := 2

  /** `selected.filter(i => i !== x)`: the other indices stay, in their
      order; an absent index changes nothing, and in a selection without
      duplicates exactly the one occurrence of a present index is cut out. */
  function Without(s: seq<int>, x: int): (r: seq<int>)
    ensures forall y :: y in r <==> y in s && y != x
    ensures |r| <= |s|
    ensures NoDuplicates(s) ==> NoDuplicates(r)
    ensures x !in s ==> r == s
    ensures NoDuplicates(s) && x in s ==> r == s[..IndexOf(s, x)] + s[IndexOf(s, x) + 1..]
  {
    if s == [] then []
    else if s[0] == x then
      assert NoDuplicates(s) ==> x !in s[1..];
      Without(s[1..], x)
    else
      var rest := Without(s[1..], x);
      assert NoDuplicates(s) ==> s[0] !in s[1..];
      assert x !in s ==> [s[0]] + s[1..] == s;
      if x in s then
        CutBehindHead(s, x);
        [s[0]] + rest
      else
        [s[0]] + rest
  }

  /** Cutting out an element behind the head is cutting it out of the tail
      and putting the head back. */
  lemma CutBehindHead(s: seq<int>, x: int)
    requires s != [] && s[0] != x && x in s
    ensures x in s[1..] && IndexOf(s, x) == IndexOf(s[1..], x) + 1
    ensures s[..IndexOf(s, x)] + s[IndexOf(s, x) + 1..] ==
      [s[0]] + (s[1..][..IndexOf(s[1..], x)] + s[1..][IndexOf(s[1..], x) + 1..])
  {
  }

  /** The update toggleSelectCard applies: deselect a selected index,
      keeping the others in order, or select one that is not by appending
      it at the end. */
  function Toggled(selected: seq<int>, index: int): (r: seq<int>)
    ensures index in r <==> index !in selected
    ensures forall y :: y != index ==> (y in r <==> y in selected)
    ensures NoDuplicates(selected) ==> NoDuplicates(r)
    ensures index !in selected ==> r == selected + [index]
    ensures NoDuplicates(selected) && index in selected ==>
      r == selected[..IndexOf(selected, index)] + selected[IndexOf(selected, index) + 1..]
  {
    if index in selected then Without(selected, index) else selected + [index]
  }

  /** Removing an index just appended to a sequence without it gives the
      sequence back. */
  lemma {:induction false} WithoutAppended(s: seq<int>, x: int)
    requires x !in s
    ensures Without(s + [x], x) == s
  {
    if s == [] {
      assert [x][1..] == [];
    } else {
      assert (s + [x])[1..] == s[1..] + [x];
      WithoutAppended(s[1..], x);
      assert s == [s[0]] + s[1..];
    }
  }

  /** Clicking a card twice restores the selection: as a set always, and
      exactly when the card was not selected before. */
  lemma ToggleTwice(selected: seq<int>, index: int)
    ensures forall y :: y in Toggled(Toggled(selected, index), index) <==> y in selected
    ensures index !in selected ==> Toggled(Toggled(selected, index), index) == selected
  {
    if index !in selected {
      WithoutAppended(selected, index);
    }
  }

  /** Every position lies in a hand of `size` cards. */
  predicate PositionsIn(positions: seq<int>, size: int) {
    forall p :: p in positions ==> 0 <= p < size
  }

  /** A suffix of in-range positions is in range, and so is each position. */
  lemma PositionsInSuffix(positions: seq<int>, size: int, k: int)
    requires PositionsIn(positions, size) && 0 <= k <= |positions|
    ensures PositionsIn(positions[k..], size)
    ensures k < |positions| ==> 0 <= positions[k] < size
  {
    assert forall j :: k <= j < |positions| ==> positions[j] in positions;
    forall p | p in positions[k..] ensures p in positions {
      var j := IndexOf(positions[k..], p);
      assert positions[k + j] == p;
    }
  }

  /** What exchangeSelectedCards makes of the hand: the k-th selected
      position takes the k-th new card, in selection order. */
  function Replaced(hand: seq<Card>, positions: seq<int>, newCards: seq<Card>): (r: seq<Card>)
    requires |newCards| == |positions| && PositionsIn(positions, |hand|)
    ensures |r| == |hand|
    decreases |positions|
  {
    if positions == [] then hand
    else
      PositionsInSuffix(positions, |hand|, 0);
      PositionsInSuffix(positions, |hand|, 1);
      Replaced(hand[positions[0] := newCards[0]], positions[1..], newCards[1..])
  }

  /** With distinct positions, every selected position holds its new card
      and every other position keeps its old one. */
  lemma {:induction false} ReplacedPointwise(hand: seq<Card>, positions: seq<int>, newCards: seq<Card>)
    requires |newCards| == |positions| && PositionsIn(positions, |hand|)
    requires NoDuplicates(positions)
    ensures forall k :: 0 <= k < |positions| ==>
      0 <= positions[k] < |hand| && Replaced(hand, positions, newCards)[positions[k]] == newCards[k]
    ensures forall i :: 0 <= i < |hand| && i !in positions ==> Replaced(hand, positions, newCards)[i] == hand[i]
    decreases |positions|
  {
    if positions != [] {
      PositionsInSuffix(positions, |hand|, 0);
      PositionsInSuffix(positions, |hand|, 1);
      var h := hand[positions[0] := newCards[0]];
      ReplacedPointwise(h, positions[1..], newCards[1..]);
      var r := Replaced(hand, positions, newCards);
      forall k | 0 <= k < |positions| ensures 0 <= positions[k] < |hand| && r[positions[k]] == newCards[k] {
        PositionsInSuffix(positions, |hand|, k);
        if k == 0 {
          assert positions[0] !in positions[1..];
        } else {
          assert positions[k] == positions[1..][k - 1];
        }
      }
      forall i | 0 <= i < |hand| && i !in positions ensures r[i] == hand[i] {
        assert i !in positions[1..] && i != positions[0];
      }
    }
  }

  /** The loop of exchangeSelectedCards, one position at a time. */
  method ReplacePositions(hand: seq<Card>, positions: seq<int>, newCards: seq<Card>) returns (newHand: seq<Card>)
    requires |newCards| == |positions| && PositionsIn(positions, |hand|)
    ensures newHand == Replaced(hand, positions, newCards)
  {
    newHand := hand;
    for k := 0 to |positions|
      invariant |newHand| == |hand| && PositionsIn(positions[k..], |hand|)
      invariant Replaced(newHand, positions[k..], newCards[k..]) == Replaced(hand, positions, newCards)
    {
      assert positions[k..][1..] == positions[k + 1..] && newCards[k..][1..] == newCards[k + 1..];
      PositionsInSuffix(positions, |hand|, k);
      PositionsInSuffix(positions, |hand|, k + 1);
      newHand := newHand[positions[k] := newCards[k]];
    }
  }

  /** calculatePayout's product: a bet of no chips or a multiplier of 0
      wins nothing, and a non-negative bet never wins a negative amount. */
  function Payout(bet: int, multiplier: nat): (p: int)
    ensures bet >= 0 ==> p >= 0
    ensures bet == 0 || multiplier == 0 ==> p == 0
    ensures bet > 0 && multiplier > 0 ==> p >= bet
  {
    bet * multiplier
  }

  class PokerGame {
    var deckReady: bool          // deckId is set
    var chip: int
    var bet: Option<int>         // None is the empty input ''
    var playerHand: seq<Card>
    var selectedCards: seq<int>
    var exchangeCount: int
    var gamePhase: Phase
    var handRank: Option<HandRank>   // None is the empty name ''
    var canExchange: bool
    var winAmount: int

    /** The phase decides the rest: no hand while betting, five cards
        after the deal, exchanges open exactly in the two middle phases, at
        most two exchanges, a name only once the hand is fixed, winnings
        only then, and a selection of distinct positions of the hand. */
    ghost predicate Valid()
      reads this
    {
      && 0 <= exchangeCount <= MaxExchanges
      && (bet.Some? ==> bet.value >= 0)
      && (gamePhase == Betting ==> playerHand == [] && selectedCards == [] && exchangeCount == 0)
      && (gamePhase != Betting ==> |playerHand| == HandSize)
      && (canExchange <==> gamePhase == Initial || gamePhase == Exchange)
      && (gamePhase == Initial ==> exchangeCount == 0)
      && (gamePhase == Exchange ==> exchangeCount >= 1)
      && (handRank.Some? <==> gamePhase == Final)
      && (gamePhase != Final ==> winAmount == 0)
      && NoDuplicates(selectedCards)
      && (forall i :: i in selectedCards ==> 0 <= i < |playerHand|)
    }

    /** The initial state; `deckCreated` says whether the deck service
        answered the component's first request. */
    constructor (deckCreated: bool)
      ensures Valid()
      ensures deckReady == deckCreated && chip == StartingChips && bet == None
      ensures playerHand == [] && selectedCards == [] && exchangeCount == 0
      ensures gamePhase == Betting && handRank == None && !canExchange && winAmount == 0
    {
      deckReady := deckCreated;
      chip := StartingChips;
      bet := None;
      playerHand, selectedCards := [], [];
      exchangeCount := 0;
      gamePhase := Betting;
      handRank := None;
      canExchange := false;
      winAmount := 0;
    }

    /** handleBetChange: keep a number between 0 and the chips, keep an
        emptied field, ignore anything else. */
    method HandleBetChange(input: BetInput)
      requires Valid()
      modifies this`bet
      ensures Valid()
      ensures bet == match input
        case Number(n) => if 0 <= n <= chip then Some(n) else old(bet)
        case Blank => None
        case NotANumber => old(bet)
    {
      match input
      case Number(n) =>
        if 0 <= n <= chip {
          bet := Some(n);
        }
      case Blank =>
        bet := None;
      case NotANumber =>
    }

    /** The guard of placeBet. */
    predicate BetAccepted()
      reads this
    {
      bet.Some? && bet.value > 0 && gamePhase == Betting
    }

    /** placeBet followed by dealInitialHand: take the stake, then, when
        the deck answers with five cards, hold them and open the first
        exchange. */
    method PlaceBet(drawn: Option<seq<Card>>)
      requires Valid()
      requires drawn.Some? ==> |drawn.value| == HandSize
      modifies this
      ensures Valid()
      ensures !old(BetAccepted()) ==> unchanged(this)
      ensures old(BetAccepted()) ==>
        && chip == old(chip) - old(bet.value)
        && bet == old(bet) && deckReady == old(deckReady)
        && (if deckReady && drawn.Some? then
              && playerHand == drawn.value && gamePhase == Initial
              && exchangeCount == 0 && selectedCards == [] && handRank == None
              && canExchange && winAmount == 0
            else
              && playerHand == old(playerHand) && gamePhase == Betting
              && exchangeCount == old(exchangeCount) && selectedCards == old(selectedCards)
              && handRank == old(handRank) && canExchange == old(canExchange)
              && winAmount == old(winAmount))
    {
      if bet.Some? && bet.value > 0 && gamePhase == Betting {
        chip := chip - bet.value;
        if deckReady && drawn.Some? {
          playerHand := drawn.value;
          gamePhase := Initial;
          exchangeCount := 0;
          selectedCards := [];
          handRank := None;
          canExchange := true;
          winAmount := 0;
        }
      }
    }

    /** The guard of toggleSelectCard. */
    predicate SelectionOpen()
      reads this
    {
      (gamePhase == Initial || gamePhase == Exchange) && exchangeCount < MaxExchanges && canExchange
    }

    /** toggleSelectCard on the card shown at `index`. */
    method ToggleSelectCard(index: int)
      requires Valid()
      requires 0 <= index < |playerHand|
      modifies this`selectedCards
      ensures Valid()
      ensures selectedCards == if old(SelectionOpen()) then Toggled(old(selectedCards), index) else old(selectedCards)
    {
      if (gamePhase == Initial || gamePhase == Exchange) && exchangeCount < MaxExchanges && canExchange {
        selectedCards := Toggled(selectedCards, index);
      }
    }

    /** The guard of exchangeSelectedCards. */
    predicate ExchangeOpen()
      reads this
    {
      && (gamePhase == Initial || gamePhase == Exchange) && exchangeCount < MaxExchanges
      && |selectedCards| > 0 && deckReady && canExchange
    }

    /** exchangeSelectedCards: when the deck answers with one card per
        selected position, put the new cards at those positions, clear the
        selection and count the exchange. */
    method ExchangeSelectedCards(newCards: Option<seq<Card>>)
      requires Valid()
      requires newCards.Some? ==> |newCards.value| == |selectedCards|
      modifies this`playerHand, this`selectedCards, this`exchangeCount, this`gamePhase
      ensures Valid()
      ensures if old(ExchangeOpen()) && newCards.Some? then
          && playerHand == Replaced(old(playerHand), old(selectedCards), newCards.value)
          && selectedCards == [] && exchangeCount == old(exchangeCount) + 1 && gamePhase == Exchange
        else
          && playerHand == old(playerHand) && selectedCards == old(selectedCards)
          && exchangeCount == old(exchangeCount) && gamePhase == old(gamePhase)
    {
      if && (gamePhase == Initial || gamePhase == Exchange) && exchangeCount < MaxExchanges
         && |selectedCards| > 0 && deckReady && canExchange
      {
        if newCards.Some? {
          playerHand := ReplacePositions(playerHand, selectedCards, newCards.value);
          selectedCards := [];
          exchangeCount := exchangeCount + 1;
          gamePhase := Exchange;
        }
      }
    }

    /** The guard of finalizeHand. */
    predicate CanFinalize()
      reads this
    {
      (gamePhase == Exchange || gamePhase == Initial) && canExchange
    }

    /** finalizeHand: name the hand, then record the name and pay. */
    method FinalizeHand()
      requires Valid()
      modifies this`handRank, this`gamePhase, this`canExchange, this`winAmount, this`chip
      ensures Valid()
      ensures !old(CanFinalize()) ==> unchanged(this)
      ensures old(CanFinalize()) ==>
        && handRank == DetermineHand(playerHand) && handRank.Some?
        && gamePhase == Final && !canExchange
        && winAmount == Payout(BetValue(bet), Multiplier(handRank))
        && winAmount >= 0
        && chip == old(chip) + winAmount
        && !SelectionOpen() && !ExchangeOpen() && !CanFinalize()
    {
      if (gamePhase == Exchange || gamePhase == Initial) && canExchange {
        assert |playerHand| == HandSize;
        var rank := DetermineHand(playerHand);
        RecordHand(rank);
      }
    }

    /** The rest of finalizeHand once the name is known, with
        calculatePayout: record the name, close the exchanges, credit the
        bet times the name's multiplier. */
    method RecordHand(rank: Option<HandRank>)
      requires Valid() && CanFinalize() && rank.Some?
      modifies this`handRank, this`gamePhase, this`canExchange, this`winAmount, this`chip
      ensures Valid()
      ensures handRank == rank && gamePhase == Final && !canExchange
      ensures winAmount == Payout(BetValue(bet), Multiplier(rank)) && winAmount >= 0
      ensures chip == old(chip) + winAmount
    {
      handRank := rank;
      gamePhase := Final;
      canExchange := false;
      var payout := Payout(BetValue(bet), Multiplier(rank));
      winAmount := payout;
      chip := chip + payout;
    }

    /** startNewGame: once the deck is reshuffled, clear the round back to
        betting with a bet of 0; the chips stay as they are. */
    method StartNewGame(reshuffled: bool)
      requires Valid()
      modifies this
      ensures Valid()
      ensures !(old(deckReady) && reshuffled) ==> unchanged(this)
      ensures old(deckReady) && reshuffled ==>
        && playerHand == [] && gamePhase == Betting && handRank == None && !canExchange
        && exchangeCount == 0 && selectedCards == [] && bet == Some(0) && winAmount == 0
        && chip == old(chip) && deckReady
    {
      if deckReady && reshuffled {
        playerHand := [];
        gamePhase := Betting;
        handRank := None;
        canExchange := false;
        exchangeCount := 0;
        selectedCards := [];
        bet := Some(0);
        winAmount := 0;
      }
    }
  }
}
