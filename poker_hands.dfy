/** Five-card poker hand ranking as the poker component computes it, and its
    payout table. The rank symbols it recognises are the one-letter ones
    ('2'-'9', 'T', 'J', 'Q', 'K', 'A'); every other string, including the
    deck service's own "10", "JACK", "QUEEN", "KING" and "ACE", has value 0
    and is absent from the ace-low and royal tests. */
module PokerHands {
  import opened Cards

  /** The ten hand names of the payout table, strongest first. */
  datatype HandRank =
    | RoyalFlush | StraightFlush | FourOfAKind | FullHouse | Flush
    | Straight | ThreeOfAKind | TwoPair | OnePair | HighCard

  /** Position of a name in the order determineHand tests them. */
  function Precedence(r: HandRank): nat {
    match r
    case RoyalFlush => 0
    case StraightFlush => 1
    case FourOfAKind => 2
    case FullHouse => 3
    case Flush => 4
    case Straight => 5
    case ThreeOfAKind => 6
    case TwoPair => 7
    case OnePair => 8
    case HighCard => 9
  }

  /** payoutMultipliers: the multiplier of each name. Only a high card pays
      nothing, and the royal flush pays the most. */
  function PayoutMultiplier(r: HandRank): (m: nat)
    ensures m == 0 <==> r == HighCard
    ensures m <= 250 && (m == 250 <==> r == RoyalFlush)
  {
    match r
    case RoyalFlush => 250
    case StraightFlush => 50
    case FourOfAKind => 25
    case FullHouse => 9
    case Flush => 6
    case Straight => 4
    case ThreeOfAKind => 3
    case TwoPair => 2
    case OnePair => 1
    case HighCard => 0
  }

  /** `payoutMultipliers[rank] || 0`: an unranked hand (the empty name)
      multiplies by 0. */
  function Multiplier(rank: Option<HandRank>): (m: nat)
    ensures rank.None? ==> m == 0
    ensures m <= 250
  {
    match rank
    case None => 0
    case Some(r) => PayoutMultiplier(r)
  }

  /** The table pays strictly more for every name tested earlier. */
  lemma MultiplierFollowsPrecedence(a: HandRank, b: HandRank)
    requires Precedence(a) < Precedence(b)
    ensures Multiplier(Some(a)) > Multiplier(Some(b))
  {
  }

  const DigitSymbols: set<string> := {"2", "3", "4", "5", "6", "7", "8", "9"}

  /** rankToValue. */
  function RankToValue(rank: string): (v: nat)
    ensures v == 0 || 2 <= v <= 14
  {
    if rank in DigitSymbols then NumeralValue(rank)
    else if rank == "T" then 10
    else if rank == "J" then 11
    else if rank == "Q" then 12
    else if rank == "K" then 13
    else if rank == "A" then 14
    else 0
  }

  /** The one symbol rankToValue maps to `v`, for 2 <= v <= 14. */
  function SymbolFor(v: int): string
    requires 2 <= v <= 14
  {
    if v <= 9 then NumeralSymbol(v)
    else if v == 10 then "T"
    else if v == 11 then "J"
    else if v == 12 then "Q"
    else if v == 13 then "K"
    else "A"
  }

  /** Every value from 2 to 14 has a symbol. */
  lemma RankToValueOnto(v: int)
    requires 2 <= v <= 14
    ensures RankToValue(SymbolFor(v)) == v
  {
    if v <= 9 {
      var s := NumeralSymbol(v);
      assert s in DigitSymbols by {
        assert v == 2 || v == 3 || v == 4 || v == 5 || v == 6 || v == 7 || v == 8 || v == 9;
      }
      assert s in NumeralRanks;
    }
  }

  /** A string with a non-zero value is exactly the symbol of that value:
      only the thirteen one-letter symbols are recognised, and they are
      told apart. */
  lemma RankToValueRecognised(s: string)
    requires RankToValue(s) != 0
    ensures SymbolFor(RankToValue(s)) == s
  {
  }

  /** The deck service's spellings of ten, the faces and the ace all fall
      through to 0. */
  lemma DeckSpellingsFallThrough()
    ensures RankToValue("10") == 0 && RankToValue("JACK") == 0 && RankToValue("QUEEN") == 0
    ensures RankToValue("KING") == 0 && RankToValue("ACE") == 0
  {
  }

  predicate SortedByValue(ranks: seq<string>) {
    forall i, j :: 0 <= i < j < |ranks| ==> RankToValue(ranks[i]) <= RankToValue(ranks[j])
  }

  /** Place `r` before the first element of no smaller value. */
  function Insert(r: string, sorted: seq<string>): seq<string> {
    if sorted == [] then [r]
    else if RankToValue(r) <= RankToValue(sorted[0]) then [r] + sorted
    else [sorted[0]] + Insert(r, sorted[1..])
  }

  /** `ranks.sort((a, b) => rankToValue(a) - rankToValue(b))`, stable. */
  function SortByValue(ranks: seq<string>): seq<string> {
    if ranks == [] then [] else Insert(ranks[0], SortByValue(ranks[1..]))
  }

  /** A sorted sequence stays sorted when an element no larger than its
      head is put in front. */
  lemma SortedCons(x: string, s: seq<string>)
    requires SortedByValue(s)
    requires s != [] ==> RankToValue(x) <= RankToValue(s[0])
    ensures SortedByValue([x] + s)
  {
    var t := [x] + s;
    forall i, j | 0 <= i < j < |t| ensures RankToValue(t[i]) <= RankToValue(t[j]) {
      if i == 0 {
        assert t[j] == s[j - 1];
        assert RankToValue(s[0]) <= RankToValue(s[j - 1]);
      } else {
        assert t[i] == s[i - 1] && t[j] == s[j - 1];
      }
    }
  }

  /** Inserting into a sorted sequence keeps it sorted, adds exactly one
      occurrence of `r`, and puts `r` or the old head first. */
  lemma {:induction false} InsertSorted(r: string, sorted: seq<string>)
    requires SortedByValue(sorted)
    ensures SortedByValue(Insert(r, sorted))
    ensures multiset(Insert(r, sorted)) == multiset(sorted) + multiset{r}
    ensures Insert(r, sorted)[0] == r || (sorted != [] && Insert(r, sorted)[0] == sorted[0])
  {
    if sorted == [] {
    } else if RankToValue(r) <= RankToValue(sorted[0]) {
      SortedCons(r, sorted);
    } else {
      var rest := Insert(r, sorted[1..]);
      InsertSorted(r, sorted[1..]);
      assert sorted == [sorted[0]] + sorted[1..];
      SortedCons(sorted[0], rest);
    }
  }

  /** The comparator sort leaves the symbols in non-decreasing order of
      value and is a permutation of its input. */
  lemma {:induction false} SortByValueSorted(ranks: seq<string>)
    ensures SortedByValue(SortByValue(ranks))
    ensures multiset(SortByValue(ranks)) == multiset(ranks)
  {
    if ranks != [] {
      SortByValueSorted(ranks[1..]);
      InsertSorted(ranks[0], SortByValue(ranks[1..]));
      assert ranks == [ranks[0]] + ranks[1..];
    }
  }

  predicate Sorted(values: seq<int>) {
    forall i, j :: 0 <= i < j < |values| ==> values[i] <= values[j]
  }

  /** countRanks, as a specification: each rank present maps to the number
      of times it occurs. */
  function RankCounts(ranks: seq<string>): map<string, nat> {
    map r | r in ranks :: multiset(ranks)[r]
  }

  /** countRanks as written: one pass that bumps the rank's counter. */
  method CountRanks(ranks: seq<string>) returns (counts: map<string, nat>)
    ensures counts == RankCounts(ranks)
    ensures forall r :: r in counts ==> counts[r] >= 1
  {
    counts := map[];
    for i := 0 to |ranks|
      invariant counts == RankCounts(ranks[..i])
    {
      var rank := ranks[i];
      counts := counts[rank := (if rank in counts then counts[rank] else 0) + 1];
      assert ranks[..i + 1] == ranks[..i] + [rank];
    }
    assert ranks[..|ranks|] == ranks;
  }

  /** `suits.every(suit => suit === suits[0])`. */
  predicate AllSame(suits: seq<string>) {
    forall i :: 0 <= i < |suits| ==> suits[i] == suits[0]
  }

  /** `values.every((v, i, a) => i === 0 || v === a[i - 1] + 1)`. */
  predicate Consecutive(values: seq<int>) {
    forall i :: 0 < i < |values| ==> values[i] == values[i - 1] + 1
  }

  /** The literal ace-low test. */
  predicate AceLowRun(ranks: seq<string>) {
    "A" in ranks && "2" in ranks && "3" in ranks && "4" in ranks && "5" in ranks
  }

  /** hasRoyal. */
  predicate HasRoyal(ranks: seq<string>) {
    "A" in ranks && "K" in ranks && "Q" in ranks && "J" in ranks && "T" in ranks
  }

  /** `Object.values(rankCounts).filter(count => count === 2).length`. */
  function PairCount(counts: map<string, nat>): nat {
    |set r | r in counts && counts[r] == 2|
  }

  function SortedRanks(hand: seq<Card>): seq<string> { SortByValue(Ranks(hand)) }

  function SortedValues(hand: seq<Card>): seq<int> { MapSeq(RankToValue, SortedRanks(hand)) }

  predicate IsFlush(hand: seq<Card>) { AllSame(Suits(hand)) }

  predicate IsStraight(hand: seq<Card>) {
    Consecutive(SortedValues(hand)) || AceLowRun(SortedRanks(hand))
  }

  /** The chain of tests of determineHand, strongest first, on the facts it
      computes about a five-card hand: each name is given exactly when its
      own test passes and the test of every name before it fails. */
  function Classify(isFlush: bool, isStraight: bool, hasRoyal: bool, counts: map<string, nat>): (rank: HandRank)
    ensures rank == RoyalFlush <==> isFlush && isStraight && hasRoyal
    ensures rank == StraightFlush <==> isFlush && isStraight && !hasRoyal
    ensures rank == FourOfAKind <==> !(isFlush && isStraight) && 4 in counts.Values
    ensures rank == FullHouse <==>
      !(isFlush && isStraight) && 4 !in counts.Values && 3 in counts.Values && 2 in counts.Values
    ensures rank == Flush <==>
      isFlush && !isStraight && 4 !in counts.Values && !(3 in counts.Values && 2 in counts.Values)
    ensures rank == Straight <==>
      !isFlush && isStraight && 4 !in counts.Values && !(3 in counts.Values && 2 in counts.Values)
    ensures rank == ThreeOfAKind <==>
      !isFlush && !isStraight && 4 !in counts.Values && 3 in counts.Values && 2 !in counts.Values
    ensures rank == TwoPair <==>
      !isFlush && !isStraight && 4 !in counts.Values && 3 !in counts.Values && PairCount(counts) == 2
    ensures rank == OnePair <==>
      !isFlush && !isStraight && 4 !in counts.Values && 3 !in counts.Values && PairCount(counts) == 1
    ensures rank == HighCard <==>
      !isFlush && !isStraight && 4 !in counts.Values && 3 !in counts.Values
      && PairCount(counts) != 2 && PairCount(counts) != 1
  {
    if isFlush && isStraight && hasRoyal then RoyalFlush
    else if isFlush && isStraight then StraightFlush
    else if 4 in counts.Values then FourOfAKind
    else if 3 in counts.Values && 2 in counts.Values then FullHouse
    else if isFlush then Flush
    else if isStraight then Straight
    else if 3 in counts.Values then ThreeOfAKind
    else if PairCount(counts) == 2 then TwoPair
    else if PairCount(counts) == 1 then OnePair
    else HighCard
  }

  /** determineHand: `None` is the empty name returned for a hand that does
      not hold exactly five cards; otherwise the first name whose test
      passes. */
  function DetermineHand(hand: seq<Card>): (rank: Option<HandRank>)
    ensures rank.None? <==> |hand| != 5
  {
    if |hand| != 5 then None
    else
      var ranks := SortedRanks(hand);
      Some(Classify(IsFlush(hand), IsStraight(hand), HasRoyal(ranks), RankCounts(ranks)))
  }

  /** A five-card straight in one suit is named by the royal test alone. */
  lemma StraightFlushRanking(hand: seq<Card>)
    requires |hand| == 5 && IsFlush(hand) && IsStraight(hand)
    ensures DetermineHand(hand) == Some(if HasRoyal(SortedRanks(hand)) then RoyalFlush else StraightFlush)
  {
  }

  /** The head of a sorted sequence is its least element. */
  lemma SortedHeadLeast(a: seq<int>, x: int)
    requires Sorted(a) && x in a
    ensures a[0] <= x
  {
    var k := IndexOf(a, x);
    assert k == 0 || a[0] <= a[k];
  }

  /** Two sorted sequences holding the same values are equal. */
  lemma {:induction false} SortedUnique(a: seq<int>, b: seq<int>)
    requires Sorted(a) && Sorted(b) && multiset(a) == multiset(b)
    ensures a == b
  {
    if a == [] {
      assert |b| == |multiset(b)| == 0;
    } else {
      assert |b| == |multiset(b)| == |a|;
      assert a[0] in multiset(b) && b[0] in multiset(a);
      SortedHeadLeast(a, b[0]);
      SortedHeadLeast(b, a[0]);
      var x := a[0];
      assert b[0] == x;
      assert a == [x] + a[1..] && b == [x] + b[1..];
      var ta, tb := a[1..], b[1..];
      assert multiset(a) == multiset{x} + multiset(ta);
      assert multiset(b) == multiset{x} + multiset(tb);
      assert multiset(ta) == multiset(a) - multiset{x};
      assert multiset(tb) == multiset(b) - multiset{x};
      assert Sorted(ta) && Sorted(tb);
      SortedUnique(ta, tb);
    }
  }

  lemma SortedValuesAreSorted(hand: seq<Card>)
    ensures Sorted(SortedValues(hand))
  {
    SortByValueSorted(Ranks(hand));
  }

  lemma AllSamePermutation(a: seq<string>, b: seq<string>)
    requires multiset(a) == multiset(b)
    ensures AllSame(a) <==> AllSame(b)
  {
    if AllSame(a) && |a| > 0 {
      forall j | 0 <= j < |b| ensures b[j] == a[0] {
        assert b[j] in multiset(a);
        var k := IndexOf(a, b[j]);
      }
    }
    if AllSame(b) && |b| > 0 {
      forall j | 0 <= j < |a| ensures a[j] == b[0] {
        assert a[j] in multiset(b);
        var k := IndexOf(b, a[j]);
      }
    }
    assert |a| == |multiset(a)| == |b|;
  }

  /** Reordering the hand reorders its rank symbols and its suits. */
  lemma SortedRanksPermutation(h1: seq<Card>, h2: seq<Card>)
    requires multiset(h1) == multiset(h2)
    ensures multiset(SortedRanks(h1)) == multiset(SortedRanks(h2))
    ensures multiset(Suits(h1)) == multiset(Suits(h2))
  {
    SortByValueSorted(Ranks(h1));
    SortByValueSorted(Ranks(h2));
    MapPermutation(RankOf, h1, h2);
    MapPermutation(SuitOf, h1, h2);
  }

  /** Membership tests and counts depend only on the multiset of symbols. */
  lemma RankFactsPermutation(r1: seq<string>, r2: seq<string>)
    requires multiset(r1) == multiset(r2)
    ensures RankCounts(r1) == RankCounts(r2)
    ensures AceLowRun(r1) == AceLowRun(r2) && HasRoyal(r1) == HasRoyal(r2)
  {
    forall x ensures x in r1 <==> x in r2 {
      PermutationMembers(r1, r2, x);
    }
  }

  /** The sorted values are the same for any reordering of the hand. */
  lemma SortedValuesPermutation(h1: seq<Card>, h2: seq<Card>)
    requires multiset(h1) == multiset(h2)
    ensures SortedValues(h1) == SortedValues(h2)
  {
    SortedRanksPermutation(h1, h2);
    MapPermutation(RankToValue, SortedRanks(h1), SortedRanks(h2));
    SortedValuesAreSorted(h1);
    SortedValuesAreSorted(h2);
    SortedUnique(SortedValues(h1), SortedValues(h2));
  }

  /** The ranking is invariant under any reordering of the five cards. */
  lemma DetermineHandPermutation(h1: seq<Card>, h2: seq<Card>)
    requires multiset(h1) == multiset(h2)
    ensures DetermineHand(h1) == DetermineHand(h2)
  {
    assert |h1| == |multiset(h1)| == |h2|;
    SortedRanksPermutation(h1, h2);
    RankFactsPermutation(SortedRanks(h1), SortedRanks(h2));
    AllSamePermutation(Suits(h1), Suits(h2));
    SortedValuesPermutation(h1, h2);
    assert IsFlush(h1) == IsFlush(h2);
    assert IsStraight(h1) == IsStraight(h2);
  }

  /** Five distinct symbols give a count of 1 to every rank present. */
  lemma DistinctCounts(ranks: seq<string>)
    requires forall r :: multiset(ranks)[r] <= 1
    ensures 4 !in RankCounts(ranks).Values && 3 !in RankCounts(ranks).Values
  {
    var counts := RankCounts(ranks);
    forall r | r in counts ensures counts[r] == 1 {
      assert r in multiset(ranks);
    }
  }

  /** The symbols 'A', '2', '3', '4', '5' once each, in any order. */
  lemma AceLowSymbols(ranks: seq<string>)
    requires multiset(ranks) == multiset{"A", "2", "3", "4", "5"}
    ensures |ranks| == 5 && AceLowRun(ranks)
    ensures 4 !in RankCounts(ranks).Values && 3 !in RankCounts(ranks).Values
  {
    assert |ranks| == |multiset(ranks)|;
    var m := multiset(ranks);
    assert forall r :: m[r] <= 1;
    DistinctCounts(ranks);
    assert "A" in m && "2" in m && "3" in m && "4" in m && "5" in m;
  }

  /** A hand whose ranks are 'A', '2', '3', '4' and '5' in any order and in
      mixed suits ranks as a straight, through the literal ace-low test. */
  lemma AceLowStraight(hand: seq<Card>)
    requires multiset(Ranks(hand)) == multiset{"A", "2", "3", "4", "5"}
    requires !IsFlush(hand)
    ensures DetermineHand(hand) == Some(Straight)
  {
    var ranks := SortedRanks(hand);
    SortByValueSorted(Ranks(hand));
    AceLowSymbols(ranks);
    assert |hand| == |Ranks(hand)| == |ranks|;
    assert IsStraight(hand);
  }

  /** Two leading values of 0 break any run of consecutive values. */
  lemma ZeroStartNotConsecutive(ranks: seq<string>)
    requires |ranks| >= 2 && RankToValue(ranks[0]) == 0 && RankToValue(ranks[1]) == 0
    ensures !Consecutive(MapSeq(RankToValue, ranks))
  {
    var values := MapSeq(RankToValue, ranks);
    assert values[1] != values[0] + 1;
  }

  /** The deck service's spellings of the royal ranks, once each, in any
      order: no symbol is recognised, none repeats, no ace-low run. */
  lemma DeckRoyalSymbols(ranks: seq<string>)
    requires multiset(ranks) == multiset{"10", "JACK", "QUEEN", "KING", "ACE"}
    ensures |ranks| == 5 && !AceLowRun(ranks) && !Consecutive(MapSeq(RankToValue, ranks))
    ensures 4 !in RankCounts(ranks).Values && 3 !in RankCounts(ranks).Values
  {
    assert |ranks| == |multiset(ranks)|;
    var m := multiset(ranks);
    assert forall r :: m[r] <= 1;
    DistinctCounts(ranks);
    assert "A" !in m;
    assert ranks[0] in m && ranks[1] in m;
    DeckSpellingsFallThrough();
    ZeroStartNotConsecutive(ranks);
  }

  /** A royal flush as the deck service spells it (ten, jack, queen, king and
      ace of one suit, in any order) has five values 0, so it is no straight
      and ranks only as a flush. */
  lemma DeckRoyalIsPlainFlush(hand: seq<Card>)
    requires multiset(Ranks(hand)) == multiset{"10", "JACK", "QUEEN", "KING", "ACE"}
    requires IsFlush(hand)
    ensures DetermineHand(hand) == Some(Flush)
  {
    var ranks := SortedRanks(hand);
    SortByValueSorted(Ranks(hand));
    DeckRoyalSymbols(ranks);
    assert |hand| == |Ranks(hand)| == |ranks|;
    assert !IsStraight(hand);
  }
}
