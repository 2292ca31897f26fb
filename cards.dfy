/** The card vocabulary shared by the three games: a drawn card, the rank
    symbols the deck service uses, the parsed form of a bet input field, and
    sequence facts the games' permutation lemmas rest on. */
module Cards {

  datatype Option<T> = None | Some(value: T)

  /** A card as the deck service returns it: `value` is its rank symbol and
      `suit` its suit symbol. The image URL is presentation and is not kept. */
  datatype Card = Card(value: string, suit: string)

  /** The content of a bet input field after `parseInt(text, 10)`: an empty
      field, text that parses to the integer `n`, or non-empty text that
      parses to NaN. */
  datatype BetInput = Blank | Number(n: int) | NotANumber

  /** A bet held as the games hold it, in arithmetic: `None` is the empty
      string `''`, which JavaScript multiplies as 0. An empty field and a
      zero bet are the same stake, and a stake kept non-negative stays so. */
  function BetValue(bet: Option<int>): (v: int)
    ensures v == 0 <==> bet.None? || bet.value == 0
    ensures (bet.Some? ==> bet.value >= 0) ==> v >= 0
  {
    match bet
    case None => 0    // '' * k is 0 in JavaScript
    case Some(n) => n
  }

  const NumeralRanks: set<string> := {"2", "3", "4", "5", "6", "7", "8", "9", "10"}
  const FaceRanks: set<string> := {"JACK", "QUEEN", "KING"}

  /** The thirteen rank symbols the deck service hands out. */
  predicate IsDeckRank(v: string) {
    v in NumeralRanks || v in FaceRanks || v == "ACE"
  }

  predicate AllDigits(s: string) {
    forall i :: 0 <= i < |s| ==> '0' <= s[i] <= '9'
  }

  /** `parseInt(s, 10)` on a string made only of decimal digits. */
  function ParseDecimal(s: string): (n: nat)
    requires AllDigits(s)
  {
    if |s| == 0 then 0
    else ParseDecimal(s[..|s| - 1]) * 10 + (s[|s| - 1] as int - '0' as int)
  }

  /** The value `parseInt` gives a numeral rank. */
  function NumeralValue(v: string): (n: int)
    requires v in NumeralRanks
    ensures 2 <= n <= 10
    ensures NumeralSymbol(n) == v
  {
    assert v == "2" || v == "3" || v == "4" || v == "5" || v == "6" || v == "7" || v == "8" || v == "9" || v == "10";
    assert ParseDecimal("1") == 1;
    ParseDecimal(v)
  }

  /** The numeral rank whose value is `n`, for 2 <= n <= 10. */
  function NumeralSymbol(n: int): string
    requires 2 <= n <= 10
  {
    if n == 10 then "10" else [('0' as int + n) as char]
  }

  /** Distinct numeral ranks have distinct values. */
  lemma NumeralValueInjective(v: string, w: string)
    requires v in NumeralRanks && w in NumeralRanks
    requires NumeralValue(v) == NumeralValue(w)
    ensures v == w
  {
  }

  function RankOf(c: Card): string { c.value }
  function SuitOf(c: Card): string { c.suit }

  /** `seq.map(f)`. */
  function MapSeq<A, B>(f: A -> B, s: seq<A>): (r: seq<B>)
    ensures |r| == |s|
    ensures forall i :: 0 <= i < |s| ==> r[i] == f(s[i])
  {
    if s == [] then [] else [f(s[0])] + MapSeq(f, s[1..])
  }

  function Ranks(cards: seq<Card>): seq<string> { MapSeq(RankOf, cards) }
  function Suits(cards: seq<Card>): seq<string> { MapSeq(SuitOf, cards) }

  predicate NoDuplicates<T(==)>(s: seq<T>) {
    forall i, j :: 0 <= i < j < |s| ==> s[i] != s[j]
  }

  /** The first position of `x` in `s`. */
  function IndexOf<T(==)>(s: seq<T>, x: T): (i: nat)
    requires x in s
    ensures i < |s| && s[i] == x
  {
    if s[0] == x then 0 else 1 + IndexOf(s[1..], x)
  }

  /** Removing the element at `i` removes exactly one occurrence of it. */
  lemma MultisetWithout<T>(s: seq<T>, i: nat)
    requires i < |s|
    ensures multiset(s[..i] + s[i + 1..]) == multiset(s) - multiset{s[i]}
  {
    assert s == s[..i] + [s[i]] + s[i + 1..];
  }

  /** Two permutations of each other, with the first element of one matched
      to a position of the other: what remains is again a permutation. */
  lemma PermutationTail<T>(a: seq<T>, b: seq<T>) returns (i: nat)
    requires multiset(a) == multiset(b) && |a| > 0
    ensures i < |b| && b[i] == a[0]
    ensures multiset(a[1..]) == multiset(b[..i] + b[i + 1..])
  {
    assert a[0] in multiset(b);
    i := IndexOf(b, a[0]);
    MultisetWithout(b, i);
    assert a == [a[0]] + a[1..];
  }

  lemma MapSeqAppend<A, B>(f: A -> B, s: seq<A>, t: seq<A>)
    ensures MapSeq(f, s + t) == MapSeq(f, s) + MapSeq(f, t)
  {
  }

  /** Mapping a function over two permutations of each other gives two
      permutations of each other. */
  lemma {:induction false} MapPermutation<A, B>(f: A -> B, a: seq<A>, b: seq<A>)
    requires multiset(a) == multiset(b)
    ensures multiset(MapSeq(f, a)) == multiset(MapSeq(f, b))
  {
    if a == [] {
      assert |b| == |multiset(b)| == 0;
    } else {
      var i := PermutationTail(a, b);
      var rest := b[..i] + b[i + 1..];
      MapPermutation(f, a[1..], rest);
      assert b == b[..i] + [b[i]] + b[i + 1..];
      MapSeqAppend(f, b[..i] + [b[i]], b[i + 1..]);
      MapSeqAppend(f, b[..i], [b[i]]);
      MapSeqAppend(f, b[..i], b[i + 1..]);
      assert MapSeq(f, a) == [f(a[0])] + MapSeq(f, a[1..]);
    }
  }

  /** Membership depends only on the multiset of elements. */
  lemma PermutationMembers<T>(a: seq<T>, b: seq<T>, x: T)
    requires multiset(a) == multiset(b)
    ensures x in a <==> x in b
  {
    assert x in a <==> x in multiset(a);
    assert x in b <==> x in multiset(b);
  }
}
