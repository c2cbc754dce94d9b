/** lesson_5/medium_1/10.rb: a 52-card deck that refills itself when it
    is drawn empty, card values and their comparison, and the poker-hand
    classifier with the hands its inline checks use. */
module Poker {
  import opened Util

  /** A rank of `Deck::RANKS`: an integer from 2 to 10 or a court name. */
  datatype Rank = Pip(n: int) | Jack | Queen | King | Ace

  datatype Card = Card(rank: Rank, suit: string)

  /** `Deck::RANKS`: `(2..10).to_a + %w(Jack Queen King Ace)`. */
  const RANKS: seq<Rank> :=
    [Pip(2), Pip(3), Pip(4), Pip(5), Pip(6), Pip(7), Pip(8), Pip(9), Pip(10), Jack, Queen, King, Ace]

  /** `Deck::SUITS`. */
  const SUITS: seq<string> := ["Hearts", "Clubs", "Diamonds", "Spades"]

  /** `Card#value`: 14 for an ace, 13, 12 and 11 for king, queen and jack,
      and the rank itself for a number. */
  function Value(c: Card): int {
    match c.rank
    case Ace => 14
    case King => 13
    case Queen => 12
    case Jack => 11
    case Pip(n) => n
  }

  /** The ranks of the deck are listed in increasing value, from 2 for
      the first to 14 for the ace, so the ace ranks highest. */
  lemma RankValues(suit: string)
    ensures |RANKS| == 13 && Distinct(RANKS)
    ensures forall i :: 0 <= i < |RANKS| ==> Value(Card(RANKS[i], suit)) == i + 2
  {
    forall i | 0 <= i < |RANKS|
      ensures Value(Card(RANKS[i], suit)) == i + 2
    {
      if i < 9 { assert RANKS[i] == Pip(i + 2); }
    }
  }

  /** `Card#<=>`: the spaceship operator on the two values. */
  function Compare(a: Card, b: Card): (r: int)
    ensures r in {-1, 0, 1}
  {
    if Value(a) < Value(b) then -1 else if Value(a) == Value(b) then 0 else 1
  }

  /** `<=>` orders cards by value alone: two cards of the same value
      compare as equal whatever their suits, and swapping the operands
      negates the result. */
  lemma CompareSpec(a: Card, b: Card)
    ensures Compare(a, b) < 0 <==> Value(a) < Value(b)
    ensures Compare(a, b) == 0 <==> Value(a) == Value(b)
    ensures Compare(a, b) > 0 <==> Value(a) > Value(b)
    ensures Compare(b, a) == -Compare(a, b)
  {
  }

  // ---------------------------------------------------------------
  // The deck

  /** The four cards of one rank, in the order of SUITS. */
  function SuitsOf(rank: Rank): seq<Card> {
    [Card(rank, SUITS[0]), Card(rank, SUITS[1]), Card(rank, SUITS[2]), Card(rank, SUITS[3])]
  }

  /** The cards `reset` appends for the given ranks, rank by rank. */
  function CardsOfRanks(ranks: seq<Rank>): seq<Card> {
    if ranks == [] then [] else CardsOfRanks(ranks[..|ranks| - 1]) + SuitsOf(ranks[|ranks| - 1])
  }

  /** The 52 cards one `reset` appends, before the shuffle. */
  function FullDeck(): seq<Card> {
    CardsOfRanks(RANKS)
  }

  lemma SuitsOfCount(rank: Rank, c: Card)
    ensures multiset(SuitsOf(rank))[c] == if c.rank == rank && c.suit in SUITS then 1 else 0
  {
  }

  lemma {:induction false} CardsOfRanksCount(ranks: seq<Rank>, c: Card)
    requires Distinct(ranks)
    ensures |CardsOfRanks(ranks)| == |SUITS| * |ranks|
    ensures multiset(CardsOfRanks(ranks))[c] == if c.rank in ranks && c.suit in SUITS then 1 else 0
  {
    if ranks != [] {
      var init := ranks[..|ranks| - 1];
      var last := ranks[|ranks| - 1];
      assert ranks == init + [last];
      DistinctInit(ranks);
      CardsOfRanksCount(init, c);
      SuitsOfCount(last, c);
      assert |SUITS| == 4;
      assert CardsOfRanks(ranks) == CardsOfRanks(init) + SuitsOf(last);
      assert multiset(CardsOfRanks(ranks))[c] == multiset(CardsOfRanks(init))[c] + multiset(SuitsOf(last))[c];
      assert (c.rank in ranks) == (c.rank in init || c.rank == last);
    }
  }

  /** One `reset` appends 13 * 4 = 52 cards: every rank with every suit,
      each pair exactly once. */
  lemma FullDeckSpec(c: Card)
    ensures |FullDeck()| == 52
    ensures multiset(FullDeck())[c] == if c.rank in RANKS && c.suit in SUITS then 1 else 0
  {
    RankValues(c.suit);
    CardsOfRanksCount(RANKS, c);
  }

  class Deck {
    var cards: seq<Card>

    /** `initialize`: an empty list, then one `reset`. */
    constructor ()
      ensures |cards| == 52 && multiset(cards) == multiset(FullDeck())
    {
      cards := [];
      new;
      Reset();
    }

    /** `deck_empty?` */
    predicate DeckEmpty()
      reads this
    {
      |cards| == 0
    }

    /** `reset`: a card per rank and suit is appended to the cards already
        there, and the whole list is shuffled. */
    method Reset()
      modifies this
      ensures |cards| == old(|cards|) + 52
      ensures multiset(cards) == old(multiset(cards)) + multiset(FullDeck())
    {
      ghost var c0 := cards;
      for r := 0 to |RANKS|
        invariant cards == c0 + CardsOfRanks(RANKS[..r])
      {
        for s := 0 to |SUITS|
          invariant cards == c0 + CardsOfRanks(RANKS[..r]) + SuitsOf(RANKS[r])[..s]
        {
          assert SuitsOf(RANKS[r])[..s + 1] == SuitsOf(RANKS[r])[..s] + [Card(RANKS[r], SUITS[s])];
          cards := cards + [Card(RANKS[r], SUITS[s])];
        }
        assert RANKS[..r + 1][..r] == RANKS[..r];
      }
      assert RANKS[..|RANKS|] == RANKS;
      FullDeckSpec(Card(Ace, SUITS[0]));
      cards := Shuffle(cards);
    }

    /** `draw`: an empty deck is reset first, so a card is always
        returned; it is the last card, which is removed. */
    method Draw() returns (c: Card)
      modifies this
      ensures old(cards) != [] ==> c == old(cards[|cards| - 1]) && cards == old(cards[..|cards| - 1])
      ensures old(cards) == [] ==> |cards| == 51 && multiset(cards) + multiset{c} == multiset(FullDeck())
    {
      if DeckEmpty() {
        Reset();
      }
      ghost var before := cards;
      c := cards[|cards| - 1];
      cards := cards[..|cards| - 1];
      assert before == cards + [c];
    }
  }

  // ---------------------------------------------------------------
  // Sorting, uniq and count, as the classifier uses them

  predicate Sorted(s: seq<int>) {
    forall i, j :: 0 <= i < j < |s| ==> s[i] <= s[j]
  }

  function Insert(x: int, s: seq<int>): (r: seq<int>)
    ensures |r| == |s| + 1
  {
    if |s| == 0 || x <= s[0] then [x] + s else [s[0]] + Insert(x, s[1..])
  }

  /** `Array#sort` on integers, as an insertion sort: a sorted
      rearrangement, and there is only one. */
  function Sort(xs: seq<int>): (r: seq<int>)
    ensures |r| == |xs|
  {
    if |xs| == 0 then [] else Insert(xs[0], Sort(xs[1..]))
  }

  /** An element no larger than every element of a sorted list may be
      put in front of it. */
  lemma SortedCons(x: int, s: seq<int>)
    requires Sorted(s)
    requires forall i :: 0 <= i < |s| ==> x <= s[i]
    ensures Sorted([x] + s)
  {
    var r := [x] + s;
    forall i, j | 0 <= i < j < |r|
      ensures r[i] <= r[j]
    {
      if i > 0 {
        assert r[i] == s[i - 1] && r[j] == s[j - 1];
      } else {
        assert r[j] == s[j - 1];
      }
    }
  }

  lemma {:induction false} InsertSpec(x: int, s: seq<int>)
    requires Sorted(s)
    ensures Sorted(Insert(x, s))
    ensures multiset(Insert(x, s)) == multiset(s) + multiset{x}
  {
    if s == [] || x <= s[0] {
      SortedCons(x, s);
    } else {
      var t := Insert(x, s[1..]);
      InsertSpec(x, s[1..]);
      assert s == [s[0]] + s[1..];
      forall i | 0 <= i < |t|
        ensures s[0] <= t[i]
      {
        assert t[i] in multiset(t);
        if t[i] != x {
          assert t[i] in multiset(s[1..]);
          var k :| 0 <= k < |s[1..]| && s[1..][k] == t[i];
          assert s[k + 1] == t[i];
        }
      }
      SortedCons(s[0], t);
    }
  }

  /** `sort` returns its argument in non-decreasing order, with the same
      elements as often as before. */
  lemma {:induction false} SortSpec(xs: seq<int>)
    ensures Sorted(Sort(xs))
    ensures multiset(Sort(xs)) == multiset(xs)
  {
    if xs != [] {
      SortSpec(xs[1..]);
      InsertSpec(xs[0], Sort(xs[1..]));
      assert xs == [xs[0]] + xs[1..];
    }
  }

  function Sum(s: seq<int>): int {
    if s == [] then 0 else s[0] + Sum(s[1..])
  }

  lemma {:induction false} SumInsert(x: int, s: seq<int>)
    ensures Sum(Insert(x, s)) == x + Sum(s)
  {
    if s != [] && x > s[0] {
      SumInsert(x, s[1..]);
    }
  }

  /** Sorting keeps the sum. */
  lemma {:induction false} SumSort(xs: seq<int>)
    ensures Sum(Sort(xs)) == Sum(xs)
  {
    if xs != [] {
      SumSort(xs[1..]);
      SumInsert(xs[0], Sort(xs[1..]));
    }
  }

  /** `Array#uniq`: the first occurrence of each element, in order. The
      elements of `xs` are appended to `seen` unless already there. */
  function UniqAfter<T(==)>(seen: seq<T>, xs: seq<T>): seq<T>
    decreases |xs|
  {
    if |xs| == 0 then seen
    else UniqAfter(if xs[0] in seen then seen else seen + [xs[0]], xs[1..])
  }

  function Uniq<T(==)>(xs: seq<T>): seq<T> {
    UniqAfter([], xs)
  }

  lemma {:induction false} UniqAfterSpec<T>(seen: seq<T>, xs: seq<T>)
    requires Distinct(seen)
    ensures Distinct(UniqAfter(seen, xs))
    ensures forall v :: v in UniqAfter(seen, xs) <==> v in seen || v in xs
    decreases |xs|
  {
    if |xs| > 0 {
      var next := if xs[0] in seen then seen else seen + [xs[0]];
      forall i, j | 0 <= i < j < |next|
        ensures next[i] != next[j]
      {
        if j == |seen| {
          assert next[i] == seen[i];
        }
      }
      UniqAfterSpec(next, xs[1..]);
      assert xs == [xs[0]] + xs[1..];
    }
  }

  /** Once a value has been seen, further copies of it add nothing. */
  lemma {:induction false} UniqAfterSame<T>(x: T, xs: seq<T>)
    requires forall i :: 0 <= i < |xs| ==> xs[i] == x
    ensures UniqAfter([x], xs) == [x]
    decreases |xs|
  {
    if |xs| > 0 {
      assert xs[0] in [x];
      assert forall i :: 0 <= i < |xs[1..]| ==> xs[1..][i] == xs[i + 1];
      UniqAfterSame(x, xs[1..]);
    }
  }

  /** Values none of which has been seen, and none twice, are all kept,
      in their order. */
  lemma {:induction false} UniqAfterFresh<T>(seen: seq<T>, xs: seq<T>)
    requires Distinct(xs)
    requires forall i :: 0 <= i < |xs| ==> xs[i] !in seen
    ensures UniqAfter(seen, xs) == seen + xs
    decreases |xs|
  {
    if |xs| > 0 {
      var rest := xs[1..];
      assert forall i :: 0 <= i < |rest| ==> rest[i] == xs[i + 1];
      assert forall i :: 0 <= i < |rest| ==> rest[i] !in seen + [xs[0]];
      UniqAfterFresh(seen + [xs[0]], rest);
      assert seen + [xs[0]] + rest == seen + xs;
    }
  }

  /** `uniq` leaves a list without repeats as it is. */
  lemma UniqOfDistinct<T>(xs: seq<T>)
    requires Distinct(xs)
    ensures Uniq(xs) == xs
  {
    UniqAfterFresh([], xs);
    assert [] + xs == xs;
  }

  lemma UniqSpec<T>(xs: seq<T>)
    ensures Distinct(Uniq(xs))
    ensures forall v :: v in Uniq(xs) <==> v in xs
  {
    UniqAfterSpec([], xs);
  }

  /** `u.collect { |value| xs.count(value) }`. */
  function CountsOf<T(==)>(u: seq<T>, xs: seq<T>): (r: seq<int>)
    ensures |r| == |u|
  {
    seq(|u|, i requires 0 <= i < |u| => Count(xs, u[i]) as int)
  }

  lemma CountsOfCons<T>(u: seq<T>, xs: seq<T>)
    requires u != []
    ensures CountsOf(u, xs) == [Count(xs, u[0]) as int] + CountsOf(u[1..], xs)
  {
  }

  lemma {:induction false} CountsOfNothing<T>(u: seq<T>)
    ensures Sum(CountsOf(u, [])) == 0
  {
    if u != [] {
      CountsOfCons(u, []);
      CountsOfNothing(u[1..]);
    }
  }

  lemma {:induction false} CountsOfSnoc<T>(u: seq<T>, xs: seq<T>, x: T)
    ensures Sum(CountsOf(u, xs + [x])) == Sum(CountsOf(u, xs)) + Count(u, x)
  {
    if u != [] {
      CountsOfCons(u, xs + [x]);
      CountsOfCons(u, xs);
      CountsOfSnoc(u[1..], xs, x);
      CountAppend(xs, [x], u[0]);
      assert [x][1..] == [];
    }
  }

  lemma {:induction false} CountDistinct<T>(u: seq<T>, x: T)
    requires Distinct(u)
    ensures Count(u, x) == if x in u then 1 else 0
  {
    if u != [] {
      assert Distinct(u[1..]);
      CountDistinct(u[1..], x);
      assert u == [u[0]] + u[1..];
      if x == u[0] {
        assert x !in u[1..];
      }
    }
  }

  /** Counting every element of `xs` once per distinct value that covers
      it adds up to the length of `xs`. */
  lemma {:induction false} CountsOfSum<T>(u: seq<T>, xs: seq<T>)
    requires Distinct(u)
    requires forall v :: v in xs ==> v in u
    ensures Sum(CountsOf(u, xs)) == |xs|
  {
    if xs == [] {
      CountsOfNothing(u);
    } else {
      var init := xs[..|xs| - 1];
      var last := xs[|xs| - 1];
      assert xs == init + [last];
      CountsOfSum(u, init);
      CountsOfSnoc(u, init, last);
      CountDistinct(u, last);
    }
  }

  /** `count` is the multiplicity of the element. */
  lemma {:induction false} CountIsMultiplicity<T>(s: seq<T>, x: T)
    ensures Count(s, x) == multiset(s)[x]
  {
    if s != [] {
      CountIsMultiplicity(s[1..], x);
      assert s == [s[0]] + s[1..];
    }
  }

  // ---------------------------------------------------------------
  // The classifier

  function Values(hand: seq<Card>): seq<int> {
    seq(|hand|, i requires 0 <= i < |hand| => Value(hand[i]))
  }

  /** `values_in_hand`: the card values, sorted. */
  function ValuesInHand(hand: seq<Card>): seq<int> {
    Sort(Values(hand))
  }

  /** `value_counts`: how often each distinct value occurs, sorted. */
  function ValueCounts(hand: seq<Card>): seq<int> {
    Sort(CountsOf(Uniq(ValuesInHand(hand)), ValuesInHand(hand)))
  }

  /** The values in hand are the cards' values in non-decreasing order,
      each as often as among the cards. */
  lemma ValuesInHandSpec(hand: seq<Card>)
    ensures |ValuesInHand(hand)| == |hand|
    ensures Sorted(ValuesInHand(hand))
    ensures multiset(ValuesInHand(hand)) == multiset(Values(hand))
    ensures forall v :: Count(ValuesInHand(hand), v) == Count(Values(hand), v)
  {
    SortSpec(Values(hand));
    forall v ensures Count(ValuesInHand(hand), v) == Count(Values(hand), v) {
      CountIsMultiplicity(ValuesInHand(hand), v);
      CountIsMultiplicity(Values(hand), v);
    }
  }

  /** The number of distinct values, as `uniq` finds them. */
  lemma DistinctValues(hand: seq<Card>)
    ensures Distinct(Uniq(ValuesInHand(hand)))
    ensures forall v :: v in Uniq(ValuesInHand(hand)) <==> v in Values(hand)
  {
    ValuesInHandSpec(hand);
    UniqSpec(ValuesInHand(hand));
    forall v ensures v in ValuesInHand(hand) <==> v in Values(hand) {
      assert v in ValuesInHand(hand) <==> v in multiset(ValuesInHand(hand));
    }
  }

  /** Every entry of `value_counts` is at least 1: it counts a value that
      occurs. */
  lemma ValueCountsPositive(hand: seq<Card>)
    ensures forall c :: c in ValueCounts(hand) ==> c >= 1
  {
    var vs := ValuesInHand(hand);
    var u := Uniq(vs);
    var counts := CountsOf(u, vs);
    UniqSpec(vs);
    SortSpec(counts);
    forall c | c in ValueCounts(hand)
      ensures c >= 1
    {
      assert c in multiset(counts);
      var i :| 0 <= i < |counts| && counts[i] == c;
      CountBounds(vs, u[i]);
    }
  }

  /** `value_counts` is sorted, its entries are the multiplicities of the
      distinct values (which are those of the cards, `ValuesInHandSpec`),
      each at least 1, and they add up to the number of
      cards. */
  lemma ValueCountsSpec(hand: seq<Card>)
    ensures Sorted(ValueCounts(hand))
    ensures |ValueCounts(hand)| == |Uniq(ValuesInHand(hand))|
    ensures multiset(ValueCounts(hand)) == multiset(CountsOf(Uniq(ValuesInHand(hand)), ValuesInHand(hand)))
    ensures forall c :: c in ValueCounts(hand) ==> c >= 1
    ensures Sum(ValueCounts(hand)) == |hand|
  {
    var vs := ValuesInHand(hand);
    var u := Uniq(vs);
    var counts := CountsOf(u, vs);
    ValuesInHandSpec(hand);
    UniqSpec(vs);
    SortSpec(counts);
    SumSort(counts);
    CountsOfSum(u, vs);
    ValueCountsPositive(hand);
  }

  lemma SortedHead(a: seq<int>, x: int)
    requires Sorted(a) && x in multiset(a)
    ensures a[0] <= x
  {
    var i :| 0 <= i < |a| && a[i] == x;
  }

  lemma SortedTail(a: seq<int>)
    requires Sorted(a) && a != []
    ensures Sorted(a[1..])
    ensures multiset(a[1..]) == multiset(a) - multiset{a[0]}
  {
    assert a == [a[0]] + a[1..];
  }

  /** Two sorted lists with the same elements, as often each, are equal:
      the sorted rearrangement of a list is unique. */
  lemma {:induction false} SortedUnique(a: seq<int>, b: seq<int>)
    requires Sorted(a) && Sorted(b) && multiset(a) == multiset(b)
    ensures a == b
  {
    if a != [] {
      assert b != [] by { assert a[0] in multiset(a); }
      SortedHead(a, b[0]);
      SortedHead(b, a[0]);
      SortedTail(a);
      SortedTail(b);
      assert a[0] == b[0];
      assert multiset(a[1..]) == multiset(b[1..]);
      SortedUnique(a[1..], b[1..]);
      assert |a| == |b|;
      forall k | 0 <= k < |a| ensures a[k] == b[k] {
        if k > 0 { assert a[k] == a[1..][k - 1] && b[k] == b[1..][k - 1]; }
      }
    } else {
      assert |b| == |multiset(b)| == 0;
    }
  }

  /** `sort` gives the one sorted rearrangement. */
  lemma SortIs(xs: seq<int>, t: seq<int>)
    requires Sorted(t) && multiset(t) == multiset(xs)
    ensures Sort(xs) == t
  {
    SortSpec(xs);
    SortedUnique(Sort(xs), t);
  }

  function Suits(hand: seq<Card>): seq<string> {
    seq(|hand|, i requires 0 <= i < |hand| => hand[i].suit)
  }

  /** `flush?`: the suits of the hand reduce to one under `uniq`. */
  predicate IsFlush(hand: seq<Card>) {
    |Uniq(Suits(hand))| == 1
  }

  /** A hand is a flush exactly when it is not empty and every card has
      the suit of the first. */
  lemma FlushIff(hand: seq<Card>)
    ensures IsFlush(hand) <==> hand != [] && forall i :: 0 <= i < |hand| ==> hand[i].suit == hand[0].suit
  {
    var s := Suits(hand);
    var u := Uniq(s);
    UniqSpec(s);
    if IsFlush(hand) {
      assert u[0] in s;
      forall i | 0 <= i < |hand|
        ensures hand[i].suit == hand[0].suit
      {
        assert s[i] in u && s[0] in u;
      }
    }
    if hand != [] && forall i :: 0 <= i < |hand| ==> hand[i].suit == hand[0].suit {
      var x := hand[0].suit;
      assert forall i :: 0 <= i < |s[1..]| ==> s[1..][i] == s[i + 1];
      UniqAfterSame(x, s[1..]);
      assert s[0] == x && [] + [s[0]] == [x];
      assert u == UniqAfter([] + [s[0]], s[1..]);
    }
  }

  /** `straight?`: each sorted value is one more than the one before. */
  predicate IsStraight(hand: seq<Card>)
    requires |hand| == 5
  {
    var v := ValuesInHand(hand);
    && v[4] == v[3] + 1
    && v[3] == v[2] + 1
    && v[2] == v[1] + 1
    && v[1] == v[0] + 1
  }

  /** A straight is five consecutive values. */
  lemma StraightIff(hand: seq<Card>)
    requires |hand| == 5
    ensures IsStraight(hand) <==>
      forall i :: 0 <= i < 5 ==> ValuesInHand(hand)[i] == ValuesInHand(hand)[0] + i
  {
  }

  /** The cards of a deck: ranks from RANKS. */
  predicate AllDealt(hand: seq<Card>) {
    forall i :: 0 <= i < |hand| ==> hand[i].rank in RANKS
  }

  /** The ace counts high only: a straight of deck cards that holds an
      ace runs from ten to ace. */
  lemma AceHighOnly(hand: seq<Card>, k: int)
    requires |hand| == 5 && AllDealt(hand) && IsStraight(hand)
    requires 0 <= k < 5 && hand[k].rank == Ace
    ensures ValuesInHand(hand) == [10, 11, 12, 13, 14]
  {
    var v := ValuesInHand(hand);
    ValuesInHandSpec(hand);
    assert Values(hand)[k] == 14;
    assert 14 in multiset(v) by {
      assert 14 in multiset(Values(hand));
    }
    var j :| 0 <= j < 5 && v[j] == 14;
    assert v[4] in multiset(Values(hand));
    var m :| 0 <= m < 5 && Values(hand)[m] == v[4];
    RankValues(hand[m].suit);
    var r :| 0 <= r < |RANKS| && RANKS[r] == hand[m].rank;
    assert Value(hand[m]) <= 14;
  }

  /** `royal_straight?` */
  predicate IsRoyalStraight(hand: seq<Card>)
    requires |hand| == 5
  {
    IsStraight(hand) && ValuesInHand(hand)[0] == 10
  }

  /** `royal_flush?` with the same-suit test of `flush?` in place of the
      undefined `all_same_suit?`. */
  predicate IsRoyalFlush(hand: seq<Card>)
    requires |hand| == 5
  {
    IsFlush(hand) && IsRoyalStraight(hand)
  }

  /** `straight_flush?` */
  predicate IsStraightFlush(hand: seq<Card>)
    requires |hand| == 5
  {
    IsFlush(hand) && IsStraight(hand)
  }

  /** `four_of_a_kind?` */
  predicate IsFourOfAKind(hand: seq<Card>) {
    Sort(ValueCounts(hand)) == [1, 4]
  }

  /** `full_house?` */
  predicate IsFullHouse(hand: seq<Card>) {
    ValueCounts(hand) == [2, 3]
  }

  /** `three_of_a_kind?` */
  predicate IsThreeOfAKind(hand: seq<Card>) {
    ValueCounts(hand) == [1, 1, 3]
  }

  /** `two_pair?` */
  predicate IsTwoPair(hand: seq<Card>) {
    ValueCounts(hand) == [1, 2, 2]
  }

  /** `pair?` */
  predicate IsPair(hand: seq<Card>) {
    ValueCounts(hand) == [1, 1, 1, 2]
  }

  /** The names `evaluate` returns, in the order it tests them. */
  const LABELS: seq<string> := ["Royal flush", "Straight flush", "Four of a kind", "Full house",
    "Flush", "Straight", "Three of a kind", "Two pair", "Pair", "High card"]

  /** The test of `evaluate`'s k-th branch; the last one always holds. */
  predicate Category(hand: seq<Card>, k: nat)
    requires |hand| == 5
  {
    if k == 0 then IsRoyalFlush(hand)
    else if k == 1 then IsStraightFlush(hand)
    else if k == 2 then IsFourOfAKind(hand)
    else if k == 3 then IsFullHouse(hand)
    else if k == 4 then IsFlush(hand)
    else if k == 5 then IsStraight(hand)
    else if k == 6 then IsThreeOfAKind(hand)
    else if k == 7 then IsTwoPair(hand)
    else if k == 8 then IsPair(hand)
    else true
  }

  /** The branch `evaluate`'s `case` takes below its first, as an index
      of LABELS. */
  function BranchBelowRoyal(hand: seq<Card>): (k: nat)
    requires |hand| == 5
    ensures 1 <= k < |LABELS|
  {
    if IsStraightFlush(hand) then 1
    else if IsFourOfAKind(hand) then 2
    else if IsFullHouse(hand) then 3
    else if IsFlush(hand) then 4
    else if IsStraight(hand) then 5
    else if IsThreeOfAKind(hand) then 6
    else if IsTwoPair(hand) then 7
    else if IsPair(hand) then 8
    else 9
  }

  /** The branch `evaluate` takes, with `royal_flush?` testing the suits
      as `flush?` does. */
  function Branch(hand: seq<Card>): (k: nat)
    requires |hand| == 5
    ensures k < |LABELS|
  {
    if IsRoyalFlush(hand) then 0 else BranchBelowRoyal(hand)
  }

  /** `evaluate`, with `royal_flush?` testing the suits as `flush?` does. */
  function Evaluate(hand: seq<Card>): string
    requires |hand| == 5
  {
    LABELS[Branch(hand)]
  }

  /** No two category names are spelled alike. */
  lemma LabelsDistinct()
    ensures Distinct(LABELS)
  {
  }

  /** The branch taken passes its test, and no earlier branch does. */
  lemma BranchIsFirst(hand: seq<Card>)
    requires |hand| == 5
    ensures Category(hand, Branch(hand))
    ensures forall j :: 0 <= j < Branch(hand) ==> !Category(hand, j)
  {
    forall j | 0 <= j < Branch(hand)
      ensures !Category(hand, j)
    {
      if j == 0 {} else if j == 1 {} else if j == 2 {} else if j == 3 {} else if j == 4 {}
      else if j == 5 {} else if j == 6 {} else if j == 7 {} else {}
    }
  }

  /** `evaluate` names the first category, in the order of LABELS, whose
      test the hand passes. */
  lemma EvaluateFirstMatch(hand: seq<Card>, k: nat)
    requires |hand| == 5 && k < |LABELS|
    ensures Evaluate(hand) == LABELS[k] <==> Category(hand, k) && forall j :: 0 <= j < k ==> !Category(hand, j)
  {
    LabelsDistinct();
    BranchIsFirst(hand);
    assert Evaluate(hand) == LABELS[k] <==> Branch(hand) == k;
  }

  /** What a Ruby call gives: a value, or the error it raises. */
  datatype Result<T> = Success(value: T) | Failure(error: string)

  const NO_ALL_SAME_SUIT: string := "undefined method `all_same_suit?'"

  /** `royal_flush?` as written: `all_same_suit?` is defined nowhere, so
      calling it raises before `royal_straight?` is reached. */
  function RoyalFlushAsWritten(hand: seq<Card>): Result<bool> {
    Failure(NO_ALL_SAME_SUIT)
  }

  /** The rest of `evaluate`'s `case` once `royal_flush?` has been called:
      its error propagates, and only a returned `false` reaches the other
      branches. */
  function AfterRoyalTest(royal: Result<bool>, hand: seq<Card>): Result<string>
    requires |hand| == 5
  {
    match royal
    case Failure(e) => Failure(e)
    case Success(isRoyal) => Success(LABELS[if isRoyal then 0 else BranchBelowRoyal(hand)])
  }

  /** `evaluate` as written. */
  function EvaluateAsWritten(hand: seq<Card>): Result<string>
    requires |hand| == 5
  {
    AfterRoyalTest(RoyalFlushAsWritten(hand), hand)
  }

  /** With the same-suit test in place of the undefined call, the `case`
      gives the corrected `evaluate`. */
  lemma CorrectedRoyalTest(hand: seq<Card>)
    requires |hand| == 5
    ensures AfterRoyalTest(Success(IsRoyalFlush(hand)), hand) == Success(Evaluate(hand))
  {
  }

  /** As written, `evaluate` raises on every hand. */
  lemma AsWrittenAlwaysRaises(hand: seq<Card>)
    requires |hand| == 5
    ensures EvaluateAsWritten(hand) == Failure(NO_ALL_SAME_SUIT)
  {
  }

  // ---------------------------------------------------------------
  // Hands

  /** The hand taken by five `draw`s (`pop`s) from `cards`: its last card
      first. */
  function Drawn(cards: seq<Card>): (hand: seq<Card>)
    requires |cards| >= 5
    ensures |hand| == 5
  {
    [cards[|cards| - 1], cards[|cards| - 2], cards[|cards| - 3], cards[|cards| - 4], cards[|cards| - 5]]
  }

  class PokerHand {
    var hand: seq<Card>

    /** `initialize(deck)`: five `draw`s; when the deck holds five cards
        or more, they are its last five, the top one first. */
    constructor (deck: Deck)
      modifies deck
      ensures |hand| == 5
      ensures old(|deck.cards|) >= 5 ==>
        hand == Drawn(old(deck.cards)) && deck.cards == old(deck.cards[..|deck.cards| - 5])
    {
      ghost var d := deck.cards;
      var h: seq<Card> := [];
      for i := 0 to 5
        invariant |h| == i
        invariant |d| >= 5 ==> deck.cards == d[..|d| - i]
        invariant |d| >= 5 ==> forall j :: 0 <= j < i ==> h[j] == d[|d| - 1 - j]
      {
        var c := deck.Draw();
        h := h + [c];
      }
      hand := h;
    }

    /** `initialize` given an array, whose `draw` is `pop`: its last five
        cards, the last one first. With fewer than five, nil would be
        pushed, on which `value` fails, so five are required. */
    constructor FromCards(cards: seq<Card>)
      requires |cards| >= 5
      ensures hand == Drawn(cards)
    {
      var rest := cards;
      var h: seq<Card> := [];
      for i := 0 to 5
        invariant |h| == i && rest == cards[..|cards| - i]
        invariant forall j :: 0 <= j < i ==> h[j] == cards[|cards| - 1 - j]
      {
        h := h + [rest[|rest| - 1]];
        rest := rest[..|rest| - 1];
      }
      hand := h;
    }
  }

  // ---------------------------------------------------------------
  // The inline checks

  /** Five different values each occur once among themselves. */
  lemma FiveDistinctTally(u: seq<int>)
    requires |u| == 5 && Distinct(u)
    ensures CountsOf(u, u) == [1, 1, 1, 1, 1]
  {
    forall i | 0 <= i < 5
      ensures CountsOf(u, u)[i] == 1
    {
      CountDistinct(u, u[i]);
    }
  }

  /** Five ones are already in order. */
  lemma FiveOnesSorted()
    ensures Sort([1, 1, 1, 1, 1]) == [1, 1, 1, 1, 1]
  {
    assert Sort([1]) == [1];
    assert Sort([1, 1]) == [1, 1];
    assert Sort([1, 1, 1]) == [1, 1, 1];
    assert Sort([1, 1, 1, 1]) == [1, 1, 1, 1];
  }

  const ROYAL_FLUSH_HAND: seq<Card> :=
    [Card(Pip(10), "Hearts"), Card(Ace, "Hearts"), Card(Queen, "Hearts"), Card(King, "Hearts"), Card(Jack, "Hearts")]

  lemma RoyalFlushHandValues()
    ensures ValuesInHand(Drawn(ROYAL_FLUSH_HAND)) == [10, 11, 12, 13, 14]
  {
    assert Values(Drawn(ROYAL_FLUSH_HAND)) == [11, 13, 12, 14, 10];
    assert Sort([11, 13, 12, 14, 10]) == [10, 11, 12, 13, 14];
  }

  lemma RoyalFlushHandSuits()
    ensures IsFlush(Drawn(ROYAL_FLUSH_HAND))
  {
    assert Suits(Drawn(ROYAL_FLUSH_HAND)) == ["Hearts", "Hearts", "Hearts", "Hearts", "Hearts"];
    assert Uniq(["Hearts", "Hearts", "Hearts", "Hearts", "Hearts"]) == ["Hearts"];
  }

  /** The hand built from the royal flush of the inline checks is named "Royal flush". */
  lemma RoyalFlushHandEvaluates()
    ensures Evaluate(Drawn(ROYAL_FLUSH_HAND)) == "Royal flush"
  {
    RoyalFlushHandValues(); RoyalFlushHandSuits();
  }

  const STRAIGHT_FLUSH_HAND: seq<Card> :=
    [Card(Pip(8), "Clubs"), Card(Pip(9), "Clubs"), Card(Queen, "Clubs"), Card(Pip(10), "Clubs"), Card(Jack, "Clubs")]

  lemma StraightFlushHandValues()
    ensures ValuesInHand(Drawn(STRAIGHT_FLUSH_HAND)) == [8, 9, 10, 11, 12]
  {
    assert Values(Drawn(STRAIGHT_FLUSH_HAND)) == [11, 10, 12, 9, 8];
    assert Sort([11, 10, 12, 9, 8]) == [8, 9, 10, 11, 12];
  }

  lemma StraightFlushHandSuits()
    ensures IsFlush(Drawn(STRAIGHT_FLUSH_HAND))
  {
    assert Suits(Drawn(STRAIGHT_FLUSH_HAND)) == ["Clubs", "Clubs", "Clubs", "Clubs", "Clubs"];
    assert Uniq(["Clubs", "Clubs", "Clubs", "Clubs", "Clubs"]) == ["Clubs"];
  }

  /** The hand built from the straight flush of the inline checks is named "Straight flush". */
  lemma StraightFlushHandEvaluates()
    ensures Evaluate(Drawn(STRAIGHT_FLUSH_HAND)) == "Straight flush"
  {
    StraightFlushHandValues(); StraightFlushHandSuits();
  }

  const FOUR_OF_A_KIND_HAND: seq<Card> :=
    [Card(Pip(3), "Hearts"), Card(Pip(3), "Clubs"), Card(Pip(5), "Diamonds"), Card(Pip(3), "Spades"), Card(Pip(3), "Diamonds")]

  lemma FourOfAKindHandValues()
    ensures ValuesInHand(Drawn(FOUR_OF_A_KIND_HAND)) == [3, 3, 3, 3, 5]
  {
    assert Values(Drawn(FOUR_OF_A_KIND_HAND)) == [3, 3, 5, 3, 3];
    assert Sort([3, 3, 5, 3, 3]) == [3, 3, 3, 3, 5];
  }

  lemma FourOfAKindHandSuits()
    ensures !IsFlush(Drawn(FOUR_OF_A_KIND_HAND))
  {
    var hand := Drawn(FOUR_OF_A_KIND_HAND);
    FlushIff(hand);
    assert hand[0].suit == "Diamonds" && hand[1].suit == "Spades";
    assert "Diamonds"[0] != "Spades"[0];
  }

  lemma FourOfAKindHandDistinct()
    ensures Uniq([3, 3, 3, 3, 5]) == [3, 5]
  {
  }

  lemma FourOfAKindHandTally()
    ensures CountsOf([3, 5], [3, 3, 3, 3, 5]) == [4, 1]
  {
    assert Count([3, 3, 3, 3, 5], 3) == 4;
    assert Count([3, 3, 3, 3, 5], 5) == 1;
    assert CountsOf([3, 5], [3, 3, 3, 3, 5]) == [4, 1];
  }

  lemma FourOfAKindHandCounts()
    ensures ValueCounts(Drawn(FOUR_OF_A_KIND_HAND)) == [1, 4]
    ensures Sort([1, 4]) == [1, 4]
  {
    FourOfAKindHandValues();
    FourOfAKindHandDistinct();
    FourOfAKindHandTally();
    assert Sort([4, 1]) == [1, 4];
  }

  /** The hand built from four of a kind of the inline checks is named "Four of a kind". */
  lemma FourOfAKindHandEvaluates()
    ensures Evaluate(Drawn(FOUR_OF_A_KIND_HAND)) == "Four of a kind"
  {
    FourOfAKindHandValues(); FourOfAKindHandSuits(); FourOfAKindHandCounts();
  }

  const FULL_HOUSE_HAND: seq<Card> :=
    [Card(Pip(3), "Hearts"), Card(Pip(3), "Clubs"), Card(Pip(5), "Diamonds"), Card(Pip(3), "Spades"), Card(Pip(5), "Hearts")]

  lemma FullHouseHandValues()
    ensures ValuesInHand(Drawn(FULL_HOUSE_HAND)) == [3, 3, 3, 5, 5]
  {
    assert Values(Drawn(FULL_HOUSE_HAND)) == [5, 3, 5, 3, 3];
    assert Sort([5, 3, 5, 3, 3]) == [3, 3, 3, 5, 5];
  }

  lemma FullHouseHandSuits()
    ensures !IsFlush(Drawn(FULL_HOUSE_HAND))
  {
    var hand := Drawn(FULL_HOUSE_HAND);
    FlushIff(hand);
    assert hand[0].suit == "Hearts" && hand[1].suit == "Spades";
    assert "Hearts"[0] != "Spades"[0];
  }

  lemma FullHouseHandDistinct()
    ensures Uniq([3, 3, 3, 5, 5]) == [3, 5]
  {
  }

  lemma FullHouseHandTally()
    ensures CountsOf([3, 5], [3, 3, 3, 5, 5]) == [3, 2]
  {
    assert Count([3, 3, 3, 5, 5], 3) == 3;
    assert Count([3, 3, 3, 5, 5], 5) == 2;
    assert CountsOf([3, 5], [3, 3, 3, 5, 5]) == [3, 2];
  }

  lemma FullHouseHandCounts()
    ensures ValueCounts(Drawn(FULL_HOUSE_HAND)) == [2, 3]
    ensures Sort([2, 3]) == [2, 3]
  {
    FullHouseHandValues();
    FullHouseHandDistinct();
    FullHouseHandTally();
    assert Sort([3, 2]) == [2, 3];
  }

  /** The hand built from the full house of the inline checks is named "Full house". */
  lemma FullHouseHandEvaluates()
    ensures Evaluate(Drawn(FULL_HOUSE_HAND)) == "Full house"
  {
    FullHouseHandValues(); FullHouseHandSuits(); FullHouseHandCounts();
  }

  const FLUSH_HAND: seq<Card> :=
    [Card(Pip(10), "Hearts"), Card(Ace, "Hearts"), Card(Pip(2), "Hearts"), Card(King, "Hearts"), Card(Pip(3), "Hearts")]

  lemma FlushHandValues()
    ensures ValuesInHand(Drawn(FLUSH_HAND)) == [2, 3, 10, 13, 14]
  {
    assert Values(Drawn(FLUSH_HAND)) == [3, 13, 2, 14, 10];
    assert Sort([3, 13, 2, 14, 10]) == [2, 3, 10, 13, 14];
  }

  lemma FlushHandSuits()
    ensures IsFlush(Drawn(FLUSH_HAND))
  {
    assert Suits(Drawn(FLUSH_HAND)) == ["Hearts", "Hearts", "Hearts", "Hearts", "Hearts"];
    assert Uniq(["Hearts", "Hearts", "Hearts", "Hearts", "Hearts"]) == ["Hearts"];
  }

  lemma FlushHandDistinct()
    ensures Uniq([2, 3, 10, 13, 14]) == [2, 3, 10, 13, 14]
  {
    UniqOfDistinct([2, 3, 10, 13, 14]);
  }

  lemma FlushHandTally()
    ensures CountsOf([2, 3, 10, 13, 14], [2, 3, 10, 13, 14]) == [1, 1, 1, 1, 1]
  {
    FiveDistinctTally([2, 3, 10, 13, 14]);
  }

  lemma FlushHandCounts()
    ensures ValueCounts(Drawn(FLUSH_HAND)) == [1, 1, 1, 1, 1]
    ensures Sort([1, 1, 1, 1, 1]) == [1, 1, 1, 1, 1]
  {
    FlushHandValues();
    FlushHandDistinct();
    FlushHandTally();
    FiveOnesSorted();
  }

  /** The hand built from the flush of the inline checks is named "Flush". */
  lemma FlushHandEvaluates()
    ensures Evaluate(Drawn(FLUSH_HAND)) == "Flush"
  {
    FlushHandValues(); FlushHandSuits(); FlushHandCounts();
  }

  const STRAIGHT_HAND: seq<Card> :=
    [Card(Pip(8), "Clubs"), Card(Pip(9), "Diamonds"), Card(Pip(10), "Clubs"), Card(Pip(7), "Hearts"), Card(Jack, "Clubs")]

  lemma StraightHandValues()
    ensures ValuesInHand(Drawn(STRAIGHT_HAND)) == [7, 8, 9, 10, 11]
  {
    assert Values(Drawn(STRAIGHT_HAND)) == [11, 7, 10, 9, 8];
    assert Sort([11, 7, 10, 9, 8]) == [7, 8, 9, 10, 11];
  }

  lemma StraightHandSuits()
    ensures !IsFlush(Drawn(STRAIGHT_HAND))
  {
    var hand := Drawn(STRAIGHT_HAND);
    FlushIff(hand);
    assert hand[0].suit == "Clubs" && hand[1].suit == "Hearts";
    assert "Clubs"[0] != "Hearts"[0];
  }

  lemma StraightHandDistinct()
    ensures Uniq([7, 8, 9, 10, 11]) == [7, 8, 9, 10, 11]
  {
    UniqOfDistinct([7, 8, 9, 10, 11]);
  }

  lemma StraightHandTally()
    ensures CountsOf([7, 8, 9, 10, 11], [7, 8, 9, 10, 11]) == [1, 1, 1, 1, 1]
  {
    FiveDistinctTally([7, 8, 9, 10, 11]);
  }

  lemma StraightHandCounts()
    ensures ValueCounts(Drawn(STRAIGHT_HAND)) == [1, 1, 1, 1, 1]
    ensures Sort([1, 1, 1, 1, 1]) == [1, 1, 1, 1, 1]
  {
    StraightHandValues();
    StraightHandDistinct();
    StraightHandTally();
    FiveOnesSorted();
  }

  /** The hand built from the straight of the inline checks is named "Straight". */
  lemma StraightHandEvaluates()
    ensures Evaluate(Drawn(STRAIGHT_HAND)) == "Straight"
  {
    StraightHandValues(); StraightHandSuits(); StraightHandCounts();
  }

  const THREE_OF_A_KIND_HAND: seq<Card> :=
    [Card(Pip(3), "Hearts"), Card(Pip(3), "Clubs"), Card(Pip(5), "Diamonds"), Card(Pip(3), "Spades"), Card(Pip(6), "Diamonds")]

  lemma ThreeOfAKindHandValues()
    ensures ValuesInHand(Drawn(THREE_OF_A_KIND_HAND)) == [3, 3, 3, 5, 6]
  {
    assert Values(Drawn(THREE_OF_A_KIND_HAND)) == [6, 3, 5, 3, 3];
    assert Sort([6, 3, 5, 3, 3]) == [3, 3, 3, 5, 6];
  }

  lemma ThreeOfAKindHandSuits()
    ensures !IsFlush(Drawn(THREE_OF_A_KIND_HAND))
  {
    var hand := Drawn(THREE_OF_A_KIND_HAND);
    FlushIff(hand);
    assert hand[0].suit == "Diamonds" && hand[1].suit == "Spades";
    assert "Diamonds"[0] != "Spades"[0];
  }

  lemma ThreeOfAKindHandDistinct()
    ensures Uniq([3, 3, 3, 5, 6]) == [3, 5, 6]
  {
  }

  lemma ThreeOfAKindHandTally()
    ensures CountsOf([3, 5, 6], [3, 3, 3, 5, 6]) == [3, 1, 1]
  {
    assert Count([3, 3, 3, 5, 6], 3) == 3;
    assert Count([3, 3, 3, 5, 6], 5) == 1;
    assert Count([3, 3, 3, 5, 6], 6) == 1;
    assert CountsOf([3, 5, 6], [3, 3, 3, 5, 6]) == [3, 1, 1];
  }

  lemma ThreeOfAKindHandCounts()
    ensures ValueCounts(Drawn(THREE_OF_A_KIND_HAND)) == [1, 1, 3]
    ensures Sort([1, 1, 3]) == [1, 1, 3]
  {
    ThreeOfAKindHandValues();
    ThreeOfAKindHandDistinct();
    ThreeOfAKindHandTally();
    assert Sort([3, 1, 1]) == [1, 1, 3];
  }

  /** The hand built from three of a kind of the inline checks is named "Three of a kind". */
  lemma ThreeOfAKindHandEvaluates()
    ensures Evaluate(Drawn(THREE_OF_A_KIND_HAND)) == "Three of a kind"
  {
    ThreeOfAKindHandValues(); ThreeOfAKindHandSuits(); ThreeOfAKindHandCounts();
  }

  const TWO_PAIR_HAND: seq<Card> :=
    [Card(Pip(9), "Hearts"), Card(Pip(9), "Clubs"), Card(Pip(5), "Diamonds"), Card(Pip(8), "Spades"), Card(Pip(5), "Hearts")]

  lemma TwoPairHandValues()
    ensures ValuesInHand(Drawn(TWO_PAIR_HAND)) == [5, 5, 8, 9, 9]
  {
    assert Values(Drawn(TWO_PAIR_HAND)) == [5, 8, 5, 9, 9];
    assert Sort([5, 8, 5, 9, 9]) == [5, 5, 8, 9, 9];
  }

  lemma TwoPairHandSuits()
    ensures !IsFlush(Drawn(TWO_PAIR_HAND))
  {
    var hand := Drawn(TWO_PAIR_HAND);
    FlushIff(hand);
    assert hand[0].suit == "Hearts" && hand[1].suit == "Spades";
    assert "Hearts"[0] != "Spades"[0];
  }

  lemma TwoPairHandDistinct()
    ensures Uniq([5, 5, 8, 9, 9]) == [5, 8, 9]
  {
  }

  lemma TwoPairHandTally()
    ensures CountsOf([5, 8, 9], [5, 5, 8, 9, 9]) == [2, 1, 2]
  {
    assert Count([5, 5, 8, 9, 9], 5) == 2;
    assert Count([5, 5, 8, 9, 9], 8) == 1;
    assert Count([5, 5, 8, 9, 9], 9) == 2;
    assert CountsOf([5, 8, 9], [5, 5, 8, 9, 9]) == [2, 1, 2];
  }

  lemma TwoPairHandCounts()
    ensures ValueCounts(Drawn(TWO_PAIR_HAND)) == [1, 2, 2]
    ensures Sort([1, 2, 2]) == [1, 2, 2]
  {
    TwoPairHandValues();
    TwoPairHandDistinct();
    TwoPairHandTally();
    assert Sort([2, 1, 2]) == [1, 2, 2];
  }

  /** The hand built from the two pairs of the inline checks is named "Two pair". */
  lemma TwoPairHandEvaluates()
    ensures Evaluate(Drawn(TWO_PAIR_HAND)) == "Two pair"
  {
    TwoPairHandValues(); TwoPairHandSuits(); TwoPairHandCounts();
  }

  const PAIR_HAND: seq<Card> :=
    [Card(Pip(2), "Hearts"), Card(Pip(9), "Clubs"), Card(Pip(5), "Diamonds"), Card(Pip(9), "Spades"), Card(Pip(3), "Diamonds")]

  lemma PairHandValues()
    ensures ValuesInHand(Drawn(PAIR_HAND)) == [2, 3, 5, 9, 9]
  {
    assert Values(Drawn(PAIR_HAND)) == [3, 9, 5, 9, 2];
    assert Sort([3, 9, 5, 9, 2]) == [2, 3, 5, 9, 9];
  }

  lemma PairHandSuits()
    ensures !IsFlush(Drawn(PAIR_HAND))
  {
    var hand := Drawn(PAIR_HAND);
    FlushIff(hand);
    assert hand[0].suit == "Diamonds" && hand[1].suit == "Spades";
    assert "Diamonds"[0] != "Spades"[0];
  }

  lemma PairHandDistinct()
    ensures Uniq([2, 3, 5, 9, 9]) == [2, 3, 5, 9]
  {
  }

  lemma PairHandTally()
    ensures CountsOf([2, 3, 5, 9], [2, 3, 5, 9, 9]) == [1, 1, 1, 2]
  {
    assert Count([2, 3, 5, 9, 9], 2) == 1;
    assert Count([2, 3, 5, 9, 9], 3) == 1;
    assert Count([2, 3, 5, 9, 9], 5) == 1;
    assert Count([2, 3, 5, 9, 9], 9) == 2;
    assert CountsOf([2, 3, 5, 9], [2, 3, 5, 9, 9]) == [1, 1, 1, 2];
  }

  lemma PairHandCounts()
    ensures ValueCounts(Drawn(PAIR_HAND)) == [1, 1, 1, 2]
    ensures Sort([1, 1, 1, 2]) == [1, 1, 1, 2]
  {
    PairHandValues();
    PairHandDistinct();
    PairHandTally();
    assert Sort([1, 1, 1, 2]) == [1, 1, 1, 2];
  }

  /** The hand built from the pair of the inline checks is named "Pair". */
  lemma PairHandEvaluates()
    ensures Evaluate(Drawn(PAIR_HAND)) == "Pair"
  {
    PairHandValues(); PairHandSuits(); PairHandCounts();
  }

  const HIGH_CARD_HAND: seq<Card> :=
    [Card(Pip(2), "Hearts"), Card(King, "Clubs"), Card(Pip(5), "Diamonds"), Card(Pip(9), "Spades"), Card(Pip(3), "Diamonds")]

  lemma HighCardHandValues()
    ensures ValuesInHand(Drawn(HIGH_CARD_HAND)) == [2, 3, 5, 9, 13]
  {
    assert Values(Drawn(HIGH_CARD_HAND)) == [3, 9, 5, 13, 2];
    assert Sort([3, 9, 5, 13, 2]) == [2, 3, 5, 9, 13];
  }

  lemma HighCardHandSuits()
    ensures !IsFlush(Drawn(HIGH_CARD_HAND))
  {
    var hand := Drawn(HIGH_CARD_HAND);
    FlushIff(hand);
    assert hand[0].suit == "Diamonds" && hand[1].suit == "Spades";
    assert "Diamonds"[0] != "Spades"[0];
  }

  lemma HighCardHandDistinct()
    ensures Uniq([2, 3, 5, 9, 13]) == [2, 3, 5, 9, 13]
  {
    UniqOfDistinct([2, 3, 5, 9, 13]);
  }

  lemma HighCardHandTally()
    ensures CountsOf([2, 3, 5, 9, 13], [2, 3, 5, 9, 13]) == [1, 1, 1, 1, 1]
  {
    FiveDistinctTally([2, 3, 5, 9, 13]);
  }

  lemma HighCardHandCounts()
    ensures ValueCounts(Drawn(HIGH_CARD_HAND)) == [1, 1, 1, 1, 1]
    ensures Sort([1, 1, 1, 1, 1]) == [1, 1, 1, 1, 1]
  {
    HighCardHandValues();
    HighCardHandDistinct();
    HighCardHandTally();
    FiveOnesSorted();
  }

  /** The hand built from the high card hand of the inline checks is named "High card". */
  lemma HighCardHandEvaluates()
    ensures Evaluate(Drawn(HIGH_CARD_HAND)) == "High card"
  {
    HighCardHandValues(); HighCardHandSuits(); HighCardHandCounts();
  }

  /** As written, `evaluate` raises on the royal flush of the inline
      checks instead of naming it. */
  lemma RoyalFlushHandRaises()
    ensures EvaluateAsWritten(Drawn(ROYAL_FLUSH_HAND)).Failure?
    ensures Evaluate(Drawn(ROYAL_FLUSH_HAND)) == "Royal flush"
  {
    RoyalFlushHandEvaluates();
  }
}
