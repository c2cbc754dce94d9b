/** lesson_5/twenty_one.rb: the card table, hand totals, the bust and
    dealer thresholds, the deck with deal-by-pop, and the round result.
    The player's hit-or-stay answers come from the console and are not
    part of this model; the dealer's turn is. */
module TwentyOne {
  import opened Util

  const SUITS: seq<string> := ["♤", "♥", "♦", "♧"]

  /** `Card::CARD_VALUES`. */
  const CARD_VALUES: map<string, int> := map[
    "2" := 2, "3" := 3, "4" := 4, "5" := 5, "6" := 6, "7" := 7, "8" := 8, "9" := 9,
    "10" := 10, "J" := 10, "Q" := 10, "K" := 10, "A" := 11]

  /** `Card::RANKS`: the keys of CARD_VALUES in their insertion order. */
  const RANKS: seq<string> := ["2", "3", "4", "5", "6", "7", "8", "9", "10", "J", "Q", "K", "A"]

  const BLACKJACK: int := 21
  const DEALER_STAYS_AT: int := 17

  /** The rank `total` looks for to count an ace as 1. No rank of the
      table is spelled like this. */
  const ACE_NAME_IN_TOTAL: string := "Ace"

  datatype Card = Card(rank: string, suit: string)

  /** `Card#value`, looked up in CARD_VALUES when the card is made. */
  function Value(c: Card): int
    requires c.rank in CARD_VALUES
  {
    CARD_VALUES[c.rank]
  }

  /** RANKS are exactly the keys of CARD_VALUES, thirteen of them, and
      none is spelled "Ace". */
  lemma RanksAreCardValueKeys()
    ensures |RANKS| == 13
    ensures forall r :: r in RANKS <==> r in CARD_VALUES
    ensures ACE_NAME_IN_TOTAL !in CARD_VALUES
  {
  }

  /** Values run from 2 to 11: 11 only for "A", 10 for "10" and the face
      cards. */
  lemma CardValueBounds()
    ensures forall r :: r in CARD_VALUES ==> 2 <= CARD_VALUES[r] <= 11
    ensures forall r :: r in CARD_VALUES ==> (CARD_VALUES[r] == 11 <==> r == "A")
    ensures forall r :: r in CARD_VALUES ==> (CARD_VALUES[r] == 10 <==> r in {"10", "J", "Q", "K"})
  {
  }

  predicate AllValued(cards: seq<Card>) {
    forall c :: c in cards ==> c.rank in CARD_VALUES
  }

  /** The plain sum of the card values. */
  function SumValues(cards: seq<Card>): int
    requires AllValued(cards)
  {
    if cards == [] then 0 else SumValues(cards[..|cards| - 1]) + Value(cards[|cards| - 1])
  }

  /** `cards.select { |card| card.rank == 'Ace' }.count`. */
  function AcesByName(cards: seq<Card>): nat {
    if cards == [] then 0
    else AcesByName(cards[..|cards| - 1]) + (if cards[|cards| - 1].rank == ACE_NAME_IN_TOTAL then 1 else 0)
  }

  /** The `times` loop of `total`: up to `aces` times, take 10 off while
      the total is over 21. */
  function AdjustForAces(total: int, aces: nat): int {
    if aces == 0 || total <= BLACKJACK then total else AdjustForAces(total - 10, aces - 1)
  }

  /** What `total` computes. */
  function HandTotal(cards: seq<Card>): int
    requires AllValued(cards)
  {
    AdjustForAces(SumValues(cards), AcesByName(cards))
  }

  /** No card of the table has the rank "Ace", so the adjustment never
      happens and a hand's total is the plain sum of its values: an ace
      always counts 11. */
  lemma {:induction false} TotalIsPlainSum(cards: seq<Card>)
    requires AllValued(cards)
    ensures AcesByName(cards) == 0
    ensures HandTotal(cards) == SumValues(cards)
  {
    if cards != [] {
      assert cards[|cards| - 1] in cards;
      TotalIsPlainSum(cards[..|cards| - 1]);
    }
  }

  /** Each card adds its value, between 2 and 11, to the sum. */
  lemma SumValuesSnoc(cards: seq<Card>, c: Card)
    requires AllValued(cards) && c.rank in CARD_VALUES
    ensures AllValued(cards + [c])
    ensures SumValues(cards + [c]) == SumValues(cards) + Value(c)
    ensures 2 <= Value(c) <= 11
  {
    assert (cards + [c])[..|cards|] == cards;
    CardValueBounds();
  }

  /** Every card is worth at least 2. */
  lemma {:induction false} SumAtLeastTwicePerCard(cards: seq<Card>)
    requires AllValued(cards)
    ensures SumValues(cards) >= 2 * |cards|
  {
    if cards != [] {
      assert cards[|cards| - 1] in cards;
      SumAtLeastTwicePerCard(cards[..|cards| - 1]);
      CardValueBounds();
    }
  }

  /** A hand of two aces is 22 and so busts at once. */
  lemma TwoAcesBust(s: string, t: string)
    ensures HandTotal([Card("A", s), Card("A", t)]) == 22
  {
    var h := [Card("A", s), Card("A", t)];
    assert h[..1] == [Card("A", s)];
    assert h[..1][..0] == [];
    assert SumValues(h[..1]) == 11;
    assert SumValues(h) == 22;
    TotalIsPlainSum(h);
  }

  /** The four cards of one rank, in the order of SUITS. */
  function SuitsOf(rank: string): seq<Card> {
    seq(|SUITS|, i requires 0 <= i < |SUITS| => Card(rank, SUITS[i]))
  }

  /** The cards the nested loops of `shuffle_cards` append, rank by rank. */
  function CardsOfRanks(ranks: seq<string>): seq<Card> {
    if ranks == [] then [] else CardsOfRanks(ranks[..|ranks| - 1]) + SuitsOf(ranks[|ranks| - 1])
  }

  /** The 52 cards before they are shuffled. */
  function FullDeck(): seq<Card> {
    CardsOfRanks(RANKS)
  }

  lemma SuitsOfCount(rank: string, c: Card)
    ensures multiset(SuitsOf(rank))[c] == if c.rank == rank && c.suit in SUITS then 1 else 0
  {
    assert SuitsOf(rank) == [Card(rank, SUITS[0]), Card(rank, SUITS[1]), Card(rank, SUITS[2]), Card(rank, SUITS[3])];
  }

  lemma {:induction false} CardsOfRanksCount(ranks: seq<string>, c: Card)
    requires Distinct(ranks)
    ensures |CardsOfRanks(ranks)| == |SUITS| * |ranks|
    ensures multiset(CardsOfRanks(ranks))[c] == if c.rank in ranks && c.suit in SUITS then 1 else 0
  {
    if ranks != [] {
      var init := ranks[..|ranks| - 1];
      var last := ranks[|ranks| - 1];
      assert ranks == init + [last];
      DistinctInit(ranks);
      CardsOfRanksCount(init, c);
      SuitsOfCount(last, c);
      assert |SUITS| == 4;
      assert CardsOfRanks(ranks) == CardsOfRanks(init) + SuitsOf(last);
      assert multiset(CardsOfRanks(ranks))[c] == multiset(CardsOfRanks(init))[c] + multiset(SuitsOf(last))[c];
      assert (c.rank in ranks) == (c.rank in init || c.rank == last);
    }
  }

  /** The unshuffled deck holds 52 cards: every rank and suit, each pair
      exactly once. */
  lemma FullDeckSpec(c: Card)
    ensures |FullDeck()| == 52
    ensures multiset(FullDeck())[c] == if c.rank in RANKS && c.suit in SUITS then 1 else 0
  {
    assert Distinct(RANKS);
    CardsOfRanksCount(RANKS, c);
  }

  /** Every card of the full deck has a value. */
  lemma FullDeckValued(c: Card)
    requires multiset(FullDeck())[c] > 0
    ensures c.rank in CARD_VALUES
  {
    FullDeckSpec(c);
    RanksAreCardValueKeys();
  }

  /** A participant of the game (`Participant` with the `Hand` mixin). */
  class Participant {
    var cards: seq<Card>
    const name: string

    constructor (name: string)
      ensures this.name == name && cards == []
    {
      this.name := name;
      cards := [];
    }

    /** `total`: the values summed card by card, then the ace adjustment
        loop, which never runs. */
    method Total() returns (total: int)
      requires AllValued(cards)
      ensures total == HandTotal(cards)
      ensures total == SumValues(cards)
    {
      total := 0;
      for i := 0 to |cards|
        invariant total == SumValues(cards[..i])
      {
        assert cards[..i + 1][..i] == cards[..i];
        total := total + Value(cards[i]);
      }
      assert cards[..|cards|] == cards;
      var aces := AcesByName(cards);
      var k := 0;
      while k < aces
        invariant 0 <= k <= aces
        invariant AdjustForAces(total, aces - k) == HandTotal(cards)
      {
        if total <= BLACKJACK {
          break;
        }
        total := total - 10;
        k := k + 1;
      }
      TotalIsPlainSum(cards);
    }

    /** `busted?`: the total is over 21. */
    predicate Busted()
      requires AllValued(cards)
      reads this
    {
      HandTotal(cards) > BLACKJACK
    }

    /** `Dealer#hit?`: the dealer takes a card while the total is below 17. */
    predicate DealerHits()
      requires AllValued(cards)
      reads this
    {
      HandTotal(cards) < DEALER_STAYS_AT
    }

    /** `reset`: the hand is emptied. */
    method Reset()
      modifies this
      ensures cards == []
    {
      cards := [];
    }
  }

  class Deck {
    var cards: seq<Card>

    /** `initialize`: a freshly shuffled full deck. */
    constructor ()
      ensures |cards| == 52 && multiset(cards) == multiset(FullDeck())
    {
      new;
      ShuffleCards();
    }

    /** `shuffle_cards`: one card per rank and suit, appended rank by rank,
        then shuffled. */
    method ShuffleCards()
      modifies this
      ensures |cards| == 52 && multiset(cards) == multiset(FullDeck())
    {
      cards := [];
      for r := 0 to |RANKS|
        invariant cards == CardsOfRanks(RANKS[..r])
      {
        for s := 0 to |SUITS|
          invariant cards == CardsOfRanks(RANKS[..r]) + SuitsOf(RANKS[r])[..s]
        {
          assert SuitsOf(RANKS[r])[..s + 1] == SuitsOf(RANKS[r])[..s] + [Card(RANKS[r], SUITS[s])];
          cards := cards + [Card(RANKS[r], SUITS[s])];
        }
        assert RANKS[..r + 1][..r] == RANKS[..r];
      }
      assert RANKS[..|RANKS|] == RANKS;
      FullDeckSpec(Card("A", SUITS[0]));
      cards := Shuffle(cards);
    }

    /** `deal(participant)`: the deck's last card is popped and pushed onto
        the participant's hand. An empty deck would push nil, on which
        `total` fails, so the deck must hold a card. */
    method Deal(p: Participant)
      requires cards != []
      modifies this, p
      ensures cards == old(cards[..|cards| - 1])
      ensures p.cards == old(p.cards) + [old(cards[|cards| - 1])]
      ensures multiset(cards) + multiset(p.cards) == old(multiset(cards) + multiset(p.cards))
    {
      var top := cards[|cards| - 1];
      assert cards == cards[..|cards| - 1] + [top];
      cards := cards[..|cards| - 1];
      p.cards := p.cards + [top];
    }
  }

  /** What `result` reports. */
  datatype Outcome = DealerBusted | PlayerBusted | DealerWon | PlayerWon | Tie

  /** `result` on the two totals: the dealer's bust is checked first, then
      the player's, then the higher total, else a tie. */
  function ResultOf(playerTotal: int, dealerTotal: int): Outcome {
    if dealerTotal > BLACKJACK then DealerBusted
    else if playerTotal > BLACKJACK then PlayerBusted
    else if dealerTotal > playerTotal then DealerWon
    else if playerTotal > dealerTotal then PlayerWon
    else Tie
  }

  /** Each outcome described by the totals alone. A dealer bust wins for
      the player even when the player is bust too. */
  lemma ResultSpec(p: int, d: int)
    ensures ResultOf(p, d) == DealerBusted <==> d > BLACKJACK
    ensures ResultOf(p, d) == PlayerBusted <==> p > BLACKJACK && d <= BLACKJACK
    ensures ResultOf(p, d) == DealerWon <==> p < d <= BLACKJACK
    ensures ResultOf(p, d) == PlayerWon <==> d < p <= BLACKJACK
    ensures ResultOf(p, d) == Tie <==> p == d <= BLACKJACK
  {
  }

  /** Multiset union may be regrouped. */
  lemma MultisetRegroup(a: multiset<Card>, b: multiset<Card>, c: multiset<Card>)
    ensures a + b + c == (a + c) + b
  {
  }

  /** The top `k` cards of a deck, in the order `pop` takes them: the
      last card first. */
  function TopCards(d: seq<Card>, k: nat): (top: seq<Card>)
    requires k <= |d|
    ensures |top| == k && forall i :: 0 <= i < k ==> top[i] == d[|d| - 1 - i]
  {
    seq(k, i requires 0 <= i < k => d[|d| - 1 - i])
  }

  /** Popping one more card appends it to the cards already taken. */
  lemma TopCardsSnoc(d: seq<Card>, k: nat)
    requires k < |d|
    ensures TopCards(d, k + 1) == TopCards(d, k) + [d[|d| - 1 - k]]
  {
  }

  /** Each card of `hand` from position `from` on was drawn while the
      total of the cards before it was below 17. */
  predicate HitBelowStay(hand: seq<Card>, from: nat) {
    forall j {:trigger hand[..j]} :: from <= j < |hand| ==>
      AllValued(hand[..j]) && HandTotal(hand[..j]) < DEALER_STAYS_AT
  }

  /** A card drawn at a total below 17 extends the run of such draws. */
  lemma HitBelowStaySnoc(hand: seq<Card>, c: Card, from: nat)
    requires AllValued(hand) && HandTotal(hand) < DEALER_STAYS_AT
    requires HitBelowStay(hand, from) && from <= |hand|
    ensures HitBelowStay(hand + [c], from)
  {
    var h := hand + [c];
    forall j | from <= j < |h|
      ensures AllValued(h[..j]) && HandTotal(h[..j]) < DEALER_STAYS_AT
    {
      assert h[..j] == hand[..j];
      if j == |hand| {
        assert hand[..j] == hand;
      }
    }
  }

  /** `hand` is `l0` followed by the top cards of the deck `d0`, the deck
      `cards` is `d0` without them, and each was drawn at a total below
      17. */
  ghost predicate Drawn(d0: seq<Card>, l0: seq<Card>, cards: seq<Card>, hand: seq<Card>) {
    && |l0| <= |hand| <= |l0| + |d0|
    && cards == d0[..|d0| - (|hand| - |l0|)]
    && hand == l0 + TopCards(d0, |hand| - |l0|)
    && HitBelowStay(hand, |l0|)
  }

  /** Popping the deck's top card onto a hand below 17 keeps the draw
      described. */
  lemma DrawnSnoc(d0: seq<Card>, l0: seq<Card>, cards: seq<Card>, hand: seq<Card>)
    requires Drawn(d0, l0, cards, hand) && cards != []
    requires AllValued(hand) && HandTotal(hand) < DEALER_STAYS_AT
    ensures Drawn(d0, l0, cards[..|cards| - 1], hand + [cards[|cards| - 1]])
  {
    var k := |hand| - |l0|;
    var top := cards[|cards| - 1];
    assert top == d0[|d0| - 1 - k];
    TopCardsSnoc(d0, k);
    assert hand + [top] == l0 + (TopCards(d0, k) + [top]);
    assert d0[..|d0| - k][..|d0| - k - 1] == d0[..|d0| - (k + 1)];
    HitBelowStaySnoc(hand, top, |l0|);
  }

  /** `TwentyOne`: the deck and the two participants. */
  class Game {
    const deck: Deck
    const player: Participant
    const dealer: Participant

    /** No card is lost or made: deck and hands together are always the
        52 cards of a full deck. */
    ghost predicate Valid()
      reads this, deck, player, dealer
    {
      && player != dealer
      && multiset(deck.cards) + multiset(player.cards) + multiset(dealer.cards) == multiset(FullDeck())
    }

    /** Under the invariant every card in play has a value. */
    lemma CardsValued()
      requires Valid()
      ensures AllValued(deck.cards) && AllValued(player.cards) && AllValued(dealer.cards)
    {
      forall c | c in deck.cards || c in player.cards || c in dealer.cards
        ensures c.rank in CARD_VALUES
      {
        FullDeckValued(c);
      }
    }

    /** `initialize`: the names come from the console and from sampling
        the dealer names, and are parameters. */
    constructor (playerName: string, dealerName: string)
      ensures Valid() && fresh(deck) && fresh(player) && fresh(dealer)
      ensures player.cards == [] && dealer.cards == [] && |deck.cards| == 52
    {
      deck := new Deck();
      player := new Participant(playerName);
      dealer := new Participant(dealerName);
    }

    /** `deal_cards`: twice, one card to the player and then one to the
        dealer, each from the top of the deck. */
    method DealCards()
      requires Valid() && |deck.cards| >= 4
      modifies deck, player, dealer
      ensures Valid()
      ensures deck.cards == old(deck.cards[..|deck.cards| - 4])
      ensures player.cards == old(player.cards + [deck.cards[|deck.cards| - 1], deck.cards[|deck.cards| - 3]])
      ensures dealer.cards == old(dealer.cards + [deck.cards[|deck.cards| - 2], deck.cards[|deck.cards| - 4]])
    {
      ghost var d, p0, l0 := deck.cards, player.cards, dealer.cards;
      ghost var n := |d|;
      for k := 0 to 2
        invariant Valid()
        invariant deck.cards == d[..n - 2 * k]
        invariant k == 0 ==> player.cards == p0 && dealer.cards == l0
        invariant k == 1 ==> player.cards == p0 + [d[n - 1]] && dealer.cards == l0 + [d[n - 2]]
        invariant k == 2 ==> player.cards == p0 + [d[n - 1], d[n - 3]] && dealer.cards == l0 + [d[n - 2], d[n - 4]]
      {
        DealRound();
      }
    }

    /** One pass of `deal_cards`'s loop: the top card to the player, the
        next to the dealer. */
    method DealRound()
      requires Valid() && |deck.cards| >= 2
      modifies deck, player, dealer
      ensures Valid()
      ensures deck.cards == old(deck.cards[..|deck.cards| - 2])
      ensures player.cards == old(player.cards) + [old(deck.cards[|deck.cards| - 1])]
      ensures dealer.cards == old(dealer.cards) + [old(deck.cards[|deck.cards| - 2])]
    {
      ghost var d := deck.cards;
      Hit(player);
      Hit(dealer);
      assert d[..|d| - 1][..|d| - 2] == d[..|d| - 2];
    }

    /** `hit(participant)`: one card from the deck to that participant. */
    method Hit(p: Participant)
      requires Valid() && (p == player || p == dealer) && deck.cards != []
      modifies deck, p
      ensures Valid()
      ensures deck.cards == old(deck.cards[..|deck.cards| - 1])
      ensures p.cards == old(p.cards) + [old(deck.cards[|deck.cards| - 1])]
    {
      ghost var d, pl, dl := deck.cards, player.cards, dealer.cards;
      deck.Deal(p);
      if p == player {
        assert dealer.cards == dl;
        assert multiset(deck.cards) + multiset(player.cards) == multiset(d) + multiset(pl);
      } else {
        assert player.cards == pl;
        assert multiset(deck.cards) + multiset(dealer.cards) == multiset(d) + multiset(dl);
        MultisetRegroup(multiset(deck.cards), multiset(pl), multiset(dealer.cards));
        MultisetRegroup(multiset(d), multiset(pl), multiset(dl));
      }
    }

    /** The dealer's hand and the deck, as drawn from `l0` and `d0`. */
    ghost predicate DrawnFrom(d0: seq<Card>, l0: seq<Card>)
      reads this, deck, dealer
    {
      Drawn(d0, l0, deck.cards, dealer.cards)
    }

    /** One pass of `dealer_turn`'s loop while the dealer hits: the top
        card goes to the dealer, whose total grows by at least 2. */
    method DealerHit(ghost d0: seq<Card>, ghost l0: seq<Card>)
      requires Valid() && AllValued(dealer.cards) && dealer.DealerHits()
      requires deck.cards != [] && DrawnFrom(d0, l0)
      modifies deck, dealer
      ensures Valid() && AllValued(dealer.cards) && DrawnFrom(d0, l0)
      ensures player.cards == old(player.cards)
      ensures |deck.cards| == old(|deck.cards|) - 1
      ensures HandTotal(dealer.cards) >= old(HandTotal(dealer.cards)) + 2
    {
      ghost var before := dealer.cards;
      ghost var top := deck.cards[|deck.cards| - 1];
      DrawnSnoc(d0, l0, deck.cards, before);
      Hit(dealer);
      CardsValued();
      TotalIsPlainSum(before);
      TotalIsPlainSum(dealer.cards);
      SumValuesSnoc(before, top);
    }

    /** `dealer_turn`: the dealer hits until the total is 17 or more
        (a bust ends the loop as well, and is 17 or more too). Each card
        adds at least 2, so nine cards in the deck are always enough. The
        dealer takes the deck's top k cards in the order they are popped,
        the deck loses exactly those, and every total before a draw was
        below 17. */
    method DealerTurn()
      requires Valid() && |deck.cards| >= 9
      modifies deck, dealer
      ensures Valid()
      ensures AllValued(dealer.cards) && !dealer.DealerHits()
      ensures player.cards == old(player.cards)
      ensures old(|dealer.cards|) <= |dealer.cards| <= old(|dealer.cards| + |deck.cards|)
      ensures var k := |dealer.cards| - old(|dealer.cards|);
        && deck.cards == old(deck.cards)[..old(|deck.cards|) - k]
        && dealer.cards == old(dealer.cards) + TopCards(old(deck.cards), k)
      ensures HitBelowStay(dealer.cards, old(|dealer.cards|))
    {
      ghost var d0, l0 := deck.cards, dealer.cards;
      CardsValued();
      TotalIsPlainSum(dealer.cards);
      SumAtLeastTwicePerCard(dealer.cards);
      assert TopCards(d0, 0) == [] && l0 + [] == l0 && d0[..|d0|] == d0;
      while dealer.DealerHits()
        invariant Valid() && AllValued(dealer.cards)
        invariant HandTotal(dealer.cards) >= 0
        invariant 2 * |deck.cards| + HandTotal(dealer.cards) >= 18
        invariant player.cards == old(player.cards)
        invariant DrawnFrom(d0, l0)
        decreases DEALER_STAYS_AT - HandTotal(dealer.cards)
      {
        DealerHit(d0, l0);
      }
    }

    /** `result` for the current hands. */
    function Result(): Outcome
      requires Valid()
      reads this, deck, player, dealer
    {
      CardsValued();
      ResultOf(HandTotal(player.cards), HandTotal(dealer.cards))
    }

    /** `reset`: both hands emptied and a new shuffled full deck. */
    method Reset()
      requires Valid()
      modifies deck, player, dealer
      ensures Valid()
      ensures player.cards == [] && dealer.cards == []
      ensures |deck.cards| == 52 && multiset(deck.cards) == multiset(FullDeck())
    {
      player.Reset();
      dealer.Reset();
      deck.ShuffleCards();
    }
  }
}
