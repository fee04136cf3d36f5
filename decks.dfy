/** `Deck` of poker_simulations/engine.py: the 52 cards in a deque that
    `pop` and `get` shrink in place, and `place`, which builds a new deck. */
module Decks {
  import opened Wrappers
  import opened Cards
  import opened Seqs

  /** The suits `create` deals for each rank, in its order. */
  const DeckSuits: seq<string> := ["H", "C", "S", "D"]

  lemma DivMod4(i: nat, j: nat)
    requires j < 4
    ensures (4 * i + j) / 4 == i && (4 * i + j) % 4 == j
  {
  }

  /** The ranks `create` deals, in its order, as `Card` stores them. */
  const DeckRanks: seq<Rank> :=
    [Ace, King, Queen, Jack, Two, Three, Four, Five, Six, Seven, Eight, Nine, Ten]

  /** The suits `create` deals, as `Card` stores them. */
  const DeckLetters: seq<Letter> := [Hearts, Clubs, Spades, Diamonds]

  lemma RankParsed(i: nat)
    requires i < 13
    ensures ParseRank(RankArgs[i]) == Some(DeckRanks[i])
  {
  }

  lemma SuitParsed(j: nat)
    requires j < 4
    ensures ParseSuit(DeckSuits[j]) == Some(Suit(DeckLetters[j], true))
  {
    assert Lower(DeckSuits[j]) == [LowerChar(DeckSuits[j][0])];
  }

  /** Every rank and suit `create` passes to `Card` is accepted. */
  lemma Creates(i: nat, j: nat)
    requires i < 13 && j < 4
    ensures NewCard(RankArgs[i], DeckSuits[j]) == Success(Card(DeckRanks[i], Suit(DeckLetters[j], true)))
  {
    RankParsed(i);
    SuitParsed(j);
  }

  /** The k-th card `create` appends: rank `k / 4`, suit `k % 4`. */
  function CardAt(k: nat): Card
    requires k < 52
  {
    Card(DeckRanks[k / 4], Suit(DeckLetters[k % 4], true))
  }

  /** The deque `create` returns. */
  function FullDeck(): (d: seq<Card>)
    ensures |d| == 52
  {
    seq(52, k requires 0 <= k < 52 => CardAt(k))
  }

  /** `create()`: for each rank of `['A', 'K', 'Q', 'J'] + list(range(2, 11))`
      and each of the suits H, C, S, D, append `Card(rank, suit)`. The cards
      of one rank are gathered in `row` before they join the deque. */
  method Create() returns (cards: seq<Card>)
    ensures cards == FullDeck()
  {
    cards := [];
    for i := 0 to 13
      invariant |cards| == 4 * i
      invariant forall k :: 0 <= k < |cards| ==> cards[k] == CardAt(k)
    {
      var row := [];
      for j := 0 to 4
        invariant |row| == j
        invariant forall m :: 0 <= m < j ==> row[m] == Card(DeckRanks[i], Suit(DeckLetters[m], true))
      {
        Creates(i, j);
        var c := NewCard(RankArgs[i], DeckSuits[j]).value;
        row := row + [c];
      }
      RowDone(cards, row, i);
      cards := cards + row;
    }
  }

  lemma RowDone(cards: seq<Card>, row: seq<Card>, i: nat)
    requires i < 13 && |cards| == 4 * i && |row| == 4
    requires forall k :: 0 <= k < |cards| ==> cards[k] == CardAt(k)
    requires forall m :: 0 <= m < 4 ==> row[m] == Card(DeckRanks[i], Suit(DeckLetters[m], true))
    ensures forall k :: 0 <= k < |cards + row| ==> (cards + row)[k] == CardAt(k)
  {
    forall k | 0 <= k < |cards + row|
      ensures (cards + row)[k] == CardAt(k)
    {
      if k >= 4 * i {
        var m := k - 4 * i;
        DivMod4(i, m);
        assert (cards + row)[k] == row[m];
        assert CardAt(k) == CardAt(4 * i + m);
      } else {
        assert (cards + row)[k] == cards[k];
      }
    }
  }

  /** `create` deals each rank once and each suit once per rank. */
  lemma SlotsInverse(i: nat, j: nat)
    requires i < 13 && j < 4
    ensures RankSlot(DeckRanks[i]) == i && SuitSlot(DeckLetters[j]) == j
  {
  }

  /** Different steps of `create` make different cards. */
  lemma CardAtInjective(a: nat, b: nat)
    requires a < 52 && b < 52 && CardAt(a) == CardAt(b)
    ensures a == b
  {
    SlotsInverse(a / 4, a % 4);
    SlotsInverse(b / 4, b % 4);
  }

  /** The position of a rank in `create`'s rank list. */
  function RankSlot(r: Rank): (i: nat)
    ensures i < 13 && DeckRanks[i] == r
  {
    match r
    case Ace => 0
    case King => 1
    case Queen => 2
    case Jack => 3
    case _ => Ir(r) + 4
  }

  /** The position of a suit letter in `create`'s suit list. */
  function SuitSlot(l: Letter): (j: nat)
    ensures j < 4 && DeckLetters[j] == l
  {
    match l
    case Hearts => 0
    case Clubs => 1
    case Spades => 2
    case Diamonds => 3
  }

  /** `create` makes 52 pairwise different cards, all with upper-case suits,
      and every card with an upper-case suit is one of them. */
  lemma FullDeckSpec()
    ensures NoDups(FullDeck())
    ensures forall k :: 0 <= k < 52 ==> FullDeck()[k].suit.upperCase
    ensures forall c: Card :: c.suit.upperCase ==> c in FullDeck()
  {
    var d := FullDeck();
    forall a, b | 0 <= a < b < 52
      ensures d[a] != d[b]
    {
      if d[a] == d[b] {
        CardAtInjective(a, b);
      }
    }
    forall c: Card | c.suit.upperCase
      ensures c in d
    {
      var i, j := RankSlot(c.rank), SuitSlot(c.suit.letter);
      DivMod4(i, j);
      assert d[4 * i + j] == c;
    }
  }

  /** The test `i.rank == rank and i.suit == suit` of `get`. */
  predicate Matches(c: Card, rank: RankArg, suit: string) {
    Label(c.rank) == rank && SuitText(c.suit) == suit
  }

  /** The index of the first card with the given rank and suit. */
  function FindCard(s: seq<Card>, rank: RankArg, suit: string): (k: Option<nat>)
    ensures k.None? <==> forall j :: 0 <= j < |s| ==> !Matches(s[j], rank, suit)
    ensures k.Some? ==> k.value < |s| && Matches(s[k.value], rank, suit)
    ensures k.Some? ==> forall j :: 0 <= j < k.value ==> !Matches(s[j], rank, suit)
  {
    if s == [] then None
    else if Matches(s[0], rank, suit) then Some(0)
    else match FindCard(s[1..], rank, suit)
      case None => None
      case Some(k) => Some(k + 1)
  }

  lemma FoundFirst(s: seq<Card>, rank: RankArg, suit: string, k: nat)
    requires k < |s| && Matches(s[k], rank, suit)
    requires forall j :: 0 <= j < k ==> !Matches(s[j], rank, suit)
    ensures FindCard(s, rank, suit) == Some(k)
  {
  }

  /** `[i for i in cards if str(i) != str(card)]`. */
  function Without(s: seq<Card>, card: Card): (r: seq<Card>)
    ensures |r| <= |s|
  {
    if s == [] then []
    else (if Show(s[0]) != Show(card) then [s[0]] else []) + Without(s[1..], card)
  }

  /** The filter keeps exactly the cards that do not print like `card`, in
      their order: it distributes over concatenation. */
  lemma {:induction false} WithoutSpec(s: seq<Card>, card: Card)
    ensures forall x :: x in Without(s, card) <==> x in s && Show(x) != Show(card)
  {
    if s != [] {
      WithoutSpec(s[1..], card);
      assert s == [s[0]] + s[1..];
    }
  }

  lemma {:induction false} WithoutConcat(a: seq<Card>, b: seq<Card>, card: Card)
    ensures Without(a + b, card) == Without(a, card) + Without(b, card)
  {
    if a != [] {
      WithoutConcat(a[1..], b, card);
      TailConcat(a, b);
    } else {
      assert a + b == b;
    }
  }

  class Deck {
    var cards: seq<Card>

    /** `Deck()` before its shuffle: the cards of `create`. */
    constructor ()
      ensures cards == FullDeck()
    {
      var c := Create();
      cards := c;
    }

    /** `shuffle()`: the cards in some new order, which `order` names. */
    method Shuffle(order: seq<Card>) returns (r: seq<Card>)
      requires multiset(order) == multiset(cards)
      modifies this
      ensures cards == order && r == order
    {
      cards := order;
      r := cards;
    }

    /** `pop()`: IndexError on an empty deque, otherwise the last card,
        which leaves the deck. */
    method Pop() returns (r: Result<Card>)
      modifies this
      ensures old(cards) == [] ==> r == Failure(IndexError) && cards == []
      ensures old(cards) != [] ==> r == Success(old(cards)[|old(cards)| - 1])
      ensures r.Success? ==> cards + [r.value] == old(cards)
    {
      if cards == [] {
        return Failure(IndexError);
      }
      var card := cards[|cards| - 1];
      cards := cards[..|cards| - 1];
      return Success(card);
    }

    /** `get(rank, suit)`: remove and return the first card with that rank
        and suit; `None` and no change when there is none. */
    method Get(rank: RankArg, suit: string) returns (r: Option<Card>)
      modifies this
      ensures r.None? <==> FindCard(old(cards), rank, suit).None?
      ensures r.None? ==> cards == old(cards)
      ensures r.Some? ==> var k := FindCard(old(cards), rank, suit).value;
        r.value == old(cards)[k] && cards == old(cards)[..k] + old(cards)[k + 1..]
    {
      for i := 0 to |cards|
        invariant cards == old(cards)
        invariant forall j :: 0 <= j < i ==> !Matches(cards[j], rank, suit)
      {
        var c := cards[i];
        if Matches(c, rank, suit) {
          FoundFirst(cards, rank, suit, i);
          assert forall j :: 0 <= j < i ==> cards[j] != c;
          RemoveFirstAt(cards, c, i);
          cards := RemoveFirst(cards, c);
          return Some(c);
        }
      }
      return None;
    }

    /** `place(position, card)`: a new deck holding this deck's cards
        without those that print like `card`, with `card` inserted at
        `position`. */
    method Place(position: int, card: Card) returns (d: Deck)
      ensures fresh(d) && d.cards == Insert(Without(cards, card), position, card)
    {
      d := new Deck();
      var kept := Without(cards, card);
      d.cards := Insert(kept, position, card);
    }
  }

  /** After `place`, `card` sits at the index `list.insert` picks, no other
      card prints like it, and removing it gives the filtered old deck. */
  lemma PlaceSpec(s: seq<Card>, position: int, card: Card)
    ensures var r, k := Insert(Without(s, card), position, card), InsertIndex(|Without(s, card)|, position);
      r[k] == card && r[..k] + r[k + 1..] == Without(s, card) &&
      forall i :: 0 <= i < |r| && i != k ==> Show(r[i]) != Show(card)
  {
    var w := Without(s, card);
    var r, k := Insert(w, position, card), InsertIndex(|w|, position);
    InsertSpec(w, position, card);
    WithoutSpec(s, card);
    assert r == w[..k] + [card] + w[k..];
    InsertedOthers(w, k, card);
  }

  /** Every element of `w[..k] + [x] + w[k..]` off index `k` comes from `w`. */
  lemma InsertedOthers(w: seq<Card>, k: nat, x: Card)
    requires k <= |w|
    ensures forall i :: 0 <= i < |w| + 1 && i != k ==> (w[..k] + [x] + w[k..])[i] in w
  {
    var r := w[..k] + [x] + w[k..];
    forall i | 0 <= i < |r| && i != k
      ensures r[i] in w
    {
      if i < k {
        assert r[i] == w[i];
      } else {
        assert r[i] == w[i - 1];
      }
    }
  }
}
