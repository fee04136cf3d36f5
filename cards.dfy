/** Playing cards: `Card` of poker_simulations/engine.py and the older `Card`
    of game.py. A card stores its rank as one of thirteen values and its suit
    as a letter together with the letter's case, since the source keeps the
    suit string exactly as given ('h' and 'H' are both valid and unequal). */
module Cards {
  import opened Wrappers

  datatype Rank =
    | Two | Three | Four | Five | Six | Seven | Eight | Nine | Ten
    | Jack | Queen | King | Ace

  datatype Letter = Hearts | Diamonds | Spades | Clubs

  datatype Suit = Suit(letter: Letter, upperCase: bool)

  /** Equality of cards is equality of rank and suit, as `__eq__` compares `__dict__`. */
  datatype Card = Card(rank: Rank, suit: Suit)

  /** The Python value passed as a rank: an int or a str. */
  datatype RankArg = Num(n: int) | Face(name: string)

  /** `rank_order`: the ranks from weakest to strongest. */
  const RankOrder: seq<Rank> :=
    [Two, Three, Four, Five, Six, Seven, Eight, Nine, Ten, Jack, Queen, King, Ace]

  /** The accepted rank values, `['A', 'K', 'Q', 'J'] + list(range(2, 11))`. */
  const RankArgs: seq<RankArg> :=
    [Face("A"), Face("K"), Face("Q"), Face("J"),
     Num(2), Num(3), Num(4), Num(5), Num(6), Num(7), Num(8), Num(9), Num(10)]

  const SuitArgs: seq<string> := ["h", "d", "s", "c"]

  /** `internal_rank`: the position of the rank in `rank_order`. */
  function Ir(r: Rank): (i: nat)
    ensures i < 13 && RankOrder[i] == r
  {
    match r
    case Two => 0
    case Three => 1
    case Four => 2
    case Five => 3
    case Six => 4
    case Seven => 5
    case Eight => 6
    case Nine => 7
    case Ten => 8
    case Jack => 9
    case Queen => 10
    case King => 11
    case Ace => 12
  }

  function CardIr(c: Card): nat {
    Ir(c.rank)
  }

  /** The Python value the source holds in `card.rank`. */
  function Label(r: Rank): RankArg {
    match r
    case Jack => Face("J")
    case Queen => Face("Q")
    case King => Face("K")
    case Ace => Face("A")
    case _ => Num(Ir(r) + 2)
  }

  function ParseRank(x: RankArg): (r: Option<Rank>)
    ensures r.Some? <==> x in RankArgs
    ensures r.Some? ==> Label(r.value) == x
  {
    match x
    case Num(n) => if 2 <= n <= 10 then Some(RankOrder[n - 2]) else None
    case Face(s) =>
      if s == "A" then Some(Ace)
      else if s == "K" then Some(King)
      else if s == "Q" then Some(Queen)
      else if s == "J" then Some(Jack)
      else None
  }

  function LetterChar(l: Letter): char {
    match l
    case Hearts => 'h'
    case Diamonds => 'd'
    case Spades => 's'
    case Clubs => 'c'
  }

  function UpperChar(ch: char): char {
    if 'a' <= ch <= 'z' then (ch as int - 32) as char else ch
  }

  function LowerChar(ch: char): char {
    if 'A' <= ch <= 'Z' then (ch as int + 32) as char else ch
  }

  /** `str.lower()` on ASCII text. */
  function Lower(s: string): (t: string)
    ensures |t| == |s| && forall i :: 0 <= i < |s| ==> t[i] == LowerChar(s[i])
  {
    if s == [] then [] else [LowerChar(s[0])] + Lower(s[1..])
  }

  /** `str.upper()` on ASCII text. */
  function Upper(s: string): (t: string)
    ensures |t| == |s| && forall i :: 0 <= i < |s| ==> t[i] == UpperChar(s[i])
  {
    if s == [] then [] else [UpperChar(s[0])] + Upper(s[1..])
  }

  /** The suit string the source holds in `card.suit`. */
  function SuitText(s: Suit): string {
    var ch := LetterChar(s.letter);
    if s.upperCase then [UpperChar(ch)] else [ch]
  }

  function ParseSuit(s: string): (r: Option<Suit>)
    ensures r.Some? <==> Lower(s) in SuitArgs
    ensures r.Some? ==> SuitText(r.value) == s
  {
    if |s| != 1 then None
    else
      var ch := s[0];
      var lower := LowerChar(ch);
      var up := ch != lower;
      assert Lower(s) == [lower];
      if lower == 'h' then Some(Suit(Hearts, up))
      else if lower == 'd' then Some(Suit(Diamonds, up))
      else if lower == 's' then Some(Suit(Spades, up))
      else if lower == 'c' then Some(Suit(Clubs, up))
      else None
  }

  /** `Card(rank, suit)` of engine.py: `do_checks` raises ValueError unless the
      rank is one of the accepted values and the lower-cased suit is h, d, s or c. */
  function NewCard(rank: RankArg, suit: string): (r: Result<Card>)
    ensures r.Success? <==> rank in RankArgs && Lower(suit) in SuitArgs
    ensures r.Failure? ==> r.error == ValueError
    ensures r.Success? ==> Label(r.value.rank) == rank && SuitText(r.value.suit) == suit
  {
    match (ParseRank(rank), ParseSuit(suit))
    case (Some(rk), Some(st)) => Success(Card(rk, st))
    case _ => Failure(ValueError)
  }

  /** `Card(rank, suit)` of game.py: only upper-case suits are accepted, and an
      invalid rank raises AttributeError, because the error message reads the
      attribute `self.num`, which no card has. */
  function NewLegacyCard(rank: RankArg, suit: string): (r: Result<Card>)
    ensures r.Success? <==> rank in RankArgs && suit in ["H", "D", "S", "C"]
    ensures !(rank in RankArgs) ==> r == Failure(AttributeError)
    ensures rank in RankArgs && !(suit in ["H", "D", "S", "C"]) ==> r == Failure(ValueError)
    ensures r.Success? ==> Label(r.value.rank) == rank && SuitText(r.value.suit) == suit
  {
    match ParseRank(rank)
    case None => Failure(AttributeError)
    case Some(rk) =>
      if suit in ["H", "D", "S", "C"] then
        var st := ParseSuit(suit);
        assert Lower(suit) in SuitArgs;
        Success(Card(rk, st.value))
      else Failure(ValueError)
  }

  /** The text of an int rank, `str(n)` for 2..10. */
  function RankText(r: Rank): string {
    match r
    case Two => "2"
    case Three => "3"
    case Four => "4"
    case Five => "5"
    case Six => "6"
    case Seven => "7"
    case Eight => "8"
    case Nine => "9"
    case Ten => "10"
    case Jack => "J"
    case Queen => "Q"
    case King => "K"
    case Ace => "A"
  }

  function RankOfText(s: string): Option<Rank> {
    if s == "2" then Some(Two)
    else if s == "3" then Some(Three)
    else if s == "4" then Some(Four)
    else if s == "5" then Some(Five)
    else if s == "6" then Some(Six)
    else if s == "7" then Some(Seven)
    else if s == "8" then Some(Eight)
    else if s == "9" then Some(Nine)
    else if s == "10" then Some(Ten)
    else if s == "J" then Some(Jack)
    else if s == "Q" then Some(Queen)
    else if s == "K" then Some(King)
    else if s == "A" then Some(Ace)
    else None
  }

  /** `str(card)` of engine.py: the upper-cased rank followed by the
      upper-cased suit, e.g. "AH", "10C". */
  function Show(c: Card): string {
    RankText(c.rank) + [UpperChar(LetterChar(c.suit.letter))]
  }

  lemma RankTextRoundTrip(r: Rank)
    ensures RankOfText(RankText(r)) == Some(r)
  {
  }

  /** Two cards print alike exactly when they agree on rank and on the suit
      letter; the case of the suit letter is invisible. */
  lemma ShowIdentifies(a: Card, b: Card)
    ensures Show(a) == Show(b) <==> a.rank == b.rank && a.suit.letter == b.suit.letter
  {
    if Show(a) == Show(b) {
      var n := |Show(a)|;
      assert Show(a)[n - 1] == Show(b)[n - 1];
      assert RankText(a.rank) == Show(a)[..n - 1];
      assert RankText(b.rank) == Show(b)[..n - 1];
      RankTextRoundTrip(a.rank);
      RankTextRoundTrip(b.rank);
    }
  }

  /** `rank_order` is the inverse of `internal_rank`, and `internal_rank`
      strictly increases along `rank_order`. */
  lemma RankOrderStrictlyIncreasing(i: int, j: int)
    requires 0 <= i < j < 13
    ensures Ir(RankOrder[i]) < Ir(RankOrder[j])
  {
  }

  lemma LabelRoundTrip(r: Rank)
    ensures ParseRank(Label(r)) == Some(r)
  {
  }

  lemma SuitRoundTrip(s: Suit)
    ensures ParseSuit(SuitText(s)) == Some(s)
  {
  }

  /** `__lt__`, `__le__`, `__gt__`, `__ge__` of a card: rank order only, and a
      TypeError against an operand that is not a card. */
  function CardLt(a: Card, other: Operand<Card>): Result<bool> {
    match other
    case Foreign => Failure(TypeError)
    case Instance(b) => Success(Ir(a.rank) < Ir(b.rank))
  }

  function CardLe(a: Card, other: Operand<Card>): Result<bool> {
    match other
    case Foreign => Failure(TypeError)
    case Instance(b) => Success(Ir(a.rank) <= Ir(b.rank))
  }

  function CardGt(a: Card, other: Operand<Card>): Result<bool> {
    match other
    case Foreign => Failure(TypeError)
    case Instance(b) => Success(Ir(a.rank) > Ir(b.rank))
  }

  function CardGe(a: Card, other: Operand<Card>): Result<bool> {
    match other
    case Foreign => Failure(TypeError)
    case Instance(b) => Success(Ir(a.rank) >= Ir(b.rank))
  }

  /** The four operators form one total preorder on cards: `>` and `>=` are
      the converses of `<` and `<=`, `<=` is the negation of `>`, and
      comparing with a non-card always fails. */
  lemma CardOrderConsistent(a: Card, b: Card)
    ensures CardGt(a, Instance(b)) == CardLt(b, Instance(a))
    ensures CardGe(a, Instance(b)) == CardLe(b, Instance(a))
    ensures CardLe(a, Instance(b)) == Success(!CardGt(a, Instance(b)).value)
    ensures CardLt(a, Instance(b)).value || CardLe(b, Instance(a)).value
    ensures CardLt(a, Foreign) == CardLe(a, Foreign) == CardGt(a, Foreign) == CardGe(a, Foreign) == Failure(TypeError)
  {
  }

  /** Cards of equal rank and different suit are unequal, yet neither is less
      than the other. */
  lemma SameRankIncomparable(a: Card, b: Card)
    requires a.rank == b.rank && a.suit != b.suit
    ensures a != b
    ensures !CardLt(a, Instance(b)).value && !CardLt(b, Instance(a)).value
    ensures CardLe(a, Instance(b)).value && CardGe(a, Instance(b)).value
  {
  }
}
