/** The seven-card hand of poker_simulations/eval.py (and of game.py, whose
    `Hand` takes one list of cards), its ten detector subclasses, the
    ordering of hands and `eval`.

    A hand object never changes after its constructor returns, so a hand is
    the value of its fields. `NewPair(src)` and its siblings are the
    constructors of the classes: each sorts the cards, checks there are
    seven and runs the class's `get_five_best`, which sets `isa` and yields
    `five_best`. `Build(kind, src)` calls the constructor of a class chosen
    at run time, as `eval` does. */
module Hands {
  import opened Wrappers
  import opened Cards
  import opened Seqs
  import opened CardSeqs
  import opened Counting

  /** The base class `Hand` and its ten subclasses. */
  datatype HandClass =
    | BaseHand
    | RoyalFlush | StraightFlush | FourOfAKind | FullHouse | Flush
    | Straight | ThreeOfAKind | TwoPair | Pair | HighCard

  /** `Hand.__subclasses__()`, in order of definition. */
  const Detectors: seq<HandClass> :=
    [RoyalFlush, StraightFlush, FourOfAKind, FullHouse, Flush,
     Straight, ThreeOfAKind, TwoPair, Pair, HighCard]

  /** `hand_rank_order()`: the class names from weakest to strongest. */
  const HandOrder: seq<string> :=
    ["HighCard", "Pair", "TwoPair", "ThreeOfAKind", "Straight",
     "Flush", "FullHouse", "FourOfAKind", "StraightFlush", "RoyalFlush"]

  /** `self.__class__.__name__`. */
  function ClassName(k: HandClass): string {
    match k
    case BaseHand => "Hand"
    case RoyalFlush => "RoyalFlush"
    case StraightFlush => "StraightFlush"
    case FourOfAKind => "FourOfAKind"
    case FullHouse => "FullHouse"
    case Flush => "Flush"
    case Straight => "Straight"
    case ThreeOfAKind => "ThreeOfAKind"
    case TwoPair => "TwoPair"
    case Pair => "Pair"
    case HighCard => "HighCard"
  }

  /** The category of a class, weakest first. */
  function Category(k: HandClass): nat {
    match k
    case BaseHand => 0
    case HighCard => 0
    case Pair => 1
    case TwoPair => 2
    case ThreeOfAKind => 3
    case Straight => 4
    case Flush => 5
    case FullHouse => 6
    case FourOfAKind => 7
    case StraightFlush => 8
    case RoyalFlush => 9
  }

  function IndexOf(s: seq<string>, x: string): (r: Option<nat>)
    ensures r.Some? ==> r.value < |s| && s[r.value] == x
    ensures r.None? <==> x !in s
  {
    if s == [] then None
    else if s[0] == x then Some(0)
    else match IndexOf(s[1..], x)
      case None => None
      case Some(i) => Some(i + 1)
  }

  /** `hand_rank_order()[self.__class__.__name__]`: the position of the
      class name in the list; a name not listed raises KeyError. */
  function RankLookup(k: HandClass): Result<nat> {
    match IndexOf(HandOrder, ClassName(k))
    case None => Failure(KeyError)
    case Some(i) => Success(i)
  }

  /** `internal_rank`, class by class: the category of a subclass, and
      KeyError for the base class. `EvalRules.InternalRankIsLookup` proves
      it is the lookup `RankLookup`. */
  function InternalRank(k: HandClass): Result<nat> {
    if k == BaseHand then Failure(KeyError) else Success(Category(k))
  }

  /** The arguments a hand was built from, as the nested detector hands see
      them: eval.py passes hole and community cards, game.py one list. */
  datatype Source = Split(hole: seq<Card>, community: seq<Card>) | Listed(all: seq<Card>)

  function AllCards(src: Source): seq<Card> {
    match src
    case Split(h, c) => h + c
    case Listed(cs) => cs
  }

  /** What the constructor stores of its arguments: eval.py keeps
      `hole_cards` and `community_cards` each sorted descending, game.py
      keeps `cards`. Nested detectors are built from these. */
  function Stored(src: Source): Source {
    match src
    case Split(h, c) => Split(SortDesc(h), SortDesc(c))
    case Listed(cs) => Listed(SortDesc(cs))
  }

  /** `self.cards`: eval.py sorts the community and the hole cards, joins them
      and sorts again; game.py sorts the one list. */
  function Arranged(src: Source): seq<Card> {
    match src
    case Split(h, c) => SortDesc(SortDesc(c) + SortDesc(h))
    case Listed(cs) => SortDesc(cs)
  }

  /** `five_best`: a list of cards, another hand object (what most detectors
      return when they do not qualify), or `None`. */
  datatype FiveBest = Cards(cards: seq<Card>) | Fallback(hand: Hand) | NoCards

  /** A constructed hand: its class and the fields of its `__dict__`. */
  datatype Hand = Hand(kind: HandClass, origin: Source, cards: seq<Card>, isa: bool, fiveBest: FiveBest)

  /** The outcome of `get_five_best`: the `isa` flag it sets and its result. */
  datatype Detection = Detection(isa: bool, fiveBest: FiveBest)

  /** The constructor of class `kind` once its `get_five_best` has had the
      outcome `rd`: it raises ValueError unless there are seven cards, and
      otherwise whatever `get_five_best` raised. */
  function Construct(kind: HandClass, src: Source, rd: Result<Detection>): (r: Result<Hand>)
    ensures |AllCards(src)| != 7 ==> r == Failure(ValueError)
    ensures r.Success? ==> r.value.kind == kind && r.value.origin == Stored(src) && r.value.cards == Arranged(src)
  {
    if |Arranged(src)| != 7 then Failure(ValueError)
    else
      match rd
      case Failure(e) => Failure(e)
      case Success(d) => Success(Hand(kind, Stored(src), Arranged(src), d.isa, d.fiveBest))
  }

  /** `kind(...)`, for a class chosen at run time. */
  function Build(kind: HandClass, src: Source): Result<Hand> {
    match kind
    case BaseHand => Construct(BaseHand, src, Success(Detection(false, NoCards)))
    case HighCard => NewHighCard(src)
    case Pair => NewPair(src)
    case TwoPair => NewTwoPair(src)
    case ThreeOfAKind => NewThreeOfAKind(src)
    case Straight => NewStraight(src)
    case Flush => NewFlush(src)
    case FullHouse => NewFullHouse(src)
    case FourOfAKind => NewFourOfAKind(src)
    case StraightFlush => NewStraightFlush(src)
    case RoyalFlush => NewRoyalFlush(src)
  }

  function NewHighCard(src: Source): Result<Hand> {
    Construct(HighCard, src, DetectHighCard(Arranged(src)))
  }

  function NewPair(src: Source): Result<Hand> {
    Construct(Pair, src, DetectPair(Stored(src), Arranged(src)))
  }

  function NewTwoPair(src: Source): Result<Hand> {
    Construct(TwoPair, src, DetectTwoPair(Stored(src), Arranged(src)))
  }

  function NewThreeOfAKind(src: Source): Result<Hand> {
    Construct(ThreeOfAKind, src, DetectThreeOfAKind(Stored(src), Arranged(src)))
  }

  function NewStraight(src: Source): Result<Hand> {
    Construct(Straight, src, DetectStraight(Stored(src), Arranged(src)))
  }

  function NewFlush(src: Source): Result<Hand> {
    Construct(Flush, src, DetectFlush(Stored(src), Arranged(src)))
  }

  function NewFullHouse(src: Source): Result<Hand> {
    Construct(FullHouse, src, DetectFullHouse(Stored(src), Arranged(src)))
  }

  function NewFourOfAKind(src: Source): Result<Hand> {
    Construct(FourOfAKind, src, DetectFourOfAKind(Stored(src), Arranged(src)))
  }

  function NewStraightFlush(src: Source): Result<Hand> {
    Construct(StraightFlush, src, DetectStraightFlush(Stored(src)))
  }

  function NewRoyalFlush(src: Source): Result<Hand> {
    Construct(RoyalFlush, src, DetectRoyalFlush(Stored(src), Arranged(src)))
  }

  /** `HighCard.get_five_best`: the first five cards. */
  function DetectHighCard(cards: seq<Card>): Result<Detection> {
    Success(Detection(true, Cards(Take(cards, 5))))
  }

  /** `return HighCard(...)`: a detector that does not qualify returns a
      freshly built HighCard hand as its `five_best`. */
  function Declined(k: HandClass, from: Source): Result<Detection>
    requires k != HighCard && k != BaseHand
  {
    match NewHighCard(from)
    case Failure(e) => Failure(e)
    case Success(h) =>
    Success(Detection(false, Fallback(h)))
  }

  /** The keys of `most_common(...)`, in order. */
  function Keys(mc: seq<(Rank, nat)>): seq<Rank> {
    if mc == [] then [] else [mc[0].0] + Keys(mc[1..])
  }

  /** The nested loop `for i in most_common: for card in cards: if card.rank is i[0]: append`. */
  function CardsOfRanks(cards: seq<Card>, ranks: seq<Rank>): seq<Card> {
    if ranks == [] then []
    else CardsOfRanks(cards, ranks[..|ranks| - 1]) + WithRank(cards, ranks[|ranks| - 1])
  }

  /** The members of `s` lying in exactly one of `a` and `b`. */
  function Exclusive(s: seq<Card>, a: seq<Card>, b: seq<Card>): seq<Card> {
    if s == [] then []
    else
      var last := s[|s| - 1];
      Exclusive(s[..|s| - 1], a, b) + (if (last in a) != (last in b) then [last] else [])
  }

  /** `list(set(a).symmetric_difference(set(b)))`. */
  function SymDiff(a: seq<Card>, b: seq<Card>): seq<Card> {
    Dedup(Exclusive(a + b, a, b))
  }

  /** What remains once the chosen cards are set aside, best first. */
  function Remaining(five: seq<Card>, cards: seq<Card>): seq<Card> {
    SortDesc(SymDiff(five, cards))
  }

  function Checked(five: seq<Card>): Result<Detection> {
    if |five| != 5 then Failure(AssertionError) else Success(Detection(true, Cards(five)))
  }

  function DetectPair(origin: Source, cards: seq<Card>): Result<Detection>
  {
    var mc := MostCommon(Ranks(cards), 1);
    if |mc| == 0 then Failure(IndexError)
    else if mc[0].1 == 2 then
      var pair := WithRank(cards, mc[0].0);
      Checked(pair + Take(Remaining(pair, cards), 3))
    else
      match NewHighCard(origin)
      case Failure(e) => Failure(e)
      case Success(h) =>
      Success(Detection(false, h.fiveBest))
  }

  function DetectTwoPair(origin: Source, cards: seq<Card>): Result<Detection>
  {
    var mc := MostCommon(Ranks(cards), 2);
    if |mc| == 0 then Failure(IndexError)
    else if mc[0].1 != 2 then Declined(TwoPair, origin)
    else if |mc| < 2 then Failure(IndexError)
    else if mc[1].1 != 2 then Declined(TwoPair, origin)
    else
      var five := CardsOfRanks(cards, Keys(mc));
      var remaining := Remaining(five, cards);
      if |remaining| == 0 then Failure(IndexError)
      else Checked(five + [remaining[0]])
  }

  function DetectThreeOfAKind(origin: Source, cards: seq<Card>): Result<Detection>
  {
    var mc := MostCommon(Ranks(cards), 1);
    if |mc| == 0 then Failure(IndexError)
    else if mc[0].1 != 3 then Declined(ThreeOfAKind, origin)
    else
      var five := CardsOfRanks(cards, Keys(mc));
      Checked(five + Take(Remaining(five, cards), 2))
  }

  function DetectFourOfAKind(origin: Source, cards: seq<Card>): Result<Detection>
  {
    var mc := MostCommon(Ranks(cards), 1);
    if |mc| == 0 then Failure(IndexError)
    else if mc[0].1 != 4 then Declined(FourOfAKind, origin)
    else
      var five := CardsOfRanks(cards, Keys(mc));
      var remaining := Remaining(five, cards);
      if |remaining| == 0 then Failure(IndexError)
      else Checked(five + [remaining[0]])
  }

  function DetectFullHouse(origin: Source, cards: seq<Card>): Result<Detection>
  {
    var mc := MostCommon(Ranks(cards), 2);
    if |mc| == 0 then Failure(IndexError)
    else if mc[0].1 != 3 then Declined(FullHouse, origin)
    else if |mc| < 2 then Failure(IndexError)
    else if mc[1].1 != 2 then Declined(FullHouse, origin)
    else
      var five := CardsOfRanks(cards, Keys(mc));
      if |five| != 5 then Failure(AssertionError)
      else Success(Detection(true, Cards(SortDesc(five))))
  }

  function DetectFlush(origin: Source, cards: seq<Card>): Result<Detection>
  {
    var sorted := SortDesc(cards);
    var mc := MostCommon(Suits(sorted), 1);
    if |mc| == 0 then Failure(IndexError)
    else if mc[0].1 >= 5 then
      var five := Take(WithSuit(sorted, mc[0].0), 5);
      if |five| != 5 then Failure(AssertionError)
      else Success(Detection(true, Cards(SortDesc(five))))
    else Declined(Flush, origin)
  }

  /** The rank windows of a straight: `range(i, i + 5)` for i < 9, then the
      ace-low window. */
  const Windows: seq<seq<nat>> :=
    [[0, 1, 2, 3, 4], [1, 2, 3, 4, 5], [2, 3, 4, 5, 6], [3, 4, 5, 6, 7],
     [4, 5, 6, 7, 8], [5, 6, 7, 8, 9], [6, 7, 8, 9, 10], [7, 8, 9, 10, 11],
     [8, 9, 10, 11, 12], [12, 0, 1, 2, 3]]

  /** `set(v).issubset(set(internal_ranks))`. */
  predicate Covered(irs: seq<nat>, w: seq<nat>) {
    forall i :: i in w ==> i in irs
  }

  /** `for i in v: if card.internal_rank is i: best_five.append(card)`. */
  function Matches(c: Card, w: seq<nat>): seq<Card> {
    if w == [] then []
    else Matches(c, w[..|w| - 1]) + (if CardIr(c) == w[|w| - 1] then [c] else [])
  }

  /** The cards loop for one window. */
  function Hits(cards: seq<Card>, w: seq<nat>): seq<Card> {
    if cards == [] then []
    else Hits(cards[..|cards| - 1], w) + Matches(cards[|cards| - 1], w)
  }

  /** `best_five` after the loop over the windows `ws`. */
  function StraightHits(cards: seq<Card>, irs: seq<nat>, ws: seq<seq<nat>>): seq<Card> {
    if ws == [] then []
    else
      var w := ws[|ws| - 1];
      StraightHits(cards, irs, ws[..|ws| - 1]) + (if Covered(irs, w) then Hits(cards, w) else [])
  }

  function DetectStraight(origin: Source, cards: seq<Card>): Result<Detection>
  {
    var asc := SortAsc(cards);
    var best := StraightHits(asc, Irs(asc), Windows);
    if best == [] then
      // game.py builds this HighCard from the ascending list, eval.py from its arguments
      Declined(Straight, if origin.Listed? then Listed(asc) else origin)
    else
      var top := Take(SortDesc(Dedup(best)), 5);
      if |top| != 5 then Failure(AssertionError)
      else Success(Detection(true, Cards(SortDesc(top))))
  }

  function DetectStraightFlush(origin: Source): Result<Detection>
  {
    match NewStraight(origin)
    case Failure(e) => Failure(e)
    case Success(s) =>
    DetectWithStraight(origin, s)
  }

  /** The rest of `StraightFlush.get_five_best` once `S` is built. */
  function DetectWithStraight(origin: Source, s: Hand): Result<Detection>
  {
    match NewFlush(origin)
    case Failure(e) => Failure(e)
    case Success(f) =>
    if f.isa && s.isa then Agreed(f.fiveBest, s.fiveBest)
    else Declined(StraightFlush, origin)
  }

  /** `assert F.five_best == S.five_best`, then `assert len(five_best) == 5`. */
  function Agreed(flush: FiveBest, straight: FiveBest): Result<Detection> {
    if flush != straight then Failure(AssertionError)
    else match flush
      case Cards(five) => Checked(five)
      case _ => Failure(TypeError)
  }

  /** `[i.rank for i in cards]` as the Python rank values. */
  function Labels(cs: seq<Card>): seq<RankArg> {
    if cs == [] then [] else [Label(cs[0].rank)] + Labels(cs[1..])
  }

  const RoyalLabels: seq<RankArg> := [Face("A"), Face("K"), Face("Q"), Face("J"), Num(10)]

  function DetectRoyalFlush(origin: Source, cards: seq<Card>): Result<Detection>
  {
    match NewStraightFlush(origin)
    case Failure(e) => Failure(e)
    case Success(sf) =>
    if sf.isa then
      match sf.fiveBest
      case Cards(five) =>
        if Labels(five) == RoyalLabels then Success(Detection(true, Cards(cards)))
        else Success(Detection(false, NoCards))
      case _ => Failure(TypeError)
    else Declined(RoyalFlush, origin)
  }

  /** `sum([i.internal_rank for i in self.five_best])`: iterating a hand
      object or `None` raises TypeError. */
  function FiveSum(h: Hand): Result<nat> {
    match h.fiveBest
    case Cards(cs) => Success(IrSum(cs))
    case _ => Failure(TypeError)
  }

  /** `self.internal_rank` and `other.internal_rank`. */
  function RankPair(a: Hand, b: Hand): Result<(nat, nat)> {
    match InternalRank(a.kind)
    case Failure(e) => Failure(e)
    case Success(ra) =>
      match InternalRank(b.kind)
      case Failure(e) => Failure(e)
      case Success(rb) => Success((ra, rb))
  }

  /** `self_sum` and `other_sum`. */
  function SumPair(a: Hand, b: Hand): Result<(nat, nat)> {
    match FiveSum(a)
    case Failure(e) => Failure(e)
    case Success(sa) =>
      match FiveSum(b)
      case Failure(e) => Failure(e)
      case Success(sb) => Success((sa, sb))
  }

  function HandLt(a: Hand, other: Operand<Hand>): Result<bool> {
    match other
    case Foreign => Failure(TypeError)
    case Instance(b) =>
      match RankPair(a, b)
      case Failure(e) => Failure(e)
      case Success((ra, rb)) =>
        if ra == rb then
          (match SumPair(a, b)
           case Failure(e) => Failure(e)
           case Success((sa, sb)) => Success(sa < sb))
        else Success(ra < rb)
  }

  function HandLe(a: Hand, other: Operand<Hand>): Result<bool> {
    match other
    case Foreign => Failure(TypeError)
    case Instance(b) =>
      match RankPair(a, b)
      case Failure(e) => Failure(e)
      case Success((ra, rb)) =>
        if ra == rb then
          (match SumPair(a, b)
           case Failure(e) => Failure(e)
           case Success((sa, sb)) => Success(sa <= sb))
        else Success(ra <= rb)
  }

  function HandGt(a: Hand, other: Operand<Hand>): Result<bool> {
    match other
    case Foreign => Failure(TypeError)
    case Instance(b) =>
      match RankPair(a, b)
      case Failure(e) => Failure(e)
      case Success((ra, rb)) =>
        if ra == rb then
          (match SumPair(a, b)
           case Failure(e) => Failure(e)
           case Success((sa, sb)) => Success(sa > sb))
        else Success(ra > rb)
  }

  /** `__ge__` as written: its body is a copy of `__le__`. */
  function HandGe(a: Hand, other: Operand<Hand>): Result<bool> {
    match other
    case Foreign => Failure(TypeError)
    case Instance(b) =>
      match RankPair(a, b)
      case Failure(e) => Failure(e)
      case Success((ra, rb)) =>
        if ra == rb then
          (match SumPair(a, b)
           case Failure(e) => Failure(e)
           case Success((sa, sb)) => Success(sa <= sb))
        else Success(ra <= rb)
  }

  /** `__ge__` as evidently intended, the converse of `__le__`. */
  function HandGeIntended(a: Hand, other: Operand<Hand>): Result<bool> {
    match other
    case Foreign => Failure(TypeError)
    case Instance(b) =>
      match RankPair(a, b)
      case Failure(e) => Failure(e)
      case Success((ra, rb)) =>
        if ra == rb then
          (match SumPair(a, b)
           case Failure(e) => Failure(e)
           case Success((sa, sb)) => Success(sa >= sb))
        else Success(ra >= rb)
  }

  /** `hand(self.hole_cards, self.community_cards)` for each class of `ks`,
      in order. */
  function BuildAll(origin: Source, ks: seq<HandClass>): (rs: seq<Result<Hand>>)
    ensures |rs| == |ks|
  {
    if ks == [] then [] else BuildAll(origin, ks[..|ks| - 1]) + [Build(ks[|ks| - 1], origin)]
  }

  /** The loop of `eval` over the constructor calls `rs`: it raises what the
      first call to raise raises, and otherwise appends to `isa_list` the
      hands that qualify. */
  function Collect(rs: seq<Result<Hand>>): Result<seq<Hand>> {
    if rs == [] then Success([])
    else
      match Collect(rs[..|rs| - 1])
      case Failure(e) => Failure(e)
      case Success(acc) =>
      match rs[|rs| - 1]
      case Failure(e) => Failure(e)
      case Success(h) =>
      Success(if h.isa then acc + [h] else acc)
  }

  /** The rest of Python's built-in `max`: a later item replaces the current
      maximum only when `item > maximum`. */
  function MaxFrom(m: Hand, xs: seq<Hand>): Result<Hand>
    decreases |xs|
  {
    if xs == [] then Success(m)
    else
      match HandGt(xs[0], Instance(m))
      case Failure(e) => Failure(e)
      case Success(gt) =>
      MaxFrom(if gt then xs[0] else m, xs[1..])
  }

  /** Python's built-in `max` over a list; an empty list raises ValueError. */
  function PyMax(xs: seq<Hand>): Result<Hand> {
    if xs == [] then Failure(ValueError) else MaxFrom(xs[0], xs[1..])
  }

  /** The end of `eval`: `max` of the qualifying hands, unless a
      constructor raised. */
  function EvaluateAll(rs: seq<Result<Hand>>): Result<Hand> {
    match Collect(rs)
    case Failure(e) => Failure(e)
    case Success(qs) => PyMax(qs)
  }

  /** `h.eval()`. */
  function Evaluate(h: Hand): Result<Hand> {
    EvaluateAll(BuildAll(h.origin, Detectors))
  }
}
