/** The loops of poker_simulations/eval.py, run step by step: the appends to
    `five_best`, `best_five` and `isa_list`, and the detector and `eval`
    bodies around them. Each method is proved to compute the function of
    module Hands that the rules of HandRules, FlushRules, StraightRules and
    EvalRules are stated about. */
module Evaluator {
  import opened Wrappers
  import opened Cards
  import opened Seqs
  import opened CardSeqs
  import opened Counting
  import opened Hands
  import EvalRules

  lemma {:induction false} KeysSnoc(mc: seq<(Rank, nat)>, x: (Rank, nat))
    ensures Keys(mc + [x]) == Keys(mc) + [x.0]
  {
    if mc != [] {
      assert (mc + [x])[1..] == mc[1..] + [x];
      KeysSnoc(mc[1..], x);
    }
  }

  /** `Pair`: `for i in range(len(cards)): if cards[i].rank is rank: five_best.append(cards[i])`. */
  method PairCards(cards: seq<Card>, rank: Rank) returns (five: seq<Card>)
    ensures five == WithRank(cards, rank)
  {
    five := [];
    for i := 0 to |cards|
      invariant five == WithRank(cards[..i], rank)
    {
      assert cards[..i + 1][..i] == cards[..i];
      if cards[i].rank == rank {
        five := five + [cards[i]];
      }
    }
    assert cards[..|cards|] == cards;
  }

  /** `for i in most_common: for card in cards: if card.rank is i[0]: five_best.append(card)`;
      the inner loop is the one of `PairCards`. */
  method GroupCards(cards: seq<Card>, mc: seq<(Rank, nat)>) returns (five: seq<Card>)
    ensures five == CardsOfRanks(cards, Keys(mc))
  {
    five := [];
    for i := 0 to |mc|
      invariant five == CardsOfRanks(cards, Keys(mc[..i]))
    {
      var row := PairCards(cards, mc[i].0);
      GroupStep(cards, mc, i);
      five := five + row;
    }
    assert mc[..|mc|] == mc;
  }

  lemma GroupStep(cards: seq<Card>, mc: seq<(Rank, nat)>, i: nat)
    requires i < |mc|
    ensures CardsOfRanks(cards, Keys(mc[..i + 1])) == CardsOfRanks(cards, Keys(mc[..i])) + WithRank(cards, mc[i].0)
  {
    assert mc[..i + 1] == mc[..i] + [mc[i]];
    KeysSnoc(mc[..i], mc[i]);
    var ks := Keys(mc[..i + 1]);
    assert ks[..|ks| - 1] == Keys(mc[..i]);
  }

  /** `Flush`: `for card in cards: if card.suit == most_common_suit: five_best.append(card)`. */
  method SuitCards(cards: seq<Card>, suit: Suit) returns (five: seq<Card>)
    ensures five == WithSuit(cards, suit)
  {
    five := [];
    for i := 0 to |cards|
      invariant five == WithSuit(cards[..i], suit)
    {
      assert cards[..i + 1][..i] == cards[..i];
      if cards[i].suit == suit {
        five := five + [cards[i]];
      }
    }
    assert cards[..|cards|] == cards;
  }

  /** `Straight`, for one window `v`: `for card in cards: for i in v: if
      card.internal_rank is i: best_five.append(card)`. */
  method WindowCards(cards: seq<Card>, v: seq<nat>) returns (hits: seq<Card>)
    ensures hits == Hits(cards, v)
  {
    hits := [];
    for j := 0 to |cards|
      invariant hits == Hits(cards[..j], v)
    {
      var card := cards[j];
      ghost var before := hits;
      for m := 0 to |v|
        invariant hits == before + Matches(card, v[..m])
      {
        assert v[..m + 1][..m] == v[..m];
        if CardIr(card) == v[m] {
          hits := hits + [card];
        }
      }
      assert v[..|v|] == v;
      assert cards[..j + 1][..j] == cards[..j];
    }
    assert cards[..|cards|] == cards;
  }

  /** `Straight`: the loop over the windows, appending the hits of every
      window that the ranks present cover. */
  method RunCards(cards: seq<Card>, irs: seq<nat>) returns (best: seq<Card>)
    ensures best == StraightHits(cards, irs, Windows)
  {
    best := [];
    for k := 0 to |Windows|
      invariant best == StraightHits(cards, irs, Windows[..k])
    {
      var v := Windows[k];
      assert Windows[..k + 1][..k] == Windows[..k];
      if forall i :: i in v ==> i in irs {
        var hits := WindowCards(cards, v);
        best := best + hits;
      }
    }
    assert Windows[..|Windows|] == Windows;
  }

  method PairBest(origin: Source, cards: seq<Card>) returns (r: Result<Detection>)
    ensures r == DetectPair(origin, cards)
  {
    var mc := MostCommon(Ranks(cards), 1);
    if |mc| == 0 {
      return Failure(IndexError);
    }
    if mc[0].1 == 2 {
      var five := PairCards(cards, mc[0].0);
      var remaining := Remaining(five, cards);
      five := five + Take(remaining, 3);
      return Checked(five);
    }
    var high := NewHighCard(origin);
    if high.Failure? {
      return Failure(high.error);
    }
    return Success(Detection(false, high.value.fiveBest));
  }

  method TwoPairBest(origin: Source, cards: seq<Card>) returns (r: Result<Detection>)
    ensures r == DetectTwoPair(origin, cards)
  {
    var mc := MostCommon(Ranks(cards), 2);
    if |mc| == 0 {
      return Failure(IndexError);
    }
    if mc[0].1 != 2 {
      return Declined(TwoPair, origin);
    }
    if |mc| < 2 {
      return Failure(IndexError);
    }
    if mc[1].1 != 2 {
      return Declined(TwoPair, origin);
    }
    var five := GroupCards(cards, mc);
    var remaining := Remaining(five, cards);
    if |remaining| == 0 {
      return Failure(IndexError);
    }
    five := five + [remaining[0]];
    return Checked(five);
  }

  method ThreeOfAKindBest(origin: Source, cards: seq<Card>) returns (r: Result<Detection>)
    ensures r == DetectThreeOfAKind(origin, cards)
  {
    var mc := MostCommon(Ranks(cards), 1);
    if |mc| == 0 {
      return Failure(IndexError);
    }
    if mc[0].1 != 3 {
      return Declined(ThreeOfAKind, origin);
    }
    var five := GroupCards(cards, mc);
    var remaining := Remaining(five, cards);
    five := five + Take(remaining, 2);
    return Checked(five);
  }

  method FourOfAKindBest(origin: Source, cards: seq<Card>) returns (r: Result<Detection>)
    ensures r == DetectFourOfAKind(origin, cards)
  {
    var mc := MostCommon(Ranks(cards), 1);
    if |mc| == 0 {
      return Failure(IndexError);
    }
    if mc[0].1 != 4 {
      return Declined(FourOfAKind, origin);
    }
    var five := GroupCards(cards, mc);
    var remaining := Remaining(five, cards);
    if |remaining| == 0 {
      return Failure(IndexError);
    }
    five := five + [remaining[0]];
    return Checked(five);
  }

  method FullHouseBest(origin: Source, cards: seq<Card>) returns (r: Result<Detection>)
    ensures r == DetectFullHouse(origin, cards)
  {
    var mc := MostCommon(Ranks(cards), 2);
    if |mc| == 0 {
      return Failure(IndexError);
    }
    if mc[0].1 != 3 {
      return Declined(FullHouse, origin);
    }
    if |mc| < 2 {
      return Failure(IndexError);
    }
    if mc[1].1 != 2 {
      return Declined(FullHouse, origin);
    }
    var five := GroupCards(cards, mc);
    if |five| != 5 {
      return Failure(AssertionError);
    }
    return Success(Detection(true, Cards(SortDesc(five))));
  }

  method FlushBest(origin: Source, cards: seq<Card>) returns (r: Result<Detection>)
    ensures r == DetectFlush(origin, cards)
  {
    var sorted := SortDesc(cards);
    var mc := MostCommon(Suits(sorted), 1);
    if |mc| == 0 {
      return Failure(IndexError);
    }
    if mc[0].1 < 5 {
      return Declined(Flush, origin);
    }
    var five := SuitCards(sorted, mc[0].0);
    five := Take(five, 5);
    if |five| != 5 {
      return Failure(AssertionError);
    }
    return Success(Detection(true, Cards(SortDesc(five))));
  }

  method StraightBest(origin: Source, cards: seq<Card>) returns (r: Result<Detection>)
    ensures r == DetectStraight(origin, cards)
  {
    var asc := SortAsc(cards);
    var best := RunCards(asc, Irs(asc));
    if best == [] {
      return Declined(Straight, if origin.Listed? then Listed(asc) else origin);
    }
    var top := Take(SortDesc(Dedup(best)), 5);
    if |top| != 5 {
      return Failure(AssertionError);
    }
    return Success(Detection(true, Cards(SortDesc(top))));
  }

  /** How deep the nested constructor calls of a class go: StraightFlush
      builds a Straight and a Flush, RoyalFlush builds a StraightFlush. */
  function Depth(k: HandClass): nat {
    match k
    case RoyalFlush => 2
    case StraightFlush => 1
    case _ => 0
  }

  method StraightFlushBest(origin: Source) returns (r: Result<Detection>)
    ensures r == DetectStraightFlush(origin)
    decreases Depth(StraightFlush), 1
  {
    var s := Make(Straight, origin);
    if s.Failure? {
      return Failure(s.error);
    }
    r := FlushThenAgree(origin, s.value);
  }

  /** The rest of `StraightFlush.get_five_best` once `S` is built: build `F`
      and compare the two. */
  method FlushThenAgree(origin: Source, s: Hand) returns (r: Result<Detection>)
    ensures r == DetectWithStraight(origin, s)
    decreases Depth(StraightFlush), 0
  {
    var f := Make(Flush, origin);
    if f.Failure? {
      return Failure(f.error);
    }
    if f.value.isa && s.isa {
      return Agreed(f.value.fiveBest, s.fiveBest);
    }
    return Declined(StraightFlush, origin);
  }

  method RoyalFlushBest(origin: Source, cards: seq<Card>) returns (r: Result<Detection>)
    ensures r == DetectRoyalFlush(origin, cards)
    decreases Depth(RoyalFlush), 1
  {
    var sf := Make(StraightFlush, origin);
    if sf.Failure? {
      return Failure(sf.error);
    }
    if !sf.value.isa {
      return Declined(RoyalFlush, origin);
    }
    match sf.value.fiveBest
    case Cards(five) =>
      if Labels(five) == RoyalLabels {
        return Success(Detection(true, Cards(cards)));
      }
      return Success(Detection(false, NoCards));
    case _ =>
      return Failure(TypeError);
  }

  /** The constructor of class `kind`: sort the cards, check there are
      seven, then run the class's `get_five_best`. */
  method Make(kind: HandClass, src: Source) returns (r: Result<Hand>)
    ensures r == Build(kind, src)
    decreases Depth(kind), 2
  {
    var stored := Stored(src);
    var cards := Arranged(src);
    if |cards| != 7 {
      return Failure(ValueError);
    }
    var rd: Result<Detection>;
    match kind {
      case BaseHand => rd := Success(Detection(false, NoCards));
      case HighCard => rd := DetectHighCard(cards);
      case Pair => rd := PairBest(stored, cards);
      case TwoPair => rd := TwoPairBest(stored, cards);
      case ThreeOfAKind => rd := ThreeOfAKindBest(stored, cards);
      case Straight => rd := StraightBest(stored, cards);
      case Flush => rd := FlushBest(stored, cards);
      case FullHouse => rd := FullHouseBest(stored, cards);
      case FourOfAKind => rd := FourOfAKindBest(stored, cards);
      case StraightFlush => rd := StraightFlushBest(stored);
      case RoyalFlush => rd := RoyalFlushBest(stored, cards);
    }
    if rd.Failure? {
      return Failure(rd.error);
    }
    return Success(Hand(kind, stored, cards, rd.value.isa, rd.value.fiveBest));
  }

  /** One more step of the loop of `eval`. */
  lemma CollectSnoc(rs: seq<Result<Hand>>, i: nat)
    requires i < |rs|
    ensures Collect(rs[..i + 1]) ==
      match Collect(rs[..i])
      case Failure(e) => Failure(e)
      case Success(acc) =>
        match rs[i]
        case Failure(e) => Failure(e)
        case Success(h) => Success(if h.isa then acc + [h] else acc)
  {
    assert rs[..i + 1][..i] == rs[..i];
  }

  /** Once a constructor call has raised, later calls do not change what
      the loop raises. */
  lemma {:induction false} CollectStops(rs: seq<Result<Hand>>, i: nat)
    requires i <= |rs| && Collect(rs[..i]).Failure?
    ensures Collect(rs) == Collect(rs[..i])
    decreases |rs|
  {
    if i < |rs| {
      assert rs[..|rs| - 1][..i] == rs[..i];
      CollectStops(rs[..|rs| - 1], i);
    } else {
      assert rs[..i] == rs;
    }
  }

  /** The loop of `eval`: build each detector class in turn and keep those
      that qualify in `isa_list`. */
  method QualifyingHands(origin: Source) returns (r: Result<seq<Hand>>)
    ensures r == Collect(BuildAll(origin, Detectors))
  {
    ghost var rs := BuildAll(origin, Detectors);
    var isaList: seq<Hand> := [];
    for i := 0 to |Detectors|
      invariant Collect(rs[..i]) == Success(isaList)
    {
      var handType := Make(Detectors[i], origin);
      EvalRules.BuildAllAt(origin, Detectors, i);
      CollectSnoc(rs, i);
      if handType.Failure? {
        CollectStops(rs, i + 1);
        return Failure(handType.error);
      }
      if handType.value.isa {
        isaList := isaList + [handType.value];
      }
    }
    assert rs[..|Detectors|] == rs;
    return Success(isaList);
  }

  /** `eval`: the qualifying hands, then Python's `max` of them. */
  method Eval(h: Hand) returns (r: Result<Hand>)
    ensures r == Evaluate(h)
  {
    var isaList := QualifyingHands(h.origin);
    if isaList.Failure? {
      return Failure(isaList.error);
    }
    r := PyMax(isaList.value);
  }

  /** `Hand.max(lst)`: start from `lst[0]` (IndexError on an empty list)
      and replace the maximum by every later item greater than it. */
  method Max(lst: seq<Hand>) returns (r: Result<Hand>)
    ensures r == (if lst == [] then Failure(IndexError) else MaxFrom(lst[0], lst))
  {
    if lst == [] {
      return Failure(IndexError);
    }
    var max := lst[0];
    for i := 0 to |lst|
      invariant MaxFrom(max, lst[i..]) == MaxFrom(lst[0], lst)
    {
      assert lst[i..][1..] == lst[i + 1..];
      var gt := HandGt(lst[i], Instance(max));
      if gt.Failure? {
        return Failure(gt.error);
      }
      if gt.value {
        max := lst[i];
      }
    }
    return Success(max);
  }
}
