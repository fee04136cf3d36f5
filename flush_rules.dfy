/** What the Flush, Straight, StraightFlush and RoyalFlush detectors of
    poker_simulations/eval.py decide, in terms of the seven cards: a suit
    held five times, a window of five consecutive internal ranks, and the
    agreement of the two. */
module FlushRules {
  import opened Wrappers
  import opened Cards
  import opened Seqs
  import opened CardSeqs
  import opened Counting
  import opened Hands
  import opened HandRules

  /** Some suit occurs at least five times. */
  ghost predicate HasFlush(cards: seq<Card>) {
    exists st :: SuitCount(cards, st) >= 5
  }

  /** The shape of `Flush.five_best`: the five best cards of a suit held at
      least five times, best first. */
  predicate FlushFive(cards: seq<Card>, five: seq<Card>) {
    && |five| == 5
    && SuitCount(cards, five[0].suit) >= 5
    && TopOf(five, multiset(WithSuit(cards, five[0].suit)), 5)
  }

  /** What `Flush.get_five_best` yields. */
  ghost predicate FlushOutcome(cards: seq<Card>, d: Detection) {
    && (d.isa <==> HasFlush(cards))
    && (d.isa ==> d.fiveBest.Cards? && FlushFive(cards, d.fiveBest.cards))
    && (!d.isa ==> FallsBack(cards, d.fiveBest))
  }

  /** Every card of a suit filter has that suit. */
  lemma WithSuitMembers(cards: seq<Card>, st: Suit, c: Card)
    requires c in multiset(WithSuit(cards, st))
    ensures c.suit == st
  {
    WithSuitMultiset(cards, st, c);
  }

  /** The suit `most_common(1)` names on the re-sorted cards. */
  lemma FlushSuit(cards: seq<Card>)
    requires cards != []
    ensures var mc := MostCommon(Suits(SortDesc(cards)), 1);
      && |mc| > 0 && mc[0].1 == SuitCount(cards, mc[0].0)
      && forall st :: SuitCount(cards, st) <= mc[0].1
  {
    var sorted := SortDesc(cards);
    SortDescSpec(cards);
    var s := Suits(sorted);
    assert s != [] by {
      assert |s| == |sorted|;
    }
    MostCommonFirst(s, 1);
    var mc := MostCommon(s, 1);
    forall st
      ensures SuitCount(cards, st) == Count(s, st)
    {
      SuitCountIsCount(sorted, st);
      WithSuitPermutation(cards, sorted, st);
      assert |multiset(WithSuit(cards, st))| == |multiset(WithSuit(sorted, st))|;
    }
  }

  /** The five best of the flush suit, re-sorted. */
  lemma FlushPick(cards: seq<Card>, st: Suit)
    requires SuitCount(cards, st) >= 5
    ensures var w := WithSuit(SortDesc(cards), st);
      && |Take(w, 5)| == 5
      && FlushFive(cards, SortDesc(Take(w, 5)))
  {
    var sorted := SortDesc(cards);
    SortDescSpec(cards);
    var w := WithSuit(sorted, st);
    WithSuitPermutation(cards, sorted, st);
    assert |multiset(WithSuit(cards, st))| == |multiset(w)|;
    WithSuitDescending(sorted, st);
    TopOfPrefix(w, 5);
    var five := Take(w, 5);
    assert five == w[..5];
    TopOfResorted(five, multiset(w), 5);
    var best := SortDesc(five);
    assert best[0] in multiset(best);
    WithSuitMembers(sorted, st, best[0]);
  }

  lemma FlushDetect(origin: Source, cards: seq<Card>)
    requires |cards| == 7
    requires |AllCards(origin)| == 7 && multiset(AllCards(origin)) == multiset(cards)
    ensures DetectFlush(origin, cards).Success?
    ensures FlushOutcome(cards, DetectFlush(origin, cards).value)
  {
    FlushSuit(cards);
    var mc := MostCommon(Suits(SortDesc(cards)), 1);
    if mc[0].1 >= 5 {
      FlushPick(cards, mc[0].0);
    } else {
      DeclinedBest(Flush, origin, cards);
    }
  }

  /** `Flush` qualifies exactly when some suit occurs five times or more;
      its five best are the five best cards of that suit. */
  lemma FlushRule(src: Source)
    requires |AllCards(src)| == 7 && Distinct(AllCards(src))
    ensures NewFlush(src).Success?
    ensures var h := NewFlush(src).value;
      FlushOutcome(h.cards, Detection(h.isa, h.fiveBest))
  {
    StoredSeven(src);
    FlushDetect(Stored(src), Arranged(src));
  }
}
