/** What each detector of poker_simulations/eval.py decides, stated in terms
    of the seven cards rather than of the loops that compute it: rank and
    suit multiplicities, the straight windows, and the `k` best cards of a
    pool. Most rules assume seven pairwise-different cards, as a deck
    deals them. */
module HandRules {
  import opened Wrappers
  import opened Cards
  import opened Seqs
  import opened CardSeqs
  import opened Counting
  import opened Hands

  /** No card occurs twice (cards are equal when rank and suit are). */
  predicate Distinct(s: seq<Card>) {
    forall c :: c in s ==> multiset(s)[c] <= 1
  }

  /** How many of `cards` have rank `r`. */
  function RankCount(cards: seq<Card>, r: Rank): nat {
    |WithRank(cards, r)|
  }

  /** How many of `cards` have suit `st`. */
  function SuitCount(cards: seq<Card>, st: Suit): nat {
    |WithSuit(cards, st)|
  }

  /** The largest rank multiplicity among the ranks `rs`. */
  function MaxCount(cards: seq<Card>, rs: seq<Rank>): nat {
    if rs == [] then 0
    else
      var m := MaxCount(cards, rs[..|rs| - 1]);
      var x := RankCount(cards, rs[|rs| - 1]);
      if x > m then x else m
  }

  /** The top rank multiplicity of a hand. */
  function TopCount(cards: seq<Card>): nat {
    MaxCount(cards, RankOrder)
  }

  lemma {:induction false} MaxCountSpec(cards: seq<Card>, rs: seq<Rank>)
    ensures forall r :: r in rs ==> RankCount(cards, r) <= MaxCount(cards, rs)
    ensures rs != [] ==> exists r :: r in rs && RankCount(cards, r) == MaxCount(cards, rs)
  {
    if rs != [] {
      var pre := rs[..|rs| - 1];
      var last := rs[|rs| - 1];
      MaxCountSpec(cards, pre);
      assert rs == pre + [last];
      if RankCount(cards, last) <= MaxCount(cards, pre) && pre != [] {
        var r :| r in pre && RankCount(cards, r) == MaxCount(cards, pre);
        assert r in rs;
      } else {
        assert RankCount(cards, last) == MaxCount(cards, rs);
      }
    }
  }

  /** No rank occurs more often than the top multiplicity, and some rank
      occurs exactly that often. */
  lemma TopCountSpec(cards: seq<Card>)
    ensures forall r :: RankCount(cards, r) <= TopCount(cards)
    ensures exists r :: RankCount(cards, r) == TopCount(cards)
  {
    MaxCountSpec(cards, RankOrder);
    forall r
      ensures RankCount(cards, r) <= TopCount(cards)
    {
      assert RankOrder[Ir(r)] == r;
    }
  }

  /** The filters count what `Counter` counts. */
  lemma {:induction false} RankCountIsCount(cards: seq<Card>, r: Rank)
    ensures Count(Ranks(cards), r) == RankCount(cards, r)
  {
    if cards != [] {
      var pre := cards[..|cards| - 1];
      RankCountIsCount(pre, r);
      assert Ranks(cards) == Ranks(pre) + [cards[|cards| - 1].rank];
    }
  }

  lemma {:induction false} SuitCountIsCount(cards: seq<Card>, st: Suit)
    ensures Count(Suits(cards), st) == SuitCount(cards, st)
  {
    if cards != [] {
      var pre := cards[..|cards| - 1];
      SuitCountIsCount(pre, st);
      assert Suits(cards) == Suits(pre) + [cards[|cards| - 1].suit];
    }
  }

  /** Filtering by rank or suit depends on the multiset of the cards only. */
  lemma WithRankPermutation(a: seq<Card>, b: seq<Card>, r: Rank)
    requires multiset(a) == multiset(b)
    ensures multiset(WithRank(a, r)) == multiset(WithRank(b, r))
  {
    forall c
      ensures multiset(WithRank(a, r))[c] == multiset(WithRank(b, r))[c]
    {
      WithRankMultiset(a, r, c);
      WithRankMultiset(b, r, c);
    }
  }

  lemma WithSuitPermutation(a: seq<Card>, b: seq<Card>, st: Suit)
    requires multiset(a) == multiset(b)
    ensures multiset(WithSuit(a, st)) == multiset(WithSuit(b, st))
  {
    forall c
      ensures multiset(WithSuit(a, st))[c] == multiset(WithSuit(b, st))[c]
    {
      WithSuitMultiset(a, st, c);
      WithSuitMultiset(b, st, c);
    }
  }

  /** The constructor's arrangement: `self.cards` is a descending permutation
      of all the cards, and the stored arguments hold the same cards. */
  lemma ArrangedSpec(src: Source)
    ensures multiset(Arranged(src)) == multiset(AllCards(src))
    ensures Descending(Arranged(src))
    ensures multiset(AllCards(Stored(src))) == multiset(AllCards(src))
  {
    match src
    case Split(h, c) =>
      SortDescSpec(h);
      SortDescSpec(c);
      SortDescSpec(SortDesc(c) + SortDesc(h));
    case Listed(cs) =>
      SortDescSpec(cs);
  }

  /** Every constructor raises ValueError unless given seven cards; when it
      returns, `cards` is those cards sorted descending. */
  lemma BuildShape(k: HandClass, src: Source)
    ensures |AllCards(src)| != 7 ==> Build(k, src) == Failure(ValueError)
    ensures Build(k, src).Success? ==>
      && Build(k, src).value.kind == k
      && Build(k, src).value.origin == Stored(src)
      && Build(k, src).value.cards == Arranged(src)
      && multiset(Build(k, src).value.cards) == multiset(AllCards(src))
      && Descending(Build(k, src).value.cards)
  {
    ArrangedSpec(src);
  }

  /** The first five of the descending seven are its five best cards. */
  lemma FirstFiveBest(src: Source)
    requires |AllCards(src)| == 7
    ensures TopOf(Arranged(src)[..5], multiset(AllCards(src)), 5)
  {
    ArrangedSpec(src);
    TopOfPrefix(Arranged(src), 5);
  }

  /** `HighCard` always qualifies with the first five of the descending cards. */
  lemma HighCardRule(src: Source)
    requires |AllCards(src)| == 7
    ensures NewHighCard(src).Success?
    ensures NewHighCard(src).value.isa
    ensures NewHighCard(src).value.fiveBest == Cards(Arranged(src)[..5])
    ensures TopOf(Arranged(src)[..5], multiset(AllCards(src)), 5)
  {
    FirstFiveBest(src);
  }

  lemma DistinctPermutation(a: seq<Card>, b: seq<Card>)
    requires multiset(a) == multiset(b) && Distinct(a)
    ensures Distinct(b)
  {
    forall c | c in b
      ensures multiset(b)[c] <= 1
    {
      assert c in multiset(b);
    }
  }

  /** A card of the hand makes its rank occur at least once. */
  lemma RankPresent(cards: seq<Card>, c: Card)
    requires c in cards
    ensures RankCount(cards, c.rank) >= 1
  {
    WithRankMultiset(cards, c.rank, c);
    assert c in multiset(WithRank(cards, c.rank));
  }

  /** `Counter(ranks).most_common(n)[0]` for descending cards: its count is
      the top multiplicity, and its rank is the highest of those occurring
      that often. */
  lemma Leader(cards: seq<Card>, n: nat)
    requires Descending(cards) && cards != [] && n > 0
    ensures var mc := MostCommon(Ranks(cards), n);
      && |mc| > 0
      && mc[0].1 == TopCount(cards) && RankCount(cards, mc[0].0) == TopCount(cards)
      && forall q :: RankCount(cards, q) == TopCount(cards) ==> Ir(q) <= Ir(mc[0].0)
  {
    var s := Ranks(cards);
    MostCommonFirst(s, n);
    var mc := MostCommon(s, n);
    var lead := mc[0].0;
    RankCountIsCount(cards, lead);
    TopCountSpec(cards);
    var w :| RankCount(cards, w) == TopCount(cards);
    RankCountIsCount(cards, w);
    RankPresent(cards, cards[0]);
    RanksIndex(cards);
    forall q | RankCount(cards, q) == TopCount(cards)
      ensures Ir(q) <= Ir(lead)
    {
      if q != lead {
        RankCountIsCount(cards, q);
        assert q in multiset(s);
        var i :| 0 <= i < |s| && s[i] == q;
        assert lead in s[..i];
        EarlierHigher(cards, lead, i);
      }
    }
  }

  /** The members of `s` in exactly one of `a` and `b`. */
  lemma {:induction false} ExclusiveMembers(s: seq<Card>, a: seq<Card>, b: seq<Card>)
    ensures forall x :: x in Exclusive(s, a, b) <==> x in s && (x in a) != (x in b)
  {
    if s != [] {
      ExclusiveMembers(s[..|s| - 1], a, b);
      assert s == s[..|s| - 1] + [s[|s| - 1]];
    }
  }

  /** Setting chosen cards aside: the symmetric difference of some of
      pairwise-different cards with all of them is the rest. */
  lemma SetAside(five: seq<Card>, cards: seq<Card>)
    requires Distinct(cards) && multiset(five) <= multiset(cards)
    ensures multiset(SymDiff(five, cards)) == multiset(cards) - multiset(five)
    ensures |SymDiff(five, cards)| == |cards| - |five|
  {
    var e := Exclusive(five + cards, five, cards);
    ExclusiveMembers(five + cards, five, cards);
    DedupSpec(e);
    var d := Dedup(e);
    forall x
      ensures multiset(d)[x] == (multiset(cards) - multiset(five))[x]
    {
      NoDupsMultiset(d, x);
      if x in five {
        assert x in multiset(five);
        assert x in multiset(cards);
      } else if x in cards {
        assert x in five + cards;
      }
    }
    assert multiset(d) == multiset(cards) - multiset(five);
    assert multiset(cards) == multiset(d) + multiset(five);
  }

  /** The rank filter takes its cards from the pool. */
  lemma WithRankSub(cards: seq<Card>, r: Rank)
    ensures multiset(WithRank(cards, r)) <= multiset(cards)
  {
    forall c
      ensures multiset(WithRank(cards, r))[c] <= multiset(cards)[c]
    {
      WithRankMultiset(cards, r, c);
    }
  }

  /** What is left after setting `chosen` aside, best first, and its first `k`. */
  lemma BestOfRest(chosen: seq<Card>, cards: seq<Card>, k: nat)
    requires Distinct(cards) && multiset(chosen) <= multiset(cards)
    requires k <= |cards| - |chosen|
    ensures |Remaining(chosen, cards)| == |cards| - |chosen|
    ensures TopOf(Take(Remaining(chosen, cards), k), multiset(cards) - multiset(chosen), k)
  {
    SetAside(chosen, cards);
    TopOfSortDesc(SymDiff(chosen, cards), k);
  }

  /** `five` is the `g` cards of the highest rank occurring `g` times,
      followed by the `k` best of the other cards: the `five_best` of Pair
      (g = 2), ThreeOfAKind (g = 3) and FourOfAKind (g = 4). */
  predicate GroupThenBest(cards: seq<Card>, five: seq<Card>, g: nat, k: nat) {
    && |five| == g + k && g > 0
    && RankCount(cards, five[0].rank) == g
    && five[..g] == WithRank(cards, five[0].rank)
    && (forall q :: RankCount(cards, q) == g ==> Ir(q) <= Ir(five[0].rank))
    && TopOf(five[g..], multiset(cards) - multiset(five[..g]), k)
  }

  /** The cards of a rank all have that rank. */
  lemma WithRankFirst(cards: seq<Card>, r: Rank)
    requires WithRank(cards, r) != []
    ensures WithRank(cards, r)[0].rank == r
  {
    var c := WithRank(cards, r)[0];
    WithRankMultiset(cards, r, c);
    assert c in multiset(WithRank(cards, r));
  }

  /** The cards of rank `r` followed by the `k` best others. */
  lemma GroupFacts(cards: seq<Card>, r: Rank, g: nat, k: nat)
    requires |cards| == 7 && Distinct(cards)
    requires RankCount(cards, r) == g && g > 0 && g + k == 5
    requires forall q :: RankCount(cards, q) == g ==> Ir(q) <= Ir(r)
    ensures GroupThenBest(cards, WithRank(cards, r) + Take(Remaining(WithRank(cards, r), cards), k), g, k)
  {
    var group := WithRank(cards, r);
    WithRankSub(cards, r);
    BestOfRest(group, cards, k);
    WithRankFirst(cards, r);
    var rest := Take(Remaining(group, cards), k);
    var five := group + rest;
    assert five[..g] == group && five[g..] == rest && five[0] == group[0];
  }

  /** The group of the leading rank followed by the `k` best others. */
  lemma GroupPick(cards: seq<Card>, g: nat, k: nat)
    requires |cards| == 7 && Descending(cards) && Distinct(cards)
    requires TopCount(cards) == g && g + k == 5
    ensures var mc := MostCommon(Ranks(cards), 1);
      && |mc| > 0 && mc[0].1 == g
      && var group := WithRank(cards, mc[0].0);
         GroupThenBest(cards, group + Take(Remaining(group, cards), k), g, k)
  {
    RankPresent(cards, cards[0]);
    TopCountSpec(cards);
    assert g > 0;
    Leader(cards, 1);
    var mc := MostCommon(Ranks(cards), 1);
    GroupFacts(cards, mc[0].0, g, k);
  }

  /** The stored arguments of a hand of seven different cards hold seven
      different cards again. */
  lemma StoredSeven(src: Source)
    requires |AllCards(src)| == 7 && Distinct(AllCards(src))
    ensures |AllCards(Stored(src))| == 7 && Distinct(AllCards(Stored(src)))
    ensures |Arranged(src)| == 7 && Distinct(Arranged(src)) && Descending(Arranged(src))
    ensures multiset(AllCards(Stored(src))) == multiset(Arranged(src))
  {
    ArrangedSpec(src);
    assert |multiset(AllCards(Stored(src)))| == |multiset(AllCards(src))|;
    DistinctPermutation(AllCards(src), AllCards(Stored(src)));
    DistinctPermutation(AllCards(src), Arranged(src));
  }

  /** The HighCard hand a declining detector builds holds the five best cards. */
  lemma FallbackBest(origin: Source, cards: seq<Card>)
    requires |AllCards(origin)| == 7 && multiset(AllCards(origin)) == multiset(cards)
    ensures NewHighCard(origin).Success?
    ensures NewHighCard(origin).value.fiveBest.Cards?
    ensures TopOf(NewHighCard(origin).value.fiveBest.cards, multiset(cards), 5)
  {
    HighCardRule(origin);
  }

  /** What `Pair.get_five_best` yields for descending cards `cards`. */
  predicate PairOutcome(cards: seq<Card>, d: Detection) {
    && (d.isa <==> TopCount(cards) == 2)
    && d.fiveBest.Cards?
    && (d.isa ==> GroupThenBest(cards, d.fiveBest.cards, 2, 3))
    && (!d.isa ==> TopOf(d.fiveBest.cards, multiset(cards), 5))
  }

  lemma PairDetect(origin: Source, cards: seq<Card>)
    requires |cards| == 7 && Descending(cards) && Distinct(cards)
    requires |AllCards(origin)| == 7 && multiset(AllCards(origin)) == multiset(cards)
    ensures DetectPair(origin, cards).Success?
    ensures PairOutcome(cards, DetectPair(origin, cards).value)
  {
    Leader(cards, 1);
    var mc := MostCommon(Ranks(cards), 1);
    if mc[0].1 == 2 {
      GroupPick(cards, 2, 3);
    } else {
      FallbackBest(origin, cards);
    }
  }

  /** `Pair` qualifies exactly when the top rank multiplicity is two, which
      includes two-pair hands; otherwise its `five_best` is the five best
      cards, as HighCard chooses them. */
  lemma PairRule(src: Source)
    requires |AllCards(src)| == 7 && Distinct(AllCards(src))
    ensures NewPair(src).Success?
    ensures PairOutcome(NewPair(src).value.cards, Detection(NewPair(src).value.isa, NewPair(src).value.fiveBest))
  {
    StoredSeven(src);
    PairDetect(Stored(src), Arranged(src));
  }

  /** Internal ranks tell ranks apart. */
  lemma IrInjective(a: Rank, b: Rank)
    requires Ir(a) == Ir(b)
    ensures a == b
  {
    assert RankOrder[Ir(a)] == a && RankOrder[Ir(b)] == b;
  }

  /** `Counter(ranks).most_common(n)[1]` for descending cards with two
      distinct ranks or more: the highest of the ranks other than the
      first whose count is largest among them. */
  lemma RunnerUp(cards: seq<Card>, n: nat)
    requires Descending(cards) && n > 1 && |Dedup(Ranks(cards))| > 1
    ensures var mc := MostCommon(Ranks(cards), n);
      && |mc| > 1 && mc[1].0 != mc[0].0 && mc[1].1 == RankCount(cards, mc[1].0)
      && (forall q :: q != mc[0].0 ==> RankCount(cards, q) <= mc[1].1)
      && forall q :: q != mc[0].0 && RankCount(cards, q) == mc[1].1 ==> Ir(q) <= Ir(mc[1].0)
  {
    var s := Ranks(cards);
    MostCommonSecond(s, n);
    var mc := MostCommon(s, n);
    RankCountIsCount(cards, mc[1].0);
    forall q | q != mc[0].0
      ensures RankCount(cards, q) <= mc[1].1
    {
      RankCountIsCount(cards, q);
    }
    forall q | q != mc[0].0 && RankCount(cards, q) == mc[1].1
      ensures Ir(q) <= Ir(mc[1].0)
    {
      if q != mc[1].0 {
        RankCountIsCount(cards, q);
        TieEarlier(cards, s, mc[0].0, mc[1].0, q);
      }
    }
  }

  /** A rank tied with the runner-up comes after it in descending cards. */
  lemma TieEarlier(cards: seq<Card>, s: seq<Rank>, first: Rank, second: Rank, q: Rank)
    requires Descending(cards) && s == Ranks(cards) && second in s
    requires 0 < Count(s, q)
    requires forall i :: 0 <= i < |s| && s[i] != first && s[i] != second && Count(s, s[i]) == Count(s, second) ==> second in s[..i]
    requires q != first && q != second && Count(s, q) == Count(s, second)
    ensures Ir(q) <= Ir(second)
  {
    assert q in multiset(s);
    var i :| 0 <= i < |s| && s[i] == q;
    RanksIndex(cards);
    EarlierHigher(cards, second, i);
  }

  /** With seven cards and no rank occurring more than three times there are
      at least three distinct ranks. */
  lemma ManyRanks(cards: seq<Card>)
    requires |cards| == 7 && TopCount(cards) <= 3
    ensures |Dedup(Ranks(cards))| > 2
  {
    var s := Ranks(cards);
    TopCountSpec(cards);
    forall x | x in s
      ensures Count(s, x) <= 3
    {
      RankCountIsCount(cards, x);
    }
    PigeonHole(s, 3);
  }

  /** `most_common(n)` has at most `n` entries. */
  lemma MostCommonLength<K(!new)>(s: seq<K>, n: nat)
    ensures |MostCommon(s, n)| <= n
  {
    RankedSpec(s, Dedup(s), n);
  }

  /** The loop over `most_common` collecting the cards of each rank. */
  lemma CardsOfTwoRanks(cards: seq<Card>, a: Rank, b: Rank)
    ensures CardsOfRanks(cards, [a]) == WithRank(cards, a)
    ensures CardsOfRanks(cards, [a, b]) == WithRank(cards, a) + WithRank(cards, b)
  {
    assert [a, b][..1] == [a];
    assert [a][..0] == [];
  }

  /** The cards the loop over `most_common(n)` collects, for one or two entries. */
  lemma CardsOfKeys(cards: seq<Card>, mc: seq<(Rank, nat)>)
    ensures |mc| == 1 ==> CardsOfRanks(cards, Keys(mc)) == WithRank(cards, mc[0].0)
    ensures |mc| == 2 ==> CardsOfRanks(cards, Keys(mc)) == WithRank(cards, mc[0].0) + WithRank(cards, mc[1].0)
  {
    KeysOf(mc);
    if |mc| == 1 {
      CardsOfTwoRanks(cards, mc[0].0, mc[0].0);
    } else if |mc| == 2 {
      CardsOfTwoRanks(cards, mc[0].0, mc[1].0);
    }
  }

  lemma KeysOf(mc: seq<(Rank, nat)>)
    ensures |mc| == 1 ==> Keys(mc) == [mc[0].0]
    ensures |mc| == 2 ==> Keys(mc) == [mc[0].0, mc[1].0]
  {
    if |mc| == 2 {
      assert Keys(mc[1..]) == [mc[1].0] + Keys(mc[2..]);
    }
  }

  /** The cards of two different ranks are distinct cards of the hand. */
  lemma TwoGroupsSub(cards: seq<Card>, a: Rank, b: Rank)
    requires a != b
    ensures multiset(WithRank(cards, a) + WithRank(cards, b)) <= multiset(cards)
  {
    forall c
      ensures multiset(WithRank(cards, a) + WithRank(cards, b))[c] <= multiset(cards)[c]
    {
      WithRankMultiset(cards, a, c);
      WithRankMultiset(cards, b, c);
    }
  }

  /** Two different ranks together occur at most once per card. */
  lemma TwoGroupsBound(cards: seq<Card>, a: Rank, b: Rank)
    requires a != b
    ensures RankCount(cards, a) + RankCount(cards, b) <= |cards|
  {
    TwoGroupsSub(cards, a, b);
    var both := WithRank(cards, a) + WithRank(cards, b);
    assert |multiset(both)| <= |multiset(cards)| by {
      assert multiset(cards) == multiset(both) + (multiset(cards) - multiset(both));
    }
  }

  /** A declining detector's `five_best`: a HighCard hand built from the
      same cards, holding their five best. */
  predicate FallsBack(cards: seq<Card>, fb: FiveBest) {
    && fb.Fallback? && fb.hand.kind == HighCard && fb.hand.isa && fb.hand.fiveBest.Cards?
    && TopOf(fb.hand.fiveBest.cards, multiset(cards), 5)
  }

  lemma DeclinedBest(k: HandClass, from: Source, cards: seq<Card>)
    requires k != HighCard && k != BaseHand
    requires |AllCards(from)| == 7 && multiset(AllCards(from)) == multiset(cards)
    ensures Declined(k, from).Success? && !Declined(k, from).value.isa
    ensures FallsBack(cards, Declined(k, from).value.fiveBest)
  {
    HighCardRule(from);
  }

  /** What `ThreeOfAKind.get_five_best` yields. */
  predicate ThreeOutcome(cards: seq<Card>, d: Detection) {
    && (d.isa <==> TopCount(cards) == 3)
    && (d.isa ==> d.fiveBest.Cards? && GroupThenBest(cards, d.fiveBest.cards, 3, 2))
    && (!d.isa ==> FallsBack(cards, d.fiveBest))
  }

  lemma ThreeDetect(origin: Source, cards: seq<Card>)
    requires |cards| == 7 && Descending(cards) && Distinct(cards)
    requires |AllCards(origin)| == 7 && multiset(AllCards(origin)) == multiset(cards)
    ensures DetectThreeOfAKind(origin, cards).Success?
    ensures ThreeOutcome(cards, DetectThreeOfAKind(origin, cards).value)
  {
    Leader(cards, 1);
    var mc := MostCommon(Ranks(cards), 1);
    MostCommonLength(Ranks(cards), 1);
    if mc[0].1 == 3 {
      GroupPick(cards, 3, 2);
      KeysOf(mc);
      CardsOfTwoRanks(cards, mc[0].0, mc[0].0);
    } else {
      DeclinedBest(ThreeOfAKind, origin, cards);
    }
  }

  /** What `FourOfAKind.get_five_best` yields. */
  predicate FourOutcome(cards: seq<Card>, d: Detection) {
    && (d.isa <==> TopCount(cards) == 4)
    && (d.isa ==> d.fiveBest.Cards? && GroupThenBest(cards, d.fiveBest.cards, 4, 1))
    && (!d.isa ==> FallsBack(cards, d.fiveBest))
  }

  /** The four of a kind and the best other card. */
  lemma FourPick(cards: seq<Card>, r: Rank)
    requires |cards| == 7 && Distinct(cards)
    requires RankCount(cards, r) == 4 && TopCount(cards) == 4
    ensures var group := WithRank(cards, r);
      var rem := Remaining(group, cards);
      && |rem| > 0 && GroupThenBest(cards, group + [rem[0]], 4, 1)
  {
    forall q | RankCount(cards, q) == 4
      ensures Ir(q) <= Ir(r)
    {
      if q != r {
        TwoGroupsBound(cards, q, r);
      }
    }
    GroupFacts(cards, r, 4, 1);
    var rem := Remaining(WithRank(cards, r), cards);
    assert Take(rem, 1) == [rem[0]];
  }

  lemma FourDetect(origin: Source, cards: seq<Card>)
    requires |cards| == 7 && Descending(cards) && Distinct(cards)
    requires |AllCards(origin)| == 7 && multiset(AllCards(origin)) == multiset(cards)
    ensures DetectFourOfAKind(origin, cards).Success?
    ensures FourOutcome(cards, DetectFourOfAKind(origin, cards).value)
  {
    Leader(cards, 1);
    var mc := MostCommon(Ranks(cards), 1);
    if mc[0].1 == 4 {
      MostCommonLength(Ranks(cards), 1);
      KeysOf(mc);
      CardsOfTwoRanks(cards, mc[0].0, mc[0].0);
      FourPick(cards, mc[0].0);
    } else {
      DeclinedBest(FourOfAKind, origin, cards);
    }
  }

  /** Two different ranks occur exactly `n` times each. */
  predicate TwoRanksWith(cards: seq<Card>, n: nat) {
    exists a, b :: a != b && RankCount(cards, a) == n && RankCount(cards, b) == n
  }

  /** The shape of `TwoPair.five_best`: the two highest pairs, the higher
      first, then the best other card. */
  predicate TwoPairFive(cards: seq<Card>, five: seq<Card>) {
    && |five| == 5
    && var hi := five[0].rank;
       var lo := five[2].rank;
       && RankCount(cards, hi) == 2 && RankCount(cards, lo) == 2 && Ir(lo) < Ir(hi)
       && five[..2] == WithRank(cards, hi) && five[2..4] == WithRank(cards, lo)
       && (forall q :: RankCount(cards, q) == 2 && q != hi ==> Ir(q) <= Ir(lo))
       && TopOf(five[4..], multiset(cards) - multiset(five[..4]), 1)
  }

  /** What `TwoPair.get_five_best` yields. */
  predicate TwoPairOutcome(cards: seq<Card>, d: Detection) {
    && (d.isa <==> TopCount(cards) == 2 && TwoRanksWith(cards, 2))
    && (d.isa ==> d.fiveBest.Cards? && TwoPairFive(cards, d.fiveBest.cards))
    && (!d.isa ==> FallsBack(cards, d.fiveBest))
  }

  /** No two different ranks occur `n` times when every rank but `top`
      occurs fewer times. */
  lemma NotTwoRanks(cards: seq<Card>, n: nat, top: Rank, m: nat)
    requires m < n && forall q :: q != top ==> RankCount(cards, q) <= m
    ensures !TwoRanksWith(cards, n)
  {
    forall a, b | a != b
      ensures !(RankCount(cards, a) == n && RankCount(cards, b) == n)
    {
      if a != top {
        assert RankCount(cards, a) <= m;
      } else {
        assert RankCount(cards, b) <= m;
      }
    }
  }

  /** The best card left once two groups of cards are set aside. */
  lemma BestAfterTwo(cards: seq<Card>, a: Rank, b: Rank)
    requires |cards| == 7 && Distinct(cards)
    requires a != b && RankCount(cards, a) == 2 && RankCount(cards, b) == 2
    ensures var four := WithRank(cards, a) + WithRank(cards, b);
      var rem := Remaining(four, cards);
      && |rem| == 3 && TopOf([rem[0]], multiset(cards) - multiset(four), 1)
  {
    var four := WithRank(cards, a) + WithRank(cards, b);
    assert |four| == 4;
    TwoGroupsSub(cards, a, b);
    BestOfRest(four, cards, 1);
    TakeOne(Remaining(four, cards));
  }

  lemma TakeOne(s: seq<Card>)
    requires |s| > 0
    ensures Take(s, 1) == [s[0]]
  {
  }

  /** The two pairs `most_common(2)` names, and the best other card. */
  lemma TwoPairPick(cards: seq<Card>, hi: Rank, lo: Rank)
    requires |cards| == 7 && Distinct(cards)
    requires hi != lo && RankCount(cards, hi) == 2 && RankCount(cards, lo) == 2 && Ir(lo) <= Ir(hi)
    requires forall q :: RankCount(cards, q) == 2 && q != hi ==> Ir(q) <= Ir(lo)
    ensures var four := WithRank(cards, hi) + WithRank(cards, lo);
      && |Remaining(four, cards)| == 3
      && TwoPairFive(cards, four + [Remaining(four, cards)[0]])
  {
    BestAfterTwo(cards, hi, lo);
    WithRankFirst(cards, hi);
    WithRankFirst(cards, lo);
    var four := WithRank(cards, hi) + WithRank(cards, lo);
    var five := four + [Remaining(four, cards)[0]];
    assert five[..4] == four && five[..2] == WithRank(cards, hi) && five[2..4] == WithRank(cards, lo);
    assert five[0] == WithRank(cards, hi)[0] && five[2] == WithRank(cards, lo)[0];
    if Ir(lo) == Ir(hi) {
      IrInjective(lo, hi);
    }
  }

  /** The two ranks `most_common(2)` names when both counts are two. */
  lemma TopPairs(cards: seq<Card>)
    requires |cards| == 7 && Descending(cards)
    requires var mc := MostCommon(Ranks(cards), 2);
      |mc| > 1 && mc[0].1 == 2 && mc[1].1 == 2
    ensures var mc := MostCommon(Ranks(cards), 2);
      var hi := mc[0].0;
      var lo := mc[1].0;
      && hi != lo && RankCount(cards, hi) == 2 && RankCount(cards, lo) == 2 && Ir(lo) <= Ir(hi)
      && forall q :: RankCount(cards, q) == 2 && q != hi ==> Ir(q) <= Ir(lo)
  {
    Leader(cards, 2);
    ManyRanks(cards);
    RunnerUp(cards, 2);
  }

  /** Both `most_common(2)` counts are two: the hand is kept. */
  lemma TwoPairKept(origin: Source, cards: seq<Card>)
    requires |cards| == 7 && Descending(cards) && Distinct(cards)
    requires var mc := MostCommon(Ranks(cards), 2);
      |mc| > 1 && mc[0].1 == 2 && mc[1].1 == 2
    ensures DetectTwoPair(origin, cards).Success? && DetectTwoPair(origin, cards).value.isa
    ensures DetectTwoPair(origin, cards).value.fiveBest.Cards?
    ensures TwoPairFive(cards, DetectTwoPair(origin, cards).value.fiveBest.cards)
    ensures TwoRanksWith(cards, 2)
  {
    var mc := MostCommon(Ranks(cards), 2);
    TopPairs(cards);
    MostCommonLength(Ranks(cards), 2);
    CardsOfKeys(cards, mc);
    TwoPairPick(cards, mc[0].0, mc[1].0);
    var four := WithRank(cards, mc[0].0) + WithRank(cards, mc[1].0);
    assert DetectTwoPair(origin, cards) == Checked(four + [Remaining(four, cards)[0]]);
    assert RankCount(cards, mc[0].0) == 2 && RankCount(cards, mc[1].0) == 2;
  }

  /** The second count is not two: the hand is declined. */
  lemma TwoPairOnePair(origin: Source, cards: seq<Card>)
    requires |cards| == 7 && Descending(cards) && Distinct(cards)
    requires |AllCards(origin)| == 7 && multiset(AllCards(origin)) == multiset(cards)
    requires var mc := MostCommon(Ranks(cards), 2);
      |mc| > 0 && mc[0].1 == 2 && TopCount(cards) == 2
    ensures var mc := MostCommon(Ranks(cards), 2);
      && |mc| > 1
      && (mc[1].1 != 2 ==> !TwoRanksWith(cards, 2) && DetectTwoPair(origin, cards) == Declined(TwoPair, origin))
  {
    var mc := MostCommon(Ranks(cards), 2);
    ManyRanks(cards);
    RunnerUp(cards, 2);
    if mc[1].1 != 2 {
      TopCountSpec(cards);
      assert mc[1].1 < 2;
      NotTwoRanks(cards, 2, mc[0].0, mc[1].1);
    }
  }

  lemma TwoPairDetect(origin: Source, cards: seq<Card>)
    requires |cards| == 7 && Descending(cards) && Distinct(cards)
    requires |AllCards(origin)| == 7 && multiset(AllCards(origin)) == multiset(cards)
    ensures DetectTwoPair(origin, cards).Success?
    ensures TwoPairOutcome(cards, DetectTwoPair(origin, cards).value)
  {
    Leader(cards, 2);
    var mc := MostCommon(Ranks(cards), 2);
    if mc[0].1 != 2 {
      DeclinedBest(TwoPair, origin, cards);
    } else {
      TwoPairOnePair(origin, cards);
      if mc[1].1 != 2 {
        DeclinedBest(TwoPair, origin, cards);
      } else {
        TwoPairKept(origin, cards);
      }
    }
  }

  /** The shape of `FullHouse.five_best`: the triple and the highest pair,
      re-sorted descending. */
  predicate FullHouseFive(cards: seq<Card>, five: seq<Card>, t: Rank, p: Rank) {
    && RankCount(cards, t) == 3 && RankCount(cards, p) == 2
    && (forall q :: RankCount(cards, q) == 2 ==> Ir(q) <= Ir(p))
    && |five| == 5 && Descending(five)
    && multiset(five) == multiset(WithRank(cards, t)) + multiset(WithRank(cards, p))
  }

  /** What `FullHouse.get_five_best` yields: it qualifies only with one rank
      three times and another twice, so two triples do not count. */
  predicate FullHouseOutcome(cards: seq<Card>, d: Detection) {
    && (d.isa <==> TopCount(cards) == 3 && !TwoRanksWith(cards, 3) && exists q :: RankCount(cards, q) == 2)
    && (d.isa ==> d.fiveBest.Cards? && exists t, p :: FullHouseFive(cards, d.fiveBest.cards, t, p))
    && (!d.isa ==> FallsBack(cards, d.fiveBest))
  }

  /** The second entry of `most_common(2)` once the first count is three. */
  lemma AfterTriple(cards: seq<Card>)
    requires |cards| == 7 && Descending(cards)
    requires var mc := MostCommon(Ranks(cards), 2);
      |mc| > 0 && mc[0].1 == 3
    ensures var mc := MostCommon(Ranks(cards), 2);
      && TopCount(cards) == 3 && |mc| > 1
      && (mc[1].1 == 3 ==> TwoRanksWith(cards, 3))
      && (mc[1].1 == 2 ==> !TwoRanksWith(cards, 3))
      && (mc[1].1 != 2 && mc[1].1 != 3 ==> forall q :: RankCount(cards, q) != 2)
      && (mc[1].1 == 2 ==> RankCount(cards, mc[0].0) == 3 && RankCount(cards, mc[1].0) == 2)
      && (mc[1].1 == 2 ==> forall q :: RankCount(cards, q) == 2 ==> Ir(q) <= Ir(mc[1].0))
  {
    var mc := MostCommon(Ranks(cards), 2);
    Leader(cards, 2);
    ManyRanks(cards);
    RunnerUp(cards, 2);
    TopCountSpec(cards);
    if mc[1].1 == 3 {
      assert mc[0].0 != mc[1].0 && RankCount(cards, mc[0].0) == 3 && RankCount(cards, mc[1].0) == 3;
    } else if mc[1].1 == 2 {
      NotTwoRanks(cards, 3, mc[0].0, 2);
    } else {
      forall q
        ensures RankCount(cards, q) != 2
      {
        if q != mc[0].0 {
          assert RankCount(cards, q) <= mc[1].1;
        }
      }
    }
  }

  /** A triple and a pair: the hand is kept. */
  lemma FullHouseKept(origin: Source, cards: seq<Card>)
    requires |cards| == 7 && Descending(cards)
    requires var mc := MostCommon(Ranks(cards), 2);
      |mc| > 1 && mc[0].1 == 3 && mc[1].1 == 2
    ensures DetectFullHouse(origin, cards).Success? && DetectFullHouse(origin, cards).value.isa
    ensures DetectFullHouse(origin, cards).value.fiveBest.Cards?
    ensures var mc := MostCommon(Ranks(cards), 2);
      FullHouseFive(cards, DetectFullHouse(origin, cards).value.fiveBest.cards, mc[0].0, mc[1].0)
  {
    var mc := MostCommon(Ranks(cards), 2);
    AfterTriple(cards);
    MostCommonLength(Ranks(cards), 2);
    CardsOfKeys(cards, mc);
    var five := WithRank(cards, mc[0].0) + WithRank(cards, mc[1].0);
    SortDescSpec(five);
    assert DetectFullHouse(origin, cards) == Success(Detection(true, Cards(SortDesc(five))));
  }

  lemma FullHouseDetect(origin: Source, cards: seq<Card>)
    requires |cards| == 7 && Descending(cards) && Distinct(cards)
    requires |AllCards(origin)| == 7 && multiset(AllCards(origin)) == multiset(cards)
    ensures DetectFullHouse(origin, cards).Success?
    ensures FullHouseOutcome(cards, DetectFullHouse(origin, cards).value)
  {
    Leader(cards, 2);
    var mc := MostCommon(Ranks(cards), 2);
    if mc[0].1 != 3 {
      DeclinedBest(FullHouse, origin, cards);
    } else {
      AfterTriple(cards);
      if mc[1].1 != 2 {
        DeclinedBest(FullHouse, origin, cards);
      } else {
        FullHouseKept(origin, cards);
      }
    }
  }

  /** `ThreeOfAKind` qualifies exactly when the top multiplicity is three
      (so also for a full house); its five best are the triple of the
      highest such rank and the two best other cards. */
  lemma ThreeRule(src: Source)
    requires |AllCards(src)| == 7 && Distinct(AllCards(src))
    ensures NewThreeOfAKind(src).Success?
    ensures var h := NewThreeOfAKind(src).value;
      ThreeOutcome(h.cards, Detection(h.isa, h.fiveBest))
  {
    StoredSeven(src);
    ThreeDetect(Stored(src), Arranged(src));
  }

  /** `FourOfAKind` qualifies exactly when some rank occurs four times; its
      five best are those four and the best other card. */
  lemma FourRule(src: Source)
    requires |AllCards(src)| == 7 && Distinct(AllCards(src))
    ensures NewFourOfAKind(src).Success?
    ensures var h := NewFourOfAKind(src).value;
      FourOutcome(h.cards, Detection(h.isa, h.fiveBest))
  {
    StoredSeven(src);
    FourDetect(Stored(src), Arranged(src));
  }

  /** `TwoPair` qualifies exactly when no rank occurs more than twice and two
      ranks occur twice; its five best are the two highest pairs and the best
      other card. */
  lemma TwoPairRule(src: Source)
    requires |AllCards(src)| == 7 && Distinct(AllCards(src))
    ensures NewTwoPair(src).Success?
    ensures var h := NewTwoPair(src).value;
      TwoPairOutcome(h.cards, Detection(h.isa, h.fiveBest))
  {
    StoredSeven(src);
    TwoPairDetect(Stored(src), Arranged(src));
  }

  /** `FullHouse` qualifies exactly when the top multiplicity is three, only
      one rank reaches it, and some rank occurs twice; its five best are the
      triple and the highest pair. */
  lemma FullHouseRule(src: Source)
    requires |AllCards(src)| == 7 && Distinct(AllCards(src))
    ensures NewFullHouse(src).Success?
    ensures var h := NewFullHouse(src).value;
      FullHouseOutcome(h.cards, Detection(h.isa, h.fiveBest))
  {
    StoredSeven(src);
    FullHouseDetect(Stored(src), Arranged(src));
  }
}
