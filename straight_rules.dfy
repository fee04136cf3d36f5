/** What the Straight, StraightFlush and RoyalFlush detectors of
    poker_simulations/eval.py decide, in terms of the seven cards. A window
    is one of the ten rank windows `possible_straights`; the straight
    detector keeps every card whose internal rank lies in a window all of
    whose ranks are present, then the five best of those. */
module StraightRules {
  import opened Wrappers
  import opened Cards
  import opened Seqs
  import opened CardSeqs
  import opened Hands
  import opened HandRules
  import opened FlushRules

  /** Some card has internal rank `i`. */
  ghost predicate HasIr(cards: seq<Card>, i: nat) {
    exists c :: c in cards && CardIr(c) == i
  }

  /** Every rank of window `w` is present. */
  ghost predicate Runs(cards: seq<Card>, w: seq<nat>) {
    forall i :: i in w ==> HasIr(cards, i)
  }

  /** Some window is complete. */
  ghost predicate HasStraight(cards: seq<Card>) {
    exists k :: 0 <= k < |Windows| && Runs(cards, Windows[k])
  }

  /** Card `c` lies in a complete window of `cards`. */
  ghost predicate InRun(cards: seq<Card>, c: Card) {
    exists k :: 0 <= k < |Windows| && Runs(cards, Windows[k]) && CardIr(c) in Windows[k]
  }

  /** The cards of `s` lying in a complete window of `all`. */
  ghost function RunCards(all: seq<Card>, s: seq<Card>): (r: seq<Card>)
    ensures |r| <= |s|
  {
    if s == [] then []
    else RunCards(all, s[..|s| - 1]) + (if InRun(all, s[|s| - 1]) then [s[|s| - 1]] else [])
  }

  /** The shape of `Straight.five_best`: five of the cards lying in complete
      windows, and the best of them. */
  ghost predicate StraightFive(cards: seq<Card>, five: seq<Card>) {
    TopOf(five, multiset(RunCards(cards, cards)), 5)
  }

  /** What `Straight.get_five_best` yields. */
  ghost predicate StraightOutcome(cards: seq<Card>, d: Detection) {
    && (d.isa <==> HasStraight(cards))
    && (d.isa ==> d.fiveBest.Cards? && StraightFive(cards, d.fiveBest.cards))
    && (!d.isa ==> FallsBack(cards, d.fiveBest))
  }

  lemma {:induction false} MatchesMembers(c: Card, w: seq<nat>)
    ensures forall x :: x in Matches(c, w) <==> x == c && CardIr(c) in w
  {
    if w != [] {
      MatchesMembers(c, w[..|w| - 1]);
      assert w == w[..|w| - 1] + [w[|w| - 1]];
    }
  }

  lemma {:induction false} HitsMembers(cards: seq<Card>, w: seq<nat>)
    ensures forall x :: x in Hits(cards, w) <==> x in cards && CardIr(x) in w
  {
    if cards != [] {
      HitsMembers(cards[..|cards| - 1], w);
      MatchesMembers(cards[|cards| - 1], w);
      assert cards == cards[..|cards| - 1] + [cards[|cards| - 1]];
    }
  }

  /** The cards the window loop appends: those in some covered window. */
  lemma {:induction false} StraightHitsMembers(cards: seq<Card>, irs: seq<nat>, ws: seq<seq<nat>>)
    ensures forall x :: x in StraightHits(cards, irs, ws) <==>
      x in cards && exists k :: 0 <= k < |ws| && Covered(irs, ws[k]) && CardIr(x) in ws[k]
  {
    if ws != [] {
      var pre := ws[..|ws| - 1];
      StraightHitsMembers(cards, irs, pre);
      HitsMembers(cards, ws[|ws| - 1]);
      forall x
        ensures (exists k :: 0 <= k < |ws| && Covered(irs, ws[k]) && CardIr(x) in ws[k]) <==>
          (exists k :: 0 <= k < |pre| && Covered(irs, pre[k]) && CardIr(x) in pre[k])
          || (Covered(irs, ws[|ws| - 1]) && CardIr(x) in ws[|ws| - 1])
      {
        if k :| 0 <= k < |ws| && Covered(irs, ws[k]) && CardIr(x) in ws[k] {
          if k < |pre| {
            assert pre[k] == ws[k];
          }
        }
      }
    }
  }

  /** `set(v).issubset(set(internal_ranks))` says every rank of the window is present. */
  lemma CoveredRuns(s: seq<Card>, w: seq<nat>)
    ensures Covered(Irs(s), w) <==> Runs(s, w)
  {
    IrsIndex(s);
    if Covered(Irs(s), w) {
      forall i | i in w
        ensures HasIr(s, i)
      {
        var j :| 0 <= j < |Irs(s)| && Irs(s)[j] == i;
        assert s[j] in s;
      }
    }
    if Runs(s, w) {
      forall i | i in w
        ensures i in Irs(s)
      {
        var c :| c in s && CardIr(c) == i;
        var j :| 0 <= j < |s| && s[j] == c;
        assert Irs(s)[j] == i;
      }
    }
  }

  /** The windows hold five different ranks each. */
  lemma WindowsDistinct(k: nat)
    requires k < |Windows|
    ensures |Windows[k]| == 5 && NoDups(Windows[k])
  {
  }

  /** One card for each rank of a complete window. */
  lemma {:induction false} PickCards(s: seq<Card>, w: seq<nat>) returns (p: seq<Card>)
    requires Runs(s, w)
    ensures |p| == |w|
    ensures forall j :: 0 <= j < |w| ==> p[j] in s && CardIr(p[j]) == w[j]
  {
    if w == [] {
      p := [];
    } else {
      var pre := w[..|w| - 1];
      assert Runs(s, pre) by {
        forall i | i in pre
          ensures HasIr(s, i)
        {
          assert i in w;
        }
      }
      var rest := PickCards(s, pre);
      assert w[|w| - 1] in w;
      var c :| c in s && CardIr(c) == w[|w| - 1];
      p := rest + [c];
    }
  }

  /** The predicates above depend on the cards present only. */
  lemma SameMembers(a: seq<Card>, b: seq<Card>)
    requires forall x :: x in a <==> x in b
    ensures forall i :: HasIr(a, i) <==> HasIr(b, i)
    ensures forall k :: 0 <= k < |Windows| ==> (Runs(a, Windows[k]) <==> Runs(b, Windows[k]))
    ensures HasStraight(a) <==> HasStraight(b)
    ensures forall c :: InRun(a, c) <==> InRun(b, c)
  {
    assert forall i :: HasIr(a, i) <==> HasIr(b, i);
  }

  /** The loop over the windows, on the ascending cards: it appends exactly the
      cards in complete windows, and at least five different ones when there
      is a straight. */
  lemma StraightHitsFacts(cards: seq<Card>)
    ensures var asc := SortAsc(cards);
      var best := StraightHits(asc, Irs(asc), Windows);
      && (forall x :: x in best <==> x in cards && InRun(cards, x))
      && (best != [] <==> HasStraight(cards))
      && (HasStraight(cards) ==> |Dedup(best)| >= 5)
  {
    var asc := SortAsc(cards);
    SortAscSpec(cards);
    assert forall x :: x in asc <==> x in cards by {
      assert forall x :: x in asc <==> x in multiset(asc);
      assert forall x :: x in cards <==> x in multiset(cards);
    }
    SameMembers(asc, cards);
    var irs := Irs(asc);
    var best := StraightHits(asc, irs, Windows);
    StraightHitsMembers(asc, irs, Windows);
    forall k | 0 <= k < |Windows|
      ensures Covered(irs, Windows[k]) <==> Runs(cards, Windows[k])
    {
      CoveredRuns(asc, Windows[k]);
    }
    if best != [] {
      assert best[0] in best;
    }
    if HasStraight(cards) {
      var k :| 0 <= k < |Windows| && Runs(cards, Windows[k]);
      WindowsDistinct(k);
      var p := PickCards(cards, Windows[k]);
      assert p[0] in best;
      FiveInBest(cards, best);
    }
  }

  /** A complete window gives five different cards to `best_five`. */
  lemma FiveInBest(cards: seq<Card>, best: seq<Card>)
    requires HasStraight(cards)
    requires forall x :: x in best <==> x in cards && InRun(cards, x)
    ensures |Dedup(best)| >= 5
  {
    var k :| 0 <= k < |Windows| && Runs(cards, Windows[k]);
    var w := Windows[k];
    WindowsDistinct(k);
    var p := PickCards(cards, w);
    forall j | 0 <= j < |p|
      ensures p[j] in best
    {
      assert CardIr(p[j]) in w;
    }
    assert NoDups(p) by {
      forall i, j | 0 <= i < j < |p|
        ensures p[i] != p[j]
      {
        assert CardIr(p[i]) == w[i] && CardIr(p[j]) == w[j];
      }
    }
    DedupSpec(best);
    NoDupsSubsetLength(p, Dedup(best));
  }

  lemma {:induction false} RunCardsMultiset(all: seq<Card>, s: seq<Card>, c: Card)
    ensures multiset(RunCards(all, s))[c] == if InRun(all, c) then multiset(s)[c] else 0
  {
    if s != [] {
      RunCardsMultiset(all, s[..|s| - 1], c);
      assert s == s[..|s| - 1] + [s[|s| - 1]];
    }
  }

  /** With distinct cards, `set(best_five)` is the multiset of the cards in
      complete windows. */
  lemma BestPool(cards: seq<Card>, best: seq<Card>)
    requires Distinct(cards)
    requires forall x :: x in best <==> x in cards && InRun(cards, x)
    ensures multiset(Dedup(best)) == multiset(RunCards(cards, cards))
  {
    DedupSpec(best);
    forall c
      ensures multiset(Dedup(best))[c] == multiset(RunCards(cards, cards))[c]
    {
      NoDupsMultiset(Dedup(best), c);
      RunCardsMultiset(cards, cards, c);
      if c in cards {
        assert multiset(cards)[c] == 1;
      }
    }
  }

  lemma StraightDetect(origin: Source, cards: seq<Card>)
    requires |cards| == 7 && Distinct(cards)
    requires |AllCards(origin)| == 7 && multiset(AllCards(origin)) == multiset(cards)
    ensures DetectStraight(origin, cards).Success?
    ensures StraightOutcome(cards, DetectStraight(origin, cards).value)
  {
    var asc := SortAsc(cards);
    var best := StraightHits(asc, Irs(asc), Windows);
    StraightHitsFacts(cards);
    if best == [] {
      SortAscSpec(cards);
      DeclinedBest(Straight, if origin.Listed? then Listed(asc) else origin, cards);
    } else {
      var pool := Dedup(best);
      TopOfSortDesc(pool, 5);
      var top := Take(SortDesc(pool), 5);
      TopOfResorted(top, multiset(pool), 5);
      BestPool(cards, best);
    }
  }

  /** `Straight` qualifies exactly when some window of five ranks is
      complete; its five best are the five best cards lying in complete
      windows (which may repeat a rank). */
  lemma StraightRule(src: Source)
    requires |AllCards(src)| == 7 && Distinct(AllCards(src))
    ensures NewStraight(src).Success?
    ensures var h := NewStraight(src).value;
      StraightOutcome(h.cards, Detection(h.isa, h.fiveBest))
  {
    StoredSeven(src);
    StraightDetect(Stored(src), Arranged(src));
  }

  /** A flush depends on the multiset of the cards only. */
  lemma FlushPermutation(a: seq<Card>, b: seq<Card>)
    requires multiset(a) == multiset(b)
    ensures HasFlush(a) <==> HasFlush(b)
  {
    forall st
      ensures SuitCount(a, st) == SuitCount(b, st)
    {
      WithSuitPermutation(a, b, st);
      assert |multiset(WithSuit(a, st))| == |multiset(WithSuit(b, st))|;
    }
  }

  lemma StraightPermutation(a: seq<Card>, b: seq<Card>)
    requires multiset(a) == multiset(b)
    ensures HasStraight(a) <==> HasStraight(b)
  {
    assert forall x :: x in a <==> x in multiset(a);
    assert forall x :: x in b <==> x in multiset(b);
    SameMembers(a, b);
  }

  /** The hands `StraightFlush` builds from the stored cards. */
  lemma InnerHands(src: Source)
    requires |AllCards(src)| == 7 && Distinct(AllCards(src))
    ensures NewStraight(src).Success? && NewFlush(src).Success?
    ensures var s := NewStraight(src).value;
      StraightOutcome(s.cards, Detection(s.isa, s.fiveBest))
    ensures var f := NewFlush(src).value;
      FlushOutcome(f.cards, Detection(f.isa, f.fiveBest))
    ensures NewFlush(src).value.cards == NewStraight(src).value.cards == Arranged(src)
    ensures multiset(Arranged(src)) == multiset(AllCards(src))
  {
    StraightRule(src);
    FlushRule(src);
    ArrangedSpec(src);
  }

  /** The outcome of `StraightFlush.get_five_best` given the two hands it builds. */
  lemma StraightFlushSteps(origin: Source, s: Hand, f: Hand)
    requires NewStraight(origin) == Success(s) && NewFlush(origin) == Success(f)
    ensures DetectStraightFlush(origin) ==
      if f.isa && s.isa then Agreed(f.fiveBest, s.fiveBest) else Declined(StraightFlush, origin)
  {
  }

  /** `StraightFlush` asserts that the straight's five best and the flush's
      five best agree whenever both qualify, and raises AssertionError when
      they do not; with both agreeing it qualifies with the flush's five
      best, otherwise it falls back to HighCard. */
  lemma StraightFlushRule(src: Source)
    requires |AllCards(src)| == 7 && Distinct(AllCards(src))
    ensures NewStraight(Stored(src)).Success? && NewFlush(Stored(src)).Success?
    ensures var s := NewStraight(Stored(src)).value;
      var f := NewFlush(Stored(src)).value;
      && StraightOutcome(s.cards, Detection(s.isa, s.fiveBest))
      && FlushOutcome(f.cards, Detection(f.isa, f.fiveBest))
      && (NewStraightFlush(src).Failure? <==> s.isa && f.isa && s.fiveBest != f.fiveBest)
      && (NewStraightFlush(src).Failure? ==> NewStraightFlush(src).error == AssertionError)
    ensures NewStraightFlush(src).Success? ==>
      var h := NewStraightFlush(src).value;
      && (h.isa <==> HasStraight(h.cards) && HasFlush(h.cards))
      && (h.isa ==> h.fiveBest == NewFlush(Stored(src)).value.fiveBest && h.fiveBest.Cards?)
      && (!h.isa ==> FallsBack(h.cards, h.fiveBest))
  {
    StoredSeven(src);
    var origin := Stored(src);
    InnerHands(origin);
    var s := NewStraight(origin).value;
    var f := NewFlush(origin).value;
    StraightFlushSteps(origin, s, f);
    ArrangedSpec(src);
    StraightPermutation(s.cards, Arranged(src));
    FlushPermutation(s.cards, Arranged(src));
    if !(f.isa && s.isa) {
      DeclinedBest(StraightFlush, origin, Arranged(src));
    }
  }

  /** `ranks == ['A', 'K', 'Q', 'J', 10]` picks out the ace-high five. */
  lemma RoyalLabelsRanks(five: seq<Card>)
    ensures Labels(five) == RoyalLabels <==> Ranks(five) == [Ace, King, Queen, Jack, Ten]
  {
    var royal := [Ace, King, Queen, Jack, Ten];
    LabelsIndex(five);
    RanksIndex(five);
    RoyalLabelsAre();
    if |five| == 5 {
      forall i | 0 <= i < 5
        ensures Labels(five)[i] == RoyalLabels[i] <==> Ranks(five)[i] == royal[i]
      {
        LabelIs(five[i].rank, royal[i]);
      }
      if Labels(five) != RoyalLabels {
        var i :| 0 <= i < 5 && Labels(five)[i] != RoyalLabels[i];
        assert Ranks(five)[i] != royal[i];
      }
    }
  }

  lemma RoyalLabelsAre()
    ensures |RoyalLabels| == 5
    ensures forall i :: 0 <= i < 5 ==> RoyalLabels[i] == Label([Ace, King, Queen, Jack, Ten][i])
  {
    assert Label(Ten) == Num(10);
  }

  lemma {:induction false} LabelsIndex(cs: seq<Card>)
    ensures |Labels(cs)| == |cs|
    ensures forall i :: 0 <= i < |cs| ==> Labels(cs)[i] == Label(cs[i].rank)
  {
    if cs != [] {
      LabelsIndex(cs[1..]);
    }
  }

  /** Labels tell ranks apart. */
  lemma LabelIs(r: Rank, q: Rank)
    ensures Label(r) == Label(q) <==> r == q
  {
    if Label(r) == Label(q) {
      LabelRoundTrip(r);
      LabelRoundTrip(q);
    }
  }

  /** `RoyalFlush` fails exactly when the straight flush it builds fails; it
      qualifies when that straight flush qualifies with ranks A K Q J 10, and
      then its `five_best` is all seven cards; a straight flush that is not
      royal gives `None`. */
  lemma RoyalFlushRule(src: Source)
    requires |AllCards(src)| == 7 && Distinct(AllCards(src))
    ensures var sf := NewStraightFlush(Stored(src));
      && (NewRoyalFlush(src).Failure? <==> sf.Failure?)
      && (NewRoyalFlush(src).Failure? ==> NewRoyalFlush(src).error == AssertionError)
      && (sf.Success? && sf.value.isa ==> sf.value.fiveBest.Cards?)
    ensures NewRoyalFlush(src).Success? ==>
      var sf := NewStraightFlush(Stored(src)).value;
      var h := NewRoyalFlush(src).value;
      && (h.isa <==> sf.isa && Ranks(sf.fiveBest.cards) == [Ace, King, Queen, Jack, Ten])
      && (h.isa ==> h.fiveBest == Cards(h.cards))
      && (sf.isa && !h.isa ==> h.fiveBest == NoCards)
      && (!sf.isa ==> FallsBack(h.cards, h.fiveBest))
  {
    StoredSeven(src);
    var origin := Stored(src);
    StraightFlushRule(origin);
    var sf := NewStraightFlush(origin);
    if sf.Success? {
      if sf.value.isa {
        RoyalLabelsRanks(sf.value.fiveBest.cards);
      } else {
        DeclinedBest(RoyalFlush, origin, Arranged(src));
      }
    }
  }
}
