/** The ordering of hands and `eval` in poker_simulations/eval.py: hands
    compare by category, then by the sum of the internal ranks of their five
    best cards; `eval` builds every detector class and returns the maximum
    of those that qualify. */
module EvalRules {
  import opened Wrappers
  import opened Cards
  import opened CardSeqs
  import opened Hands
  import opened HandRules
  import opened FlushRules
  import opened StraightRules

  /** The lookup finds the first position holding `x`. */
  lemma {:induction false} IndexOfFirst(s: seq<string>, x: string, i: nat)
    requires i < |s| && s[i] == x && forall j :: 0 <= j < i ==> s[j] != x
    ensures IndexOf(s, x) == Some(i)
  {
    if i > 0 {
      IndexOfFirst(s[1..], x, i - 1);
    }
  }

  /** The class names of the subclasses are the entries of `hand_rank_order()`
      in category order, each once. */
  lemma NamesInOrder()
    ensures forall k :: k != BaseHand ==> HandOrder[Category(k)] == ClassName(k)
    ensures forall i, j :: 0 <= i < j < |HandOrder| ==> HandOrder[i] != HandOrder[j]
    ensures ClassName(BaseHand) !in HandOrder
  {
    forall i, j | 0 <= i < j < |HandOrder|
      ensures HandOrder[i] != HandOrder[j]
    {
    }
  }

  /** The lookup in `hand_rank_order()` gives every subclass its category;
      the base class is missing from it, so its lookup raises KeyError. */
  lemma InternalRankIsLookup(k: HandClass)
    ensures RankLookup(k) == InternalRank(k)
  {
    NamesInOrder();
    if k != BaseHand {
      IndexOfFirst(HandOrder, ClassName(k), Category(k));
    }
  }

  /** The categories along `Hand.__subclasses__()`: strictly decreasing,
      from RoyalFlush down to HighCard. */
  lemma DetectorsDecrease()
    ensures |Detectors| == 10 && Detectors[0] == RoyalFlush && Detectors[9] == HighCard
    ensures forall k :: k in Detectors <==> k != BaseHand
    ensures forall i, j :: 0 <= i < j < |Detectors| ==> Category(Detectors[j]) < Category(Detectors[i])
  {
  }

  /** The sum `__lt__` and its siblings compare, when both hands have a list
      of cards as `five_best`. */
  function Score(h: Hand): (s: nat)
    requires h.fiveBest.Cards?
    ensures FiveSum(h) == Success(s)
  {
    IrSum(h.fiveBest.cards)
  }

  /** The internal ranks `__lt__` and its siblings compare. */
  lemma RankPairIsCategories(a: Hand, b: Hand)
    requires a.kind != BaseHand && b.kind != BaseHand
    ensures RankPair(a, b) == Success((Category(a.kind), Category(b.kind)))
  {
  }

  /** `a < b`: by category, and by the sum of the five best within a category;
      another class of operand raises TypeError, and summing a `five_best`
      that is not a list raises TypeError. */
  lemma LessRule(a: Hand, b: Hand)
    requires a.kind != BaseHand && b.kind != BaseHand
    ensures HandLt(a, Foreign) == Failure(TypeError)
    ensures Category(a.kind) != Category(b.kind) ==>
      HandLt(a, Instance(b)) == Success(Category(a.kind) < Category(b.kind))
    ensures Category(a.kind) == Category(b.kind) && a.fiveBest.Cards? && b.fiveBest.Cards? ==>
      HandLt(a, Instance(b)) == Success(Score(a) < Score(b))
    ensures Category(a.kind) == Category(b.kind) && !(a.fiveBest.Cards? && b.fiveBest.Cards?) ==>
      HandLt(a, Instance(b)) == Failure(TypeError)
  {
    if Category(a.kind) == Category(b.kind) {
      LessWithin(a, b);
    } else {
      LessAcross(a, b);
    }
  }

  lemma LessAcross(a: Hand, b: Hand)
    requires a.kind != BaseHand && b.kind != BaseHand
    requires Category(a.kind) != Category(b.kind)
    ensures HandLt(a, Instance(b)) == Success(Category(a.kind) < Category(b.kind))
  {
    RankPairValue(a, b);
  }

  lemma LessWithin(a: Hand, b: Hand)
    requires a.kind != BaseHand && b.kind != BaseHand
    requires Category(a.kind) == Category(b.kind)
    ensures a.fiveBest.Cards? && b.fiveBest.Cards? ==> HandLt(a, Instance(b)) == Success(Score(a) < Score(b))
    ensures !(a.fiveBest.Cards? && b.fiveBest.Cards?) ==> HandLt(a, Instance(b)) == Failure(TypeError)
  {
    RankPairValue(a, b);
    if a.fiveBest.Cards? && b.fiveBest.Cards? {
      assert SumPair(a, b) == Success((Score(a), Score(b)));
    } else {
      assert SumPair(a, b) == Failure(TypeError);
    }
  }

  /** `__gt__` is `__lt__` with the operands swapped. */
  lemma GreaterIsConverse(a: Hand, b: Hand)
    ensures HandGt(a, Instance(b)) == HandLt(b, Instance(a))
  {
  }

  /** `__le__` is the negation of `__gt__` wherever either is defined. */
  lemma LessEqualNegatesGreater(a: Hand, b: Hand)
    ensures HandLe(a, Instance(b)).Success? <==> HandGt(a, Instance(b)).Success?
    ensures HandLe(a, Instance(b)).Success? ==>
      HandLe(a, Instance(b)).value == !HandGt(a, Instance(b)).value
  {
  }

  /** `<` is a strict order where defined: irreflexive and transitive. */
  lemma LessStrict(a: Hand, b: Hand, c: Hand)
    ensures HandLt(a, Instance(a)).Success? ==> !HandLt(a, Instance(a)).value
    ensures (HandLt(a, Instance(b)) == Success(true) && HandLt(b, Instance(c)) == Success(true) &&
      HandLt(a, Instance(c)).Success?) ==> HandLt(a, Instance(c)).value
  {
  }

  /** `__ge__` as written computes `__le__`. */
  lemma GreaterEqualAsWritten(a: Hand, b: Operand<Hand>)
    ensures HandGe(a, b) == HandLe(a, b)
  {
  }

  /** `__ge__` as evidently intended: the negation of `__lt__`, and `__le__`
      with the operands swapped. */
  lemma GreaterEqualIntended(a: Hand, b: Hand)
    ensures HandGeIntended(a, Instance(b)) == HandLe(b, Instance(a))
    ensures HandGeIntended(a, Instance(b)).Success? <==> HandLt(a, Instance(b)).Success?
    ensures HandGeIntended(a, Instance(b)).Success? ==>
      HandGeIntended(a, Instance(b)).value == !HandLt(a, Instance(b)).value
    ensures HandGeIntended(a, Foreign) == Failure(TypeError)
  {
    RankPairSwap(a, b);
    SumPairSwap(a, b);
  }

  /** `RankPair` of the swapped operands: the same outcome with the
      components exchanged. */
  lemma RankPairSwap(a: Hand, b: Hand)
    ensures RankPair(b, a) == match RankPair(a, b)
      case Failure(e) => Failure(e)
      case Success((x, y)) => Success((y, x))
  {
    RankPairValue(a, b);
    RankPairValue(b, a);
  }

  /** `RankPair` in terms of the categories: KeyError when either operand
      is the base class. */
  lemma RankPairValue(a: Hand, b: Hand)
    ensures RankPair(a, b) == if a.kind == BaseHand || b.kind == BaseHand then Failure(KeyError)
      else Success((Category(a.kind), Category(b.kind)))
  {
  }

  /** `SumPair` of the swapped operands. */
  lemma SumPairSwap(a: Hand, b: Hand)
    ensures SumPair(b, a) == match SumPair(a, b)
      case Failure(e) => Failure(e)
      case Success((x, y)) => Success((y, x))
  {
  }

  /** With seven different cards every constructor succeeds except those of
      StraightFlush and RoyalFlush, which can raise AssertionError only. */
  lemma BuildSafe(k: HandClass, src: Source)
    requires |AllCards(src)| == 7 && Distinct(AllCards(src))
    ensures Build(k, src).Failure? ==> (k == StraightFlush || k == RoyalFlush) && Build(k, src).error == AssertionError
    ensures Build(k, src).Success? ==> Build(k, src).value.kind == k
  {
    BuildShape(k, src);
    match k
    case BaseHand =>
    case HighCard => HighCardRule(src);
    case Pair => PairRule(src);
    case TwoPair => TwoPairRule(src);
    case ThreeOfAKind => ThreeRule(src);
    case Straight => StraightRule(src);
    case Flush => FlushRule(src);
    case FullHouse => FullHouseRule(src);
    case FourOfAKind => FourRule(src);
    case StraightFlush => StraightFlushRule(src);
    case RoyalFlush => RoyalFlushRule(src);
  }

  /** Categories strictly decrease along `hs`. */
  predicate Decreasing(hs: seq<Hand>) {
    forall i, j :: 0 <= i < j < |hs| ==> Category(hs[j].kind) < Category(hs[i].kind)
  }

  /** Constructor calls whose hands have strictly decreasing categories. */
  predicate Ordered(rs: seq<Result<Hand>>) {
    forall i, j :: 0 <= i < j < |rs| && rs[i].Success? && rs[j].Success? ==>
      Category(rs[j].value.kind) < Category(rs[i].value.kind)
  }

  lemma {:induction false} BuildAllIndex(origin: Source, ks: seq<HandClass>)
    ensures forall i :: 0 <= i < |ks| ==> BuildAll(origin, ks)[i] == Build(ks[i], origin)
  {
    if ks != [] {
      BuildAllIndex(origin, ks[..|ks| - 1]);
    }
  }

  /** The `i`-th constructor call is the call of the `i`-th class. */
  lemma BuildAllAt(origin: Source, ks: seq<HandClass>, i: nat)
    requires i < |ks|
    ensures BuildAll(origin, ks)[i] == Build(ks[i], origin)
  {
    BuildAllIndex(origin, ks);
  }

  /** The loop of `eval` raises only what some constructor raised. */
  lemma {:induction false} CollectFailure(rs: seq<Result<Hand>>)
    ensures Collect(rs).Failure? ==> exists i :: 0 <= i < |rs| && rs[i] == Failure(Collect(rs).error)
  {
    if rs != [] {
      var pre := rs[..|rs| - 1];
      CollectFailure(pre);
      if Collect(pre).Failure? {
        var j :| 0 <= j < |pre| && pre[j] == Failure(Collect(pre).error);
        assert rs[j] == pre[j];
      }
    }
  }

  /** When the loop of `eval` completes, every constructor returned. */
  lemma {:induction false} CollectComplete(rs: seq<Result<Hand>>)
    ensures Collect(rs).Success? ==> forall i :: 0 <= i < |rs| ==> rs[i].Success?
  {
    if rs != [] {
      var pre := rs[..|rs| - 1];
      CollectComplete(pre);
      if Collect(rs).Success? {
        assert forall i :: 0 <= i < |pre| ==> rs[i] == pre[i];
      }
    }
  }

  /** `isa_list` holds qualifying hands returned by the constructors... */
  lemma {:induction false} CollectMembers(rs: seq<Result<Hand>>)
    ensures Collect(rs).Success? ==>
      forall h :: h in Collect(rs).value ==> h.isa && exists i :: 0 <= i < |rs| && rs[i] == Success(h)
  {
    if rs != [] {
      var pre := rs[..|rs| - 1];
      CollectMembers(pre);
      if Collect(rs).Success? {
        forall x | x in Collect(rs).value
          ensures x.isa && exists i :: 0 <= i < |rs| && rs[i] == Success(x)
        {
          if x in Collect(pre).value {
            var j :| 0 <= j < |pre| && pre[j] == Success(x);
            assert rs[j] == pre[j];
          } else {
            assert rs[|rs| - 1] == Success(x);
          }
        }
      }
    }
  }

  /** ... and every one of them that qualifies. */
  lemma {:induction false} CollectKeeps(rs: seq<Result<Hand>>)
    ensures Collect(rs).Success? ==>
      forall i :: 0 <= i < |rs| && rs[i].Success? && rs[i].value.isa ==> rs[i].value in Collect(rs).value
  {
    if rs != [] {
      var pre := rs[..|rs| - 1];
      CollectKeeps(pre);
      if Collect(rs).Success? {
        forall i | 0 <= i < |rs| && rs[i].Success? && rs[i].value.isa
          ensures rs[i].value in Collect(rs).value
        {
          if i < |pre| {
            assert rs[i] == pre[i];
          }
        }
      }
    }
  }

  /** `isa_list` keeps the order of the constructor calls. */
  lemma {:induction false} CollectDecreasing(rs: seq<Result<Hand>>)
    requires Ordered(rs)
    ensures Collect(rs).Success? ==> Decreasing(Collect(rs).value)
  {
    if rs != [] {
      var pre := rs[..|rs| - 1];
      assert Ordered(pre);
      CollectDecreasing(pre);
      CollectMembers(pre);
      if Collect(rs).Success? {
        var acc := Collect(pre).value;
        var h := rs[|rs| - 1].value;
        if h.isa {
          forall i | 0 <= i < |acc|
            ensures Category(h.kind) < Category(acc[i].kind)
          {
            assert acc[i] in acc;
            var j :| 0 <= j < |pre| && pre[j] == Success(acc[i]);
            assert rs[j] == pre[j];
          }
        }
      }
    }
  }

  /** Python's `max` keeps the first item when every later one is of a
      lower category. */
  lemma {:induction false} MaxKeepsFirst(m: Hand, xs: seq<Hand>)
    requires m.kind != BaseHand
    requires forall x :: x in xs ==> x.kind != BaseHand && Category(x.kind) < Category(m.kind)
    ensures MaxFrom(m, xs) == Success(m)
  {
    if xs != [] {
      RankPairIsCategories(xs[0], m);
      assert xs[0] in xs;
      MaxKeepsFirst(m, xs[1..]);
    }
  }

  /** `eval`'s loop over constructor calls of strictly decreasing category
      one of which always qualifies: `isa_list` starts with the qualifying
      hand of highest category. */
  lemma CollectFirst(rs: seq<Result<Hand>>, always: nat)
    requires Ordered(rs)
    requires forall i :: 0 <= i < |rs| && rs[i].Success? ==> rs[i].value.kind != BaseHand
    requires always < |rs| && rs[always].Success? && rs[always].value.isa
    ensures Collect(rs).Success? ==>
      var qs := Collect(rs).value;
      && qs != [] && Decreasing(qs) && (forall h :: h in qs ==> h.kind != BaseHand)
      && qs[0].isa && (exists i :: 0 <= i < |rs| && rs[i] == Success(qs[0]))
      && forall i :: 0 <= i < |rs| && rs[i].Success? && rs[i].value.isa ==>
           Category(rs[i].value.kind) <= Category(qs[0].kind)
  {
    CollectComplete(rs);
    CollectMembers(rs);
    CollectKeeps(rs);
    CollectDecreasing(rs);
    if Collect(rs).Success? {
      var qs := Collect(rs).value;
      assert rs[always].value in qs;
      assert qs[0] in qs;
      forall i | 0 <= i < |rs| && rs[i].Success? && rs[i].value.isa
        ensures Category(rs[i].value.kind) <= Category(qs[0].kind)
      {
        var j :| 0 <= j < |qs| && qs[j] == rs[i].value;
      }
    }
  }

  /** `max` of hands of strictly decreasing category is the first. */
  lemma PyMaxFirst(qs: seq<Hand>)
    requires qs != [] && Decreasing(qs)
    requires forall h :: h in qs ==> h.kind != BaseHand
    ensures PyMax(qs) == Success(qs[0])
  {
    var first := qs[0];
    assert first in qs;
    forall x | x in qs[1..]
      ensures x.kind != BaseHand && Category(x.kind) < Category(first.kind)
    {
      var j :| 0 <= j < |qs[1..]| && qs[1..][j] == x;
      assert qs[j + 1] == x;
      assert x in qs;
    }
    MaxKeepsFirst(first, qs[1..]);
  }

  /** What each constructor call of `eval` returns, as far as `eval` needs. */
  predicate Sound(r: Result<Hand>, k: HandClass) {
    && (r.Failure? ==> (k == StraightFlush || k == RoyalFlush) && r.error == AssertionError)
    && (r.Success? ==> r.value.kind == k)
  }

  lemma BuiltSound(origin: Source)
    requires |AllCards(origin)| == 7 && Distinct(AllCards(origin))
    ensures var rs := BuildAll(origin, Detectors);
      forall i :: 0 <= i < |rs| ==> Sound(rs[i], Detectors[i])
  {
    BuildAllIndex(origin, Detectors);
    forall i | 0 <= i < |Detectors|
      ensures Sound(Build(Detectors[i], origin), Detectors[i])
    {
      BuildSafe(Detectors[i], origin);
    }
  }

  lemma BuiltHighCard(origin: Source)
    ensures var rs := BuildAll(origin, Detectors);
      |rs| == 10 && rs[9] == NewHighCard(origin)
  {
    BuildAllAt(origin, Detectors, 9);
    assert Detectors[9] == HighCard;
  }

  lemma BuiltStraightFlush(origin: Source)
    ensures var rs := BuildAll(origin, Detectors);
      |rs| == 10 && rs[1] == NewStraightFlush(origin)
  {
    BuildAllAt(origin, Detectors, 1);
    assert Detectors[1] == StraightFlush;
  }

  lemma BuiltRoyalFlush(origin: Source)
    ensures var rs := BuildAll(origin, Detectors);
      |rs| == 10 && rs[0] == NewRoyalFlush(origin)
  {
    BuildAllAt(origin, Detectors, 0);
    assert Detectors[0] == RoyalFlush;
  }

  /** `best` is one of the hands built in `rs`, qualifies, and its category
      is at least that of every qualifying hand of `rs` (built in the order of
      `Detectors`). */
  predicate Chosen(rs: seq<Result<Hand>>, best: Hand) {
    && best.isa && best.kind != BaseHand
    && (exists i :: 0 <= i < |rs| && rs[i] == Success(best))
    && forall i :: (0 <= i < |rs| && i < |Detectors| && rs[i].Success? && rs[i].value.isa) ==>
         Category(Detectors[i]) <= Category(best.kind)
  }

  /** `eval`'s loop and `max` over the ten constructor calls, given only
      what each call can return. */
  lemma EvaluateOver(rs: seq<Result<Hand>>)
    requires |rs| == |Detectors| && Ordered(rs)
    requires forall i :: 0 <= i < |rs| ==> Sound(rs[i], Detectors[i])
    requires rs[9].Success? && rs[9].value.isa
    ensures EvaluateAll(rs).Failure? <==> rs[0].Failure? || rs[1].Failure?
    ensures EvaluateAll(rs).Failure? ==> EvaluateAll(rs).error == AssertionError
    ensures EvaluateAll(rs).Success? ==> Chosen(rs, EvaluateAll(rs).value)
  {
    CollectFailure(rs);
    CollectComplete(rs);
    CollectFirst(rs, 9);
    if Collect(rs).Success? {
      PyMaxFirst(Collect(rs).value);
    }
  }

  /** The constructor calls of `eval` on seven different cards. */
  lemma EvaluateBuilt(origin: Source)
    requires |AllCards(origin)| == 7 && Distinct(AllCards(origin))
    ensures var rs := BuildAll(origin, Detectors);
      && (EvaluateAll(rs).Failure? <==> rs[0].Failure? || rs[1].Failure?)
      && (EvaluateAll(rs).Failure? ==> EvaluateAll(rs).error == AssertionError)
      && (EvaluateAll(rs).Success? ==> Chosen(rs, EvaluateAll(rs).value))
  {
    var rs := BuildAll(origin, Detectors);
    BuiltSound(origin);
    BuiltHighCard(origin);
    DetectorsDecrease();
    HighCardRule(origin);
    assert Ordered(rs);
    EvaluateOver(rs);
  }

  /** `eval` on seven different cards: it raises (AssertionError) exactly when
      building StraightFlush or RoyalFlush does; otherwise it returns a
      qualifying hand built for these cards whose category is at least that
      of every class that qualifies. */
  lemma EvaluateRule(h: Hand)
    requires |AllCards(h.origin)| == 7 && Distinct(AllCards(h.origin))
    ensures Evaluate(h).Failure? <==>
      NewStraightFlush(h.origin).Failure? || NewRoyalFlush(h.origin).Failure?
    ensures Evaluate(h).Failure? ==> Evaluate(h).error == AssertionError
    ensures Evaluate(h).Success? ==> Chosen(BuildAll(h.origin, Detectors), Evaluate(h).value)
  {
    EvaluateBuilt(h.origin);
    BuiltStraightFlush(h.origin);
    BuiltRoyalFlush(h.origin);
  }
}
