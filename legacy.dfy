/** `Table.best_cards` of game.py, the older copy of the evaluator whose
    `Hand` takes one list of seven cards. That `Hand` and its detectors are
    the ones of module Hands, built from a `Listed` source.

    Every access to `hole_cards`, `flop`, `turn` and `river` draws new cards
    from a newly shuffled deck, so each seat's seven cards are whatever
    those draws produced; they are the parameter `draws` here. */
module Legacy {
  import opened Wrappers
  import opened Cards
  import opened CardSeqs
  import opened Hands
  import opened HandRules
  import opened EvalRules
  import opened StraightRules
  import opened Counting
  import Evaluator

  /** What one seat is dealt inside the loop of `best_cards`. */
  datatype Draw = Draw(hole: seq<Card>, flop: seq<Card>, river: Card, turn: Card)

  /** `self.hole_cards[i] + self.flop + [self.river] + [self.turn]`. */
  function SeatCards(d: Draw): (s: seq<Card>)
    ensures |s| == |d.hole| + |d.flop| + 2
    ensures s[..|d.hole|] == d.hole && s[|d.hole|..|d.hole| + |d.flop|] == d.flop
    ensures s[|s| - 2] == d.river && s[|s| - 1] == d.turn
  {
    d.hole + d.flop + [d.river] + [d.turn]
  }

  /** `Hand(all7).eval()`. */
  function SeatResult(d: Draw): Result<Hand> {
    match Build(BaseHand, Listed(SeatCards(d)))
    case Failure(e) => Failure(e)
    case Success(h) => Evaluate(h)
  }

  /** `Hand(all7).eval()` for each seat, in seat order. */
  function Evaluations(draws: seq<Draw>): (outs: seq<Result<Hand>>)
    ensures |outs| == |draws|
  {
    seq(|draws|, k requires 0 <= k < |draws| => SeatResult(draws[k]))
  }

  lemma EvaluationsAt(draws: seq<Draw>, k: nat)
    requires k < |draws|
    ensures Evaluations(draws)[k] == SeatResult(draws[k])
  {
  }

  /** The `results` loop over the evaluations `outs`: the first one to
      raise ends it. */
  function Results(outs: seq<Result<Hand>>): Result<seq<Hand>> {
    if outs == [] then Success([])
    else
      match Results(outs[..|outs| - 1])
      case Failure(e) => Failure(e)
      case Success(rs) =>
        match outs[|outs| - 1]
        case Failure(e) => Failure(e)
        case Success(h) => Success(rs + [h])
  }

  /** The seat numbers (counted from 1, as the keys of `hole_cards`) whose
      result equals `m`, in seat order. */
  function Winners(rs: seq<Hand>, m: Hand): seq<nat> {
    if rs == [] then []
    else Winners(rs[..|rs| - 1], m) + (if rs[|rs| - 1] == m then [|rs|] else [])
  }

  /** The comprehension of `best_cards`: the seats whose result equals
      `max(results.values())`. With no seat `max` is never called. */
  function Pick(rs: seq<Hand>): Result<seq<nat>> {
    if rs == [] then Success([])
    else
      match PyMax(rs)
      case Failure(e) => Failure(e)
      case Success(m) => Success(Winners(rs, m))
  }

  /** The pair `best_cards` returns, from the seats' evaluations `outs`. */
  function OutcomeOf(outs: seq<Result<Hand>>): Result<(seq<nat>, seq<Hand>)> {
    match Results(outs)
    case Failure(e) => Failure(e)
    case Success(rs) =>
      match Pick(rs)
      case Failure(e) => Failure(e)
      case Success(ws) => Success((ws, rs))
  }

  /** What `best_cards` returns for the seats' draws. */
  function Outcome(draws: seq<Draw>): Result<(seq<nat>, seq<Hand>)> {
    OutcomeOf(Evaluations(draws))
  }

  lemma ResultsSnoc(outs: seq<Result<Hand>>, i: nat)
    requires i < |outs|
    ensures Results(outs[..i + 1]) ==
      match Results(outs[..i])
      case Failure(e) => Failure(e)
      case Success(rs) =>
        match outs[i]
        case Failure(e) => Failure(e)
        case Success(h) => Success(rs + [h])
  {
    assert outs[..i + 1][..i] == outs[..i];
  }

  /** Once a seat's evaluation has raised, later seats change nothing. */
  lemma {:induction false} ResultsStop(outs: seq<Result<Hand>>, i: nat)
    requires i <= |outs| && Results(outs[..i]).Failure?
    ensures Results(outs) == Results(outs[..i])
    decreases |outs|
  {
    if i < |outs| {
      assert outs[..|outs| - 1][..i] == outs[..i];
      ResultsStop(outs[..|outs| - 1], i);
    } else {
      assert outs[..i] == outs;
    }
  }

  /** The results loop completes exactly when no seat's evaluation raises,
      and then holds each seat's result at its index; otherwise it raises
      what the first seat to raise raised. */
  lemma {:induction false} ResultsSpec(outs: seq<Result<Hand>>)
    ensures Results(outs).Success? <==> forall k :: 0 <= k < |outs| ==> outs[k].Success?
    ensures Results(outs).Success? ==>
      |Results(outs).value| == |outs| &&
      forall k :: 0 <= k < |outs| ==> outs[k] == Success(Results(outs).value[k])
    ensures Results(outs).Failure? ==>
      (exists k :: 0 <= k < |outs| && outs[k] == Failure(Results(outs).error) &&
        forall j :: 0 <= j < k ==> outs[j].Success?)
  {
    if outs != [] {
      var pre := outs[..|outs| - 1];
      ResultsSpec(pre);
      assert forall k :: 0 <= k < |pre| ==> pre[k] == outs[k];
      if Results(pre).Failure? {
        var k :| 0 <= k < |pre| && pre[k] == Failure(Results(pre).error) &&
          forall j :: 0 <= j < k ==> pre[j].Success?;
        assert outs[k] == pre[k];
      }
    }
  }

  /** `n` is a winner exactly when it numbers a seat whose result is `m`;
      the winners come in seat order. */
  lemma {:induction false} WinnersSpec(rs: seq<Hand>, m: Hand)
    ensures forall n :: n in Winners(rs, m) <==> 1 <= n <= |rs| && rs[n - 1] == m
    ensures forall i, j :: 0 <= i < j < |Winners(rs, m)| ==> Winners(rs, m)[i] < Winners(rs, m)[j]
  {
    if rs != [] {
      var pre := rs[..|rs| - 1];
      WinnersSpec(pre, m);
      assert forall k :: 0 <= k < |pre| ==> pre[k] == rs[k];
      var w := Winners(pre, m);
      forall i | 0 <= i < |w|
        ensures w[i] < |rs|
      {
        assert w[i] in w;
      }
    }
  }

  /** A hand `__gt__` compares without raising: a subclass of `Hand` whose
      `five_best` is a list of cards. */
  predicate Scored(h: Hand) {
    h.kind != BaseHand && h.fiveBest.Cards?
  }

  /** The order `__gt__` decides on scored hands: by category, then by the
      sum of the internal ranks of the five best. */
  predicate AtMost(a: Hand, b: Hand)
    requires Scored(a) && Scored(b)
  {
    Category(a.kind) < Category(b.kind) || (Category(a.kind) == Category(b.kind) && Score(a) <= Score(b))
  }

  /** `a > b` on scored hands is the negation of `AtMost(a, b)`. */
  lemma GreaterScored(a: Hand, b: Hand)
    requires Scored(a) && Scored(b)
    ensures HandGt(a, Instance(b)) == Success(!AtMost(a, b))
  {
    RankPairValue(a, b);
    assert SumPair(a, b) == Success((Score(a), Score(b)));
  }

  /** Python's `max` over scored hands never raises and returns one of them
      that no other is greater than. */
  lemma {:induction false} MaxFromGreatest(m: Hand, xs: seq<Hand>)
    requires Scored(m) && forall x :: x in xs ==> Scored(x)
    ensures MaxFrom(m, xs).Success?
    ensures var r := MaxFrom(m, xs).value;
      && (r == m || r in xs) && Scored(r) && AtMost(m, r)
      && forall x :: x in xs ==> AtMost(x, r)
    decreases |xs|
  {
    if xs != [] {
      var x0 := xs[0];
      assert x0 in xs;
      GreaterScored(x0, m);
      var next := if AtMost(x0, m) then m else x0;
      forall x | x in xs[1..]
        ensures Scored(x)
      {
        assert x in xs;
      }
      MaxFromGreatest(next, xs[1..]);
      var r := MaxFrom(next, xs[1..]).value;
      forall x | x in xs
        ensures AtMost(x, r)
      {
        if x != x0 {
          assert x in xs[1..];
        }
      }
      if r != next {
        assert r in xs;
      }
    }
  }

  lemma PyMaxGreatest(xs: seq<Hand>)
    requires xs != [] && forall x :: x in xs ==> Scored(x)
    ensures PyMax(xs).Success? && PyMax(xs).value in xs && Scored(PyMax(xs).value)
    ensures forall x :: x in xs ==> AtMost(x, PyMax(xs).value)
  {
    assert xs[0] in xs;
    forall x | x in xs[1..]
      ensures Scored(x) && x in xs
    {
      var j :| 0 <= j < |xs[1..]| && xs[1..][j] == x;
      assert xs[j + 1] == x;
    }
    MaxFromGreatest(xs[0], xs[1..]);
  }

  /** Python's `max` returns one of the items given to it. */
  lemma {:induction false} MaxFromMember(m: Hand, xs: seq<Hand>)
    ensures MaxFrom(m, xs).Success? ==> MaxFrom(m, xs).value == m || MaxFrom(m, xs).value in xs
    decreases |xs|
  {
    if xs != [] {
      MaxFromMember(xs[0], xs[1..]);
      MaxFromMember(m, xs[1..]);
    }
  }

  /** A `get_five_best` that sets `isa` returns a list of cards. */
  predicate ListsWhenQualified(rd: Result<Detection>) {
    rd.Success? && rd.value.isa ==> rd.value.fiveBest.Cards?
  }

  lemma DeclinedUnqualified(k: HandClass, from: Source)
    requires k != HighCard && k != BaseHand
    ensures Declined(k, from).Success? ==> !Declined(k, from).value.isa
  {
  }

  lemma PairLists(origin: Source, cards: seq<Card>)
    ensures ListsWhenQualified(DetectPair(origin, cards))
  {
  }

  lemma TwoPairLists(origin: Source, cards: seq<Card>)
    ensures ListsWhenQualified(DetectTwoPair(origin, cards))
  {
    var mc := MostCommon(Ranks(cards), 2);
    if |mc| == 0 || mc[0].1 != 2 || |mc| < 2 || mc[1].1 != 2 {
      DeclinedUnqualified(TwoPair, origin);
    } else {
      var five := CardsOfRanks(cards, Keys(mc));
      var remaining := Remaining(five, cards);
      assert remaining != [] ==> DetectTwoPair(origin, cards) == Checked(five + [remaining[0]]);
    }
  }


  lemma ThreeLists(origin: Source, cards: seq<Card>)
    ensures ListsWhenQualified(DetectThreeOfAKind(origin, cards))
  {
    DeclinedUnqualified(ThreeOfAKind, origin);
  }

  lemma FourLists(origin: Source, cards: seq<Card>)
    ensures ListsWhenQualified(DetectFourOfAKind(origin, cards))
  {
    DeclinedUnqualified(FourOfAKind, origin);
  }

  lemma FullHouseLists(origin: Source, cards: seq<Card>)
    ensures ListsWhenQualified(DetectFullHouse(origin, cards))
  {
    var mc := MostCommon(Ranks(cards), 2);
    if |mc| == 0 || mc[0].1 != 3 || |mc| < 2 || mc[1].1 != 2 {
      DeclinedUnqualified(FullHouse, origin);
    }
  }


  lemma StraightLists(origin: Source, cards: seq<Card>)
    ensures ListsWhenQualified(DetectStraight(origin, cards))
  {
    DeclinedUnqualified(Straight, if origin.Listed? then Listed(SortAsc(cards)) else origin);
  }

  lemma FlushLists(origin: Source, cards: seq<Card>)
    ensures ListsWhenQualified(DetectFlush(origin, cards))
  {
    DeclinedUnqualified(Flush, origin);
  }

  lemma WithStraightLists(origin: Source, st: Hand)
    ensures ListsWhenQualified(DetectWithStraight(origin, st))
  {
    match NewFlush(origin)
    case Failure(_) =>
    case Success(f) =>
      if !(f.isa && st.isa) {
        DeclinedUnqualified(StraightFlush, origin);
      }
  }

  lemma StraightFlushLists(origin: Source, cards: seq<Card>)
    ensures ListsWhenQualified(DetectStraightFlush(origin))
  {
    match NewStraight(origin)
    case Failure(_) =>
    case Success(st) => WithStraightLists(origin, st);
  }



  lemma RoyalFlushLists(origin: Source, cards: seq<Card>)
    ensures ListsWhenQualified(DetectRoyalFlush(origin, cards))
  {
    var r := DetectRoyalFlush(origin, cards);
    match NewStraightFlush(origin)
    case Failure(_) =>
    case Success(sf) =>
      if !sf.isa {
        DeclinedUnqualified(RoyalFlush, origin);
        assert r == Declined(RoyalFlush, origin);
      }
  }

  /** Every class's constructor that qualifies leaves a list of cards in
      `five_best`. */
  lemma QualifiedScored(k: HandClass, src: Source)
    requires k != BaseHand
    ensures Build(k, src).Success? && Build(k, src).value.isa ==> Scored(Build(k, src).value)
  {
    var origin, cards := Stored(src), Arranged(src);
    match k
    case HighCard =>
    case Pair => PairLists(origin, cards);
    case TwoPair => TwoPairLists(origin, cards);
    case ThreeOfAKind => ThreeLists(origin, cards);
    case FourOfAKind => FourLists(origin, cards);
    case FullHouse => FullHouseLists(origin, cards);
    case Straight => StraightLists(origin, cards);
    case Flush => FlushLists(origin, cards);
    case StraightFlush => StraightFlushLists(origin, cards);
    case RoyalFlush => RoyalFlushLists(origin, cards);
  }

  /** What `eval` returns is a hand `__gt__` can compare with any other
      such hand. */
  lemma EvaluateScored(h: Hand)
    ensures Evaluate(h).Success? ==> Scored(Evaluate(h).value)
  {
    var rs := BuildAll(h.origin, Detectors);
    CollectMembers(rs);
    if Evaluate(h).Success? {
      var qs := Collect(rs).value;
      var m := Evaluate(h).value;
      MaxFromMember(qs[0], qs[1..]);
      if m != qs[0] {
        var j :| 0 <= j < |qs[1..]| && qs[1..][j] == m;
        assert qs[j + 1] == m;
      }
      assert m in qs;
      var i :| 0 <= i < |rs| && rs[i] == Success(m);
      BuildAllAt(h.origin, Detectors, i);
      QualifiedScored(Detectors[i], h.origin);
    }
  }

  /** A seat's result: ValueError unless it holds seven cards, otherwise
      what `eval` returns, which `__gt__` can compare. */
  lemma SeatResultRule(d: Draw)
    ensures |d.hole| + |d.flop| != 5 ==> SeatResult(d) == Failure(ValueError)
    ensures SeatResult(d).Success? ==> Scored(SeatResult(d).value)
  {
    BuildShape(BaseHand, Listed(SeatCards(d)));
    if Build(BaseHand, Listed(SeatCards(d))).Success? {
      EvaluateScored(Build(BaseHand, Listed(SeatCards(d))).value);
    }
  }

  /** Every seat's evaluation that returns gives a scored hand. */
  lemma EvaluationsScored(draws: seq<Draw>)
    ensures forall k :: 0 <= k < |draws| && Evaluations(draws)[k].Success? ==>
      Scored(Evaluations(draws)[k].value)
  {
    forall k | 0 <= k < |draws| && Evaluations(draws)[k].Success?
      ensures Scored(Evaluations(draws)[k].value)
    {
      EvaluationsAt(draws, k);
      SeatResultRule(draws[k]);
    }
  }

  /** The results loop and the comprehension over evaluations that return
      scored hands: see `BestCardsRule`. */
  lemma OutcomeRule(outs: seq<Result<Hand>>)
    requires forall k :: 0 <= k < |outs| && outs[k].Success? ==> Scored(outs[k].value)
    ensures OutcomeOf(outs).Failure? <==> exists k :: 0 <= k < |outs| && outs[k].Failure?
    ensures OutcomeOf(outs).Failure? ==>
      (exists k :: 0 <= k < |outs| && outs[k] == Failure(OutcomeOf(outs).error) &&
        forall j :: 0 <= j < k ==> outs[j].Success?)
    ensures OutcomeOf(outs).Success? ==>
      var (ws, rs) := OutcomeOf(outs).value;
      && |rs| == |outs|
      && (forall k :: 0 <= k < |outs| ==> outs[k] == Success(rs[k]) && Scored(rs[k]))
      && (outs == [] ==> ws == [])
      && (outs != [] ==>
           && PyMax(rs).Success?
           && (forall n :: n in ws <==> 1 <= n <= |rs| && rs[n - 1] == PyMax(rs).value)
           && ws != []
           && forall n, j :: n in ws && 0 <= j < |rs| ==> AtMost(rs[j], rs[n - 1]))
  {
    ResultsSpec(outs);
    if Results(outs).Success? {
      var rs := Results(outs).value;
      if rs != [] {
        forall x | x in rs
          ensures Scored(x)
        {
          var k :| 0 <= k < |rs| && rs[k] == x;
        }
        PyMaxGreatest(rs);
        var m := PyMax(rs).value;
        WinnersSpec(rs, m);
        var k :| 0 <= k < |rs| && rs[k] == m;
        assert k + 1 in Winners(rs, m);
      }
    }
  }

  /** `best_cards`: it raises exactly when some seat's evaluation raises,
      and then raises what the first such seat raised (comparing the
      results never raises). Otherwise the results hold each seat's hand,
      and the winners are exactly the seats whose hand equals the one `max`
      picks: at least one seat when there is any, and no seat's hand ranks
      above a winner's. */
  lemma BestCardsRule(draws: seq<Draw>)
    ensures Outcome(draws).Failure? <==> exists k :: 0 <= k < |draws| && Evaluations(draws)[k].Failure?
    ensures Outcome(draws).Failure? ==>
      (exists k :: 0 <= k < |draws| && Evaluations(draws)[k] == Failure(Outcome(draws).error) &&
        forall j :: 0 <= j < k ==> Evaluations(draws)[j].Success?)
    ensures Outcome(draws).Success? ==>
      var (ws, rs) := Outcome(draws).value;
      && |rs| == |draws|
      && (forall k :: 0 <= k < |draws| ==> Evaluations(draws)[k] == Success(rs[k]) && Scored(rs[k]))
      && (draws == [] ==> ws == [])
      && (draws != [] ==>
           && (forall n :: n in ws <==> 1 <= n <= |rs| && rs[n - 1] == PyMax(rs).value)
           && ws != []
           && forall n, j :: n in ws && 0 <= j < |rs| ==> AtMost(rs[j], rs[n - 1]))
  {
    EvaluationsScored(draws);
    OutcomeRule(Evaluations(draws));
  }

  /** `Hand(all7).eval()` for seat `i + 1`. */
  method EvaluateSeat(draws: seq<Draw>, i: nat) returns (res: Result<Hand>)
    requires i < |draws|
    ensures res == Evaluations(draws)[i]
  {
    EvaluationsAt(draws, i);
    var hand := Evaluator.Make(BaseHand, Listed(SeatCards(draws[i])));
    if hand.Failure? {
      return Failure(hand.error);
    }
    res := Evaluator.Eval(hand.value);
  }

  /** The results loop of `best_cards`. */
  method EvaluateSeats(draws: seq<Draw>) returns (r: Result<seq<Hand>>)
    ensures r == Results(Evaluations(draws))
  {
    ghost var outs := Evaluations(draws);
    var results: seq<Hand> := [];
    for i := 0 to |draws|
      invariant Results(outs[..i]) == Success(results)
    {
      var res := EvaluateSeat(draws, i);
      ResultsSnoc(outs, i);
      if res.Failure? {
        ResultsStop(outs, i + 1);
        return Failure(res.error);
      }
      results := results + [res.value];
    }
    assert outs[..|draws|] == outs;
    return Success(results);
  }

  /** The comprehension of `best_cards`, which calls `max` once per seat. */
  method PickWinners(results: seq<Hand>) returns (r: Result<seq<nat>>)
    ensures r == Pick(results)
  {
    var winners: seq<nat> := [];
    for i := 0 to |results|
      invariant PyMax(results).Success? ==> winners == Winners(results[..i], PyMax(results).value)
      invariant 0 < i ==> PyMax(results).Success?
      invariant i == 0 ==> winners == []
    {
      var top := PyMax(results);
      if top.Failure? {
        return Failure(top.error);
      }
      assert results[..i + 1][..i] == results[..i];
      if results[i] == top.value {
        winners := winners + [i + 1];
      }
    }
    assert results[..|results|] == results;
    if results != [] {
      assert Pick(results) == Success(Winners(results, PyMax(results).value));
    }
    return Success(winners);
  }

  /** The `Table` of game.py, as far as `best_cards` uses it. */
  class Table {
    var num: nat

    /** `Table(num)`. */
    constructor (num: nat)
      ensures this.num == num
    {
      this.num := num;
    }

    /** `best_cards()`, given what each of the `num` seats is dealt: the
        results loop evaluates each seat's seven cards, and the comprehension
        keeps the seats whose result equals `max(results.values())`. The
        results are listed by seat, seat `i` at index `i - 1`. */
    method BestCards(draws: seq<Draw>) returns (r: Result<(seq<nat>, seq<Hand>)>)
      requires |draws| == num
      ensures r == Outcome(draws)
    {
      var results := EvaluateSeats(draws);
      if results.Failure? {
        return Failure(results.error);
      }
      var winners := PickWinners(results.value);
      if winners.Failure? {
        return Failure(winners.error);
      }
      return Success((winners.value, results.value));
    }
  }
}
