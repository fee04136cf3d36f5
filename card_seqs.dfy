/** Lists of cards: `sorted`, `list(reversed(sorted(...)))`, the filters the
    detectors write as loops, and what it means to be the `k` best cards of
    a pool. */
module CardSeqs {
  import opened Seqs
  import opened Cards

  predicate Ascending(s: seq<Card>) {
    forall i, j :: 0 <= i < j < |s| ==> CardIr(s[i]) <= CardIr(s[j])
  }

  predicate Descending(s: seq<Card>) {
    forall i, j :: 0 <= i < j < |s| ==> CardIr(s[i]) >= CardIr(s[j])
  }

  /** One step of a stable sort driven by `<`: `x` goes in front of the first
      card that is not less than it. */
  function InsertAsc(x: Card, t: seq<Card>): (r: seq<Card>)
    ensures |r| == |t| + 1
  {
    if t == [] then [x]
    else if CardIr(x) <= CardIr(t[0]) then [x] + t
    else [t[0]] + InsertAsc(x, t[1..])
  }

  lemma {:induction false} InsertAscMultiset(x: Card, t: seq<Card>)
    ensures multiset(InsertAsc(x, t)) == multiset(t) + multiset{x}
  {
    if t != [] && CardIr(x) > CardIr(t[0]) {
      InsertAscMultiset(x, t[1..]);
      assert t == [t[0]] + t[1..];
    }
  }

  lemma {:induction false} InsertAscMembers(x: Card, t: seq<Card>)
    ensures forall y :: y in InsertAsc(x, t) ==> y == x || y in t
  {
    if t != [] && CardIr(x) > CardIr(t[0]) {
      InsertAscMembers(x, t[1..]);
    }
  }

  lemma {:induction false} InsertAscAscending(x: Card, t: seq<Card>)
    requires Ascending(t)
    ensures Ascending(InsertAsc(x, t))
  {
    if t != [] && CardIr(x) > CardIr(t[0]) {
      var rest := InsertAsc(x, t[1..]);
      assert Ascending(t[1..]);
      InsertAscAscending(x, t[1..]);
      InsertAscMembers(x, t[1..]);
      assert forall k :: 0 <= k < |rest| ==> CardIr(t[0]) <= CardIr(rest[k]) by {
        forall k | 0 <= k < |rest|
          ensures CardIr(t[0]) <= CardIr(rest[k])
        {
          assert rest[k] in rest;
        }
      }
      var r := [t[0]] + rest;
      assert forall i :: 0 < i < |r| ==> r[i] == rest[i - 1];
    }
  }

  /** `sorted(s)`: ascending by internal rank, cards of equal rank keeping
      their relative order. */
  function SortAsc(s: seq<Card>): (r: seq<Card>)
    ensures |r| == |s|
  {
    if s == [] then [] else InsertAsc(s[0], SortAsc(s[1..]))
  }

  /** `sorted` returns an ascending permutation of its argument. */
  lemma {:induction false} SortAscSpec(s: seq<Card>)
    ensures multiset(SortAsc(s)) == multiset(s)
    ensures Ascending(SortAsc(s))
  {
    if s != [] {
      SortAscSpec(s[1..]);
      InsertAscMultiset(s[0], SortAsc(s[1..]));
      InsertAscAscending(s[0], SortAsc(s[1..]));
      assert s == [s[0]] + s[1..];
    }
  }

  /** `list(reversed(sorted(s)))`: descending by internal rank. */
  function SortDesc(s: seq<Card>): (r: seq<Card>)
    ensures |r| == |s|
  {
    Reverse(SortAsc(s))
  }

  /** `list(reversed(sorted(s)))` is a descending permutation of `s`. */
  lemma SortDescSpec(s: seq<Card>)
    ensures multiset(SortDesc(s)) == multiset(s)
    ensures Descending(SortDesc(s))
  {
    SortAscSpec(s);
    ReverseMultiset(SortAsc(s));
    ReverseIndex(SortAsc(s));
  }

  /** `[i.rank for i in cards]`. */
  function Ranks(s: seq<Card>): (r: seq<Rank>)
    ensures |r| == |s|
  {
    if s == [] then [] else Ranks(s[..|s| - 1]) + [s[|s| - 1].rank]
  }

  lemma {:induction false} RanksIndex(s: seq<Card>)
    ensures forall i :: 0 <= i < |s| ==> Ranks(s)[i] == s[i].rank
  {
    if s != [] {
      RanksIndex(s[..|s| - 1]);
    }
  }

  /** `[i.suit for i in cards]`. */
  function Suits(s: seq<Card>): (r: seq<Suit>)
    ensures |r| == |s|
  {
    if s == [] then [] else Suits(s[..|s| - 1]) + [s[|s| - 1].suit]
  }

  lemma {:induction false} SuitsIndex(s: seq<Card>)
    ensures forall i :: 0 <= i < |s| ==> Suits(s)[i] == s[i].suit
  {
    if s != [] {
      SuitsIndex(s[..|s| - 1]);
    }
  }

  /** `[i.internal_rank for i in cards]`. */
  function Irs(s: seq<Card>): (r: seq<nat>)
    ensures |r| == |s|
  {
    if s == [] then [] else Irs(s[..|s| - 1]) + [CardIr(s[|s| - 1])]
  }

  lemma {:induction false} IrsIndex(s: seq<Card>)
    ensures forall i :: 0 <= i < |s| ==> Irs(s)[i] == CardIr(s[i])
  {
    if s != [] {
      IrsIndex(s[..|s| - 1]);
    }
  }

  /** The cards of `s` of rank `r`, in order: the loop
      `for card in cards: if card.rank is rank: five_best.append(card)`. */
  function WithRank(s: seq<Card>, r: Rank): (f: seq<Card>)
    ensures |f| <= |s|
  {
    if s == [] then []
    else WithRank(s[..|s| - 1], r) + (if s[|s| - 1].rank == r then [s[|s| - 1]] else [])
  }

  /** The cards of `s` of suit `st`, in order. */
  function WithSuit(s: seq<Card>, st: Suit): (f: seq<Card>)
    ensures |f| <= |s|
  {
    if s == [] then []
    else WithSuit(s[..|s| - 1], st) + (if s[|s| - 1].suit == st then [s[|s| - 1]] else [])
  }

  /** `sum([i.internal_rank for i in cards])`. */
  function IrSum(s: seq<Card>): nat {
    if s == [] then 0 else IrSum(s[..|s| - 1]) + CardIr(s[|s| - 1])
  }

  /** `pick` is a descending choice of `k` cards out of `pool` such that no
      card left in the pool outranks a chosen one: the `k` best cards. */
  predicate TopOf(pick: seq<Card>, pool: multiset<Card>, k: nat) {
    && |pick| == k
    && Descending(pick)
    && multiset(pick) <= pool
    && forall c, x :: c in pool && multiset(pick)[c] < pool[c] && x in pick ==> CardIr(c) <= CardIr(x)
  }

  /** The first `k` cards of a descending list are its `k` best cards. */
  lemma TopOfPrefix(t: seq<Card>, k: nat)
    requires Descending(t) && k <= |t|
    ensures TopOf(t[..k], multiset(t), k)
  {
    assert t == t[..k] + t[k..];
    forall c, x | c in multiset(t) && multiset(t[..k])[c] < multiset(t)[c] && x in t[..k]
      ensures CardIr(c) <= CardIr(x)
    {
      assert c in t[k..];
      var j :| k <= j < |t| && t[j] == c;
      var i :| 0 <= i < k && t[i] == x;
    }
  }

  /** Being the `k` best cards depends on their multiset and their order only,
      so re-sorting a choice keeps it one. */
  lemma TopOfResorted(pick: seq<Card>, pool: multiset<Card>, k: nat)
    requires TopOf(pick, pool, k)
    ensures TopOf(SortDesc(pick), pool, k)
  {
    var q := SortDesc(pick);
    SortDescSpec(pick);
    forall c, x | c in pool && multiset(q)[c] < pool[c] && x in q
      ensures CardIr(c) <= CardIr(x)
    {
      assert x in multiset(q);
    }
  }

  /** `list(reversed(sorted(s)))[:k]` is the `k` best cards of `s`. */
  lemma TopOfSortDesc(s: seq<Card>, k: nat)
    requires k <= |s|
    ensures TopOf(Take(SortDesc(s), k), multiset(s), k)
  {
    SortDescSpec(s);
    TopOfPrefix(SortDesc(s), k);
  }

  /** The filter keeps every card of rank `r`, as often as it occurs, and nothing else. */
  lemma {:induction false} WithRankMultiset(s: seq<Card>, r: Rank, c: Card)
    ensures multiset(WithRank(s, r))[c] == if c.rank == r then multiset(s)[c] else 0
  {
    if s != [] {
      assert s == s[..|s| - 1] + [s[|s| - 1]];
      WithRankMultiset(s[..|s| - 1], r, c);
    }
  }

  /** The filter keeps every card of suit `st`, as often as it occurs, and nothing else. */
  lemma {:induction false} WithSuitMultiset(s: seq<Card>, st: Suit, c: Card)
    ensures multiset(WithSuit(s, st))[c] == if c.suit == st then multiset(s)[c] else 0
  {
    if s != [] {
      assert s == s[..|s| - 1] + [s[|s| - 1]];
      WithSuitMultiset(s[..|s| - 1], st, c);
    }
  }

  /** A card no higher than any before it extends a descending list. */
  lemma DescendingSnoc(t: seq<Card>, x: Card)
    requires Descending(t)
    requires forall c :: c in t ==> CardIr(c) >= CardIr(x)
    ensures Descending(t + [x])
  {
    forall i, j | 0 <= i < j < |t + [x]|
      ensures CardIr((t + [x])[i]) >= CardIr((t + [x])[j])
    {
      assert (t + [x])[i] == t[i];
      if j < |t| {
        assert (t + [x])[j] == t[j];
      }
    }
  }

  /** Filtering a descending list keeps it descending. */
  lemma {:induction false} WithSuitDescending(s: seq<Card>, st: Suit)
    requires Descending(s)
    ensures Descending(WithSuit(s, st))
  {
    if s != [] {
      var pre := s[..|s| - 1];
      assert Descending(pre);
      WithSuitDescending(pre, st);
      var last := s[|s| - 1];
      forall c | c in WithSuit(pre, st)
        ensures CardIr(c) >= CardIr(last)
      {
        WithSuitMultiset(pre, st, c);
        assert c in multiset(pre);
      }
      if last.suit == st {
        DescendingSnoc(WithSuit(pre, st), last);
      }
    }
  }

  lemma {:induction false} WithRankDescending(s: seq<Card>, r: Rank)
    requires Descending(s)
    ensures Descending(WithRank(s, r))
  {
    if s != [] {
      var pre := s[..|s| - 1];
      assert Descending(pre);
      WithRankDescending(pre, r);
      var last := s[|s| - 1];
      forall c | c in WithRank(pre, r)
        ensures CardIr(c) >= CardIr(last)
      {
        WithRankMultiset(pre, r, c);
        assert c in multiset(pre);
      }
      if last.rank == r {
        DescendingSnoc(WithRank(pre, r), last);
      }
    }
  }

  /** In descending cards a rank seen before position `i` is at least as high. */
  lemma EarlierHigher(cards: seq<Card>, a: Rank, i: nat)
    requires Descending(cards) && i < |cards| && a in Ranks(cards)[..i]
    ensures Ir(cards[i].rank) <= Ir(a)
  {
    var p := PrefixIndex(Ranks(cards), a, i);
    RanksIndex(cards);
    assert CardIr(cards[p]) >= CardIr(cards[i]);
  }
}
