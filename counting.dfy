/** `collections.Counter` over a list of keys, and its `most_common(n)`:
    keys by decreasing count, keys of equal count in order of first
    occurrence. */
module Counting {
  import opened Seqs

  function Count<K(==)>(s: seq<K>, k: K): nat {
    multiset(s)[k]
  }

  /** The position of the first key in `c` of largest count. */
  function LeaderIndex<K(==)>(s: seq<K>, c: seq<K>): (j: nat)
    requires |c| > 0
    ensures j < |c|
  {
    if |c| == 1 then 0
    else
      var j := LeaderIndex(s, c[1..]);
      if Count(s, c[0]) >= Count(s, c[j + 1]) then 0 else j + 1
  }

  /** The leader's count is the largest, and every key before it counts less. */
  lemma {:induction false} LeaderIndexSpec<K>(s: seq<K>, c: seq<K>)
    requires |c| > 0
    ensures forall i :: 0 <= i < |c| ==> Count(s, c[i]) <= Count(s, c[LeaderIndex(s, c)])
    ensures forall i :: 0 <= i < LeaderIndex(s, c) ==> Count(s, c[i]) < Count(s, c[LeaderIndex(s, c)])
  {
    if |c| > 1 {
      LeaderIndexSpec(s, c[1..]);
    }
  }

  /** The `n` leading (key, count) pairs of `Counter(s)` over candidate keys `c`. */
  function Ranked<K(==)>(s: seq<K>, c: seq<K>, n: nat): seq<(K, nat)>
    decreases n
  {
    if n == 0 || c == [] then []
    else
      var j := LeaderIndex(s, c);
      [(c[j], Count(s, c[j]))] + Ranked(s, c[..j] + c[j + 1..], n - 1)
  }

  /** `Counter(s).most_common(n)`. */
  function MostCommon<K(==)>(s: seq<K>, n: nat): seq<(K, nat)> {
    Ranked(s, Dedup(s), n)
  }

  /** `most_common(n)` lists min(n, number of distinct keys) keys with their
      true counts, in non-increasing order of count. */
  lemma {:induction false} RankedSpec<K>(s: seq<K>, c: seq<K>, n: nat)
    ensures |Ranked(s, c, n)| == if n <= |c| then n else |c|
    ensures forall i :: 0 <= i < |Ranked(s, c, n)| ==>
      Ranked(s, c, n)[i].0 in c && Ranked(s, c, n)[i].1 == Count(s, Ranked(s, c, n)[i].0)
    ensures forall i, j :: 0 <= i < j < |Ranked(s, c, n)| ==> Ranked(s, c, n)[i].1 >= Ranked(s, c, n)[j].1
    decreases n
  {
    if n > 0 && c != [] {
      var j := LeaderIndex(s, c);
      var rest := c[..j] + c[j + 1..];
      RankedSpec(s, rest, n - 1);
      LeaderIndexSpec(s, c);
      var tail := Ranked(s, rest, n - 1);
      forall i | 0 <= i < |tail|
        ensures tail[i].0 in c && tail[i].1 <= Count(s, c[j])
      {
        var k :| 0 <= k < |rest| && rest[k] == tail[i].0;
        if k < j {
          assert rest[k] == c[k];
        } else {
          assert rest[k] == c[k + 1];
        }
      }
    }
  }

  /** The leader of keys `c` counts at least as much as every key in `s`
      that `c` lists. */
  lemma LeaderCountsMost<K(!new)>(s: seq<K>, c: seq<K>, k: K)
    requires |c| > 0 && k in c
    ensures Count(s, k) <= Count(s, c[LeaderIndex(s, c)])
  {
    LeaderIndexSpec(s, c);
    var i :| 0 <= i < |c| && c[i] == k;
  }

  /** A key of `list(set(s))` tied with the leader of `list(set(s))` lies after it. */
  lemma LeaderFirst<K(!new)>(s: seq<K>, c: seq<K>, q: nat)
    requires c == Dedup(s) && |c| > 0 && q < |s|
    requires s[q] != c[LeaderIndex(s, c)] && Count(s, s[q]) == Count(s, c[LeaderIndex(s, c)])
    ensures c[LeaderIndex(s, c)] in s[..q]
  {
    DedupSpec(s);
    LeaderIndexSpec(s, c);
    assert s[q] in s;
    var i :| 0 <= i < |c| && c[i] == s[q];
    DedupOrder(s, LeaderIndex(s, c), i, q);
  }

  /** The first entry of `most_common(n)` is a key of largest count; a key
      tied with it occurs in `s` only after its first occurrence. */
  lemma MostCommonFirst<K(!new)>(s: seq<K>, n: nat)
    requires n > 0 && s != []
    ensures var mc := MostCommon(s, n);
      && |mc| > 0
      && mc[0].0 in s && mc[0].1 == Count(s, mc[0].0)
      && (forall k :: Count(s, k) <= mc[0].1)
      && forall q :: 0 <= q < |s| && s[q] != mc[0].0 && Count(s, s[q]) == mc[0].1 ==> mc[0].0 in s[..q]
  {
    DedupSpec(s);
    var c := Dedup(s);
    assert s[0] in c;
    var j := LeaderIndex(s, c);
    var mc := MostCommon(s, n);
    assert mc[0] == (c[j], Count(s, c[j]));
    assert c[j] in c;
    forall k
      ensures Count(s, k) <= mc[0].1
    {
      if k in s {
        LeaderCountsMost(s, c, k);
      }
    }
    forall q | 0 <= q < |s| && s[q] != mc[0].0 && Count(s, s[q]) == mc[0].1
      ensures mc[0].0 in s[..q]
    {
      LeaderFirst(s, c, q);
    }
  }

  /** The keys of `list(set(s))` without the one at `j`, in order. */
  lemma DropKey<K(!new)>(s: seq<K>, j: nat)
    requires j < |Dedup(s)|
    ensures var c := Dedup(s); var rest := c[..j] + c[j + 1..];
      && |rest| == |c| - 1
      && (forall x :: x in s && x != c[j] ==> x in rest)
      && (forall x :: x in rest ==> x in s && x != c[j])
      && forall a, b, q :: 0 <= a < b < |rest| && 0 <= q < |s| && s[q] == rest[b] ==> rest[a] in s[..q]
  {
    DedupSpec(s);
    var c := Dedup(s);
    var rest := c[..j] + c[j + 1..];
    forall x | x in s && x != c[j]
      ensures x in rest
    {
      var i :| 0 <= i < |c| && c[i] == x;
      if i < j {
        assert rest[i] == x;
      } else {
        assert rest[i - 1] == x;
      }
    }
    forall x | x in rest
      ensures x in s && x != c[j]
    {
      var i :| 0 <= i < |rest| && rest[i] == x;
      if i < j {
        assert c[i] == x;
      } else {
        assert c[i + 1] == x;
      }
    }
    forall a, b, q | 0 <= a < b < |rest| && 0 <= q < |s| && s[q] == rest[b]
      ensures rest[a] in s[..q]
    {
      var a' := if a < j then a else a + 1;
      var b' := if b < j then b else b + 1;
      assert rest[a] == c[a'] && rest[b] == c[b'];
      DedupOrder(s, a', b', q);
    }
  }

  /** The second entry of `most_common(n)` is a key of largest count among
      the keys other than the first; ties again go by first occurrence. */
  lemma MostCommonSecond<K(!new)>(s: seq<K>, n: nat)
    requires n > 1 && |Dedup(s)| > 1
    ensures var mc := MostCommon(s, n);
      && |mc| > 1
      && mc[1].0 in s && mc[1].0 != mc[0].0 && mc[1].1 == Count(s, mc[1].0)
      && (forall k :: k != mc[0].0 ==> Count(s, k) <= mc[1].1)
      && forall q :: 0 <= q < |s| && s[q] != mc[0].0 && s[q] != mc[1].0 && Count(s, s[q]) == mc[1].1 ==>
           mc[1].0 in s[..q]
  {
    var c := Dedup(s);
    var j := LeaderIndex(s, c);
    var rest := c[..j] + c[j + 1..];
    DropKey(s, j);
    var j2 := LeaderIndex(s, rest);
    var mc := MostCommon(s, n);
    assert Ranked(s, c, n) == [(c[j], Count(s, c[j]))] + Ranked(s, rest, n - 1);
    assert Ranked(s, rest, n - 1)[0] == (rest[j2], Count(s, rest[j2]));
    assert mc[0].0 == c[j] && mc[1] == (rest[j2], Count(s, rest[j2]));
    assert rest[j2] in rest;
    forall k | k != mc[0].0
      ensures Count(s, k) <= mc[1].1
    {
      if k in s {
        LeaderCountsMost(s, rest, k);
      }
    }
    LeaderIndexSpec(s, rest);
    forall q | 0 <= q < |s| && s[q] != mc[0].0 && s[q] != mc[1].0 && Count(s, s[q]) == mc[1].1
      ensures mc[1].0 in s[..q]
    {
      assert s[q] in s;
      var i :| 0 <= i < |rest| && rest[i] == s[q];
      if i < j2 {
        assert false;
      }
    }
  }

  /** Counts summed over a list of keys. */
  function SumCounts<K(==)>(s: seq<K>, keys: seq<K>): nat {
    if keys == [] then 0 else Count(s, keys[0]) + SumCounts(s, keys[1..])
  }

  lemma {:induction false} SumCountsEmpty<K>(keys: seq<K>)
    ensures SumCounts([], keys) == 0
  {
    if keys != [] {
      SumCountsEmpty(keys[1..]);
    }
  }

  lemma {:induction false} SumCountsAppend<K>(s: seq<K>, y: K, keys: seq<K>)
    requires NoDups(keys)
    ensures SumCounts(s + [y], keys) == SumCounts(s, keys) + (if y in keys then 1 else 0)
  {
    if keys != [] {
      assert NoDups(keys[1..]);
      SumCountsAppend(s, y, keys[1..]);
      assert multiset(s + [y]) == multiset(s) + multiset{y};
      assert y in keys <==> y == keys[0] || y in keys[1..];
    }
  }

  /** Over duplicate-free keys that cover the list, the counts add up to its length. */
  lemma {:induction false} SumCountsCover<K>(s: seq<K>, keys: seq<K>)
    requires NoDups(keys)
    requires forall x :: x in s ==> x in keys
    ensures SumCounts(s, keys) == |s|
  {
    if s == [] {
      SumCountsEmpty(keys);
    } else {
      var t := s[..|s| - 1];
      assert s == t + [s[|s| - 1]];
      SumCountsCover(t, keys);
      SumCountsAppend(t, s[|s| - 1], keys);
    }
  }

  lemma {:induction false} SumCountsBound<K>(s: seq<K>, keys: seq<K>, m: nat)
    requires forall k :: k in keys ==> Count(s, k) <= m
    ensures SumCounts(s, keys) <= m * |keys|
  {
    if keys != [] {
      SumCountsBound(s, keys[1..], m);
    }
  }

  /** Pigeonhole: when no key occurs more than `m` times, there are at least
      `|s| / m` distinct keys. */
  lemma PigeonHole<K(!new)>(s: seq<K>, m: nat)
    requires forall x :: x in s ==> Count(s, x) <= m
    ensures |s| <= m * |Dedup(s)|
  {
    DedupSpec(s);
    SumCountsCover(s, Dedup(s));
    SumCountsBound(s, Dedup(s), m);
  }
}
