/** Generic sequence operations standing for Python built-ins:
    `reversed`, slicing, `set(...)` turned back into a list, `list.remove`
    and `list.insert`. The functions carry no quantified contracts; what
    they compute is stated by the lemmas beside them. */
module Seqs {

  predicate NoDups<T(==)>(s: seq<T>) {
    forall i, j :: 0 <= i < j < |s| ==> s[i] != s[j]
  }

  /** `list(reversed(s))`. */
  function Reverse<T>(s: seq<T>): (r: seq<T>)
    ensures |r| == |s|
  {
    if s == [] then [] else Reverse(s[1..]) + [s[0]]
  }

  lemma {:induction false} ReverseIndex<T>(s: seq<T>)
    ensures forall i :: 0 <= i < |s| ==> Reverse(s)[i] == s[|s| - 1 - i]
  {
    if s != [] {
      ReverseIndex(s[1..]);
    }
  }

  lemma {:induction false} ReverseMultiset<T>(s: seq<T>)
    ensures multiset(Reverse(s)) == multiset(s)
  {
    if s != [] {
      ReverseMultiset(s[1..]);
      assert s == [s[0]] + s[1..];
    }
  }

  /** The slice `s[:n]`, which stops at the end of a shorter list. */
  function Take<T>(s: seq<T>, n: nat): (r: seq<T>)
    ensures |r| == if n <= |s| then n else |s|
    ensures r == s[..|r|]
  {
    if n <= |s| then s[..n] else s
  }

  /** `list(set(s))`. Python does not fix the iteration order of a set; the
      model keeps the first occurrences in their original order. */
  function Dedup<T(==)>(s: seq<T>): seq<T> {
    if s == [] then []
    else
      var d := Dedup(s[..|s| - 1]);
      if s[|s| - 1] in d then d else d + [s[|s| - 1]]
  }

  /** `list(set(s))` holds exactly the members of `s`, each once. */
  lemma {:induction false} DedupSpec<T(!new)>(s: seq<T>)
    ensures forall x :: x in Dedup(s) <==> x in s
    ensures NoDups(Dedup(s))
    ensures |Dedup(s)| <= |s|
  {
    if s != [] {
      var pre := s[..|s| - 1];
      DedupSpec(pre);
      assert s == pre + [s[|s| - 1]];
    }
  }

  /** The kept keys come in order of first occurrence: a key listed before
      another occurs in `s` before any occurrence of the later one. */
  lemma {:induction false} DedupOrder<T(!new)>(s: seq<T>, i: nat, k: nat, q: nat)
    requires i < k < |Dedup(s)| && q < |s| && s[q] == Dedup(s)[k]
    ensures Dedup(s)[i] in s[..q]
  {
    var pre := s[..|s| - 1];
    var d := Dedup(pre);
    DedupSpec(pre);
    if k < |d| {
      assert Dedup(s)[i] == d[i] && Dedup(s)[k] == d[k];
      if q < |pre| {
        DedupOrder(pre, i, k, q);
        assert pre[..q] == s[..q];
      } else {
        assert d[i] in pre;
        assert pre == s[..q];
      }
    } else {
      assert s[|s| - 1] !in d && Dedup(s) == d + [s[|s| - 1]];
      if q < |pre| {
        assert false;
      }
      assert d[i] in pre;
      assert pre == s[..q];
    }
  }

  /** In a duplicate-free list every member occurs once. */
  lemma {:induction false} NoDupsMultiset<T>(s: seq<T>, x: T)
    requires NoDups(s)
    ensures multiset(s)[x] == if x in s then 1 else 0
  {
    if s != [] {
      var pre := s[..|s| - 1];
      assert s == pre + [s[|s| - 1]];
      assert NoDups(pre);
      NoDupsMultiset(pre, x);
    }
  }

  /** A duplicate-free list is no longer than a list containing all its members. */
  lemma NoDupsSubsetLength<T>(a: seq<T>, b: seq<T>)
    requires NoDups(a)
    requires forall x :: x in a ==> x in b
    ensures |a| <= |b|
  {
    var sa := set x | x in a;
    var sb := set x | x in b;
    NoDupsCardinality(a);
    SeqSetCardinality(b);
    assert sa <= sb;
    SubsetCardinality(sa, sb);
  }

  lemma {:induction false} NoDupsCardinality<T>(a: seq<T>)
    requires NoDups(a)
    ensures |set x | x in a| == |a|
  {
    if a != [] {
      var t := a[..|a| - 1];
      var x := a[|a| - 1];
      assert a == t + [x];
      assert NoDups(t);
      NoDupsCardinality(t);
      assert x !in t;
      assert (set y | y in a) == (set y | y in t) + {x};
    }
  }

  lemma {:induction false} SeqSetCardinality<T>(b: seq<T>)
    ensures |set x | x in b| <= |b|
  {
    if b != [] {
      var t := b[..|b| - 1];
      assert b == t + [b[|b| - 1]];
      SeqSetCardinality(t);
      assert (set y | y in b) == (set y | y in t) + {b[|b| - 1]};
    }
  }

  lemma SubsetCardinality<T>(a: set<T>, b: set<T>)
    requires a <= b
    ensures |a| <= |b|
  {
    assert b == a + (b - a);
  }

  /** `list.remove(x)`: drop the first occurrence of `x`. */
  function RemoveFirst<T(==)>(s: seq<T>, x: T): seq<T> {
    if s == [] then []
    else if s[0] == x then s[1..]
    else [s[0]] + RemoveFirst(s[1..], x)
  }

  /** Removing the first occurrence of `x` at position `j`. */
  lemma {:induction false} RemoveFirstAt<T>(s: seq<T>, x: T, j: nat)
    requires j < |s| && s[j] == x && forall i :: 0 <= i < j ==> s[i] != x
    ensures RemoveFirst(s, x) == s[..j] + s[j + 1..]
  {
    if j > 0 {
      RemoveFirstAt(s[1..], x, j - 1);
      assert s[1..][..j - 1] + s[1..][j..] == s[1..j] + s[j + 1..];
      assert s[..j] == [s[0]] + s[1..j];
    }
  }

  /** The index `list.insert(position, x)` uses: a negative position counts
      from the end, and both ends clamp. */
  function InsertIndex(len: nat, position: int): (k: nat)
    ensures k <= len
    ensures 0 <= position <= len ==> k == position
    ensures -(len as int) <= position < 0 ==> k == position + len
    ensures position > len ==> k == len
    ensures position < -(len as int) ==> k == 0
  {
    if position < 0 then (if position + len < 0 then 0 else position + len)
    else if position > len then len
    else position
  }

  /** `list.insert(position, x)`. */
  function Insert<T>(s: seq<T>, position: int, x: T): (r: seq<T>)
    ensures |r| == |s| + 1
  {
    var k := InsertIndex(|s|, position);
    s[..k] + [x] + s[k..]
  }

  /** Dropping the head of a concatenation whose left part is not empty. */
  lemma TailConcat<T>(a: seq<T>, b: seq<T>)
    requires a != []
    ensures (a + b)[0] == a[0] && (a + b)[1..] == a[1..] + b
  {
  }

  /** A member of a prefix sits at some index before its end. */
  lemma PrefixIndex<T>(s: seq<T>, a: T, i: nat) returns (p: nat)
    requires i <= |s| && a in s[..i]
    ensures p < i && s[p] == a
  {
    var pre := s[..i];
    p :| 0 <= p < |pre| && pre[p] == a;
  }

  /** The inserted element sits at the clamped index; the rest is the old list. */
  lemma InsertSpec<T>(s: seq<T>, position: int, x: T)
    ensures Insert(s, position, x)[InsertIndex(|s|, position)] == x
    ensures var k := InsertIndex(|s|, position);
      Insert(s, position, x)[..k] + Insert(s, position, x)[k + 1..] == s
  {
    var k := InsertIndex(|s|, position);
    var r := Insert(s, position, x);
    assert r[..k] == s[..k];
    assert r[k + 1..] == s[k..];
  }
}
