/** Collection operations the app performs through Kotlin's List API and SQL:
    filter, ORDER BY on one integer column, remove-first, take, and sums over the
    documents of a keyed collection. */
module Seqs {

  /** List.filter: keeps the elements satisfying `p`, in their order. */
  function Filter<T(!new)>(s: seq<T>, p: T -> bool): (r: seq<T>)
    ensures |r| <= |s|
    ensures forall i :: 0 <= i < |r| ==> r[i] in s && p(r[i])
    ensures forall i :: 0 <= i < |s| && p(s[i]) ==> s[i] in r
    ensures multiset(r) <= multiset(s)
    ensures forall x :: x in r <==> x in s && p(x)
  {
    if s == [] then []
    else
      assert s == [s[0]] + s[1..];
      if p(s[0]) then [s[0]] + Filter(s[1..], p) else Filter(s[1..], p)
  }

  /** Filtering splits a sequence: what `p` keeps plus what its complement `q` keeps
      is all of it. */
  lemma {:induction false} FilterSplit<T(!new)>(s: seq<T>, p: T -> bool, q: T -> bool)
    requires forall x :: q(x) == !p(x)
    ensures multiset(Filter(s, p)) + multiset(Filter(s, q)) == multiset(s)
  {
    if s != [] {
      var x, rest := s[0], s[1..];
      FilterSplit(rest, p, q);
      assert multiset(s) == multiset{x} + multiset(rest) by {
        assert s == [x] + rest;
      }
      FilterStep(s, p);
      FilterStep(s, q);
      SplitStep(x, p(x), q(x), multiset(Filter(rest, p)), multiset(Filter(rest, q)),
                multiset(Filter(s, p)), multiset(Filter(s, q)));
    }
  }

  /** The counting step of FilterSplit: `x` goes to exactly one side. */
  lemma SplitStep<T>(x: T, inP: bool, inQ: bool, kept: multiset<T>, dropped: multiset<T>, kept': multiset<T>, dropped': multiset<T>)
    requires inQ == !inP
    requires kept' == (if inP then multiset{x} else multiset{}) + kept
    requires dropped' == (if inQ then multiset{x} else multiset{}) + dropped
    ensures kept' + dropped' == multiset{x} + (kept + dropped)
  {
  }

  /** Filter keeps every copy of an element `p` accepts and no copy of any other. */
  lemma FilterMultiplicities<T(!new)>(s: seq<T>, p: T -> bool)
    ensures forall x :: multiset(Filter(s, p))[x] == if p(x) then multiset(s)[x] else 0
  {
    forall x {
      FilterMultiplicity(s, p, x);
    }
  }

  lemma {:induction false} FilterMultiplicity<T(!new)>(s: seq<T>, p: T -> bool, x: T)
    ensures multiset(Filter(s, p))[x] == if p(x) then multiset(s)[x] else 0
  {
    if s != [] {
      FilterMultiplicity(s[1..], p, x);
      FilterStep(s, p);
      assert multiset(s) == multiset{s[0]} + multiset(s[1..]) by {
        assert s == [s[0]] + s[1..];
      }
    }
  }

  /** One step of Filter, counted as a multiset. */
  lemma FilterStep<T(!new)>(s: seq<T>, p: T -> bool)
    requires s != []
    ensures multiset(Filter(s, p)) == (if p(s[0]) then multiset{s[0]} else multiset{}) + multiset(Filter(s[1..], p))
  {
    if p(s[0]) {
      assert Filter(s, p) == [s[0]] + Filter(s[1..], p);
    }
  }

  /** `r` keeps a selection of the elements of `s`, in their original order. */
  predicate IsSubsequence<T(==)>(r: seq<T>, s: seq<T>)
    decreases |s|
  {
    r == [] || (s != [] && ((r[0] == s[0] && IsSubsequence(r[1..], s[1..])) || IsSubsequence(r, s[1..])))
  }

  lemma {:induction false} FilterIsSubsequence<T(!new)>(s: seq<T>, p: T -> bool)
    ensures IsSubsequence(Filter(s, p), s)
  {
    if s != [] {
      FilterIsSubsequence(s[1..], p);
      if p(s[0]) {
        assert Filter(s, p)[1..] == Filter(s[1..], p);
      }
    }
  }

  /** Every sequence is a subsequence of itself. */
  lemma {:induction false} SubsequenceOfItself<T>(s: seq<T>)
    ensures IsSubsequence(s, s)
  {
    if s != [] {
      SubsequenceOfItself(s[1..]);
    }
  }

  /** Whether `a` may stand before `b` when ordering by `key` (ascending or descending). */
  predicate Before<T>(a: T, b: T, key: T -> int, asc: bool) {
    if asc then key(a) <= key(b) else key(a) >= key(b)
  }

  /** ORDER BY key ASC / DESC holds of `s`. */
  predicate SortedBy<T>(s: seq<T>, key: T -> int, asc: bool) {
    forall i, j :: 0 <= i < j < |s| ==> Before(s[i], s[j], key, asc)
  }

  /** In a sorted sequence the head may stand before everything after it, and the
      tail is sorted too. */
  lemma SortedHeadAndTail<T>(s: seq<T>, key: T -> int, asc: bool)
    requires s != [] && SortedBy(s, key, asc)
    ensures forall x :: x in s[1..] ==> Before(s[0], x, key, asc)
    ensures SortedBy(s[1..], key, asc)
  {
    forall x | x in s[1..]
      ensures Before(s[0], x, key, asc)
    {
      var k :| 0 <= k < |s[1..]| && s[1..][k] == x;
      assert s[k + 1] == x;
    }
  }

  /** Filtering a sorted sequence leaves it sorted. */
  lemma {:induction false} FilterKeepsSorted<T(!new)>(s: seq<T>, p: T -> bool, key: T -> int, asc: bool)
    requires SortedBy(s, key, asc)
    ensures SortedBy(Filter(s, p), key, asc)
  {
    if s != [] {
      SortedHeadAndTail(s, key, asc);
      FilterKeepsSorted(s[1..], p, key, asc);
      var rest := Filter(s[1..], p);
      if p(s[0]) {
        var r := Filter(s, p);
        assert r == [s[0]] + rest;
        assert forall x :: x in rest ==> x in s[1..];
      }
    }
  }

  function Insert<T>(x: T, s: seq<T>, key: T -> int, asc: bool): (r: seq<T>)
    requires SortedBy(s, key, asc)
    ensures SortedBy(r, key, asc)
    ensures multiset(r) == multiset(s) + multiset{x}
  {
    if s == [] || Before(x, s[0], key, asc) then
      [x] + s
    else
      var rest := Insert(x, s[1..], key, asc);
      assert s == [s[0]] + s[1..];
      InsertBehindHead(x, s, rest, key, asc);
      [s[0]] + rest
  }

  /** When `x` does not go first, the head still stands before the tail with `x`
      inserted. */
  lemma InsertBehindHead<T>(x: T, s: seq<T>, rest: seq<T>, key: T -> int, asc: bool)
    requires s != [] && SortedBy(s, key, asc) && !Before(x, s[0], key, asc)
    requires SortedBy(rest, key, asc) && multiset(rest) == multiset(s[1..]) + multiset{x}
    ensures SortedBy([s[0]] + rest, key, asc)
  {
    SortedHeadAndTail(s, key, asc);
    forall j | 0 <= j < |rest|
      ensures Before(s[0], rest[j], key, asc)
    {
      assert rest[j] in multiset(rest);
      if rest[j] != x {
        assert rest[j] in multiset(s[1..]);
      }
    }
    var r := [s[0]] + rest;
    forall i, j | 0 <= i < j < |r|
      ensures Before(r[i], r[j], key, asc)
    {
      assert r[j] == rest[j - 1];
      if i > 0 {
        assert r[i] == rest[i - 1];
      }
    }
  }

  /** The ordering a query's ORDER BY clause produces: a sorted permutation. */
  function SortBy<T(!new)>(s: seq<T>, key: T -> int, asc: bool): (r: seq<T>)
    ensures SortedBy(r, key, asc)
    ensures multiset(r) == multiset(s)
    ensures forall x :: x in r <==> x in s
  {
    if s == [] then []
    else
      assert s == [s[0]] + s[1..];
      var r := Insert(s[0], SortBy(s[1..], key, asc), key, asc);
      SameMembers(r, s);
      r
  }

  /** Sequences holding the same multiset have the same members. */
  lemma SameMembers<T>(a: seq<T>, b: seq<T>)
    requires multiset(a) == multiset(b)
    ensures forall x :: x in a <==> x in b
  {
    forall x ensures x in a <==> x in b {
      assert x in a <==> x in multiset(a);
      assert x in b <==> x in multiset(b);
    }
  }

  lemma SortByLength<T(!new)>(s: seq<T>, key: T -> int, asc: bool)
    ensures |SortBy(s, key, asc)| == |s|
  {
    assert |multiset(SortBy(s, key, asc))| == |multiset(s)|;
  }

  /** List.remove(x): drops the first occurrence of `x`, if any. */
  function RemoveFirst<T(==)>(s: seq<T>, x: T): (r: seq<T>)
    ensures x !in s ==> r == s
    ensures x in s ==> |r| == |s| - 1 && multiset(r) == multiset(s) - multiset{x}
  {
    if s == [] then []
    else
      assert s == [s[0]] + s[1..];
      if s[0] == x then s[1..] else [s[0]] + RemoveFirst(s[1..], x)
  }

  /** Removing an element that was appended to a list not holding it gives the list back. */
  lemma {:induction false} RemoveFirstAppended<T>(s: seq<T>, x: T)
    requires x !in s
    ensures RemoveFirst(s + [x], x) == s
  {
    if s != [] {
      assert (s + [x])[1..] == s[1..] + [x];
      RemoveFirstAppended(s[1..], x);
    }
  }

  /** When `x` was already present, appending and removing it moves it to the end. */
  lemma {:induction false} RemoveFirstAppendedPresent<T>(s: seq<T>, x: T)
    requires x in s
    ensures RemoveFirst(s + [x], x) == RemoveFirst(s, x) + [x]
  {
    if s[0] != x {
      assert (s + [x])[1..] == s[1..] + [x];
      RemoveFirstAppendedPresent(s[1..], x);
    }
  }

  predicate Distinct<T(==)>(s: seq<T>) {
    forall i, j :: 0 <= i < j < |s| ==> s[i] != s[j]
  }

  lemma {:induction false} RemoveFirstKeepsDistinct<T>(s: seq<T>, x: T)
    requires Distinct(s)
    ensures Distinct(RemoveFirst(s, x)) && x !in RemoveFirst(s, x)
  {
    if s != [] && s[0] != x {
      RemoveFirstKeepsDistinct(s[1..], x);
      var r := RemoveFirst(s, x);
      assert r == [s[0]] + RemoveFirst(s[1..], x);
      assert s[0] !in RemoveFirst(s[1..], x) by {
        assert multiset(RemoveFirst(s[1..], x)) <= multiset(s[1..]);
        assert s[0] !in s[1..];
      }
    }
  }

  /** List.take(n). */
  function Take<T>(s: seq<T>, n: nat): (r: seq<T>)
    ensures |r| == if |s| < n then |s| else n
    ensures r <= s
  {
    if |s| <= n then s else s[..n]
  }

  /** Some enumeration of the keys of a keyed collection, each exactly once, in no
      particular order (the order a document snapshot or a table scan yields). */
  method KeysOf<K, V>(m: map<K, V>) returns (ks: seq<K>)
    ensures Distinct(ks)
    ensures forall k :: k in ks <==> k in m
    ensures |ks| == |m|
  {
    ks := [];
    var rest := m.Keys;
    while rest != {}
      invariant rest <= m.Keys
      invariant Distinct(ks)
      invariant forall k :: k in ks <==> k in m && k !in rest
      invariant |ks| + |rest| == |m|
      decreases |rest|
    {
      var k :| k in rest;
      ks := ks + [k];
      rest := rest - {k};
    }
  }

  /** The documents stored under the keys `ks`, in that order. */
  function ValuesAlong<K, V>(m: map<K, V>, ks: seq<K>): (vs: seq<V>)
    requires forall k :: k in ks ==> k in m
    ensures |vs| == |ks|
    ensures forall i :: 0 <= i < |ks| ==> vs[i] == m[ks[i]]
  {
    if ks == [] then [] else [m[ks[0]]] + ValuesAlong(m, ks[1..])
  }

  lemma ValuesAlongCovers<K, V>(m: map<K, V>, ks: seq<K>)
    requires forall k :: k in ks <==> k in m
    ensures forall v :: v in ValuesAlong(m, ks) <==> v in m.Values
  {
    var vs := ValuesAlong(m, ks);
    forall v | v in m.Values ensures v in vs {
      var k :| k in m && m[k] == v;
      var i :| 0 <= i < |ks| && ks[i] == k;
      assert vs[i] == v;
    }
  }

  /** Sum of `f` over a sequence of documents. */
  function SumSeq<V>(vs: seq<V>, f: V -> int): int {
    if vs == [] then 0 else f(vs[0]) + SumSeq(vs[1..], f)
  }

  /** Sum of `f` over the documents of `m` stored under the keys `ks`, taken in an
      arbitrary order; SumOverRemove shows the order does not matter. */
  ghost function SumOver<K, V>(m: map<K, V>, ks: set<K>, f: V -> int): int
    requires ks <= m.Keys
    decreases |ks|
  {
    if ks == {} then 0
    else
      var k :| k in ks;
      f(m[k]) + SumOver(m, ks - {k}, f)
  }

  /** Any key can be taken out first. */
  lemma {:induction false} SumOverRemove<K, V>(m: map<K, V>, ks: set<K>, f: V -> int, k: K)
    requires ks <= m.Keys && k in ks
    ensures SumOver(m, ks, f) == f(m[k]) + SumOver(m, ks - {k}, f)
    decreases |ks|
  {
    var j :| j in ks && SumOver(m, ks, f) == f(m[j]) + SumOver(m, ks - {j}, f);
    if j != k {
      SumOverRemove(m, ks - {j}, f, k);
      SumOverRemove(m, ks - {k}, f, j);
      assert ks - {j} - {k} == ks - {k} - {j};
    }
  }

  /** Summing along an enumeration of the keys gives the order-free sum. */
  lemma {:induction false} SumAlongKeys<K, V>(m: map<K, V>, ks: seq<K>, f: V -> int)
    requires Distinct(ks) && forall k :: k in ks ==> k in m
    ensures SumSeq(ValuesAlong(m, ks), f) == SumOver(m, (set k | k in ks), f)
  {
    if ks != [] {
      var all := set k | k in ks;
      var rest := set k | k in ks[1..];
      assert ks[0] !in ks[1..];
      assert rest == all - {ks[0]};
      SumAlongKeys(m, ks[1..], f);
      SumOverRemove(m, all, f, ks[0]);
    }
  }

  /** Adding a document under a new key adds its contribution to the sum. */
  lemma SumOverAdd<K, V>(m: map<K, V>, k: K, v: V, f: V -> int)
    requires k !in m
    ensures SumOver(m[k := v], m.Keys + {k}, f) == f(v) + SumOver(m, m.Keys, f)
  {
    var m' := m[k := v];
    SumOverRemove(m', m.Keys + {k}, f, k);
    assert m.Keys + {k} - {k} == m.Keys;
    SumOverSameValues(m', m, m.Keys, f);
  }

  /** The sum depends only on the documents under the keys summed. */
  lemma {:induction false} SumOverSameValues<K, V>(m: map<K, V>, m': map<K, V>, ks: set<K>, f: V -> int)
    requires ks <= m.Keys && ks <= m'.Keys
    requires forall k :: k in ks ==> m[k] == m'[k]
    ensures SumOver(m, ks, f) == SumOver(m', ks, f)
    decreases |ks|
  {
    if ks != {} {
      var k :| k in ks;
      SumOverRemove(m, ks, f, k);
      SumOverRemove(m', ks, f, k);
      SumOverSameValues(m, m', ks - {k}, f);
    }
  }

  /** A sum of non-negative contributions is non-negative. */
  lemma {:induction false} SumOverNonNegative<K, V>(m: map<K, V>, ks: set<K>, f: V -> int)
    requires ks <= m.Keys
    requires forall k :: k in ks ==> f(m[k]) >= 0
    ensures SumOver(m, ks, f) >= 0
    decreases |ks|
  {
    if ks != {} {
      var k :| k in ks;
      SumOverRemove(m, ks, f, k);
      SumOverNonNegative(m, ks - {k}, f);
    }
  }

  /** Keys whose documents contribute nothing can be dropped from the sum. */
  lemma {:induction false} SumOverZeros<K, V>(m: map<K, V>, ks: set<K>, f: V -> int)
    requires ks <= m.Keys
    requires forall k :: k in ks ==> f(m[k]) == 0
    ensures SumOver(m, ks, f) == 0
    decreases |ks|
  {
    if ks != {} {
      var k :| k in ks;
      SumOverRemove(m, ks, f, k);
      SumOverZeros(m, ks - {k}, f);
    }
  }
}
