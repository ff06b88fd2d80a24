/** Generic sequence operations that the content store is built from:
    JavaScript's `Array.prototype.filter`, a stable `sort` by an integer key,
    and the facts about them that the store's contracts rely on. */
module Seqs {

  /** `s.filter(p)`: the elements of `s` that satisfy `p`, in their order. */
  function Filter<T(!new)>(s: seq<T>, p: T -> bool): (r: seq<T>)
    ensures |r| <= |s|
    ensures forall x {:trigger multiset(r)[x]} :: multiset(r)[x] == if p(x) then multiset(s)[x] else 0
    ensures forall x :: x in r <==> x in s && p(x)
  {
    if s == [] then []
    else
      var rest := Filter(s[1..], p);
      assert s == [s[0]] + s[1..];
      assert multiset(s) == multiset{s[0]} + multiset(s[1..]);
      if p(s[0]) then [s[0]] + rest else rest
  }

  /** `r` is obtained from `s` by deleting elements, the rest keeping their order. */
  predicate IsSubsequence<T(==)>(r: seq<T>, s: seq<T>)
    decreases |s|
  {
    if r == [] then true
    else if s == [] then false
    else (r[0] == s[0] && IsSubsequence(r[1..], s[1..])) || IsSubsequence(r, s[1..])
  }

  lemma {:induction false} FilterIsSubsequence<T(!new)>(s: seq<T>, p: T -> bool)
    ensures IsSubsequence(Filter(s, p), s)
  {
    if s != [] {
      FilterIsSubsequence(s[1..], p);
    }
  }

  lemma {:induction false} IsSubsequenceRefl<T>(s: seq<T>)
    ensures IsSubsequence(s, s)
  {
    if s != [] {
      IsSubsequenceRefl(s[1..]);
    }
  }

  lemma {:induction false} FilterAll<T(!new)>(s: seq<T>, p: T -> bool)
    requires forall x :: x in s ==> p(x)
    ensures Filter(s, p) == s
  {
    if s != [] {
      FilterAll(s[1..], p);
    }
  }

  lemma {:induction false} FilterNone<T(!new)>(s: seq<T>, p: T -> bool)
    requires forall x :: x in s ==> !p(x)
    ensures Filter(s, p) == []
  {
    if s != [] {
      FilterNone(s[1..], p);
    }
  }

  lemma {:induction false} FilterAppend<T(!new)>(s: seq<T>, t: seq<T>, p: T -> bool)
    ensures Filter(s + t, p) == Filter(s, p) + Filter(t, p)
  {
    if s == [] {
      assert s + t == t;
    } else {
      assert (s + t)[1..] == s[1..] + t;
      FilterAppend(s[1..], t, p);
    }
  }

  /** Filtering twice is filtering once by both predicates. */
  lemma {:induction false} FilterFilter<T(!new)>(s: seq<T>, p: T -> bool, q: T -> bool, pq: T -> bool)
    requires forall x :: pq(x) == (p(x) && q(x))
    ensures Filter(Filter(s, p), q) == Filter(s, pq)
  {
    if s != [] {
      FilterFilter(s[1..], p, q, pq);
    }
  }

  /** `s.slice(0, n)` for a non-negative `n`: the first `min(n, |s|)` elements. */
  function Take<T>(s: seq<T>, n: nat): (r: seq<T>)
    ensures |r| == if n < |s| then n else |s|
    ensures forall i :: 0 <= i < |r| ==> r[i] == s[i]
  {
    if n < |s| then s[..n] else s
  }

  // ---------------------------------------------------------------------------
  // Stable sorting by an integer key (ECMAScript 2019 requires `sort` to be
  // stable). A descending sort is an ascending sort by the negated key.
  // ---------------------------------------------------------------------------

  /** The keys of `s` never decrease. */
  ghost predicate Ascending<T>(s: seq<T>, key: T -> int)
  {
    forall i, j :: 0 <= i < j < |s| ==> key(s[i]) <= key(s[j])
  }

  /** The elements of `s` whose key is `k`, in their order. Stability of a
      sort means each of these classes keeps its order. */
  function WithKey<T>(s: seq<T>, key: T -> int, k: int): seq<T>
  {
    if s == [] then []
    else (if key(s[0]) == k then [s[0]] else []) + WithKey(s[1..], key, k)
  }

  /** Place `x` in front of the first element whose key is not below its own. */
  function Insert<T>(x: T, t: seq<T>, key: T -> int): (r: seq<T>)
    ensures |r| == |t| + 1
    ensures multiset(r) == multiset(t) + multiset{x}
  {
    if t == [] then [x]
    else if key(x) <= key(t[0]) then [x] + t
    else
      assert t == [t[0]] + t[1..];
      [t[0]] + Insert(x, t[1..], key)
  }

  /** An element no larger than the head of an ascending sequence can go in front of it. */
  lemma AscendingCons<T>(y: T, s: seq<T>, key: T -> int)
    requires Ascending(s, key)
    requires s == [] || key(y) <= key(s[0])
    ensures Ascending([y] + s, key)
  {
    var r := [y] + s;
    forall i, j | 0 <= i < j < |r| ensures key(r[i]) <= key(r[j]) {
      assert r[j] == s[j - 1];
      if i > 0 {
        assert r[i] == s[i - 1];
      } else if j > 1 {
        assert key(s[0]) <= key(s[j - 1]);
      }
    }
  }

  /** An insertion starts with the inserted element or with the old head. */
  lemma InsertHead<T>(x: T, t: seq<T>, key: T -> int)
    ensures Insert(x, t, key)[0] == x || (t != [] && Insert(x, t, key)[0] == t[0])
  {
  }

  /** Inserting into an ascending sequence keeps it ascending. */
  lemma {:induction false} InsertAscending<T>(x: T, t: seq<T>, key: T -> int)
    requires Ascending(t, key)
    ensures Ascending(Insert(x, t, key), key)
  {
    if t == [] {
      AscendingCons(x, t, key);
    } else if key(x) <= key(t[0]) {
      AscendingCons(x, t, key);
    } else {
      var tail := t[1..];
      var rest := Insert(x, tail, key);
      assert Ascending(tail, key) by {
        forall i, j | 0 <= i < j < |tail| ensures key(tail[i]) <= key(tail[j]) {
          assert tail[i] == t[i + 1] && tail[j] == t[j + 1];
        }
      }
      InsertAscending(x, tail, key);
      InsertHead(x, tail, key);
      if tail != [] {
        assert tail[0] == t[1] && key(t[0]) <= key(t[1]);
      }
      AscendingCons(t[0], rest, key);
    }
  }

  /** Stable insertion sort: ascending by `key`, equal keys in input order. */
  function SortByKey<T>(s: seq<T>, key: T -> int): (r: seq<T>)
    ensures |r| == |s|
    ensures multiset(r) == multiset(s)
    ensures Ascending(r, key)
  {
    if s == [] then []
    else
      assert s == [s[0]] + s[1..];
      InsertAscending(s[0], SortByKey(s[1..], key), key);
      Insert(s[0], SortByKey(s[1..], key), key)
  }

  lemma WithKeyCons<T>(y: T, s: seq<T>, key: T -> int, k: int)
    ensures WithKey([y] + s, key, k) == (if key(y) == k then [y] else []) + WithKey(s, key, k)
  {
    assert ([y] + s)[0] == y && ([y] + s)[1..] == s;
  }

  /** Two sequences of which at least one is empty commute in front of a third. */
  lemma SwapSingletons<T>(a: seq<T>, b: seq<T>, w: seq<T>)
    requires a == [] || b == []
    ensures a + (b + w) == b + (a + w)
  {
    if a == [] {
      assert a + (b + w) == b + w == b + (a + w);
    } else {
      assert a + (b + w) == a + w == b + (a + w);
    }
  }

  lemma {:induction false} WithKeyInsert<T>(x: T, t: seq<T>, key: T -> int, k: int)
    ensures WithKey(Insert(x, t, key), key, k) == (if key(x) == k then [x] else []) + WithKey(t, key, k)
  {
    var mx: seq<T> := if key(x) == k then [x] else [];
    if t == [] {
      WithKeyCons(x, [], key, k);
      assert [x] + [] == [x];
    } else if key(x) <= key(t[0]) {
      WithKeyCons(x, t, key, k);
    } else {
      var rest := Insert(x, t[1..], key);
      assert Insert(x, t, key) == [t[0]] + rest;
      assert t == [t[0]] + t[1..];
      WithKeyInsert(x, t[1..], key, k);
      WithKeyCons(t[0], rest, key, k);
      WithKeyCons(t[0], t[1..], key, k);
      var mt: seq<T> := if key(t[0]) == k then [t[0]] else [];
      SwapSingletons(mt, mx, WithKey(t[1..], key, k));
    }
  }

  /** The sort is stable: every class of equal keys keeps its input order. */
  lemma {:induction false} SortByKeyStable<T>(s: seq<T>, key: T -> int, k: int)
    ensures WithKey(SortByKey(s, key), key, k) == WithKey(s, key, k)
  {
    if s != [] {
      SortByKeyStable(s[1..], key, k);
      WithKeyInsert(s[0], SortByKey(s[1..], key), key, k);
    }
  }

  lemma {:induction false} InsertLast<T>(x: T, t: seq<T>, y: T, key: T -> int)
    requires key(x) <= key(y)
    ensures Insert(x, t + [y], key) == Insert(x, t, key) + [y]
  {
    if t == [] {
      assert t + [y] == [y];
    } else if key(x) <= key(t[0]) {
      assert (t + [y])[0] == t[0];
    } else {
      assert (t + [y])[0] == t[0] && (t + [y])[1..] == t[1..] + [y];
      InsertLast(x, t[1..], y, key);
    }
  }

  /** The first `n` elements of an ascending sequence hold the smallest keys:
      nothing left out has a key below one taken. */
  lemma TakeOfAscending<T>(s: seq<T>, key: T -> int, n: nat)
    requires Ascending(s, key)
    ensures forall e, i :: e in s && e !in Take(s, n) && 0 <= i < |Take(s, n)| ==> key(Take(s, n)[i]) <= key(e)
  {
    var r := Take(s, n);
    forall e, i | e in s && e !in r && 0 <= i < |r|
      ensures key(r[i]) <= key(e)
    {
      var j :| 0 <= j < |s| && s[j] == e;
    }
  }

  /** `slice(0, n)` keeps a prefix of every class of equal keys. */
  lemma {:induction false} WithKeyTake<T>(s: seq<T>, n: nat, key: T -> int, k: int)
    ensures WithKey(Take(s, n), key, k) <= WithKey(s, key, k)
  {
    if 0 < n < |s| {
      assert Take(s, n)[1..] == Take(s[1..], n - 1);
      WithKeyTake(s[1..], n - 1, key, k);
    }
  }

  /** A prefix takes each element at most as often as the whole sequence has it. */
  lemma TakeMultiset<T>(s: seq<T>, n: nat)
    ensures multiset(Take(s, n)) <= multiset(s)
  {
    if n < |s| {
      assert s == s[..n] + s[n..];
    }
  }

  /** The class of a key in a concatenation is its class in the first part
      followed by its class in the second. */
  lemma {:induction false} WithKeyAppend<T>(s: seq<T>, t: seq<T>, key: T -> int, k: int)
    ensures WithKey(s + t, key, k) == WithKey(s, key, k) + WithKey(t, key, k)
  {
    if s == [] {
      assert s + t == t;
    } else {
      assert s + t == [s[0]] + (s[1..] + t);
      assert s == [s[0]] + s[1..];
      WithKeyCons(s[0], s[1..] + t, key, k);
      WithKeyCons(s[0], s[1..], key, k);
      WithKeyAppend(s[1..], t, key, k);
    }
  }

  /** The first `n` elements of the stable sort keep a prefix of every class
      of equal keys, in input order. */
  lemma SortedPrefixKeepsOrder<T>(s: seq<T>, n: nat, key: T -> int, k: int)
    ensures WithKey(Take(SortByKey(s, key), n), key, k) <= WithKey(s, key, k)
  {
    SortByKeyStable(s, key, k);
    WithKeyTake(SortByKey(s, key), n, key, k);
  }

  /** The same for a sequence made of two parts: every class of the prefix
      is a prefix of the first part's class followed by the second's. */
  lemma SortedPrefixOfConcat<T>(shown: seq<T>, m: seq<T>, s: seq<T>, t: seq<T>, n: nat, key: T -> int, k: int)
    requires m == s + t && shown == Take(SortByKey(m, key), n)
    ensures WithKey(shown, key, k) <= WithKey(s, key, k) + WithKey(t, key, k)
  {
    SortedPrefixKeepsOrder(m, n, key, k);
    WithKeyAppend(s, t, key, k);
  }

  /** An element whose key is at least every other key stays last. */
  lemma {:induction false} SortByKeyAppendMax<T>(s: seq<T>, y: T, key: T -> int)
    requires forall x :: x in s ==> key(x) <= key(y)
    ensures SortByKey(s + [y], key) == SortByKey(s, key) + [y]
  {
    if s == [] {
      assert s + [y] == [y];
    } else {
      assert (s + [y])[0] == s[0] && (s + [y])[1..] == s[1..] + [y];
      SortByKeyAppendMax(s[1..], y, key);
      InsertLast(s[0], SortByKey(s[1..], key), y, key);
    }
  }
}
