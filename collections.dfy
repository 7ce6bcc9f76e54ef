/** The find-by-id and filter-by-id steps that every collection of the
    store shares: `findIndex(x => x.id === id)` and `filter(x => x.id !== id)`. */
module Collections {
  import opened Types

  function AccountId(a: Account): Id { a.id }
  function CategoryId(c: Category): Id { c.id }
  function OperationId(o: Operation): Id { o.id }
  function BudgetId(b: Budget): Id { b.id }

  predicate HasKey<T>(xs: seq<T>, key: T -> Id, id: Id) {
    exists i :: 0 <= i < |xs| && key(xs[i]) == id
  }

  /** No two elements share a key. */
  predicate Unique<T>(xs: seq<T>, key: T -> Id) {
    forall i, j :: 0 <= i < j < |xs| ==> key(xs[i]) != key(xs[j])
  }

  /** The position of the first element with the key, or -1. */
  function IndexOf<T>(xs: seq<T>, key: T -> Id, id: Id): (r: int)
    ensures -1 <= r < |xs|
    ensures r == -1 <==> !HasKey(xs, key, id)
    ensures 0 <= r ==> key(xs[r]) == id && forall k :: 0 <= k < r ==> key(xs[k]) != id
  {
    if xs == [] then -1
    else if key(xs[0]) == id then 0
    else
      var r := IndexOf(xs[1..], key, id);
      assert forall k :: 1 <= k < |xs| ==> xs[1..][k - 1] == xs[k];
      if r == -1 then -1 else r + 1
  }

  /** Linear search from the front, as `findIndex` does. */
  method FindIndex<T>(xs: seq<T>, key: T -> Id, id: Id) returns (index: int)
    ensures index == IndexOf(xs, key, id)
  {
    index := 0;
    while index < |xs|
      invariant 0 <= index <= |xs|
      invariant forall k :: 0 <= k < index ==> key(xs[k]) != id
    {
      if key(xs[index]) == id {
        return;
      }
      index := index + 1;
    }
    index := -1;
  }

  /** `xs.filter(x => x.id !== id)`: the elements whose key differs from
      `id`, in their original order. It is as long as `xs` exactly when no
      element has the key. */
  function WithoutKey<T>(xs: seq<T>, key: T -> Id, id: Id): (r: seq<T>)
    ensures |r| == |xs| <==> !HasKey(xs, key, id)
    ensures forall i :: 0 <= i < |r| ==> key(r[i]) != id && r[i] in xs
    ensures forall i :: 0 <= i < |xs| && key(xs[i]) != id ==> xs[i] in r
  {
    FilterLength(xs, (x: T) => key(x) != id);
    FilterMembers(xs, (x: T) => key(x) != id);
    Filter(xs, (x: T) => key(x) != id)
  }

  lemma WithoutKeyAppend<T>(xs: seq<T>, ys: seq<T>, key: T -> Id, id: Id)
    ensures WithoutKey(xs + ys, key, id) == WithoutKey(xs, key, id) + WithoutKey(ys, key, id)
  {
    FilterAppend(xs, ys, (x: T) => key(x) != id);
  }

  lemma WithoutAbsentKey<T>(xs: seq<T>, key: T -> Id, id: Id)
    requires forall k :: 0 <= k < |xs| ==> key(xs[k]) != id
    ensures WithoutKey(xs, key, id) == xs
  {
    FilterAll(xs, (x: T) => key(x) != id);
  }

  /** With unique keys, filtering out a key removes exactly the element that
      `findIndex` locates. */
  lemma WithoutUniqueKey<T>(xs: seq<T>, key: T -> Id, id: Id)
    requires Unique(xs, key)
    requires HasKey(xs, key, id)
    ensures var i := IndexOf(xs, key, id);
      WithoutKey(xs, key, id) == xs[..i] + xs[i + 1..]
  {
    var i := IndexOf(xs, key, id);
    forall k | 0 <= k < |xs| && k != i ensures key(xs[k]) != id {
      if i < k {
        assert key(xs[i]) != key(xs[k]);
      }
    }
    FilterDropsOne(xs, (x: T) => key(x) != id, i);
  }

  lemma UniqueAppend<T>(xs: seq<T>, x: T, key: T -> Id)
    requires Unique(xs, key) && !HasKey(xs, key, key(x))
    ensures Unique(xs + [x], key)
  {
    forall i, j | 0 <= i < j < |xs + [x]|
      ensures key((xs + [x])[i]) != key((xs + [x])[j])
    {
      if j == |xs| {
        assert (xs + [x])[i] == xs[i];
      }
    }
  }

  lemma UniqueUpdate<T>(xs: seq<T>, i: nat, x: T, key: T -> Id)
    requires Unique(xs, key) && i < |xs| && key(x) == key(xs[i])
    ensures Unique(xs[i := x], key)
  {
  }

  /** Removing one element keeps keys unique. */
  lemma UniqueRemoveAt<T>(xs: seq<T>, key: T -> Id, i: nat)
    requires Unique(xs, key) && i < |xs|
    ensures Unique(xs[..i] + xs[i + 1..], key)
  {
    var r := xs[..i] + xs[i + 1..];
    forall a, b | 0 <= a < b < |r| ensures key(r[a]) != key(r[b]) {
      var a' := if a < i then a else a + 1;
      var b' := if b < i then b else b + 1;
      assert r[a] == xs[a'] && r[b] == xs[b'];
    }
  }

  lemma UniqueWithout<T>(xs: seq<T>, key: T -> Id, id: Id)
    requires Unique(xs, key)
    ensures Unique(WithoutKey(xs, key, id), key)
  {
    if HasKey(xs, key, id) {
      WithoutUniqueKey(xs, key, id);
      UniqueRemoveAt(xs, key, IndexOf(xs, key, id));
    } else {
      WithoutAbsentKey(xs, key, id);
    }
  }

  /** `xs.filter(p)`: the elements satisfying `p`, in their original order. */
  function Filter<T>(xs: seq<T>, p: T -> bool): (r: seq<T>)
    ensures |r| <= |xs|
  {
    if xs == [] then []
    else if p(xs[0]) then [xs[0]] + Filter(xs[1..], p)
    else Filter(xs[1..], p)
  }

  /** Nothing passes, nothing is kept. */
  lemma {:induction false} FilterNone<T>(xs: seq<T>, p: T -> bool)
    requires forall i :: 0 <= i < |xs| ==> !p(xs[i])
    ensures Filter(xs, p) == []
  {
    if xs != [] {
      assert forall i :: 0 <= i < |xs[1..]| ==> !p(xs[1..][i]) by {
        forall i | 0 <= i < |xs[1..]| ensures !p(xs[1..][i]) {
          assert xs[1..][i] == xs[i + 1];
        }
      }
      FilterNone(xs[1..], p);
    }
  }

  /** The filter keeps exactly the elements that pass. */
  lemma {:induction false} FilterMembers<T>(xs: seq<T>, p: T -> bool)
    ensures forall i :: 0 <= i < |Filter(xs, p)| ==> p(Filter(xs, p)[i]) && Filter(xs, p)[i] in xs
    ensures forall i :: 0 <= i < |xs| && p(xs[i]) ==> xs[i] in Filter(xs, p)
  {
    if xs != [] {
      FilterMembers(xs[1..], p);
      var r := Filter(xs, p);
      var t := Filter(xs[1..], p);
      forall i | 0 <= i < |r| ensures p(r[i]) && r[i] in xs {
        if p(xs[0]) && i > 0 {
          assert r[i] == t[i - 1];
        } else if !p(xs[0]) {
          assert r[i] == t[i];
        }
      }
      forall i | 0 <= i < |xs| && p(xs[i]) ensures xs[i] in r {
        if i > 0 {
          assert xs[i] == xs[1..][i - 1];
        }
      }
    }
  }

  lemma {:induction false} FilterAppend<T>(xs: seq<T>, ys: seq<T>, p: T -> bool)
    ensures Filter(xs + ys, p) == Filter(xs, p) + Filter(ys, p)
  {
    if xs != [] {
      assert (xs + ys)[0] == xs[0] && (xs + ys)[1..] == xs[1..] + ys;
      FilterAppend(xs[1..], ys, p);
    } else {
      assert xs + ys == ys;
    }
  }

  /** A filter every element passes keeps the whole sequence. */
  lemma {:induction false} FilterAll<T>(xs: seq<T>, p: T -> bool)
    requires forall i :: 0 <= i < |xs| ==> p(xs[i])
    ensures Filter(xs, p) == xs
  {
    if xs != [] {
      FilterAll(xs[1..], p);
    }
  }

  /** A filter that rejects exactly the element at `i` removes just that
      element. */
  lemma {:induction false} FilterDropsOne<T>(xs: seq<T>, p: T -> bool, i: nat)
    requires i < |xs| && !p(xs[i])
    requires forall k :: 0 <= k < |xs| && k != i ==> p(xs[k])
    ensures Filter(xs, p) == xs[..i] + xs[i + 1..]
  {
    if i == 0 {
      FilterAll(xs[1..], p);
    } else {
      FilterDropsOne(xs[1..], p, i - 1);
      assert xs[..i] == [xs[0]] + xs[1..][..i - 1];
      assert xs[i + 1..] == xs[1..][i..];
    }
  }

  /** A filter keeps the length exactly when every element passes. */
  lemma {:induction false} FilterLength<T>(xs: seq<T>, p: T -> bool)
    ensures |Filter(xs, p)| == |xs| <==> forall i :: 0 <= i < |xs| ==> p(xs[i])
  {
    if xs != [] {
      FilterLength(xs[1..], p);
      if forall i :: 0 <= i < |xs| ==> p(xs[i]) {
        assert forall i :: 0 <= i < |xs[1..]| ==> p(xs[1..][i]) by {
          forall i | 0 <= i < |xs[1..]| ensures p(xs[1..][i]) {
            assert xs[1..][i] == xs[i + 1];
          }
        }
      } else if p(xs[0]) {
        var i :| 0 <= i < |xs| && !p(xs[i]);
        assert xs[1..][i - 1] == xs[i];
      }
    }
  }

  /** `xs.reduce((sum, x) => sum + w(x), 0)` */
  function Total<T>(xs: seq<T>, w: T -> int): int {
    if xs == [] then 0 else w(xs[0]) + Total(xs[1..], w)
  }

  lemma {:induction false} TotalAppend<T>(xs: seq<T>, ys: seq<T>, w: T -> int)
    ensures Total(xs + ys, w) == Total(xs, w) + Total(ys, w)
  {
    if xs != [] {
      assert (xs + ys)[0] == xs[0] && (xs + ys)[1..] == xs[1..] + ys;
      TotalAppend(xs[1..], ys, w);
    } else {
      assert xs + ys == ys;
    }
  }

  /** A sequence is its prefix, its element at `i` and its suffix. */
  lemma SplitAt<T>(ys: seq<T>, i: nat)
    requires i < |ys|
    ensures ys == ys[..i] + [ys[i]] + ys[i + 1..]
  {
  }

  /** Removing the matched element from both sides keeps two multisets equal. */
  lemma MultisetRemoveMatch<T>(xs: seq<T>, ys: seq<T>, i: nat)
    requires xs != [] && i < |ys| && ys[i] == xs[0]
    requires multiset(xs) == multiset(ys)
    ensures multiset(xs[1..]) == multiset(ys[..i] + ys[i + 1..])
  {
    var x, tail, before, after := xs[0], xs[1..], ys[..i], ys[i + 1..];
    SplitAt(ys, i);
    SplitAt(xs, 0);
    assert multiset(ys) == multiset(before + after) + multiset{x};
    assert multiset(xs) == multiset(tail) + multiset{x};
    MultisetCancel(multiset(tail), multiset(before + after), x);
  }

  /** One copy of the same element can be cancelled from both sides. */
  lemma MultisetCancel<T>(m: multiset<T>, n: multiset<T>, x: T)
    requires m + multiset{x} == n + multiset{x}
    ensures m == n
  {
    forall e ensures m[e] == n[e] {
      assert (m + multiset{x})[e] == (n + multiset{x})[e];
    }
  }

  /** The filtered sum of a concatenation with one element in the middle counted apart. */
  lemma FilteredTotalMiddle<T>(a: seq<T>, x: T, b: seq<T>, p: T -> bool, w: T -> int)
    ensures Total(Filter(a + [x] + b, p), w) == Total(Filter([x], p), w) + Total(Filter(a + b, p), w)
  {
    var fa, fx, fb := Filter(a, p), Filter([x], p), Filter(b, p);
    FilterAppend(a + [x], b, p);
    FilterAppend(a, [x], p);
    FilterAppend(a, b, p);
    TotalAppend(fa + fx, fb, w);
    TotalAppend(fa, fx, w);
    TotalAppend(fa, fb, w);
  }

  /** The filtered sum of a sequence with its element at `i` counted apart. */
  lemma FilteredTotalAt<T>(ys: seq<T>, i: nat, p: T -> bool, w: T -> int)
    requires i < |ys|
    ensures Total(Filter(ys, p), w) == Total(Filter([ys[i]], p), w) + Total(Filter(ys[..i] + ys[i + 1..], p), w)
  {
    SplitAt(ys, i);
    FilteredTotalMiddle(ys[..i], ys[i], ys[i + 1..], p, w);
  }

  /** The sum of a filtered sequence does not depend on the order of the
      elements. */
  lemma {:induction false} FilteredTotalPermutation<T>(xs: seq<T>, ys: seq<T>, p: T -> bool, w: T -> int)
    requires multiset(xs) == multiset(ys)
    ensures Total(Filter(xs, p), w) == Total(Filter(ys, p), w)
    decreases |xs|
  {
    if xs != [] {
      var x := xs[0];
      assert x in multiset(ys);
      var i :| 0 <= i < |ys| && ys[i] == x;
      MultisetRemoveMatch(xs, ys, i);
      FilteredTotalPermutation(xs[1..], ys[..i] + ys[i + 1..], p, w);
      FilteredTotalAt(xs, 0, p, w);
      FilteredTotalAt(ys, i, p, w);
    }
  }

  /** `xs.reverse()` on a copy. */
  function Reversed<T>(xs: seq<T>): (r: seq<T>)
    ensures |r| == |xs|
    ensures forall i :: 0 <= i < |xs| ==> r[i] == xs[|xs| - 1 - i]
  {
    if xs == [] then [] else Reversed(xs[1..]) + [xs[0]]
  }
  /** Appending an element puts it at the front of the reversal. */
  lemma {:induction false} ReversedSnoc<T>(xs: seq<T>, x: T)
    ensures Reversed(xs + [x]) == [x] + Reversed(xs)
  {
    if xs != [] {
      assert (xs + [x])[1..] == xs[1..] + [x];
      ReversedSnoc(xs[1..], x);
    } else {
      assert xs + [x] == [x];
    }
  }
}
