/**
 * Generic sequence operations the app uses through the Swift standard
 * library: `filter`, `reduce` into a sum, `Dictionary(grouping:by:)` and
 * index-set selection, with the facts the views rely on.
 */
module Seqs {

  /** Elements of `s` that satisfy `p`, in their original order (Swift `filter`). */
  function Filter<T(!new)>(s: seq<T>, p: T -> bool): (r: seq<T>)
    ensures |r| <= |s|
    ensures forall x :: x in r <==> x in s && p(x)
  {
    if s == [] then []
    else if p(s[0]) then [s[0]] + Filter(s[1..], p)
    else Filter(s[1..], p)
  }

  lemma {:induction false} FilterConcat<T(!new)>(a: seq<T>, b: seq<T>, p: T -> bool)
    ensures Filter(a + b, p) == Filter(a, p) + Filter(b, p)
  {
    if a != [] {
      assert (a + b)[1..] == a[1..] + b;
      FilterConcat(a[1..], b, p);
    } else {
      assert a + b == b;
    }
  }

  /** A filter keeps every copy of a kept element and no copy of the others. */
  lemma {:induction false} FilterCount<T(!new)>(s: seq<T>, p: T -> bool)
    ensures forall x :: multiset(Filter(s, p))[x] == if p(x) then multiset(s)[x] else 0
  {
    if s != [] {
      FilterCount(s[1..], p);
      assert s == [s[0]] + s[1..];
    }
  }

  /** A filter whose predicate holds everywhere keeps everything. */
  lemma {:induction false} FilterAll<T(!new)>(s: seq<T>, p: T -> bool)
    requires forall x :: x in s ==> p(x)
    ensures Filter(s, p) == s
  {
    if s != [] {
      FilterAll(s[1..], p);
    }
  }

  /** Filtering by a disjunction of two disjoint predicates splits the multiset. */
  lemma {:induction false} FilterDisjointUnion<T(!new)>(s: seq<T>, p: T -> bool, q: T -> bool, r: T -> bool)
    requires forall x :: r(x) == (p(x) || q(x))
    requires forall x :: !(p(x) && q(x))
    ensures multiset(Filter(s, r)) == multiset(Filter(s, p)) + multiset(Filter(s, q))
  {
    if s != [] {
      FilterDisjointUnion(s[1..], p, q, r);
    }
  }

  /** Filtering by `p` and by its complement splits the multiset. */
  lemma FilterComplement<T(!new)>(s: seq<T>, p: T -> bool, q: T -> bool)
    requires forall x :: q(x) == !p(x)
    ensures multiset(s) == multiset(Filter(s, p)) + multiset(Filter(s, q))
  {
    var all := (x: T) => true;
    FilterDisjointUnion(s, p, q, all);
    FilterAll(s, all);
  }

  /** Sum of `w` over the elements of `s`, folded from the left (Swift `reduce(0) { $0 + w($1) }`). */
  function SumBy<T(!new)>(s: seq<T>, w: T -> real): real
  {
    if s == [] then 0.0 else SumBy(s[..|s| - 1], w) + w(s[|s| - 1])
  }

  lemma {:induction false} SumByConcat<T(!new)>(a: seq<T>, b: seq<T>, w: T -> real)
    ensures SumBy(a + b, w) == SumBy(a, w) + SumBy(b, w)
  {
    if b == [] {
      assert a + b == a;
    } else {
      SumByConcat(a, b[..|b| - 1], w);
      assert (a + b)[..|a + b| - 1] == a + b[..|b| - 1];
    }
  }

  lemma SumByCons<T(!new)>(x: T, s: seq<T>, w: T -> real)
    ensures SumBy([x] + s, w) == w(x) + SumBy(s, w)
  {
    SumByConcat([x], s, w);
    assert [x][..0] == [];
  }

  /** A sum does not depend on the order of its terms. */
  lemma {:induction false} SumByPermutation<T(!new)>(a: seq<T>, b: seq<T>, w: T -> real)
    requires multiset(a) == multiset(b)
    ensures SumBy(a, w) == SumBy(b, w)
  {
    if a != [] {
      var x := a[0];
      assert x in multiset(b);
      var i :| 0 <= i < |b| && b[i] == x;
      var rest := b[..i] + b[i + 1..];
      assert b == b[..i] + [x] + b[i + 1..];
      assert a == [x] + a[1..];
      assert multiset(b) == multiset(b[..i]) + multiset{x} + multiset(b[i + 1..]);
      assert multiset(a) == multiset{x} + multiset(a[1..]);
      assert multiset(rest) == multiset(b[..i]) + multiset(b[i + 1..]);
      assert multiset(a[1..]) == multiset(a) - multiset{x};
      assert multiset(rest) == multiset(b) - multiset{x};
      SumByPermutation(a[1..], rest, w);
      SumByCons(x, a[1..], w);
      SumByConcat(b[..i] + [x], b[i + 1..], w);
      SumByConcat(b[..i], [x], w);
      SumByConcat(b[..i], b[i + 1..], w);
      assert SumBy([x], w) == w(x) by { assert [x][..0] == []; }
    }
  }

  /** Sum over a filter and over its complement add up to the whole sum. */
  lemma SumByComplement<T(!new)>(s: seq<T>, p: T -> bool, q: T -> bool, w: T -> real)
    requires forall x :: q(x) == !p(x)
    ensures SumBy(s, w) == SumBy(Filter(s, p), w) + SumBy(Filter(s, q), w)
  {
    FilterComplement(s, p, q);
    SumByPermutation(s, Filter(s, p) + Filter(s, q), w);
    SumByConcat(Filter(s, p), Filter(s, q), w);
  }

  /** No element occurs twice. */
  ghost predicate NoDup<T>(s: seq<T>)
  {
    forall i, j :: 0 <= i < j < |s| ==> s[i] != s[j]
  }

  lemma {:induction false} NoDupCount<T(!new)>(s: seq<T>, x: T)
    requires NoDup(s)
    ensures multiset(s)[x] <= 1
  {
    if s != [] {
      assert s == [s[0]] + s[1..];
      assert NoDup(s[1..]);
      NoDupCount(s[1..], x);
      if s[0] == x {
        assert x !in s[1..];
      }
    }
  }

  /** A rearrangement of a duplicate-free sequence is duplicate free. */
  lemma PermutationNoDup<T(!new)>(a: seq<T>, b: seq<T>)
    requires multiset(a) == multiset(b)
    requires NoDup(a)
    ensures NoDup(b)
  {
    forall i, j | 0 <= i < j < |b|
      ensures b[i] != b[j]
    {
      if b[i] == b[j] {
        var x := b[i];
        assert b == b[..j] + [x] + b[j + 1..];
        assert x in b[..j];
        assert multiset(b)[x] >= 2;
        NoDupCount(a, x);
      }
    }
  }

  /**
   * The distinct keys of `s` in order of first occurrence: the key set
   * of `Dictionary(grouping: s, by: key)`.
   */
  function DistinctKeys<T(!new), K(==,!new)>(s: seq<T>, key: T -> K): (r: seq<K>)
    ensures NoDup(r)
    ensures forall x :: x in s ==> key(x) in r
    ensures forall k :: k in r ==> exists x :: x in s && key(x) == k
  {
    if s == [] then []
    else
      var ks := DistinctKeys(s[..|s| - 1], key);
      var last := s[|s| - 1];
      assert forall x :: x in s ==> x in s[..|s| - 1] || x == last by {
        assert s == s[..|s| - 1] + [last];
      }
      if key(last) in ks then ks else ks + [key(last)]
  }

  /** The elements of `s` whose key is `k`, in original order: one group's value list. */
  function Members<T(!new), K(==)>(s: seq<T>, key: T -> K, k: K): seq<T>
  {
    Filter(s, x => key(x) == k)
  }

  /** The groups of `s` for the keys `ks`, one per key and in the order of `ks`. */
  function GroupsFor<T(!new), K(==)>(s: seq<T>, key: T -> K, ks: seq<K>): (r: seq<seq<T>>)
    ensures |r| == |ks|
    ensures forall i :: 0 <= i < |ks| ==> r[i] == Members(s, key, ks[i])
  {
    if ks == [] then [] else GroupsFor(s, key, ks[..|ks| - 1]) + [Members(s, key, ks[|ks| - 1])]
  }

  /** All groups laid end to end. */
  function Flatten<T(!new)>(gs: seq<seq<T>>): seq<T>
  {
    if gs == [] then [] else Flatten(gs[..|gs| - 1]) + gs[|gs| - 1]
  }

  lemma {:induction false} GroupsForFiltered<T(!new), K(!new)>(s: seq<T>, key: T -> K, ks: seq<K>)
    requires NoDup(ks)
    ensures multiset(Flatten(GroupsFor(s, key, ks))) == multiset(Filter(s, x => key(x) in ks))
  {
    if ks == [] {
      assert Filter(s, x => key(x) in ks) == [] by {
        FilterNone(s, x => key(x) in ks);
      }
    } else {
      var init := ks[..|ks| - 1];
      var k := ks[|ks| - 1];
      assert NoDup(init);
      GroupsForFiltered(s, key, init);
      assert GroupsFor(s, key, ks)[..|ks| - 1] == GroupsFor(s, key, init);
      assert k !in init;
      assert forall x :: (key(x) in ks) == (key(x) in init || key(x) == k) by {
        assert ks == init + [k];
      }
      FilterDisjointUnion(s, x => key(x) in init, x => key(x) == k, x => key(x) in ks);
    }
  }

  lemma {:induction false} FilterNone<T(!new)>(s: seq<T>, p: T -> bool)
    requires forall x :: x in s ==> !p(x)
    ensures Filter(s, p) == []
  {
    if s != [] {
      FilterNone(s[1..], p);
    }
  }

  /**
   * Grouping by a duplicate-free key list that covers every key loses and
   * duplicates nothing: the groups together are a rearrangement of `s`.
   */
  lemma GroupsForPartition<T(!new), K(!new)>(s: seq<T>, key: T -> K, ks: seq<K>)
    requires NoDup(ks)
    requires forall x :: x in s ==> key(x) in ks
    ensures multiset(Flatten(GroupsFor(s, key, ks))) == multiset(s)
    ensures |Flatten(GroupsFor(s, key, ks))| == |s|
  {
    GroupsForFiltered(s, key, ks);
    FilterAll(s, x => key(x) in ks);
    assert |multiset(Flatten(GroupsFor(s, key, ks)))| == |multiset(s)|;
  }

  /** Each element lies in the group of its own key and in no other. */
  lemma GroupsForMembership<T(!new), K(!new)>(s: seq<T>, key: T -> K, ks: seq<K>, x: T, i: nat)
    requires x in s && i < |ks|
    ensures x in GroupsFor(s, key, ks)[i] <==> ks[i] == key(x)
  {
  }

  /** Offsets ascending without repetition, as an `IndexSet` enumerates them. */
  predicate IsIndexSet(offsets: seq<nat>)
  {
    forall i, j :: 0 <= i < j < |offsets| ==> offsets[i] < offsets[j]
  }

  predicate InRange<T(!new)>(offsets: seq<nat>, s: seq<T>)
  {
    forall i :: 0 <= i < |offsets| ==> offsets[i] < |s|
  }

  /** The elements at the given offsets, in offset order (`offsets.map { s[$0] }`). */
  function Pick<T(!new)>(s: seq<T>, offsets: seq<nat>): (r: seq<T>)
    requires InRange(offsets, s)
    ensures |r| == |offsets|
    ensures forall i :: 0 <= i < |offsets| ==> r[i] == s[offsets[i]]
  {
    if offsets == [] then [] else Pick(s, offsets[..|offsets| - 1]) + [s[offsets[|offsets| - 1]]]
  }
}
