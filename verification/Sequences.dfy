/** Sequence vocabulary shared by the models: comprehension filters, `dict.fromkeys`,
    and the multiset facts that make results independent of input order. */
module Sequences {

  datatype Option<+T> = None | Some(value: T)

  datatype Result<+T, +E> = Success(value: T) | Failure(error: E)

  ghost predicate NoDup<T(!new)>(s: seq<T>) {
    forall i, j :: 0 <= i < j < |s| ==> s[i] != s[j]
  }

  ghost function Elements<T(!new)>(s: seq<T>): set<T> {
    set x | x in s
  }

  /** `[x for x in s if keep(x)]` */
  function Filter<T(!new)>(s: seq<T>, keep: T -> bool): (r: seq<T>)
    ensures |r| <= |s|
    ensures forall x :: x in r <==> x in s && keep(x)
  {
    if s == [] then []
    else if keep(s[0]) then [s[0]] + Filter(s[1..], keep)
    else Filter(s[1..], keep)
  }

  lemma {:induction false} FilterAppend<T(!new)>(a: seq<T>, b: seq<T>, keep: T -> bool)
    ensures Filter(a + b, keep) == Filter(a, keep) + Filter(b, keep)
  {
    if a == [] {
      assert a + b == b;
    } else {
      assert (a + b)[0] == a[0] && (a + b)[1..] == a[1..] + b;
      FilterAppend(a[1..], b, keep);
      assert [a[0]] + (Filter(a[1..], keep) + Filter(b, keep)) == [a[0]] + Filter(a[1..], keep) + Filter(b, keep);
    }
  }

  lemma FilterPush<T(!new)>(a: seq<T>, x: T, keep: T -> bool)
    ensures Filter(a + [x], keep) == if keep(x) then Filter(a, keep) + [x] else Filter(a, keep)
  {
    FilterAppend(a, [x], keep);
  }

  lemma {:induction false} FilterCount<T(!new)>(s: seq<T>, keep: T -> bool, x: T)
    ensures multiset(Filter(s, keep))[x] == if keep(x) then multiset(s)[x] else 0
  {
    if s != [] {
      FilterCount(s[1..], keep, x);
      assert s == [s[0]] + s[1..];
    }
  }

  /** Filtering a permutation gives a permutation. */
  lemma FilterPermutation<T(!new)>(a: seq<T>, b: seq<T>, keep: T -> bool)
    requires multiset(a) == multiset(b)
    ensures multiset(Filter(a, keep)) == multiset(Filter(b, keep))
  {
    forall x: T
      ensures multiset(Filter(a, keep))[x] == multiset(Filter(b, keep))[x]
    {
      FilterCount(a, keep, x);
      FilterCount(b, keep, x);
    }
  }

  lemma {:induction false} FilterNoDup<T(!new)>(s: seq<T>, keep: T -> bool)
    requires NoDup(s)
    ensures NoDup(Filter(s, keep))
  {
    if s != [] {
      assert forall i, j :: 0 <= i < j < |s[1..]| ==> s[1..][i] == s[i + 1] && s[1..][j] == s[j + 1];
      FilterNoDup(s[1..], keep);
      assert s[0] !in s[1..];
      var r := Filter(s[1..], keep);
      assert s[0] !in r;
      if keep(s[0]) {
        NoDupCons(s[0], r);
      }
    }
  }

  lemma NoDupCons<T(!new)>(x: T, s: seq<T>)
    requires NoDup(s) && x !in s
    ensures NoDup([x] + s)
  {
  }

  lemma NoDupConcat<T(!new)>(a: seq<T>, b: seq<T>)
    requires NoDup(a) && NoDup(b) && forall x :: x in a ==> x !in b
    ensures NoDup(a + b)
  {
    forall i, j | 0 <= i < j < |a + b|
      ensures (a + b)[i] != (a + b)[j]
    {
      if i < |a| <= j {
        assert a[i] in a && b[j - |a|] in b;
      }
    }
  }

  /** `tuple(dict.fromkeys(s))`: each element once, in first-occurrence order. */
  function FromKeys<T(==,!new)>(s: seq<T>): (r: seq<T>)
    ensures forall x :: x in r <==> x in s
    ensures NoDup(r)
  {
    if s == [] then []
    else
      var r := FromKeys(s[..|s| - 1]);
      var x := s[|s| - 1];
      assert s == s[..|s| - 1] + [x];
      if x in r then r else r + [x]
  }

  lemma {:induction false} FromKeysOfDistinct<T(!new)>(s: seq<T>)
    requires NoDup(s)
    ensures FromKeys(s) == s
  {
    if s != [] {
      var t := s[..|s| - 1];
      assert s == t + [s[|s| - 1]];
      FromKeysOfDistinct(t);
    }
  }

  lemma CountSplit<T(!new)>(s: seq<T>, x: T)
    requires s != []
    ensures multiset(s)[x] == (if s[0] == x then 1 else 0) + multiset(s[1..])[x]
  {
    assert s == [s[0]] + s[1..];
  }

  lemma {:induction false} NoDupCount<T(!new)>(s: seq<T>, x: T)
    requires NoDup(s)
    ensures multiset(s)[x] == if x in s then 1 else 0
  {
    if s != [] {
      CountSplit(s, x);
      assert forall i, j :: 0 <= i < j < |s[1..]| ==> s[1..][i] == s[i + 1] && s[1..][j] == s[j + 1];
      NoDupCount(s[1..], x);
      if s[0] == x {
        assert x !in s[1..];
      }
    }
  }

  /** Two duplicate-free listings of the same elements are permutations of each other. */
  lemma NoDupPermutation<T(!new)>(a: seq<T>, b: seq<T>)
    requires NoDup(a) && NoDup(b)
    requires forall x :: x in a <==> x in b
    ensures multiset(a) == multiset(b)
  {
    forall x: T
      ensures multiset(a)[x] == multiset(b)[x]
    {
      NoDupCount(a, x);
      NoDupCount(b, x);
    }
  }

  /** Permutations have the same members, and are duplicate-free together. */
  lemma PermutationMembers<T(!new)>(a: seq<T>, b: seq<T>)
    requires multiset(a) == multiset(b)
    ensures |a| == |b|
    ensures forall x :: x in a <==> x in b
    ensures NoDup(a) <==> NoDup(b)
  {
    assert |multiset(a)| == |a| && |multiset(b)| == |b|;
    forall x: T
      ensures x in a <==> x in b
    {
      assert x in a <==> x in multiset(a);
      assert x in b <==> x in multiset(b);
    }
    if NoDup(a) {
      NoDupFromCounts(a, b);
    }
    if NoDup(b) {
      NoDupFromCounts(b, a);
    }
  }

  lemma NoDupFromCounts<T(!new)>(a: seq<T>, b: seq<T>)
    requires multiset(a) == multiset(b) && NoDup(a)
    ensures NoDup(b)
  {
    forall i, j | 0 <= i < j < |b|
      ensures b[i] != b[j]
    {
      NoDupCount(a, b[i]);
      if b[i] == b[j] {
        RepeatCount(b, i, j);
      }
    }
  }

  lemma RepeatCount<T(!new)>(s: seq<T>, i: int, j: int)
    requires 0 <= i < j < |s| && s[i] == s[j]
    ensures multiset(s)[s[i]] >= 2
  {
    assert s == s[..j] + [s[j]] + s[j + 1..];
    assert s[..j][i] == s[i];
    assert s[i] in multiset(s[..j]);
  }

  /** The size of a duplicate-free sequence is the size of its element set. */
  lemma {:induction false} NoDupCardinality<T(!new)>(s: seq<T>)
    requires NoDup(s)
    ensures |Elements(s)| == |s|
  {
    if s == [] {
      assert Elements(s) == {};
    } else {
      assert forall i, j :: 0 <= i < j < |s[1..]| ==> s[1..][i] == s[i + 1] && s[1..][j] == s[j + 1];
      NoDupCardinality(s[1..]);
      assert s == [s[0]] + s[1..];
      assert Elements(s) == {s[0]} + Elements(s[1..]);
      assert s[0] !in s[1..];
    }
  }

  lemma SubsetCardinality<T(!new)>(a: set<T>, b: set<T>)
    requires a <= b
    ensures |a| <= |b|
  {
    assert b == a + (b - a);
  }

  /** A duplicate-free listing drawn from another collection is no longer than it. */
  lemma NoDupWithin<T(!new)>(a: seq<T>, b: seq<T>)
    requires NoDup(a)
    requires forall x :: x in a ==> x in b
    ensures |a| <= |b|
  {
    NoDupCardinality(a);
    assert Elements(a) <= Elements(b);
    SubsetCardinality(Elements(a), Elements(b));
    ElementsAtMost(b);
  }

  lemma {:induction false} ElementsAtMost<T(!new)>(s: seq<T>)
    ensures |Elements(s)| <= |s|
  {
    if s == [] {
      assert Elements(s) == {};
    } else {
      ElementsAtMost(s[1..]);
      assert s == [s[0]] + s[1..];
      assert Elements(s) == {s[0]} + Elements(s[1..]);
    }
  }

  function Map<T, U>(f: T -> U, s: seq<T>): (r: seq<U>)
    ensures |r| == |s| && forall i :: 0 <= i < |s| ==> r[i] == f(s[i])
  {
    seq(|s|, i requires 0 <= i < |s| => f(s[i]))
  }

  lemma MapMembers<T(!new), U(!new)>(f: T -> U, s: seq<T>, y: U)
    ensures y in Map(f, s) <==> exists x :: x in s && f(x) == y
  {
    if y in Map(f, s) {
      var i :| 0 <= i < |s| && Map(f, s)[i] == y;
      assert s[i] in s;
    }
    if x :| x in s && f(x) == y {
      var i :| 0 <= i < |s| && s[i] == x;
      assert Map(f, s)[i] == y;
    }
  }

  lemma {:induction false} MapAppend<T(!new), U(!new)>(f: T -> U, a: seq<T>, b: seq<T>)
    ensures Map(f, a + b) == Map(f, a) + Map(f, b)
  {
  }

  /** Removing one occurrence of x. */
  lemma RemoveOne<T(!new)>(s: seq<T>, j: int)
    requires 0 <= j < |s|
    ensures multiset(s[..j] + s[j + 1..]) == multiset(s) - multiset{s[j]}
  {
    assert s == s[..j] + [s[j]] + s[j + 1..];
  }

  /** The first member of a permutation, found in the other, and what is left of both. */
  lemma MatchHead<T(!new)>(a: seq<T>, b: seq<T>) returns (j: nat)
    requires multiset(a) == multiset(b) && a != []
    ensures j < |b| && b[j] == a[0] && multiset(a[1..]) == multiset(b[..j] + b[j + 1..])
  {
    PermutationMembers(a, b);
    assert a[0] in b;
    j :| 0 <= j < |b| && b[j] == a[0];
    RemoveOne(b, j);
    RemoveOne(a, 0);
    assert a[..0] + a[1..] == a[1..];
  }

  lemma MapRemove<T(!new), U(!new)>(f: T -> U, s: seq<T>, j: int)
    requires 0 <= j < |s|
    ensures multiset(Map(f, s)) == multiset{f(s[j])} + multiset(Map(f, s[..j] + s[j + 1..]))
  {
    assert Map(f, s) == Map(f, s[..j]) + [f(s[j])] + Map(f, s[j + 1..]);
    MapAppend(f, s[..j], s[j + 1..]);
  }

  lemma MapHead<T(!new), U(!new)>(f: T -> U, s: seq<T>)
    requires s != []
    ensures multiset(Map(f, s)) == multiset{f(s[0])} + multiset(Map(f, s[1..]))
  {
    assert Map(f, s) == [f(s[0])] + Map(f, s[1..]);
  }

  lemma MapHeads<T(!new), U(!new)>(f: T -> U, g: T -> U, a: seq<T>, b: seq<T>, j: nat)
    requires a != [] && j < |b| && b[j] == a[0] && f(a[0]) == g(a[0])
    requires multiset(Map(f, a[1..])) == multiset(Map(g, b[..j] + b[j + 1..]))
    ensures multiset(Map(f, a)) == multiset(Map(g, b))
  {
    hide *;
    MapHead(f, a);
    MapRemove(g, b, j);
  }

  /** Mapping a permutation gives a permutation, for functions that agree on the members. */
  lemma {:induction false} MapPermutation<T(!new), U(!new)>(f: T -> U, g: T -> U, a: seq<T>, b: seq<T>)
    requires multiset(a) == multiset(b)
    requires forall x :: x in a ==> f(x) == g(x)
    ensures multiset(Map(f, a)) == multiset(Map(g, b))
  {
    if a == [] {
      PermutationMembers(a, b);
      assert Map(f, a) == [] && Map(g, b) == [];
    } else {
      hide Map;
      var j := MatchHead(a, b);
      assert a[0] in a && forall x :: x in a[1..] ==> x in a;
      MapPermutation(f, g, a[1..], b[..j] + b[j + 1..]);
      MapHeads(f, g, a, b, j);
    }
  }

  /** A function that tells the members of `all` apart keeps their counts. */
  lemma {:induction false} ImageCount<T(!new), U(!new)>(f: T -> U, s: seq<T>, all: seq<T>, x: T)
    requires x in all && (forall y :: y in s ==> y in all)
    requires forall p, q :: p in all && q in all && f(p) == f(q) ==> p == q
    ensures multiset(Map(f, s))[f(x)] == multiset(s)[x]
  {
    if s != [] {
      assert s[0] in s && forall y :: y in s[1..] ==> y in s;
      ImageCount(f, s[1..], all, x);
      assert Map(f, s)[1..] == Map(f, s[1..]);
      CountSplit(s, x);
      CountSplit(Map(f, s), f(x));
    }
  }

  function Sum(s: seq<int>): int {
    if s == [] then 0 else s[0] + Sum(s[1..])
  }

  /** Some number is larger than all of a finite set. */
  lemma {:induction false} AboveAll(s: set<nat>) returns (n: nat)
    ensures forall x :: x in s ==> x < n
  {
    if s == {} {
      n := 0;
    } else {
      var x :| x in s;
      var m := AboveAll(s - {x});
      n := if m <= x then x + 1 else m;
      forall y | y in s
        ensures y < n
      {
        assert y == x || y in s - {x};
      }
    }
  }
}
