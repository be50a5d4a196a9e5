/** Generic list operations the storefront uses through JavaScript's
    Array.prototype: find, filter and reduce, each with the facts the
    rest of the model relies on. */
module Seqs {

  datatype Option<T> = None | Some(value: T)

  /** Index of the first element satisfying f (the position Array.prototype.find stops at). */
  function FindIndex<T>(s: seq<T>, f: T -> bool): (r: Option<nat>)
    ensures r.Some? ==> r.value < |s| && f(s[r.value])
    ensures r.Some? ==> forall j :: 0 <= j < r.value ==> !f(s[j])
    ensures r.None? <==> forall j :: 0 <= j < |s| ==> !f(s[j])
    decreases |s|
  {
    if s == [] then None
    else if f(s[0]) then Some(0)
    else
      match FindIndex(s[1..], f)
      case None =>
        assert forall j :: 1 <= j < |s| ==> s[j] == s[1..][j - 1];
        None
      case Some(i) =>
        assert forall j :: 1 <= j < i + 1 ==> s[j] == s[1..][j - 1];
        Some(i + 1)
  }

  /** Array.prototype.find: the first element satisfying f, if any. */
  function Find<T>(s: seq<T>, f: T -> bool): (r: Option<T>)
    ensures r.None? <==> forall j :: 0 <= j < |s| ==> !f(s[j])
    ensures r.Some? ==> r.value in s && f(r.value)
    ensures r.Some? ==> exists i :: 0 <= i < |s| && s[i] == r.value && forall j :: 0 <= j < i ==> !f(s[j])
  {
    match FindIndex(s, f)
    case None => None
    case Some(i) => Some(s[i])
  }

  /** Array.prototype.filter: the elements satisfying f, left to right. */
  function Filter<T>(s: seq<T>, f: T -> bool): seq<T>
    decreases |s|
  {
    if s == [] then [] else (if f(s[0]) then [s[0]] else []) + Filter(s[1..], f)
  }

  /** r can be obtained from s by deleting elements: the order of s is kept. */
  predicate Subsequence<T(==)>(r: seq<T>, s: seq<T>)
    decreases |s|
  {
    if r == [] then true
    else if s == [] then false
    else if r[0] == s[0] then Subsequence(r[1..], s[1..])
    else Subsequence(r, s[1..])
  }

  /** Array.prototype.reduce((acc, x) => acc + f(x), 0): a left fold. */
  function Reduce<T>(s: seq<T>, f: T -> int): int
    decreases |s|
  {
    if s == [] then 0 else Reduce(s[..|s| - 1], f) + f(s[|s| - 1])
  }

  lemma ReduceSingleton<T>(x: T, f: T -> int)
    ensures Reduce([x], f) == f(x)
  {
    assert [x][..0] == [];
  }

  /** The mathematical sum of f over s, the reference Reduce is checked against. */
  function Sum<T>(s: seq<T>, f: T -> int): int
    decreases |s|
  {
    if s == [] then 0 else f(s[0]) + Sum(s[1..], f)
  }

  lemma {:induction false} FilterMembership<T>(s: seq<T>, f: T -> bool, x: T)
    ensures x in Filter(s, f) <==> x in s && f(x)
    decreases |s|
  {
    if s != [] {
      FilterMembership(s[1..], f, x);
      assert x in s <==> x == s[0] || x in s[1..];
    }
  }

  lemma {:induction false} FilterCount<T>(s: seq<T>, f: T -> bool, x: T)
    ensures multiset(Filter(s, f))[x] == if f(x) then multiset(s)[x] else 0
    decreases |s|
  {
    if s != [] {
      FilterCount(s[1..], f, x);
      assert s == [s[0]] + s[1..];
      assert multiset(s) == multiset([s[0]]) + multiset(s[1..]);
    }
  }

  lemma {:induction false} FilterKeepsAll<T>(s: seq<T>, f: T -> bool)
    requires forall i :: 0 <= i < |s| ==> f(s[i])
    ensures Filter(s, f) == s
    decreases |s|
  {
    if s != [] {
      FilterKeepsAll(s[1..], f);
    }
  }

  /** Filtering out exactly the element at k deletes it and keeps the rest in order. */
  lemma {:induction false} FilterDropsOne<T>(s: seq<T>, f: T -> bool, k: nat)
    requires k < |s| && !f(s[k])
    requires forall i :: 0 <= i < |s| && i != k ==> f(s[i])
    ensures Filter(s, f) == s[..k] + s[k + 1..]
    decreases k
  {
    if k == 0 {
      FilterKeepsAll(s[1..], f);
    } else {
      FilterDropsOne(s[1..], f, k - 1);
      assert s[1..][..k - 1] == s[1..k];
      assert s[1..][k..] == s[k + 1..];
      assert [s[0]] + s[1..k] == s[..k];
    }
  }

  lemma {:induction false} SubsequenceOfTail<T>(r: seq<T>, x: T, s: seq<T>)
    requires Subsequence(r, s)
    ensures Subsequence(r, [x] + s)
    decreases |s|, 1
  {
    if r != [] {
      assert ([x] + s)[1..] == s;
      if r[0] == x {
        // greedy matching takes x; the rest of r must be a subsequence of s
        SubsequenceDropHead(r, s);
      }
    }
  }

  lemma {:induction false} SubsequenceDropHead<T>(r: seq<T>, s: seq<T>)
    requires r != [] && Subsequence(r, s)
    ensures Subsequence(r[1..], s)
    decreases |s|, 0
  {
    if s != [] {
      if r[0] == s[0] {
        SubsequenceOfTail(r[1..], s[0], s[1..]);
        assert [s[0]] + s[1..] == s;
      } else {
        SubsequenceDropHead(r, s[1..]);
        SubsequenceOfTail(r[1..], s[0], s[1..]);
        assert [s[0]] + s[1..] == s;
      }
    }
  }

  lemma {:induction false} FilterIsSubsequence<T>(s: seq<T>, f: T -> bool)
    ensures Subsequence(Filter(s, f), s)
    decreases |s|
  {
    if s != [] {
      FilterIsSubsequence(s[1..], f);
      var r := Filter(s, f);
      if f(s[0]) {
        assert r[0] == s[0] && r[1..] == Filter(s[1..], f);
      } else {
        assert r == Filter(s[1..], f);
        SubsequenceOfTail(r, s[0], s[1..]);
        assert [s[0]] + s[1..] == s;
      }
    }
  }

  lemma {:induction false} SumConcat<T>(a: seq<T>, b: seq<T>, f: T -> int)
    ensures Sum(a + b, f) == Sum(a, f) + Sum(b, f)
    decreases |a|
  {
    if a == [] {
      assert a + b == b;
    } else {
      assert (a + b)[0] == a[0];
      assert (a + b)[1..] == a[1..] + b;
      SumConcat(a[1..], b, f);
    }
  }

  /** The left fold that reduce performs computes the sum. */
  lemma {:induction false} ReduceIsSum<T>(s: seq<T>, f: T -> int)
    ensures Reduce(s, f) == Sum(s, f)
    decreases |s|
  {
    if s != [] {
      var init, last := s[..|s| - 1], s[|s| - 1];
      ReduceIsSum(init, f);
      SumConcat(init, [last], f);
      assert init + [last] == s;
    }
  }

  lemma ReduceConcat<T>(a: seq<T>, b: seq<T>, f: T -> int)
    ensures Reduce(a + b, f) == Reduce(a, f) + Reduce(b, f)
  {
    ReduceIsSum(a + b, f);
    ReduceIsSum(a, f);
    ReduceIsSum(b, f);
    SumConcat(a, b, f);
  }

  /** Appending x adds f(x): the step reduce takes for each element. */
  lemma ReduceSnoc<T>(s: seq<T>, x: T, f: T -> int)
    ensures Reduce(s + [x], f) == Reduce(s, f) + f(x)
  {
    assert (s + [x])[..|s + [x]| - 1] == s;
  }

  lemma SumSingleton<T>(x: T, f: T -> int)
    ensures Sum([x], f) == f(x)
  {
    assert [x][1..] == [];
  }

  /** Replacing the element at k changes the sum by the difference of the two values. */
  lemma ReduceUpdate<T>(s: seq<T>, k: nat, x: T, f: T -> int)
    requires k < |s|
    ensures Reduce(s[k := x], f) == Reduce(s, f) - f(s[k]) + f(x)
  {
    var a, b := s[..k], s[k + 1..];
    assert s == a + [s[k]] + b;
    assert s[k := x] == a + [x] + b;
    ReduceIsSum(s, f);
    ReduceIsSum(s[k := x], f);
    SumConcat(a + [s[k]], b, f);
    SumConcat(a, [s[k]], f);
    SumConcat(a + [x], b, f);
    SumConcat(a, [x], f);
    SumSingleton(s[k], f);
    SumSingleton(x, f);
  }

  /** Deleting the element at k lowers the sum by its value. */
  lemma ReduceRemove<T>(s: seq<T>, k: nat, f: T -> int)
    requires k < |s|
    ensures Reduce(s[..k] + s[k + 1..], f) == Reduce(s, f) - f(s[k])
  {
    var a, b := s[..k], s[k + 1..];
    assert s == a + [s[k]] + b;
    ReduceIsSum(s, f);
    ReduceIsSum(a + b, f);
    SumConcat(a + [s[k]], b, f);
    SumConcat(a, [s[k]], f);
    SumConcat(a, b, f);
    SumSingleton(s[k], f);
  }

  lemma {:induction false} ReduceNonnegative<T>(s: seq<T>, f: T -> int)
    requires forall i :: 0 <= i < |s| ==> f(s[i]) >= 0
    ensures Reduce(s, f) >= 0
    decreases |s|
  {
    if s != [] {
      ReduceNonnegative(s[..|s| - 1], f);
    }
  }

  /** The values f picks out of s, in order: a filter and a map in one pass,
      as a loop that pushes only some of its results builds them. */
  function Choose<A, B>(s: seq<A>, f: A -> Option<B>): seq<B>
    decreases |s|
  {
    if s == [] then []
    else Choose(s[..|s| - 1], f) + (match f(s[|s| - 1]) case Some(y) => [y] case None => [])
  }

  /** A value is chosen exactly when f picks it from some element; at most
      one value per element. */
  lemma {:induction false} ChooseMembership<A, B>(s: seq<A>, f: A -> Option<B>)
    ensures |Choose(s, f)| <= |s|
    ensures forall y :: y in Choose(s, f) <==> exists i :: 0 <= i < |s| && f(s[i]) == Some(y)
    decreases |s|
  {
    if s != [] {
      var init, last := s[..|s| - 1], s[|s| - 1];
      ChooseMembership(init, f);
      assert forall i :: 0 <= i < |init| ==> init[i] == s[i];
      forall y ensures y in Choose(s, f) <==> exists i :: 0 <= i < |s| && f(s[i]) == Some(y) {
        if f(last) == Some(y) {
          assert s[|s| - 1] == last;
        }
      }
    }
  }

  /** Nothing is chosen exactly when f picks nothing from any element. */
  lemma {:induction false} ChooseEmpty<A, B>(s: seq<A>, f: A -> Option<B>)
    ensures Choose(s, f) == [] <==> forall i :: 0 <= i < |s| ==> f(s[i]).None?
    decreases |s|
  {
    if s != [] {
      var init := s[..|s| - 1];
      ChooseEmpty(init, f);
      assert forall i :: 0 <= i < |init| ==> init[i] == s[i];
    }
  }
}
