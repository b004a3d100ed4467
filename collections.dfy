/** Sequence operations the pages use through JavaScript's array methods
    (filter, map, find, findIndex, reduce), with the facts the rest of the
    model relies on. */
module Collections {

  datatype Option<T> = None | Some(value: T)

  /** Array.prototype.filter: keeps, in order, the elements satisfying p. */
  function Filter<T>(p: T -> bool, xs: seq<T>): (r: seq<T>)
    ensures |r| <= |xs|
  {
    if xs == [] then []
    else (if p(xs[0]) then [xs[0]] else []) + Filter(p, xs[1..])
  }

  /** Filter keeps exactly the elements satisfying p. */
  lemma {:induction false} FilterMembers<T>(p: T -> bool, xs: seq<T>)
    ensures forall i :: 0 <= i < |Filter(p, xs)| ==> Filter(p, xs)[i] in xs && p(Filter(p, xs)[i])
    ensures forall i :: 0 <= i < |xs| && p(xs[i]) ==> xs[i] in Filter(p, xs)
  {
    if xs != [] {
      FilterMembers(p, xs[1..]);
      var head := if p(xs[0]) then [xs[0]] else [];
      assert Filter(p, xs) == head + Filter(p, xs[1..]);
      forall i | 0 <= i < |Filter(p, xs)|
        ensures Filter(p, xs)[i] in xs && p(Filter(p, xs)[i])
      {
        if i >= |head| {
          assert Filter(p, xs)[i] == Filter(p, xs[1..])[i - |head|];
        }
      }
      forall i | 0 <= i < |xs| && p(xs[i])
        ensures xs[i] in Filter(p, xs)
      {
        if i > 0 {
          assert xs[i] == xs[1..][i - 1];
        }
      }
    }
  }

  /** Filter over a two-element sequence. */
  lemma FilterPair<T>(p: T -> bool, a: T, b: T)
    ensures Filter(p, [a, b]) == (if p(a) then [a] else []) + (if p(b) then [b] else [])
  {
    assert [a, b][1..] == [b];
    assert Filter(p, [b]) == (if p(b) then [b] else []) + Filter(p, []);
  }

  /** Filtering with a predicate that every element satisfies changes nothing. */
  lemma {:induction false} FilterKeepsAll<T>(p: T -> bool, xs: seq<T>)
    requires forall i :: 0 <= i < |xs| ==> p(xs[i])
    ensures Filter(p, xs) == xs
  {
    if xs != [] {
      FilterKeepsAll(p, xs[1..]);
    }
  }

  /** Filtering with a predicate that no element satisfies gives []. */
  lemma {:induction false} FilterDropsAll<T>(p: T -> bool, xs: seq<T>)
    requires forall i :: 0 <= i < |xs| ==> !p(xs[i])
    ensures Filter(p, xs) == []
  {
    if xs != [] {
      FilterDropsAll(p, xs[1..]);
    }
  }

  lemma {:induction false} FilterAppend<T>(p: T -> bool, a: seq<T>, b: seq<T>)
    ensures Filter(p, a + b) == Filter(p, a) + Filter(p, b)
  {
    if a == [] {
      assert a + b == b;
    } else {
      assert (a + b)[0] == a[0];
      assert (a + b)[1..] == a[1..] + b;
      FilterAppend(p, a[1..], b);
      var head := if p(a[0]) then [a[0]] else [];
      calc {
        Filter(p, a + b);
        head + Filter(p, a[1..] + b);
        head + (Filter(p, a[1..]) + Filter(p, b));
        (head + Filter(p, a[1..])) + Filter(p, b);
      }
    }
  }

  /** Two predicates that agree on every element filter alike. */
  lemma {:induction false} FilterAgreeing<T>(p: T -> bool, q: T -> bool, xs: seq<T>)
    requires forall i :: 0 <= i < |xs| ==> p(xs[i]) == q(xs[i])
    ensures Filter(p, xs) == Filter(q, xs)
  {
    if xs != [] {
      FilterAgreeing(p, q, xs[1..]);
    }
  }

  /** Filter keeps every occurrence of a satisfying element and none of the
      others: with IsSubsequence this pins the result down exactly. */
  lemma {:induction false} FilterMultiset<T>(p: T -> bool, xs: seq<T>)
    ensures forall x :: multiset(Filter(p, xs))[x] == if p(x) then multiset(xs)[x] else 0
  {
    if xs != [] {
      FilterMultiset(p, xs[1..]);
      assert xs == [xs[0]] + xs[1..];
      assert multiset(xs) == multiset([xs[0]]) + multiset(xs[1..]);
      var head := if p(xs[0]) then [xs[0]] else [];
      assert Filter(p, xs) == head + Filter(p, xs[1..]);
      assert multiset(Filter(p, xs)) == multiset(head) + multiset(Filter(p, xs[1..]));
    }
  }

  /** a is an order-preserving subsequence of b. */
  ghost predicate IsSubsequence<T>(a: seq<T>, b: seq<T>)
    decreases |b|
  {
    if a == [] then true
    else if b == [] then false
    else (a[0] == b[0] && IsSubsequence(a[1..], b[1..])) || IsSubsequence(a, b[1..])
  }

  lemma {:induction false} SubsequenceOfSelf<T>(xs: seq<T>)
    ensures IsSubsequence(xs, xs)
  {
    if xs != [] {
      SubsequenceOfSelf(xs[1..]);
    }
  }

  lemma {:induction false} FilterIsSubsequence<T>(p: T -> bool, xs: seq<T>)
    ensures IsSubsequence(Filter(p, xs), xs)
  {
    if xs != [] {
      var rest := Filter(p, xs[1..]);
      FilterIsSubsequence(p, xs[1..]);
      if p(xs[0]) {
        assert Filter(p, xs) == [xs[0]] + rest;
        assert ([xs[0]] + rest)[1..] == rest;
      } else {
        assert Filter(p, xs) == rest;
      }
    }
  }

  /** The number of elements satisfying p (`xs.filter(p).length`). */
  function Count<T>(p: T -> bool, xs: seq<T>): nat
  {
    |Filter(p, xs)|
  }

  /** Three pairwise exclusive counts never add up to more than the length. */
  lemma {:induction false} DisjointCountsBounded<T>(p: T -> bool, q: T -> bool, s: T -> bool, xs: seq<T>)
    requires forall i :: 0 <= i < |xs| ==> (p(xs[i]) ==> !q(xs[i]) && !s(xs[i])) && (q(xs[i]) ==> !s(xs[i]))
    ensures Count(p, xs) + Count(q, xs) + Count(s, xs) <= |xs|
  {
    if xs != [] {
      DisjointCountsBounded(p, q, s, xs[1..]);
    }
  }

  /** `xs.reduce((sum, x) => sum + f(x), 0)`. */
  function Sum<T>(f: T -> int, xs: seq<T>): int
  {
    if xs == [] then 0 else f(xs[0]) + Sum(f, xs[1..])
  }

  lemma {:induction false} SumAppend<T>(f: T -> int, a: seq<T>, b: seq<T>)
    ensures Sum(f, a + b) == Sum(f, a) + Sum(f, b)
  {
    if a == [] {
      assert a + b == b;
    } else {
      assert (a + b)[1..] == a[1..] + b;
      SumAppend(f, a[1..], b);
    }
  }

  /** Changing one element changes the sum by the difference at that element. */
  lemma {:induction false} SumUpdate<T>(f: T -> int, xs: seq<T>, i: nat, x: T)
    requires i < |xs|
    ensures Sum(f, xs[i := x]) == Sum(f, xs) - f(xs[i]) + f(x)
  {
    if i == 0 {
      assert xs[i := x][1..] == xs[1..];
    } else {
      assert xs[i := x][1..] == xs[1..][i - 1 := x];
      SumUpdate(f, xs[1..], i - 1, x);
    }
  }

  /** Two sequences that agree pointwise under f have the same sum. */
  lemma {:induction false} SumPointwise<T, U>(f: T -> int, g: U -> int, xs: seq<T>, ys: seq<U>)
    requires |xs| == |ys|
    requires forall i :: 0 <= i < |xs| ==> f(xs[i]) == g(ys[i])
    ensures Sum(f, xs) == Sum(g, ys)
  {
    if xs != [] {
      SumPointwise(f, g, xs[1..], ys[1..]);
    }
  }

  lemma {:induction false} SumNonNegative<T>(f: T -> int, xs: seq<T>)
    requires forall i :: 0 <= i < |xs| ==> f(xs[i]) >= 0
    ensures Sum(f, xs) >= 0
  {
    if xs != [] {
      SumNonNegative(f, xs[1..]);
    }
  }

  /** `xs.map(x => matches(x) ? f(x) : x)`: every matching element is
      rewritten by f, the others are kept. */
  function MapWhere<T>(matches: T -> bool, f: T -> T, xs: seq<T>): (r: seq<T>)
    ensures |r| == |xs|
    ensures forall i :: 0 <= i < |xs| ==> r[i] == if matches(xs[i]) then f(xs[i]) else xs[i]
  {
    seq(|xs|, i requires 0 <= i < |xs| => if matches(xs[i]) then f(xs[i]) else xs[i])
  }

  /** With no matching element, MapWhere changes nothing. */
  lemma MapWhereNoMatch<T>(matches: T -> bool, f: T -> T, xs: seq<T>)
    requires forall i :: 0 <= i < |xs| ==> !matches(xs[i])
    ensures MapWhere(matches, f, xs) == xs
  {
  }

  /** With exactly one matching element, MapWhere is a single update. */
  lemma MapWhereSingle<T>(matches: T -> bool, f: T -> T, xs: seq<T>, k: nat)
    requires k < |xs| && matches(xs[k])
    requires forall i :: 0 <= i < |xs| && i != k ==> !matches(xs[i])
    ensures MapWhere(matches, f, xs) == xs[k := f(xs[k])]
  {
  }

  /** Array.prototype.findIndex: the first index satisfying p, or -1. */
  function FindIndex<T>(p: T -> bool, xs: seq<T>): (r: int)
    ensures -1 <= r < |xs|
    ensures r == -1 <==> forall i :: 0 <= i < |xs| ==> !p(xs[i])
    ensures r >= 0 ==> p(xs[r]) && forall j :: 0 <= j < r ==> !p(xs[j])
  {
    if xs == [] then -1
    else if p(xs[0]) then 0
    else
      var k := FindIndex(p, xs[1..]);
      if k == -1 then -1 else k + 1
  }

  /** Array.prototype.find: the first element satisfying p, if any. */
  function Find<T>(p: T -> bool, xs: seq<T>): (r: Option<T>)
    ensures r.None? <==> forall i :: 0 <= i < |xs| ==> !p(xs[i])
    ensures r.Some? ==> r.value == xs[FindIndex(p, xs)]
  {
    var k := FindIndex(p, xs);
    if k == -1 then None else Some(xs[k])
  }
}
