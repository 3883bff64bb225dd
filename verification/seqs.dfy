/** Array operations the dashboard uses over and over: `filter`, a `reduce`
    that sums, and a `reduce` without seed that keeps the first maximum. */
module Seqs {

  /** `a` is an order-preserving subsequence of `b`. */
  ghost predicate IsSubseq<T>(a: seq<T>, b: seq<T>)
    decreases |b|
  {
    |a| == 0 || (|b| > 0 && ((a[0] == b[0] && IsSubseq(a[1..], b[1..])) || IsSubseq(a, b[1..])))
  }

  /** `xs.filter(keep)`: the elements that pass, in their original order. */
  function Filter<T(!new)>(xs: seq<T>, keep: T -> bool): (r: seq<T>)
    ensures |r| <= |xs|
    ensures forall i :: 0 <= i < |r| ==> keep(r[i])
    decreases |xs|
  {
    if |xs| == 0 then []
    else
      var rest := Filter(xs[1..], keep);
      if keep(xs[0]) then [xs[0]] + rest else rest
  }

  /** What a filter keeps: an element is in the result exactly when it is in
      the input and passes, and it occurs there exactly as often as in the
      input. */
  lemma {:induction false} FilterMembers<T(!new)>(xs: seq<T>, keep: T -> bool)
    ensures forall x :: x in Filter(xs, keep) <==> x in xs && keep(x)
    ensures forall x :: multiset(Filter(xs, keep))[x] == if keep(x) then multiset(xs)[x] else 0
    decreases |xs|
  {
    if |xs| > 0 {
      FilterMembers(xs[1..], keep);
      assert xs == [xs[0]] + xs[1..];
      assert multiset(xs) == multiset{xs[0]} + multiset(xs[1..]);
    }
  }

  /** The result of a filter is a subsequence of its input. */
  lemma {:induction false} FilterIsSubseq<T(!new)>(xs: seq<T>, keep: T -> bool)
    ensures IsSubseq(Filter(xs, keep), xs)
    decreases |xs|
  {
    if |xs| > 0 {
      FilterIsSubseq(xs[1..], keep);
      var rest := Filter(xs[1..], keep);
      if keep(xs[0]) {
        assert Filter(xs, keep) == [xs[0]] + rest;
        assert ([xs[0]] + rest)[1..] == rest;
      }
    }
  }

  /** A filter that keeps every element returns its input. */
  lemma {:induction false} FilterKeepsAll<T(!new)>(xs: seq<T>, keep: T -> bool)
    requires forall i :: 0 <= i < |xs| ==> keep(xs[i])
    ensures Filter(xs, keep) == xs
    decreases |xs|
  {
    if |xs| > 0 {
      FilterKeepsAll(xs[1..], keep);
      assert xs == [xs[0]] + xs[1..];
    }
  }

  /** A test no element passes filters everything out. */
  lemma {:induction false} FilterKeepsNone<T(!new)>(xs: seq<T>, keep: T -> bool)
    requires forall i :: 0 <= i < |xs| ==> !keep(xs[i])
    ensures Filter(xs, keep) == []
    decreases |xs|
  {
    if |xs| > 0 {
      FilterKeepsNone(xs[1..], keep);
    }
  }

  /** Filtering twice with the same test is filtering once. */
  lemma FilterIdempotent<T(!new)>(xs: seq<T>, keep: T -> bool)
    ensures Filter(Filter(xs, keep), keep) == Filter(xs, keep)
  {
    FilterKeepsAll(Filter(xs, keep), keep);
  }

  /** Filtering with a stronger test equals filtering the result of a weaker
      one; in particular the stronger filter's result is a subsequence of the
      weaker one's. */
  lemma {:induction false} FilterStronger<T(!new)>(xs: seq<T>, strong: T -> bool, weak: T -> bool)
    requires forall x :: strong(x) ==> weak(x)
    ensures Filter(xs, strong) == Filter(Filter(xs, weak), strong)
    ensures IsSubseq(Filter(xs, strong), Filter(xs, weak))
    decreases |xs|
  {
    if |xs| > 0 {
      FilterStronger(xs[1..], strong, weak);
      var w := Filter(xs[1..], weak);
      if weak(xs[0]) {
        assert Filter(xs, weak) == [xs[0]] + w;
        assert ([xs[0]] + w)[1..] == w;
      }
    }
    FilterIsSubseq(Filter(xs, weak), strong);
  }

  /** Number of elements satisfying `p`. */
  function CountIf<T(!new)>(xs: seq<T>, p: T -> bool): (n: nat)
    ensures n == |Filter(xs, p)|
    ensures n <= |xs|
    decreases |xs|
  {
    if |xs| == 0 then 0 else (if p(xs[0]) then 1 else 0) + CountIf(xs[1..], p)
  }

  /** The mathematical sum of `f` over the elements. */
  function SumOf<T>(xs: seq<T>, f: T -> int): int
    decreases |xs|
  {
    if |xs| == 0 then 0 else f(xs[0]) + SumOf(xs[1..], f)
  }

  /** `xs.reduce((acc, x) => acc + f(x), acc)`: a left fold. */
  function FoldSum<T>(xs: seq<T>, f: T -> int, acc: int): int
    decreases |xs|
  {
    if |xs| == 0 then acc else FoldSum(xs[1..], f, acc + f(xs[0]))
  }

  /** The left-to-right `reduce` with seed 0 computes the sum. */
  lemma {:induction false} FoldSumIsSum<T>(xs: seq<T>, f: T -> int, acc: int)
    ensures FoldSum(xs, f, acc) == acc + SumOf(xs, f)
    decreases |xs|
  {
    if |xs| > 0 {
      FoldSumIsSum(xs[1..], f, acc + f(xs[0]));
    }
  }

  /** The sum over a concatenation is the sum of the sums. */
  lemma {:induction false} SumOfAppend<T>(a: seq<T>, b: seq<T>, f: T -> int)
    ensures SumOf(a + b, f) == SumOf(a, f) + SumOf(b, f)
    decreases |a|
  {
    if |a| > 0 {
      SumOfAppend(a[1..], b, f);
      assert (a + b)[0] == a[0];
      assert (a + b)[1..] == a[1..] + b;
      assert SumOf(a + b, f) == f(a[0]) + SumOf(a[1..] + b, f);
    } else {
      assert a + b == b;
    }
  }

  /** One step of `xs.reduce((best, x) => key(x) > key(best) ? x : best)` with
      no seed, tracked by index: `best` is the index kept so far and `i` the
      next index to visit. The invariant in the requires is what the fold
      maintains: `best` holds the first maximum of `xs[..i]`. */
  function ArgMaxFrom<T>(xs: seq<T>, key: T -> int, best: nat, i: nat): (r: nat)
    requires best < i <= |xs|
    requires forall j :: 0 <= j < i ==> key(xs[j]) <= key(xs[best])
    requires forall j :: 0 <= j < best ==> key(xs[j]) < key(xs[best])
    ensures r < |xs|
    ensures forall j :: 0 <= j < |xs| ==> key(xs[j]) <= key(xs[r])
    ensures forall j :: 0 <= j < r ==> key(xs[j]) < key(xs[r])
    decreases |xs| - i
  {
    if i == |xs| then best
    else if key(xs[i]) > key(xs[best]) then ArgMaxFrom(xs, key, i, i + 1)
    else ArgMaxFrom(xs, key, best, i + 1)
  }

  /** Index of the element a seedless strict-`>` `reduce` returns: the earliest
      element with the largest key. Only defined on non-empty input, since
      `reduce` without a seed throws on `[]`. */
  function FirstArgMax<T>(xs: seq<T>, key: T -> int): (r: nat)
    requires |xs| > 0
    ensures r < |xs|
    ensures forall j :: 0 <= j < |xs| ==> key(xs[j]) <= key(xs[r])
    ensures forall j :: 0 <= j < r ==> key(xs[j]) < key(xs[r])
  {
    ArgMaxFrom(xs, key, 0, 1)
  }
}
