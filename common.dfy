/** Shared value types and sequence helpers used by several modules. */
module Common {

  /** Swift's `Optional`: `nil` is `None`. */
  datatype Option<T> = None | Some(value: T)

  /** `r` can be obtained from `s` by deleting elements, without reordering. */
  ghost predicate Subsequence<T>(r: seq<T>, s: seq<T>)
  {
    if r == [] then true
    else if s == [] then false
    else (r[0] == s[0] && Subsequence(r[1..], s[1..])) || Subsequence(r, s[1..])
  }

  /** Every sequence is a subsequence of itself. */
  lemma {:induction false} SubsequenceOfSelf<T>(s: seq<T>)
    ensures Subsequence(s, s)
  {
    if s != [] {
      SubsequenceOfSelf(s[1..]);
    }
  }

  /** Swift's `Array.filter`: the elements satisfying `p`, in their original order. */
  function Filter<T(==)>(xs: seq<T>, p: T -> bool): (r: seq<T>)
    ensures |r| <= |xs|
    ensures Subsequence(r, xs)
    ensures forall i :: 0 <= i < |r| ==> p(r[i]) && r[i] in xs
  {
    if xs == [] then []
    else
      var rest := Filter(xs[1..], p);
      assert xs == [xs[0]] + xs[1..];
      if p(xs[0]) then [xs[0]] + rest
      else
        assert rest == [] || Subsequence(rest, xs[1..]);
        rest
  }

  /** Each element that passes keeps its number of occurrences; each that fails has none. */
  lemma {:induction false} FilterCount<T>(xs: seq<T>, p: T -> bool, x: T)
    ensures multiset(Filter(xs, p))[x] == if p(x) then multiset(xs)[x] else 0
  {
    if xs != [] {
      FilterCount(xs[1..], p, x);
      assert xs == [xs[0]] + xs[1..];
    }
  }

  /** Filtering with a predicate every element satisfies gives the sequence back. */
  lemma {:induction false} FilterAllKept<T>(xs: seq<T>, p: T -> bool)
    requires forall i :: 0 <= i < |xs| ==> p(xs[i])
    ensures Filter(xs, p) == xs
  {
    if xs != [] {
      FilterAllKept(xs[1..], p);
    }
  }

  /** Filtering a sequence extended by one element extends the result by that element if it passes. */
  lemma {:induction false} FilterSnoc<T>(xs: seq<T>, x: T, p: T -> bool)
    ensures Filter(xs + [x], p) == Filter(xs, p) + (if p(x) then [x] else [])
  {
    if xs == [] {
      assert xs + [x] == [x];
      assert [x][1..] == [];
    } else {
      var ys := xs + [x];
      assert ys[0] == xs[0];
      assert ys[1..] == xs[1..] + [x];
      FilterSnoc(xs[1..], x, p);
      var head := if p(xs[0]) then [xs[0]] else [];
      assert Filter(ys, p) == head + Filter(ys[1..], p);
      assert Filter(xs, p) == head + Filter(xs[1..], p);
    }
  }
}
