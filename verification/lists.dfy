/**
  Order-preserving sub-sequences and `Array.prototype.filter`, the one list
  operation behind the admin table filters and the symptom checklist.
*/
module Lists {

  /** `a` is obtained from `b` by deleting elements, keeping the order. */
  predicate IsSubseq<T(==)>(a: seq<T>, b: seq<T>)
    decreases |b|
  {
    if |b| == 0 then |a| == 0
    else (|a| > 0 && a[0] == b[0] && IsSubseq(a[1..], b[1..])) || IsSubseq(a, b[1..])
  }

  /** A sub-sequence is never longer, and holds nothing its source lacks. */
  lemma {:induction false} SubseqBounds<T>(a: seq<T>, b: seq<T>)
    requires IsSubseq(a, b)
    ensures |a| <= |b|
    ensures multiset(a) <= multiset(b)
    decreases |b|
  {
    if |b| > 0 {
      if |a| > 0 && a[0] == b[0] && IsSubseq(a[1..], b[1..]) {
        SubseqBounds(a[1..], b[1..]);
        assert a == [a[0]] + a[1..];
        assert b == [b[0]] + b[1..];
      } else {
        SubseqBounds(a, b[1..]);
        assert b == [b[0]] + b[1..];
      }
    }
  }

  /** `xs.filter(keep)`: the elements satisfying `keep`, in their order,
      each as often as it occurs in `xs`. */
  function FilterBy<T>(xs: seq<T>, keep: T -> bool): (out: seq<T>)
    ensures IsSubseq(out, xs)
    ensures |out| <= |xs|
    ensures forall i :: 0 <= i < |out| ==> out[i] in xs && keep(out[i])
    ensures forall i :: 0 <= i < |xs| && keep(xs[i]) ==> xs[i] in out
    decreases |xs|
  {
    if |xs| == 0 then []
    else
      var rest := FilterBy(xs[1..], keep);
      assert forall i :: 1 <= i < |xs| ==> xs[i] == xs[1..][i - 1];
      if keep(xs[0]) then [xs[0]] + rest else rest
  }

  /** Filtering keeps every occurrence of a kept value and none of a dropped
      one, so the result is fixed by its multiset together with the order. */
  lemma {:induction false} FilterByCounts<T>(xs: seq<T>, keep: T -> bool)
    ensures forall x :: multiset(FilterBy(xs, keep))[x] == if keep(x) then multiset(xs)[x] else 0
    decreases |xs|
  {
    if |xs| > 0 {
      FilterByCounts(xs[1..], keep);
      assert xs == [xs[0]] + xs[1..];
    }
  }

  /** Filtering distributes over concatenation; together with the one-element
      case this pins `FilterBy` down completely. */
  lemma {:induction false} FilterByConcat<T>(a: seq<T>, b: seq<T>, keep: T -> bool)
    ensures FilterBy(a + b, keep) == FilterBy(a, keep) + FilterBy(b, keep)
    decreases |a|
  {
    if |a| > 0 {
      assert (a + b)[1..] == a[1..] + b;
      FilterByConcat(a[1..], b, keep);
    } else {
      assert a + b == b;
    }
  }

  /** A predicate that holds of every element keeps the whole sequence. */
  lemma {:induction false} FilterByKeepsAll<T>(xs: seq<T>, keep: T -> bool)
    requires forall x :: x in xs ==> keep(x)
    ensures FilterBy(xs, keep) == xs
    decreases |xs|
  {
    if |xs| > 0 {
      FilterByKeepsAll(xs[1..], keep);
    }
  }

  /** A stricter predicate keeps an order-preserving sub-sequence of what the
      looser one keeps. */
  lemma {:induction false} FilterByMonotone<T>(xs: seq<T>, strict: T -> bool, loose: T -> bool)
    requires forall x :: strict(x) ==> loose(x)
    ensures IsSubseq(FilterBy(xs, strict), FilterBy(xs, loose))
    decreases |xs|
  {
    if |xs| > 0 {
      FilterByMonotone(xs[1..], strict, loose);
    }
  }

  /** Filtering by `p` and then by `q` is filtering once by their conjunction. */
  lemma {:induction false} FilterByTwice<T>(xs: seq<T>, p: T -> bool, q: T -> bool, both: T -> bool)
    requires forall x :: both(x) == (p(x) && q(x))
    ensures FilterBy(FilterBy(xs, p), q) == FilterBy(xs, both)
    decreases |xs|
  {
    if |xs| > 0 {
      FilterByTwice(xs[1..], p, q, both);
      var rest := FilterBy(xs[1..], p);
      if p(xs[0]) {
        assert FilterBy(xs, p) == [xs[0]] + rest;
        assert ([xs[0]] + rest)[1..] == rest;
      }
    }
  }
}
