/**
 * The failure type of the endpoint and the two iterator idioms the handler
 * relies on: collecting a sequence of fallible results into one result, and
 * filtering a sequence while keeping its order.
 */
module Wrappers {

  /** Every failure of the handler (a URL that cannot be joined, a request or
      a body that cannot be decoded) is one opaque error. */
  datatype Result<+T> = Ok(value: T) | Err

  datatype Option<+T> = None | Some(value: T)

  /** True when every element of `xs` is mapped to `Ok` by `f`. */
  predicate AllOk<A, B>(xs: seq<A>, f: A -> Result<B>)
  {
    forall i :: 0 <= i < |xs| ==> f(xs[i]).Ok?
  }

  /** Maps `f` over `xs` and collects the outcomes, as a join of futures
      followed by a collect into a result of a vector does: the collection is
      `Ok` exactly when every element is, and then holds the values in the
      order of `xs`. */
  function CollectAll<A, B>(xs: seq<A>, f: A -> Result<B>): (r: Result<seq<B>>)
    ensures r.Ok? <==> AllOk(xs, f)
    ensures r.Ok? ==> |r.value| == |xs|
    ensures r.Ok? ==> forall i :: 0 <= i < |xs| ==> r.value[i] == f(xs[i]).value
  {
    if xs == [] then Ok([])
    else
      match f(xs[0])
      case Err => Err
      case Ok(y) =>
        match CollectAll(xs[1..], f)
        case Err => Err
        case Ok(ys) => Ok([y] + ys)
  }

  /** The elements of `s` that satisfy `keep`, in their order in `s`. */
  function Filter<T>(s: seq<T>, keep: T -> bool): (r: seq<T>)
    ensures |r| <= |s|
    ensures forall i :: 0 <= i < |r| ==> r[i] in s && keep(r[i])
    ensures forall i :: 0 <= i < |s| && keep(s[i]) ==> s[i] in r
  {
    if s == [] then []
    else (if keep(s[0]) then [s[0]] else []) + Filter(s[1..], keep)
  }

  /** Filtering never duplicates: each value occurs in the output at most as
      often as in the input. */
  lemma {:induction false} FilterSubMultiset<T>(s: seq<T>, keep: T -> bool)
    ensures multiset(Filter(s, keep)) <= multiset(s)
  {
    if s != [] {
      FilterSubMultiset(s[1..], keep);
      var head := if keep(s[0]) then [s[0]] else [];
      assert Filter(s, keep) == head + Filter(s[1..], keep);
      assert s == [s[0]] + s[1..];
      assert multiset(s) == multiset([s[0]]) + multiset(s[1..]);
      assert multiset(head) <= multiset([s[0]]);
    }
  }

  /** When every element satisfies the predicate, filtering is the identity. */
  lemma {:induction false} FilterKeepsAll<T>(s: seq<T>, keep: T -> bool)
    requires forall i :: 0 <= i < |s| ==> keep(s[i])
    ensures Filter(s, keep) == s
  {
    if s != [] {
      FilterKeepsAll(s[1..], keep);
      assert s == [s[0]] + s[1..];
    }
  }

  /** Filtering distributes over concatenation, so the relative order of the
      kept elements is that of the input. */
  lemma {:induction false} FilterConcat<T>(s: seq<T>, t: seq<T>, keep: T -> bool)
    ensures Filter(s + t, keep) == Filter(s, keep) + Filter(t, keep)
  {
    if s == [] {
      assert s + t == t;
    } else {
      assert (s + t)[0] == s[0];
      assert (s + t)[1..] == s[1..] + t;
      FilterConcat(s[1..], t, keep);
    }
  }
}
