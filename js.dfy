/**
 * The few JavaScript runtime notions the modelled code relies on:
 * IEEE numbers seen only through finiteness and comparison, `undefined`/`null`
 * as an option, and `Array.prototype.filter`.
 */
module Js {

  /** A JavaScript `number`. Finite values are exact reals; rounding is not modelled. */
  datatype Num = Finite(r: real) | NaN | PosInf | NegInf {

    /** `Number.isFinite(x)` */
    predicate IsFinite() {
      Finite?
    }

    /** `isNaN(x)` for a value already known to be a number */
    predicate IsNaN() {
      NaN?
    }

    /** `x > c` for a finite constant `c`: false for NaN, true for +Infinity. */
    predicate GreaterThan(c: real) {
      match this
      case Finite(v) => v > c
      case NaN => false
      case PosInf => true
      case NegInf => false
    }

    /** `x >= c` for a finite constant `c`. */
    predicate AtLeast(c: real) {
      match this
      case Finite(v) => v >= c
      case NaN => false
      case PosInf => true
      case NegInf => false
    }

    /** `x <= c` for a finite constant `c`. */
    predicate AtMost(c: real) {
      match this
      case Finite(v) => v <= c
      case NaN => false
      case PosInf => false
      case NegInf => true
    }
  }

  /** `undefined`/`null` versus a present value. */
  datatype Option<+T> = None | Some(value: T)

  /** `xs.filter(p)`: the elements satisfying `p`, in their original order. */
  function Filter<T>(xs: seq<T>, p: T -> bool): (r: seq<T>)
    ensures |r| <= |xs|
    ensures forall k :: 0 <= k < |r| ==> r[k] in xs && p(r[k])
    ensures forall k :: 0 <= k < |xs| && p(xs[k]) ==> xs[k] in r
  {
    if xs == [] then []
    else (if p(xs[0]) then [xs[0]] else []) + Filter(xs[1..], p)
  }

  /** Filtering keeps every occurrence of a kept value and no occurrence of a dropped one. */
  lemma {:induction false} FilterCounts<T>(xs: seq<T>, p: T -> bool, y: T)
    ensures multiset(Filter(xs, p))[y] == if p(y) then multiset(xs)[y] else 0
  {
    if xs != [] {
      FilterCounts(xs[1..], p, y);
      assert xs == [xs[0]] + xs[1..];
    }
  }

  /** Filtering a concatenation filters each part: the original order is kept. */
  lemma {:induction false} FilterAppend<T>(a: seq<T>, b: seq<T>, p: T -> bool)
    ensures Filter(a + b, p) == Filter(a, p) + Filter(b, p)
  {
    if a == [] {
      assert a + b == b;
    } else {
      assert (a + b)[1..] == a[1..] + b;
      FilterAppend(a[1..], b, p);
    }
  }

  /** A filter whose predicate holds everywhere changes nothing. */
  lemma {:induction false} FilterAll<T>(xs: seq<T>, p: T -> bool)
    requires forall k :: 0 <= k < |xs| ==> p(xs[k])
    ensures Filter(xs, p) == xs
  {
    if xs != [] {
      FilterAll(xs[1..], p);
    }
  }

  /** Two predicates that agree on the elements give the same filter. */
  lemma {:induction false} FilterCongruent<T>(xs: seq<T>, p: T -> bool, q: T -> bool)
    requires forall k :: 0 <= k < |xs| ==> p(xs[k]) == q(xs[k])
    ensures Filter(xs, p) == Filter(xs, q)
  {
    if xs != [] {
      FilterCongruent(xs[1..], p, q);
    }
  }
  /** No value occurs twice. */
  predicate Distinct<T(==)>(xs: seq<T>) {
    forall i, j :: 0 <= i < j < |xs| ==> xs[i] != xs[j]
  }

  /** Filtering a list without repetitions yields one without repetitions. */
  lemma {:induction false} FilterDistinct<T>(xs: seq<T>, p: T -> bool)
    requires Distinct(xs)
    ensures Distinct(Filter(xs, p))
  {
    if xs != [] {
      FilterDistinct(xs[1..], p);
      var tail := Filter(xs[1..], p);
      assert xs[0] !in xs[1..];
      assert xs[0] !in tail;
    }
  }
  /** A filter that rejects some element is strictly shorter than its input. */
  lemma {:induction false} FilterShrinks<T>(xs: seq<T>, p: T -> bool, k: nat)
    requires k < |xs| && !p(xs[k])
    ensures |Filter(xs, p)| < |xs|
  {
    if k > 0 {
      FilterShrinks(xs[1..], p, k - 1);
    } else {
      assert |Filter(xs[1..], p)| <= |xs[1..]|;
    }
  }
  /** A filter whose predicate holds nowhere yields nothing. */
  lemma {:induction false} FilterNone<T>(xs: seq<T>, p: T -> bool)
    requires forall k :: 0 <= k < |xs| ==> !p(xs[k])
    ensures Filter(xs, p) == []
  {
    if xs != [] {
      FilterNone(xs[1..], p);
    }
  }

  /** A filter whose predicate holds at exactly one position yields that element alone. */
  lemma FilterSingleMatch<T>(xs: seq<T>, p: T -> bool, i: nat)
    requires i < |xs| && p(xs[i])
    requires forall k :: 0 <= k < |xs| && k != i ==> !p(xs[k])
    ensures Filter(xs, p) == [xs[i]]
  {
    var before, after := xs[..i], xs[i + 1..];
    assert xs == before + [xs[i]] + after;
    FilterNone(before, p);
    FilterNone(after, p);
    assert Filter([xs[i]], p) == [xs[i]] + Filter([xs[i]][1..], p);
    FilterAppend(before, [xs[i]], p);
    FilterAppend(before + [xs[i]], after, p);
  }
}
