/** Small value types shared by the back end and the front-end pages, and the
    list filter that every comprehension of the form `[x for x in xs if p(x)]`
    (Python) or `xs.filter(p)` (JavaScript) in the application reduces to. */
module Common {

  /** A value that may be absent (Python `None`, JavaScript `null`/`undefined`). */
  datatype Option<T> = None | Some(value: T) {
    function GetOr(default: T): T {
      match this
      case Some(v) => v
      case None => default
    }
  }

  /** The outcome of an awaited call into code outside the model (HTTP, Firebase,
      EmailJS): it resolved with a value, or it threw. */
  datatype Outcome<T> = Done(value: T) | Failed

  /** A value or an error (an HTTP exception raised by a FastAPI handler). */
  datatype Result<T, E> = Success(value: T) | Failure(error: E)

  /** `[x for x in xs if p(x)]`: the elements of `xs` that satisfy `p`, in order. */
  function Filter<T>(xs: seq<T>, p: T -> bool): (r: seq<T>)
    ensures |r| <= |xs|
    ensures forall i :: 0 <= i < |r| ==> r[i] in xs && p(r[i])
    ensures forall i :: 0 <= i < |xs| && p(xs[i]) ==> xs[i] in r
    ensures multiset(r) <= multiset(xs)
  {
    if xs == [] then []
    else
      assert xs == [xs[0]] + xs[1..];
      if p(xs[0]) then [xs[0]] + Filter(xs[1..], p)
      else Filter(xs[1..], p)
  }

  /** Filtering distributes over concatenation: the kept elements stay in the
      order in which they occur in the input. */
  lemma {:induction false} FilterAppend<T>(a: seq<T>, b: seq<T>, p: T -> bool)
    ensures Filter(a + b, p) == Filter(a, p) + Filter(b, p)
  {
    if a == [] {
      assert a + b == b;
    } else {
      assert (a + b)[0] == a[0];
      assert (a + b)[1..] == a[1..] + b;
      FilterAppend(a[1..], b, p);
      if p(a[0]) {
        assert Filter(a + b, p) == [a[0]] + Filter(a[1..] + b, p);
        assert Filter(a, p) == [a[0]] + Filter(a[1..], p);
      } else {
        assert Filter(a + b, p) == Filter(a[1..] + b, p);
        assert Filter(a, p) == Filter(a[1..], p);
      }
    }
  }

  /** A filter that keeps everything is the identity. */
  lemma {:induction false} FilterAll<T>(xs: seq<T>, p: T -> bool)
    requires forall i :: 0 <= i < |xs| ==> p(xs[i])
    ensures Filter(xs, p) == xs
  {
    if xs != [] {
      FilterAll(xs[1..], p);
    }
  }

  /** Filtering a list that starts with `x` keeps `x` exactly when `p` holds
      of it, ahead of what the rest of the list keeps. */
  lemma FilterCons<T>(x: T, t: seq<T>, p: T -> bool)
    ensures multiset(Filter([x] + t, p)) ==
      (if p(x) then multiset{x} else multiset{}) + multiset(Filter(t, p))
  {
    assert ([x] + t)[1..] == t;
  }

  /** A predicate and its negation split a list into two parts that together
      hold every element exactly as often as the list does. */
  lemma {:induction false} FilterPartition<T>(xs: seq<T>, p: T -> bool, q: T -> bool)
    requires forall x :: q(x) == !p(x)
    ensures multiset(Filter(xs, p)) + multiset(Filter(xs, q)) == multiset(xs)
  {
    if xs != [] {
      var t := xs[1..];
      FilterPartition(t, p, q);
      assert xs == [xs[0]] + t;
      FilterCons(xs[0], t, p);
      FilterCons(xs[0], t, q);
    }
  }

  /** Two predicates that agree on every element of a list filter it alike. */
  lemma {:induction false} FilterCongruent<T>(xs: seq<T>, p: T -> bool, q: T -> bool)
    requires forall i :: 0 <= i < |xs| ==> p(xs[i]) == q(xs[i])
    ensures Filter(xs, p) == Filter(xs, q)
  {
    if xs != [] {
      assert forall i :: 0 <= i < |xs[1..]| ==> xs[1..][i] == xs[i + 1];
      FilterCongruent(xs[1..], p, q);
    }
  }

  /** The concatenation of `f(x)` over the elements `x` of `xs`, in order
      (a loop that extends an accumulator list with `f(x)` for each `x`). */
  function FlatMap<T, U>(xs: seq<T>, f: T -> seq<U>): seq<U> {
    if xs == [] then []
    else FlatMap(xs[..|xs| - 1], f) + f(xs[|xs| - 1])
  }

  /** An element is in the concatenation exactly when one of the parts holds it. */
  lemma {:induction false} FlatMapMembership<T, U>(xs: seq<T>, f: T -> seq<U>, x: U)
    ensures x in FlatMap(xs, f) <==> exists i :: 0 <= i < |xs| && x in f(xs[i])
  {
    if xs != [] {
      var n := |xs| - 1;
      var init := xs[..n];
      FlatMapMembership(init, f, x);
      var a, b := FlatMap(init, f), f(xs[n]);
      assert FlatMap(xs, f) == a + b;
      if x in a + b {
        if x in b {
          assert 0 <= n < |xs| && x in f(xs[n]);
        } else {
          var i :| 0 <= i < |init| && x in f(init[i]);
          assert init[i] == xs[i];
        }
      }
      if exists i :: 0 <= i < |xs| && x in f(xs[i]) {
        var i :| 0 <= i < |xs| && x in f(xs[i]);
        if i < n {
          assert init[i] == xs[i];
          assert x in a;
        } else {
          assert x in b;
        }
        assert x in a + b;
      }
    }
  }

  /** No element occurs twice. */
  predicate Distinct<T(==)>(xs: seq<T>) {
    forall i, j :: 0 <= i < j < |xs| ==> xs[i] != xs[j]
  }

  /** Filtering keeps distinctness. */
  lemma {:induction false} FilterDistinct<T>(xs: seq<T>, p: T -> bool)
    requires Distinct(xs)
    ensures Distinct(Filter(xs, p))
  {
    if xs != [] {
      FilterDistinct(xs[1..], p);
      var r := Filter(xs[1..], p);
      assert xs[0] !in xs[1..] by {
        forall k | 0 <= k < |xs[1..]| ensures xs[1..][k] != xs[0] {
          assert xs[1..][k] == xs[k + 1];
        }
      }
      assert xs[0] !in r;
    }
  }
}
