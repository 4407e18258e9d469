/** `reduce` over exact real numbers, as the pages use it to total money. */
module Folds {

  /** `s.reduce((sum, x) => sum + f(x), acc)`: a left fold that adds `f` of
      each element, first to last, onto the accumulator. */
  function Reduce<T>(s: seq<T>, f: T -> real, acc: real): (r: real)
    ensures s == [] ==> r == acc
    decreases |s|
  {
    if s == [] then acc else Reduce(s[1..], f, acc + f(s[0]))
  }

  /** The fold started from 0, which is how every total in the pages begins. */
  function Sum<T>(s: seq<T>, f: T -> real): real
  {
    Reduce(s, f, 0.0)
  }

  /** The starting value of the fold is only added on. */
  lemma {:induction false} ReduceFrom<T>(s: seq<T>, f: T -> real, acc: real)
    ensures Reduce(s, f, acc) == acc + Sum(s, f)
    decreases |s|
  {
    if s != [] {
      ReduceFrom(s[1..], f, acc + f(s[0]));
      ReduceFrom(s[1..], f, 0.0 + f(s[0]));
    }
  }

  /** Adding terms that are never negative never lowers the fold. */
  lemma {:induction false} ReduceNonDecreasing<T>(s: seq<T>, f: T -> real, acc: real)
    requires forall i :: 0 <= i < |s| ==> f(s[i]) >= 0.0
    ensures Reduce(s, f, acc) >= acc
    decreases |s|
  {
    if s != [] {
      assert f(s[0]) >= 0.0;
      ReduceNonDecreasing(s[1..], f, acc + f(s[0]));
    }
  }

  /** The empty sum is 0 and a non-empty sum is its first term plus the rest. */
  lemma SumCons<T>(s: seq<T>, f: T -> real)
    ensures s == [] ==> Sum(s, f) == 0.0
    ensures s != [] ==> Sum(s, f) == f(s[0]) + Sum(s[1..], f)
  {
    if s != [] {
      ReduceFrom(s[1..], f, 0.0 + f(s[0]));
    }
  }

  lemma {:induction false} SumAppend<T>(a: seq<T>, b: seq<T>, f: T -> real)
    ensures Sum(a + b, f) == Sum(a, f) + Sum(b, f)
    decreases |a|
  {
    SumCons(a, f);
    if a == [] {
      assert a + b == b;
    } else {
      assert (a + b)[1..] == a[1..] + b;
      SumCons(a + b, f);
      SumAppend(a[1..], b, f);
    }
  }

  lemma SumSingleton<T>(x: T, f: T -> real)
    ensures Sum([x], f) == f(x)
  {
    SumCons([x], f);
    SumCons([x][1..], f);
  }

  /** Termwise addition: if every term of `h` is the matching term of `f`
      plus that of `g`, the sums add up the same way. */
  lemma {:induction false} SumPointwise<T>(s: seq<T>, f: T -> real, g: T -> real, h: T -> real)
    requires forall i :: 0 <= i < |s| ==> h(s[i]) == f(s[i]) + g(s[i])
    ensures Sum(s, h) == Sum(s, f) + Sum(s, g)
    decreases |s|
  {
    SumCons(s, f);
    SumCons(s, g);
    SumCons(s, h);
    if s != [] {
      assert h(s[0]) == f(s[0]) + g(s[0]);
      SumPointwise(s[1..], f, g, h);
    }
  }

  /** Two term functions that agree on every element give the same sum. */
  lemma {:induction false} SumAgree<T>(s: seq<T>, f: T -> real, g: T -> real)
    requires forall i :: 0 <= i < |s| ==> f(s[i]) == g(s[i])
    ensures Sum(s, f) == Sum(s, g)
    decreases |s|
  {
    SumCons(s, f);
    SumCons(s, g);
    if s != [] {
      assert f(s[0]) == g(s[0]);
      SumAgree(s[1..], f, g);
    }
  }

  /** Replacing one element changes the sum by the difference of its terms. */
  lemma SumUpdate<T>(s: seq<T>, i: nat, x: T, f: T -> real)
    requires i < |s|
    ensures Sum(s[i := x], f) == Sum(s, f) - f(s[i]) + f(x)
  {
    assert s == s[..i] + [s[i]] + s[i + 1..];
    assert s[i := x] == s[..i] + [x] + s[i + 1..];
    SumAppend(s[..i] + [s[i]], s[i + 1..], f);
    SumAppend(s[..i], [s[i]], f);
    SumAppend(s[..i] + [x], s[i + 1..], f);
    SumAppend(s[..i], [x], f);
    SumSingleton(s[i], f);
    SumSingleton(x, f);
  }

  /** Dropping one element lowers the sum by that element's term. */
  lemma SumRemove<T>(s: seq<T>, i: nat, f: T -> real)
    requires i < |s|
    ensures Sum(s[..i] + s[i + 1..], f) == Sum(s, f) - f(s[i])
  {
    assert s == s[..i] + [s[i]] + s[i + 1..];
    SumAppend(s[..i] + [s[i]], s[i + 1..], f);
    SumAppend(s[..i], [s[i]], f);
    SumAppend(s[..i], s[i + 1..], f);
    SumSingleton(s[i], f);
  }
}
