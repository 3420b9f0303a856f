/** Finite sums of reals, in the two shapes the firmware's loops accumulate:
    over a vector of readings, and over the records of a list. */
module Sums {

  function Min(a: real, b: real): real {
    if a < b then a else b
  }

  function Max(a: real, b: real): real {
    if a < b then b else a
  }

  function Positive(x: real): real {
    if x > 0.0 then x else 0.0
  }

  /** v[0] + ... + v[n-1]. */
  function Prefix(v: seq<real>, n: nat): real
    requires n <= |v|
  {
    if n == 0 then 0.0 else Prefix(v, n - 1) + v[n - 1]
  }

  function Total(v: seq<real>): real {
    Prefix(v, |v|)
  }

  /** The sum of f over the elements of s. */
  function Sum<T>(f: T -> real, s: seq<T>): real {
    if s == [] then 0.0 else f(s[0]) + Sum(f, s[1..])
  }

  lemma {:induction false} SumAppend<T>(f: T -> real, a: seq<T>, b: seq<T>)
    ensures Sum(f, a + b) == Sum(f, a) + Sum(f, b)
  {
    if a == [] {
      assert a + b == b;
    } else {
      assert (a + b)[1..] == a[1..] + b;
      SumAppend(f, a[1..], b);
    }
  }

  lemma SumSingle<T>(f: T -> real, x: T)
    ensures Sum(f, [x]) == f(x)
  {
    assert [x] == [x] + [];
    SumUpdate(f, [x], 0, x);
    assert Sum(f, [x]) == f([x][0]) + Sum(f, [x][1..]);
  }

  lemma SumUpdate<T>(f: T -> real, s: seq<T>, i: nat, x: T)
    requires i < |s|
    ensures Sum(f, s[i := x]) == Sum(f, s) - f(s[i]) + f(x)
  {
    assert s == s[..i] + ([s[i]] + s[i + 1..]);
    assert s[i := x] == s[..i] + ([x] + s[i + 1..]);
    SumAppend(f, s[..i], [s[i]] + s[i + 1..]);
    SumAppend(f, s[..i], [x] + s[i + 1..]);
    assert ([s[i]] + s[i + 1..])[1..] == s[i + 1..] == ([x] + s[i + 1..])[1..];
  }

  lemma {:induction false} SumPermutation<T>(f: T -> real, a: seq<T>, b: seq<T>)
    requires multiset(a) == multiset(b)
    ensures Sum(f, a) == Sum(f, b)
    decreases |a|
  {
    if a == [] {
      assert |multiset(b)| == |multiset(a)| == 0;
      assert b == [];
    } else {
      assert a[0] in multiset(b);
      var i :| 0 <= i < |b| && b[i] == a[0];
      var rest := b[..i] + b[i + 1..];
      assert b == b[..i] + ([b[i]] + b[i + 1..]);
      SumAppend(f, b[..i], [b[i]] + b[i + 1..]);
      SumAppend(f, b[..i], b[i + 1..]);
      assert ([b[i]] + b[i + 1..])[1..] == b[i + 1..];
      assert a == [a[0]] + a[1..];
      assert multiset(a[1..]) == multiset(a) - multiset{a[0]};
      assert multiset(rest) == multiset(b) - multiset{b[i]};
      SumPermutation(f, a[1..], rest);
    }
  }

  lemma {:induction false} PrefixLe(u: seq<real>, v: seq<real>, n: nat)
    requires n <= |u| && n <= |v|
    requires forall i :: 0 <= i < n ==> u[i] <= v[i]
    ensures Prefix(u, n) <= Prefix(v, n)
  {
    if n > 0 {
      PrefixLe(u, v, n - 1);
    }
  }

  /** Totals of a pointwise sum. */
  lemma {:induction false} PrefixAdd(u: seq<real>, v: seq<real>, w: seq<real>, n: nat)
    requires n <= |u| && n <= |v| && n <= |w|
    requires forall i :: 0 <= i < n ==> w[i] == u[i] + v[i]
    ensures Prefix(w, n) == Prefix(u, n) + Prefix(v, n)
  {
    if n > 0 {
      PrefixAdd(u, v, w, n - 1);
    }
  }

  lemma {:induction false} PrefixZero(v: seq<real>, n: nat)
    requires n <= |v|
    requires forall i :: 0 <= i < n ==> v[i] == 0.0
    ensures Prefix(v, n) == 0.0
  {
    if n > 0 {
      PrefixZero(v, n - 1);
    }
  }

  /** A sum of nothing negative is 0 exactly when every term is. */
  lemma {:induction false} PrefixZeroExactly(v: seq<real>, n: nat)
    requires n <= |v| && forall i :: 0 <= i < n ==> v[i] >= 0.0
    ensures Prefix(v, n) >= 0.0
    ensures Prefix(v, n) == 0.0 <==> forall i :: 0 <= i < n ==> v[i] == 0.0
  {
    if n > 0 {
      PrefixZeroExactly(v, n - 1);
    }
  }

  /** Totals that differ in one term. */
  lemma {:induction false} PrefixBump(u: seq<real>, v: seq<real>, j: nat, q: real, n: nat)
    requires n <= |u| && n <= |v|
    requires forall i :: 0 <= i < n ==> v[i] == u[i] + if i == j then q else 0.0
    ensures Prefix(v, n) == Prefix(u, n) + if j < n then q else 0.0
  {
    if n > 0 {
      PrefixBump(u, v, j, q, n - 1);
    }
  }
}
