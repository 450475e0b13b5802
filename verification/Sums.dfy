/** Sums of a natural-number measure over the values of a finite map. */
module Sums {

  ghost function Sum<T(!new)>(m: map<nat, T>, f: T -> nat): nat
    decreases |m|
  {
    if m == map[] then 0
    else
      var k :| k in m;
      f(m[k]) + Sum(m - {k}, f)
  }

  lemma {:induction false} SumNothing<T(!new)>(m: map<nat, T>, f: T -> nat)
    requires m == map[]
    ensures Sum(m, f) == 0
  {}

  lemma {:induction false} SumRemove<T(!new)>(m: map<nat, T>, k: nat, f: T -> nat)
    requires k in m
    ensures Sum(m, f) == f(m[k]) + Sum(m - {k}, f)
    decreases |m|
  {
    var p :| p in m && Sum(m, f) == f(m[p]) + Sum(m - {p}, f);
    if p != k {
      SumRemove(m - {p}, k, f);
      SumRemove(m - {k}, p, f);
      assert m - {p} - {k} == m - {k} - {p};
    }
  }

  lemma {:induction false} SumSet<T(!new)>(m: map<nat, T>, k: nat, v: T, f: T -> nat)
    ensures Sum(m[k := v], f) == Sum(m - {k}, f) + f(v)
    ensures k in m ==> Sum(m[k := v], f) == Sum(m, f) - f(m[k]) + f(v)
    ensures k !in m ==> Sum(m[k := v], f) == Sum(m, f) + f(v)
  {
    SumRemove(m[k := v], k, f);
    assert m[k := v] - {k} == m - {k};
    if k in m {
      SumRemove(m, k, f);
    } else {
      assert m - {k} == m;
    }
  }

  lemma {:induction false} SumDrop<T(!new)>(m: map<nat, T>, k: nat, f: T -> nat)
    ensures k in m ==> Sum(m - {k}, f) == Sum(m, f) - f(m[k]) && f(m[k]) <= Sum(m, f)
    ensures k !in m ==> Sum(m - {k}, f) == Sum(m, f)
  {
    if k in m {
      SumRemove(m, k, f);
    } else {
      assert m - {k} == m;
    }
  }

  lemma {:induction false} SumAtLeast<T(!new)>(m: map<nat, T>, k: nat, f: T -> nat)
    requires k in m
    ensures f(m[k]) <= Sum(m, f)
  {
    SumRemove(m, k, f);
  }

  lemma {:induction false} SumBound<T(!new)>(m: map<nat, T>, f: T -> nat, bound: nat)
    requires forall k | k in m :: f(m[k]) <= bound
    ensures Sum(m, f) <= |m| * bound
    decreases |m|
  {
    if m != map[] {
      var k :| k in m;
      SumRemove(m, k, f);
      SumBound(m - {k}, f, bound);
      assert |m - {k}| == |m| - 1;
      assert |m| * bound == (|m| - 1) * bound + bound;
    }
  }

  lemma {:induction false} SumLessEqual<T(!new)>(m: map<nat, T>, f: T -> nat, g: T -> nat)
    requires forall k | k in m :: f(m[k]) <= g(m[k])
    ensures Sum(m, f) <= Sum(m, g)
    decreases |m|
  {
    if m != map[] {
      var k :| k in m;
      SumRemove(m, k, f);
      SumRemove(m, k, g);
      SumLessEqual(m - {k}, f, g);
    }
  }
}
