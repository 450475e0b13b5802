/** Sums of a natural-number measure over a sequence, and what one edit of the sequence does to them. */
module SeqSums {

  function Total<T>(s: seq<T>, f: T -> nat): nat {
    if s == [] then 0 else f(s[0]) + Total(s[1..], f)
  }

  /** The measure of numbers that are their own weight. */
  function Itself(n: nat): nat {
    n
  }

  lemma {:induction false} TotalAppend<T>(a: seq<T>, b: seq<T>, f: T -> nat)
    ensures Total(a + b, f) == Total(a, f) + Total(b, f)
  {
    if a == [] {
      assert a + b == b;
    } else {
      assert (a + b)[1..] == a[1..] + b;
      TotalAppend(a[1..], b, f);
    }
  }

  lemma {:induction false} TotalSnoc<T>(a: seq<T>, x: T, f: T -> nat)
    ensures Total(a + [x], f) == Total(a, f) + f(x)
  {
    TotalAppend(a, [x], f);
    assert Total([x][1..], f) == 0;
  }

  lemma {:induction false} TotalSplit<T>(s: seq<T>, i: nat, f: T -> nat)
    requires i < |s|
    ensures Total(s, f) == Total(s[..i], f) + f(s[i]) + Total(s[i + 1..], f)
  {
    assert s == (s[..i] + [s[i]]) + s[i + 1..];
    TotalAppend(s[..i] + [s[i]], s[i + 1..], f);
    TotalSnoc(s[..i], s[i], f);
  }

  lemma {:induction false} TotalRemove<T>(s: seq<T>, i: nat, f: T -> nat)
    requires i < |s|
    ensures Total(s[..i] + s[i + 1..], f) == Total(s, f) - f(s[i])
  {
    TotalSplit(s, i, f);
    TotalAppend(s[..i], s[i + 1..], f);
  }

  lemma {:induction false} TotalUpdate<T>(s: seq<T>, i: nat, x: T, f: T -> nat)
    requires i < |s|
    ensures Total(s[i := x], f) == Total(s, f) - f(s[i]) + f(x)
  {
    TotalSplit(s, i, f);
    TotalSplit(s[i := x], i, f);
    assert s[i := x][..i] == s[..i] && s[i := x][i + 1..] == s[i + 1..];
  }

  lemma {:induction false} TotalBound<T>(s: seq<T>, f: T -> nat, bound: nat)
    requires forall i | 0 <= i < |s| :: f(s[i]) <= bound
    ensures Total(s, f) <= |s| * bound
  {
    if s != [] {
      TotalBound(s[1..], f, bound);
    }
  }
}
