module Sums {
  function Sum<T(!new)>(f: T -> nat, xs: seq<T>): nat {
    if xs == [] then 0 else f(xs[0]) + Sum(f, xs[1..])
  }

  lemma {:induction false} SumUpdate<T(!new)>(f: T -> nat, xs: seq<T>, k: nat, x: T)
    requires k < |xs|
    ensures Sum(f, xs[k := x]) + f(xs[k]) == Sum(f, xs) + f(x)
  {
    if k == 0 {
      assert xs[k := x] == [x] + xs[1..];
    } else {
      assert xs[k := x] == [xs[0]] + xs[1..][k - 1 := x];
      SumUpdate(f, xs[1..], k - 1, x);
    }
  }
}
