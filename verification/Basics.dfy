/** Results, options, and sums over sequences, shared by every other module. */
module Basics {
  /** Any way of counting tokens: neither additive nor monotone. */
  type Tokenizer = string -> nat

  datatype Option<+T> = None | Some(value: T)

  datatype Result<+T, +E> = Ok(value: T) | Err(error: E)

  function Map<A, B>(f: A -> B, xs: seq<A>): (ys: seq<B>)
    ensures |ys| == |xs|
    ensures forall i :: 0 <= i < |xs| ==> ys[i] == f(xs[i])
  {
    seq(|xs|, i requires 0 <= i < |xs| => f(xs[i]))
  }

  function Sum(xs: seq<nat>): nat {
    if xs == [] then 0 else Sum(xs[..|xs| - 1]) + xs[|xs| - 1]
  }

  lemma {:induction false} SumConcat(xs: seq<nat>, ys: seq<nat>)
    ensures Sum(xs + ys) == Sum(xs) + Sum(ys)
  {
    if ys == [] {
      assert xs + ys == xs;
    } else {
      SumConcat(xs, ys[..|ys| - 1]);
      assert (xs + ys)[..|xs + ys| - 1] == xs + ys[..|ys| - 1];
    }
  }

  lemma {:induction false} SumUpdate(xs: seq<nat>, i: nat, v: nat)
    requires i < |xs|
    ensures Sum(xs[i := v]) + xs[i] == Sum(xs) + v
  {
    var n := |xs| - 1;
    if i == n {
      assert xs[i := v][..n] == xs[..n];
    } else {
      SumUpdate(xs[..n], i, v);
      assert xs[i := v][..n] == xs[..n][i := v];
    }
  }

  lemma {:induction false} SumMonotone(xs: seq<nat>, ys: seq<nat>)
    requires |xs| == |ys|
    requires forall i :: 0 <= i < |xs| ==> xs[i] <= ys[i]
    ensures Sum(xs) <= Sum(ys)
  {
    if xs != [] {
      SumMonotone(xs[..|xs| - 1], ys[..|ys| - 1]);
    }
  }

  lemma {:induction false} SumStrictlyMonotone(xs: seq<nat>, ys: seq<nat>, k: nat)
    requires |xs| == |ys| && k < |xs|
    requires forall i :: 0 <= i < |xs| ==> xs[i] <= ys[i]
    requires xs[k] < ys[k]
    ensures Sum(xs) < Sum(ys)
  {
    var n := |xs| - 1;
    if k == n {
      SumMonotone(xs[..n], ys[..n]);
    } else {
      SumStrictlyMonotone(xs[..n], ys[..n], k);
    }
  }

  lemma MapSumSnoc<A>(f: A -> nat, xs: seq<A>, x: A)
    ensures Sum(Map(f, xs + [x])) == Sum(Map(f, xs)) + f(x)
  {
    assert Map(f, xs + [x])[..|xs|] == Map(f, xs);
  }

  lemma MapSumConcat<A>(f: A -> nat, xs: seq<A>, ys: seq<A>)
    ensures Sum(Map(f, xs + ys)) == Sum(Map(f, xs)) + Sum(Map(f, ys))
  {
    assert Map(f, xs + ys) == Map(f, xs) + Map(f, ys);
    SumConcat(Map(f, xs), Map(f, ys));
  }

  /** The least index whose flag is set, or -1: what an early-returning scan computes. */
  function First(flags: seq<bool>): (r: int)
    ensures -1 <= r < |flags|
    ensures r == -1 ==> forall j :: 0 <= j < |flags| ==> !flags[j]
    ensures r >= 0 ==> flags[r] && forall j :: 0 <= j < r ==> !flags[j]
  {
    if flags == [] then -1
    else
      var r := First(flags[..|flags| - 1]);
      if r >= 0 then r
      else if flags[|flags| - 1] then |flags| - 1
      else -1
  }

  lemma Associate<T>(a: seq<T>, b: seq<T>, c: seq<T>)
    ensures a + b + c == a + (b + c)
  {
  }

  function Flatten<T>(parts: seq<seq<T>>): seq<T> {
    if parts == [] then [] else Flatten(parts[..|parts| - 1]) + parts[|parts| - 1]
  }

  lemma FlattenCons<T>(head: seq<T>, parts: seq<seq<T>>)
    ensures Flatten([head] + parts) == head + Flatten(parts)
  {
    FlattenConcat([head], parts);
    assert [head][..0] == [];
  }

  lemma {:induction false} FlattenConcat<T>(a: seq<seq<T>>, b: seq<seq<T>>)
    ensures Flatten(a + b) == Flatten(a) + Flatten(b)
    decreases |b|
  {
    if b == [] {
      assert a + b == a;
    } else {
      var init, last := b[..|b| - 1], b[|b| - 1];
      FlattenConcat(a, init);
      assert (a + b)[..|a + b| - 1] == a + init && (a + b)[|a + b| - 1] == last;
    }
  }
}
