/** Sequences that repeat another one in order: what retransmission makes of a queue. */
module Stutters {

  /** xs is ys with every element repeated one or more times. */
  predicate Stutter<T(==)>(xs: seq<T>, ys: seq<T>) {
    if xs == [] then ys == []
    else if ys == [] then false
    else
      var m, n := |xs| - 1, |ys| - 1;
      xs[m] == ys[n] && (Stutter(xs[..m], ys) || Stutter(xs[..m], ys[..n]))
  }

  lemma StutterMore<T>(xs: seq<T>, ys: seq<T>, y: T)
    requires Stutter(xs, ys) || Stutter(xs, ys + [y])
    ensures Stutter(xs + [y], ys + [y])
  {
    assert (xs + [y])[..|xs|] == xs;
    assert (ys + [y])[..|ys|] == ys;
  }

  lemma {:induction false} StutterLength<T>(xs: seq<T>, ys: seq<T>)
    requires Stutter(xs, ys)
    ensures |xs| >= |ys|
    ensures |xs| == |ys| ==> xs == ys
  {
    if xs != [] {
      var m, n := |xs| - 1, |ys| - 1;
      if Stutter(xs[..m], ys[..n]) {
        StutterLength(xs[..m], ys[..n]);
      } else {
        StutterLength(xs[..m], ys);
      }
      if |xs| == |ys| {
        assert xs == xs[..m] + [xs[m]] && ys == ys[..n] + [ys[n]];
      }
    }
  }

  /** f says of every element of xs which element of ys it is a copy of: the first one
      first, the last one last, and from one to the next at most one further. */
  predicate Copies<T(==)>(xs: seq<T>, ys: seq<T>, f: seq<nat>) {
    && |f| == |xs| && (xs == [] <==> ys == [])
    && (forall i :: 0 <= i < |xs| ==> f[i] < |ys| && xs[i] == ys[f[i]])
    && (forall i :: 0 < i < |xs| ==> f[i - 1] <= f[i] <= f[i - 1] + 1)
    && (xs != [] ==> f[0] == 0 && f[|f| - 1] == |ys| - 1)
  }

  lemma CopiesOneMore<T>(xs: seq<T>, ys: seq<T>, f: seq<nat>, y: T)
    requires Copies(xs, ys, f)
    ensures Copies(xs + [y], ys + [y], f + [|ys|])
  {
  }

  lemma CopiesOnceAgain<T>(xs: seq<T>, ys: seq<T>, f: seq<nat>)
    requires ys != [] && Copies(xs, ys, f)
    ensures Copies(xs + [ys[|ys| - 1]], ys, f + [|ys| - 1])
  {
  }

  /** Repetition in order, without recursion. */
  lemma {:induction false} StutterCopies<T>(xs: seq<T>, ys: seq<T>) returns (f: seq<nat>)
    requires Stutter(xs, ys)
    ensures Copies(xs, ys, f)
  {
    if xs == [] {
      f := [];
    } else {
      var m, n := |xs| - 1, |ys| - 1;
      assert xs == xs[..m] + [ys[n]] && ys == ys[..n] + [ys[n]];
      if Stutter(xs[..m], ys) {
        f := StutterCopies(xs[..m], ys);
        CopiesOnceAgain(xs[..m], ys, f);
        f := f + [n];
      } else {
        f := StutterCopies(xs[..m], ys[..n]);
        CopiesOneMore(xs[..m], ys[..n], f, ys[n]);
        f := f + [n];
      }
    }
  }
}
