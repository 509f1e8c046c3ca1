/** Machines that read inputs one by one, with outputs as they go or without. */
module Mealy {

  datatype Outcome<+S, +O> = Outcome(state: S, outputs: seq<O>)

  function Feed<S, I, O>(step: (S, I) -> Outcome<S, O>, s: S, inputs: seq<I>): Outcome<S, O>
    decreases |inputs|
  {
    if inputs == [] then Outcome(s, [])
    else
      var first := step(s, inputs[0]);
      var rest := Feed(step, first.state, inputs[1..]);
      Outcome(rest.state, first.outputs + rest.outputs)
  }

  /** Feeding a stream in two pieces is feeding it at once. */
  lemma {:induction false} FeedAppend<S, I, O>(step: (S, I) -> Outcome<S, O>, s: S, a: seq<I>, b: seq<I>)
    ensures var x := Feed(step, s, a); var y := Feed(step, x.state, b);
      Feed(step, s, a + b) == Outcome(y.state, x.outputs + y.outputs)
    decreases |a|
  {
    if a == [] {
      assert a + b == b;
    } else {
      var first := step(s, a[0]);
      FeedAppend(step, first.state, a[1..], b);
      var x := Feed(step, first.state, a[1..]);
      Concatenated(first.outputs, x.outputs, Feed(step, x.state, b).outputs);
      assert (a + b)[0] == a[0] && (a + b)[1..] == a[1..] + b;
    }
  }

  lemma Concatenated<T>(a: seq<T>, b: seq<T>, c: seq<T>)
    ensures a + (b + c) == (a + b) + c
  {
  }

  lemma FeedOne<S, I, O>(step: (S, I) -> Outcome<S, O>, s: S, i: I)
    ensures Feed(step, s, [i]) == step(s, i)
  {
    var first := step(s, i);
    assert [i][1..] == [];
    assert Feed(step, first.state, []) == Outcome(first.state, []);
    assert first.outputs + [] == first.outputs;
  }

  function Thread<S, I>(step: (S, I) -> S, s: S, inputs: seq<I>): S
    decreases |inputs|
  {
    if inputs == [] then s else Thread(step, step(s, inputs[0]), inputs[1..])
  }

  lemma {:induction false} ThreadAppend<S, I>(step: (S, I) -> S, s: S, a: seq<I>, b: seq<I>)
    ensures Thread(step, s, a + b) == Thread(step, Thread(step, s, a), b)
    decreases |a|
  {
    if a == [] {
      assert a + b == b;
    } else {
      ThreadAppend(step, step(s, a[0]), a[1..], b);
      assert (a + b)[1..] == a[1..] + b;
    }
  }
}
