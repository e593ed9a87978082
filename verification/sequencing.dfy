/**
 * Running a step function over a sequence of inputs, one after another,
 * threading a state and concatenating what each step emits. This is how a
 * single-threaded event loop composes callbacks that each run to completion.
 */
module Sequencing {

  /** Apply `step` to each input in turn; the output is the concatenation of the steps' outputs. */
  function Fold<S, A, E>(s: S, inputs: seq<A>, step: (S, A) -> (S, seq<E>)): (S, seq<E>)
    decreases |inputs|
  {
    if |inputs| == 0 then (s, [])
    else
      var first := step(s, inputs[0]);
      var rest := Fold(first.0, inputs[1..], step);
      (rest.0, first.1 + rest.1)
  }

  /** Folding `a + b` is folding `a`, then `b` from the state `a` left, with the outputs joined. */
  lemma {:induction false} FoldAppend<S, A, E>(s: S, a: seq<A>, b: seq<A>, step: (S, A) -> (S, seq<E>))
    ensures
      var ra := Fold(s, a, step);
      var rb := Fold(ra.0, b, step);
      Fold(s, a + b, step) == (rb.0, ra.1 + rb.1)
    decreases |a|
  {
    if |a| == 0 {
      assert a + b == b;
      assert [] + Fold(s, b, step).1 == Fold(s, b, step).1;
    } else {
      var ab := a + b;
      assert ab[0] == a[0] && ab[1..] == a[1..] + b;
      var first := step(s, a[0]);
      FoldAppend(first.0, a[1..], b, step);
      var r1 := Fold(first.0, a[1..], step);
      var r2 := Fold(r1.0, b, step);
      assert first.1 + (r1.1 + r2.1) == (first.1 + r1.1) + r2.1;
    }
  }
}
