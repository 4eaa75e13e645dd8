/** Pieces shared by both slices: an optional value, the rule by which a
    rejected asynchronous request turns its (possibly missing) message into
    the error string the slice stores, and replaying a sequence of actions
    through a reducer. */
module Lifecycle {

  /** Some/None, standing in for the source's `string | null` and for an
      optional field such as `notes?`. */
  datatype Option<+T> = None | Some(value: T)

  /** A stored error is either absent or a non-empty message. */
  predicate WellFormedError(e: Option<string>) {
    e.None? || e.value != ""
  }

  /** The error a rejected request stores: the failure's message when it has a
      non-empty one, otherwise the slice's fallback text (JavaScript's
      `message || fallback`, where both a missing and an empty message are
      falsy). */
  function RejectionMessage(message: Option<string>, fallback: string): (r: string)
    ensures message.Some? && message.value != "" ==> r == message.value
    ensures message.None? || message.value == "" ==> r == fallback
    ensures fallback != "" ==> r != ""
  {
    match message
    case Some(m) => if m != "" then m else fallback
    case None => fallback
  }

  /** The state a reducer reaches from `s` by dispatching `acts` in order. */
  function Run<S, A>(step: (S, A) -> S, s: S, acts: seq<A>): S
    decreases |acts|
  {
    if |acts| == 0 then s else Run(step, step(s, acts[0]), acts[1..])
  }

  /** Dispatching `a + b` is dispatching `a` and then `b`. */
  lemma {:induction false} RunConcat<S, A>(step: (S, A) -> S, s: S, a: seq<A>, b: seq<A>)
    ensures Run(step, s, a + b) == Run(step, Run(step, s, a), b)
    decreases |a|
  {
    if |a| == 0 {
      assert a + b == b;
    } else {
      assert (a + b)[1..] == a[1..] + b;
      RunConcat(step, step(s, a[0]), a[1..], b);
    }
  }

  /** Dispatching two actions is applying the reducer twice. */
  lemma RunPair<S, A>(step: (S, A) -> S, s: S, x: A, y: A)
    ensures Run(step, s, [x, y]) == step(step(s, x), y)
  {
    assert [x, y][1..] == [y];
    assert [y][1..] == [];
    var s1 := step(s, x);
    assert Run(step, s, [x, y]) == Run(step, s1, [y]);
    assert Run(step, s1, [y]) == Run(step, step(s1, y), []);
  }

  /** A property every single step keeps holds after any sequence of steps. */
  lemma {:induction false} RunPreserves<S, A>(step: (S, A) -> S, inv: S -> bool, s: S, acts: seq<A>)
    requires forall t, a :: inv(t) ==> inv(step(t, a))
    requires inv(s)
    ensures inv(Run(step, s, acts))
    decreases |acts|
  {
    if |acts| > 0 {
      RunPreserves(step, inv, step(s, acts[0]), acts[1..]);
    }
  }
}
