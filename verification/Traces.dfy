/** A run of a state machine that is built step by step. */
module Traces {
  /** The states passed through, and the steps between them. */
  datatype Trace<S, A> = Trace(states: seq<S>, actions: seq<A>) {
    function Last(): S
      requires states != []
    {
      states[|states| - 1]
    }

    ghost predicate Extends(t: Trace<S, A>) { t.states <= states && t.actions <= actions }
  }
}
