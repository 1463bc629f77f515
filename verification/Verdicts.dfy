/** What a guarded session comes to, on either database. */
module Verdicts {
  import opened Outcomes
  import Guardrail

  /** What the guardrail's EXPLAIN produced. */
  datatype Plan = Estimated(estimate: Guardrail.Estimate) | PlanFailed | TooSlow | Broken {
    /** The connection is dropped rather than closed politely. */
    predicate Discard() {
      TooSlow? || Broken?
    }
  }

  /** There is a limit to compare an estimate with. */
  predicate Plans(g: Guardrail.Guard) {
    g.mode != Guardrail.Off
  }

  /** What a query command answers. */
  datatype Outcome = Ran | QueryRefused | PlanTooSlow | DbError | Timeout

  // ----- runs -----

  /** A message and what came of it. */
  datatype Exchange<M, R> = Exchange(message: M, reply: R)

  /** The messages of a run, in order. */
  function Messages<M, R>(run: seq<Exchange<M, R>>): seq<M> {
    seq(|run|, i requires 0 <= i < |run| => run[i].message)
  }

  /** What came of the message, if it was sent. */
  function ReplyTo<M(==), R>(run: seq<Exchange<M, R>>, message: M): Option<R> {
    if run == [] then None
    else if run[|run| - 1].message == message then Some(run[|run| - 1].reply)
    else ReplyTo(run[..|run| - 1], message)
  }

  lemma OneMoreExchange<M(!new), R>(run: seq<Exchange<M, R>>, message: M, reply: R)
    ensures var more := run + [Exchange(message, reply)];
            && Messages(more) == Messages(run) + [message]
            && ReplyTo(more, message) == Some(reply)
            && forall m :: m != message ==> ReplyTo(more, m) == ReplyTo(run, m)
  {
    var more := run + [Exchange(message, reply)];
    assert more[..|more| - 1] == run;
  }
}
