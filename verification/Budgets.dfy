/** The three nested deadlines of a guarded query, in saturating 64-bit arithmetic. */
module Budgets {
  import opened Numbers

  const EXPLAIN_BUDGET_MS := 5_000
  const EXPLAIN_GRACE_MS := 500
  const EXPLAIN_RESERVE_MS := 200

  /** The cap the server is given for the guardrail's EXPLAIN. */
  function ExplainBudget(queryTimeout: nat): (r: nat)
    ensures r >= 1
  {
    var room := Min(SatAdd(EXPLAIN_BUDGET_MS, EXPLAIN_GRACE_MS), SatSub(queryTimeout, EXPLAIN_RESERVE_MS));
    Max(SatSub(Max(room, 1), EXPLAIN_GRACE_MS), 1)
  }

  /** When the client gives up on that EXPLAIN. */
  function ExplainDeadline(budget: nat): nat {
    SatAdd(budget, EXPLAIN_GRACE_MS)
  }

  /**
   From the smallest timeout the configuration admits, the server's cap comes a whole grace period
   before the client's, and the client's leaves the reserve before the query's.
   */
  lemma DeadlinesNest(queryTimeout: nat)
    requires 1000 <= queryTimeout <= U64_MAX
    ensures var budget := ExplainBudget(queryTimeout);
            && budget + EXPLAIN_GRACE_MS == ExplainDeadline(budget)
            && ExplainDeadline(budget) + EXPLAIN_RESERVE_MS <= queryTimeout
            && budget == Min(5_000, queryTimeout - 700) && ExplainDeadline(budget) == Min(5_500, queryTimeout - 200)
  {
  }
}
