/** nyet's side of a guarded PostgreSQL query: what is sent, in which state, and when nothing is. */
module PgSession {
  import opened Outcomes
  import opened PgServer
  import opened Budgets
  import opened Verdicts
  import G = Guardrail

  const GOODBYE: Message := [Rollback]

  /** The cap the server is lent for planning, when there is any. */
  function Arm(g: G.Guard, budget: nat): Option<nat> {
    if Plans(g) then Some(budget) else None
  }

  /** What the first message of a session is. */
  function Opening(arm: Option<nat>): Message {
    match arm
    case None => [BeginReadOnly]
    case Some(budget) => [BeginReadOnly, Savepoint, SetTimeout(budget)]
  }

  function Repair(restore: nat): Message {
    [RollbackToSavepoint, SetTimeout(restore)]
  }

  predicate Ready(s: State, timeout: nat) {
    s.txn == Active && s.timeout == timeout
  }

  /** Arming the guardrail opens the transaction and lends the planner its own, shorter cap. */
  lemma ArmingOpens(timeout: nat, budget: nat)
    ensures var s := After(Connected(timeout), Opening(Some(budget)));
            s == Some(State(Active, budget, Some(timeout), timeout))
    ensures After(Connected(timeout), Opening(None)) == Some(State(Active, timeout, None, timeout))
  {
    var m := Opening(Some(budget));
    assert m[1..] == [Savepoint, SetTimeout(budget)] && m[1..][1..] == [SetTimeout(budget)];
    assert m[1..][1..][1..] == [] && [BeginReadOnly][1..] == [];
    var begun := State(Active, timeout, None, timeout);
    assert After(Connected(timeout), m) == After(begun, m[1..]);
    assert After(begun, m[1..]) == After(begun.(saved := Some(timeout)), m[1..][1..]);
    assert After(begun.(saved := Some(timeout)), m[1..][1..])
        == After(begun.(saved := Some(timeout), timeout := budget), []);
  }

  /** However the EXPLAIN ended on the server, a repair that succeeds gives the query its own cap back. */
  lemma RepairRestores(armed: State, planned: State, restore: nat)
    requires armed.txn == Active && armed.saved.Some?
    requires After(armed, [Explain]) == Some(planned) || StoppedAt(armed, [Explain], planned)
    ensures planned.txn != Idle && planned.saved == armed.saved
    ensures var s := After(planned, Repair(restore)); s.Some? && Ready(s.value, restore)
    ensures After(planned, [RollbackToSavepoint]) == Some(armed.(timeout := armed.saved.value))
  {
    assert [Explain][1..] == [] && [Explain][..0] == [];
    assert Repair(restore)[1..] == [SetTimeout(restore)] && [SetTimeout(restore)][1..] == [];
    assert [RollbackToSavepoint][1..] == [];
  }

  /** The agent's statement travels alone, in a live read-only transaction, under its own cap. */
  predicate QuerySentRight(message: Message, before: State, timeout: nat) {
    Query in message ==> message == [Query] && Ready(before, timeout)
  }

  /** So does the EXPLAIN, under the cap lent to it. */
  predicate ExplainSentRight(message: Message, before: State, budget: nat) {
    Explain in message ==> message == [Explain] && Ready(before, budget)
  }

  predicate EverySentRight(log: seq<Sent>, timeout: nat, budget: nat) {
    forall i :: 0 <= i < |log| ==>
      QuerySentRight(log[i].message, log[i].before, timeout) && ExplainSentRight(log[i].message, log[i].before, budget)
  }

  type Run = seq<Exchange<Message, Reply>>

  /** A run as the client sees it. */
  function Transcript(log: seq<Sent>): Run {
    seq(|log|, i requires 0 <= i < |log| => Exchange(log[i].message, log[i].reply))
  }

  // ----- what a run comes to -----

  predicate Confirmed(reply: Option<Reply>) {
    reply.Some? && reply.value.Done?
  }

  /** The EXPLAIN was answered with a plan that the guardrail refuses. */
  predicate PlanRefused(g: G.Guard, parse: G.NumberParser, reply: Option<Reply>) {
    Confirmed(reply) && G.Refuses(g, G.PostgresEstimate(parse, reply.value.answer))
  }

  /** The EXPLAIN was cancelled by the server, or outlasted the client's own deadline for it. */
  predicate PlanCutOff(reply: Option<Reply>) {
    reply == Some(Failed(true)) || reply == Some(Elapsed)
  }

  /** The query's own deadline passed before some message was answered; the goodbye does not count. */
  predicate RanOut(run: Run) {
    exists i :: 0 <= i < |run| && run[i].reply == Expired && run[i].message != GOODBYE
  }

  /** The session was opened, and the guardrail let the query pass. */
  predicate Passed(run: Run, g: G.Guard, parse: G.NumberParser, budget: nat, timeout: nat) {
    && Confirmed(ReplyTo(run, Opening(Arm(g, budget))))
    && (Plans(g) ==>
          Confirmed(ReplyTo(run, Repair(timeout))) && !PlanRefused(g, parse, ReplyTo(run, [Explain])))
  }

  /** Which outcome a run has, read off the replies. */
  ghost predicate Decides(run: Run, g: G.Guard, parse: G.NumberParser, budget: nat, timeout: nat,
                          outcome: Outcome) {
    && (ReplyTo(run, [Query]).Some? <==> Passed(run, g, parse, budget, timeout))
    && (outcome == QueryRefused
        <==> PlanRefused(g, parse, ReplyTo(run, [Explain])) && Confirmed(ReplyTo(run, Repair(timeout))))
    && (outcome == PlanTooSlow <==> PlanCutOff(ReplyTo(run, [Explain])))
    && (outcome == Timeout <==> RanOut(run))
    && (outcome == Ran <==> Confirmed(ReplyTo(run, [Query])) && ReplyTo(run, [Describe]) != Some(Expired))
  }

  lemma OneMore(run: Run, message: Message, reply: Reply)
    ensures var more := run + [Exchange(message, reply)];
            && Messages(more) == Messages(run) + [message]
            && ReplyTo(more, message) == Some(reply)
            && (forall m :: m != message ==> ReplyTo(more, m) == ReplyTo(run, m))
            && (RanOut(more) <==> RanOut(run) || (reply == Expired && message != GOODBYE))
  {
    OneMoreExchange(run, message, reply);
    var more := run + [Exchange(message, reply)];
    if RanOut(run) {
      var i :| 0 <= i < |run| && run[i].reply == Expired && run[i].message != GOODBYE;
      assert more[i] == run[i];
    }
    assert more[|run|] == Exchange(message, reply);
  }

  // ----- what a run may look like -----

  /** The complete runs, by outcome: everything that was sent. */
  ghost predicate CompleteRun(sent: seq<Message>, plans: bool, budget: nat, timeout: nat, outcome: Outcome) {
    var opening := [Opening(if plans then Some(budget) else None)];
    var guarded := if plans then opening + [[Explain], Repair(timeout)] else opening;
    match outcome
    case Ran =>
      || sent == guarded + [[Query], GOODBYE]
      || sent == guarded + [[Query], [Describe], GOODBYE]
    case QueryRefused => plans && sent == guarded + [GOODBYE]
    case PlanTooSlow => plans && sent == opening + [[Explain]]
    case DbError =>
      || sent == opening                        // the session could not be set up
      || (plans && sent == guarded)             // the repair failed
      || sent == guarded + [[Query], GOODBYE]   // the query failed
    case Timeout =>
      || sent == opening
      || (plans && (sent == opening + [[Explain]] || sent == guarded))
      || sent == guarded + [[Query]]
      || sent == guarded + [[Query], [Describe]]
  }

  /** Read off a complete run: the query went out at most once, and not at all when it was refused. */
  lemma QueryAtMostOnce(sent: seq<Message>, plans: bool, budget: nat, timeout: nat, outcome: Outcome)
    requires CompleteRun(sent, plans, budget, timeout, outcome)
    ensures sent != [] && sent[0] != [] && sent[0][0] == BeginReadOnly
    ensures forall i, j :: 0 <= i < j < |sent| ==> !(Query in sent[i] && Query in sent[j])
    ensures outcome == QueryRefused || outcome == PlanTooSlow ==> forall m :: m in sent ==> Query !in m
    ensures outcome == Ran ==> exists m :: m in sent && Query in m
    ensures !plans ==> forall m :: m in sent ==> Explain !in m
  {
    var guarded := if plans then [Opening(Some(budget)), [Explain], Repair(timeout)] else [Opening(None)];
    assert forall m :: m in guarded ==> Query !in m;
    assert Query in [Query] && Query !in GOODBYE && Query !in [Describe];
    if plans {
      assert guarded == [Opening(Some(budget))] + [[Explain], Repair(timeout)];
    }
    if outcome == Ran {
      assert [Query] in sent by {
        assert sent[|guarded|] == [Query];
      }
    }
  }

  // ----- the ends of a run -----

  lemma Different(arm: Option<nat>, restore: nat)
    ensures Opening(arm) !in {[Explain], [Query], [Describe], Repair(restore), GOODBYE}
    ensures Repair(restore) !in {[Explain], [Query], [Describe], GOODBYE}
  {
    assert Opening(arm)[0] == BeginReadOnly && Repair(restore)[0] == RollbackToSavepoint;
    assert [Explain][0] == Explain && [Query][0] == Query && [Describe][0] == Describe && GOODBYE[0] == Rollback;
  }

  lemma OpeningDecides(g: G.Guard, parse: G.NumberParser, budget: nat, timeout: nat, reply: Reply)
    requires reply != Elapsed
    ensures var run := [Exchange(Opening(Arm(g, budget)), reply)];
            && (reply.Done? && !Plans(g) ==> Guarded(run, g, budget, timeout))
            && (!reply.Done? ==>
                  EndsWith(run, g, parse, budget, timeout, if reply == Expired then Timeout else DbError))
  {
    var opening := Opening(Arm(g, budget));
    Different(Arm(g, budget), timeout);
    OneMore([], opening, reply);
    assert [] + [Exchange(opening, reply)] == [Exchange(opening, reply)];
  }

  /** The run has this outcome, by its messages and by its replies. */
  ghost predicate EndsWith(run: Run, g: G.Guard, parse: G.NumberParser, budget: nat, timeout: nat, outcome: Outcome) {
    && Decides(run, g, parse, budget, timeout, outcome)
    && CompleteRun(Messages(run), Plans(g), budget, timeout, outcome)
  }

  /** Everything is set for the agent's statement, unless the plan is refused. */
  predicate Guarded(run: Run, g: G.Guard, budget: nat, timeout: nat) {
    && Messages(run) == [Opening(Arm(g, budget))] + (if Plans(g) then [[Explain], Repair(timeout)] else [])
    && !RanOut(run) && ReplyTo(run, [Query]) == None && ReplyTo(run, [Describe]) == None
    && Confirmed(ReplyTo(run, Opening(Arm(g, budget))))
    && (Plans(g) ==> Confirmed(ReplyTo(run, Repair(timeout))))
    && (!Plans(g) ==> ReplyTo(run, [Explain]) == None)
    && !PlanCutOff(ReplyTo(run, [Explain]))
  }

  lemma PlanDecides(g: G.Guard, parse: G.NumberParser, budget: nat, timeout: nat, begun: Reply, explained: Reply)
    requires Plans(g) && begun.Done?
    ensures var run := [Exchange(Opening(Some(budget)), begun)] + [Exchange([Explain], explained)];
            && (explained == Expired ==> EndsWith(run, g, parse, budget, timeout, Timeout))
            && (PlanCutOff(Some(explained)) ==> EndsWith(run, g, parse, budget, timeout, PlanTooSlow))
  {
    var opening := Opening(Some(budget));
    Different(Some(budget), timeout);
    OneMore([], opening, begun);
    assert [] + [Exchange(opening, begun)] == [Exchange(opening, begun)];
    OneMore([Exchange(opening, begun)], [Explain], explained);
  }

  lemma RepairDecides(g: G.Guard, parse: G.NumberParser, budget: nat, timeout: nat, begun: Reply, explained: Reply,
                      repaired: Reply)
    requires Plans(g) && begun.Done? && !PlanCutOff(Some(explained)) && explained != Expired && repaired != Elapsed
    ensures var run := [Exchange(Opening(Some(budget)), begun)] + [Exchange([Explain], explained)]
                       + [Exchange(Repair(timeout), repaired)];
            && (repaired.Done? ==> Guarded(run, g, budget, timeout) && ReplyTo(run, [Explain]) == Some(explained))
            && (!repaired.Done? ==>
                  EndsWith(run, g, parse, budget, timeout, if repaired == Expired then Timeout else DbError))
  {
    Different(Some(budget), timeout);
    var opening := Opening(Some(budget));
    OneMore([], opening, begun);
    assert [] + [Exchange(opening, begun)] == [Exchange(opening, begun)];
    OneMore([Exchange(opening, begun)], [Explain], explained);
    OneMore([Exchange(opening, begun)] + [Exchange([Explain], explained)], Repair(timeout), repaired);
  }

  lemma RefusalDecides(run: Run, g: G.Guard, parse: G.NumberParser, budget: nat, timeout: nat, farewell: Reply)
    requires Guarded(run, g, budget, timeout) && PlanRefused(g, parse, ReplyTo(run, [Explain]))
    ensures EndsWith(run + [Exchange(GOODBYE, farewell)], g, parse, budget, timeout, QueryRefused)
  {
    Different(Arm(g, budget), timeout);
    OneMore(run, GOODBYE, farewell);
  }

  /** The statement was sent, and perhaps the column names were asked for. */
  function Asked(run: Run, queried: Reply, described: Option<Reply>): Run {
    var asked := run + [Exchange([Query], queried)];
    if described.Some? then asked + [Exchange([Describe], described.value)] else asked
  }

  /** What the statement and its column names come to. */
  predicate Fetches(queried: Reply, described: Option<Reply>, outcome: Outcome) {
    && (described.Some? ==> queried.Done?)
    && outcome == if queried == Expired || described == Some(Expired) then Timeout
                  else if queried.Done? then Ran
                  else DbError
  }

  lemma AskedReplies(run: Run, g: G.Guard, budget: nat, timeout: nat, queried: Reply, described: Option<Reply>)
    requires Guarded(run, g, budget, timeout)
    ensures var asked := Asked(run, queried, described);
            && ReplyTo(asked, [Query]) == Some(queried) && ReplyTo(asked, [Describe]) == described
            && (forall m :: m != [Query] && m != [Describe] ==> ReplyTo(asked, m) == ReplyTo(run, m))
            && (RanOut(asked) <==> queried == Expired || described == Some(Expired))
            && Messages(asked) == Messages(run) + (if described.Some? then [[Query], [Describe]] else [[Query]])
  {
    assert [Query][0] == Query && [Describe][0] == Describe && GOODBYE[0] == Rollback;
    OneMore(run, [Query], queried);
    if described.Some? {
      OneMore(run + [Exchange([Query], queried)], [Describe], described.value);
    }
  }

  lemma FetchDecides(run: Run, g: G.Guard, parse: G.NumberParser, budget: nat, timeout: nat, queried: Reply,
                     described: Option<Reply>, outcome: Outcome, farewell: Reply)
    requires Guarded(run, g, budget, timeout) && !PlanRefused(g, parse, ReplyTo(run, [Explain]))
    requires Fetches(queried, described, outcome)
    ensures var asked := Asked(run, queried, described);
            EndsWith(if outcome == Timeout then asked else asked + [Exchange(GOODBYE, farewell)],
                     g, parse, budget, timeout, outcome)
  {
    var asked := Asked(run, queried, described);
    Different(Arm(g, budget), timeout);
    AskedReplies(run, g, budget, timeout, queried, described);
    OneMore(asked, GOODBYE, farewell);
  }

  class Postgres {
    const timeout: nat          // the query's own statement timeout
    const queryTimeout: nat     // its deadline on the client
    const conn: Connection

    constructor (timeout: nat, queryTimeout: nat)
      ensures this.timeout == timeout && this.queryTimeout == queryTimeout
      ensures fresh(conn) && conn.server == Connected(timeout) && conn.log == [] && !conn.dropped
    {
      this.timeout := timeout;
      this.queryTimeout := queryTimeout;
      conn := new Connection(timeout);
    }

    ghost predicate Talking()
      reads this, conn
    {
      !conn.dropped && EverySentRight(conn.log, timeout, ExplainBudget(queryTimeout))
    }

    ghost function Said(): Run
      reads conn
    {
      Transcript(conn.log)
    }

    /** Sends a message that is right to send now. */
    method Say(message: Message, timed: bool := false) returns (reply: Reply)
      requires Talking()
      requires QuerySentRight(message, conn.server, timeout)
      requires ExplainSentRight(message, conn.server, ExplainBudget(queryTimeout))
      modifies conn
      ensures Talking() && Said() == old(Said()) + [Exchange(message, reply)]
      ensures reply.Done? ==> After(old(conn.server), message) == Some(conn.server)
      ensures reply.Failed? ==> StoppedAt(old(conn.server), message, conn.server)
      ensures reply == Elapsed ==> timed
      ensures old(conn.dead) || reply == Lost ==> reply == Lost && conn.dead
    {
      reply := conn.Send(message, timed);
      assert Transcript(conn.log) == old(Transcript(conn.log)) + [Exchange(message, reply)];
    }

    /** The read-only transaction, and in the same message whatever the guardrail needs. */
    method Begin(arm: Option<nat>) returns (reply: Reply)
      requires Talking() && conn.server == Connected(timeout)
      modifies conn
      ensures Talking() && Said() == old(Said()) + [Exchange(Opening(arm), reply)] && reply != Elapsed
      ensures reply.Done? ==>
                conn.server == State(Active, if arm.Some? then arm.value else timeout,
                                     if arm.Some? then Some(timeout) else None, timeout)
    {
      ArmingOpens(timeout, if arm.Some? then arm.value else 0);
      reply := Say(Opening(arm));
    }

    /** EXPLAIN under the lent cap, then the repair; after a plan that took too long, nothing. */
    method GuardedPlan(parse: G.NumberParser)
      returns (plan: Plan, expired: bool, ghost explained: Reply, ghost repaired: Option<Reply>)
      requires Talking() && Ready(conn.server, ExplainBudget(queryTimeout)) && conn.server.saved.Some?
      modifies conn
      ensures Talking()
      ensures var planned := old(Said()) + [Exchange([Explain], explained)];
              match repaired
              case None => Said() == planned
              case Some(reply) => Said() == planned + [Exchange(Repair(timeout), reply)] && reply != Elapsed
      ensures repaired.None? <==> PlanCutOff(Some(explained)) || explained == Expired
      ensures plan == TooSlow <==> repaired.None?
      ensures plan == Broken <==> repaired.Some? && !repaired.value.Done?
      ensures plan.Estimated? <==> repaired.Some? && repaired.value.Done? && explained.Done?
      ensures plan.Estimated? ==> plan.estimate == G.PostgresEstimate(parse, explained.answer)
      ensures expired <==> explained == Expired || repaired == Some(Expired)
      ensures !plan.Discard() ==> Ready(conn.server, timeout)
    {
      ghost var armed := conn.server;
      var reply := Say([Explain], true);
      explained, repaired := reply, None;
      match reply {
        case Expired =>
          return TooSlow, true, explained, None;
        case Elapsed =>
          return TooSlow, false, explained, None;
        case Failed(cancelled) =>
          if cancelled {
            return TooSlow, false, explained, None;
          }
          plan := PlanFailed;
        case Lost =>
          plan := PlanFailed;
        case Done(answer) =>
          plan := Estimated(G.PostgresEstimate(parse, answer));
      }
      ghost var planned := conn.server;
      var repair := Say(Repair(timeout));
      repaired := Some(repair);
      if !repair.Done? {
        return Broken, repair == Expired, explained, repaired;
      }
      expired := false;
      RepairRestores(armed, planned, timeout);
    }

    /** The agent's query, and for an empty answer the names of its columns. */
    method Fetch() returns (outcome: Outcome, ghost queried: Reply, ghost described: Option<Reply>)
      requires Talking() && Ready(conn.server, timeout)
      modifies conn
      ensures Talking()
      ensures Said() == Asked(old(Said()), queried, described) && Fetches(queried, described, outcome)
    {
      var reply := Say([Query]);
      queried, described := reply, None;
      if reply == Expired {
        return Timeout, queried, None;
      }
      if !reply.Done? {
        return DbError, queried, None;
      }
      var empty: bool := *;
      if empty {
        var names := Say([Describe]);
        described := Some(names);
        if names == Expired {
          return Timeout, queried, described;
        }
      }
      outcome := Ran;
    }

    /**
     One guarded query, whatever the server answers and whichever timer fires. The replies decide the
     outcome. The query goes out at most once, alone, in a live read-only transaction and under its own
     cap; a refusal means it was never sent; a connection that cannot be left clean is dropped with
     nothing more said.
     */
    method Execute(guard: G.Guard, parse: G.NumberParser) returns (outcome: Outcome)
      requires !conn.dropped && conn.log == [] && conn.server == Connected(timeout)
      modifies conn
      ensures EverySentRight(conn.log, timeout, ExplainBudget(queryTimeout))
      ensures EndsWith(Transcript(conn.log), guard, parse, ExplainBudget(queryTimeout), timeout, outcome)
      ensures conn.dropped
    {
      ghost var budget := ExplainBudget(queryTimeout);
      var begun := Begin(Arm(guard, ExplainBudget(queryTimeout)));
      assert Said() == [Exchange(Opening(Arm(guard, budget)), begun)];
      OpeningDecides(guard, parse, budget, timeout, begun);
      if !begun.Done? {
        conn.Drop();
        return if begun == Expired then Timeout else DbError;
      }
      var plan := PlanFailed;
      if Plans(guard) {
        var expired;
        ghost var explained, repaired;
        plan, expired, explained, repaired := GuardedPlan(parse);
        PlanDecides(guard, parse, budget, timeout, begun, explained);
        if repaired.Some? {
          RepairDecides(guard, parse, budget, timeout, begun, explained, repaired.value);
        }
        if plan.Discard() {
          conn.Drop();
          return if expired then Timeout else if plan.Broken? then DbError else PlanTooSlow;
        }
      }
      outcome := Conclude(guard, parse, plan);
    }

    /** What follows on a session that is ready for the statement. */
    method Conclude(guard: G.Guard, parse: G.NumberParser, plan: Plan) returns (outcome: Outcome)
      requires Talking() && Ready(conn.server, timeout) && Guarded(Said(), guard, ExplainBudget(queryTimeout), timeout)
      requires plan.Estimated? <==> Confirmed(ReplyTo(Said(), [Explain]))
      requires plan.Estimated? ==>
                 plan.estimate == G.PostgresEstimate(parse, ReplyTo(Said(), [Explain]).value.answer)
      modifies conn
      ensures EverySentRight(conn.log, timeout, ExplainBudget(queryTimeout))
      ensures EndsWith(Transcript(conn.log), guard, parse, ExplainBudget(queryTimeout), timeout, outcome)
      ensures conn.dropped
    {
      ghost var guarded := Said();
      if plan.Estimated? && G.Refuses(guard, plan.estimate) {
        var farewell := Say(GOODBYE);
        RefusalDecides(guarded, guard, parse, ExplainBudget(queryTimeout), timeout, farewell);
        conn.Drop();
        return QueryRefused;
      }
      ghost var queried, described;
      outcome, queried, described := Fetch();
      var farewell := Lost;
      if outcome != Timeout {
        farewell := Say(GOODBYE);
      }
      FetchDecides(guarded, guard, parse, ExplainBudget(queryTimeout), timeout, queried, described, outcome, farewell);
      conn.Drop();
    }
  }
}
