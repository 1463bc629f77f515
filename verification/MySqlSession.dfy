/** nyet's side of a guarded MySQL or MariaDB query: the flavor is learned from the errors it causes. */
module MySqlSession {
  import opened Outcomes
  import opened MySqlServer
  import opened Numbers
  import opened Budgets
  import opened Verdicts
  import opened MySqlEstimate
  import G = Guardrail

  /** Which timeout variable the server accepts, as far as is known. */
  datatype TimeoutVar = Unknown | MaxExecutionTime | MaxStatementTime | Neither

  /** One of the two names. */
  type Name = v: TimeoutVar | v == MaxExecutionTime || v == MaxStatementTime witness MaxExecutionTime

  /** The names still worth trying, in order; the label of the connection decides which comes first. */
  function Candidates(learned: TimeoutVar, mariadb: bool): seq<Name> {
    match learned
    case Unknown => if mariadb then [MaxStatementTime, MaxExecutionTime] else [MaxExecutionTime, MaxStatementTime]
    case MaxExecutionTime => [MaxExecutionTime]
    case MaxStatementTime => [MaxStatementTime]
    case Neither => []
  }

  function DivCeil(a: nat, b: nat): nat
    requires b > 0
  {
    (a + b - 1) / b
  }

  function SetStatement(v: Name, ms: nat): Stmt {
    if v == MaxExecutionTime then SetExecutionTime(Max(ms, 1)) else SetStatementTime(Max(DivCeil(ms, 1000), 1))
  }

  /** The one name the server of each flavor accepts. */
  function OwnVar(flavor: Flavor): TimeoutVar {
    match flavor
    case MySql => MaxExecutionTime
    case MariaDb => MaxStatementTime
    case Exotic => Neither
  }

  /** What has been learned is true. */
  predicate Honest(learned: TimeoutVar, flavor: Flavor) {
    learned == Unknown || learned == OwnVar(flavor)
  }

  /** The cap of `ms` milliseconds, where the server can have one. */
  predicate Capped(s: State, ms: nat) {
    match s.flavor
    case MySql => s.cap == Some(Max(ms, 1))
    case MariaDb => s.cap == Some(Max(DivCeil(ms, 1000), 1) * 1000)
    case Exotic => s.cap == None
  }

  /** A cap is never shorter than asked for, and on MariaDB longer by less than a second. */
  lemma CapIsTight(s: State, ms: nat)
    requires Capped(s, ms) && ms >= 1
    ensures s.flavor == MySql ==> s.cap == Some(ms)
    ensures s.flavor == MariaDb ==> ms <= s.cap.value < ms + 1000
  {
  }

  /** While what is known is true, the server's own name is among the candidates, and first where the label is right. */
  lemma OwnNameIsTried(learned: TimeoutVar, mariadb: bool, flavor: Flavor)
    requires Honest(learned, flavor)
    ensures OwnVar(flavor) != Neither <==> OwnVar(flavor) in Candidates(learned, mariadb)
    ensures learned != Unknown && flavor != Exotic ==> Candidates(learned, mariadb) == [OwnVar(flavor)]
    ensures |Candidates(learned, mariadb)| <= 2
    ensures learned == Unknown ==>
              Candidates(learned, mariadb)[0] == OwnVar(if mariadb then MariaDb else MySql)
  {
  }

  /** The agent's statement travels alone, in the one read-only transaction, under its own cap. */
  predicate QuerySentRight(message: Message, before: State, timeout: nat) {
    Query in message ==> message == [Query] && before.active && before.starts == 1 && Capped(before, timeout)
  }

  predicate ExplainSentRight(message: Message, before: State, budget: nat) {
    Explain in message ==> message == [Explain] && before.active && Capped(before, budget)
  }

  predicate EverySentRight(log: seq<Sent>, timeout: nat, budget: nat) {
    forall i :: 0 <= i < |log| ==>
      QuerySentRight(log[i].message, log[i].before, timeout) && ExplainSentRight(log[i].message, log[i].before, budget)
  }

  type Run = seq<Exchange<Message, Reply>>

  /** A run as the client sees it. */
  function Transcript(log: seq<Sent>): Run {
    seq(|log|, i requires 0 <= i < |log| => Exchange(log[i].message, log[i].reply))
  }

  // ----- what a run comes to -----

  predicate Confirmed(reply: Option<Reply>) {
    reply.Some? && reply.value.Done?
  }

  ghost function EstimateOf(steps: seq<PlanRow>): G.Estimate {
    G.Estimate(None, MySqlEstimate.Estimate(steps), false)
  }

  /** The EXPLAIN was answered with a plan that the guardrail refuses. */
  ghost predicate PlanRefused(g: G.Guard, reply: Option<Reply>) {
    Confirmed(reply) && G.Refuses(g, EstimateOf(reply.value.steps))
  }

  /** The EXPLAIN was cancelled by the server, or outlasted the client's own deadline for it. */
  predicate PlanCutOff(reply: Option<Reply>) {
    reply == Some(Failed(true)) || reply == Some(Elapsed)
  }

  /** The query's own deadline passed before some message was answered; the goodbye does not count. */
  predicate RanOut(run: Run) {
    exists i :: 0 <= i < |run| && run[i].reply == Expired && run[i].message != [Rollback]
  }

  /** A message of the session itself: the transaction and its caps. */
  predicate SetsUp(message: Message) {
    message != [Explain] && message != [Query] && message != [Describe] && message != [Rollback]
  }

  /** No such message failed; a spelling of the cap that the server does not know is no failure. */
  predicate Smooth(run: Run) {
    forall i :: 0 <= i < |run| && SetsUp(run[i].message) ==> run[i].reply.Done? || run[i].reply == UnknownVariable
  }

  /** Which outcome a run has, read off the replies. */
  ghost predicate Decides(run: Run, g: G.Guard, outcome: Outcome) {
    var explained := ReplyTo(run, [Explain]);
    && (ReplyTo(run, [Query]).Some?
        <==> Smooth(run) && !PlanRefused(g, explained) && !PlanCutOff(explained) && explained != Some(Expired))
    && (outcome == QueryRefused <==> Smooth(run) && PlanRefused(g, explained))
    && (outcome == PlanTooSlow <==> PlanCutOff(explained))
    && (outcome == Timeout <==> RanOut(run))
    && (outcome == Ran <==> Confirmed(ReplyTo(run, [Query])) && ReplyTo(run, [Describe]) != Some(Expired))
  }

  lemma OneMoreReply(run: Run, message: Message, reply: Reply)
    ensures var more := run + [Exchange(message, reply)];
            && Messages(more) == Messages(run) + [message]
            && ReplyTo(more, message) == Some(reply)
            && (forall m :: m != message ==> ReplyTo(more, m) == ReplyTo(run, m))
            && (RanOut(more) <==> RanOut(run) || (reply == Expired && message != [Rollback]))
            && (Smooth(more) <==> Smooth(run) && (SetsUp(message) ==> reply.Done? || reply == UnknownVariable))
  {
    OneMoreExchange(run, message, reply);
    var more := run + [Exchange(message, reply)];
    assert forall i :: 0 <= i < |run| ==> more[i] == run[i];
    assert more[|run|] == Exchange(message, reply);
  }

  /** What a message of the session itself changes: nothing that has been asked. */
  ghost predicate SetUpSaid(before: Run, after: Run, reply: Reply) {
    && (forall m :: !SetsUp(m) ==> ReplyTo(after, m) == ReplyTo(before, m))
    && (Smooth(after) <==> Smooth(before) && (reply.Done? || reply == UnknownVariable))
    && (RanOut(after) <==> RanOut(before) || reply == Expired)
  }

  lemma SetUpTwice(before: Run, between: Run, after: Run, reply: Reply)
    requires SetUpSaid(before, between, UnknownVariable) && SetUpSaid(between, after, reply)
    ensures SetUpSaid(before, after, reply)
  {
  }

  /** What planning comes to, read off the replies of a session that was well until then. */
  ghost predicate PlanHeard(run: Run, plan: Plan, expired: bool) {
    var explained := ReplyTo(run, [Explain]);
    && (plan == TooSlow <==> PlanCutOff(explained) || explained == Some(Expired))
    && (plan == Broken <==> !Smooth(run))
    && (plan.Estimated? <==> Smooth(run) && Confirmed(explained))
    && (plan.Estimated? ==> plan.estimate == EstimateOf(explained.value.steps))
    && (plan == Broken || expired ==> !PlanCutOff(explained))
    && (explained == Some(Expired) ==> plan == TooSlow && expired)
    && (expired <==> RanOut(run)) && (expired ==> plan.Discard())
  }

  /** The runs differ in their goodbye at most. */
  ghost predicate SameRun(before: Run, after: Run) {
    && (forall m :: m != [Rollback] ==> ReplyTo(after, m) == ReplyTo(before, m))
    && (Smooth(after) <==> Smooth(before)) && (RanOut(after) <==> RanOut(before))
  }

  /** The agent's statement was sent, and perhaps its column names were asked for. */
  function Asked(run: Run, queried: Reply, described: Option<Reply>): Run {
    var asked := run + [Exchange([Query], queried)];
    if described.Some? then asked + [Exchange([Describe], described.value)] else asked
  }

  /** The transaction is begun once more, or not; when something failed, it may have been. */
  predicate Starts(before: State, after: State, begins: bool, done: bool) {
    var n := before.starts + if begins then 1 else 0;
    after.starts <= n && (done ==> after.starts == n && after.active == (begins || before.active))
  }

  /** Nothing has failed, and neither a plan nor the statement has been asked for. */
  predicate Begun(run: Run) {
    && Smooth(run) && !RanOut(run)
    && ReplyTo(run, [Explain]) == None && ReplyTo(run, [Query]) == None && ReplyTo(run, [Describe]) == None
  }

  lemma OpeningReplies(run: Run, after: Run, g: G.Guard, begun: Reply)
    requires SetUpSaid([], run, begun) && SameRun(run, after) && begun != UnknownVariable && begun != Elapsed
    ensures begun.Done? ==> Begun(run)
    ensures !begun.Done? ==> Decides(after, g, if begun == Expired then Timeout else DbError)
  {
    NotSetUp();
  }

  lemma NotSetUp()
    ensures !SetsUp([Explain]) && !SetsUp([Query]) && !SetsUp([Describe])
    ensures [Rollback] !in {[Explain], [Query], [Describe]} && [Query] !in {[Explain], [Describe]}
    ensures [Explain] != [Describe]
  {
    assert [Explain][0] == Explain && [Query][0] == Query && [Describe][0] == Describe && [Rollback][0] == Rollback;
  }

  /** Planning went well enough for the statement to be considered. */
  ghost predicate IsPlanned(run: Run, plan: Plan) {
    var explained := ReplyTo(run, [Explain]);
    && Smooth(run) && !RanOut(run) && ReplyTo(run, [Query]) == None && ReplyTo(run, [Describe]) == None
    && !PlanCutOff(explained) && explained != Some(Expired)
    && (plan.Estimated? <==> Confirmed(explained))
    && (plan.Estimated? ==> plan.estimate == EstimateOf(explained.value.steps))
  }

  lemma DiscardReplies(run: Run, after: Run, g: G.Guard, plan: Plan, expired: bool)
    requires PlanHeard(run, plan, expired) && plan.Discard() && SameRun(run, after)
    requires ReplyTo(run, [Query]) == None && ReplyTo(run, [Describe]) == None
    ensures Decides(after, g, if expired then Timeout else if plan.Broken? then DbError else PlanTooSlow)
  {
    NotSetUp();
  }

  lemma RefusalReplies(run: Run, after: Run, g: G.Guard, plan: Plan)
    requires IsPlanned(run, plan) && SameRun(run, after) && plan.Estimated? && G.Refuses(g, plan.estimate)
    ensures Decides(after, g, QueryRefused)
  {
    NotSetUp();
  }

  lemma AskedReplies(run: Run, after: Run, g: G.Guard, plan: Plan, queried: Reply, described: Option<Reply>,
                     outcome: Outcome)
    requires IsPlanned(run, plan) && !(plan.Estimated? && G.Refuses(g, plan.estimate))
    requires SameRun(Asked(run, queried, described), after)
    requires outcome == Ran <==> queried.Done? && described != Some(Expired)
    requires outcome == Timeout <==> queried == Expired || described == Some(Expired)
    requires outcome == Ran || outcome == DbError || outcome == Timeout
    ensures Decides(after, g, outcome)
  {
    NotSetUp();
    OneMoreReply(run, [Query], queried);
    if described.Some? {
      OneMoreReply(run + [Exchange([Query], queried)], [Describe], described.value);
    }
  }

  // ----- complete runs -----

  /** One spelling of the cap, behind the lead when that still has to run. */
  function Attempt(lead: Option<Stmt>, spelling: Name, ms: nat): Message {
    if lead.Some? then [lead.value, SetStatement(spelling, ms)] else [SetStatement(spelling, ms)]
  }

  /**
   What setting the cap takes, from the `k`-th candidate on, on a server that accepts `own`: the lead
   with the first attempt, or alone.
   */
  function Setting(lead: Option<Stmt>, candidates: seq<Name>, k: nat, own: TimeoutVar, ms: nat): seq<Message>
    decreases |candidates| - k
  {
    if k >= |candidates| then (if lead.Some? then [[lead.value]] else [])
    else
      [Attempt(lead, candidates[k], ms)]
      + if candidates[k] == own then [] else Setting(None, candidates, k + 1, own, ms)
  }

  lemma SettingUnfolds(lead: Option<Stmt>, candidates: seq<Name>, k: nat, own: TimeoutVar, ms: nat,
                       said: seq<Message>)
    requires k < |candidates|
    ensures var next := said + [Attempt(lead, candidates[k], ms)];
            var rest := if candidates[k] == own then [] else Setting(None, candidates, k + 1, own, ms);
            && said < next <= said + Setting(lead, candidates, k, own, ms)
            && said + Setting(lead, candidates, k, own, ms) == next + rest
  {
    OneFurther(said, Attempt(lead, candidates[k], ms),
               if candidates[k] == own then [] else Setting(None, candidates, k + 1, own, ms));
  }

  lemma OneFurther(said: seq<Message>, message: Message, rest: seq<Message>)
    ensures said + ([message] + rest) == said + [message] + rest
    ensures said < said + [message] <= said + ([message] + rest)
  {
  }

  /** Some of it was sent, and then it failed. */
  predicate StoppedIn(sent: seq<Message>, whole: seq<Message>) {
    sent != [] && sent <= whole
  }

  /** The transaction and the query's cap. */
  function Opening(flavor: Flavor, mariadb: bool, timeout: nat): seq<Message> {
    Setting(Some(StartReadOnly), Candidates(Unknown, mariadb), 0, OwnVar(flavor), timeout)
  }

  /** A cap once the server's own spelling is known: one message, or none on an exotic server. */
  function Recap(flavor: Flavor, ms: nat): seq<Message> {
    if flavor == Exotic then [] else [[SetStatement(OwnVar(flavor), ms)]]
  }

  /** What planning starts with, the session being open. */
  function Planned(flavor: Flavor, budget: nat): seq<Message> {
    Recap(flavor, budget) + [[Explain]]
  }

  /** Everything up to the agent's statement. */
  function Guarded(flavor: Flavor, mariadb: bool, plans: bool, budget: nat, timeout: nat): seq<Message> {
    var opening := Opening(flavor, mariadb, timeout);
    if plans then opening + Planned(flavor, budget) + Recap(flavor, timeout) else opening
  }

  /** What follows on a session that is ready for the statement, by outcome. */
  predicate Ending(tail: seq<Message>, plans: bool, outcome: Outcome) {
    match outcome
    case Ran => tail == [[Query], [Rollback]] || tail == [[Query], [Describe], [Rollback]]
    case QueryRefused => plans && tail == [[Rollback]]
    case PlanTooSlow => false
    case DbError => tail == [[Query], [Rollback]]
    case Timeout => tail == [[Query]] || tail == [[Query], [Describe]]
  }

  /** A session that never got ready. Only a failed opening is closed politely; after planning nothing more is said. */
  ghost predicate CutShort(sent: seq<Message>, flavor: Flavor, mariadb: bool, plans: bool, budget: nat, timeout: nat,
                           outcome: Outcome) {
    var opening := Opening(flavor, mariadb, timeout);
    var planned := opening + Planned(flavor, budget);
    var broken := plans && flavor != Exotic
                  && (sent == opening + Recap(flavor, budget) || sent == planned + Recap(flavor, timeout));
    match outcome
    case PlanTooSlow => plans && sent == planned
    case DbError => broken || exists begun :: StoppedIn(begun, opening) && sent == begun + [[Rollback]]
    case Timeout => broken || StoppedIn(sent, opening) || (plans && sent == planned)
    case _ => false
  }

  /** The complete runs, by outcome: everything that was sent. */
  ghost predicate CompleteRun(sent: seq<Message>, flavor: Flavor, mariadb: bool, plans: bool, budget: nat, timeout: nat,
                              outcome: Outcome) {
    var guarded := Guarded(flavor, mariadb, plans, budget, timeout);
    || CutShort(sent, flavor, mariadb, plans, budget, timeout, outcome)
    || (guarded <= sent && Ending(sent[|guarded|..], plans, outcome))
  }

  lemma OpeningFails(begun: seq<Message>, flavor: Flavor, mariadb: bool, plans: bool, budget: nat, timeout: nat)
    requires StoppedIn(begun, Opening(flavor, mariadb, timeout))
    ensures CompleteRun(begun, flavor, mariadb, plans, budget, timeout, Timeout)
    ensures CompleteRun(begun + [[Rollback]], flavor, mariadb, plans, budget, timeout, DbError)
  {
  }

  /** What planning sends, and how far it gets. */
  predicate PlanSaid(was: seq<Message>, said: seq<Message>, flavor: Flavor, budget: nat, timeout: nat, plan: Plan) {
    var planned := was + Planned(flavor, budget);
    match plan
    case TooSlow => said == planned
    case Broken => flavor != Exotic && (said == was + Recap(flavor, budget) || said == planned + Recap(flavor, timeout))
    case _ => said == planned + Recap(flavor, timeout)
  }

  lemma PlanDiscarded(said: seq<Message>, flavor: Flavor, mariadb: bool, budget: nat, timeout: nat, plan: Plan)
    requires PlanSaid(Opening(flavor, mariadb, timeout), said, flavor, budget, timeout, plan) && plan.Discard()
    ensures CompleteRun(said, flavor, mariadb, true, budget, timeout, Timeout)
    ensures CompleteRun(said, flavor, mariadb, true, budget, timeout, if plan.Broken? then DbError else PlanTooSlow)
  {
  }

  lemma {:induction false} SettingHasNoQuery(lead: Option<Stmt>, candidates: seq<Name>, k: nat, own: TimeoutVar,
                                             ms: nat)
    requires lead.Some? ==> lead.value == StartReadOnly
    ensures forall m :: m in Setting(lead, candidates, k, own, ms) ==> Query !in m && Explain !in m
    decreases |candidates| - k
  {
    if k < |candidates| {
      SettingHasNoQuery(None, candidates, k + 1, own, ms);
    }
  }

  predicate Silent(sent: seq<Message>, stmt: Stmt) {
    forall m :: m in sent ==> stmt !in m
  }

  lemma GuardedIsSilent(flavor: Flavor, mariadb: bool, plans: bool, budget: nat, timeout: nat)
    ensures Silent(Opening(flavor, mariadb, timeout) + Planned(flavor, budget), Query)
    ensures Silent(Guarded(flavor, mariadb, plans, budget, timeout), Query)
    ensures Silent(Opening(flavor, mariadb, timeout), Query) && Silent(Opening(flavor, mariadb, timeout), Explain)
  {
    SettingHasNoQuery(Some(StartReadOnly), Candidates(Unknown, mariadb), 0, OwnVar(flavor), timeout);
  }

  lemma CutShortIsSilent(sent: seq<Message>, flavor: Flavor, mariadb: bool, plans: bool, budget: nat, timeout: nat,
                         outcome: Outcome)
    requires CutShort(sent, flavor, mariadb, plans, budget, timeout, outcome)
    ensures Silent(sent, Query) && (!plans ==> Silent(sent, Explain))
  {
    GuardedIsSilent(flavor, mariadb, plans, budget, timeout);
    var opening := Opening(flavor, mariadb, timeout);
    if exists begun :: StoppedIn(begun, opening) && sent == begun + [[Rollback]] {
      var begun :| StoppedIn(begun, opening) && sent == begun + [[Rollback]];
      assert forall m :: m in sent ==> m in opening || m == [Rollback];
    }
  }

  lemma EndingQueriesOnce(tail: seq<Message>, plans: bool, outcome: Outcome)
    requires Ending(tail, plans, outcome)
    ensures Silent(tail, Explain) && forall i :: 1 <= i < |tail| ==> Query !in tail[i]
    ensures outcome == QueryRefused || outcome == PlanTooSlow ==> Silent(tail, Query)
    ensures outcome == Ran ==> tail != [] && tail[0] == [Query]
  {
  }

  /** Read off a complete run: the query went out at most once, and not at all when it was refused. */
  lemma QueryAtMostOnce(sent: seq<Message>, flavor: Flavor, mariadb: bool, plans: bool, budget: nat, timeout: nat,
                        outcome: Outcome)
    requires CompleteRun(sent, flavor, mariadb, plans, budget, timeout, outcome)
    ensures forall i, j :: 0 <= i < j < |sent| ==> !(Query in sent[i] && Query in sent[j])
    ensures outcome == QueryRefused || outcome == PlanTooSlow ==> Silent(sent, Query)
    ensures outcome == Ran ==> !Silent(sent, Query)
    ensures !plans ==> Silent(sent, Explain)
  {
    if CutShort(sent, flavor, mariadb, plans, budget, timeout, outcome) {
      CutShortIsSilent(sent, flavor, mariadb, plans, budget, timeout, outcome);
    } else {
      var guarded := Guarded(flavor, mariadb, plans, budget, timeout);
      GuardedIsSilent(flavor, mariadb, plans, budget, timeout);
      EndingQueriesOnce(sent[|guarded|..], plans, outcome);
      assert sent == guarded + sent[|guarded|..];
      if outcome == Ran {
        assert sent[|guarded|] in sent && Query in sent[|guarded|];
      }
    }
  }

  class MySqlClient {
    const mariadb: bool         // the label of the connection, right or wrong
    const timeout: nat
    const queryTimeout: nat
    const conn: Connection
    var learned: TimeoutVar

    constructor (mariadb: bool, timeout: nat, queryTimeout: nat, flavor: Flavor)
      ensures this.timeout == timeout && this.queryTimeout == queryTimeout && this.mariadb == mariadb
      ensures fresh(conn) && conn.server == Connected(flavor) && conn.log == [] && !conn.dropped
      ensures learned == Unknown
    {
      this.mariadb := mariadb;
      this.timeout := timeout;
      this.queryTimeout := queryTimeout;
      conn := new Connection(flavor);
      learned := Unknown;
    }

    ghost predicate Talking()
      reads this, conn
    {
      && !conn.dropped
      && Honest(learned, conn.server.flavor)
      && (conn.server.flavor == Exotic ==> conn.server.cap == None)
      && EverySentRight(conn.log, timeout, ExplainBudget(queryTimeout))
    }

    ghost function Heard(): Run
      reads conn
    {
      Transcript(conn.log)
    }

    ghost function Said(): seq<Message>
      reads conn
    {
      Messages(Heard())
    }

    method Say(message: Message, timed: bool := false) returns (reply: Reply)
      requires Talking() && 1 <= |message| <= 2
      requires QuerySentRight(message, conn.server, timeout)
      requires ExplainSentRight(message, conn.server, ExplainBudget(queryTimeout))
      modifies conn
      ensures Talking() && conn.server.flavor == old(conn.server.flavor)
      ensures Reacts(old(conn.server), message, conn.server, reply)
      ensures Heard() == old(Heard()) + [Exchange(message, reply)]
      ensures Said() == old(Said()) + [message]
      ensures reply == Elapsed ==> timed
    {
      reply := conn.Send(message, timed);
      assert Transcript(conn.log) == old(Transcript(conn.log)) + [Exchange(message, reply)];
      OneMoreReply(old(Heard()), message, reply);
    }

    /** One spelling of the cap, behind the lead when that still has to run. */
    method Try(lead: Option<Stmt>, spelling: Name, ms: nat) returns (reply: Reply)
      requires Talking() && (lead.Some? ==> lead.value == StartReadOnly)
      modifies conn
      ensures Talking() && conn.server.flavor == old(conn.server.flavor)
      ensures Said() == old(Said()) + [Attempt(lead, spelling, ms)] && reply != Elapsed
      ensures SetUpSaid(old(Heard()), Heard(), reply)
      ensures reply.Done? ==> Capped(conn.server, ms) && spelling == OwnVar(conn.server.flavor)
      ensures reply == UnknownVariable ==> spelling != OwnVar(conn.server.flavor)
      ensures Starts(old(conn.server), conn.server, lead.Some?, reply.Done? || reply == UnknownVariable)
    {
      var message := Attempt(lead, spelling, ms);
      reply := Say(message);
      OneMoreReply(old(Heard()), message, reply);
    }

    /** The `k`-th candidate, and what is left of the whole. */
    method TryNext(lead: Option<Stmt>, candidates: seq<Name>, k: nat, ms: nat) returns (reply: Reply)
      requires Talking() && (lead.Some? ==> lead.value == StartReadOnly) && k < |candidates|
      modifies conn
      ensures Talking() && conn.server.flavor == old(conn.server.flavor) && reply != Elapsed
      ensures SetUpSaid(old(Heard()), Heard(), reply)
      ensures var own := OwnVar(conn.server.flavor); var goal := old(Said()) + Setting(lead, candidates, k, own, ms);
              && old(Said()) < Said() <= goal
              && (reply.Done? ==> Said() == goal && candidates[k] == own)
              && (reply == UnknownVariable ==>
                    goal == Said() + Setting(None, candidates, k + 1, own, ms) && candidates[k] != own)
      ensures reply.Done? ==> Capped(conn.server, ms)
      ensures Starts(old(conn.server), conn.server, lead.Some?, reply.Done? || reply == UnknownVariable)
    {
      SettingUnfolds(lead, candidates, k, OwnVar(conn.server.flavor), ms, Said());
      reply := Try(lead, candidates[k], ms);
    }

    /** The candidates one after the other, until one is not answered "unknown variable". */
    method TryEach(lead: Option<Stmt>, ms: nat) returns (reply: Reply)
      requires Talking() && (lead.Some? ==> lead.value == StartReadOnly)
      modifies this`learned, conn
      ensures Talking() && conn.server.flavor == old(conn.server.flavor) && reply != Elapsed
      ensures SetUpSaid(old(Heard()), Heard(), reply)
      ensures var candidates, own := Candidates(old(learned), mariadb), OwnVar(conn.server.flavor);
              var goal := old(Said()) + Setting(lead, candidates, 0, own, ms);
              if reply == UnknownVariable then
                && goal == Said() + Setting(if candidates == [] then lead else None, [], 0, own, ms)
                && own !in candidates
              else if reply.Done? then Said() == goal
              else old(Said()) < Said() <= goal
      ensures reply.Done? ==> Capped(conn.server, ms) && learned == OwnVar(conn.server.flavor)
      ensures !reply.Done? ==> learned == old(learned)
      ensures Candidates(old(learned), mariadb) == [] ==> reply == UnknownVariable
      ensures Starts(old(conn.server), conn.server, lead.Some? && Candidates(old(learned), mariadb) != [],
                     reply.Done? || reply == UnknownVariable)
    {
      var waiting := lead;
      var candidates := Candidates(learned, mariadb);
      ghost var own := OwnVar(conn.server.flavor);
      ghost var goal := Said() + Setting(lead, candidates, 0, own, ms);
      reply := UnknownVariable;
      for k := 0 to |candidates|
        invariant Talking() && learned == old(learned) && reply == UnknownVariable
        invariant conn.server.flavor == old(conn.server.flavor)
        invariant old(Said()) <= Said() && SetUpSaid(old(Heard()), Heard(), UnknownVariable)
        invariant goal == Said() + Setting(waiting, candidates, k, own, ms)
        invariant waiting == if k == 0 then lead else None
        invariant Starts(old(conn.server), conn.server, lead.Some? && k > 0, true)
        invariant forall j :: 0 <= j < k ==> candidates[j] != own
      {
        ghost var heard := Heard();
        reply := TryNext(waiting, candidates, k, ms);
        SetUpTwice(old(Heard()), heard, Heard(), reply);
        if reply.Done? {
          learned := candidates[k];
        }
        if reply != UnknownVariable {
          return;
        }
        waiting := None;
      }
    }

    /**
     Sets the server's cap in whichever spelling it accepts, after `lead` when there is one. The lead
     runs at most once, however many spellings have to be tried, and exactly once on success.
     */
    method SetStatementTimeout(lead: Option<Stmt>, ms: nat) returns (reply: Reply)
      requires Talking() && (lead.Some? ==> lead.value == StartReadOnly)
      modifies this`learned, conn
      ensures Talking() && conn.server.flavor == old(conn.server.flavor)
      ensures SetUpSaid(old(Heard()), Heard(), reply)
      ensures var candidates, own := Candidates(old(learned), mariadb), OwnVar(conn.server.flavor);
              var goal := old(Said()) + Setting(lead, candidates, 0, own, ms);
              if reply.Done? then Said() == goal else old(Said()) < Said() <= goal
      ensures reply != UnknownVariable && reply != Elapsed
      ensures reply.Done? ==> Capped(conn.server, ms) && learned == OwnVar(conn.server.flavor)
      ensures Starts(old(conn.server), conn.server, lead.Some?, reply.Done?)
      ensures old(learned) != Unknown ==> learned == old(learned)
    {
      var waiting := if Candidates(learned, mariadb) == [] then lead else None;
      OwnNameIsTried(learned, mariadb, conn.server.flavor);
      reply := TryEach(lead, ms);
      if reply == UnknownVariable {
        learned := Neither;
        ghost var heard := Heard();
        reply := LeadAlone(waiting);
        SetUpTwice(old(Heard()), heard, Heard(), reply);
      }
    }

    /** No cap is possible, but the lead still has to run. */
    method LeadAlone(lead: Option<Stmt>) returns (reply: Reply)
      requires Talking() && (lead.Some? ==> lead.value == StartReadOnly)
      modifies conn
      ensures Talking() && conn.server.flavor == old(conn.server.flavor) && conn.server.cap == old(conn.server.cap)
      ensures Said() == old(Said()) + Setting(lead, [], 0, Neither, 0)
      ensures SetUpSaid(old(Heard()), Heard(), reply)
      ensures reply != UnknownVariable && reply != Elapsed && (lead.None? ==> reply.Done?)
      ensures Starts(old(conn.server), conn.server, lead.Some?, reply.Done?)
    {
      reply := Done([]);
      if lead.Some? {
        reply := Say([lead.value]);
        OneMoreReply(old(Heard()), [lead.value], reply);
      }
    }

    /** A cap when the server's own spelling is known. */
    method Recapped(ms: nat) returns (reply: Reply)
      requires Talking() && learned == OwnVar(conn.server.flavor)
      modifies this`learned, conn
      ensures Talking() && conn.server.flavor == old(conn.server.flavor)
      ensures Said() == old(Said()) + Recap(conn.server.flavor, ms) && SetUpSaid(old(Heard()), Heard(), reply)
      ensures !reply.Done? ==> conn.server.flavor != Exotic && reply != UnknownVariable
      ensures reply.Done? ==> Capped(conn.server, ms)
      ensures Starts(old(conn.server), conn.server, false, reply.Done?)
      ensures learned == old(learned)
    {
      reply := SetStatementTimeout(None, ms);
    }

    /** The planner's shorter cap, the EXPLAIN, and the query's own cap again. */
    method GuardedPlan() returns (plan: Plan, expired: bool)
      requires Talking() && conn.server.active && conn.server.starts == 1 && learned == OwnVar(conn.server.flavor)
      requires Smooth(Heard()) && !RanOut(Heard()) && ReplyTo(Heard(), [Explain]) == None
      modifies this`learned, conn
      ensures Talking() && conn.server.flavor == old(conn.server.flavor) && learned == old(learned)
      ensures PlanSaid(old(Said()), Said(), conn.server.flavor, ExplainBudget(queryTimeout), timeout, plan)
      ensures PlanHeard(Heard(), plan, expired)
      ensures forall m :: !SetsUp(m) && m != [Explain] ==> ReplyTo(Heard(), m) == old(ReplyTo(Heard(), m))
      ensures !plan.Discard() ==> conn.server.active && conn.server.starts == 1 && Capped(conn.server, timeout)
    {
      ghost var was := Said();
      var armed := Recapped(ExplainBudget(queryTimeout));
      if !armed.Done? {
        return Broken, armed == Expired;
      }
      var reply := Explained();
      assert Said() == was + Planned(conn.server.flavor, ExplainBudget(queryTimeout));
      if reply == Elapsed || reply == Expired || reply == Failed(true) {
        return TooSlow, reply == Expired;
      }
      var restored := Recapped(timeout);
      if !restored.Done? {
        return Broken, restored == Expired;
      }
      expired := false;
      if reply.Done? {
        var rows := MysqlEstimate(reply.steps);
        plan := Estimated(G.Estimate(None, rows, false));
      } else {
        plan := PlanFailed;
      }
    }

    method Explained() returns (reply: Reply)
      requires Talking() && conn.server.active && Capped(conn.server, ExplainBudget(queryTimeout))
      modifies conn
      ensures Talking() && conn.server.flavor == old(conn.server.flavor)
      ensures conn.server.active && conn.server.starts == old(conn.server.starts)
      ensures Said() == old(Said()) + [[Explain]] && ReplyTo(Heard(), [Explain]) == Some(reply)
      ensures forall m :: m != [Explain] ==> ReplyTo(Heard(), m) == old(ReplyTo(Heard(), m))
      ensures Smooth(Heard()) <==> old(Smooth(Heard()))
      ensures RanOut(Heard()) <==> old(RanOut(Heard())) || reply == Expired
    {
      reply := Say([Explain], true);
      OneMoreReply(old(Heard()), [Explain], reply);
    }

    /** The end of the transaction, said only when the connection may still be spoken to. */
    method Close(polite: bool)
      requires Talking()
      modifies conn
      ensures conn.dropped && conn.server.flavor == old(conn.server.flavor)
      ensures EverySentRight(conn.log, timeout, ExplainBudget(queryTimeout))
      ensures Said() == if polite then old(Said()) + [[Rollback]] else old(Said())
      ensures SameRun(old(Heard()), Heard())
    {
      if polite {
        var farewell := Say([Rollback]);
        OneMoreReply(old(Heard()), [Rollback], farewell);
      }
      conn.Drop();
    }

    /** The agent's statement, for an empty answer its column names, and the end of the connection. */
    method Fetch() returns (outcome: Outcome, ghost queried: Reply, ghost described: Option<Reply>)
      requires Talking() && conn.server.active && conn.server.starts == 1 && Capped(conn.server, timeout)
      modifies conn
      ensures conn.dropped && conn.server.flavor == old(conn.server.flavor)
      ensures EverySentRight(conn.log, timeout, ExplainBudget(queryTimeout))
      ensures old(Said()) <= Said() && Ending(Said()[|old(Said())|..], false, outcome)
      ensures SameRun(Asked(old(Heard()), queried, described), Heard())
      ensures outcome == Ran <==> queried.Done? && described != Some(Expired)
      ensures outcome == Timeout <==> queried == Expired || described == Some(Expired)
      ensures outcome == Ran || outcome == DbError || outcome == Timeout
    {
      ghost var was := Said();
      var reply := Say([Query]);
      queried, described := reply, None;
      if reply.Done? {
        var empty: bool := *;
        if empty {
          var names := Say([Describe]);
          described := Some(names);
          assert Said() == was + [[Query], [Describe]];
          reply := if names == Expired then Expired else reply;
        }
      }
      ghost var asked := Said();
      Close(reply != Expired);
      assert was + [[Query], [Describe]] + [[Rollback]] == was + [[Query], [Describe], [Rollback]];
      assert was + [[Query]] + [[Rollback]] == was + [[Query], [Rollback]];
      outcome := if reply == Expired then Timeout else if reply.Done? then Ran else DbError;
    }

    /**
     One guarded query against a server of any flavor under any label. The replies decide the outcome.
     The query goes out at most once, alone, in the one read-only transaction and under its own cap; a
     refusal means never, and after a cap that could not be set for planning nothing more is said.
     */
    method Execute(guard: G.Guard) returns (outcome: Outcome)
      requires !conn.dropped && conn.log == [] && conn.server == Connected(conn.server.flavor) && learned == Unknown
      modifies this`learned, conn
      ensures EverySentRight(conn.log, timeout, ExplainBudget(queryTimeout))
      ensures Decides(Heard(), guard, outcome)
      ensures CompleteRun(Said(), conn.server.flavor, mariadb, Plans(guard),
                          ExplainBudget(queryTimeout), timeout, outcome)
      ensures conn.dropped && Honest(learned, conn.server.flavor) && conn.server.flavor == old(conn.server.flavor)
    {
      ghost var flavor, budget := conn.server.flavor, ExplainBudget(queryTimeout);
      var begun := SetStatementTimeout(Some(StartReadOnly), timeout);
      ghost var heard := Heard();
      assert [] + Opening(flavor, mariadb, timeout) == Opening(flavor, mariadb, timeout);
      if !begun.Done? {
        OpeningFails(Said(), flavor, mariadb, Plans(guard), budget, timeout);
        Close(begun != Expired);
        OpeningReplies(heard, Heard(), guard, begun);
        return if begun == Expired then Timeout else DbError;
      }
      OpeningReplies(heard, heard, guard, begun);
      var plan := PlanFailed;
      if Plans(guard) {
        var expired;
        plan, expired := GuardedPlan();
        if plan.Discard() {
          outcome := Discard(guard, plan, expired);
          return;
        }
      }
      outcome := Conclude(guard, plan);
    }

    /** A connection that planning could not leave clean is dropped without a word. */
    method Discard(guard: G.Guard, plan: Plan, expired: bool) returns (outcome: Outcome)
      requires Talking() && Plans(guard) && plan.Discard() && PlanHeard(Heard(), plan, expired)
      requires ReplyTo(Heard(), [Query]) == None && ReplyTo(Heard(), [Describe]) == None
      requires PlanSaid(Opening(conn.server.flavor, mariadb, timeout), Said(), conn.server.flavor,
                        ExplainBudget(queryTimeout), timeout, plan)
      modifies conn
      ensures EverySentRight(conn.log, timeout, ExplainBudget(queryTimeout))
      ensures Decides(Heard(), guard, outcome)
      ensures CompleteRun(Said(), conn.server.flavor, mariadb, true, ExplainBudget(queryTimeout), timeout, outcome)
      ensures conn.dropped && conn.server.flavor == old(conn.server.flavor)
    {
      PlanDiscarded(Said(), conn.server.flavor, mariadb, ExplainBudget(queryTimeout), timeout, plan);
      Close(false);
      DiscardReplies(old(Heard()), Heard(), guard, plan, expired);
      outcome := if expired then Timeout else if plan.Broken? then DbError else PlanTooSlow;
    }

    /** What follows on a session that is ready for the statement. */
    method Conclude(guard: G.Guard, plan: Plan) returns (outcome: Outcome)
      requires Talking() && conn.server.active && conn.server.starts == 1 && Capped(conn.server, timeout)
      requires IsPlanned(Heard(), plan) && (plan.Estimated? ==> Plans(guard))
      requires Said() == Guarded(conn.server.flavor, mariadb, Plans(guard), ExplainBudget(queryTimeout), timeout)
      modifies conn
      ensures EverySentRight(conn.log, timeout, ExplainBudget(queryTimeout))
      ensures Decides(Heard(), guard, outcome)
      ensures CompleteRun(Said(), conn.server.flavor, mariadb, Plans(guard), ExplainBudget(queryTimeout), timeout,
                          outcome)
      ensures conn.dropped && conn.server.flavor == old(conn.server.flavor)
    {
      if plan.Estimated? && G.Refuses(guard, plan.estimate) {
        Close(true);
        RefusalReplies(old(Heard()), Heard(), guard, plan);
        return QueryRefused;
      }
      ghost var queried, described;
      outcome, queried, described := Fetch();
      AskedReplies(old(Heard()), Heard(), guard, plan, queried, described, outcome);
    }
  }
}
