/**
 The MySQL or MariaDB server as nyet's session sees it. Each flavor knows one name for the statement
 timeout and answers "unknown variable" to the other; an exotic proxy knows neither.
 */
module MySqlServer {
  import opened Outcomes
  import opened MySqlEstimate

  datatype Flavor = MySql | MariaDb | Exotic

  datatype Stmt =
    | StartReadOnly
    | SetExecutionTime(ms: nat)     // max_execution_time, in milliseconds
    | SetStatementTime(secs: nat)   // max_statement_time, in seconds
    | Explain
    | Query
    | Describe
    | Rollback

  type Message = seq<Stmt>

  /** `starts` counts the read-only transactions opened; `cap` is the statement timeout in milliseconds. */
  datatype State = State(flavor: Flavor, starts: nat, active: bool, cap: Option<nat>)

  function Connected(flavor: Flavor): State {
    State(flavor, 0, false, None)
  }

  /** The state after a statement, or none when the server does not know the variable it sets. */
  function Apply(s: State, stmt: Stmt): Option<State> {
    match stmt
    case StartReadOnly => Some(s.(starts := s.starts + 1, active := true))
    case SetExecutionTime(ms) => if s.flavor == MySql then Some(s.(cap := Some(ms))) else None
    case SetStatementTime(secs) => if s.flavor == MariaDb then Some(s.(cap := Some(secs * 1000))) else None
    case Rollback => Some(s.(active := false))
    case _ => Some(s)
  }

  /** What the client learns. What an EXPLAIN is answered with is the steps of a plan. */
  datatype Reply = Done(steps: seq<PlanRow>) | UnknownVariable | Failed(cancelled: bool) | Lost | Elapsed | Expired

  /** How far a message of one or two statements got, by the reply to it. */
  predicate Reacts(before: State, message: Message, after: State, reply: Reply)
    requires 1 <= |message| <= 2
  {
    var first := Apply(before, message[0]);
    var second := if first.Some? && |message| == 2 then Apply(first.value, message[1]) else None;
    match reply
    case Done(_) => Some(after) == if |message| == 2 then second else first
    case UnknownVariable =>
      || (first.None? && after == before)
      || (first.Some? && |message| == 2 && second.None? && after == first.value)
    case _ => after == before || Some(after) == first || Some(after) == second
  }

  datatype Sent = Sent(message: Message, before: State, reply: Reply)

  class Connection {
    var server: State
    var log: seq<Sent>
    var dropped: bool

    constructor (flavor: Flavor)
      ensures server == Connected(flavor) && log == [] && !dropped
    {
      server := Connected(flavor);
      log := [];
      dropped := false;
    }

    /** Sends one message; the server stops at the first statement that fails. */
    method Send(message: Message, timed: bool := false) returns (reply: Reply)
      requires !dropped && 1 <= |message| <= 2
      modifies this
      ensures !dropped && log == old(log) + [Sent(message, old(server), reply)]
      ensures Reacts(old(server), message, server, reply)
      ensures server.flavor == old(server).flavor
      ensures reply == Elapsed ==> timed
    {
      var before := server;
      reply := Run(message, timed);
      log := log + [Sent(message, before, reply)];
    }

    /** The server's side of a message, up to what the client learns of it. */
    method Run(message: Message, timed: bool) returns (reply: Reply)
      requires 1 <= |message| <= 2
      modifies `server
      ensures Reacts(old(server), message, server, reply)
      ensures server.flavor == old(server).flavor
      ensures reply == Elapsed ==> timed
    {
      for k := 0 to |message|
        invariant server.flavor == old(server).flavor
        invariant k == 0 ==> server == old(server)
        invariant k == 1 ==> Some(server) == Apply(old(server), message[0])
        invariant k == 2 ==> Reacts(old(server), message, server, Done([]))
      {
        var fails: bool := *;
        if fails {
          reply := Failure(timed);
          return;
        }
        if Apply(server, message[k]).None? {
          return UnknownVariable;
        }
        server := Apply(server, message[k]).value;
      }
      var answered: bool := *;
      if answered {
        var steps: seq<PlanRow> := *;
        reply := Done(steps);
      } else {
        reply := Failure(timed);
      }
    }

    /** Any error but the unknown variable, or no answer at all. */
    static method Failure(timed: bool) returns (reply: Reply)
      ensures reply.Failed? || reply == Lost || (timed && reply == Elapsed) || reply == Expired
    {
      var error: bool := *;
      var cancelled: bool := *;
      var lost: bool := *;
      var elapsed: bool := *;
      reply := if error then Failed(cancelled)
               else if lost then Lost
               else if timed && elapsed then Elapsed
               else Expired;
    }

    method Drop()
      modifies `dropped
      ensures dropped
    {
      dropped := true;
    }
  }
}
