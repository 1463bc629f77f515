/**
 The PostgreSQL server as nyet's session sees it: a transaction, a savepoint that restores settings,
 a statement timeout, and messages of several statements that stop at the first error.
 */
module PgServer {
  import opened Outcomes
  import Guardrail

  datatype Txn = Idle | Active | Aborted

  datatype Stmt =
    | BeginReadOnly
    | Savepoint
    | SetTimeout(ms: nat)     // SET LOCAL statement_timeout
    | RollbackToSavepoint
    | Explain
    | Query                   // the agent's statement
    | Describe                // a PARSE of it, nothing is run
    | Rollback

  type Message = seq<Stmt>

  /** `saved` is the timeout in force at the savepoint; `session` the one set when connecting. */
  datatype State = State(txn: Txn, timeout: nat, saved: Option<nat>, session: nat)

  function Connected(timeout: nat): State {
    State(Idle, timeout, None, timeout)
  }

  /** The state after a statement succeeds; an aborted transaction lets only rollbacks succeed. */
  function Apply(s: State, stmt: Stmt): Option<State> {
    match stmt
    case Rollback => Some(Connected(s.session))
    case RollbackToSavepoint =>
      if s.txn != Idle && s.saved.Some? then Some(s.(txn := Active, timeout := s.saved.value)) else None
    case _ =>
      if s.txn == Aborted then None
      else
        match stmt
        case BeginReadOnly => if s.txn == Idle then Some(s.(txn := Active)) else Some(s)
        case Savepoint => if s.txn == Active then Some(s.(saved := Some(s.timeout))) else None
        case SetTimeout(ms) => if s.txn == Active then Some(s.(timeout := ms)) else Some(s)
        case _ => Some(s)
  }

  /** The state after a statement fails: inside a transaction, the transaction is aborted. */
  function Fail(s: State): State {
    if s.txn == Idle then s else s.(txn := Aborted)
  }

  /** The state after all of a message succeeded. */
  function After(s: State, message: Message): Option<State>
    decreases |message|
  {
    if message == [] then Some(s)
    else
      match Apply(s, message[0])
      case Some(t) => After(t, message[1..])
      case None => None
  }

  /**
   What the client learns: success and what the server answered, an error, a dead connection, or one
   of its own timers. What an EXPLAIN is answered with is a plan.
   */
  datatype Reply = Done(answer: Guardrail.Plan) | Failed(cancelled: bool) | Lost | Elapsed | Expired

  /** A message that failed ran up to the statement it failed at, and no further. */
  ghost predicate StoppedAt(before: State, message: Message, after: State) {
    exists k :: 0 <= k < |message| && StoppedAtStatement(before, message, k, after)
  }

  predicate StoppedAtStatement(before: State, message: Message, k: nat, after: State)
    requires k < |message|
  {
    After(before, message[..k]).Some? && after == Fail(After(before, message[..k]).value)
  }

  lemma {:induction false} AfterAppend(s: State, message: Message, stmt: Stmt)
    ensures After(s, message + [stmt])
            == match After(s, message)
               case Some(t) => Apply(t, stmt)
               case None => None
    decreases |message|
  {
    if message == [] {
      assert message + [stmt] == [stmt] && [stmt][1..] == [];
    } else {
      assert (message + [stmt])[0] == message[0] && (message + [stmt])[1..] == message[1..] + [stmt];
      if Apply(s, message[0]).Some? {
        AfterAppend(Apply(s, message[0]).value, message[1..], stmt);
      }
    }
  }

  /** One message as it was sent, the state the server was in then, and what came of it. */
  datatype Sent = Sent(message: Message, before: State, reply: Reply)

  /** A connection to a server that may fail anywhere; its `log` records what was said on it. */
  class Connection {
    var server: State
    var log: seq<Sent>
    var dead: bool      // the socket is gone, whether the client knows or not
    var dropped: bool   // the client let go of it

    constructor (timeout: nat)
      ensures server == Connected(timeout) && log == [] && !dead && !dropped
    {
      server := Connected(timeout);
      log := [];
      dead := false;
      dropped := false;
    }

    /**
     Sends one message. The server runs it, or part of it, and the answer may never come; only a
     timed message can outlast the client's own patience with it.
     */
    method Send(message: Message, timed: bool := false) returns (reply: Reply)
      requires !dropped
      modifies this
      ensures !dropped
      ensures log == old(log) + [Sent(message, old(server), reply)]
      ensures reply.Done? ==> After(old(server), message) == Some(server)
      ensures reply.Failed? ==> StoppedAt(old(server), message, server)
      ensures reply == Elapsed ==> timed
      ensures old(dead) || reply == Lost ==> reply == Lost && dead
    {
      var before := server;
      reply := Run(message, timed);
      log := log + [Sent(message, before, reply)];
    }

    /** The server's side of a message, up to what the client learns of it. */
    method Run(message: Message, timed: bool) returns (reply: Reply)
      modifies `server, `dead
      ensures reply.Done? ==> After(old(server), message) == Some(server)
      ensures reply.Failed? ==> StoppedAt(old(server), message, server)
      ensures reply == Elapsed ==> timed
      ensures old(dead) || reply == Lost ==> reply == Lost && dead
    {
      if dead {
        return Lost;
      }
      for k := 0 to |message|
        invariant !dead
        invariant After(old(server), message[..k]) == Some(server)
      {
        assert message[..k + 1] == message[..k] + [message[k]];
        AfterAppend(old(server), message[..k], message[k]);
        var answered: bool := *;
        if !answered {
          reply := Unanswered(timed);
          dead := reply == Lost;
          return;
        }
        var fails: bool := *;
        if fails || Apply(server, message[k]).None? {
          var cancelled: bool := *;
          server := Fail(server);
          assert StoppedAtStatement(old(server), message, k, server);
          return Failed(cancelled);
        }
        server := Apply(server, message[k]).value;
      }
      assert message[..|message|] == message;
      var answered: bool := *;
      if answered {
        var answer: Guardrail.Plan := *;
        reply := Done(answer);
      } else {
        reply := Unanswered(timed);
        dead := reply == Lost;
      }
    }

    /** The answer did not come: the socket died, or a timer of the client's fired first. */
    static method Unanswered(timed: bool) returns (reply: Reply)
      ensures reply == Lost || (timed && reply == Elapsed) || reply == Expired
    {
      var lost: bool := *;
      var elapsed: bool := *;
      reply := if lost then Lost else if timed && elapsed then Elapsed else Expired;
    }

    /** The socket is closed without a word. */
    method Drop()
      modifies `dropped
      ensures dropped
    {
      dropped := true;
    }
  }
}
