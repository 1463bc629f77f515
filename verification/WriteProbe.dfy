/**
 The layer-3 write probe of MySQL and MariaDB: CREATE, then DROP, of a table nobody else has. DDL
 commits at once, acknowledgements get lost, and the client's backstop may fire at any point.
 */
module WriteProbe {
  import opened Outcomes

  datatype Statement = CreateTable(name: string) | DropTable(name: string)

  /** `Error(None)` is a transport failure: what became of the statement is not known. */
  datatype Reply = Done | Error(errno: Option<nat>) | Expired

  datatype Sent = Sent(statement: Statement, reply: Reply)

  datatype ProbeFact =
    | Wrote(orphan: Option<string>)
    | Blocked(ddlOnly: bool)
    | Unverified(mayRemain: Option<string>)

  datatype CreateFailure = Refusal(ddlOnly: bool) | ServerRejected | MaybeOrphan

  const READ_ONLY_MODES: set<nat> := {1290, 1836}
  const ACCESS_DENIED: set<nat> := {1142, 1044, 1227}

  function ClassifyCreateFailure(errno: Option<nat>): CreateFailure {
    match errno
    case None => MaybeOrphan
    case Some(n) =>
      if n in READ_ONLY_MODES then Refusal(false)
      else if n in ACCESS_DENIED then Refusal(true)
      else ServerRejected
  }

  /** Is the probe bounded on the server? `None`: arming the bounds did not come back. */
  function BoundArmed(lockWait: Option<bool>, maxStatement: Option<bool>): Option<bool> {
    if lockWait.None? || maxStatement.None? then None else Some(lockWait.value || maxStatement.value)
  }

  /** Both bounds were answered, and one of them holds. */
  predicate Bounded(lockWait: Option<bool>, maxStatement: Option<bool>) {
    && lockWait.Some? && maxStatement.Some?
    && (lockWait == Some(true) || maxStatement == Some(true))
  }

  /** The verdict tells a human to look for the table. */
  predicate Names(fact: ProbeFact, name: string) {
    match fact
    case Wrote(orphan) => orphan == Some(name)
    case Unverified(mayRemain) => mayRemain == Some(name)
    case Blocked(_) => false
  }

  /** What a statement may have done to the tables, given what the client was told about it. */
  predicate Effect(before: set<string>, e: Sent, after: set<string>) {
    match e
    case Sent(CreateTable(name), Done) => name !in before && after == before + {name}
    case Sent(DropTable(name), Done) => after == before - {name}
    case Sent(_, Error(Some(_))) => after == before
    case Sent(CreateTable(name), _) => after == before || (name !in before && after == before + {name})
    case Sent(DropTable(name), _) => after == before || after == before - {name}
  }

  datatype Told = Told(name: string, fact: ProbeFact)

  /** What one probe may do to the tables, given the verdict it came back with. */
  predicate Probed(before: set<string>, told: Told, after: set<string>) {
    && after - {told.name} == before - {told.name}
    && (told.name in before ==> after == before)
    && (told.name in after - before ==> Names(told.fact, told.name))
    && (told.fact.Blocked? ==> after == before)
  }

  predicate History(states: seq<set<string>>, told: seq<Told>) {
    && |states| == |told| + 1
    && forall i :: 0 <= i < |told| ==> Probed(states[i], told[i], states[i + 1])
  }

  /** The verdict of a probe, by the replies to the CREATE and to the DROP that follows a confirmed one. */
  predicate Says(created: Reply, dropped: Option<Reply>, name: string, fact: ProbeFact) {
    match created
    case Done =>
      (match dropped
       case Some(Done) => fact == Wrote(None)
       case Some(Error(_)) => fact == Wrote(Some(name))
       case _ => dropped.Some? && fact == Unverified(Some(name)))
    case Error(Some(errno)) =>
      && dropped.None?
      && fact == if errno == 1290 || errno == 1836 then Blocked(false)
                 else if errno == 1142 || errno == 1044 || errno == 1227 then Blocked(true)
                 else Unverified(None)
    case _ => dropped.None? && fact == Unverified(Some(name))
  }

  class Server {
    var tables: set<string>
    var log: seq<Sent>

    constructor (tables: set<string>)
      ensures this.tables == tables && log == []
    {
      this.tables := tables;
      log := [];
    }

    /** One auto-committed statement, answered or not. */
    method Run(statement: Statement) returns (reply: Reply)
      modifies this
      ensures log == old(log) + [Sent(statement, reply)]
      ensures Effect(old(tables), Sent(statement, reply), tables)
    {
      var refused: bool := *;
      var errno: nat := *;
      var answered: bool := *;
      var expired: bool := *;
      if refused || (statement.CreateTable? && statement.name in tables) {
        reply := Error(Some(errno));
      } else {
        var ran: bool := *;
        if ran || answered {
          tables := if statement.CreateTable? then tables + {statement.name} else tables - {statement.name};
        }
        reply := if answered then Done else if expired then Expired else Error(None);
      }
      log := log + [Sent(statement, reply)];
    }

    /** CREATE, and DROP only after a confirmed CREATE of that very name. */
    method Probe(name: string) returns (fact: ProbeFact, ghost created: Reply, ghost dropped: Option<Reply>)
      modifies this
      ensures Probed(old(tables), Told(name, fact), tables)
      ensures fact == Wrote(None) ==> name !in tables
      ensures Says(created, dropped, name, fact)
      ensures log == old(log) + [Sent(CreateTable(name), created)]
                     + (if dropped.Some? then [Sent(DropTable(name), dropped.value)] else [])
    {
      var reply := Run(CreateTable(name));
      created, dropped := reply, None;
      match reply {
        case Done =>
          var answer := Run(DropTable(name));
          dropped := Some(answer);
          match answer {
            case Done => fact := Wrote(None);
            case Expired => fact := Unverified(Some(name));
            case Error(_) => fact := Wrote(Some(name));
          }
        case Expired =>
          fact := Unverified(Some(name));
        case Error(errno) =>
          match ClassifyCreateFailure(errno) {
            case Refusal(ddlOnly) => fact := Blocked(ddlOnly);
            case ServerRejected => fact := Unverified(None);
            case MaybeOrphan => fact := Unverified(Some(name));
          }
      }
    }

    /** The probe runs only when something on the server bounds it; otherwise nothing is sent. */
    method Diagnose(name: string, lockWait: Option<bool>, maxStatement: Option<bool>) returns (fact: ProbeFact)
      modifies this
      ensures Probed(old(tables), Told(name, fact), tables)
      ensures Bounded(lockWait, maxStatement) <==> log != old(log)
      ensures !Bounded(lockWait, maxStatement) ==> tables == old(tables) && fact == Unverified(None)
    {
      if BoundArmed(lockWait, maxStatement) == Some(true) {
        ghost var created, dropped;
        fact, created, dropped := Probe(name);
      } else {
        fact := Unverified(None);
      }
    }
  }

  /** After any number of probes, each table they may have left behind is named by a verdict. */
  lemma {:induction false} EveryOrphanIsNamed(states: seq<set<string>>, told: seq<Told>, name: string)
    requires History(states, told)
    requires name in states[|told|] - states[0]
    ensures exists i :: 0 <= i < |told| && told[i].name == name && Names(told[i].fact, name)
    decreases |told|
  {
    if told != [] {
      var last := |told| - 1;
      assert Probed(states[last], told[last], states[last + 1]);
      if name in states[last] {
        EveryOrphanIsNamed(states[..last + 1], told[..last], name);
        var i :| 0 <= i < last && told[..last][i].name == name && Names(told[..last][i].fact, name);
        assert told[i].name == name && Names(told[i].fact, name);
      } else {
        assert name !in states[last + 1] - {told[last].name};
      }
    }
  }
}
