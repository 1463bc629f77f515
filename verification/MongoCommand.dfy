/** The command document nyet sends for a request. Every bound in it is nyet's own. */
module MongoCommand {
  import opened Outcomes
  import opened Values
  import opened Numbers
  import opened MongoRequests
  import MS = MongoSyntax

  type Doc = seq<Field>

  /** The stages nyet writes itself. */
  datatype Stage =
    | Match(filter: Doc)
    | CountAll
    | DropId
    | Unwind(field: string)
    | GroupBy(field: string)
    | SortById
    | Limit(n: int)

  function Spell(stage: Stage): Bson {
    match stage
    case Match(filter) => Document([Field("$match", Document(filter))])
    case CountAll =>
      Document([Field("$group", Document([
        Field("_id", Null), Field("count", Document([Field("$sum", Int32(1))]))]))])
    case DropId => Document([Field("$project", Document([Field("_id", Int32(0))]))])
    case Unwind(field) =>
      Document([Field("$unwind", Document([
        Field("path", String("$" + field)), Field("preserveNullAndEmptyArrays", Boolean(true))]))])
    case GroupBy(field) => Document([Field("$group", Document([Field("_id", String("$" + field))]))])
    case SortById => Document([Field("$sort", Document([Field("_id", Int32(1))]))])
    case Limit(n) => Document([Field("$limit", Int64(n))])
  }

  function SpellAll(stages: seq<Stage>): seq<Bson> {
    seq(|stages|, i requires 0 <= i < |stages| => Spell(stages[i]))
  }

  /** The row limit as the command carries it: at least one row, and within 64 bits. */
  function Fetch(fetchLimit: Option<nat>): (r: Option<int>)
    ensures r.Some? <==> fetchLimit.Some?
    ensures r.Some? ==> 1 <= r.value <= I64_MAX
    ensures r.Some? && 1 <= fetchLimit.value <= I64_MAX ==> r.value == fetchLimit.value
  {
    match fetchLimit
    case None => None
    case Some(n) => Some(if n > I64_MAX then I64_MAX else if n < 1 then 1 else n)
  }

  /** The smaller of nyet's limit and the agent's, when either is there. */
  function Effective(fetch: Option<int>, agent: Option<int>): (r: Option<int>)
    ensures r.Some? <==> fetch.Some? || agent.Some?
    ensures fetch.Some? ==> r.value <= fetch.value
    ensures agent.Some? ==> r.value <= agent.value
    ensures r.Some? ==> r == fetch || r == agent
  {
    if fetch.Some? && agent.Some? then Some(Min(fetch.value, agent.value))
    else if fetch.Some? then fetch
    else agent
  }

  function CountPipeline(filter: Doc): seq<Stage> {
    [Match(filter), CountAll, DropId]
  }

  function DistinctPipeline(key: string, filter: Doc): seq<Stage> {
    [Match(filter), Unwind(key), GroupBy(key), SortById]
  }

  function Capped(fetch: Option<int>): seq<Stage> {
    if fetch.Some? then [Limit(fetch.value)] else []
  }

  /** The stages the command carries for a request that runs as an aggregation. */
  function Pipeline(op: Op, fetch: Option<int>): seq<Bson>
    requires !op.Find?
  {
    match op
    case Aggregate(pipeline) => pipeline + SpellAll(Capped(fetch))
    case Count(filter) => SpellAll(CountPipeline(filter))
    case Distinct(key, filter) => SpellAll(DistinctPipeline(key, filter)) + SpellAll(Capped(fetch))
  }

  // ----- the document -----

  /** A field set in a document: in its place when the name is there, at the end when it is new. */
  function Insert(doc: Doc, key: string, value: Bson): (r: Doc)
    ensures Get(r, key) == Some(value)
    ensures forall other :: other != key ==> Get(r, other) == Get(doc, other)
  {
    if doc == [] then [Field(key, value)]
    else if doc[0].key == key then [Field(key, value)] + doc[1..]
    else
      var rest := Insert(doc[1..], key, value);
      assert ([doc[0]] + rest)[1..] == rest;
      [doc[0]] + rest
  }

  /** A field set when there is a value for it. */
  function InsertGiven(doc: Doc, key: string, value: Option<Bson>): (r: Doc)
    ensures Get(r, key) == if value.Some? then value else Get(doc, key)
    ensures forall other :: other != key ==> Get(r, other) == Get(doc, other)
  {
    if value.Some? then Insert(doc, key, value.value) else doc
  }

  function Boxed(n: Option<int>): Option<Bson> {
    if n.Some? then Some(Int64(n.value)) else None
  }

  function AsDocument(fields: Option<Doc>): Option<Bson> {
    if fields.Some? then Some(Document(fields.value)) else None
  }

  /** What a command asks of a server, read out of its document by the names of its fields. */
  datatype Work =
    | FindWork(collection: string, filter: Doc, projection: Option<Doc>, sort: Option<Doc>,
               skip: Option<int>, limit: Option<int>, batchSize: Option<int>, maxTimeMs: Option<int>)
    | AggregateWork(collection: string, pipeline: seq<Bson>, batchSize: Option<int>, maxTimeMs: Option<int>)

  function DocumentAt(doc: Doc, key: string): Option<Doc> {
    match Get(doc, key)
    case Some(Document(fields)) => Some(fields)
    case _ => None
  }

  function IntegerAt(doc: Doc, key: string): Option<int> {
    match Get(doc, key)
    case Some(Int32(n)) => Some(n)
    case Some(Int64(n)) => Some(n)
    case _ => None
  }

  /** A server's reading of a command; none for a document that is not one of the two commands. */
  function ServerReads(cmd: Doc): Option<Work> {
    match (Get(cmd, "find"), Get(cmd, "aggregate"))
    case (Some(String(collection)), None) =>
      var filter :- DocumentAt(cmd, "filter");
      Some(FindWork(collection, filter, DocumentAt(cmd, "projection"), DocumentAt(cmd, "sort"),
                    IntegerAt(cmd, "skip"), IntegerAt(cmd, "limit"), IntegerAt(cmd, "batchSize"),
                    IntegerAt(cmd, "maxTimeMS")))
    case (None, Some(String(collection))) =>
      (match Get(cmd, "pipeline")
       case Some(Array(stages)) =>
         var cursor :- DocumentAt(cmd, "cursor");
         Some(AggregateWork(collection, stages, IntegerAt(cursor, "batchSize"), IntegerAt(cmd, "maxTimeMS")))
       case _ => None)
    case _ => None
  }

  /** What a request means under nyet's own limits. */
  function Meant(request: Request, fetchLimit: Option<nat>, maxTimeMs: nat): Work {
    var fetch, time := Fetch(fetchLimit), Some(Min(maxTimeMs, I32_MAX));
    match request.op
    case Find(filter, projection, sort, skip, limit) =>
      var effective := Effective(fetch, limit);
      FindWork(request.collection, filter, projection, sort, skip, effective, effective, time)
    case Count(_) => AggregateWork(request.collection, Pipeline(request.op, fetch), None, time)
    case _ => AggregateWork(request.collection, Pipeline(request.op, fetch), fetch, time)
  }

  /** The fields of a find that say what is looked for, and the ones that bound the answer. */
  const QUERY_FIELDS: set<string> := {"find", "filter", "projection", "sort", "skip"}
  const BOUND_FIELDS: set<string> := {"limit", "batchSize", "maxTimeMS"}

  lemma QueryNamesDiffer()
    ensures "find" != "filter" && "find" != "projection" && "find" != "sort" && "find" != "skip"
    ensures "filter" != "projection" && "filter" != "sort" && "filter" != "skip"
    ensures "projection" != "sort" && "projection" != "skip" && "sort" != "skip"
  {
    assert "find"[0] == 'f' && "sort"[0] == 's' && "skip"[0] == 's' && "sort"[1] == 'o' && "skip"[1] == 'k';
  }

  lemma BoundNamesDiffer()
    ensures "limit" != "batchSize" && "limit" != "maxTimeMS" && "batchSize" != "maxTimeMS"
    ensures QUERY_FIELDS !! BOUND_FIELDS && "aggregate" !in QUERY_FIELDS + BOUND_FIELDS
  {
    assert "batchSize"[0] == 'b' && "maxTimeMS"[0] == 'm' && "aggregate"[0] == 'a';
  }

  method FindQuery(collection: string, op: Op) returns (cmd: Doc)
    requires op.Find?
    ensures Get(cmd, "find") == Some(String(collection)) && Get(cmd, "filter") == Some(Document(op.filter))
    ensures Get(cmd, "projection") == AsDocument(op.projection) && Get(cmd, "sort") == AsDocument(op.sort)
    ensures Get(cmd, "skip") == Boxed(op.skip)
    ensures forall other :: other !in QUERY_FIELDS ==> Get(cmd, other) == None
  {
    QueryNamesDiffer();
    cmd := Insert([], "find", String(collection));
    cmd := Insert(cmd, "filter", Document(op.filter));
    cmd := InsertGiven(cmd, "projection", AsDocument(op.projection));
    cmd := InsertGiven(cmd, "sort", AsDocument(op.sort));
    cmd := InsertGiven(cmd, "skip", Boxed(op.skip));
  }

  method BoundRows(query: Doc, rows: Option<int>, maxTime: int) returns (cmd: Doc)
    requires forall name :: name in BOUND_FIELDS ==> Get(query, name) == None
    ensures Get(cmd, "limit") == Boxed(rows) && Get(cmd, "batchSize") == Boxed(rows)
    ensures Get(cmd, "maxTimeMS") == Some(Int32(maxTime))
    ensures forall other :: other !in BOUND_FIELDS ==> Get(cmd, other) == Get(query, other)
  {
    BoundNamesDiffer();
    cmd := InsertGiven(query, "limit", Boxed(rows));
    cmd := InsertGiven(cmd, "batchSize", Boxed(rows));
    cmd := Insert(cmd, "maxTimeMS", Int32(maxTime));
  }

  lemma AggregateNamesDiffer()
    ensures "aggregate" != "pipeline" && "aggregate" != "cursor" && "aggregate" != "maxTimeMS" && "aggregate" != "find"
    ensures "pipeline" != "cursor" && "pipeline" != "maxTimeMS" && "pipeline" != "find"
    ensures "cursor" != "maxTimeMS" && "cursor" != "find" && "maxTimeMS" != "find"
  {
    assert "aggregate"[0] == 'a' && "maxTimeMS"[0] == 'm';
  }

  /** The document for a find, filled in field by field. */
  method FindCommand(collection: string, op: Op, fetch: Option<int>, maxTime: int) returns (cmd: Doc)
    requires op.Find?
    ensures var effective := Effective(fetch, op.limit);
            ServerReads(cmd) == Some(FindWork(collection, op.filter, op.projection, op.sort, op.skip,
                                              effective, effective, Some(maxTime)))
  {
    BoundNamesDiffer();
    var query := FindQuery(collection, op);
    cmd := BoundRows(query, Effective(fetch, op.limit), maxTime);
    assert "find" in QUERY_FIELDS && "filter" in QUERY_FIELDS && "projection" in QUERY_FIELDS;
    assert "sort" in QUERY_FIELDS && "skip" in QUERY_FIELDS;
  }

  method AggregateCommand(collection: string, stages: seq<Bson>, batch: Option<int>, maxTime: int) returns (cmd: Doc)
    ensures ServerReads(cmd) == Some(AggregateWork(collection, stages, batch, Some(maxTime)))
  {
    AggregateNamesDiffer();
    cmd := Insert([], "aggregate", String(collection));
    cmd := Insert(cmd, "pipeline", Array(stages));
    cmd := Insert(cmd, "cursor", Document(InsertGiven([], "batchSize", Boxed(batch))));
    cmd := Insert(cmd, "maxTimeMS", Int32(maxTime));
  }

  /** The command: what a server reads out of it by name is what the request means under the limits. */
  method Command(request: Request, fetchLimit: Option<nat>, maxTimeMs: nat) returns (cmd: Doc)
    ensures ServerReads(cmd) == Some(Meant(request, fetchLimit, maxTimeMs))
  {
    var fetch, maxTime := Fetch(fetchLimit), Min(maxTimeMs, I32_MAX);
    match request.op {
      case Find(_, _, _, _, _) =>
        cmd := FindCommand(request.collection, request.op, fetch, maxTime);
      case Aggregate(pipeline) =>
        var stages := pipeline;
        if fetch.Some? {
          stages := stages + [Spell(Limit(fetch.value))];
        }
        assert stages == Pipeline(request.op, fetch);
        cmd := AggregateCommand(request.collection, stages, fetch, maxTime);
      case Count(filter) =>
        var stages := [Spell(Match(filter)), Spell(CountAll), Spell(DropId)];
        assert stages == Pipeline(request.op, fetch);
        cmd := AggregateCommand(request.collection, stages, None, maxTime);
      case Distinct(key, filter) =>
        var stages := [Spell(Match(filter)), Spell(Unwind(key)), Spell(GroupBy(key)), Spell(SortById)];
        if fetch.Some? {
          stages := stages + [Spell(Limit(fetch.value))];
        }
        assert stages == Pipeline(request.op, fetch);
        cmd := AggregateCommand(request.collection, stages, fetch, maxTime);
    }
  }

  // ----- what the parser guarantees of a request -----

  /** No zero or negative limit, which the server would read as none, and no dotted distinct key. */
  predicate Bounded(op: Op) {
    match op
    case Find(_, _, _, skip, limit) => (limit.Some? ==> limit.value >= 1) && (skip.Some? ==> skip.value >= 0)
    case Distinct(key, _) => key != "" && '.' !in key
    case _ => true
  }

  lemma {:induction false} ChainBounded(lib: Lib, s: string, op: Op)
    requires Bounded(op) && Chain(lib, s, op).Got?
    ensures Bounded(Chain(lib, s, op).value)
    decreases |s|
  {
    if MS.At(MS.SkipWs(s).rest, '.') {
      var name, before := ChainStep(lib, s, op);
      var args := MS.Args(lib, before, 0);
      CallBounded(op, name, args.value);
      ChainBounded(lib, args.rest, ApplyChain(op, name, args.value).value);
    }
  }

  lemma CallBounded(op: Op, name: string, args: seq<Bson>)
    requires Bounded(op) && ApplyChain(op, name, args).Ok?
    ensures Bounded(ApplyChain(op, name, args).value)
  {
  }

  lemma BuiltBounded(verb: string, args: seq<Bson>)
    requires BuildOp(verb, args).Ok?
    ensures Bounded(BuildOp(verb, args).value)
  {
  }

  lemma TailBounded(lib: Lib, s: string, verb: string)
    requires Tail(lib, s, verb).Ok?
    ensures Bounded(Tail(lib, s, verb).value)
  {
    TailSteps(lib, s, verb);
    var args := MS.Args(lib, s, 0);
    BuiltBounded(verb, args.value);
    ChainBounded(lib, args.rest, BuildOp(verb, args.value).value);
  }

  lemma ParsedIsBounded(lib: Lib, text: string)
    requires Parse(lib, text).Ok?
    ensures Bounded(Parse(lib, text).value.op)
  {
    var head := Head(lib, text);
    TailBounded(lib, head.rest, head.value.1);
  }

  /**
   What a command may do: it reads the collection of the query, brings at most `n` rows, and runs for at
   most `maxTimeMs` milliseconds, as far as 32 bits can say so.
   */
  predicate WithinLimits(work: Work, request: Request, n: nat, maxTimeMs: nat) {
    && work.collection == request.collection
    && work.maxTimeMs == Some(if maxTimeMs > I32_MAX then I32_MAX else maxTimeMs)
    && match work
       case FindWork(_, _, _, _, skip, limit, batchSize, _) =>
         && limit.Some? && batchSize == limit && 1 <= limit.value <= Max(n, 1) && limit.value <= I64_MAX
         && (skip.Some? ==> skip.value >= 0)
       case AggregateWork(_, pipeline, batchSize, _) =>
         request.op.Count?
         || (&& batchSize.Some? && 1 <= batchSize.value <= Max(n, 1) && batchSize.value <= I64_MAX
             && pipeline != [] && pipeline[|pipeline| - 1] == Document([Field("$limit", Int64(batchSize.value))]))
  }

  lemma MeantIsWithin(request: Request, n: nat, maxTimeMs: nat)
    requires Bounded(request.op)
    ensures WithinLimits(Meant(request, Some(n), maxTimeMs), request, n, maxTimeMs)
  {
    if !request.op.Find? && !request.op.Count? {
      LimitIsLast(request.op, Fetch(Some(n)).value);
    }
  }

  lemma LimitIsLast(op: Op, fetch: int)
    requires op.Aggregate? || op.Distinct?
    ensures var pipeline := Pipeline(op, Some(fetch));
            pipeline != [] && pipeline[|pipeline| - 1] == Document([Field("$limit", Int64(fetch))])
  {
    var last := SpellAll(Capped(Some(fetch)));
    assert last == [Document([Field("$limit", Int64(fetch))])];
  }

  /**
   Of every text that parses: under a fetch limit the command bounds its rows by it, never by none,
   in nyet's own last stage where it is a pipeline; it reads the collection the text names, and its time
   limit is the one given, cut to 32 bits, so that zero, which is none, is never sent for another.
   */
  lemma CommandIsBounded(lib: Lib, text: string, n: nat, maxTimeMs: nat)
    requires Parse(lib, text).Ok?
    ensures var request := Parse(lib, text).value;
            WithinLimits(Meant(request, Some(n), maxTimeMs), request, n, maxTimeMs)
  {
    ParsedIsBounded(lib, text);
    MeantIsWithin(Parse(lib, text).value, n, maxTimeMs);
  }
}
