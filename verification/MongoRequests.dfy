/** From one parsed method call, and the cursor calls chained onto it, to the request nyet runs. */
module MongoRequests {
  import opened Outcomes
  import opened Values
  import opened MongoSyntax

  const ALLOWED_METHODS: seq<string> := ["aggregate", "countDocuments", "distinct", "find", "findOne"]

  const WRITE_METHODS: seq<string> := [
    "bulkWrite", "createIndex", "createIndexes", "deleteMany", "deleteOne", "drop", "dropIndex",
    "dropIndexes", "findAndModify", "findOneAndDelete", "findOneAndReplace", "findOneAndUpdate",
    "insert", "insertMany", "insertOne", "remove", "renameCollection", "replaceOne", "save",
    "update", "updateMany", "updateOne"]

  const JS_METHODS: seq<string> := ["mapReduce"]

  const ALLOWED_CHAIN: seq<string> := ["limit", "skip", "sort", "toArray"]

  function CheckMethod(verb: string): Result<()> {
    if verb in WRITE_METHODS then Err(WriteOperation)
    else if verb in JS_METHODS then Err(DeniedFunction)
    else if verb !in ALLOWED_METHODS then Err(DeniedCommand)
    else Ok(())
  }

  function CheckChain(name: string): Result<()> {
    if name in ALLOWED_CHAIN then Ok(()) else Err(DeniedCommand)
  }

  /** `system.*` names are internal catalogs, wherever a collection is named. */
  function CheckCollectionName(name: string): Result<()> {
    if "system." <= name then Err(DeniedCommand) else Ok(())
  }

  /** The `i`-th argument, which has to be a document when it is there. */
  function DocArg(args: seq<Bson>, i: nat): Result<Option<seq<Field>>> {
    if i >= |args| then Ok(None)
    else if args[i].Document? then Ok(Some(args[i].fields))
    else Err(ParseFailed)
  }

  function OrEmpty(doc: Option<seq<Field>>): seq<Field> {
    if doc.Some? then doc.value else []
  }

  function BuildOp(verb: string, args: seq<Bson>): Result<Op> {
    if verb == "find" || verb == "findOne" then
      if |args| > 2 then Err(DeniedCommand) else
      var filter :- DocArg(args, 0);
      var projection :- DocArg(args, 1);
      Ok(Find(OrEmpty(filter), projection, None, None, if verb == "findOne" then Some(1) else None))
    else if verb == "aggregate" then
      if |args| > 1 then Err(DeniedCommand)
      else if |args| == 1 && args[0].Array? then Ok(Aggregate(args[0].items))
      else Err(ParseFailed)
    else if verb == "countDocuments" then
      if |args| > 1 then Err(DeniedCommand) else
      var filter :- DocArg(args, 0);
      Ok(Count(OrEmpty(filter)))
    else if verb == "distinct" then
      if |args| > 2 then Err(DeniedCommand)
      else if args == [] || !args[0].String? || args[0].text == "" then Err(ParseFailed)
      else
        var filter :- DocArg(args, 1);
        if '.' in args[0].text then Err(DeniedCommand)
        else Ok(Distinct(args[0].text, OrEmpty(filter)))
    else Err(DeniedCommand)
  }

  function IntArg(args: seq<Bson>): Result<int> {
    if |args| == 1 && (args[0].Int32? || args[0].Int64?) then Ok(args[0].n) else Err(ParseFailed)
  }

  function ApplyChain(op: Op, name: string, args: seq<Bson>): Result<Op> {
    if name !in ALLOWED_CHAIN || !op.Find? then Err(DeniedCommand)
    else if name == "toArray" then
      if args == [] then Ok(op) else Err(ParseFailed)
    else if name == "sort" then
      if op.sort.Some? then Err(ParseFailed)
      else if |args| == 1 && args[0].Document? && args[0].fields != [] then
        Ok(op.(sort := Some(args[0].fields)))
      else Err(ParseFailed)
    else if name == "skip" then
      if op.skip.Some? then Err(ParseFailed) else
      var n :- IntArg(args);
      if n < 0 then Err(ParseFailed) else Ok(op.(skip := Some(n)))
    else
      if op.limit.Some? then Err(ParseFailed) else
      var n :- IntArg(args);
      if n < 1 then Err(ParseFailed) else Ok(op.(limit := Some(n)))
  }

  // ----- the whole text -----

  /** `.a.b.method`, up to the parenthesis that opens the arguments. */
  function Segments(lib: Lib, s: string, read: seq<string>): (r: Step<seq<string>>)
    ensures r.Got? ==> |r.rest| < |s| && r.value != []
    decreases |s|
  {
    var (_, t) :- Expect(s, '.');
    var (_, u) :- SkipWs(t);
    var n := SegmentLen(lib, u);
    if n == 0 then Refused(ParseFailed)
    else
      var (_, v) :- SkipWs(u[n..]);
      if At(v, '(') then Got(read + [u[..n]], v)
      else if At(v, '.') then Segments(lib, v, read + [u[..n]])
      else Refused(ParseFailed)
  }

  function Join(parts: seq<string>): string {
    if parts == [] then ""
    else if |parts| == 1 then parts[0]
    else parts[0] + "." + Join(parts[1..])
  }

  /** The cursor calls after the method call. */
  function Chain(lib: Lib, s: string, op: Op): (r: Step<Op>)
    decreases |s|
  {
    var (_, t) :- SkipWs(s);
    if !At(t, '.') then Got(op, t)
    else
      var (name, v) :- SpacedIdent(t[1..]);
      if CheckChain(name).Err? then Refused(CheckChain(name).reason)
      else
        var (args, w) :- Args(lib, v, 0);
        match ApplyChain(op, name, args)
        case Ok(op') => Chain(lib, w, op')
        case Err(e) => Refused(e)
  }

  /** Nothing may follow the query but one semicolon and blanks. */
  function AtEnd(s: string): Result<()> {
    match SkipWs(s)
    case Refused(e) => Err(e)
    case Got(_, t) =>
      match SkipWs(if At(t, ';') then t[1..] else t)
      case Refused(e) => Err(e)
      case Got(_, u) => if u == "" then Ok(()) else Err(ParseFailed)
  }

  function OfStep<T>(step: Step<T>): Result<(T, string)> {
    match step
    case Got(v, rest) => Ok((v, rest))
    case Refused(e) => Err(e)
  }

  /** The collection and the method a dotted path names. */
  function Target(segments: seq<string>): Result<(string, string)>
    requires segments != []
  {
    var verb, path := segments[|segments| - 1], segments[..|segments| - 1];
    if path == [] then Err(DeniedCommand)
    else
      var _ :- CheckCollectionName(Join(path));
      var _ :- CheckMethod(verb);
      Ok((Join(path), verb))
  }

  /** `db.<collection>.<verb>`: both names are judged before any argument is read. */
  function Head(lib: Lib, text: string): Step<(string, string)> {
    var (_, s) :- AfterDb(text);
    var (segments, t) :- Segments(lib, s, []);
    match Target(segments)
    case Ok(target) => Got(target, t)
    case Err(e) => Refused(e)
  }

  /** A request starts with `db`. */
  function AfterDb(text: string): Step<()> {
    var (_, s) :- SkipWs(text);
    if s[..IdentLen(s)] == "db" then Got((), s[IdentLen(s)..]) else Refused(ParseFailed)
  }

  /** The arguments and everything after them. */
  function Tail(lib: Lib, s: string, verb: string): Result<Op> {
    var (args, t) :- OfStep(Args(lib, s, 0));
    var op :- BuildOp(verb, args);
    var (op', u) :- OfStep(Chain(lib, t, op));
    var _ :- AtEnd(u);
    Ok(op')
  }

  function Parse(lib: Lib, text: string): Result<Request> {
    if Utf8Len(text) > MAX_INPUT_BYTES then Err(ParseFailed)
    else
      var ((collection, verb), s) :- OfStep(Head(lib, text));
      var op :- Tail(lib, s, verb);
      Ok(Request(collection, op))
  }

  /** One cursor call of a chain that is read: its name, and the text its arguments start at. */
  lemma ChainStep(lib: Lib, s: string, op: Op) returns (name: string, before: string)
    requires Chain(lib, s, op).Got? && At(SkipWs(s).rest, '.')
    ensures var args := Args(lib, before, 0);
            && args.Got? && |args.rest| < |s| && ApplyChain(op, name, args.value).Ok?
            && Chain(lib, s, op) == Chain(lib, args.rest, ApplyChain(op, name, args.value).value)
  {
    var t := SkipWs(s).rest;
    name, before := SpacedIdent(t[1..]).value, SpacedIdent(t[1..]).rest;
  }

  /** The parts of a request text that is read. */
  lemma TailSteps(lib: Lib, s: string, verb: string)
    requires Tail(lib, s, verb).Ok?
    ensures var args := Args(lib, s, 0);
            && args.Got? && BuildOp(verb, args.value).Ok?
            && var chain := Chain(lib, args.rest, BuildOp(verb, args.value).value);
               chain.Got? && chain.value == Tail(lib, s, verb).value
  {
  }
}
