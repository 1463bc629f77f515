/** What layer 1 lets through, and the lists it decides by. */
module Classifier {
  import opened Outcomes
  import opened Values
  import opened MongoSyntax
  import R = MongoRequests

  // ----- the lists -----

  datatype Lists = Lists(
    stages: set<string>,       // pipeline stages that only read
    ops: set<string>,          // query, expression, accumulator and window operators
    writes: set<string>,       // keys that write
    scripts: set<string>,      // keys that run JavaScript on the server
    owned: set<string>,        // command options nyet sets itself
    unprovable: set<string>,   // operators that move a value without naming its field
    namespaces: set<string>)   // stages that name another collection

  /** The lists nyet ships. The theorems hold of any lists. */
  function NyetLists(): Lists {
    Lists(
      stages := {
        "$addFields", "$bucket", "$bucketAuto", "$count", "$densify", "$facet", "$fill",
        "$graphLookup", "$group", "$limit", "$lookup", "$match", "$project", "$redact",
        "$replaceRoot", "$replaceWith", "$sample", "$set", "$setWindowFields", "$skip", "$sort",
        "$sortByCount", "$unionWith", "$unset", "$unwind"},
      ops := {
        "$abs", "$add", "$addToSet", "$all", "$allElementsTrue", "$and", "$anyElementTrue",
        "$arrayElemAt", "$arrayToObject", "$avg", "$binarySize", "$bitsAllClear", "$bitsAllSet",
        "$bitsAnyClear", "$bitsAnySet", "$bottom", "$bottomN", "$bsonSize", "$ceil", "$cmp",
        "$concat", "$concatArrays", "$cond", "$convert", "$count", "$covariancePop",
        "$covarianceSamp", "$dateAdd", "$dateDiff", "$dateFromParts", "$dateFromString",
        "$dateSubtract", "$dateToParts", "$dateToString", "$dateTrunc", "$dayOfMonth", "$dayOfWeek",
        "$dayOfYear", "$denseRank", "$derivative", "$divide", "$documentNumber", "$elemMatch",
        "$eq", "$exists", "$exp", "$expMovingAvg", "$expr", "$filter", "$first", "$firstN",
        "$floor", "$getField", "$gt", "$gte", "$hour", "$ifNull", "$in", "$indexOfArray",
        "$indexOfBytes", "$indexOfCP", "$integral", "$isArray", "$isNumber", "$isoDayOfWeek",
        "$isoWeek", "$isoWeekYear", "$last", "$lastN", "$let", "$linearFill", "$literal", "$ln",
        "$locf", "$log", "$log10", "$lt", "$lte", "$ltrim", "$map", "$max", "$maxN", "$median",
        "$mergeObjects", "$millisecond", "$min", "$minN", "$minute", "$mod", "$month", "$multiply",
        "$ne", "$nin", "$nor", "$not", "$objectToArray", "$options", "$or", "$percentile", "$pow",
        "$push", "$range", "$rank", "$reduce", "$regex", "$regexFind", "$regexFindAll",
        "$regexMatch", "$replaceAll", "$replaceOne", "$reverseArray", "$round", "$rtrim", "$second",
        "$setDifference", "$setEquals", "$setIntersection", "$setIsSubset", "$setUnion", "$shift",
        "$size", "$slice", "$sortArray", "$split", "$sqrt", "$stdDevPop", "$stdDevSamp",
        "$strLenBytes", "$strLenCP", "$strcasecmp", "$substr", "$substrBytes", "$substrCP",
        "$subtract", "$sum", "$switch", "$toBool", "$toDate", "$toDecimal", "$toDouble", "$toInt",
        "$toLong", "$toLower", "$toObjectId", "$toString", "$toUpper", "$top", "$topN", "$trim",
        "$trunc", "$type", "$week", "$year", "$zip"},
      writes := {
        "$merge", "$out"},
      scripts := {
        "$accumulator", "$function", "$where"},
      owned := {
        "$comment", "$db", "$hint", "$maxTimeMS", "$readPreference"},
      unprovable := {
        "$arrayToObject", "$bsonSize", "$densify", "$fill", "$getField", "$objectToArray",
        "$setField", "$unsetField"},
      namespaces := {
        "$graphLookup", "$lookup", "$unionWith"})
  }

  // ----- the [pii] policy -----

  /** Lower-case (table, column) pairs and the sanction. */
  datatype PiiRules = PiiRules(pairs: set<(string, string)>, mask: bool)

  /** The protected field names in scope of one request, and whether the mode is mask. */
  datatype PiiCtx = PiiCtx(names: set<string>, mask: bool)

  /** Everything the walk decides by. */
  datatype Rules = Rules(lib: Lib, lists: Lists, pii: Option<PiiCtx>)

  /** Where a document key sits: only a projection is relaxed, and only under mask. */
  datatype Pos = Strict | Projection

  predicate IsOperator(key: string) {
    "$" <= key
  }

  /** Where the first dot from `i` on stands, or the end. */
  function DotFrom(path: string, i: nat): (n: nat)
    requires i <= |path|
    ensures i <= n <= |path| && (forall k :: i <= k < n ==> path[k] != '.') && (n < |path| ==> path[n] == '.')
    decreases |path| - i
  {
    if i == |path| || path[i] == '.' then i else DotFrom(path, i + 1)
  }

  /** The dot-separated segments of the path from `i` on. */
  function SplitFrom(path: string, i: nat): (parts: seq<string>)
    requires i <= |path|
    ensures parts != []
    decreases |path| - i
  {
    var n := DotFrom(path, i);
    if n == |path| then [path[i..n]] else [path[i..n]] + SplitFrom(path, n + 1)
  }

  function Split(path: string): (parts: seq<string>)
    ensures parts != []
  {
    SplitFrom(path, 0)
  }

  /** Whether some segment of the path is a protected name, letter case aside. */
  predicate PathHit(c: Rules, path: string)
    requires c.pii.Some?
  {
    exists segment :: segment in Split(path) && c.lib.lower(segment) in c.pii.value.names
  }

  /** A projection value that can only include or exclude the field it stands by. */
  predicate ProjectionLiteral(v: Bson) {
    match v
    case Boolean(_) => true
    case Int32(n) => n == 0 || n == 1
    case Int64(n) => n == 0 || n == 1
    case Double(Finite(x)) => x == 0.0 || x == 1.0
    case _ => false
  }

  function CheckFieldKey(c: Rules, key: string, value: Bson, pos: Pos): Result<()>
    requires c.pii.Some?
  {
    if IsOperator(key) then Ok(())
    else if !PathHit(c, key) then Ok(())
    else if pos == Projection && c.pii.value.mask && ProjectionLiteral(value) then Ok(())
    else Err(PiiColumn)
  }

  /** A `$field` or `$$variable.field` string. */
  function CheckRef(c: Rules, text: string): Result<()>
    requires c.pii.Some?
  {
    if !IsOperator(text) then Ok(())
    else if At(text[1..], '$') then
      var variable := text[2..];
      var n := DotFrom(variable, 0);
      if n < |variable| then CheckName(c, variable[n + 1..])
      else if variable == "ROOT" || variable == "CURRENT" then Err(PiiUnprovable)
      else Ok(())
    else CheckName(c, text[1..])
  }

  /** A plain string that names a field. */
  function CheckName(c: Rules, path: string): Result<()>
    requires c.pii.Some?
  {
    if PathHit(c, path) then Err(PiiColumn) else Ok(())
  }

  const LOOKUP_NAMES: seq<string> :=
    ["localField", "foreignField", "as", "connectFromField", "connectToField", "depthField"]

  /** The string operands of `$unset`. */
  function UnsetPaths(value: Bson): seq<string> {
    match value
    case String(path) => [path]
    case Array(items) => StringsOf(items)
    case _ => []
  }

  function StringsOf(items: seq<Bson>): seq<string> {
    if items == [] then []
    else (if items[0].String? then [items[0].text] else []) + StringsOf(items[1..])
  }

  function CheckNames(c: Rules, fields: seq<Field>, names: seq<string>): Result<()>
    requires c.pii.Some?
  {
    if names == [] then Ok(())
    else
      var named := Get(fields, names[0]);
      var _ :- if named.Some? && named.value.String? then CheckName(c, named.value.text) else Ok(());
      CheckNames(c, fields, names[1..])
  }

  /** The positions of a stage where a plain string names a field. */
  function CheckStage(c: Rules, key: string, value: Bson): Result<()>
    requires c.pii.Some?
  {
    if key == "$unset" then
      if !c.pii.value.mask && exists path :: path in UnsetPaths(value) && PathHit(c, path) then Err(PiiColumn)
      else Ok(())
    else if key == "$count" then
      if value.String? then CheckName(c, value.text) else Ok(())
    else if key == "$unwind" then
      if value.Document? then CheckNames(c, value.fields, ["includeArrayIndex"]) else Ok(())
    else if key == "$lookup" || key == "$graphLookup" then
      if value.Document? then CheckNames(c, value.fields, LOOKUP_NAMES) else Ok(())
    else Ok(())
  }

  // ----- the gate every key passes -----

  function CheckKey(c: Rules, key: string, stage: bool): Result<()> {
    if !IsOperator(key) then Ok(())
    else if c.pii.Some? && key in c.lists.unprovable then Err(PiiUnprovable)
    else if key in c.lists.writes then Err(WriteOperation)
    else if key in c.lists.scripts then Err(DeniedFunction)
    else if key in c.lists.owned then Err(DeniedOperator)
    else if stage then
      if key in c.lists.stages then Ok(()) else Err(DeniedOperator)
    else if key in c.lists.ops || key in c.lists.stages then Ok(())
    else Err(DeniedOperator)
  }

  /** The collection a stage reads beside the one the query names: never internal, never elsewhere. */
  function CheckSource(c: Rules, key: string, value: Bson): Result<()> {
    if key !in c.lists.namespaces then Ok(())
    else
      match value
      case String(name) => R.CheckCollectionName(name)
      case Document(fields) =>
        var _ :- CheckNamespace(Get(fields, "from"));
        CheckNamespace(Get(fields, "coll"))
      case _ => Ok(())
  }

  function CheckNamespace(named: Option<Bson>): Result<()> {
    match named
    case Some(String(name)) => R.CheckCollectionName(name)
    case Some(Document(_)) => Err(DeniedCommand)
    case _ => Ok(())
  }

  // ----- the walk -----

  function WalkPipeline(c: Rules, pipeline: seq<Bson>, depth: nat): Result<()>
    decreases pipeline, 2
  {
    if depth > MAX_DEPTH then Err(ParseFailed) else WalkStages(c, pipeline, depth)
  }

  function WalkStages(c: Rules, stages: seq<Bson>, depth: nat): Result<()>
    decreases stages, 1
  {
    if stages == [] then Ok(())
    else
      var _ :- WalkStage(c, stages[0], depth);
      WalkStages(c, stages[1..], depth)
  }

  function WalkStage(c: Rules, stage: Bson, depth: nat): Result<()>
    decreases stage, 0
  {
    if !stage.Document? || |stage.fields| != 1 then Err(ParseFailed)
    else
      var Field(key, value) := stage.fields[0];
      var _ :- CheckKey(c, key, true);
      var _ :- if c.pii.Some? then CheckFieldKey(c, key, value, Strict) else Ok(());
      var _ :- if c.pii.Some? then CheckStage(c, key, value) else Ok(());
      WalkValueOf(c, stage.fields[0], depth + 1, if key == "$project" then Projection else Strict)
  }

  function WalkDoc(c: Rules, fields: seq<Field>, depth: nat, pos: Pos): Result<()>
    decreases fields, 2
  {
    if depth > MAX_DEPTH then Err(ParseFailed) else WalkFields(c, fields, depth, pos)
  }

  function WalkFields(c: Rules, fields: seq<Field>, depth: nat, pos: Pos): Result<()>
    decreases fields, 1
  {
    if fields == [] then Ok(())
    else
      var _ :- WalkField(c, fields[0], depth, pos);
      WalkFields(c, fields[1..], depth, pos)
  }

  /** The relaxation of a projection survives only through plain subdocuments. */
  function Below(pos: Pos, f: Field): Pos {
    if pos == Projection && !IsOperator(f.key) && f.value.Document? then Projection else Strict
  }

  function WalkField(c: Rules, f: Field, depth: nat, pos: Pos): Result<()>
    decreases f, 1
  {
    var _ :- CheckKey(c, f.key, false);
    var _ :- if c.pii.Some? then CheckFieldKey(c, f.key, f.value, pos) else Ok(());
    WalkValueOf(c, f, depth + 1, Below(pos, f))
  }

  /** The value of a field; the value of `$facet` and of `pipeline` may hold nested pipelines. */
  function WalkValueOf(c: Rules, f: Field, depth: nat, pos: Pos): Result<()>
    decreases f, 0
  {
    var _ :- CheckSource(c, f.key, f.value);
    if f.key == "$facet" && f.value.Document? then WalkBranches(c, f.value.fields, depth)
    else if f.key == "pipeline" && f.value.Array? then WalkPipeline(c, f.value.items, depth + 1)
    else WalkValue(c, f.value, depth, pos)
  }

  function WalkBranches(c: Rules, branches: seq<Field>, depth: nat): Result<()>
    decreases branches, 1
  {
    if branches == [] then Ok(())
    else
      var _ :- WalkBranch(c, branches[0], depth);
      WalkBranches(c, branches[1..], depth)
  }

  function WalkBranch(c: Rules, branch: Field, depth: nat): Result<()>
    decreases branch, 0
  {
    var _ :- CheckKey(c, branch.key, false);
    var _ :- if c.pii.Some? then CheckName(c, branch.key) else Ok(());
    if !branch.value.Array? then Err(ParseFailed)
    else WalkPipeline(c, branch.value.items, depth + 1)
  }

  function WalkValue(c: Rules, value: Bson, depth: nat, pos: Pos): Result<()>
    decreases value, 0
  {
    if depth > MAX_DEPTH then Err(ParseFailed)
    else
      match value
      case Document(fields) => WalkDoc(c, fields, depth, pos)
      case Array(items) => WalkItems(c, items, depth + 1, pos)
      case String(text) => if c.pii.Some? then CheckRef(c, text) else Ok(())
      case _ => Ok(())
  }

  function WalkItems(c: Rules, items: seq<Bson>, depth: nat, pos: Pos): Result<()>
    decreases items, 1
  {
    if items == [] then Ok(())
    else
      var _ :- WalkValue(c, items[0], depth, pos);
      WalkItems(c, items[1..], depth, pos)
  }

  // ----- requests -----

  function WalkOptional(c: Rules, doc: Option<seq<Field>>, pos: Pos): Result<()> {
    if doc.Some? then WalkDoc(c, doc.value, 0, pos) else Ok(())
  }

  function Classify(c: Rules, request: Request): Result<()> {
    match request.op
    case Find(filter, projection, sort, _, _) =>
      var _ :- WalkDoc(c, filter, 0, Strict);
      var _ :- WalkOptional(c, projection, Projection);
      WalkOptional(c, sort, Strict)
    case Aggregate(pipeline) => WalkPipeline(c, pipeline, 0)
    case Count(filter) => WalkDoc(c, filter, 0, Strict)
    case Distinct(key, filter) =>
      var _ :- if c.pii.Some? then CheckName(c, key) else Ok(());
      WalkDoc(c, filter, 0, Strict)
  }

  // ----- the scope of a policy -----

  /** The collections a stage-like key names, in lower case. */
  function Named(lib: Lib, inner: Bson): set<string> {
    match inner
    case String(name) => {lib.lower(name)}
    case Document(fields) => NameIn(lib, Get(fields, "from")) + NameIn(lib, Get(fields, "coll"))
    case _ => {}
  }

  function NameIn(lib: Lib, named: Option<Bson>): set<string> {
    match named
    case Some(String(name)) => {lib.lower(name)}
    case _ => {}
  }

  function Collect(lib: Lib, lists: Lists, value: Bson): set<string>
    decreases value, 0
  {
    match value
    case Document(fields) => CollectFields(lib, lists, fields)
    case Array(items) => CollectItems(lib, lists, items)
    case _ => {}
  }

  function CollectFields(lib: Lib, lists: Lists, fields: seq<Field>): set<string>
    decreases fields, 1
  {
    if fields == [] then {}
    else
      (if fields[0].key in lists.namespaces then Named(lib, fields[0].value) else {})
      + Collect(lib, lists, fields[0].value) + CollectFields(lib, lists, fields[1..])
  }

  function CollectItems(lib: Lib, lists: Lists, items: seq<Bson>): set<string>
    decreases items, 1
  {
    if items == [] then {} else Collect(lib, lists, items[0]) + CollectItems(lib, lists, items[1..])
  }

  /** Every collection the request reads. */
  function Scope(lib: Lib, lists: Lists, request: Request): set<string> {
    {lib.lower(request.collection)}
    + if request.op.Aggregate? then CollectItems(lib, lists, request.op.pipeline) else {}
  }

  /** The policy as it applies to one request; none when no protected field is in scope. */
  function CtxOf(lib: Lib, lists: Lists, request: Request, rules: PiiRules): Option<PiiCtx> {
    var scope := Scope(lib, lists, request);
    var names := set pair | pair in rules.pairs && pair.0 in scope :: pair.1;
    if names == {} then None else Some(PiiCtx(names, rules.mask))
  }

  /** Layer 1 under a policy: parse, then classify. With no rules this is the plain check. */
  function Check(lib: Lib, lists: Lists, text: string, rules: PiiRules): Result<Request> {
    var request :- R.Parse(lib, text);
    var _ :- Classify(Rules(lib, lists, CtxOf(lib, lists, request, rules)), request);
    Ok(request)
  }
}
