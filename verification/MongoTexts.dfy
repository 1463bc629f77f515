/**
 What a query text means, said of its printed form: which argument is the filter, which the projection,
 and what the cursor calls set, in whatever order they come.
 */
module MongoTexts {
  import opened Outcomes
  import opened Values
  import opened MongoSyntax
  import opened Json
  import opened JsonText
  import R = MongoRequests
  import S = SampleMongo

  // ----- printed calls -----

  /** A cursor call with its argument as it is printed. */
  datatype Call = Sort(keys: Json) | Skip(n: int) | Limit(n: int) | ToArray

  function NameOf(call: Call): string {
    match call
    case Sort(_) => "sort"
    case Skip(_) => "skip"
    case Limit(_) => "limit"
    case ToArray => "toArray"
  }

  function ArgsOf(call: Call): seq<Json> {
    match call
    case Sort(keys) => [keys]
    case Skip(n) => [JInt(n)]
    case Limit(n) => [JInt(n)]
    case ToArray => []
  }

  function Parenthesized(style: Style, args: seq<Json>): string {
    "(" + (PrintItems(style, args) + [')'])
  }

  function CallsText(style: Style, calls: seq<Call>): string {
    if calls == [] then ""
    else "." + (NameOf(calls[0]) + (Parenthesized(style, ArgsOf(calls[0])) + CallsText(style, calls[1..])))
  }

  /** `db.<collection>.<verb>(<args>)` and the cursor calls after it. */
  function QueryText(style: Style, collection: string, verb: string, args: seq<Json>, calls: seq<Call>): string {
    "db." + collection + "." + verb + (Parenthesized(style, args) + CallsText(style, calls))
  }

  /** A JSON object that denotes the document. */
  predicate Denotes(lib: Lib, j: Json, fields: seq<Field>) {
    HasText(j) && Read(lib, j, 1) == Ok(Document(fields))
  }

  // ----- arguments -----

  lemma ArgsReadAt(lib: Lib, style: Style, args: seq<Json>, depth: nat, rest: string)
    requires Faithful(style) && AllHaveText(args) && depth <= MAX_DEPTH
    ensures Args(lib, Parenthesized(style, args) + rest, depth) == Before(ReadItems(lib, args, depth + 1), rest)
  {
    var s := Parenthesized(style, args) + rest;
    assert s[0] == '(' && s[1..] == PrintItems(style, args) + [')'] + rest;
    SkipNothing(s);
    ListReads(lib, style, args, depth, ')', rest);
  }

  lemma ArgsRead(lib: Lib, style: Style, args: seq<Json>, rest: string)
    requires Faithful(style) && AllHaveText(args)
    ensures Args(lib, Parenthesized(style, args) + rest, 0) == Before(ReadItems(lib, args, 1), rest)
  {
    ArgsReadAt(lib, style, args, 0, rest);
  }

  lemma NoneReads(lib: Lib)
    ensures ReadItems(lib, [], 1) == Ok([]) && AllHaveText([])
  {
  }

  lemma OneReads(lib: Lib, j: Json, v: Bson)
    requires HasText(j) && Read(lib, j, 1) == Ok(v)
    ensures ReadItems(lib, [j], 1) == Ok([v]) && AllHaveText([j])
  {
    var one := [j];
    assert one[1..] == [];
    assert [v] + [] == [v];
  }

  lemma TwoRead(lib: Lib, j: Json, v: Bson, k: Json, w: Bson)
    requires HasText(j) && Read(lib, j, 1) == Ok(v) && HasText(k) && Read(lib, k, 1) == Ok(w)
    ensures ReadItems(lib, [j, k], 1) == Ok([v, w]) && AllHaveText([j, k])
  {
    var two := [j, k];
    assert two[1..] == [k];
    OneReads(lib, k, w);
    assert [v] + [w] == [v, w];
  }

  // ----- cursor calls -----

  /** What a cursor call needs to be accepted. */
  ghost predicate Proper(lib: Lib, call: Call) {
    match call
    case Sort(keys) => HasText(keys) && exists fields: seq<Field> :: Denotes(lib, keys, fields) && fields != []
    case Skip(n) => 0 <= n <= I64_MAX
    case Limit(n) => 1 <= n <= I64_MAX
    case ToArray => true
  }

  predicate SameKind(a: Call, b: Call) {
    (a.Sort? && b.Sort?) || (a.Skip? && b.Skip?) || (a.Limit? && b.Limit?)
  }

  predicate NoKindTwice(calls: seq<Call>) {
    forall i, j :: 0 <= i < j < |calls| ==> !SameKind(calls[i], calls[j])
  }

  /** Nothing is set yet that one of the calls sets. */
  predicate Unset(op: Op, calls: seq<Call>) {
    && op.Find?
    && forall i :: 0 <= i < |calls| ==>
         && (calls[i].Sort? ==> op.sort == None)
         && (calls[i].Skip? ==> op.skip == None)
         && (calls[i].Limit? ==> op.limit == None)
  }

  /** What the find is after the calls: each sets its own part, and nothing else is touched. */
  ghost predicate Asked(lib: Lib, calls: seq<Call>, before: Op, after: Op) {
    && before.Find? && after.Find? && after.filter == before.filter && after.projection == before.projection
    && (forall keys :: Sort(keys) in calls ==> after.sort.Some? && Denotes(lib, keys, after.sort.value))
    && (forall n :: Skip(n) in calls ==> after.skip == Some(n))
    && (forall n :: Limit(n) in calls ==> after.limit == Some(n))
    && ((forall call :: call in calls ==> !call.Sort?) ==> after.sort == before.sort)
    && ((forall call :: call in calls ==> !call.Skip?) ==> after.skip == before.skip)
    && ((forall call :: call in calls ==> !call.Limit?) ==> after.limit == before.limit)
  }

  lemma NameReads(call: Call, rest: string)
    requires At(rest, '(')
    ensures SpacedIdent(NameOf(call) + rest) == Got(NameOf(call), rest)
    ensures R.CheckChain(NameOf(call)) == Ok(())
  {
    var name := NameOf(call);
    var s := name + rest;
    WordEnds(name, rest);
    SkipNothing(s);
  }

  lemma WordEnds(name: string, rest: string)
    requires name != "" && At(rest, '(') && forall i :: 0 <= i < |name| ==> IsAlpha(name[i])
    ensures IdentLen(name + rest) == |name| && (name + rest)[..|name|] == name && (name + rest)[|name|..] == rest
    ensures !IsSpace(name[0]) && name[0] != '/'
  {
    assert (name + rest)[1..] == name[1..] + rest;
    SpanStops(name[1..], rest, IsIdentPart);
  }

  lemma CallIsApplied(lib: Lib, call: Call, op: Op) returns (args: seq<Bson>, after: Op)
    requires Proper(lib, call) && Unset(op, [call])
    ensures AllHaveText(ArgsOf(call)) && ReadItems(lib, ArgsOf(call), 1) == Ok(args)
    ensures R.ApplyChain(op, NameOf(call), args) == Ok(after) && Asked(lib, [call], op, after)
  {
    assert [call][0] == call;
    match call {
      case Sort(keys) =>
        var fields: seq<Field> :| Denotes(lib, keys, fields) && fields != [];
        OneReads(lib, keys, Document(fields));
        args, after := [Document(fields)], op.(sort := Some(fields));
      case Skip(n) =>
        OneReads(lib, JInt(n), Whole(n));
        args, after := [Whole(n)], op.(skip := Some(n));
      case Limit(n) =>
        OneReads(lib, JInt(n), Whole(n));
        args, after := [Whole(n)], op.(limit := Some(n));
      case ToArray =>
        NoneReads(lib);
        args, after := [], op;
    }
  }

  lemma AskedOneByOne(lib: Lib, calls: seq<Call>, before: Op, middle: Op, after: Op)
    requires calls != [] && NoKindTwice(calls)
    requires Asked(lib, [calls[0]], before, middle) && Asked(lib, calls[1..], middle, after)
    ensures Asked(lib, calls, before, after)
  {
    var first, others := calls[0], calls[1..];
    assert calls == [first] + others;
    assert forall call :: call in others ==> !SameKind(first, call) by {
      assert forall i :: 0 < i < |calls| ==> !SameKind(calls[0], calls[i]);
    }
    assert first in [first];
  }

  lemma {:induction false} CallsRead(lib: Lib, style: Style, calls: seq<Call>, op: Op) returns (after: Op)
    requires Faithful(style) && NoKindTwice(calls) && Unset(op, calls)
    requires forall i :: 0 <= i < |calls| ==> Proper(lib, calls[i])
    ensures R.Chain(lib, CallsText(style, calls), op) == Got(after, "") && Asked(lib, calls, op, after)
    decreases |calls|
  {
    if calls == [] {
      after := op;
    } else {
      var first, rest := calls[0], CallsText(style, calls[1..]);
      var args, middle := CallIsApplied(lib, first, op);
      CallReads(lib, style, first, rest, op, args, middle);
      after := CallsRead(lib, style, calls[1..], middle);
      AskedOneByOne(lib, calls, op, middle, after);
    }
  }

  lemma CallReads(lib: Lib, style: Style, call: Call, rest: string, op: Op, args: seq<Bson>, after: Op)
    requires Faithful(style) && AllHaveText(ArgsOf(call)) && ReadItems(lib, ArgsOf(call), 1) == Ok(args)
    requires R.ApplyChain(op, NameOf(call), args) == Ok(after)
    ensures R.Chain(lib, "." + (NameOf(call) + (Parenthesized(style, ArgsOf(call)) + rest)), op)
         == R.Chain(lib, rest, after)
  {
    var parens := Parenthesized(style, ArgsOf(call)) + rest;
    var s := "." + (NameOf(call) + parens);
    SkipNothing(s);
    assert s[1..] == NameOf(call) + parens;
    NameReads(call, parens);
    ArgsRead(lib, style, ArgsOf(call), rest);
  }

  // ----- whole texts -----

  lemma VerbIsSegment(lib: Lib, verb: string)
    requires S.KnowsAscii(lib) && verb != "" && forall i :: 0 <= i < |verb| ==> IsAlpha(verb[i])
    ensures S.IsSegment(lib, verb)
  {
  }

  lemma VerbIsVerb(lib: Lib, verb: string)
    requires S.KnowsAscii(lib) && verb in R.ALLOWED_METHODS
    ensures S.IsVerb(lib, verb)
  {
    VerbIsSegment(lib, verb);
  }

  /** A text is its head, its arguments and its calls. */
  lemma TextParses(lib: Lib, style: Style, path: seq<string>, verb: string, args: seq<Json>, values: seq<Bson>,
                   calls: seq<Call>, op: Op, after: Op)
    requires S.KnowsAscii(lib) && S.IsCollection(lib, path) && Faithful(style) && verb in R.ALLOWED_METHODS
    requires Utf8Len(QueryText(style, R.Join(path), verb, args, calls)) <= MAX_INPUT_BYTES
    requires AllHaveText(args) && ReadItems(lib, args, 1) == Ok(values) && R.BuildOp(verb, values) == Ok(op)
    requires R.Chain(lib, CallsText(style, calls), op) == Got(after, "")
    ensures R.Parse(lib, QueryText(style, R.Join(path), verb, args, calls)) == Ok(Request(R.Join(path), after))
  {
    VerbIsVerb(lib, verb);
    S.HeadReads(lib, path, verb, Parenthesized(style, args) + CallsText(style, calls));
    ArgsRead(lib, style, args, CallsText(style, calls));
    assert SkipWs("") == Got((), "");
  }

  lemma NoCalls(lib: Lib, style: Style, op: Op)
    ensures R.Chain(lib, CallsText(style, []), op) == Got(op, "")
  {
    assert SkipWs("") == Got((), "");
  }

  /** Each argument denotes its document. */
  predicate AllDenote(lib: Lib, args: seq<Json>, docs: seq<seq<Field>>) {
    |args| == |docs| && forall i :: 0 <= i < |args| ==> Denotes(lib, args[i], docs[i])
  }

  lemma DocumentsRead(lib: Lib, args: seq<Json>, docs: seq<seq<Field>>) returns (values: seq<Bson>)
    requires AllDenote(lib, args, docs) && |args| <= 2
    ensures AllHaveText(args) && ReadItems(lib, args, 1) == Ok(values) && |values| == |docs|
    ensures forall i :: 0 <= i < |docs| ==> values[i] == Document(docs[i])
  {
    if |args| == 0 {
      NoneReads(lib);
      values := [];
    } else if |args| == 1 {
      OneReads(lib, args[0], Document(docs[0]));
      values := [Document(docs[0])];
      assert args == [args[0]];
    } else {
      TwoRead(lib, args[0], Document(docs[0]), args[1], Document(docs[1]));
      values := [Document(docs[0]), Document(docs[1])];
      assert args == [args[0], args[1]];
    }
  }

  /** A find before its cursor calls: the first document is the filter, the second the projection. */
  function Plain(docs: seq<seq<Field>>, one: bool): Op {
    Find(if docs == [] then [] else docs[0], if |docs| < 2 then None else Some(docs[1]), None, None,
         if one then Some(1) else None)
  }

  lemma FindIsBuilt(docs: seq<seq<Field>>, values: seq<Bson>, one: bool)
    requires |values| == |docs| <= 2 && forall i :: 0 <= i < |docs| ==> values[i] == Document(docs[i])
    ensures R.BuildOp(if one then "findOne" else "find", values) == Ok(Plain(docs, one))
  {
    assert |"find"| != |"findOne"|;
  }

  /**
   `find` and `findOne`: the first argument is the filter, the second the projection, each cursor call
   sets its own part in whatever order they come, and `findOne` is a limit of one.
   */
  lemma FindMeans(lib: Lib, style: Style, path: seq<string>, args: seq<Json>, docs: seq<seq<Field>>, one: bool,
                  calls: seq<Call>)
      returns (op: Op)
    requires S.KnowsAscii(lib) && S.IsCollection(lib, path) && Faithful(style)
    requires AllDenote(lib, args, docs) && |args| <= 2 && NoKindTwice(calls)
    requires forall i :: 0 <= i < |calls| ==> Proper(lib, calls[i]) && !(one && calls[i].Limit?)
    requires Utf8Len(QueryText(style, R.Join(path), if one then "findOne" else "find", args, calls)) <= MAX_INPUT_BYTES
    ensures R.Parse(lib, QueryText(style, R.Join(path), if one then "findOne" else "find", args, calls))
         == Ok(Request(R.Join(path), op))
    ensures Asked(lib, calls, Plain(docs, one), op)
  {
    var verb := if one then "findOne" else "find";
    var values := DocumentsRead(lib, args, docs);
    FindIsBuilt(docs, values, one);
    op := CallsRead(lib, style, calls, Plain(docs, one));
    TextParses(lib, style, path, verb, args, values, calls, Plain(docs, one), op);
  }

  lemma CountIsBuilt(docs: seq<seq<Field>>, values: seq<Bson>)
    requires |values| == |docs| <= 1 && forall i :: 0 <= i < |docs| ==> values[i] == Document(docs[i])
    ensures R.BuildOp("countDocuments", values) == Ok(Count(if docs == [] then [] else docs[0]))
  {
    assert "countDocuments"[0] == 'c' && "find"[0] == 'f' && "findOne"[0] == 'f' && "aggregate"[0] == 'a';
  }

  /** `countDocuments`: its one argument is the filter, and without one everything is counted. */
  lemma CountMeans(lib: Lib, style: Style, path: seq<string>, args: seq<Json>, docs: seq<seq<Field>>)
    requires S.KnowsAscii(lib) && S.IsCollection(lib, path) && Faithful(style)
    requires AllDenote(lib, args, docs) && |args| <= 1
    requires Utf8Len(QueryText(style, R.Join(path), "countDocuments", args, [])) <= MAX_INPUT_BYTES
    ensures R.Parse(lib, QueryText(style, R.Join(path), "countDocuments", args, []))
         == Ok(Request(R.Join(path), Count(if docs == [] then [] else docs[0])))
  {
    var op := Count(if docs == [] then [] else docs[0]);
    var values := DocumentsRead(lib, args, docs);
    CountIsBuilt(docs, values);
    NoCalls(lib, style, op);
    TextParses(lib, style, path, "countDocuments", args, values, [], op, op);
  }

  lemma DistinctIsBuilt(key: string, filter: Option<seq<Field>>)
    requires key != "" && '.' !in key
    ensures R.BuildOp("distinct", [String(key)] + if filter.Some? then [Document(filter.value)] else [])
         == Ok(Distinct(key, if filter.Some? then filter.value else []))
  {
    assert "distinct"[0] == 'd' && "countDocuments"[0] == 'c' && "find"[0] == 'f' && "findOne"[0] == 'f';
    assert "aggregate"[0] == 'a';
  }

  /** `distinct`: the field, and the filter when there is a second argument. */
  lemma DistinctMeans(lib: Lib, style: Style, path: seq<string>, key: string, filter: Option<Json>,
                      doc: Option<seq<Field>>)
    requires S.KnowsAscii(lib) && S.IsCollection(lib, path) && Faithful(style) && key != "" && '.' !in key
    requires filter.Some? == doc.Some? && (filter.Some? ==> Denotes(lib, filter.value, doc.value))
    requires var args := [JText(key)] + if filter.Some? then [filter.value] else [];
             Utf8Len(QueryText(style, R.Join(path), "distinct", args, [])) <= MAX_INPUT_BYTES
    ensures var args := [JText(key)] + if filter.Some? then [filter.value] else [];
            R.Parse(lib, QueryText(style, R.Join(path), "distinct", args, []))
            == Ok(Request(R.Join(path), Distinct(key, if doc.Some? then doc.value else [])))
  {
    var args := [JText(key)] + if filter.Some? then [filter.value] else [];
    var values := [String(key)] + if doc.Some? then [Document(doc.value)] else [];
    var op := Distinct(key, if doc.Some? then doc.value else []);
    if filter.Some? {
      TwoRead(lib, JText(key), String(key), filter.value, Document(doc.value));
      assert args == [JText(key), filter.value] && values == [String(key), Document(doc.value)];
    } else {
      OneReads(lib, JText(key), String(key));
      assert args == [JText(key)] && values == [String(key)];
    }
    DistinctIsBuilt(key, doc);
    NoCalls(lib, style, op);
    TextParses(lib, style, path, "distinct", args, values, [], op, op);
  }

  lemma AggregateIsBuilt(stages: seq<Bson>)
    ensures R.BuildOp("aggregate", [Array(stages)]) == Ok(Aggregate(stages))
  {
    assert "aggregate"[0] == 'a' && "find"[0] == 'f' && "findOne"[0] == 'f';
  }

  /** `aggregate`: the stages of its one list, in their order. */
  lemma AggregateMeans(lib: Lib, style: Style, path: seq<string>, pipeline: Json, stages: seq<Bson>)
    requires S.KnowsAscii(lib) && S.IsCollection(lib, path) && Faithful(style)
    requires HasText(pipeline) && Read(lib, pipeline, 1) == Ok(Array(stages))
    requires Utf8Len(QueryText(style, R.Join(path), "aggregate", [pipeline], [])) <= MAX_INPUT_BYTES
    ensures R.Parse(lib, QueryText(style, R.Join(path), "aggregate", [pipeline], []))
         == Ok(Request(R.Join(path), Aggregate(stages)))
  {
    OneReads(lib, pipeline, Array(stages));
    AggregateIsBuilt(stages);
    NoCalls(lib, style, Aggregate(stages));
    TextParses(lib, style, path, "aggregate", [pipeline], [Array(stages)], [], Aggregate(stages), Aggregate(stages));
  }

  /** A text with more behind its calls, up to where that begins. */
  lemma HeadAndArguments(lib: Lib, style: Style, path: seq<string>, verb: string, args: seq<Json>, values: seq<Bson>,
                         more: string)
    requires S.KnowsAscii(lib) && S.IsCollection(lib, path) && Faithful(style) && verb in R.ALLOWED_METHODS
    requires AllHaveText(args) && ReadItems(lib, args, 1) == Ok(values) && R.BuildOp(verb, values).Ok?
    requires Utf8Len("db." + R.Join(path) + "." + verb + (Parenthesized(style, args) + more)) <= MAX_INPUT_BYTES
    requires At(more, ';') || (more != "" && !IsSpace(more[0]) && more[0] != '/' && more[0] != '.')
    ensures var parsed := R.Parse(lib, "db." + R.Join(path) + "." + verb + (Parenthesized(style, args) + more));
            match R.AtEnd(more)
            case Ok(_) => parsed == Ok(Request(R.Join(path), R.BuildOp(verb, values).value))
            case Err(e) => parsed == Err(e)
  {
    VerbIsVerb(lib, verb);
    S.HeadReads(lib, path, verb, Parenthesized(style, args) + more);
    ArgsRead(lib, style, args, more);
    SkipNothing(more);
  }

  /** One semicolon may end a query. Anything else behind it is refused, and so is anything behind that. */
  lemma NothingFollows(lib: Lib, style: Style, path: seq<string>, verb: string, args: seq<Json>, values: seq<Bson>,
                       more: string)
    requires S.KnowsAscii(lib) && S.IsCollection(lib, path) && Faithful(style) && verb in R.ALLOWED_METHODS
    requires AllHaveText(args) && ReadItems(lib, args, 1) == Ok(values) && R.BuildOp(verb, values).Ok?
    requires Utf8Len("db." + R.Join(path) + "." + verb + (Parenthesized(style, args) + more)) <= MAX_INPUT_BYTES
    requires Follows(more)
    ensures R.Parse(lib, "db." + R.Join(path) + "." + verb + (Parenthesized(style, args) + more))
         == if more == ";" then Ok(Request(R.Join(path), R.BuildOp(verb, values).value)) else Err(ParseFailed)
  {
    HeadAndArguments(lib, style, path, verb, args, values, more);
    EndIsJudged(more);
  }

  predicate Begins(s: string) {
    s != "" && !IsSpace(s[0]) && s[0] != '/'
  }

  /** No cursor call, and no blank or comment, neither here nor behind a semicolon. */
  predicate Follows(more: string) {
    Begins(more) && more[0] != '.' && (more[0] == ';' && |more| > 1 ==> Begins(more[1..]))
  }

  lemma EndIsJudged(more: string)
    requires Follows(more)
    ensures R.AtEnd(more) == if more == ";" then Ok(()) else Err(ParseFailed)
  {
    SkipNothing(more);
    if At(more, ';') && |more| > 1 {
      SkipNothing(more[1..]);
    }
    assert SkipWs("") == Got((), "");
  }

  // ----- what is refused -----

  /** The argument of the call is JSON that reads, whatever it says. */
  predicate Legible(lib: Lib, call: Call) {
    match call
    case Sort(keys) => HasText(keys) && Read(lib, keys, 1).Ok?
    case Skip(n) => FitsI64(n)
    case Limit(n) => FitsI64(n)
    case ToArray => true
  }

  ghost predicate AllProper(lib: Lib, calls: seq<Call>) {
    forall i :: 0 <= i < |calls| ==> Proper(lib, calls[i])
  }

  lemma {:induction false} CallsRefused(lib: Lib, style: Style, calls: seq<Call>, op: Op)
    requires Faithful(style) && op.Find? && !(NoKindTwice(calls) && Unset(op, calls) && AllProper(lib, calls))
    requires forall i :: 0 <= i < |calls| ==> Legible(lib, calls[i])
    ensures R.Chain(lib, CallsText(style, calls), op) == Refused(ParseFailed)
    decreases |calls|
  {
    var first, rest := calls[0], CallsText(style, calls[1..]);
    if Proper(lib, first) && Unset(op, [first]) {
      var args, middle := CallIsApplied(lib, first, op);
      CallReads(lib, style, first, rest, op, args, middle);
      if NoKindTwice(calls[1..]) && Unset(middle, calls[1..]) && AllProper(lib, calls[1..]) {
        FirstFits(lib, calls, op, middle);
      }
      CallsRefused(lib, style, calls[1..], middle);
    } else {
      CallRefused(lib, style, first, rest, op);
    }
  }

  lemma FirstFits(lib: Lib, calls: seq<Call>, op: Op, middle: Op)
    requires calls != [] && Proper(lib, calls[0]) && Unset(op, [calls[0]]) && Asked(lib, [calls[0]], op, middle)
    requires NoKindTwice(calls[1..]) && Unset(middle, calls[1..]) && AllProper(lib, calls[1..])
    ensures NoKindTwice(calls) && Unset(op, calls) && AllProper(lib, calls)
  {
    var first, others := calls[0], calls[1..];
    assert [first][0] == first && first in [first];
    assert forall i :: 0 < i < |calls| ==> others[i - 1] == calls[i];
  }

  lemma CallRefused(lib: Lib, style: Style, call: Call, rest: string, op: Op)
    requires Faithful(style) && op.Find? && Legible(lib, call) && !(Proper(lib, call) && Unset(op, [call]))
    ensures R.Chain(lib, "." + (NameOf(call) + (Parenthesized(style, ArgsOf(call)) + rest)), op) == Refused(ParseFailed)
  {
    var args := LegibleReads(lib, call);
    var parens := Parenthesized(style, ArgsOf(call)) + rest;
    var s := "." + (NameOf(call) + parens);
    SkipNothing(s);
    assert s[1..] == NameOf(call) + parens;
    NameReads(call, parens);
    ArgsRead(lib, style, ArgsOf(call), rest);
    NotApplied(lib, call, op, args);
  }

  /** What the argument of the call reads as. */
  predicate ReadsAs(lib: Lib, call: Call, args: seq<Bson>) {
    match call
    case Sort(keys) => |args| == 1 && HasText(keys) && Read(lib, keys, 1) == Ok(args[0])
    case Skip(n) => args == [Whole(n)]
    case Limit(n) => args == [Whole(n)]
    case ToArray => args == []
  }

  lemma LegibleReads(lib: Lib, call: Call) returns (args: seq<Bson>)
    requires Legible(lib, call)
    ensures AllHaveText(ArgsOf(call)) && ReadItems(lib, ArgsOf(call), 1) == Ok(args)
    ensures ReadsAs(lib, call, args)
  {
    match call {
      case Sort(keys) =>
        args := [Read(lib, keys, 1).value];
        OneReads(lib, keys, args[0]);
      case Skip(n) =>
        OneReads(lib, JInt(n), Whole(n));
        args := [Whole(n)];
      case Limit(n) =>
        OneReads(lib, JInt(n), Whole(n));
        args := [Whole(n)];
      case ToArray =>
        NoneReads(lib);
        args := [];
    }
  }

  lemma NotApplied(lib: Lib, call: Call, op: Op, args: seq<Bson>)
    requires op.Find? && Legible(lib, call) && !(Proper(lib, call) && Unset(op, [call]))
    requires ReadsAs(lib, call, args)
    ensures R.ApplyChain(op, NameOf(call), args) == Err(ParseFailed)
  {
    assert [call][0] == call;
    if call.Sort? && args[0].Document? {
      assert Denotes(lib, call.keys, args[0].fields);
    }
  }

  /**
   Otherwise the query is refused: for a cursor call that comes twice, a `.limit` after `findOne`, a
   limit below one, a skip below zero, and a sort by nothing or by something else than a document.
   */
  lemma OtherCallsRefused(lib: Lib, style: Style, path: seq<string>, args: seq<Json>, docs: seq<seq<Field>>, one: bool,
                          calls: seq<Call>)
    requires S.KnowsAscii(lib) && S.IsCollection(lib, path) && Faithful(style)
    requires AllDenote(lib, args, docs) && |args| <= 2
    requires forall i :: 0 <= i < |calls| ==> Legible(lib, calls[i])
    requires || !NoKindTwice(calls) || !AllProper(lib, calls)
             || (one && exists i :: 0 <= i < |calls| && calls[i].Limit?)
    requires Utf8Len(QueryText(style, R.Join(path), if one then "findOne" else "find", args, calls)) <= MAX_INPUT_BYTES
    ensures R.Parse(lib, QueryText(style, R.Join(path), if one then "findOne" else "find", args, calls))
         == Err(ParseFailed)
  {
    var verb := if one then "findOne" else "find";
    var values := DocumentsRead(lib, args, docs);
    FindIsBuilt(docs, values, one);
    CallsRefused(lib, style, calls, Plain(docs, one));
    VerbIsVerb(lib, verb);
    S.HeadReads(lib, path, verb, Parenthesized(style, args) + CallsText(style, calls));
    ArgsRead(lib, style, args, CallsText(style, calls));
  }

  /** How many arguments a method takes. */
  function Most(verb: string): nat {
    if verb == "aggregate" || verb == "countDocuments" then 1 else 2
  }

  /** What a method cannot be called with, and why. */
  function Misfit(verb: string, values: seq<Bson>): Option<Reason> {
    if |values| > Most(verb) then Some(DeniedCommand)
    else if verb == "aggregate" then (if values != [] && values[0].Array? then None else Some(ParseFailed))
    else if verb == "distinct" then
      if values == [] || !values[0].String? || values[0] == String("") || (|values| == 2 && !values[1].Document?) then
        Some(ParseFailed)
      else if '.' in values[0].text then Some(DeniedCommand)
      else None
    else if exists i :: 0 <= i < |values| && !values[i].Document? then Some(ParseFailed)
    else None
  }

  lemma MisfitIsNotBuilt(verb: string, values: seq<Bson>)
    requires verb in R.ALLOWED_METHODS && Misfit(verb, values).Some?
    ensures R.BuildOp(verb, values) == Err(Misfit(verb, values).value)
  {
  }

  /** Too many arguments, such as an options document, or one of the wrong kind, whatever else the text says. */
  lemma MisfitRefused(lib: Lib, style: Style, path: seq<string>, verb: string, args: seq<Json>, values: seq<Bson>,
                      calls: seq<Call>)
    requires S.KnowsAscii(lib) && S.IsCollection(lib, path) && Faithful(style) && verb in R.ALLOWED_METHODS
    requires AllHaveText(args) && ReadItems(lib, args, 1) == Ok(values) && Misfit(verb, values).Some?
    requires Utf8Len(QueryText(style, R.Join(path), verb, args, calls)) <= MAX_INPUT_BYTES
    ensures R.Parse(lib, QueryText(style, R.Join(path), verb, args, calls)) == Err(Misfit(verb, values).value)
  {
    VerbIsVerb(lib, verb);
    S.HeadReads(lib, path, verb, Parenthesized(style, args) + CallsText(style, calls));
    ArgsRead(lib, style, args, CallsText(style, calls));
    MisfitIsNotBuilt(verb, values);
  }

  lemma FitIsBuilt(verb: string, values: seq<Bson>)
    requires verb in {"aggregate", "countDocuments", "distinct"} && Misfit(verb, values).None?
    ensures R.BuildOp(verb, values).Ok? && !R.BuildOp(verb, values).value.Find?
  {
    assert "aggregate"[0] == 'a' && "countDocuments"[0] == 'c' && "distinct"[0] == 'd';
    assert "find"[0] == 'f' && "findOne"[0] == 'f';
  }

  /** Only a find takes cursor calls. */
  lemma CallAfterOtherRefused(lib: Lib, style: Style, path: seq<string>, verb: string, args: seq<Json>,
                              values: seq<Bson>, calls: seq<Call>)
    requires S.KnowsAscii(lib) && S.IsCollection(lib, path) && Faithful(style)
    requires verb in {"aggregate", "countDocuments", "distinct"}
    requires AllHaveText(args) && ReadItems(lib, args, 1) == Ok(values) && Misfit(verb, values).None?
    requires calls != [] && Legible(lib, calls[0])
    requires Utf8Len(QueryText(style, R.Join(path), verb, args, calls)) <= MAX_INPUT_BYTES
    ensures R.Parse(lib, QueryText(style, R.Join(path), verb, args, calls)) == Err(DeniedCommand)
  {
    assert verb in R.ALLOWED_METHODS;
    VerbIsVerb(lib, verb);
    S.HeadReads(lib, path, verb, Parenthesized(style, args) + CallsText(style, calls));
    ArgsRead(lib, style, args, CallsText(style, calls));
    FitIsBuilt(verb, values);
    CallDenied(lib, style, calls[0], CallsText(style, calls[1..]), R.BuildOp(verb, values).value);
  }

  lemma CallDenied(lib: Lib, style: Style, call: Call, rest: string, op: Op)
    requires Faithful(style) && !op.Find? && Legible(lib, call)
    ensures R.Chain(lib, "." + (NameOf(call) + (Parenthesized(style, ArgsOf(call)) + rest)), op)
         == Refused(DeniedCommand)
  {
    var args := LegibleReads(lib, call);
    var parens := Parenthesized(style, ArgsOf(call)) + rest;
    var s := "." + (NameOf(call) + parens);
    SkipNothing(s);
    assert s[1..] == NameOf(call) + parens;
    NameReads(call, parens);
    ArgsRead(lib, style, ArgsOf(call), rest);
  }

  /** The methods of a collection that write to it. */
  const WRITERS: set<string> := {
    "bulkWrite", "createIndex", "createIndexes", "deleteMany", "deleteOne", "drop", "dropIndex", "dropIndexes",
    "findAndModify", "findOneAndDelete", "findOneAndReplace", "findOneAndUpdate", "insert", "insertMany", "insertOne",
    "remove", "renameCollection", "replaceOne", "save", "update", "updateMany", "updateOne"}

  lemma WritersAreListed(verb: string)
    requires verb in WRITERS
    ensures R.CheckMethod(verb) == Err(WriteOperation)
  {
  }

  /** Any other method is refused before its arguments are looked at, and so is an internal catalog. */
  lemma OtherMethodRefused(lib: Lib, path: seq<string>, verb: string, rest: string)
    requires S.KnowsAscii(lib) && path != [] && S.AreSegments(lib, path) && S.IsSegment(lib, verb) && At(rest, '(')
    requires Utf8Len("db." + R.Join(path) + "." + verb + rest) <= MAX_INPUT_BYTES
    ensures var parsed := R.Parse(lib, "db." + R.Join(path) + "." + verb + rest);
            && ("system." <= R.Join(path) ==> parsed == Err(DeniedCommand))
            && (verb !in {"find", "findOne", "aggregate", "countDocuments", "distinct"} ==> parsed.Err?)
            && (!("system." <= R.Join(path)) && verb in WRITERS ==> parsed == Err(WriteOperation))
            && (!("system." <= R.Join(path)) && verb == "mapReduce" ==> parsed == Err(DeniedFunction))
  {
    S.HeadIsJudged(lib, path, verb, rest);
    TargetIsJudged(path, verb);
    if verb in WRITERS {
      WritersAreListed(verb);
    }
  }

  lemma TargetIsJudged(path: seq<string>, verb: string)
    requires path != []
    ensures R.Target(path + [verb])
            == if "system." <= R.Join(path) then Err(DeniedCommand)
               else
                 match R.CheckMethod(verb)
                 case Ok(_) => Ok((R.Join(path), verb))
                 case Err(reason) => Err(reason)
    ensures verb !in {"find", "findOne", "aggregate", "countDocuments", "distinct"} ==> R.CheckMethod(verb).Err?
    ensures verb == "mapReduce" ==> R.CheckMethod(verb) == Err(DeniedFunction)
  {
    var whole := path + [verb];
    assert whole[|whole| - 1] == verb && whole[..|whole| - 1] == path;
    assert R.ALLOWED_METHODS == ["aggregate", "countDocuments", "distinct", "find", "findOne"];
  }
}
