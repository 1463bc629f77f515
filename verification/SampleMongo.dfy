/** The MongoDB statement of `nyet sample`, read by nyet's own layer 1. */
module SampleMongo {
  import opened Outcomes
  import opened Values
  import opened MongoSyntax
  import opened JsonText
  import R = MongoRequests
  import opened Classifier

  /** `db.<collection>.aggregate([{$sample: {size: <rows>}}])`. */
  function Mongo(collection: string, rows: nat): string {
    "db." + collection + ".aggregate" + Arguments(rows)
  }

  function Arguments(rows: nat): string {
    "([" + Braced("$sample", Braced("size", ShowInt(rows))) + "])"
  }

  /** What is known of the opaque `char::is_alphanumeric`: ASCII as usual, and no white space. */
  ghost predicate KnowsAscii(lib: Lib) {
    && (forall c {:trigger lib.alphanumeric(c)} ::
          c < '\U{0080}' ==> (lib.alphanumeric(c) <==> IsAlpha(c) || IsDigit(c)))
    && (forall c {:trigger lib.alphanumeric(c)} :: lib.alphanumeric(c) ==> !IsSpace(c))
  }

  predicate IsSegment(lib: Lib, s: string) {
    s != "" && forall i :: 0 <= i < |s| ==> IsSegmentPart(lib, s[i])
  }

  predicate AreSegments(lib: Lib, path: seq<string>) {
    forall i :: 0 <= i < |path| ==> IsSegment(lib, path[i])
  }

  /** A collection name layer 1 accepts. */
  predicate IsCollection(lib: Lib, path: seq<string>) {
    path != [] && AreSegments(lib, path) && !("system." <= R.Join(path))
  }

  // ----- the dotted name -----

  function Dotted(path: seq<string>): string {
    if path == [] then "" else "." + path[0] + Dotted(path[1..])
  }

  lemma SegmentStarts(lib: Lib, s: string)
    requires KnowsAscii(lib) && IsSegment(lib, s)
    ensures !IsSpace(s[0]) && s[0] != '/'
  {
  }

  lemma SegmentEnds(lib: Lib, s: string, rest: string)
    requires KnowsAscii(lib) && IsSegment(lib, s) && (At(rest, '.') || At(rest, '('))
    ensures SegmentLen(lib, s + rest) == |s|
  {
    assert lib.alphanumeric('.') <==> IsAlpha('.') || IsDigit('.');
    assert lib.alphanumeric('(') <==> IsAlpha('(') || IsDigit('(');
    SpanStops(s, rest, c => IsSegmentPart(lib, c));
  }

  lemma SegmentReads(lib: Lib, name: string, after: string, read: seq<string>)
    requires KnowsAscii(lib) && IsSegment(lib, name) && (At(after, '.') || At(after, '('))
    ensures R.Segments(lib, "." + (name + after), read)
         == if At(after, '(') then Got(read + [name], after) else R.Segments(lib, after, read + [name])
  {
    var s, u := "." + (name + after), name + after;
    SkipNothing(s);
    assert Expect(s, '.') == Got((), u) by {
      assert s[1..] == u;
    }
    SegmentStarts(lib, name);
    SkipNothing(u);
    SegmentEnds(lib, name, after);
    assert u[|name|..] == after && u[..|name|] == name;
    SkipNothing(after);
  }

  lemma DottedStep(path: seq<string>, rest: string)
    requires path != [] && At(rest, '(')
    ensures var after := Dotted(path[1..]) + rest;
            && Dotted(path) + rest == "." + (path[0] + after)
            && (if |path| == 1 then after == rest else At(after, '.'))
  {
    var tail := Dotted(path[1..]);
    assert Dotted(path) == "." + path[0] + tail;
    FourPieces(".", path[0], tail, rest);
    assert |path| > 1 ==> At(tail, '.');
  }

  lemma FourPieces(a: string, b: string, c: string, d: string)
    ensures a + b + c + d == a + (b + (c + d))
  {
  }

  lemma OneSegment(path: seq<string>, read: seq<string>)
    requires path != []
    ensures read + path == read + [path[0]] + path[1..]
    ensures path[1..] == [] ==> read + path == read + [path[0]]
  {
  }

  lemma {:induction false} PathReads(lib: Lib, path: seq<string>, rest: string, read: seq<string>)
    requires KnowsAscii(lib) && path != [] && AreSegments(lib, path) && At(rest, '(')
    ensures R.Segments(lib, Dotted(path) + rest, read) == Got(read + path, rest)
    decreases |path|
  {
    var name, tail := path[0], path[1..];
    var after := Dotted(tail) + rest;
    assert IsSegment(lib, name);
    DottedStep(path, rest);
    OneSegment(path, read);
    SegmentReads(lib, name, after, read);
    if tail != [] {
      PathReads(lib, tail, rest, read + [name]);
      assert R.Segments(lib, after, read + [name]) == Got(read + path, rest);
      assert !At(after, '(');
    } else {
      assert after == rest;
    }
  }

  lemma {:induction false} DottedJoin(path: seq<string>, last: string)
    requires path != []
    ensures Dotted(path + [last]) == "." + R.Join(path) + "." + last
    decreases |path|
  {
    assert (path + [last])[1..] == path[1..] + [last];
    if |path| == 1 {
      assert path[1..] + [last] == [last];
      assert Dotted([last]) == "." + last + "";
    } else {
      DottedJoin(path[1..], last);
    }
  }

  // ----- the argument -----

  /** A bare field name that is no type wrapper. */
  predicate IsKey(key: string) {
    key != "" && IsIdentStart(key[0]) && (forall i :: 0 < i < |key| ==> IsIdentPart(key[i])) && WrapperOf(key) == None
  }

  lemma KeyReads(key: string, rest: string)
    requires IsKey(key) && At(rest, ':')
    ensures FieldName(key + rest) == Got(key, rest)
  {
    var s := key + rest;
    SkipNothing(s);
    assert s[1..] == key[1..] + rest;
    SpanStops(key[1..], rest, IsIdentPart);
    assert s[..|key|] == key && s[|key|..] == rest;
  }

  lemma OneEntryReads(lib: Lib, key: string, text: string, v: Bson, rest: string, depth: nat)
    requires IsKey(key) && Value(lib, " " + text + rest, depth + 1) == Got(v, rest)
    ensures Entry(lib, key + (": " + text + rest), depth, []) == Got(Field(key, v), rest)
  {
    var colon := ": " + text + rest;
    ColonStarts(text, rest);
    KeyReads(key, colon);
    SkipNothing(colon);
  }

  lemma ColonStarts(text: string, rest: string)
    ensures var colon := ": " + text + rest; At(colon, ':') && colon[1..] == " " + text + rest
  {
  }

  lemma LastField(lib: Lib, s: string, depth: nat, field: Field, rest: string)
    requires s != "" && IsIdentStart(s[0]) && Entry(lib, s, depth, []) == Got(field, "}" + rest)
    requires WrapperOf(field.key) == None
    ensures DocumentBody(lib, s, depth) == Got(Document([field]), rest)
  {
    SkipNothing(s);
    SkipNothing("}" + rest);
    assert ("}" + rest)[1..] == rest;
    assert [] + [field] == [field];
  }

  /** `key: value}` read as a document of one field. */
  lemma OneFieldReads(lib: Lib, key: string, text: string, v: Bson, rest: string, depth: nat)
    requires IsKey(key) && Value(lib, " " + text + ("}" + rest), depth + 1) == Got(v, "}" + rest)
    ensures DocumentBody(lib, key + (": " + text + ("}" + rest)), depth) == Got(Document([Field(key, v)]), rest)
  {
    OneEntryReads(lib, key, text, v, "}" + rest, depth);
    LastField(lib, key + (": " + text + ("}" + rest)), depth, Field(key, v), rest);
  }

  /** A blank before a value changes nothing. */
  lemma BlankBefore(lib: Lib, s: string, depth: nat)
    requires s != "" && !IsSpace(s[0]) && s[0] != '/'
    ensures Value(lib, " " + s, depth) == Value(lib, s, depth)
  {
  }

  /** A row count as layer 1 reads it. */
  function Size(rows: nat): Bson {
    if rows <= I32_MAX then Int32(rows) else Int64(rows)
  }

  function Stage(rows: nat): Bson {
    Document([Field("$sample", Document([Field("size", Size(rows))]))])
  }

  lemma SizeReads(lib: Lib, rows: nat, rest: string, depth: nat)
    requires rows <= I64_MAX && depth <= MAX_DEPTH
    ensures Value(lib, " " + ShowInt(rows) + ("}" + rest), depth) == Got(Size(rows), "}" + rest)
  {
    var s := ShowInt(rows) + ("}" + rest);
    NumberReads(lib, rows, "}" + rest);
    DigitFirst(rows, "}" + rest);
    FirstCharacter(lib, s, depth);
    BlankBefore(lib, s, depth);
  }

  lemma DigitFirst(n: nat, rest: string)
    ensures var s := ShowInt(n) + rest; s != "" && IsDigit(s[0]) && " " + ShowInt(n) + rest == " " + s
  {
  }

  lemma KeysAreKeys()
    ensures IsKey("$sample") && IsKey("size")
  {
  }

  /** `{key: value}` after a bracket or a blank, read as a document of one field. */
  lemma BracedReads(lib: Lib, key: string, text: string, v: Bson, rest: string, depth: nat)
    requires depth <= MAX_DEPTH
    requires IsKey(key) && Value(lib, " " + text + ("}" + rest), depth + 1) == Got(v, "}" + rest)
    ensures Value(lib, Braced(key, text) + rest, depth) == Got(Document([Field(key, v)]), rest)
    ensures Value(lib, " " + Braced(key, text) + rest, depth) == Got(Document([Field(key, v)]), rest)
  {
    var s := Braced(key, text) + rest;
    OneFieldReads(lib, key, text, v, rest, depth);
    BraceOpens(key, text, rest);
    FirstCharacter(lib, s, depth);
    BlankBefore(lib, s, depth);
  }

  lemma BraceOpens(key: string, text: string, rest: string)
    ensures var s := Braced(key, text) + rest;
            At(s, '{') && s[1..] == key + (": " + text + ("}" + rest)) && " " + Braced(key, text) + rest == " " + s
  {
  }

  function Braced(key: string, text: string): string {
    "{" + key + ": " + text + "}"
  }

  lemma StageReads(lib: Lib, rows: nat, rest: string)
    requires rows <= I64_MAX
    ensures Value(lib, Braced("$sample", Braced("size", ShowInt(rows))) + rest, 2) == Got(Stage(rows), rest)
  {
    KeysAreKeys();
    SizeReads(lib, rows, "}" + rest, 4);
    BracedReads(lib, "size", ShowInt(rows), Size(rows), "}" + rest, 3);
    BracedReads(lib, "$sample", Braced("size", ShowInt(rows)), Document([Field("size", Size(rows))]), rest, 2);
  }

  /** A list of one value, up to its closing bracket. */
  lemma OneItemReads(lib: Lib, text: string, v: Bson, close: char, rest: string, depth: nat)
    requires text != "" && !IsSpace(text[0]) && text[0] != '/' && text[0] != close
    requires close == ']' || close == ')'
    requires Value(lib, text + ([close] + rest), depth + 1) == Got(v, [close] + rest)
    ensures ListBody(lib, text + ([close] + rest), depth, close) == Got([v], rest)
  {
    SkipNothing(text + ([close] + rest));
    SkipNothing([close] + rest);
    assert ([close] + rest)[1..] == rest;
    assert [] + [v] == [v];
  }

  lemma ListReads1(lib: Lib, rows: nat, rest: string)
    requires rows <= I64_MAX
    ensures Value(lib, "[" + Braced("$sample", Braced("size", ShowInt(rows))) + "]" + rest, 1)
         == Got(Array([Stage(rows)]), rest)
  {
    var stage := Braced("$sample", Braced("size", ShowInt(rows)));
    StageReads(lib, rows, [']'] + rest);
    OneItemReads(lib, stage, Stage(rows), ']', rest, 1);
    BracketOpens(stage, rest);
    FirstCharacter(lib, "[" + stage + "]" + rest, 1);
  }

  lemma BracketOpens(text: string, rest: string)
    ensures var s := "[" + text + "]" + rest; At(s, '[') && s[1..] == text + ([']'] + rest)
  {
  }

  lemma ArgumentsRead(lib: Lib, rows: nat)
    requires rows <= I64_MAX
    ensures Args(lib, Arguments(rows), 0) == Got([Array([Stage(rows)])], "")
  {
    var list := "[" + Braced("$sample", Braced("size", ShowInt(rows))) + "]";
    ListReads1(lib, rows, [')'] + "");
    OneItemReads(lib, list, Array([Stage(rows)]), ')', "", 0);
    var all := Arguments(rows);
    assert all[1..] == list + ([')'] + "");
    SkipNothing(all);
  }

  // ----- the whole text -----

  /** A verb layer 1 knows, with the letters of a name. */
  predicate IsVerb(lib: Lib, verb: string) {
    IsSegment(lib, verb) && R.CheckMethod(verb) == Ok(())
  }

  /** The head of any text of this form is read up to the parenthesis, and then judged by its names alone. */
  lemma HeadIsJudged(lib: Lib, path: seq<string>, verb: string, rest: string)
    requires KnowsAscii(lib) && path != [] && AreSegments(lib, path) && IsSegment(lib, verb) && At(rest, '(')
    ensures R.Head(lib, "db." + R.Join(path) + "." + verb + rest)
            == match R.Target(path + [verb])
               case Ok(target) => Got(target, rest)
               case Err(reason) => Refused(reason)
  {
    var text := "db." + R.Join(path) + "." + verb + rest;
    var whole := path + [verb];
    DottedJoin(path, verb);
    DbStarts(R.Join(path), verb, Dotted(whole), rest);
    SkipNothing(text);
    PathReads(lib, whole, rest, []);
    assert [] + whole == whole;
  }

  lemma HeadReads(lib: Lib, path: seq<string>, verb: string, rest: string)
    requires KnowsAscii(lib) && IsCollection(lib, path) && IsVerb(lib, verb) && At(rest, '(')
    ensures R.Head(lib, "db." + R.Join(path) + "." + verb + rest) == Got((R.Join(path), verb), rest)
  {
    HeadIsJudged(lib, path, verb, rest);
    TargetReads(path, verb);
  }

  lemma TargetReads(path: seq<string>, verb: string)
    requires path != [] && !("system." <= R.Join(path)) && R.CheckMethod(verb) == Ok(())
    ensures R.Target(path + [verb]) == Ok((R.Join(path), verb))
  {
  }

  lemma DbStarts(collection: string, verb: string, dotted: string, rest: string)
    requires dotted == "." + collection + "." + verb
    ensures var s := "db." + collection + "." + verb + rest;
            At(s, 'd') && IdentLen(s) == 2 && s[..2] == "db" && s[2..] == dotted + rest
  {
    var s := "db." + collection + "." + verb + rest;
    assert s == "db" + (dotted + rest);
    assert s[1..] == "b" + (dotted + rest);
    SpanStops("b", dotted + rest, IsIdentPart);
  }

  lemma AggregateIsVerb(lib: Lib)
    requires KnowsAscii(lib)
    ensures IsVerb(lib, "aggregate")
  {
  }

  lemma TailReads(lib: Lib, rows: nat)
    requires rows <= I64_MAX
    ensures R.Tail(lib, Arguments(rows), "aggregate") == Ok(Aggregate([Stage(rows)]))
  {
    ArgumentsRead(lib, rows);
    assert SkipWs("") == Got((), "");
  }

  lemma SampleIsListed()
    ensures var lists := NyetLists();
            && "$sample" in lists.stages && "$sample" !in lists.writes && "$sample" !in lists.scripts
            && "$sample" !in lists.owned && "$sample" !in lists.namespaces && "size" !in lists.namespaces
  {
  }

  lemma StagePasses(lib: Lib, rows: nat, collection: string)
    ensures Classify(Rules(lib, NyetLists(), None), Request(collection, Aggregate([Stage(rows)]))) == Ok(())
  {
    var c := Rules(lib, NyetLists(), None);
    SampleIsListed();
    var size := Field("size", Size(rows));
    assert "size"[0] == 's' && "$"[0] == '$';
    assert CheckKey(c, "size", false) == Ok(());
    assert CheckSource(c, "size", size.value) == Ok(());
    assert WalkValue(c, size.value, 2, Strict) == Ok(());
    assert WalkValueOf(c, size, 2, Strict) == Ok(());
    assert WalkField(c, size, 1, Strict) == Ok(());
    assert [size][1..] == [];
    assert WalkFields(c, [size], 1, Strict) == Ok(());
    var stage := Field("$sample", Document([size]));
    assert "$sample"[1] == 's' && "$facet"[1] == 'f';
    assert CheckKey(c, "$sample", true) == Ok(());
    assert CheckSource(c, "$sample", stage.value) == Ok(());
    assert WalkDoc(c, [size], 1, Strict) == Ok(());
    assert WalkValue(c, stage.value, 1, Strict) == Ok(());
    assert WalkValueOf(c, stage, 1, Strict) == Ok(());
    assert WalkStage(c, Document([stage]), 0) == Ok(());
    assert [Stage(rows)][1..] == [];
    assert WalkStages(c, [Stage(rows)], 0) == Ok(());
  }

  lemma TextParses(lib: Lib, path: seq<string>, rows: nat)
    requires KnowsAscii(lib) && IsCollection(lib, path) && rows <= I64_MAX
    requires Utf8Len(Mongo(R.Join(path), rows)) <= MAX_INPUT_BYTES
    ensures R.Parse(lib, Mongo(R.Join(path), rows)) == Ok(Request(R.Join(path), Aggregate([Stage(rows)])))
  {
    var verb := "aggregate";
    assert "db." + R.Join(path) + ".aggregate" == "db." + R.Join(path) + "." + verb;
    AggregateIsVerb(lib);
    HeadReads(lib, path, verb, Arguments(rows));
    TailReads(lib, rows);
  }

  /** Without rules layer 1 is the parser and the allowlists. */
  lemma PlainCheck(lib: Lib, lists: Lists, text: string, request: Request)
    requires R.Parse(lib, text) == Ok(request) && Classify(Rules(lib, lists, None), request) == Ok(())
    ensures Check(lib, lists, text, PiiRules({}, false)) == Ok(request)
  {
    assert CtxOf(lib, lists, request, PiiRules({}, false)) == None;
  }

  /** Layer 1 reads the generated text as the sampling it was meant to be, and lets it through. */
  lemma MongoReadsBack(lib: Lib, path: seq<string>, rows: nat)
    requires KnowsAscii(lib) && IsCollection(lib, path) && 1 <= rows <= I64_MAX
    requires Utf8Len(Mongo(R.Join(path), rows)) <= MAX_INPUT_BYTES
    ensures Check(lib, NyetLists(), Mongo(R.Join(path), rows), PiiRules({}, false))
         == Ok(Request(R.Join(path), Aggregate([Stage(rows)])))
  {
    var request := Request(R.Join(path), Aggregate([Stage(rows)]));
    TextParses(lib, path, rows);
    StagePasses(lib, rows, R.Join(path));
    PlainCheck(lib, NyetLists(), Mongo(R.Join(path), rows), request);
  }
}
