/** What the verdict of layer 1 means: the allowlist, net A of the policy, and how policies compare. */
module Policy {
  import opened Outcomes
  import opened Values
  import opened MongoSyntax
  import R = MongoRequests
  import opened Classifier
  import opened CleanTrees
  import opened PolicyScope
  import opened WalkIsExact
  import opened ParsedDepth

  // ----- the whole check -----

  /** For every text: accepted exactly when it parses and every node of what it parses to is clean. */
  lemma CheckIsExact(text: string, rules: PiiRules, c: Rules)
    requires RulesFor(text, rules, c)
    ensures Check(c.lib, c.lists, text, rules).Ok?
            <==> R.Parse(c.lib, text).Ok? && CleanRequest(c, R.Parse(c.lib, text).value)
    ensures Check(c.lib, c.lists, text, rules).Ok? ==> Check(c.lib, c.lists, text, rules) == R.Parse(c.lib, text)
  {
    var parsed := R.Parse(c.lib, text);
    RulesAreInForce(text, rules, c);
    if parsed.Ok? {
      ParsedRequestFits(c.lib, text);
      ClassifyIsExact(c, parsed.value);
    }
  }

  // ----- the allowlist -----

  /** The keys no accepted document carries, and the ones it may. */
  predicate KeyListed(lists: Lists, key: string, stage: bool) {
    StartsWithDollar(key) ==>
      && key !in lists.writes && key !in lists.scripts && key !in lists.owned
      && (if stage then key in lists.stages else key in lists.ops || key in lists.stages)
  }

  /** `key` names no internal catalog and no other database through `value`. */
  predicate OwnSource(lists: Lists, key: string, value: Bson) {
    key in lists.namespaces ==>
      match value
      case String(name) => !("system." <= name)
      case Document(fields) => OwnName(Get(fields, "from")) && OwnName(Get(fields, "coll"))
      case _ => true
  }

  predicate OwnName(named: Option<Bson>) {
    match named
    case Some(String(name)) => !("system." <= name)
    case Some(Document(_)) => false
    case _ => true
  }

  /** The rules without a policy. */
  function Plain(c: Rules): Rules {
    c.(pii := None)
  }

  /** The part of the verdict on one node that the allowlists decide. */
  predicate Listed(c: Rules, t: Tree, path: Path, v: Bson) {
    && (IsStage(t, path) ==> v.Document? && |v.fields| == 1)
    && (v.Document? ==> forall i :: 0 <= i < |v.fields| ==>
          && KeyListed(c.lists, v.fields[i].key, IsStage(t, path))
          && (if IsFacet(path) then v.fields[i].value.Array?
              else OwnSource(c.lists, v.fields[i].key, v.fields[i].value)))
  }

  /** Without a policy a node is clean exactly when it is listed. */
  lemma PlainIsListed(c: Rules, t: Tree, path: Path, v: Bson)
    ensures NodeClean(Plain(c), t, path, v) <==> Listed(c, t, path, v)
  {
  }

  // ----- net A -----

  /** The field path a string refers to, when it is a reference. */
  function Reference(text: string): Option<string> {
    if !StartsWithDollar(text) then None
    else if |text| > 1 && text[1] == '$' then
      var variable := text[2..];
      var n := DotFrom(variable, 0);
      if n < |variable| then Some(variable[n + 1..]) else None
    else Some(text[1..])
  }

  /** `$$ROOT` and `$$CURRENT`: the whole document, by no name. */
  predicate WholeDocument(text: string) {
    text == "$$ROOT" || text == "$$CURRENT"
  }

  /** The string is one that names a field to the stage. */
  predicate StageNames(key: string, value: Bson, name: string) {
    || (key == "$unset" && (value == String(name) || (value.Array? && String(name) in value.items)))
    || (key == "$count" && value == String(name))
    || (value.Document? && Names(value.fields, FieldOptions(key), name))
  }

  /** One of the options is the string. */
  predicate Names(fields: seq<Field>, options: set<string>, name: string) {
    exists option :: option in options && Get(fields, option) == Some(String(name))
  }

  /** The options of a stage that take a field's name as a plain string. */
  function FieldOptions(key: string): set<string> {
    if key == "$unwind" then {"includeArrayIndex"}
    else if key in {"$lookup", "$graphLookup"} then
      {"localField", "foreignField", "as", "connectFromField", "connectToField", "depthField"}
    else {}
  }

  /** A value that can only include or exclude the field it stands by. */
  predicate Literal(v: Bson) {
    || v.Boolean? || v in {Int32(0), Int32(1), Int64(0), Int64(1)}
    || v in {Double(Finite(0.0)), Double(Finite(1.0))}
  }

  /** A protected name may stand here: a literal projection of it, which net B then redacts. */
  predicate Relaxed(c: Rules, t: Tree, path: Path, f: Field)
    requires c.pii.Some?
  {
    && c.pii.value.mask
    && !IsStage(t, path) && !IsFacet(path)
    && PosAt(t, path) == Projection && Literal(f.value)
  }

  /** Net A at one field: what a protected name may not be, and the two relaxations of mask mode. */
  ghost predicate FieldNamesNothing(c: Rules, t: Tree, path: Path, f: Field)
    requires c.pii.Some?
  {
    && (StartsWithDollar(f.key) ==> f.key !in c.lists.unprovable)
    && (Touches(c, f.key) ==> (StartsWithDollar(f.key) && !IsFacet(path)) || Relaxed(c, t, path, f))
    && (IsStage(t, path) ==>
          forall name :: StageNames(f.key, f.value, name) && Touches(c, name) ==>
            c.pii.value.mask && f.key == "$unset")
  }

  ghost predicate NamesNothingProtected(c: Rules, t: Tree, path: Path, v: Bson)
    requires c.pii.Some?
  {
    match v
    case Document(fields) => forall i :: 0 <= i < |fields| ==> FieldNamesNothing(c, t, path, fields[i])
    case String(text) =>
      && !WholeDocument(text)
      && (Reference(text).Some? ==> !Touches(c, Reference(text).value))
    case _ => true
  }

  function SetOf(names: seq<string>): set<string> {
    set name | name in names
  }

  lemma {:induction false} NamesChecked(c: Rules, fields: seq<Field>, names: seq<string>)
    requires c.pii.Some?
    ensures CheckNames(c, fields, names).Ok?
            <==> forall name :: Names(fields, SetOf(names), name) ==> !Touches(c, name)
  {
    if names != [] {
      NamesChecked(c, fields, names[1..]);
      forall name
        ensures Names(fields, SetOf(names), name)
                <==> Get(fields, names[0]) == Some(String(name)) || Names(fields, SetOf(names[1..]), name)
      {
        assert forall option :: option in names <==> option == names[0] || option in names[1..];
      }
      var named := Get(fields, names[0]);
      if named.Some? && named.value.String? {
        PathHitIsExact(c, named.value.text);
        assert Names(fields, SetOf(names), named.value.text);
      }
    }
  }

  lemma {:induction false} StringsAreItems(items: seq<Bson>, name: string)
    ensures name in StringsOf(items) <==> String(name) in items
  {
    if items != [] {
      StringsAreItems(items[1..], name);
    }
  }

  lemma UnsetChecked(c: Rules, value: Bson)
    requires c.pii.Some?
    ensures (exists path :: path in UnsetPaths(value) && PathHit(c, path))
            <==> exists name :: StageNames("$unset", value, name) && Touches(c, name)
  {
    forall name
      ensures PathHit(c, name) <==> Touches(c, name)
      ensures name in UnsetPaths(value) <==> StageNames("$unset", value, name)
    {
      PathHitIsExact(c, name);
      if value.Array? {
        StringsAreItems(value.items, name);
      }
    }
    if exists path :: path in UnsetPaths(value) && PathHit(c, path) {
      var path :| path in UnsetPaths(value) && PathHit(c, path);
      assert StageNames("$unset", value, path) && Touches(c, path);
    }
  }

  lemma StageChecked(c: Rules, key: string, value: Bson)
    requires c.pii.Some?
    ensures CheckStage(c, key, value).Ok?
            <==> forall name :: StageNames(key, value, name) && Touches(c, name) ==>
                   c.pii.value.mask && key == "$unset"
  {
    if key == "$unset" {
      UnsetChecked(c, value);
    } else if key == "$count" {
      if value.String? {
        PathHitIsExact(c, value.text);
        assert StageNames(key, value, value.text);
      }
    } else if value.Document? {
      OptionsChecked(c, key, value.fields);
      assert forall name :: StageNames(key, value, name) <==> Names(value.fields, FieldOptions(key), name);
    }
  }

  lemma OptionsChecked(c: Rules, key: string, fields: seq<Field>)
    requires c.pii.Some? && key != "$unset" && key != "$count"
    ensures CheckStage(c, key, Document(fields)).Ok?
            <==> forall name :: Names(fields, FieldOptions(key), name) ==> !Touches(c, name)
  {
    if key == "$unwind" {
      var names := ["includeArrayIndex"];
      NamesChecked(c, fields, names);
      assert SetOf(names) == FieldOptions(key);
    } else if key == "$lookup" || key == "$graphLookup" {
      NamesChecked(c, fields, LOOKUP_NAMES);
      assert SetOf(LOOKUP_NAMES) == FieldOptions(key);
    }
  }

  lemma RefChecked(c: Rules, text: string)
    requires c.pii.Some?
    ensures CheckRef(c, text).Ok?
            <==> !WholeDocument(text) && (Reference(text).Some? ==> !Touches(c, Reference(text).value))
  {
    if Reference(text).Some? {
      PathHitIsExact(c, Reference(text).value);
    }
    assert WholeDocument(text) ==> At(text[1..], '$');
    if IsOperator(text) && At(text[1..], '$') {
      var variable := text[2..];
      var n := DotFrom(variable, 0);
      assert text == "$$" + variable;
      assert text == "$$ROOT" <==> variable == "ROOT";
      assert text == "$$CURRENT" <==> variable == "CURRENT";
      assert n < |variable| ==> variable[n] == '.';
    }
  }

  /** Under a policy a node is clean exactly when it is listed and names nothing protected. */
  lemma NetAIsExact(c: Rules, t: Tree, path: Path, v: Bson)
    requires c.pii.Some?
    ensures NodeClean(c, t, path, v) <==> Listed(c, t, path, v) && NamesNothingProtected(c, t, path, v)
  {
    PlainIsListed(c, t, path, v);
    match v {
      case Document(fields) =>
        forall i | 0 <= i < |fields|
          ensures FieldClean(c, t, path, fields[i])
                  <==> FieldClean(Plain(c), t, path, fields[i]) && FieldNamesNothing(c, t, path, fields[i])
        {
          StageChecked(c, fields[i].key, fields[i].value);
          PathHitIsExact(c, fields[i].key);
        }
      case String(text) => RefChecked(c, text);
      case _ =>
    }
  }

  // ----- the verdict, said of every node -----

  /** The verdict on one node: the allowlists, and net A where a policy is in force. */
  ghost predicate NodeVerdict(c: Rules, t: Tree, path: Path, v: Bson) {
    Listed(c, t, path, v) && (c.pii.Some? ==> NamesNothingProtected(c, t, path, v))
  }

  ghost predicate EveryNodePasses(c: Rules, t: Tree) {
    forall path: Path :: Sub(t.root, path).Some? ==> NodeVerdict(c, t, path, Sub(t.root, path).value)
  }

  lemma CleanMeansPassing(c: Rules, t: Tree)
    ensures Clean(c, t) <==> EveryNodePasses(c, t)
  {
    forall path: Path | Sub(t.root, path).Some?
      ensures NodeClean(c, t, [] + path, Sub(t.root, path).value)
              <==> NodeVerdict(c, t, path, Sub(t.root, path).value)
    {
      assert [] + path == path;
      if c.pii.Some? {
        NetAIsExact(c, t, path, Sub(t.root, path).value);
      } else {
        PlainIsListed(c, t, path, Sub(t.root, path).value);
        assert Plain(c) == c;
      }
    }
    assert Clean(c, t) ==> EveryNodePasses(c, t) by {
      if Clean(c, t) {
        forall path: Path | Sub(t.root, path).Some?
          ensures NodeVerdict(c, t, path, Sub(t.root, path).value)
        {
          assert NodeClean(c, t, [] + path, Sub(t.root, path).value);
        }
      }
    }
  }

  /**
   Layer 1, for every text and every policy: a query is accepted exactly when it parses, every node
   at every depth of every tree of it passes, and a `distinct` key names nothing protected.
   */
  lemma AcceptedExactly(text: string, rules: PiiRules, c: Rules)
    requires RulesFor(text, rules, c)
    ensures Check(c.lib, c.lists, text, rules).Ok?
            <==> && R.Parse(c.lib, text).Ok?
                 && var request := R.Parse(c.lib, text).value;
                    && (forall t :: t in Trees(request) ==> EveryNodePasses(c, t))
                    && (request.op.Distinct? && c.pii.Some? ==> !Touches(c, request.op.key))
  {
    CheckIsExact(text, rules, c);
    var parsed := R.Parse(c.lib, text);
    if parsed.Ok? {
      if parsed.value.op.Distinct? && c.pii.Some? {
        PathHitIsExact(c, parsed.value.op.key);
      }
      forall t: Tree
        ensures Clean(c, t) <==> EveryNodePasses(c, t)
      {
        CleanMeansPassing(c, t);
      }
    }
  }

  /** The policy that some rules put in force always exists, so every text has its verdict. */
  lemma RulesExist(lib: Lib, lists: Lists, text: string, rules: PiiRules) returns (c: Rules)
    ensures c.lib == lib && c.lists == lists && RulesFor(text, rules, c)
  {
    var parsed := R.Parse(lib, text);
    if parsed.Ok? {
      PolicyInForce(lib, lists, parsed.value, rules);
      c := Rules(lib, lists, CtxOf(lib, lists, parsed.value, rules));
    } else {
      c := Rules(lib, lists, None);
    }
  }

  /** The keys that write and the ones that run code on the server. */
  const FORBIDDEN := {"$out", "$merge", "$where", "$function", "$accumulator"}

  lemma NyetForbids()
    ensures FORBIDDEN <= NyetLists().writes + NyetLists().scripts
  {
  }

  lemma ForbiddenIsUnlisted(lists: Lists, key: string, stage: bool)
    requires FORBIDDEN <= lists.writes + lists.scripts && KeyListed(lists, key, stage)
    ensures key !in FORBIDDEN
  {
    if key in FORBIDDEN {
      assert key in lists.writes + lists.scripts;
      DollarFirst(key);
    }
  }

  lemma DollarFirst(key: string)
    requires key in FORBIDDEN
    ensures StartsWithDollar(key)
  {
  }

  /** No accepted query carries a key that writes or runs code, at any depth of any of its trees. */
  lemma AcceptedNeverWrites(lib: Lib, lists: Lists, text: string, rules: PiiRules, t: Tree, path: Path, i: nat)
    requires FORBIDDEN <= lists.writes + lists.scripts
    requires Check(lib, lists, text, rules).Ok? && t in Trees(Check(lib, lists, text, rules).value)
    requires Sub(t.root, path).Some? && Sub(t.root, path).value.Document? && i < |Sub(t.root, path).value.fields|
    ensures Sub(t.root, path).value.fields[i].key !in FORBIDDEN
  {
    var c := RulesExist(lib, lists, text, rules);
    CheckIsExact(text, rules, c);
    AcceptedExactly(text, rules, c);
    assert NodeVerdict(c, t, path, Sub(t.root, path).value);
    var key := Sub(t.root, path).value.fields[i].key;
    ForbiddenIsUnlisted(lists, key, IsStage(t, path));
  }

  /** A relaxed position is the projection, or the value of `$project`, and plain fields below it. */
  lemma {:induction false} ProjectionReaches(t: Tree, path: Path) returns (base: nat)
    requires PosAt(t, path) == Projection
    ensures base <= |path|
    ensures base == 0 ==> t.pos == Projection
    ensures base > 0 ==> path[base - 1].Into? && path[base - 1].key == "$project" && IsStage(t, path[..base - 1])
    ensures forall k :: base <= k < |path| && path[k].Into? ==> !StartsWithDollar(path[k].key)
    decreases |path|
  {
    if path == [] {
      base := 0;
    } else if Last(path).Into? && IsStage(t, Up(path)) {
      base := |path|;
    } else {
      base := ProjectionReaches(t, Up(path));
      if base > 0 {
        assert Up(path)[..base - 1] == path[..base - 1];
      }
    }
  }

  // ----- comparing policies -----

  /** Protects at least as much, and relaxes no more. */
  predicate Stricter(a: Option<PiiCtx>, b: Option<PiiCtx>) {
    b.Some? ==> a.Some? && b.value.names <= a.value.names && (a.value.mask ==> b.value.mask)
  }

  lemma LessTouched(a: Rules, b: Rules, path: string)
    requires a.lib == b.lib && Stricter(a.pii, b.pii) && b.pii.Some? && Touches(b, path)
    ensures Touches(a, path)
  {
    var i: nat, j: nat :| IsSegmentOf(path, i, j) && b.lib.lower(path[i..j]) in b.pii.value.names;
    assert IsSegmentOf(path, i, j) && a.lib.lower(path[i..j]) in a.pii.value.names;
  }

  lemma NodeMonotone(a: Rules, b: Rules, t: Tree, path: Path, v: Bson)
    requires a.lib == b.lib && a.lists == b.lists && Stricter(a.pii, b.pii)
    requires NodeVerdict(a, t, path, v)
    ensures NodeVerdict(b, t, path, v)
  {
    if b.pii.Some? {
      forall name | Touches(b, name)
        ensures Touches(a, name)
      {
        LessTouched(a, b, name);
      }
    }
  }

  /** The policy with more rules, or with deny for mask, is the stricter one on every request. */
  lemma RulesMonotone(lib: Lib, lists: Lists, request: Request, a: PiiRules, b: PiiRules,
                      ca: Option<PiiCtx>, cb: Option<PiiCtx>)
    requires b.pairs <= a.pairs && (a.mask ==> b.mask)
    requires InForce(lib, lists, request, a, ca) && InForce(lib, lists, request, b, cb)
    ensures Stricter(ca, cb)
  {
    forall name | Protects(lib, lists, request, b, name)
      ensures Protects(lib, lists, request, a, name)
    {
      var table :| (table, name) in b.pairs && Reads(lib, lists, request, table);
      assert (table, name) in a.pairs;
    }
    if cb.Some? {
      var name :| name in cb.value.names;
      assert Protects(lib, lists, request, b, name);
    }
  }

  /**
   Adding a rule, or going from mask to deny, never admits a query that was refused; what both admit
   is the same request. With `b` the empty policy: a query accepted under any policy passes the
   plain check.
   */
  lemma StricterAdmitsLess(lib: Lib, lists: Lists, text: string, a: PiiRules, b: PiiRules)
    requires b.pairs <= a.pairs && (a.mask ==> b.mask)
    requires Check(lib, lists, text, a).Ok?
    ensures Check(lib, lists, text, b) == Check(lib, lists, text, a)
  {
    var ca := RulesExist(lib, lists, text, a);
    var cb := RulesExist(lib, lists, text, b);
    CheckIsExact(text, a, ca);
    CheckIsExact(text, b, cb);
    AcceptedExactly(text, a, ca);
    AcceptedExactly(text, b, cb);
    var request := R.Parse(lib, text).value;
    RulesMonotone(lib, lists, request, a, b, ca.pii, cb.pii);
    forall t | t in Trees(request)
      ensures EveryNodePasses(cb, t)
    {
      assert EveryNodePasses(ca, t);
      forall path: Path | Sub(t.root, path).Some?
        ensures NodeVerdict(cb, t, path, Sub(t.root, path).value)
      {
        NodeMonotone(ca, cb, t, path, Sub(t.root, path).value);
      }
    }
    if request.op.Distinct? && cb.pii.Some? && Touches(cb, request.op.key) {
      LessTouched(ca, cb, request.op.key);
    }
  }

  /** A stage whose key is no operator is let through: the allowlist judges `$`-keys only. */
  lemma PlainStagePasses(c: Rules, collection: string, key: string)
    requires c.pii.None? && !IsOperator(key) && key !in c.lists.namespaces
    ensures Classify(c, Request(collection, Aggregate([Document([Field(key, Null)])]))) == Ok(())
  {
    var field := Field(key, Null);
    var stage := Document([field]);
    assert WalkValueOf(c, field, 1, if key == "$project" then Projection else Strict) == Ok(());
    assert [stage][1..] == [];
    assert WalkStage(c, stage, 0) == Ok(());
    assert WalkStages(c, [stage], 0) == Ok(());
  }
}
