/**
 Which policy is in force for one request: the rules of the collection it names and of every collection
 some stage of it names, and what it means that a name is protected.
 */
module PolicyScope {
  import opened Outcomes
  import opened Values
  import R = MongoRequests
  import opened Classifier
  import opened CleanTrees

  // ----- the scope of a policy -----

  /** Some node of `v` carries a namespace key that names the collection `name`. */
  ghost predicate NamesCollection(lib: Lib, lists: Lists, v: Bson, name: string) {
    exists path: Path, i: nat :: NamesCollectionAt(lib, lists, v, path, i, name)
  }

  /** A namespace key's value names the collection: outright, or as its `from` or `coll`. */
  predicate PointsAt(lib: Lib, value: Bson, name: string) {
    || (value.String? && lib.lower(value.text) == name)
    || (value.Document? && (Spelled(lib, value.fields, "from", name) || Spelled(lib, value.fields, "coll", name)))
  }

  predicate Spelled(lib: Lib, fields: seq<Field>, key: string, name: string) {
    var v := Get(fields, key);
    v.Some? && v.value.String? && lib.lower(v.value.text) == name
  }

  predicate NamesCollectionAt(lib: Lib, lists: Lists, v: Bson, path: Path, i: nat, name: string) {
    && Sub(v, path).Some? && Sub(v, path).value.Document? && i < |Sub(v, path).value.fields|
    && var f := Sub(v, path).value.fields[i];
       f.key in lists.namespaces && PointsAt(lib, f.value, name)
  }

  lemma NamedBelow(lib: Lib, lists: Lists, v: Bson, hop: Hop, name: string)
    requires Sub(v, [hop]).Some? && NamesCollection(lib, lists, Sub(v, [hop]).value, name)
    ensures NamesCollection(lib, lists, v, name)
  {
    var child := Sub(v, [hop]).value;
    var path: Path, i: nat :| NamesCollectionAt(lib, lists, child, path, i, name);
    assert ([hop] + path)[0] == hop && ([hop] + path)[1..] == path;
    assert [hop][1..] == [];
    assert Sub(v, [hop] + path) == Sub(child, path);
    assert NamesCollectionAt(lib, lists, v, [hop] + path, i, name);
  }

  /** Whatever a namespace key at any depth names is collected. */
  lemma {:induction false} NamedIsCollected(lib: Lib, lists: Lists, v: Bson, path: Path, i: nat, name: string)
    requires NamesCollectionAt(lib, lists, v, path, i, name)
    ensures name in Collect(lib, lists, v)
    decreases |path|
  {
    if path == [] {
      FieldCollected(lib, lists, v.fields, i);
    } else {
      match path[0] {
        case Into(k, key) =>
          NamedIsCollected(lib, lists, v.fields[k].value, path[1..], i, name);
          FieldCollected(lib, lists, v.fields, k);
        case Item(k) =>
          NamedIsCollected(lib, lists, v.items[k], path[1..], i, name);
          ItemCollected(lib, lists, v.items, k);
      }
    }
  }

  lemma {:induction false} FieldCollected(lib: Lib, lists: Lists, fields: seq<Field>, i: nat)
    requires i < |fields|
    ensures Collect(lib, lists, fields[i].value) <= CollectFields(lib, lists, fields)
    ensures fields[i].key in lists.namespaces ==>
              forall name :: PointsAt(lib, fields[i].value, name) ==> name in CollectFields(lib, lists, fields)
  {
    if i > 0 {
      FieldCollected(lib, lists, fields[1..], i - 1);
    }
  }

  lemma {:induction false} ItemCollected(lib: Lib, lists: Lists, items: seq<Bson>, i: nat)
    requires i < |items|
    ensures Collect(lib, lists, items[i]) <= CollectItems(lib, lists, items)
  {
    if i > 0 {
      ItemCollected(lib, lists, items[1..], i - 1);
    }
  }

  /** And nothing else is. */
  lemma {:induction false} CollectedIsNamed(lib: Lib, lists: Lists, v: Bson, name: string)
    requires name in Collect(lib, lists, v)
    ensures NamesCollection(lib, lists, v, name)
    decreases v, 0
  {
    match v {
      case Document(fields) =>
        var i := CollectedField(lib, lists, fields, name);
        if fields[i].key in lists.namespaces && PointsAt(lib, fields[i].value, name) {
          assert Sub(v, []) == Some(v);
          assert NamesCollectionAt(lib, lists, v, [], i, name);
        } else {
          CollectedIsNamed(lib, lists, fields[i].value, name);
          assert [Into(i, fields[i].key)][1..] == [];
          assert Sub(v, [Into(i, fields[i].key)]) == Some(fields[i].value);
          NamedBelow(lib, lists, v, Into(i, fields[i].key), name);
        }
      case Array(items) =>
        var i := CollectedItem(lib, lists, items, name);
        CollectedIsNamed(lib, lists, items[i], name);
        assert [Item(i)][1..] == [];
        assert Sub(v, [Item(i)]) == Some(items[i]);
        NamedBelow(lib, lists, v, Item(i), name);
    }
  }

  lemma {:induction false} CollectedField(lib: Lib, lists: Lists, fields: seq<Field>, name: string) returns (i: nat)
    requires name in CollectFields(lib, lists, fields)
    ensures i < |fields|
    ensures (fields[i].key in lists.namespaces && PointsAt(lib, fields[i].value, name))
            || name in Collect(lib, lists, fields[i].value)
  {
    if name in CollectFields(lib, lists, fields[1..]) {
      i := CollectedField(lib, lists, fields[1..], name);
      i := i + 1;
    } else {
      i := 0;
    }
  }

  lemma {:induction false} CollectedItem(lib: Lib, lists: Lists, items: seq<Bson>, name: string) returns (i: nat)
    requires name in CollectItems(lib, lists, items)
    ensures i < |items| && name in Collect(lib, lists, items[i])
  {
    if name in CollectItems(lib, lists, items[1..]) {
      i := CollectedItem(lib, lists, items[1..], name);
      i := i + 1;
    } else {
      i := 0;
    }
  }

  /** The scope both nets use: the query's collection, and every one a stage at any depth names. */
  lemma ScopeIsExact(lib: Lib, lists: Lists, request: Request, name: string)
    ensures name in Scope(lib, lists, request)
            <==> || name == lib.lower(request.collection)
                 || (request.op.Aggregate? && NamesCollection(lib, lists, Array(request.op.pipeline), name))
  {
    if request.op.Aggregate? {
      var v := Array(request.op.pipeline);
      if name in Collect(lib, lists, v) {
        CollectedIsNamed(lib, lists, v, name);
      }
      if NamesCollection(lib, lists, v, name) {
        var path: Path, i: nat :| NamesCollectionAt(lib, lists, v, path, i, name);
        NamedIsCollected(lib, lists, v, path, i, name);
      }
    }
  }

  /** The request reads the collection: its own, or one that some stage at any depth names. */
  ghost predicate Reads(lib: Lib, lists: Lists, request: Request, name: string) {
    || name == lib.lower(request.collection)
    || (request.op.Aggregate? && NamesCollection(lib, lists, Array(request.op.pipeline), name))
  }

  /** Some rule for a collection that the request reads protects the name. */
  ghost predicate Protects(lib: Lib, lists: Lists, request: Request, rules: PiiRules, name: string) {
    exists table :: (table, name) in rules.pairs && Reads(lib, lists, request, table)
  }

  /** The policy in force: the protected names and the mode of the rules, and none without such names. */
  ghost predicate InForce(lib: Lib, lists: Lists, request: Request, rules: PiiRules, ctx: Option<PiiCtx>) {
    match ctx
    case None => forall name :: !Protects(lib, lists, request, rules, name)
    case Some(policy) =>
      && policy.mask == rules.mask && policy.names != {}
      && forall name :: name in policy.names <==> Protects(lib, lists, request, rules, name)
  }

  lemma ProtectedName(lib: Lib, lists: Lists, request: Request, rules: PiiRules, name: string)
    ensures Protects(lib, lists, request, rules, name)
            <==> exists table :: (table, name) in rules.pairs && table in Scope(lib, lists, request)
  {
    forall table
      ensures table in Scope(lib, lists, request) <==> Reads(lib, lists, request, table)
    {
      ScopeIsExact(lib, lists, request, table);
    }
  }

  /** The policy both nets use is the one in force, and there is no other. */
  lemma PolicyInForce(lib: Lib, lists: Lists, request: Request, rules: PiiRules)
    ensures InForce(lib, lists, request, rules, CtxOf(lib, lists, request, rules))
  {
    var scope := Scope(lib, lists, request);
    var names := set pair | pair in rules.pairs && pair.0 in scope :: pair.1;
    forall name
      ensures name in names <==> Protects(lib, lists, request, rules, name)
    {
      ProtectedName(lib, lists, request, rules, name);
      if Protects(lib, lists, request, rules, name) {
        var table :| (table, name) in rules.pairs && table in scope;
        assert (table, name).0 in scope;
      }
    }
  }

  lemma OneInForce(lib: Lib, lists: Lists, request: Request, rules: PiiRules, a: Option<PiiCtx>, b: Option<PiiCtx>)
    requires InForce(lib, lists, request, rules, a) && InForce(lib, lists, request, rules, b)
    ensures a == b
  {
    if a.Some? {
      var name :| name in a.value.names;
      assert Protects(lib, lists, request, rules, name);
    }
    if b.Some? {
      var name :| name in b.value.names;
      assert Protects(lib, lists, request, rules, name);
    }
    if a.Some? && b.Some? {
      assert forall name :: name in a.value.names <==> name in b.value.names;
      assert a.value.names == b.value.names;
    }
  }

  /** The rules are the lists and the policy in force for what the text parses to. */
  ghost predicate RulesFor(text: string, rules: PiiRules, c: Rules) {
    var parsed := R.Parse(c.lib, text);
    parsed.Ok? ==> InForce(c.lib, c.lists, parsed.value, rules, c.pii)
  }

  lemma RulesAreInForce(text: string, rules: PiiRules, c: Rules)
    requires RulesFor(text, rules, c)
    ensures var parsed := R.Parse(c.lib, text);
            parsed.Ok? ==> c.pii == CtxOf(c.lib, c.lists, parsed.value, rules)
  {
    var parsed := R.Parse(c.lib, text);
    if parsed.Ok? {
      PolicyInForce(c.lib, c.lists, parsed.value, rules);
      OneInForce(c.lib, c.lists, parsed.value, rules, c.pii, CtxOf(c.lib, c.lists, parsed.value, rules));
    }
  }

  // ----- protected names in a path -----

  /** `path[i..j]` is one of its dot-separated segments. */
  predicate IsSegmentOf(path: string, i: nat, j: nat) {
    && i <= j <= |path| && (forall k :: i <= k < j ==> path[k] != '.')
    && (i == 0 || path[i - 1] == '.') && (j == |path| || path[j] == '.')
  }

  /** Some segment of the path is a protected name, letter case aside. */
  ghost predicate Touches(c: Rules, path: string)
    requires c.pii.Some?
  {
    exists i: nat, j: nat :: IsSegmentOf(path, i, j) && c.lib.lower(path[i..j]) in c.pii.value.names
  }

  lemma {:induction false} SegmentIsSplit(path: string, start: nat, i: nat, j: nat)
    requires IsSegmentOf(path, i, j) && start <= i
    ensures path[i..j] in SplitFrom(path, start)
    decreases i - start
  {
    var n := DotFrom(path, start);
    if n < i {
      SegmentIsSplit(path, n + 1, i, j);
    }
  }

  lemma {:induction false} SplitIsSegment(path: string, start: nat, segment: string) returns (i: nat, j: nat)
    requires start <= |path| && (start == 0 || path[start - 1] == '.')
    requires segment in SplitFrom(path, start)
    ensures IsSegmentOf(path, i, j) && path[i..j] == segment
    decreases |path| - start
  {
    var n := DotFrom(path, start);
    if segment == path[start..n] {
      i, j := start, n;
    } else {
      i, j := SplitIsSegment(path, n + 1, segment);
    }
  }

  /** The code splits at the dots, and so finds exactly those. */
  lemma PathHitIsExact(c: Rules, path: string)
    requires c.pii.Some?
    ensures PathHit(c, path) <==> Touches(c, path)
  {
    if PathHit(c, path) {
      var segment :| segment in Split(path) && c.lib.lower(segment) in c.pii.value.names;
      var i, j := SplitIsSegment(path, 0, segment);
      assert IsSegmentOf(path, i, j) && c.lib.lower(path[i..j]) in c.pii.value.names;
    }
    if Touches(c, path) {
      var i: nat, j: nat :| IsSegmentOf(path, i, j) && c.lib.lower(path[i..j]) in c.pii.value.names;
      SegmentIsSplit(path, 0, i, j);
    }
  }
}
