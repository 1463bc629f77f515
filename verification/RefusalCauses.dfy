/** The reason a query is refused with is a true one: some node of it is what the reason says. */
module RefusalCauses {
  import opened Outcomes
  import opened Values
  import opened MongoSyntax
  import R = MongoRequests
  import opened Classifier
  import opened CleanTrees
  import opened PolicyScope
  import opened WalkIsExact
  import opened ParsedDepth
  import opened Policy

  // ----- causes -----

  /** The field of a document at `path` is what the reason says. */
  ghost predicate FieldCause(c: Rules, t: Tree, path: Path, f: Field, reason: Reason) {
    match reason
    case WriteOperation => StartsWithDollar(f.key) && f.key in c.lists.writes
    case DeniedFunction => StartsWithDollar(f.key) && f.key in c.lists.scripts
    case DeniedOperator =>
      && StartsWithDollar(f.key)
      && (|| f.key in c.lists.owned
          || (f.key !in c.lists.stages && (IsStage(t, path) || f.key !in c.lists.ops)))
    case DeniedCommand => !IsFacet(path) && !OwnSource(c.lists, f.key, f.value)
    case ParseFailed => IsFacet(path) && !f.value.Array?
    case PiiColumn => c.pii.Some? && NamesProtected(c, t, path, f)
    case PiiUnprovable => c.pii.Some? && StartsWithDollar(f.key) && f.key in c.lists.unprovable
  }

  /** The field's own name, or a string of a stage that names a field, is a protected one where none may be. */
  ghost predicate NamesProtected(c: Rules, t: Tree, path: Path, f: Field)
    requires c.pii.Some?
  {
    || (Touches(c, f.key) && !(StartsWithDollar(f.key) && !IsFacet(path)) && !Relaxed(c, t, path, f))
    || (IsStage(t, path)
        && exists name :: StageNames(f.key, f.value, name) && Touches(c, name)
                          && !(c.pii.value.mask && f.key == "$unset"))
  }

  ghost predicate NodeCause(c: Rules, t: Tree, path: Path, v: Bson, reason: Reason) {
    || (reason == ParseFailed && IsStage(t, path) && !(v.Document? && |v.fields| == 1))
    || (v.Document? && exists i :: 0 <= i < |v.fields| && FieldCause(c, t, path, v.fields[i], reason))
    || (v.String? && c.pii.Some?
        && ((reason == PiiUnprovable && WholeDocument(v.text))
            || (reason == PiiColumn && Reference(v.text).Some? && Touches(c, Reference(v.text).value))))
  }

  /** Some node of the subtree `v`, which stands at `path`, is what the reason says. */
  ghost predicate HasCause(c: Rules, t: Tree, path: Path, v: Bson, reason: Reason) {
    exists q: Path :: CauseAt(c, t, path, v, q, reason)
  }

  ghost predicate CauseAt(c: Rules, t: Tree, path: Path, v: Bson, q: Path, reason: Reason) {
    Sub(v, q).Some? && NodeCause(c, t, path + q, Sub(v, q).value, reason)
  }

  lemma CauseHere(c: Rules, t: Tree, path: Path, v: Bson, reason: Reason)
    requires NodeCause(c, t, path, v, reason)
    ensures HasCause(c, t, path, v, reason)
  {
    assert path + [] == path && Sub(v, []) == Some(v);
    assert CauseAt(c, t, path, v, [], reason);
  }

  lemma CauseInField(c: Rules, t: Tree, path: Path, v: Bson, i: nat, reason: Reason)
    requires v.Document? && i < |v.fields| && FieldCause(c, t, path, v.fields[i], reason)
    ensures HasCause(c, t, path, v, reason)
  {
    CauseHere(c, t, path, v, reason);
  }

  lemma CauseBelow(c: Rules, t: Tree, path: Path, v: Bson, hop: Hop, child: Bson, reason: Reason)
    requires HasCause(c, t, path + [hop], child, reason)
    requires forall q: Path :: Sub(v, [hop] + q) == Sub(child, q)
    ensures HasCause(c, t, path, v, reason)
  {
    var q: Path :| CauseAt(c, t, path + [hop], child, q, reason);
    CauseMoves(c, t, path, v, hop, child, q, reason);
  }

  lemma CauseMoves(c: Rules, t: Tree, path: Path, v: Bson, hop: Hop, child: Bson, q: Path, reason: Reason)
    requires CauseAt(c, t, path + [hop], child, q, reason) && Sub(v, [hop] + q) == Sub(child, q)
    ensures CauseAt(c, t, path, v, [hop] + q, reason)
  {
    assert path + [hop] + q == path + ([hop] + q);
  }

  lemma CauseBelowField(c: Rules, t: Tree, path: Path, v: Bson, i: nat, reason: Reason)
    requires v.Document? && i < |v.fields|
    requires HasCause(c, t, path + [Into(i, v.fields[i].key)], v.fields[i].value, reason)
    ensures HasCause(c, t, path, v, reason)
  {
    CauseBelow(c, t, path, v, Into(i, v.fields[i].key), v.fields[i].value, reason);
  }

  lemma CauseBelowItem(c: Rules, t: Tree, path: Path, v: Bson, i: nat, reason: Reason)
    requires v.Array? && i < |v.items| && HasCause(c, t, path + [Item(i)], v.items[i], reason)
    ensures HasCause(c, t, path, v, reason)
  {
    CauseBelow(c, t, path, v, Item(i), v.items[i], reason);
  }

  // ----- the checks of one field -----

  lemma KeyCause(c: Rules, t: Tree, path: Path, f: Field, reason: Reason)
    requires CheckKey(c, f.key, IsStage(t, path)) == Err(reason)
    ensures FieldCause(c, t, path, f, reason)
  {
  }

  lemma SourceCause(c: Rules, t: Tree, path: Path, f: Field, reason: Reason)
    requires CheckSource(c, f.key, f.value) == Err(reason) && !IsFacet(path)
    ensures FieldCause(c, t, path, f, reason)
  {
  }

  lemma NameCause(c: Rules, t: Tree, path: Path, f: Field, reason: Reason)
    requires c.pii.Some? && !IsFacet(path) && CheckFieldKey(c, f.key, f.value, PosAt(t, path)) == Err(reason)
    ensures FieldCause(c, t, path, f, reason)
  {
    PathHitIsExact(c, f.key);
  }

  lemma BranchNameCause(c: Rules, t: Tree, path: Path, f: Field, reason: Reason)
    requires c.pii.Some? && IsFacet(path) && CheckName(c, f.key) == Err(reason)
    ensures FieldCause(c, t, path, f, reason)
  {
    PathHitIsExact(c, f.key);
  }

  lemma {:induction false} NamesReason(c: Rules, fields: seq<Field>, names: seq<string>)
    requires c.pii.Some? && CheckNames(c, fields, names).Err?
    ensures CheckNames(c, fields, names) == Err(PiiColumn)
  {
    var named := Get(fields, names[0]);
    if !(named.Some? && named.value.String? && CheckName(c, named.value.text).Err?) {
      NamesReason(c, fields, names[1..]);
    }
  }

  lemma StageReason(c: Rules, key: string, value: Bson)
    requires c.pii.Some? && CheckStage(c, key, value).Err?
    ensures CheckStage(c, key, value) == Err(PiiColumn)
  {
    if value.Document? && key != "$unset" && key != "$count" {
      NamesReason(c, value.fields, if key == "$unwind" then ["includeArrayIndex"] else LOOKUP_NAMES);
    }
  }

  lemma StageNameCause(c: Rules, t: Tree, path: Path, f: Field, reason: Reason)
    requires c.pii.Some? && IsStage(t, path) && CheckStage(c, f.key, f.value) == Err(reason)
    ensures FieldCause(c, t, path, f, reason)
  {
    StageReason(c, f.key, f.value);
    StageChecked(c, f.key, f.value);
  }

  lemma RefCause(c: Rules, t: Tree, path: Path, text: string, reason: Reason)
    requires c.pii.Some? && CheckRef(c, text) == Err(reason)
    ensures NodeCause(c, t, path, String(text), reason)
  {
    if Reference(text).Some? {
      PathHitIsExact(c, Reference(text).value);
    }
    if IsOperator(text) && At(text[1..], '$') {
      assert text == "$$" + text[2..];
    }
  }

  // ----- the first element that fails decides -----

  lemma {:induction false} BadStage(c: Rules, stages: seq<Bson>, d: nat) returns (i: nat)
    requires WalkStages(c, stages, d).Err?
    ensures i < |stages| && WalkStage(c, stages[i], d) == WalkStages(c, stages, d)
  {
    if WalkStage(c, stages[0], d).Err? {
      i := 0;
    } else {
      i := BadStage(c, stages[1..], d);
      i := i + 1;
    }
  }

  lemma {:induction false} BadField(c: Rules, fields: seq<Field>, d: nat, pos: Pos) returns (i: nat)
    requires WalkFields(c, fields, d, pos).Err?
    ensures i < |fields| && WalkField(c, fields[i], d, pos) == WalkFields(c, fields, d, pos)
  {
    if WalkField(c, fields[0], d, pos).Err? {
      i := 0;
    } else {
      i := BadField(c, fields[1..], d, pos);
      i := i + 1;
    }
  }

  lemma {:induction false} BadBranch(c: Rules, branches: seq<Field>, d: nat) returns (i: nat)
    requires WalkBranches(c, branches, d).Err?
    ensures i < |branches| && WalkBranch(c, branches[i], d) == WalkBranches(c, branches, d)
  {
    if WalkBranch(c, branches[0], d).Err? {
      i := 0;
    } else {
      i := BadBranch(c, branches[1..], d);
      i := i + 1;
    }
  }

  lemma {:induction false} BadItem(c: Rules, items: seq<Bson>, d: nat, pos: Pos) returns (i: nat)
    requires WalkItems(c, items, d, pos).Err?
    ensures i < |items| && WalkValue(c, items[i], d, pos) == WalkItems(c, items, d, pos)
  {
    if WalkValue(c, items[0], d, pos).Err? {
      i := 0;
    } else {
      i := BadItem(c, items[1..], d, pos);
      i := i + 1;
    }
  }

  // ----- the walk -----

  lemma {:induction false} PipelineCause(c: Rules, t: Tree, path: Path, v: Bson, d: nat, reason: Reason)
    requires Stands(t, path, v) && v.Array? && IsPipeline(t, path) && !IsStage(t, path) && Fits(v, d)
    requires WalkPipeline(c, v.items, d) == Err(reason)
    ensures HasCause(c, t, path, v, reason)
    decreases v, 2
  {
    var i := BadStage(c, v.items, d);
    ItemStands(t, path, v, i);
    StageCause(c, t, path + [Item(i)], v.items[i], d, reason);
    CauseBelowItem(c, t, path, v, i, reason);
  }

  lemma {:induction false} StageCause(c: Rules, t: Tree, path: Path, v: Bson, d: nat, reason: Reason)
    requires Stands(t, path, v) && IsStage(t, path) && Fits(v, d + 1) && WalkStage(c, v, d) == Err(reason)
    ensures HasCause(c, t, path, v, reason)
    decreases v, 1
  {
    if !v.Document? || |v.fields| != 1 {
      CauseHere(c, t, path, v, reason);
    } else {
      var f := v.fields[0];
      if CheckKey(c, f.key, true).Err? {
        KeyCause(c, t, path, f, reason);
        CauseInField(c, t, path, v, 0, reason);
      } else if c.pii.Some? && CheckFieldKey(c, f.key, f.value, Strict).Err? {
        NameCause(c, t, path, f, reason);
        CauseInField(c, t, path, v, 0, reason);
      } else if c.pii.Some? && CheckStage(c, f.key, f.value).Err? {
        StageNameCause(c, t, path, f, reason);
        CauseInField(c, t, path, v, 0, reason);
      } else {
        FieldStands(t, path, v, 0);
        ValueOfCause(c, t, path, v, 0, d + 1, reason);
      }
    }
  }

  lemma {:induction false} ValueOfCause(c: Rules, t: Tree, path: Path, v: Bson, i: nat, d: nat, reason: Reason)
    requires Stands(t, path, v) && v.Document? && i < |v.fields| && !IsFacet(path)
    requires Fits(v.fields[i].value, d + 1)
    requires WalkValueOf(c, v.fields[i], d, PosAt(t, path + [Into(i, v.fields[i].key)])) == Err(reason)
    ensures HasCause(c, t, path, v, reason)
    decreases v, 0
  {
    var f := v.fields[i];
    var cp := path + [Into(i, f.key)];
    FieldStands(t, path, v, i);
    if CheckSource(c, f.key, f.value).Err? {
      SourceCause(c, t, path, f, reason);
      CauseInField(c, t, path, v, i, reason);
    } else {
      if f.key == "$facet" && f.value.Document? {
        FacetCause(c, t, cp, f.value, d, reason);
      } else if f.key == "pipeline" && f.value.Array? {
        PipelineCause(c, t, cp, f.value, d + 1, reason);
      } else {
        ValueCause(c, t, cp, f.value, d, reason);
      }
      CauseBelowField(c, t, path, v, i, reason);
    }
  }

  lemma {:induction false} FacetCause(c: Rules, t: Tree, path: Path, v: Bson, d: nat, reason: Reason)
    requires Stands(t, path, v) && v.Document? && IsFacet(path) && Fits(v, d + 1)
    requires WalkBranches(c, v.fields, d) == Err(reason)
    ensures HasCause(c, t, path, v, reason)
    decreases v, 1
  {
    var i := BadBranch(c, v.fields, d);
    var f := v.fields[i];
    if CheckKey(c, f.key, false).Err? {
      KeyCause(c, t, path, f, reason);
      CauseInField(c, t, path, v, i, reason);
    } else if c.pii.Some? && CheckName(c, f.key).Err? {
      BranchNameCause(c, t, path, f, reason);
      CauseInField(c, t, path, v, i, reason);
    } else if !f.value.Array? {
      CauseInField(c, t, path, v, i, reason);
    } else {
      FieldStands(t, path, v, i);
      FitsHigher(f.value, d + 2, d + 1);
      PipelineCause(c, t, path + [Into(i, f.key)], f.value, d + 1, reason);
      CauseBelowField(c, t, path, v, i, reason);
    }
  }

  lemma {:induction false} DocCause(c: Rules, t: Tree, path: Path, v: Bson, d: nat, reason: Reason)
    requires Stands(t, path, v) && v.Document? && !IsFacet(path) && !IsStage(t, path) && Fits(v, d + 1)
    requires WalkDoc(c, v.fields, d, PosAt(t, path)) == Err(reason)
    ensures HasCause(c, t, path, v, reason)
    decreases v, 2
  {
    var i := BadField(c, v.fields, d, PosAt(t, path));
    var f := v.fields[i];
    if CheckKey(c, f.key, false).Err? {
      KeyCause(c, t, path, f, reason);
      CauseInField(c, t, path, v, i, reason);
    } else if c.pii.Some? && CheckFieldKey(c, f.key, f.value, PosAt(t, path)).Err? {
      NameCause(c, t, path, f, reason);
      CauseInField(c, t, path, v, i, reason);
    } else {
      FieldStands(t, path, v, i);
      assert PosAt(t, path + [Into(i, f.key)]) == Below(PosAt(t, path), f);
      ValueOfCause(c, t, path, v, i, d + 1, reason);
    }
  }

  lemma {:induction false} ValueCause(c: Rules, t: Tree, path: Path, v: Bson, d: nat, reason: Reason)
    requires Stands(t, path, v) && !IsStage(t, path) && Fits(v, d + 1)
    requires v.Document? ==> !IsFacet(path)
    requires v.Array? ==> !IsPipeline(t, path)
    requires WalkValue(c, v, d, PosAt(t, path)) == Err(reason)
    ensures HasCause(c, t, path, v, reason)
    decreases v, 3
  {
    match v {
      case Document(fields) => DocCause(c, t, path, v, d, reason);
      case Array(items) =>
        var i := BadItem(c, items, d + 1, PosAt(t, path));
        ItemStands(t, path, v, i);
        ValueCause(c, t, path + [Item(i)], items[i], d + 1, reason);
        CauseBelowItem(c, t, path, v, i, reason);
      case String(text) =>
        RefCause(c, t, path, text, reason);
        CauseHere(c, t, path, v, reason);
    }
  }

  // ----- requests -----

  /** Some node of some tree of the request, or its `distinct` key, is what the reason says. */
  ghost predicate RequestCause(c: Rules, request: Request, reason: Reason) {
    || (exists t :: t in Trees(request) && HasCause(c, t, [], t.root, reason))
    || (reason == PiiColumn && request.op.Distinct? && c.pii.Some? && Touches(c, request.op.key))
  }

  lemma RootCause(c: Rules, request: Request, fields: seq<Field>, pos: Pos, reason: Reason)
    requires Fits(Document(fields), 1) && Tree(Document(fields), false, pos) in Trees(request)
    requires WalkDoc(c, fields, 0, pos) == Err(reason)
    ensures RequestCause(c, request, reason)
  {
    var t := Tree(Document(fields), false, pos);
    DocCause(c, t, [], Document(fields), 0, reason);
    assert HasCause(c, t, [], t.root, reason);
  }

  lemma ClassifyCause(c: Rules, request: Request, reason: Reason)
    requires RequestFits(request) && Classify(c, request) == Err(reason)
    ensures RequestCause(c, request, reason)
  {
    TreesOf(request);
    match request.op {
      case Find(filter, projection, sort, _, _) =>
        if WalkDoc(c, filter, 0, Strict).Err? {
          RootCause(c, request, filter, Strict, reason);
        } else if WalkOptional(c, projection, Projection).Err? {
          RootCause(c, request, projection.value, Projection, reason);
        } else {
          RootCause(c, request, sort.value, Strict, reason);
        }
      case Aggregate(pipeline) =>
        var t := Tree(Array(pipeline), true, Strict);
        FitsHigher(Array(pipeline), 1, 0);
        PipelineCause(c, t, [], Array(pipeline), 0, reason);
        assert t in Trees(request) && HasCause(c, t, [], t.root, reason);
      case Count(filter) => RootCause(c, request, filter, Strict, reason);
      case Distinct(key, filter) =>
        if c.pii.Some? && CheckName(c, key).Err? {
          PathHitIsExact(c, key);
        } else {
          RootCause(c, request, filter, Strict, reason);
        }
    }
  }

  /** A text that parses is refused only for what it is: some node of it is what the reason says. */
  lemma RefusedForACause(text: string, rules: PiiRules, c: Rules, reason: Reason)
    requires RulesFor(text, rules, c) && R.Parse(c.lib, text).Ok?
    requires Check(c.lib, c.lists, text, rules) == Err(reason)
    ensures RequestCause(c, R.Parse(c.lib, text).value, reason)
  {
    RulesAreInForce(text, rules, c);
    ParsedRequestFits(c.lib, text);
    ClassifyCause(c, R.Parse(c.lib, text).value, reason);
  }
}
