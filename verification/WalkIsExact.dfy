/** The walk accepts a request exactly when every node of it is clean. */
module WalkIsExact {
  import opened Outcomes
  import opened Values
  import opened MongoSyntax
  import opened Classifier
  import opened CleanTrees

  /** No node of `v`, itself at depth `d`, lies below the limit. */
  predicate Fits(v: Bson, d: nat)
    decreases v
  {
    && d <= MAX_DEPTH
    && match v
       case Document(fields) => forall i :: 0 <= i < |fields| ==> Fits(fields[i].value, d + 1)
       case Array(items) => forall i :: 0 <= i < |items| ==> Fits(items[i], d + 1)
       case _ => true
  }

  lemma {:induction false} FitsHigher(v: Bson, d: nat, e: nat)
    requires Fits(v, d) && e <= d
    ensures Fits(v, e)
    decreases v
  {
    match v {
      case Document(fields) =>
        forall i | 0 <= i < |fields| ensures Fits(fields[i].value, e + 1) {
          FitsHigher(fields[i].value, d + 1, e + 1);
        }
      case Array(items) =>
        forall i | 0 <= i < |items| ensures Fits(items[i], e + 1) {
          FitsHigher(items[i], d + 1, e + 1);
        }
      case _ =>
    }
  }

  // ----- a list is accepted when each of its elements is -----

  lemma {:induction false} StagesIff(c: Rules, stages: seq<Bson>, d: nat)
    ensures WalkStages(c, stages, d).Ok? <==> forall i :: 0 <= i < |stages| ==> WalkStage(c, stages[i], d).Ok?
  {
    if stages != [] {
      StagesIff(c, stages[1..], d);
      assert forall i :: 0 < i < |stages| ==> stages[i] == stages[1..][i - 1];
    }
  }

  lemma {:induction false} FieldsIff(c: Rules, fields: seq<Field>, d: nat, pos: Pos)
    ensures WalkFields(c, fields, d, pos).Ok? <==> forall i :: 0 <= i < |fields| ==> WalkField(c, fields[i], d, pos).Ok?
  {
    if fields != [] {
      FieldsIff(c, fields[1..], d, pos);
      assert forall i :: 0 < i < |fields| ==> fields[i] == fields[1..][i - 1];
    }
  }

  lemma {:induction false} BranchesIff(c: Rules, branches: seq<Field>, d: nat)
    ensures WalkBranches(c, branches, d).Ok? <==> forall i :: 0 <= i < |branches| ==> WalkBranch(c, branches[i], d).Ok?
  {
    if branches != [] {
      BranchesIff(c, branches[1..], d);
      assert forall i :: 0 < i < |branches| ==> branches[i] == branches[1..][i - 1];
    }
  }

  lemma {:induction false} ItemsIff(c: Rules, items: seq<Bson>, d: nat, pos: Pos)
    ensures WalkItems(c, items, d, pos).Ok? <==> forall i :: 0 <= i < |items| ==> WalkValue(c, items[i], d, pos).Ok?
  {
    if items != [] {
      ItemsIff(c, items[1..], d, pos);
      assert forall i :: 0 < i < |items| ==> items[i] == items[1..][i - 1];
    }
  }

  // ----- the walk, node by node -----

  ghost predicate Stands(t: Tree, path: Path, v: Bson) {
    Sub(t.root, path) == Some(v)
  }

  lemma FieldStands(t: Tree, path: Path, v: Bson, i: nat)
    requires Stands(t, path, v) && v.Document? && i < |v.fields|
    ensures var cp := path + [Into(i, v.fields[i].key)];
            Stands(t, cp, v.fields[i].value) && Up(cp) == path && Last(cp) == Into(i, v.fields[i].key)
  {
    SubAppend(t.root, path, Into(i, v.fields[i].key));
  }

  lemma ItemStands(t: Tree, path: Path, v: Bson, i: nat)
    requires Stands(t, path, v) && v.Array? && i < |v.items|
    ensures var cp := path + [Item(i)]; Stands(t, cp, v.items[i]) && Up(cp) == path && Last(cp) == Item(i)
  {
    SubAppend(t.root, path, Item(i));
  }

  lemma {:induction false} PipelineIff(c: Rules, t: Tree, path: Path, v: Bson, d: nat)
    requires Stands(t, path, v) && v.Array? && IsPipeline(t, path) && !IsStage(t, path) && Fits(v, d)
    ensures WalkPipeline(c, v.items, d).Ok? <==> CleanFrom(c, t, path, v)
    decreases v, 2
  {
    StagesIff(c, v.items, d);
    CleanUnfolds(c, t, path, v);
    forall i | 0 <= i < |v.items|
      ensures WalkStage(c, v.items[i], d).Ok? <==> CleanFrom(c, t, path + [Item(i)], v.items[i])
    {
      ItemStands(t, path, v, i);
      StageIff(c, t, path + [Item(i)], v.items[i], d);
    }
  }

  lemma StageUnfolds(c: Rules, t: Tree, path: Path, v: Bson)
    requires IsStage(t, path)
    ensures CleanFrom(c, t, path, v)
            <==> && v.Document? && |v.fields| == 1
                 && FieldClean(c, t, path, v.fields[0])
                 && CleanFrom(c, t, path + [Into(0, v.fields[0].key)], v.fields[0].value)
  {
    CleanUnfolds(c, t, path, v);
  }

  lemma {:induction false} StageIff(c: Rules, t: Tree, path: Path, v: Bson, d: nat)
    requires Stands(t, path, v) && IsStage(t, path) && Fits(v, d + 1)
    ensures WalkStage(c, v, d).Ok? <==> CleanFrom(c, t, path, v)
    decreases v, 1
  {
    if v.Document? && |v.fields| == 1 {
      FieldStands(t, path, v, 0);
      ValueOfIff(c, t, path, v, 0, d + 1);
    }
    StageUnfolds(c, t, path, v);
  }

  /** A field of a document that is not the value of `$facet`. */
  lemma {:induction false} ValueOfIff(c: Rules, t: Tree, path: Path, v: Bson, i: nat, d: nat)
    requires Stands(t, path, v) && v.Document? && i < |v.fields| && !IsFacet(path)
    requires Fits(v.fields[i].value, d + 1)
    ensures var f := v.fields[i]; var cp := path + [Into(i, f.key)];
            WalkValueOf(c, f, d, PosAt(t, cp)).Ok?
            <==> CheckSource(c, f.key, f.value).Ok? && CleanFrom(c, t, cp, f.value)
    decreases v, 0
  {
    var f := v.fields[i];
    var cp := path + [Into(i, f.key)];
    FieldStands(t, path, v, i);
    if f.key == "$facet" && f.value.Document? {
      FacetIff(c, t, cp, f.value, d);
    } else if f.key == "pipeline" && f.value.Array? {
      PipelineIff(c, t, cp, f.value, d + 1);
    } else {
      ValueIff(c, t, cp, f.value, d);
    }
  }

  lemma {:induction false} FacetIff(c: Rules, t: Tree, path: Path, v: Bson, d: nat)
    requires Stands(t, path, v) && v.Document? && IsFacet(path) && Fits(v, d + 1)
    ensures WalkBranches(c, v.fields, d).Ok? <==> CleanFrom(c, t, path, v)
    decreases v, 1
  {
    BranchesIff(c, v.fields, d);
    CleanUnfolds(c, t, path, v);
    forall i | 0 <= i < |v.fields|
      ensures WalkBranch(c, v.fields[i], d).Ok?
              <==> FieldClean(c, t, path, v.fields[i])
                   && CleanFrom(c, t, path + [Into(i, v.fields[i].key)], v.fields[i].value)
    {
      FieldStands(t, path, v, i);
      if v.fields[i].value.Array? {
        FitsHigher(v.fields[i].value, d + 2, d + 1);
        PipelineIff(c, t, path + [Into(i, v.fields[i].key)], v.fields[i].value, d + 1);
      }
    }
  }

  /** The field `i` of the document `v` at `path` is clean, and so is everything below it. */
  ghost predicate FieldCleanFrom(c: Rules, t: Tree, path: Path, v: Bson, i: nat)
    requires v.Document? && i < |v.fields|
  {
    && FieldClean(c, t, path, v.fields[i])
    && CleanFrom(c, t, path + [Into(i, v.fields[i].key)], v.fields[i].value)
  }

  lemma DocUnfolds(c: Rules, t: Tree, path: Path, v: Bson)
    requires v.Document? && !IsStage(t, path)
    ensures CleanFrom(c, t, path, v) <==> forall i :: 0 <= i < |v.fields| ==> FieldCleanFrom(c, t, path, v, i)
  {
    CleanUnfolds(c, t, path, v);
    if NodeClean(c, t, path, v) && BranchesClean(c, t, path, v) {
      forall i | 0 <= i < |v.fields| ensures FieldCleanFrom(c, t, path, v, i) {
        assert FieldClean(c, t, path, v.fields[i]);
      }
    }
    if forall i :: 0 <= i < |v.fields| ==> FieldCleanFrom(c, t, path, v, i) {
      forall i | 0 <= i < |v.fields|
        ensures FieldClean(c, t, path, v.fields[i])
        ensures CleanFrom(c, t, path + [Into(i, v.fields[i].key)], v.fields[i].value)
      {
        assert FieldCleanFrom(c, t, path, v, i);
      }
    }
  }

  lemma {:induction false} FieldIff(c: Rules, t: Tree, path: Path, v: Bson, i: nat, d: nat)
    requires Stands(t, path, v) && v.Document? && i < |v.fields| && !IsFacet(path) && !IsStage(t, path)
    requires Fits(v.fields[i].value, d + 2)
    ensures WalkField(c, v.fields[i], d, PosAt(t, path)).Ok? <==> FieldCleanFrom(c, t, path, v, i)
    decreases v, 1
  {
    FieldStands(t, path, v, i);
    ValueOfIff(c, t, path, v, i, d + 1);
    assert PosAt(t, path + [Into(i, v.fields[i].key)]) == Below(PosAt(t, path), v.fields[i]);
  }

  lemma {:induction false} DocIff(c: Rules, t: Tree, path: Path, v: Bson, d: nat)
    requires Stands(t, path, v) && v.Document? && !IsFacet(path) && !IsStage(t, path) && Fits(v, d + 1)
    ensures WalkDoc(c, v.fields, d, PosAt(t, path)).Ok? <==> CleanFrom(c, t, path, v)
    decreases v, 2
  {
    FieldsIff(c, v.fields, d, PosAt(t, path));
    DocUnfolds(c, t, path, v);
    forall i | 0 <= i < |v.fields|
      ensures WalkField(c, v.fields[i], d, PosAt(t, path)).Ok? <==> FieldCleanFrom(c, t, path, v, i)
    {
      FieldIff(c, t, path, v, i, d);
    }
  }

  lemma {:induction false} ValueIff(c: Rules, t: Tree, path: Path, v: Bson, d: nat)
    requires Stands(t, path, v) && !IsStage(t, path) && Fits(v, d + 1)
    requires v.Document? ==> !IsFacet(path)
    requires v.Array? ==> !IsPipeline(t, path)
    ensures WalkValue(c, v, d, PosAt(t, path)).Ok? <==> CleanFrom(c, t, path, v)
    decreases v, 3
  {
    if v.Document? {
      DocIff(c, t, path, v, d);
    } else {
      CleanUnfolds(c, t, path, v);
      if v.Array? {
        ItemsIff(c, v.items, d + 1, PosAt(t, path));
        forall i | 0 <= i < |v.items|
          ensures WalkValue(c, v.items[i], d + 1, PosAt(t, path)).Ok?
                  <==> CleanFrom(c, t, path + [Item(i)], v.items[i])
        {
          ItemStands(t, path, v, i);
          ValueIff(c, t, path + [Item(i)], v.items[i], d + 1);
        }
      }
    }
  }

  // ----- requests -----

  /** The nesting a parsed request has: its arguments start one level down. */
  predicate RequestFits(request: Request) {
    match request.op
    case Find(filter, projection, sort, _, _) =>
      && Fits(Document(filter), 1)
      && (projection.Some? ==> Fits(Document(projection.value), 1))
      && (sort.Some? ==> Fits(Document(sort.value), 1))
    case Aggregate(pipeline) => Fits(Array(pipeline), 1)
    case Count(filter) => Fits(Document(filter), 1)
    case Distinct(_, filter) => Fits(Document(filter), 1)
  }

  lemma RootIff(c: Rules, fields: seq<Field>, pos: Pos)
    requires Fits(Document(fields), 1)
    ensures WalkDoc(c, fields, 0, pos).Ok? <==> Clean(c, Tree(Document(fields), false, pos))
  {
    DocIff(c, Tree(Document(fields), false, pos), [], Document(fields), 0);
  }

  lemma TreesOf(request: Request)
    ensures forall t :: t in Trees(request) <==> IsTreeOf(t, request)
  {
  }

  predicate IsTreeOf(t: Tree, request: Request) {
    match request.op
    case Find(filter, projection, sort, _, _) =>
      || t == Tree(Document(filter), false, Strict)
      || (projection.Some? && t == Tree(Document(projection.value), false, Projection))
      || (sort.Some? && t == Tree(Document(sort.value), false, Strict))
    case Aggregate(pipeline) => t == Tree(Array(pipeline), true, Strict)
    case Count(filter) => t == Tree(Document(filter), false, Strict)
    case Distinct(_, filter) => t == Tree(Document(filter), false, Strict)
  }

  /** Within the depth limit, the classifier accepts a request exactly when it is clean. */
  lemma ClassifyIsExact(c: Rules, request: Request)
    requires RequestFits(request)
    ensures Classify(c, request).Ok? <==> CleanRequest(c, request)
  {
    TreesOf(request);
    match request.op {
      case Find(filter, projection, sort, _, _) =>
        RootIff(c, filter, Strict);
        if projection.Some? {
          RootIff(c, projection.value, Projection);
        }
        if sort.Some? {
          RootIff(c, sort.value, Strict);
        }
      case Aggregate(pipeline) =>
        var t := Tree(Array(pipeline), true, Strict);
        FitsHigher(Array(pipeline), 1, 0);
        PipelineIff(c, t, [], Array(pipeline), 0);
        assert t in Trees(request);
      case Count(filter) => RootIff(c, filter, Strict);
      case Distinct(_, filter) => RootIff(c, filter, Strict);
    }
  }
}
