/**
 What an accepted request looks like, said node by node: no walk, no order, no depth counter. A node
 is addressed by the hops that lead to it, and its role is read off the last two hops.
 */
module CleanTrees {
  import opened Outcomes
  import opened Values
  import opened Classifier

  datatype Hop = Into(index: nat, key: string) | Item(index: nat)

  type Path = seq<Hop>

  /** The node at `path`, when the path exists. */
  function Sub(v: Bson, path: Path): Option<Bson>
    decreases |path|
  {
    if path == [] then Some(v)
    else
      match path[0]
      case Into(i, key) =>
        if v.Document? && i < |v.fields| && v.fields[i].key == key then Sub(v.fields[i].value, path[1..]) else None
      case Item(i) =>
        if v.Array? && i < |v.items| then Sub(v.items[i], path[1..]) else None
  }

  /** One tree of a request: whether its root is the pipeline itself, and the position of its root. */
  datatype Tree = Tree(root: Bson, pipeline: bool, pos: Pos)

  function Last(path: Path): Hop
    requires path != []
  {
    path[|path| - 1]
  }

  function Up(path: Path): Path
    requires path != []
  {
    path[..|path| - 1]
  }

  /** A document at this path is the value of `$facet`. */
  predicate IsFacet(path: Path) {
    path != [] && Last(path).Into? && Last(path).key == "$facet"
  }

  /** An array at this path is a pipeline: the query's, a `pipeline` field's, or a `$facet` branch. */
  predicate IsPipeline(t: Tree, path: Path) {
    || (path == [] && t.pipeline)
    || (path != [] && Last(path).Into? && (Last(path).key == "pipeline" || IsFacet(Up(path))))
  }

  /** A node at this path is a stage. */
  predicate IsStage(t: Tree, path: Path) {
    path != [] && Last(path).Item? && IsPipeline(t, Up(path))
  }

  predicate StartsWithDollar(key: string) {
    key != "" && key[0] == '$'
  }

  /** Where the keys of a document at this path sit. */
  function PosAt(t: Tree, path: Path): Pos
    decreases |path|
  {
    if path == [] then t.pos
    else if IsStage(t, path) then Strict
    else if Last(path).Item? then PosAt(t, Up(path))
    else if IsStage(t, Up(path)) then (if Last(path).key == "$project" then Projection else Strict)
    else if PosAt(t, Up(path)) == Projection && !StartsWithDollar(Last(path).key)
            && Sub(t.root, path).Some? && Sub(t.root, path).value.Document? then Projection
    else Strict
  }

  /** What is asked of one field of the document at `path`. */
  predicate FieldClean(c: Rules, t: Tree, path: Path, f: Field) {
    && CheckKey(c, f.key, IsStage(t, path)).Ok?
    && (IsFacet(path) ==> f.value.Array? && (c.pii.Some? ==> CheckName(c, f.key).Ok?))
    && (!IsFacet(path) ==>
          && CheckSource(c, f.key, f.value).Ok?
          && (c.pii.Some? ==> CheckFieldKey(c, f.key, f.value, PosAt(t, path)).Ok?))
    && (IsStage(t, path) && c.pii.Some? ==> CheckStage(c, f.key, f.value).Ok?)
  }

  /** What is asked of the node at `path`. */
  predicate NodeClean(c: Rules, t: Tree, path: Path, v: Bson) {
    && (IsStage(t, path) ==> v.Document? && |v.fields| == 1)
    && match v
       case Document(fields) => forall i :: 0 <= i < |fields| ==> FieldClean(c, t, path, fields[i])
       case String(text) => c.pii.Some? ==> CheckRef(c, text).Ok?
       case _ => true
  }

  /** Every node of the subtree `v`, which stands at `path`, is clean. */
  ghost predicate CleanFrom(c: Rules, t: Tree, path: Path, v: Bson) {
    forall q: Path :: Sub(v, q).Some? ==> NodeClean(c, t, path + q, Sub(v, q).value)
  }

  ghost predicate Clean(c: Rules, t: Tree) {
    CleanFrom(c, t, [], t.root)
  }

  function OptionalTree(doc: Option<seq<Field>>, pos: Pos): seq<Tree> {
    if doc.Some? then [Tree(Document(doc.value), false, pos)] else []
  }

  /** The trees a request consists of. */
  function Trees(request: Request): seq<Tree> {
    match request.op
    case Find(filter, projection, sort, _, _) =>
      [Tree(Document(filter), false, Strict)] + OptionalTree(projection, Projection) + OptionalTree(sort, Strict)
    case Aggregate(pipeline) => [Tree(Array(pipeline), true, Strict)]
    case Count(filter) => [Tree(Document(filter), false, Strict)]
    case Distinct(_, filter) => [Tree(Document(filter), false, Strict)]
  }

  /** The declarative counterpart of the classifier. */
  ghost predicate CleanRequest(c: Rules, request: Request) {
    && (forall t :: t in Trees(request) ==> Clean(c, t))
    && (request.op.Distinct? && c.pii.Some? ==> CheckName(c, request.op.key).Ok?)
  }

  // ----- trees, one hop at a time -----

  ghost predicate BranchesClean(c: Rules, t: Tree, path: Path, v: Bson) {
    match v
    case Document(fields) =>
      forall i :: 0 <= i < |fields| ==> CleanFrom(c, t, path + [Into(i, fields[i].key)], fields[i].value)
    case Array(items) =>
      forall i :: 0 <= i < |items| ==> CleanFrom(c, t, path + [Item(i)], items[i])
    case _ => true
  }

  /** A subtree is clean when its root is, and each subtree one hop below. */
  lemma CleanUnfolds(c: Rules, t: Tree, path: Path, v: Bson)
    ensures CleanFrom(c, t, path, v) <==> NodeClean(c, t, path, v) && BranchesClean(c, t, path, v)
  {
    if CleanFrom(c, t, path, v) {
      assert path + [] == path;
      assert Sub(v, []) == Some(v);
      match v {
        case Document(fields) =>
          forall i | 0 <= i < |fields|
            ensures CleanFrom(c, t, path + [Into(i, fields[i].key)], fields[i].value)
          {
            CleanBelow(c, t, path, v, Into(i, fields[i].key), fields[i].value);
          }
        case Array(items) =>
          forall i | 0 <= i < |items|
            ensures CleanFrom(c, t, path + [Item(i)], items[i])
          {
            CleanBelow(c, t, path, v, Item(i), items[i]);
          }
        case _ =>
      }
    }
    if NodeClean(c, t, path, v) && BranchesClean(c, t, path, v) {
      forall q: Path | Sub(v, q).Some?
        ensures NodeClean(c, t, path + q, Sub(v, q).value)
      {
        if q == [] {
          assert path + q == path;
        } else {
          assert path + q == path + [q[0]] + q[1..];
        }
      }
    }
  }

  lemma CleanBelow(c: Rules, t: Tree, path: Path, v: Bson, hop: Hop, child: Bson)
    requires CleanFrom(c, t, path, v)
    requires forall q: Path :: Sub(v, [hop] + q) == Sub(child, q)
    ensures CleanFrom(c, t, path + [hop], child)
  {
    forall q: Path | Sub(child, q).Some?
      ensures NodeClean(c, t, path + [hop] + q, Sub(child, q).value)
    {
      assert Sub(v, [hop] + q) == Sub(child, q);
      assert path + [hop] + q == path + ([hop] + q);
    }
  }

  lemma SubAppend(v: Bson, path: Path, hop: Hop)
    ensures Sub(v, path + [hop])
            == match Sub(v, path)
               case Some(w) => Sub(w, [hop])
               case None => None
    decreases |path|
  {
    if path == [] {
      assert path + [hop] == [hop];
    } else {
      assert (path + [hop])[0] == path[0] && (path + [hop])[1..] == path[1..] + [hop];
      match path[0]
      case Into(i, key) =>
        if v.Document? && i < |v.fields| && v.fields[i].key == key {
          SubAppend(v.fields[i].value, path[1..], hop);
        }
      case Item(i) =>
        if v.Array? && i < |v.items| {
          SubAppend(v.items[i], path[1..], hop);
        }
    }
  }
}
