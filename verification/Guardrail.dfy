/** The PostgreSQL plan as the guardrail reads it, and the verdict on an estimate. */
module Guardrail {
  import opened Outcomes
  import opened Numbers

  /** A JSON plan. Numbers are reals; what a numeric string denotes is left to the caller's `parse`. */
  datatype Plan =
    | Object(fields: seq<Entry>)
    | List(items: seq<Plan>)
    | Number(x: real)
    | Text(s: string)
    | Other

  datatype Entry = Entry(key: string, value: Plan)

  type NumberParser = string -> Option<real>

  function Lookup(fields: seq<Entry>, key: string): Option<Plan> {
    if fields == [] then None
    else if fields[0].key == key then Some(fields[0].value)
    else Lookup(fields[1..], key)
  }

  function NumberOf(parse: NumberParser, v: Option<Plan>): Option<real> {
    match v
    case Some(Number(x)) => Some(x)
    case Some(Text(s)) => parse(s)
    case _ => None
  }

  /** A row count: no less than zero, no more than 64 bits hold. */
  function ClampRows(x: real): nat {
    if x < 0.0 then 0 else Min(x.Floor, U64_MAX)
  }

  function RowsFrom(parse: NumberParser, v: Option<Plan>): Option<nat> {
    match NumberOf(parse, v)
    case Some(x) => Some(ClampRows(x))
    case None => None
  }

  // ----- the two searches of the tree -----

  function MaxOption(a: Option<nat>, b: Option<nat>): Option<nat> {
    match (a, b)
    case (Some(m), Some(n)) => Some(Max(m, n))
    case (Some(_), None) => a
    case _ => b
  }

  function RowsHere(parse: NumberParser, v: Plan): Option<nat> {
    if v.Object? then RowsFrom(parse, Lookup(v.fields, "Plan Rows")) else None
  }

  /** The largest `Plan Rows` anywhere in the plan. */
  function MaxPlanRows(parse: NumberParser, v: Plan): Option<nat>
    decreases v, 0
  {
    match v
    case Object(fields) => MaxOption(RowsHere(parse, v), MaxInFields(parse, fields))
    case List(items) => MaxInItems(parse, items)
    case _ => None
  }

  function MaxInFields(parse: NumberParser, fields: seq<Entry>): Option<nat>
    decreases fields, 1
  {
    if fields == [] then None else MaxOption(MaxPlanRows(parse, fields[0].value), MaxInFields(parse, fields[1..]))
  }

  function MaxInItems(parse: NumberParser, items: seq<Plan>): Option<nat>
    decreases items, 1
  {
    if items == [] then None else MaxOption(MaxPlanRows(parse, items[0]), MaxInItems(parse, items[1..]))
  }

  predicate IsNode(v: Plan, name: string) {
    v.Object? && Lookup(v.fields, "Node Type") == Some(Text(name))
  }

  predicate ContainsNodeType(v: Plan, name: string)
    decreases v
  {
    match v
    case Object(fields) =>
      IsNode(v, name) || exists i :: 0 <= i < |fields| && ContainsNodeType(fields[i].value, name)
    case List(items) => exists i :: 0 <= i < |items| && ContainsNodeType(items[i], name)
    case _ => false
  }

  // ----- the same, by paths -----

  type Path = seq<nat>

  /** The subtree reached by taking the `path[0]`-th child, and so on. */
  function At(v: Plan, path: Path): Option<Plan>
    decreases |path|
  {
    if path == [] then Some(v)
    else
      match v
      case Object(fields) => if path[0] < |fields| then At(fields[path[0]].value, path[1..]) else None
      case List(items) => if path[0] < |items| then At(items[path[0]], path[1..]) else None
      case _ => None
  }

  predicate NoMoreThan(a: Option<nat>, b: Option<nat>) {
    a.Some? ==> b.Some? && a.value <= b.value
  }

  /** No node of the plan claims more rows. */
  lemma {:induction false} MaxIsUpperBound(parse: NumberParser, v: Plan, path: Path)
    requires At(v, path).Some?
    ensures NoMoreThan(RowsHere(parse, At(v, path).value), MaxPlanRows(parse, v))
    decreases |path|
  {
    if path != [] {
      match v {
        case Object(fields) =>
          MaxIsUpperBound(parse, fields[path[0]].value, path[1..]);
          FieldCounts(parse, fields, path[0]);
        case List(items) =>
          MaxIsUpperBound(parse, items[path[0]], path[1..]);
          ItemCounts(parse, items, path[0]);
      }
    }
  }

  lemma {:induction false} FieldCounts(parse: NumberParser, fields: seq<Entry>, i: nat)
    requires i < |fields|
    ensures NoMoreThan(MaxPlanRows(parse, fields[i].value), MaxInFields(parse, fields))
  {
    if i > 0 {
      FieldCounts(parse, fields[1..], i - 1);
    }
  }

  lemma {:induction false} ItemCounts(parse: NumberParser, items: seq<Plan>, i: nat)
    requires i < |items|
    ensures NoMoreThan(MaxPlanRows(parse, items[i]), MaxInItems(parse, items))
  {
    if i > 0 {
      ItemCounts(parse, items[1..], i - 1);
    }
  }

  /** And some node claims as many. */
  lemma {:induction false} MaxIsAttained(parse: NumberParser, v: Plan) returns (path: Path)
    requires MaxPlanRows(parse, v).Some?
    ensures At(v, path).Some? && RowsHere(parse, At(v, path).value) == MaxPlanRows(parse, v)
    decreases v
  {
    match v {
      case Object(fields) =>
        if RowsHere(parse, v) == MaxPlanRows(parse, v) {
          path := [];
        } else {
          var i := FieldAttains(parse, fields);
          var below := MaxIsAttained(parse, fields[i].value);
          path := [i] + below;
          assert path[1..] == below;
        }
      case List(items) =>
        var i := ItemAttains(parse, items);
        var below := MaxIsAttained(parse, items[i]);
        path := [i] + below;
        assert path[1..] == below;
    }
  }

  lemma {:induction false} FieldAttains(parse: NumberParser, fields: seq<Entry>) returns (i: nat)
    requires MaxInFields(parse, fields).Some?
    ensures i < |fields| && MaxPlanRows(parse, fields[i].value) == MaxInFields(parse, fields)
  {
    if MaxPlanRows(parse, fields[0].value) == MaxInFields(parse, fields) {
      i := 0;
    } else {
      i := FieldAttains(parse, fields[1..]);
      i := i + 1;
    }
  }

  lemma {:induction false} ItemAttains(parse: NumberParser, items: seq<Plan>) returns (i: nat)
    requires MaxInItems(parse, items).Some?
    ensures i < |items| && MaxPlanRows(parse, items[i]) == MaxInItems(parse, items)
  {
    if MaxPlanRows(parse, items[0]) == MaxInItems(parse, items) {
      i := 0;
    } else {
      i := ItemAttains(parse, items[1..]);
      i := i + 1;
    }
  }

  // ----- estimates and verdicts -----

  datatype Mode = Off | Cost | Rows

  datatype Guard = Guard(mode: Mode, maxCost: real, maxRows: nat)

  datatype Estimate = Estimate(cost: Option<real>, rows: Option<nat>, lowerBound: bool)

  datatype Check = Affordable | Expensive | NoEstimate

  /** The top node of `EXPLAIN (FORMAT JSON)`. */
  function Top(plan: Plan): Option<Plan> {
    if plan.List? && plan.items != [] && plan.items[0].Object? then Lookup(plan.items[0].fields, "Plan") else None
  }

  function TopCost(parse: NumberParser, plan: Plan): Option<real> {
    match Top(plan)
    case Some(Object(fields)) => NumberOf(parse, Lookup(fields, "Total Cost"))
    case _ => None
  }

  function PostgresEstimate(parse: NumberParser, plan: Plan): Estimate {
    Estimate(TopCost(parse, plan), MaxPlanRows(parse, plan), ContainsNodeType(plan, "Recursive Union"))
  }

  /** The object has the key once, and this value under it. */
  ghost predicate Has(v: Plan, key: string, value: Plan) {
    && v.Object? && Entry(key, value) in v.fields
    && forall e :: e in v.fields && e.key == key ==> e.value == value
  }

  lemma {:induction false} HeldIsFound(fields: seq<Entry>, key: string, value: Plan)
    requires Has(Object(fields), key, value)
    ensures Lookup(fields, key) == Some(value)
  {
    if fields[0].key != key {
      var rest := Object(fields[1..]);
      assert forall e :: e in rest.fields ==> e in fields;
      HeldIsFound(fields[1..], key, value);
    }
  }

  /** The cost is the total of the top node of the first plan. */
  lemma CostIsTheTopTotal(parse: NumberParser, plan: Plan, top: Plan, cost: real)
    requires plan.List? && plan.items != [] && Has(plan.items[0], "Plan", top) && Has(top, "Total Cost", Number(cost))
    ensures PostgresEstimate(parse, plan).cost == Some(cost)
  {
    HeldIsFound(plan.items[0].fields, "Plan", top);
    HeldIsFound(top.fields, "Total Cost", Number(cost));
  }

  /** The rows are no fewer than any node, however deep, claims. */
  lemma RowsCoverEveryNode(parse: NumberParser, plan: Plan, path: Path, rows: real)
    requires At(plan, path).Some? && Has(At(plan, path).value, "Plan Rows", Number(rows)) && rows >= 0.0
    ensures var e := PostgresEstimate(parse, plan); e.rows.Some? && e.rows.value >= Min(rows.Floor, U64_MAX)
  {
    HeldIsFound(At(plan, path).value.fields, "Plan Rows", Number(rows));
    MaxIsUpperBound(parse, plan, path);
  }

  /** A recursive union anywhere makes the estimate a lower bound. */
  lemma RecursionIsSeen(parse: NumberParser, plan: Plan, path: Path)
    requires At(plan, path).Some? && Has(At(plan, path).value, "Node Type", Text("Recursive Union"))
    ensures PostgresEstimate(parse, plan).lowerBound
  {
    HeldIsFound(At(plan, path).value.fields, "Node Type", Text("Recursive Union"));
    NodeIsFound(plan, path, "Recursive Union");
  }

  function CheckOf(g: Guard, e: Estimate): Check {
    var measured :=
      match g.mode
      case Off => NoEstimate
      case Cost => if e.cost.None? then NoEstimate else if e.cost.value > g.maxCost then Expensive else Affordable
      case Rows => if e.rows.None? then NoEstimate else if e.rows.value > g.maxRows then Expensive else Affordable;
    if measured == Expensive then Expensive
    else if e.lowerBound then NoEstimate
    else measured
  }

  predicate Refuses(g: Guard, e: Estimate) {
    CheckOf(g, e) == Expensive
  }

  /** The number the active mode compares, and its limit, as reals. */
  function Measured(g: Guard, e: Estimate): Option<real> {
    match g.mode
    case Off => None
    case Cost => e.cost
    case Rows => if e.rows.Some? then Some(e.rows.value as real) else None
  }

  function Limit(g: Guard): real {
    if g.mode == Cost then g.maxCost else g.maxRows as real
  }

  predicate CostNotLowered(before: Estimate, after: Estimate) {
    before.cost.Some? ==> after.cost.Some? && before.cost.value <= after.cost.value
  }

  /** An estimate that is nowhere smaller and nowhere better known is refused whenever the smaller one is. */
  lemma RefusalIsMonotone(g: Guard, a: Estimate, b: Estimate)
    requires NoMoreThan(a.rows, b.rows) && CostNotLowered(a, b) && (a.lowerBound ==> b.lowerBound)
    ensures Refuses(g, a) ==> Refuses(g, b)
    ensures CheckOf(g, b) == Affordable ==> CheckOf(g, a) == Affordable || Measured(g, a) == None
  {
  }

  /** The three verdicts on a plan, each exactly when. */
  lemma VerdictMeans(g: Guard, parse: NumberParser, plan: Plan)
    ensures var e := PostgresEstimate(parse, plan); var m := Measured(g, e);
            && (CheckOf(g, e) == Expensive <==> m.Some? && m.value > Limit(g))
            && (CheckOf(g, e) == Affordable
                <==> && m.Some? && m.value <= Limit(g)
                     && forall path: Path :: At(plan, path).Some? ==> !IsNode(At(plan, path).value, "Recursive Union"))
  {
    if ContainsNodeType(plan, "Recursive Union") {
      var path := NodeIsSomewhere(plan, "Recursive Union");
      assert IsNode(At(plan, path).value, "Recursive Union");
    } else {
      forall path: Path | At(plan, path).Some?
        ensures !IsNode(At(plan, path).value, "Recursive Union")
      {
        NodeIsFound(plan, path, "Recursive Union");
      }
    }
  }

  lemma {:induction false} NodeIsSomewhere(v: Plan, name: string) returns (path: Path)
    requires ContainsNodeType(v, name)
    ensures At(v, path).Some? && IsNode(At(v, path).value, name)
    decreases v
  {
    if IsNode(v, name) {
      path := [];
    } else {
      match v {
        case Object(fields) =>
          var i :| 0 <= i < |fields| && ContainsNodeType(fields[i].value, name);
          var below := NodeIsSomewhere(fields[i].value, name);
          path := [i] + below;
          assert path[1..] == below;
        case List(items) =>
          var i :| 0 <= i < |items| && ContainsNodeType(items[i], name);
          var below := NodeIsSomewhere(items[i], name);
          path := [i] + below;
          assert path[1..] == below;
      }
    }
  }

  lemma {:induction false} NodeIsFound(v: Plan, path: Path, name: string)
    requires At(v, path).Some?
    ensures IsNode(At(v, path).value, name) ==> ContainsNodeType(v, name)
    decreases |path|
  {
    if path != [] {
      match v {
        case Object(fields) => NodeIsFound(fields[path[0]].value, path[1..], name);
        case List(items) => NodeIsFound(items[path[0]], path[1..], name);
      }
    }
  }

  // ----- grafting -----

  /** Where a subtree is inserted: somewhere below, or here, before the `i`-th child. */
  datatype Place = Below(i: nat, rest: Place) | Here(i: nat, key: string)

  /** The place exists; in an object the key is a new one. */
  predicate Fits(v: Plan, place: Place)
    decreases place
  {
    match place
    case Below(i, rest) =>
      || (v.Object? && i < |v.fields| && Fits(v.fields[i].value, rest))
      || (v.List? && i < |v.items| && Fits(v.items[i], rest))
    case Here(i, key) =>
      || (v.Object? && i <= |v.fields| && Lookup(v.fields, key).None?)
      || (v.List? && i <= |v.items|)
  }

  function Graft(v: Plan, place: Place, branch: Plan): Plan
    requires Fits(v, place)
    decreases place
  {
    match place
    case Below(i, rest) =>
      if v.Object? then
        Object(v.fields[i := Entry(v.fields[i].key, Graft(v.fields[i].value, rest, branch))])
      else
        List(v.items[i := Graft(v.items[i], rest, branch)])
    case Here(i, key) =>
      if v.Object? then Object(v.fields[..i] + [Entry(key, branch)] + v.fields[i..])
      else List(v.items[..i] + [branch] + v.items[i..])
  }

  lemma {:induction false} LookupInserted(fields: seq<Entry>, i: nat, e: Entry, key: string)
    requires i <= |fields| && Lookup(fields, e.key).None?
    ensures Lookup(fields[..i] + [e] + fields[i..], key) == if key == e.key then Some(e.value) else Lookup(fields, key)
  {
    var grown := fields[..i] + [e] + fields[i..];
    if i == 0 {
      assert grown == [e] + fields;
    } else {
      assert grown[0] == fields[0] && grown[1..] == fields[1..][..i - 1] + [e] + fields[1..][i - 1..];
      LookupInserted(fields[1..], i - 1, e, key);
    }
  }

  lemma {:induction false} LookupReplaced(fields: seq<Entry>, i: nat, value: Plan, key: string)
    requires i < |fields|
    ensures var after := Lookup(fields[i := Entry(fields[i].key, value)], key);
            || after == Lookup(fields, key)
            || (fields[i].key == key && after == Some(value) && Lookup(fields, key) == Some(fields[i].value))
  {
    if i > 0 && fields[0].key != key {
      assert fields[i := Entry(fields[i].key, value)][1..] == fields[1..][i - 1 := Entry(fields[i].key, value)];
      LookupReplaced(fields[1..], i - 1, value, key);
    }
  }

  /** A node keeps its own claim, whatever is grafted below or into it. */
  lemma RowsHereKept(parse: NumberParser, v: Plan, place: Place, branch: Plan)
    requires Fits(v, place)
    ensures NoMoreThan(RowsHere(parse, v), RowsHere(parse, Graft(v, place, branch)))
    ensures forall name :: IsNode(v, name) ==> IsNode(Graft(v, place, branch), name)
  {
    if v.Object? {
      match place {
        case Here(i, key) =>
          LookupInserted(v.fields, i, Entry(key, branch), "Plan Rows");
          LookupInserted(v.fields, i, Entry(key, branch), "Node Type");
        case Below(i, rest) =>
          var grown := Graft(v.fields[i].value, rest, branch);
          LookupReplaced(v.fields, i, grown, "Plan Rows");
          LookupReplaced(v.fields, i, grown, "Node Type");
      }
    }
  }

  /** The nodes of a plan are still there after a graft, and claim as much. */
  lemma {:induction false} GraftKeepsNode(parse: NumberParser, v: Plan, place: Place, branch: Plan, path: Path)
    returns (moved: Path)
    requires Fits(v, place) && At(v, path).Some?
    ensures var g := Graft(v, place, branch);
            && At(g, moved).Some?
            && NoMoreThan(RowsHere(parse, At(v, path).value), RowsHere(parse, At(g, moved).value))
            && forall name :: IsNode(At(v, path).value, name) ==> IsNode(At(g, moved).value, name)
    decreases |path|
  {
    if path == [] {
      moved := [];
      RowsHereKept(parse, v, place, branch);
    } else {
      var k := path[0];
      match place {
        case Here(i, key) =>
          moved := [if k < i then k else k + 1] + path[1..];
          assert moved[1..] == path[1..];
        case Below(i, rest) =>
          if k != i {
            moved := path;
          } else {
            var child := if v.Object? then v.fields[i].value else v.items[i];
            var below := GraftKeepsNode(parse, child, rest, branch, path[1..]);
            moved := [i] + below;
            assert moved[1..] == below;
          }
      }
    }
  }

  /** Inserting any subtree anywhere hides no row count and no node. */
  lemma GraftHidesNothing(parse: NumberParser, v: Plan, place: Place, branch: Plan, name: string)
    requires Fits(v, place)
    ensures NoMoreThan(MaxPlanRows(parse, v), MaxPlanRows(parse, Graft(v, place, branch)))
    ensures ContainsNodeType(v, name) ==> ContainsNodeType(Graft(v, place, branch), name)
  {
    var g := Graft(v, place, branch);
    if MaxPlanRows(parse, v).Some? {
      var path := MaxIsAttained(parse, v);
      var moved := GraftKeepsNode(parse, v, place, branch, path);
      MaxIsUpperBound(parse, g, moved);
    }
    if ContainsNodeType(v, name) {
      var path := NodeIsSomewhere(v, name);
      var moved := GraftKeepsNode(parse, v, place, branch, path);
      NodeIsFound(g, moved, name);
    }
  }

  /** What a graft makes of the value under a key: nothing, or a graft into that value. */
  lemma LookupGrafted(fields: seq<Entry>, place: Place, branch: Plan, key: string)
    requires Fits(Object(fields), place) && Lookup(fields, key).Some?
    ensures var before := Lookup(fields, key).value;
            var after := Lookup(Graft(Object(fields), place, branch).fields, key);
            || after == Some(before)
            || (place.Below? && Fits(before, place.rest) && after == Some(Graft(before, place.rest, branch)))
  {
    match place {
      case Here(i, name) => LookupInserted(fields, i, Entry(name, branch), key);
      case Below(i, rest) => LookupReplaced(fields, i, Graft(fields[i].value, rest, branch), key);
    }
  }

  lemma CostOfTopKept(parse: NumberParser, top: seq<Entry>, place: Place, branch: Plan)
    requires Fits(Object(top), place) && NumberOf(parse, Lookup(top, "Total Cost")).Some?
    ensures Lookup(Graft(Object(top), place, branch).fields, "Total Cost") == Lookup(top, "Total Cost")
  {
    LookupGrafted(top, place, branch, "Total Cost");
  }

  /** The graft comes before the plan itself. */
  predicate InFront(plan: Plan, place: Place) {
    plan.List? && place.Here? && place.i == 0
  }

  /** A graft that is not put before the whole plan leaves the cost of the top node as it is. */
  lemma GraftKeepsCost(parse: NumberParser, plan: Plan, place: Place, branch: Plan)
    requires Fits(plan, place) && !InFront(plan, place) && TopCost(parse, plan).Some?
    ensures TopCost(parse, Graft(plan, place, branch)) == TopCost(parse, plan)
  {
    if place.Below? && place.i == 0 {
      var root := plan.items[0].fields;
      LookupGrafted(root, place.rest, branch, "Plan");
      if place.rest.Below? && Fits(Top(plan).value, place.rest.rest) {
        CostOfTopKept(parse, Top(plan).value.fields, place.rest.rest, branch);
      }
    }
  }

  /** In front of the plan, the graft is the plan whose cost counts. */
  lemma FrontGraftDecides(parse: NumberParser, plan: Plan, place: Place, branch: Plan)
    requires Fits(plan, place) && InFront(plan, place)
    ensures TopCost(parse, Graft(plan, place, branch)) == TopCost(parse, List([branch]))
  {
  }

  /**
   No graft turns a refusal into a run, in any mode, unless the mode compares costs and the graft is
   put in front of the plan with a lower cost of its own.
   */
  lemma GraftCannotHide(g: Guard, parse: NumberParser, plan: Plan, place: Place, branch: Plan)
    requires Fits(plan, place)
    ensures var before, after := PostgresEstimate(parse, plan), PostgresEstimate(parse, Graft(plan, place, branch));
            && NoMoreThan(before.rows, after.rows)
            && (Refuses(g, before) ==>
                  (Refuses(g, after) <==>
                     !(g.mode == Cost && InFront(plan, place)
                       && !Refuses(g, PostgresEstimate(parse, List([branch]))))))
  {
    var before, after := PostgresEstimate(parse, plan), PostgresEstimate(parse, Graft(plan, place, branch));
    GraftHidesNothing(parse, plan, place, branch, "Recursive Union");
    if InFront(plan, place) {
      FrontGraftDecides(parse, plan, place, branch);
    } else if before.cost.Some? {
      GraftKeepsCost(parse, plan, place, branch);
    }
    if g.mode != Cost || !InFront(plan, place) {
      RefusalIsMonotone(g, before.(cost := if g.mode == Cost then before.cost else None), after);
    }
  }
}
