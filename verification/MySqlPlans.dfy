/**
 What the row estimate of a MySQL plan means, over the row counts the server printed: one step, the steps
 of one select, and plans put together.
 */
module MySqlPlans {
  import opened Outcomes
  import opened Numbers
  import opened MySqlEstimate

  // ----- one step -----

  /** A plan of one step with a row count estimates that count, and at least one row. */
  lemma OneStep(row: PlanRow)
    requires row.rows.Some?
    ensures Estimate([row]) == Some(Min(Max(row.rows.value, 1), U64_MAX))
  {
    assert row in [row] && StepOf(row).Some?;
    assert row.id in Ids([row]);
    OneSelect([row]);
    assert [row][..0] == [];
  }

  /** The estimate covers every row count the plan prints. */
  lemma EstimateCoversStep(rows: seq<PlanRow>, k: nat)
    requires k < |rows| && rows[k].rows.Some?
    ensures Estimate(rows).Some? && Estimate(rows).value >= Min(rows[k].rows.value, U64_MAX)
  {
    var id := rows[k].id;
    assert rows[k] in rows && StepOf(rows[k]).Some?;
    assert [rows[k]][..0] == [];
    ProductWithout(rows, k, id);
    TimesGrows(Product([rows[k]], id), Product(rows[..k] + rows[k + 1..], id));
    EstimateCovers(rows, id);
  }

  /** A step that reads no table and prints no count stands for one row. */
  lemma TablelessIsOneRow(rows: seq<PlanRow>, row: PlanRow)
    requires row.rows.None? && row.tableless
    ensures Estimate(rows + [row]) == Estimate(rows + [row.(rows := Some(1))])
  {
    GroupsGrow(rows, row);
    GroupsGrow(rows, row.(rows := Some(1)));
  }

  /** Any other step that prints no count says nothing. */
  lemma SilentStepIsIgnored(rows: seq<PlanRow>, row: PlanRow)
    requires row.rows.None? && !row.tableless
    ensures Estimate(rows + [row]) == Estimate(rows)
  {
    GroupsGrow(rows, row);
  }

  /** There is no estimate exactly when no step says anything. */
  lemma NoEstimate(rows: seq<PlanRow>)
    ensures Estimate(rows).None? <==> forall row :: row in rows ==> row.rows.None? && !row.tableless
  {
    assert forall row :: row in rows && StepOf(row).Some? ==> row.id in Ids(rows);
  }

  // ----- one select -----

  predicate AllIn(rows: seq<PlanRow>, id: string) {
    forall row :: row in rows ==> row.id == id
  }

  /** A plan of one select estimates the product of its steps. */
  lemma OneSelect(rows: seq<PlanRow>)
    requires rows != [] && AllIn(rows, rows[0].id)
    requires Ids(rows) != {}
    ensures Estimate(rows) == Some(Min(Product(rows, rows[0].id), U64_MAX))
  {
    var id := rows[0].id;
    assert Ids(rows) == {id};
    OneGroup(id, Groups(rows));
  }

  lemma OneGroup(id: string, groups: map<string, Group>)
    requires id in groups
    ensures Added({id}, groups) == Addend(groups[id]) && Multiplied({id}, groups) == Factor(groups[id])
  {
    AddedTakes({id}, groups, id);
    MultipliedTakes({id}, groups, id);
    assert {id} - {id} == {};
  }

  /** The steps of one select are joined: one more multiplies what the others estimate. */
  lemma StepsMultiply(steps: seq<PlanRow>, row: PlanRow)
    requires AllIn(steps, row.id) && row.rows.Some? && Estimate(steps).Some?
    ensures Estimate(steps + [row]) == Some(Min(Estimate(steps).value * Max(row.rows.value, 1), U64_MAX))
  {
    var all := steps + [row];
    assert row in all;
    assert forall r :: r in all ==> r in steps || r == row;
    OneSelect(steps);
    OneSelect(all);
    OneMoreRow(steps, row, row.id);
    CapTimes(Product(steps, row.id), Max(row.rows.value, 1), U64_MAX);
  }

  lemma CapTimes(x: nat, y: nat, cap: nat)
    requires x >= 1 && y >= 1
    ensures Min(Min(x, cap) * y, cap) == Min(x * y, cap)
  {
    if x > cap {
      TimesGrows(x, y);
      if cap > 0 {
        TimesGrows(cap, y);
      }
    }
  }

  // ----- plans put together -----

  /** No step of one plan is in a select of the other. */
  predicate Apart(a: seq<PlanRow>, b: seq<PlanRow>) {
    forall r, s :: r in a && s in b ==> r.id != s.id
  }

  lemma IdsTogether(a: seq<PlanRow>, b: seq<PlanRow>)
    ensures Ids(a + b) == Ids(a) + Ids(b)
  {
  }

  lemma SelectOfFirst(a: seq<PlanRow>, b: seq<PlanRow>, id: string)
    requires forall row :: row in b ==> row.id != id
    ensures Product(a + b, id) == Product(a, id) && IsDependent(a + b, id) == IsDependent(a, id)
    ensures id in Ids(a + b) <==> id in Ids(a)
  {
    ProductAppend(a, b, id);
    ProductOfNone(b, id);
  }

  lemma SelectOfSecond(a: seq<PlanRow>, b: seq<PlanRow>, id: string)
    requires forall row :: row in a ==> row.id != id
    ensures Product(a + b, id) == Product(b, id) && IsDependent(a + b, id) == IsDependent(b, id)
    ensures id in Ids(a + b) <==> id in Ids(b)
  {
    ProductAppend(a, b, id);
    ProductOfNone(a, id);
  }

  /** Each plan keeps its groups. */
  lemma GroupsTogether(a: seq<PlanRow>, b: seq<PlanRow>)
    requires Apart(a, b)
    ensures Ids(a) !! Ids(b) && Ids(a + b) == Ids(a) + Ids(b)
    ensures forall id :: id in Ids(a) ==> Groups(a + b)[id] == Groups(a)[id]
    ensures forall id :: id in Ids(b) ==> Groups(a + b)[id] == Groups(b)[id]
  {
    IdsTogether(a, b);
    forall id | id in Ids(a)
      ensures Groups(a + b)[id] == Groups(a)[id]
    {
      SelectOfFirst(a, b, id);
    }
    forall id | id in Ids(b)
      ensures Groups(a + b)[id] == Groups(b)[id]
    {
      SelectOfSecond(a, b, id);
    }
  }

  lemma {:induction false} SumOverUnion(x: set<string>, y: set<string>, groups: map<string, Group>)
    requires x !! y && x + y <= groups.Keys
    ensures Added(x + y, groups) == Added(x, groups) + Added(y, groups)
    decreases |x|
  {
    if x == {} {
      assert x + y == y;
    } else {
      var id :| id in x;
      SumOverUnion(x - {id}, y, groups);
      assert x + y - {id} == (x - {id}) + y;
      AddedTakes(x + y, groups, id);
      AddedTakes(x, groups, id);
    }
  }

  lemma {:induction false} ProductOverUnion(x: set<string>, y: set<string>, groups: map<string, Group>)
    requires x !! y && x + y <= groups.Keys
    ensures Multiplied(x + y, groups) == Multiplied(x, groups) * Multiplied(y, groups)
    decreases |x|
  {
    if x == {} {
      assert x + y == y;
    } else {
      var id :| id in x;
      ProductOverUnion(x - {id}, y, groups);
      assert x + y - {id} == (x - {id}) + y;
      MultipliedTakes(x + y, groups, id);
      MultipliedTakes(x, groups, id);
      Regroup(Factor(groups[id]), Multiplied(x - {id}, groups), Multiplied(y, groups));
    }
  }

  lemma {:induction false} SameGroups(ids: set<string>, a: map<string, Group>, b: map<string, Group>)
    requires ids <= a.Keys && ids <= b.Keys && forall id :: id in ids ==> a[id] == b[id]
    ensures Added(ids, a) == Added(ids, b) && Multiplied(ids, a) == Multiplied(ids, b)
    decreases |ids|
  {
    if ids != {} {
      var id :| id in ids;
      SameGroups(ids - {id}, a, b);
      AddedTakes(ids, a, id);
      AddedTakes(ids, b, id);
      MultipliedTakes(ids, a, id);
      MultipliedTakes(ids, b, id);
    }
  }

  ghost function SumOf(rows: seq<PlanRow>): nat {
    Added(Ids(rows), Groups(rows))
  }

  lemma StillAnEstimate(a: seq<PlanRow>, b: seq<PlanRow>)
    requires Estimate(a).Some?
    ensures Estimate(a + b).Some?
  {
    IdsTogether(a, b);
  }

  lemma WorkTogether(a: seq<PlanRow>, b: seq<PlanRow>)
    requires Apart(a, b)
    ensures SumOf(a + b) == SumOf(a) + SumOf(b)
    ensures Multiplied(Ids(a + b), Groups(a + b)) == Multiplied(Ids(a), Groups(a)) * Multiplied(Ids(b), Groups(b))
  {
    GroupsTogether(a, b);
    SumOverUnion(Ids(a), Ids(b), Groups(a + b));
    ProductOverUnion(Ids(a), Ids(b), Groups(a + b));
    SameGroups(Ids(a), Groups(a + b), Groups(a));
    SameGroups(Ids(b), Groups(a + b), Groups(b));
  }

  /** A select that is run again for every row around it has no step of more than one row. */
  predicate Adds(rows: seq<PlanRow>) {
    forall r, s :: r in rows && s in rows && r.id == s.id && r.dependent && s.rows.Some? ==> s.rows.value <= 1
  }

  lemma {:induction false} ProductOfOnes(rows: seq<PlanRow>, id: string)
    requires forall row :: row in rows && row.id == id && row.rows.Some? ==> row.rows.value <= 1
    ensures Product(rows, id) == 1
  {
    if rows != [] {
      assert rows[|rows| - 1] in rows;
      assert forall row :: row in rows[..|rows| - 1] ==> row in rows;
      ProductOfOnes(rows[..|rows| - 1], id);
    }
  }

  lemma {:induction false} NothingMultiplies(ids: set<string>, groups: map<string, Group>)
    requires ids <= groups.Keys && forall id :: id in ids ==> !Multiplies(groups[id]) && groups[id].rows >= 1
    ensures Multiplied(ids, groups) == 1 && (ids != {} ==> Added(ids, groups) >= 1)
    decreases |ids|
  {
    if ids != {} {
      var id :| id in ids;
      NothingMultiplies(ids - {id}, groups);
      MultipliedTakes(ids, groups, id);
      AddedTakes(ids, groups, id);
    }
  }

  lemma AddsMeansSum(rows: seq<PlanRow>)
    requires Adds(rows) && Estimate(rows).Some?
    ensures Estimate(rows) == Some(Min(SumOf(rows), U64_MAX))
  {
    forall id | id in Ids(rows)
      ensures !Multiplies(Groups(rows)[id])
    {
      if IsDependent(rows, id) {
        ProductOfOnes(rows, id);
      }
    }
    NothingMultiplies(Ids(rows), Groups(rows));
  }

  lemma AddsTogether(a: seq<PlanRow>, b: seq<PlanRow>)
    requires Apart(a, b) && Adds(a) && Adds(b)
    ensures Adds(a + b)
  {
    forall r, s | r in a + b && s in a + b && r.id == s.id && r.dependent && s.rows.Some?
      ensures s.rows.value <= 1
    {
      assert (r in a && s in a) || (r in b && s in b);
    }
  }

  /** Independent work adds up, and so do the dependent selects of a single row. */
  lemma SelectsAdd(a: seq<PlanRow>, b: seq<PlanRow>)
    requires Apart(a, b) && Adds(a) && Adds(b) && Estimate(a).Some? && Estimate(b).Some?
    ensures Estimate(a + b) == Some(Min(Estimate(a).value + Estimate(b).value, U64_MAX))
  {
    StillAnEstimate(a, b);
    WorkTogether(a, b);
    AddsMeansSum(a);
    AddsMeansSum(b);
    AddsTogether(a, b);
    AddsMeansSum(a + b);
  }

  /** A dependent select of more than one row is done over again for every row around it. */
  lemma DependentMultiplies(a: seq<PlanRow>, b: seq<PlanRow>)
    requires Apart(a, b) && Estimate(a).Some? && b != [] && AllIn(b, b[0].id)
    requires exists row :: row in b && row.dependent && (row.rows.Some? || row.tableless)
    requires Estimate(b).Some? && Estimate(b).value > 1
    ensures Estimate(a + b) == Some(Min(Estimate(a).value * Estimate(b).value, U64_MAX))
  {
    DependentGroup(b);
    WorkTogether(a, b);
    StillAnEstimate(a, b);
    var added, multiplied := SumOf(a), Multiplied(Ids(a), Groups(a));
    MultipliedPositive(Ids(a), Groups(a));
    TimesGrows(Max(added, 1), multiplied);
    var p := Product(b, b[0].id);
    Regroup(Max(added, 1), multiplied, p);
    CapBoth(Max(added, 1) * multiplied, p, U64_MAX);
  }

  lemma DependentGroup(b: seq<PlanRow>)
    requires b != [] && AllIn(b, b[0].id)
    requires exists row :: row in b && row.dependent && (row.rows.Some? || row.tableless)
    requires Estimate(b).Some? && Estimate(b).value > 1
    ensures SumOf(b) == 0 && Multiplied(Ids(b), Groups(b)) == Product(b, b[0].id)
    ensures Estimate(b) == Some(Min(Product(b, b[0].id), U64_MAX))
  {
    var id := b[0].id;
    OneSelect(b);
    assert Ids(b) == {id};
    OneGroup(id, Groups(b));
    assert Multiplies(Groups(b)[id]);
  }

  lemma CapBoth(x: nat, y: nat, cap: nat)
    requires x >= 1 && y >= 1 && cap >= 1
    ensures Min(Min(x, cap) * Min(y, cap), cap) == Min(x * y, cap)
  {
    CapTimes(x, Min(y, cap), cap);
    CapTimes(y, x, cap);
  }
}
