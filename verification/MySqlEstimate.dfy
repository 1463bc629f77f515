/** The row estimate nyet reads out of a classic MySQL EXPLAIN, in exact arithmetic. */
module MySqlEstimate {
  import opened Outcomes
  import opened Numbers

  /** One access step: its select, its row count when it has one, and what kind of select it is in. */
  datatype PlanRow = PlanRow(id: string, rows: Option<nat>, tableless: bool, dependent: bool)

  /** The joined steps of one select. A dependent select is run again for every row around it. */
  datatype Group = Group(rows: nat, dependent: bool)

  /** What a step multiplies its select by; none when the step says nothing. */
  function StepOf(row: PlanRow): (r: Option<nat>)
    ensures r.Some? ==> r.value >= 1
  {
    match row.rows
    case Some(n) => Some(Max(n, 1))
    case None => if row.tableless then Some(1) else None
  }

  // ----- the groups -----

  function Ids(rows: seq<PlanRow>): set<string> {
    set row | row in rows && StepOf(row).Some? :: row.id
  }

  function Product(rows: seq<PlanRow>, id: string): (p: nat)
    ensures p >= 1
  {
    if rows == [] then 1
    else
      var rest := Product(rows[..|rows| - 1], id);
      var row := rows[|rows| - 1];
      if row.id == id && StepOf(row).Some? then Times(rest, StepOf(row).value) else rest
  }

  function Times(a: nat, b: nat): (p: nat)
    ensures p == a * b
    ensures a >= 1 && b >= 1 ==> p >= 1 && p >= a && p >= b
  {
    if a >= 1 && b >= 1 then
      assert a * b >= a && a * b >= b by { TimesGrows(a, b); }
      a * b
    else a * b
  }

  lemma TimesGrows(a: nat, b: nat)
    requires a >= 1 && b >= 1
    ensures a * b >= a && a * b >= b
  {
  }

  predicate IsDependent(rows: seq<PlanRow>, id: string) {
    exists row :: row in rows && row.id == id && StepOf(row).Some? && row.dependent
  }

  /** The selects of a plan, each with the product of its steps. */
  function Groups(rows: seq<PlanRow>): (g: map<string, Group>)
    ensures g.Keys == Ids(rows)
  {
    map id | id in Ids(rows) :: Group(Product(rows, id), IsDependent(rows, id))
  }

  // ----- the closed form -----

  predicate Multiplies(g: Group) {
    g.dependent && g.rows > 1
  }

  function Factor(g: Group): nat {
    if Multiplies(g) then g.rows else 1
  }

  function Addend(g: Group): nat {
    if Multiplies(g) then 0 else g.rows
  }

  /** The sum of the groups that add, over the selects in `ids`. */
  ghost function Added(ids: set<string>, groups: map<string, Group>): nat
    requires ids <= groups.Keys
  {
    if ids == {} then 0
    else
      var id :| id in ids;
      Addend(groups[id]) + Added(ids - {id}, groups)
  }

  /** The product of the groups that multiply. */
  ghost function Multiplied(ids: set<string>, groups: map<string, Group>): nat
    requires ids <= groups.Keys
  {
    if ids == {} then 1
    else
      var id :| id in ids;
      Factor(groups[id]) * Multiplied(ids - {id}, groups)
  }

  /** The work the groups amount to, before it is cut to 64 bits. */
  ghost function Work(groups: map<string, Group>): nat {
    Scale(Added(groups.Keys, groups), Multiplied(groups.Keys, groups))
  }

  function Scale(added: nat, multiplied: nat): nat {
    Max(added, 1) * multiplied
  }

  ghost function Estimate(rows: seq<PlanRow>): Option<nat> {
    if Ids(rows) == {} then None else Some(Min(Work(Groups(rows)), U64_MAX))
  }

  /** The order in which the groups are taken does not matter. */
  lemma {:induction false} AddedTakes(ids: set<string>, groups: map<string, Group>, id: string)
    requires ids <= groups.Keys && id in ids
    ensures Added(ids, groups) == Addend(groups[id]) + Added(ids - {id}, groups)
  {
    var first :| first in ids && Added(ids, groups) == Addend(groups[first]) + Added(ids - {first}, groups);
    if first != id {
      AddedTakes(ids - {first}, groups, id);
      AddedTakes(ids - {id}, groups, first);
      assert ids - {first} - {id} == ids - {id} - {first};
    }
  }

  lemma {:induction false} MultipliedTakes(ids: set<string>, groups: map<string, Group>, id: string)
    requires ids <= groups.Keys && id in ids
    ensures Multiplied(ids, groups) == Factor(groups[id]) * Multiplied(ids - {id}, groups)
  {
    var first :| first in ids && Multiplied(ids, groups) == Factor(groups[first]) * Multiplied(ids - {first}, groups);
    if first != id {
      MultipliedTakes(ids - {first}, groups, id);
      MultipliedTakes(ids - {id}, groups, first);
      assert ids - {first} - {id} == ids - {id} - {first};
      Swap(Factor(groups[first]), Factor(groups[id]), Multiplied(ids - {id} - {first}, groups));
    }
  }

  lemma Swap(a: nat, b: nat, c: nat)
    ensures a * (b * c) == b * (a * c)
  {
  }

  lemma Regroup(a: nat, b: nat, c: nat)
    ensures a * (b * c) == (a * b) * c
  {
  }

  // ----- the loops -----

  /** The grouping loop: the map grows one plan row at a time. */
  method GroupRows(rows: seq<PlanRow>) returns (selects: map<string, Group>)
    ensures selects == Groups(rows)
  {
    selects := map[];
    for k := 0 to |rows|
      invariant selects == Groups(rows[..k])
    {
      var row := rows[k];
      assert rows[..k + 1] == rows[..k] + [row];
      GroupsGrow(rows[..k], row);
      if StepOf(row).Some? {
        var entry := if row.id in selects then selects[row.id] else Group(1, false);
        selects := selects[row.id := Group(Times(entry.rows, StepOf(row).value), entry.dependent || row.dependent)];
      }
    }
    assert rows[..|rows|] == rows;
  }

  lemma {:induction false} ProductOfNone(rows: seq<PlanRow>, id: string)
    requires id !in Ids(rows)
    ensures Product(rows, id) == 1
  {
    if rows != [] {
      var front, row := rows[..|rows| - 1], rows[|rows| - 1];
      assert row in rows;
      assert forall r :: r in front ==> r in rows;
      ProductOfNone(front, id);
    }
  }

  lemma GroupsGrow(rows: seq<PlanRow>, row: PlanRow)
    ensures var entry := if row.id in Ids(rows) then Groups(rows)[row.id] else Group(1, false);
            Groups(rows + [row])
            == if StepOf(row).None? then Groups(rows)
               else
                 Groups(rows)[row.id := Group(Times(entry.rows, StepOf(row).value), entry.dependent || row.dependent)]
  {
    var all := rows + [row];
    IdsGrow(rows, row);
    forall id | id in Ids(all)
      ensures Product(all, id)
              == if row.id == id && StepOf(row).Some? then Times(Product(rows, id), StepOf(row).value)
                 else Product(rows, id)
      ensures IsDependent(all, id)
              <==> IsDependent(rows, id) || (row.id == id && StepOf(row).Some? && row.dependent)
    {
      OneMoreRow(rows, row, id);
    }
    if row.id !in Ids(rows) {
      ProductOfNone(rows, row.id);
      assert !IsDependent(rows, row.id);
    }
  }

  lemma IdsGrow(rows: seq<PlanRow>, row: PlanRow)
    ensures Ids(rows + [row]) == Ids(rows) + (if StepOf(row).Some? then {row.id} else {})
  {
  }

  lemma OneMoreRow(rows: seq<PlanRow>, row: PlanRow, id: string)
    ensures Product(rows + [row], id)
            == if row.id == id && StepOf(row).Some? then Times(Product(rows, id), StepOf(row).value)
               else Product(rows, id)
    ensures IsDependent(rows + [row], id)
            <==> IsDependent(rows, id) || (row.id == id && StepOf(row).Some? && row.dependent)
  {
  }

  lemma TakeFactor(d: nat, ids: set<string>, groups: map<string, Group>, id: string)
    requires ids <= groups.Keys && id in ids
    ensures d * Multiplied(ids, groups)
            == (if Multiplies(groups[id]) then d * groups[id].rows else d) * Multiplied(ids - {id}, groups)
  {
    MultipliedTakes(ids, groups, id);
    Regroup(d, Factor(groups[id]), Multiplied(ids - {id}, groups));
  }

  /** The totalling loop, the groups taken in any order. */
  method Total(selects: map<string, Group>) returns (independent: nat, dependent: nat)
    ensures independent == Added(selects.Keys, selects) && dependent == Multiplied(selects.Keys, selects)
  {
    independent, dependent := 0, 1;
    var waiting := selects.Keys;
    while waiting != {}
      invariant waiting <= selects.Keys
      invariant independent + Added(waiting, selects) == Added(selects.Keys, selects)
      invariant dependent * Multiplied(waiting, selects) == Multiplied(selects.Keys, selects)
      decreases |waiting|
    {
      var id :| id in waiting;
      AddedTakes(waiting, selects, id);
      TakeFactor(dependent, waiting, selects, id);
      if Multiplies(selects[id]) {
        dependent := dependent * selects[id].rows;
      } else {
        independent := independent + selects[id].rows;
      }
      waiting := waiting - {id};
    }
  }

  method MysqlEstimate(rows: seq<PlanRow>) returns (estimate: Option<nat>)
    ensures estimate == Estimate(rows)
  {
    var selects := GroupRows(rows);
    var independent, dependent := Total(selects);
    estimate := if selects.Keys == {} then None else Some(Min(Scale(independent, dependent), U64_MAX));
  }

  // ----- the estimate does not depend on the order of the plan rows -----

  lemma {:induction false} ProductAppend(a: seq<PlanRow>, b: seq<PlanRow>, id: string)
    ensures Product(a + b, id) == Product(a, id) * Product(b, id)
  {
    if b == [] {
      assert a + b == a;
    } else {
      var front, row := b[..|b| - 1], b[|b| - 1];
      assert (a + b)[..|a + b| - 1] == a + front && (a + b)[|a + b| - 1] == row;
      ProductAppend(a, front, id);
      if row.id == id && StepOf(row).Some? {
        Regroup(Product(a, id), Product(front, id), StepOf(row).value);
      }
    }
  }

  /** The product of a select is that of one of its rows and of the others. */
  lemma ProductWithout(rows: seq<PlanRow>, k: nat, id: string)
    requires k < |rows|
    ensures Product(rows, id) == Product([rows[k]], id) * Product(rows[..k] + rows[k + 1..], id)
  {
    assert rows == rows[..k] + ([rows[k]] + rows[k + 1..]);
    ProductAppend(rows[..k], [rows[k]] + rows[k + 1..], id);
    ProductAppend([rows[k]], rows[k + 1..], id);
    ProductAppend(rows[..k], rows[k + 1..], id);
    Swap(Product(rows[..k], id), Product([rows[k]], id), Product(rows[k + 1..], id));
  }

  lemma RemoveOne<T>(a: seq<T>, b: seq<T>, k: nat)
    requires multiset(a) == multiset(b) && a != [] && k < |b| && b[k] == a[0]
    ensures multiset(a[1..]) == multiset(b[..k] + b[k + 1..])
  {
    var tail, rest, x := multiset(a[1..]), multiset(b[..k] + b[k + 1..]), multiset{a[0]};
    assert a == [a[0]] + a[1..];
    assert multiset(a) == x + tail;
    assert b == b[..k] + ([b[k]] + b[k + 1..]);
    assert multiset(b) == multiset(b[..k]) + (x + multiset(b[k + 1..]));
    assert rest == multiset(b[..k]) + multiset(b[k + 1..]);
    assert (x + tail) - x == tail && (x + rest) - x == rest;
    assert x + tail == x + rest;
  }

  lemma {:induction false} ProductPermutes(a: seq<PlanRow>, b: seq<PlanRow>, id: string)
    requires multiset(a) == multiset(b)
    ensures Product(a, id) == Product(b, id)
    decreases |a|
  {
    if a == [] {
      assert |multiset(b)| == 0;
    } else {
      assert a[0] in multiset(b);
      var k :| 0 <= k < |b| && b[k] == a[0];
      var rest := b[..k] + b[k + 1..];
      RemoveOne(a, b, k);
      assert a == [a[0]] + a[1..];
      ProductPermutes(a[1..], rest, id);
      ProductWithout(b, k, id);
      ProductAppend([a[0]], a[1..], id);
    }
  }

  /** Any permutation of the plan rows gives the same groups, and so the same estimate. */
  lemma EstimatePermutes(a: seq<PlanRow>, b: seq<PlanRow>)
    requires multiset(a) == multiset(b)
    ensures Groups(a) == Groups(b) && Estimate(a) == Estimate(b)
  {
    assert forall row :: row in a <==> row in multiset(a);
    assert forall row :: row in b <==> row in multiset(b);
    assert Ids(a) == Ids(b);
    forall id | id in Ids(a)
      ensures Groups(a)[id] == Groups(b)[id]
    {
      ProductPermutes(a, b, id);
    }
  }

  // ----- it is no smaller than any one select -----

  lemma {:induction false} MultipliedPositive(ids: set<string>, groups: map<string, Group>)
    requires ids <= groups.Keys
    ensures Multiplied(ids, groups) >= 1
  {
    if ids != {} {
      var id :| id in ids;
      MultipliedPositive(ids - {id}, groups);
      MultipliedTakes(ids, groups, id);
      TimesGrows(Factor(groups[id]), Multiplied(ids - {id}, groups));
    }
  }

  lemma NoGroupIsHidden(groups: map<string, Group>, id: string)
    requires id in groups && (forall g :: g in groups ==> groups[g].rows >= 1)
    ensures Work(groups) >= groups[id].rows
  {
    var added, multiplied := Added(groups.Keys, groups), Multiplied(groups.Keys, groups);
    AddedTakes(groups.Keys, groups, id);
    MultipliedTakes(groups.Keys, groups, id);
    MultipliedPositive(groups.Keys - {id}, groups);
    if Multiplies(groups[id]) {
      TimesGrows(groups[id].rows, Multiplied(groups.Keys - {id}, groups));
      TimesGrows(Max(added, 1), multiplied);
    } else {
      MultipliedPositive(groups.Keys, groups);
      TimesGrows(Max(added, 1), multiplied);
    }
  }

  // ----- it grows with every row count -----

  /** The same selects of the same kinds, none with fewer rows. */
  ghost predicate Dominates(more: map<string, Group>, fewer: map<string, Group>) {
    && more.Keys == fewer.Keys
    && forall id :: id in fewer ==>
         more[id].dependent == fewer[id].dependent && 1 <= fewer[id].rows <= more[id].rows
  }

  lemma MulMonotone(a: nat, b: nat, c: nat, d: nat)
    requires a <= c && b <= d
    ensures a * b <= c * d
  {
  }

  lemma DoubleRoom(s: nat, t: nat, p: nat, d: nat)
    requires t >= 1 && d >= 2
    ensures (s + 1 + t) * p <= (s + t) * (d * p)
  {
  }

  /**
   The heart of monotonicity, by induction over the selects: with `t` rows of independent work beside
   them, and with none. A dependent select that goes from one row to two stops being added and starts
   to multiply; what the sum loses, the product makes up for.
   */
  lemma {:induction false} WorkGrows(ids: set<string>, more: map<string, Group>, fewer: map<string, Group>, t: nat)
    requires Dominates(more, fewer) && ids <= fewer.Keys && t >= 1
    ensures (Added(ids, fewer) + t) * Multiplied(ids, fewer) <= (Added(ids, more) + t) * Multiplied(ids, more)
    ensures Max(Added(ids, fewer), 1) * Multiplied(ids, fewer) <= Max(Added(ids, more), 1) * Multiplied(ids, more)
    decreases ids, 0
  {
    if ids != {} {
      var id :| id in ids;
      var rest := ids - {id};
      AddedTakes(ids, fewer, id);
      AddedTakes(ids, more, id);
      MultipliedTakes(ids, fewer, id);
      MultipliedTakes(ids, more, id);
      OneMoreSelect(rest, more, fewer, id, t);
    }
  }

  lemma {:induction false} OneMoreSelect(rest: set<string>, more: map<string, Group>, fewer: map<string, Group>,
                                         id: string, t: nat)
    requires Dominates(more, fewer) && rest <= fewer.Keys && id in fewer && t >= 1
    ensures (Addend(fewer[id]) + Added(rest, fewer) + t) * (Factor(fewer[id]) * Multiplied(rest, fewer))
            <= (Addend(more[id]) + Added(rest, more) + t) * (Factor(more[id]) * Multiplied(rest, more))
    ensures Max(Addend(fewer[id]) + Added(rest, fewer), 1) * (Factor(fewer[id]) * Multiplied(rest, fewer))
            <= Max(Addend(more[id]) + Added(rest, more), 1) * (Factor(more[id]) * Multiplied(rest, more))
    decreases rest, 1
  {
    var a, b := fewer[id], more[id];
    var s, p, s', p' := Added(rest, fewer), Multiplied(rest, fewer), Added(rest, more), Multiplied(rest, more);
    WorkGrows(rest, more, fewer, t);
    if !Multiplies(a) {
      WorkGrows(rest, more, fewer, a.rows + t);
      WorkGrows(rest, more, fewer, a.rows);
      if !Multiplies(b) {
        MulMonotone(s' + a.rows + t, p', s' + b.rows + t, p');
        MulMonotone(s' + a.rows, p', s' + b.rows, p');
      } else {
        assert a.rows == 1;
        DoubleRoom(s', t, p', b.rows);
        AloneDoubles(s', p', b.rows);
      }
    } else {
      Swap(s + t, a.rows, p);
      Swap(s' + t, b.rows, p');
      MulMonotone(a.rows, (s + t) * p, b.rows, (s' + t) * p');
      Swap(Max(s, 1), a.rows, p);
      Swap(Max(s', 1), b.rows, p');
      MulMonotone(a.rows, Max(s, 1) * p, b.rows, Max(s', 1) * p');
    }
  }

  lemma AloneDoubles(s: nat, p: nat, d: nat)
    requires d >= 2
    ensures (s + 1) * p <= Max(s, 1) * (d * p)
  {
    MulMonotone(Max(s, 1), 2, Max(s, 1), d);
    MulMonotone(s + 1, p, Max(s, 1) * d, p);
    Regroup(Max(s, 1), d, p);
  }

  /** The same steps in the same selects of the same kinds, none with a smaller row count. */
  predicate AtLeast(more: seq<PlanRow>, fewer: seq<PlanRow>) {
    |more| == |fewer| && forall k :: 0 <= k < |fewer| ==> RowAtLeast(more[k], fewer[k])
  }

  predicate RowAtLeast(more: PlanRow, fewer: PlanRow) {
    && more.id == fewer.id && more.dependent == fewer.dependent && more.tableless == fewer.tableless
    && match fewer.rows
       case Some(n) => more.rows.Some? && n <= more.rows.value
       case None => more.rows.None?
  }

  lemma {:induction false} ProductGrows(more: seq<PlanRow>, fewer: seq<PlanRow>, id: string)
    requires AtLeast(more, fewer)
    ensures Product(fewer, id) <= Product(more, id)
  {
    if fewer != [] {
      var n := |fewer| - 1;
      ProductGrows(more[..n], fewer[..n], id);
      if fewer[n].id == id && StepOf(fewer[n]).Some? {
        MulMonotone(Product(fewer[..n], id), StepOf(fewer[n]).value, Product(more[..n], id), StepOf(more[n]).value);
      }
    }
  }

  lemma SameSelects(more: seq<PlanRow>, fewer: seq<PlanRow>)
    requires AtLeast(more, fewer)
    ensures Ids(more) == Ids(fewer)
    ensures forall id :: IsDependent(more, id) == IsDependent(fewer, id)
  {
  }

  /** Raising row counts never lowers the estimate. */
  lemma EstimateMonotone(more: seq<PlanRow>, fewer: seq<PlanRow>)
    requires AtLeast(more, fewer)
    ensures Estimate(fewer).None? <==> Estimate(more).None?
    ensures Estimate(fewer).Some? ==> Estimate(fewer).value <= Estimate(more).value
  {
    SameSelects(more, fewer);
    forall id | id in Ids(fewer)
      ensures Product(fewer, id) <= Product(more, id)
    {
      ProductGrows(more, fewer, id);
    }
    WorkGrows(Ids(fewer), Groups(more), Groups(fewer), 1);
  }

  /** No select of the plan is hidden by the others: the estimate covers each one's own product. */
  lemma EstimateCovers(rows: seq<PlanRow>, id: string)
    requires id in Ids(rows)
    ensures Estimate(rows).Some? && Estimate(rows).value >= Min(Product(rows, id), U64_MAX)
  {
    NoGroupIsHidden(Groups(rows), id);
  }
}
