/**
 When the first rows of a `distinct` are determined. `$group` emits its groups in any order and `$sort`
 leaves ties as they come, so a limit that falls between two values which tie takes either.
 */
module MongoDistinct {
  import opened Outcomes
  import opened Values
  import opened MongoCommand
  import opened MongoAnswers

  /** Every value of the first list is equal to one of the second. */
  predicate Covers(sem: Semantics, xs: seq<Bson>, ys: seq<Bson>) {
    forall i :: 0 <= i < |xs| ==> Has(sem, ys, xs[i])
  }

  lemma CoveredBy(sem: Semantics, xs: seq<Bson>, ys: seq<Bson>, i: nat) returns (j: nat)
    requires Covers(sem, xs, ys) && i < |xs|
    ensures j < |ys| && sem.same(xs[i], ys[j])
  {
    assert Has(sem, ys, xs[i]);
    j :| 0 <= j < |ys| && sem.same(xs[i], ys[j]);
  }

  lemma ListingsCover(sem: Semantics, values: set<Bson>, xs: seq<Bson>, ys: seq<Bson>)
    requires Represents(sem, xs, values) && Represents(sem, ys, values)
    ensures Covers(sem, xs, ys)
  {
  }

  /** Values that are pairwise unequal and all found in a list are no more than the list. */
  lemma {:induction false} NoMoreThanFound(sem: Semantics, xs: seq<Bson>, ys: seq<Bson>)
    requires IsOrder(sem) && Apart(sem, xs) && Covers(sem, xs, ys)
    ensures |xs| <= |ys|
    decreases |xs|
  {
    if xs != [] {
      var n := |xs| - 1;
      var j := CoveredBy(sem, xs, ys, n);
      var rest := ys[..j] + ys[j + 1..];
      forall i | 0 <= i < n
        ensures Has(sem, rest, xs[i])
      {
        var l := CoveredBy(sem, xs, ys, i);
        assert l != j;
        assert rest[if l < j then l else l - 1] == ys[l];
      }
      NoMoreThanFound(sem, xs[..n], rest);
    }
  }

  /** Position `k` separates values that do not tie, or is no position inside the list. */
  predicate Settled(sem: Semantics, xs: seq<Bson>, k: int) {
    0 < k < |xs| ==> sem.before(xs[k - 1], xs[k])
  }

  /** How many values of a sorted list do not come after `pivot`. */
  lemma {:induction false} LowPrefix(sem: Semantics, ys: seq<Bson>, pivot: Bson) returns (m: nat)
    requires IsOrder(sem) && Sorted(sem, ys)
    ensures m <= |ys|
    ensures forall j :: 0 <= j < |ys| ==> (j < m <==> !sem.before(pivot, ys[j]))
    decreases |ys|
  {
    if ys == [] {
      m := 0;
    } else {
      var n := |ys| - 1;
      if sem.before(pivot, ys[n]) {
        m := LowPrefix(sem, ys[..n], pivot);
      } else {
        m := |ys|;
        forall j | 0 <= j < n
          ensures !sem.before(pivot, ys[j])
        {
          assert !sem.before(ys[n], ys[j]);
        }
      }
    }
  }

  /** The values of one listing up to `pivot` are found among those of any other. */
  lemma LowsCover(sem: Semantics, xs: seq<Bson>, k: nat, ys: seq<Bson>, m: nat, pivot: Bson)
    requires IsOrder(sem) && Covers(sem, xs, ys) && k <= |xs| && m <= |ys|
    requires forall i :: 0 <= i < |xs| ==> (i < k <==> !sem.before(pivot, xs[i]))
    requires forall j :: 0 <= j < |ys| ==> (j < m <==> !sem.before(pivot, ys[j]))
    ensures Covers(sem, xs[..k], ys[..m])
  {
    forall i | 0 <= i < k
      ensures Has(sem, ys[..m], xs[..k][i])
    {
      var j := CoveredBy(sem, xs, ys, i);
      assert Tie(sem, xs[i], ys[j]);
      assert ys[..m][j] == ys[j];
    }
  }

  lemma ApartPrefix(sem: Semantics, xs: seq<Bson>, k: nat)
    requires Apart(sem, xs) && k <= |xs|
    ensures Apart(sem, xs[..k])
  {
  }

  lemma SettledInside(sem: Semantics, xs: seq<Bson>, ys: seq<Bson>, k: int)
    requires IsOrder(sem) && Sorted(sem, xs) && Sorted(sem, ys) && Apart(sem, xs) && Apart(sem, ys)
    requires Covers(sem, xs, ys) && Covers(sem, ys, xs) && 0 < k < |xs| && Settled(sem, xs, k)
    ensures k <= |ys| && Covers(sem, xs[..k], ys[..k]) && Covers(sem, ys[..k], xs[..k])
  {
    var pivot := xs[k - 1];
    LowsAreFirst(sem, xs, k);
    var m := LowPrefix(sem, ys, pivot);
    LowsAgree(sem, xs, k, ys, m, pivot);
  }

  lemma LowsAgree(sem: Semantics, xs: seq<Bson>, k: nat, ys: seq<Bson>, m: nat, pivot: Bson)
    requires IsOrder(sem) && Apart(sem, xs) && Apart(sem, ys) && Covers(sem, xs, ys) && Covers(sem, ys, xs)
    requires k <= |xs| && m <= |ys|
    requires forall i :: 0 <= i < |xs| ==> (i < k <==> !sem.before(pivot, xs[i]))
    requires forall j :: 0 <= j < |ys| ==> (j < m <==> !sem.before(pivot, ys[j]))
    ensures k == m && Covers(sem, xs[..k], ys[..m]) && Covers(sem, ys[..m], xs[..k])
  {
    LowsCover(sem, xs, k, ys, m, pivot);
    LowsCover(sem, ys, m, xs, k, pivot);
    ApartPrefix(sem, xs, k);
    ApartPrefix(sem, ys, m);
    NoMoreThanFound(sem, xs[..k], ys[..m]);
    NoMoreThanFound(sem, ys[..m], xs[..k]);
  }

  /** At a settled position the first values of every two listings are the same ones. */
  lemma SettledAgree(sem: Semantics, values: set<Bson>, xs: seq<Bson>, ys: seq<Bson>, k: int)
    requires IsOrder(sem) && Lists(sem, xs, values) && Lists(sem, ys, values) && Settled(sem, xs, k)
    ensures |xs| == |ys|
    ensures Covers(sem, Take(xs, k), Take(ys, k)) && Covers(sem, Take(ys, k), Take(xs, k))
  {
    ListingsCover(sem, values, xs, ys);
    ListingsCover(sem, values, ys, xs);
    NoMoreThanFound(sem, xs, ys);
    NoMoreThanFound(sem, ys, xs);
    if 0 < k < |xs| {
      SettledInside(sem, xs, ys, k);
    }
  }

  lemma LowsAreFirst(sem: Semantics, xs: seq<Bson>, k: int)
    requires IsOrder(sem) && Sorted(sem, xs) && 0 < k < |xs| && Settled(sem, xs, k)
    ensures forall i :: 0 <= i < |xs| ==> (i < k <==> !sem.before(xs[k - 1], xs[i]))
  {
    forall i | 0 <= i < |xs|
      ensures i < k <==> !sem.before(xs[k - 1], xs[i])
    {
      if i < k - 1 {
        assert !sem.before(xs[k - 1], xs[i]);
      } else if k < i {
        assert !sem.before(xs[i], xs[k]);
      }
    }
  }

  /** At an unsettled one the two values on either side may change places. */
  function Swapped(xs: seq<Bson>, k: int): seq<Bson>
    requires 0 < k < |xs|
  {
    xs[k - 1 := xs[k]][k := xs[k - 1]]
  }

  lemma SwapKeepsMembers(xs: seq<Bson>, k: int)
    requires 0 < k < |xs|
    ensures forall v :: v in Swapped(xs, k) <==> v in xs
  {
    var ys := Swapped(xs, k);
    assert forall i :: 0 <= i < |xs| ==> ys[if i == k then k - 1 else if i == k - 1 then k else i] == xs[i];
  }

  lemma SwappedOut(sem: Semantics, xs: seq<Bson>, k: int)
    requires (forall a, b :: sem.same(a, b) ==> sem.same(b, a)) && 0 < k < |xs| && Apart(sem, Swapped(xs, k))
    ensures !Has(sem, Take(Swapped(xs, k), k), xs[k - 1])
  {
    var ys := Swapped(xs, k);
    forall i | 0 <= i < k
      ensures !sem.same(xs[k - 1], Take(ys, k)[i])
    {
      assert !sem.same(ys[i], ys[k]);
    }
  }

  lemma UnsettledDiffer(sem: Semantics, values: set<Bson>, xs: seq<Bson>, k: int)
    requires IsOrder(sem) && Lists(sem, xs, values) && 0 < k < |xs| && !Settled(sem, xs, k)
    ensures Lists(sem, Swapped(xs, k), values)
    ensures !Has(sem, Take(Swapped(xs, k), k), xs[k - 1])
  {
    assert !sem.before(xs[k], xs[k - 1]);
    SwapStaysSorted(sem, xs, k);
    SwapStaysApart(sem, xs, k);
    SwapKeepsMembers(xs, k);
    SameMembersRepresent(sem, xs, Swapped(xs, k), values);
    SwappedOut(sem, xs, k);
  }

  lemma SwapStaysSorted(sem: Semantics, xs: seq<Bson>, k: int)
    requires IsOrder(sem) && Sorted(sem, xs) && 0 < k < |xs| && Tie(sem, xs[k - 1], xs[k])
    ensures Sorted(sem, Swapped(xs, k))
  {
  }

  lemma SwapStaysApart(sem: Semantics, xs: seq<Bson>, k: int)
    requires IsOrder(sem) && Apart(sem, xs) && 0 < k < |xs|
    ensures Apart(sem, Swapped(xs, k))
  {
    var ys := Swapped(xs, k);
    forall i, j | 0 <= i < j < |ys|
      ensures !sem.same(ys[i], ys[j])
    {
      var p := if i == k then k - 1 else if i == k - 1 then k else i;
      var q := if j == k then k - 1 else if j == k - 1 then k else j;
      assert ys[i] == xs[p] && ys[j] == xs[q] && p != q;
      assert !sem.same(xs[if p < q then p else q], xs[if p < q then q else p]);
    }
  }

  /** The first `k` values are the same ones in every listing exactly when position `k` is settled in one. */
  lemma FirstRowsDetermined(sem: Semantics, values: set<Bson>, xs: seq<Bson>, k: int)
    requires IsOrder(sem) && Lists(sem, xs, values)
    ensures (forall ys :: Lists(sem, ys, values) ==> Covers(sem, Take(xs, k), Take(ys, k))) <==> Settled(sem, xs, k)
  {
    if Settled(sem, xs, k) {
      forall ys | Lists(sem, ys, values)
        ensures Covers(sem, Take(xs, k), Take(ys, k))
      {
        SettledAgree(sem, values, xs, ys, k);
      }
    } else {
      UnsettledDiffer(sem, values, xs, k);
      assert Take(xs, k)[k - 1] == xs[k - 1];
      assert !Covers(sem, Take(xs, k), Take(Swapped(xs, k), k));
    }
  }

  /** Between two settled positions stands the same value in every listing. */
  lemma SamePosition(sem: Semantics, values: set<Bson>, xs: seq<Bson>, ys: seq<Bson>, i: nat)
    requires IsOrder(sem) && Lists(sem, xs, values) && Lists(sem, ys, values) && i < |xs|
    requires Settled(sem, xs, i) && Settled(sem, xs, i + 1)
    ensures |xs| == |ys| && sem.same(xs[i], ys[i])
  {
    SettledAgree(sem, values, xs, ys, i);
    SettledAgree(sem, values, xs, ys, i + 1);
    OneMore(sem, xs, ys, i);
  }

  /** When the first `i` of two lists are the same values, and the first `i + 1`, so is the one between. */
  lemma OneMore(sem: Semantics, xs: seq<Bson>, ys: seq<Bson>, i: nat)
    requires IsOrder(sem) && Apart(sem, xs) && |xs| == |ys| && i < |xs|
    requires Covers(sem, Take(xs, i + 1), Take(ys, i + 1)) && Covers(sem, Take(ys, i), Take(xs, i))
    ensures sem.same(xs[i], ys[i])
  {
    assert Take(xs, i + 1)[i] == xs[i];
    var j := CoveredBy(sem, Take(xs, i + 1), Take(ys, i + 1), i);
    assert Take(ys, i + 1)[j] == ys[j];
    if j < i {
      assert Take(ys, i)[j] == ys[j];
      var l := CoveredBy(sem, Take(ys, i), Take(xs, i), j);
      NotTwice(sem, xs, l, i, ys[j]);
    }
  }

  lemma NotTwice(sem: Semantics, xs: seq<Bson>, l: nat, i: nat, y: Bson)
    requires IsOrder(sem) && Apart(sem, xs) && l < i < |xs|
    ensures !(sem.same(xs[i], y) && sem.same(y, xs[l]))
  {
    assert !sem.same(xs[l], xs[i]);
  }

  // ----- a condition a caller can check -----

  /** No document holds an array right inside the array of the field. */
  predicate NoNestedArrays(docs: seq<Doc>, field: string) {
    forall doc :: doc in docs ==>
      match Get(doc, field)
      case Some(Array(items)) => forall i :: 0 <= i < |items| ==> !items[i].Array?
      case _ => true
  }

  /** Values that are not arrays tie only when they are equal. */
  ghost predicate OrdersScalars(sem: Semantics) {
    forall a: Bson, b: Bson :: !a.Array? && !b.Array? && Tie(sem, a, b) ==> sem.same(a, b)
  }

  lemma AskedAreScalars(docs: seq<Doc>, field: string, v: Bson)
    requires NoNestedArrays(docs, field) && v in Asked(docs, field)
    ensures !v.Array?
  {
    var doc :| doc in docs && v in DistinctValues(doc, field);
  }

  /** Without arrays in arrays there is one listing: any two agree position by position. */
  lemma ListingsAgree(sem: Semantics, docs: seq<Doc>, field: string, xs: seq<Bson>, ys: seq<Bson>, i: nat)
    requires IsOrder(sem) && OrdersScalars(sem) && NoNestedArrays(docs, field)
    requires Lists(sem, xs, Asked(docs, field)) && Lists(sem, ys, Asked(docs, field)) && i < |xs|
    ensures |xs| == |ys| && sem.same(xs[i], ys[i])
  {
    forall k | 0 < k < |xs|
      ensures sem.before(xs[k - 1], xs[k])
    {
      AskedAreScalars(docs, field, xs[k - 1]);
      AskedAreScalars(docs, field, xs[k]);
      assert !sem.same(xs[k - 1], xs[k]);
    }
    SamePosition(sem, Asked(docs, field), xs, ys, i);
  }

  // ----- arrays in arrays: the answer is not determined -----

  /** Integers in their order, and arrays sorted by their smallest element. */
  function SortKey(v: Bson): int {
    match v
    case Int32(n) => n
    case Array(items) => if items == [] then I32_MIN - 1 else Smallest(items)
    case _ => I32_MAX + 1
  }

  function Smallest(items: seq<Bson>): int
    requires items != []
  {
    var first := if items[0].Int32? then items[0].n else I32_MAX + 1;
    if |items| == 1 then first
    else
      var rest := Smallest(items[1..]);
      if rest < first then rest else first
  }

  /** A server for which equality is identity; every stage may do whatever is documented of it. */
  function SmallSemantics(): Semantics {
    Semantics((_, _) => true, (a, b) => a == b, (a, b) => SortKey(a) < SortKey(b))
  }

  ghost function DocumentedServer(sem: Semantics): Server {
    Server(sem, (_, _, _) => true,
           (v, input, output) => StageRead(v).Some? ==> Means(sem, StageRead(v).value, input, output))
  }

  lemma StageRuns(sem: Semantics, stage: Stage, input: seq<Doc>, output: seq<Doc>)
    requires Means(sem, stage, input, output)
    ensures DocumentedServer(sem).runs(Spell(stage), input, output)
  {
    SpelledIsRead(stage);
  }

  /** A run, given what is between the stages. */
  lemma {:induction false} StagesRun(sem: Semantics, stages: seq<Stage>, between: seq<seq<Doc>>)
    requires |between| == |stages| + 1
    requires forall i :: 0 <= i < |stages| ==> Means(sem, stages[i], between[i], between[i + 1])
    ensures Runs(DocumentedServer(sem), SpellAll(stages), between[0], between[|stages|])
    decreases |stages|
  {
    if stages != [] {
      StageRuns(sem, stages[0], between[0], between[1]);
      StagesRun(sem, stages[1..], between[1..]);
      assert SpellAll(stages) == [Spell(stages[0])] + SpellAll(stages[1..]);
      RunsFrom(DocumentedServer(sem), Spell(stages[0]), SpellAll(stages[1..]),
               between[0], between[1], between[|stages|]);
    }
  }

  lemma RunsFrom(s: Server, first: Bson, rest: seq<Bson>, input: seq<Doc>, next: seq<Doc>, output: seq<Doc>)
    requires s.runs(first, input, next) && Runs(s, rest, next, output)
    ensures Runs(s, [first] + rest, input, output)
  {
    var stages := [first] + rest;
    assert stages[0] == first && stages[1..] == rest;
  }

  lemma SpelledInTwo(a: seq<Stage>, b: seq<Stage>)
    ensures SpellAll(a) + SpellAll(b) == SpellAll(a + b)
  {
  }

  /** `{x: [[1, 2], [1, 3]]}` */
  const ONE_TWO := Array([Int32(1), Int32(2)])
  const ONE_THREE := Array([Int32(1), Int32(3)])

  function Nested(): seq<Doc> {
    [[Field("x", Array([ONE_TWO, ONE_THREE]))]]
  }

  lemma SmallIsOrder()
    ensures IsOrder(SmallSemantics())
    ensures Tie(SmallSemantics(), ONE_TWO, ONE_THREE) && !SmallSemantics().same(ONE_TWO, ONE_THREE)
  {
    assert [Int32(1), Int32(2)][1..] == [Int32(2)] && [Int32(1), Int32(3)][1..] == [Int32(3)];
    assert ONE_TWO.items[1] != ONE_THREE.items[1];
  }

  lemma IsDocumented(sem: Semantics)
    ensures Documented(DocumentedServer(sem))
  {
  }

  lemma NestedUnwinds()
    ensures UnwindAll(Nested(), "x") == [[Field("x", ONE_TWO)], [Field("x", ONE_THREE)]]
    ensures Filter(SmallSemantics(), [], Nested()) == Nested()
  {
    var doc := Nested()[0];
    assert Nested()[1..] == [] && doc[1..] == [];
    assert With(doc, "x", ONE_TWO) == [Field("x", ONE_TWO)] && With(doc, "x", ONE_THREE) == [Field("x", ONE_THREE)];
    assert UnwindDoc(doc, "x") == [With(doc, "x", ONE_TWO), With(doc, "x", ONE_THREE)];
  }

  /** The two groups, in either order. */
  lemma EitherOrderGroups(reps: seq<Bson>)
    requires reps == [ONE_TWO, ONE_THREE] || reps == [ONE_THREE, ONE_TWO]
    ensures Means(SmallSemantics(), GroupBy("x"), UnwindAll(Nested(), "x"), IdDocs(reps))
  {
    var sem, unwound := SmallSemantics(), UnwindAll(Nested(), "x");
    NestedUnwinds();
    assert ValuesAt(unwound, "x") == [ONE_TWO, ONE_THREE];
    assert ONE_TWO.items[1] != ONE_THREE.items[1];
    assert sem.same(reps[0], reps[0]) && sem.same(reps[1], reps[1]);
    assert Represents(sem, reps, {ONE_TWO, ONE_THREE});
    assert SetOf(ValuesAt(unwound, "x")) == {ONE_TWO, ONE_THREE};
  }

  /** Sorted as they came. */
  lemma EitherOrderSorts(reps: seq<Bson>)
    requires reps == [ONE_TWO, ONE_THREE] || reps == [ONE_THREE, ONE_TWO]
    ensures Means(SmallSemantics(), SortById, IdDocs(reps), IdDocs(reps))
    ensures Means(SmallSemantics(), Limit(1), IdDocs(reps), IdDocs([reps[0]]))
  {
    SmallIsOrder();
    assert ValuesAt(IdDocs(reps), "_id") == reps;
    assert Take(IdDocs(reps), 1) == IdDocs([reps[0]]);
  }

  /** Either order may come out of `$group`, `$sort` keeps it, and the limit takes the first. */
  lemma EitherOrderRuns(reps: seq<Bson>)
    requires reps == [ONE_TWO, ONE_THREE] || reps == [ONE_THREE, ONE_TWO]
    ensures Answers(DocumentedServer(SmallSemantics()), Distinct("x", []), Some(1), Nested(), IdDocs([reps[0]]))
  {
    var docs, unwound, sorted := Nested(), UnwindAll(Nested(), "x"), IdDocs(reps);
    var stages := DistinctPipeline("x", []) + [Limit(1)];
    var between := [docs, docs, unwound, sorted, sorted, IdDocs([reps[0]])];
    SpelledInTwo(DistinctPipeline("x", []), [Limit(1)]);
    forall i | 0 <= i < |stages|
      ensures Means(SmallSemantics(), stages[i], between[i], between[i + 1])
    {
      EitherOrderMeans(reps, i);
    }
    StagesRun(SmallSemantics(), stages, between);
  }

  lemma EitherOrderMeans(reps: seq<Bson>, i: nat)
    requires reps == [ONE_TWO, ONE_THREE] || reps == [ONE_THREE, ONE_TWO]
    requires i < 5
    ensures var docs, unwound, sorted := Nested(), UnwindAll(Nested(), "x"), IdDocs(reps);
            var between := [docs, docs, unwound, sorted, sorted, IdDocs([reps[0]])];
            Means(SmallSemantics(), (DistinctPipeline("x", []) + [Limit(1)])[i], between[i], between[i + 1])
  {
    if i < 2 {
      FirstStagesMean(i);
    } else if i == 2 {
      EitherOrderGroups(reps);
    } else {
      EitherOrderSorts(reps);
    }
  }

  lemma FirstStagesMean(i: nat)
    requires i < 2
    ensures Means(SmallSemantics(), DistinctPipeline("x", [])[i], Nested(),
                  if i == 0 then Nested() else UnwindAll(Nested(), "x"))
  {
    NestedUnwinds();
  }

  /** On arrays in arrays the first row is not determined: one server may answer either. */
  lemma NestedArraysDiffer()
    ensures var s := DocumentedServer(SmallSemantics());
            && Documented(s) && IsOrder(s.sem) && !s.sem.same(ONE_TWO, ONE_THREE)
            && Answers(s, Distinct("x", []), Some(1), Nested(), IdDocs([ONE_TWO]))
            && Answers(s, Distinct("x", []), Some(1), Nested(), IdDocs([ONE_THREE]))
  {
    SmallIsOrder();
    IsDocumented(SmallSemantics());
    EitherOrderRuns([ONE_TWO, ONE_THREE]);
    EitherOrderRuns([ONE_THREE, ONE_TWO]);
  }
}
