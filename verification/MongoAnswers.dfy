/**
 What the commands nyet writes answer, on any server that runs the stages nyet writes as documented:
 counting and distinct keep their meaning, and the row limit cuts an answer without changing it.
 */
module MongoAnswers {
  import opened Outcomes
  import opened Values
  import opened MongoCommand

  /**
   The part of a server's behaviour that belongs to values: which documents a filter matches, which
   values `$group` holds for equal, and which of two values `$sort` puts first. The last two are not
   the same thing: arrays are grouped whole and sorted by their smallest element.
   */
  datatype Semantics = Semantics(
    matches: (Doc, Doc) -> bool,
    same: (Bson, Bson) -> bool,
    before: (Bson, Bson) -> bool)

  /** A server: what a find without a limit may return, and what a stage may turn its input into. */
  datatype Server = Server(
    sem: Semantics,
    finds: (Op, seq<Doc>, seq<Doc>) -> bool,
    runs: (Bson, seq<Doc>, seq<Doc>) -> bool)

  predicate Tie(sem: Semantics, a: Bson, b: Bson) {
    !sem.before(a, b) && !sem.before(b, a)
  }

  /** Equality is an equivalence, sorting a strict weak order, and equal values tie. */
  ghost predicate IsOrder(sem: Semantics) {
    && (forall a :: sem.same(a, a))
    && (forall a, b :: sem.same(a, b) ==> sem.same(b, a))
    && (forall a, b, c :: sem.same(a, b) && sem.same(b, c) ==> sem.same(a, c))
    && (forall a :: !sem.before(a, a))
    && (forall a, b, c :: sem.before(a, b) && sem.before(b, c) ==> sem.before(a, c))
    && (forall a, b, c :: sem.before(a, b) ==> sem.before(a, c) || sem.before(c, b))
    && (forall a, b :: sem.same(a, b) ==> Tie(sem, a, b))
  }

  // ----- the documented meaning of each stage -----

  function Filter(sem: Semantics, filter: Doc, docs: seq<Doc>): seq<Doc> {
    if docs == [] then []
    else (if sem.matches(filter, docs[0]) then [docs[0]] else []) + Filter(sem, filter, docs[1..])
  }

  function Take<T>(xs: seq<T>, n: int): seq<T> {
    if n <= 0 then [] else if n < |xs| then xs[..n] else xs
  }

  function With(doc: Doc, key: string, value: Bson): Doc {
    if doc == [] then []
    else if doc[0].key == key then [Field(key, value)] + doc[1..]
    else [doc[0]] + With(doc[1..], key, value)
  }

  function Without(doc: Doc, key: string): Doc {
    if doc == [] then []
    else (if doc[0].key == key then [] else [doc[0]]) + Without(doc[1..], key)
  }

  /** One document for each element of an array; anything else passes, an empty array as if absent. */
  function UnwindDoc(doc: Doc, field: string): seq<Doc> {
    match Get(doc, field)
    case Some(Array(items)) =>
      if items == [] then [Without(doc, field)]
      else seq(|items|, i requires 0 <= i < |items| => With(doc, field, items[i]))
    case _ => [doc]
  }

  function UnwindAll(docs: seq<Doc>, field: string): seq<Doc> {
    if docs == [] then [] else UnwindDoc(docs[0], field) + UnwindAll(docs[1..], field)
  }

  /** A field path in an expression: an absent field counts as null. */
  function ValueAt(doc: Doc, field: string): Bson {
    var v := Get(doc, field);
    if v.Some? then v.value else Null
  }

  function ValuesAt(docs: seq<Doc>, field: string): seq<Bson> {
    seq(|docs|, i requires 0 <= i < |docs| => ValueAt(docs[i], field))
  }

  function IdDocs(values: seq<Bson>): seq<Doc> {
    seq(|values|, i requires 0 <= i < |values| => [Field("_id", values[i])])
  }

  /** No two of the values are equal. */
  predicate Apart(sem: Semantics, values: seq<Bson>) {
    forall i, j :: 0 <= i < j < |values| ==> !sem.same(values[i], values[j])
  }

  /** Some value of the list is equal to this one. */
  predicate Has(sem: Semantics, values: seq<Bson>, v: Bson) {
    exists i :: 0 <= i < |values| && sem.same(v, values[i])
  }

  /** One representative for each class of equal values. */
  predicate Represents(sem: Semantics, reps: seq<Bson>, values: set<Bson>) {
    && Apart(sem, reps)
    && (forall i :: 0 <= i < |reps| ==> reps[i] in values)
    && (forall v :: v in values ==> Has(sem, reps, v))
  }

  predicate Sorted(sem: Semantics, values: seq<Bson>) {
    forall i, j :: 0 <= i < j < |values| ==> !sem.before(values[j], values[i])
  }

  /** A top-level field: `$` would make it a variable, a dot a path. */
  predicate IsFieldName(field: string) {
    field != "" && field[0] != '$' && '.' !in field
  }

  function SetOf(values: seq<Bson>): set<Bson> {
    set v | v in values
  }

  /** What a stage may do. `$match`, `$unwind` and `$group` promise no order. */
  ghost predicate Means(sem: Semantics, stage: Stage, input: seq<Doc>, output: seq<Doc>) {
    match stage
    case Match(filter) => multiset(output) == multiset(Filter(sem, filter, input))
    case CountAll => output == if input == [] then [] else [[Field("_id", Null), Field("count", Whole(|input|))]]
    case DropId => |output| == |input| && forall i :: 0 <= i < |input| ==> output[i] == Without(input[i], "_id")
    case Unwind(field) => IsFieldName(field) ==> multiset(output) == multiset(UnwindAll(input, field))
    case GroupBy(field) =>
      IsFieldName(field) ==>
        exists reps :: Represents(sem, reps, SetOf(ValuesAt(input, field))) && output == IdDocs(reps)
    case SortById =>
      multiset(output) == multiset(input) && Sorted(sem, ValuesAt(output, "_id"))
    case Limit(n) => output == Take(input, n)
  }

  /** The field a path expression names. */
  function FieldOf(v: Bson): Option<string> {
    match v
    case String(text) => if text != "" && text[0] == '$' then Some(text[1..]) else None
    case _ => None
  }

  /** A server's reading of a stage, by the names in its document; none for a stage nyet never writes. */
  function StageRead(v: Bson): Option<Stage> {
    if !v.Document? || |v.fields| != 1 then None
    else
      var Field(key, value) := v.fields[0];
      if key == "$match" then (if value.Document? then Some(Match(value.fields)) else None)
      else if key == "$limit" then (if value.Int64? then Some(Limit(value.n)) else None)
      else if key == "$sort" then (if value == Document([Field("_id", Int32(1))]) then Some(SortById) else None)
      else if key == "$project" then (if value == Document([Field("_id", Int32(0))]) then Some(DropId) else None)
      else if key == "$unwind" then UnwindRead(value)
      else if key == "$group" then GroupRead(value)
      else None
  }

  function UnwindRead(v: Bson): Option<Stage> {
    if v.Document? && |v.fields| == 2 && Get(v.fields, "preserveNullAndEmptyArrays") == Some(Boolean(true)) then
      var path :- Get(v.fields, "path");
      var field :- FieldOf(path);
      Some(Unwind(field))
    else None
  }

  /** Grouping everything and counting it, or grouping by a field and nothing else. */
  function GroupRead(v: Bson): Option<Stage> {
    if !v.Document? then None
    else
      var id :- Get(v.fields, "_id");
      if |v.fields| == 1 then
        var field :- FieldOf(id);
        Some(GroupBy(field))
      else if |v.fields| == 2 && id == Null && Get(v.fields, "count") == Some(Document([Field("$sum", Int32(1))])) then
        Some(CountAll)
      else None
  }

  /** What nyet writes is read as what it stands for. */
  lemma SpelledIsRead(stage: Stage)
    ensures StageRead(Spell(stage)) == Some(stage)
  {
    assert "$match"[1] == 'm' && "$group"[1] == 'g' && "$project"[1] == 'p' && "$unwind"[1] == 'u';
    assert "$sort"[1] == 's' && "$limit"[1] == 'l';
    match stage {
      case Unwind(field) => UnwindIsRead(field);
      case GroupBy(field) => GroupIsRead(field);
      case CountAll => CountIsRead();
      case _ =>
    }
  }

  lemma UnwindIsRead(field: string)
    ensures UnwindRead(Document([Field("path", String("$" + field)),
                                 Field("preserveNullAndEmptyArrays", Boolean(true))])) == Some(Unwind(field))
  {
    var options := [Field("path", String("$" + field)), Field("preserveNullAndEmptyArrays", Boolean(true))];
    assert "path"[1] == 'a' && "preserveNullAndEmptyArrays"[1] == 'r';
    assert options[1..] == [Field("preserveNullAndEmptyArrays", Boolean(true))];
    assert Get(options, "preserveNullAndEmptyArrays") == Some(Boolean(true));
    assert ("$" + field)[1..] == field;
  }

  lemma GroupIsRead(field: string)
    ensures GroupRead(Document([Field("_id", String("$" + field))])) == Some(GroupBy(field))
  {
    assert ("$" + field)[1..] == field;
  }

  lemma CountIsRead()
    ensures GroupRead(Document([Field("_id", Null), Field("count", Document([Field("$sum", Int32(1))]))]))
            == Some(CountAll)
  {
    var fields := [Field("_id", Null), Field("count", Document([Field("$sum", Int32(1))]))];
    assert fields[1..] == [Field("count", Document([Field("$sum", Int32(1))]))];
    assert "_id"[0] == '_' && "count"[0] == 'c';
    assert Get(fields, "count") == Some(Document([Field("$sum", Int32(1))]));
  }

  ghost predicate Documented(s: Server) {
    forall v, input, output :: StageRead(v).Some? && s.runs(v, input, output) ==>
      Means(s.sem, StageRead(v).value, input, output)
  }

  /** Each stage works on what the one before it put out. */
  ghost predicate Runs(s: Server, stages: seq<Bson>, input: seq<Doc>, output: seq<Doc>) {
    if stages == [] then output == input
    else exists next :: s.runs(stages[0], input, next) && Runs(s, stages[1..], next, output)
  }

  function AtMost(rows: seq<Doc>, limit: Option<int>): seq<Doc> {
    if limit.Some? then Take(rows, limit.value) else rows
  }

  /** What a server may answer to a command document, before any batch is cut. */
  ghost predicate Serves(s: Server, cmd: Doc, docs: seq<Doc>, output: seq<Doc>) {
    match ServerReads(cmd)
    case None => false
    case Some(FindWork(_, filter, projection, sort, skip, limit, _, _)) =>
      exists all :: s.finds(Find(filter, projection, sort, skip, None), docs, all) && output == AtMost(all, limit)
    case Some(AggregateWork(_, pipeline, _, _)) => Runs(s, pipeline, docs, output)
  }

  /** What a request may be answered, with `fetch` rows at most. */
  ghost predicate Answers(s: Server, op: Op, fetch: Option<int>, docs: seq<Doc>, output: seq<Doc>) {
    if op.Find? then
      exists all :: s.finds(op.(limit := None), docs, all) && output == AtMost(AtMost(all, op.limit), fetch)
    else Runs(s, Pipeline(op, fetch), docs, output)
  }

  /** The document nyet sends is answered like the request it was made of, cut to nyet's limit. */
  lemma CommandServes(s: Server, cmd: Doc, request: Request, fetchLimit: Option<nat>, maxTimeMs: nat,
                      docs: seq<Doc>, output: seq<Doc>)
    requires ServerReads(cmd) == Some(Meant(request, fetchLimit, maxTimeMs))
    ensures Serves(s, cmd, docs, output) <==> Answers(s, request.op, Fetch(fetchLimit), docs, output)
  {
    var op, fetch := request.op, Fetch(fetchLimit);
    if op.Find? {
      forall all: seq<Doc>
        ensures AtMost(all, Effective(fetch, op.limit)) == AtMost(AtMost(all, op.limit), fetch)
      {
      }
    }
  }

  // ----- the row limit -----

  lemma {:induction false} RunsSplit(s: Server, first: seq<Bson>, last: seq<Bson>, input: seq<Doc>, output: seq<Doc>)
      returns (middle: seq<Doc>)
    requires Runs(s, first + last, input, output)
    ensures Runs(s, first, input, middle) && Runs(s, last, middle, output)
    decreases |first|
  {
    if first == [] {
      assert first + last == last;
      middle := input;
    } else {
      var next :| s.runs((first + last)[0], input, next) && Runs(s, (first + last)[1..], next, output);
      assert (first + last)[1..] == first[1..] + last;
      middle := RunsSplit(s, first[1..], last, next, output);
    }
  }

  lemma RunsOne(s: Server, stage: Stage, input: seq<Doc>, output: seq<Doc>)
    requires Documented(s) && Runs(s, [Spell(stage)], input, output)
    ensures Means(s.sem, stage, input, output)
  {
    SpelledIsRead(stage);
  }

  /** With a row limit the server answers the beginning of what it may answer without one. */
  lemma LimitIsAPrefix(s: Server, op: Op, fetch: int, docs: seq<Doc>, output: seq<Doc>) returns (all: seq<Doc>)
    requires Documented(s) && !op.Count?
    requires Answers(s, op, Some(fetch), docs, output)
    ensures Answers(s, op, None, docs, all) && output == Take(all, fetch)
  {
    if op.Find? {
      var found :| s.finds(op.(limit := None), docs, found) && output == AtMost(AtMost(found, op.limit), Some(fetch));
      all := AtMost(found, op.limit);
    } else {
      var own := Pipeline(op, None);
      assert Pipeline(op, Some(fetch)) == own + [Spell(Limit(fetch))];
      all := RunsSplit(s, own, [Spell(Limit(fetch))], docs, output);
      RunsOne(s, Limit(fetch), all, output);
    }
  }

  // ----- countDocuments -----

  /** The one group carries the number of matching documents, and there is no group when none match. */
  lemma CountIsExact(s: Server, filter: Doc, fetch: Option<int>, docs: seq<Doc>, output: seq<Doc>)
    requires Documented(s) && Answers(s, Count(filter), fetch, docs, output)
    ensures var n := |Filter(s.sem, filter, docs)|;
            output == if n == 0 then [] else [[Field("count", Whole(n))]]
  {
    var a, b, c := Spell(Match(filter)), Spell(CountAll), Spell(DropId);
    assert Pipeline(Count(filter), fetch) == [a] + [b] + [c];
    var grouped := RunsSplit(s, [a] + [b], [c], docs, output);
    var matched := RunsSplit(s, [a], [b], docs, grouped);
    RunsOne(s, Match(filter), docs, matched);
    assert |multiset(matched)| == |matched| == |Filter(s.sem, filter, docs)|;
    RunsOne(s, CountAll, matched, grouped);
    RunsOne(s, DropId, grouped, output);
    if matched != [] {
      CountWithoutId(Whole(|matched|));
    }
  }

  lemma CountWithoutId(n: Bson)
    ensures Without([Field("_id", Null), Field("count", n)], "_id") == [Field("count", n)]
  {
    var doc := [Field("_id", Null), Field("count", n)];
    assert doc[1..] == [Field("count", n)] && doc[1..][1..] == [];
    assert "count"[0] == 'c' && "_id"[0] == '_';
    assert Without(doc[1..], "_id") == [Field("count", n)];
  }

  // ----- distinct -----

  /** What `distinct` is asked for, of one document: elements of an array, and null for nothing. */
  function DistinctValues(doc: Doc, field: string): seq<Bson> {
    match Get(doc, field)
    case None => [Null]
    case Some(Array(items)) => if items == [] then [Null] else items
    case Some(v) => [v]
  }

  /** And of a collection. */
  function Asked(docs: seq<Doc>, field: string): set<Bson> {
    set doc, v | doc in docs && v in DistinctValues(doc, field) :: v
  }

  /** Each value once, in order. */
  predicate Lists(sem: Semantics, answer: seq<Bson>, values: set<Bson>) {
    Sorted(sem, answer) && Represents(sem, answer, values)
  }

  lemma {:induction false} GetWith(doc: Doc, field: string, value: Bson)
    requires Get(doc, field).Some?
    ensures Get(With(doc, field, value), field) == Some(value)
  {
    if doc[0].key != field {
      GetWith(doc[1..], field, value);
      assert With(doc, field, value)[1..] == With(doc[1..], field, value);
    }
  }

  lemma {:induction false} GetWithout(doc: Doc, field: string)
    ensures Get(Without(doc, field), field) == None
  {
    if doc != [] {
      GetWithout(doc[1..], field);
      if doc[0].key != field {
        assert Without(doc, field)[1..] == Without(doc[1..], field);
      } else {
        assert Without(doc, field) == Without(doc[1..], field);
      }
    }
  }

  lemma UnwoundValues(doc: Doc, field: string)
    ensures ValuesAt(UnwindDoc(doc, field), field) == DistinctValues(doc, field)
  {
    match Get(doc, field) {
      case Some(Array(items)) =>
        if items == [] {
          GetWithout(doc, field);
        } else {
          forall i | 0 <= i < |items|
            ensures ValueAt(With(doc, field, items[i]), field) == items[i]
          {
            GetWith(doc, field, items[i]);
          }
        }
      case _ =>
    }
  }

  /** Unwinding a collection and reading the field gives the values asked for, and no others. */
  lemma {:induction false} AllUnwoundValues(docs: seq<Doc>, field: string)
    ensures SetOf(ValuesAt(UnwindAll(docs, field), field)) == Asked(docs, field)
  {
    if docs != [] {
      var first, rest := UnwindDoc(docs[0], field), UnwindAll(docs[1..], field);
      assert ValuesAt(first + rest, field) == ValuesAt(first, field) + ValuesAt(rest, field);
      UnwoundValues(docs[0], field);
      AllUnwoundValues(docs[1..], field);
      assert Asked(docs, field) == SetOf(DistinctValues(docs[0], field)) + Asked(docs[1..], field);
    }
  }

  /** Neither reading depends on the order of the documents. */
  lemma ValuesOfPermuted(a: seq<Doc>, b: seq<Doc>, field: string)
    requires multiset(a) == multiset(b)
    ensures SetOf(ValuesAt(a, field)) == SetOf(ValuesAt(b, field)) && Asked(a, field) == Asked(b, field)
  {
    assert forall doc :: doc in a <==> doc in multiset(a);
    assert forall doc :: doc in b <==> doc in multiset(b);
    ValuesAtOf(a, field);
    ValuesAtOf(b, field);
  }

  lemma ValuesAtOf(docs: seq<Doc>, field: string)
    ensures SetOf(ValuesAt(docs, field)) == set doc | doc in docs :: ValueAt(doc, field)
  {
    forall v | v in ValuesAt(docs, field)
      ensures exists doc :: doc in docs && v == ValueAt(doc, field)
    {
      var i :| 0 <= i < |docs| && ValuesAt(docs, field)[i] == v;
      assert docs[i] in docs;
    }
    forall doc | doc in docs
      ensures ValueAt(doc, field) in ValuesAt(docs, field)
    {
      var i :| 0 <= i < |docs| && docs[i] == doc;
      assert ValuesAt(docs, field)[i] == ValueAt(doc, field);
    }
  }

  lemma FoundIn<T>(xs: seq<T>, ys: seq<T>, i: nat) returns (p: nat)
    requires multiset(xs) == multiset(ys) && i < |ys|
    ensures p < |xs| && xs[p] == ys[i]
  {
    assert ys[i] in multiset(ys) && multiset(ys) == multiset(xs);
    p :| 0 <= p < |xs| && xs[p] == ys[i];
  }

  lemma IdOf(values: seq<Bson>, p: nat)
    requires p < |values|
    ensures ValueAt(IdDocs(values)[p], "_id") == values[p]
  {
  }

  lemma IdDocsKeepMembers(reps: seq<Bson>, output: seq<Doc>)
    requires multiset(output) == multiset(IdDocs(reps))
    ensures output == IdDocs(ValuesAt(output, "_id"))
    ensures forall v :: v in ValuesAt(output, "_id") <==> v in reps
  {
    var answer := ValuesAt(output, "_id");
    forall i | 0 <= i < |output|
      ensures output[i] == [Field("_id", answer[i])] && answer[i] in reps
    {
      var p := FoundIn(IdDocs(reps), output, i);
      IdOf(reps, p);
    }
    forall p | 0 <= p < |reps|
      ensures reps[p] in answer
    {
      var i := FoundIn(output, IdDocs(reps), p);
      IdOf(reps, p);
      assert answer[i] == reps[p];
    }
  }

  lemma {:induction false} CountedOnce<T>(xs: seq<T>, x: T)
    requires forall i, j :: 0 <= i < j < |xs| ==> xs[i] != xs[j]
    ensures multiset(xs)[x] <= 1
  {
    if xs != [] {
      var rest := xs[1..];
      assert xs == [xs[0]] + rest;
      CountedOnce(rest, x);
      if x == xs[0] {
        assert x !in rest;
      }
    }
  }

  lemma TwiceIsTwo<T>(ys: seq<T>, i: nat, j: nat)
    requires i < j < |ys| && ys[i] == ys[j]
    ensures multiset(ys)[ys[i]] >= 2
  {
    var left, right := ys[..j], ys[j..];
    assert ys == left + right && left[i] == right[0];
  }

  /** Reordering brings in no repetition. */
  lemma PermutedApart<T>(xs: seq<T>, ys: seq<T>, i: nat, j: nat)
    requires multiset(xs) == multiset(ys)
    requires forall p, q :: 0 <= p < q < |xs| ==> xs[p] != xs[q]
    requires i < j < |ys|
    ensures ys[i] != ys[j]
  {
    CountedOnce(xs, ys[i]);
    if ys[i] == ys[j] {
      TwiceIsTwo(ys, i, j);
    }
  }

  lemma ReorderedStaysApart(sem: Semantics, reps: seq<Bson>, output: seq<Doc>)
    requires IsOrder(sem) && Apart(sem, reps) && multiset(output) == multiset(IdDocs(reps))
    ensures Apart(sem, ValuesAt(output, "_id"))
  {
    var input := IdDocs(reps);
    forall p, q | 0 <= p < q < |input|
      ensures input[p] != input[q]
    {
      assert !sem.same(reps[p], reps[q]);
      IdOf(reps, p);
      IdOf(reps, q);
    }
    forall i, j | 0 <= i < j < |output|
      ensures !sem.same(ValueAt(output[i], "_id"), ValueAt(output[j], "_id"))
    {
      PermutedApart(input, output, i, j);
      var p := FoundIn(input, output, i);
      var q := FoundIn(input, output, j);
      IdOf(reps, p);
      IdOf(reps, q);
      assert p != q;
      assert !sem.same(reps[if p < q then p else q], reps[if p < q then q else p]);
    }
  }

  lemma SameMembersHave(sem: Semantics, xs: seq<Bson>, ys: seq<Bson>, v: Bson)
    requires Has(sem, xs, v) && forall x :: x in xs ==> x in ys
    ensures Has(sem, ys, v)
  {
    var p :| 0 <= p < |xs| && sem.same(v, xs[p]);
    assert xs[p] in xs;
    var i :| 0 <= i < |ys| && ys[i] == xs[p];
  }

  lemma SameMembersRepresent(sem: Semantics, reps: seq<Bson>, answer: seq<Bson>, values: set<Bson>)
    requires Represents(sem, reps, values) && Apart(sem, answer) && forall v :: v in answer <==> v in reps
    ensures Represents(sem, answer, values)
  {
    forall i | 0 <= i < |answer|
      ensures answer[i] in values
    {
      assert answer[i] in reps;
    }
    forall v | v in values
      ensures Has(sem, answer, v)
    {
      SameMembersHave(sem, reps, answer, v);
    }
  }

  /** Sorting one document per class lists the classes, whatever order they came in. */
  lemma SortedRepresents(sem: Semantics, reps: seq<Bson>, values: set<Bson>, output: seq<Doc>)
    requires IsOrder(sem) && Represents(sem, reps, values) && Means(sem, SortById, IdDocs(reps), output)
    ensures Lists(sem, ValuesAt(output, "_id"), values) && output == IdDocs(ValuesAt(output, "_id"))
  {
    IdDocsKeepMembers(reps, output);
    ReorderedStaysApart(sem, reps, output);
    SameMembersRepresent(sem, reps, ValuesAt(output, "_id"), values);
  }

  /** The stages of the `distinct` pipeline, one after the other. */
  lemma DistinctRuns(s: Server, key: string, filter: Doc, docs: seq<Doc>, all: seq<Doc>)
      returns (matched: seq<Doc>, unwound: seq<Doc>, grouped: seq<Doc>)
    requires Documented(s) && Runs(s, Pipeline(Distinct(key, filter), None), docs, all)
    ensures Means(s.sem, Match(filter), docs, matched) && Means(s.sem, Unwind(key), matched, unwound)
    ensures Means(s.sem, GroupBy(key), unwound, grouped) && Means(s.sem, SortById, grouped, all)
  {
    var a, b, c, d := Spell(Match(filter)), Spell(Unwind(key)), Spell(GroupBy(key)), Spell(SortById);
    assert Pipeline(Distinct(key, filter), None) == [a] + [b] + [c] + [d];
    grouped := RunsSplit(s, [a] + [b] + [c], [d], docs, all);
    unwound := RunsSplit(s, [a] + [b], [c], docs, grouped);
    matched := RunsSplit(s, [a], [b], docs, unwound);
    RunsOne(s, Match(filter), docs, matched);
    RunsOne(s, Unwind(key), matched, unwound);
    RunsOne(s, GroupBy(key), unwound, grouped);
    RunsOne(s, SortById, grouped, all);
  }

  lemma UncutIsExact(s: Server, key: string, filter: Doc, docs: seq<Doc>, all: seq<Doc>) returns (answer: seq<Bson>)
    requires Documented(s) && IsOrder(s.sem) && IsFieldName(key)
    requires Runs(s, Pipeline(Distinct(key, filter), None), docs, all)
    ensures Lists(s.sem, answer, Asked(Filter(s.sem, filter, docs), key)) && all == IdDocs(answer)
  {
    var matched, unwound, grouped := DistinctRuns(s, key, filter, docs, all);
    ValuesOfPermuted(matched, Filter(s.sem, filter, docs), key);
    ValuesOfPermuted(unwound, UnwindAll(matched, key), key);
    AllUnwoundValues(matched, key);
    var values := SetOf(ValuesAt(unwound, key));
    var reps :| Represents(s.sem, reps, values) && grouped == IdDocs(reps);
    SortedRepresents(s.sem, reps, values, all);
    answer := ValuesAt(all, "_id");
  }

  /** The `distinct` pipeline lists each value of the field once and in order, up to the row limit. */
  lemma DistinctIsExact(s: Server, key: string, filter: Doc, fetch: Option<int>, docs: seq<Doc>, output: seq<Doc>)
      returns (answer: seq<Bson>)
    requires Documented(s) && IsOrder(s.sem) && IsFieldName(key)
    requires Answers(s, Distinct(key, filter), fetch, docs, output)
    ensures Lists(s.sem, answer, Asked(Filter(s.sem, filter, docs), key))
    ensures output == IdDocs(if fetch.Some? then Take(answer, fetch.value) else answer)
  {
    var op := Distinct(key, filter);
    var all := output;
    if fetch.Some? {
      all := LimitIsAPrefix(s, op, fetch.value, docs, output);
    }
    answer := UncutIsExact(s, key, filter, docs, all);
  }
}
