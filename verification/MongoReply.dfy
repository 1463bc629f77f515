/** Reading a server's reply: columns, rows, and whether the server stopped early. */
module MongoReply {
  import opened Outcomes
  import opened Values
  import opened Numbers
  import opened Json
  import opened ExtJson
  import opened MongoCommand
  import opened MongoAnswers
  import opened MongoDistinct
  import Rows

  datatype Reply = Reply(columns: seq<string>, rows: seq<seq<Json>>, truncated: bool)

  // ----- columns -----

  function Add(columns: seq<string>, key: string): seq<string> {
    if key in columns then columns else columns + [key]
  }

  function Extend(columns: seq<string>, keys: seq<string>): seq<string>
    decreases |keys|
  {
    if keys == [] then columns else Extend(Add(columns, keys[0]), keys[1..])
  }

  function KeysOf(doc: Doc): seq<string> {
    seq(|doc|, i requires 0 <= i < |doc| => doc[i].key)
  }

  /** The field names of the documents, in the order they are met. */
  function KeysMet(docs: seq<Doc>): seq<string> {
    if docs == [] then [] else KeysMet(docs[..|docs| - 1]) + KeysOf(docs[|docs| - 1])
  }

  function Columns(docs: seq<Doc>): seq<string> {
    Extend([], KeysMet(docs))
  }

  /** Where a name is met first. */
  function FirstAt(keys: seq<string>, key: string): (i: nat)
    ensures i <= |keys|
    ensures i < |keys| <==> key in keys
  {
    if keys == [] then 0 else if keys[0] == key then 0 else 1 + FirstAt(keys[1..], key)
  }

  /** Each name met, once, in the order of first meeting. */
  ghost predicate FirstSeen(columns: seq<string>, keys: seq<string>) {
    && (forall c :: c in columns <==> c in keys)
    && (forall i, j :: 0 <= i < j < |columns| ==> FirstAt(keys, columns[i]) < FirstAt(keys, columns[j]))
  }

  lemma {:induction false} FirstAtAppend(keys: seq<string>, more: seq<string>, key: string)
    ensures FirstAt(keys + more, key) == if key in keys then FirstAt(keys, key) else |keys| + FirstAt(more, key)
  {
    if keys == [] {
      assert keys + more == more;
    } else {
      assert (keys + more)[1..] == keys[1..] + more;
      FirstAtAppend(keys[1..], more, key);
    }
  }

  lemma SeeOne(columns: seq<string>, seen: seq<string>, key: string)
    requires FirstSeen(columns, seen)
    ensures FirstSeen(Add(columns, key), seen + [key])
  {
    forall c
      ensures FirstAt(seen + [key], c) == if c in seen then FirstAt(seen, c) else |seen| + FirstAt([key], c)
    {
      FirstAtAppend(seen, [key], c);
    }
    forall i | 0 <= i < |columns|
      ensures FirstAt(seen + [key], columns[i]) == FirstAt(seen, columns[i]) < |seen|
    {
      assert columns[i] in columns;
    }
  }

  lemma {:induction false} SeeAll(columns: seq<string>, seen: seq<string>, keys: seq<string>)
    requires FirstSeen(columns, seen)
    ensures FirstSeen(Extend(columns, keys), seen + keys)
    decreases |keys|
  {
    if keys == [] {
      assert seen + keys == seen;
    } else {
      assert seen + [keys[0]] + keys[1..] == seen + keys;
      SeeOne(columns, seen, keys[0]);
      SeeAll(Add(columns, keys[0]), seen + [keys[0]], keys[1..]);
    }
  }

  /** The columns are the names of all the documents, each once, in the order of first meeting. */
  lemma ColumnsAreFirstSeen(docs: seq<Doc>)
    ensures FirstSeen(Columns(docs), KeysMet(docs))
  {
    SeeAll([], [], KeysMet(docs));
    assert [] + KeysMet(docs) == KeysMet(docs);
  }

  lemma {:induction false} ExtendInTwo(columns: seq<string>, keys: seq<string>, more: seq<string>)
    ensures Extend(columns, keys + more) == Extend(Extend(columns, keys), more)
    decreases |keys|
  {
    if keys == [] {
      assert keys + more == more;
    } else {
      assert (keys + more)[1..] == keys[1..] + more;
      ExtendInTwo(Add(columns, keys[0]), keys[1..], more);
    }
  }

  // ----- cells -----

  /** A document's value under a column, or null. */
  function Cell(lib: Lib, doc: Doc, column: string): Json {
    var v := Get(doc, column);
    if v.Some? then Relaxed(lib, v.value) else JNull
  }

  function Table(lib: Lib, columns: seq<string>, docs: seq<Doc>): seq<seq<Json>> {
    seq(|docs|, i requires 0 <= i < |docs| =>
      seq(|columns|, j requires 0 <= j < |columns| => Cell(lib, docs[i], columns[j])))
  }

  function ValueUnder(row: seq<Member>, column: string): Json {
    if row == [] then JNull
    else if row[0].key == column then row[0].value
    else ValueUnder(row[1..], column)
  }

  lemma {:induction false} NamedCell(lib: Lib, doc: Doc, column: string)
    ensures ValueUnder(RelaxedFields(lib, doc), column) == Cell(lib, doc, column)
  {
    if doc != [] {
      assert RelaxedFields(lib, doc)[1..] == RelaxedFields(lib, doc[1..]);
      NamedCell(lib, doc[1..], column);
    }
  }

  /** Puts named rows into the order of the columns. */
  function Align(columns: seq<string>, rows: seq<seq<Member>>): seq<seq<Json>> {
    seq(|rows|, i requires 0 <= i < |rows| =>
      seq(|columns|, j requires 0 <= j < |columns| => ValueUnder(rows[i], columns[j])))
  }

  /** The names of one document joined to the columns, and its row. */
  method ReadDoc(lib: Lib, doc: Doc, before: seq<string>) returns (columns: seq<string>, row: seq<Member>)
    ensures columns == Extend(before, KeysOf(doc))
    ensures row == RelaxedFields(lib, doc)
  {
    columns, row := before, [];
    for k := 0 to |doc|
      invariant Extend(columns, KeysOf(doc)[k..]) == Extend(before, KeysOf(doc))
      invariant row + RelaxedFields(lib, doc[k..]) == RelaxedFields(lib, doc)
    {
      var Field(key, value) := doc[k];
      assert KeysOf(doc)[k..][0] == key && KeysOf(doc)[k..][1..] == KeysOf(doc)[k + 1..];
      assert doc[k..][0] == doc[k] && doc[k..][1..] == doc[k + 1..];
      assert row + ([Member(key, Relaxed(lib, value))] + RelaxedFields(lib, doc[k + 1..]))
          == row + [Member(key, Relaxed(lib, value))] + RelaxedFields(lib, doc[k + 1..]);
      if key !in columns {
        columns := columns + [key];
      }
      row := row + [Member(key, Relaxed(lib, value))];
    }
    assert doc[|doc|..] == [] && KeysOf(doc)[|doc|..] == [];
  }

  /** The general reading: first-seen columns, and each cell the document's value or null. */
  method ReadDocs(lib: Lib, docs: seq<Doc>) returns (columns: seq<string>, rows: seq<seq<Json>>)
    ensures columns == Columns(docs) && rows == Table(lib, columns, docs)
  {
    columns := [];
    var named: seq<seq<Member>> := [];
    for k := 0 to |docs|
      invariant columns == Columns(docs[..k])
      invariant |named| == k && forall i :: 0 <= i < k ==> named[i] == RelaxedFields(lib, docs[i])
    {
      var row;
      ExtendInTwo([], KeysMet(docs[..k]), KeysOf(docs[k]));
      assert docs[..k + 1][..k] == docs[..k] && docs[..k + 1][k] == docs[k];
      columns, row := ReadDoc(lib, docs[k], columns);
      named := named + [row];
    }
    assert docs[..|docs|] == docs;
    AlignedIsTable(lib, columns, docs, named);
    rows := Align(columns, named);
  }

  lemma AlignedIsTable(lib: Lib, columns: seq<string>, docs: seq<Doc>, named: seq<seq<Member>>)
    requires |named| == |docs| && forall i :: 0 <= i < |docs| ==> named[i] == RelaxedFields(lib, docs[i])
    ensures Align(columns, named) == Table(lib, columns, docs)
  {
    forall i | 0 <= i < |docs|
      ensures Align(columns, named)[i] == Table(lib, columns, docs)[i]
    {
      forall j | 0 <= j < |columns|
        ensures ValueUnder(named[i], columns[j]) == Cell(lib, docs[i], columns[j])
      {
        NamedCell(lib, docs[i], columns[j]);
      }
    }
  }

  // ----- the reply -----

  predicate AllDocuments(items: seq<Bson>) {
    forall i :: 0 <= i < |items| ==> items[i].Document?
  }

  function Docs(items: seq<Bson>): seq<Doc>
    requires AllDocuments(items)
  {
    seq(|items|, i requires 0 <= i < |items| => items[i].fields)
  }

  function ValueRows(lib: Lib, docs: seq<Doc>): seq<seq<Json>> {
    seq(|docs|, i requires 0 <= i < |docs| => [Relaxed(lib, ValueAt(docs[i], "_id"))])
  }

  /** A batch as the reply of `op`. `None` for a batch that holds something else than documents. */
  function ReplyOf(lib: Lib, op: Op, batch: seq<Bson>, truncated: bool): Option<Reply> {
    if op.Count? && batch == [] then Some(Reply(["count"], [[JInt(0)]], truncated))
    else if !AllDocuments(batch) then None
    else if op.Distinct? then Some(Reply(["value"], ValueRows(lib, Docs(batch)), truncated))
    else Some(Reply(Columns(Docs(batch)), Table(lib, Columns(Docs(batch)), Docs(batch)), truncated))
  }

  /** The batch a reply carries, and whether its cursor was left open. */
  function Batch(reply: Doc): Option<(seq<Bson>, bool)> {
    match Get(reply, "cursor")
    case Some(Document(cursor)) =>
      (match Get(cursor, "firstBatch")
       case Some(Array(items)) =>
         var id := Get(cursor, "id");
         Some((items, id != None && id != Some(Int64(0))))
       case _ => None)
    case _ => None
  }

  /** The document has the key, and this value under it. */
  ghost predicate Holds(fields: Doc, key: string, v: Bson) {
    Field(key, v) in fields && forall f :: f in fields && f.key == key ==> f.value == v
  }

  ghost predicate Lacks(fields: Doc, key: string) {
    forall f :: f in fields ==> f.key != key
  }

  /** The cursor document a server answers with: its first batch, and the id it may leave out. */
  ghost predicate IsCursor(cursor: Doc, batch: seq<Bson>, id: Option<Bson>) {
    && Holds(cursor, "firstBatch", Array(batch))
    && match id
       case Some(v) => Holds(cursor, "id", v)
       case None => Lacks(cursor, "id")
  }

  /** A server's reply, in whatever order its fields come and whatever else is among them. */
  ghost predicate Replies(reply: Doc, batch: seq<Bson>, id: Option<Bson>) {
    exists cursor: Doc :: IsCursor(cursor, batch, id) && Holds(reply, "cursor", Document(cursor))
  }

  /** A server that has nothing more to send says zero, or nothing. */
  predicate LeftOpen(id: Option<Bson>) {
    match id
    case Some(Int64(n)) => n != 0
    case Some(_) => true
    case None => false
  }

  lemma {:induction false} HeldIsGot(fields: Doc, key: string, v: Bson)
    requires Holds(fields, key, v)
    ensures Get(fields, key) == Some(v)
  {
    if fields[0].key != key {
      HeldIsGot(fields[1..], key, v);
    }
  }

  lemma {:induction false} LackedIsNotGot(fields: Doc, key: string)
    ensures Lacks(fields, key) <==> Get(fields, key) == None
  {
    if fields != [] {
      LackedIsNotGot(fields[1..], key);
    }
  }

  /** What the server sent is what is read: its batch, and whether it left its cursor open. */
  lemma SentIsRead(reply: Doc, batch: seq<Bson>, id: Option<Bson>)
    requires Replies(reply, batch, id)
    ensures Batch(reply) == Some((batch, LeftOpen(id)))
  {
    var cursor: Doc :| IsCursor(cursor, batch, id) && Holds(reply, "cursor", Document(cursor));
    HeldIsGot(reply, "cursor", Document(cursor));
    HeldIsGot(cursor, "firstBatch", Array(batch));
    LackedIsNotGot(cursor, "id");
    if id.Some? {
      HeldIsGot(cursor, "id", id.value);
    }
  }

  /** The document has no batch to read: no cursor document, or no list under `firstBatch` in it. */
  ghost predicate HoldsNoBatch(reply: Doc) {
    || Lacks(reply, "cursor")
    || exists v :: Holds(reply, "cursor", v) && (v.Document? ==> HoldsNoList(v.fields))
  }

  ghost predicate HoldsNoList(cursor: Doc) {
    Lacks(cursor, "firstBatch") || exists v :: Holds(cursor, "firstBatch", v) && !v.Array?
  }

  lemma NoBatchIsNoReply(reply: Doc)
    requires HoldsNoBatch(reply)
    ensures Batch(reply) == None
  {
    LackedIsNotGot(reply, "cursor");
    if !Lacks(reply, "cursor") {
      var v :| Holds(reply, "cursor", v) && (v.Document? ==> HoldsNoList(v.fields));
      HeldIsGot(reply, "cursor", v);
      if v.Document? {
        LackedIsNotGot(v.fields, "firstBatch");
        if !Lacks(v.fields, "firstBatch") {
          var w :| Holds(v.fields, "firstBatch", w) && !w.Array?;
          HeldIsGot(v.fields, "firstBatch", w);
        }
      }
    }
  }

  /** Every server's reply is read for what it carries, and a document without a batch is refused. */
  method ReadReply(lib: Lib, op: Op, reply: Doc) returns (r: Option<Reply>)
    ensures forall batch: seq<Bson>, id: Option<Bson> :: Replies(reply, batch, id) ==>
              r == ReplyOf(lib, op, batch, LeftOpen(id))
    ensures HoldsNoBatch(reply) ==> r == None
  {
    forall items: seq<Bson>, id: Option<Bson> | Replies(reply, items, id)
      ensures Batch(reply) == Some((items, LeftOpen(id)))
    {
      SentIsRead(reply, items, id);
    }
    if HoldsNoBatch(reply) {
      NoBatchIsNoReply(reply);
    }
    var batch := Batch(reply);
    if batch.None? {
      return None;
    }
    var (items, open) := batch.value;
    if op.Count? && items == [] {
      return Some(Reply(["count"], [[JInt(0)]], open));
    }
    var docs: seq<Doc> := [];
    for k := 0 to |items|
      invariant |docs| == k && forall i :: 0 <= i < k ==> items[i].Document? && docs[i] == items[i].fields
    {
      if !items[k].Document? {
        return None;
      }
      docs := docs + [items[k].fields];
    }
    assert docs == Docs(items);
    if op.Distinct? {
      r := Some(Reply(["value"], ValueRows(lib, docs), open));
    } else {
      var columns, rows := ReadDocs(lib, docs);
      r := Some(Reply(columns, rows, open));
    }
  }

  // ----- what an answer says, from the collection to the rows -----

  function AsItems(docs: seq<Doc>): seq<Bson> {
    seq(|docs|, i requires 0 <= i < |docs| => Document(docs[i]))
  }

  /** A server sends the beginning of its answer, and leaves the cursor open when something is missing. */
  predicate Sends(output: seq<Doc>, batch: seq<Doc>, open: bool) {
    batch <= output && (batch == output || open)
  }

  /**
   The batch nyet asks for holds the whole limited answer, so only the server's own size limit can cut
   it; a count is one document, which every batch holds.
   */
  lemma BatchHoldsAnswer(s: Server, cmd: Doc, request: Request, n: nat, maxTimeMs: nat, docs: seq<Doc>,
                         output: seq<Doc>)
    requires Documented(s) && Serves(s, cmd, docs, output)
    requires ServerReads(cmd) == Some(Meant(request, Some(n), maxTimeMs))
    requires request.op.Find? && request.op.limit.Some? ==> request.op.limit.value >= 1
    ensures var batch := ServerReads(cmd).value.batchSize;
            if request.op.Count? then batch == None && |output| <= 1
            else batch.Some? && |output| <= batch.value
  {
    CommandServes(s, cmd, request, Some(n), maxTimeMs, docs, output);
    var op, fetch := request.op, Fetch(Some(n));
    if op.Count? {
      CountIsExact(s, op.filter, fetch, docs, output);
    } else {
      var all := LimitIsAPrefix(s, op, fetch.value, docs, output);
    }
  }

  /** The count that is read back is the number of matching documents. */
  lemma CountReadsBack(lib: Lib, s: Server, cmd: Doc, request: Request, fetchLimit: Option<nat>, maxTimeMs: nat,
                       docs: seq<Doc>, output: seq<Doc>, batch: seq<Doc>, open: bool)
    requires Documented(s) && request.op.Count? && Serves(s, cmd, docs, output)
    requires ServerReads(cmd) == Some(Meant(request, fetchLimit, maxTimeMs))
    requires Sends(output, batch, open) && (batch == [] ==> output == [])
    ensures ReplyOf(lib, request.op, AsItems(batch), open)
         == Some(Reply(["count"], [[JInt(|Filter(s.sem, request.op.filter, docs)|)]], open))
  {
    CommandServes(s, cmd, request, fetchLimit, maxTimeMs, docs, output);
    CountIsExact(s, request.op.filter, Fetch(fetchLimit), docs, output);
    var n := |Filter(s.sem, request.op.filter, docs)|;
    if n > 0 {
      CountCell(lib, request.op, Whole(n), batch, open);
    }
  }

  lemma CountCell(lib: Lib, op: Op, n: Bson, batch: seq<Doc>, open: bool)
    requires op.Count? && batch == [[Field("count", n)]]
    ensures ReplyOf(lib, op, AsItems(batch), open) == Some(Reply(["count"], [[Relaxed(lib, n)]], open))
  {
    var doc := [Field("count", n)];
    assert Docs(AsItems(batch)) == [doc];
    assert KeysOf(doc) == ["count"];
    assert [doc][..0] == [];
    assert KeysMet([doc]) == ["count"];
    assert Extend([], ["count"]) == ["count"];
    assert Table(lib, ["count"], [doc])[0] == [Cell(lib, doc, "count")];
    assert Table(lib, ["count"], [doc]) == [[Cell(lib, doc, "count")]];
  }

  lemma DistinctRows(lib: Lib, op: Op, values: seq<Bson>, batch: seq<Doc>, open: bool)
    requires op.Distinct? && Sends(IdDocs(values), batch, open)
    ensures var reply := ReplyOf(lib, op, AsItems(batch), open);
            && reply.Some? && reply.value.columns == ["value"]
            && |reply.value.rows| <= |values|
            && (!open ==> |reply.value.rows| == |values|)
            && forall i :: 0 <= i < |reply.value.rows| ==> reply.value.rows[i] == [Relaxed(lib, values[i])]
  {
  }

  lemma DistinctListing(s: Server, cmd: Doc, request: Request, n: nat, maxTimeMs: nat, docs: seq<Doc>, output: seq<Doc>)
      returns (answer: seq<Bson>)
    requires Documented(s) && IsOrder(s.sem) && request.op.Distinct? && IsFieldName(request.op.key)
    requires Serves(s, cmd, docs, output) && ServerReads(cmd) == Some(Meant(request, Some(n), maxTimeMs))
    ensures Lists(s.sem, answer, Asked(Filter(s.sem, request.op.filter, docs), request.op.key))
    ensures output == IdDocs(Take(answer, Fetch(Some(n)).value))
  {
    CommandServes(s, cmd, request, Some(n), maxTimeMs, docs, output);
    answer := DistinctIsExact(s, request.op.key, request.op.filter, Fetch(Some(n)), docs, output);
  }

  /** The values that are read back are the first of a listing of the values asked for. */
  lemma DistinctReadsBack(lib: Lib, s: Server, cmd: Doc, request: Request, n: nat, maxTimeMs: nat,
                          docs: seq<Doc>, output: seq<Doc>, batch: seq<Doc>, open: bool)
      returns (answer: seq<Bson>)
    requires Documented(s) && IsOrder(s.sem) && request.op.Distinct? && IsFieldName(request.op.key)
    requires Serves(s, cmd, docs, output) && Sends(output, batch, open)
    requires ServerReads(cmd) == Some(Meant(request, Some(n), maxTimeMs))
    ensures Lists(s.sem, answer, Asked(Filter(s.sem, request.op.filter, docs), request.op.key))
    ensures var fetch, reply := Fetch(Some(n)).value, ReplyOf(lib, request.op, AsItems(batch), open);
            && reply.Some? && reply.value.columns == ["value"]
            && |reply.value.rows| <= Min(fetch, |answer|)
            && (!open ==> |reply.value.rows| == Min(fetch, |answer|))
            && forall i :: 0 <= i < |reply.value.rows| ==> reply.value.rows[i] == [Relaxed(lib, answer[i])]
  {
    answer := DistinctListing(s, cmd, request, n, maxTimeMs, docs, output);
    DistinctRows(lib, request.op, Take(answer, Fetch(Some(n)).value), batch, open);
  }

  lemma RowsAgree(sem: Semantics, a: seq<Bson>, b: seq<Bson>, k: int, i: nat)
    requires |a| == |b| && i < |Take(a, k)| && sem.same(a[i], b[i])
    ensures |Take(a, k)| == |Take(b, k)|
    ensures sem.same(ValueAt(IdDocs(Take(a, k))[i], "_id"), ValueAt(IdDocs(Take(b, k))[i], "_id"))
  {
    IdOf(Take(a, k), i);
    IdOf(Take(b, k), i);
  }

  /** Two listings of the same values, cut alike, agree row by row. */
  lemma CutListingsAgree(sem: Semantics, docs: seq<Doc>, key: string, a: seq<Bson>, b: seq<Bson>, k: int, i: nat)
    requires IsOrder(sem) && OrdersScalars(sem) && NoNestedArrays(docs, key)
    requires Lists(sem, a, Asked(docs, key)) && Lists(sem, b, Asked(docs, key)) && i < |Take(a, k)|
    ensures |Take(a, k)| == |Take(b, k)|
    ensures sem.same(ValueAt(IdDocs(Take(a, k))[i], "_id"), ValueAt(IdDocs(Take(b, k))[i], "_id"))
  {
    ListingsAgree(sem, docs, key, a, b, i);
    RowsAgree(sem, a, b, k, i);
  }

  /** Without arrays in arrays two answers to the same command agree row by row, whatever order `$group` emits. */
  lemma DistinctIsDetermined(s: Server, cmd: Doc, request: Request, n: nat, maxTimeMs: nat, docs: seq<Doc>,
                             one: seq<Doc>, other: seq<Doc>, i: nat)
    requires Documented(s) && IsOrder(s.sem) && OrdersScalars(s.sem)
    requires request.op.Distinct? && IsFieldName(request.op.key)
    requires NoNestedArrays(Filter(s.sem, request.op.filter, docs), request.op.key)
    requires ServerReads(cmd) == Some(Meant(request, Some(n), maxTimeMs))
    requires Serves(s, cmd, docs, one) && Serves(s, cmd, docs, other) && i < |one|
    ensures |one| == |other| && s.sem.same(ValueAt(one[i], "_id"), ValueAt(other[i], "_id"))
  {
    var a := DistinctListing(s, cmd, request, n, maxTimeMs, docs, one);
    var b := DistinctListing(s, cmd, request, n, maxTimeMs, docs, other);
    CutListingsAgree(s.sem, Filter(s.sem, request.op.filter, docs), request.op.key, a, b, Fetch(Some(n)).value, i);
  }

  /** The rows of the documents, in the columns of the documents. */
  function RowsOf(lib: Lib, op: Op, docs: seq<Doc>, columns: seq<string>): seq<seq<Json>> {
    if op.Distinct? then ValueRows(lib, docs) else Table(lib, columns, docs)
  }

  lemma RowsOfPrefix(lib: Lib, op: Op, batch: seq<Doc>, all: seq<Doc>, n: nat, columns: seq<string>)
    requires batch <= all && n <= |batch|
    ensures RowsOf(lib, op, batch, columns)[..n] == RowsOf(lib, op, all[..n], columns)
  {
  }

  lemma ReplyRows(lib: Lib, op: Op, batch: seq<Doc>, open: bool)
    requires !op.Count?
    ensures var reply := ReplyOf(lib, op, AsItems(batch), open);
            && reply.Some? && reply.value.truncated == open && |reply.value.rows| == |batch|
            && reply.value.rows == RowsOf(lib, op, batch, reply.value.columns)
  {
    assert Docs(AsItems(batch)) == batch;
  }

  lemma ServedPrefix(s: Server, cmd: Doc, request: Request, n: nat, maxTimeMs: nat, docs: seq<Doc>,
                     output: seq<Doc>)
      returns (all: seq<Doc>)
    requires Documented(s) && !request.op.Count? && Serves(s, cmd, docs, output)
    requires ServerReads(cmd) == Some(Meant(request, Some(n), maxTimeMs))
    ensures Answers(s, request.op, None, docs, all) && output == Take(all, Fetch(Some(n)).value)
  {
    CommandServes(s, cmd, request, Some(n), maxTimeMs, docs, output);
    all := LimitIsAPrefix(s, request.op, Fetch(Some(n)).value, docs, output);
  }

  /**
   From the server to the agent. The rows released are those of the first documents of the query's
   own answer, no more than the limit; when `truncated` is not said, that is the whole answer.
   */
  method ReleaseReply(lib: Lib, request: Request, limit: U64, maxTimeMs: nat, cmd: Doc, reply: Doc,
                      ghost s: Server, ghost docs: seq<Doc>, ghost output: seq<Doc>, ghost batch: seq<Doc>,
                      ghost id: Option<Bson>)
      returns (r: Option<Rows.Released<seq<Json>>>, columns: seq<string>, ghost all: seq<Doc>)
    requires Documented(s) && !request.op.Count? && Serves(s, cmd, docs, output)
    requires ServerReads(cmd) == Some(Meant(request, Some(Rows.FetchLimit(limit)), maxTimeMs))
    requires Sends(output, batch, LeftOpen(id)) && Replies(reply, AsItems(batch), id)
    ensures Answers(s, request.op, None, docs, all)
    ensures r.Some? && |r.value.rows| <= limit && |r.value.rows| <= |all|
    ensures r.value.rows == RowsOf(lib, request.op, all[..|r.value.rows|], columns)
    ensures !r.value.truncated && limit < I64_MAX ==> |r.value.rows| == |all|
    ensures limit < |all| && limit < I64_MAX ==> r.value.truncated
  {
    all := ServedPrefix(s, cmd, request, Rows.FetchLimit(limit), maxTimeMs, docs, output);
    ReplyRows(lib, request.op, batch, LeftOpen(id));
    var read := ReadReply(lib, request.op, reply);
    columns := read.value.columns;
    var cut := Rows.Cut(read.value.rows, limit, read.value.truncated);
    r := Some(cut);
    RowsOfPrefix(lib, request.op, batch, all, |cut.rows|, columns);
  }
}
