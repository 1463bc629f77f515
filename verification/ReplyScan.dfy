/** Net B as it runs: the rows are overwritten in place and the names met are gathered on the way. */
module ReplyScan {
  import opened Outcomes
  import opened Values
  import opened MongoSyntax
  import opened Json
  import opened Classifier
  import opened PolicyScope
  import opened Redaction
  import opened ScanFaults
  import R = MongoRequests

  /** The cells of a row whose column is protected, up to the `n`-th column, replaced. */
  function MaskColumns(c: Rules, columns: seq<string>, n: nat, row: seq<Json>): (r: seq<Json>)
    requires c.pii.Some? && n <= |columns|
    ensures |r| == |row|
  {
    seq(|row|, j requires 0 <= j < |row| => if j < n && PathHit(c, columns[j]) then REDACTED else row[j])
  }

  /** The rows with the cells of the first `n` columns judged. */
  function JudgedUpTo(c: Rules, columns: seq<string>, n: nat, rows: seq<seq<Json>>): (r: seq<seq<Json>>)
    requires c.pii.Some? && n <= |columns|
    ensures |r| == |rows|
  {
    seq(|rows|, k requires 0 <= k < |rows| => MaskColumns(c, columns, n, rows[k]))
  }

  lemma NothingJudged(c: Rules, columns: seq<string>, rows: seq<seq<Json>>)
    requires c.pii.Some?
    ensures JudgedUpTo(c, columns, 0, rows) == rows
  {
    assert forall k :: 0 <= k < |rows| ==> MaskColumns(c, columns, 0, rows[k]) == rows[k];
  }

  /** One more column: its cells are replaced, or nothing changes. */
  lemma JudgeOneMore(c: Rules, columns: seq<string>, n: nat, rows: seq<seq<Json>>)
    requires c.pii.Some? && n < |columns|
    ensures JudgedUpTo(c, columns, n + 1, rows)
            == if PathHit(c, columns[n]) then Overwritten(JudgedUpTo(c, columns, n, rows), n)
               else JudgedUpTo(c, columns, n, rows)
  {
    forall k | 0 <= k < |rows|
      ensures MaskColumns(c, columns, n + 1, rows[k])
              == if PathHit(c, columns[n]) then WithMarker(MaskColumns(c, columns, n, rows[k]), n)
                 else MaskColumns(c, columns, n, rows[k])
    {
    }
  }

  /** The `n`-th cell of the row, when there is one, is the marker. */
  function WithMarker(row: seq<Json>, n: nat): seq<Json> {
    if n < |row| then row[n := REDACTED] else row
  }

  function Overwritten(rows: seq<seq<Json>>, n: nat): seq<seq<Json>> {
    seq(|rows|, k requires 0 <= k < |rows| => WithMarker(rows[k], n))
  }

  /** A row as the agent gets it. */
  function RedactRow(c: Rules, columns: seq<string>, judged: bool, row: seq<Json>): seq<Json>
    requires c.pii.Some?
  {
    RedactItems(c, MaskColumns(c, columns, if judged then |columns| else 0, row))
  }

  function ProtectedColumns(c: Rules, columns: seq<string>): set<string>
    requires c.pii.Some?
  {
    set column | column in columns && PathHit(c, column)
  }

  /** The protected keys met in the cells of the rows. */
  function MetInRows(c: Rules, rows: seq<seq<Json>>): set<string>
    requires c.pii.Some?
  {
    if rows == [] then {} else MetInItems(c, rows[0]) + MetInRows(c, rows[1..])
  }

  predicate AllShallow(c: Rules, rows: seq<seq<Json>>)
    requires c.pii.Some?
  {
    forall k :: 0 <= k < |rows| ==> ItemsShallow(c, rows[k], 0)
  }

  lemma {:induction false} MetInRowsAppend(c: Rules, rows: seq<seq<Json>>, row: seq<Json>)
    requires c.pii.Some?
    ensures MetInRows(c, rows + [row]) == MetInRows(c, rows) + MetInItems(c, row)
  {
    if rows == [] {
      assert rows + [row] == [row] && [row][1..] == [];
    } else {
      assert (rows + [row])[0] == rows[0] && (rows + [row])[1..] == rows[1..] + [row];
      MetInRowsAppend(c, rows[1..], row);
    }
  }

  lemma {:induction false} MetInItemsAppend(c: Rules, items: seq<Json>, item: Json)
    requires c.pii.Some?
    ensures MetInItems(c, items + [item]) == MetInItems(c, items) + Met(c, item)
  {
    if items == [] {
      assert items + [item] == [item] && [item][1..] == [];
    } else {
      assert (items + [item])[0] == items[0] && (items + [item])[1..] == items[1..] + [item];
      MetInItemsAppend(c, items[1..], item);
    }
  }

  lemma {:induction false} MetInMembersAppend(c: Rules, members: seq<Member>, m: Member)
    requires c.pii.Some?
    ensures MetInMembers(c, members + [m]) == MetInMembers(c, members) + MetInMember(c, m)
  {
    if members == [] {
      assert members + [m] == [m] && [m][1..] == [];
    } else {
      assert (members + [m])[0] == members[0] && (members + [m])[1..] == members[1..] + [m];
      MetInMembersAppend(c, members[1..], m);
    }
  }

  class Scan {
    const c: Rules
    var rows: seq<seq<Json>>
    var masked: set<string>

    constructor (c: Rules, rows: seq<seq<Json>>)
      ensures this.c == c && this.rows == rows && masked == {}
    {
      this.c := c;
      this.rows := rows;
      masked := {};
    }

    /** What a scan of one value answers; the caller puts the answer in the value's place. */
    ghost predicate Scanned(v: Json, depth: nat, r: Result<Json>, before: set<string>)
      requires c.pii.Some?
      reads this
    {
      match Fault(c, v, depth)
      case Some(reason) => r == Err(reason)
      case None => r == Ok(Redact(c, v)) && masked == before + Met(c, v)
    }

    method ScanValue(v: Json, depth: nat) returns (r: Result<Json>)
      requires c.pii.Some?
      modifies `masked
      ensures Scanned(v, depth, r, old(masked))
      decreases v, 1
    {
      if depth > MAX_DEPTH {
        return Err(PiiUnprovable);
      }
      match v {
        case JObject(members) =>
          var done :- ScanMembers(members, depth + 1);
          r := Ok(JObject(done));
        case JList(items) =>
          var done :- ScanItems(items, depth + 1);
          r := Ok(JList(done));
        case _ =>
          r := Ok(v);
      }
    }

    method ScanMember(m: Member, depth: nat) returns (r: Result<Member>)
      requires c.pii.Some?
      modifies `masked
      ensures match FaultInMember(c, m, depth)
              case Some(reason) => r == Err(reason)
              case None => r == Ok(RedactMember(c, m)) && masked == old(masked) + MetInMember(c, m)
      decreases m, 0
    {
      if PathHit(c, m.key) {
        if !c.pii.value.mask {
          return Err(PiiColumn);
        }
        masked := masked + {m.key};
        return Ok(Member(m.key, REDACTED));
      }
      var value :- ScanValue(m.value, depth);
      return Ok(Member(m.key, value));
    }

    method ScanMembers(members: seq<Member>, depth: nat) returns (r: Result<seq<Member>>)
      requires c.pii.Some?
      modifies `masked
      ensures match FaultInMembers(c, members, depth)
              case Some(reason) => r == Err(reason)
              case None => r == Ok(RedactMembers(c, members)) && masked == old(masked) + MetInMembers(c, members)
      decreases members, 0
    {
      var done := members;
      for k := 0 to |members|
        invariant |done| == |members|
        invariant forall i :: 0 <= i < k ==> done[i] == RedactMember(c, members[i])
        invariant FaultInMembers(c, members[..k], depth) == None
        invariant forall i :: k <= i < |members| ==> done[i] == members[i]
        invariant masked == old(masked) + MetInMembers(c, members[..k])
      {
        assert members[..k + 1] == members[..k] + [members[k]];
        MetInMembersAppend(c, members[..k], members[k]);
        FirstMemberDecides(c, members, depth, k);
        var m :- ScanMember(done[k], depth);
        done := done[k := m];
      }
      assert members[..|members|] == members;
      assert done == RedactMembers(c, members);
      return Ok(done);
    }

    /** The elements of a list, or the cells of a row: each replaced by what the scan makes of it. */
    method ScanItems(items: seq<Json>, depth: nat) returns (r: Result<seq<Json>>)
      requires c.pii.Some?
      modifies `masked
      ensures match FaultInItems(c, items, depth)
              case Some(reason) => r == Err(reason)
              case None => r == Ok(RedactItems(c, items)) && masked == old(masked) + MetInItems(c, items)
      decreases items, 0
    {
      var done := items;
      for k := 0 to |items|
        invariant |done| == |items|
        invariant forall i :: 0 <= i < k ==> done[i] == Redact(c, items[i])
        invariant FaultInItems(c, items[..k], depth) == None
        invariant forall i :: k <= i < |items| ==> done[i] == items[i]
        invariant masked == old(masked) + MetInItems(c, items[..k])
      {
        assert items[..k + 1] == items[..k] + [items[k]];
        MetInItemsAppend(c, items[..k], items[k]);
        FirstItemDecides(c, items, depth, k);
        var value :- ScanValue(done[k], depth);
        done := done[k := value];
      }
      assert items[..|items|] == items;
      assert done == RedactItems(c, items);
      return Ok(done);
    }

    /** The top-level keys of the documents are the columns: judged by name, masked by column. */
    method ScanColumns(columns: seq<string>) returns (r: Result<()>)
      requires c.pii.Some?
      modifies this
      ensures r.Ok? <==> c.pii.value.mask || ProtectedColumns(c, columns) == {}
      ensures r.Err? ==> r.reason == PiiColumn
      ensures r.Ok? ==> masked == old(masked) + ProtectedColumns(c, columns)
      ensures r.Ok? ==> rows == JudgedUpTo(c, columns, |columns|, old(rows))
    {
      NothingJudged(c, columns, rows);
      for n := 0 to |columns|
        invariant rows == JudgedUpTo(c, columns, n, old(rows))
        invariant masked == old(masked) + ProtectedColumns(c, columns[..n])
        invariant c.pii.value.mask || ProtectedColumns(c, columns[..n]) == {}
      {
        assert columns[..n + 1] == columns[..n] + [columns[n]];
        assert columns[n] in columns;
        JudgeOneMore(c, columns, n, old(rows));
        if PathHit(c, columns[n]) {
          if !c.pii.value.mask {
            assert columns[n] in ProtectedColumns(c, columns);
            return Err(PiiColumn);
          }
          MaskColumn(n);
          masked := masked + {columns[n]};
        }
      }
      assert columns[..|columns|] == columns;
      return Ok(());
    }

    /** Overwrites the `n`-th cell of every row that has one. */
    method MaskColumn(n: nat)
      modifies `rows
      ensures rows == Overwritten(old(rows), n)
    {
      for k := 0 to |rows|
        invariant |rows| == |old(rows)|
        invariant forall i :: 0 <= i < k ==> rows[i] == WithMarker(old(rows)[i], n)
        invariant forall i :: k <= i < |rows| ==> rows[i] == old(rows)[i]
      {
        if n < |rows[k]| {
          rows := rows[k := rows[k][n := REDACTED]];
        }
      }
    }

    /** Every cell of every row, each put back in its place. */
    method ScanCells() returns (r: Result<()>)
      requires c.pii.Some?
      modifies this
      ensures FaultInRows(c, old(rows)) == if r.Ok? then None else Some(r.reason)
      ensures r.Ok? ==> masked == old(masked) + MetInRows(c, old(rows))
      ensures r.Ok? ==> |rows| == |old(rows)|
      ensures r.Ok? ==> forall k :: 0 <= k < |rows| ==> rows[k] == RedactItems(c, old(rows)[k])
    {
      var before := rows;
      for k := 0 to |before|
        invariant |rows| == |before|
        invariant forall i :: 0 <= i < k ==> rows[i] == RedactItems(c, before[i])
        invariant forall i :: k <= i < |rows| ==> rows[i] == before[i]
        invariant FaultInRows(c, before[..k]) == None
        invariant masked == old(masked) + MetInRows(c, before[..k])
      {
        assert before[..k + 1] == before[..k] + [before[k]];
        MetInRowsAppend(c, before[..k], before[k]);
        FirstRowDecides(c, before, k);
        var cells :- ScanItems(before[k], 0);
        rows := rows[k := cells];
      }
      assert before[..|before|] == before;
      return Ok(());
    }
  }

  lemma {:induction false} RowMet(c: Rules, rows: seq<seq<Json>>, k: nat)
    requires c.pii.Some? && k < |rows|
    ensures MetInItems(c, rows[k]) <= MetInRows(c, rows)
  {
    if k > 0 {
      RowMet(c, rows[1..], k - 1);
    }
  }

  // ----- the whole scan -----

  /** `count` and `distinct` answer in a column of nyet's own; its label is no document key. */
  predicate ColumnsAreKeys(op: Op) {
    !op.Count? && !op.Distinct?
  }

  /** The rows as they are when the cells are looked at. */
  function Judged(c: Rules, columns: seq<string>, judged: bool, rows: seq<seq<Json>>): (r: seq<seq<Json>>)
    requires c.pii.Some?
    ensures |r| == |rows|
  {
    JudgedUpTo(c, columns, if judged then |columns| else 0, rows)
  }

  /** Every protected name of the result: of its columns, and of the documents in its cells. */
  function NamesMet(c: Rules, columns: seq<string>, judged: bool, rows: seq<seq<Json>>): set<string>
    requires c.pii.Some?
  {
    (if judged then ProtectedColumns(c, columns) else {}) + MetInRows(c, Judged(c, columns, judged, rows))
  }

  function RedactRows(c: Rules, columns: seq<string>, judged: bool, rows: seq<seq<Json>>): seq<seq<Json>>
    requires c.pii.Some?
  {
    seq(|rows|, k requires 0 <= k < |rows| => RedactRow(c, columns, judged, rows[k]))
  }

  lemma {:induction false} RowFaultsTell(c: Rules, rows: seq<seq<Json>>)
    requires c.pii.Some?
    ensures Tells(c, FaultInRows(c, rows), AllShallow(c, rows), MetInRows(c, rows))
  {
    if rows != [] {
      ItemFaultsTell(c, rows[0], 0);
      RowFaultsTell(c, rows[1..]);
      assert forall k :: 0 < k < |rows| ==> rows[k] == rows[1..][k - 1];
    }
  }

  /** Why an answer is withheld: a protected column under deny, and then the first fault in the cells. */
  function FaultInAnswer(c: Rules, columns: seq<string>, judged: bool, rows: seq<seq<Json>>): (r: Option<Reason>)
    requires c.pii.Some?
  {
    if judged && !c.pii.value.mask && ProtectedColumns(c, columns) != {} then Some(PiiColumn)
    else FaultInRows(c, Judged(c, columns, judged, rows))
  }

  /** An answer is withheld for a name under deny, or for its depth, and not otherwise. */
  lemma AnswerFaultTells(c: Rules, columns: seq<string>, judged: bool, rows: seq<seq<Json>>)
    requires c.pii.Some?
    ensures Tells(c, FaultInAnswer(c, columns, judged, rows), AllShallow(c, Judged(c, columns, judged, rows)),
                  NamesMet(c, columns, judged, rows))
  {
    RowFaultsTell(c, Judged(c, columns, judged, rows));
  }

  /** What net B promises about one answer. */
  ghost predicate Withheld(c: Rules, columns: seq<string>, judged: bool, rows: seq<seq<Json>>,
                           r: Result<(seq<seq<Json>>, set<string>)>)
    requires c.pii.Some?
  {
    && (r.Ok? <==> && (c.pii.value.mask || NamesMet(c, columns, judged, rows) == {})
                   && AllShallow(c, Judged(c, columns, judged, rows)))
    && (r.Ok? ==> r.value == (RedactRows(c, columns, judged, rows), NamesMet(c, columns, judged, rows)))
    && (r.Ok? && !c.pii.value.mask ==> r.value == (rows, {}))
    && FaultInAnswer(c, columns, judged, rows) == (if r.Ok? then None else Some(r.reason))
    && Tells(c, FaultInAnswer(c, columns, judged, rows), AllShallow(c, Judged(c, columns, judged, rows)),
             NamesMet(c, columns, judged, rows))
  }

  method ScanRows(c: Rules, columns: seq<string>, judged: bool, rows: seq<seq<Json>>)
    returns (r: Result<(seq<seq<Json>>, set<string>)>)
    requires c.pii.Some?
    ensures Withheld(c, columns, judged, rows, r)
  {
    AnswerFaultTells(c, columns, judged, rows);
    var scan := new Scan(c, rows);
    if judged {
      var _ :- scan.ScanColumns(columns);
    } else {
      NothingJudged(c, columns, rows);
    }
    ghost var before := Judged(c, columns, judged, rows);
    assert scan.rows == before;
    var _ :- scan.ScanCells();
    CellsAreRows(c, columns, judged, rows, scan.rows);
    assert scan.masked == NamesMet(c, columns, judged, rows);
    if !c.pii.value.mask {
      NothingMetRowsUnchanged(c, columns, judged, rows);
    }
    return Ok((scan.rows, scan.masked));
  }

  /** What net B promises for the columns that are document keys. */
  ghost predicate ColumnsHidden(c: Rules, columns: seq<string>, rows: seq<seq<Json>>,
                                r: Result<(seq<seq<Json>>, set<string>)>)
    requires c.pii.Some?
  {
    && (!c.pii.value.mask && (exists column :: column in columns && Touches(c, column)) ==> r == Err(PiiColumn))
    && (r.Ok? ==>
          && |r.value.0| == |rows|
          && forall k :: 0 <= k < |rows| ==> |r.value.0[k]| == |rows[k]| && RowHidden(c, columns, r.value.0[k]))
    && (r.Ok? ==> forall column :: column in columns && Touches(c, column) ==> column in r.value.1)
  }

  /** Every cell of a protected column is the marker. */
  ghost predicate RowHidden(c: Rules, columns: seq<string>, row: seq<Json>)
    requires c.pii.Some?
  {
    forall j :: 0 <= j < |row| && j < |columns| && Touches(c, columns[j]) ==> row[j] == JText("[REDACTED]")
  }

  lemma ColumnsAreHidden(c: Rules, columns: seq<string>, rows: seq<seq<Json>>,
                         r: Result<(seq<seq<Json>>, set<string>)>)
    requires c.pii.Some? && Withheld(c, columns, true, rows, r)
    ensures ColumnsHidden(c, columns, rows, r)
  {
    forall column
      ensures column in columns && Touches(c, column) <==> column in ProtectedColumns(c, columns)
    {
      PathHitIsExact(c, column);
    }
    if r.Ok? {
      forall k | 0 <= k < |rows|
        ensures RowHidden(c, columns, r.value.0[k])
      {
        assert r.value.0[k] == RedactRow(c, columns, true, rows[k]);
        assert forall j :: 0 <= j < |columns| ==> columns[j] in columns;
      }
    }
  }

  /** The one column of a `count` or a `distinct` is not judged: its name decides nothing. */
  lemma OwnColumnsDecideNothing(c: Rules, columns: seq<string>, others: seq<string>, rows: seq<seq<Json>>,
                                r: Result<(seq<seq<Json>>, set<string>)>)
    requires c.pii.Some? && Withheld(c, columns, false, rows, r)
    ensures Withheld(c, others, false, rows, r)
  {
    NothingJudged(c, columns, rows);
    NothingJudged(c, others, rows);
    assert RedactRows(c, columns, false, rows) == RedactRows(c, others, false, rows) by {
      forall k | 0 <= k < |rows|
        ensures RedactRow(c, columns, false, rows[k]) == RedactRow(c, others, false, rows[k])
      {
        assert MaskColumns(c, columns, 0, rows[k]) == rows[k] == MaskColumns(c, others, 0, rows[k]);
      }
    }
  }

  /**
   Net B. Under mask it answers the redacted rows and the names met; under deny it answers only when
   there is nothing to redact, and then the rows are the ones it was given. The columns of a `find`
   or an aggregation are document keys and are judged too.
   */
  method ScanReply(lib: Lib, lists: Lists, text: string, pii: PiiRules, columns: seq<string>, rows: seq<seq<Json>>)
    returns (r: Result<(seq<seq<Json>>, set<string>)>)
    ensures R.Parse(lib, text).Err? ==> r == Err(R.Parse(lib, text).reason)
    ensures R.Parse(lib, text).Ok? ==>
              var op := R.Parse(lib, text).value.op;
              forall c: Rules :: c.lib == lib && c.lists == lists && RulesFor(text, pii, c) ==>
                if c.pii.None? then r == Ok((rows, {}))
                else
                  && Withheld(c, columns, op.Find? || op.Aggregate?, rows, r)
                  && (op.Find? || op.Aggregate? ==> ColumnsHidden(c, columns, rows, r))
  {
    var request :- R.Parse(lib, text);
    var c := Rules(lib, lists, CtxOf(lib, lists, request, pii));
    ThatIsTheRule(text, pii, c);
    if c.pii.None? {
      return Ok((rows, {}));
    }
    r := ScanRows(c, columns, ColumnsAreKeys(request.op), rows);
    if ColumnsAreKeys(request.op) {
      ColumnsAreHidden(c, columns, rows, r);
    }
  }

  lemma ThatIsTheRule(text: string, pii: PiiRules, c: Rules)
    requires var parsed := R.Parse(c.lib, text);
             parsed.Ok? && c.pii == CtxOf(c.lib, c.lists, parsed.value, pii)
    ensures forall d: Rules :: d.lib == c.lib && d.lists == c.lists && RulesFor(text, pii, d) ==> d == c
  {
    forall d: Rules | d.lib == c.lib && d.lists == c.lists && RulesFor(text, pii, d)
      ensures d == c
    {
      RulesAreInForce(text, pii, d);
    }
  }

  lemma CellsAreRows(c: Rules, columns: seq<string>, judged: bool, rows: seq<seq<Json>>, done: seq<seq<Json>>)
    requires c.pii.Some? && |done| == |rows|
    requires forall k :: 0 <= k < |rows| ==> done[k] == RedactItems(c, Judged(c, columns, judged, rows)[k])
    ensures done == RedactRows(c, columns, judged, rows)
  {
  }

  lemma NothingMetRowsUnchanged(c: Rules, columns: seq<string>, judged: bool, rows: seq<seq<Json>>)
    requires c.pii.Some? && NamesMet(c, columns, judged, rows) == {}
    ensures RedactRows(c, columns, judged, rows) == rows
  {
    forall k | 0 <= k < |rows|
      ensures RedactRow(c, columns, judged, rows[k]) == rows[k]
    {
      var n := if judged then |columns| else 0;
      var row := MaskColumns(c, columns, n, rows[k]);
      RowMet(c, Judged(c, columns, judged, rows), k);
      forall j | 0 <= j < |row|
        ensures row[j] == rows[k][j] && Redact(c, row[j]) == row[j]
      {
        ItemMet(c, row, j);
        NothingMetNothingChanged(c, row[j]);
        assert j < n ==> columns[j] !in ProtectedColumns(c, columns);
      }
      assert RedactItems(c, row) == rows[k];
    }
  }

  // ----- the names of a result, by rows and cells -----

  lemma {:induction false} MetRow(c: Rules, rows: seq<seq<Json>>, name: string) returns (k: nat)
    requires c.pii.Some? && name in MetInRows(c, rows)
    ensures k < |rows| && name in MetInItems(c, rows[k])
  {
    if name in MetInItems(c, rows[0]) {
      k := 0;
    } else {
      k := MetRow(c, rows[1..], name);
      k := k + 1;
    }
  }

  /** A cell that its column leaves to be looked at holds a document that meets the name. */
  ghost predicate CellMeets(c: Rules, columns: seq<string>, judged: bool, rows: seq<seq<Json>>, k: nat, j: nat,
                            name: string)
    requires c.pii.Some?
  {
    && k < |rows| && j < |rows[k]| && !(judged && j < |columns| && PathHit(c, columns[j]))
    && Meets(c, rows[k][j], name)
  }

  /** The names of a result are its protected columns and the outermost protected keys of its open cells, no others. */
  lemma NamesAreExact(c: Rules, columns: seq<string>, judged: bool, rows: seq<seq<Json>>, name: string)
    requires c.pii.Some?
    ensures name in NamesMet(c, columns, judged, rows)
            <==> || (judged && name in columns && PathHit(c, name))
                 || exists k: nat, j: nat :: CellMeets(c, columns, judged, rows, k, j, name)
  {
    var open := Judged(c, columns, judged, rows);
    if name in MetInRows(c, open) {
      var k := MetRow(c, open, name);
      var j := MetItem(c, open[k], name);
      MetIsExact(c, open[k][j], name);
      assert CellMeets(c, columns, judged, rows, k, j, name);
    }
    if exists k: nat, j: nat :: CellMeets(c, columns, judged, rows, k, j, name) {
      var k: nat, j: nat :| CellMeets(c, columns, judged, rows, k, j, name);
      OpenCellCounts(c, columns, judged, rows, k, j, name);
    }
  }

  lemma OpenCellCounts(c: Rules, columns: seq<string>, judged: bool, rows: seq<seq<Json>>, k: nat, j: nat, name: string)
    requires c.pii.Some? && CellMeets(c, columns, judged, rows, k, j, name)
    ensures name in MetInRows(c, Judged(c, columns, judged, rows))
  {
    var open := Judged(c, columns, judged, rows);
    MetIsExact(c, open[k][j], name);
    ItemMet(c, open[k], j);
    RowMet(c, open, k);
  }

  /** Scanning the answer again finds the same names and changes nothing. */
  lemma SecondScanChangesNothing(c: Rules, columns: seq<string>, judged: bool, rows: seq<seq<Json>>)
    requires c.pii.Some?
    ensures var once := RedactRows(c, columns, judged, rows);
            && RedactRows(c, columns, judged, once) == once
            && NamesMet(c, columns, judged, once) == NamesMet(c, columns, judged, rows)
  {
    var once := RedactRows(c, columns, judged, rows);
    var n := if judged then |columns| else 0;
    forall k | 0 <= k < |rows|
      ensures RedactRow(c, columns, judged, once[k]) == once[k]
      ensures MaskColumns(c, columns, n, once[k]) == RedactItems(c, MaskColumns(c, columns, n, rows[k]))
    {
      var row := MaskColumns(c, columns, n, rows[k]);
      assert once[k] == RedactItems(c, row);
      assert MaskColumns(c, columns, n, once[k]) == once[k];
      RedactItemsTwice(c, row);
    }
    MetInRowsOnce(c, Judged(c, columns, judged, rows), Judged(c, columns, judged, once));
  }

  lemma {:induction false} MetInRowsOnce(c: Rules, rows: seq<seq<Json>>, once: seq<seq<Json>>)
    requires c.pii.Some? && |once| == |rows|
    requires forall k :: 0 <= k < |rows| ==> once[k] == RedactItems(c, rows[k])
    ensures MetInRows(c, once) == MetInRows(c, rows)
  {
    if rows != [] {
      RedactItemsTwice(c, rows[0]);
      MetInRowsOnce(c, rows[1..], once[1..]);
    }
  }
}
