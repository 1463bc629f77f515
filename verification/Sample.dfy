/** The statements `nyet sample` writes from a table name the agent gives, and how they read back. */
module Sample {
  import opened Outcomes
  import opened MongoSyntax

  // ----- delimited identifiers -----

  /** Every occurrence of the quote character doubled. */
  function Doubled(q: char, name: string): string {
    if name == "" then ""
    else (if name[0] == q then [q, q] else [name[0]]) + Doubled(q, name[1..])
  }

  function Delimit(q: char, name: string): string {
    [q] + Doubled(q, name) + [q]
  }

  function Quote(name: string): string {
    Delimit('"', name)
  }

  function Backquote(name: string): string {
    Delimit('`', name)
  }

  /** The rest of a delimited identifier as a database lexes it: a doubled quote stands for one. */
  function LexRest(q: char, s: string, name: string): Option<(string, string)> {
    if s == "" then None
    else if s[0] != q then LexRest(q, s[1..], name + [s[0]])
    else if |s| >= 2 && s[1] == q then LexRest(q, s[2..], name + [q])
    else Some((name, s[1..]))
  }

  function Lex(q: char, s: string): Option<(string, string)> {
    if At(s, q) then LexRest(q, s[1..], "") else None
  }

  lemma {:induction false} LexDoubled(q: char, name: string, rest: string, read: string)
    requires !At(rest, q)
    ensures LexRest(q, Doubled(q, name) + [q] + rest, read) == Some((read + name, rest))
    decreases |name|
  {
    var s := Doubled(q, name) + [q] + rest;
    if name == "" {
      assert s == [q] + rest;
      assert s[1..] == rest;
      assert read + name == read;
    } else {
      var tail := Doubled(q, name[1..]) + [q] + rest;
      LexDoubled(q, name[1..], rest, read + [name[0]]);
      assert read + [name[0]] + name[1..] == read + name;
      if name[0] == q {
        assert s == [q, q] + tail;
        assert s[2..] == tail;
      } else {
        assert s == [name[0]] + tail;
        assert s[1..] == tail;
      }
    }
  }

  /** Whatever the name, its quoted form is one identifier, that name, and nothing more. */
  lemma DelimitedReadsBack(q: char, name: string, rest: string)
    requires !At(rest, q)
    ensures Lex(q, Delimit(q, name) + rest) == Some((name, rest))
  {
    var s := Delimit(q, name) + rest;
    assert s[1..] == Doubled(q, name) + [q] + rest;
    LexDoubled(q, name, rest, "");
    assert "" + name == name;
  }

  // ----- SQL -----

  const SELECT := "SELECT * FROM "

  /** Split on the first dot. */
  function SplitQualified(table: string): (r: (Option<string>, string))
    ensures r.0.Some? ==> table == r.0.value + "." + r.1 && '.' !in r.0.value
    ensures r.0.None? ==> table == r.1 && '.' !in table
  {
    var n := Span(table, c => c != '.');
    SpanIsFirst(table);
    if n < |table| then
      assert table == table[..n] + "." + table[n + 1..];
      (Some(table[..n]), table[n + 1..])
    else (None, table)
  }

  lemma {:induction false} SpanIsFirst(s: string)
    ensures var n := Span(s, c => c != '.'); '.' !in s[..n] && (n < |s| ==> s[n] == '.')
  {
    if s != "" && s[0] != '.' {
      SpanIsFirst(s[1..]);
      var n := Span(s[1..], c => c != '.');
      assert Span(s, c => c != '.') == 1 + n;
      assert s[..1 + n] == [s[0]] + s[1..][..n];
    }
  }

  function PostgresName(table: string): string {
    match SplitQualified(table)
    case (Some(schema), name) => Quote(schema) + "." + Quote(name)
    case (None, name) => Quote(name)
  }

  function Order(random: bool, draw: string): string {
    if random then " ORDER BY " + draw else ""
  }

  function Sqlite(table: string, rows: nat): string {
    SELECT + Quote(table) + Order(true, "RANDOM()") + " LIMIT " + ShowInt(rows)
  }

  function Postgres(table: string, rows: nat, random: bool): string {
    SELECT + PostgresName(table) + Order(random, "random()") + " LIMIT " + ShowInt(rows)
  }

  function Mysql(table: string, rows: nat, random: bool): string {
    SELECT + Backquote(table) + Order(random, "RAND()") + " LIMIT " + ShowInt(rows)
  }

  function Clickhouse(table: string, rows: nat, random: bool): string {
    SELECT + Backquote(table) + Order(random, "rand()") + " LIMIT " + ShowInt(rows)
  }

  /** The table a statement reads from, for a database whose identifiers are delimited by `q`. */
  function TableOf(q: char, sql: string): Option<string> {
    if !(SELECT <= sql) then None
    else
      match Lex(q, sql[|SELECT|..])
      case None => None
      case Some((name, rest)) =>
        if !At(rest, '.') then Some(name)
        else
          match Lex(q, rest[1..])
          case None => None
          case Some((second, _)) => Some(name + "." + second)
  }

  /** What follows the table in every statement. */
  function Ending(random: bool, draw: string, rows: nat): string {
    Order(random, draw) + " LIMIT " + ShowInt(rows)
  }

  lemma EndingStarts(random: bool, draw: string, rows: nat)
    ensures At(Ending(random, draw, rows), ' ')
  {
  }

  lemma OneNameReadsBack(q: char, table: string, ending: string)
    requires q != ' ' && At(ending, ' ')
    ensures TableOf(q, SELECT + Delimit(q, table) + ending) == Some(table)
  {
    var sql := SELECT + Delimit(q, table) + ending;
    assert sql[|SELECT|..] == Delimit(q, table) + ending;
    DelimitedReadsBack(q, table, ending);
  }

  lemma TwoNamesReadBack(schema: string, name: string, ending: string)
    requires At(ending, ' ')
    ensures TableOf('"', SELECT + (Quote(schema) + "." + Quote(name)) + ending) == Some(schema + "." + name)
  {
    var sql := SELECT + (Quote(schema) + "." + Quote(name)) + ending;
    var rest := "." + Quote(name) + ending;
    assert sql[|SELECT|..] == Quote(schema) + rest;
    DelimitedReadsBack('"', schema, rest);
    assert rest[1..] == Quote(name) + ending;
    DelimitedReadsBack('"', name, ending);
  }

  lemma Regroup(a: string, b: string, c: string, d: string, e: string)
    ensures a + b + c + d + e == a + b + (c + d + e)
  {
  }

  lemma PostgresReadsBack(table: string, rows: nat, random: bool)
    ensures TableOf('"', Postgres(table, rows, random)) == Some(table)
  {
    var ending := Ending(random, "random()", rows);
    Regroup(SELECT, PostgresName(table), Order(random, "random()"), " LIMIT ", ShowInt(rows));
    EndingStarts(random, "random()", rows);
    match SplitQualified(table) {
      case (Some(schema), name) => TwoNamesReadBack(schema, name, ending);
      case (None, name) => OneNameReadsBack('"', name, ending);
    }
  }

  lemma SqliteReadsBack(table: string, rows: nat)
    ensures TableOf('"', Sqlite(table, rows)) == Some(table)
  {
    Regroup(SELECT, Quote(table), Order(true, "RANDOM()"), " LIMIT ", ShowInt(rows));
    EndingStarts(true, "RANDOM()", rows);
    OneNameReadsBack('"', table, Ending(true, "RANDOM()", rows));
  }

  lemma MysqlReadsBack(table: string, rows: nat, random: bool)
    ensures TableOf('`', Mysql(table, rows, random)) == Some(table)
  {
    Regroup(SELECT, Backquote(table), Order(random, "RAND()"), " LIMIT ", ShowInt(rows));
    EndingStarts(random, "RAND()", rows);
    OneNameReadsBack('`', table, Ending(random, "RAND()", rows));
  }

  lemma ClickhouseReadsBack(table: string, rows: nat, random: bool)
    ensures TableOf('`', Clickhouse(table, rows, random)) == Some(table)
  {
    Regroup(SELECT, Backquote(table), Order(random, "rand()"), " LIMIT ", ShowInt(rows));
    EndingStarts(random, "rand()", rows);
    OneNameReadsBack('`', table, Ending(random, "rand()", rows));
  }

  /** No two tables share a statement, whatever else the statements ask. */
  lemma PostgresIsInjective(a: string, b: string, m: nat, n: nat, drawA: bool, drawB: bool)
    requires Postgres(a, m, drawA) == Postgres(b, n, drawB)
    ensures a == b
  {
    PostgresReadsBack(a, m, drawA);
    PostgresReadsBack(b, n, drawB);
  }
}
