/**
 What the check of a mode makes of a section the raw check does not see: which texts the environment
 can turn into either mode.
 */
module ConfigModes {
  import opened Outcomes
  import opened Config
  import opened ConfigCheck
  import opened ConfigDecode
  import MS = MongoSyntax

  // ----- what a text can become -----

  /** Some environment makes `target` of the text. */
  ghost predicate Reaches(text: string, target: string) {
    exists env: Env :: SubstituteStr(text, env) == Outcome.Ok(target)
  }

  function References(text: string): seq<string> {
    Pieces(text)[1..]
  }

  function NameIn(part: string): string {
    part[..MS.Span(part, c => c != '}')]
  }

  /** The piece is one well-formed reference and nothing behind it. */
  predicate Alone(part: string) {
    Refers(part) && |NameIn(part)| == |part| - 1
  }

  /** No other piece refers to the name that the `i`-th refers to. */
  predicate Once(parts: seq<string>, i: nat) {
    i < |parts| && forall j :: 0 <= j < |parts| && j != i ==> NameIn(parts[j]) != NameIn(parts[i])
  }

  predicate AllAlone(parts: seq<string>) {
    forall i :: 0 <= i < |parts| ==> Alone(parts[i])
  }

  /** Nothing but references, one of them to a name that occurs once. */
  predicate Free(text: string) {
    && Pieces(text)[0] == "" && AllAlone(References(text))
    && exists i :: 0 <= i < |References(text)| && Once(References(text), i)
  }

  /** Two words without a common letter, the first without a letter twice, neither with a dollar sign. */
  predicate Unlike(a: string, b: string) {
    && a != "" && b != "" && '$' !in a
    && (forall i, j :: 0 <= i < j < |a| ==> a[i] != a[j])
    && (forall c :: c in a ==> c !in b)
  }

  // ----- a free text reaches everything -----

  function Only(name: string, target: string): Env {
    n => Present(if n == name then target else "")
  }

  lemma AloneExpands(part: string, env: Env)
    requires Alone(part) && env(NameIn(part)).Present?
    ensures Expand(part, env) == Outcome.Ok(env(NameIn(part)).value)
  {
    assert env(NameIn(part)).value + part[|part|..] == env(NameIn(part)).value;
  }

  /** What the pieces come to when one name stands for `target` and all others for nothing. */
  lemma {:induction false} OnlyExpands(parts: seq<string>, name: string, target: string, out: string)
    requires AllAlone(parts)
    ensures (forall j :: 0 <= j < |parts| ==> NameIn(parts[j]) != name) ==>
              ExpandAll(parts, Only(name, target), out) == Outcome.Ok(out)
    decreases |parts|
  {
    if parts != [] && forall j :: 0 <= j < |parts| ==> NameIn(parts[j]) != name {
      AloneExpands(parts[0], Only(name, target));
      assert out + "" == out;
      OnlyExpands(parts[1..], name, target, out);
    }
  }

  lemma {:induction false} OnceExpands(parts: seq<string>, i: nat, target: string, out: string)
    requires AllAlone(parts) && Once(parts, i)
    ensures ExpandAll(parts, Only(NameIn(parts[i]), target), out) == Outcome.Ok(out + target)
    decreases |parts|
  {
    var env := Only(NameIn(parts[i]), target);
    AloneExpands(parts[0], env);
    if i == 0 {
      assert forall j :: 0 <= j < |parts[1..]| ==> parts[1..][j] == parts[j + 1];
      OnlyExpands(parts[1..], NameIn(parts[0]), target, out + target);
    } else {
      assert forall j :: 0 <= j < |parts[1..]| ==> parts[1..][j] == parts[j + 1];
      assert out + "" == out;
      OnceExpands(parts[1..], i - 1, target, out);
    }
  }

  lemma FreeReaches(text: string, target: string)
    requires Free(text)
    ensures Reaches(text, target)
  {
    var parts := References(text);
    var i :| 0 <= i < |parts| && Once(parts, i);
    OnceExpands(parts, i, target, "");
    assert "" + target == target;
    assert SubstituteStr(text, Only(NameIn(parts[i]), target)) == Outcome.Ok(target);
  }

  // ----- only a free text reaches two unlike words -----

  /** Where the expansion of a piece stands in the result. */
  lemma {:induction false} StandsAt(parts: seq<string>, env: Env, out: string, i: nat) returns (p: nat)
    requires ExpandAll(parts, env, out).Ok? && i < |parts|
    ensures Expand(parts[i], env).Ok?
    ensures var r, t := ExpandAll(parts, env, out).value, Expand(parts[i], env).value;
            |out| <= p && p + |t| <= |r| && forall k :: 0 <= k < |t| ==> r[p + k] == t[k]
    decreases |parts|
  {
    var next := out + Expand(parts[0], env).value;
    if i == 0 {
      p := |out|;
      StartStays(parts[1..], env, next);
    } else {
      p := StandsAt(parts[1..], env, next, i - 1);
    }
  }

  lemma {:induction false} StartStays(parts: seq<string>, env: Env, out: string)
    ensures var r := ExpandAll(parts, env, out); r.Ok? ==> out <= r.value
    decreases |parts|
  {
    if parts != [] && Expand(parts[0], env).Ok? {
      StartStays(parts[1..], env, out + Expand(parts[0], env).value);
    }
  }

  /** Two pieces stand one behind the other. */
  lemma {:induction false} TwoStand(parts: seq<string>, env: Env, out: string, i: nat, j: nat) returns (p: nat, q: nat)
    requires ExpandAll(parts, env, out).Ok? && i < j < |parts|
    ensures Expand(parts[i], env).Ok? && Expand(parts[j], env).Ok?
    ensures var r, t, u := ExpandAll(parts, env, out).value, Expand(parts[i], env).value, Expand(parts[j], env).value;
            && p + |t| <= q && q + |u| <= |r|
            && (t != "" ==> r[p] == t[0]) && (u != "" ==> r[q] == u[0])
    decreases |parts|
  {
    var next := out + Expand(parts[0], env).value;
    if i == 0 {
      p := |out|;
      StartStays(parts[1..], env, next);
      q := StandsAt(parts[1..], env, next, j - 1);
    } else {
      p, q := TwoStand(parts[1..], env, next, i - 1, j - 1);
    }
  }

  lemma {:induction false} SomePieceStands(parts: seq<string>, env: Env, out: string) returns (i: nat)
    requires ExpandAll(parts, env, out).Ok? && ExpandAll(parts, env, out).value != out
    ensures i < |parts| && Expand(parts[i], env).Ok? && Expand(parts[i], env).value != ""
    decreases |parts|
  {
    var text := Expand(parts[0], env).value;
    if text != "" {
      i := 0;
    } else {
      assert out + text == out;
      i := SomePieceStands(parts[1..], env, out);
      i := i + 1;
    }
  }

  /** What stands in a text beside its references is in whatever it becomes. */
  lemma UnlikeLeavesReferences(text: string, a: string, b: string, d: Env, e: Env)
    requires Unlike(a, b) && SubstituteStr(text, d) == Outcome.Ok(a) && SubstituteStr(text, e) == Outcome.Ok(b)
    ensures Pieces(text)[0] == "" && AllAlone(References(text))
  {
    var parts, first := References(text), Pieces(text)[0];
    StartStays(parts, d, first);
    StartStays(parts, e, first);
    assert a[0] in a && b[0] in b && a[0] != b[0];
    forall i | 0 <= i < |parts|
      ensures Alone(parts[i])
    {
      PieceIsAlone(parts, i, a, b, d, e, first);
    }
  }

  lemma PieceIsAlone(parts: seq<string>, i: nat, a: string, b: string, d: Env, e: Env, out: string)
    requires Unlike(a, b) && i < |parts|
    requires ExpandAll(parts, d, out) == Outcome.Ok(a) && ExpandAll(parts, e, out) == Outcome.Ok(b)
    ensures Alone(parts[i])
  {
    var p := StandsAt(parts, d, out, i);
    var q := StandsAt(parts, e, out, i);
    var part := parts[i];
    assert forall k :: 0 <= k < |a| ==> a[k] in a;
    assert forall k :: 0 <= k < |b| ==> b[k] in b;
    if !Refers(part) {
      MalformedStays(part, d);
    } else if |NameIn(part)| < |part| - 1 {
      RestStays(part, d);
      RestStays(part, e);
    }
  }

  lemma MalformedStays(part: string, env: Env)
    requires !Refers(part)
    ensures Expand(part, env).Ok? && Expand(part, env).value != "" && Expand(part, env).value[0] == '$'
  {
  }

  /** What stands behind a reference is kept, its first character at some place. */
  lemma RestStays(part: string, env: Env)
    requires Refers(part) && |NameIn(part)| < |part| - 1 && Expand(part, env).Ok?
    ensures env(NameIn(part)).Present?
    ensures var n := |env(NameIn(part)).value|;
            n < |Expand(part, env).value| && Expand(part, env).value[n] == part[|NameIn(part)| + 1]
  {
  }

  lemma SomeNameOnce(parts: seq<string>, a: string, d: Env)
    requires AllAlone(parts) && ExpandAll(parts, d, "") == Outcome.Ok(a) && a != ""
    requires forall i, j :: 0 <= i < j < |a| ==> a[i] != a[j]
    ensures exists i :: 0 <= i < |parts| && Once(parts, i)
  {
    var i := SomePieceStands(parts, d, "");
    forall j | 0 <= j < |parts| && j != i
      ensures NameIn(parts[j]) != NameIn(parts[i])
    {
      if NameIn(parts[j]) == NameIn(parts[i]) {
        var p, q := TwoStand(parts, d, "", if i < j then i else j, if i < j then j else i);
        SameNameSame(parts[i], parts[j], d);
      }
    }
    assert Once(parts, i);
  }

  lemma SameNameSame(x: string, y: string, env: Env)
    requires Alone(x) && Alone(y) && NameIn(x) == NameIn(y)
    ensures Expand(x, env) == Expand(y, env)
  {
    if env(NameIn(x)).Present? {
      AloneExpands(x, env);
      AloneExpands(y, env);
    }
  }

  /** A text reaches two unlike words if and only if it is free. */
  lemma ReachesBothExactly(text: string, a: string, b: string)
    requires Unlike(a, b)
    ensures Reaches(text, a) && Reaches(text, b) <==> Free(text)
  {
    if Free(text) {
      FreeReaches(text, a);
      FreeReaches(text, b);
    }
    if Reaches(text, a) && Reaches(text, b) {
      var d: Env :| SubstituteStr(text, d) == Outcome.Ok(a);
      var e: Env :| SubstituteStr(text, e) == Outcome.Ok(b);
      UnlikeLeavesReferences(text, a, b, d, e);
      SomeNameOnce(References(text), a, d);
    }
  }

  // ----- a section written as an array -----

  /** A connection with `pii = [["users.email"], mode]`. */
  function ArrayConnection(mode: string): Toml {
    Table(map["engine" := Str("postgres"), "pii" := ArrayPii(mode)])
  }

  function ArrayPii(mode: string): Toml {
    Arr([Columns(), Str(mode)])
  }

  /** A file with one connection and nothing else. */
  function OneConnection(conn: Toml): Toml {
    Table(map["connections" := Table(map["a" := conn])])
  }

  lemma OneItemSubstituted(x: Toml, y: Toml, env: Env)
    requires Substitute(x, env) == Some(y)
    ensures Substitute(Arr([x]), env) == Some(Arr([y]))
  {
    assert Substitute(Arr([x]), env).value.items == [y];
  }

  lemma TwoItemsSubstituted(x: Toml, y: Toml, x': Toml, y': Toml, env: Env)
    requires Substitute(x, env) == Some(y) && Substitute(x', env) == Some(y')
    ensures Substitute(Arr([x, x']), env) == Some(Arr([y, y']))
  {
    assert Substitute(Arr([x, x']), env).value.items == [y, y'];
  }

  lemma OneEntrySubstituted(k: string, x: Toml, y: Toml, env: Env)
    requires Substitute(x, env) == Some(y)
    ensures Substitute(Table(map[k := x]), env) == Some(Table(map[k := y]))
  {
    assert Substitute(Table(map[k := x]), env).value.entries == map[k := y];
  }

  lemma TwoEntriesSubstituted(k: string, x: Toml, y: Toml, k': string, x': Toml, y': Toml, env: Env)
    requires k != k' && Substitute(x, env) == Some(y) && Substitute(x', env) == Some(y')
    ensures Substitute(Table(map[k := x, k' := x']), env) == Some(Table(map[k := y, k' := y']))
  {
    assert Substitute(Table(map[k := x, k' := x']), env).value.entries == map[k := y, k' := y'];
  }

  function Columns(): Toml {
    Arr([Str("users.email")])
  }

  lemma LiteralListKept(text: string, env: Env)
    requires Literal(text)
    ensures Substitute(Arr([Str(text)]), env) == Some(Arr([Str(text)]))
  {
    LiteralIsKept(text, env);
    OneItemSubstituted(Str(text), Str(text), env);
  }

  lemma ColumnsKept(env: Env)
    ensures Substitute(Columns(), env) == Some(Columns())
  {
    LiteralListKept("users.email", env);
  }

  lemma PiiSubstituted(text: string, mode: string, env: Env)
    requires SubstituteStr(text, env) == Outcome.Ok(mode)
    ensures Substitute(ArrayPii(text), env) == Some(ArrayPii(mode))
  {
    ColumnsKept(env);
    TwoItemsSubstituted(Columns(), Columns(), Str(text), Str(mode), env);
  }

  lemma SectionSubstituted(text: string, mode: string, env: Env)
    requires SubstituteStr(text, env) == Outcome.Ok(mode)
    ensures Substitute(OneConnection(ArrayConnection(text)), env) == Some(OneConnection(ArrayConnection(mode)))
  {
    var engine := Str("postgres");
    var raw, done := ArrayConnection(text), ArrayConnection(mode);
    PiiSubstituted(text, mode, env);
    LiteralIsKept("postgres", env);
    assert |"engine"| != |"pii"|;
    TwoEntriesSubstituted("engine", engine, engine, "pii", ArrayPii(text), ArrayPii(mode), env);
    OneEntrySubstituted("a", raw, done, env);
    OneEntrySubstituted("connections", Table(map["a" := raw]), Table(map["a" := done]), env);
  }

  lemma ArrayPiiDecodes(mode: string)
    ensures DecodePii(ArrayPii(mode)) == Some(Pii(Some(["users.email"]), Some(mode)))
  {
    assert DecodeTexts(Columns()).value == ["users.email"];
  }

  lemma ArrayConnectionDecodes(mode: string)
    ensures var c := DecodeConnection(ArrayConnection(mode));
            && c.Some? && OneSourceEach(c.value.place)
            && c.value.sections.pii == Some(Pii(Some(["users.email"]), Some(mode)))
  {
    ArrayPiiDecodes(mode);
    var v, names := ArrayConnection(mode), CONNECTION_FIELDS;
    assert names[0] == "engine" && names[12] == "pii";
    var f := Fields(v, names).value;
    assert f[0] == Some(Str("postgres")) && f[12] == Some(ArrayPii(mode));
    forall i | 0 < i < 12
      ensures f[i].None?
    {
      OnlyTwoNames(i);
    }
  }

  lemma OnlyTwoNames(i: nat)
    requires 0 < i < 12
    ensures CONNECTION_FIELDS[i] != "engine" && CONNECTION_FIELDS[i] != "pii"
  {
    assert CONNECTION_FIELDS[i][0] == 'u' || CONNECTION_FIELDS[i][0] == 'p' || CONNECTION_FIELDS[i][0] == 'a'
        || CONNECTION_FIELDS[i][0] == 'r' || CONNECTION_FIELDS[i][0] == 't' || CONNECTION_FIELDS[i][0] == 'm'
        || CONNECTION_FIELDS[i][0] == 'v' || CONNECTION_FIELDS[i][0] == 's' || CONNECTION_FIELDS[i][0] == 'g';
  }

  lemma OneConnectionIsLiteral(conn: Toml)
    requires ConnectionIsLiteral(conn)
    ensures PolicyIsLiteral(OneConnection(conn))
  {
    assert "connections"[0] == 'c' && "audit"[0] == 'a';
    PartsOfPolicy(OneConnection(conn));
  }

  lemma OneConnectionDecodes(conn: Toml)
    requires DecodeConnection(conn).Some?
    ensures var c := Decode(OneConnection(conn));
            c.Some? && c.value.connections == map["a" := DecodeConnection(conn).value]
  {
    var v := OneConnection(conn);
    assert "connections" in ["defaults", "connections", "audit"];
    assert "connections"[0] == 'c' && "audit"[0] == 'a' && "defaults"[0] == 'd';
    assert Get(Some(v), "defaults") == None && Get(Some(v), "audit") == None;
    OneEntryDecodes(conn);
  }

  lemma OneEntryDecodes(conn: Toml)
    requires DecodeConnection(conn).Some?
    ensures DecodeConnections(Table(map["a" := conn])) == Some(map["a" := DecodeConnection(conn).value])
  {
    assert DecodeConnections(Table(map["a" := conn])).value == map["a" := DecodeConnection(conn).value];
  }

  lemma ArrayConnectionIsLiteral(mode: string)
    ensures ConnectionIsLiteral(ArrayConnection(mode)) && !ConnectionOfTables(ArrayConnection(mode))
  {
    assert "engine"[0] == 'e' && "url"[0] == 'u' && "password"[1] == 'a' && "pii"[1] == 'i' && "allowed_dirs"[0] == 'a';
    assert "validator"[0] == 'v' && "guardrail"[0] == 'g';
    PartsOfConnection(ArrayConnection(mode));
  }

  lemma ArrayFileIsLiteral(text: string)
    ensures PolicyIsLiteral(OneConnection(ArrayConnection(text)))
  {
    ArrayConnectionIsLiteral(text);
    OneConnectionIsLiteral(ArrayConnection(text));
  }

  /** A file of that kind decodes, under any environment that makes `mode` of its text, to that mode. */
  lemma FileDecodes(text: string, mode: string, env: Env)
    requires SubstituteStr(text, env) == Outcome.Ok(mode)
    ensures Decoded(OneConnection(ArrayConnection(text)), env) == Decode(OneConnection(ArrayConnection(mode)))
    ensures HasMode(Decode(OneConnection(ArrayConnection(mode))), mode)
  {
    ArrayFileIsLiteral(text);
    SectionSubstituted(text, mode, env);
    ModeDecodes(mode);
  }

  /** The settings have one connection, with this mode. */
  predicate HasMode(c: Option<Settings>, mode: string) {
    && c.Some? && c.value.connections.Keys == {"a"} && Validated(c.value)
    && c.value.connections["a"].sections.pii == Some(Pii(Some(["users.email"]), Some(mode)))
  }

  lemma ModeDecodes(mode: string)
    ensures HasMode(Decode(OneConnection(ArrayConnection(mode))), mode)
  {
    ArrayConnectionDecodes(mode);
    OneConnectionDecodes(ArrayConnection(mode));
  }

  // ----- the check of the mode -----

  const DENY := "deny"
  const MASK := "mask"

  /** A mode is one of the two, and has columns to apply to. */
  predicate ModeKnown(p: Option<Pii>) {
    p.Some? && p.value.mode.Some? ==>
      p.value.columns.Some? && p.value.columns.value != [] && (p.value.mode.value == DENY || p.value.mode.value == MASK)
  }

  /** What the later checks ask of the modes. */
  predicate ModesKnown(c: Settings) {
    forall k :: k in c.connections ==> ModeKnown(c.connections[k].sections.pii)
  }

  lemma ModeDecides(c: Option<Settings>, mode: string)
    requires HasMode(c, mode)
    ensures ModesKnown(c.value) <==> mode == DENY || mode == MASK
  {
    if ModesKnown(c.value) {
      assert ModeKnown(c.value.connections["a"].sections.pii);
    }
  }

  lemma ModesDiffer()
    ensures Unlike(DENY, MASK)
  {
    assert DENY[0] == 'd' && DENY[1] == 'e' && DENY[2] == 'n' && DENY[3] == 'y';
    assert MASK[0] == 'm' && MASK[1] == 'a' && MASK[2] == 's' && MASK[3] == 'k';
  }

  /** Both modes are reached: two environments load the file and leave two policies. */
  lemma BothModesDisagree(text: string, a: Env, b: Env)
    requires SubstituteStr(text, a) == Outcome.Ok(DENY) && SubstituteStr(text, b) == Outcome.Ok(MASK)
    ensures !Agreement(OneConnection(ArrayConnection(text)), ModesKnown)
  {
    FileDecodes(text, DENY, a);
    FileDecodes(text, MASK, b);
    ModesLeaveTwo();
    Disagree(OneConnection(ArrayConnection(text)), a, b, ModesKnown);
  }

  lemma ModesLeaveTwo()
    ensures var a, b := Decode(OneConnection(ArrayConnection(DENY))), Decode(OneConnection(ArrayConnection(MASK)));
            && a.Some? && b.Some? && ModesKnown(a.value) && ModesKnown(b.value)
            && RulingsOf(a.value) != RulingsOf(b.value)
  {
    var a, b := Decode(OneConnection(ArrayConnection(DENY))), Decode(OneConnection(ArrayConnection(MASK)));
    ModesDiffer();
    ModeDecodes(DENY);
    ModeDecodes(MASK);
    ModeDecides(a, DENY);
    ModeDecides(b, MASK);
    assert RulingsOf(a.value).connections["a"].rules.pii != RulingsOf(b.value).connections["a"].rules.pii;
  }

  /** What the text became in an environment that loads the file. */
  lemma LoadedMode(text: string, env: Env) returns (mode: string)
    requires PolicyUnder(OneConnection(ArrayConnection(text)), env, ModesKnown).Some?
    ensures SubstituteStr(text, env) == Outcome.Ok(mode) && (mode == DENY || mode == MASK)
    ensures var c := Decode(OneConnection(ArrayConnection(mode)));
            c.Some? && PolicyUnder(OneConnection(ArrayConnection(text)), env, ModesKnown) == Some(RulingsOf(c.value))
  {
    var v := OneConnection(ArrayConnection(text));
    mode := SubstitutedMode(text, env);
    FileDecodes(text, mode, env);
    ModeDecides(Decoded(v, env), mode);
  }

  lemma SubstitutedMode(text: string, env: Env) returns (mode: string)
    requires Decoded(OneConnection(ArrayConnection(text)), env).Some?
    ensures SubstituteStr(text, env) == Outcome.Ok(mode)
  {
    var v := OneConnection(ArrayConnection(text));
    DecodesAsWritten(v, env);
    ModeDecodes(text);
    var a, b := RulingsOf(AsWritten(v).value), RulingsOf(Decoded(v, env).value);
    assert "a" in a.connections && RulingBecomes(a.connections["a"], b.connections["a"], env);
    mode := b.connections["a"].rules.pii.value.mode.value;
  }

  lemma OneModeAgrees(text: string)
    requires !Reaches(text, DENY) || !Reaches(text, MASK)
    ensures Agreement(OneConnection(ArrayConnection(text)), ModesKnown)
  {
    var v := OneConnection(ArrayConnection(text));
    forall a, b
      ensures Agree(v, a, b, ModesKnown)
    {
      if PolicyUnder(v, a, ModesKnown).Some? && PolicyUnder(v, b, ModesKnown).Some? {
        var m := LoadedMode(text, a);
        var n := LoadedMode(text, b);
        assert Reaches(text, m) && Reaches(text, n);
      }
    }
  }

  /**
   With the check of the mode, the environment sets the mode of such a file if and only if its text is
   nothing but references, one of them to a name that occurs once.
   */
  lemma ModeIsFreeExactly(text: string)
    ensures !Agreement(OneConnection(ArrayConnection(text)), ModesKnown) <==> Free(text)
  {
    ModesDiffer();
    ReachesBothExactly(text, DENY, MASK);
    if Free(text) {
      var a: Env :| SubstituteStr(text, a) == Outcome.Ok(DENY);
      var b: Env :| SubstituteStr(text, b) == Outcome.Ok(MASK);
      BothModesDisagree(text, a, b);
    } else {
      OneModeAgrees(text);
    }
  }

  // ----- two texts -----

  lemma BracePieces(name: string, tail: string)
    requires Literal(name + "}" + tail)
    ensures Pieces("${" + name + "}" + tail) == ["", name + "}" + tail]
  {
    var s, part := "${" + name + "}" + tail, name + "}" + tail;
    assert s[0] == '$' && s[1] == '{' && s[2..] == part;
    LiteralHasNoOpening(part);
    assert Pieces(part) == [part] && s[..0] == "";
  }

  lemma {:induction false} NameEnds(name: string, tail: string)
    requires '}' !in name
    ensures MS.Span(name + "}" + tail, c => c != '}') == |name|
  {
    var s := name + "}" + tail;
    if name != "" {
      assert s[1..] == name[1..] + "}" + tail;
      NameEnds(name[1..], tail);
    }
  }

  lemma OneReference(text: string, name: string, tail: string)
    requires Literal(name + "}" + tail) && IsVarName(name) && '}' !in name && text == "${" + name + "}" + tail
    ensures Refs(text) && (Free(text) <==> tail == "")
  {
    var part := name + "}" + tail;
    BracePieces(name, tail);
    NameEnds(name, tail);
    var parts := References(text);
    assert parts == [part] && part[..|name|] == name && Refers(parts[0]);
    assert Alone(part) <==> tail == "";
    assert Once(parts, 0);
  }

  /** Written as an array, a section passes the check unseen, and the environment sets the mode. */
  lemma ArraySectionIsNotSeen()
    ensures var v := OneConnection(ArrayConnection("${MODE}")); PolicyIsLiteral(v) && !Agreement(v, ModesKnown)
  {
    var text, name, tail := "${MODE}", "MODE", "";
    assert text == "${" + name + "}" + tail;
    OneReference(text, name, tail);
    ArrayFileIsLiteral(text);
    ModeIsFreeExactly(text);
  }

  /** A later check may still save the policy: whatever `X` is, this mode can only be `mask`. */
  lemma LaterCheckMaySave()
    ensures var v := OneConnection(ArrayConnection("${X}mask"));
            PolicyIsLiteral(v) && !WrittenSteady(v) && Agreement(v, ModesKnown)
  {
    var text, name, tail := "${X}mask", "X", "mask";
    assert text == "${" + name + "}" + tail;
    OneReference(text, name, tail);
    ArrayFileIsLiteral(text);
    ModeIsFreeExactly(text);
    ReferenceIsUnsteady(text);
  }

  lemma ReferenceIsUnsteady(text: string)
    requires Refs(text)
    ensures !WrittenSteady(OneConnection(ArrayConnection(text)))
  {
    var v := OneConnection(ArrayConnection(text));
    ArrayFileIsLiteral(text);
    ModeDecodes(text);
    assert !SteadyRuling(RulingsOf(AsWritten(v).value).connections["a"]);
  }
}
