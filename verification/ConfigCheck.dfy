/** The configuration as a tree of TOML values, and the check of the policy on the raw tree. */
module ConfigCheck {
  import opened Outcomes
  import opened Config

  datatype Toml =
    | Str(text: string)
    | Integer(n: int)
    | Float(digits: string)
    | Boolean(truth: bool)
    | Datetime(digits: string)
    | Arr(items: seq<Toml>)
    | Table(entries: map<string, Toml>)

  // ----- substitution -----

  /** Substitution in every string of the tree; keys are left alone. None when some variable fails. */
  function Substitute(v: Toml, env: Env): (r: Option<Toml>)
    decreases v
  {
    match v
    case Str(s) => (match SubstituteStr(s, env) case Ok(t) => Some(Str(t)) case Err(_) => None)
    case Arr(items) =>
      if forall i :: 0 <= i < |items| ==> Substitute(items[i], env).Some? then
        Some(Arr(seq(|items|, i requires 0 <= i < |items| => Substitute(items[i], env).value)))
      else None
    case Table(entries) =>
      if forall k :: k in entries ==> Substitute(entries[k], env).Some? then
        Some(Table(map k | k in entries :: Substitute(entries[k], env).value))
      else None
    case _ => Some(v)
  }

  // ----- where the policy stands -----

  datatype Hop = Key(name: string) | Index(i: nat)

  function At(v: Toml, path: seq<Hop>): Option<Toml>
    decreases |path|
  {
    if path == [] then Some(v)
    else
      match path[0]
      case Key(name) => if v.Table? && name in v.entries then At(v.entries[name], path[1..]) else None
      case Index(i) => if v.Arr? && i < |v.items| then At(v.items[i], path[1..]) else None
  }

  /** The policy of one connection, path by path: secret sources, and every list and mode it obeys. */
  predicate ConnectionPath(p: seq<Hop>) {
    || (|p| == 2 && (p[0] == Key("url") || p[0] == Key("password")) && p[1].Key?)
    || (|p| == 2 && p[0] == Key("allowed_dirs") && p[1].Index?)
    || (|p| == 3 && p[0] == Key("validator") && (p[1] == Key("allow_functions") || p[1] == Key("deny_functions"))
        && p[2].Index?)
    || (|p| == 3 && p[0] == Key("pii") && p[1] == Key("columns") && p[2].Index?)
    || (p == [Key("pii"), Key("mode")])
    || (p == [Key("guardrail"), Key("mode")])
  }

  predicate PolicyPath(p: seq<Hop>) {
    || p == [Key("audit"), Key("path")]
    || (|p| > 2 && p[0] == Key("connections") && p[1].Key? && ConnectionPath(p[2..]))
  }

  /** A string that stands here has no `${`; anything else is not this check's business. */
  predicate LiteralText(v: Option<Toml>) {
    v.Some? && v.value.Str? ==> Literal(v.value.text)
  }

  ghost predicate ConnectionIsLiteral(conn: Toml) {
    forall p :: ConnectionPath(p) ==> LiteralText(At(conn, p))
  }

  ghost predicate PolicyIsLiteral(v: Toml) {
    forall p :: PolicyPath(p) ==> LiteralText(At(v, p))
  }

  // ----- the walk -----

  /** `value.get(key)`: nothing for a value that is no table. */
  function Get(v: Option<Toml>, key: string): Option<Toml> {
    if v.Some? && v.value.Table? && key in v.value.entries then Some(v.value.entries[key]) else None
  }

  method CheckItems(list: Option<Toml>) returns (ok: bool)
    ensures ok <==> list.Some? && list.value.Arr? ==>
                      forall i :: 0 <= i < |list.value.items| ==> LiteralText(Some(list.value.items[i]))
  {
    if list.None? || !list.value.Arr? {
      return true;
    }
    var items := list.value.items;
    for k := 0 to |items|
      invariant forall i :: 0 <= i < k ==> LiteralText(Some(items[i]))
    {
      if items[k].Str? && !Literal(items[k].text) {
        return false;
      }
    }
    return true;
  }

  method CheckValues(reference: Option<Toml>) returns (ok: bool)
    ensures ok <==> reference.Some? && reference.value.Table? ==>
                      forall k :: k in reference.value.entries ==> LiteralText(Some(reference.value.entries[k]))
  {
    if reference.None? || !reference.value.Table? {
      return true;
    }
    var entries := reference.value.entries;
    var waiting := entries.Keys;
    while waiting != {}
      invariant waiting <= entries.Keys
      invariant forall k :: k in entries && k !in waiting ==> LiteralText(Some(entries[k]))
      decreases |waiting|
    {
      var k :| k in waiting;
      if entries[k].Str? && !Literal(entries[k].text) {
        return false;
      }
      waiting := waiting - {k};
    }
    return true;
  }

  method CheckText(v: Option<Toml>) returns (ok: bool)
    ensures ok <==> LiteralText(v)
  {
    ok := v.None? || !v.value.Str? || Literal(v.value.text);
  }

  /** One connection: its references, its lists and its modes, one after the other. */
  method CheckConnection(conn: Toml) returns (ok: bool)
    ensures ok <==> ConnectionIsLiteral(conn)
  {
    PartsOfConnection(conn);
    var here := Some(conn);
    ok := CheckValues(Get(here, "url"));
    if !ok { return; }
    ok := CheckValues(Get(here, "password"));
    if !ok { return; }
    ok := CheckItems(Get(here, "allowed_dirs"));
    if !ok { return; }
    ok := CheckItems(Get(Get(here, "validator"), "allow_functions"));
    if !ok { return; }
    ok := CheckItems(Get(Get(here, "validator"), "deny_functions"));
    if !ok { return; }
    ok := CheckItems(Get(Get(here, "pii"), "columns"));
    if !ok { return; }
    ok := CheckText(Get(Get(here, "pii"), "mode"));
    if !ok { return; }
    ok := CheckText(Get(Get(here, "guardrail"), "mode"));
  }

  /** The check on the raw tree passes exactly when no string on a policy path has a `${` in it. */
  method RejectEnvVarsInPolicy(v: Toml) returns (r: Outcome<()>)
    ensures r == if PolicyIsLiteral(v) then Outcome.Ok(()) else Outcome.Err(EnvVarInPolicy)
  {
    PartsOfPolicy(v);
    var here := Some(v);
    var ok := CheckText(Get(Get(here, "audit"), "path"));
    if !ok {
      return Outcome.Err(EnvVarInPolicy);
    }
    var connections := Get(here, "connections");
    if connections.None? || !connections.value.Table? {
      return Outcome.Ok(());
    }
    var entries := connections.value.entries;
    var waiting := entries.Keys;
    while waiting != {}
      invariant waiting <= entries.Keys
      invariant forall k :: k in entries && k !in waiting ==> ConnectionIsLiteral(entries[k])
      decreases |waiting|
    {
      var alias :| alias in waiting;
      ok := CheckConnection(entries[alias]);
      if !ok {
        return Outcome.Err(EnvVarInPolicy);
      }
      waiting := waiting - {alias};
    }
    return Outcome.Ok(());
  }

  // ----- the paths, part by part -----

  ghost predicate ItemsLiteral(list: Option<Toml>) {
    list.Some? && list.value.Arr? ==>
      forall i :: 0 <= i < |list.value.items| ==> LiteralText(Some(list.value.items[i]))
  }

  ghost predicate ValuesLiteral(reference: Option<Toml>) {
    reference.Some? && reference.value.Table? ==>
      forall k :: k in reference.value.entries ==> LiteralText(Some(reference.value.entries[k]))
  }

  function Item(v: Option<Toml>, i: nat): Option<Toml> {
    if v.Some? && v.value.Arr? && i < |v.value.items| then Some(v.value.items[i]) else None
  }

  function Step(v: Option<Toml>, hop: Hop): Option<Toml> {
    if hop.Key? then Get(v, hop.name) else Item(v, hop.i)
  }

  lemma {:induction false} AtAppend(v: Toml, path: seq<Hop>, hop: Hop)
    ensures At(v, path + [hop]) == Step(At(v, path), hop)
    decreases |path|
  {
    if path == [] {
      assert path + [hop] == [hop] && [hop][1..] == [];
      assert At(v, [hop]) == Step(Some(v), hop);
    } else {
      assert (path + [hop])[0] == path[0] && (path + [hop])[1..] == path[1..] + [hop];
      if path[0].Key? && v.Table? && path[0].name in v.entries {
        AtAppend(v.entries[path[0].name], path[1..], hop);
      } else if path[0].Index? && v.Arr? && path[0].i < |v.items| {
        AtAppend(v.items[path[0].i], path[1..], hop);
      }
    }
  }

  lemma AtTwo(v: Toml, a: Hop, b: Hop)
    ensures At(v, [a, b]) == Step(Step(Some(v), a), b)
  {
    assert [] + [a] == [a] && [a] + [b] == [a, b];
    AtAppend(v, [], a);
    AtAppend(v, [a], b);
  }

  lemma AtThree(v: Toml, a: Hop, b: Hop, c: Hop)
    ensures At(v, [a, b, c]) == Step(Step(Step(Some(v), a), b), c)
  {
    assert [a, b] + [c] == [a, b, c];
    AtTwo(v, a, b);
    AtAppend(v, [a, b], c);
  }

  /** Literal along every path of a connection means literal in each of the eight places the walk looks. */
  lemma PartsOfConnection(conn: Toml)
    ensures ConnectionIsLiteral(conn) <==>
              && ValuesLiteral(Get(Some(conn), "url")) && ValuesLiteral(Get(Some(conn), "password"))
              && ItemsLiteral(Get(Some(conn), "allowed_dirs"))
              && ItemsLiteral(Get(Get(Some(conn), "validator"), "allow_functions"))
              && ItemsLiteral(Get(Get(Some(conn), "validator"), "deny_functions"))
              && ItemsLiteral(Get(Get(Some(conn), "pii"), "columns"))
              && LiteralText(Get(Get(Some(conn), "pii"), "mode"))
              && LiteralText(Get(Get(Some(conn), "guardrail"), "mode"))
  {
    if ConnectionIsLiteral(conn) {
      ReferenceParts(conn, "url");
      ReferenceParts(conn, "password");
      ListParts(conn, [], "allowed_dirs");
      ListParts(conn, [Key("validator")], "allow_functions");
      ListParts(conn, [Key("validator")], "deny_functions");
      ListParts(conn, [Key("pii")], "columns");
      AtTwo(conn, Key("pii"), Key("mode"));
      AtTwo(conn, Key("guardrail"), Key("mode"));
      assert ConnectionPath([Key("pii"), Key("mode")]) && ConnectionPath([Key("guardrail"), Key("mode")]);
    }
    if ValuesLiteral(Get(Some(conn), "url")) && ValuesLiteral(Get(Some(conn), "password"))
       && ItemsLiteral(Get(Some(conn), "allowed_dirs"))
       && ItemsLiteral(Get(Get(Some(conn), "validator"), "allow_functions"))
       && ItemsLiteral(Get(Get(Some(conn), "validator"), "deny_functions"))
       && ItemsLiteral(Get(Get(Some(conn), "pii"), "columns"))
       && LiteralText(Get(Get(Some(conn), "pii"), "mode"))
       && LiteralText(Get(Get(Some(conn), "guardrail"), "mode")) {
      forall p | ConnectionPath(p)
        ensures LiteralText(At(conn, p))
      {
        if |p| == 2 {
          assert p == [p[0], p[1]];
          AtTwo(conn, p[0], p[1]);
        } else {
          assert p == [p[0], p[1], p[2]];
          AtTwo(conn, p[0], p[1]);
          AtThree(conn, p[0], p[1], p[2]);
        }
      }
    }
  }

  lemma ReferenceParts(conn: Toml, key: string)
    requires ConnectionIsLiteral(conn) && (key == "url" || key == "password")
    ensures ValuesLiteral(Get(Some(conn), key))
  {
    var reference := Get(Some(conn), key);
    if reference.Some? && reference.value.Table? {
      forall k | k in reference.value.entries
        ensures LiteralText(Some(reference.value.entries[k]))
      {
        AtTwo(conn, Key(key), Key(k));
        assert ConnectionPath([Key(key), Key(k)]);
      }
    }
  }

  lemma ListParts(conn: Toml, section: seq<Hop>, key: string)
    requires ConnectionIsLiteral(conn)
    requires || (section == [] && key == "allowed_dirs")
             || (section == [Key("validator")] && (key == "allow_functions" || key == "deny_functions"))
             || (section == [Key("pii")] && key == "columns")
    ensures ItemsLiteral(if section == [] then Get(Some(conn), key) else Get(Get(Some(conn), section[0].name), key))
  {
    var list := if section == [] then Get(Some(conn), key) else Get(Get(Some(conn), section[0].name), key);
    if list.Some? && list.value.Arr? {
      forall i | 0 <= i < |list.value.items|
        ensures LiteralText(Some(list.value.items[i]))
      {
        if section == [] {
          AtTwo(conn, Key(key), Index(i));
          assert ConnectionPath([Key(key), Index(i)]);
        } else {
          AtTwo(conn, section[0], Key(key));
          AtThree(conn, section[0], Key(key), Index(i));
          assert ConnectionPath([section[0], Key(key), Index(i)]);
        }
      }
    }
  }

  lemma PartsOfPolicy(v: Toml)
    ensures PolicyIsLiteral(v) <==>
              && LiteralText(Get(Get(Some(v), "audit"), "path"))
              && var connections := Get(Some(v), "connections");
                 connections.Some? && connections.value.Table? ==>
                   forall alias :: alias in connections.value.entries ==>
                     ConnectionIsLiteral(connections.value.entries[alias])
  {
    AtTwo(v, Key("audit"), Key("path"));
    var connections := Get(Some(v), "connections");
    if PolicyIsLiteral(v) {
      assert PolicyPath([Key("audit"), Key("path")]);
      if connections.Some? && connections.value.Table? {
        forall alias, p | alias in connections.value.entries && ConnectionPath(p)
          ensures LiteralText(At(connections.value.entries[alias], p))
        {
          var whole := [Key("connections"), Key(alias)] + p;
          assert whole[2..] == p && PolicyPath(whole);
          AtConnection(v, alias, p);
        }
      }
    } else {
      var p: seq<Hop> :| PolicyPath(p) && !LiteralText(At(v, p));
      if p != [Key("audit"), Key("path")] {
        assert p == [Key("connections"), Key(p[1].name)] + p[2..];
        AtConnection(v, p[1].name, p[2..]);
      }
    }
  }

  lemma AtConnection(v: Toml, alias: string, p: seq<Hop>)
    ensures At(v, [Key("connections"), Key(alias)] + p)
         == match Get(Get(Some(v), "connections"), alias) case Some(conn) => At(conn, p) case None => None
  {
    var whole := [Key("connections"), Key(alias)] + p;
    assert whole[1..] == [Key(alias)] + p && whole[1..][1..] == p;
  }
}
