/** `${VAR}` in one string of the configuration: what it expands to. */
module Config {
  import opened MongoSyntax

  datatype Failure = MissingEnvVar(name: string) | NotUnicodeEnvVar(name: string) | EnvVarInPolicy

  datatype Outcome<+T> = Ok(value: T) | Err(failure: Failure) {
    predicate IsFailure() {
      Err?
    }

    function PropagateFailure<U>(): Outcome<U>
      requires Err?
    {
      Err(failure)
    }

    function Extract(): T
      requires Ok?
    {
      value
    }
  }

  datatype Variable = Present(value: string) | NotPresent | NotUnicode

  type Env = string -> Variable

  // ----- strings -----

  /** Where the first `${` begins, or the length of the string. */
  function Opening(s: string): (n: nat)
    ensures n <= |s|
    ensures n < |s| ==> n + 2 <= |s| && s[n..n + 2] == "${"
  {
    if |s| < 2 then |s|
    else if s[0] == '$' && s[1] == '{' then
      assert s[0..2] == "${";
      0
    else
      var n := Opening(s[1..]);
      assert n < |s| - 1 ==> s[1..][n..n + 2] == s[n + 1..n + 3];
      n + 1
  }

  /** The pieces between the occurrences of `${`. */
  function Pieces(s: string): (parts: seq<string>)
    ensures parts != []
    decreases |s|
  {
    var n := Opening(s);
    if n == |s| then [s] else [s[..n]] + Pieces(s[n + 2..])
  }

  predicate IsVarName(s: string) {
    s != "" && forall c :: c in s ==> IsAlpha(c) || IsDigit(c) || c == '_'
  }

  /** What becomes of one piece that stood after a `${`. */
  function Expand(part: string, env: Env): Outcome<string> {
    var end := Span(part, c => c != '}');
    if end < |part| && IsVarName(part[..end]) then
      match env(part[..end])
      case Present(value) => Ok(value + part[end + 1..])
      case NotPresent => Err(MissingEnvVar(part[..end]))
      case NotUnicode => Err(NotUnicodeEnvVar(part[..end]))
    else Ok("${" + part)
  }

  function ExpandAll(parts: seq<string>, env: Env, out: string): Outcome<string> {
    if parts == [] then Ok(out)
    else
      var text :- Expand(parts[0], env);
      ExpandAll(parts[1..], env, out + text)
  }

  function SubstituteStr(s: string, env: Env): Outcome<string> {
    ExpandAll(Pieces(s)[1..], env, Pieces(s)[0])
  }

  /** The loop over the pieces. */
  method SubstituteString(s: string, env: Env) returns (r: Outcome<string>)
    ensures r == SubstituteStr(s, env)
  {
    var parts := Pieces(s);
    var out := parts[0];
    for k := 1 to |parts|
      invariant ExpandAll(parts[k..], env, out) == SubstituteStr(s, env)
    {
      assert parts[k..][0] == parts[k] && parts[k..][1..] == parts[k + 1..];
      var text :- Expand(parts[k], env);
      out := out + text;
    }
    return Ok(out);
  }

  /** A string in which no `${` stands. */
  predicate Literal(s: string) {
    forall i :: 0 <= i < |s| - 1 ==> !(s[i] == '$' && s[i + 1] == '{')
  }

  lemma LiteralTail(s: string)
    requires |s| >= 2 && !(s[0] == '$' && s[1] == '{')
    ensures Literal(s) <==> Literal(s[1..])
  {
  }

  lemma {:induction false} LiteralHasNoOpening(s: string)
    ensures Literal(s) <==> Opening(s) == |s|
  {
    if |s| >= 2 && !(s[0] == '$' && s[1] == '{') {
      LiteralTail(s);
      LiteralHasNoOpening(s[1..]);
    }
  }

  /** No environment changes a literal string. */
  lemma LiteralIsKept(s: string, env: Env)
    requires Literal(s)
    ensures SubstituteStr(s, env) == Ok(s)
  {
    LiteralHasNoOpening(s);
    assert Pieces(s) == [s] && [s][1..] == [];
  }

  /** The environment in which every name stands for its own reference. */
  function Quoting(name: string): Variable {
    Present("${" + name + "}")
  }

  function Rejoin(parts: seq<string>): string {
    if parts == [] then "" else "${" + parts[0] + Rejoin(parts[1..])
  }

  lemma {:induction false} PiecesRejoin(s: string)
    ensures Pieces(s)[0] + Rejoin(Pieces(s)[1..]) == s
    decreases |s|
  {
    var n := Opening(s);
    if n == |s| {
      assert Pieces(s)[1..] == [];
    } else {
      var rest := Pieces(s[n + 2..]);
      PiecesRejoin(s[n + 2..]);
      assert Pieces(s)[1..] == rest;
      assert "${" + rest[0] + Rejoin(rest[1..]) == "${" + s[n + 2..];
      assert s == s[..n] + ("${" + s[n + 2..]);
    }
  }

  lemma ExpandQuotes(part: string)
    ensures Expand(part, Quoting) == Ok("${" + part)
  {
    var end := Span(part, c => c != '}');
    if end < |part| && IsVarName(part[..end]) {
      SpanStopsAt(part, c => c != '}');
      assert part == part[..end] + "}" + part[end + 1..];
      assert "${" + part[..end] + "}" + part[end + 1..] == "${" + part;
    }
  }

  lemma {:induction false} SpanStopsAt(s: string, p: char -> bool)
    ensures var n := Span(s, p); n < |s| ==> !p(s[n])
  {
    if s != "" && p(s[0]) {
      SpanStopsAt(s[1..], p);
    }
  }

  lemma {:induction false} ExpandAllQuotes(parts: seq<string>, out: string)
    ensures ExpandAll(parts, Quoting, out) == Ok(out + Rejoin(parts))
  {
    if parts == [] {
      assert out + "" == out;
    } else {
      ExpandQuotes(parts[0]);
      ExpandAllQuotes(parts[1..], out + ("${" + parts[0]));
      assert out + ("${" + parts[0]) + Rejoin(parts[1..]) == out + ("${" + parts[0] + Rejoin(parts[1..]));
    }
  }

  /** Substitution touches references and nothing else: expanding each to itself is the identity. */
  lemma QuotingIsIdentity(s: string)
    ensures SubstituteStr(s, Quoting) == Ok(s)
  {
    ExpandAllQuotes(Pieces(s)[1..], Pieces(s)[0]);
    PiecesRejoin(s);
  }

  /** Whether a piece that stood after a `${` begins with a variable name and a closing brace. */
  predicate Refers(part: string) {
    var end := Span(part, c => c != '}');
    end < |part| && IsVarName(part[..end])
  }

  predicate AnyRefers(parts: seq<string>) {
    exists i :: 0 <= i < |parts| && Refers(parts[i])
  }

  lemma {:induction false} UnreferringKept(parts: seq<string>, env: Env, out: string)
    requires !AnyRefers(parts)
    ensures ExpandAll(parts, env, out) == ExpandAll(parts, Quoting, out)
  {
    if parts != [] {
      assert !Refers(parts[0]);
      assert !AnyRefers(parts[1..]);
      UnreferringKept(parts[1..], env, out + ("${" + parts[0]));
    }
  }

  lemma {:induction false} ReferringFails(parts: seq<string>, out: string)
    requires AnyRefers(parts)
    ensures ExpandAll(parts, _ => NotPresent, out).Err?
  {
    if !Refers(parts[0]) {
      var i :| 0 <= i < |parts| && Refers(parts[i]);
      assert parts[1..][i - 1] == parts[i];
      ReferringFails(parts[1..], out + ("${" + parts[0]));
    }
  }

  /** The environment decides what a string becomes exactly when a well-formed reference stands in it. */
  lemma ReferencesDecide(s: string)
    ensures (forall env :: SubstituteStr(s, env) == Ok(s)) <==> !AnyRefers(Pieces(s)[1..])
  {
    var parts := Pieces(s);
    if AnyRefers(parts[1..]) {
      ReferringFails(parts[1..], parts[0]);
      assert SubstituteStr(s, _ => NotPresent) != Ok(s);
    } else {
      forall env
        ensures SubstituteStr(s, env) == Ok(s)
      {
        UnreferringKept(parts[1..], env, parts[0]);
        QuotingIsIdentity(s);
      }
    }
  }

  // ----- an environment that changes every reference -----

  /** The environment in which every name is set and empty. */
  function Blank(name: string): Variable {
    Present("")
  }

  lemma BlankShrinks(part: string)
    ensures Expand(part, Blank).Ok?
    ensures |Expand(part, Blank).value| <= |part| + 2
    ensures Refers(part) ==> |Expand(part, Blank).value| < |part| + 2
  {
  }

  lemma {:induction false} AllBlankShrink(parts: seq<string>, out: string)
    ensures ExpandAll(parts, Blank, out).Ok?
    ensures |ExpandAll(parts, Blank, out).value| <= |out| + |Rejoin(parts)|
    ensures AnyRefers(parts) ==> |ExpandAll(parts, Blank, out).value| < |out| + |Rejoin(parts)|
    decreases |parts|
  {
    if parts != [] {
      BlankShrinks(parts[0]);
      AllBlankShrink(parts[1..], out + Expand(parts[0], Blank).value);
      if AnyRefers(parts) && !Refers(parts[0]) {
        var i :| 0 <= i < |parts| && Refers(parts[i]);
        assert parts[1..][i - 1] == parts[i];
      }
    }
  }

  /** A well-formed reference stands in the string. */
  predicate Refs(s: string) {
    AnyRefers(Pieces(s)[1..])
  }

  /** Two environments in which everything is set tell the strings with a reference from the others. */
  lemma BlankChanges(s: string)
    ensures SubstituteStr(s, Quoting) == Ok(s) && SubstituteStr(s, Blank).Ok?
    ensures SubstituteStr(s, Blank) == Ok(s) <==> !Refs(s)
  {
    QuotingIsIdentity(s);
    PiecesRejoin(s);
    AllBlankShrink(Pieces(s)[1..], Pieces(s)[0]);
    ReferencesDecide(s);
  }

  lemma LiteralHasNoReference(s: string)
    requires Literal(s)
    ensures !Refs(s)
  {
    LiteralHasNoOpening(s);
    assert Pieces(s) == [s] && [s][1..] == [];
  }
}
