/** The text `nyet import datagrip` writes: TOML strings, and connection aliases. */
module DataGrip {
  import opened Outcomes
  import opened MongoSyntax
  import J = Json
  import JsonText

  // ----- TOML basic strings -----

  function UpperHex(n: nat): char
    requires n < 16
  {
    if n < 10 then (n + '0' as int) as char else (n - 10 + 'A' as int) as char
  }

  /** How one character is written between the quotes. */
  function Escaped(c: char): string {
    if c == '"' then "\\\""
    else if c == '\\' then "\\\\"
    else if c == '\n' then "\\n"
    else if c == '\r' then "\\r"
    else if c == '\t' then "\\t"
    else if c < ' ' then "\\u00" + [UpperHex(c as int / 16), UpperHex(c as int % 16)]
    else [c]
  }

  function EscapedAll(s: string): string {
    if s == "" then "" else Escaped(s[0]) + EscapedAll(s[1..])
  }

  method TomlString(value: string) returns (out: string)
    ensures out == "\"" + EscapedAll(value) + "\""
  {
    out := "\"";
    for k := 0 to |value|
      invariant out + EscapedAll(value[k..]) == "\"" + EscapedAll(value)
    {
      assert value[k..][0] == value[k] && value[k..][1..] == value[k + 1..];
      assert out + (Escaped(value[k]) + EscapedAll(value[k + 1..]))
             == out + Escaped(value[k]) + EscapedAll(value[k + 1..]);
      out := out + Escaped(value[k]);
    }
    out := out + "\"";
  }

  /** Control characters other than tab may not stand raw in a basic string (TOML v1.0.0, "String"). */
  predicate RawAllowed(c: char) {
    c == '\t' || (' ' <= c && c != '\U{007F}')
  }

  function TomlEscape(c: char): Option<char> {
    match c
    case 'b' => Some('\U{0008}')
    case 't' => Some('\t')
    case 'n' => Some('\n')
    case 'f' => Some('\U{000C}')
    case 'r' => Some('\r')
    case '"' => Some('"')
    case '\\' => Some('\\')
    case _ => None
  }

  function CodePoint(s: string, digits: nat): (r: Option<(char, string)>)
    ensures r.Some? ==> |r.value.1| <= |s|
  {
    match Hex(s, digits, 0)
    case Refused(_) => None
    case Got(n, rest) => if IsScalar(n) then Some((n as char, rest)) else None
  }

  /** The rest of a basic string as a TOML parser reads it, up to and including the closing quote. */
  function BasicRest(s: string, out: string): Option<(string, string)>
    decreases |s|
  {
    if s == "" then None
    else if s[0] == '"' then Some((out, s[1..]))
    else if s[0] != '\\' then
      if RawAllowed(s[0]) then BasicRest(s[1..], out + [s[0]]) else None
    else if |s| < 2 then None
    else if s[1] == 'u' || s[1] == 'U' then
      match CodePoint(s[2..], if s[1] == 'u' then 4 else 8)
      case Some((c, rest)) => BasicRest(rest, out + [c])
      case None => None
    else
      match TomlEscape(s[1])
      case Some(c) => BasicRest(s[2..], out + [c])
      case None => None
  }

  function BasicString(s: string): Option<(string, string)> {
    if At(s, '"') then BasicRest(s[1..], "") else None
  }

  lemma ControlReads(c: char, rest: string)
    requires c < ' '
    ensures CodePoint("00" + [UpperHex(c as int / 16), UpperHex(c as int % 16)] + rest, 4) == Some((c, rest))
  {
    var hi, lo := UpperHex(c as int / 16), UpperHex(c as int % 16);
    var hex := "00" + [hi, lo];
    assert HexDigit(hi) == Some(c as int / 16) && HexDigit(lo) == Some(c as int % 16);
    assert J.IsHex4(hex);
    JsonText.Hex4Reads(hex, rest);
  }

  lemma EscapedReads(c: char, rest: string, out: string)
    ensures BasicRest(Escaped(c) + rest, out) == if c == '\U{007F}' then None else BasicRest(rest, out + [c])
  {
    var s := Escaped(c) + rest;
    if s[0] != '\\' {
      assert s[1..] == rest;
    } else if s[1] == 'u' {
      ControlReads(c, rest);
      assert s[2..] == "00" + [UpperHex(c as int / 16), UpperHex(c as int % 16)] + rest;
    } else {
      assert s[2..] == rest;
    }
  }

  lemma {:induction false} AllEscapedReads(value: string, rest: string, out: string)
    ensures BasicRest(EscapedAll(value) + "\"" + rest, out)
         == if '\U{007F}' in value then None else Some((out + value, rest))
  {
    if value == "" {
      assert EscapedAll(value) + "\"" + rest == "\"" + rest;
      assert ("\"" + rest)[1..] == rest;
      assert out + value == out;
    } else {
      var tail := EscapedAll(value[1..]) + "\"" + rest;
      assert EscapedAll(value) + "\"" + rest == Escaped(value[0]) + tail;
      EscapedReads(value[0], tail, out);
      AllEscapedReads(value[1..], rest, out + [value[0]]);
      assert out + [value[0]] + value[1..] == out + value;
      assert value == [value[0]] + value[1..];
    }
  }

  /** The written string decodes to the value it was made from exactly when no DEL is in it. */
  lemma TomlReadsBack(value: string)
    ensures BasicString("\"" + EscapedAll(value) + "\"") == if '\U{007F}' in value then None else Some((value, ""))
  {
    var s := "\"" + EscapedAll(value) + "\"";
    assert s[1..] == EscapedAll(value) + "\"" + "";
    AllEscapedReads(value, "", "");
    assert "" + value == value;
  }

  // ----- aliases -----

  predicate Kept(c: char) {
    IsAlpha(c) || IsDigit(c) || c == '_'
  }

  predicate EndsKept(s: string) {
    s != "" && Kept(s[|s| - 1])
  }

  /** The maximal runs of kept characters. */
  function Words(s: string): (words: seq<string>)
    ensures EndsKept(s) ==> words != []
  {
    if s == "" then []
    else
      var before := s[..|s| - 1];
      var words, c := Words(before), s[|s| - 1];
      if !Kept(c) then words
      else if EndsKept(before) then words[..|words| - 1] + [words[|words| - 1] + [c]]
      else words + [[c]]
  }

  function Joined(words: seq<string>): string {
    if words == [] then ""
    else if |words| == 1 then words[0]
    else Joined(words[..|words| - 1]) + "-" + words[|words| - 1]
  }

  const FALLBACK := "connection"

  /** The words of the name, one dash between two of them. */
  function AliasOf(name: string): string {
    if Words(name) == [] then FALLBACK else Joined(Words(name))
  }

  predicate IsWord(w: string) {
    w != "" && forall i :: 0 <= i < |w| ==> Kept(w[i])
  }

  predicate AreWords(words: seq<string>) {
    forall i :: 0 <= i < |words| ==> IsWord(words[i])
  }

  lemma {:induction false} WordsAreWords(s: string)
    ensures AreWords(Words(s))
  {
    if s != "" {
      WordsAreWords(s[..|s| - 1]);
    }
  }

  lemma JoinedEnds(words: seq<string>)
    requires AreWords(words) && words != []
    ensures EndsKept(Joined(words))
  {
  }

  /** The text after a prefix of the name: its words, and a dash when one may still be needed. */
  function Written(s: string): string {
    Joined(Words(s)) + (if !EndsKept(s) && Words(s) != [] then "-" else "")
  }

  lemma WrittenStep(s: string, c: char)
    ensures Written(s + [c])
            == if Kept(c) then Written(s) + [c] else if EndsKept(s) then Written(s) + "-" else Written(s)
  {
  }

  /** The character loop, and the trailing dashes taken off. */
  method AliasFor(name: string) returns (out: string)
    ensures out == AliasOf(name)
  {
    out := "";
    var lastDash := true;
    for k := 0 to |name|
      invariant lastDash <==> !EndsKept(name[..k])
      invariant out == Written(name[..k])
    {
      var c := name[k];
      assert name[..k + 1] == name[..k] + [c];
      assert EndsKept(name[..k + 1]) <==> Kept(c);
      WrittenStep(name[..k], c);
      if Kept(c) {
        out := out + [c];
        lastDash := false;
      } else if !lastDash {
        out := out + "-";
        lastDash := true;
      }
    }
    assert name[..|name|] == name;
    out := TrimDashes(out, name);
    if out == "" {
      out := FALLBACK;
    }
  }

  method TrimDashes(text: string, ghost name: string) returns (out: string)
    requires text == Written(name)
    ensures out == Joined(Words(name))
    ensures out == "" <==> Words(name) == []
  {
    out := text;
    WordsAreWords(name);
    ghost var words := Words(name);
    if words != [] {
      JoinedEnds(words);
    }
    while out != "" && out[|out| - 1] == '-'
      invariant out == Joined(words) || (words != [] && out == Joined(words) + "-")
      decreases |out|
    {
      out := out[..|out| - 1];
    }
  }

  // ----- what an alias looks like -----

  /** Kept characters and single dashes between them. */
  predicate IsAlias(s: string) {
    && s != "" && Kept(s[0]) && Kept(s[|s| - 1])
    && (forall i :: 0 <= i < |s| ==> Kept(s[i]) || s[i] == '-')
    && (forall i :: 0 <= i < |s| - 1 ==> !(s[i] == '-' && s[i + 1] == '-'))
  }

  lemma {:induction false} JoinedIsAlias(words: seq<string>)
    requires AreWords(words) && words != []
    ensures IsAlias(Joined(words))
    decreases |words|
  {
    var last := words[|words| - 1];
    assert IsWord(last);
    if |words| > 1 {
      var front := words[..|words| - 1];
      JoinedIsAlias(front);
      AliasAppends(Joined(front), last);
    }
  }

  lemma AliasAppends(a: string, w: string)
    requires IsAlias(a) && IsWord(w)
    ensures IsAlias(a + "-" + w)
  {
  }

  lemma FallbackIsWord()
    ensures IsWord(FALLBACK)
  {
  }

  lemma WordGrows(s: string, c: char)
    requires Kept(c)
    ensures Words(s + [c])
            == if EndsKept(s) then var w := Words(s); w[..|w| - 1] + [w[|w| - 1] + [c]] else Words(s) + [[c]]
  {
  }

  lemma {:induction false} WordsOfWord(before: string, w: string)
    requires IsWord(w) && !EndsKept(before)
    ensures Words(before + w) == Words(before) + [w]
    decreases |w|
  {
    var c, front := w[|w| - 1], w[..|w| - 1];
    assert w == front + [c];
    WordGrows(before + front, c);
    assert before + w == before + front + [c];
    if front == "" {
      assert before + front == before;
    } else {
      WordsOfWord(before, front);
      var words := Words(before) + [front];
      assert words[..|words| - 1] == Words(before);
    }
  }

  lemma {:induction false} WordsOfJoined(words: seq<string>)
    requires AreWords(words)
    ensures Words(Joined(words)) == words
    decreases |words|
  {
    if words != [] {
      var front, last := words[..|words| - 1], words[|words| - 1];
      assert words == front + [last] && IsWord(last);
      if front == [] {
        WordsOfWord("", last);
        assert "" + last == last;
      } else {
        WordsOfJoined(front);
        var before := Joined(front) + "-";
        assert before[..|before| - 1] == Joined(front);
        WordsOfWord(before, last);
      }
    }
  }

  /** An alias is well formed and is its own alias. */
  lemma AliasIsStable(name: string)
    ensures IsAlias(AliasOf(name)) && AliasOf(AliasOf(name)) == AliasOf(name)
  {
    WordsAreWords(name);
    FallbackIsWord();
    var words := if Words(name) == [] then [FALLBACK] else Words(name);
    assert Joined([FALLBACK]) == FALLBACK;
    assert AliasOf(name) == Joined(words);
    JoinedIsAlias(words);
    WordsOfJoined(words);
  }

  // ----- unique aliases -----

  function Numbered(base: string, n: nat): string {
    base + "-" + ShowNat(n)
  }

  function Count(bases: seq<string>, base: string): nat {
    if bases == [] then 0
    else Count(bases[..|bases| - 1], base) + if bases[|bases| - 1] == base then 1 else 0
  }

  /** The alias of the `k`-th name: its base, or its base and the number of its occurrence. */
  function UniqueOf(bases: seq<string>, k: nat): string
    requires k < |bases|
  {
    var n := Count(bases[..k], bases[k]);
    if n == 0 then bases[k] else Numbered(bases[k], n + 1)
  }

  class Book {
    var used: map<string, nat>
    ghost var bases: seq<string>

    ghost predicate Valid()
      reads this
    {
      forall base :: (if base in used then used[base] else 0) == Count(bases, base)
    }

    constructor ()
      ensures Valid() && bases == []
    {
      used, bases := map[], [];
    }

    method Unique(name: string) returns (alias: string)
      requires Valid()
      modifies this
      ensures Valid() && bases == old(bases) + [AliasOf(name)]
      ensures alias == UniqueOf(bases, |old(bases)|)
    {
      var base := AliasFor(name);
      ghost var before := bases;
      var count := (if base in used then used[base] else 0) + 1;
      used := used[base := count];
      bases := bases + [base];
      assert bases[..|before|] == before;
      alias := if count == 1 then base else base + "-" + ShowNat(count);
    }
  }

  /** Some name's base is another's numbered form. */
  predicate Clash(bases: seq<string>, i: nat, j: nat)
    requires i < |bases| && j < |bases|
  {
    var n := Count(bases[..j], bases[j]);
    n > 0 && bases[i] == Numbered(bases[j], n + 1)
  }

  lemma AfterTheDash(base: string, n: nat, k: nat)
    requires |base| < k < |Numbered(base, n)|
    ensures Numbered(base, n)[k] != '-'
  {
    assert ShowNat(n)[k - |base| - 1] in ShowNat(n);
  }

  lemma NumberedIsInjective(a: string, m: nat, b: string, n: nat)
    requires Numbered(a, m) == Numbered(b, n)
    ensures a == b && m == n
  {
    var s := Numbered(a, m);
    if |b| < |a| {
      AfterTheDash(b, n, |a|);
    } else if |a| < |b| {
      AfterTheDash(a, m, |b|);
    } else {
      assert a == s[..|a|] && b == s[..|b|];
      assert ShowNat(m) == s[|a| + 1..] && ShowNat(n) == s[|b| + 1..];
      JsonText.DecimalsOfShow(m);
      JsonText.DecimalsOfShow(n);
    }
  }

  lemma {:induction false} CountGrows(bases: seq<string>, i: nat, j: nat)
    requires i < j <= |bases|
    ensures Count(bases[..i], bases[i]) < Count(bases[..j], bases[i])
    decreases j
  {
    assert bases[..j][..j - 1] == bases[..j - 1];
    if i < j - 1 {
      CountGrows(bases, i, j - 1);
    }
  }

  /** Where a base occurs first it is its own alias. */
  lemma {:induction false} FirstIsPlain(bases: seq<string>, i: nat) returns (first: nat)
    requires i < |bases|
    ensures first <= i && bases[first] == bases[i] && UniqueOf(bases, first) == bases[i]
    decreases i
  {
    if Count(bases[..i], bases[i]) == 0 {
      first := i;
    } else {
      var k := LastBefore(bases[..i], bases[i]);
      first := FirstIsPlain(bases, k);
    }
  }

  lemma {:induction false} LastBefore(bases: seq<string>, base: string) returns (k: nat)
    requires Count(bases, base) > 0
    ensures k < |bases| && bases[k] == base
  {
    if bases[|bases| - 1] == base {
      k := |bases| - 1;
    } else {
      k := LastBefore(bases[..|bases| - 1], base);
    }
  }

  /** Two aliases coincide only by a clash. */
  lemma SameAliasClashes(bases: seq<string>, i: nat, j: nat)
    requires i < j < |bases| && UniqueOf(bases, i) == UniqueOf(bases, j)
    ensures Clash(bases, i, j) || Clash(bases, j, i)
  {
    var m, n := Count(bases[..i], bases[i]), Count(bases[..j], bases[j]);
    if m > 0 && n > 0 {
      NumberedIsInjective(bases[i], m + 1, bases[j], n + 1);
    }
    if bases[i] == bases[j] {
      CountGrows(bases, i, j);
    }
  }

  /** The aliases are pairwise distinct exactly when no base is the numbered form of another. */
  lemma AliasesAreDistinct(bases: seq<string>)
    ensures (forall i, j :: 0 <= i < j < |bases| ==> UniqueOf(bases, i) != UniqueOf(bases, j))
            <==> (forall i, j :: 0 <= i < |bases| && 0 <= j < |bases| ==> !Clash(bases, i, j))
  {
    forall i, j | 0 <= i < j < |bases| && UniqueOf(bases, i) == UniqueOf(bases, j)
      ensures Clash(bases, i, j) || Clash(bases, j, i)
    {
      SameAliasClashes(bases, i, j);
    }
    forall i, j | 0 <= i < |bases| && 0 <= j < |bases| && Clash(bases, i, j)
      ensures exists p, q :: 0 <= p < q < |bases| && UniqueOf(bases, p) == UniqueOf(bases, q)
    {
      var first := FirstIsPlain(bases, i);
      assert UniqueOf(bases, first) == UniqueOf(bases, j);
      assert first != j;
    }
  }

  /** What the names are numbered by. */
  function Bases(names: seq<string>): seq<string> {
    seq(|names|, k requires 0 <= k < |names| => AliasOf(names[k]))
  }

  lemma WordsMakeAlias(words: seq<string>)
    requires AreWords(words) && words != []
    ensures AliasOf(Joined(words)) == Joined(words)
  {
    WordsOfJoined(words);
  }

  lemma ProdIsPlain()
    ensures AliasOf("prod") == "prod"
  {
    var words := ["prod"];
    assert IsWord("prod");
    assert Joined(words) == "prod";
    WordsMakeAlias(words);
  }

  lemma NumberedProdIsPlain()
    ensures AliasOf("prod-2") == "prod-2"
  {
    var one, two := ["prod"], ["prod", "2"];
    assert IsWord("prod") && IsWord("2");
    assert two[..1] == one && Joined(one) == "prod" && Joined(two) == "prod-2";
    WordsMakeAlias(two);
  }

  /** The names `prod`, `prod`, `prod-2`: the second and the third get the same alias. */
  lemma ProdClashes()
    ensures var bases := Bases(["prod", "prod", "prod-2"]);
            UniqueOf(bases, 1) == UniqueOf(bases, 2) == "prod-2" && Clash(bases, 2, 1)
  {
    var bases := ["prod", "prod", "prod-2"];
    ProdIsPlain();
    NumberedProdIsPlain();
    assert Bases(bases) == bases;
    assert bases[..1] == ["prod"] && bases[..2] == ["prod", "prod"];
    assert ["prod"][..0] == [] && ["prod", "prod"][..1] == ["prod"];
    assert ShowNat(2) == "2";
    assert |"prod"| != |"prod-2"|;
  }
}
