/** Reading back printed JSON: the grammar takes exactly the printed text and yields its meaning. */
module JsonText {
  import opened Outcomes
  import opened Values
  import opened MongoSyntax
  import opened Json

  /** A text that ends a number or a word standing before it. */
  predicate Delimited(rest: string) {
    rest == "" || !(IsIdentPart(rest[0]) || rest[0] == '.')
  }

  // ----- runs of characters -----

  lemma {:induction false} SpanStops(a: string, rest: string, p: char -> bool)
    requires forall i :: 0 <= i < |a| ==> p(a[i])
    requires rest == "" || !p(rest[0])
    ensures Span(a + rest, p) == |a|
  {
    if a == "" {
      assert a + rest == rest;
    } else {
      assert (a + rest)[1..] == a[1..] + rest;
      SpanStops(a[1..], rest, p);
    }
  }

  lemma SkipNothing(s: string)
    requires s != "" && !IsSpace(s[0]) && s[0] != '/'
    ensures SkipWs(s) == Got((), s)
  {
  }

  // ----- strings -----

  lemma Hex4Reads(hex: string, rest: string)
    requires IsHex4(hex)
    ensures Hex(hex + rest, 4, 0) == Got(Hex4Value(hex), rest)
  {
    var s := hex + rest;
    assert s[0] == hex[0] && s[1] == hex[1] && s[2] == hex[2] && s[3] == hex[3];
    var d0, d1, d2, d3 := HexDigit(s[0]).value, HexDigit(s[1]).value, HexDigit(s[2]).value, HexDigit(s[3]).value;
    assert Hex(s, 4, 0) == Hex(s[1..], 3, d0);
    assert s[1..][0] == s[1] && s[1..][1..] == s[2..];
    assert Hex(s[1..], 3, d0) == Hex(s[2..], 2, d0 * 16 + d1);
    assert s[2..][0] == s[2] && s[2..][1..] == s[3..];
    assert Hex(s[2..], 2, d0 * 16 + d1) == Hex(s[3..], 1, (d0 * 16 + d1) * 16 + d2);
    assert s[3..][0] == s[3] && s[3..][1..] == s[4..] == rest;
  }

  lemma CodeReads(hex: string, rest: string)
    requires IsHex4(hex) && IsScalar(Hex4Value(hex))
    ensures UnicodeEscape(hex + rest) == Got(Hex4Value(hex) as char, rest)
  {
    Hex4Reads(hex, rest);
  }

  lemma PairReads(high: string, low: string, rest: string)
    requires Legal(Pair(high, low))
    ensures UnicodeEscape(high + ("\\u" + (low + rest))) == Got(Meaning(Pair(high, low)), rest)
  {
    var after := "\\u" + (low + rest);
    Hex4Reads(high, after);
    assert after[2..] == low + rest;
    Hex4Reads(low, rest);
  }

  /** One legal spelling is read as the character it means. */
  lemma GlyphReads(g: Glyph, rest: string, out: string)
    requires Legal(g)
    ensures StringBody(Ink(g) + rest, '"', out) == StringBody(rest, '"', out + [Meaning(g)])
  {
    var s := Ink(g) + rest;
    if g.Raw? {
      assert s[1..] == rest;
    } else if g.Short? {
      assert s[0] == '\\' && s[1] == g.letter && s[2..] == rest;
    } else {
      LongGlyphReads(g, rest, out);
    }
  }

  lemma LongGlyphReads(g: Glyph, rest: string, out: string)
    requires Legal(g) && (g.Code? || g.Pair?)
    ensures StringBody(Ink(g) + rest, '"', out) == StringBody(rest, '"', out + [Meaning(g)])
  {
    var s := Ink(g) + rest;
    if g.Code? {
      CodeReads(g.hex, rest);
      EscapeReads(s, g.hex + rest, out, Meaning(g), rest);
    } else {
      assert s[2..] == g.high + ("\\u" + (g.low + rest));
      PairReads(g.high, g.low, rest);
      EscapeReads(s, g.high + ("\\u" + (g.low + rest)), out, Meaning(g), rest);
    }
  }

  lemma EscapeReads(s: string, code: string, out: string, c: char, rest: string)
    requires s == "\\u" + code && UnicodeEscape(code) == Got(c, rest)
    ensures StringBody(s, '"', out) == StringBody(rest, '"', out + [c])
  {
    assert s[0] == '\\' && s[1] == 'u' && s[2..] == code;
  }

  /** Every spelling of a string under RFC 8259, section 7, is read back as that string. */
  lemma {:induction false} StringReads(gs: seq<Glyph>, rest: string, out: string)
    requires AllLegal(gs)
    ensures StringBody(InkOf(gs) + "\"" + rest, '"', out) == Got(out + MeaningOf(gs), rest)
  {
    var s := InkOf(gs) + "\"" + rest;
    if gs == [] {
      assert s == "\"" + rest;
      assert out + MeaningOf(gs) == out;
      assert s[1..] == rest;
    } else {
      var tail := InkOf(gs[1..]) + "\"" + rest;
      assert s == Ink(gs[0]) + tail;
      GlyphReads(gs[0], tail, out);
      StringReads(gs[1..], rest, out + [Meaning(gs[0])]);
      assert out + [Meaning(gs[0])] + MeaningOf(gs[1..]) == out + MeaningOf(gs);
    }
  }

  lemma QuoteReads(style: Style, text: string, rest: string)
    requires Faithful(style)
    ensures QuotedString(Quote(style, text) + rest) == Got(text, rest)
  {
    var s := Quote(style, text) + rest;
    assert s[1..] == InkOf(style(text)) + "\"" + rest;
    StringReads(style(text), rest, "");
    assert "" + MeaningOf(style(text)) == text;
  }

  // ----- numbers -----

  lemma {:induction false} DecimalsOfShow(n: nat)
    ensures Decimals(ShowNat(n)) == n
  {
    if n >= 10 {
      DecimalsOfShow(n / 10);
      var s := ShowNat(n);
      assert s[..|s| - 1] == ShowNat(n / 10);
    } else {
      assert ShowNat(n)[..0] == "";
    }
  }

  lemma ParseOfShow(n: int)
    ensures ParseInt(ShowInt(n)) == Some(n)
  {
    var s := ShowInt(n);
    if n < 0 {
      assert s[1..] == ShowNat(-n);
      DecimalsOfShow(-n);
    } else {
      assert s[0] in s;
      DecimalsOfShow(n);
    }
  }

  lemma {:induction false} DigitsScan(prev: char, digits: string, rest: string)
    requires AllDigits(digits) && Delimited(rest)
    requires prev != 'e' && prev != 'E'
    ensures NumberTail(prev, digits + rest) == |digits|
    decreases |digits|
  {
    if digits == "" {
      assert digits + rest == rest;
    } else {
      var s := digits + rest;
      assert digits[0] in digits;
      assert s[1..] == digits[1..] + rest;
      DigitsScan(s[0], digits[1..], rest);
    }
  }

  /** A result as a step that consumed everything before `rest`. */
  function Before<T>(r: Result<T>, rest: string): Step<T> {
    match r
    case Ok(v) => Got(v, rest)
    case Err(e) => Refused(e)
  }

  lemma NumberReads(lib: Lib, n: int, rest: string)
    requires Delimited(rest)
    ensures var s := ShowInt(n) + rest;
            && (IsDigit(s[0]) || s[0] == '-')
            && Number(lib, s) == Before(Read(lib, JInt(n), 0), rest)
  {
    var text := ShowInt(n);
    var s := text + rest;
    if n < 0 {
      assert s[1..] == ShowNat(-n) + rest;
      DigitsScan('-', ShowNat(-n), rest);
    } else {
      assert text[0] in text;
      DigitsScan('0', ShowNat(n), rest);
    }
    assert NumberLen(s) == |text|;
    assert s[..|text|] == text && s[|text|..] == rest;
    assert forall c :: c in text ==> !IsFloatMark(c);
    ParseOfShow(n);
  }

  lemma {:induction false} TailStops(prev: char, digits: string, rest: string)
    requires NumberTail(prev, digits) == |digits| && Delimited(rest)
    requires IsDigit(if digits == "" then prev else digits[|digits| - 1])
    ensures NumberTail(prev, digits + rest) == |digits|
    decreases |digits|
  {
    if digits == "" {
      assert digits + rest == rest;
    } else {
      assert (digits + rest)[0] == digits[0] && (digits + rest)[1..] == digits[1..] + rest;
      TailStops(digits[0], digits[1..], rest);
    }
  }

  /** The text of a number before a delimiter is scanned whole. */
  lemma DigitsRead(lib: Lib, digits: string, rest: string)
    requires IsNumberText(digits) && Delimited(rest)
    ensures Number(lib, digits + rest) == Before(NumberOf(lib, digits), rest)
  {
    var s := digits + rest;
    if digits[0] == '-' {
      assert s[1..] == digits[1..] + rest;
      TailStops('-', digits[1..], rest);
    } else {
      TailStops('0', digits, rest);
    }
    assert s[..|digits|] == digits && s[|digits|..] == rest;
  }

  // ----- words -----

  lemma WordReads(lib: Lib, word: string, rest: string, depth: nat)
    requires word == "true" || word == "false" || word == "null"
    requires Delimited(rest)
    ensures Word(lib, word + rest, depth)
            == Got(if word == "true" then Boolean(true) else if word == "false" then Boolean(false) else Null, rest)
  {
    var s := word + rest;
    assert s[1..] == word[1..] + rest;
    SpanStops(word[1..], rest, IsIdentPart);
    assert IdentLen(s) == |word|;
    assert s[..|word|] == word && s[|word|..] == rest;
  }

  // ----- trees -----

  lemma PrintStarts(style: Style, j: Json)
    requires HasText(j)
    ensures var s := Print(style, j);
            s != "" && !IsSpace(s[0]) && s[0] != '/' && s[0] != ',' && s[0] != ']' && s[0] != ')'
  {
    if j.JInt? {
      var s := ShowInt(j.n);
      assert s[0] in s;
    }
  }

  /** A comma or the closing bracket comes right after a printed element. */
  lemma SeparatorReads(next: string, close: char, rest: string)
    requires close == ']' || close == '}' || close == ')'
    requires next != "" ==> !IsSpace(next[0]) && next[0] != '/' && next[0] != close
    ensures var s := (if next == "" then "" else "," + next) + [close] + rest;
            Separator(s, close) == Got(next != "", (if next == "" then "" else next) + [close] + rest)
  {
  }

  /** The first character of a value decides how it is read. */
  lemma FirstCharacter(lib: Lib, s: string, depth: nat)
    requires s != "" && !IsSpace(s[0]) && s[0] != '/' && depth <= MAX_DEPTH
    ensures s[0] == '{' ==> Value(lib, s, depth) == DocumentBody(lib, s[1..], depth)
    ensures s[0] == '[' ==> Value(lib, s, depth) == AsArray(ListBody(lib, s[1..], depth, ']'))
    ensures s[0] == '"' ==> Value(lib, s, depth) == AsString(QuotedString(s))
    ensures IsDigit(s[0]) || s[0] == '-' ==> Value(lib, s, depth) == Number(lib, s)
    ensures IsAlpha(s[0]) ==> Value(lib, s, depth) == Word(lib, s, depth)
  {
    SkipNothing(s);
  }

  function AsArray(items: Step<seq<Bson>>): Step<Bson> {
    var (v, rest) :- items;
    Got(Array(v), rest)
  }

  function AsString(text: Step<string>): Step<Bson> {
    var (v, rest) :- text;
    Got(String(v), rest)
  }

  lemma LeafReads(lib: Lib, style: Style, j: Json, depth: nat, rest: string)
    requires Faithful(style) && Delimited(rest) && depth <= MAX_DEPTH
    requires HasText(j) && !j.JList? && !j.JObject?
    ensures Value(lib, Print(style, j) + rest, depth) == Before(Read(lib, j, depth), rest)
  {
    var s := Print(style, j) + rest;
    PrintStarts(style, j);
    FirstCharacter(lib, s, depth);
    match j {
      case JNull => WordReads(lib, "null", rest, depth);
      case JBool(b) => WordReads(lib, if b then "true" else "false", rest, depth);
      case JInt(n) => NumberReads(lib, n, rest);
      case JNumber(digits) => DigitsRead(lib, digits, rest);
      case JText(text) => QuoteReads(style, text, rest);
    }
  }

  /**
   The printed text of a tree, followed by a delimiter, is read as the tree and nothing more; a
   tree that denotes no value is refused for the tree's own reason.
   */
  lemma {:induction false} TreeReads(lib: Lib, style: Style, j: Json, depth: nat, rest: string)
    requires Faithful(style) && Delimited(rest) && HasText(j)
    ensures Value(lib, Print(style, j) + rest, depth) == Before(Read(lib, j, depth), rest)
    decreases j, 0
  {
    var s := Print(style, j) + rest;
    BracketsPrint(style, j, rest);
    if depth > MAX_DEPTH {
    } else if j.JList? {
      FirstCharacter(lib, s, depth);
      ListReads(lib, style, j.items, depth, ']', rest);
    } else if j.JObject? {
      FirstCharacter(lib, s, depth);
      ObjectReads(lib, style, j.members, depth, rest);
    } else {
      LeafReads(lib, style, j, depth, rest);
    }
  }

  lemma BracketsPrint(style: Style, j: Json, rest: string)
    ensures j.JList? ==>
              var s := Print(style, j) + rest; s[0] == '[' && s[1..] == PrintItems(style, j.items) + "]" + rest
    ensures j.JObject? ==>
              var s := Print(style, j) + rest; s[0] == '{' && s[1..] == PrintMembers(style, j.members) + "}" + rest
  {
    var s := Print(style, j) + rest;
    if j.JList? {
      assert s[1..] == PrintItems(style, j.items) + "]" + rest;
    } else if j.JObject? {
      assert s[1..] == PrintMembers(style, j.members) + "}" + rest;
    }
  }

  /** A list of printed trees up to the bracket or parenthesis that closes it. */
  lemma {:induction false} ListReads(lib: Lib, style: Style, items: seq<Json>, depth: nat, close: char, rest: string)
    requires Faithful(style) && AllHaveText(items) && (close == ']' || close == ')')
    ensures ListBody(lib, PrintItems(style, items) + [close] + rest, depth, close)
            == Before(ReadItems(lib, items, depth + 1), rest)
    decreases items, 2
  {
    var t := PrintItems(style, items) + [close] + rest;
    if items == [] {
      assert t == [close] + rest;
      assert !IsSpace(']') && !IsSpace(')');
      assert t[0] == close && t[1..] == rest;
      SkipNothing(t);
    } else {
      PrintStarts(style, items[0]);
      assert t[0] == Print(style, items[0])[0];
      SkipNothing(t);
      ItemsRead(lib, style, items, depth, close, rest, []);
      AppendToNothing(ReadItems(lib, items, depth + 1));
    }
  }

  lemma {:induction false} ObjectReads(lib: Lib, style: Style, members: seq<Member>, depth: nat, rest: string)
    requires Faithful(style) && AllMembersHaveText(members) && depth <= MAX_DEPTH
    ensures DocumentBody(lib, PrintMembers(style, members) + "}" + rest, depth)
            == Before(Read(lib, JObject(members), depth), rest)
    decreases members, 3
  {
    var t := PrintMembers(style, members) + "}" + rest;
    if members == [] {
      assert t == "}" + rest;
      assert t[1..] == rest;
      SkipNothing(t);
    } else {
      assert t[0] == '"';
      SkipNothing(t);
      MembersRead(lib, style, members, depth, rest, []);
    }
  }

  function Append<T>(acc: seq<T>, r: Result<seq<T>>): Result<seq<T>> {
    var tail :- r;
    Ok(acc + tail)
  }

  lemma AppendToNothing<T>(r: Result<seq<T>>)
    ensures Append([], r) == r
  {
    if r.Ok? {
      assert [] + r.value == r.value;
    }
  }

  lemma {:induction false} ItemsRead(lib: Lib, style: Style, items: seq<Json>, depth: nat, close: char, rest: string,
                                     acc: seq<Bson>)
    requires Faithful(style) && items != [] && AllHaveText(items) && (close == ']' || close == ')')
    ensures Items(lib, PrintItems(style, items) + [close] + rest, depth, close, acc)
            == Before(Append(acc, ReadItems(lib, items, depth + 1)), rest)
    decreases items, 1
  {
    var more := PrintItems(style, items[1..]);
    var after := (if more == "" then "" else "," + more) + [close] + rest;
    if |items| > 1 {
      assert HasText(items[1..][0]);
      PrintStarts(style, items[1]);
      assert more[0] == Print(style, items[1])[0];
    }
    assert PrintItems(style, items) + [close] + rest == Print(style, items[0]) + after;
    TreeReads(lib, style, items[0], depth + 1, after);
    SeparatorReads(more, close, rest);
    if Read(lib, items[0], depth + 1).Ok? {
      var v := Read(lib, items[0], depth + 1).value;
      if |items| > 1 {
        ItemsRead(lib, style, items[1..], depth, close, rest, acc + [v]);
        if ReadItems(lib, items[1..], depth + 1).Ok? {
          var vs := ReadItems(lib, items[1..], depth + 1).value;
          assert acc + [v] + vs == acc + ([v] + vs);
        }
      } else {
        assert ReadItems(lib, items, depth + 1) == Ok([v]) by {
          assert ReadItems(lib, items[1..], depth + 1) == Ok([]);
          assert [v] + [] == [v];
        }
        assert ("" + [close] + rest)[1..] == rest;
      }
    }
  }

  /** One member is read, and then the others or the end. */
  lemma {:induction false} OneMemberRead(lib: Lib, style: Style, members: seq<Member>, depth: nat, rest: string,
                                         acc: seq<Field>)
    requires Faithful(style) && members != [] && AllMembersHaveText(members)
    ensures var m := members[0];
            Fields(lib, PrintMembers(style, members) + "}" + rest, depth, acc)
            == if HasKey(acc, m.key) then Refused(ParseFailed)
               else match Read(lib, m.value, depth + 1)
                    case Err(e) => Refused(e)
                    case Ok(v) =>
                      if |members| == 1 then Got(acc + [Field(m.key, v)], rest)
                      else Fields(lib, PrintMembers(style, members[1..]) + "}" + rest, depth, acc + [Field(m.key, v)])
    decreases members, 1
  {
    var m, more := members[0], PrintMembers(style, members[1..]);
    var after := (if more == "" then "" else "," + more) + "}" + rest;
    MemberPrints(style, members, rest);
    EntryReads(lib, style, m, depth, after, acc);
    SeparatorReads(more, '}', rest);
    assert ("" + "}" + rest)[1..] == rest;
  }

  lemma {:induction false} MembersRead(lib: Lib, style: Style, members: seq<Member>, depth: nat, rest: string,
                                       acc: seq<Field>)
    requires Faithful(style) && members != [] && AllMembersHaveText(members)
    ensures Fields(lib, PrintMembers(style, members) + "}" + rest, depth, acc)
            == Before(ReadMembers(lib, members, depth + 1, acc), rest)
    decreases members, 2
  {
    OneMemberRead(lib, style, members, depth, rest, acc);
    if |members| > 1 && !HasKey(acc, members[0].key) && Read(lib, members[0].value, depth + 1).Ok? {
      var field := Field(members[0].key, Read(lib, members[0].value, depth + 1).value);
      MembersRead(lib, style, members[1..], depth, rest, acc + [field]);
    }
  }

  lemma MemberPrints(style: Style, members: seq<Member>, rest: string)
    requires members != []
    ensures var more := PrintMembers(style, members[1..]);
            var after := (if more == "" then "" else "," + more) + "}" + rest;
            PrintMembers(style, members) + "}" + rest
            == Quote(style, members[0].key) + (":" + (Print(style, members[0].value) + after))
    ensures |members| > 1 ==> PrintMembers(style, members[1..]) != "" && PrintMembers(style, members[1..])[0] == '"'
  {
    var more := PrintMembers(style, members[1..]);
    Regroup(Quote(style, members[0].key), ":", Print(style, members[0].value),
            if more == "" then "" else "," + more, "}", rest);
    assert (if |members| == 1 then "" else "," + more) == (if more == "" then "" else "," + more);
  }

  lemma Regroup(a: string, b: string, c: string, d: string, e: string, f: string)
    ensures a + b + c + d + e + f == a + (b + (c + (d + e + f)))
  {
  }

  lemma {:induction false} EntryReads(lib: Lib, style: Style, m: Member, depth: nat, after: string, acc: seq<Field>)
    requires Faithful(style) && Delimited(after) && HasText(m.value)
    ensures Entry(lib, Quote(style, m.key) + (":" + (Print(style, m.value) + after)), depth, acc)
            == if HasKey(acc, m.key) then Refused(ParseFailed)
               else match Read(lib, m.value, depth + 1)
                    case Ok(v) => Got(Field(m.key, v), after)
                    case Err(e) => Refused(e)
    decreases m, 1
  {
    var value := Print(style, m.value) + after;
    SkipNothing(Quote(style, m.key) + (":" + value));
    QuoteReads(style, m.key, ":" + value);
    SkipNothing(":" + value);
    assert (":" + value)[1..] == value;
    TreeReads(lib, style, m.value, depth + 1, after);
  }
}
