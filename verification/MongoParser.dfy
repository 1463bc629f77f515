/** The recursive-descent parser: one cursor over the text, every method proved against the grammar. */
module MongoParser {
  import opened Outcomes
  import opened Values
  import opened MongoSyntax
  import R = MongoRequests
  import G = MongoSyntax

  lemma MarkedGrows(text: string, c: char)
    ensures Marked(text + [c]) <==> Marked(text) || IsFloatMark(c)
  {
    var longer := text + [c];
    assert longer[|text|] == c && forall i :: 0 <= i < |text| ==> longer[i] == text[i];
  }

  /** One character more of a number, read so far up to `text`, which ends in `prev`. */
  lemma OneMoreRead(text: string, prev: char, rest: string)
    requires rest != "" && NumberTail(prev, rest) > 0
    ensures NumberTail(prev, rest) == 1 + NumberTail(rest[0], rest[1..])
    ensures text + [rest[0]] + rest[1..] == text + rest
    ensures Marked(text + [rest[0]]) <==> Marked(text) || IsFloatMark(rest[0])
  {
    MarkedGrows(text, rest[0]);
  }

  lemma SignRead(s: string)
    requires At(s, '-')
    ensures NumberLen(s) == 1 + NumberTail('-', s[1..]) && !Marked(s[..1])
  {
  }

  /** Blanks are skipped completely, so skipping them again changes nothing. */
  lemma {:induction false} SkipWsTwice(s: string)
    ensures SkipWs(s).Got? ==> SkipWs(SkipWs(s).rest) == SkipWs(s)
    decreases |s|
  {
    if s == "" {
    } else if IsSpace(s[0]) {
      SkipWsTwice(s[1..]);
    } else if |s| >= 2 && s[0] == '/' && s[1] == '/' {
      SkipWsTwice(SkipLine(s[2..]));
    } else if |s| >= 2 && s[0] == '/' && s[1] == '*' && SkipBlock(s[2..]).Some? {
      SkipWsTwice(SkipBlock(s[2..]).value);
    }
  }

  lemma LineCommentSkipped(s: string)
    requires |s| >= 2 && s[0] == '/' && s[1] == '/'
    ensures SkipWs(s) == SkipWs(SkipLine(s)) && |SkipLine(s)| < |s|
  {
    assert SkipLine(s) == SkipLine(s[1..]) == SkipLine(s[2..]);
  }

  lemma BlockCommentSkipped(s: string)
    requires |s| >= 2 && s[0] == '/' && s[1] == '*'
    ensures match SkipBlock(s[2..])
            case None => SkipWs(s) == Refused(ParseFailed)
            case Some(t) => SkipWs(s) == SkipWs(t) && |t| < |s|
  {
  }

  class Parser {
    const lib: Lib
    const chars: string
    var pos: nat

    constructor (lib: Lib, text: string)
      ensures Valid() && this.lib == lib && this.chars == text && Rest() == text
    {
      this.lib := lib;
      this.chars := text;
      pos := 0;
    }

    ghost predicate Valid()
      reads this
    {
      pos <= |chars|
    }

    /** What has not been read yet. */
    ghost function Rest(): string
      requires Valid()
      reads this
    {
      chars[pos..]
    }

    /** A method returned what the grammar says, and left the cursor where the grammar says. */
    ghost predicate Did<T>(r: Result<T>, step: Step<T>)
      reads this
    {
      match step
      case Got(v, rest) => r == Ok(v) && Valid() && Rest() == rest
      case Refused(e) => r == Err(e)
    }

    predicate At(c: char)
      reads this
    {
      pos < |chars| && chars[pos] == c
    }

    predicate AtPair(c: char, d: char)
      reads this
    {
      pos + 1 < |chars| && chars[pos] == c && chars[pos + 1] == d
    }

    method Peek() returns (c: Option<char>)
      requires Valid()
      ensures Rest() == "" ==> c == None
      ensures Rest() != "" ==> c == Some(Rest()[0])
    {
      c := if pos < |chars| then Some(chars[pos]) else None;
    }

    method Bump() returns (c: Option<char>)
      requires Valid()
      modifies `pos
      ensures Valid()
      ensures old(Rest()) == "" ==> c == None && Rest() == ""
      ensures old(Rest()) != "" ==> c == Some(old(Rest())[0]) && Rest() == old(Rest())[1..]
    {
      if pos < |chars| {
        c := Some(chars[pos]);
        pos := pos + 1;
      } else {
        c := None;
      }
    }

    /** A `//` comment: everything before the end of the line. */
    method SkipLineComment()
      requires Valid()
      modifies `pos
      ensures Valid() && Rest() == SkipLine(old(Rest()))
    {
      ghost var line := Rest();
      while pos < |chars| && chars[pos] != '\n'
        invariant Valid()
        invariant SkipLine(Rest()) == SkipLine(line)
        decreases |chars| - pos
      {
        pos := pos + 1;
      }
    }

    /** A block comment, from after its opening to after its end. */
    method SkipBlockComment() returns (closed: bool)
      requires Valid()
      modifies `pos
      ensures closed ==> Valid() && SkipBlock(old(Rest())) == Some(Rest())
      ensures !closed ==> SkipBlock(old(Rest())) == None
    {
      ghost var block := Rest();
      while true
        invariant Valid()
        invariant SkipBlock(Rest()) == SkipBlock(block)
        decreases |chars| - pos
      {
        if pos == |chars| {
          return false;
        }
        if AtPair('*', '/') {
          pos := pos + 2;
          return true;
        }
        pos := pos + 1;
      }
    }

    method SkipWs() returns (r: Result<()>)
      requires Valid()
      modifies `pos
      ensures Did(r, G.SkipWs(old(Rest())))
    {
      ghost var start := Rest();
      while true
        invariant Valid()
        invariant G.SkipWs(Rest()) == G.SkipWs(start)
        decreases |Rest()|
      {
        ghost var s := Rest();
        if pos < |chars| && IsSpace(chars[pos]) {
          assert s[1..] == chars[pos + 1..];
          pos := pos + 1;
        } else if AtPair('/', '/') {
          LineCommentSkipped(s);
          SkipLineComment();
        } else if AtPair('/', '*') {
          BlockCommentSkipped(s);
          assert s[2..] == chars[pos + 2..];
          pos := pos + 2;
          var closed := SkipBlockComment();
          if !closed {
            return Err(ParseFailed);
          }
        } else {
          return Ok(());
        }
      }
    }

    method Expect(c: char) returns (r: Result<()>)
      requires Valid()
      modifies `pos
      ensures Did(r, G.Expect(old(Rest()), c))
    {
      var _ :- SkipWs();
      if At(c) {
        pos := pos + 1;
        return Ok(());
      }
      return Err(ParseFailed);
    }

    /** Moves over the longest run of characters that satisfy `p`. */
    method TakeWhile(p: char -> bool) returns (text: string)
      requires Valid()
      modifies `pos
      ensures Valid()
      ensures |text| == Span(old(Rest()), p) && old(Rest()) == text + Rest()
    {
      var start := pos;
      ghost var s := Rest();
      while pos < |chars| && p(chars[pos])
        invariant start <= pos <= |chars|
        invariant Span(s, p) == pos - start + Span(Rest(), p)
        decreases |chars| - pos
      {
        pos := pos + 1;
      }
      text := chars[start..pos];
    }

    method Ident() returns (text: string)
      requires Valid()
      modifies `pos
      ensures Valid()
      ensures |text| == IdentLen(old(Rest())) && old(Rest()) == text + Rest()
    {
      ghost var s := Rest();
      if pos < |chars| && IsIdentStart(chars[pos]) {
        var first := chars[pos];
        pos := pos + 1;
        var tail := TakeWhile(IsIdentPart);
        text := [first] + tail;
        assert text == s[..IdentLen(s)];
      } else {
        text := "";
      }
    }

    method ParseSpacedIdent() returns (r: Result<string>)
      requires Valid()
      modifies `pos
      ensures Did(r, SpacedIdent(old(Rest())))
    {
      var _ :- SkipWs();
      var text := Ident();
      return Ok(text);
    }

    method Segment() returns (text: string)
      requires Valid()
      modifies `pos
      ensures Valid()
      ensures |text| == SegmentLen(lib, old(Rest())) && old(Rest()) == text + Rest()
    {
      var lib := this.lib;
      text := TakeWhile(c => IsSegmentPart(lib, c));
    }

    // ----- strings -----

    method Hex4() returns (r: Result<nat>)
      requires Valid()
      modifies `pos
      ensures Did(r, Hex(old(Rest()), 4, 0))
    {
      ghost var s := Rest();
      var v: nat, n: nat := 0, 0;
      while n < 4
        invariant n <= 4
        invariant Valid()
        invariant Hex(Rest(), 4 - n, v) == Hex(s, 4, 0)
      {
        var c := Bump();
        if c == None || HexDigit(c.value) == None {
          return Err(ParseFailed);
        }
        v := v * 16 + HexDigit(c.value).value;
        n := n + 1;
      }
      return Ok(v);
    }

    method ParseUnicodeEscape() returns (r: Result<char>)
      requires Valid()
      modifies `pos
      ensures Did(r, UnicodeEscape(old(Rest())))
    {
      var first :- Hex4();
      if !(0xD800 <= first < 0xDC00) {
        return OfOption(ToChar(first));
      }
      ghost var t := Rest();
      var backslash := Bump();
      if backslash != Some('\\') {
        return Err(ParseFailed);
      }
      var u := Bump();
      if u != Some('u') {
        return Err(ParseFailed);
      }
      assert Rest() == t[2..];
      var second :- Hex4();
      if !(0xDC00 <= second < 0xE000) {
        return Err(ParseFailed);
      }
      return OfOption(ToChar(0x1_0000 + (first - 0xD800) * 0x400 + (second - 0xDC00)));
    }

    method ParseString() returns (r: Result<string>)
      requires Valid()
      modifies `pos
      ensures Did(r, QuotedString(old(Rest())))
    {
      ghost var s := Rest();
      var open := Bump();
      if open == None {
        return Err(ParseFailed);
      }
      var quote := open.value;
      var out := "";
      while true
        invariant Valid()
        invariant StringBody(Rest(), quote, out) == QuotedString(s)
        decreases |Rest()|
      {
        ghost var body := Rest();
        var next := Bump();
        if next == None {
          return Err(ParseFailed);
        }
        var c := next.value;
        if c == quote {
          return Ok(out);
        }
        if c != '\\' {
          out := out + [c];
          continue;
        }
        var escape := Bump();
        if escape == None {
          return Err(ParseFailed);
        }
        assert body[1] == escape.value && Rest() == body[2..];
        if escape.value == 'u' {
          var d :- ParseUnicodeEscape();
          out := out + [d];
        } else {
          var d :- OfOption(SimpleEscape(escape.value));
          out := out + [d];
        }
      }
    }

    // ----- numbers and regular expressions -----

    /** Moves over the characters of a number. */
    method ScanNumber() returns (text: string, float: bool)
      requires Valid() && Rest() != "" && (IsDigit(Rest()[0]) || Rest()[0] == '-')
      modifies `pos
      ensures Valid()
      ensures |text| == NumberLen(old(Rest())) && old(Rest()) == text + Rest()
      ensures float <==> Marked(text)
    {
      ghost var s, prev := Rest(), '0';
      text, float := "", false;
      var c := Peek();
      if c == Some('-') {
        SignRead(s);
        prev := '-';
        text := TakeOne();
        c := Peek();
      }
      while c.Some?
        invariant Valid() && s == text + Rest() && |text| + NumberTail(prev, Rest()) == NumberLen(s)
        invariant c == if Rest() == "" then None else Some(Rest()[0])
        invariant if text == "" then c.Some? && IsDigit(c.value) else Previous(prev)
        invariant float <==> Marked(text)
        decreases |Rest()|
      {
        var more := GoesOn(c.value, prev);
        if !more {
          break;
        }
        OneMoreRead(text, prev, Rest());
        float := float || IsFloatMark(c.value);
        prev := c.value;
        var one := TakeOne();
        text := text + one;
        c := Peek();
      }
    }

    /** The character before the cursor. */
    ghost predicate Previous(c: char)
      reads this
    {
      0 < pos <= |chars| && chars[pos - 1] == c
    }

    /** A number goes on with a digit, a point, an exponent, and a sign right after an exponent. */
    method GoesOn(c: char, ghost prev: char) returns (more: bool)
      requires Valid() && Rest() != "" && c == Rest()[0] && (IsDigit(c) || Previous(prev))
      ensures more <==> NumberTail(prev, Rest()) > 0
    {
      more := IsDigit(c) || IsFloatMark(c)
              || ((c == '+' || c == '-') && pos > 0 && (chars[pos - 1] == 'e' || chars[pos - 1] == 'E'));
    }

    method TakeOne() returns (text: string)
      requires Valid() && Rest() != ""
      modifies `pos
      ensures Valid() && text == [old(Rest())[0]] && Rest() == old(Rest())[1..] && Previous(old(Rest())[0])
    {
      text := [chars[pos]];
      pos := pos + 1;
    }

    method ParseNumber() returns (r: Result<Bson>)
      requires Valid() && Rest() != "" && (IsDigit(Rest()[0]) || Rest()[0] == '-')
      modifies `pos
      ensures Did(r, Number(lib, old(Rest())))
    {
      var text, float := ScanNumber();
      if float {
        var d :- OfOption(lib.double(text));
        return if d.Finite? then Ok(Double(d)) else Err(ParseFailed);
      }
      var n :- OfOption(ParseI64(text));
      return Ok(Whole(n));
    }

    /** Collects the options once each, refusing any letter that is not one, and sorts them. */
    static method CheckRegexOptions(flags: string) returns (r: Result<string>)
      ensures r == RegexOptions(flags)
    {
      var seen: set<char> := {};
      for k := 0 to |flags|
        invariant forall c :: c in seen <==> c in flags[..k]
        invariant forall c :: c in flags[..k] ==> c in REGEX_OPTIONS
      {
        assert flags[..k + 1] == flags[..k] + [flags[k]];
        if flags[k] !in REGEX_OPTIONS {
          assert flags[k] in flags;
          return Err(ParseFailed);
        }
        seen := seen + {flags[k]};
      }
      assert flags[..|flags|] == flags;
      var sorted := "";
      for k := 0 to |REGEX_OPTIONS|
        invariant sorted == (if k > 0 && 'i' in seen then "i" else "") + (if k > 1 && 'm' in seen then "m" else "")
                            + (if k > 2 && 's' in seen then "s" else "") + (if k > 3 && 'x' in seen then "x" else "")
      {
        if REGEX_OPTIONS[k] in seen {
          sorted := sorted + [REGEX_OPTIONS[k]];
        }
      }
      return Ok(sorted);
    }

    /** The pattern of a regular expression, up to and including its closing slash. */
    method RegexPattern() returns (r: Result<string>)
      requires Valid()
      modifies `pos
      ensures Did(r, RegexBody(old(Rest()), false, ""))
    {
      ghost var goal := RegexBody(Rest(), false, "");
      var pattern, inClass := "", false;
      while true
        invariant Valid()
        invariant RegexBody(Rest(), inClass, pattern) == goal
        decreases |Rest()|
      {
        ghost var body := Rest();
        var next := Bump();
        if next == None {
          return Err(ParseFailed);
        }
        var c := next.value;
        if c == '\\' {
          var escaped := Bump();
          if escaped == None {
            return Err(ParseFailed);
          }
          assert body[..2] == [c, escaped.value] && Rest() == body[2..];
          pattern := pattern + [c, escaped.value];
          continue;
        }
        if c == '/' && !inClass {
          return Ok(pattern);
        }
        assert body[..1] == [c];
        inClass := if c == '[' then true else if c == ']' then false else inClass;
        pattern := pattern + [c];
      }
    }

    method ParseRegex() returns (r: Result<Bson>)
      requires Valid() && Rest() != ""
      modifies `pos
      ensures Did(r, RegexLiteral(old(Rest())))
    {
      assert Rest()[1..] == chars[pos + 1..];
      pos := pos + 1;
      var pattern :- RegexPattern();
      var flags := TakeWhile(IsAlpha);
      var options :- CheckRegexOptions(flags);
      return Ok(Regex(pattern, options));
    }

    // ----- values -----

    method ParseValue(depth: nat) returns (r: Result<Bson>)
      requires Valid()
      modifies `pos
      ensures Did(r, Value(lib, old(Rest()), depth))
      decreases MAX_DEPTH + 1 - depth, 5
    {
      if depth > MAX_DEPTH {
        return Err(ParseFailed);
      }
      var _ :- SkipWs();
      if pos == |chars| {
        return Err(ParseFailed);
      }
      var c := chars[pos];
      if c == '{' {
        r := ParseDocument(depth);
      } else if c == '[' {
        pos := pos + 1;
        var items :- ParseList(depth, ']');
        r := Ok(Array(items));
      } else if c == '"' || c == '\'' {
        var text :- ParseString();
        r := Ok(String(text));
      } else if c == '/' {
        r := ParseRegex();
      } else if IsDigit(c) || c == '-' {
        r := ParseNumber();
      } else if IsIdentStart(c) {
        r := ParseWord(depth);
      } else {
        r := Err(ParseFailed);
      }
    }

    /** What the outer loop of a list does once it has values: only the bracket may follow. */
    ghost function CloseOf<T>(s: string, close: char, read: T): Step<T> {
      var (_, t) :- G.SkipWs(s);
      if G.At(t, close) then Got(read, t[1..]) else Refused(ParseFailed)
    }

    method ParseSeparator(close: char) returns (r: Result<bool>)
      requires Valid()
      modifies `pos
      ensures Did(r, Separator(old(Rest()), close))
      ensures r.Ok? ==> G.SkipWs(Rest()) == Got((), Rest())
    {
      SkipWsTwice(Rest());
      var _ :- SkipWs();
      if !At(',') {
        return Ok(false);
      }
      pos := pos + 1;
      SkipWsTwice(Rest());
      var _ :- SkipWs();
      return Ok(!At(close));
    }

    /** The values of a list up to its bracket, a trailing comma included: the inner loop. */
    method ParseItems(depth: nat, close: char) returns (r: Result<seq<Bson>>)
      requires Valid() && depth <= MAX_DEPTH
      modifies `pos
      ensures match r
              case Ok(items) =>
                Valid() && items != [] && G.SkipWs(Rest()) == Got((), Rest())
                && Items(lib, old(Rest()), depth, close, []) == CloseOf(Rest(), close, items)
              case Err(e) => Items(lib, old(Rest()), depth, close, []) == Refused(e)
      decreases MAX_DEPTH + 1 - depth, 0
    {
      ghost var goal := Items(lib, Rest(), depth, close, []);
      var items := [];
      while true
        invariant Valid()
        invariant goal == Items(lib, Rest(), depth, close, items)
        decreases |Rest()|
      {
        var v :- ParseValue(depth + 1);
        items := items + [v];
        var more :- ParseSeparator(close);
        if !more {
          return Ok(items);
        }
      }
    }

    /** The outer loop of `[...]` and of `(...)`. */
    method ParseList(depth: nat, close: char) returns (r: Result<seq<Bson>>)
      requires Valid() && depth <= MAX_DEPTH
      modifies `pos
      ensures Did(r, ListBody(lib, old(Rest()), depth, close))
      decreases MAX_DEPTH + 1 - depth, 1
    {
      ghost var start := Rest();
      var items: seq<Bson> := [];
      while true
        invariant Valid()
        invariant items == [] ==> Rest() == start
        invariant items != [] ==> ListBody(lib, start, depth, close) == CloseOf(Rest(), close, items)
        decreases items == []
      {
        SkipWsTwice(Rest());
        var _ :- SkipWs();
        if At(close) {
          pos := pos + 1;
          return Ok(items);
        }
        if items != [] {
          return Err(ParseFailed);
        }
        items :- ParseItems(depth, close);
      }
    }

    method ParseEntry(depth: nat, doc: seq<Field>) returns (r: Result<Field>)
      requires Valid() && depth <= MAX_DEPTH
      modifies `pos
      ensures Did(r, Entry(lib, old(Rest()), depth, doc))
      decreases MAX_DEPTH + 1 - depth, 0
    {
      var key :- ParseFieldName();
      if HasKey(doc, key) {
        return Err(ParseFailed);
      }
      var _ :- Expect(':');
      var value :- ParseValue(depth + 1);
      return Ok(Field(key, value));
    }

    /** The fields of a document up to its brace, a trailing comma included: the inner loop. */
    method ParseFields(depth: nat) returns (r: Result<seq<Field>>)
      requires Valid() && depth <= MAX_DEPTH
      modifies `pos
      ensures match r
              case Ok(doc) =>
                Valid() && doc != [] && G.SkipWs(Rest()) == Got((), Rest())
                && Fields(lib, old(Rest()), depth, []) == CloseOf(Rest(), '}', doc)
              case Err(e) => Fields(lib, old(Rest()), depth, []) == Refused(e)
      decreases MAX_DEPTH + 1 - depth, 1
    {
      ghost var goal := Fields(lib, Rest(), depth, []);
      var doc: seq<Field> := [];
      while true
        invariant Valid()
        invariant goal == Fields(lib, Rest(), depth, doc)
        decreases |Rest()|
      {
        var field :- ParseEntry(depth, doc);
        doc := doc + [field];
        var more :- ParseSeparator('}');
        if !more {
          return Ok(doc);
        }
      }
    }

    method ParseFieldName() returns (r: Result<string>)
      requires Valid()
      modifies `pos
      ensures Did(r, FieldName(old(Rest())))
    {
      var _ :- SkipWs();
      if pos < |chars| && (chars[pos] == '"' || chars[pos] == '\'') {
        r := ParseString();
      } else if pos < |chars| && IsIdentStart(chars[pos]) {
        var key := Ident();
        r := Ok(key);
      } else {
        r := Err(ParseFailed);
      }
    }

    method ParseDocument(depth: nat) returns (r: Result<Bson>)
      requires Valid() && depth <= MAX_DEPTH && Rest() != "" && Rest()[0] == '{'
      modifies `pos
      ensures Did(r, DocumentBody(lib, old(Rest())[1..], depth))
      decreases MAX_DEPTH + 1 - depth, 3
    {
      var brace := Expect('{');
      assert brace.Ok?;
      r := ParseDocumentLoop(depth, DocumentBody(lib, Rest(), depth));
    }

    /** How a document reads from its opening brace on. */
    ghost predicate Opens(goal: Step<Bson>, s: string, depth: nat) {
      goal == match G.SkipWs(s)
              case Refused(e) => Refused(e)
              case Got(_, t) =>
                if G.At(t, '}') then FinishStep(Got([], t[1..])) else FinishStep(Fields(lib, t, depth, []))
    }

    /** The loop over the document: fields once, then only its brace. */
    method ParseDocumentLoop(depth: nat, ghost goal: Step<Bson>) returns (r: Result<Bson>)
      requires Valid() && depth <= MAX_DEPTH && Opens(goal, Rest(), depth)
      modifies `pos
      ensures Did(r, goal)
      decreases MAX_DEPTH + 1 - depth, 2
    {
      var doc: seq<Field> := [];
      while true
        invariant Valid()
        invariant if doc == [] then Opens(goal, Rest(), depth) else goal == FinishStep(CloseOf(Rest(), '}', doc))
        decreases doc == []
      {
        var _ :- SkipWs();
        if At('}') {
          assert Rest()[1..] == chars[pos + 1..];
          pos := pos + 1;
          r := Finish(lib, doc);
          return;
        }
        if doc != [] {
          return Err(ParseFailed);
        }
        doc :- ParseFields(depth);
      }
    }

    ghost function FinishStep(fields: Step<seq<Field>>): Step<Bson> {
      var (doc, rest) :- fields;
      match Finish(lib, doc)
      case Ok(v) => Got(v, rest)
      case Err(e) => Refused(e)
    }

    method ParseArgs(depth: nat) returns (r: Result<seq<Bson>>)
      requires Valid()
      modifies `pos
      ensures Did(r, Args(lib, old(Rest()), depth))
      decreases MAX_DEPTH + 1 - depth, 2
    {
      if depth > MAX_DEPTH {
        return Err(ParseFailed);
      }
      var _ :- Expect('(');
      r := ParseList(depth, ')');
    }

    method ParseWord(depth: nat) returns (r: Result<Bson>)
      requires Valid() && Rest() != "" && IsIdentStart(Rest()[0])
      modifies `pos
      ensures Did(r, Word(lib, old(Rest()), depth))
      decreases MAX_DEPTH + 1 - depth, 4
    {
      var word := Ident();
      var keyword := Keyword(word);
      if keyword.Some? {
        return Ok(keyword.value);
      }
      if word == "new" {
        word :- ParseSpacedIdent();
      }
      r := ParseCtor(word, depth);
    }

    method ParseCtor(name: string, depth: nat) returns (r: Result<Bson>)
      requires Valid()
      modifies `pos
      ensures Did(r, Ctor(lib, name, old(Rest()), depth))
      decreases MAX_DEPTH + 1 - depth, 3
    {
      if name !in CONSTRUCTORS {
        return Err(ParseFailed);
      }
      var args :- ParseArgs(depth);
      return Construct(lib, name, args);
    }

    /** `.a.b.method`, up to the parenthesis that opens the arguments. */
    method ParseSegments() returns (r: Result<seq<string>>)
      requires Valid()
      modifies `pos
      ensures Did(r, R.Segments(lib, old(Rest()), []))
      ensures r.Ok? ==> r.value != []
    {
      ghost var start := Rest();
      var segments: seq<string> := [];
      while true
        invariant Valid()
        invariant R.Segments(lib, Rest(), segments) == R.Segments(lib, start, [])
        decreases |Rest()|
      {
        var _ :- Expect('.');
        var _ :- SkipWs();
        var segment := Segment();
        if segment == "" {
          return Err(ParseFailed);
        }
        segments := segments + [segment];
        var _ :- SkipWs();
        if At('(') {
          return Ok(segments);
        }
        if !At('.') {
          return Err(ParseFailed);
        }
      }
    }

    /** The cursor calls, applied to the operation one after the other. */
    method ParseChain(first: Op) returns (r: Result<Op>)
      requires Valid()
      modifies `pos
      ensures Did(r, R.Chain(lib, old(Rest()), first))
    {
      ghost var start := Rest();
      var op := first;
      while true
        invariant Valid()
        invariant R.Chain(lib, Rest(), op) == R.Chain(lib, start, first)
        decreases |Rest()|
      {
        var _ :- SkipWs();
        if !At('.') {
          return Ok(op);
        }
        pos := pos + 1;
        var name :- ParseSpacedIdent();
        var _ :- R.CheckChain(name);
        var args :- ParseArgs(0);
        op :- R.ApplyChain(op, name, args);
      }
    }

    method ParseEnd() returns (r: Result<()>)
      requires Valid()
      modifies `pos
      ensures r == R.AtEnd(old(Rest()))
    {
      SkipWsTwice(Rest());
      var _ :- SkipWs();
      if At(';') {
        pos := pos + 1;
        var _ :- SkipWs();
      }
      return if pos < |chars| then Err(ParseFailed) else Ok(());
    }

    method ParseDb() returns (r: Result<()>)
      requires Valid()
      modifies `pos
      ensures Did(r, R.AfterDb(old(Rest())))
    {
      var _ :- SkipWs();
      var db := Ident();
      return if db == "db" then Ok(()) else Err(ParseFailed);
    }

    method ParseHead() returns (r: Result<(string, string)>)
      requires Valid()
      modifies `pos
      ensures Did(r, R.Head(lib, old(Rest())))
    {
      var _ :- ParseDb();
      var segments :- ParseSegments();
      var target :- R.Target(segments);
      return Ok(target);
    }

    method ParseTail(verb: string) returns (r: Result<Op>)
      requires Valid()
      modifies `pos
      ensures r == R.Tail(lib, old(Rest()), verb)
    {
      var args :- ParseArgs(0);
      var built :- R.BuildOp(verb, args);
      var op :- ParseChain(built);
      var _ :- ParseEnd();
      return Ok(op);
    }
  }

  /** The whole text: the request layer 1 classifies and the engine runs. */
  method Parse(lib: Lib, text: string) returns (r: Result<Request>)
    ensures r == R.Parse(lib, text)
  {
    if Utf8Len(text) > MAX_INPUT_BYTES {
      return Err(ParseFailed);
    }
    var p := new Parser(lib, text);
    var head :- p.ParseHead();
    var op :- p.ParseTail(head.1);
    return Ok(Request(head.0, op));
  }
}
