/**
 The grammar of the accepted mongosh subset, as functions from a text to what a prefix of it
 means and the text left over. `MongoParser` is the cursor-moving parser proved against it.
 */
module MongoSyntax {
  import opened Outcomes
  import opened Values

  const MAX_DEPTH := 100
  const MAX_INPUT_BYTES := 64 * 1024

  // ----- characters -----

  predicate IsDigit(c: char) {
    '0' <= c <= '9'
  }

  predicate IsAlpha(c: char) {
    'a' <= c <= 'z' || 'A' <= c <= 'Z'
  }

  predicate IsIdentStart(c: char) {
    IsAlpha(c) || c == '_' || c == '$'
  }

  predicate IsIdentPart(c: char) {
    IsIdentStart(c) || IsDigit(c)
  }

  /** Unicode White_Space. */
  predicate IsSpace(c: char) {
    || '\t' <= c <= '\r'
    || c == ' '
    || c == '\U{0085}'
    || c == '\U{00A0}'
    || c == '\U{1680}'
    || '\U{2000}' <= c <= '\U{200A}'
    || c == '\U{2028}'
    || c == '\U{2029}'
    || c == '\U{202F}'
    || c == '\U{205F}'
    || c == '\U{3000}'
  }

  predicate At(s: string, c: char) {
    s != "" && s[0] == c
  }

  /** The length of the longest prefix of `s` made of characters that satisfy `p`. */
  function Span(s: string, p: char -> bool): (n: nat)
    ensures n <= |s|
  {
    if s == "" || !p(s[0]) then 0 else 1 + Span(s[1..], p)
  }

  function Utf8Len(s: string): nat {
    if s == "" then 0
    else (if s[0] < '\U{0080}' then 1
          else if s[0] < '\U{0800}' then 2
          else if s[0] < '\U{10000}' then 3 else 4) + Utf8Len(s[1..])
  }

  // ----- white space and comments -----

  function SkipLine(s: string): (t: string)
    ensures |t| <= |s|
  {
    if s == "" || s[0] == '\n' then s else SkipLine(s[1..])
  }

  function SkipBlock(s: string): (t: Option<string>)
    ensures t.Some? ==> |t.value| <= |s|
  {
    if s == "" then None
    else if |s| >= 2 && s[0] == '*' && s[1] == '/' then Some(s[2..])
    else SkipBlock(s[1..])
  }

  function SkipWs(s: string): (r: Step<()>)
    ensures r.Got? ==> |r.rest| <= |s|
    decreases |s|
  {
    if s == "" then Got((), s)
    else if IsSpace(s[0]) then SkipWs(s[1..])
    else if |s| >= 2 && s[0] == '/' && s[1] == '/' then
      SkipWs(SkipLine(s[2..]))
    else if |s| >= 2 && s[0] == '/' && s[1] == '*' then
      match SkipBlock(s[2..])
      case None => Refused(ParseFailed)
      case Some(t) => SkipWs(t)
    else Got((), s)
  }

  function Expect(s: string, c: char): (r: Step<()>)
    ensures r.Got? ==> |r.rest| < |s|
  {
    var (_, t) :- SkipWs(s);
    if At(t, c) then Got((), t[1..]) else Refused(ParseFailed)
  }

  // ----- words -----

  function IdentLen(s: string): (n: nat)
    ensures n <= |s|
    ensures s != "" && IsIdentStart(s[0]) ==> n >= 1
  {
    if s != "" && IsIdentStart(s[0]) then 1 + Span(s[1..], IsIdentPart) else 0
  }

  /** An identifier, possibly empty, behind blanks. */
  function SpacedIdent(s: string): (r: Step<string>)
    ensures r.Got? ==> |r.rest| <= |s|
  {
    var (_, t) :- SkipWs(s);
    Got(t[..IdentLen(t)], t[IdentLen(t)..])
  }

  predicate IsSegmentPart(lib: Lib, c: char) {
    lib.alphanumeric(c) || c == '_' || c == '-' || c == '+' || c == '@'
  }

  function SegmentLen(lib: Lib, s: string): (n: nat)
    ensures n <= |s|
  {
    Span(s, c => IsSegmentPart(lib, c))
  }

  // ----- strings -----

  function HexDigit(c: char): Option<nat> {
    if '0' <= c <= '9' then Some(c as int - '0' as int)
    else if 'a' <= c <= 'f' then Some(c as int - 'a' as int + 10)
    else if 'A' <= c <= 'F' then Some(c as int - 'A' as int + 10)
    else None
  }

  /** The first `n` characters read as hexadecimal digits after the number `v`. */
  function Hex(s: string, n: nat, v: nat): (r: Step<nat>)
    ensures r.Got? ==> |r.rest| == |s| - n
  {
    if n == 0 then Got(v, s)
    else if s == "" || HexDigit(s[0]) == None then Refused(ParseFailed)
    else Hex(s[1..], n - 1, v * 16 + HexDigit(s[0]).value)
  }

  predicate IsScalar(n: int) {
    0 <= n < 0xD800 || 0xE000 <= n < 0x11_0000
  }

  function ToChar(n: int): Option<char> {
    if IsScalar(n) then Some(n as char) else None
  }

  /** What follows `\u`: four hex digits, or a surrogate pair spelled as two escapes. */
  function UnicodeEscape(s: string): (r: Step<char>)
    ensures r.Got? ==> |r.rest| < |s|
  {
    var (first, t) :- Hex(s, 4, 0);
    if !(0xD800 <= first < 0xDC00) then
      match ToChar(first)
      case Some(c) => Got(c, t)
      case None => Refused(ParseFailed)
    else if |t| < 2 || t[0] != '\\' || t[1] != 'u' then Refused(ParseFailed)
    else
      var (second, u) :- Hex(t[2..], 4, 0);
      if !(0xDC00 <= second < 0xE000) then Refused(ParseFailed)
      else
        match ToChar(0x1_0000 + (first - 0xD800) * 0x400 + (second - 0xDC00))
        case Some(c) => Got(c, u)
        case None => Refused(ParseFailed)
  }

  function SimpleEscape(c: char): Option<char> {
    match c
    case '"' => Some('"')
    case '\'' => Some('\'')
    case '\\' => Some('\\')
    case '/' => Some('/')
    case 'b' => Some('\U{0008}')
    case 'f' => Some('\U{000C}')
    case 'n' => Some('\n')
    case 'r' => Some('\r')
    case 't' => Some('\t')
    case _ => None
  }

  /** The rest of a string literal, `out` being what has been read of it. */
  function StringBody(s: string, quote: char, out: string): (r: Step<string>)
    ensures r.Got? ==> |r.rest| < |s|
    decreases |s|
  {
    if s == "" then Refused(ParseFailed)
    else if s[0] == quote then Got(out, s[1..])
    else if s[0] != '\\' then StringBody(s[1..], quote, out + [s[0]])
    else if |s| < 2 then Refused(ParseFailed)
    else if s[1] == 'u' then
      var (c, t) :- UnicodeEscape(s[2..]);
      StringBody(t, quote, out + [c])
    else
      match SimpleEscape(s[1])
      case Some(c) => StringBody(s[2..], quote, out + [c])
      case None => Refused(ParseFailed)
  }

  function QuotedString(s: string): (r: Step<string>)
    ensures r.Got? ==> |r.rest| < |s|
  {
    if s == "" then Refused(ParseFailed) else StringBody(s[1..], s[0], "")
  }

  // ----- numbers -----

  /** The number denoted by a run of decimal digits. */
  function Decimals(s: string): (n: nat)
    requires forall c :: c in s ==> IsDigit(c)
  {
    if s == "" then 0
    else
      var last := s[|s| - 1];
      assert IsDigit(last);
      10 * Decimals(s[..|s| - 1]) + (last as int - '0' as int)
  }

  predicate AllDigits(s: string) {
    forall c :: c in s ==> IsDigit(c)
  }

  /** `from_str` of an integer type: an optional sign, then at least one digit, nothing else. */
  function ParseInt(s: string): Option<int> {
    var body := if s != "" && (s[0] == '-' || s[0] == '+') then s[1..] else s;
    if body == "" || !AllDigits(body) then None
    else
      var n: int := Decimals(body);
      Some(if s[0] == '-' then -n else n)
  }

  function ParseI64(s: string): Option<int> {
    match ParseInt(s)
    case Some(n) => if FitsI64(n) then Some(n) else None
    case None => None
  }

  function ParseI32(s: string): Option<int> {
    match ParseInt(s)
    case Some(n) => if FitsI32(n) then Some(n) else None
    case None => None
  }

  predicate IsFloatMark(c: char) {
    c == '.' || c == 'e' || c == 'E'
  }

  predicate Marked(text: string) {
    exists c :: c in text && IsFloatMark(c)
  }

  /** How much of `s` continues a number whose last character is `prev`. */
  function NumberTail(prev: char, s: string): (n: nat)
    ensures n <= |s|
    decreases |s|
  {
    if s == "" then 0
    else if IsDigit(s[0]) || IsFloatMark(s[0]) then 1 + NumberTail(s[0], s[1..])
    else if (s[0] == '+' || s[0] == '-') && (prev == 'e' || prev == 'E') then
      1 + NumberTail(s[0], s[1..])
    else 0
  }

  function NumberLen(s: string): (n: nat)
    ensures n <= |s|
    ensures s != "" && (IsDigit(s[0]) || s[0] == '-') ==> n >= 1
  {
    if At(s, '-') then 1 + NumberTail('-', s[1..]) else NumberTail('0', s)
  }

  function NumberOf(lib: Lib, text: string): Result<Bson> {
    if Marked(text) then
      match lib.double(text)
      case Some(d) => if d.Finite? then Ok(Double(d)) else Err(ParseFailed)
      case None => Err(ParseFailed)
    else
      match ParseI64(text)
      case Some(n) => Ok(Whole(n))
      case None => Err(ParseFailed)
  }

  function Number(lib: Lib, s: string): (r: Step<Bson>)
    requires s != "" && (IsDigit(s[0]) || s[0] == '-')
    ensures r.Got? ==> |r.rest| < |s|
  {
    match NumberOf(lib, s[..NumberLen(s)])
    case Ok(v) => Got(v, s[NumberLen(s)..])
    case Err(e) => Refused(e)
  }

  // ----- regular expressions -----

  function RegexBody(s: string, inClass: bool, pattern: string): (r: Step<string>)
    ensures r.Got? ==> |r.rest| < |s|
    decreases |s|
  {
    if s == "" then Refused(ParseFailed)
    else if s[0] == '\\' then
      if |s| < 2 then Refused(ParseFailed)
      else RegexBody(s[2..], inClass, pattern + s[..2])
    else if s[0] == '[' then RegexBody(s[1..], true, pattern + s[..1])
    else if s[0] == ']' then RegexBody(s[1..], false, pattern + s[..1])
    else if s[0] == '/' && !inClass then Got(pattern, s[1..])
    else RegexBody(s[1..], inClass, pattern + s[..1])
  }

  const REGEX_OPTIONS := "imsx"

  /** The options of `flags`, each once and in order; any other letter is refused. */
  function RegexOptions(flags: string): Result<string> {
    if exists c :: c in flags && c !in REGEX_OPTIONS then Err(ParseFailed)
    else Ok((if 'i' in flags then "i" else "") + (if 'm' in flags then "m" else "")
            + (if 's' in flags then "s" else "") + (if 'x' in flags then "x" else ""))
  }

  function RegexLiteral(s: string): (r: Step<Bson>)
    requires s != ""
    ensures r.Got? ==> |r.rest| < |s|
  {
    var (pattern, t) :- RegexBody(s[1..], false, "");
    var n := Span(t, IsAlpha);
    match RegexOptions(t[..n])
    case Ok(options) => Got(Regex(pattern, options), t[n..])
    case Err(e) => Refused(e)
  }

  // ----- type wrappers and constructors -----

  /** The extended-JSON keys that name a BSON type rather than an operator. */
  datatype Wrapper =
    | BinaryKey | CodeKey | CodeWithScopeKey | DateKey | MaxKeyKey | MinKeyKey | NumberDecimalKey
    | NumberDoubleKey | NumberIntKey | NumberLongKey | OidKey | RegularExpressionKey | TimestampKey

  function NameOf(w: Wrapper): string {
    match w
    case BinaryKey => "$binary"
    case CodeKey => "$code"
    case CodeWithScopeKey => "$codeWithScope"
    case DateKey => "$date"
    case MaxKeyKey => "$maxKey"
    case MinKeyKey => "$minKey"
    case NumberDecimalKey => "$numberDecimal"
    case NumberDoubleKey => "$numberDouble"
    case NumberIntKey => "$numberInt"
    case NumberLongKey => "$numberLong"
    case OidKey => "$oid"
    case RegularExpressionKey => "$regularExpression"
    case TimestampKey => "$timestamp"
  }

  function WrapperOf(key: string): Option<Wrapper> {
    if key == "$binary" then Some(BinaryKey)
    else if key == "$code" then Some(CodeKey)
    else if key == "$codeWithScope" then Some(CodeWithScopeKey)
    else if key == "$date" then Some(DateKey)
    else if key == "$maxKey" then Some(MaxKeyKey)
    else if key == "$minKey" then Some(MinKeyKey)
    else if key == "$numberDecimal" then Some(NumberDecimalKey)
    else if key == "$numberDouble" then Some(NumberDoubleKey)
    else if key == "$numberInt" then Some(NumberIntKey)
    else if key == "$numberLong" then Some(NumberLongKey)
    else if key == "$oid" then Some(OidKey)
    else if key == "$regularExpression" then Some(RegularExpressionKey)
    else if key == "$timestamp" then Some(TimestampKey)
    else None
  }

  function LowerHex(c: char): char {
    if 'A' <= c <= 'F' then (c as int + 32) as char else c
  }

  /** Twelve bytes written as hex digits; the value keeps the lower-case spelling. */
  function ParseObjectId(s: string): Option<string> {
    if |s| == 24 && forall c :: c in s ==> HexDigit(c).Some? then
      Some(seq(24, i requires 0 <= i < 24 => LowerHex(s[i])))
    else None
  }

  function IntegerField(fields: seq<Field>, key: string): Option<int> {
    match Get(fields, key)
    case Some(Int64(n)) => Some(n)
    case Some(Int32(n)) => Some(n)
    case _ => None
  }

  function OfOption<T>(o: Option<T>): Result<T> {
    match o
    case Some(v) => Ok(v)
    case None => Err(ParseFailed)
  }

  /** The one-key document whose key names a BSON type; a payload of the wrong shape is refused. */
  function Unwrap(lib: Lib, w: Wrapper, value: Bson): Result<Bson> {
    match w
    case OidKey =>
      if !value.String? then Err(ParseFailed) else
      var hex :- OfOption(ParseObjectId(value.text)); Ok(ObjectId(hex))
    case DateKey =>
      (match value
       case String(s) => var ms :- OfOption(lib.date(s)); Ok(DateTime(ms))
       case Int64(ms) => Ok(DateTime(ms))
       case Int32(ms) => Ok(DateTime(ms))
       case _ => Err(ParseFailed))
    case NumberLongKey =>
      if !value.String? then Err(ParseFailed) else
      var n :- OfOption(ParseI64(value.text)); Ok(Int64(n))
    case NumberIntKey =>
      if !value.String? then Err(ParseFailed) else
      var n :- OfOption(ParseI32(value.text)); Ok(Int32(n))
    case NumberDoubleKey =>
      if !value.String? then Err(ParseFailed) else
      var d :- OfOption(lib.double(value.text)); Ok(Double(d))
    case NumberDecimalKey =>
      if !value.String? then Err(ParseFailed) else
      var d :- OfOption(lib.decimal(value.text)); Ok(Decimal(d))
    case MinKeyKey =>
      if value == Int32(1) || value == Int64(1) then Ok(MinKey) else Err(ParseFailed)
    case MaxKeyKey =>
      if value == Int32(1) || value == Int64(1) then Ok(MaxKey) else Err(ParseFailed)
    case RegularExpressionKey =>
      if !value.Document? then Err(ParseFailed) else
      (match (Get(value.fields, "pattern"), Get(value.fields, "options"))
       case (Some(String(pattern)), Some(String(flags))) =>
         if |value.fields| != 2 then Err(ParseFailed) else
         var options :- RegexOptions(flags); Ok(Regex(pattern, options))
       case _ => Err(ParseFailed))
    case TimestampKey =>
      if !value.Document? || |value.fields| != 2 then Err(ParseFailed) else
      (match (IntegerField(value.fields, "t"), IntegerField(value.fields, "i"))
       case (Some(t), Some(i)) =>
         if 0 <= t <= U32_MAX && 0 <= i <= U32_MAX then Ok(Timestamp(t, i)) else Err(ParseFailed)
       case _ => Err(ParseFailed))
    case BinaryKey => Err(DeniedOperator)
    case CodeKey => Err(DeniedFunction)
    case CodeWithScopeKey => Err(DeniedFunction)
  }

  function Finish(lib: Lib, fields: seq<Field>): Result<Bson> {
    if |fields| == 1 && WrapperOf(fields[0].key).Some? then
      Unwrap(lib, WrapperOf(fields[0].key).value, fields[0].value)
    else Ok(Document(fields))
  }

  const CONSTRUCTORS: seq<string> :=
    ["ObjectId", "ISODate", "Date", "NumberLong", "NumberInt", "NumberDecimal", "UUID"]

  /** What a type constructor makes of its arguments. */
  function Construct(lib: Lib, name: string, args: seq<Bson>): Result<Bson> {
    if |args| != 1 then Err(ParseFailed)
    else if name == "ObjectId" then
      if !args[0].String? then Err(ParseFailed) else
      var hex :- OfOption(ParseObjectId(args[0].text)); Ok(ObjectId(hex))
    else if name == "ISODate" || name == "Date" then
      if !args[0].String? then Err(ParseFailed) else
      var ms :- OfOption(lib.date(args[0].text)); Ok(DateTime(ms))
    else if name == "NumberLong" then
      match args[0]
      case Int32(n) => Ok(Int64(n))
      case Int64(n) => Ok(Int64(n))
      case String(s) => var n :- OfOption(ParseI64(s)); Ok(Int64(n))
      case _ => Err(ParseFailed)
    else if name == "NumberInt" then
      match args[0]
      case Int32(n) => Ok(Int32(n))
      case String(s) => var n :- OfOption(ParseI32(s)); Ok(Int32(n))
      case _ => Err(ParseFailed)
    else if name == "NumberDecimal" then
      var text :- (match args[0]
                   case String(s) => Ok(s)
                   case Int32(n) => Ok(ShowInt(n))
                   case Int64(n) => Ok(ShowInt(n))
                   case Double(d) => Ok(lib.showDouble(d))
                   case _ => Err(ParseFailed));
      var d :- OfOption(lib.decimal(text)); Ok(Decimal(d))
    else if name == "UUID" then
      if !args[0].String? then Err(ParseFailed) else
      var u :- OfOption(lib.uuid(args[0].text)); Ok(Binary(u))
    else Err(ParseFailed)
  }

  /** Decimal digits of a number, most significant first. */
  function ShowNat(n: nat): (s: string)
    ensures s != "" && AllDigits(s)
  {
    if n < 10 then [(n + '0' as int) as char]
    else ShowNat(n / 10) + [(n % 10 + '0' as int) as char]
  }

  function ShowInt(n: int): string {
    if n < 0 then "-" + ShowNat(-n) else ShowNat(n)
  }

  // ----- values -----

  function Value(lib: Lib, s: string, depth: nat): (r: Step<Bson>)
    ensures r.Got? ==> |r.rest| < |s|
    decreases |s|, 1
  {
    if depth > MAX_DEPTH then Refused(ParseFailed)
    else
      var (_, t) :- SkipWs(s);
      if t == "" then Refused(ParseFailed)
      else if t[0] == '{' then DocumentBody(lib, t[1..], depth)
      else if t[0] == '[' then
        var (items, rest) :- ListBody(lib, t[1..], depth, ']');
        Got(Array(items), rest)
      else if t[0] == '"' || t[0] == '\'' then
        var (text, rest) :- QuotedString(t);
        Got(String(text), rest)
      else if t[0] == '/' then RegexLiteral(t)
      else if IsDigit(t[0]) || t[0] == '-' then Number(lib, t)
      else if IsIdentStart(t[0]) then Word(lib, t, depth)
      else Refused(ParseFailed)
  }

  /** The comma-separated values after an opening bracket, up to and including `close`. */
  function ListBody(lib: Lib, s: string, depth: nat, close: char): (r: Step<seq<Bson>>)
    ensures r.Got? ==> |r.rest| < |s|
    decreases |s|, 3
  {
    var (_, t) :- SkipWs(s);
    if At(t, close) then Got([], t[1..]) else Items(lib, t, depth, close, [])
  }

  /** After an element: whether a comma announces another one (a comma before `close` does not). */
  function Separator(s: string, close: char): (r: Step<bool>)
    ensures r.Got? ==> |r.rest| <= |s|
  {
    var (_, t) :- SkipWs(s);
    if At(t, ',') then
      var (_, u) :- SkipWs(t[1..]);
      Got(!At(u, close), u)
    else Got(false, t)
  }

  function Items(lib: Lib, s: string, depth: nat, close: char, items: seq<Bson>): (r: Step<seq<Bson>>)
    ensures r.Got? ==> |r.rest| < |s|
    decreases |s|, 2
  {
    var (v, t) :- Value(lib, s, depth + 1);
    var (more, u) :- Separator(t, close);
    if more then Items(lib, u, depth, close, items + [v])
    else if At(u, close) then Got(items + [v], u[1..])
    else Refused(ParseFailed)
  }

  /** A field name: a quoted string or a bare identifier. */
  function FieldName(s: string): (r: Step<string>)
    ensures r.Got? ==> |r.rest| < |s|
  {
    var (_, t) :- SkipWs(s);
    if t == "" then Refused(ParseFailed)
    else if t[0] == '"' || t[0] == '\'' then QuotedString(t)
    else if IsIdentStart(t[0]) then Got(t[..IdentLen(t)], t[IdentLen(t)..])
    else Refused(ParseFailed)
  }

  function DocumentBody(lib: Lib, s: string, depth: nat): (r: Step<Bson>)
    ensures r.Got? ==> |r.rest| < |s|
    decreases |s|, 4
  {
    var (_, t) :- SkipWs(s);
    var (fields, rest) :- if At(t, '}') then Got([], t[1..]) else Fields(lib, t, depth, []);
    match Finish(lib, fields)
    case Ok(v) => Got(v, rest)
    case Err(e) => Refused(e)
  }

  /** One `name: value`; the name must be new to the document. */
  function Entry(lib: Lib, s: string, depth: nat, fields: seq<Field>): (r: Step<Field>)
    ensures r.Got? ==> |r.rest| < |s|
    decreases |s|, 2
  {
    var (key, t) :- FieldName(s);
    if HasKey(fields, key) then Refused(ParseFailed)
    else
      var (_, u) :- Expect(t, ':');
      var (v, w) :- Value(lib, u, depth + 1);
      Got(Field(key, v), w)
  }

  function Fields(lib: Lib, s: string, depth: nat, fields: seq<Field>): (r: Step<seq<Field>>)
    ensures r.Got? ==> |r.rest| < |s|
    decreases |s|, 3
  {
    var (field, t) :- Entry(lib, s, depth, fields);
    var (more, u) :- Separator(t, '}');
    if more then Fields(lib, u, depth, fields + [field])
    else if At(u, '}') then Got(fields + [field], u[1..])
    else Refused(ParseFailed)
  }

  function Args(lib: Lib, s: string, depth: nat): (r: Step<seq<Bson>>)
    ensures r.Got? ==> |r.rest| < |s|
    decreases |s|, 0
  {
    if depth > MAX_DEPTH then Refused(ParseFailed)
    else
      var (_, t) :- Expect(s, '(');
      ListBody(lib, t, depth, ')')
  }

  /** The words that are values. */
  function Keyword(word: string): Option<Bson> {
    if word == "true" then Some(Boolean(true))
    else if word == "false" then Some(Boolean(false))
    else if word == "null" then Some(Null)
    else None
  }

  function Word(lib: Lib, s: string, depth: nat): (r: Step<Bson>)
    requires s != "" && IsIdentStart(s[0])
    ensures r.Got? ==> |r.rest| < |s|
    decreases |s|, 0
  {
    var word, rest := s[..IdentLen(s)], s[IdentLen(s)..];
    if Keyword(word).Some? then Got(Keyword(word).value, rest)
    else if word == "new" then
      var (name, t) :- SpacedIdent(rest);
      Ctor(lib, name, t, depth)
    else Ctor(lib, word, rest, depth)
  }

  function Ctor(lib: Lib, name: string, s: string, depth: nat): (r: Step<Bson>)
    ensures r.Got? ==> |r.rest| < |s|
    decreases |s|, 1
  {
    if name !in CONSTRUCTORS then Refused(ParseFailed)
    else
      var (args, rest) :- Args(lib, s, depth);
      match Construct(lib, name, args)
      case Ok(v) => Got(v, rest)
      case Err(e) => Refused(e)
  }
}
