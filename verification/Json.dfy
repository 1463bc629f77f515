/** JSON trees and their text: the string escapes of section 7 of RFC 8259, in every spelling. */
module Json {
  import opened Values
  import opened Outcomes
  import opened MongoSyntax

  datatype Member = Member(key: string, value: Json)

  datatype Json =
    | JNull
    | JBool(truth: bool)
    | JInt(n: int)
    | JNumber(digits: string)     // a number with a point or an exponent, by its text
    | JText(text: string)
    | JList(items: seq<Json>)
    | JObject(members: seq<Member>)

  // ----- spellings of a string -----

  /** One spelled character: itself, a two-character escape, `\uXXXX`, or a surrogate pair. */
  datatype Glyph =
    | Raw(c: char)
    | Short(letter: char)
    | Code(hex: string)
    | Pair(high: string, low: string)

  predicate IsHex4(s: string) {
    |s| == 4 && forall i :: 0 <= i < 4 ==> HexDigit(s[i]).Some?
  }

  function Hex4Value(s: string): (n: nat)
    requires IsHex4(s)
    ensures n < 0x1_0000
  {
    assert forall i :: 0 <= i < 4 ==> HexDigit(s[i]).value < 16;
    ((HexDigit(s[0]).value * 16 + HexDigit(s[1]).value) * 16 + HexDigit(s[2]).value) * 16 + HexDigit(s[3]).value
  }

  predicate Legal(g: Glyph) {
    match g
    case Raw(c) => ' ' <= c && c != '"' && c != '\\'
    case Short(letter) => letter in "\"\\/bfnrt"
    case Code(hex) => IsHex4(hex) && IsScalar(Hex4Value(hex))
    case Pair(high, low) =>
      IsHex4(high) && IsHex4(low) && 0xD800 <= Hex4Value(high) < 0xDC00 && 0xDC00 <= Hex4Value(low) < 0xE000
  }

  /** The two-character escapes of the RFC. */
  function ShortMeaning(letter: char): char {
    if letter == 'b' then '\U{0008}'
    else if letter == 'f' then '\U{000C}'
    else if letter == 'n' then '\U{000A}'
    else if letter == 'r' then '\U{000D}'
    else if letter == 't' then '\U{0009}'
    else letter
  }

  function Meaning(g: Glyph): char
    requires Legal(g)
  {
    match g
    case Raw(c) => c
    case Short(letter) => ShortMeaning(letter)
    case Code(hex) => Hex4Value(hex) as char
    case Pair(high, low) =>
      (0x1_0000 + (Hex4Value(high) - 0xD800) * 0x400 + (Hex4Value(low) - 0xDC00)) as char
  }

  function Ink(g: Glyph): string {
    match g
    case Raw(c) => [c]
    case Short(letter) => ['\\', letter]
    case Code(hex) => "\\u" + hex
    case Pair(high, low) => "\\u" + high + "\\u" + low
  }

  predicate AllLegal(gs: seq<Glyph>) {
    forall i :: 0 <= i < |gs| ==> Legal(gs[i])
  }

  function MeaningOf(gs: seq<Glyph>): (s: string)
    requires AllLegal(gs)
  {
    if gs == [] then "" else [Meaning(gs[0])] + MeaningOf(gs[1..])
  }

  function InkOf(gs: seq<Glyph>): string {
    if gs == [] then "" else Ink(gs[0]) + InkOf(gs[1..])
  }

  /** A way of writing strings. */
  type Style = string -> seq<Glyph>

  /** What makes a style a JSON one: its spellings are legal and mean what they spell. */
  ghost predicate Faithful(style: Style) {
    forall s {:trigger style(s)} :: AllLegal(style(s)) && MeaningOf(style(s)) == s
  }

  // ----- text of a tree -----

  function Quote(style: Style, s: string): string {
    "\"" + InkOf(style(s)) + "\""
  }

  /** Compact JSON text. */
  function Print(style: Style, j: Json): string
    decreases j, 0
  {
    match j
    case JNull => "null"
    case JBool(true) => "true"
    case JBool(false) => "false"
    case JInt(n) => ShowInt(n)
    case JNumber(digits) => digits
    case JText(s) => Quote(style, s)
    case JList(items) => "[" + PrintItems(style, items) + "]"
    case JObject(members) => "{" + PrintMembers(style, members) + "}"
  }

  function PrintItems(style: Style, items: seq<Json>): string
    decreases items, 1
  {
    if items == [] then ""
    else Print(style, items[0]) + (if |items| == 1 then "" else "," + PrintItems(style, items[1..]))
  }

  function PrintMembers(style: Style, members: seq<Member>): string
    decreases members, 1
  {
    if members == [] then ""
    else
      Quote(style, members[0].key) + ":" + Print(style, members[0].value)
      + (if |members| == 1 then "" else "," + PrintMembers(style, members[1..]))
  }

  // ----- what the grammar makes of a tree -----

  /** The value a JSON tree denotes to layer 1 at this depth, wrappers resolved. */
  function Read(lib: Lib, j: Json, depth: nat): Result<Bson>
    decreases j, 0
  {
    if depth > MAX_DEPTH then Err(ParseFailed)
    else
      match j
      case JNull => Ok(Null)
      case JBool(b) => Ok(Boolean(b))
      case JInt(n) => if !FitsI64(n) then Err(ParseFailed) else Ok(Whole(n))
      case JNumber(digits) => NumberOf(lib, digits)
      case JText(s) => Ok(String(s))
      case JList(items) => var read :- ReadItems(lib, items, depth + 1); Ok(Array(read))
      case JObject(members) => var fields :- ReadMembers(lib, members, depth + 1, []); Finish(lib, fields)
  }

  function ReadItems(lib: Lib, items: seq<Json>, depth: nat): Result<seq<Bson>>
    decreases items, 1
  {
    if items == [] then Ok([])
    else
      var v :- Read(lib, items[0], depth);
      var vs :- ReadItems(lib, items[1..], depth);
      Ok([v] + vs)
  }

  /** The fields after `fields`; a repeated name is refused. */
  function ReadMembers(lib: Lib, members: seq<Member>, depth: nat, fields: seq<Field>): Result<seq<Field>>
    decreases members, 1
  {
    if members == [] then Ok(fields)
    else if HasKey(fields, members[0].key) then Err(ParseFailed)
    else
      var v :- Read(lib, members[0].value, depth);
      ReadMembers(lib, members[1..], depth, fields + [Field(members[0].key, v)])
  }

  /** The text of a number: all of it is scanned as one, and it ends with a digit. */
  predicate IsNumberText(s: string) {
    s != "" && (IsDigit(s[0]) || s[0] == '-') && NumberLen(s) == |s| && IsDigit(s[|s| - 1])
  }

  /** A tree whose every number is written as one. */
  predicate HasText(j: Json)
    decreases j, 0
  {
    match j
    case JNumber(digits) => IsNumberText(digits)
    case JList(items) => AllHaveText(items)
    case JObject(members) => AllMembersHaveText(members)
    case _ => true
  }

  predicate AllHaveText(items: seq<Json>)
    decreases items, 1
  {
    items == [] || (HasText(items[0]) && AllHaveText(items[1..]))
  }

  predicate AllMembersHaveText(members: seq<Member>)
    decreases members, 1
  {
    members == [] || (HasText(members[0].value) && AllMembersHaveText(members[1..]))
  }
}
