/** Two writers of JSON strings: the one nyet prints with, and one that keeps to ASCII. */
module JsonStyles {
  import opened MongoSyntax
  import opened Json
  import opened Outcomes

  function HexChar(d: nat): char
    requires d < 16
  {
    if d < 10 then (d + '0' as int) as char else (d - 10 + 'a' as int) as char
  }

  /** Four lower-case hexadecimal digits. */
  function HexText(n: nat): string
    requires n < 0x1_0000
  {
    [HexChar(n / 16 / 16 / 16), HexChar(n / 16 / 16 % 16), HexChar(n / 16 % 16), HexChar(n % 16)]
  }

  lemma HexDigitOfChar(d: nat)
    requires d < 16
    ensures HexDigit(HexChar(d)) == Some(d)
  {
  }

  lemma HexTextReads(n: nat)
    requires n < 0x1_0000
    ensures IsHex4(HexText(n)) && Hex4Value(HexText(n)) == n
  {
    var a := n / 16;
    var b := a / 16;
    HexDigitOfChar(b / 16);
    HexDigitOfChar(b % 16);
    HexDigitOfChar(a % 16);
    HexDigitOfChar(n % 16);
    assert b == b / 16 * 16 + b % 16 && a == b * 16 + a % 16 && n == a * 16 + n % 16;
  }

  /** serde_json escapes what it must and writes everything else as it is. */
  function SerdeGlyph(c: char): Glyph {
    if c == '"' || c == '\\' then Short(c)
    else if c == '\U{0008}' then Short('b')
    else if c == '\U{000C}' then Short('f')
    else if c == '\n' then Short('n')
    else if c == '\r' then Short('r')
    else if c == '\t' then Short('t')
    else if c < ' ' then Code(HexText(c as int))
    else Raw(c)
  }

  /** Everything outside ASCII as `\uXXXX`, in a surrogate pair beyond the basic plane. */
  function AsciiGlyph(c: char): Glyph {
    if c < '\U{0080}' then SerdeGlyph(c)
    else if c < '\U{10000}' then Code(HexText(c as int))
    else
      var n := c as int - 0x1_0000;
      Pair(HexText(0xD800 + n / 0x400), HexText(0xDC00 + n % 0x400))
  }

  lemma SerdeGlyphMeans(c: char)
    ensures Legal(SerdeGlyph(c)) && Meaning(SerdeGlyph(c)) == c
  {
    if c < ' ' {
      HexTextReads(c as int);
    }
  }

  lemma AsciiGlyphMeans(c: char)
    ensures Legal(AsciiGlyph(c)) && Meaning(AsciiGlyph(c)) == c
  {
    if c < '\U{0080}' {
      SerdeGlyphMeans(c);
    } else if c < '\U{10000}' {
      HexTextReads(c as int);
    } else {
      var n := c as int - 0x1_0000;
      HexTextReads(0xD800 + n / 0x400);
      HexTextReads(0xDC00 + n % 0x400);
    }
  }

  function Spelled(s: string, glyph: char -> Glyph): seq<Glyph> {
    if s == "" then [] else [glyph(s[0])] + Spelled(s[1..], glyph)
  }

  lemma {:induction false} SpelledMeans(s: string, glyph: char -> Glyph)
    requires forall c :: Legal(glyph(c)) && Meaning(glyph(c)) == c
    ensures AllLegal(Spelled(s, glyph)) && MeaningOf(Spelled(s, glyph)) == s
  {
    if s != "" {
      SpelledMeans(s[1..], glyph);
      var gs := Spelled(s, glyph);
      assert gs[1..] == Spelled(s[1..], glyph);
      assert forall i :: 0 < i < |gs| ==> gs[i] == gs[1..][i - 1];
    }
  }

  function Serde(s: string): seq<Glyph> {
    Spelled(s, SerdeGlyph)
  }

  function Ascii(s: string): seq<Glyph> {
    Spelled(s, AsciiGlyph)
  }

  /** What nyet prints is JSON, and so is the pure-ASCII spelling with its surrogate pairs. */
  lemma StylesAreFaithful()
    ensures Faithful(Serde) && Faithful(Ascii)
  {
    forall s: string
      ensures AllLegal(Serde(s)) && MeaningOf(Serde(s)) == s
      ensures AllLegal(Ascii(s)) && MeaningOf(Ascii(s)) == s
    {
      forall c: char
        ensures Legal(SerdeGlyph(c)) && Meaning(SerdeGlyph(c)) == c
        ensures Legal(AsciiGlyph(c)) && Meaning(AsciiGlyph(c)) == c
      {
        SerdeGlyphMeans(c);
        AsciiGlyphMeans(c);
      }
      SpelledMeans(s, SerdeGlyph);
      SpelledMeans(s, AsciiGlyph);
    }
  }
}
