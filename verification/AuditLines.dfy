/** Why a log of JSON records can be read line by line: no printed tree contains a line break. */
module AuditLines {
  import opened MongoSyntax
  import opened Json
  import opened JsonStyles
  import opened AuditLog

  lemma GlyphIsOneLine(c: char)
    ensures OneLine(Ink(SerdeGlyph(c)))
  {
  }

  lemma {:induction false} InkIsOneLine(s: string)
    ensures OneLine(InkOf(Serde(s)))
  {
    if s != "" {
      GlyphIsOneLine(s[0]);
      InkIsOneLine(s[1..]);
      assert Serde(s)[1..] == Serde(s[1..]);
    }
  }

  lemma QuoteIsOneLine(s: string)
    ensures OneLine(Quote(Serde, s))
  {
    InkIsOneLine(s);
  }

  lemma IntIsOneLine(n: int)
    ensures OneLine(ShowInt(n))
  {
  }

  lemma {:induction false} TailIsOneLine(prev: char, digits: string)
    requires NumberTail(prev, digits) == |digits|
    ensures OneLine(digits)
    decreases |digits|
  {
    if digits != "" {
      TailIsOneLine(digits[0], digits[1..]);
      assert digits == [digits[0]] + digits[1..];
    }
  }

  lemma NumberIsOneLine(digits: string)
    requires IsNumberText(digits)
    ensures OneLine(digits)
  {
    if digits[0] == '-' {
      TailIsOneLine('-', digits[1..]);
      assert digits == [digits[0]] + digits[1..];
    } else {
      TailIsOneLine('0', digits);
    }
  }

  /** A record is one line, whatever line breaks the texts in it have. */
  lemma {:induction false} PrintIsOneLine(j: Json)
    requires HasText(j)
    ensures OneLine(Print(Serde, j))
    decreases j, 0
  {
    match j {
      case JInt(n) => IntIsOneLine(n);
      case JNumber(digits) => NumberIsOneLine(digits);
      case JText(s) => QuoteIsOneLine(s);
      case JList(items) => ItemsAreOneLine(items);
      case JObject(members) => MembersAreOneLine(members);
      case _ =>
    }
  }

  lemma {:induction false} ItemsAreOneLine(items: seq<Json>)
    requires AllHaveText(items)
    ensures OneLine(PrintItems(Serde, items))
    decreases items, 1
  {
    if items != [] {
      PrintIsOneLine(items[0]);
      ItemsAreOneLine(items[1..]);
    }
  }

  lemma {:induction false} MembersAreOneLine(members: seq<Member>)
    requires AllMembersHaveText(members)
    ensures OneLine(PrintMembers(Serde, members))
    decreases members, 1
  {
    if members != [] {
      QuoteIsOneLine(members[0].key);
      PrintIsOneLine(members[0].value);
      MembersAreOneLine(members[1..]);
    }
  }

  /** A log to which JSON records were appended reads back as those records, line by line. */
  lemma JsonLogReadsBack(events: map<nat, Json>, original: string, order: seq<Entry>)
    requires Complete(original) && forall e :: e in order ==> e.Record? && e.i in events && HasText(events[e.i])
    ensures ReadsBack(map i | i in events :: Print(Serde, events[i]), original, order)
  {
    var records: Records := map i | i in events :: Print(Serde, events[i]);
    forall e | e in order
      ensures OneLine(records[e.i])
    {
      PrintIsOneLine(events[e.i]);
    }
    LogReadsBack(records, original, order);
  }
}
