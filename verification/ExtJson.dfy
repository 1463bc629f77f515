/** Relaxed Extended JSON: what a result prints, and when pasting it back yields the same value. */
module ExtJson {
  import opened Outcomes
  import opened Values
  import opened Numbers
  import opened MongoSyntax
  import opened Json
  import opened JsonText

  /** The last millisecond of the year 9999. */
  const LAST_TEXT_DATE := 253402300799999

  function One(w: Wrapper, j: Json): Json {
    JObject([Member(NameOf(w), j)])
  }

  /** The conversion table of the MongoDB Extended JSON v2 specification, relaxed format. */
  function Relaxed(lib: Lib, v: Bson): Json
    decreases v, 0
  {
    match v
    case Null => JNull
    case Boolean(b) => JBool(b)
    case Int32(n) => JInt(n)
    case Int64(n) => JInt(n)
    case Double(d) =>
      if d.Finite? then JNumber(lib.jsonDouble(d)) else One(NumberDoubleKey, JText(lib.jsonDouble(d)))
    case Decimal(d) => One(NumberDecimalKey, JText(d))
    case String(s) => JText(s)
    case ObjectId(hex) => One(OidKey, JText(hex))
    case DateTime(ms) =>
      One(DateKey, if 0 <= ms <= LAST_TEXT_DATE then JText(lib.showDate(ms))
                   else One(NumberLongKey, JText(ShowInt(ms))))
    case Timestamp(t, i) => One(TimestampKey, TimestampJson(t, i))
    case Regex(pattern, options) =>
      One(RegularExpressionKey, RegexJson(pattern, options))
    case Binary(payload) => One(BinaryKey, JObject([Member("base64", JText(payload))]))
    case MinKey => One(MinKeyKey, JInt(1))
    case MaxKey => One(MaxKeyKey, JInt(1))
    case JavaScriptCode(code) => One(CodeKey, JText(code))
    case CodeWithScope(code, scope) =>
      JObject([Member("$code", JText(code)), Member("$scope", JObject(RelaxedFields(lib, scope)))])
    case Symbol(name) => JObject([Member("$symbol", JText(name))])
    case Undefined => JObject([Member("$undefined", JBool(true))])
    case DbPointer(namespace, id) =>
      var pointer := JObject([Member("$ref", JText(namespace)), Member("$id", One(OidKey, JText(id)))]);
      JObject([Member("$dbPointer", pointer)])
    case Array(items) => JList(RelaxedItems(lib, items))
    case Document(fields) => JObject(RelaxedFields(lib, fields))
  }

  function RelaxedItems(lib: Lib, items: seq<Bson>): (r: seq<Json>)
    decreases items, 1
  {
    if items == [] then [] else [Relaxed(lib, items[0])] + RelaxedItems(lib, items[1..])
  }

  function RelaxedFields(lib: Lib, fields: seq<Field>): (r: seq<Member>)
    decreases fields, 1
  {
    if fields == [] then []
    else [Member(fields[0].key, Relaxed(lib, fields[0].value))] + RelaxedFields(lib, fields[1..])
  }

  // ----- which values come back -----

  predicate IsLowerHex(c: char) {
    '0' <= c <= '9' || 'a' <= c <= 'f'
  }

  /**
   What holds of every value the driver hands over: numbers in their ranges, unique names. The
   opaque conversions are inverse on the payload, and the text of a finite double is that of a number
   with a point or an exponent.
   */
  predicate WellFormed(lib: Lib, v: Bson)
    decreases v, 0
  {
    match v
    case Int32(n) => FitsI32(n)
    case Int64(n) => FitsI64(n)
    case Double(d) =>
      var s := lib.jsonDouble(d);
      lib.double(s) == Some(d) && (d.Finite? ==> IsNumberText(s) && Marked(s))
    case CodeWithScope(_, scope) => AllFieldsWellFormed(lib, scope)
    case Decimal(d) => lib.decimal(d) == Some(d)
    case ObjectId(hex) => |hex| == 24 && forall c :: c in hex ==> IsLowerHex(c)
    case DateTime(ms) => FitsI64(ms) && (0 <= ms <= LAST_TEXT_DATE ==> lib.date(lib.showDate(ms)) == Some(ms))
    case Timestamp(t, i) => 0 <= t <= U32_MAX && 0 <= i <= U32_MAX
    case Array(items) => AllWellFormed(lib, items)
    case Document(fields) => UniqueKeys(fields) && AllFieldsWellFormed(lib, fields)
    case _ => true
  }

  predicate AllWellFormed(lib: Lib, items: seq<Bson>)
    decreases items, 1
  {
    items == [] || (WellFormed(lib, items[0]) && AllWellFormed(lib, items[1..]))
  }

  predicate AllFieldsWellFormed(lib: Lib, fields: seq<Field>)
    decreases fields, 1
  {
    fields == [] || (WellFormed(lib, fields[0].value) && AllFieldsWellFormed(lib, fields[1..]))
  }

  /** The types of old that a query has no spelling for. */
  predicate Legacy(v: Bson) {
    v.JavaScriptCode? || v.CodeWithScope? || v.Symbol? || v.Undefined? || v.DbPointer?
  }

  /**
   No binary data and no code, symbol, undefined or pointer value, no regular-expression options
   beside `imsx` in order, and no one-field document whose field has the name of a type wrapper, at
   any depth.
   */
  predicate Plain(v: Bson)
    decreases v, 0
  {
    match v
    case Binary(_) => false
    case JavaScriptCode(_) => false
    case CodeWithScope(_, _) => false
    case Symbol(_) => false
    case Undefined => false
    case DbPointer(_, _) => false
    case Regex(_, options) => RegexOptions(options) == Ok(options)
    case Array(items) => AllPlain(items)
    case Document(fields) => !(|fields| == 1 && WrapperOf(fields[0].key).Some?) && AllFieldsPlain(fields)
    case _ => true
  }

  predicate AllPlain(items: seq<Bson>)
    decreases items, 1
  {
    items == [] || (Plain(items[0]) && AllPlain(items[1..]))
  }

  predicate AllFieldsPlain(fields: seq<Field>)
    decreases fields, 1
  {
    fields == [] || (Plain(fields[0].value) && AllFieldsPlain(fields[1..]))
  }

  /** A 64-bit integer that fits 32 bits is written like a 32-bit one, so it comes back as one. */
  function Narrow(v: Bson): Bson
    decreases v, 0
  {
    match v
    case Int64(n) => if FitsI32(n) then Int32(n) else v
    case Array(items) => Array(NarrowItems(items))
    case Document(fields) => Document(NarrowFields(fields))
    case _ => v
  }

  function NarrowItems(items: seq<Bson>): (r: seq<Bson>)
    decreases items, 1
  {
    if items == [] then [] else [Narrow(items[0])] + NarrowItems(items[1..])
  }

  function NarrowFields(fields: seq<Field>): (r: seq<Field>)
    ensures |r| == |fields|
    decreases fields, 1
  {
    if fields == [] then []
    else [Field(fields[0].key, Narrow(fields[0].value))] + NarrowFields(fields[1..])
  }

  /** The nesting of a JSON tree below its root. */
  function Height(j: Json): nat
    decreases j, 0
  {
    match j
    case JList(items) => if items == [] then 0 else 1 + HeightOfItems(items)
    case JObject(members) => if members == [] then 0 else 1 + HeightOfMembers(members)
    case _ => 0
  }

  function HeightOfItems(items: seq<Json>): nat
    decreases items, 1
  {
    if items == [] then 0 else Max(Height(items[0]), HeightOfItems(items[1..]))
  }

  function HeightOfMembers(members: seq<Member>): nat
    decreases members, 1
  {
    if members == [] then 0 else Max(Height(members[0].value), HeightOfMembers(members[1..]))
  }

  lemma SmallHeights(a: Member, b: Member)
    ensures Height(JObject([a])) == 1 + Height(a.value)
    ensures Height(JObject([a, b])) == 1 + Max(Height(a.value), Height(b.value))
  {
    assert [a][1..] == [] && [a, b][1..] == [b] && [b][1..] == [];
    assert HeightOfMembers([a]) == Height(a.value) && HeightOfMembers([b]) == Height(b.value);
    assert HeightOfMembers([a, b]) == Max(Height(a.value), HeightOfMembers([b]));
  }

  lemma OneHeight(w: Wrapper, j: Json)
    ensures Height(One(w, j)) == 1 + Height(j)
  {
    var m := Member(NameOf(w), j);
    SmallHeights(m, m);
  }

  // ----- the round trip -----

  lemma NameIsFound(w: Wrapper)
    ensures WrapperOf(NameOf(w)) == Some(w)
  {
  }

  /** A one-member object with the name of a wrapper is read as the wrapper of its member. */
  lemma OneReads(lib: Lib, w: Wrapper, j: Json, depth: nat)
    requires depth <= MAX_DEPTH
    ensures Read(lib, One(w, j), depth)
            == match Read(lib, j, depth + 1)
               case Ok(v) => Unwrap(lib, w, v)
               case Err(e) => Err(e)
  {
    NameIsFound(w);
    OneMember(lib, NameOf(w), j, depth);
  }

  lemma OneMember(lib: Lib, key: string, j: Json, depth: nat)
    ensures ReadMembers(lib, [Member(key, j)], depth + 1, [])
            == match Read(lib, j, depth + 1)
               case Ok(v) => Ok([Field(key, v)])
               case Err(e) => Err(e)
  {
    var members := [Member(key, j)];
    assert members[1..] == [];
    if Read(lib, j, depth + 1).Ok? {
      var field := Field(key, Read(lib, j, depth + 1).value);
      assert [] + [field] == [field];
    }
  }

  lemma TwoRead(lib: Lib, a: Member, b: Member, depth: nat)
    requires depth <= MAX_DEPTH && a.key != b.key
    requires Read(lib, a.value, depth + 1).Ok? && Read(lib, b.value, depth + 1).Ok?
    ensures Read(lib, JObject([a, b]), depth)
            == Ok(Document([Field(a.key, Read(lib, a.value, depth + 1).value),
                            Field(b.key, Read(lib, b.value, depth + 1).value)]))
  {
    var fa := Field(a.key, Read(lib, a.value, depth + 1).value);
    var fb := Field(b.key, Read(lib, b.value, depth + 1).value);
    var members := [a, b];
    assert members[1..] == [b] && [b][1..] == [];
    assert [] + [fa] == [fa] && [fa] + [fb] == [fa, fb];
    assert ReadMembers(lib, [b], depth + 1, [fa]) == ReadMembers(lib, [], depth + 1, [fa, fb]);
  }

  lemma ObjectIdReads(lib: Lib, hex: string, depth: nat)
    requires WellFormed(lib, ObjectId(hex)) && depth + 1 <= MAX_DEPTH
    ensures Read(lib, Relaxed(lib, ObjectId(hex)), depth) == Ok(ObjectId(hex))
  {
    OneReads(lib, OidKey, JText(hex), depth);
    assert forall i :: 0 <= i < 24 ==> hex[i] in hex;
    assert seq(24, i requires 0 <= i < 24 => LowerHex(hex[i])) == hex;
  }

  lemma OneUnwraps(lib: Lib, w: Wrapper, j: Json, v: Bson, depth: nat)
    requires depth <= MAX_DEPTH && Read(lib, j, depth + 1) == Ok(v)
    ensures Read(lib, One(w, j), depth) == Unwrap(lib, w, v)
  {
    OneReads(lib, w, j, depth);
  }

  /** A date with a text of its own. */
  lemma TextDateReads(lib: Lib, ms: int, depth: nat)
    requires WellFormed(lib, DateTime(ms)) && 0 <= ms <= LAST_TEXT_DATE && depth <= MAX_DEPTH
    requires depth + Height(One(DateKey, JText(lib.showDate(ms)))) <= MAX_DEPTH
    ensures Read(lib, One(DateKey, JText(lib.showDate(ms))), depth) == Ok(DateTime(ms))
  {
    OneHeight(DateKey, JText(lib.showDate(ms)));
    OneUnwraps(lib, DateKey, JText(lib.showDate(ms)), String(lib.showDate(ms)), depth);
  }

  /** A date written as its number of milliseconds. */
  lemma NumberDateReads(lib: Lib, ms: int, depth: nat)
    requires FitsI64(ms) && depth + 2 <= MAX_DEPTH
    ensures Read(lib, One(DateKey, One(NumberLongKey, JText(ShowInt(ms)))), depth) == Ok(DateTime(ms))
  {
    var text := ShowInt(ms);
    ParseOfShow(ms);
    OneUnwraps(lib, NumberLongKey, JText(text), String(text), depth + 1);
    OneUnwraps(lib, DateKey, One(NumberLongKey, JText(text)), Int64(ms), depth);
  }

  lemma DateReads(lib: Lib, ms: int, depth: nat)
    requires WellFormed(lib, DateTime(ms)) && depth + Height(Relaxed(lib, DateTime(ms))) <= MAX_DEPTH
    ensures Read(lib, Relaxed(lib, DateTime(ms)), depth) == Ok(DateTime(ms))
  {
    if 0 <= ms <= LAST_TEXT_DATE {
      TextDateReads(lib, ms, depth);
    } else {
      OneHeight(NumberLongKey, JText(ShowInt(ms)));
      OneHeight(DateKey, One(NumberLongKey, JText(ShowInt(ms))));
      NumberDateReads(lib, ms, depth);
    }
  }

  function TimestampJson(t: int, i: int): Json {
    JObject([Member("t", JInt(t)), Member("i", JInt(i))])
  }

  function TimestampDocument(t: int, i: int): Bson {
    Document([Field("t", Whole(t)), Field("i", Whole(i))])
  }

  lemma TimestampNumbers(lib: Lib, t: int, i: int, depth: nat)
    requires 0 <= t <= U32_MAX && 0 <= i <= U32_MAX && depth + 1 <= MAX_DEPTH
    ensures Read(lib, TimestampJson(t, i), depth) == Ok(TimestampDocument(t, i))
  {
    TwoRead(lib, Member("t", JInt(t)), Member("i", JInt(i)), depth);
  }

  lemma TimestampUnwraps(lib: Lib, t: int, i: int)
    requires 0 <= t <= U32_MAX && 0 <= i <= U32_MAX
    ensures Unwrap(lib, TimestampKey, TimestampDocument(t, i)) == Ok(Timestamp(t, i))
  {
    var fields := [Field("t", Whole(t)), Field("i", Whole(i))];
    assert fields[1..] == [Field("i", Whole(i))];
    assert Get(fields, "t") == Some(Whole(t)) && Get(fields, "i") == Some(Whole(i));
  }

  lemma TimestampReads(lib: Lib, t: int, i: int, depth: nat)
    requires WellFormed(lib, Timestamp(t, i)) && depth + 2 <= MAX_DEPTH
    ensures Read(lib, Relaxed(lib, Timestamp(t, i)), depth) == Ok(Timestamp(t, i))
  {
    TimestampNumbers(lib, t, i, depth + 1);
    TimestampUnwraps(lib, t, i);
    OneUnwraps(lib, TimestampKey, TimestampJson(t, i), TimestampDocument(t, i), depth);
  }

  function RegexJson(pattern: string, options: string): Json {
    JObject([Member("pattern", JText(pattern)), Member("options", JText(options))])
  }

  function RegexDocument(pattern: string, options: string): Bson {
    Document([Field("pattern", String(pattern)), Field("options", String(options))])
  }

  /** The document a regular expression is printed as is read as its two texts. */
  lemma RegexTexts(lib: Lib, pattern: string, options: string, depth: nat)
    requires depth + 1 <= MAX_DEPTH
    ensures Read(lib, RegexJson(pattern, options), depth) == Ok(RegexDocument(pattern, options))
  {
    assert |"pattern"| == |"options"| && "pattern"[0] == 'p' && "options"[0] == 'o';
    TwoRead(lib, Member("pattern", JText(pattern)), Member("options", JText(options)), depth);
  }

  lemma RegexUnwraps(lib: Lib, pattern: string, options: string)
    ensures Unwrap(lib, RegularExpressionKey, RegexDocument(pattern, options))
            == match RegexOptions(options) case Ok(kept) => Ok(Regex(pattern, kept)) case Err(e) => Err(e)
  {
    var fields := [Field("pattern", String(pattern)), Field("options", String(options))];
    assert "pattern"[0] == 'p' && "options"[0] == 'o';
    assert fields[1..] == [Field("options", String(options))];
    assert Get(fields, "pattern") == Some(String(pattern)) && Get(fields, "options") == Some(String(options));
  }

  lemma RegexReads(lib: Lib, pattern: string, options: string, depth: nat)
    requires depth + 2 <= MAX_DEPTH
    ensures Read(lib, Relaxed(lib, Regex(pattern, options)), depth) == Ok(Regex(pattern, options))
            <==> RegexOptions(options) == Ok(options)
  {
    RegexTexts(lib, pattern, options, depth + 1);
    OneUnwraps(lib, RegularExpressionKey, RegexJson(pattern, options), RegexDocument(pattern, options), depth);
    RegexUnwraps(lib, pattern, options);
  }

  lemma BinaryIsRefused(lib: Lib, payload: string, depth: nat)
    requires depth <= MAX_DEPTH
    ensures !Read(lib, Relaxed(lib, Binary(payload)), depth).Ok?
  {
    OneReads(lib, BinaryKey, JObject([Member("base64", JText(payload))]), depth);
  }

  lemma KeyReads(lib: Lib, v: Bson, depth: nat)
    requires v.MinKey? || v.MaxKey? || (v.Decimal? && WellFormed(lib, v))
    requires depth + 1 <= MAX_DEPTH
    ensures Read(lib, Relaxed(lib, v), depth) == Ok(v)
  {
    match v {
      case Decimal(d) => OneReads(lib, NumberDecimalKey, JText(d), depth);
      case MinKey => OneReads(lib, MinKeyKey, JInt(1), depth);
      case MaxKey => OneReads(lib, MaxKeyKey, JInt(1), depth);
    }
  }

  lemma DoubleReads(lib: Lib, d: Float, depth: nat)
    requires WellFormed(lib, Double(d)) && depth + Height(Relaxed(lib, Double(d))) <= MAX_DEPTH
    ensures Read(lib, Relaxed(lib, Double(d)), depth) == Ok(Double(d))
  {
    if d.NonFinite? {
      OneHeight(NumberDoubleKey, JText(lib.jsonDouble(d)));
      OneReads(lib, NumberDoubleKey, JText(lib.jsonDouble(d)), depth);
    }
  }

  /** Nothing is ever read as a value of the old types. */
  lemma LegacyIsNeverRead(lib: Lib, j: Json, depth: nat)
    ensures var r := Read(lib, j, depth); r.Ok? ==> !Legacy(r.value)
  {
    if j.JObject? && Read(lib, j, depth).Ok? {
      var fields := ReadMembers(lib, j.members, depth + 1, []).value;
      if |fields| == 1 && WrapperOf(fields[0].key).Some? {
        UnwrapIsModern(lib, WrapperOf(fields[0].key).value, fields[0].value);
      }
    }
  }

  lemma UnwrapIsModern(lib: Lib, w: Wrapper, v: Bson)
    ensures var r := Unwrap(lib, w, v); r.Ok? ==> !Legacy(r.value)
  {
  }

  /** The nesting of the printed scalars. */
  lemma ScalarHeights(lib: Lib, v: Bson)
    ensures v.ObjectId? || v.Decimal? || v.MinKey? || v.MaxKey? ==> Height(Relaxed(lib, v)) == 1
    ensures v.Timestamp? || v.Regex? || v.Binary? ==> Height(Relaxed(lib, v)) == 2
  {
    match v {
      case ObjectId(hex) => OneHeight(OidKey, JText(hex));
      case Decimal(d) => OneHeight(NumberDecimalKey, JText(d));
      case MinKey => OneHeight(MinKeyKey, JInt(1));
      case MaxKey => OneHeight(MaxKeyKey, JInt(1));
      case Timestamp(t, i) =>
        SmallHeights(Member("t", JInt(t)), Member("i", JInt(i)));
        OneHeight(TimestampKey, JObject([Member("t", JInt(t)), Member("i", JInt(i))]));
      case Regex(pattern, options) =>
        SmallHeights(Member("pattern", JText(pattern)), Member("options", JText(options)));
        OneHeight(RegularExpressionKey, RegexJson(pattern, options));
      case Binary(payload) =>
        var a := Member("base64", JText(payload));
        SmallHeights(a, a);
        OneHeight(BinaryKey, JObject([a]));
      case _ =>
    }
  }

  /** A value that is neither a list nor a document. */
  lemma ScalarReads(lib: Lib, v: Bson, depth: nat)
    requires WellFormed(lib, v) && !v.Array? && !v.Document?
    requires depth + Height(Relaxed(lib, v)) <= MAX_DEPTH
    ensures Read(lib, Relaxed(lib, v), depth) == Ok(Narrow(v)) <==> Plain(v)
  {
    ScalarHeights(lib, v);
    if Legacy(v) {
      LegacyIsNeverRead(lib, Relaxed(lib, v), depth);
    } else {
      match v {
        case Double(d) => DoubleReads(lib, d, depth);
        case ObjectId(hex) => ObjectIdReads(lib, hex, depth);
        case DateTime(ms) => DateReads(lib, ms, depth);
        case Timestamp(t, i) => TimestampReads(lib, t, i, depth);
        case Regex(pattern, options) => RegexReads(lib, pattern, options, depth);
        case Binary(payload) => BinaryIsRefused(lib, payload, depth);
        case Decimal(_) => KeyReads(lib, v, depth);
        case MinKey => KeyReads(lib, v, depth);
        case MaxKey => KeyReads(lib, v, depth);
        case _ =>
      }
    }
  }

  lemma {:induction false} ItemsReturn(lib: Lib, items: seq<Bson>, depth: nat)
    requires AllWellFormed(lib, items) && (items != [] ==> depth + HeightOfItems(RelaxedItems(lib, items)) <= MAX_DEPTH)
    ensures ReadItems(lib, RelaxedItems(lib, items), depth) == Ok(NarrowItems(items)) <==> AllPlain(items)
    decreases items, 1
  {
    if items != [] {
      var js := RelaxedItems(lib, items);
      assert js[0] == Relaxed(lib, items[0]) && js[1..] == RelaxedItems(lib, items[1..]);
      ValueReturns(lib, items[0], depth);
      ItemsReturn(lib, items[1..], depth);
      var r := ReadItems(lib, js, depth);
      if r.Ok? {
        assert r.value[0] == Read(lib, js[0], depth).value && r.value[1..] == ReadItems(lib, js[1..], depth).value;
        assert NarrowItems(items)[0] == Narrow(items[0]) && NarrowItems(items)[1..] == NarrowItems(items[1..]);
      }
    }
  }

  lemma {:induction false} FieldsReturn(lib: Lib, fields: seq<Field>, depth: nat, acc: seq<Field>)
    requires AllFieldsWellFormed(lib, fields)
    requires fields != [] ==> depth + HeightOfMembers(RelaxedFields(lib, fields)) <= MAX_DEPTH
    requires UniqueKeys(acc + fields)
    ensures ReadMembers(lib, RelaxedFields(lib, fields), depth, acc) == Ok(acc + NarrowFields(fields))
            <==> AllFieldsPlain(fields)
    ensures var r := ReadMembers(lib, RelaxedFields(lib, fields), depth, acc);
            r.Ok? ==> |r.value| == |acc| + |fields| && acc <= r.value
    decreases fields, 1
  {
    var js := RelaxedFields(lib, fields);
    if fields == [] {
      assert acc + NarrowFields(fields) == acc;
    } else {
      var key := fields[0].key;
      assert js[0] == Member(key, Relaxed(lib, fields[0].value)) && js[1..] == RelaxedFields(lib, fields[1..]);
      FirstIsNew(acc, fields);
      ValueReturns(lib, fields[0].value, depth);
      if Read(lib, js[0].value, depth).Ok? {
        var field := Field(key, Read(lib, js[0].value, depth).value);
        UniqueAfterRead(acc, fields, field);
        FieldsReturn(lib, fields[1..], depth, acc + [field]);
        HeadAndTail(acc, field, fields, ReadMembers(lib, js, depth, acc));
      }
    }
  }

  lemma FirstIsNew(acc: seq<Field>, fields: seq<Field>)
    requires fields != [] && UniqueKeys(acc + fields)
    ensures !HasKey(acc, fields[0].key)
  {
    forall i | 0 <= i < |acc|
      ensures acc[i].key != fields[0].key
    {
      assert (acc + fields)[i] == acc[i] && (acc + fields)[|acc|] == fields[0];
    }
  }

  lemma UniqueAfterRead(acc: seq<Field>, fields: seq<Field>, field: Field)
    requires fields != [] && field.key == fields[0].key && UniqueKeys(acc + fields)
    ensures UniqueKeys(acc + [field] + fields[1..])
  {
    var a, b := acc + fields, acc + [field] + fields[1..];
    assert forall i :: 0 <= i < |a| ==> a[i].key == b[i].key;
  }

  /** Two readings of `acc + fields` agree exactly when they agree on the first field and on the rest. */
  lemma HeadAndTail(acc: seq<Field>, field: Field, fields: seq<Field>, r: Result<seq<Field>>)
    requires fields != [] && field.key == fields[0].key
    requires r.Ok? ==> acc + [field] <= r.value
    ensures r == Ok(acc + NarrowFields(fields))
            <==> field.value == Narrow(fields[0].value) && r == Ok(acc + [field] + NarrowFields(fields[1..]))
  {
    var whole, head := NarrowFields(fields), Field(fields[0].key, Narrow(fields[0].value));
    assert acc + whole == acc + [head] + NarrowFields(fields[1..]);
    if r == Ok(acc + whole) {
      assert r.value[|acc|] == field && r.value[|acc|] == head;
    }
  }

  /** A wrapper is never read as a document. */
  lemma WrapperIsNoDocument(lib: Lib, w: Wrapper, value: Bson)
    ensures Unwrap(lib, w, value).Ok? ==> !Unwrap(lib, w, value).value.Document?
  {
  }

  lemma {:induction false} ValueReturns(lib: Lib, v: Bson, depth: nat)
    requires WellFormed(lib, v) && depth + Height(Relaxed(lib, v)) <= MAX_DEPTH
    ensures Read(lib, Relaxed(lib, v), depth) == Ok(Narrow(v)) <==> Plain(v)
    decreases v, 1
  {
    if v.Array? {
      ArrayReturns(lib, v, depth);
    } else if v.Document? {
      DocumentReturns(lib, v, depth);
    } else {
      ScalarReads(lib, v, depth);
    }
  }

  lemma {:induction false} ArrayReturns(lib: Lib, v: Bson, depth: nat)
    requires v.Array? && WellFormed(lib, v) && depth + Height(Relaxed(lib, v)) <= MAX_DEPTH
    ensures Read(lib, Relaxed(lib, v), depth) == Ok(Narrow(v)) <==> Plain(v)
    decreases v, 0
  {
    ItemsReturn(lib, v.items, depth + 1);
  }

  lemma {:induction false} DocumentReturns(lib: Lib, v: Bson, depth: nat)
    requires v.Document? && WellFormed(lib, v) && depth + Height(Relaxed(lib, v)) <= MAX_DEPTH
    ensures Read(lib, Relaxed(lib, v), depth) == Ok(Narrow(v)) <==> Plain(v)
    decreases v, 0
  {
    FreshFieldsReturn(lib, v.fields, depth + 1);
    FieldsDecide(lib, v.fields, depth + 1);
    ObjectFinishes(lib, RelaxedFields(lib, v.fields), depth);
  }

  /** The object is read as the document when its fields are, and it is not taken for a wrapper. */
  lemma FieldsDecide(lib: Lib, fields: seq<Field>, depth: nat)
    requires ReadMembers(lib, RelaxedFields(lib, fields), depth, []) == Ok(NarrowFields(fields))
             <==> AllFieldsPlain(fields)
    ensures var read := ReadMembers(lib, RelaxedFields(lib, fields), depth, []);
            read.Ok? && Finish(lib, read.value) == Ok(Document(NarrowFields(fields))) <==> Plain(Document(fields))
  {
    FinishReturns(lib, fields, depth);
  }

  lemma ObjectFinishes(lib: Lib, members: seq<Member>, depth: nat)
    requires depth <= MAX_DEPTH
    ensures Read(lib, JObject(members), depth)
            == match ReadMembers(lib, members, depth + 1, [])
               case Ok(fields) => Finish(lib, fields)
               case Err(e) => Err(e)
  {
  }

  lemma {:induction false} FreshFieldsReturn(lib: Lib, fields: seq<Field>, depth: nat)
    requires UniqueKeys(fields) && AllFieldsWellFormed(lib, fields)
    requires fields != [] ==> depth + HeightOfMembers(RelaxedFields(lib, fields)) <= MAX_DEPTH
    ensures ReadMembers(lib, RelaxedFields(lib, fields), depth, []) == Ok(NarrowFields(fields))
            <==> AllFieldsPlain(fields)
    decreases fields, 2
  {
    assert [] + fields == fields && [] + NarrowFields(fields) == NarrowFields(fields);
    FieldsReturn(lib, fields, depth, []);
  }

  /** The fields of a document make the document again, unless its one field is named like a wrapper. */
  lemma FinishReturns(lib: Lib, fields: seq<Field>, depth: nat)
    ensures var read := ReadMembers(lib, RelaxedFields(lib, fields), depth, []);
            read.Ok? ==>
              (Finish(lib, read.value) == Ok(Document(NarrowFields(fields)))
               <==> read.value == NarrowFields(fields) && !(|fields| == 1 && WrapperOf(fields[0].key).Some?))
  {
    var read := ReadMembers(lib, RelaxedFields(lib, fields), depth, []);
    if read.Ok? && |fields| == 1 {
      KeyIsKept(lib, fields, depth);
      if WrapperOf(fields[0].key).Some? {
        WrapperIsNoDocument(lib, WrapperOf(fields[0].key).value, read.value[0].value);
      }
    } else if read.Ok? && |read.value| == 1 && WrapperOf(read.value[0].key).Some? {
      WrapperIsNoDocument(lib, WrapperOf(read.value[0].key).value, read.value[0].value);
    }
  }

  lemma KeyIsKept(lib: Lib, fields: seq<Field>, depth: nat)
    requires |fields| == 1
    ensures var read := ReadMembers(lib, RelaxedFields(lib, fields), depth, []);
            read.Ok? ==> |read.value| == 1 && read.value[0].key == fields[0].key
  {
  }

  lemma FewMembersHaveText(members: seq<Member>)
    requires 1 <= |members| <= 2
    ensures AllMembersHaveText(members) <==> forall i :: 0 <= i < |members| ==> HasText(members[i].value)
  {
  }

  lemma {:induction false} RelaxedHasText(lib: Lib, v: Bson)
    requires WellFormed(lib, v)
    ensures HasText(Relaxed(lib, v))
    decreases v, 0
  {
    if v.Array? {
      RelaxedItemsHaveText(lib, v.items);
    } else if v.Document? {
      RelaxedFieldsHaveText(lib, v.fields);
    } else if v.CodeWithScope? {
      RelaxedFieldsHaveText(lib, v.scope);
      FewMembersHaveText(Relaxed(lib, v).members);
    } else if v.DbPointer? {
      var inner := Relaxed(lib, v).members[0].value.members;
      FewMembersHaveText(inner[1].value.members);
      FewMembersHaveText(inner);
      FewMembersHaveText(Relaxed(lib, v).members);
    } else if Relaxed(lib, v).JObject? {
      var m := Relaxed(lib, v).members;
      FewMembersHaveText(m);
      if m[0].value.JObject? {
        FewMembersHaveText(m[0].value.members);
      }
    }
  }

  lemma {:induction false} RelaxedItemsHaveText(lib: Lib, items: seq<Bson>)
    requires AllWellFormed(lib, items)
    ensures AllHaveText(RelaxedItems(lib, items))
    decreases items, 1
  {
    if items != [] {
      RelaxedHasText(lib, items[0]);
      RelaxedItemsHaveText(lib, items[1..]);
      assert RelaxedItems(lib, items)[1..] == RelaxedItems(lib, items[1..]);
    }
  }

  lemma {:induction false} RelaxedFieldsHaveText(lib: Lib, fields: seq<Field>)
    requires AllFieldsWellFormed(lib, fields)
    ensures AllMembersHaveText(RelaxedFields(lib, fields))
    decreases fields, 1
  {
    if fields != [] {
      RelaxedHasText(lib, fields[0].value);
      RelaxedFieldsHaveText(lib, fields[1..]);
      assert RelaxedFields(lib, fields)[1..] == RelaxedFields(lib, fields[1..]);
    }
  }

  // ----- nesting -----

  /** Nothing that is read reaches below the depth limit. */
  lemma {:induction false} ReadIsShallow(lib: Lib, j: Json, depth: nat)
    requires Read(lib, j, depth).Ok?
    ensures depth + Height(j) <= MAX_DEPTH
    decreases j, 0
  {
    if j.JList? {
      ItemsAreShallow(lib, j.items, depth + 1);
    } else if j.JObject? {
      MembersAreShallow(lib, j.members, depth + 1, []);
    }
  }

  lemma {:induction false} ItemsAreShallow(lib: Lib, items: seq<Json>, depth: nat)
    requires ReadItems(lib, items, depth).Ok?
    ensures items != [] ==> depth + HeightOfItems(items) <= MAX_DEPTH
    decreases items, 1
  {
    if items != [] {
      ReadIsShallow(lib, items[0], depth);
      ItemsAreShallow(lib, items[1..], depth);
    }
  }

  lemma {:induction false} MembersAreShallow(lib: Lib, members: seq<Member>, depth: nat, acc: seq<Field>)
    requires ReadMembers(lib, members, depth, acc).Ok?
    ensures members != [] ==> depth + HeightOfMembers(members) <= MAX_DEPTH
    decreases members, 1
  {
    if members != [] {
      ReadIsShallow(lib, members[0].value, depth);
      var field := Field(members[0].key, Read(lib, members[0].value, depth).value);
      MembersAreShallow(lib, members[1..], depth, acc + [field]);
    }
  }

  /**
   What a result prints can be pasted into a query: whatever the spelling of its strings, the
   printed text is read as the value, narrowed, and the reading stops at the end of the text. It
   does so exactly when the value is plain and nests no deeper than the limit allows.
   */
  lemma PrintedValueReadsBack(lib: Lib, style: Style, v: Bson, depth: nat, rest: string)
    requires Faithful(style) && Delimited(rest) && WellFormed(lib, v)
    ensures Value(lib, Print(style, Relaxed(lib, v)) + rest, depth) == Got(Narrow(v), rest)
            <==> Plain(v) && depth + Height(Relaxed(lib, v)) <= MAX_DEPTH
  {
    RelaxedHasText(lib, v);
    TreeReads(lib, style, Relaxed(lib, v), depth, rest);
    if depth + Height(Relaxed(lib, v)) <= MAX_DEPTH {
      ValueReturns(lib, v, depth);
    } else if Read(lib, Relaxed(lib, v), depth).Ok? {
      ReadIsShallow(lib, Relaxed(lib, v), depth);
    }
  }

  /** Narrowing changes nothing unless some 64-bit integer fits 32 bits. */
  predicate NoShortLong(v: Bson)
    decreases v, 0
  {
    match v
    case Int64(n) => !FitsI32(n)
    case Array(items) => items == [] || NoShortLongIn(items)
    case Document(fields) => fields == [] || NoShortLongField(fields)
    case _ => true
  }

  predicate NoShortLongIn(items: seq<Bson>)
    decreases items, 1
  {
    items == [] || (NoShortLong(items[0]) && NoShortLongIn(items[1..]))
  }

  predicate NoShortLongField(fields: seq<Field>)
    decreases fields, 1
  {
    fields == [] || (NoShortLong(fields[0].value) && NoShortLongField(fields[1..]))
  }

  lemma {:induction false} NarrowIsIdentity(v: Bson)
    ensures Narrow(v) == v <==> NoShortLong(v)
    decreases v, 0
  {
    if v.Array? {
      NarrowItemsIsIdentity(v.items);
    } else if v.Document? {
      NarrowFieldsIsIdentity(v.fields);
    }
  }

  lemma {:induction false} NarrowItemsIsIdentity(items: seq<Bson>)
    ensures NarrowItems(items) == items <==> NoShortLongIn(items)
    decreases items, 1
  {
    if items != [] {
      NarrowIsIdentity(items[0]);
      NarrowItemsIsIdentity(items[1..]);
      assert NarrowItems(items)[0] == Narrow(items[0]) && NarrowItems(items)[1..] == NarrowItems(items[1..]);
      assert items == [items[0]] + items[1..];
    }
  }

  lemma {:induction false} NarrowFieldsIsIdentity(fields: seq<Field>)
    ensures NarrowFields(fields) == fields <==> NoShortLongField(fields)
    decreases fields, 1
  {
    if fields != [] {
      NarrowIsIdentity(fields[0].value);
      NarrowFieldsIsIdentity(fields[1..]);
      var r := NarrowFields(fields);
      assert r[0] == Field(fields[0].key, Narrow(fields[0].value)) && r[1..] == NarrowFields(fields[1..]);
      assert fields == [fields[0]] + fields[1..];
    }
  }
}
