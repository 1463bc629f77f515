/** Values that JSON has no spelling for: the constructors of the shell, and the wrappers they stand beside. */
module MongoSpellings {
  import opened Outcomes
  import opened Values
  import opened MongoSyntax
  import opened Json
  import opened JsonText
  import opened MongoTexts

  // ----- constructors -----

  /** `name(<arg>)`, with or without `new`. */
  function ConstructorText(style: Style, anew: bool, name: string, arg: Json): string {
    (if anew then "new " else "") + (name + Parenthesized(style, [arg]))
  }

  lemma NameStands(name: string, rest: string)
    requires name in {"ObjectId", "ISODate", "Date", "NumberLong", "NumberInt", "NumberDecimal", "UUID"}
    requires At(rest, '(')
    ensures IdentLen(name + rest) == |name| && (name + rest)[..|name|] == name && (name + rest)[|name|..] == rest
    ensures IsIdentStart((name + rest)[0]) && Keyword(name) == None && name != "new" && name in CONSTRUCTORS
  {
    WordEnds(name, rest);
  }

  lemma OneArgument(lib: Lib, arg: Json, depth: nat)
    ensures ReadItems(lib, [arg], depth)
            == match Read(lib, arg, depth) case Ok(v) => Ok([v]) case Err(e) => Err(e)
  {
    var one := [arg];
    assert one[1..] == [];
    if Read(lib, arg, depth).Ok? {
      var v := Read(lib, arg, depth).value;
      assert [v] + [] == [v];
    }
  }

  /** What is made of the argument, and where the text goes on. */
  function Made(lib: Lib, name: string, arg: Result<Bson>, rest: string): Step<Bson> {
    match arg
    case Err(e) => Refused(e)
    case Ok(v) =>
      match Construct(lib, name, [v])
      case Ok(made) => Got(made, rest)
      case Err(e) => Refused(e)
  }

  lemma CtorReads(lib: Lib, style: Style, name: string, arg: Json, depth: nat, rest: string)
    requires Faithful(style) && HasText(arg) && depth <= MAX_DEPTH && name in CONSTRUCTORS
    ensures Ctor(lib, name, Parenthesized(style, [arg]) + rest, depth)
         == Made(lib, name, Read(lib, arg, depth + 1), rest)
  {
    var s := Parenthesized(style, [arg]) + rest;
    CtorArgs(lib, style, arg, depth, rest);
    CtorMakes(lib, name, s, arg, depth, rest);
  }

  lemma CtorArgs(lib: Lib, style: Style, arg: Json, depth: nat, rest: string)
    requires Faithful(style) && HasText(arg) && depth <= MAX_DEPTH
    ensures Args(lib, Parenthesized(style, [arg]) + rest, depth)
            == match Read(lib, arg, depth + 1) case Ok(v) => Got([v], rest) case Err(e) => Refused(e)
  {
    var args := [arg];
    assert args[1..] == [] && AllHaveText(args);
    ArgsReadAt(lib, style, args, depth, rest);
    OneArgument(lib, arg, depth + 1);
  }

  lemma CtorMakes(lib: Lib, name: string, s: string, arg: Json, depth: nat, rest: string)
    requires name in CONSTRUCTORS
    requires Args(lib, s, depth)
             == match Read(lib, arg, depth + 1) case Ok(v) => Got([v], rest) case Err(e) => Refused(e)
    ensures Ctor(lib, name, s, depth) == Made(lib, name, Read(lib, arg, depth + 1), rest)
  {
  }

  lemma ValueIsWord(lib: Lib, s: string, depth: nat)
    requires s != "" && IsIdentStart(s[0]) && depth <= MAX_DEPTH
    ensures Value(lib, s, depth) == Word(lib, s, depth)
  {
    SkipNothing(s);
  }

  lemma WordIsCtor(lib: Lib, s: string, name: string, rest: string, depth: nat)
    requires s != "" && IsIdentStart(s[0]) && s[..IdentLen(s)] == name && s[IdentLen(s)..] == rest
    requires Keyword(name) == None && name != "new"
    ensures Word(lib, s, depth) == Ctor(lib, name, rest, depth)
  {
  }

  /** A constructor call is read as what the constructor makes of its argument, with `new` or without. */
  lemma ConstructorReads(lib: Lib, style: Style, anew: bool, name: string, arg: Json, depth: nat, rest: string)
    requires Faithful(style) && HasText(arg) && depth <= MAX_DEPTH
    requires name in {"ObjectId", "ISODate", "Date", "NumberLong", "NumberInt", "NumberDecimal", "UUID"}
    ensures Value(lib, ConstructorText(style, anew, name, arg) + rest, depth)
         == Made(lib, name, Read(lib, arg, depth + 1), rest)
  {
    var parens := Parenthesized(style, [arg]) + rest;
    NameStands(name, parens);
    CtorReads(lib, style, name, arg, depth, rest);
    TextIs(style, anew, name, arg, rest);
    if anew {
      NewReads(lib, name, parens, depth);
    } else {
      ValueIsWord(lib, name + parens, depth);
      WordIsCtor(lib, name + parens, name, parens, depth);
    }
  }

  lemma TextIs(style: Style, anew: bool, name: string, arg: Json, rest: string)
    ensures ConstructorText(style, anew, name, arg) + rest
            == var called := name + (Parenthesized(style, [arg]) + rest); if anew then "new " + called else called
  {
  }

  lemma NewReads(lib: Lib, name: string, parens: string, depth: nat)
    requires depth <= MAX_DEPTH && At(parens, '(')
    requires name in {"ObjectId", "ISODate", "Date", "NumberLong", "NumberInt", "NumberDecimal", "UUID"}
    ensures Value(lib, "new " + (name + parens), depth) == Ctor(lib, name, parens, depth)
  {
    var called := name + parens;
    NameStands(name, parens);
    NewStands(called);
    SpacedName(called);
    WordIsNew(lib, "new " + called, " " + called, depth);
    ValueIsWord(lib, "new " + called, depth);
  }

  lemma SpacedName(called: string)
    requires called != "" && IsIdentStart(called[0])
    ensures SpacedIdent(" " + called) == Got(called[..IdentLen(called)], called[IdentLen(called)..])
  {
    SkipNothing(called);
    assert (" " + called)[1..] == called;
  }

  lemma WordIsNew(lib: Lib, s: string, rest: string, depth: nat)
    requires s != "" && IsIdentStart(s[0]) && s[..IdentLen(s)] == "new" && s[IdentLen(s)..] == rest
    requires Keyword("new") == None && SpacedIdent(rest).Got?
    ensures Word(lib, s, depth) == Ctor(lib, SpacedIdent(rest).value, SpacedIdent(rest).rest, depth)
  {
  }

  lemma NewStands(rest: string)
    ensures var s := "new " + rest; IdentLen(s) == 3 && s[..3] == "new" && s[3..] == " " + rest
    ensures Keyword("new") == None
  {
    var s := "new " + rest;
    assert s == "new" + (" " + rest);
    assert s[1..] == "ew" + (" " + rest);
    SpanStops("ew", " " + rest, IsIdentPart);
  }

  // ----- what the constructors make -----

  /** A text means the same to a constructor and to the wrapper of its type. */
  lemma ConstructorsAreWrappers(lib: Lib, text: string)
    ensures Construct(lib, "ObjectId", [String(text)]) == Unwrap(lib, OidKey, String(text))
    ensures Construct(lib, "ISODate", [String(text)]) == Unwrap(lib, DateKey, String(text))
    ensures Construct(lib, "Date", [String(text)]) == Unwrap(lib, DateKey, String(text))
    ensures Construct(lib, "NumberLong", [String(text)]) == Unwrap(lib, NumberLongKey, String(text))
    ensures Construct(lib, "NumberInt", [String(text)]) == Unwrap(lib, NumberIntKey, String(text))
    ensures Construct(lib, "NumberDecimal", [String(text)]) == Unwrap(lib, NumberDecimalKey, String(text))
    ensures Construct(lib, "UUID", [String(text)])
            == match lib.uuid(text) case Some(bytes) => Ok(Binary(bytes)) case None => Err(ParseFailed)
  {
    assert "ObjectId"[0] == 'O' && "ISODate"[0] == 'I' && "Date"[0] == 'D' && "UUID"[0] == 'U';
    assert "NumberLong"[6] == 'L' && "NumberInt"[6] == 'I' && "NumberDecimal"[6] == 'D';
  }

  /** A whole number is 64 bits wide to `NumberLong`, and 32 to `NumberInt` when it fits. */
  lemma NumbersAreMade(lib: Lib, n: int)
    requires FitsI64(n)
    ensures Construct(lib, "NumberLong", [Whole(n)]) == Ok(Int64(n))
    ensures Construct(lib, "NumberInt", [Whole(n)]) == if FitsI32(n) then Ok(Int32(n)) else Err(ParseFailed)
    ensures Construct(lib, "NumberDecimal", [Whole(n)]) == Construct(lib, "NumberDecimal", [String(ShowInt(n))])
    ensures Unwrap(lib, DateKey, Whole(n)) == Ok(DateTime(n))
  {
    assert "NumberLong"[6] == 'L' && "NumberInt"[6] == 'I' && "NumberDecimal"[6] == 'D';
    assert "NumberLong"[0] == 'N' && "ObjectId"[0] == 'O' && "ISODate"[0] == 'I' && "Date"[0] == 'D';
  }

  /** The number written out means the number, as far as it fits. */
  lemma WrittenNumbersMean(lib: Lib, n: int)
    ensures Unwrap(lib, NumberLongKey, String(ShowInt(n))) == if FitsI64(n) then Ok(Int64(n)) else Err(ParseFailed)
    ensures Unwrap(lib, NumberIntKey, String(ShowInt(n))) == if FitsI32(n) then Ok(Int32(n)) else Err(ParseFailed)
  {
    ParseOfShow(n);
  }

  /** The same digit, in lower case. */
  predicate SameDigit(a: char, b: char) {
    HexDigit(a) == HexDigit(b) && HexDigit(a).Some? && ('0' <= b <= '9' || 'a' <= b <= 'f')
  }

  /** An object id is twelve bytes in hex; upper and lower case are the same id. */
  lemma ObjectIdsMean(lib: Lib, text: string)
    ensures var id := Unwrap(lib, OidKey, String(text));
            && (id.Ok? <==> |text| == 24 && forall i :: 0 <= i < 24 ==> HexDigit(text[i]).Some?)
            && (id.Ok? ==> && id.value.ObjectId? && |id.value.hex| == 24
                           && forall i :: 0 <= i < 24 ==> SameDigit(text[i], id.value.hex[i]))
  {
    if |text| == 24 && forall i :: 0 <= i < 24 ==> HexDigit(text[i]).Some? {
      assert forall c :: c in text ==> HexDigit(c).Some?;
    }
    if Unwrap(lib, OidKey, String(text)).Ok? {
      assert forall i :: 0 <= i < 24 ==> text[i] in text;
    }
  }

  // ----- regular expressions and strings -----

  /** Of the options each of `imsx` is kept once, in that order, and any other letter is refused. */
  lemma OptionsAreOrdered(flags: string)
    ensures RegexOptions(flags).Ok? <==> forall c :: c in flags ==> c == 'i' || c == 'm' || c == 's' || c == 'x'
    ensures RegexOptions(flags).Ok? ==>
              var kept := RegexOptions(flags).value;
              && (forall c :: c in kept <==> c in flags)
              && forall i, j :: 0 <= i < j < |kept| ==> kept[i] < kept[j]
  {
    assert forall c :: c in REGEX_OPTIONS <==> c == 'i' || c == 'm' || c == 's' || c == 'x';
  }

  /** An apostrophe may be escaped in a string of either quote, beside the escapes of JSON. */
  lemma ApostropheReads(rest: string, quote: char, out: string)
    requires quote == '"' || quote == '\''
    ensures StringBody("\\'" + rest, quote, out) == StringBody(rest, quote, out + ['\''])
  {
    var s := "\\'" + rest;
    assert s[0] == '\\' && s[1] == '\'' && s[2..] == rest;
  }
}
