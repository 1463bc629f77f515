/** Whatever the grammar reads stays within the depth limit, so the walk's own limit never fires on it. */
module ParsedDepth {
  import opened Values
  import opened MongoSyntax
  import R = MongoRequests
  import opened WalkIsExact

  predicate AllFit(items: seq<Bson>, d: nat) {
    forall i :: 0 <= i < |items| ==> Fits(items[i], d)
  }

  predicate FieldsFit(fields: seq<Field>, d: nat) {
    forall i :: 0 <= i < |fields| ==> Fits(fields[i].value, d)
  }

  lemma {:induction false} ValueFits(lib: Lib, s: string, d: nat)
    ensures var r := Value(lib, s, d); r.Got? ==> Fits(r.value, d)
    decreases |s|, 1
  {
    if d <= MAX_DEPTH && SkipWs(s).Got? && SkipWs(s).rest != "" {
      var t := SkipWs(s).rest;
      if t[0] == '{' {
        DocumentFits(lib, t[1..], d);
      } else if t[0] == '[' {
        ListFits(lib, t[1..], d, ']');
      } else if IsIdentStart(t[0]) {
        WordFits(lib, t, d);
      }
    }
  }

  lemma {:induction false} ListFits(lib: Lib, s: string, d: nat, close: char)
    ensures var r := ListBody(lib, s, d, close); r.Got? ==> AllFit(r.value, d + 1)
    decreases |s|, 3
  {
    if SkipWs(s).Got? {
      ItemsFit(lib, SkipWs(s).rest, d, close, []);
    }
  }

  lemma {:induction false} ItemsFit(lib: Lib, s: string, d: nat, close: char, acc: seq<Bson>)
    requires AllFit(acc, d + 1)
    ensures var r := Items(lib, s, d, close, acc); r.Got? ==> AllFit(r.value, d + 1)
    decreases |s|, 2
  {
    ValueFits(lib, s, d + 1);
    var v := Value(lib, s, d + 1);
    if v.Got? && Separator(v.rest, close).Got? && Separator(v.rest, close).value {
      ItemsFit(lib, Separator(v.rest, close).rest, d, close, acc + [v.value]);
    }
  }

  lemma {:induction false} DocumentFits(lib: Lib, s: string, d: nat)
    requires d <= MAX_DEPTH
    ensures var r := DocumentBody(lib, s, d); r.Got? ==> Fits(r.value, d)
    decreases |s|, 4
  {
    if SkipWs(s).Got? {
      var t := SkipWs(s).rest;
      EntriesFit(lib, t, d, []);
      FinishFits(lib, [], d);
      if !At(t, '}') && Fields(lib, t, d, []).Got? {
        FinishFits(lib, Fields(lib, t, d, []).value, d);
      }
    }
  }

  lemma UnwrapIsScalar(lib: Lib, w: Wrapper, v: Bson)
    ensures var r := Unwrap(lib, w, v); r.Ok? ==> !r.value.Array? && !r.value.Document?
  {
  }

  lemma FinishFits(lib: Lib, fields: seq<Field>, d: nat)
    requires FieldsFit(fields, d + 1) && d <= MAX_DEPTH
    ensures var r := Finish(lib, fields); r.Ok? ==> Fits(r.value, d)
  {
    if |fields| == 1 && WrapperOf(fields[0].key).Some? {
      UnwrapIsScalar(lib, WrapperOf(fields[0].key).value, fields[0].value);
    }
  }

  lemma {:induction false} EntriesFit(lib: Lib, s: string, d: nat, acc: seq<Field>)
    requires FieldsFit(acc, d + 1)
    ensures var r := Fields(lib, s, d, acc); r.Got? ==> FieldsFit(r.value, d + 1)
    decreases |s|, 3
  {
    var f := Entry(lib, s, d, acc);
    if f.Got? {
      var t := EntrySteps(lib, s, d, acc);
      ValueFits(lib, t, d + 1);
      if Separator(f.rest, '}').Got? && Separator(f.rest, '}').value {
        EntriesFit(lib, Separator(f.rest, '}').rest, d, acc + [f.value]);
      }
    }
  }

  lemma EntrySteps(lib: Lib, s: string, d: nat, acc: seq<Field>) returns (t: string)
    requires Entry(lib, s, d, acc).Got?
    ensures |t| < |s| && Value(lib, t, d + 1).Got?
    ensures Entry(lib, s, d, acc).value.value == Value(lib, t, d + 1).value
  {
    t := Expect(FieldName(s).rest, ':').rest;
  }

  lemma {:induction false} ArgsFit(lib: Lib, s: string, d: nat)
    ensures var r := Args(lib, s, d); r.Got? ==> AllFit(r.value, d + 1)
    decreases |s|, 0
  {
    if d <= MAX_DEPTH && Expect(s, '(').Got? {
      ListFits(lib, Expect(s, '(').rest, d, ')');
    }
  }

  lemma ConstructIsScalar(lib: Lib, name: string, args: seq<Bson>)
    ensures var r := Construct(lib, name, args); r.Ok? ==> !r.value.Array? && !r.value.Document?
  {
  }

  lemma CtorIsScalar(lib: Lib, name: string, s: string, d: nat)
    ensures var r := Ctor(lib, name, s, d); r.Got? ==> !r.value.Array? && !r.value.Document?
  {
    if Args(lib, s, d).Got? {
      ConstructIsScalar(lib, name, Args(lib, s, d).value);
    }
  }

  lemma WordFits(lib: Lib, s: string, d: nat)
    requires s != "" && IsIdentStart(s[0]) && d <= MAX_DEPTH
    ensures var r := Word(lib, s, d); r.Got? ==> Fits(r.value, d)
  {
    var word, rest := s[..IdentLen(s)], s[IdentLen(s)..];
    CtorIsScalar(lib, word, rest, d);
    if SpacedIdent(rest).Got? {
      CtorIsScalar(lib, SpacedIdent(rest).value, SpacedIdent(rest).rest, d);
    }
  }

  // ----- requests -----

  lemma BuildOpFits(verb: string, args: seq<Bson>)
    requires AllFit(args, 1)
    ensures var r := R.BuildOp(verb, args); r.Ok? ==> RequestFits(Request("", r.value))
  {
  }

  lemma CallFits(lib: Lib, op: Op, name: string, before: string)
    requires RequestFits(Request("", op))
    ensures var args := Args(lib, before, 0);
            args.Got? && R.ApplyChain(op, name, args.value).Ok? ==>
              RequestFits(Request("", R.ApplyChain(op, name, args.value).value))
  {
    var args := Args(lib, before, 0);
    ArgsFit(lib, before, 0);
    if args.Got? {
      ApplyFits(op, name, args.value);
    }
  }

  lemma {:induction false} ChainFits(lib: Lib, s: string, op: Op)
    requires RequestFits(Request("", op))
    ensures var r := R.Chain(lib, s, op); r.Got? ==> RequestFits(Request("", r.value))
    decreases |s|
  {
    if R.Chain(lib, s, op).Got? && At(SkipWs(s).rest, '.') {
      var name, before := R.ChainStep(lib, s, op);
      var args := Args(lib, before, 0);
      CallFits(lib, op, name, before);
      ChainFits(lib, args.rest, R.ApplyChain(op, name, args.value).value);
    }
  }

  lemma ApplyFits(op: Op, name: string, args: seq<Bson>)
    requires RequestFits(Request("", op)) && AllFit(args, 1)
    ensures var r := R.ApplyChain(op, name, args); r.Ok? ==> RequestFits(Request("", r.value))
  {
    var r := R.ApplyChain(op, name, args);
    if r.Ok? && |args| == 1 {
      assert Fits(args[0], 1);
    }
  }

  lemma BuiltFits(lib: Lib, s: string, verb: string)
    ensures var args := Args(lib, s, 0);
            args.Got? && R.BuildOp(verb, args.value).Ok? ==> RequestFits(Request("", R.BuildOp(verb, args.value).value))
  {
    var args := Args(lib, s, 0);
    ArgsFit(lib, s, 0);
    if args.Got? && R.BuildOp(verb, args.value).Ok? {
      BuildOpFits(verb, args.value);
    }
  }

  lemma TailFits(lib: Lib, s: string, verb: string)
    ensures var r := R.Tail(lib, s, verb); r.Ok? ==> RequestFits(Request("", r.value))
  {
    if R.Tail(lib, s, verb).Ok? {
      R.TailSteps(lib, s, verb);
      BuiltFits(lib, s, verb);
      ChainFits(lib, Args(lib, s, 0).rest, R.BuildOp(verb, Args(lib, s, 0).value).value);
    }
  }

  /** A request that parses fits, one level to spare. */
  lemma ParsedRequestFits(lib: Lib, text: string)
    ensures var r := R.Parse(lib, text); r.Ok? ==> RequestFits(r.value)
  {
    var head := R.Head(lib, text);
    if head.Got? {
      TailFits(lib, head.rest, head.value.1);
    }
  }
}
