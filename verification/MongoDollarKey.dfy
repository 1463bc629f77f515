/** A distinct key that starts with `$`: the text passes layer 1, and the pipeline then names a variable. */
module MongoDollarKey {
  import opened Outcomes
  import opened Values
  import opened MongoSyntax
  import opened Json
  import opened Classifier
  import R = MongoRequests
  import C = MongoCommand
  import S = SampleMongo
  import T = MongoTexts

  /** `db.<collection>.distinct(<key>)`, the key printed in some style. */
  function DistinctText(style: Style, collection: string, key: string): string {
    T.QueryText(style, collection, "distinct", [JText(key)], [])
  }

  /** The pipeline of such a key groups by a variable of that name. */
  lemma DollarKeyIsAVariable(name: string)
    ensures C.Spell(C.GroupBy("$" + name))
            == Document([Field("$group", Document([Field("_id", String("$$" + name))]))])
  {
    assert "$" + ("$" + name) == "$$" + name;
  }

  lemma DistinctPasses(lib: Lib, lists: Lists, collection: string, key: string)
    ensures Classify(Rules(lib, lists, None), Request(collection, Distinct(key, []))) == Ok(())
  {
  }

  /** Layer 1 lets every such text through: `db.c.distinct("$x")` reaches the server as a variable. */
  lemma DollarKeyPasses(lib: Lib, lists: Lists, style: Style, path: seq<string>, name: string)
    requires S.KnowsAscii(lib) && S.IsCollection(lib, path) && Faithful(style) && '.' !in name
    requires Utf8Len(DistinctText(style, R.Join(path), "$" + name)) <= MAX_INPUT_BYTES
    ensures Check(lib, lists, DistinctText(style, R.Join(path), "$" + name), PiiRules({}, false))
         == Ok(Request(R.Join(path), Distinct("$" + name, [])))
  {
    var key := "$" + name;
    assert forall c :: c in key ==> c == '$' || c in name;
    assert [JText(key)] + [] == [JText(key)];
    T.DistinctMeans(lib, style, path, key, None, None);
    DistinctPasses(lib, lists, R.Join(path), key);
    S.PlainCheck(lib, lists, DistinctText(style, R.Join(path), key), Request(R.Join(path), Distinct(key, [])));
  }
}
