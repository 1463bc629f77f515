/** Net B as a function of the result: what is withheld, what is kept, and which names were met. */
module Redaction {
  import opened Outcomes
  import opened MongoSyntax
  import opened Json
  import opened Classifier
  import opened CleanTrees

  const REDACTED := JText("[REDACTED]")

  /** The tree with every value under a protected key replaced, at every depth. */
  function Redact(c: Rules, v: Json): Json
    requires c.pii.Some?
    decreases v, 0
  {
    match v
    case JObject(members) => JObject(RedactMembers(c, members))
    case JList(items) => JList(RedactItems(c, items))
    case _ => v
  }

  function RedactMember(c: Rules, m: Member): Member
    requires c.pii.Some?
    decreases m, 0
  {
    Member(m.key, if PathHit(c, m.key) then REDACTED else Redact(c, m.value))
  }

  function RedactMembers(c: Rules, members: seq<Member>): (r: seq<Member>)
    requires c.pii.Some?
    ensures |r| == |members|
    ensures forall i :: 0 <= i < |r| ==> r[i] == RedactMember(c, members[i])
    decreases members, 1
  {
    if members == [] then [] else [RedactMember(c, members[0])] + RedactMembers(c, members[1..])
  }

  function RedactItems(c: Rules, items: seq<Json>): (r: seq<Json>)
    requires c.pii.Some?
    ensures |r| == |items|
    ensures forall i :: 0 <= i < |r| ==> r[i] == Redact(c, items[i])
    decreases items, 1
  {
    if items == [] then [] else [Redact(c, items[0])] + RedactItems(c, items[1..])
  }

  /** The protected keys met on the way down, none of them below another. */
  function Met(c: Rules, v: Json): set<string>
    requires c.pii.Some?
    decreases v, 0
  {
    match v
    case JObject(members) => MetInMembers(c, members)
    case JList(items) => MetInItems(c, items)
    case _ => {}
  }

  function MetInMember(c: Rules, m: Member): set<string>
    requires c.pii.Some?
    decreases m, 0
  {
    if PathHit(c, m.key) then {m.key} else Met(c, m.value)
  }

  function MetInMembers(c: Rules, members: seq<Member>): set<string>
    requires c.pii.Some?
    decreases members, 1
  {
    if members == [] then {} else MetInMember(c, members[0]) + MetInMembers(c, members[1..])
  }

  function MetInItems(c: Rules, items: seq<Json>): set<string>
    requires c.pii.Some?
    decreases items, 1
  {
    if items == [] then {} else Met(c, items[0]) + MetInItems(c, items[1..])
  }

  /** Nothing that has to be looked at lies below the depth limit. */
  predicate Shallow(c: Rules, v: Json, d: nat)
    requires c.pii.Some?
    decreases v
  {
    && d <= MAX_DEPTH
    && match v
       case JObject(members) =>
         forall i :: 0 <= i < |members| ==> PathHit(c, members[i].key) || Shallow(c, members[i].value, d + 1)
       case JList(items) => forall i :: 0 <= i < |items| ==> Shallow(c, items[i], d + 1)
       case _ => true
  }

  // ----- what redaction does, node by node -----

  function SubJson(v: Json, path: Path): Option<Json>
    decreases |path|
  {
    if path == [] then Some(v)
    else
      match path[0]
      case Into(i, key) =>
        if v.JObject? && i < |v.members| && v.members[i].key == key then SubJson(v.members[i].value, path[1..])
        else None
      case Item(i) =>
        if v.JList? && i < |v.items| then SubJson(v.items[i], path[1..]) else None
  }

  /** No hop of the path goes through a protected key. */
  predicate Open(c: Rules, path: Path)
    requires c.pii.Some?
  {
    forall k :: 0 <= k < |path| && path[k].Into? ==> !PathHit(c, path[k].key)
  }

  /**
   Off the protected keys the tree keeps its shape: the same paths lead somewhere, and to the
   redaction of what was there.
   */
  lemma {:induction false} RedactKeepsOpenPaths(c: Rules, v: Json, path: Path)
    requires c.pii.Some? && Open(c, path)
    ensures SubJson(Redact(c, v), path)
            == match SubJson(v, path)
               case Some(w) => Some(Redact(c, w))
               case None => None
    decreases |path|
  {
    if path != [] {
      assert forall k :: 0 <= k < |path| - 1 ==> path[1..][k] == path[k + 1];
      match path[0]
      case Into(i, key) =>
        if v.JObject? && i < |v.members| && v.members[i].key == key {
          RedactKeepsOpenPaths(c, v.members[i].value, path[1..]);
        }
      case Item(i) =>
        if v.JList? && i < |v.items| {
          RedactKeepsOpenPaths(c, v.items[i], path[1..]);
        }
    }
  }

  /** At a protected key there is the marker and nothing below it. */
  lemma {:induction false} RedactHidesProtected(c: Rules, v: Json, path: Path, i: nat, key: string, below: Path)
    requires c.pii.Some? && Open(c, path) && PathHit(c, key)
    ensures SubJson(Redact(c, v), path + [Into(i, key)] + below)
            == if SubJson(v, path + [Into(i, key)]).Some? && below == [] then Some(REDACTED) else None
    decreases |path|
  {
    var full := path + [Into(i, key)] + below;
    if path == [] {
      assert full[0] == Into(i, key) && full[1..] == below;
      assert path + [Into(i, key)] == [Into(i, key)];
      assert [Into(i, key)][1..] == [];
    } else {
      assert full[0] == path[0] && full[1..] == path[1..] + [Into(i, key)] + below;
      assert (path + [Into(i, key)])[0] == path[0] && (path + [Into(i, key)])[1..] == path[1..] + [Into(i, key)];
      assert forall k :: 0 <= k < |path| - 1 ==> path[1..][k] == path[k + 1];
      match path[0]
      case Into(k, name) =>
        if v.JObject? && k < |v.members| && v.members[k].key == name {
          RedactHidesProtected(c, v.members[k].value, path[1..], i, key, below);
        }
      case Item(k) =>
        if v.JList? && k < |v.items| {
          RedactHidesProtected(c, v.items[k], path[1..], i, key, below);
        }
    }
  }

  /** A protected key stands at the end of an open path. */
  ghost predicate Meets(c: Rules, v: Json, name: string)
    requires c.pii.Some?
  {
    PathHit(c, name) && exists path: Path, i: nat :: MeetsAt(c, v, path, i, name)
  }

  predicate MeetsAt(c: Rules, v: Json, path: Path, i: nat, name: string)
    requires c.pii.Some?
  {
    Open(c, path) && SubJson(v, path).Some? && HasMember(SubJson(v, path).value, i, name)
  }

  predicate HasMember(v: Json, i: nat, name: string) {
    v.JObject? && i < |v.members| && v.members[i].key == name
  }

  /** The names returned are exactly the outermost protected keys of the result. */
  lemma MetIsExact(c: Rules, v: Json, name: string)
    requires c.pii.Some?
    ensures name in Met(c, v) <==> Meets(c, v, name)
  {
    if name in Met(c, v) {
      MetIsMet(c, v, name);
    }
    if Meets(c, v, name) {
      var path: Path, i: nat :| MeetsAt(c, v, path, i, name);
      MeetingIsMet(c, v, path, i, name);
    }
  }

  lemma {:induction false} MeetingIsMet(c: Rules, v: Json, path: Path, i: nat, name: string)
    requires c.pii.Some? && PathHit(c, name) && MeetsAt(c, v, path, i, name)
    ensures name in Met(c, v)
    decreases |path|
  {
    if path == [] {
      MemberMet(c, v.members, i);
    } else {
      assert forall k :: 0 <= k < |path| - 1 ==> path[1..][k] == path[k + 1];
      match path[0] {
        case Into(k, key) =>
          assert !PathHit(c, key);
          MeetingIsMet(c, v.members[k].value, path[1..], i, name);
          MemberMet(c, v.members, k);
        case Item(k) =>
          MeetingIsMet(c, v.items[k], path[1..], i, name);
          ItemMet(c, v.items, k);
      }
    }
  }

  lemma {:induction false} MemberMet(c: Rules, members: seq<Member>, i: nat)
    requires c.pii.Some? && i < |members|
    ensures MetInMember(c, members[i]) <= MetInMembers(c, members)
  {
    if i > 0 {
      MemberMet(c, members[1..], i - 1);
    }
  }

  lemma {:induction false} ItemMet(c: Rules, items: seq<Json>, i: nat)
    requires c.pii.Some? && i < |items|
    ensures Met(c, items[i]) <= MetInItems(c, items)
  {
    if i > 0 {
      ItemMet(c, items[1..], i - 1);
    }
  }

  lemma {:induction false} MetIsMet(c: Rules, v: Json, name: string)
    requires c.pii.Some? && name in Met(c, v)
    ensures Meets(c, v, name)
    decreases v
  {
    match v {
      case JObject(members) =>
        var i := MetMember(c, members, name);
        if PathHit(c, members[i].key) {
          assert SubJson(v, []) == Some(v);
          assert MeetsAt(c, v, [], i, name);
        } else {
          MetIsMet(c, members[i].value, name);
          MeetsBelow(c, v, Into(i, members[i].key), members[i].value, name);
        }
      case JList(items) =>
        var i := MetItem(c, items, name);
        MetIsMet(c, items[i], name);
        MeetsBelow(c, v, Item(i), items[i], name);
    }
  }

  lemma MeetsBelow(c: Rules, v: Json, hop: Hop, child: Json, name: string)
    requires c.pii.Some? && Meets(c, child, name)
    requires forall q: Path :: SubJson(v, [hop] + q) == SubJson(child, q)
    requires hop.Into? ==> !PathHit(c, hop.key)
    ensures Meets(c, v, name)
  {
    var path: Path, i: nat :| MeetsAt(c, child, path, i, name);
    assert SubJson(v, [hop] + path) == SubJson(child, path);
    assert Open(c, [hop] + path);
    assert MeetsAt(c, v, [hop] + path, i, name);
  }

  lemma {:induction false} MetMember(c: Rules, members: seq<Member>, name: string) returns (i: nat)
    requires c.pii.Some? && name in MetInMembers(c, members)
    ensures i < |members| && name in MetInMember(c, members[i])
  {
    if name in MetInMember(c, members[0]) {
      i := 0;
    } else {
      i := MetMember(c, members[1..], name);
      i := i + 1;
    }
  }

  lemma {:induction false} MetItem(c: Rules, items: seq<Json>, name: string) returns (i: nat)
    requires c.pii.Some? && name in MetInItems(c, items)
    ensures i < |items| && name in Met(c, items[i])
  {
    if name in Met(c, items[0]) {
      i := 0;
    } else {
      i := MetItem(c, items[1..], name);
      i := i + 1;
    }
  }

  // ----- a second scan -----

  /** Redacting once is enough, and does not hide which names were met. */
  lemma {:induction false} RedactTwice(c: Rules, v: Json)
    requires c.pii.Some?
    ensures Redact(c, Redact(c, v)) == Redact(c, v) && Met(c, Redact(c, v)) == Met(c, v)
    decreases v, 0
  {
    match v {
      case JObject(members) => RedactMembersTwice(c, members);
      case JList(items) => RedactItemsTwice(c, items);
      case _ =>
    }
  }

  lemma {:induction false} RedactMembersTwice(c: Rules, members: seq<Member>)
    requires c.pii.Some?
    ensures RedactMembers(c, RedactMembers(c, members)) == RedactMembers(c, members)
    ensures MetInMembers(c, RedactMembers(c, members)) == MetInMembers(c, members)
    decreases members, 1
  {
    if members != [] {
      RedactTwice(c, members[0].value);
      RedactMembersTwice(c, members[1..]);
      assert RedactMembers(c, members)[1..] == RedactMembers(c, members[1..]);
    }
  }

  lemma {:induction false} RedactItemsTwice(c: Rules, items: seq<Json>)
    requires c.pii.Some?
    ensures RedactItems(c, RedactItems(c, items)) == RedactItems(c, items)
    ensures MetInItems(c, RedactItems(c, items)) == MetInItems(c, items)
    decreases items, 1
  {
    if items != [] {
      RedactTwice(c, items[0]);
      RedactItemsTwice(c, items[1..]);
      assert RedactItems(c, items)[1..] == RedactItems(c, items[1..]);
    }
  }

  lemma HitIsMet(c: Rules, m: Member)
    requires c.pii.Some? && PathHit(c, m.key)
    ensures m.key in MetInMember(c, m)
  {
  }

  /** A tree in which no protected key is met is its own redaction. */
  lemma {:induction false} NothingMetNothingChanged(c: Rules, v: Json)
    requires c.pii.Some? && Met(c, v) == {}
    ensures Redact(c, v) == v
    decreases v, 0
  {
    match v {
      case JObject(members) =>
        forall i | 0 <= i < |members| ensures RedactMember(c, members[i]) == members[i] {
          MemberMet(c, members, i);
          if PathHit(c, members[i].key) {
            HitIsMet(c, members[i]);
          }
          NothingMetNothingChanged(c, members[i].value);
        }
        assert RedactMembers(c, members) == members;
      case JList(items) =>
        forall i | 0 <= i < |items| ensures Redact(c, items[i]) == items[i] {
          ItemMet(c, items, i);
          NothingMetNothingChanged(c, items[i]);
        }
        assert RedactItems(c, items) == items;
      case _ =>
    }
  }
}
