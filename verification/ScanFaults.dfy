/** Why a scan of the reply fails: the first fault on the way through the values, in their order. */
module ScanFaults {
  import opened Outcomes
  import opened MongoSyntax
  import opened Json
  import opened Classifier
  import opened Redaction

  /** A protected key under deny, or a value below the depth limit; whichever is come upon first. */
  function Fault(c: Rules, v: Json, d: nat): Option<Reason>
    requires c.pii.Some?
    decreases v, 0
  {
    if d > MAX_DEPTH then Some(PiiUnprovable)
    else
      match v
      case JObject(members) => FaultInMembers(c, members, d + 1)
      case JList(items) => FaultInItems(c, items, d + 1)
      case _ => None
  }

  function FaultInMember(c: Rules, m: Member, d: nat): Option<Reason>
    requires c.pii.Some?
    decreases m, 0
  {
    if !PathHit(c, m.key) then Fault(c, m.value, d) else if c.pii.value.mask then None else Some(PiiColumn)
  }

  function FaultInMembers(c: Rules, members: seq<Member>, d: nat): Option<Reason>
    requires c.pii.Some?
    decreases members, 1
  {
    if members == [] then None
    else if FaultInMember(c, members[0], d).Some? then FaultInMember(c, members[0], d)
    else FaultInMembers(c, members[1..], d)
  }

  function FaultInItems(c: Rules, items: seq<Json>, d: nat): Option<Reason>
    requires c.pii.Some?
    decreases items, 1
  {
    if items == [] then None
    else if Fault(c, items[0], d).Some? then Fault(c, items[0], d)
    else FaultInItems(c, items[1..], d)
  }

  function FaultInRows(c: Rules, rows: seq<seq<Json>>): Option<Reason>
    requires c.pii.Some?
  {
    if rows == [] then None
    else if FaultInItems(c, rows[0], 0).Some? then FaultInItems(c, rows[0], 0)
    else FaultInRows(c, rows[1..])
  }

  /** The first faulty value decides. */
  lemma {:induction false} FirstMemberDecides(c: Rules, members: seq<Member>, d: nat, k: nat)
    requires c.pii.Some? && k < |members| && FaultInMembers(c, members[..k], d) == None
    ensures var fault := FaultInMember(c, members[k], d);
            if fault.Some? then FaultInMembers(c, members, d) == fault
            else FaultInMembers(c, members[..k + 1], d) == None
  {
    if k == 0 {
      assert members[..1][0] == members[0] && members[..1][1..] == [];
    } else {
      assert members[..k][0] == members[0] && members[..k][1..] == members[1..][..k - 1];
      assert members[..k + 1][0] == members[0] && members[..k + 1][1..] == members[1..][..k];
      FirstMemberDecides(c, members[1..], d, k - 1);
    }
  }

  lemma {:induction false} FirstItemDecides(c: Rules, items: seq<Json>, d: nat, k: nat)
    requires c.pii.Some? && k < |items| && FaultInItems(c, items[..k], d) == None
    ensures var fault := Fault(c, items[k], d);
            if fault.Some? then FaultInItems(c, items, d) == fault else FaultInItems(c, items[..k + 1], d) == None
  {
    if k == 0 {
      assert items[..1][0] == items[0] && items[..1][1..] == [];
    } else {
      assert items[..k][0] == items[0] && items[..k][1..] == items[1..][..k - 1];
      assert items[..k + 1][0] == items[0] && items[..k + 1][1..] == items[1..][..k];
      FirstItemDecides(c, items[1..], d, k - 1);
    }
  }

  lemma {:induction false} FirstRowDecides(c: Rules, rows: seq<seq<Json>>, k: nat)
    requires c.pii.Some? && k < |rows| && FaultInRows(c, rows[..k]) == None
    ensures var fault := FaultInItems(c, rows[k], 0);
            if fault.Some? then FaultInRows(c, rows) == fault else FaultInRows(c, rows[..k + 1]) == None
  {
    if k == 0 {
      assert rows[..1][0] == rows[0] && rows[..1][1..] == [];
    } else {
      assert rows[..k][0] == rows[0] && rows[..k][1..] == rows[1..][..k - 1];
      assert rows[..k + 1][0] == rows[0] && rows[..k + 1][1..] == rows[1..][..k];
      FirstRowDecides(c, rows[1..], k - 1);
    }
  }

  // ----- what a fault says -----

  /** No fault: everything is shallow, and under deny nothing protected is met. A fault: one of the two fails. */
  predicate Tells(c: Rules, fault: Option<Reason>, shallow: bool, met: set<string>)
    requires c.pii.Some?
  {
    match fault
    case None => shallow && (c.pii.value.mask || met == {})
    case Some(reason) =>
      || (reason == PiiColumn && !c.pii.value.mask && met != {})
      || (reason == PiiUnprovable && !shallow)
  }

  lemma {:induction false} FaultTells(c: Rules, v: Json, d: nat)
    requires c.pii.Some?
    ensures Tells(c, Fault(c, v, d), Shallow(c, v, d), Met(c, v))
    decreases v, 0
  {
    if d <= MAX_DEPTH {
      match v {
        case JObject(members) => MemberFaultsTell(c, members, d + 1);
        case JList(items) => ItemFaultsTell(c, items, d + 1);
        case _ =>
      }
    }
  }

  predicate MemberShallow(c: Rules, m: Member, d: nat)
    requires c.pii.Some?
  {
    PathHit(c, m.key) || Shallow(c, m.value, d)
  }

  predicate MembersShallow(c: Rules, members: seq<Member>, d: nat)
    requires c.pii.Some?
  {
    forall i :: 0 <= i < |members| ==> MemberShallow(c, members[i], d)
  }

  lemma FirstAndRestShallow(c: Rules, members: seq<Member>, d: nat)
    requires c.pii.Some? && members != []
    ensures MembersShallow(c, members, d) <==> MemberShallow(c, members[0], d) && MembersShallow(c, members[1..], d)
  {
    assert forall i :: 0 < i < |members| ==> members[i] == members[1..][i - 1];
  }

  lemma {:induction false} MemberFaultTells(c: Rules, m: Member, d: nat)
    requires c.pii.Some?
    ensures Tells(c, FaultInMember(c, m, d), MemberShallow(c, m, d), MetInMember(c, m))
    decreases m, 1
  {
    if PathHit(c, m.key) {
      assert m.key in MetInMember(c, m);
    } else {
      FaultTells(c, m.value, d);
    }
  }

  lemma {:induction false} MemberFaultsTell(c: Rules, members: seq<Member>, d: nat)
    requires c.pii.Some?
    ensures Tells(c, FaultInMembers(c, members, d), MembersShallow(c, members, d), MetInMembers(c, members))
    decreases members, 1
  {
    if members != [] {
      MemberFaultTells(c, members[0], d);
      MemberFaultsTell(c, members[1..], d);
      FirstAndRestShallow(c, members, d);
    }
  }

  predicate ItemsShallow(c: Rules, items: seq<Json>, d: nat)
    requires c.pii.Some?
  {
    forall i :: 0 <= i < |items| ==> Shallow(c, items[i], d)
  }

  lemma {:induction false} ItemFaultsTell(c: Rules, items: seq<Json>, d: nat)
    requires c.pii.Some?
    ensures Tells(c, FaultInItems(c, items, d), ItemsShallow(c, items, d), MetInItems(c, items))
    decreases items, 1
  {
    if items != [] {
      FaultTells(c, items[0], d);
      ItemFaultsTell(c, items[1..], d);
      assert forall i :: 0 < i < |items| ==> items[i] == items[1..][i - 1];
    }
  }
}
