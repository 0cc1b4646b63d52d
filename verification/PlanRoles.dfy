/**
 * The roles, names and attributes a printed plan is read back with, spelled out: which
 * children are outer and inner, what a header makes of the node below it, and which
 * attribute line fills which field.
 */
module PlanRoles {
  import opened Common
  import opened PlanTree
  import opened PlanText
  import opened PlanLayout
  import opened PlanRules
  import Text

  // ----- attributes

  /** The last of the attribute lines with one of these keys. */
  function LastWith(attrs: seq<Attribute>, keys: set<string>): Option<Attribute> {
    if attrs == [] then None
    else
      var a := attrs[|attrs| - 1];
      if a.line.cut.Some? && a.line.cut.value.0 in keys then Some(a) else LastWith(attrs[..|attrs| - 1], keys)
  }

  /** Field f holds what the last line with one of the keys says, and nothing without one; long says whether it goes on below. */
  predicate Holds(shown: map<Field, string>, attrs: seq<Attribute>, f: Field, keys: set<string>, long: bool) {
    match LastWith(attrs, keys)
    case None => f !in shown
    case Some(a) =>
      f in shown && a.line.cut.Some?
      && shown[f] == if long then Wrapped(Text.Trim(a.line.cut.value.1), a.more) else Text.Trim(a.line.cut.value.1)
  }

  ghost predicate KeysOf(f: Field, keys: set<string>) {
    forall key :: key in keys <==> FieldOf(key) == Some(f)
  }

  lemma {:induction false} FieldHolds(attrs: seq<Attribute>, f: Field, keys: set<string>)
    requires forall i :: 0 <= i < |attrs| ==> attrs[i].line.cut.Some?
    requires KeysOf(f, keys)
    ensures Holds(Shown(attrs), attrs, f, keys, Wraps(f))
  {
    if attrs != [] {
      FieldHolds(attrs[..|attrs| - 1], f, keys);
    }
  }

  lemma FilterKeys()
    ensures KeysOf(Filter, {"Filter", "One-Time Filter"})
    ensures KeysOf(IndexCond, {"Index Cond", "TID Cond"})
  {
  }

  lemma JoinKeys()
    ensures KeysOf(RecheckCond, {"Recheck Cond"})
    ensures KeysOf(HashCond, {"Hash Cond"})
  {
  }

  lemma MergeKeys()
    ensures KeysOf(MergeCond, {"Merge Cond"})
    ensures KeysOf(JoinFilter, {"Join Filter"})
  {
  }

  lemma RowKeys()
    ensures KeysOf(RowsRemovedByFilter, {"Rows Removed by Filter"})
    ensures KeysOf(RowsRemovedByJoinFilter, {"Rows Removed by Join Filter"})
  {
  }

  lemma HeapKeys()
    ensures KeysOf(HeapFetches, {"Heap Fetches"})
    ensures KeysOf(HeapBlocks, {"Heap Blocks"})
  {
  }

  lemma WorkerKeys()
    ensures KeysOf(WorkersPlanned, {"Workers Planned"})
    ensures KeysOf(WorkersLaunched, {"Workers Launched"})
  {
  }

  lemma TextKeys()
    ensures KeysOf(SortKey, {"Sort Key"})
    ensures KeysOf(SortMethod, {"Sort Method"})
    ensures KeysOf(Buffers, {"Buffers"})
  {
  }

  /** Conditions by their keys, with the lines they wrap onto; the later of two lines for one field counts. */
  predicate ConditionsHold(shown: map<Field, string>, attrs: seq<Attribute>) {
    && Holds(shown, attrs, Filter, {"Filter", "One-Time Filter"}, true)
    && Holds(shown, attrs, IndexCond, {"Index Cond", "TID Cond"}, true)
    && Holds(shown, attrs, RecheckCond, {"Recheck Cond"}, true)
    && Holds(shown, attrs, HashCond, {"Hash Cond"}, true)
    && Holds(shown, attrs, MergeCond, {"Merge Cond"}, true)
    && Holds(shown, attrs, JoinFilter, {"Join Filter"}, true)
  }

  /** Numbers by their keys, from their own line alone. */
  predicate CountsHold(shown: map<Field, string>, attrs: seq<Attribute>) {
    && Holds(shown, attrs, RowsRemovedByFilter, {"Rows Removed by Filter"}, false)
    && Holds(shown, attrs, RowsRemovedByJoinFilter, {"Rows Removed by Join Filter"}, false)
    && Holds(shown, attrs, HeapFetches, {"Heap Fetches"}, false)
  }

  predicate BlocksHold(shown: map<Field, string>, attrs: seq<Attribute>) {
    && Holds(shown, attrs, HeapBlocks, {"Heap Blocks"}, false)
    && Holds(shown, attrs, WorkersPlanned, {"Workers Planned"}, false)
    && Holds(shown, attrs, WorkersLaunched, {"Workers Launched"}, false)
  }

  /** Other texts by their keys, from their own line alone. */
  predicate TextsHold(shown: map<Field, string>, attrs: seq<Attribute>) {
    && Holds(shown, attrs, SortKey, {"Sort Key"}, false)
    && Holds(shown, attrs, SortMethod, {"Sort Method"}, false)
    && Holds(shown, attrs, Buffers, {"Buffers"}, false)
  }

  predicate AttrsHold(shown: map<Field, string>, attrs: seq<Attribute>) {
    ConditionsHold(shown, attrs) && CountsHold(shown, attrs) && BlocksHold(shown, attrs) && TextsHold(shown, attrs)
  }

  lemma AttrsReadBack(attrs: seq<Attribute>)
    requires forall i :: 0 <= i < |attrs| ==> attrs[i].line.cut.Some?
    ensures AttrsHold(Shown(attrs), attrs)
  {
    ConditionsRead(attrs);
    CountsRead(attrs);
    BlocksRead(attrs);
    TextsRead(attrs);
  }

  lemma ConditionsRead(attrs: seq<Attribute>)
    requires forall i :: 0 <= i < |attrs| ==> attrs[i].line.cut.Some?
    ensures ConditionsHold(Shown(attrs), attrs)
  {
    FilterKeys();
    FieldHolds(attrs, Filter, {"Filter", "One-Time Filter"});
    FieldHolds(attrs, IndexCond, {"Index Cond", "TID Cond"});
    JoinKeys();
    FieldHolds(attrs, RecheckCond, {"Recheck Cond"});
    FieldHolds(attrs, HashCond, {"Hash Cond"});
    MergeKeys();
    FieldHolds(attrs, MergeCond, {"Merge Cond"});
    FieldHolds(attrs, JoinFilter, {"Join Filter"});
  }

  lemma CountsRead(attrs: seq<Attribute>)
    requires forall i :: 0 <= i < |attrs| ==> attrs[i].line.cut.Some?
    ensures CountsHold(Shown(attrs), attrs)
  {
    RowKeys();
    FieldHolds(attrs, RowsRemovedByFilter, {"Rows Removed by Filter"});
    FieldHolds(attrs, RowsRemovedByJoinFilter, {"Rows Removed by Join Filter"});
    HeapKeys();
    FieldHolds(attrs, HeapFetches, {"Heap Fetches"});
  }

  lemma BlocksRead(attrs: seq<Attribute>)
    requires forall i :: 0 <= i < |attrs| ==> attrs[i].line.cut.Some?
    ensures BlocksHold(Shown(attrs), attrs)
  {
    HeapKeys();
    WorkerKeys();
    FieldHolds(attrs, HeapBlocks, {"Heap Blocks"});
    FieldHolds(attrs, WorkersPlanned, {"Workers Planned"});
    FieldHolds(attrs, WorkersLaunched, {"Workers Launched"});
  }

  lemma TextsRead(attrs: seq<Attribute>)
    requires forall i :: 0 <= i < |attrs| ==> attrs[i].line.cut.Some?
    ensures TextsHold(Shown(attrs), attrs)
  {
    TextKeys();
    FieldHolds(attrs, SortKey, {"Sort Key"});
    FieldHolds(attrs, SortMethod, {"Sort Method"});
    FieldHolds(attrs, Buffers, {"Buffers"});
  }

  // ----- roles

  /** A kid without a header. */
  predicate Plain(p: Printed) {
    p.header.None?
  }

  /** How many of the first i kids stand without a header. */
  function PlainBefore(kids: seq<Printed>, i: nat): nat
    requires i <= |kids|
  {
    if i == 0 then 0 else PlainBefore(kids, i - 1) + (if Plain(kids[i - 1]) then 1 else 0)
  }

  lemma {:induction false} PlainCounted(kids: seq<Printed>, i: nat)
    requires i <= |kids|
    ensures |PlainOnes(kids[..i])| == PlainBefore(kids, i)
  {
    if i > 0 {
      PlainCounted(kids, i - 1);
      assert kids[..i][..i - 1] == kids[..i - 1];
    }
  }

  /** The role of the i-th kid below a node of this type. */
  predicate RoleIs(typ: string, kids: seq<Printed>, i: nat, role: string)
    requires i < |kids|
  {
    match kids[i].header
    case Some(h) => role == (if |h.text| >= 7 && h.text[..7] == "SubPlan" then "SubPlan" else "InitPlan")
    case None =>
      if typ == "Append" || typ == "Merge Append" || typ == "BitmapAnd" || typ == "BitmapOr" then role == "Member"
      else if typ == "Subquery Scan" then role == "Subquery"
      else role == (if PlainBefore(kids, i) == 0 then "Outer" else if PlainBefore(kids, i) == 1 then "Inner" else "Member")
  }

  /** Every node of t stands in the place, and has the role, the subplan name and the attributes, that p calls for. */
  predicate ReadAs(t: Node, p: Printed) {
    && p.line.node.Some? && t.info == p.line.node.value && |t.children| == |p.kids|
    && AttrsHold(t.attrs, p.attrs)
    && (forall i :: 0 <= i < |p.kids| ==> RoleIs(t.info.typ, p.kids, i, t.children[i].parentRel))
    && (forall i :: 0 <= i < |p.kids| ==> t.children[i].subplanName == match p.kids[i].header case Some(h) => h.text case None => "")
    && forall i :: 0 <= i < |p.kids| ==> ReadAs(t.children[i], p.kids[i])
  }

  lemma {:induction false} KidsOfAt(typ: string, kids: seq<Printed>, i: nat)
    requires i < |kids| && forall k :: 0 <= k < |kids| ==> Formed(kids[k])
    ensures KidsOf(typ, kids)[i] == TreeOf(kids[i], RoleOf(typ, kids[..i], kids[i]))
    decreases |kids|
  {
    var front := kids[..|kids| - 1];
    if i < |front| {
      KidsOfAt(typ, front, i);
      assert front[..i] == kids[..i];
    }
  }

  lemma RoleSpelled(typ: string, kids: seq<Printed>, i: nat)
    requires i < |kids|
    ensures RoleIs(typ, kids, i, RoleOf(typ, kids[..i], kids[i]))
  {
    PlainCounted(kids, i);
    if kids[i].header.Some? {
      HeaderRole(kids[i].header.value.text);
    }
  }

  lemma HeaderRole(h: string)
    ensures SubplanRole(h) == if |h| >= 7 && h[..7] == "SubPlan" then "SubPlan" else "InitPlan"
  {
    assert "SubPlan" <= h <==> |h| >= 7 && h[..7] == "SubPlan";
  }

  lemma {:induction false} TreeReadAs(p: Printed, role: string)
    requires Formed(p)
    ensures ReadAs(TreeOf(p, role), p)
    decreases p
  {
    var t := TreeOf(p, role);
    AttrsReadBack(p.attrs);
    forall i | 0 <= i < |p.kids|
      ensures RoleIs(t.info.typ, p.kids, i, t.children[i].parentRel) && ReadAs(t.children[i], p.kids[i])
      ensures t.children[i].subplanName == match p.kids[i].header case Some(h) => h.text case None => ""
    {
      KidsOfAt(t.info.typ, p.kids, i);
      RoleSpelled(t.info.typ, p.kids, i);
      TreeReadAs(p.kids[i], RoleOf(t.info.typ, p.kids[..i], p.kids[i]));
    }
  }

  /** What the parser makes of a printed plan: every node under its own parent, with its place, role, subplan name and attributes. */
  lemma RolesReadBack(before: seq<Line>, p: Printed, after: seq<Line>)
    requires WellPrintedPlan(before, p, after)
    ensures var r := Parse(before + Lines(p) + after); r.Ok? && ReadAs(r.value.tree, p)
  {
    RoundTrip(before, p, after);
    TreeReadAs(p, "");
  }

  // ----- the sides of a join

  /** Among the kids, i is the n-th one without a header. */
  predicate NthPlain(kids: seq<Printed>, i: nat, n: nat) {
    i < |kids| && Plain(kids[i]) && PlainBefore(kids, i) == n
  }

  /** A type whose children are told apart by position. */
  predicate Sided(typ: string) {
    typ != "Append" && typ != "Merge Append" && typ != "BitmapAnd" && typ != "BitmapOr" && typ != "Subquery Scan"
  }

  lemma {:induction false} PlainBeforeGrows(kids: seq<Printed>, i: nat, j: nat)
    requires i <= j <= |kids|
    ensures PlainBefore(kids, i) <= PlainBefore(kids, j)
    ensures i < j && Plain(kids[i]) ==> PlainBefore(kids, i) < PlainBefore(kids, j)
  {
    if i < j {
      PlainBeforeGrows(kids, i, j - 1);
    }
  }

  lemma SidesAt(t: Node, p: Printed, i: nat)
    requires ReadAs(t, p) && Sided(t.info.typ) && i < |p.kids|
    ensures t.children[i].parentRel == "Outer" <==> NthPlain(p.kids, i, 0)
    ensures t.children[i].parentRel == "Inner" <==> NthPlain(p.kids, i, 1)
  {
    assert RoleIs(t.info.typ, p.kids, i, t.children[i].parentRel);
    RolesDiffer();
  }

  lemma RolesDiffer()
    ensures "Outer" != "Inner" && "Outer" != "Member" && "Inner" != "Member" && "SubPlan" != "Outer" && "SubPlan" != "Inner"
    ensures "InitPlan" != "Outer" && "InitPlan" != "Inner"
  {
    assert "Outer"[0] == 'O' && "Inner"[1] == 'n' && "Member"[0] == 'M' && "SubPlan"[0] == 'S' && "InitPlan"[2] == 'i' && "Inner"[2] == 'n';
    assert |"Inner"| == 5 && |"InitPlan"| == 8;
  }

  /** The sides of a join are its first and its second child without a header, wherever SubPlans and InitPlans stand. */
  lemma SidesReadBack(t: Node, p: Printed)
    requires ReadAs(t, p) && Sided(t.info.typ)
    ensures var o := SideAt(t, "Outer", 0); if o < |t.children| then NthPlain(p.kids, o, 0) else forall i :: 0 <= i < |p.kids| ==> !Plain(p.kids[i])
    ensures var n := SideAt(t, "Inner", 0); if n < |t.children| then NthPlain(p.kids, n, 1) else forall i :: 0 <= i < |p.kids| ==> !NthPlain(p.kids, i, 1)
  {
    forall i | 0 <= i < |p.kids|
      ensures t.children[i].parentRel == "Outer" <==> NthPlain(p.kids, i, 0)
      ensures t.children[i].parentRel == "Inner" <==> NthPlain(p.kids, i, 1)
    {
      SidesAt(t, p, i);
    }
    if SideAt(t, "Outer", 0) == |t.children| {
      NoPlain(p.kids, |p.kids|);
    }
  }

  lemma {:induction false} NoPlain(kids: seq<Printed>, n: nat)
    requires n <= |kids| && forall i :: 0 <= i < |kids| ==> !NthPlain(kids, i, 0)
    ensures PlainBefore(kids, n) == 0 && forall i :: 0 <= i < n ==> !Plain(kids[i])
  {
    if n > 0 {
      NoPlain(kids, n - 1);
      assert !NthPlain(kids, n - 1, 0);
    }
  }

  /** There is only one n-th. */
  lemma NthPlainOnce(kids: seq<Printed>, i: nat, j: nat, n: nat)
    requires NthPlain(kids, i, n) && NthPlain(kids, j, n)
    ensures i == j
  {
    if i < j {
      PlainBeforeGrows(kids, i, j);
    } else if j < i {
      PlainBeforeGrows(kids, j, i);
    }
  }
}
