/**
 * Which printed plans are read back: exactly those whose siblings are separated. A node
 * that is not becomes a descendant of the sibling before it, and then the depths of all
 * nodes together exceed those of the printed tree.
 */
module PlanSeparation {
  import opened Common
  import opened PlanTree
  import opened PlanText
  import opened PlanLayout

  // ----- depths

  /** The depths of all nodes of t added up, t itself being at depth d. */
  function Depths(t: Node, d: nat): nat
    decreases t, 0
  {
    d + ForestDepths(t.children, d + 1)
  }

  function ForestDepths(ns: seq<Node>, d: nat): nat
    decreases ns, 1
  {
    if ns == [] then 0 else ForestDepths(ns[..|ns| - 1], d) + Depths(ns[|ns| - 1], d)
  }

  /** The depths a printed node stands for. */
  function Weight(p: Printed, d: nat): nat
    decreases p, 0
  {
    d + KidWeights(p.kids, d + 1)
  }

  function KidWeights(kids: seq<Printed>, d: nat): nat
    decreases kids, 1
  {
    if kids == [] then 0 else KidWeights(kids[..|kids| - 1], d) + Weight(kids[|kids| - 1], d)
  }

  lemma {:induction false} WeightGrows(p: Printed, d: nat, e: nat)
    requires d < e
    ensures Weight(p, d) < Weight(p, e)
    decreases p, 0
  {
    KidWeightsGrow(p.kids, d + 1, e + 1);
  }

  lemma {:induction false} KidWeightsGrow(kids: seq<Printed>, d: nat, e: nat)
    requires d < e
    ensures KidWeights(kids, d) <= KidWeights(kids, e)
    decreases kids, 1
  {
    if kids != [] {
      KidWeightsGrow(kids[..|kids| - 1], d, e);
      WeightGrows(kids[|kids| - 1], d, e);
    }
  }

  /** The printed tree has the depths the print stands for. */
  lemma {:induction false} TreeDepths(p: Printed, role: string, d: nat)
    requires Formed(p)
    ensures Depths(TreeOf(p, role), d) == Weight(p, d)
    decreases p, 0
  {
    KidsDepths(p.line.node.value.typ, p.kids, d + 1);
  }

  lemma {:induction false} KidsDepths(typ: string, kids: seq<Printed>, d: nat)
    requires forall i :: 0 <= i < |kids| ==> Formed(kids[i])
    ensures ForestDepths(KidsOf(typ, kids), d) == KidWeights(kids, d)
    decreases kids, 1
  {
    if kids != [] {
      var front, last := kids[..|kids| - 1], kids[|kids| - 1];
      var ns := KidsOf(typ, kids);
      KidsDepths(typ, front, d);
      assert ns[..|ns| - 1] == KidsOf(typ, front);
      TreeDepths(last, RoleOf(typ, front, last), d);
    }
  }

  /** Replacing a node of the spine changes the depths by those of the node. */
  lemma {:induction false} DepthsPut(t: Node, k: nat, n: Node, d: nat)
    requires Deep(t, k)
    ensures Depths(PutAt(t, k, n), d) + Depths(SpineAt(t, k), d + k) == Depths(t, d) + Depths(n, d + k)
  {
    if k > 0 {
      var t' := PutAt(t, k, n);
      DepthsPut(t.children[|t.children| - 1], k - 1, n, d + 1);
      assert t'.children[..|t'.children| - 1] == t.children[..|t.children| - 1];
    }
  }

  function DepthOf(s: State): nat {
    Depths(s.tree, 0)
  }

  // ----- one line

  /** A node line puts its node as deep as there are frames left below it. */
  lemma NodeLineDepth(s: State, line: Line)
    requires Valid(s) && !s.inTail && !IsBlank(line) && line.node.Some?
    ensures var s', popped := Step(s, line), Pop(s.frames, line.indent);
      && DepthOf(s') == DepthOf(s) + |popped| && s'.frames == popped + [Meta(line.indent, -1, "")]
      && s'.pending == "" && !s'.inTail && s'.tail == s.tail && s'.rootIndent == s.rootIndent
  {
    var j := |Pop(s.frames, line.indent)| - 1;
    var n := Top(s, line.indent);
    var n' := AddChild(n, line.node.value, s.pending);
    SpineShrinks(s.tree, |s.frames| - 1, j);
    DepthsPut(s.tree, j, n', 0);
    LeafAdded(n, n', j);
    assert Step(s, line) == NodeStep(s, line.indent, line.node.value);
  }

  lemma LeafAdded(n: Node, n': Node, d: nat)
    requires |n'.children| == |n.children| + 1 && n'.children[..|n.children|] == n.children && n'.children[|n.children|].children == []
    ensures Depths(n', d) == Depths(n, d) + d + 1
  {
    var leaf := n'.children[|n.children|];
    assert ForestDepths(leaf.children, d + 2) == 0;
    assert Depths(leaf, d + 1) == d + 1;
    assert n'.children[..|n'.children| - 1] == n.children;
  }

  lemma AttrsKeepDepths(t: Node, k: nat, attrs: map<Field, string>)
    requires Deep(t, k)
    ensures Depths(PutAt(t, k, SpineAt(t, k).(attrs := attrs)), 0) == Depths(t, 0)
  {
    DepthsPut(t, k, SpineAt(t, k).(attrs := attrs), 0);
  }

  lemma ChangedDepth(s: State, s': State, j: nat, f: Meta, attrs: map<Field, string>)
    requires Open(s, j) && Changed(s, s', f, Here(s).(attrs := attrs)) && f.indent == s.frames[j].indent
    ensures DepthOf(s') == DepthOf(s) && s'.tail == s.tail && s'.rootIndent == s.rootIndent && SameIndents(s, s', j)
  {
    AttrsKeepDepths(s.tree, j, attrs);
  }

  /** Attribute lines of the open node move nothing. */
  lemma AttrLinesDepth(s: State, j: nat, lines: seq<Line>)
    requires Open(s, j) && forall k :: 0 <= k < |lines| ==> PlainLine(lines[k]) && lines[k].indent > s.frames[j].indent
    ensures var s' := Run(s, lines);
      && Open(s', j) && DepthOf(s') == DepthOf(s) && s'.tail == s.tail && s'.rootIndent == s.rootIndent && SameIndents(s, s', j)
  {
    var (f, attrs) := ApplyAll(s.frames[j], Here(s).attrs, lines);
    var s' := Run(s, lines);
    AttrLinesHere(s, j, lines);
    ChangedKeepsOpen(s, s', j, f, Here(s).(attrs := attrs));
    ChangedDepth(s, s', j, f, attrs);
  }

  /** The frames up to f are where they were. */
  predicate SameIndents(s: State, s': State, f: nat) {
    f < |s.frames| && f < |s'.frames| && forall k :: 0 <= k <= f ==> s'.frames[k].indent == s.frames[k].indent
  }

  // ----- whole nodes

  /** p can be read below frame f. */
  ghost predicate Below(s: State, f: nat, p: Printed) {
    && Valid(s) && !s.inTail && s.pending == "" && f < |s.frames| && s.rootIndent <= s.frames[f].indent
    && HeadBelow(p, s.frames[f].indent) && Formed(p)
  }

  /** From s to s' the frames up to f stayed and at least weight was added. */
  ghost predicate Deepened(s: State, s': State, f: nat, weight: nat) {
    && Valid(s') && !s'.inTail && s'.pending == "" && s'.tail == s.tail && s'.rootIndent == s.rootIndent
    && SameIndents(s, s', f) && DepthOf(s') >= DepthOf(s) + weight
  }

  predicate At(s: State, f: nat, indent: nat) {
    f < |s.frames| && s.frames[f].indent == indent
  }

  lemma HeaderPops(s: State, f: nat, p: Printed)
    requires Below(s, f, p) && p.header.Some?
    ensures var s1 := Step(s, p.header.value);
      && s1 == s.(pending := p.header.value.text, frames := s1.frames) && f < |s1.frames| && s1.frames == s.frames[..|s1.frames|]
  {
    PopStops(s.frames, f, p.header.value.indent);
  }

  /** The node line of p: at depth g, which is more than f. */
  lemma LineDeep(s: State, f: nat, p: Printed) returns (g: nat)
    requires Below(s, f, p)
    ensures var s1 := if p.header.Some? then Step(s, p.header.value) else s;
      var s2 := Step(s1, p.line);
      && f < g && Open(s2, g) && s2.frames[g] == Meta(p.line.indent, -1, "") && DepthOf(s2) == DepthOf(s) + g
      && SameIndents(s, s2, f) && s2.tail == s.tail && s2.rootIndent == s.rootIndent
  {
    var s1 := s;
    if p.header.Some? {
      HeaderPops(s, f, p);
      s1 := Step(s, p.header.value);
      assert s1.frames[f] == s.frames[f];
    }
    PopStops(s1.frames, f, p.line.indent);
    NodeLineDepth(s1, p.line);
    g := |Pop(s1.frames, p.line.indent)|;
    assert Pop(s1.frames, p.line.indent) == s1.frames[..g];
  }

  /** A printed node adds at least its weight, and no more only when it stands right below frame f and is separated. */
  lemma {:induction false} PrintedDeep(s: State, f: nat, p: Printed)
    requires Below(s, f, p)
    ensures var s' := Run(s, Lines(p));
      && Deepened(s, s', f, Weight(p, f + 1))
      && (DepthOf(s') == DepthOf(s) + Weight(p, f + 1) ==> Separated(p) && At(s', f + 1, p.line.indent))
    decreases p, 2
  {
    var s1 := if p.header.Some? then Step(s, p.header.value) else s;
    RunHead(s, p);
    var g := LineDeep(s, f, p);
    var s2 := Step(s1, p.line);
    BodyDeep(s2, g, p);
    if f + 1 < g {
      WeightGrows(p, f + 1, g);
    }
  }

  /** The lines below a node line. */
  lemma {:induction false} BodyDeep(s: State, g: nat, p: Printed)
    requires Open(s, g) && s.frames[g] == Meta(p.line.indent, -1, "") && Formed(p)
    ensures var s' := Run(s, AttrLines(p.attrs) + KidLines(p.kids));
      && Deepened(s, s', g, KidWeights(p.kids, g + 1))
      && (DepthOf(s') == DepthOf(s) + KidWeights(p.kids, g + 1) ==> Separated(p))
    decreases p, 1
  {
    AttrLinesPlain(p.attrs, p.line.indent);
    AttrLinesDepth(s, g, AttrLines(p.attrs));
    RunConcat(s, AttrLines(p.attrs), KidLines(p.kids));
    KidsDeep(Run(s, AttrLines(p.attrs)), g, p.kids);
  }

  predicate FormedKids(kids: seq<Printed>, indent: nat) {
    forall i :: 0 <= i < |kids| ==> HeadBelow(kids[i], indent) && Formed(kids[i])
  }

  predicate SeparatedKids(kids: seq<Printed>) {
    && (forall i :: 0 <= i < |kids| ==> Separated(kids[i]))
    && forall i :: 0 < i < |kids| ==> Apart(kids[i - 1], kids[i])
  }

  lemma {:induction false} KidsDeep(s: State, g: nat, kids: seq<Printed>)
    requires Open(s, g) && FormedKids(kids, s.frames[g].indent)
    ensures var s' := Run(s, KidLines(kids));
      && Deepened(s, s', g, KidWeights(kids, g + 1))
      && (DepthOf(s') == DepthOf(s) + KidWeights(kids, g + 1) ==>
            SeparatedKids(kids) && (kids != [] ==> At(s', g + 1, kids[|kids| - 1].line.indent)))
    decreases kids, 0
  {
    if kids != [] {
      var front, last := kids[..|kids| - 1], kids[|kids| - 1];
      assert kids == front + [last];
      KidsDeep(s, g, front);
      LastKidLines(s, kids);
      NextKidDeep(s, Run(s, KidLines(front)), g, front, last);
    }
  }

  /** One kid more: unless it is apart from the one before it, it ends up below that one. */
  lemma {:induction false} NextKidDeep(s: State, s1: State, g: nat, front: seq<Printed>, last: Printed)
    requires Valid(s) && g < |s.frames| && s.rootIndent <= s.frames[g].indent && FormedKids(front + [last], s.frames[g].indent)
    requires Deepened(s, s1, g, KidWeights(front, g + 1))
    requires DepthOf(s1) == DepthOf(s) + KidWeights(front, g + 1) ==>
      SeparatedKids(front) && (front != [] ==> At(s1, g + 1, front[|front| - 1].line.indent))
    ensures var s', kids := Run(s1, Lines(last)), front + [last];
      && Deepened(s, s', g, KidWeights(kids, g + 1))
      && (DepthOf(s') == DepthOf(s) + KidWeights(kids, g + 1) ==> SeparatedKids(kids) && At(s', g + 1, last.line.indent))
    decreases last, 3
  {
    var kids := front + [last];
    assert kids[|front|] == last && kids[..|front|] == front;
    PrintedDeep(s1, g, last);
    if front != [] && At(s1, g + 1, front[|front| - 1].line.indent) && !Apart(front[|front| - 1], last) {
      PrintedDeep(s1, g + 1, last);
      WeightGrows(last, g + 1, g + 2);
    }
  }

  // ----- whole plans

  lemma BodyExact(p: Printed, s: State)
    requires Formed(p) && s == Run(Start(p.line), AttrLines(p.attrs) + KidLines(p.kids))
    ensures !s.inTail && s.tail == [] && s.rootIndent == p.line.indent
    ensures s.tree == TreeOf(p, "") ==> Separated(p)
  {
    BodyDeep(Start(p.line), 0, p);
    TreeDepths(p, "", 0);
  }

  /**
   * A printed plan whose nodes are deeper than their parents is read back exactly when
   * every node, or the header above it, starts no deeper than the sibling before it.
   */
  lemma RoundTripExact(before: seq<Line>, p: Printed, after: seq<Line>)
    requires FormedPlan(before, p, after)
    ensures var r := Parse(before + Lines(p) + after);
      r.Ok? && r.value.tail == Trailer(after, p.line.indent) && (r.value.tree == TreeOf(p, "") <==> Separated(p))
  {
    var body := AttrLines(p.attrs) + KidLines(p.kids);
    BodyExact(p, Run(Start(p.line), body));
    PlanParsed(before, p, after, body);
    if Separated(p) {
      RoundTrip(before, p, after);
    }
  }

  /** A plain node deeper than the headed sibling before it: well formed, and not read back. */
  lemma DeeperSiblingMoves(root: Line, h: Line, a: Line, b: Line, p: Printed)
    requires root.indent == 0 && h.indent == 2 && a.indent == 2 && b.indent == 4
    requires root.node.Some? && a.node.Some? && b.node.Some? && h.node.None? && h.header
    requires !IsBlank(root) && !IsBlank(h) && !IsBlank(a) && !IsBlank(b)
    requires p == Printed(None, root, [], [Printed(Some(h), a, [], []), Printed(None, b, [], [])])
    ensures FormedPlan([], p, []) && Parse(Lines(p)).Ok? && Parse(Lines(p)).value.tree != TreeOf(p, "")
  {
    assert !Apart(p.kids[0], p.kids[1]);
    RoundTripExact([], p, []);
    assert [] + Lines(p) + [] == Lines(p);
  }
}
