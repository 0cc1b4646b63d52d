/**
 * Printed plans: a tree written in preorder, each child (or the header line above
 * it) deeper than its parent, attributes before children. Reading one back gives
 * the tree that was printed.
 */
module PlanLayout {
  import opened Common
  import opened PlanTree
  import opened PlanText
  import Text

  /** An attribute line and the deeper lines below it: those its value wrapped onto, and blocks with keys of their own. */
  datatype Attribute = Attribute(line: Line, more: seq<Line>)

  /** A node as printed; header is the SubPlan, InitPlan or CTE line above it. */
  datatype Printed = Printed(header: Option<Line>, line: Line, attrs: seq<Attribute>, kids: seq<Printed>)

  /** Where the first line of a printed node starts. */
  function Entry(p: Printed): nat {
    if p.header.Some? then p.header.value.indent else p.line.indent
  }

  function Lines(p: Printed): seq<Line> {
    (if p.header.Some? then [p.header.value] else []) + [p.line] + AttrLines(p.attrs) + KidLines(p.kids)
  }

  function AttrLines(attrs: seq<Attribute>): seq<Line> {
    if attrs == [] then []
    else AttrLines(attrs[..|attrs| - 1]) + [attrs[|attrs| - 1].line] + attrs[|attrs| - 1].more
  }

  function KidLines(kids: seq<Printed>): seq<Line>
  {
    if kids == [] then [] else KidLines(kids[..|kids| - 1]) + Lines(kids[|kids| - 1])
  }

  // ----- which layouts are printed

  predicate PlainLine(l: Line) {
    !IsBlank(l) && l.node.None? && !l.header
  }

  predicate WellPrintedAttrs(attrs: seq<Attribute>, nodeIndent: nat) {
    forall i :: 0 <= i < |attrs| ==>
      var a := attrs[i];
      && PlainLine(a.line) && a.line.indent == attrs[0].line.indent > nodeIndent
      && a.line.cut.Some? && a.line.cut.value.0 != ""
      && forall k :: 0 <= k < |a.more| ==>
          PlainLine(a.more[k]) && a.more[k].indent > a.line.indent
  }

  /** The line of a node, and the header above it, are deeper than the parent. */
  predicate HeadBelow(p: Printed, parentIndent: nat) {
    && (p.header.Some? ==>
          var h := p.header.value; !IsBlank(h) && h.node.None? && h.header && h.indent > parentIndent)
    && !IsBlank(p.line) && p.line.node.Some? && p.line.indent > parentIndent
  }

  /** Every node deeper than its parent, attributes first. */
  predicate Formed(p: Printed) {
    && !IsBlank(p.line) && p.line.node.Some?
    && WellPrintedAttrs(p.attrs, p.line.indent)
    && forall i :: 0 <= i < |p.kids| ==> HeadBelow(p.kids[i], p.line.indent) && Formed(p.kids[i])
  }

  /** A node, or the header above it, starts no deeper than the sibling printed before it. */
  predicate Apart(a: Printed, b: Printed) {
    Entry(b) <= a.line.indent || b.line.indent <= a.line.indent
  }

  predicate Separated(p: Printed) {
    && (forall i :: 0 <= i < |p.kids| ==> Separated(p.kids[i]))
    && forall i :: 0 < i < |p.kids| ==> Apart(p.kids[i - 1], p.kids[i])
  }

  predicate WellPrinted(p: Printed) {
    Formed(p) && Separated(p)
  }

  // ----- the tree a layout shows

  /** A value goes on in the lines below; a line with its own key adds nothing. */
  function Wrapped(value: string, more: seq<Line>): string {
    if more == [] then value
    else
      var front, last := Wrapped(value, more[..|more| - 1]), more[|more| - 1];
      if last.cut.None? then front + " " + Text.Trim(last.text) else front
  }

  function Shown(attrs: seq<Attribute>): map<Field, string>
    requires forall i :: 0 <= i < |attrs| ==> attrs[i].line.cut.Some?
  {
    if attrs == [] then map[]
    else
      var a := attrs[|attrs| - 1];
      var (key, value) := a.line.cut.value;
      var rest := Shown(attrs[..|attrs| - 1]);
      match FieldOf(key)
      case Some(f) => rest[f := if Wraps(f) then Wrapped(Text.Trim(value), a.more) else Text.Trim(value)]
      case None => rest
  }

  function TreeOf(p: Printed, role: string): Node
    requires Formed(p)
    decreases p, 0
  {
    Node(p.line.node.value, role, if p.header.Some? then p.header.value.text else "",
         Shown(p.attrs), KidsOf(p.line.node.value.typ, p.kids))
  }

  /** A header names its subplan's role; a plain child takes the next position. */
  function RoleOf(typ: string, before: seq<Printed>, p: Printed): string {
    if p.header.Some? then SubplanRole(p.header.value.text)
    else ChildRole(typ, |PlainOnes(before)|)
  }

  function PlainOnes(kids: seq<Printed>): seq<Printed> {
    if kids == [] then []
    else PlainOnes(kids[..|kids| - 1]) + (if kids[|kids| - 1].header.None? then [kids[|kids| - 1]] else [])
  }

  function KidsOf(typ: string, kids: seq<Printed>): (r: seq<Node>)
    requires forall i :: 0 <= i < |kids| ==> Formed(kids[i])
    ensures |r| == |kids|
    decreases kids, 1
  {
    if kids == [] then []
    else
      var front := kids[..|kids| - 1];
      KidsOf(typ, front) + [TreeOf(kids[|kids| - 1], RoleOf(typ, front, kids[|kids| - 1]))]
  }

  lemma {:induction false} PositionsCounted(typ: string, kids: seq<Printed>)
    requires forall i :: 0 <= i < |kids| ==> Formed(kids[i]) && (kids[i].header.Some? ==> kids[i].header.value.text != "")
    ensures PlanChildren(KidsOf(typ, kids)) == |PlainOnes(kids)|
  {
    if kids != [] {
      var ns := KidsOf(typ, kids);
      PositionsCounted(typ, kids[..|kids| - 1]);
      assert ns[..|ns| - 1] == KidsOf(typ, kids[..|kids| - 1]);
    }
  }

  // ----- reading attributes

  /** The node of frame j is open for attributes and children, nothing is pending. */
  ghost predicate Open(s: State, j: nat) {
    Valid(s) && |s.frames| == j + 1 && !s.inTail && s.pending == "" && s.rootIndent <= s.frames[j].indent
  }

  ghost function Here(s: State): Node
    requires Valid(s)
  {
    SpineAt(s.tree, |s.frames| - 1)
  }

  /** s' is s with the node of the last frame changed to n and its attribute bookkeeping to f. */
  ghost predicate Changed(s: State, s': State, f: Meta, n: Node) {
    && Valid(s) && Valid(s')
    && s' == s.(tree := PutAt(s.tree, |s.frames| - 1, n), frames := s.frames[..|s.frames| - 1] + [f])
  }

  lemma ChangedTwice(s: State, s1: State, s2: State, f: Meta, g: Meta, n: Node, m: Node)
    requires Changed(s, s1, f, n) && Changed(s1, s2, g, m)
    ensures Changed(s, s2, g, m)
  {
    PutThenAt(s.tree, |s.frames| - 1, n);
  }

  lemma ChangedKeepsOpen(s: State, s': State, j: nat, f: Meta, n: Node)
    requires Open(s, j) && Changed(s, s', f, n) && f.indent == s.frames[j].indent
    ensures Open(s', j) && Here(s') == n
  {
    PutThenAt(s.tree, j, n);
  }

  /** A line deeper than the open node changes that node alone. */
  lemma AttrStepHere(s: State, j: nat, line: Line)
    requires Open(s, j) && PlainLine(line) && line.indent > s.frames[j].indent
    ensures var (f, attrs) := ApplyAttr(s.frames[j], Here(s).attrs, line);
      Changed(s, Step(s, line), f, Here(s).(attrs := attrs)) && f.indent == s.frames[j].indent
  {
    PopTo(s.frames, j, line.indent);
    assert s.frames[..j + 1] == s.frames;
  }

  function ApplyAll(f: Meta, attrs: map<Field, string>, lines: seq<Line>): (Meta, map<Field, string>) {
    if lines == [] then (f, attrs)
    else
      var (f1, attrs1) := ApplyAll(f, attrs, lines[..|lines| - 1]);
      ApplyAttr(f1, attrs1, lines[|lines| - 1])
  }

  lemma {:induction false} ApplyAllConcat(f: Meta, attrs: map<Field, string>, a: seq<Line>, b: seq<Line>)
    ensures var (f1, attrs1) := ApplyAll(f, attrs, a);
      ApplyAll(f, attrs, a + b) == ApplyAll(f1, attrs1, b)
  {
    if b == [] {
      assert a + b == a;
    } else {
      assert (a + b)[..|a + b| - 1] == a + b[..|b| - 1];
      ApplyAllConcat(f, attrs, a, b[..|b| - 1]);
    }
  }

  lemma {:induction false} MoreLines(f: Meta, attrs: map<Field, string>, more: seq<Line>)
    requires f.lastAttr != "" && f.attrsAt != -1
    requires forall k :: 0 <= k < |more| ==> more[k].indent > f.attrsAt
    requires FieldOf(f.lastAttr).Some? ==> FieldOf(f.lastAttr).value in attrs
    ensures ApplyAll(f, attrs, more) == (f, Continued(attrs, FieldOf(f.lastAttr), more))
  {
    var field := FieldOf(f.lastAttr);
    if more == [] {
      assert field.Some? ==> attrs[field.value := attrs[field.value]] == attrs;
    } else {
      var front, last := more[..|more| - 1], more[|more| - 1];
      MoreLines(f, attrs, front);
      var before := Continued(attrs, field, front);
      assert ApplyAttr(f, before, last) == (f, if last.cut.None? then AppendAttr(before, f.lastAttr, Text.Trim(last.text)) else before);
      if field.Some? && Wraps(field.value) {
        var g := field.value;
        assert before[g] == Wrapped(attrs[g], front);
        var longer := if last.cut.None? then before[g] + " " + Text.Trim(last.text) else before[g];
        assert longer == Wrapped(attrs[g], more);
        assert before[g := longer] == attrs[g := Wrapped(attrs[g], more)];
        assert last.cut.Some? ==> before[g := longer] == before;
      }
    }
  }

  function Continued(attrs: map<Field, string>, field: Option<Field>, more: seq<Line>): map<Field, string>
    requires field.Some? ==> field.value in attrs
  {
    match field
    case Some(g) => if Wraps(g) then attrs[g := Wrapped(attrs[g], more)] else attrs
    case None => attrs
  }

  lemma OneAttr(f: Meta, shown: map<Field, string>, a: Attribute)
    requires a.line.cut.Some? && a.line.cut.value.0 != "" && (f.attrsAt == -1 || f.attrsAt == a.line.indent)
    requires forall k :: 0 <= k < |a.more| ==> a.more[k].indent > a.line.indent
    ensures var (key, value) := a.line.cut.value;
      ApplyAll(f, shown, [a.line] + a.more) ==
      (Meta(f.indent, a.line.indent, key), Continued(SetAttr(shown, key, Text.Trim(value)), FieldOf(key), a.more))
  {
    var (key, value) := a.line.cut.value;
    assert [a.line][..0] == [];
    assert ApplyAll(f, shown, [a.line]) == (Meta(f.indent, a.line.indent, key), SetAttr(shown, key, Text.Trim(value)));
    ApplyAllConcat(f, shown, [a.line], a.more);
    MoreLines(Meta(f.indent, a.line.indent, key), SetAttr(shown, key, Text.Trim(value)), a.more);
  }

  lemma {:induction false} AttrsShown(f: Meta, attrs: seq<Attribute>)
    requires f.attrsAt == -1 && WellPrintedAttrs(attrs, f.indent)
    ensures var (f', shown) := ApplyAll(f, map[], AttrLines(attrs));
      shown == Shown(attrs) && f'.indent == f.indent &&
      f'.attrsAt == if attrs == [] then -1 else attrs[0].line.indent
  {
    if attrs != [] {
      var front, a := attrs[..|attrs| - 1], attrs[|attrs| - 1];
      AttrsShown(f, front);
      var (f1, shown1) := ApplyAll(f, map[], AttrLines(front));
      LastAttrLines(attrs);
      ApplyAllConcat(f, map[], AttrLines(front), [a.line] + a.more);
      WellPrintedLast(attrs, f.indent);
      OneAttr(f1, shown1, a);
    }
  }

  lemma LastAttrLines(attrs: seq<Attribute>)
    requires attrs != []
    ensures var front, a := attrs[..|attrs| - 1], attrs[|attrs| - 1];
      AttrLines(attrs) == AttrLines(front) + ([a.line] + a.more)
  {
  }

  lemma WellPrintedLast(attrs: seq<Attribute>, indent: nat)
    requires attrs != [] && WellPrintedAttrs(attrs, indent)
    ensures var front, a := attrs[..|attrs| - 1], attrs[|attrs| - 1];
      && WellPrintedAttrs(front, indent) && a.line.cut.Some? && a.line.cut.value.0 != ""
      && a.line.indent == attrs[0].line.indent && (front != [] ==> front[0] == attrs[0])
      && forall k :: 0 <= k < |a.more| ==> a.more[k].indent > a.line.indent
  {
  }

  lemma {:induction false} AttrLinesHere(s: State, j: nat, lines: seq<Line>)
    requires Open(s, j)
    requires forall k :: 0 <= k < |lines| ==> PlainLine(lines[k]) && lines[k].indent > s.frames[j].indent
    ensures var (f, attrs) := ApplyAll(s.frames[j], Here(s).attrs, lines);
      Changed(s, Run(s, lines), f, Here(s).(attrs := attrs)) && f.indent == s.frames[j].indent
  {
    if lines == [] {
      PutBack(s.tree, j);
      assert s.frames == s.frames[..j] + [s.frames[j]];
    } else {
      var front, last := lines[..|lines| - 1], lines[|lines| - 1];
      AttrLinesHere(s, j, front);
      RunLast(s, lines);
      var (f, attrs) := ApplyAll(s.frames[j], Here(s).attrs, front);
      var s1 := Run(s, front);
      ChangedKeepsOpen(s, s1, j, f, Here(s).(attrs := attrs));
      AttrStepHere(s1, j, last);
      var (g, attrs') := ApplyAttr(f, attrs, last);
      ChangedTwice(s, s1, Step(s1, last), f, g, Here(s).(attrs := attrs), Here(s).(attrs := attrs'));
    }
  }

  lemma RunLast(s: State, lines: seq<Line>)
    requires Valid(s) && lines != []
    ensures Run(s, lines) == Step(Run(s, lines[..|lines| - 1]), lines[|lines| - 1])
  {
    var front, last := lines[..|lines| - 1], lines[|lines| - 1];
    assert lines == front + [last];
    RunConcat(s, front, [last]);
    RunOne(Run(s, front), last);
  }

  lemma RunOne(s: State, line: Line)
    requires Valid(s)
    ensures Run(s, [line]) == Step(s, line)
  {
    assert [line][1..] == [];
    var next := Step(s, line);
    assert Run(next, []) == next;
  }

  lemma {:induction false} PutBack(t: Node, d: nat)
    requires Deep(t, d)
    ensures PutAt(t, d, SpineAt(t, d)) == t
  {
    if d > 0 {
      PutBack(t.children[|t.children| - 1], d - 1);
    }
  }

  // ----- reading nodes

  lemma {:induction false} AttrLinesPlain(attrs: seq<Attribute>, indent: nat)
    requires WellPrintedAttrs(attrs, indent)
    ensures forall k :: 0 <= k < |AttrLines(attrs)| ==>
      PlainLine(AttrLines(attrs)[k]) && AttrLines(attrs)[k].indent > indent
  {
    if attrs != [] {
      AttrLinesPlain(attrs[..|attrs| - 1], indent);
    }
  }

  /** Frames above j would be popped by a line at this indent, frame j would not. */
  ghost predicate Ready(s: State, j: nat, indent: nat) {
    && Valid(s) && !s.inTail && j < |s.frames|
    && s.rootIndent <= s.frames[j].indent < indent
    && forall k :: j < k < |s.frames| ==> s.frames[k].indent >= indent
  }

  /** s' is s with frame j's node changed to n; the frames left above it are at least floor deep. */
  ghost predicate Grown(s: State, s': State, j: nat, n: Node, floor: nat) {
    && Valid(s') && Deep(s.tree, j) && s'.tree == PutAt(s.tree, j, n)
    && j < |s.frames| && j < |s'.frames|
    && s'.frames[..j] == s.frames[..j] && s'.frames[j].indent == s.frames[j].indent
    && (forall k :: j < k < |s'.frames| ==> s'.frames[k].indent >= floor)
    && s'.pending == "" && !s'.inTail && s'.tail == s.tail && s'.rootIndent == s.rootIndent
  }

  lemma GrownTwice(s: State, s1: State, s2: State, j: nat, n1: Node, n2: Node, f1: nat, f2: nat)
    requires Grown(s, s1, j, n1, f1) && Grown(s1, s2, j, n2, f2)
    ensures Grown(s, s2, j, n2, f2)
  {
    PutThenAt(s.tree, j, n1);
  }

  ghost function NodeAtFrame(s: State, j: nat): (n: Node)
    requires Valid(s) && j < |s.frames|
    ensures Deep(s.tree, j)
  {
    SpineShrinks(s.tree, |s.frames| - 1, j);
    SpineAt(s.tree, j)
  }

  /** The child a node line adds below a parent. */
  function Added(parent: Node, pending: string, info: Info): Node {
    Node(info, if pending == "" then ChildRole(parent.info.typ, PlanChildren(parent.children)) else SubplanRole(pending),
         pending, map[], [])
  }

  /** Popping for this line leaves frame j on top. */
  lemma PopsTo(s: State, j: nat, line: Line)
    requires Ready(s, j, line.indent)
    ensures Pop(s.frames, line.indent) == s.frames[..j + 1] && Top(s, line.indent) == NodeAtFrame(s, j)
  {
    PopTo(s.frames, j, line.indent);
  }

  /** Where a node line leaves the tree and the frames. */
  lemma NodeLineTree(s: State, j: nat, line: Line)
    requires Ready(s, j, line.indent) && !IsBlank(line) && line.node.Some?
    ensures var s', n := Step(s, line), NodeAtFrame(s, j);
      && s'.tree == PutAt(s.tree, j, WithChild(n, Added(n, s.pending, line.node.value)))
      && s'.frames == s.frames[..j + 1] + [Meta(line.indent, -1, "")]
      && s'.pending == "" && s'.inTail == s.inTail && s'.tail == s.tail && s'.rootIndent == s.rootIndent
  {
    PopsTo(s, j, line);
    assert Step(s, line) == NodeStep(s, line.indent, line.node.value);
  }

  lemma NodeLineStep(s: State, j: nat, line: Line)
    requires Ready(s, j, line.indent) && !IsBlank(line) && line.node.Some?
    ensures var s', n := Step(s, line), NodeAtFrame(s, j);
      Open(s', j + 1) && s'.tail == s.tail && s'.rootIndent == s.rootIndent
      && s'.tree == PutAt(s.tree, j, WithChild(n, Added(n, s.pending, line.node.value)))
      && s'.frames == s.frames[..j + 1] + [Meta(line.indent, -1, "")]
      && Here(s') == Added(n, s.pending, line.node.value)
  {
    var n := NodeAtFrame(s, j);
    NodeLineTree(s, j, line);
    NewestChild(s.tree, j, n, Added(n, s.pending, line.node.value));
  }

  /** A child added on the spine is the next node of the spine. */
  lemma NewestChild(t: Node, j: nat, n: Node, child: Node)
    requires Deep(t, j)
    ensures var t' := PutAt(t, j, WithChild(n, child)); Deep(t', j + 1) && SpineAt(t', j + 1) == child
  {
    PutThenAt(t, j, WithChild(n, child));
    SpineGrows(PutAt(t, j, WithChild(n, child)), j);
  }

  /** What happens to the child just added happens to its parent. */
  lemma GrownChild(s: State, s1: State, s2: State, j: nat, n: Node, c: Node, c': Node, floor: nat)
    requires Deep(s.tree, j) && s1.tree == PutAt(s.tree, j, WithChild(n, c))
    requires j < |s.frames| && |s1.frames| == j + 2 && s1.frames[..j + 1] == s.frames[..j + 1]
    requires s1.tail == s.tail && s1.rootIndent == s.rootIndent
    requires Grown(s1, s2, j + 1, c', floor) && floor >= s1.frames[j + 1].indent
    ensures Grown(s, s2, j, WithChild(n, c'), s1.frames[j + 1].indent)
  {
    PutThenAt(s.tree, j, WithChild(n, c));
    PutDeeper(s1.tree, j, c');
    assert WithChild(n, c).children[..|n.children|] == n.children;
    assert s2.frames[j] == s2.frames[..j + 1][j] == s1.frames[..j + 1][j];
    assert s2.frames[..j] == s2.frames[..j + 1][..j] == s1.frames[..j + 1][..j] == s.frames[..j];
  }

  /** The node of frame j is what p will be a child of: its header or its line pops all frames above. */
  ghost predicate ReadyFor(s: State, j: nat, p: Printed) {
    && Valid(s) && !s.inTail && s.pending == "" && j < |s.frames| && s.rootIndent <= s.frames[j].indent
    && HeadBelow(p, s.frames[j].indent)
    && (Ready(s, j, Entry(p)) || Ready(s, j, p.line.indent))
  }

  lemma {:induction false} PopStops(frames: seq<Meta>, j: nat, indent: nat)
    requires j < |frames| && frames[j].indent < indent
    ensures |Pop(frames, indent)| > j
  {
    if |frames| > 1 && frames[|frames| - 1].indent >= indent {
      PopStops(frames[..|frames| - 1], j, indent);
    }
  }

  /** The header pops down to the parent, or leaves that to the node line. */
  lemma HeaderStep(s: State, j: nat, p: Printed)
    requires ReadyFor(s, j, p) && p.header.Some?
    ensures var h, s1 := p.header.value, Step(s, p.header.value);
      && s1 == s.(pending := h.text, frames := s1.frames) && j < |s1.frames| && s1.frames == s.frames[..|s1.frames|]
      && Ready(s1, j, p.line.indent) && NodeAtFrame(s1, j) == NodeAtFrame(s, j)
  {
    var h := p.header.value;
    PopStops(s.frames, j, h.indent);
    if Ready(s, j, h.indent) {
      PopTo(s.frames, j, h.indent);
    }
  }

  /** Popping frames above j first makes no difference. */
  lemma GrownPopped(s: State, s1: State, s2: State, j: nat, n: Node, floor: nat)
    requires Grown(s1, s2, j, n, floor) && s1 == s.(pending := s1.pending, frames := s1.frames)
    requires j < |s1.frames| <= |s.frames| && s1.frames == s.frames[..|s1.frames|]
    ensures Grown(s, s2, j, n, floor)
  {
    assert s1.frames[j] == s.frames[j] && s1.frames[..j] == s.frames[..j];
  }

  /** A printed node adds one child to the node of frame j. */
  lemma {:induction false} NodeRead(s: State, j: nat, p: Printed)
    requires ReadyFor(s, j, p) && WellPrinted(p)
    ensures Grown(s, Run(s, Lines(p)), j,
                  WithChild(NodeAtFrame(s, j), TreeOf(p, RoleIn(NodeAtFrame(s, j), p))), p.line.indent)
    decreases p, 1, 1
  {
    RunHead(s, p);
    if p.header.Some? {
      HeaderStep(s, j, p);
      var s1 := Step(s, p.header.value);
      LineRead(s1, j, p);
      GrownPopped(s, s1, Run(s, Lines(p)), j, WithChild(NodeAtFrame(s, j), TreeOf(p, RoleIn(NodeAtFrame(s, j), p))), p.line.indent);
    } else {
      LineRead(s, j, p);
    }
  }

  lemma {:induction false} LineRead(s: State, j: nat, p: Printed)
    requires Ready(s, j, p.line.indent) && WellPrinted(p) && (p.header.Some? ==> p.header.value.text != "")
    requires s.pending == if p.header.Some? then p.header.value.text else ""
    ensures Grown(s, Run(Step(s, p.line), AttrLines(p.attrs) + KidLines(p.kids)), j,
                  WithChild(NodeAtFrame(s, j), TreeOf(p, RoleIn(NodeAtFrame(s, j), p))), p.line.indent)
    decreases p, 1, 0
  {
    var n := NodeAtFrame(s, j);
    NodeLineStep(s, j, p.line);
    var s2 := Step(s, p.line);
    BodyRead(s2, j + 1, p);
    GrownChild(s, s2, Run(s2, AttrLines(p.attrs) + KidLines(p.kids)), j, n,
               Here(s2), TreeOf(p, RoleIn(n, p)), p.line.indent);
  }

  /** The role the text parser gives the next child of a node. */
  function RoleIn(parent: Node, p: Printed): string {
    if p.header.Some? then SubplanRole(p.header.value.text)
    else ChildRole(parent.info.typ, PlanChildren(parent.children))
  }

  lemma RunHead(s: State, p: Printed)
    requires Valid(s)
    ensures var s1 := if p.header.Some? then Step(s, p.header.value) else s;
      Run(s, Lines(p)) == Run(Step(s1, p.line), AttrLines(p.attrs) + KidLines(p.kids))
  {
    var rest := AttrLines(p.attrs) + KidLines(p.kids);
    if p.header.Some? {
      assert Lines(p) == [p.header.value] + ([p.line] + rest);
      RunFirst(s, p.header.value, [p.line] + rest);
      RunFirst(Step(s, p.header.value), p.line, rest);
    } else {
      assert Lines(p) == [p.line] + rest;
      RunFirst(s, p.line, rest);
    }
  }

  lemma RunFirst(s: State, line: Line, rest: seq<Line>)
    requires Valid(s)
    ensures Run(s, [line] + rest) == Run(Step(s, line), rest)
  {
    assert ([line] + rest)[1..] == rest;
  }

  function Filled(n: Node, p: Printed): Node
    requires Formed(p)
  {
    n.(attrs := Shown(p.attrs), children := KidsOf(n.info.typ, p.kids))
  }

  /** The lines below a node line fill that node. */
  lemma {:induction false} BodyRead(s: State, j: nat, p: Printed)
    requires Open(s, j) && s.frames[j] == Meta(p.line.indent, -1, "") && WellPrinted(p)
    requires Here(s).attrs == map[] && Here(s).children == []
    ensures Grown(s, Run(s, AttrLines(p.attrs) + KidLines(p.kids)), j, Filled(Here(s), p), p.line.indent)
    decreases p, 0
  {
    var n, s1 := Here(s), Run(s, AttrLines(p.attrs));
    AttrsRead(s, j, p, s1);
    RunConcat(s, AttrLines(p.attrs), KidLines(p.kids));
    KidsRead(s1, j, p.kids);
    GrownTwice(s, s1, Run(s1, KidLines(p.kids)), j, n.(attrs := Shown(p.attrs)), Filled(n, p), 0, p.line.indent);
  }

  /** The attribute lines fill in the attributes and nothing else. */
  lemma AttrsRead(s: State, j: nat, p: Printed, s1: State)
    requires Open(s, j) && s.frames[j] == Meta(p.line.indent, -1, "") && Formed(p) && Here(s).attrs == map[]
    requires s1 == Run(s, AttrLines(p.attrs))
    ensures Open(s1, j) && Here(s1) == Here(s).(attrs := Shown(p.attrs)) && s1.frames[j].indent == p.line.indent
    ensures Grown(s, s1, j, Here(s).(attrs := Shown(p.attrs)), 0)
  {
    AttrLinesPlain(p.attrs, p.line.indent);
    AttrLinesHere(s, j, AttrLines(p.attrs));
    AttrsShown(s.frames[j], p.attrs);
    var (f, attrs) := ApplyAll(s.frames[j], Here(s).attrs, AttrLines(p.attrs));
    ChangedKeepsOpen(s, s1, j, f, Here(s).(attrs := attrs));
    ChangedGrows(s, s1, j, f, Here(s).(attrs := attrs));
  }

  lemma ChangedGrows(s: State, s1: State, j: nat, f: Meta, n: Node)
    requires Open(s, j) && Changed(s, s1, f, n) && f.indent == s.frames[j].indent
    ensures Grown(s, s1, j, n, 0)
  {
  }

  predicate WellPrintedKids(kids: seq<Printed>, indent: nat) {
    && (forall i :: 0 <= i < |kids| ==> HeadBelow(kids[i], indent) && WellPrinted(kids[i]))
    && (forall i :: 0 < i < |kids| ==> Apart(kids[i - 1], kids[i]))
  }

  /** Frames left above j after these children. */
  function Floor(kids: seq<Printed>, indent: nat): nat {
    if kids == [] then indent + 1 else kids[|kids| - 1].line.indent
  }

  lemma {:induction false} KidsRead(s: State, j: nat, kids: seq<Printed>)
    requires Open(s, j) && Here(s).children == [] && WellPrintedKids(kids, s.frames[j].indent)
    ensures Grown(s, Run(s, KidLines(kids)), j, Here(s).(children := KidsOf(Here(s).info.typ, kids)),
                  Floor(kids, s.frames[j].indent))
    ensures kids == [] ==> |Run(s, KidLines(kids)).frames| == j + 1
    decreases kids, 0
  {
    var n, indent := Here(s), s.frames[j].indent;
    if kids == [] {
      PutBack(s.tree, j);
    } else {
      var front, last := kids[..|kids| - 1], kids[|kids| - 1];
      WithoutLast(kids, indent);
      KidsRead(s, j, front);
      LastKidLines(s, kids);
      NextKid(s, Run(s, KidLines(front)), j, n, front, last);
    }
  }

  lemma WithoutLast(kids: seq<Printed>, indent: nat)
    requires kids != [] && WellPrintedKids(kids, indent)
    ensures WellPrintedKids(kids[..|kids| - 1], indent)
    ensures kids == kids[..|kids| - 1] + [kids[|kids| - 1]]
  {
  }

  lemma LastKidLines(s: State, kids: seq<Printed>)
    requires Valid(s) && kids != []
    ensures Run(s, KidLines(kids)) == Run(Run(s, KidLines(kids[..|kids| - 1])), Lines(kids[|kids| - 1]))
  {
    RunConcat(s, KidLines(kids[..|kids| - 1]), Lines(kids[|kids| - 1]));
  }

  lemma NextReady(s: State, s1: State, j: nat, n1: Node, front: seq<Printed>, last: Printed)
    requires Valid(s) && j < |s.frames| && s.rootIndent <= s.frames[j].indent
    requires HeadBelow(last, s.frames[j].indent) && (front != [] ==> Apart(front[|front| - 1], last))
    requires Grown(s, s1, j, n1, Floor(front, s.frames[j].indent)) && (front == [] ==> |s1.frames| == j + 1)
    ensures ReadyFor(s1, j, last)
  {
  }

  lemma {:induction false} NextKid(s: State, s1: State, j: nat, n: Node, front: seq<Printed>, last: Printed)
    requires Valid(s) && j < |s.frames| && s.rootIndent <= s.frames[j].indent
    requires WellPrintedKids(front + [last], s.frames[j].indent) && WellPrintedKids(front, s.frames[j].indent)
    requires Grown(s, s1, j, n.(children := KidsOf(n.info.typ, front)), Floor(front, s.frames[j].indent))
    requires front == [] ==> |s1.frames| == j + 1
    ensures Grown(s, Run(s1, Lines(last)), j, n.(children := KidsOf(n.info.typ, front + [last])), last.line.indent)
    decreases last, 2
  {
    var kids := front + [last];
    assert kids[|front|] == last && kids[..|front|] == front;
    if front != [] {
      assert kids[|front| - 1] == front[|front| - 1];
    }
    var n1 := n.(children := KidsOf(n.info.typ, front));
    PutThenAt(s.tree, j, n1);
    PositionsCounted(n.info.typ, front);
    NextReady(s, s1, j, n1, front, last);
    NodeRead(s1, j, last);
    GrownTwice(s, s1, Run(s1, Lines(last)), j, n1, WithChild(n1, TreeOf(last, RoleIn(n1, last))),
               Floor(front, s.frames[j].indent), last.line.indent);
  }

  // ----- whole plans

  /** A printed plan between lines of other text and the trailing lines. */
  ghost predicate FormedPlan(before: seq<Line>, p: Printed, after: seq<Line>) {
    && (forall i :: 0 <= i < |before| ==> before[i].node.None?)
    && p.header.None? && Formed(p)
    && (after != [] ==>
          !IsBlank(after[0]) && after[0].node.None? && !after[0].header && after[0].tail
          && after[0].indent <= p.line.indent)
  }

  ghost predicate WellPrintedPlan(before: seq<Line>, p: Printed, after: seq<Line>) {
    FormedPlan(before, p, after) && Separated(p)
  }

  /** What follows the tree, blank lines dropped; deeper lines belong to a nested block. */
  function Trailer(after: seq<Line>, rootIndent: nat): seq<(string, bool)> {
    if after == [] then []
    else (if IsBlank(after[0]) then [] else [(after[0].text, after[0].indent > rootIndent)])
         + Trailer(after[1..], rootIndent)
  }

  lemma {:induction false} TrailerRead(s: State, after: seq<Line>)
    requires Valid(s) && s.inTail
    ensures Run(s, after) == s.(tail := s.tail + Trailer(after, s.rootIndent))
    decreases |after|
  {
    if after == [] {
      assert s.tail + [] == s.tail;
    } else {
      TrailerRead(Step(s, after[0]), after[1..]);
      var x := if IsBlank(after[0]) then [] else [(after[0].text, after[0].indent > s.rootIndent)];
      var y := Trailer(after[1..], s.rootIndent);
      assert s.tail + (x + y) == (s.tail + x) + y;
      assert s.tail + [] == s.tail;
    }
  }

  lemma {:induction false} SkipsText(before: seq<Line>, rest: seq<Line>)
    requires forall i :: 0 <= i < |before| ==> before[i].node.None?
    ensures Parse(before + rest) == Parse(rest)
  {
    if before == [] {
      assert before + rest == rest;
    } else {
      assert (before + rest)[0] == before[0] && (before + rest)[1..] == before[1..] + rest;
      SkipsText(before[1..], rest);
    }
  }

  lemma ParseStarts(line: Line, rest: seq<Line>)
    requires line.node.Some?
    ensures Parse([line] + rest) == Ok(Run(Start(line), rest))
  {
    assert ([line] + rest)[1..] == rest;
  }

  lemma EndRead(s: State, after: seq<Line>)
    requires Valid(s) && !s.inTail && s.tail == []
    requires after != [] ==> !IsBlank(after[0]) && after[0].node.None? && !after[0].header && after[0].tail
    requires after != [] ==> after[0].indent <= s.rootIndent
    ensures var r := Run(s, after);
      r.tree == s.tree && r.pending == s.pending && r.tail == Trailer(after, s.rootIndent)
  {
    if after != [] {
      TrailerRead(Step(s, after[0]), after[1..]);
    }
  }


  lemma PlanLines(before: seq<Line>, p: Printed, after: seq<Line>)
    requires p.header.None?
    ensures before + Lines(p) + after == before + ([p.line] + ((AttrLines(p.attrs) + KidLines(p.kids)) + after))
  {
  }

  lemma ParsedLines(before: seq<Line>, line: Line, body: seq<Line>, after: seq<Line>)
    requires line.node.Some? && forall i :: 0 <= i < |before| ==> before[i].node.None?
    ensures Parse(before + ([line] + (body + after))) == Ok(Run(Run(Start(line), body), after))
  {
    SkipsText(before, [line] + (body + after));
    ParseStarts(line, body + after);
    RunConcat(Start(line), body, after);
  }

  /** The lines of a plan give the tree and the trailer, whatever stands before. */
  lemma PlanParsed(before: seq<Line>, p: Printed, after: seq<Line>, body: seq<Line>)
    requires FormedPlan(before, p, after) && body == AttrLines(p.attrs) + KidLines(p.kids)
    requires var s := Run(Start(p.line), body); !s.inTail && s.tail == [] && s.rootIndent == p.line.indent
    ensures var r := Parse(before + Lines(p) + after);
      r.Ok? && r.value.tree == Run(Start(p.line), body).tree && r.value.tail == Trailer(after, p.line.indent)
      && r.value.pending == Run(Start(p.line), body).pending
  {
    PlanLines(before, p, after);
    ParsedLines(before, p.line, body, after);
    EndRead(Run(Start(p.line), body), after);
  }

  lemma TreeRead(p: Printed, body: seq<Line>)
    requires p.header.None? && WellPrinted(p) && body == AttrLines(p.attrs) + KidLines(p.kids)
    ensures var s := Run(Start(p.line), body);
      s.tree == TreeOf(p, "") && s.pending == "" && !s.inTail && s.tail == [] && s.rootIndent == p.line.indent
  {
    BodyRead(Start(p.line), 0, p);
  }

  /** Reading a printed plan gives the printed tree, attributes, roles and subplan names, and the trailing lines. */
  lemma RoundTrip(before: seq<Line>, p: Printed, after: seq<Line>)
    requires WellPrintedPlan(before, p, after)
    ensures var r := Parse(before + Lines(p) + after);
      r.Ok? && r.value.tree == TreeOf(p, "") && r.value.tail == Trailer(after, p.line.indent)
      && r.value.pending == ""
  {
    var body := AttrLines(p.attrs) + KidLines(p.kids);
    TreeRead(p, body);
    PlanParsed(before, p, after, body);
  }
}
