/**
 * What the indented EXPLAIN text means: the state the line loop goes through, one
 * line at a time, and the printed layouts it reads back. A line comes classified
 * by the regular expressions; their order of precedence is Step's.
 */
module PlanText {
  import opened Common
  import opened PlanTree
  import Text

  /** text is the line without its leading blanks; cut is the line cut at the first ": ". */
  datatype Line = Line(
    indent: nat, text: string, node: Option<Info>, header: bool, tail: bool, cut: Option<(string, string)>)

  /** One open frame: indent of its node line, indent of its attributes (-1 before the first), last key. */
  datatype Meta = Meta(indent: nat, attrsAt: int, lastAttr: string)

  /** The tree so far and the frames of its rightmost spine, root first. */
  datatype State = State(
    tree: Node, frames: seq<Meta>, pending: string, inTail: bool, tail: seq<(string, bool)>, rootIndent: nat)

  // ----- the rightmost spine

  predicate Deep(t: Node, d: nat) {
    d == 0 || (t.children != [] && Deep(t.children[|t.children| - 1], d - 1))
  }

  function SpineAt(t: Node, d: nat): Node
    requires Deep(t, d)
  {
    if d == 0 then t else SpineAt(t.children[|t.children| - 1], d - 1)
  }

  function PutAt(t: Node, d: nat, n: Node): Node
    requires Deep(t, d)
  {
    if d == 0 then n
    else t.(children := t.children[..|t.children| - 1] + [PutAt(t.children[|t.children| - 1], d - 1, n)])
  }

  lemma {:induction false} PutThenAt(t: Node, d: nat, n: Node)
    requires Deep(t, d)
    ensures Deep(PutAt(t, d, n), d) && SpineAt(PutAt(t, d, n), d) == n
    ensures forall m :: PutAt(PutAt(t, d, n), d, m) == PutAt(t, d, m)
  {
    if d > 0 {
      var last := t.children[|t.children| - 1];
      var t' := PutAt(t, d, n);
      PutThenAt(last, d - 1, n);
      assert t'.children[..|t'.children| - 1] == t.children[..|t.children| - 1];
    }
  }

  lemma {:induction false} SpineGrows(t: Node, d: nat)
    requires Deep(t, d) && SpineAt(t, d).children != []
    ensures Deep(t, d + 1)
    ensures SpineAt(t, d + 1) == SpineAt(t, d).children[|SpineAt(t, d).children| - 1]
  {
    if d > 0 {
      SpineGrows(t.children[|t.children| - 1], d - 1);
    }
  }

  /** Replacing the last child of a spine node is replacing that node. */
  lemma {:induction false} PutDeeper(t: Node, d: nat, m: Node)
    requires Deep(t, d) && Deep(t, d + 1) && SpineAt(t, d).children != []
    ensures var x := SpineAt(t, d);
      PutAt(t, d + 1, m) == PutAt(t, d, x.(children := x.children[..|x.children| - 1] + [m]))
  {
    if d > 0 {
      PutDeeper(t.children[|t.children| - 1], d - 1, m);
    }
  }

  lemma {:induction false} SpineShrinks(t: Node, d: nat, e: nat)
    requires Deep(t, d) && e <= d
    ensures Deep(t, e)
    ensures e < d ==> SpineAt(t, e).children != []
  {
    if e > 0 {
      SpineShrinks(t.children[|t.children| - 1], d - 1, e - 1);
    }
  }

  // ----- roles

  function PlanChildren(ns: seq<Node>): nat {
    if ns == [] then 0
    else PlanChildren(ns[..|ns| - 1]) + (if ns[|ns| - 1].subplanName == "" then 1 else 0)
  }

  function ChildRole(typ: string, index: nat): string {
    if typ in {"Append", "Merge Append", "BitmapAnd", "BitmapOr"} then "Member"
    else if typ == "Subquery Scan" then "Subquery"
    else if index == 0 then "Outer"
    else if index == 1 then "Inner"
    else "Member"
  }

  function SubplanRole(header: string): string {
    if "SubPlan" <= header then "SubPlan" else "InitPlan"
  }

  // ----- attributes

  function FieldOf(key: string): Option<Field> {
    match key
    case "Filter" => Some(Filter)
    case "One-Time Filter" => Some(Filter)
    case "Index Cond" => Some(IndexCond)
    case "TID Cond" => Some(IndexCond)
    case "Recheck Cond" => Some(RecheckCond)
    case "Hash Cond" => Some(HashCond)
    case "Merge Cond" => Some(MergeCond)
    case "Join Filter" => Some(JoinFilter)
    case "Rows Removed by Filter" => Some(RowsRemovedByFilter)
    case "Rows Removed by Join Filter" => Some(RowsRemovedByJoinFilter)
    case "Heap Fetches" => Some(HeapFetches)
    case "Sort Key" => Some(SortKey)
    case "Sort Method" => Some(SortMethod)
    case "Workers Planned" => Some(WorkersPlanned)
    case "Workers Launched" => Some(WorkersLaunched)
    case "Heap Blocks" => Some(HeapBlocks)
    case "Buffers" => Some(Buffers)
    case _ => None
  }

  /** Only conditions continue on the next line. */
  predicate Wraps(f: Field) {
    f.Filter? || f.IndexCond? || f.RecheckCond? || f.HashCond? || f.MergeCond? || f.JoinFilter?
  }

  function SetAttr(attrs: map<Field, string>, key: string, value: string): map<Field, string> {
    match FieldOf(key)
    case Some(f) => attrs[f := value]
    case None => attrs
  }

  function AppendAttr(attrs: map<Field, string>, key: string, text: string): map<Field, string> {
    match FieldOf(key)
    case Some(f) =>
      if Wraps(f) then attrs[f := (if f in attrs then attrs[f] else "") + " " + text] else attrs
    case None => attrs
  }

  function ApplyAttr(f: Meta, attrs: map<Field, string>, line: Line): (Meta, map<Field, string>) {
    var f' := if f.attrsAt == -1 then f.(attrsAt := line.indent) else f;
    if line.indent > f'.attrsAt then
      (f', if line.cut.None? && f.lastAttr != "" then AppendAttr(attrs, f.lastAttr, Text.Trim(line.text)) else attrs)
    else match line.cut
      case None => (f', attrs)
      case Some((key, value)) => (f'.(lastAttr := key), SetAttr(attrs, key, Text.Trim(value)))
  }

  // ----- one line

  predicate IsBlank(l: Line) {
    Text.Trim(l.text) == ""
  }

  function Pop(frames: seq<Meta>, indent: nat): (r: seq<Meta>)
    requires frames != []
    ensures r != [] && r <= frames
  {
    if |frames| > 1 && frames[|frames| - 1].indent >= indent then Pop(frames[..|frames| - 1], indent) else frames
  }

  predicate Valid(s: State) {
    s.frames != [] && Deep(s.tree, |s.frames| - 1)
  }

  function AddChild(parent: Node, info: Info, pending: string): Node {
    var role := if pending == "" then ChildRole(parent.info.typ, PlanChildren(parent.children))
                else SubplanRole(pending);
    parent.(children := parent.children + [Node(info, role, pending, map[], [])])
  }

  function Top(s: State, indent: nat): (n: Node)
    requires Valid(s)
  {
    SpineShrinks(s.tree, |s.frames| - 1, |Pop(s.frames, indent)| - 1);
    SpineAt(s.tree, |Pop(s.frames, indent)| - 1)
  }

  function PutTop(s: State, indent: nat, n: Node): (t: Node)
    requires Valid(s)
    ensures Deep(t, |Pop(s.frames, indent)| - 1) && SpineAt(t, |Pop(s.frames, indent)| - 1) == n
  {
    var d := |Pop(s.frames, indent)| - 1;
    SpineShrinks(s.tree, |s.frames| - 1, d);
    PutThenAt(s.tree, d, n);
    PutAt(s.tree, d, n)
  }

  function NodeStep(s: State, indent: nat, info: Info): (r: State)
    requires Valid(s)
    ensures Valid(r) && r.rootIndent == s.rootIndent
  {
    var popped := Pop(s.frames, indent);
    var t := PutTop(s, indent, AddChild(Top(s, indent), info, s.pending));
    SpineGrows(t, |popped| - 1);
    s.(tree := t, frames := popped + [Meta(indent, -1, "")], pending := "")
  }

  function AttrStep(s: State, line: Line): (r: State)
    requires Valid(s)
    ensures Valid(r) && r.rootIndent == s.rootIndent
  {
    var popped := Pop(s.frames, line.indent);
    var top := Top(s, line.indent);
    var (f, attrs) := ApplyAttr(popped[|popped| - 1], top.attrs, line);
    s.(tree := PutTop(s, line.indent, top.(attrs := attrs)), frames := popped[..|popped| - 1] + [f])
  }

  function Step(s: State, line: Line): (r: State)
    requires Valid(s)
    ensures Valid(r) && r.rootIndent == s.rootIndent
  {
    if IsBlank(line) then s
    else if s.inTail then s.(tail := s.tail + [(line.text, line.indent > s.rootIndent)])
    else if line.node.Some? then NodeStep(s, line.indent, line.node.value)
    else if line.header then
      SpineShrinks(s.tree, |s.frames| - 1, |Pop(s.frames, line.indent)| - 1);
      s.(pending := line.text, frames := Pop(s.frames, line.indent))
    else if line.indent <= s.rootIndent && line.tail then
      s.(inTail := true, tail := s.tail + [(line.text, false)])
    else AttrStep(s, line)
  }

  function Run(s: State, lines: seq<Line>): (r: State)
    requires Valid(s)
    ensures Valid(r) && r.rootIndent == s.rootIndent
    decreases |lines|
  {
    if lines == [] then s else Run(Step(s, lines[0]), lines[1..])
  }

  function Start(line: Line): (s: State)
    requires line.node.Some?
    ensures Valid(s)
  {
    State(Node(line.node.value, "", "", map[], []), [Meta(line.indent, -1, "")], "", false, [], line.indent)
  }

  /** Everything before the first node line is not part of the tree; without one there is no plan. */
  function Parse(lines: seq<Line>): Result<State>
    decreases |lines|
  {
    if lines == [] then Err("no plan node found")
    else if lines[0].node.Some? then Ok(Run(Start(lines[0]), lines[1..]))
    else Parse(lines[1..])
  }

  lemma {:induction false} RunConcat(s: State, a: seq<Line>, b: seq<Line>)
    requires Valid(s)
    ensures Run(s, a + b) == Run(Run(s, a), b)
    decreases |a|
  {
    if a == [] {
      assert a + b == b;
    } else {
      assert (a + b)[0] == a[0] && (a + b)[1..] == a[1..] + b;
      RunConcat(Step(s, a[0]), a[1..], b);
    }
  }

  lemma {:induction false} PopTo(frames: seq<Meta>, j: nat, indent: nat)
    requires j < |frames| && (j == 0 || frames[j].indent < indent)
    requires forall k :: j < k < |frames| ==> frames[k].indent >= indent
    ensures Pop(frames, indent) == frames[..j + 1]
  {
    if j + 1 < |frames| {
      PopTo(frames[..|frames| - 1], j, indent);
      assert frames[..|frames| - 1][..j + 1] == frames[..j + 1];
    } else {
      assert frames[..j + 1] == frames;
    }
  }
}
