/**
 * The parser as it runs: nodes live in growable child slices, the stack holds
 * pointers to nodes inside them, and an append may move a slice to a new backing
 * array. Every frame points into the live copy of the rightmost spine.
 */
module PlanBuilder {
  import opened Common
  import opened PlanTree
  import opened PlanText
  import Text

  /** A slice header: backing array and length. The capacity is the array's size; block 0 is the nil array. */
  datatype Slice = Slice(block: nat, len: nat)

  datatype Cell = Cell(
    info: Info, parentRel: string, subplanName: string, attrs: map<Field, string>, kids: Slice)

  /** A pointer to a node. */
  datatype Addr = Addr(block: nat, idx: nat)

  datatype Frame = Frame(node: Addr, indent: nat, attrsAt: int, lastAttr: string)

  type Memory = seq<seq<Cell>>

  /** Which tree path each live backing array holds the children of. */
  type Owners = map<nat, seq<nat>>

  predicate InMemory(mem: Memory, a: Addr) {
    a.block < |mem| && a.idx < |mem[a.block]|
  }

  function At(mem: Memory, a: Addr): Cell
    requires InMemory(mem, a)
  {
    mem[a.block][a.idx]
  }

  function Put(mem: Memory, a: Addr, c: Cell): Memory
    requires InMemory(mem, a)
  {
    mem[a.block := mem[a.block][a.idx := c]]
  }

  /** The cell c at this path and everything reachable from it are the tree t. */
  ghost predicate Rep(mem: Memory, owner: Owners, path: seq<nat>, c: Cell, t: Node)
    decreases t
  {
    && c.info == t.info && c.parentRel == t.parentRel && c.subplanName == t.subplanName && c.attrs == t.attrs
    && c.kids.len == |t.children| && c.kids.block < |mem| && c.kids.len <= |mem[c.kids.block]|
    && (if t.children == [] then c.kids.block == 0 else c.kids.block in owner && owner[c.kids.block] == path)
    && forall i :: 0 <= i < |t.children| ==> Rep(mem, owner, path + [i], mem[c.kids.block][i], t.children[i])
  }

  predicate IsPrefix(p: seq<nat>, q: seq<nat>) {
    |p| <= |q| && q[..|p|] == p
  }

  /** Arrays below this path are untouched. */
  ghost predicate Untouched(mem: Memory, mem': Memory, owner: Owners, owner': Owners, path: seq<nat>) {
    forall b :: b in owner && IsPrefix(path, owner[b]) ==>
      b in owner' && owner'[b] == owner[b] && (b < |mem| ==> b < |mem'| && mem'[b] == mem[b])
  }

  lemma {:induction false} RepUntouched(
    mem: Memory, mem': Memory, owner: Owners, owner': Owners, path: seq<nat>, c: Cell, t: Node)
    requires Rep(mem, owner, path, c, t) && |mem| > 0 && |mem'| > 0 && mem'[0] == mem[0]
    requires Untouched(mem, mem', owner, owner', path)
    ensures Rep(mem', owner', path, c, t)
    decreases t
  {
    assert IsPrefix(path, path);
    forall i | 0 <= i < |t.children|
      ensures Rep(mem', owner', path + [i], mem[c.kids.block][i], t.children[i])
    {
      forall b | b in owner && IsPrefix(path + [i], owner[b]) ensures IsPrefix(path, owner[b]) {
        assert owner[b][..|path|] == owner[b][..|path| + 1][..|path|];
      }
      RepUntouched(mem, mem', owner, owner', path + [i], mem[c.kids.block][i], t.children[i]);
    }
  }

  // ----- the rightmost spine in memory

  ghost function RightPath(path: seq<nat>, t: Node, d: nat): (p: seq<nat>)
    requires Deep(t, d)
    ensures |p| == |path| + d && p[..|path|] == path
    decreases d
  {
    if d == 0 then path else RightPath(path + [|t.children| - 1], t.children[|t.children| - 1], d - 1)
  }

  function LastKid(c: Cell): Addr
    requires c.kids.len > 0
  {
    Addr(c.kids.block, c.kids.len - 1)
  }

  /** target is the address of the node d steps down the rightmost spine of the tree at a. */
  ghost predicate OnSpine(mem: Memory, a: Addr, t: Node, d: nat, target: Addr)
    decreases d
  {
    InMemory(mem, a) &&
    if d == 0 then a == target
    else t.children != [] && At(mem, a).kids.len == |t.children|
         && OnSpine(mem, LastKid(At(mem, a)), t.children[|t.children| - 1], d - 1, target)
  }

  lemma {:induction false} SpineFacts(
    mem: Memory, owner: Owners, path: seq<nat>, a: Addr, t: Node, d: nat, target: Addr)
    requires OnSpine(mem, a, t, d, target) && Rep(mem, owner, path, At(mem, a), t)
    ensures Deep(t, d) && InMemory(mem, target)
    ensures Rep(mem, owner, RightPath(path, t, d), At(mem, target), SpineAt(t, d))
    ensures d > 0 ==> target.block in owner && owner[target.block] == RightPath(path, t, d)[..|path| + d - 1]
    decreases d
  {
    if d > 0 {
      var k := |t.children| - 1;
      LastKidRep(mem, owner, path, a, t);
      SpineFacts(mem, owner, path + [k], LastKid(At(mem, a)), t.children[k], d - 1, target);
      if d == 1 {
        assert target == LastKid(At(mem, a)) && RightPath(path, t, d) == path + [k];
      }
    }
  }

  lemma LastKidRep(mem: Memory, owner: Owners, path: seq<nat>, a: Addr, t: Node)
    requires InMemory(mem, a) && Rep(mem, owner, path, At(mem, a), t) && t.children != []
    ensures var c, k := At(mem, a), |t.children| - 1;
      && c.kids.len == |t.children| && InMemory(mem, LastKid(c))
      && Rep(mem, owner, path + [k], At(mem, LastKid(c)), t.children[k])
      && c.kids.block in owner && owner[c.kids.block] == path
  {
  }

  /**
   * mem' is mem with the cell at target rewritten; apart from arrays holding the
   * children of path p, nothing else changed.
   */
  ghost predicate Rewritten(
    mem: Memory, mem': Memory, owner: Owners, owner': Owners, p: seq<nat>, target: Addr)
  {
    && InMemory(mem, target) && InMemory(mem', target) && |mem'| > 0 && mem'[0] == mem[0]
    && |mem'[target.block]| == |mem[target.block]|
    && (forall i :: 0 <= i < |mem[target.block]| && i != target.idx ==>
          mem'[target.block][i] == mem[target.block][i])
    && (forall b :: b in owner && owner[b] != p ==>
          b in owner' && owner'[b] == owner[b]
          && (b < |mem| && b != target.block ==> b < |mem'| && mem'[b] == mem[b]))
  }

  /** Earlier siblings of the spine do not notice the write. */
  lemma SiblingUntouched(
    mem: Memory, mem': Memory, owner: Owners, owner': Owners, path: seq<nat>, i: nat, c: Cell, t: Node,
    p: seq<nat>, target: Addr)
    requires Rep(mem, owner, path + [i], c, t) && |mem| > 0
    requires Rewritten(mem, mem', owner, owner', p, target)
    requires |p| > |path| && p[..|path|] == path && p[|path|] != i
    requires target.block in owner && owner[target.block] == p[..|p| - 1]
    ensures Rep(mem', owner', path + [i], c, t)
  {
    forall b | b in owner && IsPrefix(path + [i], owner[b])
      ensures owner[b] != p && b != target.block
    {
      assert owner[b][..|path| + 1][|path|] == i;
    }
    RepUntouched(mem, mem', owner, owner', path + [i], c, t);
  }

  lemma RightPathFirst(path: seq<nat>, t: Node, d: nat)
    requires Deep(t, d) && d > 0
    ensures RightPath(path, t, d)[|path|] == |t.children| - 1
    ensures RightPath(path, t, d) == RightPath(path + [|t.children| - 1], t.children[|t.children| - 1], d - 1)
  {
    var p := RightPath(path, t, d);
    assert p[..|path| + 1] == path + [|t.children| - 1];
    assert p[|path|] == p[..|path| + 1][|path|];
  }

  function WithLast(t: Node, m: Node): Node
    requires t.children != []
  {
    t.(children := t.children[..|t.children| - 1] + [m])
  }

  lemma RepWithLast(mem: Memory, owner: Owners, path: seq<nat>, c: Cell, t: Node, m: Node)
    requires t.children != []
    requires c.info == t.info && c.parentRel == t.parentRel && c.subplanName == t.subplanName && c.attrs == t.attrs
    requires c.kids.len == |t.children| && c.kids.block < |mem| && c.kids.len <= |mem[c.kids.block]|
    requires c.kids.block in owner && owner[c.kids.block] == path
    requires forall i :: 0 <= i < |t.children| - 1 ==> Rep(mem, owner, path + [i], mem[c.kids.block][i], t.children[i])
    requires Rep(mem, owner, path + [|t.children| - 1], mem[c.kids.block][|t.children| - 1], m)
    ensures Rep(mem, owner, path, c, WithLast(t, m))
  {
    var t' := WithLast(t, m);
    forall i | 0 <= i < |t'.children|
      ensures Rep(mem, owner, path + [i], mem[c.kids.block][i], t'.children[i])
    {
      if i < |t.children| - 1 {
        assert t'.children[i] == t.children[i];
      }
    }
  }

  /** mem' rewrites the node d steps down the spine of the tree t at a. */
  ghost predicate Writes(
    mem: Memory, mem': Memory, owner: Owners, owner': Owners, path: seq<nat>, a: Addr, t: Node, d: nat,
    p: seq<nat>, target: Addr)
  {
    && OnSpine(mem, a, t, d, target) && Rep(mem, owner, path, At(mem, a), t)
    && Deep(t, d) && p == RightPath(path, t, d) && Rewritten(mem, mem', owner, owner', p, target)
    && InMemory(mem', a) && (d > 0 ==> At(mem', a) == At(mem, a))
  }

  /** One step down the spine: the child slice stays where it is, only its last cell may differ. */
  lemma KidStays(
    mem: Memory, mem': Memory, owner: Owners, owner': Owners, path: seq<nat>, a: Addr, t: Node, d: nat,
    p: seq<nat>, target: Addr)
    requires d > 0 && Writes(mem, mem', owner, owner', path, a, t, d, p, target)
    ensures var kid := LastKid(At(mem, a));
      InMemory(mem, kid) && InMemory(mem', kid) && |mem'[kid.block]| == |mem[kid.block]|
      && kid.block in owner' && owner'[kid.block] == path
      && (forall i :: 0 <= i < kid.idx ==> mem'[kid.block][i] == mem[kid.block][i])
      && (d > 1 ==> At(mem', kid) == At(mem, kid))
    ensures target.block in owner && owner[target.block] == p[..|p| - 1]
  {
    SpineFacts(mem, owner, path, a, t, d, target);
    var kid := LastKid(At(mem, a));
    assert owner[kid.block] == path && |path| < |p|;
    if d > 1 {
      assert |owner[target.block]| == |path| + d - 1;
      assert kid.block != target.block;
    } else {
      assert OnSpine(mem, kid, t.children[|t.children| - 1], 0, target);
    }
  }

  lemma WritesBelow(
    mem: Memory, mem': Memory, owner: Owners, owner': Owners, path: seq<nat>, a: Addr, t: Node, d: nat,
    p: seq<nat>, target: Addr)
    requires d > 0 && Writes(mem, mem', owner, owner', path, a, t, d, p, target)
    ensures InMemory(mem, LastKid(At(mem, a)))
    ensures Writes(mem, mem', owner, owner', path + [|t.children| - 1], LastKid(At(mem, a)),
                   t.children[|t.children| - 1], d - 1, p, target)
  {
    RightPathFirst(path, t, d);
    KidStays(mem, mem', owner, owner', path, a, t, d, p, target);
  }

  lemma SiblingsUntouched(
    mem: Memory, mem': Memory, owner: Owners, owner': Owners, path: seq<nat>, a: Addr, t: Node, d: nat,
    p: seq<nat>, target: Addr, m: Node)
    requires d > 0 && Writes(mem, mem', owner, owner', path, a, t, d, p, target)
    requires InMemory(mem', LastKid(At(mem, a)))
    requires Rep(mem', owner', path + [|t.children| - 1], At(mem', LastKid(At(mem, a))), m)
    ensures Rep(mem', owner', path, At(mem', a), WithLast(t, m))
  {
    var c := At(mem, a);
    RightPathFirst(path, t, d);
    KidStays(mem, mem', owner, owner', path, a, t, d, p, target);
    forall i | 0 <= i < |t.children| - 1
      ensures Rep(mem', owner', path + [i], mem'[c.kids.block][i], t.children[i])
    {
      SiblingUntouched(mem, mem', owner, owner', path, i, mem[c.kids.block][i], t.children[i], p, target);
    }
    RepWithLast(mem', owner', path, c, t, m);
  }

  /** Rewriting a spine node rewrites that node of the tree. */
  lemma {:induction false} SpineWritten(
    mem: Memory, mem': Memory, owner: Owners, owner': Owners, path: seq<nat>, a: Addr, t: Node, d: nat, n: Node,
    p: seq<nat>, target: Addr)
    requires Writes(mem, mem', owner, owner', path, a, t, d, p, target)
    requires InMemory(mem', target) && Rep(mem', owner', p, At(mem', target), n)
    ensures Rep(mem', owner', path, At(mem', a), PutAt(t, d, n))
    decreases d
  {
    if d > 0 {
      var k := |t.children| - 1;
      WritesBelow(mem, mem', owner, owner', path, a, t, d, p, target);
      SpineWritten(mem, mem', owner, owner', path + [k], LastKid(At(mem, a)), t.children[k], d - 1, n, p, target);
      SiblingsUntouched(mem, mem', owner, owner', path, a, t, d, p, target, PutAt(t.children[k], d - 1, n));
    }
  }

  /** The addresses of the spine survive the write. */
  lemma {:induction false} SpineStays(
    mem: Memory, mem': Memory, owner: Owners, owner': Owners, path: seq<nat>, a: Addr, t: Node, d: nat, n: Node,
    p: seq<nat>, target: Addr, e: nat, at: Addr)
    requires Writes(mem, mem', owner, owner', path, a, t, d, p, target)
    requires e <= d && OnSpine(mem, a, t, e, at)
    ensures OnSpine(mem', a, PutAt(t, d, n), e, at)
    decreases d
  {
    if e > 0 {
      var k := |t.children| - 1;
      WritesBelow(mem, mem', owner, owner', path, a, t, d, p, target);
      SpineStays(mem, mem', owner, owner', path + [k], LastKid(At(mem, a)), t.children[k], d - 1, n, p, target, e - 1, at);
    }
  }

  // ----- the two writes the parser makes

  /** Rewriting the scalar fields of a node leaves its children where they are. */
  lemma AttrsWritten(mem: Memory, owner: Owners, p: seq<nat>, target: Addr, n: Node, attrs: map<Field, string>)
    requires InMemory(mem, target) && Rep(mem, owner, p, At(mem, target), n) && mem[0] == []
    requires target.block in owner ==> !IsPrefix(p, owner[target.block])
    ensures var mem' := Put(mem, target, At(mem, target).(attrs := attrs));
      Rewritten(mem, mem', owner, owner, p, target)
      && Rep(mem', owner, p, At(mem', target), n.(attrs := attrs))
  {
    var mem' := Put(mem, target, At(mem, target).(attrs := attrs));
    forall b | b in owner && IsPrefix(p, owner[b]) ensures b < |mem| ==> mem'[b] == mem[b] {
      assert b != target.block;
    }
    RepUntouched(mem, mem', owner, owner, p, At(mem, target), n);
  }

  /** What append leaves behind: the child in the next slot, in place or in a moved copy of the slice. */
  ghost predicate Appended(
    mem: Memory, mem': Memory, owner: Owners, owner': Owners, p: seq<nat>, target: Addr, child: Cell)
  {
    && InMemory(mem, target)
    && var c := At(mem, target);
    && Rewritten(mem, mem', owner, owner', p, target)
    && var c' := At(mem', target);
    && c' == c.(kids := c'.kids) && c'.kids.len == c.kids.len + 1
    && c'.kids.block < |mem'| && c'.kids.len <= |mem'[c'.kids.block]|
    && c'.kids.block in owner' && owner'[c'.kids.block] == p
    && c.kids.block < |mem| && c.kids.len <= |mem[c.kids.block]|
    && (forall i :: 0 <= i < c.kids.len ==> mem'[c'.kids.block][i] == mem[c.kids.block][i])
    && mem'[c'.kids.block][c.kids.len] == child
  }

  lemma ChildAppended(
    mem: Memory, mem': Memory, owner: Owners, owner': Owners, p: seq<nat>, target: Addr, n: Node,
    child: Cell, added: Node)
    requires Appended(mem, mem', owner, owner', p, target, child) && Rep(mem, owner, p, At(mem, target), n)
    requires target.block in owner ==> |owner[target.block]| < |p|
    requires child == Cell(added.info, added.parentRel, added.subplanName, added.attrs, Slice(0, 0))
    requires added.children == []
    ensures Rep(mem', owner', p, At(mem', target), n.(children := n.children + [added]))
  {
    var c, c', n' := At(mem, target), At(mem', target), n.(children := n.children + [added]);
    forall i | 0 <= i < |n'.children|
      ensures Rep(mem', owner', p + [i], mem'[c'.kids.block][i], n'.children[i])
    {
      if i < |n.children| {
        forall b | b in owner && IsPrefix(p + [i], owner[b]) ensures owner[b] != p && b != target.block {
          assert |owner[b]| > |p|;
        }
        RepUntouched(mem, mem', owner, owner', p + [i], mem[c.kids.block][i], n.children[i]);
      }
    }
  }

  const ROOT := Addr(1, 0)

  function Metas(stack: seq<Frame>): (r: seq<Meta>)
    ensures |r| == |stack|
    ensures forall i :: 0 <= i < |stack| ==> r[i] == Meta(stack[i].indent, stack[i].attrsAt, stack[i].lastAttr)
  {
    seq(|stack|, i requires 0 <= i < |stack| => Meta(stack[i].indent, stack[i].attrsAt, stack[i].lastAttr))
  }

  lemma PopKeepsPrefix(stack: seq<Frame>, n: nat)
    requires n <= |stack|
    ensures Metas(stack[..n]) == Metas(stack)[..n]
  {
  }

  lemma PrefixConsistent(mem: Memory, owner: Owners, stack: seq<Frame>, tree: Node, n: nat)
    requires Consistent(mem, owner, stack, tree) && 0 < n <= |stack|
    ensures Consistent(mem, owner, stack[..n], tree)
  {
  }

  /** Memory holds the tree, and the frames are its live rightmost spine. */
  ghost predicate Consistent(mem: Memory, owner: Owners, stack: seq<Frame>, tree: Node) {
    && |mem| >= 2 && mem[0] == [] && |mem[1]| == 1 && 0 !in owner && 1 !in owner
    && (forall b :: b in owner ==> b < |mem|)
    && Rep(mem, owner, [], At(mem, ROOT), tree)
    && stack != []
    && forall j :: 0 <= j < |stack| ==> OnSpine(mem, ROOT, tree, j, stack[j].node)
  }

  predicate Growing(stack: seq<Frame>) {
    forall j :: 1 <= j < |stack| - 1 ==> stack[j].indent < stack[j + 1].indent
  }

  /** mem' rewrites the node of the top frame, which becomes n. */
  ghost predicate TopWritten(
    mem: Memory, mem': Memory, owner: Owners, owner': Owners, stack: seq<Frame>, tree: Node, n: Node)
  {
    && stack != [] && Deep(tree, |stack| - 1)
    && var d, target := |stack| - 1, stack[|stack| - 1].node;
    && var p := RightPath([], tree, d);
    && |mem'| >= |mem| && (forall b :: b in owner' ==> b < |mem'|) && 0 !in owner' && 1 !in owner'
    && (d > 0 && |mem| > 1 ==> mem'[1] == mem[1])
    && Rewritten(mem, mem', owner, owner', p, target)
    && Rep(mem', owner', p, At(mem', target), n)
  }

  /** A write through the top frame keeps every frame on the live spine: no frame points at a moved node. */
  lemma WriteKeepsSpine(
    mem: Memory, mem': Memory, owner: Owners, owner': Owners, stack: seq<Frame>, tree: Node, n: Node)
    requires Consistent(mem, owner, stack, tree) && TopWritten(mem, mem', owner, owner', stack, tree, n)
    ensures Consistent(mem', owner', stack, PutAt(tree, |stack| - 1, n))
  {
    var d, target := |stack| - 1, stack[|stack| - 1].node;
    var p := RightPath([], tree, d);
    if d == 0 {
      assert target == ROOT;
    }
    assert Writes(mem, mem', owner, owner', [], ROOT, tree, d, p, target);
    SpineWritten(mem, mem', owner, owner', [], ROOT, tree, d, n, p, target);
    forall j | 0 <= j < |stack| ensures OnSpine(mem', ROOT, PutAt(tree, d, n), j, stack[j].node) {
      SpineStays(mem, mem', owner, owner', [], ROOT, tree, d, n, p, target, j, stack[j].node);
    }
  }

  lemma FrameReplaced(mem: Memory, owner: Owners, stack: seq<Frame>, tree: Node, top: Frame)
    requires Consistent(mem, owner, stack, tree) && top.node == stack[|stack| - 1].node
    ensures Consistent(mem, owner, stack[..|stack| - 1] + [top], tree)
    ensures Metas(stack[..|stack| - 1] + [top]) ==
      Metas(stack)[..|stack| - 1] + [Meta(top.indent, top.attrsAt, top.lastAttr)]
  {
  }

  method PopFrames(frames: seq<Frame>, indent: nat) returns (stack: seq<Frame>)
    requires frames != []
    ensures 1 <= |stack| <= |frames| && stack == frames[..|stack|]
    ensures Metas(stack) == Pop(Metas(frames), indent)
    ensures |stack| > 1 ==> stack[|stack| - 1].indent < indent
  {
    stack := frames;
    while |stack| > 1 && stack[|stack| - 1].indent >= indent
      invariant 1 <= |stack| <= |frames| && stack == frames[..|stack|]
      invariant Pop(Metas(stack), indent) == Pop(Metas(frames), indent)
      decreases |stack|
    {
      PopKeepsPrefix(stack, |stack| - 1);
      stack := stack[..|stack| - 1];
    }
  }

  method NextAttr(frame: Frame, nodeAttrs: map<Field, string>, line: Line)
    returns (top: Frame, attrs: map<Field, string>)
    ensures (Meta(top.indent, top.attrsAt, top.lastAttr), attrs) ==
      ApplyAttr(Meta(frame.indent, frame.attrsAt, frame.lastAttr), nodeAttrs, line)
    ensures top.node == frame.node && top.indent == frame.indent
  {
    top, attrs := frame, nodeAttrs;
    if top.attrsAt == -1 {
      top := top.(attrsAt := line.indent);
    }
    if line.indent > top.attrsAt {
      if line.cut.None? && top.lastAttr != "" {
        attrs := AppendAttr(attrs, top.lastAttr, Text.Trim(line.text));
      }
    } else if line.cut.Some? {
      top := top.(lastAttr := line.cut.value.0);
      attrs := SetAttr(attrs, line.cut.value.0, Text.Trim(line.cut.value.1));
    }
  }

  lemma TopFacts(mem: Memory, owner: Owners, stack: seq<Frame>, tree: Node)
    requires Consistent(mem, owner, stack, tree)
    ensures var d, target := |stack| - 1, stack[|stack| - 1].node;
      Deep(tree, d) && InMemory(mem, target)
      && Rep(mem, owner, RightPath([], tree, d), At(mem, target), SpineAt(tree, d))
      && (target.block in owner ==> |owner[target.block]| < d)
      && (d > 0 ==> target.block in owner)
  {
    var d, target := |stack| - 1, stack[|stack| - 1].node;
    SpineFacts(mem, owner, [], ROOT, tree, d, target);
  }

  lemma TopAttrsWritten(mem: Memory, owner: Owners, stack: seq<Frame>, tree: Node, attrs: map<Field, string>)
    requires Consistent(mem, owner, stack, tree)
    ensures var d, target := |stack| - 1, stack[|stack| - 1].node;
      Deep(tree, d) && InMemory(mem, target)
      && Consistent(Put(mem, target, At(mem, target).(attrs := attrs)), owner, stack,
                    PutAt(tree, d, SpineAt(tree, d).(attrs := attrs)))
  {
    var d, target := |stack| - 1, stack[|stack| - 1].node;
    TopFacts(mem, owner, stack, tree);
    AttrsWritten(mem, owner, RightPath([], tree, d), target, SpineAt(tree, d), attrs);
    WriteKeepsSpine(mem, Put(mem, target, At(mem, target).(attrs := attrs)), owner, owner, stack, tree,
                    SpineAt(tree, d).(attrs := attrs));
  }

  lemma TopReplaced(
    mem: Memory, owner: Owners, stack: seq<Frame>, tree: Node, attrs: map<Field, string>, top: Frame)
    requires Consistent(mem, owner, stack, tree) && Growing(stack)
    requires top.node == stack[|stack| - 1].node && top.indent == stack[|stack| - 1].indent
    ensures var d := |stack| - 1;
      Deep(tree, d) && InMemory(mem, top.node)
      && Consistent(Put(mem, top.node, At(mem, top.node).(attrs := attrs)), owner, stack[..d] + [top],
                    PutAt(tree, d, SpineAt(tree, d).(attrs := attrs)))
      && Growing(stack[..d] + [top])
      && Metas(stack[..d] + [top]) == Metas(stack)[..d] + [Meta(top.indent, top.attrsAt, top.lastAttr)]
  {
    var d := |stack| - 1;
    TopFacts(mem, owner, stack, tree);
    TopAttrsWritten(mem, owner, stack, tree, attrs);
    FrameReplaced(Put(mem, top.node, At(mem, top.node).(attrs := attrs)), owner, stack,
                  PutAt(tree, d, SpineAt(tree, d).(attrs := attrs)), top);
  }

  // ----- append

  /** Room left: the child goes into the next slot of the same array. */
  function InPlace(mem: Memory, target: Addr, child: Cell): Memory
    requires InMemory(mem, target)
    requires At(mem, target).kids.block < |mem| && At(mem, target).kids.len < |mem[At(mem, target).kids.block]|
    requires At(mem, target).kids.block != target.block
  {
    var c := At(mem, target);
    Put(Put(mem, Addr(c.kids.block, c.kids.len), child), target,
        c.(kids := Slice(c.kids.block, c.kids.len + 1)))
  }

  /** No room: the slice moves to a new array of the given capacity, the old one is dead. */
  function Moved(mem: Memory, target: Addr, child: Cell, capacity: nat): Memory
    requires InMemory(mem, target)
    requires At(mem, target).kids.block < |mem| && At(mem, target).kids.len <= |mem[At(mem, target).kids.block]|
    requires capacity > At(mem, target).kids.len
  {
    var c := At(mem, target);
    var moved := mem[c.kids.block][..c.kids.len] + [child] + seq(capacity - c.kids.len - 1, _ => child);
    Put(mem + [moved], target, c.(kids := Slice(|mem|, c.kids.len + 1)))
  }

  lemma InPlaceAppends(mem: Memory, owner: Owners, stack: seq<Frame>, tree: Node, child: Cell)
    requires Consistent(mem, owner, stack, tree)
    requires var target := stack[|stack| - 1].node;
      InMemory(mem, target) && At(mem, target).kids.block < |mem|
      && At(mem, target).kids.len < |mem[At(mem, target).kids.block]|
    ensures var target := stack[|stack| - 1].node;
      Deep(tree, |stack| - 1) && At(mem, target).kids.block != target.block
      && PushReady(mem, InPlace(mem, target, child), owner, owner, stack, tree, child)
  {
    TopFacts(mem, owner, stack, tree);
  }

  lemma MovedAppends(mem: Memory, owner: Owners, stack: seq<Frame>, tree: Node, child: Cell, capacity: nat)
    requires Consistent(mem, owner, stack, tree)
    requires var target := stack[|stack| - 1].node;
      InMemory(mem, target) && At(mem, target).kids.block < |mem|
      && At(mem, target).kids.len <= |mem[At(mem, target).kids.block]| && capacity > At(mem, target).kids.len
    ensures var target := stack[|stack| - 1].node;
      Deep(tree, |stack| - 1)
      && PushReady(mem, Moved(mem, target, child, capacity), owner,
                   (owner - {At(mem, target).kids.block})[|mem| := RightPath([], tree, |stack| - 1)],
                   stack, tree, child)
  {
    TopFacts(mem, owner, stack, tree);
  }

  ghost predicate PushReady(
    mem: Memory, mem': Memory, owner: Owners, owner': Owners, stack: seq<Frame>, tree: Node, child: Cell)
  {
    && stack != [] && Deep(tree, |stack| - 1)
    && Appended(mem, mem', owner, owner', RightPath([], tree, |stack| - 1), stack[|stack| - 1].node, child)
    && |mem'| >= |mem| > 1 && (forall b :: b in owner' ==> b < |mem'|) && 0 !in owner' && 1 !in owner'
    && (|stack| > 1 ==> mem'[1] == mem[1])
  }

  lemma {:induction false} OnSpineDeeper(mem: Memory, a: Addr, t: Node, d: nat, target: Addr)
    requires OnSpine(mem, a, t, d, target) && Deep(t, d) && SpineAt(t, d).children != []
    requires InMemory(mem, target) && At(mem, target).kids.len == |SpineAt(t, d).children|
    requires InMemory(mem, LastKid(At(mem, target)))
    ensures OnSpine(mem, a, t, d + 1, LastKid(At(mem, target)))
    decreases d
  {
    if d > 0 {
      OnSpineDeeper(mem, LastKid(At(mem, a)), t.children[|t.children| - 1], d - 1, target);
    }
  }

  /** After an append the node of the top frame has the child. */
  lemma ChildInTree(
    mem: Memory, mem': Memory, owner: Owners, owner': Owners, stack: seq<Frame>, tree: Node, child: Cell, added: Node)
    requires Consistent(mem, owner, stack, tree) && PushReady(mem, mem', owner, owner', stack, tree, child)
    requires child == Cell(added.info, added.parentRel, added.subplanName, added.attrs, Slice(0, 0))
    requires added.children == []
    ensures Consistent(mem', owner', stack, PutAt(tree, |stack| - 1, WithChild(SpineAt(tree, |stack| - 1), added)))
  {
    var d, top := |stack| - 1, stack[|stack| - 1].node;
    TopFacts(mem, owner, stack, tree);
    ChildAppended(mem, mem', owner, owner', RightPath([], tree, d), top, SpineAt(tree, d), child, added);
    WriteKeepsSpine(mem, mem', owner, owner', stack, tree, WithChild(SpineAt(tree, d), added));
  }

  lemma TopKidOnSpine(mem: Memory, owner: Owners, stack: seq<Frame>, tree: Node)
    requires Consistent(mem, owner, stack, tree)
    requires Deep(tree, |stack| - 1) && SpineAt(tree, |stack| - 1).children != []
    ensures var top := stack[|stack| - 1].node;
      InMemory(mem, top) && At(mem, top).kids.len > 0 && OnSpine(mem, ROOT, tree, |stack|, LastKid(At(mem, top)))
  {
    TopFacts(mem, owner, stack, tree);
    OnSpineDeeper(mem, ROOT, tree, |stack| - 1, stack[|stack| - 1].node);
  }

  lemma GrowingPushed(stack: seq<Frame>, top: Frame)
    requires Growing(stack) && stack != [] && (|stack| > 1 ==> stack[|stack| - 1].indent < top.indent)
    ensures Growing(stack + [top])
  {
  }

  /** The frame of the top node's last child extends the spine. */
  lemma ChildFrame(mem: Memory, owner: Owners, stack: seq<Frame>, tree: Node, indent: nat)
    requires Consistent(mem, owner, stack, tree) && Growing(stack)
    requires |stack| > 1 ==> stack[|stack| - 1].indent < indent
    requires Deep(tree, |stack| - 1) && SpineAt(tree, |stack| - 1).children != []
    ensures var top := stack[|stack| - 1].node;
      InMemory(mem, top) && At(mem, top).kids.len > 0
      && var stack' := stack + [Frame(LastKid(At(mem, top)), indent, -1, "")];
      Consistent(mem, owner, stack', tree) && Growing(stack')
      && Metas(stack') == Metas(stack) + [Meta(indent, -1, "")]
  {
    var top := stack[|stack| - 1].node;
    TopKidOnSpine(mem, owner, stack, tree);
    FramePushed(mem, owner, stack, tree, Frame(LastKid(At(mem, top)), indent, -1, ""));
    GrowingPushed(stack, Frame(LastKid(At(mem, top)), indent, -1, ""));
  }

  lemma MetasPushed(stack: seq<Frame>, top: Frame)
    ensures Metas(stack + [top]) == Metas(stack) + [Meta(top.indent, top.attrsAt, top.lastAttr)]
  {
  }

  lemma FramePushed(mem: Memory, owner: Owners, stack: seq<Frame>, tree: Node, top: Frame)
    requires Consistent(mem, owner, stack, tree) && OnSpine(mem, ROOT, tree, |stack|, top.node)
    ensures Consistent(mem, owner, stack + [top], tree)
    ensures Metas(stack + [top]) == Metas(stack) + [Meta(top.indent, top.attrsAt, top.lastAttr)]
  {
    MetasPushed(stack, top);
    var pushed := stack + [top];
    forall j | 0 <= j < |pushed|
      ensures OnSpine(mem, ROOT, tree, j, pushed[j].node)
    {
      if j < |stack| {
        assert pushed[j] == stack[j];
      }
    }
  }

  predicate SameNode(child: Cell, added: Node) {
    child == Cell(added.info, added.parentRel, added.subplanName, added.attrs, Slice(0, 0)) && added.children == []
  }

  lemma InPlaceConsistent(mem: Memory, owner: Owners, stack: seq<Frame>, tree: Node, child: Cell, added: Node)
    requires Consistent(mem, owner, stack, tree) && SameNode(child, added)
    requires var target := stack[|stack| - 1].node;
      InMemory(mem, target) && At(mem, target).kids.block < |mem|
      && At(mem, target).kids.len < |mem[At(mem, target).kids.block]|
    ensures var target := stack[|stack| - 1].node;
      Deep(tree, |stack| - 1) && At(mem, target).kids.block != target.block
      && Consistent(InPlace(mem, target, child), owner, stack,
                    PutAt(tree, |stack| - 1, WithChild(SpineAt(tree, |stack| - 1), added)))
  {
    InPlaceAppends(mem, owner, stack, tree, child);
    ChildInTree(mem, InPlace(mem, stack[|stack| - 1].node, child), owner, owner, stack, tree, child, added);
  }

  lemma MovedConsistent(
    mem: Memory, owner: Owners, stack: seq<Frame>, tree: Node, child: Cell, added: Node, capacity: nat)
    requires Consistent(mem, owner, stack, tree) && SameNode(child, added)
    requires var target := stack[|stack| - 1].node;
      InMemory(mem, target) && At(mem, target).kids.block < |mem|
      && At(mem, target).kids.len <= |mem[At(mem, target).kids.block]| && capacity > At(mem, target).kids.len
    ensures var target := stack[|stack| - 1].node;
      Deep(tree, |stack| - 1)
      && Consistent(Moved(mem, target, child, capacity),
                    (owner - {At(mem, target).kids.block})[|mem| := RightPath([], tree, |stack| - 1)], stack,
                    PutAt(tree, |stack| - 1, WithChild(SpineAt(tree, |stack| - 1), added)))
  {
    var target := stack[|stack| - 1].node;
    MovedAppends(mem, owner, stack, tree, child, capacity);
    ChildInTree(mem, Moved(mem, target, child, capacity), owner,
                (owner - {At(mem, target).kids.block})[|mem| := RightPath([], tree, |stack| - 1)],
                stack, tree, child, added);
  }

  predicate Sliced(mem: Memory, a: Addr) {
    InMemory(mem, a) && At(mem, a).kids.block < |mem| && At(mem, a).kids.len <= |mem[At(mem, a).kids.block]|
  }

  /** parent.Children = append(parent.Children, child): in place, or in a larger array when the slice is full. */
  function AfterAppend(mem: Memory, parent: Addr, child: Cell, capacity: nat): Memory
    requires Sliced(mem, parent) && capacity > At(mem, parent).kids.len
    requires At(mem, parent).kids.block != parent.block
  {
    var kids := At(mem, parent).kids;
    if kids.len < |mem[kids.block]| then InPlace(mem, parent, child) else Moved(mem, parent, child, capacity)
  }

  ghost function OwnersAfterAppend(mem: Memory, owner: Owners, parent: Addr, p: seq<nat>): Owners
    requires Sliced(mem, parent)
  {
    var kids := At(mem, parent).kids;
    if kids.len < |mem[kids.block]| then owner else (owner - {kids.block})[|mem| := p]
  }

  lemma TopSliced(mem: Memory, owner: Owners, stack: seq<Frame>, tree: Node)
    requires Consistent(mem, owner, stack, tree)
    ensures var parent := stack[|stack| - 1].node;
      Sliced(mem, parent) && At(mem, parent).kids.block != parent.block
      && Deep(tree, |stack| - 1) && At(mem, parent).info == SpineAt(tree, |stack| - 1).info
  {
    TopFacts(mem, owner, stack, tree);
  }

  lemma AppendConsistent(
    mem: Memory, owner: Owners, stack: seq<Frame>, tree: Node, child: Cell, added: Node, capacity: nat)
    requires Consistent(mem, owner, stack, tree) && SameNode(child, added)
    requires Sliced(mem, stack[|stack| - 1].node) && capacity > At(mem, stack[|stack| - 1].node).kids.len
    requires At(mem, stack[|stack| - 1].node).kids.block != stack[|stack| - 1].node.block
    ensures var parent := stack[|stack| - 1].node;
      Deep(tree, |stack| - 1)
      && Consistent(AfterAppend(mem, parent, child, capacity),
                    OwnersAfterAppend(mem, owner, parent, RightPath([], tree, |stack| - 1)), stack,
                    PutAt(tree, |stack| - 1, WithChild(SpineAt(tree, |stack| - 1), added)))
  {
    var parent := stack[|stack| - 1].node;
    var kids := At(mem, parent).kids;
    if kids.len < |mem[kids.block]| {
      InPlaceConsistent(mem, owner, stack, tree, child, added);
    } else {
      MovedConsistent(mem, owner, stack, tree, child, added, capacity);
    }
  }

  /** A node line as one step of memory, owners, tree and stack. */
  lemma NodePushed(
    mem: Memory, owner: Owners, stack: seq<Frame>, tree: Node, child: Cell, added: Node, capacity: nat, indent: nat)
    requires Consistent(mem, owner, stack, tree) && Growing(stack) && SameNode(child, added)
    requires |stack| > 1 ==> stack[|stack| - 1].indent < indent
    requires Sliced(mem, stack[|stack| - 1].node) && capacity > At(mem, stack[|stack| - 1].node).kids.len
    requires At(mem, stack[|stack| - 1].node).kids.block != stack[|stack| - 1].node.block
    ensures var d, parent := |stack| - 1, stack[|stack| - 1].node;
      var mem' := AfterAppend(mem, parent, child, capacity);
      Deep(tree, d) && InMemory(mem', parent) && At(mem', parent).kids.len > 0
      && var stack' := stack + [Frame(LastKid(At(mem', parent)), indent, -1, "")];
      Consistent(mem', OwnersAfterAppend(mem, owner, parent, RightPath([], tree, d)), stack',
                 PutAt(tree, d, WithChild(SpineAt(tree, d), added)))
      && Growing(stack') && Metas(stack') == Metas(stack) + [Meta(indent, -1, "")]
  {
    var d, parent := |stack| - 1, stack[|stack| - 1].node;
    AppendConsistent(mem, owner, stack, tree, child, added, capacity);
    PutThenAt(tree, d, WithChild(SpineAt(tree, d), added));
    ChildFrame(AfterAppend(mem, parent, child, capacity),
               OwnersAfterAppend(mem, owner, parent, RightPath([], tree, d)), stack,
               PutAt(tree, d, WithChild(SpineAt(tree, d), added)), indent);
  }

  class Builder {
    var mem: Memory
    var stack: seq<Frame>
    var pending: string
    var inTail: bool
    var tail: seq<(string, bool)>
    var rootIndent: nat
    ghost var owner: Owners
    ghost var tree: Node

    /** Besides, indents grow strictly above the root frame. */
    ghost predicate Valid()
      reads this
    {
      Consistent(mem, owner, stack, tree) && Growing(stack)
    }

    /** The state the line-by-line reading is about. */
    ghost function View(): State
      reads this
    {
      State(tree, Metas(stack), pending, inTail, tail, rootIndent)
    }

    constructor (line: Line)
      requires line.node.Some?
      ensures Valid() && View() == Start(line)
    {
      mem := [[], [Cell(line.node.value, "", "", map[], Slice(0, 0))]];
      stack := [Frame(ROOT, line.indent, -1, "")];
      pending, inTail, tail, rootIndent := "", false, [], line.indent;
      owner := map[];
      tree := Node(line.node.value, "", "", map[], []);
    }

    lemma ViewValid()
      requires Valid()
      ensures PlanText.Valid(View())
    {
      SpineFacts(mem, owner, [], ROOT, tree, |stack| - 1, stack[|stack| - 1].node);
    }

    method PopDeeper(indent: nat)
      requires Valid()
      modifies this`stack
      ensures Valid() && View() == old(View()).(frames := Pop(Metas(old(stack)), indent))
      ensures |stack| > 1 ==> stack[|stack| - 1].indent < indent
    {
      ghost var before := stack;
      stack := PopFrames(stack, indent);
      PrefixConsistent(mem, owner, before, tree, |stack|);
    }

    /** One attribute or continuation line, applied to the top frame and the node it points to. */
    method ApplyTextAttr(line: Line)
      requires Valid()
      modifies this`mem, this`stack, this`tree
      ensures Valid() && PlanText.Valid(old(View()))
      ensures var d := |old(stack)| - 1;
        var n := SpineAt(old(tree), d);
        var (f, attrs) := ApplyAttr(Metas(old(stack))[d], n.attrs, line);
        View() == old(View()).(tree := PutAt(old(tree), d, n.(attrs := attrs)), frames := Metas(old(stack))[..d] + [f])
    {
      TopFacts(mem, owner, stack, tree);
      var top, attrs := NextAttr(stack[|stack| - 1], At(mem, stack[|stack| - 1].node).attrs, line);
      SetTop(top, attrs);
    }

    method SetTop(top: Frame, attrs: map<Field, string>)
      requires Valid() && top.node == stack[|stack| - 1].node && top.indent == stack[|stack| - 1].indent
      modifies this`mem, this`stack, this`tree
      ensures Valid() && Deep(old(tree), |old(stack)| - 1)
      ensures var d := |old(stack)| - 1;
        View() == old(View()).(tree := PutAt(old(tree), d, SpineAt(old(tree), d).(attrs := attrs)),
                               frames := Metas(old(stack))[..d] + [Meta(top.indent, top.attrsAt, top.lastAttr)])
    {
      TopFacts(mem, owner, stack, tree);
      ghost var tree' := PutAt(tree, |stack| - 1, SpineAt(tree, |stack| - 1).(attrs := attrs));
      TopReplaced(mem, owner, stack, tree, attrs, top);
      mem := Put(mem, top.node, At(mem, top.node).(attrs := attrs));
      stack := stack[..|stack| - 1] + [top];
      tree := tree';
    }

    /** Counts the children that hold a position. */
    method PlanChildrenOf(a: Addr, ghost t: Node, ghost path: seq<nat>) returns (n: nat)
      requires InMemory(mem, a) && Rep(mem, owner, path, At(mem, a), t)
      ensures n == PlanChildren(t.children)
    {
      n := 0;
      var kids := At(mem, a).kids;
      for i := 0 to kids.len
        invariant n == PlanChildren(t.children[..i])
      {
        assert t.children[..i + 1][..i] == t.children[..i];
        if mem[kids.block][i].subplanName == "" {
          n := n + 1;
        }
      }
      assert t.children[..kids.len] == t.children;
    }

    /** The role of the next child, from its header or its position. */
    method NextRole() returns (role: string)
      requires Valid()
      ensures Deep(tree, |stack| - 1)
      ensures var n := SpineAt(tree, |stack| - 1);
        role == if pending == "" then ChildRole(n.info.typ, PlanChildren(n.children)) else SubplanRole(pending)
    {
      TopFacts(mem, owner, stack, tree);
      var parent := stack[|stack| - 1].node;
      var index := PlanChildrenOf(parent, SpineAt(tree, |stack| - 1), RightPath([], tree, |stack| - 1));
      role := ChildRole(At(mem, parent).info.typ, index);
      if pending != "" {
        role := SubplanRole(pending);
      }
    }

    /** A node line: a child of the top frame's node, and a frame pointing at it. */
    method PushNode(indent: nat, info: Info)
      requires Valid() && (|stack| > 1 ==> stack[|stack| - 1].indent < indent)
      modifies this
      ensures Valid() && Deep(old(tree), |old(stack)| - 1)
      ensures var d := |old(stack)| - 1;
        View() == old(View()).(
          tree := PutAt(old(tree), d, AddChild(SpineAt(old(tree), d), info, old(pending))),
          frames := Metas(old(stack)) + [Meta(indent, -1, "")], pending := "")
    {
      var role := NextRole();
      AppendAndPush(Cell(info, role, pending, map[], Slice(0, 0)), Node(info, role, pending, map[], []), indent);
      pending := "";
    }

    method AppendAndPush(child: Cell, ghost added: Node, indent: nat)
      requires Valid() && SameNode(child, added) && (|stack| > 1 ==> stack[|stack| - 1].indent < indent)
      modifies this`mem, this`owner, this`tree, this`stack
      ensures Valid() && Deep(old(tree), |old(stack)| - 1)
      ensures tree == PutAt(old(tree), |old(stack)| - 1, WithChild(SpineAt(old(tree), |old(stack)| - 1), added))
      ensures Metas(stack) == Metas(old(stack)) + [Meta(indent, -1, "")]
    {
      TopSliced(mem, owner, stack, tree);
      var parent := stack[|stack| - 1].node;
      var capacity: nat :| capacity > At(mem, parent).kids.len;
      NodePushed(mem, owner, stack, tree, child, added, capacity, indent);
      owner, tree := OwnersAfterAppend(mem, owner, parent, RightPath([], tree, |stack| - 1)),
                     PutAt(tree, |stack| - 1, WithChild(SpineAt(tree, |stack| - 1), added));
      mem := AfterAppend(mem, parent, child, capacity);
      stack := stack + [Frame(LastKid(At(mem, parent)), indent, -1, "")];
    }

    /** One turn of the line loop. */
    method Feed(line: Line)
      requires Valid()
      modifies this
      ensures Valid() && PlanText.Valid(old(View())) && View() == Step(old(View()), line)
    {
      ViewValid();
      if IsBlank(line) {
        return;
      }
      if inTail {
        tail := tail + [(line.text, line.indent > rootIndent)];
        return;
      }
      if line.node.Some? {
        PopDeeper(line.indent);
        PushNode(line.indent, line.node.value);
        return;
      }
      if line.header {
        pending := line.text;
        PopDeeper(line.indent);
        return;
      }
      if line.indent <= rootIndent && line.tail {
        inTail, tail := true, tail + [(line.text, false)];
        return;
      }
      PopDeeper(line.indent);
      ApplyTextAttr(line);
    }

    /** The line loop. */
    method FeedAll(lines: seq<Line>)
      requires Valid() && PlanText.Valid(View())
      modifies this
      ensures Valid() && PlanText.Valid(old(View())) && View() == Run(old(View()), lines)
    {
      ghost var start := View();
      for i := 0 to |lines|
        invariant Valid() && PlanText.Valid(View()) && PlanText.Valid(start)
        invariant Run(View(), lines[i..]) == Run(start, lines)
      {
        assert lines[i..][1..] == lines[i + 1..];
        Feed(lines[i]);
      }
      assert lines[|lines|..] == [];
    }

    /** The tree a pointer leads to, read out of memory. */
    method Load(a: Addr, ghost path: seq<nat>, ghost t: Node) returns (n: Node)
      requires InMemory(mem, a) && Rep(mem, owner, path, At(mem, a), t)
      ensures n == t
      decreases t
    {
      var c := At(mem, a);
      var children: seq<Node> := [];
      for i := 0 to c.kids.len
        invariant children == t.children[..i]
      {
        var child := Load(Addr(c.kids.block, i), path + [i], t.children[i]);
        children := children + [child];
      }
      n := Node(c.info, c.parentRel, c.subplanName, c.attrs, children);
    }
  }

  /** The whole parse: what the code builds in place is what the line-by-line reading says. */
  method ParseText(lines: seq<Line>) returns (r: Result<(Node, seq<(string, bool)>)>)
    ensures r.Ok? <==> Parse(lines).Ok?
    ensures r.Ok? ==> r.value == (Parse(lines).value.tree, Parse(lines).value.tail)
    ensures r.Err? ==> forall i :: 0 <= i < |lines| ==> lines[i].node.None?
  {
    var i := 0;
    while i < |lines| && lines[i].node.None?
      invariant 0 <= i <= |lines| && Parse(lines[i..]) == Parse(lines)
      invariant forall k :: 0 <= k < i ==> lines[k].node.None?
    {
      assert lines[i..][1..] == lines[i + 1..];
      i := i + 1;
    }
    if i == |lines| {
      return Err("no plan node found");
    }
    var builder := new Builder(lines[i]);
    assert lines[i..][1..] == lines[i + 1..];
    i := i + 1;
    builder.FeedAll(lines[i..]);
    var root := builder.Load(ROOT, [], builder.tree);
    r := Ok((root, builder.tail));
  }
}
