/**
 * The rule catalogue over a parsed plan: every finding points at the node that triggered
 * it, and every rule either runs or is reported dormant.
 */
module PlanRules {
  import opened Common
  import opened PlanTree
  import opened PlanWalk
  import opened RealArithmetic
  import Sorting
  import Text

  datatype Severity = High | Medium | Low

  datatype Finding = Finding(code: string, severity: Severity, path: Path, nodeType: string, relation: string)

  datatype Capabilities = Capabilities(actual: bool, timing: bool, buffers: bool)

  /** triggers holds the time of each. */
  datatype Plan = Plan(
    root: Node, caps: Capabilities, workMemKb: Option<real>, jitTotal: Option<real>, triggers: seq<real>,
    executionTime: Option<real>, duration: Option<real>)

  /** How the numbers in attribute texts are read. */
  datatype Reader = Reader(
    number: string -> Option<real>, exactBlocks: string -> Option<real>, lossyBlocks: string -> Option<real>,
    sortMethod: string -> string)

  /** What a rule is given: the plan, what the caller knows, the reading of its texts. */
  datatype Case = Case(plan: Plan, workMemKb: Option<real>, tableRows: map<string, real>, reader: Reader)

  function FindingAt(code: string, severity: Severity, path: Path, n: Node): Finding {
    Finding(code, severity, path, n.info.typ, n.info.relation)
  }

  /** The path of the finding leads to a node of the type and relation it names. */
  predicate PointsAt(root: Node, f: Finding) {
    var at := NodeAt(root, f.path);
    at.Some? && f.nodeType == at.value.info.typ && f.relation == at.value.info.relation
  }

  // ----- readings

  function Attr(n: Node, f: Field): string {
    if f in n.attrs then n.attrs[f] else ""
  }

  function Number(c: Case, n: Node, f: Field): Option<real> {
    if f in n.attrs then c.reader.number(n.attrs[f]) else None
  }

  function Or(x: Option<real>, default: real): real {
    if x.Some? then x.value else default
  }

  /** A share of nothing is nothing. */
  function Share(part: real, whole: real): real {
    if whole == 0.0 then 0.0 else part / whole
  }

  function MaxReal(a: real, b: real): real { if a >= b then a else b }

  /** The node's output across all loops. */
  function TotalRows(n: Node): real {
    if n.info.actual.None? then 0.0 else n.info.actual.value.rows * n.info.actual.value.loops
  }

  /** Rows rejected in one loop, by the join condition and by the filter together. */
  function RowsRemoved(c: Case, n: Node): real {
    Or(Number(c, n, RowsRemovedByFilter), 0.0) + Or(Number(c, n, RowsRemovedByJoinFilter), 0.0)
  }

  function ScannedRows(c: Case, n: Node): real {
    if n.info.actual.None? then 0.0 else TotalRows(n) + RowsRemoved(c, n) * n.info.actual.value.loops
  }

  /** The known size of the relation: by its qualified name, else by the bare one. */
  function TableRows(c: Case, n: Node): Option<real> {
    var qualified := n.info.schema + "." + n.info.relation;
    if n.info.relation == "" then None
    else if n.info.schema != "" && qualified in c.tableRows then Some(c.tableRows[qualified])
    else if n.info.relation in c.tableRows then Some(c.tableRows[n.info.relation])
    else None
  }

  /** Execution time as reported, else as logged, else that of the root. */
  function TotalTime(p: Plan): real {
    if p.executionTime.Some? then p.executionTime.value
    else if p.duration.Some? then p.duration.value
    else if p.root.info.actual.Some? then p.root.info.actual.value.totalTime
    else 0.0
  }

  predicate Contains(s: string, part: string) {
    |part| <= |s| && (s[..|part|] == part || (s != [] && Contains(s[1..], part)))
  }

  /** The first child on that side, the number of children when there is none. */
  function SideAt(n: Node, rel: string, from: nat): (i: nat)
    requires from <= |n.children|
    ensures from <= i <= |n.children| && (i < |n.children| ==> n.children[i].parentRel == rel)
    ensures forall j :: from <= j < i ==> n.children[j].parentRel != rel
    decreases |n.children| - from
  {
    if from == |n.children| || n.children[from].parentRel == rel then from else SideAt(n, rel, from + 1)
  }

  predicate HasSides(n: Node) {
    SideAt(n, "Outer", 0) < |n.children| && SideAt(n, "Inner", 0) < |n.children|
  }

  /** The first outer and the first inner child; children of other kinds in between do not count. */
  method JoinSides(n: Node) returns (outer: int, inner: int, ok: bool)
    ensures ok <==> HasSides(n)
    ensures ok ==> outer == SideAt(n, "Outer", 0) && inner == SideAt(n, "Inner", 0)
  {
    outer, inner := -1, -1;
    for i := 0 to |n.children|
      invariant -1 <= outer < i && -1 <= inner < i
      invariant outer < 0 ==> forall j :: 0 <= j < i ==> n.children[j].parentRel != "Outer"
      invariant inner < 0 ==> forall j :: 0 <= j < i ==> n.children[j].parentRel != "Inner"
      invariant outer >= 0 ==> n.children[outer].parentRel == "Outer" && forall j :: 0 <= j < outer ==> n.children[j].parentRel != "Outer"
      invariant inner >= 0 ==> n.children[inner].parentRel == "Inner" && forall j :: 0 <= j < inner ==> n.children[j].parentRel != "Inner"
    {
      if n.children[i].parentRel == "Outer" && outer < 0 {
        outer := i;
      } else if n.children[i].parentRel == "Inner" && inner < 0 {
        inner := i;
      }
    }
    ok := outer >= 0 && inner >= 0;
  }

  // ----- rules that judge one node at a time

  function When(holds: bool, severity: Severity): Option<Severity> {
    if holds then Some(severity) else None
  }

  /** A sequential scan with a filter: large by the table's known size, else by rows read, else by cost. */
  function SeqScanLarge(c: Case, v: Visit): Option<Severity> {
    var n := v.node;
    var rows, scanned := TableRows(c, n), ScannedRows(c, n);
    if n.info.typ != "Seq Scan" || Attr(n, Filter) == "" then None
    else if rows.Some? then When(rows.value >= 100_000.0, Medium)
    else if scanned > 0.0 then When(scanned >= 100_000.0, Medium)
    else When(n.info.totalCost >= 1_000.0, Low)
  }

  function NestedLoopBlowup(c: Case, v: Visit): Option<Severity> {
    var n := v.node;
    if n.info.typ != "Nested Loop" || !HasSides(n) then None
    else
      var outer, inner := n.children[SideAt(n, "Outer", 0)].info.planRows, n.children[SideAt(n, "Inner", 0)].info.planRows;
      When(outer >= 1_000.0 && outer * inner >= 1_000_000.0, Medium)
  }

  function SortEstimateSpill(c: Case, v: Visit): Option<Severity> {
    var i := v.node.info;
    if c.workMemKb.None? || !(i.typ in {"Sort", "Incremental Sort", "Hash"}) then None
    else When(i.planRows * i.planWidth as real / 1024.0 > c.workMemKb.value, Medium)
  }

  function CteMaterialize(c: Case, v: Visit): Option<Severity> {
    When(v.node.info.typ in {"CTE Scan", "Materialize"} && v.node.info.planRows >= 100_000.0, Low)
  }

  /** Estimate and measurement of one loop, at least one row each, ten times apart. */
  function RowMisestimate(c: Case, v: Visit): Option<Severity> {
    var a := v.node.info.actual;
    if a.None? || a.value.loops == 0.0 then None
    else
      var estimated, actual := MaxReal(v.node.info.planRows, 1.0), MaxReal(a.value.rows, 1.0);
      When(MaxReal(estimated, actual) >= 100.0 && MaxReal(estimated / actual, actual / estimated) >= 10.0, High)
  }

  function SortSpillActual(c: Case, v: Visit): Option<Severity> {
    When(Contains(c.reader.sortMethod(Attr(v.node, SortMethod)), "external"), Medium)
  }

  function FilterDiscardsRows(c: Case, v: Visit): Option<Severity> {
    var n := v.node;
    if n.info.actual.None? || (Number(c, n, RowsRemovedByFilter).None? && Number(c, n, RowsRemovedByJoinFilter).None?) then None
    else
      var removed := RowsRemoved(c, n) * n.info.actual.value.loops;
      When(removed >= 10_000.0 && Share(removed, removed + TotalRows(n)) >= 0.9, Medium)
  }

  function HeapFetchesHigh(c: Case, v: Visit): Option<Severity> {
    var n := v.node;
    var fetches := Number(c, n, HeapFetches);
    if n.info.typ != "Index Only Scan" || fetches.None? || n.info.actual.None? then None
    else When(fetches.value >= 1_000.0 && TotalRows(n) > 0.0 && Share(fetches.value, TotalRows(n)) >= 0.2, Medium)
  }

  /** The inner side of a nested loop ran far more often than the outer estimate accounts for. */
  function LoopsBlowup(c: Case, v: Visit): Option<Severity> {
    var a := v.node.info.actual;
    if a.None? || v.parent.None? || v.parent.value.info.typ != "Nested Loop" || v.node.parentRel != "Inner"
       || !HasSides(v.parent.value) then None
    else
      var parent := v.parent.value;
      var estimate := MaxReal(parent.children[SideAt(parent, "Outer", 0)].info.planRows, 1.0);
      var expected := if parent.info.actual.Some? && parent.info.actual.value.loops > 0.0
                      then estimate * parent.info.actual.value.loops else estimate;
      When(a.value.loops >= 1_000.0 && a.value.loops >= expected * 10.0, High)
  }

  function BitmapLossy(c: Case, v: Visit): Option<Severity> {
    var text := Attr(v.node, HeapBlocks);
    var lossy := c.reader.lossyBlocks(text);
    if v.node.info.typ != "Bitmap Heap Scan" || lossy.None? then None
    else When(lossy.value > 0.0 && Share(lossy.value, lossy.value + Or(c.reader.exactBlocks(text), 0.0)) >= 0.1, Low)
  }

  function WorkersNotLaunched(c: Case, v: Visit): Option<Severity> {
    var planned, launched := Number(c, v.node, WorkersPlanned), Number(c, v.node, WorkersLaunched);
    When(planned.Some? && launched.Some? && launched.value < planned.value, Low)
  }

  /** The findings of a rule over the visited nodes, each at its node. */
  function Reported(vs: seq<Visit>, code: string, rule: Visit -> Option<Severity>): seq<Finding> {
    if vs == [] then []
    else
      var v := vs[|vs| - 1];
      Reported(vs[..|vs| - 1], code, rule) + (if rule(v).Some? then [FindingAt(code, rule(v).value, v.path, v.node)] else [])
  }

  /** A finding is reported for exactly the nodes the rule names, at their paths. */
  lemma {:induction false} ReportedIs(vs: seq<Visit>, code: string, rule: Visit -> Option<Severity>, f: Finding)
    ensures f in Reported(vs, code, rule) <==>
      exists v :: v in vs && rule(v).Some? && f == FindingAt(code, rule(v).value, v.path, v.node)
  {
    if vs != [] {
      var front, last := vs[..|vs| - 1], vs[|vs| - 1];
      ReportedIs(front, code, rule, f);
      assert vs == front + [last];
    }
  }

  lemma ReportedPoints(root: Node, code: string, rule: Visit -> Option<Severity>)
    ensures forall f :: f in Reported(AllVisits(root), code, rule) ==> PointsAt(root, f) && f.code == code
  {
    forall f | f in Reported(AllVisits(root), code, rule)
      ensures PointsAt(root, f) && f.code == code
    {
      ReportedIs(AllVisits(root), code, rule, f);
      var v :| v in AllVisits(root) && rule(v).Some? && f == FindingAt(code, rule(v).value, v.path, v.node);
      WalkIsExact(root, v);
    }
  }

  /** One pass over the plan, appending a finding where the rule reports one. */
  method EvalNodes(root: Node, code: string, rule: Visit -> Option<Severity>) returns (out: seq<Finding>)
    ensures out == Reported(AllVisits(root), code, rule)
    ensures forall f :: f in out ==> PointsAt(root, f) && f.code == code
  {
    var visits := EachNode(root, [], None);
    out := [];
    for k := 0 to |visits|
      invariant out == Reported(visits[..k], code, rule)
    {
      assert visits[..k + 1][..k] == visits[..k];
      var hit := rule(visits[k]);
      if hit.Some? {
        out := out + [FindingAt(code, hit.value, visits[k].path, visits[k].node)];
      }
    }
    assert visits[..|visits|] == visits;
    ReportedPoints(root, code, rule);
  }

  // ----- rules that look at the whole plan

  const HOTSPOT_MIN_COST := 100.0
  const HOTSPOT_MIN_SHARE := 0.5
  const OVERHEAD_MIN_MS := 10.0
  const OVERHEAD_MIN_SHARE := 0.25

  function CostOf(best: Option<Visit>): real {
    if best.Some? then SelfCost(best.value.node) else 0.0
  }

  /** The first of the costliest visits, none when nothing costs anything by itself. */
  function Costliest(vs: seq<Visit>): Option<Visit> {
    if vs == [] then None
    else
      var best, v := Costliest(vs[..|vs| - 1]), vs[|vs| - 1];
      if SelfCost(v.node) > CostOf(best) then Some(v) else best
  }

  lemma {:induction false} CostliestIs(vs: seq<Visit>)
    ensures var best := Costliest(vs);
      && (best.Some? ==> best.value in vs && SelfCost(best.value.node) > 0.0)
      && forall v :: v in vs ==> SelfCost(v.node) <= CostOf(best)
  {
    if vs != [] {
      var front, last := vs[..|vs| - 1], vs[|vs| - 1];
      CostliestIs(front);
      assert vs == front + [last];
    }
  }

  /** Estimated to cost enough by itself, and half of the whole plan. */
  predicate Hot(root: Node, n: Node) {
    root.info.totalCost > 0.0 && SelfCost(n) >= HOTSPOT_MIN_COST && SelfCost(n) / root.info.totalCost >= HOTSPOT_MIN_SHARE
  }

  /** Judges estimated costs, so it says nothing of a measured plan. */
  function EvalCostHotspot(c: Case): seq<Finding> {
    var best := Costliest(AllVisits(c.plan.root));
    if c.plan.caps.actual || best.None? || !Hot(c.plan.root, best.value.node) then []
    else [FindingAt("cost_hotspot", Low, best.value.path, best.value.node)]
  }

  /** A node of the plan that no other exceeds. */
  predicate MostCostly(root: Node, v: Visit) {
    v in AllVisits(root) && forall w :: w in AllVisits(root) ==> SelfCost(w.node) <= SelfCost(v.node)
  }

  /** The hotspot is reported exactly when some node is one, and then at a node no other exceeds. */
  lemma HotspotIs(c: Case)
    ensures var out, root := EvalCostHotspot(c), c.plan.root;
      && (out == [] <==> c.plan.caps.actual || forall v :: v in AllVisits(root) ==> !Hot(root, v.node))
      && (out != [] ==> exists v :: MostCostly(root, v) && out == [FindingAt("cost_hotspot", Low, v.path, v.node)])
  {
    var root := c.plan.root;
    var vs := AllVisits(root);
    CostliestIs(vs);
    if root.info.totalCost > 0.0 {
      forall v | v in vs
        ensures SelfCost(v.node) / root.info.totalCost <= CostOf(Costliest(vs)) / root.info.totalCost
      {
        QuotientMonotone(SelfCost(v.node), CostOf(Costliest(vs)), root.info.totalCost);
      }
    }
  }

  method CostHotspot(c: Case) returns (out: seq<Finding>)
    ensures out == EvalCostHotspot(c)
  {
    var total := c.plan.root.info.totalCost;
    if total <= 0.0 || c.plan.caps.actual {
      return [];
    }
    var visits := EachNode(c.plan.root, [], None);
    var best: Option<Visit>, bestCost := None, 0.0;
    for k := 0 to |visits|
      invariant best == Costliest(visits[..k]) && bestCost == CostOf(best)
    {
      assert visits[..k + 1][..k] == visits[..k];
      var self := SelfCost(visits[k].node);
      if self > bestCost {
        best, bestCost := Some(visits[k]), self;
      }
    }
    assert visits[..|visits|] == visits;
    if best.None? || bestCost < HOTSPOT_MIN_COST || bestCost / total < HOTSPOT_MIN_SHARE {
      return [];
    }
    return [FindingAt("cost_hotspot", Low, best.value.path, best.value.node)];
  }

  predicate Buffering(n: Node) {
    (n.info.typ == "Materialize" || n.info.typ == "Memoize") && |n.children| == 1
  }

  function Unwrapped(n: Node, path: Path): (Node, Path)
    decreases n
  {
    if Buffering(n) then Unwrapped(n.children[0], path + [0]) else (n, path)
  }

  /** The path follows the nodes stepped through. */
  lemma {:induction false} UnwrappedIsThere(root: Node, n: Node, path: Path)
    requires NodeAt(root, path) == Some(n)
    ensures var (m, q) := Unwrapped(n, path); NodeAt(root, q) == Some(m) && !Buffering(m)
    decreases n
  {
    if Buffering(n) {
      NodeAtAppend(root, path, [0]);
      UnwrappedIsThere(root, n.children[0], path + [0]);
    }
  }

  /** Descends through buffering nodes to what they buffer. */
  method UnwrapBuffered(n: Node, path: Path) returns (m: Node, q: Path)
    ensures (m, q) == Unwrapped(n, path)
  {
    m, q := n, path;
    while Buffering(m)
      invariant Unwrapped(m, q) == Unwrapped(n, path)
      decreases m
    {
      m, q := m.children[0], q + [0];
    }
  }

  /** A join condition or filter that an index could serve; a cross join has none. */
  predicate Conditioned(join: Node, scan: Node) {
    !(Attr(join, HashCond) == "" && Attr(join, MergeCond) == "" && Attr(join, JoinFilter) == "" && Attr(scan, Filter) == "")
  }

  /** A nested loop whose inner side, buffered or not, reads a whole table that an index could serve. */
  function IndexCandidate(v: Visit): seq<Finding> {
    var n := v.node;
    if n.info.typ != "Nested Loop" || !HasSides(n) then []
    else
      var inner := SideAt(n, "Inner", 0);
      var (scan, path) := Unwrapped(n.children[inner], v.path + [inner]);
      if scan.info.typ == "Seq Scan" && Conditioned(n, scan)
      then [FindingAt("index_candidate_join", High, path, scan)] else []
  }

  function Candidates(vs: seq<Visit>): seq<Finding> {
    if vs == [] then [] else Candidates(vs[..|vs| - 1]) + IndexCandidate(vs[|vs| - 1])
  }

  function EvalIndexCandidateJoin(c: Case): seq<Finding> {
    Candidates(AllVisits(c.plan.root))
  }

  lemma CandidatePoints(root: Node, v: Visit)
    requires NodeAt(root, v.path) == Some(v.node)
    ensures forall f :: f in IndexCandidate(v) ==> PointsAt(root, f) && f.code == "index_candidate_join" && f.nodeType == "Seq Scan"
  {
    if HasSides(v.node) {
      var inner := SideAt(v.node, "Inner", 0);
      NodeAtAppend(root, v.path, [inner]);
      UnwrappedIsThere(root, v.node.children[inner], v.path + [inner]);
    }
  }

  lemma {:induction false} CandidatesPoint(root: Node, vs: seq<Visit>)
    requires forall v :: v in vs ==> NodeAt(root, v.path) == Some(v.node)
    ensures forall f :: f in Candidates(vs) ==> PointsAt(root, f) && f.code == "index_candidate_join" && f.nodeType == "Seq Scan"
  {
    if vs != [] {
      var front, last := vs[..|vs| - 1], vs[|vs| - 1];
      assert vs == front + [last];
      CandidatesPoint(root, front);
      CandidatePoints(root, last);
    }
  }

  lemma OneMoreCandidates(vs: seq<Visit>, k: nat)
    requires k < |vs|
    ensures Candidates(vs[..k + 1]) == Candidates(vs[..k]) + IndexCandidate(vs[k])
  {
    assert vs[..k + 1][..k] == vs[..k];
  }

  /** Each candidate is reported at the scan itself, below the buffering nodes. */
  method IndexCandidateJoin(c: Case) returns (out: seq<Finding>)
    ensures out == EvalIndexCandidateJoin(c)
  {
    out := [];
    var visits := EachNode(c.plan.root, [], None);
    for k := 0 to |visits|
      invariant out == Candidates(visits[..k])
    {
      OneMoreCandidates(visits, k);
      var found := CandidateAt(visits[k]);
      out := out + found;
    }
    assert visits[..|visits|] == visits;
  }

  method CandidateAt(v: Visit) returns (out: seq<Finding>)
    ensures out == IndexCandidate(v)
  {
    if v.node.info.typ != "Nested Loop" {
      return [];
    }
    var outer, inner, ok := JoinSides(v.node);
    if !ok {
      return [];
    }
    var scan, path := UnwrapBuffered(v.node.children[inner], v.path + [inner]);
    if scan.info.typ != "Seq Scan" {
      return [];
    }
    if Attr(v.node, HashCond) == "" && Attr(v.node, MergeCond) == "" && Attr(v.node, JoinFilter) == "" && Attr(scan, Filter) == "" {
      return [];
    }
    return [FindingAt("index_candidate_join", High, path, scan)];
  }

  /** Time spent beside the plan that is a large part of the whole; reported at the root. */
  function Overhead(p: Plan, code: string, spent: real): seq<Finding> {
    var total := TotalTime(p);
    if total <= 0.0 || spent < OVERHEAD_MIN_MS || spent / total < OVERHEAD_MIN_SHARE then []
    else [FindingAt(code, Low, [], p.root)]
  }

  function EvalJitOverhead(c: Case): seq<Finding> {
    if c.plan.jitTotal.None? then [] else Overhead(c.plan, "jit_overhead", c.plan.jitTotal.value)
  }

  function SumTimes(times: seq<real>): real {
    if times == [] then 0.0 else SumTimes(times[..|times| - 1]) + times[|times| - 1]
  }

  function EvalTriggerTime(c: Case): seq<Finding> {
    if c.plan.triggers == [] then [] else Overhead(c.plan, "trigger_time", SumTimes(c.plan.triggers))
  }

  function EvalSeqScanLarge(c: Case): seq<Finding> {
    Reported(AllVisits(c.plan.root), "seq_scan_large", v => SeqScanLarge(c, v))
  }

  function EvalNestedLoopBlowup(c: Case): seq<Finding> {
    Reported(AllVisits(c.plan.root), "nested_loop_blowup", v => NestedLoopBlowup(c, v))
  }

  function EvalSortEstimateSpill(c: Case): seq<Finding> {
    Reported(AllVisits(c.plan.root), "sort_estimate_spill", v => SortEstimateSpill(c, v))
  }

  function EvalCteMaterialize(c: Case): seq<Finding> {
    Reported(AllVisits(c.plan.root), "cte_materialize", v => CteMaterialize(c, v))
  }

  function EvalRowMisestimate(c: Case): seq<Finding> {
    Reported(AllVisits(c.plan.root), "row_misestimate", v => RowMisestimate(c, v))
  }

  function EvalSortSpillActual(c: Case): seq<Finding> {
    Reported(AllVisits(c.plan.root), "sort_spill_actual", v => SortSpillActual(c, v))
  }

  function EvalFilterDiscardsRows(c: Case): seq<Finding> {
    Reported(AllVisits(c.plan.root), "filter_discards_rows", v => FilterDiscardsRows(c, v))
  }

  function EvalHeapFetchesHigh(c: Case): seq<Finding> {
    Reported(AllVisits(c.plan.root), "heap_fetches_high", v => HeapFetchesHigh(c, v))
  }

  function EvalLoopsBlowup(c: Case): seq<Finding> {
    Reported(AllVisits(c.plan.root), "loops_blowup", v => LoopsBlowup(c, v))
  }

  function EvalBitmapLossy(c: Case): seq<Finding> {
    Reported(AllVisits(c.plan.root), "bitmap_lossy", v => BitmapLossy(c, v))
  }

  function EvalWorkersNotLaunched(c: Case): seq<Finding> {
    Reported(AllVisits(c.plan.root), "workers_not_launched", v => WorkersNotLaunched(c, v))
  }

  // ----- the catalogue

  datatype Requirement = ReqActual | ReqTiming | ReqBuffers | ReqWorkMem

  datatype Rule =
    | SeqScanLargeRule | CostHotspotRule | NestedLoopBlowupRule | IndexCandidateJoinRule | SortEstimateSpillRule
    | CteMaterializeRule | RowMisestimateRule | SortSpillActualRule | FilterDiscardsRowsRule | HeapFetchesHighRule
    | LoopsBlowupRule | BitmapLossyRule | WorkersNotLaunchedRule | JitOverheadRule | TriggerTimeRule

  /** The catalogue in evaluation order. */
  const REGISTRY: seq<Rule> := [
    SeqScanLargeRule, CostHotspotRule, NestedLoopBlowupRule, IndexCandidateJoinRule, SortEstimateSpillRule,
    CteMaterializeRule, RowMisestimateRule, SortSpillActualRule, FilterDiscardsRowsRule, HeapFetchesHighRule,
    LoopsBlowupRule, BitmapLossyRule, WorkersNotLaunchedRule, JitOverheadRule, TriggerTimeRule]

  function CodeOf(r: Rule): string {
    match r
    case SeqScanLargeRule => "seq_scan_large"
    case CostHotspotRule => "cost_hotspot"
    case NestedLoopBlowupRule => "nested_loop_blowup"
    case IndexCandidateJoinRule => "index_candidate_join"
    case SortEstimateSpillRule => "sort_estimate_spill"
    case CteMaterializeRule => "cte_materialize"
    case RowMisestimateRule => "row_misestimate"
    case SortSpillActualRule => "sort_spill_actual"
    case FilterDiscardsRowsRule => "filter_discards_rows"
    case HeapFetchesHighRule => "heap_fetches_high"
    case LoopsBlowupRule => "loops_blowup"
    case BitmapLossyRule => "bitmap_lossy"
    case WorkersNotLaunchedRule => "workers_not_launched"
    case JitOverheadRule => "jit_overhead"
    case TriggerTimeRule => "trigger_time"
  }

  function Needs(r: Rule): set<Requirement> {
    match r
    case SeqScanLargeRule | CostHotspotRule | NestedLoopBlowupRule | IndexCandidateJoinRule | CteMaterializeRule => {}
    case SortEstimateSpillRule => {ReqWorkMem}
    case JitOverheadRule | TriggerTimeRule => {ReqTiming}
    case _ => {ReqActual}
  }

  function Eval(r: Rule, c: Case): seq<Finding> {
    match r
    case SeqScanLargeRule => EvalSeqScanLarge(c)
    case CostHotspotRule => EvalCostHotspot(c)
    case NestedLoopBlowupRule => EvalNestedLoopBlowup(c)
    case IndexCandidateJoinRule => EvalIndexCandidateJoin(c)
    case SortEstimateSpillRule => EvalSortEstimateSpill(c)
    case CteMaterializeRule => EvalCteMaterialize(c)
    case RowMisestimateRule => EvalRowMisestimate(c)
    case SortSpillActualRule => EvalSortSpillActual(c)
    case FilterDiscardsRowsRule => EvalFilterDiscardsRows(c)
    case HeapFetchesHighRule => EvalHeapFetchesHigh(c)
    case LoopsBlowupRule => EvalLoopsBlowup(c)
    case BitmapLossyRule => EvalBitmapLossy(c)
    case WorkersNotLaunchedRule => EvalWorkersNotLaunched(c)
    case JitOverheadRule => EvalJitOverhead(c)
    case TriggerTimeRule => EvalTriggerTime(c)
  }

  /** Every rule of the catalogue reports under its own code, at nodes of the plan that are what it says they are. */
  lemma RulesPoint(r: Rule, c: Case)
    ensures forall f :: f in Eval(r, c) ==> PointsAt(c.plan.root, f) && f.code == CodeOf(r)
  {
    var root := c.plan.root;
    match r
    case SeqScanLargeRule => ReportedPoints(root, CodeOf(r), v => SeqScanLarge(c, v));
    case CostHotspotRule => HotspotPoints(c);
    case NestedLoopBlowupRule => ReportedPoints(root, CodeOf(r), v => NestedLoopBlowup(c, v));
    case IndexCandidateJoinRule => AllCandidatesPoint(c);
    case SortEstimateSpillRule => ReportedPoints(root, CodeOf(r), v => SortEstimateSpill(c, v));
    case CteMaterializeRule => ReportedPoints(root, CodeOf(r), v => CteMaterialize(c, v));
    case RowMisestimateRule => ReportedPoints(root, CodeOf(r), v => RowMisestimate(c, v));
    case SortSpillActualRule => ReportedPoints(root, CodeOf(r), v => SortSpillActual(c, v));
    case FilterDiscardsRowsRule => ReportedPoints(root, CodeOf(r), v => FilterDiscardsRows(c, v));
    case HeapFetchesHighRule => ReportedPoints(root, CodeOf(r), v => HeapFetchesHigh(c, v));
    case LoopsBlowupRule => ReportedPoints(root, CodeOf(r), v => LoopsBlowup(c, v));
    case BitmapLossyRule => ReportedPoints(root, CodeOf(r), v => BitmapLossy(c, v));
    case WorkersNotLaunchedRule => ReportedPoints(root, CodeOf(r), v => WorkersNotLaunched(c, v));
    case JitOverheadRule =>
    case TriggerTimeRule =>
  }

  lemma HotspotPoints(c: Case)
    ensures forall f :: f in EvalCostHotspot(c) ==> PointsAt(c.plan.root, f) && f.code == "cost_hotspot"
  {
    HotspotIs(c);
    forall v | v in AllVisits(c.plan.root)
      ensures NodeAt(c.plan.root, v.path) == Some(v.node)
    {
      WalkIsExact(c.plan.root, v);
    }
  }

  lemma AllCandidatesPoint(c: Case)
    ensures forall f :: f in EvalIndexCandidateJoin(c) ==> PointsAt(c.plan.root, f) && f.code == "index_candidate_join"
  {
    forall v | v in AllVisits(c.plan.root)
      ensures NodeAt(c.plan.root, v.path) == Some(v.node)
    {
      WalkIsExact(c.plan.root, v);
    }
    CandidatesPoint(c.plan.root, AllVisits(c.plan.root));
  }

  predicate Carries(c: Case, q: Requirement) {
    match q
    case ReqActual => c.plan.caps.actual
    case ReqTiming => c.plan.caps.timing
    case ReqBuffers => c.plan.caps.buffers
    case ReqWorkMem => c.workMemKb.Some?
  }

  predicate Runs(r: Rule, c: Case) {
    forall q :: q in Needs(r) ==> Carries(c, q)
  }

  function Lack(q: Requirement, needs: set<Requirement>, c: Case): seq<Requirement> {
    if q in needs && !Carries(c, q) then [q] else []
  }

  /** What a rule needs and the case lacks. */
  function Missing(needs: set<Requirement>, c: Case): seq<Requirement> {
    Lack(ReqActual, needs, c) + Lack(ReqTiming, needs, c) + Lack(ReqBuffers, needs, c) + Lack(ReqWorkMem, needs, c)
  }

  lemma MissingIs(needs: set<Requirement>, c: Case, q: Requirement)
    ensures q in Missing(needs, c) <==> q in needs && !Carries(c, q)
  {
    match q
    case ReqActual =>
    case ReqTiming =>
    case ReqBuffers =>
    case ReqWorkMem =>
  }

  /** Nothing is missing exactly when the rule runs. */
  lemma MissingMeans(r: Rule, c: Case)
    ensures Missing(Needs(r), c) == [] <==> Runs(r, c)
    ensures !Runs(r, c) ==> SameLack(Dormant(r, Missing(Needs(r), c)), c)
  {
    var missing := Missing(Needs(r), c);
    forall q
      ensures q in missing <==> q in Needs(r) && !Carries(c, q)
    {
      MissingIs(Needs(r), c, q);
    }
    if missing != [] {
      assert missing[0] in missing;
    }
  }

  method MissingFor(needs: set<Requirement>, c: Case) returns (missing: seq<Requirement>)
    ensures missing == Missing(needs, c)
  {
    missing := [];
    if ReqActual in needs && !c.plan.caps.actual {
      missing := missing + [ReqActual];
    }
    if ReqTiming in needs && !c.plan.caps.timing {
      missing := missing + [ReqTiming];
    }
    if ReqBuffers in needs && !c.plan.caps.buffers {
      missing := missing + [ReqBuffers];
    }
    if ReqWorkMem in needs && c.workMemKb.None? {
      missing := missing + [ReqWorkMem];
    }
  }

  datatype Dormant = Dormant(rule: Rule, missing: seq<Requirement>)

  function Found(rules: seq<Rule>, c: Case): seq<Finding> {
    if rules == [] then []
    else Found(rules[..|rules| - 1], c) + (if Runs(rules[|rules| - 1], c) then Eval(rules[|rules| - 1], c) else [])
  }

  /** The rules that cannot run, in the order of the catalogue. */
  function Dormants(rules: seq<Rule>, c: Case): seq<Dormant> {
    if rules == [] then []
    else
      var r := rules[|rules| - 1];
      Dormants(rules[..|rules| - 1], c) + (if Runs(r, c) then [] else [Dormant(r, Missing(Needs(r), c))])
  }

  function SeverityRank(s: Severity): nat {
    match s
    case High => 0
    case Medium => 1
    case Low => 2
  }

  predicate Sooner(a: Finding, b: Finding) {
    SeverityRank(a.severity) < SeverityRank(b.severity)
    || (SeverityRank(a.severity) == SeverityRank(b.severity) && Text.LexLe(a.code, b.code))
  }

  lemma SoonerOrder()
    ensures Sorting.TotalPreorder(Sooner)
  {
    Text.LexOrder();
  }

  /** High before medium before low; within a severity no code that is less, character by character, comes later. */
  ghost predicate NotAfter(a: Finding, b: Finding) {
    && (b.severity == High ==> a.severity == High) && (a.severity == Low ==> b.severity == Low)
    && (a.severity == b.severity ==> !Text.Precedes(b.code, a.code))
  }

  ghost predicate WorstFirst(findings: seq<Finding>) {
    forall i, j :: 0 <= i < j < |findings| ==> NotAfter(findings[i], findings[j])
  }

  lemma SoonerIsNotAfter(a: Finding, b: Finding)
    requires Sooner(a, b)
    ensures NotAfter(a, b)
  {
    if a.severity == b.severity {
      Text.LexNotPreceded(a.code, b.code);
    }
  }

  lemma SortedIsWorstFirst(findings: seq<Finding>)
    requires Sorting.Sorted(findings, Sooner)
    ensures WorstFirst(findings)
  {
    forall i, j | 0 <= i < j < |findings|
      ensures NotAfter(findings[i], findings[j])
    {
      SoonerIsNotAfter(findings[i], findings[j]);
    }
  }

  lemma {:induction false} FoundIs(rules: seq<Rule>, c: Case, f: Finding)
    ensures f in Found(rules, c) <==> exists r :: r in rules && Runs(r, c) && f in Eval(r, c)
  {
    if rules != [] {
      var front, last := rules[..|rules| - 1], rules[|rules| - 1];
      FoundIs(front, c, f);
      assert rules == front + [last];
    }
  }

  /** The plan's own work_mem is the one the statement ran with; the caller's stands in when none was printed. */
  function Effective(c: Case): Case {
    if c.plan.workMemKb.Some? then c.(workMemKb := c.plan.workMemKb) else c
  }

  /** What the findings are of: each from a rule that ran, at a node of the plan. */
  ghost predicate Sound(findings: seq<Finding>, c: Case) {
    forall f :: f in findings ==> PointsAt(c.plan.root, f) && exists r :: Runs(r, c) && f in Eval(r, c) && f.code == CodeOf(r)
  }

  predicate SameLack(d: Dormant, c: Case) {
    !Runs(d.rule, c) && forall q :: q in d.missing <==> q in Needs(d.rule) && !Carries(c, q)
  }

  predicate Listed(dormant: seq<Dormant>, r: Rule) {
    exists d :: d in dormant && d.rule == r
  }

  /** No rule has two entries. */
  predicate EachOnce(dormant: seq<Dormant>) {
    forall i, j :: 0 <= i < j < |dormant| ==> dormant[i].rule != dormant[j].rule
  }

  lemma {:induction false} DormantsAre(rules: seq<Rule>, c: Case)
    ensures var out := Dormants(rules, c);
      && (forall d :: d in out ==> d.rule in rules && SameLack(d, c))
      && (forall r :: r in rules && !Runs(r, c) ==> Listed(out, r))
      && (NoRepeats(rules) ==> EachOnce(out))
  {
    if rules != [] {
      var front, r := rules[..|rules| - 1], rules[|rules| - 1];
      assert rules == front + [r];
      DormantsAre(front, c);
      var before, out := Dormants(front, c), Dormants(rules, c);
      forall q | Listed(before, q)
        ensures Listed(out, q)
      {
        var d :| d in before && d.rule == q;
        assert d in out;
      }
      MissingMeans(r, c);
      if !Runs(r, c) {
        assert out[|out| - 1].rule == r;
      }
      if NoRepeats(rules) {
        assert r !in front;
      }
    }
  }

  /**
   * Runs the catalogue: the findings of every rule the evidence allows, worst first, all
   * of them at nodes of the plan; and every other rule, with what it lacks.
   */
  method Evaluate(given: Case) returns (findings: seq<Finding>, dormant: seq<Dormant>)
    ensures findings == Sorting.Sort(Found(REGISTRY, Effective(given)), Sooner)
    ensures multiset(findings) == multiset(Found(REGISTRY, Effective(given))) && WorstFirst(findings)
    ensures Sound(findings, Effective(given))
    ensures dormant == Dormants(REGISTRY, Effective(given)) && EachOnce(dormant)
    ensures forall d :: d in dormant ==> SameLack(d, Effective(given))
    ensures forall r :: Listed(dormant, r) <==> !Runs(r, Effective(given))
  {
    var c := Effective(given);
    findings, dormant := EvaluateAll(REGISTRY, c);
    Registered();
    DormantsAre(REGISTRY, c);
    FoundSound(REGISTRY, c);
    findings := SortedFindings(findings, c);
    SortedIsWorstFirst(findings);
  }

  method EvaluateAll(rules: seq<Rule>, c: Case) returns (findings: seq<Finding>, dormant: seq<Dormant>)
    ensures findings == Found(rules, c) && dormant == Dormants(rules, c)
  {
    findings, dormant := [], [];
    for k := 0 to |rules|
      invariant findings == Found(rules[..k], c) && dormant == Dormants(rules[..k], c)
    {
      var r := rules[k];
      assert rules[..k + 1][..k] == rules[..k];
      var missing := MissingFor(Needs(r), c);
      MissingMeans(r, c);
      if |missing| > 0 {
        dormant := dormant + [Dormant(r, missing)];
      } else {
        findings := findings + Eval(r, c);
      }
    }
    assert rules[..|rules|] == rules;
  }

  method SortedFindings(found: seq<Finding>, c: Case) returns (findings: seq<Finding>)
    requires Sound(found, c)
    ensures findings == Sorting.Sort(found, Sooner)
    ensures multiset(findings) == multiset(found) && Sorting.Sorted(findings, Sooner) && Sound(findings, c)
  {
    findings := Sorting.Sort(found, Sooner);
    SoonerOrder();
    Sorting.SortKeeps(found, Sooner);
    Sorting.SortSorted(found, Sooner);
    forall f | f in findings
      ensures f in found
    {
      assert f in multiset(findings);
    }
  }

  lemma FoundSound(rules: seq<Rule>, c: Case)
    ensures Sound(Found(rules, c), c)
  {
    forall f | f in Found(rules, c)
      ensures PointsAt(c.plan.root, f) && exists r :: Runs(r, c) && f in Eval(r, c) && f.code == CodeOf(r)
    {
      FoundIs(rules, c, f);
      var r :| r in rules && Runs(r, c) && f in Eval(r, c);
      RulesPoint(r, c);
    }
  }

  /** The catalogue has every rule once. */
  lemma Registered()
    ensures forall r :: r in REGISTRY
    ensures NoRepeats(REGISTRY)
  {
    forall r
      ensures r in REGISTRY
    {
      var at :=
        match r
        case SeqScanLargeRule => 0
        case CostHotspotRule => 1
        case NestedLoopBlowupRule => 2
        case IndexCandidateJoinRule => 3
        case SortEstimateSpillRule => 4
        case CteMaterializeRule => 5
        case RowMisestimateRule => 6
        case SortSpillActualRule => 7
        case FilterDiscardsRowsRule => 8
        case HeapFetchesHighRule => 9
        case LoopsBlowupRule => 10
        case BitmapLossyRule => 11
        case WorkersNotLaunchedRule => 12
        case JitOverheadRule => 13
        case TriggerTimeRule => 14;
      assert REGISTRY[at] == r;
    }
  }

  lemma CodesDiffer(r: Rule, s: Rule)
    requires CodeOf(r) == CodeOf(s)
    ensures r == s
  {
  }

  /** No code is both reported and dormant. */
  lemma FoundOrDormant(f: Finding, d: Dormant, c: Case)
    requires Sound([f], c) && SameLack(d, c)
    ensures f.code != CodeOf(d.rule)
  {
    assert f in [f];
    var r :| Runs(r, c) && f in Eval(r, c) && f.code == CodeOf(r);
    if CodeOf(r) == CodeOf(d.rule) {
      CodesDiffer(r, d.rule);
    }
  }
}
