/** What each rule of the plan catalogue asks of a node, in numbers and without quotients. */
module PlanTriggers {
  import opened Common
  import opened PlanTree
  import opened PlanWalk
  import opened PlanRules
  import opened RealArithmetic

  // ----- readings

  /** Child i is the first of its side. */
  predicate FirstOn(n: Node, side: string, i: int) {
    0 <= i < |n.children| && n.children[i].parentRel == side && forall j :: 0 <= j < i ==> n.children[j].parentRel != side
  }

  /** rows is the size known for the relation: by its qualified name, by the bare one when that is not known. */
  predicate SizeKnown(c: Case, n: Node, rows: real) {
    var bare, qualified := n.info.relation, n.info.schema + "." + n.info.relation;
    bare != "" &&
    ((n.info.schema != "" && qualified in c.tableRows && rows == c.tableRows[qualified])
     || ((n.info.schema == "" || qualified !in c.tableRows) && bare in c.tableRows && rows == c.tableRows[bare]))
  }

  /** The number in the text of the field is x. */
  predicate Reads(c: Case, n: Node, f: Field, x: real) {
    f in n.attrs && c.reader.number(n.attrs[f]) == Some(x)
  }

  /** removed counts both kinds of rejected rows, either as zero when its line is missing or no number. */
  ghost predicate Removed(c: Case, n: Node, removed: real) {
    exists x, y :: CountOrZero(c, n, RowsRemovedByFilter, x) && CountOrZero(c, n, RowsRemovedByJoinFilter, y) && removed == x + y
  }

  predicate CountOrZero(c: Case, n: Node, f: Field, x: real) {
    Reads(c, n, f, x) || ((f !in n.attrs || c.reader.number(n.attrs[f]).None?) && x == 0.0)
  }

  lemma RemovedIs(c: Case, n: Node, removed: real)
    ensures Removed(c, n, removed) <==> removed == RowsRemoved(c, n)
  {
    var x, y := Or(Number(c, n, RowsRemovedByFilter), 0.0), Or(Number(c, n, RowsRemovedByJoinFilter), 0.0);
    assert CountOrZero(c, n, RowsRemovedByFilter, x) && CountOrZero(c, n, RowsRemovedByJoinFilter, y);
  }

  predicate Within(s: string, part: string) {
    exists i :: 0 <= i <= |s| && StandsAt(s, part, i)
  }

  predicate StandsAt(s: string, part: string, i: int) {
    0 <= i && i + |part| <= |s| && s[i..i + |part|] == part
  }

  lemma OneLater(s: string, part: string, i: int)
    requires s != [] && i > 0
    ensures StandsAt(s, part, i) <==> StandsAt(s[1..], part, i - 1)
  {
    if i + |part| <= |s| {
      assert s[i..i + |part|] == s[1..][i - 1..i - 1 + |part|];
    }
  }

  lemma {:induction false} ContainsIs(s: string, part: string)
    ensures Contains(s, part) <==> Within(s, part)
    decreases |s|
  {
    if StandsAt(s, part, 0) {
      assert Within(s, part);
    } else if s != [] {
      ContainsIs(s[1..], part);
      if i :| 0 <= i <= |s| && StandsAt(s, part, i) {
        OneLater(s, part, i);
      }
      if i :| 0 <= i <= |s| - 1 && StandsAt(s[1..], part, i) {
        OneLater(s, part, i + 1);
      }
    }
  }

  /** x rows were read by the scan over all loops, the rejected ones included. */
  ghost predicate Scanned(c: Case, n: Node, x: real) {
    n.info.actual.Some? && exists removed :: Removed(c, n, removed) && x == (n.info.actual.value.rows + removed) * n.info.actual.value.loops
  }

  lemma ScannedIs(c: Case, n: Node, x: real)
    ensures Scanned(c, n, x) <==> n.info.actual.Some? && x == ScannedRows(c, n)
  {
    RemovedIs(c, n, RowsRemoved(c, n));
    if n.info.actual.Some? {
      var a, removed := n.info.actual.value, RowsRemoved(c, n);
      assert (a.rows + removed) * a.loops == a.rows * a.loops + removed * a.loops;
      forall r | Removed(c, n, r)
        ensures r == removed
      {
        RemovedIs(c, n, r);
      }
    }
  }

  lemma SizeIs(c: Case, n: Node, rows: real)
    ensures SizeKnown(c, n, rows) <==> TableRows(c, n) == Some(rows)
  {
  }

  // ----- the rules that judge one node

  ghost predicate SizeUnknown(c: Case, n: Node) {
    forall rows :: !SizeKnown(c, n, rows)
  }

  /** A filtered sequential scan of a large table: by its size, else by the rows read, by the cost only where neither is known. */
  ghost predicate LargeScan(c: Case, n: Node, s: Severity) {
    && n.info.typ == "Seq Scan" && Filter in n.attrs && n.attrs[Filter] != ""
    && (|| (s == Medium && exists rows :: SizeKnown(c, n, rows) && rows >= 100000.0)
        || (s == Medium && SizeUnknown(c, n) && exists x :: Scanned(c, n, x) && x >= 100000.0)
        || (s == Low && SizeUnknown(c, n) && (forall x :: Scanned(c, n, x) ==> x <= 0.0) && n.info.totalCost >= 1000.0))
  }

  /** Both sides estimated: a thousand outer rows, a million pairs. */
  ghost predicate ManyPairs(n: Node) {
    n.info.typ == "Nested Loop" && exists o, i :: Sides(n, o, i) && PairsMany(n.children[o].info.planRows, n.children[i].info.planRows)
  }

  predicate Sides(n: Node, o: int, i: int) {
    FirstOn(n, "Outer", o) && FirstOn(n, "Inner", i)
  }

  predicate PairsMany(outer: real, inner: real) {
    outer >= 1000.0 && outer * inner >= 1000000.0
  }

  predicate SpillExpected(c: Case, i: Info) {
    (i.typ == "Sort" || i.typ == "Incremental Sort" || i.typ == "Hash")
    && c.workMemKb.Some? && i.planRows * i.planWidth as real > 1024.0 * c.workMemKb.value
  }

  predicate ManyKept(i: Info) {
    (i.typ == "CTE Scan" || i.typ == "Materialize") && i.planRows >= 100000.0
  }

  /** Estimate and measurement of a loop, one of them a hundred rows and ten times the other. */
  predicate Misjudged(estimate: real, a: Actual) {
    && a.loops != 0.0 && (estimate >= 100.0 || a.rows >= 100.0)
    && ((estimate >= 10.0 * a.rows && estimate >= 10.0) || (a.rows >= 10.0 * estimate && a.rows >= 10.0))
  }

  predicate Spilled(c: Case, n: Node) {
    Within(c.reader.sortMethod(if SortMethod in n.attrs then n.attrs[SortMethod] else ""), "external")
  }

  /** Ten thousand rows rejected over all loops, nine of ten rows read. */
  ghost predicate MostDiscarded(c: Case, n: Node) {
    && n.info.actual.Some? && (exists x :: Reads(c, n, RowsRemovedByFilter, x) || Reads(c, n, RowsRemovedByJoinFilter, x))
    && exists removed :: Removed(c, n, removed) && NineTenths(removed * n.info.actual.value.loops, TotalRows(n))
  }

  predicate NineTenths(removed: real, kept: real) {
    removed >= 10000.0 && removed + kept > 0.0 && removed >= 9.0 * kept
  }

  /** A thousand heap fetches and one for every five rows. */
  ghost predicate ManyFetches(c: Case, n: Node, a: Actual) {
    n.info.typ == "Index Only Scan" && exists x :: Reads(c, n, HeapFetches, x) && OneInFive(x, a.rows * a.loops)
  }

  predicate OneInFive(fetches: real, rows: real) {
    fetches >= 1000.0 && rows > 0.0 && 5.0 * fetches >= rows
  }

  /** How often the join itself ran, once when that is not measured. */
  predicate RunCount(n: Node, runs: real) {
    if n.info.actual.Some? && n.info.actual.value.loops > 0.0 then runs == n.info.actual.value.loops else runs == 1.0
  }

  /** A thousand loops, and in each run of the join ten for every row the outer side was estimated at. */
  ghost predicate LoopsExploded(join: Node, n: Node, loops: real) {
    && join.info.typ == "Nested Loop" && n.parentRel == "Inner" && loops >= 1000.0
    && exists o, i :: Sides(join, o, i) && exists runs :: RunCount(join, runs) && TenTimes(loops, join.children[o].info.planRows, runs)
  }

  /** At least one row each run. */
  predicate TenTimes(loops: real, estimate: real, runs: real) {
    loops >= 10.0 * (estimate * runs) && loops >= 10.0 * runs
  }

  /** A tenth of the blocks of a bitmap scan are lossy; exact ones count as none when not printed. */
  predicate Lossy(c: Case, n: Node) {
    var blocks := if HeapBlocks in n.attrs then n.attrs[HeapBlocks] else "";
    var lossy, exact := c.reader.lossyBlocks(blocks), c.reader.exactBlocks(blocks);
    n.info.typ == "Bitmap Heap Scan" && lossy.Some? && lossy.value > 0.0
    && (exact.Some? ==> OneInTen(lossy.value, exact.value))
  }

  predicate OneInTen(lossy: real, exact: real) {
    lossy + exact > 0.0 && 9.0 * lossy >= exact
  }

  ghost predicate WorkersMissing(c: Case, n: Node) {
    exists planned, launched :: Reads(c, n, WorkersPlanned, planned) && Reads(c, n, WorkersLaunched, launched) && launched < planned
  }

  /** The rule names the visited node, with that severity. */
  ghost predicate Names(r: Rule, c: Case, v: Visit, s: Severity) {
    var n := v.node;
    var a := n.info.actual;
    match r
    case SeqScanLargeRule => LargeScan(c, n, s)
    case NestedLoopBlowupRule => s == Medium && ManyPairs(n)
    case SortEstimateSpillRule => s == Medium && SpillExpected(c, n.info)
    case CteMaterializeRule => s == Low && ManyKept(n.info)
    case RowMisestimateRule => s == High && a.Some? && Misjudged(n.info.planRows, a.value)
    case SortSpillActualRule => s == Medium && Spilled(c, n)
    case FilterDiscardsRowsRule => s == Medium && MostDiscarded(c, n)
    case HeapFetchesHighRule => s == Medium && a.Some? && ManyFetches(c, n, a.value)
    case LoopsBlowupRule => s == High && a.Some? && v.parent.Some? && LoopsExploded(v.parent.value, n, a.value.loops)
    case BitmapLossyRule => s == Low && Lossy(c, n)
    case WorkersNotLaunchedRule => s == Low && WorkersMissing(c, n)
    case _ => false
  }

  lemma NamesLargeScan(c: Case, v: Visit, s: Severity)
    ensures SeqScanLarge(c, v) == Some(s) <==> LargeScan(c, v.node, s)
  {
    var n := v.node;
    forall x
      ensures Scanned(c, n, x) <==> n.info.actual.Some? && x == ScannedRows(c, n)
      ensures SizeKnown(c, n, x) <==> TableRows(c, n) == Some(x)
    {
      ScannedIs(c, n, x);
      SizeIs(c, n, x);
    }
    LargeScanCases(c, n, s);
  }

  lemma LargeScanCases(c: Case, n: Node, s: Severity)
    requires forall x :: Scanned(c, n, x) <==> n.info.actual.Some? && x == ScannedRows(c, n)
    requires forall x :: SizeKnown(c, n, x) <==> TableRows(c, n) == Some(x)
    ensures LargeScan(c, n, s) <==> SeqScanLarge(c, Visit([], n, None)) == Some(s)
  {
    var rows := TableRows(c, n);
    if rows.Some? {
      assert SizeKnown(c, n, rows.value);
    }
    if n.info.actual.Some? {
      assert Scanned(c, n, ScannedRows(c, n));
    }
  }

  lemma NamesManyPairs(c: Case, v: Visit)
    ensures NestedLoopBlowup(c, v) == (if ManyPairs(v.node) then Some(Medium) else None)
  {
    var n := v.node;
    var o, i := SideAt(n, "Outer", 0), SideAt(n, "Inner", 0);
    if HasSides(n) {
      assert Sides(n, o, i);
    }
  }

  lemma NamesMisjudged(c: Case, v: Visit)
    ensures RowMisestimate(c, v) == (if v.node.info.actual.Some? && Misjudged(v.node.info.planRows, v.node.info.actual.value) then Some(High) else None)
  {
    if v.node.info.actual.Some? {
      TimesApart(MaxReal(v.node.info.planRows, 1.0), MaxReal(v.node.info.actual.value.rows, 1.0));
    }
  }

  lemma TimesApart(x: real, y: real)
    requires x >= 1.0 && y >= 1.0
    ensures MaxReal(x / y, y / x) >= 10.0 <==> x >= 10.0 * y || y >= 10.0 * x
  {
    QuotientCompare(x, y, 10.0);
    QuotientCompare(y, x, 10.0);
  }

  lemma NamesSpilled(c: Case, v: Visit)
    ensures SortSpillActual(c, v) == (if Spilled(c, v.node) then Some(Medium) else None)
  {
    ContainsIs(c.reader.sortMethod(Attr(v.node, SortMethod)), "external");
  }

  lemma SomeReading(c: Case, n: Node, f: Field)
    ensures (exists x :: Reads(c, n, f, x)) <==> Number(c, n, f).Some?
    ensures forall x :: Reads(c, n, f, x) <==> Number(c, n, f) == Some(x)
  {
    if Number(c, n, f).Some? {
      assert Reads(c, n, f, Number(c, n, f).value);
    }
  }

  lemma DiscardedIs(c: Case, n: Node)
    requires n.info.actual.Some?
    ensures MostDiscarded(c, n) <==>
      (Number(c, n, RowsRemovedByFilter).Some? || Number(c, n, RowsRemovedByJoinFilter).Some?)
      && NineTenths(RowsRemoved(c, n) * n.info.actual.value.loops, TotalRows(n))
  {
    var removed := RowsRemoved(c, n);
    SomeReading(c, n, RowsRemovedByFilter);
    SomeReading(c, n, RowsRemovedByJoinFilter);
    forall r
      ensures Removed(c, n, r) <==> r == removed
    {
      RemovedIs(c, n, r);
    }
    assert Removed(c, n, removed);
  }

  lemma NamesDiscarded(c: Case, v: Visit)
    ensures FilterDiscardsRows(c, v) == (if MostDiscarded(c, v.node) then Some(Medium) else None)
  {
    if v.node.info.actual.Some? {
      DiscardedIs(c, v.node);
      NineTenthsIs(RowsRemoved(c, v.node) * v.node.info.actual.value.loops, TotalRows(v.node));
    }
  }

  lemma NineTenthsIs(removed: real, kept: real)
    ensures NineTenths(removed, kept) <==> removed >= 10000.0 && Share(removed, removed + kept) >= 0.9
  {
    if removed >= 10000.0 {
      ShareIs(removed, kept, 0.9);
    }
  }

  /** Shares compared without a quotient. */
  lemma ShareIs(part: real, rest: real, share: real)
    requires part > 0.0 && share > 0.0
    ensures Share(part, part + rest) >= share <==> part + rest > 0.0 && part >= share * (part + rest)
  {
    var whole := part + rest;
    if whole > 0.0 {
      QuotientCompare(part, whole, share);
    } else if whole < 0.0 {
      QuotientSign(part, whole);
    }
  }

  lemma QuotientSign(x: real, d: real)
    requires x > 0.0 && d < 0.0
    ensures x / d < 0.0
  {
    var q := x / d;
    QuotientTimes(x, d);
    assert q * d == x;
  }

  lemma NamesFetches(c: Case, v: Visit)
    ensures HeapFetchesHigh(c, v) ==
      (if v.node.info.actual.Some? && ManyFetches(c, v.node, v.node.info.actual.value) then Some(Medium) else None)
  {
    var n := v.node;
    var fetches := Number(c, n, HeapFetches);
    SomeReading(c, n, HeapFetches);
    if n.info.actual.Some? && fetches.Some? && TotalRows(n) > 0.0 {
      QuotientCompare(fetches.value, TotalRows(n), 0.2);
      assert Reads(c, n, HeapFetches, fetches.value);
    }
  }

  lemma NamesLoops(c: Case, v: Visit)
    ensures LoopsBlowup(c, v) ==
      (if v.node.info.actual.Some? && v.parent.Some? && LoopsExploded(v.parent.value, v.node, v.node.info.actual.value.loops) then Some(High) else None)
  {
    if v.node.info.actual.Some? && v.parent.Some? && HasSides(v.parent.value) {
      var join := v.parent.value;
      var o, i := SideAt(join, "Outer", 0), SideAt(join, "Inner", 0);
      assert Sides(join, o, i);
      var runs := if join.info.actual.Some? && join.info.actual.value.loops > 0.0 then join.info.actual.value.loops else 1.0;
      assert RunCount(join, runs);
      ExpectedLoops(v.node.info.actual.value.loops, join.children[o].info.planRows, runs);
    }
  }

  lemma ExpectedLoops(loops: real, estimate: real, runs: real)
    requires runs > 0.0
    ensures TenTimes(loops, estimate, runs) <==> loops >= MaxReal(estimate, 1.0) * runs * 10.0
  {
    if estimate >= 1.0 {
      ProductMonotone(1.0, estimate, runs);
    } else {
      ProductMonotone(estimate, 1.0, runs);
    }
    assert MaxReal(estimate, 1.0) * runs * 10.0 == 10.0 * (MaxReal(estimate, 1.0) * runs);
    assert 1.0 * runs == runs;
  }

  lemma NamesLossy(c: Case, v: Visit)
    ensures BitmapLossy(c, v) == (if Lossy(c, v.node) then Some(Low) else None)
  {
    var blocks := Attr(v.node, HeapBlocks);
    var lossy, exact := c.reader.lossyBlocks(blocks), c.reader.exactBlocks(blocks);
    if lossy.Some? && lossy.value > 0.0 {
      ShareIs(lossy.value, Or(exact, 0.0), 0.1);
    }
  }

  lemma NamesWorkers(c: Case, v: Visit)
    ensures WorkersNotLaunched(c, v) == (if WorkersMissing(c, v.node) then Some(Low) else None)
  {
    SomeReading(c, v.node, WorkersPlanned);
    SomeReading(c, v.node, WorkersLaunched);
  }

  // ----- the findings

  predicate PerNode(r: Rule) {
    r != CostHotspotRule && r != IndexCandidateJoinRule && r != JitOverheadRule && r != TriggerTimeRule
  }

  /** The finding stands for this visit: its path, the type and relation of its node. */
  predicate Tells(f: Finding, code: string, v: Visit) {
    f.code == code && f.path == v.path && f.nodeType == v.node.info.typ && f.relation == v.node.info.relation
  }

  function Judged(r: Rule, c: Case, v: Visit): Option<Severity> {
    match r
    case SeqScanLargeRule => SeqScanLarge(c, v)
    case NestedLoopBlowupRule => NestedLoopBlowup(c, v)
    case SortEstimateSpillRule => SortEstimateSpill(c, v)
    case CteMaterializeRule => CteMaterialize(c, v)
    case RowMisestimateRule => RowMisestimate(c, v)
    case SortSpillActualRule => SortSpillActual(c, v)
    case FilterDiscardsRowsRule => FilterDiscardsRows(c, v)
    case HeapFetchesHighRule => HeapFetchesHigh(c, v)
    case LoopsBlowupRule => LoopsBlowup(c, v)
    case BitmapLossyRule => BitmapLossy(c, v)
    case WorkersNotLaunchedRule => WorkersNotLaunched(c, v)
    case _ => None
  }

  lemma JudgedIsNamed(r: Rule, c: Case, v: Visit, s: Severity)
    ensures Judged(r, c, v) == Some(s) <==> Names(r, c, v, s)
  {
    match r
    case SeqScanLargeRule => NamesLargeScan(c, v, s);
    case NestedLoopBlowupRule => NamesManyPairs(c, v);
    case RowMisestimateRule => NamesMisjudged(c, v);
    case SortSpillActualRule => NamesSpilled(c, v);
    case FilterDiscardsRowsRule => NamesDiscarded(c, v);
    case HeapFetchesHighRule => NamesFetches(c, v);
    case LoopsBlowupRule => NamesLoops(c, v);
    case BitmapLossyRule => NamesLossy(c, v);
    case WorkersNotLaunchedRule => NamesWorkers(c, v);
    case _ =>
  }

  /** Some visited node is named by the rule, and told of by the finding. */
  ghost predicate ToldOf(r: Rule, c: Case, f: Finding) {
    exists v :: v in AllVisits(c.plan.root) && Names(r, c, v, f.severity) && Tells(f, CodeOf(r), v)
  }

  lemma ReportedIsTold(r: Rule, c: Case, rule: Visit -> Option<Severity>, f: Finding)
    requires forall v :: rule(v) == Judged(r, c, v)
    ensures f in Reported(AllVisits(c.plan.root), CodeOf(r), rule) <==> ToldOf(r, c, f)
  {
    ReportedIs(AllVisits(c.plan.root), CodeOf(r), rule, f);
    forall v
      ensures Names(r, c, v, f.severity) <==> rule(v) == Some(f.severity)
    {
      JudgedIsNamed(r, c, v, f.severity);
    }
  }

  /** A rule that judges single nodes reports each node it names, at its place in the plan, and no other. */
  lemma FindingsInNumbers(r: Rule, c: Case, f: Finding)
    requires PerNode(r)
    ensures f in Eval(r, c) <==> ToldOf(r, c, f)
  {
    match r
    case SeqScanLargeRule => ReportedIsTold(r, c, v => SeqScanLarge(c, v), f);
    case NestedLoopBlowupRule => ReportedIsTold(r, c, v => NestedLoopBlowup(c, v), f);
    case SortEstimateSpillRule => ReportedIsTold(r, c, v => SortEstimateSpill(c, v), f);
    case CteMaterializeRule => ReportedIsTold(r, c, v => CteMaterialize(c, v), f);
    case RowMisestimateRule => ReportedIsTold(r, c, v => RowMisestimate(c, v), f);
    case SortSpillActualRule => ReportedIsTold(r, c, v => SortSpillActual(c, v), f);
    case FilterDiscardsRowsRule => ReportedIsTold(r, c, v => FilterDiscardsRows(c, v), f);
    case HeapFetchesHighRule => ReportedIsTold(r, c, v => HeapFetchesHigh(c, v), f);
    case LoopsBlowupRule => ReportedIsTold(r, c, v => LoopsBlowup(c, v), f);
    case BitmapLossyRule => ReportedIsTold(r, c, v => BitmapLossy(c, v), f);
    case WorkersNotLaunchedRule => ReportedIsTold(r, c, v => WorkersNotLaunched(c, v), f);
  }

  // ----- the rules that look at the whole plan

  /** Half of what the plan costs, and a hundred, spent by the node itself. */
  predicate SpendsHalf(root: Node, n: Node) {
    root.info.totalCost > 0.0 && SelfCost(n) >= 100.0 && 2.0 * SelfCost(n) >= root.info.totalCost
  }

  lemma HotIs(root: Node, n: Node)
    ensures Hot(root, n) <==> SpendsHalf(root, n)
  {
    if root.info.totalCost > 0.0 {
      QuotientCompare(SelfCost(n), root.info.totalCost, 0.5);
    }
  }

  /** An estimated plan has a hotspot when some node spends half of it; the one reported is spent on most. */
  lemma HotspotInNumbers(c: Case)
    ensures var out, root := Eval(CostHotspotRule, c), c.plan.root;
      && (out != [] <==> !c.plan.caps.actual && exists v :: v in AllVisits(root) && SpendsHalf(root, v.node))
      && (out != [] ==> |out| == 1 && out[0].severity == Low && exists v :: MostCostly(root, v) && Tells(out[0], "cost_hotspot", v))
  {
    HotspotIs(c);
    forall v | v in AllVisits(c.plan.root)
      ensures Hot(c.plan.root, v.node) <==> SpendsHalf(c.plan.root, v.node)
    {
      HotIs(c.plan.root, v.node);
    }
  }

  predicate Holds(n: Node) {
    (n.info.typ == "Materialize" || n.info.typ == "Memoize") && |n.children| == 1
  }

  /** m is k levels below n, down the only children of nodes that hold rows back, and holds none back itself. */
  predicate Beneath(n: Node, k: nat, m: Node)
    decreases k
  {
    if k == 0 then n == m && !Holds(n) else Holds(n) && Beneath(n.children[0], k - 1, m)
  }

  function Zeros(k: nat): (p: Path)
    ensures |p| == k && forall i :: 0 <= i < k ==> p[i] == 0
  {
    seq(k, _ => 0)
  }

  lemma {:induction false} UnwrappedIs(n: Node, path: Path) returns (k: nat)
    ensures Beneath(n, k, Unwrapped(n, path).0) && Unwrapped(n, path).1 == path + Zeros(k)
    decreases n
  {
    if Buffering(n) {
      k := UnwrappedIs(n.children[0], path + [0]);
      k := k + 1;
      assert path + [0] + Zeros(k - 1) == path + Zeros(k);
    } else {
      k := 0;
    }
  }

  lemma {:induction false} OneBeneath(n: Node, k: nat, m: Node, k': nat, m': Node)
    requires Beneath(n, k, m) && Beneath(n, k', m')
    ensures k == k' && m == m'
    decreases k
  {
    if k > 0 && k' > 0 {
      OneBeneath(n.children[0], k - 1, m, k' - 1, m');
    }
  }

  predicate Filled(n: Node, f: Field) {
    f in n.attrs && n.attrs[f] != ""
  }

  /** Something an index on the scanned side could look up. */
  predicate Looks(join: Node, scan: Node) {
    Filled(join, HashCond) || Filled(join, MergeCond) || Filled(join, JoinFilter) || Filled(scan, Filter)
  }

  /** The inner side of the visited nested loop reads a whole table, k levels below it, and the finding stands there. */
  predicate ReadsWhole(v: Visit, i: int, k: nat, scan: Node, f: Finding)
    requires 0 <= i < |v.node.children|
  {
    && Beneath(v.node.children[i], k, scan) && scan.info.typ == "Seq Scan" && Looks(v.node, scan)
    && f == Finding("index_candidate_join", High, v.path + [i] + Zeros(k), "Seq Scan", scan.info.relation)
  }

  ghost predicate Candidate(v: Visit, f: Finding) {
    v.node.info.typ == "Nested Loop" && exists o, i :: Sides(v.node, o, i) && exists k, scan :: ReadsWhole(v, i, k, scan, f)
  }

  lemma CandidateIs(v: Visit, f: Finding)
    ensures f in IndexCandidate(v) <==> Candidate(v, f)
  {
    if HasSides(v.node) {
      var o, i := SideAt(v.node, "Outer", 0), SideAt(v.node, "Inner", 0);
      var inner, path := v.node.children[i], v.path + [i];
      var k := UnwrappedIs(inner, path);
      var scan := Unwrapped(inner, path).0;
      assert Sides(v.node, o, i);
      if f in IndexCandidate(v) {
        assert ReadsWhole(v, i, k, scan, f);
      }
      forall k', scan' | Beneath(inner, k', scan')
        ensures k' == k && scan' == scan
      {
        OneBeneath(inner, k, scan, k', scan');
      }
    }
  }

  lemma {:induction false} CandidatesAre(vs: seq<Visit>, f: Finding)
    ensures f in Candidates(vs) <==> exists v :: v in vs && Candidate(v, f)
  {
    if vs != [] {
      var front, last := vs[..|vs| - 1], vs[|vs| - 1];
      CandidatesAre(front, f);
      CandidateIs(last, f);
      assert vs == front + [last];
    }
  }

  /** Every such join of the plan is reported at its scan, and nothing else. */
  lemma CandidatesInNumbers(c: Case, f: Finding)
    ensures f in Eval(IndexCandidateJoinRule, c) <==> exists v :: v in AllVisits(c.plan.root) && Candidate(v, f)
  {
    CandidatesAre(AllVisits(c.plan.root), f);
  }

  /** How long the statement took: as reported, as logged where it was not, that of the root where neither was. */
  predicate Took(p: Plan, t: real) {
    || p.executionTime == Some(t)
    || (p.executionTime.None? && p.duration == Some(t))
    || (p.executionTime.None? && p.duration.None? && p.root.info.actual.Some? && p.root.info.actual.value.totalTime == t)
  }

  /** Ten milliseconds and a quarter of the statement. */
  ghost predicate TakesAQuarter(p: Plan, spent: real) {
    spent >= 10.0 && exists t :: Took(p, t) && t > 0.0 && 4.0 * spent >= t
  }

  lemma OverheadIs(p: Plan, code: string, spent: real)
    ensures Overhead(p, code, spent) ==
      if TakesAQuarter(p, spent) then [Finding(code, Low, [], p.root.info.typ, p.root.info.relation)] else []
  {
    var t := TotalTime(p);
    if t > 0.0 {
      QuotientCompare(spent, t, 0.25);
      assert Took(p, t);
    }
  }

  /** Compilation and triggers are reported at the root, triggers by the sum of their times. */
  lemma OverheadInNumbers(c: Case)
    ensures var root := c.plan.root.info;
      && Eval(JitOverheadRule, c) == (if c.plan.jitTotal.Some? && TakesAQuarter(c.plan, c.plan.jitTotal.value)
                                      then [Finding("jit_overhead", Low, [], root.typ, root.relation)] else [])
      && Eval(TriggerTimeRule, c) == (if TakesAQuarter(c.plan, SumTimes(c.plan.triggers))
                                      then [Finding("trigger_time", Low, [], root.typ, root.relation)] else [])
  {
    if c.plan.jitTotal.Some? {
      OverheadIs(c.plan, "jit_overhead", c.plan.jitTotal.value);
    }
    OverheadIs(c.plan, "trigger_time", SumTimes(c.plan.triggers));
  }

  /** The triggers' time is that of each, once. */
  lemma {:induction false} TimesAddUp(a: seq<real>, b: seq<real>)
    ensures SumTimes(a + b) == SumTimes(a) + SumTimes(b) && forall t :: SumTimes([t]) == t
  {
    if b == [] {
      assert a + b == a;
    } else {
      assert (a + b)[..|a + b| - 1] == a + b[..|b| - 1];
      TimesAddUp(a, b[..|b| - 1]);
    }
  }

  // ----- what a rule needs

  /** Measurements for the seven rules over them, timing for the overheads, work_mem for the expected spill. */
  lemma RunsWhen(r: Rule, c: Case)
    ensures Runs(r, c) <==>
      match r
      case SortEstimateSpillRule => c.workMemKb.Some?
      case JitOverheadRule | TriggerTimeRule => c.plan.caps.timing
      case SeqScanLargeRule | CostHotspotRule | NestedLoopBlowupRule | IndexCandidateJoinRule | CteMaterializeRule => true
      case _ => c.plan.caps.actual
  {
    match r
    case SortEstimateSpillRule => assert ReqWorkMem in Needs(r);
    case JitOverheadRule | TriggerTimeRule => assert ReqTiming in Needs(r);
    case SeqScanLargeRule | CostHotspotRule | NestedLoopBlowupRule | IndexCandidateJoinRule | CteMaterializeRule =>
    case _ => assert ReqActual in Needs(r);
  }
}
