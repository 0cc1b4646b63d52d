/**
 * The plan fingerprint. The digest is a parameter: what needs it to be collision
 * free says so with Injective.
 */
module PlanHash {
  import opened Common
  import opened PlanTree
  import opened Text
  import Sorting

  ghost predicate Injective(digest: string -> string) {
    forall a, b :: digest(a) == digest(b) ==> a == b
  }

  predicate ParallelAppend(n: Node) {
    n.info.typ == "Append" && n.info.parallel
  }

  function FormatBool(b: bool): string { if b then "true" else "false" }

  /** The fields written for a node itself, in the order they are written. */
  function Fields(n: Node): seq<string> {
    var l := n.info;
    [l.typ, l.strategy, l.partialMode, l.joinType, l.operation, l.scanDirection,
     l.schema, l.relation, l.indexName, n.parentRel, FormatBool(l.parallel), Itoa(|n.children|)]
  }

  function WriteAll(ss: seq<string>): string {
    if ss == [] then "" else WriteAll(ss[..|ss| - 1]) + Prefixed(ss[|ss| - 1])
  }

  function Flatten(ss: seq<seq<string>>): seq<string> {
    if ss == [] then [] else ss[0] + Flatten(ss[1..])
  }

  function Hashes(streams: seq<seq<string>>, digest: string -> string): (r: seq<string>)
    ensures |r| == |streams| && forall i :: 0 <= i < |r| ==> r[i] == digest(WriteAll(streams[i]))
  {
    seq(|streams|, i requires 0 <= i < |streams| => digest(WriteAll(streams[i])))
  }

  /** What follows a node's own fields, given what each child would write. */
  function Arrange(parallelAppend: bool, streams: seq<seq<string>>, digest: string -> string): seq<string> {
    if parallelAppend then Sorting.Sort(Hashes(streams, digest), LexLe) else Flatten(streams)
  }

  /** All fields written for a subtree. */
  function Stream(n: Node, digest: string -> string): seq<string>
    decreases n, 0
  {
    Fields(n) + Arrange(ParallelAppend(n), Streams(n.children, digest), digest)
  }

  function Streams(ns: seq<Node>, digest: string -> string): (r: seq<seq<string>>)
    ensures |r| == |ns|
    decreases ns, 1
  {
    if ns == [] then [] else [Stream(ns[0], digest)] + Streams(ns[1..], digest)
  }

  function Fingerprint(n: Node, digest: string -> string): string {
    digest(WriteAll(Stream(n, digest)))
  }

  // ----- when two plans have the same shape

  predicate SameHeader(n: Node, m: Node) {
    var a, b := n.info, m.info;
    && a.typ == b.typ && a.strategy == b.strategy && a.partialMode == b.partialMode
    && a.joinType == b.joinType && a.operation == b.operation && a.scanDirection == b.scanDirection
    && a.schema == b.schema && a.relation == b.relation && a.indexName == b.indexName
    && n.parentRel == m.parentRel && a.parallel == b.parallel
  }

  /** Same shape, the children of a parallel append being compared as a bag at any depth. */
  ghost predicate SameShape(n: Node, m: Node)
    decreases n, 0
  {
    SameHeader(n, m) &&
    if ParallelAppend(n) then SameBag(n.children, m.children) else SameList(n.children, m.children)
  }

  ghost predicate SameList(ns: seq<Node>, ms: seq<Node>)
    decreases ns, 1
  {
    |ns| == |ms| &&
    (ns == [] || (SameShape(ns[0], ms[0]) && SameList(ns[1..], ms[1..])))
  }

  /** Some pairing of the two child lists matches every node with one of its shape. */
  ghost predicate SameBag(ns: seq<Node>, ms: seq<Node>)
    decreases ns, 1
  {
    |ns| == |ms| &&
    (ns == [] ||
     exists j :: 0 <= j < |ms| && SameShape(ns[0], ms[j]) && SameBag(ns[1..], Without(ms, j)))
  }

  function Without<T>(s: seq<T>, j: nat): seq<T>
    requires j < |s|
  {
    s[..j] + s[j + 1..]
  }

  lemma WithoutKeeps<T>(s: seq<T>, j: nat)
    requires j < |s|
    ensures multiset(s) == multiset{s[j]} + multiset(Without(s, j))
  {
    assert s == s[..j] + [s[j]] + s[j + 1..];
  }

  lemma HeadAndTail<T>(s: seq<T>)
    requires s != []
    ensures multiset(s) == multiset{s[0]} + multiset(s[1..])
  {
    assert s == [s[0]] + s[1..];
  }

  // ----- unique decodability

  /** The written bytes determine the fields. */
  lemma {:induction false} WriteAllInjective(ss: seq<string>, tt: seq<string>)
    requires WriteAll(ss) == WriteAll(tt)
    ensures ss == tt
  {
    WriteAllFront(ss);
    WriteAllFront(tt);
    if ss != [] && tt != [] {
      PrefixedDecodes(ss[0], WriteAll(ss[1..]), tt[0], WriteAll(tt[1..]));
      WriteAllInjective(ss[1..], tt[1..]);
      assert ss == [ss[0]] + ss[1..] && tt == [tt[0]] + tt[1..];
    }
  }

  lemma {:induction false} WriteAllFront(ss: seq<string>)
    ensures ss != [] ==> WriteAll(ss) == Prefixed(ss[0]) + WriteAll(ss[1..]) && WriteAll(ss) != ""
  {
    if |ss| > 1 {
      WriteAllFront(ss[..|ss| - 1]);
      assert ss[..|ss| - 1][1..] == ss[1..][..|ss| - 2];
      assert ss[1..][|ss| - 2] == ss[|ss| - 1];
      var head, mid, last := Prefixed(ss[0]), WriteAll(ss[1..][..|ss| - 2]), Prefixed(ss[|ss| - 1]);
      assert (head + mid) + last == head + (mid + last);
    } else if |ss| == 1 {
      assert WriteAll([]) + Prefixed(ss[0]) == Prefixed(ss[0]) + WriteAll([]);
    }
  }

  lemma FieldsDecode(n: Node, m: Node)
    requires Fields(n) == Fields(m)
    ensures SameHeader(n, m) && |n.children| == |m.children|
  {
    var f, g := Fields(n), Fields(m);
    assert f[0] == g[0] && f[1] == g[1] && f[2] == g[2] && f[3] == g[3] && f[4] == g[4] && f[5] == g[5];
    assert f[6] == g[6] && f[7] == g[7] && f[8] == g[8] && f[9] == g[9] && f[10] == g[10] && f[11] == g[11];
    assert "true"[0] != "false"[0];
    ItoaInjective(|n.children|, |m.children|);
  }

  /** A stream ends where its tree ends: two equal field lists start with plans of one shape. */
  lemma {:induction false} StreamDecodes(
    n: Node, x: seq<string>, m: Node, y: seq<string>, digest: string -> string)
    requires Injective(digest)
    requires Stream(n, digest) + x == Stream(m, digest) + y
    ensures SameShape(n, m) && x == y
    decreases n, 0
  {
    var ns, ms := Streams(n.children, digest), Streams(m.children, digest);
    var restN, restM := Arrange(ParallelAppend(n), ns, digest), Arrange(ParallelAppend(m), ms, digest);
    SplitAt(Fields(n), restN, x, Fields(m), restM, y);
    FieldsDecode(n, m);
    if ParallelAppend(n) {
      Sorting.SortKeeps(Hashes(ns, digest), LexLe);
      Sorting.SortKeeps(Hashes(ms, digest), LexLe);
      SplitAt(restN, x, [], restM, y, []);
      BagDecodes(n.children, m.children, digest);
    } else {
      ListDecodes(n.children, x, m.children, y, digest);
    }
  }

  lemma SplitAt(a: seq<string>, b: seq<string>, x: seq<string>, c: seq<string>, d: seq<string>, y: seq<string>)
    requires |a| == |c| && a + b + x == c + d + y
    ensures a == c && b + x == d + y
    ensures x == [] && y == [] ==> b == d
  {
    var left, right := a + b + x, c + d + y;
    assert a == left[..|a|] && c == right[..|a|];
    assert b + x == left[|a|..] && d + y == right[|a|..];
    if x == [] && y == [] {
      assert b + x == b && d + y == d;
    }
  }

  lemma {:induction false} ListDecodes(
    ns: seq<Node>, x: seq<string>, ms: seq<Node>, y: seq<string>, digest: string -> string)
    requires Injective(digest) && |ns| == |ms|
    requires Flatten(Streams(ns, digest)) + x == Flatten(Streams(ms, digest)) + y
    ensures SameList(ns, ms) && x == y
    decreases ns, 1
  {
    if ns == [] {
      assert Flatten(Streams(ns, digest)) + x == x && Flatten(Streams(ms, digest)) + y == y;
    } else {
      FlattenFront(ns, x, digest);
      FlattenFront(ms, y, digest);
      StreamDecodes(ns[0], Flatten(Streams(ns[1..], digest)) + x, ms[0], Flatten(Streams(ms[1..], digest)) + y, digest);
      ListDecodes(ns[1..], x, ms[1..], y, digest);
    }
  }

  lemma FlattenFront(ns: seq<Node>, x: seq<string>, digest: string -> string)
    requires ns != []
    ensures Flatten(Streams(ns, digest)) + x == Stream(ns[0], digest) + (Flatten(Streams(ns[1..], digest)) + x)
  {
    StreamsTail(ns, digest);
    FlattenHead(Streams(ns, digest), x);
  }

  lemma FlattenHead(ss: seq<seq<string>>, x: seq<string>)
    requires ss != []
    ensures Flatten(ss) + x == ss[0] + (Flatten(ss[1..]) + x)
  {
  }

  lemma StreamsTail(ns: seq<Node>, digest: string -> string)
    requires ns != []
    ensures Streams(ns, digest)[0] == Stream(ns[0], digest)
    ensures Streams(ns, digest)[1..] == Streams(ns[1..], digest)
  {
  }

  lemma {:induction false} StreamsConcat(ns: seq<Node>, ms: seq<Node>, digest: string -> string)
    ensures Streams(ns + ms, digest) == Streams(ns, digest) + Streams(ms, digest)
  {
    if ns == [] {
      assert ns + ms == ms;
    } else {
      var all := ns + ms;
      assert all[0] == ns[0] && all[1..] == ns[1..] + ms;
      StreamsConcat(ns[1..], ms, digest);
    }
  }

  lemma StreamsWithout(ns: seq<Node>, j: nat, digest: string -> string)
    requires j < |ns|
    ensures Streams(ns, digest)[j] == Stream(ns[j], digest)
    ensures Streams(Without(ns, j), digest) == Without(Streams(ns, digest), j)
  {
    var front, back := Streams(ns[..j], digest), Streams(ns[j + 1..], digest);
    assert Streams(ns, digest) == front + Streams(ns[j..], digest) by {
      assert ns == ns[..j] + ns[j..];
      StreamsConcat(ns[..j], ns[j..], digest);
    }
    StreamsTail(ns[j..], digest);
    assert ns[j..][1..] == ns[j + 1..];
    assert Streams(Without(ns, j), digest) == front + back by {
      StreamsConcat(ns[..j], ns[j + 1..], digest);
    }
    WithoutMiddle(front, Streams(ns[j..], digest));
  }

  lemma WithoutMiddle<T>(front: seq<T>, back: seq<T>)
    requires back != []
    ensures (front + back)[|front|] == back[0]
    ensures Without(front + back, |front|) == front + back[1..]
  {
  }

  lemma {:induction false} BagDecodes(ns: seq<Node>, ms: seq<Node>, digest: string -> string)
    requires Injective(digest)
    requires multiset(Hashes(Streams(ns, digest), digest)) == multiset(Hashes(Streams(ms, digest), digest))
    ensures SameBag(ns, ms)
    decreases ns, 1
  {
    var a, b := Hashes(Streams(ns, digest), digest), Hashes(Streams(ms, digest), digest);
    assert |multiset(a)| == |a| == |ns| && |multiset(b)| == |b| == |ms|;
    if ns != [] {
      assert a[0] in multiset(b);
      var j: nat :| j < |ms| && b[j] == a[0];
      StreamsTail(ns, digest);
      StreamsWithout(ms, j, digest);
      WriteAllInjective(Stream(ns[0], digest), Stream(ms[j], digest));
      StreamDecodes(ns[0], [], ms[j], [], digest);
      TailBag(Streams(ns, digest), Streams(ms, digest), j, digest);
      BagDecodes(ns[1..], Without(ms, j), digest);
    }
  }

  /** Taking a matched pair out of the two lists takes one digest out of each bag. */
  lemma TailBag(ss: seq<seq<string>>, tt: seq<seq<string>>, j: nat, digest: string -> string)
    requires ss != [] && j < |tt| && ss[0] == tt[j]
    ensures multiset(Hashes(ss, digest)) == multiset(Hashes(tt, digest)) <==>
            multiset(Hashes(ss[1..], digest)) == multiset(Hashes(Without(tt, j), digest))
  {
    var a, b := Hashes(ss, digest), Hashes(tt, digest);
    assert a[1..] == Hashes(ss[1..], digest);
    assert Without(b, j) == Hashes(Without(tt, j), digest);
    HeadAndTail(a);
    WithoutKeeps(b, j);
    assert multiset(a[1..]) == multiset(a) - multiset{a[0]};
    assert multiset(Without(b, j)) == multiset(b) - multiset{a[0]};
  }

  // ----- the other direction: the fingerprint depends on the shape only

  lemma {:induction false} SameShapeSameStream(n: Node, m: Node, digest: string -> string)
    requires SameShape(n, m)
    ensures Stream(n, digest) == Stream(m, digest)
    decreases n, 0
  {
    if ParallelAppend(n) {
      SameBagSameHashes(n.children, m.children, digest);
      SortLexUnique(Hashes(Streams(n.children, digest), digest), Hashes(Streams(m.children, digest), digest));
    } else {
      SameListSameStreams(n.children, m.children, digest);
    }
  }

  lemma {:induction false} SameListSameStreams(ns: seq<Node>, ms: seq<Node>, digest: string -> string)
    requires SameList(ns, ms)
    ensures Streams(ns, digest) == Streams(ms, digest)
    decreases ns, 1
  {
    if ns != [] {
      SameShapeSameStream(ns[0], ms[0], digest);
      SameListSameStreams(ns[1..], ms[1..], digest);
      StreamsTail(ns, digest);
      StreamsTail(ms, digest);
      HeadAndRest(Streams(ns, digest), Streams(ms, digest));
    }
  }

  lemma HeadAndRest<T>(s: seq<T>, t: seq<T>)
    requires s != [] && t != [] && s[0] == t[0] && s[1..] == t[1..]
    ensures s == t
  {
    assert s == [s[0]] + s[1..] && t == [t[0]] + t[1..];
  }

  lemma {:induction false} SameBagSameHashes(ns: seq<Node>, ms: seq<Node>, digest: string -> string)
    requires SameBag(ns, ms)
    ensures multiset(Hashes(Streams(ns, digest), digest)) == multiset(Hashes(Streams(ms, digest), digest))
    decreases ns, 1
  {
    if ns == [] {
      assert Streams(ns, digest) == [] && Streams(ms, digest) == [];
    } else {
      var j: nat :| j < |ms| && SameShape(ns[0], ms[j]) && SameBag(ns[1..], Without(ms, j));
      SameShapeSameStream(ns[0], ms[j], digest);
      SameBagSameHashes(ns[1..], Without(ms, j), digest);
      StreamsTail(ns, digest);
      StreamsWithout(ms, j, digest);
      TailBag(Streams(ns, digest), Streams(ms, digest), j, digest);
    }
  }

  lemma SortLexUnique(a: seq<string>, b: seq<string>)
    requires multiset(a) == multiset(b)
    ensures Sorting.Sort(a, LexLe) == Sorting.Sort(b, LexLe)
  {
    LexOrder();
    Sorting.SortKeeps(a, LexLe);
    Sorting.SortKeeps(b, LexLe);
    Sorting.SortSorted(a, LexLe);
    Sorting.SortSorted(b, LexLe);
    Sorting.SameSortedArrangement(Sorting.Sort(a, LexLe), Sorting.Sort(b, LexLe), LexLe);
  }

  /** The fingerprint is exact: equal for plans of one shape and for no others. */
  lemma FingerprintExact(n: Node, m: Node, digest: string -> string)
    requires Injective(digest)
    ensures Fingerprint(n, digest) == Fingerprint(m, digest) <==> SameShape(n, m)
  {
    if SameShape(n, m) {
      SameShapeSameStream(n, m, digest);
    }
    if Fingerprint(n, digest) == Fingerprint(m, digest) {
      WriteAllInjective(Stream(n, digest), Stream(m, digest));
      StreamDecodes(n, [], m, [], digest);
    }
  }

  // ----- what the shape leaves out

  lemma {:induction false} SameShapeReflexive(n: Node)
    ensures SameShape(n, n)
    decreases n, 0
  {
    SameListReflexive(n.children);
    SameBagOfPermutation(n.children, n.children);
  }

  lemma {:induction false} SameListReflexive(ns: seq<Node>)
    ensures SameList(ns, ns)
    decreases ns, 0
  {
    if ns != [] {
      SameShapeReflexive(ns[0]);
      SameListReflexive(ns[1..]);
    }
  }

  lemma {:induction false} SameBagOfPermutation(ns: seq<Node>, ms: seq<Node>)
    requires multiset(ns) == multiset(ms)
    ensures SameBag(ns, ms)
    decreases ns, 0
  {
    assert |multiset(ns)| == |ns| && |multiset(ms)| == |ms|;
    if ns != [] {
      assert ns[0] in multiset(ms);
      var j: nat :| j < |ms| && ms[j] == ns[0];
      SameShapeReflexive(ns[0]);
      WithoutKeeps(ms, j);
      HeadAndTail(ns);
      assert multiset(ns[1..]) == multiset(ns) - multiset{ns[0]};
      assert multiset(Without(ms, j)) == multiset(ms) - multiset{ns[0]};
      SameBagOfPermutation(ns[1..], Without(ms, j));
    }
  }

  /** Partitions of a parallel append swapping places, new estimates and measurements, other conditions: same fingerprint. */
  lemma VolatilePartsKeepFingerprint(
    n: Node, children: seq<Node>, planRows: real, totalCost: real, actual: Option<Actual>, alias: string,
    attrs: map<Field, string>, subplan: string, digest: string -> string)
    requires if ParallelAppend(n) then multiset(children) == multiset(n.children) else children == n.children
    ensures var info := n.info.(planRows := planRows, totalCost := totalCost, actual := actual, alias := alias);
      Fingerprint(Node(info, n.parentRel, subplan, attrs, children), digest) == Fingerprint(n, digest)
  {
    var info := n.info.(planRows := planRows, totalCost := totalCost, actual := actual, alias := alias);
    var m := Node(info, n.parentRel, subplan, attrs, children);
    SameListReflexive(n.children);
    if ParallelAppend(n) {
      SameBagOfPermutation(n.children, children);
    }
    SameShapeSameStream(n, m, digest);
  }

  // ----- which order of the children counts

  lemma {:induction false} SameListAt(ns: seq<Node>, ms: seq<Node>, i: nat)
    requires SameList(ns, ms) && i < |ns|
    ensures |ms| == |ns| && SameShape(ns[i], ms[i])
    decreases i
  {
    if i > 0 {
      SameListAt(ns[1..], ms[1..], i - 1);
    }
  }

  function Swapped(ns: seq<Node>, i: nat, j: nat): seq<Node>
    requires i < |ns| && j < |ns|
  {
    ns[i := ns[j]][j := ns[i]]
  }

  /** Two children of different fingerprints may trade places below a parallel Append and below nothing else. */
  lemma SwapKeepsFingerprint(n: Node, i: nat, j: nat, digest: string -> string)
    requires Injective(digest) && i < |n.children| && j < |n.children|
    requires Fingerprint(n.children[i], digest) != Fingerprint(n.children[j], digest)
    ensures Fingerprint(n.(children := Swapped(n.children, i, j)), digest) == Fingerprint(n, digest) <==>
            n.info.typ == "Append" && n.info.parallel
  {
    var m := n.(children := Swapped(n.children, i, j));
    FingerprintExact(m, n, digest);
    if n.info.typ == "Append" && n.info.parallel {
      assert multiset(m.children) == multiset(n.children);
      SameBagOfPermutation(m.children, n.children);
    } else if SameList(m.children, n.children) {
      SameListAt(m.children, n.children, i);
      FingerprintExact(n.children[j], n.children[i], digest);
    }
  }

  // ----- the code: a running hash state, fields written one by one

  class HashState {
    var absorbed: string
    ghost var fields: seq<string>

    ghost predicate Valid()
      reads this
    {
      absorbed == WriteAll(fields)
    }

    constructor ()
      ensures Valid() && fields == []
    {
      absorbed := "";
      fields := [];
    }

    method Write(s: string)
      requires Valid()
      modifies this
      ensures Valid() && fields == old(fields) + [s]
    {
      absorbed := absorbed + Prefixed(s);
      fields := fields + [s];
      assert fields[..|fields| - 1] == old(fields);
    }
  }

  method HashPlan(n: Node, digest: string -> string) returns (r: string)
    ensures r == Fingerprint(n, digest)
    decreases n, 2
  {
    var h := new HashState();
    HashNode(h, n, digest);
    assert h.fields == Stream(n, digest);
    r := digest(h.absorbed);
  }

  method HashNode(h: HashState, n: Node, digest: string -> string)
    requires h.Valid()
    modifies h
    ensures h.Valid() && h.fields == old(h.fields) + Stream(n, digest)
    decreases n, 1
  {
    ghost var before := h.fields;
    WriteFields(h, n);
    ghost var rest := Arrange(ParallelAppend(n), Streams(n.children, digest), digest);
    assert before + Fields(n) + rest == before + (Fields(n) + rest);
    if n.info.typ == "Append" && n.info.parallel {
      HashSorted(h, n.children, digest);
    } else {
      HashInOrder(h, n.children, digest);
    }
  }

  method HashSorted(h: HashState, ns: seq<Node>, digest: string -> string)
    requires h.Valid()
    modifies h
    ensures h.Valid() && h.fields == old(h.fields) + Sorting.Sort(Hashes(Streams(ns, digest), digest), LexLe)
    decreases ns, 3
  {
    var subs := SubHashes(ns, digest);
    WriteEach(h, Sorting.Sort(subs, LexLe));
  }

  method WriteEach(h: HashState, subs: seq<string>)
    requires h.Valid()
    modifies h
    ensures h.Valid() && h.fields == old(h.fields) + subs
  {
    for i := 0 to |subs|
      invariant h.Valid() && h.fields == old(h.fields) + subs[..i]
    {
      h.Write(subs[i]);
    }
    assert subs[..|subs|] == subs;
  }

  method SubHashes(ns: seq<Node>, digest: string -> string) returns (subs: seq<string>)
    ensures subs == Hashes(Streams(ns, digest), digest)
    decreases ns, 2
  {
    subs := [];
    ghost var streams := Streams(ns, digest);
    for i := 0 to |ns|
      invariant |subs| == i && forall k :: 0 <= k < i ==> subs[k] == digest(WriteAll(streams[k]))
    {
      StreamsWithout(ns, i, digest);
      var sub := HashPlan(ns[i], digest);
      subs := subs + [sub];
    }
  }

  method HashInOrder(h: HashState, ns: seq<Node>, digest: string -> string)
    requires h.Valid()
    modifies h
    ensures h.Valid() && h.fields == old(h.fields) + Flatten(Streams(ns, digest))
    decreases ns, 3
  {
    assert ns[0..] == ns;
    for i := 0 to |ns|
      invariant h.Valid()
      invariant h.fields + Flatten(Streams(ns[i..], digest)) == old(h.fields) + Flatten(Streams(ns, digest))
    {
      ghost var before := h.fields;
      HashNode(h, ns[i], digest);
      RestOf(before, ns, i, digest);
    }
    assert ns[|ns|..] == [];
  }

  lemma RestOf(before: seq<string>, ns: seq<Node>, i: nat, digest: string -> string)
    requires i < |ns|
    ensures before + Flatten(Streams(ns[i..], digest)) ==
            before + Stream(ns[i], digest) + Flatten(Streams(ns[i + 1..], digest))
  {
    assert ns[i..][1..] == ns[i + 1..];
    StreamsTail(ns[i..], digest);
    FlattenHead(Streams(ns[i..], digest), []);
    var rest := Flatten(Streams(ns[i + 1..], digest));
    assert Flatten(Streams(ns[i..], digest)) == Stream(ns[i], digest) + rest;
  }

  method WriteFields(h: HashState, n: Node)
    requires h.Valid()
    modifies h
    ensures h.Valid() && h.fields == old(h.fields) + Fields(n)
  {
    WriteKind(h, n.info);
    WriteObject(h, n.info);
    h.Write(n.parentRel);
    h.Write(FormatBool(n.info.parallel));
    h.Write(Itoa(|n.children|));
  }

  method WriteKind(h: HashState, i: Info)
    requires h.Valid()
    modifies h
    ensures h.Valid()
    ensures h.fields == old(h.fields) + [i.typ, i.strategy, i.partialMode, i.joinType, i.operation, i.scanDirection]
  {
    h.Write(i.typ);
    h.Write(i.strategy);
    h.Write(i.partialMode);
    h.Write(i.joinType);
    h.Write(i.operation);
    h.Write(i.scanDirection);
  }

  method WriteObject(h: HashState, i: Info)
    requires h.Valid()
    modifies h
    ensures h.Valid() && h.fields == old(h.fields) + [i.schema, i.relation, i.indexName]
  {
    h.Write(i.schema);
    h.Write(i.relation);
    h.Write(i.indexName);
  }
}
