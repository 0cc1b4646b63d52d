/** The plan tree shared by the parser, the fingerprint and the rules. */
module PlanTree {
  import opened Common

  /** What a node line carries by itself: type, modifiers, the objects it touches, the estimates. */
  datatype Info = Info(
    typ: string,
    strategy: string,
    partialMode: string,
    joinType: string,
    operation: string,
    scanDirection: string,
    schema: string,
    relation: string,
    indexName: string,
    alias: string,
    parallel: bool,
    planRows: real,
    planWidth: nat,
    totalCost: real,
    actual: Option<Actual>)

  /** Measured numbers, rows per single loop. */
  datatype Actual = Actual(totalTime: real, rows: real, loops: real)

  /** Fields filled from attribute lines. */
  datatype Field =
    | Filter | IndexCond | RecheckCond | HashCond | MergeCond | JoinFilter
    | RowsRemovedByFilter | RowsRemovedByJoinFilter | HeapFetches
    | SortKey | SortMethod | WorkersPlanned | WorkersLaunched | HeapBlocks | Buffers

  datatype Node = Node(
    info: Info,
    parentRel: string,
    subplanName: string,
    attrs: map<Field, string>,
    children: seq<Node>)

  function WithChild(n: Node, c: Node): Node {
    n.(children := n.children + [c])
  }
}
