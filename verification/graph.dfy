/** The orchestrator's static routing table.  A graph is a list of edges:
    an unconditional edge names its successor, a conditional edge maps each
    key its router may return to a successor.  A router answer that is not
    a key of the declared map is a configuration error. */
module Graph {
  import opened Common

  /** The library's reserved names for the entry and terminal markers. */
  const Start := "__start__"
  const End := "__end__"

  datatype Edge =
    | Direct(src: string, dst: string)
    | Branch(src: string, targets: map<string, string>)

  type Table = seq<Edge>

  /** The first edge leaving `node`, if any. */
  function EdgeFrom(table: Table, node: string): (r: Option<Edge>)
    ensures r.Some? ==> r.value in table && r.value.src == node
    ensures r.None? <==> forall i :: 0 <= i < |table| ==> table[i].src != node
  {
    if |table| == 0 then None
    else if table[0].src == node then Some(table[0])
    else
      var rest := EdgeFrom(table[1..], node);
      assert forall i :: 1 <= i < |table| ==> table[i] == table[1..][i - 1];
      rest
  }

  /** The edge leaving `node` is the first one in the table whose source
      is `node`. */
  lemma {:induction false} EdgeFromFirst(table: Table, node: string, k: nat)
    requires k < |table| && table[k].src == node
    requires forall i :: 0 <= i < k ==> table[i].src != node
    ensures EdgeFrom(table, node) == Some(table[k])
    decreases k
  {
    if k > 0 {
      assert forall i :: 0 <= i < k - 1 ==> table[1..][i] == table[i + 1];
      EdgeFromFirst(table[1..], node, k - 1);
    }
  }

  /** The node that follows `node`, given what its router answered (if it
      has a router).  Fails when no edge leaves `node`, or when the router's
      answer is not a key of the conditional edge's map. */
  function Next(table: Table, node: string, answer: Option<string>): (r: Result<string>)
    ensures r.Ok? <==> (EdgeFrom(table, node).Some? &&
      (EdgeFrom(table, node).value.Branch? ==>
         answer.Some? && answer.value in EdgeFrom(table, node).value.targets))
    ensures r.Ok? && EdgeFrom(table, node).value.Direct? ==> r.value == EdgeFrom(table, node).value.dst
    ensures r.Ok? && EdgeFrom(table, node).value.Branch? ==>
      r.value == EdgeFrom(table, node).value.targets[answer.value]
  {
    match EdgeFrom(table, node)
    case None => Err("no edge leaves " + node)
    case Some(Direct(_, dst)) => Ok(dst)
    case Some(Branch(_, targets)) =>
      if answer.Some? && answer.value in targets then Ok(targets[answer.value])
      else Err("invalid route from " + node)
  }

  /** Every edge leads to a node of the graph or to the terminal marker,
      and every conditional edge maps each key to itself (the identity
      maps the code always declares). */
  predicate WellFormed(table: Table, nodes: set<string>) {
    forall i :: 0 <= i < |table| ==>
      (table[i].src == Start || table[i].src in nodes) &&
      match table[i]
      case Direct(_, dst) => dst == End || dst in nodes
      case Branch(_, targets) =>
        forall k :: k in targets ==> targets[k] == k && (k == End || k in nodes)
  }
}
