/** The canvas: one node per table laid out on a three-column grid, and the
    relationship edges drawn between tables. */
module Canvas {
  import opened Wrappers
  import opened Text
  import opened Seqs
  import opened Model
  import opened Tables

  datatype Position = Position(x: int, y: int)

  /** A table's node: its id is the table's id. */
  datatype Node = Node(id: string, position: Position, table: Table)

  /** Where the node of the `index`-th table is placed: three nodes per row,
      450 apart across and 400 apart down, starting at (100, 100). */
  function NodePosition(index: nat): Position {
    Position(100 + (index % 3) * 450, 100 + (index / 3) * 400)
  }

  /** Different tables never share a position. */
  lemma NodePositionInjective(i: nat, j: nat)
    requires NodePosition(i) == NodePosition(j)
    ensures i == j
  {
    assert i % 3 == j % 3;
    assert i / 3 == j / 3;
    assert i == (i / 3) * 3 + i % 3;
    assert j == (j / 3) * 3 + j % 3;
  }

  /** Every node sits in one of the three columns of the grid, on a row at or
      below the first. */
  lemma NodePositionOnGrid(index: nat)
    ensures NodePosition(index).x in {100, 550, 1000}
    ensures NodePosition(index).y >= 100 && (NodePosition(index).y - 100) % 400 == 0
  {
  }

  /** The nodes for `tables`, one per table in table order. */
  function Layout(tables: seq<Table>): (nodes: seq<Node>)
    ensures |nodes| == |tables|
    ensures forall i :: 0 <= i < |tables| ==>
      nodes[i].id == tables[i].id && nodes[i].table == tables[i] && nodes[i].position == NodePosition(i)
  {
    seq(|tables|, i requires 0 <= i < |tables| => Node(tables[i].id, NodePosition(i), tables[i]))
  }

  /** No two nodes of a layout overlap. */
  lemma LayoutDistinctPositions(tables: seq<Table>, i: nat, j: nat)
    requires i < |tables| && j < |tables| && i != j
    ensures Layout(tables)[i].position != Layout(tables)[j].position
  {
    if Layout(tables)[i].position == Layout(tables)[j].position {
      NodePositionInjective(i, j);
    }
  }

  /** The label fixed when a relationship is drawn. */
  function EdgeLabel(sourceName: string, targetName: string): string {
    sourceName + " → " + targetName
  }

  function EdgeId(sourceId: string, targetId: string, clock: nat): string {
    "edge-" + sourceId + "-" + targetId + "-" + Decimal(clock)
  }

  /** Two edges between the same ends drawn at different clock readings get
      different ids. */
  lemma EdgeIdInjective(sourceId: string, targetId: string, c1: nat, c2: nat)
    requires EdgeId(sourceId, targetId, c1) == EdgeId(sourceId, targetId, c2)
    ensures c1 == c2
  {
    CancelPrefix("edge-" + sourceId + "-" + targetId + "-", Decimal(c1), Decimal(c2));
    DecimalInjective(c1, c2);
  }

  /** The edge drawn from `source` to `target`. */
  function NewEdge(source: Table, target: Table, clock: nat): Edge {
    Edge(EdgeId(source.id, target.id, clock), source.id, target.id,
      EdgeLabel(source.name, target.name), EdgeData(source.name, target.name))
  }

  /** `onConnect`: the edge to add when both ends name tables, none otherwise.
      The two tables may be the same one. */
  function Connection(tables: seq<Table>, sourceId: string, targetId: string, clock: nat): (r: Option<Edge>)
    ensures r.Some? <==> sourceId in TableIds(tables) && targetId in TableIds(tables)
    ensures r.Some? ==> r.value.source == sourceId && r.value.target == targetId
    ensures r.Some? ==> r.value.labelText == EdgeLabel(r.value.data.sourceTable, r.value.data.targetTable)
  {
    match (FindTable(tables, sourceId), FindTable(tables, targetId))
    case (Some(source), Some(target)) => Some(NewEdge(source, target, clock))
    case _ => None
  }

  /** The names an edge records are those of the first tables with its ends'
      ids at the moment it is drawn. */
  lemma ConnectionNames(tables: seq<Table>, sourceId: string, targetId: string, clock: nat)
    requires Connection(tables, sourceId, targetId, clock).Some?
    ensures var e := Connection(tables, sourceId, targetId, clock).value;
      && (exists i :: FirstWithId(tables, sourceId, i) && tables[i].name == e.data.sourceTable)
      && (exists i :: FirstWithId(tables, targetId, i) && tables[i].name == e.data.targetTable)
  {
  }

  /** A table can be connected to itself. */
  lemma SelfConnection(tables: seq<Table>, i: nat, clock: nat)
    requires i < |tables|
    ensures Connection(tables, tables[i].id, tables[i].id, clock).Some?
  {
  }

  /** The creation message is `Relationship created: ` followed by the edge's
      label. */
  function ConnectedMessage(edge: Edge): (r: string)
    ensures |r| >= |edge.labelText| && r[|r| - |edge.labelText|..] == edge.labelText
    ensures r[..|r| - |edge.labelText|] == "Relationship created: "
  {
    var r := "Relationship created: " + edge.labelText;
    assert r[|r| - |edge.labelText|..] == edge.labelText;
    assert r[..|r| - |edge.labelText|] == "Relationship created: ";
    r
  }

  predicate Touches(edge: Edge, tableId: string) {
    edge.source == tableId || edge.target == tableId
  }

  /** The cascade of a node's delete: the edges that touch neither end at
      `tableId`, in their order. */
  function RemoveEdgesOf(edges: seq<Edge>, tableId: string): (r: seq<Edge>)
    ensures |r| <= |edges|
    ensures forall i :: 0 <= i < |r| ==> !Touches(r[i], tableId)
  {
    Filter(edges, (e: Edge) => !Touches(e, tableId))
  }

  /** Exactly the edges that do not touch the table survive the cascade. */
  lemma RemoveEdgesOfMembership(edges: seq<Edge>, tableId: string, e: Edge)
    ensures e in RemoveEdgesOf(edges, tableId) <==> e in edges && !Touches(e, tableId)
  {
    FilterMembership(edges, (e: Edge) => !Touches(e, tableId), e);
  }

  /** When no edge touches the table the cascade removes nothing. */
  lemma RemoveEdgesOfUntouched(edges: seq<Edge>, tableId: string)
    requires forall i :: 0 <= i < |edges| ==> !Touches(edges[i], tableId)
    ensures RemoveEdgesOf(edges, tableId) == edges
  {
    FilterKeepsAll(edges, (e: Edge) => !Touches(e, tableId));
  }
}
