/** The editor's state: the table list held by the page and the edge list held
    by the canvas, with the operations that change them. */
module Designer {
  import opened Wrappers
  import opened Seqs
  import opened Model
  import opened SqlGenerator
  import opened Tables
  import opened Canvas
  import opened Relationship

  /** Every edge joins two tables that exist. */
  predicate NoDanglingEdges(tables: seq<Table>, edges: seq<Edge>) {
    forall i :: 0 <= i < |edges| ==> edges[i].source in TableIds(tables) && edges[i].target in TableIds(tables)
  }

  /** An id is listed exactly when some table has it. */
  lemma TableIdsMembership(tables: seq<Table>, id: string)
    ensures id in TableIds(tables) <==> exists t :: t in tables && t.id == id
  {
    if id in TableIds(tables) {
      var i :| 0 <= i < |tables| && TableIds(tables)[i] == id;
      assert tables[i] in tables;
    }
    if exists t :: t in tables && t.id == id {
      var t :| t in tables && t.id == id;
      var i :| 0 <= i < |tables| && tables[i] == t;
      assert TableIds(tables)[i] == id;
    }
  }

  /** Adding a table leaves every edge attached. */
  lemma AddKeepsEdgesAttached(tables: seq<Table>, edges: seq<Edge>, table: Table)
    requires NoDanglingEdges(tables, edges)
    ensures NoDanglingEdges(tables + [table], edges)
  {
    forall id | id in TableIds(tables)
      ensures id in TableIds(tables + [table])
    {
      TableIdsMembership(tables, id);
      TableIdsMembership(tables + [table], id);
    }
  }

  /** Replacing a table by one with the same id leaves every edge attached. */
  lemma ReplaceKeepsEdgesAttached(tables: seq<Table>, edges: seq<Edge>, tableId: string, updated: Table)
    requires NoDanglingEdges(tables, edges)
    requires updated.id == tableId
    ensures NoDanglingEdges(ReplaceTable(tables, tableId, updated), edges)
  {
    ReplaceKeepsIds(tables, tableId, updated);
  }

  /** A node's delete, edges first and then the table, leaves every remaining
      edge attached. */
  lemma CascadeKeepsEdgesAttached(tables: seq<Table>, edges: seq<Edge>, tableId: string)
    requires NoDanglingEdges(tables, edges)
    ensures NoDanglingEdges(RemoveTable(tables, tableId), RemoveEdgesOf(edges, tableId))
  {
    var remaining := RemoveTable(tables, tableId);
    var kept := RemoveEdgesOf(edges, tableId);
    forall i | 0 <= i < |kept|
      ensures kept[i].source in TableIds(remaining) && kept[i].target in TableIds(remaining)
    {
      var e := kept[i];
      assert e in kept;
      RemoveEdgesOfMembership(edges, tableId, e);
      var k :| 0 <= k < |edges| && edges[k] == e;
      EndSurvives(tables, tableId, e.source);
      EndSurvives(tables, tableId, e.target);
    }
  }

  /** A listed id other than the removed one is still listed afterwards. */
  lemma EndSurvives(tables: seq<Table>, tableId: string, id: string)
    requires id in TableIds(tables) && id != tableId
    ensures id in TableIds(RemoveTable(tables, tableId))
  {
    TableIdsMembership(tables, id);
    var t :| t in tables && t.id == id;
    RemoveTableMembership(tables, tableId, t);
    TableIdsMembership(RemoveTable(tables, tableId), id);
  }

  /** A drawn edge joins two existing tables. */
  lemma ConnectKeepsEdgesAttached(tables: seq<Table>, edges: seq<Edge>, sourceId: string, targetId: string, clock: nat)
    requires NoDanglingEdges(tables, edges)
    requires Connection(tables, sourceId, targetId, clock).Some?
    ensures NoDanglingEdges(tables, edges + [Connection(tables, sourceId, targetId, clock).value])
  {
    var all := edges + [Connection(tables, sourceId, targetId, clock).value];
    forall i | 0 <= i < |all|
      ensures all[i].source in TableIds(tables) && all[i].target in TableIds(tables)
    {
      if i < |edges| {
        assert all[i] == edges[i];
      }
    }
  }

  /** Removing edges never detaches the others. */
  lemma RemoveEdgeKeepsEdgesAttached(tables: seq<Table>, edges: seq<Edge>, edgeId: string)
    requires NoDanglingEdges(tables, edges)
    ensures NoDanglingEdges(tables, RemoveEdge(edges, edgeId))
  {
    var kept := RemoveEdge(edges, edgeId);
    forall i | 0 <= i < |kept|
      ensures kept[i].source in TableIds(tables) && kept[i].target in TableIds(tables)
    {
      assert kept[i] in kept;
      RemoveEdgeMembership(edges, edgeId, kept[i]);
    }
  }

  /** The page's own `deleteTable`, which the toolbar's reset calls, leaves the
      canvas's edges as they were, so an edge of a deleted table stays behind. */
  lemma PlainDeleteLeavesEdges(table: Table, clock: nat)
    ensures var e := NewEdge(table, table, clock);
      && NoDanglingEdges([table], [e])
      && !NoDanglingEdges(RemoveTable([table], table.id), [e])
  {
    var e := NewEdge(table, table, clock);
    assert TableIds([table])[0] == table.id;
    assert [e][0].source in TableIds([table]);
    assert [table][..0] == [];
    assert RemoveTable([table], table.id) == [];
    assert TableIds([]) == [];
    assert [e][0].source !in TableIds(RemoveTable([table], table.id));
  }

  /** The page's `tables` state together with the canvas's `edges` state. */
  class Schema {
    var tables: seq<Table>
    var edges: seq<Edge>

    constructor()
      ensures tables == [] && edges == []
    {
      tables := [];
      edges := [];
    }

    /** The SQL the page shows: always generated from the current tables. */
    function SqlCode(): (sql: string)
      reads this
      ensures sql == "" <==> |tables| == 0
    {
      SchemaSql(tables)
    }

    /** The canvas's nodes, rebuilt from the tables whenever they change. */
    function Nodes(): (nodes: seq<Node>)
      reads this
      ensures |nodes| == |tables|
    {
      Layout(tables)
    }

    /** `addTable`: the new table goes last; nothing else changes. */
    method AddTable(tableName: string, tableClock: nat, columnClock: nat) returns (message: string)
      modifies this
      ensures tables == old(tables) + [NewTable(tableName, tableClock, columnClock)]
      ensures edges == old(edges)
      ensures message == CreatedMessage(tableName)
      ensures NoDanglingEdges(old(tables), old(edges)) ==> NoDanglingEdges(tables, edges)
    {
      var table := NewTable(tableName, tableClock, columnClock);
      if NoDanglingEdges(tables, edges) {
        AddKeepsEdgesAttached(tables, edges, table);
      }
      tables := tables + [table];
      message := CreatedMessage(tableName);
    }

    /** `updateTable`: every table with `tableId` becomes `updated`; the edges,
        and so their labels, stay as they were. */
    method UpdateTable(tableId: string, updated: Table) returns (message: string)
      modifies this
      ensures tables == ReplaceTable(old(tables), tableId, updated)
      ensures edges == old(edges)
      ensures message == UpdatedMessage(updated)
      ensures updated.id == tableId && NoDanglingEdges(old(tables), old(edges)) ==> NoDanglingEdges(tables, edges)
    {
      if updated.id == tableId && NoDanglingEdges(tables, edges) {
        ReplaceKeepsEdgesAttached(tables, edges, tableId, updated);
      }
      tables := ReplaceTable(tables, tableId, updated);
      message := UpdatedMessage(updated);
    }

    /** `deleteTable`: the tables with `tableId` go; the edges are not touched. */
    method DeleteTable(tableId: string) returns (message: Option<string>)
      modifies this
      ensures tables == RemoveTable(old(tables), tableId)
      ensures edges == old(edges)
      ensures message == DeletedMessage(old(tables), tableId)
    {
      message := DeletedMessage(tables, tableId);
      tables := RemoveTable(tables, tableId);
    }

    /** A node's delete: first the edges touching the table, then the table. */
    method DeleteTableFromNode(tableId: string) returns (message: Option<string>)
      modifies this
      ensures edges == RemoveEdgesOf(old(edges), tableId)
      ensures tables == RemoveTable(old(tables), tableId)
      ensures message == DeletedMessage(old(tables), tableId)
      ensures NoDanglingEdges(old(tables), old(edges)) ==> NoDanglingEdges(tables, edges)
    {
      if NoDanglingEdges(tables, edges) {
        CascadeKeepsEdgesAttached(tables, edges, tableId);
      }
      edges := RemoveEdgesOf(edges, tableId);
      message := DeletedMessage(tables, tableId);
      tables := RemoveTable(tables, tableId);
    }

    /** `onConnect`: an edge is added exactly when both ends name tables. */
    method Connect(sourceId: string, targetId: string, clock: nat) returns (message: Option<string>)
      modifies this
      ensures tables == old(tables)
      ensures match Connection(old(tables), sourceId, targetId, clock)
        case Some(e) => edges == old(edges) + [e] && message == Some(ConnectedMessage(e))
        case None => edges == old(edges) && message == None
      ensures NoDanglingEdges(old(tables), old(edges)) ==> NoDanglingEdges(tables, edges)
    {
      var edge := Connection(tables, sourceId, targetId, clock);
      match edge
      case Some(e) =>
        if NoDanglingEdges(tables, edges) {
          ConnectKeepsEdgesAttached(tables, edges, sourceId, targetId, clock);
        }
        edges := edges + [e];
        message := Some(ConnectedMessage(e));
      case None =>
        message := None;
    }

    /** `onEdgeClick` on a drawn edge: the edge component is rendered from
        the edge list, so the clicked edge is one of `edges`. */
    method RemoveRelationship(edge: Edge) returns (message: string)
      requires edge in edges
      modifies this
      ensures edges == RemoveEdge(old(edges), edge.id)
      ensures edge !in edges
      ensures tables == old(tables)
      ensures message == RemovalMessage(edge.data)
      ensures NoDanglingEdges(old(tables), old(edges)) ==> NoDanglingEdges(tables, edges)
    {
      if NoDanglingEdges(tables, edges) {
        RemoveEdgeKeepsEdgesAttached(tables, edges, edge.id);
      }
      RemoveEdgeMembership(edges, edge.id, edge);
      edges := RemoveEdge(edges, edge.id);
      message := RemovalMessage(edge.data);
    }
  }
}
