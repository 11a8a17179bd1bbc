/** Deleting one relationship by clicking its edge. */
module Relationship {
  import opened Seqs
  import opened Model
  import opened Canvas

  /** `onEdgeClick`'s new edge list: every edge but those with `edgeId`. */
  function RemoveEdge(edges: seq<Edge>, edgeId: string): (r: seq<Edge>)
    ensures |r| <= |edges|
    ensures forall i :: 0 <= i < |r| ==> r[i].id != edgeId
  {
    Filter(edges, (e: Edge) => e.id != edgeId)
  }

  /** Exactly the edges with another id survive, in their order. */
  lemma RemoveEdgeMembership(edges: seq<Edge>, edgeId: string, e: Edge)
    ensures e in RemoveEdge(edges, edgeId) <==> e in edges && e.id != edgeId
  {
    FilterMembership(edges, (e: Edge) => e.id != edgeId, e);
  }

  lemma RemoveEdgeOrder(a: seq<Edge>, b: seq<Edge>, edgeId: string)
    ensures RemoveEdge(a + b, edgeId) == RemoveEdge(a, edgeId) + RemoveEdge(b, edgeId)
  {
    FilterAppend(a, b, (e: Edge) => e.id != edgeId);
  }

  /** Removing an id no edge has changes nothing. */
  lemma RemoveEdgeMissing(edges: seq<Edge>, edgeId: string)
    requires forall i :: 0 <= i < |edges| ==> edges[i].id != edgeId
    ensures RemoveEdge(edges, edgeId) == edges
  {
    FilterKeepsAll(edges, (e: Edge) => e.id != edgeId);
  }

  /** The message after a removal: the two recorded names when both are
      non-empty (JavaScript truthiness), the word `relationship` otherwise. */
  function RemovalMessage(data: EdgeData): (r: string)
    ensures |r| >= |Removed| && r[|r| - |Removed|..] == Removed
  {
    var r := (if data.sourceTable != "" && data.targetTable != "" then EdgeLabel(data.sourceTable, data.targetTable)
              else "relationship") + Removed;
    assert r[|r| - |Removed|..] == Removed;
    r
  }

  const Removed := " removed successfully!"

  /** When either recorded name is missing (empty), the message falls back to
      the word `relationship`. */
  lemma RemovalMessageFallback(data: EdgeData)
    requires data.sourceTable == "" || data.targetTable == ""
    ensures RemovalMessage(data) == "relationship" + Removed
  {
  }

  /** For an edge drawn between two named tables, the removal message repeats
      the edge's label. */
  lemma RemovalMessageRepeatsLabel(source: Table, target: Table, clock: nat)
    requires source.name != "" && target.name != ""
    ensures var e := NewEdge(source, target, clock);
      RemovalMessage(e.data) == e.labelText + Removed
  {
  }
}
