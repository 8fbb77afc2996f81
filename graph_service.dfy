/**
 * The graph service as an object: an edge store that `addEdge`,
 * `removeEdgesFromNode`, `removeNode` and `clear` change in place, and that
 * `findRelatedUrns` reads.
 */
module GraphServices {
  import opened Sequences
  import opened GraphModel
  import opened GraphQuery
  import opened GraphMutation

  class GraphService {
    /** The stored edges, in the order they were first added. */
    var edges: seq<Edge>

    /** Edges form a set: no triple is stored twice. */
    ghost predicate Valid()
      reads this
    {
      Distinct(edges)
    }

    /** A fresh service holds no edges. */
    constructor ()
      ensures Valid() && edges == []
    {
      edges := [];
    }

    /** `addEdge(edge)`: the edge is stored once, after the edges already there. */
    method AddEdge(e: Edge)
      requires Valid()
      modifies this
      ensures Valid()
      ensures edges == WithEdge(old(edges), e)
    {
      edges := WithEdge(edges, e);
    }

    /** `removeEdgesFromNode(node, types, filter)`: the edges of those types incident to `node` in the filter's direction go. */
    method RemoveEdgesFromNode(node: Urn, relationshipTypes: seq<string>, direction: RelationshipDirection)
      requires Valid()
      modifies this
      ensures Valid()
      ensures edges == WithoutEdgesFrom(old(edges), node, relationshipTypes, direction)
    {
      edges := WithoutEdgesFrom(edges, node, relationshipTypes, direction);
    }

    /** `removeNode(node)`: every edge touching `node` goes. */
    method RemoveNode(node: Urn)
      requires Valid()
      modifies this
      ensures Valid()
      ensures edges == WithoutNode(old(edges), node)
    {
      edges := WithoutNode(edges, node);
    }

    /** `clear()`: no edge is left, so every query, in every window, answers nothing. */
    method Clear()
      modifies this
      ensures Valid()
      ensures edges == []
      ensures forall q: Query, offset: nat, count: nat :: RelatedUrnsPage(edges, q, offset, count) == []
    {
      edges := [];
    }

    /** `findRelatedUrns`: answered from the current edges alone. */
    function FindRelatedUrns(
      sourceType: string, sourceFilter: Filter,
      destinationType: string, destinationFilter: Filter,
      relationshipTypes: seq<string>, direction: RelationshipDirection,
      offset: nat, count: nat): seq<Urn>
      reads this
    {
      RelatedUrnsPage(edges, Query(sourceType, sourceFilter, destinationType, destinationFilter, relationshipTypes, direction), offset, count)
    }

    /**
     * Fetches the first `count` results in one call, then fetches them again
     * one at a time at offsets 0, 1, ... and appends those pages: both lists
     * are the same, in the same order.
     */
    method PageOneByOne(q: Query, count: nat) returns (allRelated: seq<Urn>, individualRelated: seq<Urn>)
      ensures allRelated == RelatedUrnsPage(edges, q, 0, count)
      ensures individualRelated == PagesOfOne(edges, q, |allRelated|)
      ensures |individualRelated| == |allRelated|
      ensures forall i :: 0 <= i < |allRelated| ==> RelatedUrnsPage(edges, q, i, 1) == [individualRelated[i]]
      ensures individualRelated == allRelated
    {
      allRelated := FindRelatedUrns(q.sourceType, q.sourceFilter, q.destinationType, q.destinationFilter,
                                    q.relationshipTypes, q.direction, 0, count);
      individualRelated := [];
      var idx := 0;
      while idx < |allRelated|
        invariant 0 <= idx <= |allRelated|
        invariant individualRelated == PagesOfOne(edges, q, idx)
        invariant individualRelated == allRelated[..idx]
      {
        var page := FindRelatedUrns(q.sourceType, q.sourceFilter, q.destinationType, q.destinationFilter,
                                    q.relationshipTypes, q.direction, idx, 1);
        PageOfOne(edges, q, count, idx);
        individualRelated := individualRelated + page;
        idx := idx + 1;
      }
      assert allRelated[..idx] == allRelated;
      forall i | 0 <= i < |allRelated| ensures RelatedUrnsPage(edges, q, i, 1) == [individualRelated[i]] {
        PageOfOne(edges, q, count, i);
      }
    }
  }
}
