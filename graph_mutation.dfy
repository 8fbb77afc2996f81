/**
 * The mutation surface of the graph service as functions of the edge list:
 * `addEdge`, `removeEdgesFromNode` and `removeNode`, and how each changes
 * what queries answer.
 */
module GraphMutation {
  import opened Sequences
  import opened GraphModel
  import opened GraphQuery

  /**
   * `addEdge`: the stored triples grow by `e` and by nothing else; adding a
   * triple already stored changes nothing, so no triple is stored twice, and
   * the edges already stored keep their order.
   */
  function WithEdge(edges: seq<Edge>, e: Edge): (r: seq<Edge>)
    ensures Elements(r) == Elements(edges) + {e}
    ensures Distinct(edges) ==> Distinct(r)
    ensures |edges| <= |r| && r[..|edges|] == edges
  {
    if e in edges then edges else edges + [e]
  }

  /** `removeEdgesFromNode` drops `e`: its type is listed and `node` plays the role `dir` selects. */
  predicate Removes(e: Edge, node: Urn, types: seq<string>, dir: RelationshipDirection)
  {
    e.relationshipType in types && Incident(e, node, dir)
  }

  /**
   * `removeEdgesFromNode(node, types, dir)`: exactly the edges it drops are
   * gone; every other edge, of another type or not incident in that role,
   * stays, in the same order.
   */
  function WithoutEdgesFrom(edges: seq<Edge>, node: Urn, types: seq<string>, dir: RelationshipDirection): (r: seq<Edge>)
    ensures forall e :: e in r <==> e in edges && !Removes(e, node, types, dir)
    ensures Distinct(edges) ==> Distinct(r)
  {
    if edges == [] then []
    else
      var init, last := edges[..|edges| - 1], edges[|edges| - 1];
      assert edges == init + [last];
      var r0 := WithoutEdgesFrom(init, node, types, dir);
      if Removes(last, node, types, dir) then r0 else r0 + [last]
  }

  /**
   * `removeNode(node)`: every edge with `node` as source or destination is
   * gone, whatever its type; every other edge stays, in the same order.
   */
  function WithoutNode(edges: seq<Edge>, node: Urn): (r: seq<Edge>)
    ensures forall e :: e in r <==> e in edges && e.source != node && e.destination != node
    ensures Distinct(edges) ==> Distinct(r)
  {
    if edges == [] then []
    else
      var init, last := edges[..|edges| - 1], edges[|edges| - 1];
      assert edges == init + [last];
      var r0 := WithoutNode(init, node);
      if last.source == node || last.destination == node then r0 else r0 + [last]
  }

  /** A query that nothing satisfies has an empty result list. */
  lemma NothingRelated(edges: seq<Edge>, q: Query)
    requires forall x :: !Related(edges, q, x)
    ensures AllRelatedUrns(edges, q) == []
  {
    AllRelatedUrnsIff(edges, q);
    var all := AllRelatedUrns(edges, q);
    assert forall x :: x !in all;
  }

  /** After `addEdge(e)` the related entities are the old ones plus those `e` contributes. */
  lemma WithEdgeRelated(edges: seq<Edge>, e: Edge, q: Query, x: Urn)
    ensures Related(WithEdge(edges, e), q, x) <==> Related(edges, q, x) || x in Hits(e, q)
  {
    var after := WithEdge(edges, e);
    assert e in after;
    assert forall f :: f in after <==> f in edges || f == e;
    HitsIff(e, q, x);
    if Related(after, q, x) && !Related(edges, q, x) {
      var f, anchor :| f in after && f.relationshipType in q.relationshipTypes
        && Traverses(f, q.direction, anchor, x) && AnchorMatches(q, anchor) && ResultMatches(q, x);
      assert f == e;
    }
  }

  /**
   * Removing edges of the listed types leaves every query over other
   * relationship types exactly as it was, result order included.
   */
  lemma {:induction false} RemovalKeepsOtherTypes(edges: seq<Edge>, node: Urn, types: seq<string>, dir: RelationshipDirection, q: Query)
    requires forall t :: t in q.relationshipTypes ==> t !in types
    ensures Candidates(WithoutEdgesFrom(edges, node, types, dir), q) == Candidates(edges, q)
    ensures forall offset: nat, count: nat ::
      RelatedUrnsPage(WithoutEdgesFrom(edges, node, types, dir), q, offset, count) == RelatedUrnsPage(edges, q, offset, count)
  {
    if edges != [] {
      var init, last := edges[..|edges| - 1], edges[|edges| - 1];
      RemovalKeepsOtherTypes(init, node, types, dir, q);
      var r0 := WithoutEdgesFrom(init, node, types, dir);
      if !Removes(last, node, types, dir) {
        assert (r0 + [last])[..|r0|] == r0;
      }
    }
  }

  /**
   * After `removeEdgesFromNode(node, types, dir)`, asking for the neighbours
   * of `node` over those types in that direction finds nothing.
   */
  lemma RemovalEmptiesNeighbourhood(edges: seq<Edge>, node: Urn, types: seq<string>, dir: RelationshipDirection)
    ensures AllRelatedUrns(WithoutEdgesFrom(edges, node, types, dir), NeighbourQuery(node, types, dir)) == []
  {
    var after, q := WithoutEdgesFrom(edges, node, types, dir), NeighbourQuery(node, types, dir);
    forall x, e, anchor | e in after && e.relationshipType in q.relationshipTypes && Traverses(e, q.direction, anchor, x)
      ensures !AnchorMatches(q, anchor)
    {
      assert !Removes(e, node, types, dir);
    }
    NothingRelated(after, q);
  }

  /**
   * `removeNode` removes at least what `removeEdgesFromNode` with UNDIRECTED
   * removes, and exactly that when the listed types cover every stored edge.
   */
  lemma {:induction false} WithoutNodeSubsumes(edges: seq<Edge>, node: Urn, types: seq<string>)
    ensures Elements(WithoutNode(edges, node)) <= Elements(WithoutEdgesFrom(edges, node, types, Undirected))
    ensures (forall e :: e in edges ==> e.relationshipType in types) ==>
      WithoutNode(edges, node) == WithoutEdgesFrom(edges, node, types, Undirected)
  {
    if edges != [] {
      var init := edges[..|edges| - 1];
      assert edges == init + [edges[|edges| - 1]];
      WithoutNodeSubsumes(init, node, types);
    }
  }

  /**
   * After `removeNode(node)`, no query returns `node`, and asking for the
   * neighbours of `node`, over any types in any direction, finds nothing.
   */
  lemma WithoutNodeIsolates(edges: seq<Edge>, node: Urn, q: Query, types: seq<string>, dir: RelationshipDirection)
    ensures node !in AllRelatedUrns(WithoutNode(edges, node), q)
    ensures AllRelatedUrns(WithoutNode(edges, node), NeighbourQuery(node, types, dir)) == []
  {
    var after, nq := WithoutNode(edges, node), NeighbourQuery(node, types, dir);
    AllRelatedUrnsIff(after, q);
    forall e, anchor | e in after ensures !Traverses(e, q.direction, anchor, node) {
      assert e.source != node && e.destination != node;
    }
    forall x, e, anchor | e in after && Traverses(e, nq.direction, anchor, x)
      ensures !AnchorMatches(nq, anchor)
    {
      assert e.source != node && e.destination != node;
    }
    NothingRelated(after, nq);
  }
}
