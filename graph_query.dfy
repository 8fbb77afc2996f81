/**
 * The query surface of the graph service: `findRelatedUrns` as a function of
 * the stored edge list, and what it is proved to mean.
 */
module GraphQuery {
  import opened Sequences
  import opened GraphModel

  /**
   * Under direction `dir`, the edge can be walked from `anchor` to `other`:
   * source to destination unless only INCOMING is asked for, destination to
   * source unless only OUTGOING is.
   */
  predicate Traverses(e: Edge, dir: RelationshipDirection, anchor: Urn, other: Urn)
  {
    || (dir != Incoming && anchor == e.source && other == e.destination)
    || (dir != Outgoing && anchor == e.destination && other == e.source)
  }

  /**
   * Reference meaning of a query: `x` is related when some stored edge of a
   * requested relationship type can be walked, in the requested direction,
   * from an entity matching the source type and filter to `x`, and `x`
   * matches the destination type and filter.
   */
  ghost predicate Related(edges: seq<Edge>, q: Query, x: Urn)
  {
    exists e, anchor ::
      && e in edges
      && e.relationshipType in q.relationshipTypes
      && Traverses(e, q.direction, anchor, x)
      && AnchorMatches(q, anchor)
      && ResultMatches(q, x)
  }

  /** Every endpoint the stored edges contribute, edge by edge in store order, with repeats. */
  function Candidates(edges: seq<Edge>, q: Query): seq<Urn>
  {
    if edges == [] then []
    else Candidates(edges[..|edges| - 1], q) + Hits(edges[|edges| - 1], q)
  }

  /** The full, stable result list of a query: the candidates without repeats. */
  function AllRelatedUrns(edges: seq<Edge>, q: Query): seq<Urn>
  {
    Dedup(Candidates(edges, q))
  }

  /**
   * `findRelatedUrns(...)` with window `offset`, `count`: the slice
   * `[offset, offset + count)` of the stable result list. A page holds only
   * related entities, none twice and at most `count` of them; a first page
   * that is not full holds every related entity.
   */
  function RelatedUrnsPage(edges: seq<Edge>, q: Query, offset: nat, count: nat): (r: seq<Urn>)
    ensures Distinct(r) && |r| <= count
    ensures forall i :: 0 <= i < |r| ==> Related(edges, q, r[i])
    ensures offset == 0 && |r| < count ==> forall x :: Related(edges, q, x) ==> x in r
  {
    var all := AllRelatedUrns(edges, q);
    AllRelatedUrnsIff(edges, q);
    assert offset == 0 && |all| < count ==> all[..|all|] == all;
    Slice(all, offset, count)
  }

  /**
   * Pagination is consistent: the window `[offset, offset + c1 + c2)` is the
   * window `[offset, offset + c1)` followed by `[offset + c1, offset + c1 + c2)`.
   */
  lemma PageSplit(edges: seq<Edge>, q: Query, offset: nat, c1: nat, c2: nat)
    ensures RelatedUrnsPage(edges, q, offset, c1 + c2)
         == RelatedUrnsPage(edges, q, offset, c1) + RelatedUrnsPage(edges, q, offset + c1, c2)
  {
    SliceSplit(AllRelatedUrns(edges, q), offset, c1, c2);
  }

  /** The page of one result at offset `i` is the `i`-th result of any first page reaching that far. */
  lemma PageOfOne(edges: seq<Edge>, q: Query, count: nat, i: nat)
    requires i < |RelatedUrnsPage(edges, q, 0, count)|
    ensures RelatedUrnsPage(edges, q, i, 1) == [RelatedUrnsPage(edges, q, 0, count)[i]]
  {
  }

  /** The pages of one result at offsets `0, 1, ..., n - 1`, appended in that order. */
  function PagesOfOne(edges: seq<Edge>, q: Query, n: nat): seq<Urn>
  {
    if n == 0 then [] else PagesOfOne(edges, q, n - 1) + RelatedUrnsPage(edges, q, n - 1, 1)
  }

  /** Fetching results one at a time at offsets `0 .. n - 1` gives the first page of `n`. */
  lemma {:induction false} PagesOfOneIsPage(edges: seq<Edge>, q: Query, n: nat)
    ensures PagesOfOne(edges, q, n) == RelatedUrnsPage(edges, q, 0, n)
  {
    if n > 0 {
      PagesOfOneIsPage(edges, q, n - 1);
      PageSplit(edges, q, 0, n - 1, 1);
    }
  }

  lemma HitsIff(e: Edge, q: Query, x: Urn)
    ensures x in Hits(e, q) <==>
      exists anchor ::
        && e.relationshipType in q.relationshipTypes
        && Traverses(e, q.direction, anchor, x)
        && AnchorMatches(q, anchor)
        && ResultMatches(q, x)
  {
    if x in Hits(e, q) {
      if q.direction != Incoming && AnchorMatches(q, e.source) && ResultMatches(q, e.destination) && x == e.destination {
        assert Traverses(e, q.direction, e.source, x);
      } else {
        assert Traverses(e, q.direction, e.destination, x);
      }
    }
  }

  /** An endpoint is a candidate exactly when it is related. */
  lemma {:induction false} CandidatesIff(edges: seq<Edge>, q: Query, x: Urn)
    ensures x in Candidates(edges, q) <==> Related(edges, q, x)
  {
    if edges != [] {
      var init, last := edges[..|edges| - 1], edges[|edges| - 1];
      assert edges == init + [last];
      CandidatesIff(init, q, x);
      HitsIff(last, q, x);
      if Related(edges, q, x) && !Related(init, q, x) {
        var e, anchor :| e in edges && e.relationshipType in q.relationshipTypes
          && Traverses(e, q.direction, anchor, x) && AnchorMatches(q, anchor) && ResultMatches(q, x);
        assert e == last;
      }
    }
  }

  /** The full result list holds exactly the related entities. */
  lemma AllRelatedUrnsIff(edges: seq<Edge>, q: Query)
    ensures Distinct(AllRelatedUrns(edges, q))
    ensures forall x :: x in AllRelatedUrns(edges, q) <==> Related(edges, q, x)
  {
    forall x ensures x in AllRelatedUrns(edges, q) <==> Related(edges, q, x) {
      CandidatesIff(edges, q, x);
      var c := Candidates(edges, q);
      if x in c {
        var i :| 0 <= i < |c| && c[i] == x;
      }
    }
  }

  /** An UNDIRECTED query returns the union of the OUTGOING and INCOMING answers. */
  lemma UndirectedIsUnion(edges: seq<Edge>, q: Query)
    ensures Elements(AllRelatedUrns(edges, q.(direction := Undirected)))
         == Elements(AllRelatedUrns(edges, q.(direction := Outgoing)))
          + Elements(AllRelatedUrns(edges, q.(direction := Incoming)))
  {
    var qu, qo, qi := q.(direction := Undirected), q.(direction := Outgoing), q.(direction := Incoming);
    var au, ao, ai := AllRelatedUrns(edges, qu), AllRelatedUrns(edges, qo), AllRelatedUrns(edges, qi);
    AllRelatedUrnsIff(edges, qu);
    AllRelatedUrnsIff(edges, qo);
    AllRelatedUrnsIff(edges, qi);
    forall x ensures x in au <==> x in ao || x in ai {
      RelatedUndirected(edges, q, x);
    }
  }

  lemma RelatedUndirected(edges: seq<Edge>, q: Query, x: Urn)
    ensures Related(edges, q.(direction := Undirected), x)
        <==> Related(edges, q.(direction := Outgoing), x) || Related(edges, q.(direction := Incoming), x)
  {
    var qu, qo, qi := q.(direction := Undirected), q.(direction := Outgoing), q.(direction := Incoming);
    if Related(edges, qu, x) {
      var e, anchor :| e in edges && e.relationshipType in qu.relationshipTypes
        && Traverses(e, Undirected, anchor, x) && AnchorMatches(qu, anchor) && ResultMatches(qu, x);
      if anchor == e.source && x == e.destination {
        assert Traverses(e, Outgoing, anchor, x);
      } else {
        assert Traverses(e, Incoming, anchor, x);
      }
    }
    if Related(edges, qo, x) {
      var e, anchor :| e in edges && e.relationshipType in qo.relationshipTypes
        && Traverses(e, Outgoing, anchor, x) && AnchorMatches(qo, anchor) && ResultMatches(qo, x);
      assert Traverses(e, Undirected, anchor, x);
    }
    if Related(edges, qi, x) {
      var e, anchor :| e in edges && e.relationshipType in qi.relationshipTypes
        && Traverses(e, Incoming, anchor, x) && AnchorMatches(qi, anchor) && ResultMatches(qi, x);
      assert Traverses(e, Undirected, anchor, x);
    }
  }

  /**
   * The empty type matches every entity: replacing either type of a query by
   * it can only add results. A non-empty destination type is met by every result.
   */
  lemma AnyTypeWidens(edges: seq<Edge>, q: Query)
    ensures Elements(AllRelatedUrns(edges, q)) <= Elements(AllRelatedUrns(edges, q.(sourceType := AnyType)))
    ensures Elements(AllRelatedUrns(edges, q)) <= Elements(AllRelatedUrns(edges, q.(destinationType := AnyType)))
    ensures forall x :: x in AllRelatedUrns(edges, q) && q.destinationType != AnyType ==> x.entityType == q.destinationType
  {
    var qs, qd := q.(sourceType := AnyType), q.(destinationType := AnyType);
    AllRelatedUrnsIff(edges, q);
    AllRelatedUrnsIff(edges, qs);
    AllRelatedUrnsIff(edges, qd);
    forall x | Related(edges, q, x) ensures Related(edges, qs, x) && Related(edges, qd, x) {
      var e, anchor :| e in edges && e.relationshipType in q.relationshipTypes
        && Traverses(e, q.direction, anchor, x) && AnchorMatches(q, anchor) && ResultMatches(q, x);
      assert AnchorMatches(qs, anchor) && ResultMatches(qs, x);
      assert AnchorMatches(qd, anchor) && ResultMatches(qd, x);
    }
  }

  /**
   * Direction symmetry: a stored edge `a -> b` of a requested type makes `b`
   * an OUTGOING neighbour of `a`, `a` an INCOMING neighbour of `b`, and each an
   * UNDIRECTED neighbour of the other.
   */
  lemma DirectionSymmetry(edges: seq<Edge>, e: Edge, types: seq<string>)
    requires e in edges && e.relationshipType in types
    ensures e.destination in AllRelatedUrns(edges, NeighbourQuery(e.source, types, Outgoing))
    ensures e.source in AllRelatedUrns(edges, NeighbourQuery(e.destination, types, Incoming))
    ensures e.destination in AllRelatedUrns(edges, NeighbourQuery(e.source, types, Undirected))
    ensures e.source in AllRelatedUrns(edges, NeighbourQuery(e.destination, types, Undirected))
  {
    var qo, qi := NeighbourQuery(e.source, types, Outgoing), NeighbourQuery(e.destination, types, Incoming);
    var uo, ui := NeighbourQuery(e.source, types, Undirected), NeighbourQuery(e.destination, types, Undirected);
    AllRelatedUrnsIff(edges, qo);
    AllRelatedUrnsIff(edges, qi);
    AllRelatedUrnsIff(edges, uo);
    AllRelatedUrnsIff(edges, ui);
    assert Traverses(e, Outgoing, e.source, e.destination);
    assert Traverses(e, Incoming, e.destination, e.source);
    assert Traverses(e, Undirected, e.source, e.destination);
    assert Traverses(e, Undirected, e.destination, e.source);
  }
}
