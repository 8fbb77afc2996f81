/**
 * The values the graph layer speaks in: entity URNs, typed directed edges,
 * the entity filters used by every query of the contract, and the direction
 * selector of a relationship filter.
 */
module GraphModel {

  /**
   * An entity URN `urn:li:<entityType>:<id>`. The entity type is the segment
   * after `urn:li:`; `id` is the remainder, kept whole. Two URNs are equal when
   * both parts are, which is when their string forms are.
   */
  datatype Urn = Urn(entityType: string, id: string)

  /** A directed, typed relationship from `source` to `destination`. */
  datatype Edge = Edge(source: Urn, destination: Urn, relationshipType: string)

  /**
   * An entity filter: no criterion at all, or the single criterion that the
   * entity's `urn` equals a given URN.
   */
  datatype Filter = EmptyFilter | UrnFilter(urn: Urn)

  datatype RelationshipDirection = Outgoing | Incoming | Undirected

  /** The entity type that stands for "any type". */
  const AnyType: string := ""

  predicate TypeMatches(entityType: string, u: Urn)
  {
    entityType == AnyType || u.entityType == entityType
  }

  predicate FilterMatches(f: Filter, u: Urn)
  {
    match f
    case EmptyFilter => true
    case UrnFilter(v) => v == u
  }

  predicate EntityMatches(entityType: string, f: Filter, u: Urn)
  {
    TypeMatches(entityType, u) && FilterMatches(f, u)
  }

  /**
   * The arguments of a related-entities query other than its window:
   * the type and filter of the entity the query starts from, those of the
   * entity it returns, the relationship types that count, and the direction.
   */
  datatype Query = Query(
    sourceType: string,
    sourceFilter: Filter,
    destinationType: string,
    destinationFilter: Filter,
    relationshipTypes: seq<string>,
    direction: RelationshipDirection)

  /** The entity playing the query-source role satisfies the source type and filter. */
  predicate AnchorMatches(q: Query, u: Urn)
  {
    EntityMatches(q.sourceType, q.sourceFilter, u)
  }

  /** The entity to be returned satisfies the destination type and filter. */
  predicate ResultMatches(q: Query, u: Urn)
  {
    EntityMatches(q.destinationType, q.destinationFilter, u)
  }

  /**
   * The results one edge contributes. Read OUTGOING, the edge source plays the
   * query-source role and the destination is returned; read INCOMING, the
   * destination plays that role and the source is returned; UNDIRECTED reads
   * the edge both ways.
   */
  function Hits(e: Edge, q: Query): seq<Urn>
  {
    if e.relationshipType !in q.relationshipTypes then []
    else
      (if q.direction != Incoming && AnchorMatches(q, e.source) && ResultMatches(q, e.destination)
       then [e.destination] else [])
      + (if q.direction != Outgoing && AnchorMatches(q, e.destination) && ResultMatches(q, e.source)
         then [e.source] else [])
  }

  /**
   * `node` takes part in `e` in the role `dir` selects: as its source for
   * OUTGOING, as its destination for INCOMING, either for UNDIRECTED.
   */
  predicate Incident(e: Edge, node: Urn, dir: RelationshipDirection)
  {
    (dir != Incoming && e.source == node) || (dir != Outgoing && e.destination == node)
  }

  /** The query "neighbours of `node` over `types` in direction `dir`", with no type or other-side filter. */
  function NeighbourQuery(node: Urn, types: seq<string>, dir: RelationshipDirection): Query
  {
    Query(AnyType, UrnFilter(node), AnyType, EmptyFilter, types, dir)
  }
}
