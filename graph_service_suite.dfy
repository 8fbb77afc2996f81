/**
 * The shared graph-service test suite, stated over the model: the seven-edge
 * fixture, every data-provider row of the related-entities tests, and the
 * removal, clear and pagination tests run against a `GraphService` object.
 *
 * The row lemmas are proved for any four different dataset URNs and any two
 * different user URNs arranged as the fixture arranges them; the suite's own
 * URNs are one such choice (`SuiteEntitiesWellFormed`).
 */
module GraphServiceSuite {
  import opened Sequences
  import opened GraphModel
  import opened GraphQuery
  import opened GraphMutation
  import opened GraphServices

  const DatasetType: string := "dataset"
  const UserType: string := "user"

  const DatasetOne: Urn := Urn(DatasetType, "(urn:li:dataPlatform:type,SampleDatasetOne,PROD)")
  const DatasetTwo: Urn := Urn(DatasetType, "(urn:li:dataPlatform:type,SampleDatasetTwo,PROD)")
  const DatasetThree: Urn := Urn(DatasetType, "(urn:li:dataPlatform:type,SampleDatasetThree,PROD)")
  const DatasetFour: Urn := Urn(DatasetType, "(urn:li:dataPlatform:type,SampleDatasetFour,PROD)")
  const UserOne: Urn := Urn(UserType, "(urn:li:user:system,Ingress,PROD)")
  const UserTwo: Urn := Urn(UserType, "(urn:li:user:individual,UserA,DEV)")

  const DownstreamOf: string := "DownstreamOf"
  const HasOwner: string := "hasOwner"

  /** The window every data-provider test asks for. */
  const Window: nat := 10

  /**
   * The names the fixture is built from: four datasets, their two owners,
   * the two entity types and the two relationship types.
   */
  datatype Entities = Entities(
    d1: Urn, d2: Urn, d3: Urn, d4: Urn, u1: Urn, u2: Urn,
    datasetType: string, userType: string, downstreamOf: string, hasOwner: string)

  /** Four different datasets, two different users, two different non-empty types of each kind. */
  predicate WellFormed(n: Entities)
  {
    && n.datasetType != AnyType && n.userType != AnyType && n.datasetType != n.userType
    && n.downstreamOf != n.hasOwner
    && n.d1.entityType == n.datasetType && n.d2.entityType == n.datasetType
    && n.d3.entityType == n.datasetType && n.d4.entityType == n.datasetType
    && n.u1.entityType == n.userType && n.u2.entityType == n.userType
    && n.d1 != n.d2 && n.d1 != n.d3 && n.d1 != n.d4 && n.d2 != n.d3 && n.d2 != n.d4 && n.d3 != n.d4
    && n.u1 != n.u2
  }

  function EntitySet(n: Entities): set<Urn>
  {
    {n.d1, n.d2, n.d3, n.d4, n.u1, n.u2}
  }

  const SuiteEntities: Entities := 
    Entities(DatasetOne, DatasetTwo, DatasetThree, DatasetFour, UserOne, UserTwo,
      DatasetType, UserType, DownstreamOf, HasOwner)

  lemma SuiteEntitiesWellFormed()
    ensures WellFormed(SuiteEntities)
  {
    assert DatasetOne.id[39] != DatasetTwo.id[39];
    assert DatasetTwo.id[40] != DatasetThree.id[40];
    assert DatasetType[0] != UserType[0];
    assert DownstreamOf[0] != HasOwner[0];
  }

  /** The edges every test adds to an empty service, in this order. */
  function Fixture(n: Entities): seq<Edge>
  {
    [ Edge(n.d2, n.d1, n.downstreamOf),
      Edge(n.d3, n.d2, n.downstreamOf),
      Edge(n.d4, n.d2, n.downstreamOf),
      Edge(n.d1, n.u1, n.hasOwner),
      Edge(n.d2, n.u1, n.hasOwner),
      Edge(n.d3, n.u2, n.hasOwner),
      Edge(n.d4, n.u2, n.hasOwner) ]
  }

  lemma FixtureDistinct(n: Entities)
    requires WellFormed(n)
    ensures Distinct(Fixture(n))
  {
  }

  function SourceFilterQuery(node: Urn, types: seq<string>, dir: RelationshipDirection): Query
  {
    NeighbourQuery(node, types, dir)
  }

  function DestinationFilterQuery(node: Urn, types: seq<string>, dir: RelationshipDirection): Query
  {
    Query(AnyType, EmptyFilter, AnyType, UrnFilter(node), types, dir)
  }

  function SourceTypeQuery(entityType: string, types: seq<string>, dir: RelationshipDirection): Query
  {
    Query(entityType, EmptyFilter, AnyType, EmptyFilter, types, dir)
  }

  function DestinationTypeQuery(entityType: string, types: seq<string>, dir: RelationshipDirection): Query
  {
    Query(AnyType, EmptyFilter, entityType, EmptyFilter, types, dir)
  }

  /** What a data-provider test compares: the first page of `Window` results, as a set. */
  function Found(edges: seq<Edge>, q: Query): set<Urn>
  {
    Elements(RelatedUrnsPage(edges, q, 0, Window))
  }

  /**
   * `x` is an endpoint `e` contributes to `q`: the membership `x in Hits(e, q)`
   * spelled out without sequences, so that the seven fixture edges can be
   * worked out as sets. `ContributesRelated` ties it to `Related`.
   */
  predicate Contributes(e: Edge, q: Query, x: Urn)
  {
    && e.relationshipType in q.relationshipTypes
    && ResultMatches(q, x)
    && (|| (q.direction != Incoming && x == e.destination && AnchorMatches(q, e.source))
        || (q.direction != Outgoing && x == e.source && AnchorMatches(q, e.destination)))
  }

  /** The endpoints `e` contributes to `q`, as a set. */
  function Contributed(e: Edge, q: Query): (r: set<Urn>)
    ensures forall x :: x in r <==> Contributes(e, q, x)
  {
    if e.relationshipType !in q.relationshipTypes then {}
    else
      (if q.direction != Incoming && AnchorMatches(q, e.source) && ResultMatches(q, e.destination)
       then {e.destination} else {})
      + (if q.direction != Outgoing && AnchorMatches(q, e.destination) && ResultMatches(q, e.source)
         then {e.source} else {})
  }

  /** The endpoints the fixture edges contribute to `q`. */
  function FixtureContributed(n: Entities, q: Query): set<Urn>
  {
    var f := Fixture(n);
    Contributed(f[0], q) + Contributed(f[1], q) + Contributed(f[2], q) + Contributed(f[3], q)
    + Contributed(f[4], q) + Contributed(f[5], q) + Contributed(f[6], q)
  }

  /** The endpoints contributed by those fixture edges that `kept` still holds. */
  function KeptContributed(n: Entities, kept: seq<Edge>, q: Query): set<Urn>
  {
    var f := Fixture(n);
    (if f[0] in kept then Contributed(f[0], q) else {})
    + (if f[1] in kept then Contributed(f[1], q) else {})
    + (if f[2] in kept then Contributed(f[2], q) else {})
    + (if f[3] in kept then Contributed(f[3], q) else {})
    + (if f[4] in kept then Contributed(f[4], q) else {})
    + (if f[5] in kept then Contributed(f[5], q) else {})
    + (if f[6] in kept then Contributed(f[6], q) else {})
  }

  lemma ContributesRelated(edges: seq<Edge>, e: Edge, q: Query, x: Urn)
    requires e in edges && Contributes(e, q, x)
    ensures Related(edges, q, x)
  {
    if q.direction != Incoming && x == e.destination && AnchorMatches(q, e.source) {
      assert Traverses(e, q.direction, e.source, x);
    } else {
      assert Traverses(e, q.direction, e.destination, x);
    }
  }

  /** Among edges of the fixture, `x` is related exactly when a kept edge contributes it. */
  lemma KeptRelated(n: Entities, kept: seq<Edge>, q: Query, x: Urn)
    requires forall e :: e in kept ==> e in Fixture(n)
    ensures Related(kept, q, x) <==> x in KeptContributed(n, kept, q)
  {
    var f := Fixture(n);
    forall i | 0 <= i < 7 && f[i] in kept && Contributes(f[i], q, x) ensures Related(kept, q, x) {
      ContributesRelated(kept, f[i], q, x);
    }
  }

  /** Every entity a fixture edge can lead to is one of the six. */
  lemma RelatedWithinFixture(n: Entities, kept: seq<Edge>, q: Query, x: Urn)
    requires forall e :: e in kept ==> e in Fixture(n)
    requires Related(kept, q, x)
    ensures x in EntitySet(n)
  {
    var e, anchor :| e in kept && Traverses(e, q.direction, anchor, x);
    assert e in Fixture(n);
  }

  /**
   * A first page of more than six results on (what is left of) the fixture
   * holds every related entity: the fixture has only six.
   */
  lemma FirstPageOnFixture(n: Entities, kept: seq<Edge>, q: Query, count: nat)
    requires forall e :: e in kept ==> e in Fixture(n)
    requires 6 < count
    ensures forall x :: x in RelatedUrnsPage(kept, q, 0, count) <==> Related(kept, q, x)
  {
    var page := RelatedUrnsPage(kept, q, 0, count);
    forall x | x in Elements(page) ensures x in EntitySet(n) {
      var i :| 0 <= i < |page| && page[i] == x;
      RelatedWithinFixture(n, kept, q, x);
    }
    DistinctWithin(page, EntitySet(n));
  }

  /**
   * A data-provider test on (what is left of) the fixture sees exactly the
   * endpoints the remaining fixture edges contribute.
   */
  lemma FoundOnFixture(n: Entities, kept: seq<Edge>, q: Query)
    requires forall e :: e in kept ==> e in Fixture(n)
    ensures Found(kept, q) == KeptContributed(n, kept, q)
  {
    FirstPageOnFixture(n, kept, q, Window);
    forall x ensures x in Found(kept, q) <==> x in KeptContributed(n, kept, q) {
      KeptRelated(n, kept, q, x);
    }
  }

  /** A data-provider test on the fixture itself. */
  lemma FoundOnFullFixture(n: Entities, q: Query)
    ensures Found(Fixture(n), q) == FixtureContributed(n, q)
  {
    var f := Fixture(n);
    FoundOnFixture(n, f, q);
    assert f[0] in f && f[1] in f && f[2] in f && f[3] in f && f[4] in f && f[5] in f && f[6] in f;
  }

  /** A row holds once the fixture edges' contributions are worked out. */
  lemma FixtureRow(n: Entities, q: Query, expected: set<Urn>)
    requires FixtureContributed(n, q) == expected
    ensures Found(Fixture(n), q) == expected
  {
    FoundOnFullFixture(n, q);
  }

  // The four data-provider tables of the related-entities tests, row by row.

  lemma SourceEntityFilterRow1(n: Entities)
    requires WellFormed(n)
    ensures Found(Fixture(n), SourceFilterQuery(n.d2, [n.downstreamOf], Outgoing)) == {n.d1}
  {
    FixtureRow(n, SourceFilterQuery(n.d2, [n.downstreamOf], Outgoing), {n.d1});
  }

  lemma SourceEntityFilterRow2(n: Entities)
    requires WellFormed(n)
    ensures Found(Fixture(n), SourceFilterQuery(n.d2, [n.downstreamOf], Incoming)) == {n.d3, n.d4}
  {
    FixtureRow(n, SourceFilterQuery(n.d2, [n.downstreamOf], Incoming), {n.d3, n.d4});
  }

  lemma SourceEntityFilterRow3(n: Entities)
    requires WellFormed(n)
    ensures Found(Fixture(n), SourceFilterQuery(n.d2, [n.downstreamOf], Undirected)) == {n.d1, n.d3, n.d4}
  {
    FixtureRow(n, SourceFilterQuery(n.d2, [n.downstreamOf], Undirected), {n.d1, n.d3, n.d4});
  }

  lemma SourceEntityFilterRow4(n: Entities)
    requires WellFormed(n)
    ensures Found(Fixture(n), SourceFilterQuery(n.d2, [n.hasOwner], Outgoing)) == {n.u1}
  {
    FixtureRow(n, SourceFilterQuery(n.d2, [n.hasOwner], Outgoing), {n.u1});
  }

  lemma SourceEntityFilterRow5(n: Entities)
    requires WellFormed(n)
    ensures Found(Fixture(n), SourceFilterQuery(n.d2, [n.hasOwner], Incoming)) == {}
  {
    FixtureRow(n, SourceFilterQuery(n.d2, [n.hasOwner], Incoming), {});
  }

  lemma SourceEntityFilterRow6(n: Entities)
    requires WellFormed(n)
    ensures Found(Fixture(n), SourceFilterQuery(n.d2, [n.hasOwner], Undirected)) == {n.u1}
  {
    FixtureRow(n, SourceFilterQuery(n.d2, [n.hasOwner], Undirected), {n.u1});
  }

  lemma SourceEntityFilterRow7(n: Entities)
    requires WellFormed(n)
    ensures Found(Fixture(n), SourceFilterQuery(n.u1, [n.hasOwner], Outgoing)) == {}
  {
    FixtureRow(n, SourceFilterQuery(n.u1, [n.hasOwner], Outgoing), {});
  }

  lemma SourceEntityFilterRow8(n: Entities)
    requires WellFormed(n)
    ensures Found(Fixture(n), SourceFilterQuery(n.u1, [n.hasOwner], Incoming)) == {n.d1, n.d2}
  {
    FixtureRow(n, SourceFilterQuery(n.u1, [n.hasOwner], Incoming), {n.d1, n.d2});
  }

  lemma SourceEntityFilterRow9(n: Entities)
    requires WellFormed(n)
    ensures Found(Fixture(n), SourceFilterQuery(n.u1, [n.hasOwner], Undirected)) == {n.d1, n.d2}
  {
    FixtureRow(n, SourceFilterQuery(n.u1, [n.hasOwner], Undirected), {n.d1, n.d2});
  }

  lemma DestinationEntityFilterRow1(n: Entities)
    requires WellFormed(n)
    ensures Found(Fixture(n), DestinationFilterQuery(n.d2, [n.downstreamOf], Outgoing)) == {n.d2}
  {
    FixtureRow(n, DestinationFilterQuery(n.d2, [n.downstreamOf], Outgoing), {n.d2});
  }

  lemma DestinationEntityFilterRow2(n: Entities)
    requires WellFormed(n)
    ensures Found(Fixture(n), DestinationFilterQuery(n.d2, [n.downstreamOf], Incoming)) == {n.d2}
  {
    FixtureRow(n, DestinationFilterQuery(n.d2, [n.downstreamOf], Incoming), {n.d2});
  }

  lemma DestinationEntityFilterRow3(n: Entities)
    requires WellFormed(n)
    ensures Found(Fixture(n), DestinationFilterQuery(n.d2, [n.downstreamOf], Undirected)) == {n.d2}
  {
    FixtureRow(n, DestinationFilterQuery(n.d2, [n.downstreamOf], Undirected), {n.d2});
  }

  lemma DestinationEntityFilterRow4(n: Entities)
    requires WellFormed(n)
    ensures Found(Fixture(n), DestinationFilterQuery(n.u1, [n.downstreamOf], Outgoing)) == {}
  {
    FixtureRow(n, DestinationFilterQuery(n.u1, [n.downstreamOf], Outgoing), {});
  }

  lemma DestinationEntityFilterRow5(n: Entities)
    requires WellFormed(n)
    ensures Found(Fixture(n), DestinationFilterQuery(n.u1, [n.downstreamOf], Incoming)) == {}
  {
    FixtureRow(n, DestinationFilterQuery(n.u1, [n.downstreamOf], Incoming), {});
  }

  lemma DestinationEntityFilterRow6(n: Entities)
    requires WellFormed(n)
    ensures Found(Fixture(n), DestinationFilterQuery(n.u1, [n.downstreamOf], Undirected)) == {}
  {
    FixtureRow(n, DestinationFilterQuery(n.u1, [n.downstreamOf], Undirected), {});
  }

  lemma DestinationEntityFilterRow7(n: Entities)
    requires WellFormed(n)
    ensures Found(Fixture(n), DestinationFilterQuery(n.u1, [n.hasOwner], Outgoing)) == {n.u1}
  {
    FixtureRow(n, DestinationFilterQuery(n.u1, [n.hasOwner], Outgoing), {n.u1});
  }

  lemma DestinationEntityFilterRow8(n: Entities)
    requires WellFormed(n)
    ensures Found(Fixture(n), DestinationFilterQuery(n.u1, [n.hasOwner], Incoming)) == {}
  {
    FixtureRow(n, DestinationFilterQuery(n.u1, [n.hasOwner], Incoming), {});
  }

  lemma DestinationEntityFilterRow9(n: Entities)
    requires WellFormed(n)
    ensures Found(Fixture(n), DestinationFilterQuery(n.u1, [n.hasOwner], Undirected)) == {n.u1}
  {
    FixtureRow(n, DestinationFilterQuery(n.u1, [n.hasOwner], Undirected), {n.u1});
  }

  lemma SourceTypeRow1(n: Entities)
    requires WellFormed(n)
    ensures Found(Fixture(n), SourceTypeQuery(n.datasetType, [n.downstreamOf], Outgoing)) == {n.d1, n.d2}
  {
    FixtureRow(n, SourceTypeQuery(n.datasetType, [n.downstreamOf], Outgoing), {n.d1, n.d2});
  }

  lemma SourceTypeRow2(n: Entities)
    requires WellFormed(n)
    ensures Found(Fixture(n), SourceTypeQuery(n.datasetType, [n.downstreamOf], Incoming)) == {n.d2, n.d3, n.d4}
  {
    FixtureRow(n, SourceTypeQuery(n.datasetType, [n.downstreamOf], Incoming), {n.d2, n.d3, n.d4});
  }

  lemma SourceTypeRow3(n: Entities)
    requires WellFormed(n)
    ensures Found(Fixture(n), SourceTypeQuery(n.datasetType, [n.downstreamOf], Undirected)) == {n.d1, n.d2, n.d3, n.d4}
  {
    FixtureRow(n, SourceTypeQuery(n.datasetType, [n.downstreamOf], Undirected), {n.d1, n.d2, n.d3, n.d4});
  }

  lemma SourceTypeRow4(n: Entities)
    requires WellFormed(n)
    ensures Found(Fixture(n), SourceTypeQuery(n.userType, [n.downstreamOf], Outgoing)) == {}
  {
    FixtureRow(n, SourceTypeQuery(n.userType, [n.downstreamOf], Outgoing), {});
  }

  lemma SourceTypeRow5(n: Entities)
    requires WellFormed(n)
    ensures Found(Fixture(n), SourceTypeQuery(n.userType, [n.downstreamOf], Incoming)) == {}
  {
    FixtureRow(n, SourceTypeQuery(n.userType, [n.downstreamOf], Incoming), {});
  }

  lemma SourceTypeRow6(n: Entities)
    requires WellFormed(n)
    ensures Found(Fixture(n), SourceTypeQuery(n.userType, [n.downstreamOf], Undirected)) == {}
  {
    FixtureRow(n, SourceTypeQuery(n.userType, [n.downstreamOf], Undirected), {});
  }

  lemma SourceTypeRow7(n: Entities)
    requires WellFormed(n)
    ensures Found(Fixture(n), SourceTypeQuery(n.userType, [n.hasOwner], Outgoing)) == {}
  {
    FixtureRow(n, SourceTypeQuery(n.userType, [n.hasOwner], Outgoing), {});
  }

  lemma SourceTypeRow8(n: Entities)
    requires WellFormed(n)
    ensures Found(Fixture(n), SourceTypeQuery(n.userType, [n.hasOwner], Incoming)) == {n.d1, n.d2, n.d3, n.d4}
  {
    FixtureRow(n, SourceTypeQuery(n.userType, [n.hasOwner], Incoming), {n.d1, n.d2, n.d3, n.d4});
  }

  lemma SourceTypeRow9(n: Entities)
    requires WellFormed(n)
    ensures Found(Fixture(n), SourceTypeQuery(n.userType, [n.hasOwner], Undirected)) == {n.d1, n.d2, n.d3, n.d4}
  {
    FixtureRow(n, SourceTypeQuery(n.userType, [n.hasOwner], Undirected), {n.d1, n.d2, n.d3, n.d4});
  }

  lemma DestinationTypeRow1(n: Entities)
    requires WellFormed(n)
    ensures Found(Fixture(n), DestinationTypeQuery(n.datasetType, [n.downstreamOf], Outgoing)) == {n.d1, n.d2}
  {
    FixtureRow(n, DestinationTypeQuery(n.datasetType, [n.downstreamOf], Outgoing), {n.d1, n.d2});
  }

  lemma DestinationTypeRow2(n: Entities)
    requires WellFormed(n)
    ensures Found(Fixture(n), DestinationTypeQuery(n.datasetType, [n.downstreamOf], Incoming)) == {n.d2, n.d3, n.d4}
  {
    FixtureRow(n, DestinationTypeQuery(n.datasetType, [n.downstreamOf], Incoming), {n.d2, n.d3, n.d4});
  }

  lemma DestinationTypeRow3(n: Entities)
    requires WellFormed(n)
    ensures Found(Fixture(n), DestinationTypeQuery(n.datasetType, [n.downstreamOf], Undirected)) == {n.d1, n.d2, n.d3, n.d4}
  {
    FixtureRow(n, DestinationTypeQuery(n.datasetType, [n.downstreamOf], Undirected), {n.d1, n.d2, n.d3, n.d4});
  }

  lemma DestinationTypeRow4(n: Entities)
    requires WellFormed(n)
    ensures Found(Fixture(n), DestinationTypeQuery(n.datasetType, [n.hasOwner], Outgoing)) == {}
  {
    FixtureRow(n, DestinationTypeQuery(n.datasetType, [n.hasOwner], Outgoing), {});
  }

  lemma DestinationTypeRow5(n: Entities)
    requires WellFormed(n)
    ensures Found(Fixture(n), DestinationTypeQuery(n.datasetType, [n.hasOwner], Incoming)) == {n.d1, n.d2, n.d3, n.d4}
  {
    FixtureRow(n, DestinationTypeQuery(n.datasetType, [n.hasOwner], Incoming), {n.d1, n.d2, n.d3, n.d4});
  }

  lemma DestinationTypeRow6(n: Entities)
    requires WellFormed(n)
    ensures Found(Fixture(n), DestinationTypeQuery(n.datasetType, [n.hasOwner], Undirected)) == {n.d1, n.d2, n.d3, n.d4}
  {
    FixtureRow(n, DestinationTypeQuery(n.datasetType, [n.hasOwner], Undirected), {n.d1, n.d2, n.d3, n.d4});
  }

  lemma DestinationTypeRow7(n: Entities)
    requires WellFormed(n)
    ensures Found(Fixture(n), DestinationTypeQuery(n.userType, [n.hasOwner], Outgoing)) == {n.u1, n.u2}
  {
    FixtureRow(n, DestinationTypeQuery(n.userType, [n.hasOwner], Outgoing), {n.u1, n.u2});
  }

  lemma DestinationTypeRow8(n: Entities)
    requires WellFormed(n)
    ensures Found(Fixture(n), DestinationTypeQuery(n.userType, [n.hasOwner], Incoming)) == {}
  {
    FixtureRow(n, DestinationTypeQuery(n.userType, [n.hasOwner], Incoming), {});
  }

  lemma DestinationTypeRow9(n: Entities)
    requires WellFormed(n)
    ensures Found(Fixture(n), DestinationTypeQuery(n.userType, [n.hasOwner], Undirected)) == {n.u1, n.u2}
  {
    FixtureRow(n, DestinationTypeQuery(n.userType, [n.hasOwner], Undirected), {n.u1, n.u2});
  }

  /** The endpoints contributed by the fixture edges `removeEdgesFromNode` leaves in place. */
  function RemovalContributed(n: Entities, node: Urn, types: seq<string>, dir: RelationshipDirection, q: Query): set<Urn>
  {
    var f := Fixture(n);
    (if !Removes(f[0], node, types, dir) then Contributed(f[0], q) else {})
    + (if !Removes(f[1], node, types, dir) then Contributed(f[1], q) else {})
    + (if !Removes(f[2], node, types, dir) then Contributed(f[2], q) else {})
    + (if !Removes(f[3], node, types, dir) then Contributed(f[3], q) else {})
    + (if !Removes(f[4], node, types, dir) then Contributed(f[4], q) else {})
    + (if !Removes(f[5], node, types, dir) then Contributed(f[5], q) else {})
    + (if !Removes(f[6], node, types, dir) then Contributed(f[6], q) else {})
  }

  /** The endpoints contributed by the fixture edges `removeNode` leaves in place. */
  function NodeRemovalContributed(n: Entities, node: Urn, q: Query): set<Urn>
  {
    var f := Fixture(n);
    (if f[0].source != node && f[0].destination != node then Contributed(f[0], q) else {})
    + (if f[1].source != node && f[1].destination != node then Contributed(f[1], q) else {})
    + (if f[2].source != node && f[2].destination != node then Contributed(f[2], q) else {})
    + (if f[3].source != node && f[3].destination != node then Contributed(f[3], q) else {})
    + (if f[4].source != node && f[4].destination != node then Contributed(f[4], q) else {})
    + (if f[5].source != node && f[5].destination != node then Contributed(f[5], q) else {})
    + (if f[6].source != node && f[6].destination != node then Contributed(f[6], q) else {})
  }

  /** A row on the fixture after `removeEdgesFromNode`. */
  lemma RemovalRow(n: Entities, node: Urn, types: seq<string>, dir: RelationshipDirection, q: Query, expected: set<Urn>)
    requires RemovalContributed(n, node, types, dir, q) == expected
    ensures Found(WithoutEdgesFrom(Fixture(n), node, types, dir), q) == expected
  {
    var f := Fixture(n);
    var kept := WithoutEdgesFrom(f, node, types, dir);
    FoundOnFixture(n, kept, q);
    assert f[0] in f && f[1] in f && f[2] in f && f[3] in f && f[4] in f && f[5] in f && f[6] in f;
  }

  /** A row on the fixture after `removeNode`. */
  lemma NodeRemovalRow(n: Entities, node: Urn, q: Query, expected: set<Urn>)
    requires NodeRemovalContributed(n, node, q) == expected
    ensures Found(WithoutNode(Fixture(n), node), q) == expected
  {
    var f := Fixture(n);
    var kept := WithoutNode(f, node);
    FoundOnFixture(n, kept, q);
    assert f[0] in f && f[1] in f && f[2] in f && f[3] in f && f[4] in f && f[5] in f && f[6] in f;
  }

  // The rows of the removal test: the downstream neighbours of the second
  // dataset after its downstream edges in one direction are removed.

  lemma RemoveEdgesFromNodeRow1(n: Entities)
    requires WellFormed(n)
    ensures Found(WithoutEdgesFrom(Fixture(n), n.d2, [n.downstreamOf], Outgoing),
                  NeighbourQuery(n.d2, [n.downstreamOf], Undirected)) == {n.d3, n.d4}
  {
    RemovalRow(n, n.d2, [n.downstreamOf], Outgoing, NeighbourQuery(n.d2, [n.downstreamOf], Undirected), {n.d3, n.d4});
  }

  lemma RemoveEdgesFromNodeRow2(n: Entities)
    requires WellFormed(n)
    ensures Found(WithoutEdgesFrom(Fixture(n), n.d2, [n.downstreamOf], Incoming),
                  NeighbourQuery(n.d2, [n.downstreamOf], Undirected)) == {n.d1}
  {
    RemovalRow(n, n.d2, [n.downstreamOf], Incoming, NeighbourQuery(n.d2, [n.downstreamOf], Undirected), {n.d1});
  }

  lemma RemoveEdgesFromNodeRow3(n: Entities)
    requires WellFormed(n)
    ensures Found(WithoutEdgesFrom(Fixture(n), n.d2, [n.downstreamOf], Undirected),
                  NeighbourQuery(n.d2, [n.downstreamOf], Undirected)) == {}
  {
    RemovalRow(n, n.d2, [n.downstreamOf], Undirected, NeighbourQuery(n.d2, [n.downstreamOf], Undirected), {});
  }

  // The removeNode test: the second dataset and every edge touching it go.

  lemma RemoveNodeDownstream(n: Entities)
    requires WellFormed(n)
    ensures Found(WithoutNode(Fixture(n), n.d2), SourceTypeQuery(n.datasetType, [n.downstreamOf], Undirected)) == {}
  {
    NodeRemovalRow(n, n.d2, SourceTypeQuery(n.datasetType, [n.downstreamOf], Undirected), {});
  }

  lemma RemoveNodeOwners(n: Entities)
    requires WellFormed(n)
    ensures Found(WithoutNode(Fixture(n), n.d2), SourceTypeQuery(n.userType, [n.hasOwner], Undirected)) == {n.d1, n.d3, n.d4}
  {
    NodeRemovalRow(n, n.d2, SourceTypeQuery(n.userType, [n.hasOwner], Undirected), {n.d1, n.d3, n.d4});
  }

  // What the suite's own assertions at the three comparisons after a
  // removal or a clear say, set against the model.

  /** After removing the second dataset's downstream edges in any one direction, its downstream neighbours differ from before. */
  lemma RemovalComparisonAsWritten(n: Entities, dir: RelationshipDirection)
    requires WellFormed(n)
    ensures Found(WithoutEdgesFrom(Fixture(n), n.d2, [n.downstreamOf], dir), NeighbourQuery(n.d2, [n.downstreamOf], Undirected))
            != Found(Fixture(n), NeighbourQuery(n.d2, [n.downstreamOf], Undirected))
  {
    SourceEntityFilterRow3(n);
    match dir
    case Outgoing => RemoveEdgesFromNodeRow1(n); assert n.d1 !in {n.d3, n.d4};
    case Incoming => RemoveEdgesFromNodeRow2(n); assert n.d3 !in {n.d1};
    case Undirected => RemoveEdgesFromNodeRow3(n);
  }

  /** Once the second dataset is removed, no dataset has a downstream relationship left, so the first dataset is not found. */
  lemma RemoveNodeDownstreamAsWritten(n: Entities)
    requires WellFormed(n)
    ensures Found(WithoutNode(Fixture(n), n.d2), SourceTypeQuery(n.datasetType, [n.downstreamOf], Undirected)) != {n.d1}
  {
    RemoveNodeDownstream(n);
  }

  /** The entities owned by users are the four datasets, not the two users. */
  lemma ClearOwnersAsWritten(n: Entities)
    requires WellFormed(n)
    ensures Found(Fixture(n), SourceTypeQuery(n.userType, [n.hasOwner], Undirected)) != {n.u1, n.u2}
  {
    SourceTypeRow9(n);
    assert n.d1 !in {n.u1, n.u2};
  }

  // The tests themselves, run against a service object; the suite's own URNs
  // are one choice of `n`.

  function AllRelationshipTypes(n: Entities): seq<string>
  {
    [n.downstreamOf, n.hasOwner]
  }

  /** The types of `all` that are not in `types`, in order. */
  function Except(all: seq<string>, types: seq<string>): (r: seq<string>)
    ensures forall t :: t in r <==> t in all && t !in types
    ensures |r| <= |all|
  {
    if all == [] then []
    else if all[0] in types then Except(all[1..], types)
    else [all[0]] + Except(all[1..], types)
  }

  lemma OtherThanDownstream(n: Entities)
    requires WellFormed(n)
    ensures Except(AllRelationshipTypes(n), [n.downstreamOf]) == [n.hasOwner]
  {
    assert AllRelationshipTypes(n)[1..] == [n.hasOwner];
    assert Except([n.hasOwner], [n.downstreamOf]) == [n.hasOwner] + Except([], [n.downstreamOf]);
  }

  /** `getPopulatedGraphService`: the fixture edges added one by one to an empty service. */
  method PopulatedGraphService(n: Entities) returns (service: GraphService)
    requires WellFormed(n)
    ensures fresh(service) && service.Valid()
    ensures service.edges == Fixture(n)
  {
    var edges := Fixture(n);
    FixtureDistinct(n);
    service := new GraphService();
    for i := 0 to |edges|
      invariant fresh(service) && service.Valid()
      invariant service.edges == edges[..i]
    {
      assert edges[i] !in edges[..i];
      service.AddEdge(edges[i]);
      assert edges[..i + 1] == edges[..i] + [edges[i]];
    }
    assert edges[..|edges|] == edges;
  }

  /**
   * `testRemoveEdgesFromNode`, one row per direction: removing the second
   * dataset's downstream edges in `direction` leaves the neighbours the row
   * expects, and leaves its neighbours over every other relationship type as
   * they were.
   */
  method RemoveEdgesFromNodeTest(n: Entities, direction: RelationshipDirection)
    returns (otherTypes: seq<string>, before: seq<Urn>, otherBefore: seq<Urn>, after: seq<Urn>, otherAfter: seq<Urn>)
    requires WellFormed(n)
    ensures otherTypes == Except(AllRelationshipTypes(n), [n.downstreamOf])
    ensures before == RelatedUrnsPage(Fixture(n), NeighbourQuery(n.d2, [n.downstreamOf], Undirected), 0, Window)
    ensures otherBefore == RelatedUrnsPage(Fixture(n), NeighbourQuery(n.d2, otherTypes, Undirected), 0, Window)
    ensures after == RelatedUrnsPage(WithoutEdgesFrom(Fixture(n), n.d2, [n.downstreamOf], direction),
                                     NeighbourQuery(n.d2, [n.downstreamOf], Undirected), 0, Window)
    ensures otherAfter == RelatedUrnsPage(WithoutEdgesFrom(Fixture(n), n.d2, [n.downstreamOf], direction),
                                          NeighbourQuery(n.d2, otherTypes, Undirected), 0, Window)
    ensures |otherTypes| > 0
    ensures Elements(before) == {n.d1, n.d3, n.d4}
    ensures |otherBefore| > 0
    ensures Elements(after) == match direction
      case Outgoing => {n.d3, n.d4}
      case Incoming => {n.d1}
      case Undirected => {}
    ensures otherAfter == otherBefore
  {
    var service := PopulatedGraphService(n);
    otherTypes := Except(AllRelationshipTypes(n), [n.downstreamOf]);
    OtherThanDownstream(n);
    var types, other := NeighbourQuery(n.d2, [n.downstreamOf], Undirected), NeighbourQuery(n.d2, otherTypes, Undirected);
    before := service.FindRelatedUrns(AnyType, UrnFilter(n.d2), AnyType, EmptyFilter, [n.downstreamOf], Undirected, 0, Window);
    otherBefore := service.FindRelatedUrns(AnyType, UrnFilter(n.d2), AnyType, EmptyFilter, otherTypes, Undirected, 0, Window);
    assert otherBefore == RelatedUrnsPage(Fixture(n), other, 0, Window);
    SourceEntityFilterRow3(n);
    assert |otherBefore| > 0 by {
      SourceEntityFilterRow6(n);
    }
    service.RemoveEdgesFromNode(n.d2, [n.downstreamOf], direction);
    ghost var kept := WithoutEdgesFrom(Fixture(n), n.d2, [n.downstreamOf], direction);
    after := service.FindRelatedUrns(AnyType, UrnFilter(n.d2), AnyType, EmptyFilter, [n.downstreamOf], Undirected, 0, Window);
    otherAfter := service.FindRelatedUrns(AnyType, UrnFilter(n.d2), AnyType, EmptyFilter, otherTypes, Undirected, 0, Window);
    assert after == RelatedUrnsPage(kept, types, 0, Window);
    assert otherAfter == RelatedUrnsPage(kept, other, 0, Window);
    match direction {
      case Outgoing => RemoveEdgesFromNodeRow1(n);
      case Incoming => RemoveEdgesFromNodeRow2(n);
      case Undirected => RemoveEdgesFromNodeRow3(n);
    }
    assert RelatedUrnsPage(kept, other, 0, Window) == RelatedUrnsPage(Fixture(n), other, 0, Window) by {
      RemovalKeepsOtherTypes(Fixture(n), n.d2, [n.downstreamOf], direction, other);
    }
  }

  /**
   * `testRemoveNode`: removing the second dataset leaves no downstream
   * relationship between datasets, and leaves the other three datasets owned.
   */
  method RemoveNodeTest(n: Entities) returns (downstreamBefore: seq<Urn>, ownedBefore: seq<Urn>, downstreamAfter: seq<Urn>, ownedAfter: seq<Urn>)
    requires WellFormed(n)
    ensures downstreamBefore == RelatedUrnsPage(Fixture(n), SourceTypeQuery(n.datasetType, [n.downstreamOf], Undirected), 0, Window)
    ensures ownedBefore == RelatedUrnsPage(Fixture(n), SourceTypeQuery(n.userType, [n.hasOwner], Undirected), 0, Window)
    ensures downstreamAfter == RelatedUrnsPage(WithoutNode(Fixture(n), n.d2), SourceTypeQuery(n.datasetType, [n.downstreamOf], Undirected), 0, Window)
    ensures ownedAfter == RelatedUrnsPage(WithoutNode(Fixture(n), n.d2), SourceTypeQuery(n.userType, [n.hasOwner], Undirected), 0, Window)
    ensures Elements(downstreamBefore) == {n.d1, n.d2, n.d3, n.d4}
    ensures Elements(ownedBefore) == {n.d1, n.d2, n.d3, n.d4}
    ensures downstreamAfter == []
    ensures Elements(ownedAfter) == {n.d1, n.d3, n.d4}
  {
    var service := PopulatedGraphService(n);
    downstreamBefore := service.FindRelatedUrns(n.datasetType, EmptyFilter, AnyType, EmptyFilter, [n.downstreamOf], Undirected, 0, Window);
    ownedBefore := service.FindRelatedUrns(n.userType, EmptyFilter, AnyType, EmptyFilter, [n.hasOwner], Undirected, 0, Window);
    SourceTypeRow3(n);
    SourceTypeRow9(n);
    service.RemoveNode(n.d2);
    downstreamAfter := service.FindRelatedUrns(n.datasetType, EmptyFilter, AnyType, EmptyFilter, [n.downstreamOf], Undirected, 0, Window);
    ownedAfter := service.FindRelatedUrns(n.userType, EmptyFilter, AnyType, EmptyFilter, [n.hasOwner], Undirected, 0, Window);
    RemoveNodeDownstream(n);
    RemoveNodeOwners(n);
  }

  /** A list without repeats whose elements are the four datasets has length four. */
  lemma FourDatasetsOnce(n: Entities, s: seq<Urn>)
    requires WellFormed(n)
    requires Distinct(s) && Elements(s) == {n.d1, n.d2, n.d3, n.d4}
    ensures |s| == 4
  {
    DistinctElements(s);
    assert |{n.d1, n.d2, n.d3, n.d4}| == 4 by {
      assert {n.d1, n.d2, n.d3, n.d4} == {n.d1, n.d2, n.d3} + {n.d4};
    }
  }

  /**
   * `testClear`: before a clear, each query finds the four datasets, each
   * once (`assertEqualsNoOrder` also compares lengths); after it, neither
   * query finds anything.
   */
  method ClearTest(n: Entities) returns (downstreamBefore: seq<Urn>, ownedBefore: seq<Urn>, downstreamAfter: seq<Urn>, ownedAfter: seq<Urn>)
    requires WellFormed(n)
    ensures downstreamBefore == RelatedUrnsPage(Fixture(n), SourceTypeQuery(n.datasetType, [n.downstreamOf], Undirected), 0, Window)
    ensures ownedBefore == RelatedUrnsPage(Fixture(n), SourceTypeQuery(n.userType, [n.hasOwner], Undirected), 0, Window)
    ensures downstreamAfter == RelatedUrnsPage([], SourceTypeQuery(n.datasetType, [n.downstreamOf], Undirected), 0, Window)
    ensures ownedAfter == RelatedUrnsPage([], SourceTypeQuery(n.userType, [n.hasOwner], Undirected), 0, Window)
    ensures Elements(downstreamBefore) == {n.d1, n.d2, n.d3, n.d4} && |downstreamBefore| == 4
    ensures Elements(ownedBefore) == {n.d1, n.d2, n.d3, n.d4} && |ownedBefore| == 4
    ensures downstreamAfter == [] && ownedAfter == []
  {
    var service := PopulatedGraphService(n);
    downstreamBefore := service.FindRelatedUrns(n.datasetType, EmptyFilter, AnyType, EmptyFilter, [n.downstreamOf], Undirected, 0, Window);
    ownedBefore := service.FindRelatedUrns(n.userType, EmptyFilter, AnyType, EmptyFilter, [n.hasOwner], Undirected, 0, Window);
    SourceTypeRow3(n);
    SourceTypeRow9(n);
    FourDatasetsOnce(n, downstreamBefore);
    FourDatasetsOnce(n, ownedBefore);
    service.Clear();
    downstreamAfter := service.FindRelatedUrns(n.datasetType, EmptyFilter, AnyType, EmptyFilter, [n.downstreamOf], Undirected, 0, Window);
    ownedAfter := service.FindRelatedUrns(n.userType, EmptyFilter, AnyType, EmptyFilter, [n.hasOwner], Undirected, 0, Window);
  }

  /**
   * `testFindRelatedUrnsOffsetAndCount`: the datasets downstream of some
   * dataset, fetched in one page of 100 and again one at a time, are the
   * first two datasets both times, in the same order.
   */
  method OffsetAndCountTest(n: Entities) returns (allRelated: seq<Urn>, individualRelated: seq<Urn>)
    requires WellFormed(n)
    ensures allRelated == RelatedUrnsPage(Fixture(n), SourceTypeQuery(n.datasetType, [n.downstreamOf], Outgoing), 0, 100)
    ensures individualRelated == PagesOfOne(Fixture(n), SourceTypeQuery(n.datasetType, [n.downstreamOf], Outgoing), |allRelated|)
    ensures Elements(allRelated) == {n.d1, n.d2}
    ensures individualRelated == allRelated
  {
    var service := PopulatedGraphService(n);
    var q := SourceTypeQuery(n.datasetType, [n.downstreamOf], Outgoing);
    allRelated, individualRelated := service.PageOneByOne(q, 100);
    FirstPageOnFixture(n, Fixture(n), q, 100);
    FirstPageOnFixture(n, Fixture(n), q, Window);
    SourceTypeRow1(n);
  }
}

