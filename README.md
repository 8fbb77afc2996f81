# Graph service contract and Dgraph schema registry, in Dafny

This project models two parts of the graph layer of `metadata-io`.

1. **The GraphService contract.** Every graph backend (Dgraph, Neo4j, Elasticsearch) must pass the
   shared test suite `GraphServiceTestBase`. The model is a reference in-memory edge store:
   - a `GraphService` object holds a sequence of `Edge(source, destination, relationshipType)`;
   - `AddEdge`, `RemoveEdgesFromNode`, `RemoveNode` and `Clear` change that sequence in place;
   - `findRelatedUrns` is a function of the stored edges, `GraphQuery.RelatedUrnsPage`.

   The query's meaning is given independently by the predicate `GraphQuery.Related`:
   - some edge of a listed type can be walked in the requested direction;
   - the walk starts at an entity that matches the source type and filter;
   - it arrives at an entity that matches the destination type and filter;
   - the type `""` matches every entity.

   The lemmas prove that the result list is exactly that set, without repeats, in one stable order
   that every window `[offset, offset + count)` slices. They also prove:
   - UNDIRECTED is the union of OUTGOING and INCOMING;
   - the empty type only widens a query;
   - each mutation changes the store, and what queries answer, exactly as the suite requires.

   The suite itself is modelled on top of the model:
   - its seven-edge fixture;
   - every data-provider row, as a lemma;
   - the pagination, removal, removeNode and clear tests, as methods that drive a `GraphService`
     object and promise what the tests assert.

   The rows are proved for any four different dataset URNs and any two different user URNs placed
   as the fixture places them. `SuiteEntitiesWellFormed` shows that the suite's own URNs are one
   such choice.
2. **`DgraphSchema`**, the Dgraph backend's registry:
   - the set of field names it has seen;
   - for each type name, the fields registered for it.

   The model is a class with `fields: set<string>` and `types: map<string, set<string>>`. It has the
   `AddField` and `Clear` methods and its read functions. The invariant "every per-type field is a
   known field" is `Valid()`, and `AddField` and `Clear` preserve it. The registration step is also
   a function, `Schema.WithField`, with lemmas for idempotence, order independence and invariant
   preservation.

Files:
- `sequences.dfy` holds sequence helpers:
  - the set view of a list;
  - deduplication that keeps first occurrences;
  - window slicing;
  - a counting bound.
- `graph_model.dfy` holds URNs, edges, filters, directions, queries, and what one edge contributes.
- `graph_query.dfy` holds the query function and its meaning.
- `graph_mutation.dfy` holds the store updates as functions, and their effect on queries.
- `graph_service.dfy` holds the `GraphService` class.
- `graph_service_suite.dfy` holds the test suite.
- `dgraph_schema.dfy` holds the schema registry.

## Model

| member | source | states |
|---|---|---|
| Sequences.Elements | metadata-io/src/test/java/com/linkedin/metadata/graph/GraphServiceTestBase.java:163-166 | the suite compares result lists as sets; the set holds exactly the listed elements, and is empty exactly when the list is |
| Sequences.DistinctElements | metadata-io/src/test/java/com/linkedin/metadata/graph/GraphServiceTestBase.java:664-681 | a list without repeats has exactly as many elements as its set, which is what `assertEqualsNoOrder` adds to a set comparison |
| Sequences.Dedup | metadata-io/src/test/java/com/linkedin/metadata/graph/GraphServiceTestBase.java:163-166 | the deduplicated list has no repeats, holds every element of the input and nothing else, and is no longer than the input |
| Sequences.Slice | metadata-io/src/test/java/com/linkedin/metadata/graph/GraphServiceTestBase.java:511-534 | a window `[offset, offset + count)` clipped to the list: empty when `offset` is past the end, otherwise `min(count, length - offset)` elements, element `i` being element `offset + i` |
| GraphQuery.RelatedUrnsPage | metadata-io/src/test/java/com/linkedin/metadata/graph/GraphServiceTestBase.java:320-337 | a `findRelatedUrns` page holds only related entities, none twice, at most `count` of them; a first page that is not full holds every related entity |
| GraphQuery.PageSplit | metadata-io/src/test/java/com/linkedin/metadata/graph/GraphServiceTestBase.java:511-534 | pagination is consistent: the window of `c1 + c2` results at `offset` is the window of `c1` at `offset` followed by the window of `c2` at `offset + c1` |
| GraphQuery.PageOfOne | metadata-io/src/test/java/com/linkedin/metadata/graph/GraphServiceTestBase.java:524-532 | the page of one result at offset `i` is the single `i`-th result of any first page that reaches past `i` |
| GraphQuery.PagesOfOneIsPage | metadata-io/src/test/java/com/linkedin/metadata/graph/GraphServiceTestBase.java:524-533 | appending the one-result pages at offsets `0 .. n - 1` gives exactly the first page of `n` results, in the same order |
| GraphQuery.HitsIff | metadata-io/src/test/java/com/linkedin/metadata/graph/GraphServiceTestBase.java:170-227 | one edge contributes `x` exactly when its type is listed and it can be walked in the requested direction from an entity matching the source type and filter to `x`, and `x` matches the destination type and filter |
| GraphQuery.CandidatesIff | metadata-io/src/test/java/com/linkedin/metadata/graph/GraphServiceTestBase.java:329-334 | an endpoint contributed by some stored edge is exactly a related entity |
| GraphQuery.AllRelatedUrnsIff | metadata-io/src/test/java/com/linkedin/metadata/graph/GraphServiceTestBase.java:329-334 | the full result list is free of repeats and holds exactly the related entities |
| GraphQuery.UndirectedIsUnion | metadata-io/src/test/java/com/linkedin/metadata/graph/GraphServiceTestBase.java:183-188 | for any edges and any query, the UNDIRECTED result set is the union of the OUTGOING and INCOMING result sets |
| GraphQuery.RelatedUndirected | metadata-io/src/test/java/com/linkedin/metadata/graph/GraphServiceTestBase.java:221-226 | an entity is related UNDIRECTED exactly when it is related OUTGOING or INCOMING |
| GraphQuery.AnyTypeWidens | metadata-io/src/test/java/com/linkedin/metadata/graph/GraphServiceTestBase.java:85 | replacing the source or the destination type by `""` only adds results; under a non-empty destination type every result has that entity type |
| GraphQuery.DirectionSymmetry | metadata-io/src/test/java/com/linkedin/metadata/graph/GraphServiceTestBase.java:171-188 | a stored edge A -> B of a listed type makes B an OUTGOING neighbour of A, A an INCOMING neighbour of B, and each an UNDIRECTED neighbour of the other |
| GraphMutation.WithEdge | metadata-io/src/test/java/com/linkedin/metadata/graph/GraphServiceTestBase.java:137 | `addEdge` adds exactly the new triple, keeps the stored ones in order, and never stores a triple twice |
| GraphMutation.WithoutEdgesFrom | metadata-io/src/test/java/com/linkedin/metadata/graph/GraphServiceTestBase.java:590-594 | after `removeEdgesFromNode` an edge is stored exactly when it was before and is not of a listed type incident to the node in the filter's direction |
| GraphMutation.WithoutNode | metadata-io/src/test/java/com/linkedin/metadata/graph/GraphServiceTestBase.java:635 | after `removeNode` an edge is stored exactly when it was before and neither endpoint is the node |
| GraphMutation.NothingRelated | metadata-io/src/test/java/com/linkedin/metadata/graph/GraphServiceTestBase.java:686-704 | a query that no entity satisfies has an empty result list |
| GraphMutation.WithEdgeRelated | metadata-io/src/test/java/com/linkedin/metadata/graph/GraphServiceTestBase.java:137 | after `addEdge(e)` the related entities are the former ones plus those `e` contributes |
| GraphMutation.RemovalKeepsOtherTypes | metadata-io/src/test/java/com/linkedin/metadata/graph/GraphServiceTestBase.java:571-607 | removing edges of the listed types leaves every query over other types unchanged, in every window, order included |
| GraphMutation.RemovalEmptiesNeighbourhood | metadata-io/src/test/java/com/linkedin/metadata/graph/GraphServiceTestBase.java:553-559 | after `removeEdgesFromNode(node, types, dir)` the neighbours of `node` over those types in that direction are none |
| GraphMutation.WithoutNodeSubsumes | metadata-io/src/test/java/com/linkedin/metadata/graph/GraphServiceTestBase.java:635-656 | `removeNode` keeps no more edges than UNDIRECTED `removeEdgesFromNode`, and keeps the same edges when the listed types cover every stored edge |
| GraphMutation.WithoutNodeIsolates | metadata-io/src/test/java/com/linkedin/metadata/graph/GraphServiceTestBase.java:635-656 | after `removeNode(node)` no query returns `node`, and its neighbours over any types in any direction are none |
| GraphServices.GraphService.constructor | metadata-io/src/test/java/com/linkedin/metadata/graph/GraphServiceTestBase.java:98-106 | the service under test starts empty |
| GraphServices.GraphService.AddEdge | metadata-io/src/test/java/com/linkedin/metadata/graph/GraphServiceTestBase.java:137 | the new store is `WithEdge` of the old one; no triple is stored twice |
| GraphServices.GraphService.RemoveEdgesFromNode | metadata-io/src/test/java/com/linkedin/metadata/graph/GraphServiceTestBase.java:590-594 | the new store is `WithoutEdgesFrom` of the old one |
| GraphServices.GraphService.RemoveNode | metadata-io/src/test/java/com/linkedin/metadata/graph/GraphServiceTestBase.java:635 | the new store is `WithoutNode` of the old one |
| GraphServices.GraphService.Clear | metadata-io/src/test/java/com/linkedin/metadata/graph/GraphServiceTestBase.java:683-704 | no edge is left, and every query in every window answers the empty list |
| GraphServices.GraphService.PageOneByOne | metadata-io/src/test/java/com/linkedin/metadata/graph/GraphServiceTestBase.java:511-534 | the second list is built from the one-result pages at offsets `0 .. |first| - 1` (each page being the single result at that position), and equals the one-call first page, in the same order |
| GraphServiceSuite.SuiteEntitiesWellFormed | metadata-io/src/test/java/com/linkedin/metadata/graph/GraphServiceTestBase.java:43-72 | the suite's URNs are four different datasets and two different users, and its two types of each kind differ |
| GraphServiceSuite.FixtureDistinct | metadata-io/src/test/java/com/linkedin/metadata/graph/GraphServiceTestBase.java:126-135 | the seven fixture edges are pairwise different |
| GraphServiceSuite.FirstPageOnFixture | metadata-io/src/test/java/com/linkedin/metadata/graph/GraphServiceTestBase.java:329-334 | on (what is left of) the fixture, any first page of more than six results holds exactly the related entities |
| GraphServiceSuite.Except | metadata-io/src/test/java/com/linkedin/metadata/graph/GraphServiceTestBase.java:571-574 | the relationship types of a list that are not removed: exactly those types, none added |
| GraphServiceSuite.FourDatasetsOnce | metadata-io/src/test/java/com/linkedin/metadata/graph/GraphServiceTestBase.java:664-681 | a list without repeats whose elements are the four datasets has length four |
| GraphServiceSuite.OtherThanDownstream | metadata-io/src/test/java/com/linkedin/metadata/graph/GraphServiceTestBase.java:571-575 | the types other than `DownstreamOf` are `hasOwner` alone, so there is at least one |
| GraphServiceSuite.SourceEntityFilterRow1 | metadata-io/src/test/java/com/linkedin/metadata/graph/GraphServiceTestBase.java:171-176 | source urn D2, DownstreamOf, OUTGOING finds {D1} |
| GraphServiceSuite.SourceEntityFilterRow2 | metadata-io/src/test/java/com/linkedin/metadata/graph/GraphServiceTestBase.java:177-182 | source urn D2, DownstreamOf, INCOMING finds {D3, D4} |
| GraphServiceSuite.SourceEntityFilterRow3 | metadata-io/src/test/java/com/linkedin/metadata/graph/GraphServiceTestBase.java:183-188 | source urn D2, DownstreamOf, UNDIRECTED finds {D1, D3, D4} |
| GraphServiceSuite.SourceEntityFilterRow4 | metadata-io/src/test/java/com/linkedin/metadata/graph/GraphServiceTestBase.java:190-195 | source urn D2, hasOwner, OUTGOING finds {U1} |
| GraphServiceSuite.SourceEntityFilterRow5 | metadata-io/src/test/java/com/linkedin/metadata/graph/GraphServiceTestBase.java:196-201 | source urn D2, hasOwner, INCOMING finds nothing |
| GraphServiceSuite.SourceEntityFilterRow6 | metadata-io/src/test/java/com/linkedin/metadata/graph/GraphServiceTestBase.java:202-207 | source urn D2, hasOwner, UNDIRECTED finds {U1} |
| GraphServiceSuite.SourceEntityFilterRow7 | metadata-io/src/test/java/com/linkedin/metadata/graph/GraphServiceTestBase.java:209-214 | source urn U1, hasOwner, OUTGOING finds nothing |
| GraphServiceSuite.SourceEntityFilterRow8 | metadata-io/src/test/java/com/linkedin/metadata/graph/GraphServiceTestBase.java:215-220 | source urn U1, hasOwner, INCOMING finds {D1, D2} |
| GraphServiceSuite.SourceEntityFilterRow9 | metadata-io/src/test/java/com/linkedin/metadata/graph/GraphServiceTestBase.java:221-226 | source urn U1, hasOwner, UNDIRECTED finds {D1, D2} |
| GraphServiceSuite.DestinationEntityFilterRow1 | metadata-io/src/test/java/com/linkedin/metadata/graph/GraphServiceTestBase.java:247-252 | destination urn D2, DownstreamOf, OUTGOING finds {D2} |
| GraphServiceSuite.DestinationEntityFilterRow2 | metadata-io/src/test/java/com/linkedin/metadata/graph/GraphServiceTestBase.java:253-258 | destination urn D2, DownstreamOf, INCOMING finds {D2} |
| GraphServiceSuite.DestinationEntityFilterRow3 | metadata-io/src/test/java/com/linkedin/metadata/graph/GraphServiceTestBase.java:259-264 | destination urn D2, DownstreamOf, UNDIRECTED finds {D2} |
| GraphServiceSuite.DestinationEntityFilterRow4 | metadata-io/src/test/java/com/linkedin/metadata/graph/GraphServiceTestBase.java:266-271 | destination urn U1, DownstreamOf, OUTGOING finds nothing |
| GraphServiceSuite.DestinationEntityFilterRow5 | metadata-io/src/test/java/com/linkedin/metadata/graph/GraphServiceTestBase.java:272-277 | destination urn U1, DownstreamOf, INCOMING finds nothing |
| GraphServiceSuite.DestinationEntityFilterRow6 | metadata-io/src/test/java/com/linkedin/metadata/graph/GraphServiceTestBase.java:278-283 | destination urn U1, DownstreamOf, UNDIRECTED finds nothing |
| GraphServiceSuite.DestinationEntityFilterRow7 | metadata-io/src/test/java/com/linkedin/metadata/graph/GraphServiceTestBase.java:285-290 | destination urn U1, hasOwner, OUTGOING finds {U1} |
| GraphServiceSuite.DestinationEntityFilterRow8 | metadata-io/src/test/java/com/linkedin/metadata/graph/GraphServiceTestBase.java:291-296 | destination urn U1, hasOwner, INCOMING finds nothing |
| GraphServiceSuite.DestinationEntityFilterRow9 | metadata-io/src/test/java/com/linkedin/metadata/graph/GraphServiceTestBase.java:297-302 | destination urn U1, hasOwner, UNDIRECTED finds {U1} |
| GraphServiceSuite.SourceTypeRow1 | metadata-io/src/test/java/com/linkedin/metadata/graph/GraphServiceTestBase.java:342-347 | source type dataset, DownstreamOf, OUTGOING finds {D1, D2} |
| GraphServiceSuite.SourceTypeRow2 | metadata-io/src/test/java/com/linkedin/metadata/graph/GraphServiceTestBase.java:348-353 | source type dataset, DownstreamOf, INCOMING finds {D2, D3, D4} |
| GraphServiceSuite.SourceTypeRow3 | metadata-io/src/test/java/com/linkedin/metadata/graph/GraphServiceTestBase.java:354-359 | source type dataset, DownstreamOf, UNDIRECTED finds {D1, D2, D3, D4} |
| GraphServiceSuite.SourceTypeRow4 | metadata-io/src/test/java/com/linkedin/metadata/graph/GraphServiceTestBase.java:361-366 | source type user, DownstreamOf, OUTGOING finds nothing |
| GraphServiceSuite.SourceTypeRow5 | metadata-io/src/test/java/com/linkedin/metadata/graph/GraphServiceTestBase.java:367-372 | source type user, DownstreamOf, INCOMING finds nothing |
| GraphServiceSuite.SourceTypeRow6 | metadata-io/src/test/java/com/linkedin/metadata/graph/GraphServiceTestBase.java:373-378 | source type user, DownstreamOf, UNDIRECTED finds nothing |
| GraphServiceSuite.SourceTypeRow7 | metadata-io/src/test/java/com/linkedin/metadata/graph/GraphServiceTestBase.java:380-385 | source type user, hasOwner, OUTGOING finds nothing |
| GraphServiceSuite.SourceTypeRow8 | metadata-io/src/test/java/com/linkedin/metadata/graph/GraphServiceTestBase.java:386-391 | source type user, hasOwner, INCOMING finds {D1, D2, D3, D4} |
| GraphServiceSuite.SourceTypeRow9 | metadata-io/src/test/java/com/linkedin/metadata/graph/GraphServiceTestBase.java:392-397 | source type user, hasOwner, UNDIRECTED finds {D1, D2, D3, D4} |
| GraphServiceSuite.DestinationTypeRow1 | metadata-io/src/test/java/com/linkedin/metadata/graph/GraphServiceTestBase.java:418-423 | destination type dataset, DownstreamOf, OUTGOING finds {D1, D2} |
| GraphServiceSuite.DestinationTypeRow2 | metadata-io/src/test/java/com/linkedin/metadata/graph/GraphServiceTestBase.java:424-429 | destination type dataset, DownstreamOf, INCOMING finds {D2, D3, D4} |
| GraphServiceSuite.DestinationTypeRow3 | metadata-io/src/test/java/com/linkedin/metadata/graph/GraphServiceTestBase.java:430-435 | destination type dataset, DownstreamOf, UNDIRECTED finds {D1, D2, D3, D4} |
| GraphServiceSuite.DestinationTypeRow4 | metadata-io/src/test/java/com/linkedin/metadata/graph/GraphServiceTestBase.java:437-442 | destination type dataset, hasOwner, OUTGOING finds nothing |
| GraphServiceSuite.DestinationTypeRow5 | metadata-io/src/test/java/com/linkedin/metadata/graph/GraphServiceTestBase.java:443-448 | destination type dataset, hasOwner, INCOMING finds {D1, D2, D3, D4} |
| GraphServiceSuite.DestinationTypeRow6 | metadata-io/src/test/java/com/linkedin/metadata/graph/GraphServiceTestBase.java:449-454 | destination type dataset, hasOwner, UNDIRECTED finds {D1, D2, D3, D4} |
| GraphServiceSuite.DestinationTypeRow7 | metadata-io/src/test/java/com/linkedin/metadata/graph/GraphServiceTestBase.java:456-461 | destination type user, hasOwner, OUTGOING finds {U1, U2} |
| GraphServiceSuite.DestinationTypeRow8 | metadata-io/src/test/java/com/linkedin/metadata/graph/GraphServiceTestBase.java:462-467 | destination type user, hasOwner, INCOMING finds nothing |
| GraphServiceSuite.DestinationTypeRow9 | metadata-io/src/test/java/com/linkedin/metadata/graph/GraphServiceTestBase.java:468-473 | destination type user, hasOwner, UNDIRECTED finds {U1, U2} |
| GraphServiceSuite.RemoveEdgesFromNodeRow1 | metadata-io/src/test/java/com/linkedin/metadata/graph/GraphServiceTestBase.java:539-545 | after removing D2's outgoing DownstreamOf edges, its DownstreamOf neighbours are {D3, D4} |
| GraphServiceSuite.RemoveEdgesFromNodeRow2 | metadata-io/src/test/java/com/linkedin/metadata/graph/GraphServiceTestBase.java:546-552 | after removing D2's incoming DownstreamOf edges, its DownstreamOf neighbours are {D1} |
| GraphServiceSuite.RemoveEdgesFromNodeRow3 | metadata-io/src/test/java/com/linkedin/metadata/graph/GraphServiceTestBase.java:553-559 | after removing D2's DownstreamOf edges in both roles, it has no DownstreamOf neighbour |
| GraphServiceSuite.RemoveNodeDownstream | metadata-io/src/test/java/com/linkedin/metadata/graph/GraphServiceTestBase.java:639-645 | after `removeNode(D2)` no dataset has a DownstreamOf neighbour |
| GraphServiceSuite.RemoveNodeOwners | metadata-io/src/test/java/com/linkedin/metadata/graph/GraphServiceTestBase.java:648-656 | after `removeNode(D2)` the entities users own are {D1, D3, D4} |
| GraphServiceSuite.RemovalComparisonAsWritten | metadata-io/src/test/java/com/linkedin/metadata/graph/GraphServiceTestBase.java:608 | in every row, D2's DownstreamOf neighbours after the removal differ from those before it |
| GraphServiceSuite.RemoveNodeDownstreamAsWritten | metadata-io/src/test/java/com/linkedin/metadata/graph/GraphServiceTestBase.java:639-647 | after `removeNode(D2)` the DownstreamOf neighbours of datasets are not {D1} |
| GraphServiceSuite.ClearOwnersAsWritten | metadata-io/src/test/java/com/linkedin/metadata/graph/GraphServiceTestBase.java:673-681 | the entities users own in the fixture are not {U1, U2} |
| GraphServiceSuite.PopulatedGraphService | metadata-io/src/test/java/com/linkedin/metadata/graph/GraphServiceTestBase.java:123-141 | adding the seven fixture edges one by one to an empty service stores exactly the fixture, in order |
| GraphServiceSuite.RemoveEdgesFromNodeTest | metadata-io/src/test/java/com/linkedin/metadata/graph/GraphServiceTestBase.java:563-609 | the removal test for each direction: each output is the named query on the fixture or on the fixture after `removeEdgesFromNode(D2, [DownstreamOf], direction)`; some other type exists; before, D2's neighbours are {D1, D3, D4} and its other-type neighbours are not empty; after, its neighbours are what the row expects, and its other-type neighbours are exactly as before |
| GraphServiceSuite.RemoveNodeTest | metadata-io/src/test/java/com/linkedin/metadata/graph/GraphServiceTestBase.java:611-657 | each output is the named query on the fixture or on the fixture after `removeNode(D2)`; before, both queries find {D1, D2, D3, D4}; after, the downstream query finds nothing and the owner query finds {D1, D3, D4} |
| GraphServiceSuite.ClearTest | metadata-io/src/test/java/com/linkedin/metadata/graph/GraphServiceTestBase.java:659-705 | each output is the named query on the fixture or on the cleared store; before `clear()` both queries find D1, D2, D3 and D4, each exactly once; after it, both find nothing |
| GraphServiceSuite.OffsetAndCountTest | metadata-io/src/test/java/com/linkedin/metadata/graph/GraphServiceTestBase.java:510-534 | the downstream datasets of datasets, in one page of 100 on the fixture, are {D1, D2}; the one-at-a-time list is the one-result pages at offsets `0 .. |first| - 1` appended, and is the same list in the same order |
| Schema.WithField | metadata-io/src/main/java/com/linkedin/metadata/graph/DgraphSchema.java:56-62 | registering a field for a type adds the type if missing, adds the field to that type's set, and leaves every other type's set alone |
| Schema.WithFieldIdempotent | metadata-io/src/main/java/com/linkedin/metadata/graph/DgraphSchema.java:57-61 | registering the same field for the same type twice gives the same type map as once |
| Schema.WithFieldCommutes | metadata-io/src/main/java/com/linkedin/metadata/graph/DgraphSchema.java:56-62 | two registrations give the same type map in either order |
| Schema.WithFieldConsistent | metadata-io/src/main/java/com/linkedin/metadata/graph/DgraphSchema.java:56-62 | a registration keeps every per-type field among the known fields |
| Schema.DgraphSchema.constructor | metadata-io/src/main/java/com/linkedin/metadata/graph/DgraphSchema.java:14-17 | the registry holds the given fields and types, which must already satisfy the invariant |
| Schema.DgraphSchema.IsEmpty | metadata-io/src/main/java/com/linkedin/metadata/graph/DgraphSchema.java:19-21 | empty exactly when no field is known, whatever the type map holds; an empty consistent registry has no per-type field |
| Schema.DgraphSchema.GetFields | metadata-io/src/main/java/com/linkedin/metadata/graph/DgraphSchema.java:23-26 | the snapshot holds exactly the fields `hasField` reports, and is empty exactly when `isEmpty` holds |
| Schema.DgraphSchema.GetTypeFields | metadata-io/src/main/java/com/linkedin/metadata/graph/DgraphSchema.java:28-31 | the snapshot holds exactly the fields `hasField(type, field)` reports; it is empty for an unknown type; in a consistent registry it is within `getFields()` |
| Schema.DgraphSchema.GetTypes | metadata-io/src/main/java/com/linkedin/metadata/graph/DgraphSchema.java:33-42 | the snapshot has exactly the types `hasType` reports, maps each to `getFields(type)`, and is consistent with `getFields()` when the registry is |
| Schema.DgraphSchema.HasType | metadata-io/src/main/java/com/linkedin/metadata/graph/DgraphSchema.java:44-46 | a type is known exactly when it has an entry; in a consistent registry its fields are known fields |
| Schema.DgraphSchema.HasField | metadata-io/src/main/java/com/linkedin/metadata/graph/DgraphSchema.java:48-50 | a field is known exactly when it is in the global set |
| Schema.DgraphSchema.HasTypeField | metadata-io/src/main/java/com/linkedin/metadata/graph/DgraphSchema.java:52-54 | true only for a known type whose set holds the field, so false for an unknown type; in a consistent registry it implies `hasField` |
| Schema.DgraphSchema.AddField | metadata-io/src/main/java/com/linkedin/metadata/graph/DgraphSchema.java:56-62 | the field joins the global set and the type's set (created if new) and nothing else changes; the invariant is kept; afterwards `hasField(f)`, `hasType(t)` and `hasField(t, f)` all hold |
| Schema.DgraphSchema.Clear | metadata-io/src/main/java/com/linkedin/metadata/graph/DgraphSchema.java:64-67 | no field and no type is left; the registry is consistent and empty, no type is known, and `getTypes()` is the empty map |

## Left out

- Concurrency: `addField` is `synchronized` while the readers and `clear` are not. The model is sequential.
- Unmodifiable views: the getters of `DgraphSchema` return value snapshots. Java's read-only wrappers and the caller's aliasing of the sets and map passed to the constructor are not modelled.
- URN parsing: `Urn.createFromString` and `testStaticUrns` call a library outside this model.
  - A URN is the pair of its entity type and the rest of its string.
  - Results are `Urn` values, not URN strings.
- Backends and test plumbing:
  - `getGraphService` becomes the constructor of an empty store.
  - `syncAfterWrite` is a no-op: a write is visible to the next read.
  - The Dgraph, Neo4j and Elasticsearch backends and their query translation are not modelled.
  - TestNG's data-provider machinery is not modelled: each row is a lemma.
- Filters: only the empty filter and the single `urn`-equality criterion that the suite uses are modelled. General criteria are not.
- Relationship filters keep only their direction. Their criteria are always `EMPTY_FILTER` in the suite (GraphServiceTestBase.java:143-152) and are not modelled.
- Negative `offset` or `count` are caller errors. The model's window bounds are `nat`.
- Result order: the model fixes one stable order, store order with first occurrences kept. A backend may use any other stable order. The suite never depends on the order:
  - most tests compare results as sets (`assertEqualsAsSets`);
  - `testClear` uses `assertEqualsNoOrder`, which also compares lengths, so a repeated result would fail it;
  - the pagination test needs only a stable order.
- Duplicate results: the model answers without repeats, which is what `assertEqualsNoOrder` in `testClear` needs. The duplicates `TODO` in `assertEqualsAsSets` (GraphServiceTestBase.java:163-166) is not asserted either way.
- Schema registration by the backends, such as on `addEdge` or on `clear`, is not modelled. It happens in code that is not part of this model.
- GraphServices.GraphService.FindRelatedUrns: has no contract of its own. It returns `RelatedUrnsPage` of the current edges, and the contract stated there applies.
- GraphServiceSuite.RemoveEdgesFromNodeTest: takes the direction as its parameter. The node (D2) and the type list (`DownstreamOf`) are the same in all three rows of the data provider.
- GraphServiceSuite rows: proved for any well-formed choice of URNs and type names placed as in the fixture. `SuiteEntitiesWellFormed` shows the suite's own constants are one such choice.

## Findings

| source | as written | input that shows it | evidently intended | confidence | as-written member | corrected member |
|---|---|---|---|---|---|---|
| metadata-io/src/test/java/com/linkedin/metadata/graph/GraphServiceTestBase.java:608 | asserts that the neighbours over the removed types after the removal equal those before it | any row, e.g. D2, DownstreamOf, OUTGOING: before {D1, D3, D4}, after {D3, D4} (also asserted at :597-601) | the other-type neighbours after the removal (:603-607) equal those before it (:583-588) | not executed; high | GraphServiceSuite.RemovalComparisonAsWritten | GraphServiceSuite.RemoveEdgesFromNodeTest |
| metadata-io/src/test/java/com/linkedin/metadata/graph/GraphServiceTestBase.java:646 | expects {D1} as the DownstreamOf neighbours of datasets after `removeNode(D2)` | the fixture: every DownstreamOf edge (:127-129) touches D2 | the empty list | not executed; high | GraphServiceSuite.RemoveNodeDownstreamAsWritten | GraphServiceSuite.RemoveNodeTest |
| metadata-io/src/test/java/com/linkedin/metadata/graph/GraphServiceTestBase.java:680 | expects {U1, U2} for source type user, hasOwner, UNDIRECTED | the fixture before any change; the same query at :625-633 and row :392-397 expect {D1, D2, D3, D4} | {D1, D2, D3, D4} | not executed; high | GraphServiceSuite.ClearOwnersAsWritten | GraphServiceSuite.ClearTest |
