# Proximity-service quadtree in Dafny

This project models the spatial index of a proximity service, found in
`quadTreeService/quadTreeStore.go`. The index is a region quadtree over
integer-aligned latitude/longitude boxes. Each leaf holds at most
`maxSizeAllowedAtLeafNodes` business records, each an ID and a location. A
leaf that overflows is divided into four quadrants and hands its records to
them. A radius query walks the tree, prunes with a corner-distance test, and
reports each record within the radius that lies in a leaf the walk reaches, with
the distance filled in. Because the pruning test is not sound (see below), a
record within the radius whose leaf is pruned is missed.

The project has three layers:

- **Values.** `Geometry` covers boxes, Go's truncating halving, containment,
  the quadrant split and the corner test. `QuadTreeSpec` holds the tree as a
  datatype, and `Insert`, `Redistribute`, `InsertAll` and `Query` as
  functions. These functions follow the Go branches one for one.
- **Properties.** These are proved about the value functions.
  - `InsertProperties`: the branches of an insert, independence from the
    fuel bound, and preservation of the tree invariant.
  - `InsertConservation`: no record is lost, and a split stores every
    record exactly once.
  - `Divergence`: two families of inputs on which the insert never returns.
  - `QueryProperties`: the query is sound and monotone in the radius,
    finds the user's own leaf, and a record is found after it is inserted.
- **Objects.** `QuadTreeStore` holds the Go structs as classes. `Node` has
  the Go fields, a ghost footprint `Repr` and a ghost value `Model`.
  `QuadTree` holds the root and the leaf capacity. Every method is proved to
  turn `Model` into what the value function computes. The query method has
  no `modifies` clause, so it changes nothing.

Coordinates follow the source. Latitude grows from `startLatitude` over
`width`. Longitude runs downward from `startLongitude` over `height`. A
box covers `startLatitude <= lat < startLatitude + width` and
`startLongitude - height < lon <= startLongitude`.

### Behaviour kept as written

In several places the code does not do what a reader of a quadtree would
expect. The model follows the code:

- **Descent test.** An internal node passes a record to a child only if that
  child is itself split and its *top-left* child's box holds the location
  (`canNewNodeBeInserted`). So no call made from a split node ever reaches
  the leaf branch. An insert into a split node always returns, within a call
  depth one more than the node's height, and leaves the tree unchanged
  (`SplitInsertFinishes`; `SplitInsertIsNoOp` states the same for any depth
  at which the call returns).
  - Records are kept only up to and including the root's first split.
  - After that, every insert returns and is a no-op, including every
    `UpdateQuadTree` (`InsertAllIntoSplitIsNoOp`). The database layer calls `UpdateQuadTree`
    for each create and update (database/db.go:128, 141).
  - A reader would expect every inserted record to stay retrievable. That
    holds only for inserts that end in a leaf (`InsertThenQueryFinds`), which
    means only inserts into a root that is still a leaf.
- **Corner test.** The pruning test checks the distance from the user to
  the four box corners. Each corner is built with its latitude and longitude
  fields swapped (`isLocationInsideRadius`). This is kept, and it is not a
  test against the point of the box closest to the user. Pruning therefore has no
  soundness guarantee. The query still always reaches the user's own leaf
  (`QueryFindsUsersLeaf`).
- **Non-termination.** A full 1×1 leaf splits into a bottom-right child
  with the same box, so the insert recurses forever. A leaf capacity of zero
  or less does the same. In Go this unbounded recursion ends in a fatal stack
  overflow that stops the whole service, and a create from the database layer
  can reach it (database/db.go:128). `Insert` takes a `fuel` bound on the call depth and
  is `None` when the bound is exceeded. `FullUnitLeafDiverges` and
  `NonPositiveCapacityDiverges` prove `None` for every fuel.
- **No deletion.** The store file defines no delete operation. The database layer calls a `DeleteFromQuadTree`
  (database/db.go:135, 156), but no such function appears in
  quadTreeService/quadTreeStore.go. It is not part of this model.

## Model

| member | source | states |
|---|---|---|
| Geometry.Half | quadTreeService/quadTreeStore.go:60-61 | Go's `x / 2` truncates toward zero: the remainder is 0 or 1 for `x >= 0` and 0 or -1 for `x < 0` |
| Geometry.IsLocationWithinBoundingBox | quadTreeService/quadTreeStore.go:44-52 | the containment test as written: latitude at least `startLatitude` and below `startLatitude + width`, longitude at most `startLongitude` and above `startLongitude - height`, compared as reals |
| Geometry.WithinBoxIffWithinSpans | quadTreeService/quadTreeStore.go:44-52 | a location is in a box iff its latitude lies in `[start, start+width)` and its longitude in `(start-height, start]`; only a box of positive width and height contains anything |
| Geometry.Quadrants | quadTreeService/quadTreeStore.go:54-87 | the four child boxes: in each row the two widths add up to the parent's width, and in each column the two heights add up to its height; the boxes of a column share a width and the boxes of a row share a height; the children share the parent's start corner as the source lays them out; for non-negative extents, the right and bottom halves are the larger by at most one |
| Geometry.DivideTiles | quadTreeService/quadTreeStore.go:54-87 | the quadrants tile the parent, for every integer box: a location in the parent lies in exactly one quadrant, and a location outside the parent in none |
| Geometry.QuadrantsInsideAndDisjoint | quadTreeService/quadTreeStore.go:54-87 | each quadrant lies inside the parent, and no location lies in two quadrants |
| Geometry.IsLocationInsideRadius | quadTreeService/quadTreeStore.go:171-203 | some corner of the box is within the radius of the user, measured by `dist(corner, user)`; each corner is built with the box's latitude coordinate in the `Longitude` field and its longitude coordinate in the `Latitude` field, as the source does; corners are tried in the source's order |
| Geometry.InSearchScope | quadTreeService/quadTreeStore.go:209-215 | the pruning test: a swapped corner is within the radius, or the user's location lies in the box |
| Geometry.SearchScopeMonotone | quadTreeService/quadTreeStore.go:209-215 | the pruning test (a swapped corner within the radius, or the user inside the box) only widens as the radius grows |
| QuadTreeSpec.CanDescend | quadTreeService/quadTreeStore.go:89-94 | the descent guard on the value model: the child is split and its top-left child's box holds the record's location |
| QuadTreeSpec.FreshLeaves | quadTreeService/quadTreeStore.go:63-86 | divideIntoFourBoxes attaches four empty leaves whose boxes are the given quadrants |
| QuadTreeSpec.Insert | quadTreeService/quadTreeStore.go:96-134 | InsertNewNode as a value; a finished insert never changes the node's box |
| QuadTreeSpec.Descend | quadTreeService/quadTreeStore.go:103-104 | one guarded call of an internal node; the child keeps its box |
| QuadTreeSpec.Redistribute | quadTreeService/quadTreeStore.go:126-131 | the split loop over the records; the four children keep their boxes |
| QuadTreeSpec.InsertAll | quadTreeService/quadTreeStore.go:136-143 | records inserted one after another at the root keep the root's box |
| QuadTreeSpec.LeafHits | quadTreeService/quadTreeStore.go:222-229 | a leaf's contribution: its records whose distance to the user is within the radius, in list order, each with `dist` set to that distance |
| QuadTreeSpec.Query | quadTreeService/quadTreeStore.go:217-256 | the answer for a node: a leaf that passes the pruning test gives its leaf hits; a split node concatenates the answers of its children in source order |
| QuadTreeSpec.Probe | quadTreeService/quadTreeStore.go:233-236 | one child of a split node: its answer when it passes the pruning test, nothing otherwise |
| InsertProperties.InsertOutsideBoxIsNoOp | quadTreeService/quadTreeStore.go:96-99 | a location outside the node's box leaves the subtree unchanged |
| InsertProperties.InsertIntoRoomyLeaf | quadTreeService/quadTreeStore.go:118-121 | a leaf below capacity appends the record at the end of its list |
| InsertProperties.InsertBelowLeafChildrenIsDropped | quadTreeService/quadTreeStore.go:89-115 | an internal node whose four children are leaves drops the record: the tree is unchanged |
| InsertProperties.InsertIntoSplitNode | quadTreeService/quadTreeStore.go:102-115 | one level down: an internal node stays split over the same box, and each child becomes its guarded call's result (which, by `SplitInsertIsNoOp`, is the child itself) |
| InsertProperties.SplitInsertIsNoOp | quadTreeService/quadTreeStore.go:89-115 | an insert that reaches any split node leaves the whole tree below it unchanged: no child ever gains the record, because the guard admits only split children and so never reaches a leaf |
| InsertProperties.SplitInsertFinishes | quadTreeService/quadTreeStore.go:89-115 | an insert into a split node always returns, within a call depth one more than the node's height, and returns the node unchanged |
| InsertProperties.DescendFinishes | quadTreeService/quadTreeStore.go:103-104 | the guarded call on a child returns the child unchanged, given a call depth above the child's height |
| InsertProperties.InsertAllIntoSplitIsNoOp | quadTreeService/quadTreeStore.go:136-143 | loading any list of records into a tree whose root has split returns (given a call depth above the root's height) and leaves the tree unchanged |
| InsertProperties.RedistributeIsPerChild | quadTreeService/quadTreeStore.go:126-131 | the split loop hands each child every record, in list order, as if the records were inserted into that child alone |
| InsertProperties.InsertIntoFullLeaf | quadTreeService/quadTreeStore.go:123-133 | a full leaf becomes a split node over the same box whose children carry the quadrants; each child is the result of inserting the old records and then the new one into an empty leaf |
| InsertProperties.InsertFuelMonotone | quadTreeService/quadTreeStore.go:96-134 | a finished insert gives the same tree under any larger depth bound, so `Some` is the source's one result |
| InsertProperties.DescendFuelMonotone | quadTreeService/quadTreeStore.go:103-104 | the same, for one guarded call |
| InsertProperties.RedistributeFuelMonotone | quadTreeService/quadTreeStore.go:126-131 | the same, for the split loop |
| InsertProperties.AppendKeepsLeafWellFormed | quadTreeService/quadTreeStore.go:119-121 | appending to a leaf with room a record inside its box keeps the leaf within capacity and every record inside the box |
| InsertProperties.InsertPreservesWellFormed | quadTreeService/quadTreeStore.go:96-134 | insert keeps the tree invariant: split nodes carry their quadrants, and every leaf holds at most the capacity, all inside its box |
| InsertProperties.SplitInsertPreservesWellFormed | quadTreeService/quadTreeStore.go:102-115 | the internal-node case of the invariant |
| InsertProperties.FullLeafInsertPreservesWellFormed | quadTreeService/quadTreeStore.go:123-133 | the full-leaf case of the invariant |
| InsertProperties.DescendPreservesWellFormed | quadTreeService/quadTreeStore.go:103-104 | one guarded call keeps the child well formed |
| InsertProperties.RedistributePreservesWellFormed | quadTreeService/quadTreeStore.go:126-131 | the split loop keeps all four children well formed |
| InsertProperties.InsertAllPreservesWellFormed | quadTreeService/quadTreeStore.go:136-143 | loading several records keeps the tree invariant |
| InsertConservation.LeafInsertAddsRecord | quadTreeService/quadTreeStore.go:118-133 | inserting a record into a leaf whose box holds it stores exactly the old records plus the new one (as multisets), and a full leaf becomes a split node |
| InsertConservation.ChildInsertKeepsRoom | quadTreeService/quadTreeStore.go:127-130 | during the split loop a child gains the record iff the record lies in the child's box, and keeps room for the records still to come |
| InsertConservation.HandOutOne | quadTreeService/quadTreeStore.go:126-131 | one pass of the split loop: each child gains the record iff it lies in its box, and the rest of the loop continues from the new children |
| InsertConservation.HandOutFirst | quadTreeService/quadTreeStore.go:126-131 | one pass of the split loop moves the first record from the list into exactly one child: children plus remaining list keep the same multiset |
| InsertConservation.RedistributeKeepsEveryRecord | quadTreeService/quadTreeStore.go:124-133 | the split loop stores every record it hands out exactly once: the children end with their old records plus the list, as multisets |
| InsertConservation.InsertKeepsEveryRecord | quadTreeService/quadTreeStore.go:96-134 | no insert loses a stored record, and the only record it may add is the new one, at most once |
| InsertConservation.SplitInsertKeepsEveryRecord | quadTreeService/quadTreeStore.go:102-115 | the internal-node case, from the tiling alone: no child loses a record and the total gains the record at most once (`SplitInsertIsNoOp` shows that in fact no child gains it) |
| InsertConservation.DescendKeepsEveryRecord | quadTreeService/quadTreeStore.go:103-104 | a guarded call keeps the child's records, and can add the record only when it lies in the child's box (in fact it adds nothing: `SplitInsertIsNoOp`) |
| Divergence.UnitBoxQuadrants | quadTreeService/quadTreeStore.go:54-87 | splitting a 1×1 box gives three boxes that hold nothing and a bottom-right box equal to the parent |
| Divergence.FullUnitLeafDiverges | quadTreeService/quadTreeStore.go:123-133 | inserting into a full 1×1 leaf a record inside it never returns: `None` for every fuel |
| Divergence.UnitLeafFillsUp | quadTreeService/quadTreeStore.go:126-131 | the split loop of a 1×1 box never finishes once the records still to come would overfill the bottom-right child |
| Divergence.NonPositiveCapacityDiverges | quadTreeService/quadTreeStore.go:119-133 | with a capacity of zero or less, inserting into any leaf a record inside its box never returns |
| Divergence.EveryLeafSplits | quadTreeService/quadTreeStore.go:126-131 | with a capacity of zero or less the split loop never finishes once some record lands in a quadrant |
| QueryProperties.LeafHitsSound | quadTreeService/quadTreeStore.go:222-229 | every record a leaf reports is one of its records, within the radius, with its distance set |
| QueryProperties.LeafHitsComplete | quadTreeService/quadTreeStore.go:222-229 | a leaf that is searched reports each of its records that lies within the radius |
| QueryProperties.LeafHitsMonotone | quadTreeService/quadTreeStore.go:222-229 | a larger radius makes a leaf report at least the same records, as a multiset |
| QueryProperties.QuerySound | quadTreeService/quadTreeStore.go:217-256 | every reported record is a stored record within the radius, with its distance to the user filled in |
| QueryProperties.QueryMonotone | quadTreeService/quadTreeStore.go:217-256 | the answer for a radius is a sub-multiset of the answer for any larger radius |
| QueryProperties.ProbeMonotone | quadTreeService/quadTreeStore.go:209-215 | the same, for one pruned child |
| QueryProperties.QueryFindsUsersLeaf | quadTreeService/quadTreeStore.go:217-256 | on a well-formed tree holding the user's location, every record of the user's leaf within the radius is reported, whatever the corner test says |
| QueryProperties.StoredRecordIsInItsLeaf | quadTreeService/quadTreeStore.go:96-134 | in a well-formed tree each stored record lies in the root box and sits in the leaf at its own location |
| QueryProperties.StoredRecordIsFound | quadTreeService/quadTreeStore.go:217-256 | a query at a stored record's location reports that record when its distance to itself is within the radius |
| QueryProperties.InsertThenQueryFinds | quadTreeService/quadTreeStore.go:118-133 | after a record is inserted into a leaf whose box holds it, a query at its location reports it |
| QuadTreeStore.NodeShape | quadTreeService/quadTreeStore.go:89-94 | on a valid node, `canNewNodeBeInserted` holds iff the child is split and its top-left box holds the location, and `isThisNodeChild` holds iff the node is a leaf |
| QuadTreeStore.IsThisNodeChild | quadTreeService/quadTreeStore.go:205-207 | all four child links are nil |
| QuadTreeStore.CanNewNodeBeInserted | quadTreeService/quadTreeStore.go:89-94 | the node's top-left child exists and its box holds the record's location |
| QuadTreeStore.IsUserLocationInsideThisNodeRadius | quadTreeService/quadTreeStore.go:209-215 | the child exists and passes the pruning test; a nil child is never searched |
| QuadTreeStore.ToBusinessSearch | quadTreeService/quadTreeStore.go:138-140 | the record built for a database row has the row's ID and location and distance 0 |
| QuadTreeStore.ToBusinessSearches | quadTreeService/quadTreeStore.go:136-143 | one record per row, in row order |
| QuadTreeStore.Node.constructor | quadTreeService/quadTreeStore.go:63-68 | a new node is a leaf with the given box and no records |
| QuadTreeStore.QuadTree.NewQuadTree | quadTreeService/quadTreeStore.go:32-42 | the root is an empty leaf with the given box, and the capacity is stored; with a non-negative capacity the tree satisfies the tree invariant |
| QuadTreeStore.QuadTree.DivideIntoFourBoxes | quadTreeService/quadTreeStore.go:54-87 | attaches four new, distinct, empty leaves carrying the quadrants of the node's box; the list is untouched |
| QuadTreeStore.QuadTree.InsertNewNode | quadTreeService/quadTreeStore.go:96-134 | the node stays valid and its new model is `Insert` of the old one: every branch of the source, in place; the tree invariant is preserved |
| QuadTreeStore.QuadTree.InsertBelow | quadTreeService/quadTreeStore.go:102-115 | the four guarded calls of an internal node, in order, each child becoming its `Descend` |
| QuadTreeStore.QuadTree.OfferToChild | quadTreeService/quadTreeStore.go:103-104 | one guarded call: the child becomes its `Descend`, and its siblings and the parent are unchanged |
| QuadTreeStore.QuadTree.InsertIntoChild | quadTreeService/quadTreeStore.go:127 | one unguarded call of the split loop: the child becomes its `Insert`, and its siblings and the parent are unchanged |
| QuadTreeStore.QuadTree.InsertIntoEachChild | quadTreeService/quadTreeStore.go:127-130 | one pass of the split loop: each of the four children receives the record, in order |
| QuadTreeStore.QuadTree.InsertIntoChildren | quadTreeService/quadTreeStore.go:126-131 | the split loop: the four children end as `Redistribute` of their old values |
| QuadTreeStore.QuadTree.SplitLeaf | quadTreeService/quadTreeStore.go:123-133 | the full-leaf branch: the node becomes a split node whose children are the records (old and new) handed out to fresh quadrant leaves, and its list is cleared |
| QuadTreeStore.QuadTree.UpdateQuadTree | quadTreeService/quadTreeStore.go:136-143 | the root becomes `InsertAll` of the records built from the rows, in row order; once the root has split, the tree is unchanged; the tree invariant is preserved |
| QuadTreeStore.QuadTree.GetNearbyEntitiesFromQuadTree | quadTreeService/quadTreeStore.go:217-256 | the response is `Query` of the node's model: leaf hits in list order, then the answers of the children that pass the pruning test, in child order, with nil children skipped; the tree is not modified |
| QuadTreeStore.QuadTree.GetNearbyEntities | quadTreeService/quadTreeStore.go:258-261 | the query from the root with the request's location and radius |

## Left out

- `haversine` and `getDistance` (quadTreeService/quadTreeStore.go:145-169): the distance is a function parameter `dist`/`getDistance`, because trigonometry over floating point is outside the model. Every property holds for any distance function.
- `float64` arithmetic: coordinates, radii and distances are exact reals, and the `float64(int)` conversions are exact. Rounding is not modelled.
- Go `int` overflow: box fields are unbounded integers, so `startLatitude + width` and similar sums never wrap.
- The database layer, the HTTP API, the service wiring and `main` (database/db.go, api/api.go, base/, cmd/main.go) are not part of this model. This includes the update path's call to `DeleteFromQuadTree`, a function that is not part of this model.
- Concurrency: calls from concurrent HTTP handlers are not modelled. Every operation runs alone.
- QuadTreeStore.QuadTree.InsertNewNode: the method takes a ghost `fuel` and requires the insert to finish within that depth. So it is proved only for calls that return. The diverging calls are characterised on the value model instead (`Divergence`).
- QuadTreeStore.QuadTree.UpdateQuadTree: same `fuel` requirement as `InsertNewNode`.
- QuadTreeStore.QuadTree.GetNearbyEntitiesFromQuadTree: returns a new sequence where Go appends to a slice, so slice aliasing is not modelled.
- QuadTreeStore.QuadTree.InsertBelow, OfferToChild, InsertIntoChild, InsertIntoEachChild, InsertIntoChildren and SplitLeaf are pieces of the body of `InsertNewNode`, split out so that each proof stays small. Their statements run in the source's order.
- The result ordering by distance and the lookup of full records by ID happen in the service layer, outside the index, and are not modelled.
