/**
 * What GetNearbyEntitiesFromQuadTree (quadTreeService/quadTreeStore.go)
 * reports: only stored records within the radius, with their distance filled
 * in; always the records that share the user's leaf; more as the radius
 * grows; and, after an insert into a leaf, the inserted record itself.
 */
module QueryProperties {
  import opened Wrappers
  import opened Models
  import opened Geometry
  import opened QuadTreeSpec
  import opened InsertProperties
  import opened InsertConservation

  /** Every record a leaf reports is one of its records, within the radius. */
  lemma {:induction false} LeafHitsSound(entries: seq<BusinessSearch>, userLocation: Location, radius: real,
                                         dist: (Location, Location) -> real, x: BusinessSearch)
    requires x in LeafHits(entries, userLocation, radius, dist)
    ensures exists y :: y in entries && IsHitOf(x, y, userLocation, radius, dist)
    decreases |entries|
  {
    var init, last := entries[..|entries| - 1], entries[|entries| - 1];
    if x in LeafHits(init, userLocation, radius, dist) {
      LeafHitsSound(init, userLocation, radius, dist, x);
      var y :| y in init && IsHitOf(x, y, userLocation, radius, dist);
      assert y in entries;
    } else {
      assert IsHitOf(x, last, userLocation, radius, dist);
    }
  }

  /** A leaf reports each of its records that lies within the radius. */
  lemma {:induction false} LeafHitsComplete(entries: seq<BusinessSearch>, userLocation: Location, radius: real,
                                            dist: (Location, Location) -> real, y: BusinessSearch)
    requires y in entries && dist(y.location, userLocation) <= radius
    ensures y.(dist := dist(y.location, userLocation)) in LeafHits(entries, userLocation, radius, dist)
    decreases |entries|
  {
    var init, last := entries[..|entries| - 1], entries[|entries| - 1];
    assert entries == init + [last];
    if y != last {
      LeafHitsComplete(init, userLocation, radius, dist, y);
    }
  }

  /** A larger radius reports at least the same records. */
  lemma {:induction false} LeafHitsMonotone(entries: seq<BusinessSearch>, userLocation: Location,
                                            r1: real, r2: real, dist: (Location, Location) -> real)
    requires r1 <= r2
    ensures multiset(LeafHits(entries, userLocation, r1, dist)) <= multiset(LeafHits(entries, userLocation, r2, dist))
    decreases |entries|
  {
    if entries != [] {
      LeafHitsMonotone(entries[..|entries| - 1], userLocation, r1, r2, dist);
    }
  }

  /** Every record the query reports is a record stored in the tree, with its distance
      to the user filled in, and that distance is within the radius. */
  lemma {:induction false} QuerySound(t: Tree, userLocation: Location, radius: real,
                                      dist: (Location, Location) -> real, x: BusinessSearch)
    requires x in Query(t, userLocation, radius, dist)
    ensures exists y :: y in Entries(t) && IsHitOf(x, y, userLocation, radius, dist)
    decreases t
  {
    match t
    case Leaf(_, entries) =>
      LeafHitsSound(entries, userLocation, radius, dist, x);
    case Split(_, kids) =>
      var kid :=
        if x in Probe(kids.topLeft, userLocation, radius, dist) then kids.topLeft
        else if x in Probe(kids.topRight, userLocation, radius, dist) then kids.topRight
        else if x in Probe(kids.bottomLeft, userLocation, radius, dist) then kids.bottomLeft
        else kids.bottomRight;
      assert x in Query(kid, userLocation, radius, dist);
      QuerySound(kid, userLocation, radius, dist, x);
      var y :| y in Entries(kid) && IsHitOf(x, y, userLocation, radius, dist);
      assert y in Entries(t);
  }

  /** A larger radius reports at least the same records. */
  lemma {:induction false} QueryMonotone(t: Tree, userLocation: Location, r1: real, r2: real,
                                         dist: (Location, Location) -> real)
    requires r1 <= r2
    ensures multiset(Query(t, userLocation, r1, dist)) <= multiset(Query(t, userLocation, r2, dist))
    decreases t, 0
  {
    match t
    case Leaf(box, entries) =>
      SearchScopeMonotone(box, userLocation, r1, r2, dist);
      LeafHitsMonotone(entries, userLocation, r1, r2, dist);
    case Split(_, kids) =>
      ProbeMonotone(kids.topLeft, userLocation, r1, r2, dist);
      ProbeMonotone(kids.topRight, userLocation, r1, r2, dist);
      ProbeMonotone(kids.bottomLeft, userLocation, r1, r2, dist);
      ProbeMonotone(kids.bottomRight, userLocation, r1, r2, dist);
  }

  lemma {:induction false} ProbeMonotone(child: Tree, userLocation: Location, r1: real, r2: real,
                                         dist: (Location, Location) -> real)
    requires r1 <= r2
    ensures multiset(Probe(child, userLocation, r1, dist)) <= multiset(Probe(child, userLocation, r2, dist))
    decreases child, 1
  {
    SearchScopeMonotone(child.box, userLocation, r1, r2, dist);
    if InSearchScope(child.box, userLocation, r1, dist) {
      QueryMonotone(child, userLocation, r1, r2, dist);
    }
  }

  /** The records of the leaf whose box holds `location`, found by following, at each
      split node, the first child whose box holds it. */
  function LeafAt(t: Tree, location: Location): seq<BusinessSearch> {
    match t
    case Leaf(_, entries) => entries
    case Split(_, kids) =>
      if IsLocationWithinBoundingBox(location, kids.topLeft.box) then LeafAt(kids.topLeft, location)
      else if IsLocationWithinBoundingBox(location, kids.topRight.box) then LeafAt(kids.topRight, location)
      else if IsLocationWithinBoundingBox(location, kids.bottomLeft.box) then LeafAt(kids.bottomLeft, location)
      else LeafAt(kids.bottomRight, location)
  }

  /** The query always reports the records that share the user's leaf and lie within the
      radius: every node on the way down holds the user's location, so it passes the
      pruning test whatever its corners. */
  lemma {:induction false} QueryFindsUsersLeaf(t: Tree, maxSize: int, userLocation: Location, radius: real,
                                               dist: (Location, Location) -> real, y: BusinessSearch)
    requires WellFormed(t, maxSize) && IsLocationWithinBoundingBox(userLocation, t.box)
    requires y in LeafAt(t, userLocation) && dist(y.location, userLocation) <= radius
    ensures y.(dist := dist(y.location, userLocation)) in Query(t, userLocation, radius, dist)
    decreases t
  {
    match t
    case Leaf(_, entries) =>
      LeafHitsComplete(entries, userLocation, radius, dist, y);
    case Split(box, kids) =>
      DivideTiles(box, userLocation);
      var kid :=
        if IsLocationWithinBoundingBox(userLocation, kids.topLeft.box) then kids.topLeft
        else if IsLocationWithinBoundingBox(userLocation, kids.topRight.box) then kids.topRight
        else if IsLocationWithinBoundingBox(userLocation, kids.bottomLeft.box) then kids.bottomLeft
        else kids.bottomRight;
      QueryFindsUsersLeaf(kid, maxSize, userLocation, radius, dist, y);
      assert y.(dist := dist(y.location, userLocation)) in Probe(kid, userLocation, radius, dist);
  }

  /** In a well-formed tree every stored record sits in the leaf at its own location. */
  lemma {:induction false} StoredRecordIsInItsLeaf(t: Tree, maxSize: int, y: BusinessSearch)
    requires WellFormed(t, maxSize) && y in Entries(t)
    ensures IsLocationWithinBoundingBox(y.location, t.box) && y in LeafAt(t, y.location)
    decreases t
  {
    match t
    case Leaf(box, entries) =>
      var i :| 0 <= i < |entries| && entries[i] == y;
    case Split(box, kids) =>
      var kid :=
        if y in Entries(kids.topLeft) then kids.topLeft
        else if y in Entries(kids.topRight) then kids.topRight
        else if y in Entries(kids.bottomLeft) then kids.bottomLeft
        else kids.bottomRight;
      StoredRecordIsInItsLeaf(kid, maxSize, y);
      QuadrantsInsideAndDisjoint(box, y.location);
  }

  /** Locate, then search: a query at a stored record's own location reports that record
      whenever its distance to itself is within the radius. */
  lemma StoredRecordIsFound(t: Tree, maxSize: int, y: BusinessSearch, radius: real,
                            dist: (Location, Location) -> real)
    requires WellFormed(t, maxSize) && y in Entries(t) && dist(y.location, y.location) <= radius
    ensures y.(dist := dist(y.location, y.location)) in Query(t, y.location, radius, dist)
  {
    StoredRecordIsInItsLeaf(t, maxSize, y);
    QueryFindsUsersLeaf(t, maxSize, y.location, radius, dist, y);
  }

  /** Insert, then search: after a record is inserted into a leaf whose box holds it, a
      query at the record's location reports it. */
  lemma InsertThenQueryFinds(box: Box, entries: seq<BusinessSearch>, e: BusinessSearch, maxSize: int, fuel: nat,
                             radius: real, dist: (Location, Location) -> real)
    requires WellFormed(Leaf(box, entries), maxSize) && IsLocationWithinBoundingBox(e.location, box)
    requires Insert(Leaf(box, entries), e, maxSize, fuel).Some?
    requires dist(e.location, e.location) <= radius
    ensures e.(dist := dist(e.location, e.location))
            in Query(Insert(Leaf(box, entries), e, maxSize, fuel).value, e.location, radius, dist)
  {
    var t' := Insert(Leaf(box, entries), e, maxSize, fuel).value;
    LeafInsertAddsRecord(box, entries, e, maxSize, fuel);
    assert e in multiset(Entries(t'));
    InsertPreservesWellFormed(Leaf(box, entries), e, maxSize, fuel);
    StoredRecordIsFound(t', maxSize, e, radius, dist);
  }
}
