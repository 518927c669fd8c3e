/**
 * The quadtree of quadTreeService/quadTreeStore.go as a value, and what its
 * operations compute. The heap-linked `Node` objects of QuadTreeStore are
 * proved to hold exactly these values.
 *
 * A node is either a leaf (all four child links nil) holding a list of
 * records, or a split node holding four children and an empty list; no other
 * shape can arise, so the datatype has just these two cases.
 *
 * The source's insert need not terminate (a full 1x1 leaf splits into a
 * bottom-right child equal to itself). `Insert` therefore takes `fuel`, a
 * bound on the depth of nested InsertNewNode calls: `Some(t')` means that
 * the call finishes within that depth and leaves the tree `t'`; `None` means
 * the depth would be exceeded. `None` for every fuel means the call diverges.
 */
module QuadTreeSpec {
  import opened Wrappers
  import opened Models
  import opened Geometry

  datatype Tree =
    | Leaf(box: Box, entries: seq<BusinessSearch>)
    | Split(box: Box, kids: Quad<Tree>)

  /** The boxes of four trees. */
  function Boxes(kids: Quad<Tree>): Quad<Box> {
    Quad(kids.topLeft.box, kids.topRight.box, kids.bottomLeft.box, kids.bottomRight.box)
  }

  /** Four new, empty leaves: what divideIntoFourBoxes attaches to a node. */
  function FreshLeaves(q: Quad<Box>): (kids: Quad<Tree>)
    ensures Boxes(kids) == q
  {
    Quad(Leaf(q.topLeft, []), Leaf(q.topRight, []), Leaf(q.bottomLeft, []), Leaf(q.bottomRight, []))
  }

  /** canNewNodeBeInserted: the source descends into a child only when the child is
      itself split AND the child's top-left quadrant contains the location. */
  predicate CanDescend(child: Tree, e: BusinessSearch) {
    child.Split? && IsLocationWithinBoundingBox(e.location, child.kids.topLeft.box)
  }

  /** InsertNewNode(e, t), with its call depth bounded by `fuel`. */
  function Insert(t: Tree, e: BusinessSearch, maxSize: int, fuel: nat): (r: Option<Tree>)
    ensures r.Some? ==> r.value.box == t.box
    decreases fuel, 0, 0
  {
    if fuel == 0 then None
    else if !IsLocationWithinBoundingBox(e.location, t.box) then Some(t)
    else match t
      case Split(box, kids) =>
        var topLeft :- Descend(kids.topLeft, e, maxSize, fuel - 1);
        var topRight :- Descend(kids.topRight, e, maxSize, fuel - 1);
        var bottomLeft :- Descend(kids.bottomLeft, e, maxSize, fuel - 1);
        var bottomRight :- Descend(kids.bottomRight, e, maxSize, fuel - 1);
        Some(Split(box, Quad(topLeft, topRight, bottomLeft, bottomRight)))
      case Leaf(box, entries) =>
        if |entries| < maxSize then
          Some(Leaf(box, entries + [e]))
        else
          var kids :- Redistribute(FreshLeaves(Quadrants(box)), entries + [e], maxSize, fuel - 1);
          Some(Split(box, kids))
  }

  /** One of the four guarded calls an internal node makes. */
  function Descend(child: Tree, e: BusinessSearch, maxSize: int, fuel: nat): (r: Option<Tree>)
    ensures r.Some? ==> r.value.box == child.box
    decreases fuel, 1, 0
  {
    if CanDescend(child, e) then Insert(child, e, maxSize, fuel) else Some(child)
  }

  /** The loop of a split: each item, in order, is inserted into the top-left,
      top-right, bottom-left and bottom-right child. */
  function Redistribute(kids: Quad<Tree>, items: seq<BusinessSearch>, maxSize: int, fuel: nat)
    : (r: Option<Quad<Tree>>)
    ensures r.Some? ==> Boxes(r.value) == Boxes(kids)
    decreases fuel, 1, |items|
  {
    if items == [] then Some(kids)
    else
      var e := items[0];
      var topLeft :- Insert(kids.topLeft, e, maxSize, fuel);
      var topRight :- Insert(kids.topRight, e, maxSize, fuel);
      var bottomLeft :- Insert(kids.bottomLeft, e, maxSize, fuel);
      var bottomRight :- Insert(kids.bottomRight, e, maxSize, fuel);
      Redistribute(Quad(topLeft, topRight, bottomLeft, bottomRight), items[1..], maxSize, fuel)
  }

  /** Inserting several records one after the other: UpdateQuadTree at the root, and
      also what one child of a split receives. */
  function InsertAll(t: Tree, items: seq<BusinessSearch>, maxSize: int, fuel: nat): (r: Option<Tree>)
    ensures r.Some? ==> r.value.box == t.box
    decreases |items|
  {
    if items == [] then Some(t)
    else
      var t' :- Insert(t, items[0], maxSize, fuel);
      InsertAll(t', items[1..], maxSize, fuel)
  }

  /** The number of split levels above the deepest leaf. */
  function Height(t: Tree): nat {
    match t
    case Leaf(_, _) => 0
    case Split(_, kids) =>
      var a := Height(kids.topLeft);
      var b := Height(kids.topRight);
      var c := Height(kids.bottomLeft);
      var d := Height(kids.bottomRight);
      var ab := if a < b then b else a;
      var cd := if c < d then d else c;
      1 + (if ab < cd then cd else ab)
  }

  /** Every record held by the tree, leaf by leaf, children in source order. */
  function Entries(t: Tree): seq<BusinessSearch> {
    match t
    case Leaf(_, entries) => entries
    case Split(_, kids) =>
      Entries(kids.topLeft) + Entries(kids.topRight) + Entries(kids.bottomLeft) + Entries(kids.bottomRight)
  }

  /** The tree invariant: every split node's children carry the four quadrants of its
      box, and every leaf holds at most `maxSize` records, all inside its box. */
  ghost predicate WellFormed(t: Tree, maxSize: int) {
    match t
    case Leaf(box, entries) =>
      && |entries| <= maxSize
      && forall i :: 0 <= i < |entries| ==> IsLocationWithinBoundingBox(entries[i].location, box)
    case Split(box, kids) =>
      && Boxes(kids) == Quadrants(box)
      && WellFormed(kids.topLeft, maxSize)
      && WellFormed(kids.topRight, maxSize)
      && WellFormed(kids.bottomLeft, maxSize)
      && WellFormed(kids.bottomRight, maxSize)
  }

  /** The query result a leaf contributes: each record whose distance to the user is
      within the radius, in list order, with its `dist` set to that distance. */
  function LeafHits(entries: seq<BusinessSearch>, userLocation: Location, radius: real,
                    dist: (Location, Location) -> real): seq<BusinessSearch>
  {
    if entries == [] then []
    else
      var last := entries[|entries| - 1];
      var d := dist(last.location, userLocation);
      LeafHits(entries[..|entries| - 1], userLocation, radius, dist)
        + (if d <= radius then [last.(dist := d)] else [])
  }

  /** GetNearbyEntitiesFromQuadTree: a leaf answers only when it passes the pruning test;
      a split node concatenates the answers of the children that pass it. */
  function Query(t: Tree, userLocation: Location, radius: real,
                 dist: (Location, Location) -> real): seq<BusinessSearch>
    decreases t, 0
  {
    match t
    case Leaf(box, entries) =>
      if InSearchScope(box, userLocation, radius, dist)
      then LeafHits(entries, userLocation, radius, dist)
      else []
    case Split(_, kids) =>
      Probe(kids.topLeft, userLocation, radius, dist)
        + Probe(kids.topRight, userLocation, radius, dist)
        + Probe(kids.bottomLeft, userLocation, radius, dist)
        + Probe(kids.bottomRight, userLocation, radius, dist)
  }

  /** isUserLocationInsideThisNodeRadius followed by the recursive call. */
  function Probe(child: Tree, userLocation: Location, radius: real,
                 dist: (Location, Location) -> real): seq<BusinessSearch>
    decreases child, 1
  {
    if InSearchScope(child.box, userLocation, radius, dist)
    then Query(child, userLocation, radius, dist)
    else []
  }

  /** What a query reports for a stored record `y`: `y` with its distance filled in,
      provided that distance is within the radius. */
  predicate IsHitOf(x: BusinessSearch, y: BusinessSearch, userLocation: Location, radius: real,
                    dist: (Location, Location) -> real)
  {
    dist(y.location, userLocation) <= radius && x == y.(dist := dist(y.location, userLocation))
  }
}
