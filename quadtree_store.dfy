/**
 * The heap-linked quadtree of quadTreeService/quadTreeStore.go.
 */
module QuadTreeStore {
  import opened Wrappers
  import opened Models
  import opened Geometry
  import opened QuadTreeSpec
  import opened InsertProperties

  class Node {
    const startLatitude: int
    const startLongitude: int
    const width: int
    const height: int

    var listOfBusinesses: seq<BusinessSearch>

    var topLeftChild: Node?
    var topRightChild: Node?
    var bottomLeftChild: Node?
    var bottomRightChild: Node?

    ghost var Repr: set<Node>
    ghost var Model: Tree

    /** The node's box. */
    function Bounds(): Box {
      Box(startLatitude, startLongitude, width, height)
    }

    ghost predicate Valid()
      reads this, Repr
      ensures Valid() ==> this in Repr && Model.box == Bounds()
      decreases Repr, 1
    {
      && this in Repr
      && if topLeftChild == null && topRightChild == null && bottomLeftChild == null && bottomRightChild == null
         then Model == Leaf(Bounds(), listOfBusinesses)
         else
           && topLeftChild != null && topRightChild != null
           && bottomLeftChild != null && bottomRightChild != null
           && listOfBusinesses == []
           && topLeftChild in Repr && topLeftChild.Repr <= Repr
           && topRightChild in Repr && topRightChild.Repr <= Repr
           && bottomLeftChild in Repr && bottomLeftChild.Repr <= Repr
           && bottomRightChild in Repr && bottomRightChild.Repr <= Repr
           && Siblings(this, topLeftChild, topRightChild, bottomLeftChild, bottomRightChild)
           && Model == Split(Bounds(), Quad(topLeftChild.Model, topRightChild.Model,
                                            bottomLeftChild.Model, bottomRightChild.Model))
    }

    /** A new leaf with the given box and no records. */
    constructor (startLatitude: int, startLongitude: int, width: int, height: int)
      ensures Repr == {this} && Model == Leaf(Box(startLatitude, startLongitude, width, height), [])
      ensures Bounds() == Box(startLatitude, startLongitude, width, height)
      ensures EmptyLeaf(this, Bounds())
    {
      this.startLatitude := startLatitude;
      this.startLongitude := startLongitude;
      this.width := width;
      this.height := height;
      listOfBusinesses := [];
      topLeftChild, topRightChild, bottomLeftChild, bottomRightChild := null, null, null, null;
      Repr := {this};
      Model := Leaf(Box(startLatitude, startLongitude, width, height), []);
    }
  }

  /** The four children of a split node: each valid, their objects pairwise disjoint
      and not containing `parent`. */
  ghost predicate Siblings(parent: Node, a: Node, b: Node, c: Node, d: Node)
    reads a, b, c, d, a.Repr, b.Repr, c.Repr, d.Repr
    decreases {parent} + a.Repr + b.Repr + c.Repr + d.Repr, 0
  {
    && parent !in a.Repr && parent !in b.Repr && parent !in c.Repr && parent !in d.Repr
    && a.Repr !! b.Repr && a.Repr !! c.Repr && a.Repr !! d.Repr
    && b.Repr !! c.Repr && b.Repr !! d.Repr && c.Repr !! d.Repr
    && a.Valid() && b.Valid() && c.Valid() && d.Valid()
  }

  /** A node just made by divideIntoFourBoxes: a leaf with the given box and no records. */
  ghost predicate EmptyLeaf(n: Node, box: Box)
    reads n
  {
    && n.Bounds() == box && n.Repr == {n} && n.Model == Leaf(box, []) && n.listOfBusinesses == []
    && n.topLeftChild == null && n.topRightChild == null
    && n.bottomLeftChild == null && n.bottomRightChild == null
  }

  /** isThisNodeChild: all four child links are nil, i.e. the node is a leaf. */
  predicate IsThisNodeChild(node: Node)
    reads node
  {
    node.topLeftChild == null && node.topRightChild == null
    && node.bottomLeftChild == null && node.bottomRightChild == null
  }

  /** canNewNodeBeInserted: the child's top-left child exists and contains the location. */
  predicate CanNewNodeBeInserted(business: BusinessSearch, quadTreeNodeChild: Node)
    reads quadTreeNodeChild
  {
    quadTreeNodeChild.topLeftChild != null
    && IsLocationWithinBoundingBox(business.location, quadTreeNodeChild.topLeftChild.Bounds())
  }

  /** isUserLocationInsideThisNodeRadius: a nil child is never searched. */
  predicate IsUserLocationInsideThisNodeRadius(quadTreeNodeChild: Node?, userLocation: Location,
                                               radius: real, getDistance: (Location, Location) -> real)
  {
    quadTreeNodeChild != null && InSearchScope(quadTreeNodeChild.Bounds(), userLocation, radius, getDistance)
  }

  /** On a valid node the nil tests of the source read the model's shape. */
  lemma NodeShape(node: Node, e: BusinessSearch)
    requires node.Valid()
    ensures IsThisNodeChild(node) <==> node.Model.Leaf?
    ensures CanNewNodeBeInserted(e, node) <==> CanDescend(node.Model, e)
  {
    if !IsThisNodeChild(node) {
      assert node.topLeftChild.Valid();
    }
  }

  /** Four distinct new leaves are valid siblings under any other node. */
  lemma EmptyLeavesAreSiblings(parent: Node, a: Node, b: Node, c: Node, d: Node, q: Quad<Box>)
    requires EmptyLeaf(a, q.topLeft) && EmptyLeaf(b, q.topRight)
    requires EmptyLeaf(c, q.bottomLeft) && EmptyLeaf(d, q.bottomRight)
    requires parent != a && parent != b && parent != c && parent != d
    requires a != b && a != c && a != d && b != c && b != d && c != d
    ensures Siblings(parent, a, b, c, d)
  {
  }

  /** Attaching four valid siblings to a node makes it a valid split node. */
  ghost method Attach(node: Node, a: Node, b: Node, c: Node, d: Node)
    requires node.topLeftChild == a && node.topRightChild == b
    requires node.bottomLeftChild == c && node.bottomRightChild == d
    requires node.listOfBusinesses == [] && Siblings(node, a, b, c, d)
    modifies node
    ensures node.Valid() && node.Repr == {node} + a.Repr + b.Repr + c.Repr + d.Repr
    ensures node.Model == Split(node.Bounds(), Quad(a.Model, b.Model, c.Model, d.Model))
  {
    node.Repr := {node} + a.Repr + b.Repr + c.Repr + d.Repr;
    node.Model := Split(node.Bounds(), Quad(a.Model, b.Model, c.Model, d.Model));
  }

  /** The record UpdateQuadTree builds for a database row: same ID and location, distance 0. */
  function ToBusinessSearch(business: Business): (r: BusinessSearch)
    ensures r.businessId == business.id && r.location == business.location && r.dist == 0.0
  {
    BusinessSearch(businessId := business.id, location := business.location, dist := 0.0)
  }

  /** The records UpdateQuadTree inserts, one per row and in row order. */
  function ToBusinessSearches(businesses: seq<Business>): (r: seq<BusinessSearch>)
    ensures |r| == |businesses|
    ensures forall i :: 0 <= i < |businesses| ==> r[i] == ToBusinessSearch(businesses[i])
  {
    if businesses == [] then []
    else [ToBusinessSearch(businesses[0])] + ToBusinessSearches(businesses[1..])
  }

  class QuadTree {
    const quadTreeNode: Node
    const maxSizeAllowedAtLeafNodes: int

    ghost predicate Valid()
      reads this, quadTreeNode, quadTreeNode.Repr
    {
      quadTreeNode.Valid()
    }

    /** NewQuadTree: a root leaf with the given box and no records. */
    constructor NewQuadTree(latitude: int, longitude: int, width: int, height: int, maxSize: int)
      ensures Valid() && fresh(quadTreeNode.Repr)
      ensures quadTreeNode.Model == Leaf(Box(latitude, longitude, width, height), [])
      ensures maxSizeAllowedAtLeafNodes == maxSize
      ensures maxSize >= 0 ==> WellFormed(quadTreeNode.Model, maxSize)
    {
      quadTreeNode := new Node(latitude, longitude, width, height);
      maxSizeAllowedAtLeafNodes := maxSize;
    }

    /** divideIntoFourBoxes: attaches four new empty leaves carrying the quadrants of
        the node's box; nothing else of the node changes. */
    method DivideIntoFourBoxes(quadTreeNode: Node)
      modifies quadTreeNode
      ensures quadTreeNode.listOfBusinesses == old(quadTreeNode.listOfBusinesses)
      ensures quadTreeNode.Repr == old(quadTreeNode.Repr) && quadTreeNode.Model == old(quadTreeNode.Model)
      ensures var q := Quadrants(quadTreeNode.Bounds());
        && quadTreeNode.topLeftChild != null && fresh(quadTreeNode.topLeftChild)
        && quadTreeNode.topRightChild != null && fresh(quadTreeNode.topRightChild)
        && quadTreeNode.bottomLeftChild != null && fresh(quadTreeNode.bottomLeftChild)
        && quadTreeNode.bottomRightChild != null && fresh(quadTreeNode.bottomRightChild)
        && quadTreeNode.topLeftChild != quadTreeNode.topRightChild
        && quadTreeNode.topLeftChild != quadTreeNode.bottomLeftChild
        && quadTreeNode.topLeftChild != quadTreeNode.bottomRightChild
        && quadTreeNode.topRightChild != quadTreeNode.bottomLeftChild
        && quadTreeNode.topRightChild != quadTreeNode.bottomRightChild
        && quadTreeNode.bottomLeftChild != quadTreeNode.bottomRightChild
        && EmptyLeaf(quadTreeNode.topLeftChild, q.topLeft)
        && EmptyLeaf(quadTreeNode.topRightChild, q.topRight)
        && EmptyLeaf(quadTreeNode.bottomLeftChild, q.bottomLeft)
        && EmptyLeaf(quadTreeNode.bottomRightChild, q.bottomRight)
    {
      var startLatitude := quadTreeNode.startLatitude;
      var startLongitude := quadTreeNode.startLongitude;

      var newHeight := Half(quadTreeNode.height);
      var newWidth := Half(quadTreeNode.width);

      quadTreeNode.topLeftChild := new Node(startLatitude, startLongitude, newWidth, newHeight);
      quadTreeNode.topRightChild := new Node(startLatitude + newWidth, startLongitude,
                                             quadTreeNode.width - newWidth, newHeight);
      quadTreeNode.bottomLeftChild := new Node(startLatitude, startLongitude - newHeight,
                                               newWidth, quadTreeNode.height - newHeight);
      quadTreeNode.bottomRightChild := new Node(startLatitude + newWidth, startLongitude - newHeight,
                                                quadTreeNode.width - newWidth, quadTreeNode.height - newHeight);
    }

    /** InsertNewNode. `fuel` is ghost: it bounds the depth of the recursion, and the
        caller must show that the source's call finishes within it. */
    method InsertNewNode(businessData: BusinessSearch, quadTreeNode: Node, ghost fuel: nat)
      requires quadTreeNode.Valid()
      requires Insert(quadTreeNode.Model, businessData, maxSizeAllowedAtLeafNodes, fuel).Some?
      modifies quadTreeNode.Repr
      ensures quadTreeNode.Valid() && fresh(quadTreeNode.Repr - old(quadTreeNode.Repr))
      ensures quadTreeNode.Model
           == Insert(old(quadTreeNode.Model), businessData, maxSizeAllowedAtLeafNodes, fuel).value
      ensures WellFormed(old(quadTreeNode.Model), maxSizeAllowedAtLeafNodes)
          ==> WellFormed(quadTreeNode.Model, maxSizeAllowedAtLeafNodes)
      decreases fuel, 2
    {
      if WellFormed(quadTreeNode.Model, maxSizeAllowedAtLeafNodes) {
        InsertPreservesWellFormed(quadTreeNode.Model, businessData, maxSizeAllowedAtLeafNodes, fuel);
      }
      if !IsLocationWithinBoundingBox(businessData.location, quadTreeNode.Bounds()) {
        return;
      }
      NodeShape(quadTreeNode, businessData);

      // Not a leaf: offer the record to the children whose top-left child contains it.
      if !IsThisNodeChild(quadTreeNode) {
        InsertIntoSplitNode(quadTreeNode.Model.box, quadTreeNode.Model.kids, businessData,
                            maxSizeAllowedAtLeafNodes, fuel);
        InsertBelow(businessData, quadTreeNode, fuel);
        return;
      }

      // A leaf with room.
      if |quadTreeNode.listOfBusinesses| < maxSizeAllowedAtLeafNodes {
        quadTreeNode.listOfBusinesses := quadTreeNode.listOfBusinesses + [businessData];
        quadTreeNode.Model := Leaf(quadTreeNode.Bounds(), quadTreeNode.listOfBusinesses);
        return;
      }

      // A full leaf: divide, hand every record (old and new) to the children, clear the list.
      SplitLeaf(businessData, quadTreeNode, fuel);
    }

    /** The internal-node branch of InsertNewNode: the four guarded calls, in order. */
    method InsertBelow(businessData: BusinessSearch, quadTreeNode: Node, ghost fuel: nat)
      requires quadTreeNode.Valid() && quadTreeNode.Model.Split? && fuel >= 1
      requires Descend(quadTreeNode.Model.kids.topLeft, businessData, maxSizeAllowedAtLeafNodes, fuel - 1).Some?
      requires Descend(quadTreeNode.Model.kids.topRight, businessData, maxSizeAllowedAtLeafNodes, fuel - 1).Some?
      requires Descend(quadTreeNode.Model.kids.bottomLeft, businessData, maxSizeAllowedAtLeafNodes, fuel - 1).Some?
      requires Descend(quadTreeNode.Model.kids.bottomRight, businessData, maxSizeAllowedAtLeafNodes, fuel - 1).Some?
      modifies quadTreeNode.Repr
      ensures quadTreeNode.Valid() && fresh(quadTreeNode.Repr - old(quadTreeNode.Repr))
      ensures var kids := old(quadTreeNode.Model.kids);
        quadTreeNode.Model == Split(old(quadTreeNode.Model.box), Quad(
          Descend(kids.topLeft, businessData, maxSizeAllowedAtLeafNodes, fuel - 1).value,
          Descend(kids.topRight, businessData, maxSizeAllowedAtLeafNodes, fuel - 1).value,
          Descend(kids.bottomLeft, businessData, maxSizeAllowedAtLeafNodes, fuel - 1).value,
          Descend(kids.bottomRight, businessData, maxSizeAllowedAtLeafNodes, fuel - 1).value))
      decreases fuel, 1
    {
      var tl, tr, bl, br := quadTreeNode.topLeftChild, quadTreeNode.topRightChild,
                            quadTreeNode.bottomLeftChild, quadTreeNode.bottomRightChild;
      OfferToChild(businessData, quadTreeNode, tl, tl, tr, bl, br, fuel - 1);
      OfferToChild(businessData, quadTreeNode, tr, tl, tr, bl, br, fuel - 1);
      OfferToChild(businessData, quadTreeNode, bl, tl, tr, bl, br, fuel - 1);
      OfferToChild(businessData, quadTreeNode, br, tl, tr, bl, br, fuel - 1);
      Attach(quadTreeNode, tl, tr, bl, br);
    }

    /** One guarded call of the internal-node branch: the record goes to `child` only
        when canNewNodeBeInserted holds for it. */
    method OfferToChild(businessData: BusinessSearch, parent: Node, child: Node,
                        a: Node, b: Node, c: Node, d: Node, ghost fuel: nat)
      requires child == a || child == b || child == c || child == d
      requires Siblings(parent, a, b, c, d)
      requires Descend(child.Model, businessData, maxSizeAllowedAtLeafNodes, fuel).Some?
      modifies child.Repr
      ensures Siblings(parent, a, b, c, d) && fresh(child.Repr - old(child.Repr))
      ensures child.Model == Descend(old(child.Model), businessData, maxSizeAllowedAtLeafNodes, fuel).value
      ensures unchanged(parent)
      ensures child != a ==> unchanged(a)
      ensures child != b ==> unchanged(b)
      ensures child != c ==> unchanged(c)
      ensures child != d ==> unchanged(d)
      decreases fuel, 3
    {
      NodeShape(child, businessData);
      if CanNewNodeBeInserted(businessData, child) {
        InsertNewNode(businessData, child, fuel);
      }
    }

    /** One unguarded call of the full-leaf branch: the record goes to `child`. */
    method InsertIntoChild(businessData: BusinessSearch, parent: Node, child: Node,
                           a: Node, b: Node, c: Node, d: Node, ghost fuel: nat)
      requires child == a || child == b || child == c || child == d
      requires Siblings(parent, a, b, c, d)
      requires Insert(child.Model, businessData, maxSizeAllowedAtLeafNodes, fuel).Some?
      modifies child.Repr
      ensures Siblings(parent, a, b, c, d) && fresh(child.Repr - old(child.Repr))
      ensures child.Model == Insert(old(child.Model), businessData, maxSizeAllowedAtLeafNodes, fuel).value
      ensures unchanged(parent)
      ensures child != a ==> unchanged(a)
      ensures child != b ==> unchanged(b)
      ensures child != c ==> unchanged(c)
      ensures child != d ==> unchanged(d)
      decreases fuel, 3
    {
      InsertNewNode(businessData, child, fuel);
    }

    /** One pass of the redistribution loop: the record goes to each child in turn. */
    method InsertIntoEachChild(businessData: BusinessSearch, parent: Node,
                               a: Node, b: Node, c: Node, d: Node, ghost fuel: nat)
      requires Siblings(parent, a, b, c, d)
      requires Insert(a.Model, businessData, maxSizeAllowedAtLeafNodes, fuel).Some?
      requires Insert(b.Model, businessData, maxSizeAllowedAtLeafNodes, fuel).Some?
      requires Insert(c.Model, businessData, maxSizeAllowedAtLeafNodes, fuel).Some?
      requires Insert(d.Model, businessData, maxSizeAllowedAtLeafNodes, fuel).Some?
      modifies a.Repr, b.Repr, c.Repr, d.Repr
      ensures Siblings(parent, a, b, c, d) && unchanged(parent)
      ensures fresh(a.Repr - old(a.Repr)) && fresh(b.Repr - old(b.Repr))
      ensures fresh(c.Repr - old(c.Repr)) && fresh(d.Repr - old(d.Repr))
      ensures a.Model == Insert(old(a.Model), businessData, maxSizeAllowedAtLeafNodes, fuel).value
      ensures b.Model == Insert(old(b.Model), businessData, maxSizeAllowedAtLeafNodes, fuel).value
      ensures c.Model == Insert(old(c.Model), businessData, maxSizeAllowedAtLeafNodes, fuel).value
      ensures d.Model == Insert(old(d.Model), businessData, maxSizeAllowedAtLeafNodes, fuel).value
      decreases fuel, 4
    {
      InsertIntoChild(businessData, parent, a, a, b, c, d, fuel);
      InsertIntoChild(businessData, parent, b, a, b, c, d, fuel);
      InsertIntoChild(businessData, parent, c, a, b, c, d, fuel);
      InsertIntoChild(businessData, parent, d, a, b, c, d, fuel);
    }

    /** The loop of the full-leaf branch: each record, in order, goes to the four children. */
    method InsertIntoChildren(items: seq<BusinessSearch>, parent: Node,
                              a: Node, b: Node, c: Node, d: Node, ghost fuel: nat)
      requires Siblings(parent, a, b, c, d)
      requires Redistribute(Quad(a.Model, b.Model, c.Model, d.Model), items, maxSizeAllowedAtLeafNodes, fuel).Some?
      modifies a.Repr, b.Repr, c.Repr, d.Repr
      ensures Siblings(parent, a, b, c, d) && unchanged(parent)
      ensures fresh(a.Repr - old(a.Repr)) && fresh(b.Repr - old(b.Repr))
      ensures fresh(c.Repr - old(c.Repr)) && fresh(d.Repr - old(d.Repr))
      ensures Quad(a.Model, b.Model, c.Model, d.Model)
           == Redistribute(old(Quad(a.Model, b.Model, c.Model, d.Model)), items, maxSizeAllowedAtLeafNodes, fuel).value
      decreases fuel, 5
    {
      ghost var goal := Redistribute(Quad(a.Model, b.Model, c.Model, d.Model), items, maxSizeAllowedAtLeafNodes, fuel);
      for i := 0 to |items|
        invariant Siblings(parent, a, b, c, d) && unchanged(parent)
        invariant fresh(a.Repr - old(a.Repr)) && fresh(b.Repr - old(b.Repr))
        invariant fresh(c.Repr - old(c.Repr)) && fresh(d.Repr - old(d.Repr))
        invariant Redistribute(Quad(a.Model, b.Model, c.Model, d.Model), items[i..], maxSizeAllowedAtLeafNodes, fuel) == goal
      {
        assert items[i..][1..] == items[i + 1..];
        InsertIntoEachChild(items[i], parent, a, b, c, d, fuel);
      }
      assert items[|items|..] == [];
    }

    /** The full-leaf branch of InsertNewNode. */
    method SplitLeaf(businessData: BusinessSearch, quadTreeNode: Node, ghost fuel: nat)
      requires quadTreeNode.Valid() && quadTreeNode.Model.Leaf? && fuel >= 1
      requires Redistribute(FreshLeaves(Quadrants(quadTreeNode.Bounds())),
                            quadTreeNode.listOfBusinesses + [businessData], maxSizeAllowedAtLeafNodes, fuel - 1).Some?
      modifies quadTreeNode.Repr
      ensures quadTreeNode.Valid() && fresh(quadTreeNode.Repr - old(quadTreeNode.Repr))
      ensures quadTreeNode.Model
           == Split(quadTreeNode.Bounds(),
                    Redistribute(FreshLeaves(Quadrants(quadTreeNode.Bounds())),
                                 old(quadTreeNode.listOfBusinesses) + [businessData],
                                 maxSizeAllowedAtLeafNodes, fuel - 1).value)
      decreases fuel, 1
    {
      DivideIntoFourBoxes(quadTreeNode);
      quadTreeNode.listOfBusinesses := quadTreeNode.listOfBusinesses + [businessData];
      var tl, tr, bl, br := quadTreeNode.topLeftChild, quadTreeNode.topRightChild,
                            quadTreeNode.bottomLeftChild, quadTreeNode.bottomRightChild;
      EmptyLeavesAreSiblings(quadTreeNode, tl, tr, bl, br, Quadrants(quadTreeNode.Bounds()));
      InsertIntoChildren(quadTreeNode.listOfBusinesses, quadTreeNode, tl, tr, bl, br, fuel - 1);
      quadTreeNode.listOfBusinesses := [];
      Attach(quadTreeNode, tl, tr, bl, br);
    }

    /** UpdateQuadTree: inserts, at the root and in list order, one record per business
        with its ID and location and distance 0. Once the root has split, nothing
        changes. */
    method UpdateQuadTree(listOfBusinessesInDB: seq<Business>, ghost fuel: nat)
      requires Valid()
      requires InsertAll(quadTreeNode.Model, ToBusinessSearches(listOfBusinessesInDB),
                         maxSizeAllowedAtLeafNodes, fuel).Some?
      modifies quadTreeNode.Repr
      ensures Valid() && fresh(quadTreeNode.Repr - old(quadTreeNode.Repr))
      ensures quadTreeNode.Model
           == InsertAll(old(quadTreeNode.Model), ToBusinessSearches(listOfBusinessesInDB),
                        maxSizeAllowedAtLeafNodes, fuel).value
      ensures old(quadTreeNode.Model).Split? ==> quadTreeNode.Model == old(quadTreeNode.Model)
      ensures WellFormed(old(quadTreeNode.Model), maxSizeAllowedAtLeafNodes)
          ==> WellFormed(quadTreeNode.Model, maxSizeAllowedAtLeafNodes)
    {
      ghost var records := ToBusinessSearches(listOfBusinessesInDB);
      ghost var start := quadTreeNode.Model;
      ghost var goal := InsertAll(quadTreeNode.Model, records, maxSizeAllowedAtLeafNodes, fuel);
      for i := 0 to |listOfBusinessesInDB|
        invariant quadTreeNode.Valid() && fresh(quadTreeNode.Repr - old(quadTreeNode.Repr))
        invariant InsertAll(quadTreeNode.Model, records[i..], maxSizeAllowedAtLeafNodes, fuel) == goal
      {
        var businessDB := listOfBusinessesInDB[i];
        var businessQT := BusinessSearch(businessId := businessDB.id, location := businessDB.location, dist := 0.0);
        assert businessQT == records[i];
        assert records[i..][1..] == records[i + 1..];
        InsertNewNode(businessQT, quadTreeNode, fuel);
      }
      if start.Split? {
        InsertAllIntoSplitIsNoOp(start, records, maxSizeAllowedAtLeafNodes, fuel);
      }
      if WellFormed(start, maxSizeAllowedAtLeafNodes) {
        InsertAllPreservesWellFormed(start, records, maxSizeAllowedAtLeafNodes, fuel);
      }
    }

    /** GetNearbyEntitiesFromQuadTree. Reads the tree and changes nothing. */
    method GetNearbyEntitiesFromQuadTree(userLocation: Location, quadTreeNode: Node, radius: real,
                                         getDistance: (Location, Location) -> real)
      returns (response: seq<BusinessSearch>)
      requires quadTreeNode.Valid()
      ensures response == Query(quadTreeNode.Model, userLocation, radius, getDistance)
      decreases quadTreeNode.Repr
    {
      response := [];
      if IsThisNodeChild(quadTreeNode)
         && (IsLocationInsideRadius(quadTreeNode.Bounds(), userLocation, radius, getDistance)
             || IsLocationWithinBoundingBox(userLocation, quadTreeNode.Bounds()))
      {
        var listOfBusinessesAtLeafNode := quadTreeNode.listOfBusinesses;
        for i := 0 to |listOfBusinessesAtLeafNode|
          invariant response == LeafHits(listOfBusinessesAtLeafNode[..i], userLocation, radius, getDistance)
        {
          var businessLocationData := listOfBusinessesAtLeafNode[i];
          var distFromUser := getDistance(businessLocationData.location, userLocation);
          assert listOfBusinessesAtLeafNode[..i + 1][..i] == listOfBusinessesAtLeafNode[..i];
          if distFromUser <= radius {
            businessLocationData := businessLocationData.(dist := distFromUser);
            response := response + [businessLocationData];
          }
        }
        assert listOfBusinessesAtLeafNode[..|listOfBusinessesAtLeafNode|] == listOfBusinessesAtLeafNode;
      }

      ghost var kids := if quadTreeNode.Model.Split? then quadTreeNode.Model.kids
                        else FreshLeaves(Quadrants(quadTreeNode.Bounds()));
      if IsUserLocationInsideThisNodeRadius(quadTreeNode.topLeftChild, userLocation, radius, getDistance) {
        var tmpResponse := GetNearbyEntitiesFromQuadTree(userLocation, quadTreeNode.topLeftChild, radius, getDistance);
        response := response + tmpResponse;
      }
      assert quadTreeNode.Model.Split? ==> response == Probe(kids.topLeft, userLocation, radius, getDistance);
      if IsUserLocationInsideThisNodeRadius(quadTreeNode.topRightChild, userLocation, radius, getDistance) {
        var tmpResponse := GetNearbyEntitiesFromQuadTree(userLocation, quadTreeNode.topRightChild, radius, getDistance);
        response := response + tmpResponse;
      }
      assert quadTreeNode.Model.Split? ==> response == Probe(kids.topLeft, userLocation, radius, getDistance)
                                                    + Probe(kids.topRight, userLocation, radius, getDistance);
      if IsUserLocationInsideThisNodeRadius(quadTreeNode.bottomLeftChild, userLocation, radius, getDistance) {
        var tmpResponse := GetNearbyEntitiesFromQuadTree(userLocation, quadTreeNode.bottomLeftChild, radius, getDistance);
        response := response + tmpResponse;
      }
      assert quadTreeNode.Model.Split? ==> response == Probe(kids.topLeft, userLocation, radius, getDistance)
                                                    + Probe(kids.topRight, userLocation, radius, getDistance)
                                                    + Probe(kids.bottomLeft, userLocation, radius, getDistance);
      if IsUserLocationInsideThisNodeRadius(quadTreeNode.bottomRightChild, userLocation, radius, getDistance) {
        var tmpResponse := GetNearbyEntitiesFromQuadTree(userLocation, quadTreeNode.bottomRightChild, radius, getDistance);
        response := response + tmpResponse;
      }
    }

    /** GetNearbyEntities: the query from the root. */
    method GetNearbyEntities(req: NearbySearchRequest, getDistance: (Location, Location) -> real)
      returns (response: seq<BusinessSearch>)
      requires Valid()
      ensures response == Query(quadTreeNode.Model, req.userLocation, req.radius, getDistance)
    {
      var entitySearch := req.userLocation;
      response := GetNearbyEntitiesFromQuadTree(entitySearch, quadTreeNode, req.radius, getDistance);
    }
  }
}
