/**
 * What InsertNewNode does, proved about its value model `QuadTreeSpec.Insert`:
 * the three branches of the source, the shape of a split, that an insert reaching a
 * split node changes nothing, independence of the answer from the fuel bound, and
 * preservation of the tree invariant.
 */
module InsertProperties {
  import opened Wrappers
  import opened Models
  import opened Geometry
  import opened QuadTreeSpec

  /** A location outside the node's box leaves the whole subtree unchanged. */
  lemma InsertOutsideBoxIsNoOp(t: Tree, e: BusinessSearch, maxSize: int, fuel: nat)
    requires fuel >= 1 && !IsLocationWithinBoundingBox(e.location, t.box)
    ensures Insert(t, e, maxSize, fuel) == Some(t)
  {
  }

  /** A leaf with room appends the record at the end of its list; nothing else changes. */
  lemma InsertIntoRoomyLeaf(box: Box, entries: seq<BusinessSearch>, e: BusinessSearch,
                            maxSize: int, fuel: nat)
    requires fuel >= 1 && IsLocationWithinBoundingBox(e.location, box) && |entries| < maxSize
    ensures Insert(Leaf(box, entries), e, maxSize, fuel) == Some(Leaf(box, entries + [e]))
  {
  }

  /** As written, a split node descends only into a child that is itself split and whose
      top-left quadrant holds the location; so when all four children are leaves the
      record is dropped and the tree is unchanged. */
  lemma InsertBelowLeafChildrenIsDropped(box: Box, kids: Quad<Tree>, e: BusinessSearch,
                                         maxSize: int, fuel: nat)
    requires fuel >= 1
    requires kids.topLeft.Leaf? && kids.topRight.Leaf? && kids.bottomLeft.Leaf? && kids.bottomRight.Leaf?
    ensures Insert(Split(box, kids), e, maxSize, fuel) == Some(Split(box, kids))
  {
  }

  /** Split node, one level down: each child becomes its guarded `Descend`, and the node
      keeps its box. (By SplitInsertIsNoOp no child ever gains the record.) */
  lemma InsertIntoSplitNode(box: Box, kids: Quad<Tree>, e: BusinessSearch, maxSize: int, fuel: nat)
    requires IsLocationWithinBoundingBox(e.location, box)
    requires Insert(Split(box, kids), e, maxSize, fuel).Some?
    ensures var t' := Insert(Split(box, kids), e, maxSize, fuel).value;
      && t'.Split? && t'.box == box
      && Boxes(t'.kids) == Boxes(kids)
      && t'.kids.topLeft == Descend(kids.topLeft, e, maxSize, fuel - 1).value
      && t'.kids.topRight == Descend(kids.topRight, e, maxSize, fuel - 1).value
      && t'.kids.bottomLeft == Descend(kids.bottomLeft, e, maxSize, fuel - 1).value
      && t'.kids.bottomRight == Descend(kids.bottomRight, e, maxSize, fuel - 1).value
  {
  }

  /** As written, an insert that reaches a split node never stores anything: the guard
      lets a call continue only into a child that is itself split, so no call made from
      a split node ever reaches the leaf branch. Once a node has split, inserting into
      it leaves its whole subtree unchanged. */
  lemma {:induction false} SplitInsertIsNoOp(t: Tree, e: BusinessSearch, maxSize: int, fuel: nat)
    requires t.Split? && Insert(t, e, maxSize, fuel).Some?
    ensures Insert(t, e, maxSize, fuel) == Some(t)
    decreases t
  {
    if IsLocationWithinBoundingBox(e.location, t.box) {
      var kids := t.kids;
      if CanDescend(kids.topLeft, e) {
        SplitInsertIsNoOp(kids.topLeft, e, maxSize, fuel - 1);
      }
      if CanDescend(kids.topRight, e) {
        SplitInsertIsNoOp(kids.topRight, e, maxSize, fuel - 1);
      }
      if CanDescend(kids.bottomLeft, e) {
        SplitInsertIsNoOp(kids.bottomLeft, e, maxSize, fuel - 1);
      }
      if CanDescend(kids.bottomRight, e) {
        SplitInsertIsNoOp(kids.bottomRight, e, maxSize, fuel - 1);
      }
    }
  }

  /** An insert into a split node always returns, within a call depth one more than the
      node's height: the guard only ever descends into split children, so the recursion
      never reaches a leaf and stops at the bottom split level. It returns the node
      unchanged. */
  lemma {:induction false} SplitInsertFinishes(t: Tree, e: BusinessSearch, maxSize: int, fuel: nat)
    requires t.Split? && fuel > Height(t)
    ensures Insert(t, e, maxSize, fuel) == Some(t)
    decreases t, 0
  {
    if IsLocationWithinBoundingBox(e.location, t.box) {
      var kids := t.kids;
      DescendFinishes(kids.topLeft, e, maxSize, fuel - 1);
      DescendFinishes(kids.topRight, e, maxSize, fuel - 1);
      DescendFinishes(kids.bottomLeft, e, maxSize, fuel - 1);
      DescendFinishes(kids.bottomRight, e, maxSize, fuel - 1);
    }
  }

  /** The guarded call on a child of a split node returns the child unchanged, given a
      call depth above the child's height. */
  lemma {:induction false} DescendFinishes(child: Tree, e: BusinessSearch, maxSize: int, fuel: nat)
    requires fuel > Height(child)
    ensures Descend(child, e, maxSize, fuel) == Some(child)
    decreases child, 1
  {
    if CanDescend(child, e) {
      SplitInsertFinishes(child, e, maxSize, fuel);
    }
  }

  /** Loading records into a tree whose root has split leaves the tree unchanged, and,
      given a call depth above the root's height, always returns: after the root's first
      split, UpdateQuadTree stores nothing more. */
  lemma {:induction false} InsertAllIntoSplitIsNoOp(t: Tree, items: seq<BusinessSearch>, maxSize: int, fuel: nat)
    requires t.Split?
    requires fuel > Height(t) || InsertAll(t, items, maxSize, fuel).Some?
    ensures InsertAll(t, items, maxSize, fuel) == Some(t)
    decreases |items|
  {
    if items != [] {
      if fuel > Height(t) {
        SplitInsertFinishes(t, items[0], maxSize, fuel);
      } else {
        SplitInsertIsNoOp(t, items[0], maxSize, fuel);
      }
      InsertAllIntoSplitIsNoOp(t, items[1..], maxSize, fuel);
    }
  }

  /** A redistribution, seen one child at a time: every child is offered every item,
      in list order, exactly as if the items were inserted into it alone. */
  lemma {:induction false} RedistributeIsPerChild(kids: Quad<Tree>, items: seq<BusinessSearch>,
                                                  maxSize: int, fuel: nat)
    requires Redistribute(kids, items, maxSize, fuel).Some?
    ensures var r := Redistribute(kids, items, maxSize, fuel).value;
      && InsertAll(kids.topLeft, items, maxSize, fuel) == Some(r.topLeft)
      && InsertAll(kids.topRight, items, maxSize, fuel) == Some(r.topRight)
      && InsertAll(kids.bottomLeft, items, maxSize, fuel) == Some(r.bottomLeft)
      && InsertAll(kids.bottomRight, items, maxSize, fuel) == Some(r.bottomRight)
    decreases |items|
  {
    if items != [] {
      var e := items[0];
      var next := Quad(Insert(kids.topLeft, e, maxSize, fuel).value,
                       Insert(kids.topRight, e, maxSize, fuel).value,
                       Insert(kids.bottomLeft, e, maxSize, fuel).value,
                       Insert(kids.bottomRight, e, maxSize, fuel).value);
      assert Redistribute(kids, items, maxSize, fuel) == Redistribute(next, items[1..], maxSize, fuel);
      RedistributeIsPerChild(next, items[1..], maxSize, fuel);
    }
  }

  /** A full leaf that receives a location in its box becomes a split node over the
      same box; its children carry the four quadrants, and each child is what inserting
      all old records followed by the new one, in order, into an empty leaf gives. */
  lemma InsertIntoFullLeaf(box: Box, entries: seq<BusinessSearch>, e: BusinessSearch,
                           maxSize: int, fuel: nat)
    requires IsLocationWithinBoundingBox(e.location, box) && |entries| >= maxSize
    requires Insert(Leaf(box, entries), e, maxSize, fuel).Some?
    ensures var t' := Insert(Leaf(box, entries), e, maxSize, fuel).value;
      var q := Quadrants(box);
      && t'.Split? && t'.box == box
      && Boxes(t'.kids) == q
      && InsertAll(Leaf(q.topLeft, []), entries + [e], maxSize, fuel - 1) == Some(t'.kids.topLeft)
      && InsertAll(Leaf(q.topRight, []), entries + [e], maxSize, fuel - 1) == Some(t'.kids.topRight)
      && InsertAll(Leaf(q.bottomLeft, []), entries + [e], maxSize, fuel - 1) == Some(t'.kids.bottomLeft)
      && InsertAll(Leaf(q.bottomRight, []), entries + [e], maxSize, fuel - 1) == Some(t'.kids.bottomRight)
  {
    RedistributeIsPerChild(FreshLeaves(Quadrants(box)), entries + [e], maxSize, fuel - 1);
  }

  /** More fuel never changes a finished insert: `Some` with some fuel is THE result of
      the source's call. */
  lemma {:induction false} InsertFuelMonotone(t: Tree, e: BusinessSearch, maxSize: int, fuel: nat, more: nat)
    requires fuel <= more && Insert(t, e, maxSize, fuel).Some?
    ensures Insert(t, e, maxSize, more) == Insert(t, e, maxSize, fuel)
    decreases fuel, 0, 0
  {
    if IsLocationWithinBoundingBox(e.location, t.box) {
      match t
      case Split(box, kids) =>
        DescendFuelMonotone(kids.topLeft, e, maxSize, fuel - 1, more - 1);
        DescendFuelMonotone(kids.topRight, e, maxSize, fuel - 1, more - 1);
        DescendFuelMonotone(kids.bottomLeft, e, maxSize, fuel - 1, more - 1);
        DescendFuelMonotone(kids.bottomRight, e, maxSize, fuel - 1, more - 1);
      case Leaf(box, entries) =>
        if |entries| >= maxSize {
          RedistributeFuelMonotone(FreshLeaves(Quadrants(box)), entries + [e], maxSize,
                                   fuel - 1, more - 1);
        }
    }
  }

  lemma {:induction false} DescendFuelMonotone(t: Tree, e: BusinessSearch, maxSize: int, fuel: nat, more: nat)
    requires fuel <= more && Descend(t, e, maxSize, fuel).Some?
    ensures Descend(t, e, maxSize, more) == Descend(t, e, maxSize, fuel)
    decreases fuel, 1, 0
  {
    if CanDescend(t, e) {
      InsertFuelMonotone(t, e, maxSize, fuel, more);
    }
  }

  lemma {:induction false} RedistributeFuelMonotone(kids: Quad<Tree>, items: seq<BusinessSearch>,
                                                    maxSize: int, fuel: nat, more: nat)
    requires fuel <= more && Redistribute(kids, items, maxSize, fuel).Some?
    ensures Redistribute(kids, items, maxSize, more) == Redistribute(kids, items, maxSize, fuel)
    decreases fuel, 1, |items|
  {
    if items != [] {
      var e := items[0];
      InsertFuelMonotone(kids.topLeft, e, maxSize, fuel, more);
      InsertFuelMonotone(kids.topRight, e, maxSize, fuel, more);
      InsertFuelMonotone(kids.bottomLeft, e, maxSize, fuel, more);
      InsertFuelMonotone(kids.bottomRight, e, maxSize, fuel, more);
      var next := Quad(Insert(kids.topLeft, e, maxSize, fuel).value,
                       Insert(kids.topRight, e, maxSize, fuel).value,
                       Insert(kids.bottomLeft, e, maxSize, fuel).value,
                       Insert(kids.bottomRight, e, maxSize, fuel).value);
      RedistributeFuelMonotone(next, items[1..], maxSize, fuel, more);
    }
  }

  /** The four children of a node are each well formed. */
  ghost predicate KidsWellFormed(kids: Quad<Tree>, maxSize: int) {
    && WellFormed(kids.topLeft, maxSize)
    && WellFormed(kids.topRight, maxSize)
    && WellFormed(kids.bottomLeft, maxSize)
    && WellFormed(kids.bottomRight, maxSize)
  }

  /** Appending a record that lies in the box to a leaf with room keeps the leaf well formed. */
  lemma AppendKeepsLeafWellFormed(box: Box, entries: seq<BusinessSearch>, e: BusinessSearch, maxSize: int)
    requires WellFormed(Leaf(box, entries), maxSize) && |entries| < maxSize
    requires IsLocationWithinBoundingBox(e.location, box)
    ensures WellFormed(Leaf(box, entries + [e]), maxSize)
  {
    var entries' := entries + [e];
    forall i | 0 <= i < |entries'|
      ensures IsLocationWithinBoundingBox(entries'[i].location, box)
    {
      if i < |entries| {
        assert entries'[i] == entries[i];
      }
    }
  }

  /** Insert keeps the tree invariant: children carry their parent's quadrants, and
      every leaf holds at most maxSize records, all inside its box. */
  lemma {:induction false} InsertPreservesWellFormed(t: Tree, e: BusinessSearch, maxSize: int, fuel: nat)
    requires WellFormed(t, maxSize) && Insert(t, e, maxSize, fuel).Some?
    ensures WellFormed(Insert(t, e, maxSize, fuel).value, maxSize)
    decreases fuel, 1, 0
  {
    if IsLocationWithinBoundingBox(e.location, t.box) {
      match t
      case Split(box, kids) =>
        SplitInsertPreservesWellFormed(box, kids, e, maxSize, fuel);
      case Leaf(box, entries) =>
        if |entries| < maxSize {
          AppendKeepsLeafWellFormed(box, entries, e, maxSize);
        } else {
          FullLeafInsertPreservesWellFormed(box, entries, e, maxSize, fuel);
        }
    }
  }

  /** The internal-node case of InsertPreservesWellFormed. */
  lemma {:induction false} SplitInsertPreservesWellFormed(box: Box, kids: Quad<Tree>, e: BusinessSearch,
                                                          maxSize: int, fuel: nat)
    requires WellFormed(Split(box, kids), maxSize) && IsLocationWithinBoundingBox(e.location, box)
    requires Insert(Split(box, kids), e, maxSize, fuel).Some?
    ensures WellFormed(Insert(Split(box, kids), e, maxSize, fuel).value, maxSize)
    decreases fuel, 0, 0
  {
    DescendPreservesWellFormed(kids.topLeft, e, maxSize, fuel - 1);
    DescendPreservesWellFormed(kids.topRight, e, maxSize, fuel - 1);
    DescendPreservesWellFormed(kids.bottomLeft, e, maxSize, fuel - 1);
    DescendPreservesWellFormed(kids.bottomRight, e, maxSize, fuel - 1);
  }

  /** The full-leaf case of InsertPreservesWellFormed. */
  lemma {:induction false} FullLeafInsertPreservesWellFormed(box: Box, entries: seq<BusinessSearch>, e: BusinessSearch,
                                                             maxSize: int, fuel: nat)
    requires WellFormed(Leaf(box, entries), maxSize) && IsLocationWithinBoundingBox(e.location, box)
    requires |entries| >= maxSize && Insert(Leaf(box, entries), e, maxSize, fuel).Some?
    ensures WellFormed(Insert(Leaf(box, entries), e, maxSize, fuel).value, maxSize)
    decreases fuel, 0, 0
  {
    var empty := FreshLeaves(Quadrants(box));
    assert KidsWellFormed(empty, maxSize);
    RedistributePreservesWellFormed(empty, entries + [e], maxSize, fuel - 1);
  }

  lemma {:induction false} DescendPreservesWellFormed(t: Tree, e: BusinessSearch, maxSize: int, fuel: nat)
    requires WellFormed(t, maxSize) && Descend(t, e, maxSize, fuel).Some?
    ensures WellFormed(Descend(t, e, maxSize, fuel).value, maxSize)
    decreases fuel, 2, 0
  {
    if CanDescend(t, e) {
      InsertPreservesWellFormed(t, e, maxSize, fuel);
    }
  }

  lemma {:induction false} RedistributePreservesWellFormed(kids: Quad<Tree>, items: seq<BusinessSearch>,
                                                           maxSize: int, fuel: nat)
    requires KidsWellFormed(kids, maxSize) && Redistribute(kids, items, maxSize, fuel).Some?
    ensures KidsWellFormed(Redistribute(kids, items, maxSize, fuel).value, maxSize)
    decreases fuel, 2, |items|
  {
    if items != [] {
      var e := items[0];
      InsertPreservesWellFormed(kids.topLeft, e, maxSize, fuel);
      InsertPreservesWellFormed(kids.topRight, e, maxSize, fuel);
      InsertPreservesWellFormed(kids.bottomLeft, e, maxSize, fuel);
      InsertPreservesWellFormed(kids.bottomRight, e, maxSize, fuel);
      var next := Quad(Insert(kids.topLeft, e, maxSize, fuel).value,
                       Insert(kids.topRight, e, maxSize, fuel).value,
                       Insert(kids.bottomLeft, e, maxSize, fuel).value,
                       Insert(kids.bottomRight, e, maxSize, fuel).value);
      RedistributePreservesWellFormed(next, items[1..], maxSize, fuel);
    }
  }

  /** Loading several records keeps the tree invariant. */
  lemma {:induction false} InsertAllPreservesWellFormed(t: Tree, items: seq<BusinessSearch>, maxSize: int, fuel: nat)
    requires WellFormed(t, maxSize) && InsertAll(t, items, maxSize, fuel).Some?
    ensures WellFormed(InsertAll(t, items, maxSize, fuel).value, maxSize)
    decreases |items|
  {
    if items != [] {
      InsertPreservesWellFormed(t, items[0], maxSize, fuel);
      InsertAllPreservesWellFormed(Insert(t, items[0], maxSize, fuel).value, items[1..], maxSize, fuel);
    }
  }
}
