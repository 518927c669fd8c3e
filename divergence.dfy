/**
 * Two ways InsertNewNode (quadTreeService/quadTreeStore.go) never returns:
 * a full leaf of width and height 1, whose bottom-right quadrant is the leaf's
 * own box, and any leaf when maxSizeAllowedAtLeafNodes is zero or negative.
 * In both cases `Insert` is `None` for every fuel.
 */
module Divergence {
  import opened Wrappers
  import opened Models
  import opened Geometry
  import opened QuadTreeSpec
  import opened InsertConservation

  /** A 1x1 box splits into three boxes that hold nothing and a copy of itself. */
  lemma UnitBoxQuadrants(box: Box, location: Location)
    requires box.width == 1 && box.height == 1
    ensures Quadrants(box).bottomRight == box
    ensures !IsLocationWithinBoundingBox(location, Quadrants(box).topLeft)
    ensures !IsLocationWithinBoundingBox(location, Quadrants(box).topRight)
    ensures !IsLocationWithinBoundingBox(location, Quadrants(box).bottomLeft)
  {
  }

  /** Inserting into a full leaf of width and height 1 never returns: the records are
      handed to a bottom-right child with the same box, which fills up and splits again. */
  lemma {:induction false} FullUnitLeafDiverges(box: Box, entries: seq<BusinessSearch>, e: BusinessSearch,
                                                maxSize: int, fuel: nat)
    requires box.width == 1 && box.height == 1
    requires AllInside(entries, box) && IsLocationWithinBoundingBox(e.location, box)
    requires |entries| >= maxSize
    ensures Insert(Leaf(box, entries), e, maxSize, fuel) == None
    decreases fuel, 0
  {
    if fuel > 0 {
      var items := entries + [e];
      assert AllInside(items, box) by {
        forall i | 0 <= i < |items|
          ensures IsLocationWithinBoundingBox(items[i].location, box)
        {
          if i < |entries| {
            assert items[i] == entries[i];
          }
        }
      }
      UnitBoxQuadrants(box, e.location);
      UnitLeafFillsUp(box, [], items, maxSize, fuel - 1);
    }
  }

  /** The hand-out loop of a 1x1 split, once the bottom-right child holds `held`: it
      never finishes while the records still to come would overfill that child. */
  lemma {:induction false} UnitLeafFillsUp(box: Box, held: seq<BusinessSearch>, items: seq<BusinessSearch>,
                                           maxSize: int, fuel: nat)
    requires box.width == 1 && box.height == 1
    requires AllInside(held, box) && AllInside(items, box)
    requires items != [] && |held| + |items| > maxSize
    ensures var q := Quadrants(box);
      Redistribute(Quad(Leaf(q.topLeft, []), Leaf(q.topRight, []), Leaf(q.bottomLeft, []), Leaf(box, held)),
                   items, maxSize, fuel) == None
    decreases fuel, 1 + |items|
  {
    var q := Quadrants(box);
    var x := items[0];
    if fuel > 0 {
      UnitBoxQuadrants(box, x.location);
      if |held| < maxSize {
        var held' := held + [x];
        assert Insert(Leaf(box, held), x, maxSize, fuel) == Some(Leaf(box, held'));
        assert AllInside(held', box) by {
          forall i | 0 <= i < |held'|
            ensures IsLocationWithinBoundingBox(held'[i].location, box)
          {
            if i < |held| {
              assert held'[i] == held[i];
            }
          }
        }
        AllInsideTail(items, box);
        UnitLeafFillsUp(box, held', items[1..], maxSize, fuel);
      } else {
        FullUnitLeafDiverges(box, held, x, maxSize, fuel);
      }
    }
  }

  /** With maxSizeAllowedAtLeafNodes zero or negative every leaf is full, so inserting a
      record inside a leaf's box splits it again and again and never returns. */
  lemma {:induction false} NonPositiveCapacityDiverges(box: Box, entries: seq<BusinessSearch>, e: BusinessSearch,
                                                       maxSize: int, fuel: nat)
    requires maxSize <= 0 && IsLocationWithinBoundingBox(e.location, box)
    ensures Insert(Leaf(box, entries), e, maxSize, fuel) == None
    decreases fuel, 0
  {
    if fuel > 0 {
      var items := entries + [e];
      DivideTiles(box, e.location);
      EveryLeafSplits(FreshLeaves(Quadrants(box)), items, maxSize, fuel - 1);
    }
  }

  /** The hand-out loop of a split into leaves when every leaf is full: the last record
      lands in some leaf, and that leaf's insert never returns. */
  lemma {:induction false} EveryLeafSplits(kids: Quad<Tree>, items: seq<BusinessSearch>, maxSize: int, fuel: nat)
    requires maxSize <= 0 && items != []
    requires kids.topLeft.Leaf? && kids.topRight.Leaf? && kids.bottomLeft.Leaf? && kids.bottomRight.Leaf?
    requires Hits(Boxes(kids), items[|items| - 1].location) >= 1
    ensures Redistribute(kids, items, maxSize, fuel) == None
    decreases fuel, 1 + |items|
  {
    var x := items[0];
    if fuel > 0 {
      if IsLocationWithinBoundingBox(x.location, kids.topLeft.box) {
        NonPositiveCapacityDiverges(kids.topLeft.box, kids.topLeft.entries, x, maxSize, fuel);
      } else if IsLocationWithinBoundingBox(x.location, kids.topRight.box) {
        NonPositiveCapacityDiverges(kids.topRight.box, kids.topRight.entries, x, maxSize, fuel);
      } else if IsLocationWithinBoundingBox(x.location, kids.bottomLeft.box) {
        NonPositiveCapacityDiverges(kids.bottomLeft.box, kids.bottomLeft.entries, x, maxSize, fuel);
      } else if IsLocationWithinBoundingBox(x.location, kids.bottomRight.box) {
        NonPositiveCapacityDiverges(kids.bottomRight.box, kids.bottomRight.entries, x, maxSize, fuel);
      } else {
        assert items[1..][|items| - 2] == items[|items| - 1];
        EveryLeafSplits(kids, items[1..], maxSize, fuel);
      }
    }
  }
}
