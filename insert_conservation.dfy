/**
 * What happens to the records when InsertNewNode runs
 * (quadTreeService/quadTreeStore.go): a full leaf hands every old record
 * and the new one to its children and each ends up stored exactly once, and
 * no insert ever loses a record that the tree already holds.
 */
module InsertConservation {
  import opened Wrappers
  import opened Models
  import opened Geometry
  import opened QuadTreeSpec
  import opened InsertProperties

  /** Every record lies inside the box. */
  predicate AllInside(items: seq<BusinessSearch>, box: Box) {
    forall i :: 0 <= i < |items| ==> IsLocationWithinBoundingBox(items[i].location, box)
  }

  /** How many of the records lie inside the box. */
  function CountInside(items: seq<BusinessSearch>, box: Box): (n: nat)
    ensures n <= |items|
  {
    if items == [] then 0
    else (if IsLocationWithinBoundingBox(items[0].location, box) then 1 else 0) + CountInside(items[1..], box)
  }

  /** The records of four children, in source order. */
  function QuadEntries(kids: Quad<Tree>): seq<BusinessSearch> {
    Entries(kids.topLeft) + Entries(kids.topRight) + Entries(kids.bottomLeft) + Entries(kids.bottomRight)
  }

  /** The state of one child while a split hands out `items`: a leaf still has room for
      the records of `items` that fall in its box except possibly the last one; a child
      that has itself split receives none of them. */
  ghost predicate Room(kid: Tree, items: seq<BusinessSearch>, maxSize: int) {
    match kid
    case Leaf(box, entries) =>
      WellFormed(kid, maxSize) && |entries| + CountInside(items, box) <= maxSize + 1
    case Split(box, _) => CountInside(items, box) == 0
  }

  /** The four children, in source order. */
  function Children(kids: Quad<Tree>): seq<Tree> {
    [kids.topLeft, kids.topRight, kids.bottomLeft, kids.bottomRight]
  }

  /** Every child has room for `items`. */
  ghost predicate ChildrenHaveRoom(kids: Quad<Tree>, items: seq<BusinessSearch>, maxSize: int) {
    forall k | k in Children(kids) :: Room(k, items, maxSize)
  }

  /** The record `x` once, when `b` holds; nothing otherwise. */
  function Once<T>(x: T, b: bool): multiset<T> {
    if b then multiset{x} else multiset{}
  }

  /** Four parts of which exactly one gains `x`: the whole gains `x` once. */
  lemma AddedOnce<T>(a: multiset<T>, b: multiset<T>, c: multiset<T>, d: multiset<T>,
                     a': multiset<T>, b': multiset<T>, c': multiset<T>, d': multiset<T>,
                     x: T, p: bool, q: bool, r: bool, s: bool)
    requires (if p then 1 else 0) + (if q then 1 else 0) + (if r then 1 else 0) + (if s then 1 else 0) == 1
    requires a' == a + Once(x, p) && b' == b + Once(x, q) && c' == c + Once(x, r) && d' == d + Once(x, s)
    ensures a' + b' + c' + d' == a + b + c + d + multiset{x}
  {
  }

  /** Four parts that each keep what they had, and of which at most one may gain `x`. */
  lemma AddedAtMostOnce<T>(a: multiset<T>, b: multiset<T>, c: multiset<T>, d: multiset<T>,
                           a': multiset<T>, b': multiset<T>, c': multiset<T>, d': multiset<T>,
                           x: T, p: bool, q: bool, r: bool, s: bool)
    requires (if p then 1 else 0) + (if q then 1 else 0) + (if r then 1 else 0) + (if s then 1 else 0) <= 1
    requires a <= a' <= a + Once(x, p) && b <= b' <= b + Once(x, q)
    requires c <= c' <= c + Once(x, r) && d <= d' <= d + Once(x, s)
    ensures a + b + c + d <= a' + b' + c' + d' <= a + b + c + d + multiset{x}
  {
  }

  /** Moving the first record from the list to the children keeps the total. */
  lemma Regroup<T>(part: multiset<T>, start: multiset<T>, items: multiset<T>, first: multiset<T>, rest: multiset<T>)
    requires part == start + first && items == first + rest
    ensures part + rest == start + items
  {
  }

  /** Inserting a record inside a leaf's box stores it, and keeps every record the leaf
      held, each exactly once; a full leaf becomes a split node. */
  lemma {:induction false} LeafInsertAddsRecord(box: Box, entries: seq<BusinessSearch>, e: BusinessSearch,
                                                maxSize: int, fuel: nat)
    requires WellFormed(Leaf(box, entries), maxSize) && IsLocationWithinBoundingBox(e.location, box)
    requires Insert(Leaf(box, entries), e, maxSize, fuel).Some?
    ensures var t' := Insert(Leaf(box, entries), e, maxSize, fuel).value;
      && multiset(Entries(t')) == multiset(entries + [e])
      && (|entries| >= maxSize ==> t'.Split?)
    decreases fuel, 0
  {
    if |entries| >= maxSize {
      var items := entries + [e];
      assert AllInside(items, box) by {
        forall i | 0 <= i < |items|
          ensures IsLocationWithinBoundingBox(items[i].location, box)
        {
          if i < |entries| {
            assert items[i] == entries[i];
          }
        }
      }
      var empty := FreshLeaves(Quadrants(box));
      assert QuadEntries(empty) == [];
      RedistributeKeepsEveryRecord(empty, items, maxSize, fuel - 1, box);
    }
  }

  /** One child's step of the hand-out: the child takes the record `x` when, and only
      when, it lies in the child's box, and keeps room for the rest. */
  lemma {:induction false} ChildInsertKeepsRoom(kid: Tree, kids: Quad<Tree>, x: BusinessSearch,
                                                rest: seq<BusinessSearch>, maxSize: int, fuel: nat)
    returns (kid': Tree)
    requires kid in Children(kids) && ChildrenHaveRoom(kids, [x] + rest, maxSize)
    requires Insert(kid, x, maxSize, fuel).Some?
    ensures Insert(kid, x, maxSize, fuel) == Some(kid')
    ensures Room(kid', rest, maxSize)
    ensures multiset(Entries(kid')) == multiset(Entries(kid)) + Once(x, IsLocationWithinBoundingBox(x.location, kid.box))
    decreases fuel, 1
  {
    assert ([x] + rest)[1..] == rest;
    kid' := Insert(kid, x, maxSize, fuel).value;
    if !IsLocationWithinBoundingBox(x.location, kid.box) {
      InsertOutsideBoxIsNoOp(kid, x, maxSize, fuel);
    } else {
      match kid
      case Leaf(box, entries) =>
        if |entries| < maxSize {
          AppendKeepsLeafWellFormed(box, entries, x, maxSize);
        } else {
          LeafInsertAddsRecord(box, entries, x, maxSize, fuel);
        }
      case Split(_, _) =>
        assert false;
    }
  }

  /** One round of the hand-out loop: each child takes the record `x` or not, and keeps
      room for the records still to come. */
  lemma {:induction false} HandOutOne(kids: Quad<Tree>, x: BusinessSearch, rest: seq<BusinessSearch>,
                                      maxSize: int, fuel: nat)
    returns (next: Quad<Tree>)
    requires ChildrenHaveRoom(kids, [x] + rest, maxSize)
    requires Redistribute(kids, [x] + rest, maxSize, fuel).Some?
    ensures Boxes(next) == Boxes(kids) && ChildrenHaveRoom(next, rest, maxSize)
    ensures Redistribute(kids, [x] + rest, maxSize, fuel) == Redistribute(next, rest, maxSize, fuel)
    ensures multiset(Entries(next.topLeft))
         == multiset(Entries(kids.topLeft)) + Once(x, IsLocationWithinBoundingBox(x.location, kids.topLeft.box))
    ensures multiset(Entries(next.topRight))
         == multiset(Entries(kids.topRight)) + Once(x, IsLocationWithinBoundingBox(x.location, kids.topRight.box))
    ensures multiset(Entries(next.bottomLeft))
         == multiset(Entries(kids.bottomLeft)) + Once(x, IsLocationWithinBoundingBox(x.location, kids.bottomLeft.box))
    ensures multiset(Entries(next.bottomRight))
         == multiset(Entries(kids.bottomRight)) + Once(x, IsLocationWithinBoundingBox(x.location, kids.bottomRight.box))
    decreases fuel, 2
  {
    assert ([x] + rest)[0] == x && ([x] + rest)[1..] == rest;
    var topLeft := ChildInsertKeepsRoom(kids.topLeft, kids, x, rest, maxSize, fuel);
    var topRight := ChildInsertKeepsRoom(kids.topRight, kids, x, rest, maxSize, fuel);
    var bottomLeft := ChildInsertKeepsRoom(kids.bottomLeft, kids, x, rest, maxSize, fuel);
    var bottomRight := ChildInsertKeepsRoom(kids.bottomRight, kids, x, rest, maxSize, fuel);
    next := Quad(topLeft, topRight, bottomLeft, bottomRight);
  }

  /** The tail of records that all lie in a box lies in the box. */
  lemma AllInsideTail(items: seq<BusinessSearch>, box: Box)
    requires items != [] && AllInside(items, box)
    ensures AllInside(items[1..], box)
  {
    forall i | 0 <= i < |items| - 1
      ensures IsLocationWithinBoundingBox(items[1..][i].location, box)
    {
      assert items[1..][i] == items[i + 1];
    }
  }

  /** One round of the hand-out loop: the first record lands in exactly one child. */
  lemma {:induction false} HandOutFirst(kids: Quad<Tree>, items: seq<BusinessSearch>,
                                        maxSize: int, fuel: nat, box: Box)
    returns (next: Quad<Tree>)
    requires items != [] && Boxes(kids) == Quadrants(box) && AllInside(items, box)
    requires ChildrenHaveRoom(kids, items, maxSize)
    requires Redistribute(kids, items, maxSize, fuel).Some?
    ensures Boxes(next) == Quadrants(box) && AllInside(items[1..], box)
    ensures ChildrenHaveRoom(next, items[1..], maxSize)
    ensures Redistribute(kids, items, maxSize, fuel) == Redistribute(next, items[1..], maxSize, fuel)
    ensures multiset(QuadEntries(next)) + multiset(items[1..]) == multiset(QuadEntries(kids)) + multiset(items)
    decreases fuel, 3
  {
    var x := items[0];
    assert items == [x] + items[1..];
    next := HandOutOne(kids, x, items[1..], maxSize, fuel);
    DivideTiles(box, x.location);
    AddedOnce(multiset(Entries(kids.topLeft)), multiset(Entries(kids.topRight)),
              multiset(Entries(kids.bottomLeft)), multiset(Entries(kids.bottomRight)),
              multiset(Entries(next.topLeft)), multiset(Entries(next.topRight)),
              multiset(Entries(next.bottomLeft)), multiset(Entries(next.bottomRight)),
              x, IsLocationWithinBoundingBox(x.location, kids.topLeft.box),
              IsLocationWithinBoundingBox(x.location, kids.topRight.box),
              IsLocationWithinBoundingBox(x.location, kids.bottomLeft.box),
              IsLocationWithinBoundingBox(x.location, kids.bottomRight.box));
    AllInsideTail(items, box);
    assert items == [x] + items[1..];
    Regroup(multiset(QuadEntries(next)), multiset(QuadEntries(kids)),
            multiset(items), multiset{x}, multiset(items[1..]));
  }

  /** The hand-out loop of a split: every record lands in exactly one child. */
  lemma {:induction false} RedistributeKeepsEveryRecord(kids: Quad<Tree>, items: seq<BusinessSearch>,
                                                        maxSize: int, fuel: nat, box: Box)
    requires Boxes(kids) == Quadrants(box) && AllInside(items, box)
    requires ChildrenHaveRoom(kids, items, maxSize)
    requires Redistribute(kids, items, maxSize, fuel).Some?
    ensures multiset(QuadEntries(Redistribute(kids, items, maxSize, fuel).value))
         == multiset(QuadEntries(kids)) + multiset(items)
    decreases fuel, 4 + |items|
  {
    if items != [] {
      var rest := items[1..];
      var next := HandOutFirst(kids, items, maxSize, fuel, box);
      RedistributeKeepsEveryRecord(next, rest, maxSize, fuel, box);
    }
  }

  /** No insert loses a record the tree holds, and the only record it can add is the
      inserted one, at most once. (Only an insert into a leaf adds it; an insert into a
      split node changes nothing: see SplitInsertIsNoOp.) */
  lemma {:induction false} InsertKeepsEveryRecord(t: Tree, e: BusinessSearch, maxSize: int, fuel: nat)
    requires WellFormed(t, maxSize) && Insert(t, e, maxSize, fuel).Some?
    ensures var t' := Insert(t, e, maxSize, fuel).value;
      multiset(Entries(t)) <= multiset(Entries(t')) <= multiset(Entries(t)) + multiset{e}
    decreases fuel, 1
  {
    if IsLocationWithinBoundingBox(e.location, t.box) {
      match t
      case Leaf(box, entries) =>
        LeafInsertAddsRecord(box, entries, e, maxSize, fuel);
      case Split(box, kids) =>
        SplitInsertKeepsEveryRecord(box, kids, e, maxSize, fuel);
    }
  }

  /** The internal-node case of InsertKeepsEveryRecord, from the tiling alone: no child
      loses a record, and no two children can both gain the new one. (SplitInsertIsNoOp
      shows that in fact none gains it.) */
  lemma {:induction false} SplitInsertKeepsEveryRecord(box: Box, kids: Quad<Tree>, e: BusinessSearch,
                                                       maxSize: int, fuel: nat)
    requires WellFormed(Split(box, kids), maxSize) && IsLocationWithinBoundingBox(e.location, box)
    requires Insert(Split(box, kids), e, maxSize, fuel).Some?
    ensures var t' := Insert(Split(box, kids), e, maxSize, fuel).value;
      multiset(Entries(Split(box, kids))) <= multiset(Entries(t'))
                                          <= multiset(Entries(Split(box, kids))) + multiset{e}
    decreases fuel, 0
  {
    DescendKeepsEveryRecord(kids.topLeft, e, maxSize, fuel - 1);
    DescendKeepsEveryRecord(kids.topRight, e, maxSize, fuel - 1);
    DescendKeepsEveryRecord(kids.bottomLeft, e, maxSize, fuel - 1);
    DescendKeepsEveryRecord(kids.bottomRight, e, maxSize, fuel - 1);
    QuadrantsInsideAndDisjoint(box, e.location);
    AddedAtMostOnce(multiset(Entries(kids.topLeft)), multiset(Entries(kids.topRight)),
                    multiset(Entries(kids.bottomLeft)), multiset(Entries(kids.bottomRight)),
                    multiset(Entries(Descend(kids.topLeft, e, maxSize, fuel - 1).value)),
                    multiset(Entries(Descend(kids.topRight, e, maxSize, fuel - 1).value)),
                    multiset(Entries(Descend(kids.bottomLeft, e, maxSize, fuel - 1).value)),
                    multiset(Entries(Descend(kids.bottomRight, e, maxSize, fuel - 1).value)),
                    e, IsLocationWithinBoundingBox(e.location, kids.topLeft.box),
                    IsLocationWithinBoundingBox(e.location, kids.topRight.box),
                    IsLocationWithinBoundingBox(e.location, kids.bottomLeft.box),
                    IsLocationWithinBoundingBox(e.location, kids.bottomRight.box));
  }

  /** One guarded call of an internal node changes the child only when the record lies
      in the child's box, and then as InsertKeepsEveryRecord says. */
  lemma {:induction false} DescendKeepsEveryRecord(kid: Tree, e: BusinessSearch, maxSize: int, fuel: nat)
    requires WellFormed(kid, maxSize) && Descend(kid, e, maxSize, fuel).Some?
    ensures var kid' := Descend(kid, e, maxSize, fuel).value;
      && multiset(Entries(kid)) <= multiset(Entries(kid'))
      && multiset(Entries(kid'))
         <= multiset(Entries(kid))
            + Once(e, IsLocationWithinBoundingBox(e.location, kid.box))
    decreases fuel, 2
  {
    if CanDescend(kid, e) {
      QuadrantsInsideAndDisjoint(kid.box, e.location);
      InsertKeepsEveryRecord(kid, e, maxSize, fuel);
    }
  }
}
