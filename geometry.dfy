/**
 * Bounding boxes of the quadtree and the predicates over them
 * (quadTreeService/quadTreeStore.go).
 *
 * A box has integer fields. Latitude grows from `startLatitude` over `width`
 * degrees; longitude runs DOWNWARD from `startLongitude` over `height`
 * degrees, so a box covers
 *   startLatitude <= lat < startLatitude + width
 *   startLongitude - height < lon <= startLongitude.
 * Integer-to-float conversions are modelled as exact (`as real`).
 */
module Geometry {
  import opened Models

  datatype Box = Box(startLatitude: int, startLongitude: int, width: int, height: int)

  /** The four children of a node, in the order the source visits them. */
  datatype Quad<T> = Quad(topLeft: T, topRight: T, bottomLeft: T, bottomRight: T)

  /** Go's integer `x / 2`: the quotient is truncated toward zero. */
  function Half(x: int): (h: int)
    ensures 0 <= x ==> 0 <= x - 2 * h <= 1
    ensures x < 0 ==> -1 <= x - 2 * h <= 0
  {
    if x >= 0 then x / 2 else -((-x) / 2)
  }

  /** The half-open latitude interval of a box. */
  predicate InLatitudeSpan(lat: real, box: Box) {
    box.startLatitude as real <= lat < box.startLatitude as real + box.width as real
  }

  /** The longitude interval of a box, open at the bottom and closed at the top. */
  predicate InLongitudeSpan(lon: real, box: Box) {
    box.startLongitude as real - box.height as real < lon <= box.startLongitude as real
  }

  /** isLocationWithinBoundingBox */
  predicate IsLocationWithinBoundingBox(location: Location, box: Box) {
    && location.latitude >= box.startLatitude as real
    && location.latitude < box.startLatitude as real + box.width as real
    && location.longitude <= box.startLongitude as real
    && location.longitude > box.startLongitude as real - box.height as real
  }

  /** The containment test is the product of the two axis intervals, and only a box
      of positive width and height contains anything. */
  lemma WithinBoxIffWithinSpans(location: Location, box: Box)
    ensures IsLocationWithinBoundingBox(location, box)
        <==> InLatitudeSpan(location.latitude, box) && InLongitudeSpan(location.longitude, box)
    ensures IsLocationWithinBoundingBox(location, box) ==> box.width >= 1 && box.height >= 1
  {
  }

  /** The boxes divideIntoFourBoxes gives the four children of a node with this box:
      both axes are halved with Go's truncating division, and the right and bottom
      quadrants take the remainder. */
  function Quadrants(box: Box): (q: Quad<Box>)
    ensures q.topLeft.width + q.topRight.width == box.width
    ensures q.topLeft.height + q.bottomLeft.height == box.height
    ensures q.bottomLeft.width == q.topLeft.width && q.bottomRight.width == q.topRight.width
    ensures q.topRight.height == q.topLeft.height && q.bottomRight.height == q.bottomLeft.height
    ensures q.topLeft.startLatitude == q.bottomLeft.startLatitude == box.startLatitude
    ensures q.topLeft.startLongitude == q.topRight.startLongitude == box.startLongitude
    ensures q.topRight.startLatitude == q.bottomRight.startLatitude == box.startLatitude + q.topLeft.width
    ensures q.bottomLeft.startLongitude == q.bottomRight.startLongitude == box.startLongitude - q.topLeft.height
    ensures box.width >= 0 ==> 0 <= q.topRight.width - q.topLeft.width <= 1
    ensures box.height >= 0 ==> 0 <= q.bottomLeft.height - q.topLeft.height <= 1
  {
    var newHeight := Half(box.height);
    var newWidth := Half(box.width);
    Quad(
      Box(box.startLatitude, box.startLongitude, newWidth, newHeight),
      Box(box.startLatitude + newWidth, box.startLongitude, box.width - newWidth, newHeight),
      Box(box.startLatitude, box.startLongitude - newHeight, newWidth, box.height - newHeight),
      Box(box.startLatitude + newWidth, box.startLongitude - newHeight, box.width - newWidth, box.height - newHeight))
  }

  /** How many of four boxes contain a location. */
  function Hits(q: Quad<Box>, location: Location): nat {
    (if IsLocationWithinBoundingBox(location, q.topLeft) then 1 else 0) +
    (if IsLocationWithinBoundingBox(location, q.topRight) then 1 else 0) +
    (if IsLocationWithinBoundingBox(location, q.bottomLeft) then 1 else 0) +
    (if IsLocationWithinBoundingBox(location, q.bottomRight) then 1 else 0)
  }

  /** Splitting an interval [s, s + w) at s + Half(w): a point lies in exactly one part
      when it lies in the whole, and in neither part otherwise (for every integer w). */
  lemma LatitudeHalves(lat: real, box: Box, q: Quad<Box>)
    requires q == Quadrants(box)
    ensures InLatitudeSpan(lat, q.topLeft) == InLatitudeSpan(lat, q.bottomLeft)
    ensures InLatitudeSpan(lat, q.topRight) == InLatitudeSpan(lat, q.bottomRight)
    ensures InLatitudeSpan(lat, box) <==> InLatitudeSpan(lat, q.topLeft) || InLatitudeSpan(lat, q.topRight)
    ensures !(InLatitudeSpan(lat, q.topLeft) && InLatitudeSpan(lat, q.topRight))
  {
    var nw := q.topLeft.width;
    assert box.width >= 0 ==> 0 <= nw <= box.width;
    assert box.width < 0 ==> box.width <= nw <= 0;
  }

  lemma LongitudeHalves(lon: real, box: Box, q: Quad<Box>)
    requires q == Quadrants(box)
    ensures InLongitudeSpan(lon, q.topLeft) == InLongitudeSpan(lon, q.topRight)
    ensures InLongitudeSpan(lon, q.bottomLeft) == InLongitudeSpan(lon, q.bottomRight)
    ensures InLongitudeSpan(lon, box) <==> InLongitudeSpan(lon, q.topLeft) || InLongitudeSpan(lon, q.bottomLeft)
    ensures !(InLongitudeSpan(lon, q.topLeft) && InLongitudeSpan(lon, q.bottomLeft))
  {
    var nh := q.topLeft.height;
    assert box.height >= 0 ==> 0 <= nh <= box.height;
    assert box.height < 0 ==> box.height <= nh <= 0;
  }

  /** The four quadrants tile the parent: a location in the parent lies in exactly one
      quadrant, and a location in no quadrant lies outside the parent. */
  lemma {:induction false} DivideTiles(box: Box, location: Location)
    ensures Hits(Quadrants(box), location)
         == if IsLocationWithinBoundingBox(location, box) then 1 else 0
  {
    var q := Quadrants(box);
    LatitudeHalves(location.latitude, box, q);
    LongitudeHalves(location.longitude, box, q);
    WithinBoxIffWithinSpans(location, box);
    WithinBoxIffWithinSpans(location, q.topLeft);
    WithinBoxIffWithinSpans(location, q.topRight);
    WithinBoxIffWithinSpans(location, q.bottomLeft);
    WithinBoxIffWithinSpans(location, q.bottomRight);
  }

  /** Consequences of the tiling used below: each quadrant lies inside its parent, and
      two different quadrants never share a location. */
  lemma QuadrantsInsideAndDisjoint(box: Box, location: Location)
    ensures var q := Quadrants(box);
      && (IsLocationWithinBoundingBox(location, q.topLeft) ==> IsLocationWithinBoundingBox(location, box))
      && (IsLocationWithinBoundingBox(location, q.topRight) ==> IsLocationWithinBoundingBox(location, box))
      && (IsLocationWithinBoundingBox(location, q.bottomLeft) ==> IsLocationWithinBoundingBox(location, box))
      && (IsLocationWithinBoundingBox(location, q.bottomRight) ==> IsLocationWithinBoundingBox(location, box))
      && Hits(q, location) <= 1
  {
    DivideTiles(box, location);
  }

  /** isLocationInsideRadius. The source builds each corner with the box's latitude
      coordinate in the `Longitude` field and its longitude coordinate in the `Latitude`
      field; this is kept. `dist` stands for getDistance. */
  predicate IsLocationInsideRadius(box: Box, userLocation: Location, radius: real,
                                   dist: (Location, Location) -> real)
  {
    || dist(Location(longitude := box.startLatitude as real,
                     latitude := box.startLongitude as real), userLocation) <= radius
    || dist(Location(longitude := (box.startLatitude + box.width) as real,
                     latitude := box.startLongitude as real), userLocation) <= radius
    || dist(Location(longitude := box.startLatitude as real,
                     latitude := (box.startLongitude - box.height) as real), userLocation) <= radius
    || dist(Location(longitude := (box.startLatitude + box.width) as real,
                     latitude := (box.startLongitude - box.height) as real), userLocation) <= radius
  }

  /** The pruning test of the radius query: a corner (as built above) is within the
      radius, or the user's location lies in the box. */
  predicate InSearchScope(box: Box, userLocation: Location, radius: real,
                          dist: (Location, Location) -> real)
  {
    IsLocationInsideRadius(box, userLocation, radius, dist) || IsLocationWithinBoundingBox(userLocation, box)
  }

  /** The pruning test only widens as the radius grows. */
  lemma SearchScopeMonotone(box: Box, userLocation: Location, r1: real, r2: real,
                            dist: (Location, Location) -> real)
    requires r1 <= r2
    ensures InSearchScope(box, userLocation, r1, dist) ==> InSearchScope(box, userLocation, r2, dist)
  {
  }
}
