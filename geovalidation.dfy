/**
 * The paddock-in-parcel geometry checks of `src/utils/geoValidation.ts`:
 * even-odd ray casting against a polygon's outer ring, vertex-wise containment
 * and overlap, and the validation that combines them. Coordinates are exact reals.
 */
module GeoValidation {

  /** A GeoJSON position `[lng, lat]`. */
  datatype Position = Position(lng: real, lat: real)

  /** A polygon's `coordinates`: the outer ring, then any inner rings (never read). */
  datatype Polygon = Polygon(outer: seq<Position>, holes: seq<seq<Position>>)

  /** `{ lat, lng }` */
  datatype Point = Point(lat: real, lng: real)

  /** The point a vertex stands for: `{ lat: coord[1], lng: coord[0] }`. */
  function VertexPoint(c: Position): Point {
    Point(c.lat, c.lng)
  }

  /** The index paired with `i`: the previous vertex, wrapping from 0 to n - 1. */
  function Prev(n: nat, i: nat): (j: nat)
    requires i < n
    ensures j < n
  {
    if i == 0 then n - 1 else i - 1
  }

  /**
   * The crossing test for the edge from `vi` to `vj`. The division is only
   * reached when exactly one end lies above the point's longitude, so the
   * two longitudes differ and the divisor is never zero.
   */
  predicate EdgeCrosses(p: Point, vi: Position, vj: Position) {
    (vi.lng > p.lng) != (vj.lng > p.lng) &&
    p.lat < (vj.lat - vi.lat) * (p.lng - vi.lng) / (vj.lng - vi.lng) + vi.lat
  }

  /** The divisor of the crossing test is non-zero whenever it is evaluated. */
  lemma CrossingDivisorNonZero(p: Point, vi: Position, vj: Position)
    requires (vi.lng > p.lng) != (vj.lng > p.lng)
    ensures vj.lng - vi.lng != 0.0
  {
  }

  /** How many of the edges 0 .. m-1 of `ring` the point's ray crosses. */
  function Crossings(p: Point, ring: seq<Position>, m: nat): nat
    requires m <= |ring|
  {
    if m == 0 then 0
    else Crossings(p, ring, m - 1) +
         (if EdgeCrosses(p, ring[m - 1], ring[Prev(|ring|, m - 1)]) then 1 else 0)
  }

  /** Even-odd rule: inside when an odd number of edges is crossed. */
  predicate Inside(p: Point, ring: seq<Position>) {
    Crossings(p, ring, |ring|) % 2 == 1
  }

  /**
   * Where the edge meets the point's longitude, its latitude lies between the
   * latitudes of the two ends: the interpolation weight is in [0, 1].
   */
  lemma CrossingBetweenEnds(p: Point, vi: Position, vj: Position)
    requires (vi.lng > p.lng) != (vj.lng > p.lng)
    ensures var c := (vj.lat - vi.lat) * (p.lng - vi.lng) / (vj.lng - vi.lng) + vi.lat;
            (vi.lat <= c <= vj.lat) || (vj.lat <= c <= vi.lat)
  {
    var t := (p.lng - vi.lng) / (vj.lng - vi.lng);
    if vi.lng > p.lng {
      assert t == (vi.lng - p.lng) / (vi.lng - vj.lng);
      RatioInUnit(vi.lng - p.lng, vi.lng - vj.lng);
    } else {
      RatioInUnit(p.lng - vi.lng, vj.lng - vi.lng);
    }
    assert (vj.lat - vi.lat) * (p.lng - vi.lng) / (vj.lng - vi.lng) == (vj.lat - vi.lat) * t;
    var d := vj.lat - vi.lat;
    if d >= 0.0 {
      ProductNonNegative(d, t);
      ProductNonNegative(d, 1.0 - t);
    } else {
      ProductNonNegative(-d, t);
      ProductNonNegative(-d, 1.0 - t);
    }
  }

  /** An edge the ray crosses has at least one end north of the point. */
  lemma CrossingBelowAnEnd(p: Point, vi: Position, vj: Position)
    requires EdgeCrosses(p, vi, vj)
    ensures p.lat < vi.lat || p.lat < vj.lat
  {
    CrossingBetweenEnds(p, vi, vj);
  }

  lemma RatioInUnit(a: real, b: real)
    requires 0.0 <= a <= b && b > 0.0
    ensures 0.0 <= a / b <= 1.0
  {
    var q := a / b;
    assert q * b == a;
    ProductNonNegative(b - a, 1.0 / b);
    assert (b - a) * (1.0 / b) == 1.0 - q;
    ProductNonNegative(a, 1.0 / b);
  }

  lemma ProductNonNegative(a: real, b: real)
    requires a >= 0.0 && b >= 0.0
    ensures a * b >= 0.0
  {
  }

  /**
   * The loop body's crossing test on the coordinates read from vertices `i`
   * and `j`. A crossing is only reported for an edge whose ends lie on
   * opposite sides of the point's longitude (so the division is defined),
   * and only when the point lies below one of the ends' latitudes: the ray
   * cast from the point towards increasing latitude meets the edge.
   */
  method Intersect(point: Point, vi: Position, vj: Position) returns (intersect: bool)
    ensures intersect == EdgeCrosses(point, vi, vj)
    ensures intersect ==> (vi.lng > point.lng) != (vj.lng > point.lng) && vi.lng != vj.lng
    ensures intersect ==> point.lat < vi.lat || point.lat < vj.lat
  {
    var xi := vi.lat;
    var yi := vi.lng;
    var xj := vj.lat;
    var yj := vj.lng;
    intersect := (yi > point.lng) != (yj > point.lng) &&
                 point.lat < (xj - xi) * (point.lng - yi) / (yj - yi) + xi;
    if intersect {
      CrossingBelowAnEnd(point, vi, vj);
    }
  }

  /** `isPointInsidePolygon(point, polygon)`: the loop toggling `inside`. */
  method IsPointInsidePolygon(point: Point, polygon: Polygon) returns (inside: bool)
    ensures inside == Inside(point, polygon.outer)
    ensures polygon.outer == [] ==> !inside
  {
    var coords := polygon.outer;
    inside := false;
    var i: nat := 0;
    var j: int := |coords| - 1;
    while i < |coords|
      invariant i <= |coords|
      invariant i < |coords| ==> j == Prev(|coords|, i)
      invariant inside == (Crossings(point, coords, i) % 2 == 1)
    {
      var intersect := Intersect(point, coords[i], coords[j]);
      if intersect {
        inside := !inside;
      }
      j := i;
      i := i + 1;
    }
  }

  /** A point whose longitude no edge straddles crosses nothing. */
  lemma {:induction false} NoStraddleNoCrossing(p: Point, ring: seq<Position>, m: nat)
    requires m <= |ring|
    requires (forall k :: 0 <= k < |ring| ==> ring[k].lng > p.lng) ||
             (forall k :: 0 <= k < |ring| ==> ring[k].lng <= p.lng)
    ensures Crossings(p, ring, m) == 0
  {
    if m > 0 {
      NoStraddleNoCrossing(p, ring, m - 1);
      var j := Prev(|ring|, m - 1);
      assert (ring[m - 1].lng > p.lng) == (ring[j].lng > p.lng);
    }
  }

  /** A point whose longitude lies strictly west of every vertex, or at or east of every vertex, is outside. */
  lemma OutsideWhenNoStraddle(p: Point, ring: seq<Position>)
    requires (forall k :: 0 <= k < |ring| ==> ring[k].lng > p.lng) ||
             (forall k :: 0 <= k < |ring| ==> ring[k].lng <= p.lng)
    ensures !Inside(p, ring)
  {
    NoStraddleNoCrossing(p, ring, |ring|);
  }

  /** The closed unit square of GeoJSON: its centre is inside; points east of it and north of it are not. */
  lemma UnitSquare()
    ensures var square := [Position(0.0, 0.0), Position(1.0, 0.0), Position(1.0, 1.0),
                           Position(0.0, 1.0), Position(0.0, 0.0)];
            Inside(Point(0.5, 0.5), square) && !Inside(Point(0.5, 2.0), square) &&
            !Inside(Point(2.0, 0.5), square)
  {
    var square := [Position(0.0, 0.0), Position(1.0, 0.0), Position(1.0, 1.0),
                   Position(0.0, 1.0), Position(0.0, 0.0)];
    var centre, north := Point(0.5, 0.5), Point(2.0, 0.5);
    assert Crossings(centre, square, 1) == 0;
    assert Crossings(centre, square, 2) == 0;
    assert Crossings(centre, square, 3) == 0;
    assert Crossings(centre, square, 4) == 1;
    assert Crossings(centre, square, 5) == 1;
    assert Crossings(north, square, 1) == 0;
    assert Crossings(north, square, 2) == 0;
    assert Crossings(north, square, 3) == 0;
    assert Crossings(north, square, 4) == 0;
    assert Crossings(north, square, 5) == 0;
    OutsideWhenNoStraddle(Point(0.5, 2.0), square);
  }

  /** Every vertex of `ring` is inside `outer`'s outer ring. */
  predicate AllVerticesInside(ring: seq<Position>, outer: Polygon) {
    forall k :: 0 <= k < |ring| ==> Inside(VertexPoint(ring[k]), outer.outer)
  }

  /** Some vertex of `ring` is inside `other`'s outer ring. */
  predicate SomeVertexInside(ring: seq<Position>, other: Polygon) {
    exists k :: 0 <= k < |ring| && Inside(VertexPoint(ring[k]), other.outer)
  }

  /** `isPolygonInsidePolygon(inner, outer)`: every vertex of inner's outer ring is inside. */
  method IsPolygonInsidePolygon(innerPolygon: Polygon, outerPolygon: Polygon) returns (r: bool)
    ensures r == AllVerticesInside(innerPolygon.outer, outerPolygon)
    ensures innerPolygon.outer == [] ==> r
  {
    var innerCoords := innerPolygon.outer;
    var k := 0;
    while k < |innerCoords|
      invariant k <= |innerCoords|
      invariant forall m :: 0 <= m < k ==> Inside(VertexPoint(innerCoords[m]), outerPolygon.outer)
    {
      var inside := IsPointInsidePolygon(VertexPoint(innerCoords[k]), outerPolygon);
      if !inside {
        return false;
      }
      k := k + 1;
    }
    return true;
  }

  /** Two polygons overlap when a vertex of either lies inside the other. */
  predicate Overlap(poly1: Polygon, poly2: Polygon) {
    SomeVertexInside(poly1.outer, poly2) || SomeVertexInside(poly2.outer, poly1)
  }

  lemma OverlapSymmetric(poly1: Polygon, poly2: Polygon)
    ensures Overlap(poly1, poly2) == Overlap(poly2, poly1)
  {
  }

  /** `doPolygonsOverlap(poly1, poly2)`: the two vertex scans with early exits. */
  method DoPolygonsOverlap(poly1: Polygon, poly2: Polygon) returns (r: bool)
    ensures r == Overlap(poly1, poly2)
    ensures r == Overlap(poly2, poly1)
  {
    var coords1 := poly1.outer;
    var coords2 := poly2.outer;
    var k := 0;
    while k < |coords1|
      invariant k <= |coords1|
      invariant forall m :: 0 <= m < k ==> !Inside(VertexPoint(coords1[m]), poly2.outer)
    {
      var inside := IsPointInsidePolygon(VertexPoint(coords1[k]), poly2);
      if inside {
        return true;
      }
      k := k + 1;
    }
    k := 0;
    while k < |coords2|
      invariant k <= |coords2|
      invariant forall m :: 0 <= m < k ==> !Inside(VertexPoint(coords2[m]), poly1.outer)
    {
      var inside := IsPointInsidePolygon(VertexPoint(coords2[k]), poly1);
      if inside {
        return true;
      }
      k := k + 1;
    }
    return false;
  }

  /** `{ valid: true }` or `{ valid: false, error }`. */
  datatype Validation = Valid | Invalid(error: string)

  const NotInsideError: string := "El potrero debe estar completamente dentro de la parcela"
  const OverlapError: string := "El potrero se superpone con otro potrero existente"

  /**
   * `validatePaddockInParcel(paddock, parcel, existingPaddocks)`; the existing
   * paddocks are given by their `geoJSON` polygons. Containment is checked
   * first, then the existing paddocks in order.
   */
  method ValidatePaddockInParcel(paddock: Polygon, parcel: Polygon, existing: seq<Polygon>)
    returns (result: Validation)
    ensures !AllVerticesInside(paddock.outer, parcel) ==> result == Invalid(NotInsideError)
    ensures (AllVerticesInside(paddock.outer, parcel) &&
             exists k :: 0 <= k < |existing| && Overlap(paddock, existing[k])) ==> result == Invalid(OverlapError)
    ensures result == Valid <==>
              AllVerticesInside(paddock.outer, parcel) &&
              forall k :: 0 <= k < |existing| ==> !Overlap(paddock, existing[k])
    ensures existing == [] ==> (result == Valid <==> AllVerticesInside(paddock.outer, parcel))
  {
    var contained := IsPolygonInsidePolygon(paddock, parcel);
    if !contained {
      return Invalid(NotInsideError);
    }
    var k := 0;
    while k < |existing|
      invariant k <= |existing|
      invariant forall m :: 0 <= m < k ==> !Overlap(paddock, existing[m])
    {
      var overlaps := DoPolygonsOverlap(paddock, existing[k]);
      if overlaps {
        return Invalid(OverlapError);
      }
      k := k + 1;
    }
    return Valid;
  }
}
