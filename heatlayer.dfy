/**
 * `toLeafletHeatFormat` of `src/utils/heatmapGenerator.ts`, the converter the
 * map view feeds the heat layer with: drop unusable entries, then emit
 * `[lat, lng, intensity]` triples.
 */
module HeatLayer {
  import opened Js
  import ClimatUtils

  /** A property read off an entry: a number, or any other value (`undefined`, a string, ...). */
  datatype Field = Number(n: Num) | NotANumber

  /** An object entry of the input array. */
  datatype LayerPoint = LayerPoint(lat: Field, lng: Field, intensity: Field)

  /**
   * The argument: not an array at all (`null`, `undefined`, any other value),
   * or an array whose entries are objects (`Some`) or falsy/non-object values (`None`).
   */
  datatype PointsArg = NotAnArray | Array(items: seq<Option<LayerPoint>>)

  /** `typeof f === 'number' && !isNaN(f)` */
  predicate UsableNumber(f: Field) {
    f.Number? && !f.n.IsNaN()
  }

  /** The filter callback: present, three usable numbers, and `intensity > 0`. */
  predicate Kept(e: Option<LayerPoint>) {
    && e.Some?
    && UsableNumber(e.value.lat)
    && UsableNumber(e.value.lng)
    && UsableNumber(e.value.intensity)
    && e.value.intensity.n.GreaterThan(0.0)
  }

  /** The map callback: `[p.lat, p.lng, p.intensity]`. */
  function Triple(e: Option<LayerPoint>): (Num, Num, Num)
    requires Kept(e)
  {
    (e.value.lat.n, e.value.lng.n, e.value.intensity.n)
  }

  function Project(kept: seq<Option<LayerPoint>>): (r: seq<(Num, Num, Num)>)
    requires forall k :: 0 <= k < |kept| ==> Kept(kept[k])
    ensures |r| == |kept|
    ensures forall k :: 0 <= k < |r| ==> r[k] == Triple(kept[k])
  {
    seq(|kept|, k requires 0 <= k < |kept| => Triple(kept[k]))
  }

  /** `toLeafletHeatFormat(points)`. */
  function ToLeafletHeatFormat(points: PointsArg): (r: seq<(Num, Num, Num)>)
    ensures points.NotAnArray? ==> r == []
    ensures points.Array? ==> |r| <= |points.items|
    ensures forall k :: 0 <= k < |r| ==>
              r[k].2.GreaterThan(0.0) && !r[k].0.IsNaN() && !r[k].1.IsNaN() && !r[k].2.IsNaN()
  {
    match points
    case NotAnArray => []
    case Array(items) => Project(Filter(items, Kept))
  }

  /**
   * The conversion works entry by entry and keeps the input order: a
   * concatenation converts to the concatenation of the conversions, and a
   * single entry converts to its triple exactly when the filter keeps it.
   */
  lemma {:induction false} ConversionPreservesOrder(a: seq<Option<LayerPoint>>, b: seq<Option<LayerPoint>>)
    ensures ToLeafletHeatFormat(Array(a + b)) == ToLeafletHeatFormat(Array(a)) + ToLeafletHeatFormat(Array(b))
  {
    FilterAppend(a, b, Kept);
    ProjectAppend(Filter(a, Kept), Filter(b, Kept));
  }

  lemma ProjectAppend(x: seq<Option<LayerPoint>>, y: seq<Option<LayerPoint>>)
    requires forall k :: 0 <= k < |x| ==> Kept(x[k])
    requires forall k :: 0 <= k < |y| ==> Kept(y[k])
    ensures Project(x + y) == Project(x) + Project(y)
  {
    assert |Project(x + y)| == |Project(x) + Project(y)|;
    forall k | 0 <= k < |x| + |y|
      ensures Project(x + y)[k] == (Project(x) + Project(y))[k]
    {
      if k < |x| {
        assert (x + y)[k] == x[k];
      } else {
        assert (x + y)[k] == y[k - |x|];
      }
    }
  }

  lemma SingleEntry(e: Option<LayerPoint>)
    ensures ToLeafletHeatFormat(Array([e])) == if Kept(e) then [Triple(e)] else []
  {
    assert Filter([e], Kept) == (if Kept(e) then [e] else []) + Filter([e][1..], Kept);
  }

  /** +Infinity passes the filter; zero, negative and -Infinity weights do not. */
  lemma WeightBoundaries(lat: real, lng: real, w: real)
    ensures Kept(Some(LayerPoint(Number(Finite(lat)), Number(Finite(lng)), Number(PosInf))))
    ensures !Kept(Some(LayerPoint(Number(Finite(lat)), Number(Finite(lng)), Number(NegInf))))
    ensures w <= 0.0 ==> !Kept(Some(LayerPoint(Number(Finite(lat)), Number(Finite(lng)), Number(Finite(w)))))
  {
  }

  /** The entry the map view hands over for one transformed point. */
  function AsEntry(p: ClimatUtils.HeatmapPoint): Option<LayerPoint> {
    Some(LayerPoint(Number(Finite(p.lat)), Number(Finite(p.lng)), Number(Finite(p.intensity))))
  }

  function AsEntries(points: seq<ClimatUtils.HeatmapPoint>): (r: seq<Option<LayerPoint>>)
    ensures |r| == |points|
    ensures forall k :: 0 <= k < |r| ==> r[k] == AsEntry(points[k])
  {
    seq(|points|, k requires 0 <= k < |points| => AsEntry(points[k]))
  }

  /** A transformed point the layer can show: its clamped value is not 0. */
  predicate NonZero(p: ClimatUtils.HeatmapPoint) {
    p.rawValue != 0.0
  }

  /** The triples of the non-zero points, in order. */
  function ShownTriples(points: seq<ClimatUtils.HeatmapPoint>): (r: seq<(Num, Num, Num)>)
    ensures |r| <= |points|
  {
    var shown := Filter(points, NonZero);
    seq(|shown|, k requires 0 <= k < |shown| => (Finite(shown[k].lat), Finite(shown[k].lng), Finite(shown[k].intensity)))
  }

  lemma ShownTriplesAppend(a: seq<ClimatUtils.HeatmapPoint>, b: seq<ClimatUtils.HeatmapPoint>)
    ensures ShownTriples(a + b) == ShownTriples(a) + ShownTriples(b)
  {
    FilterAppend(a, b, NonZero);
  }

  lemma ShownTriplesSingle(p: ClimatUtils.HeatmapPoint)
    ensures ShownTriples([p]) == if NonZero(p) then [(Finite(p.lat), Finite(p.lng), Finite(p.intensity))] else []
  {
    assert Filter([p], NonZero) == (if NonZero(p) then [p] else []) + Filter([p][1..], NonZero);
  }

  /** One well-formed point: its entry is kept exactly when the point is non-zero. */
  lemma EntryShowsPoint(p: ClimatUtils.HeatmapPoint)
    requires ClimatUtils.WellFormed(p)
    ensures ToLeafletHeatFormat(Array([AsEntry(p)])) == ShownTriples([p])
  {
    SingleEntry(AsEntry(p));
    ShownTriplesSingle(p);
    assert Kept(AsEntry(p)) <==> NonZero(p);
  }

  /**
   * Fed with transformed points, the layer shows exactly the points whose
   * clamped value is non-zero, in order: every raw-0 cell disappears.
   */
  lemma {:induction false} LayerDropsZeroCells(points: seq<ClimatUtils.HeatmapPoint>)
    requires forall k :: 0 <= k < |points| ==> ClimatUtils.WellFormed(points[k])
    ensures ToLeafletHeatFormat(Array(AsEntries(points))) == ShownTriples(points)
  {
    if points != [] {
      var p, rest := points[0], points[1..];
      calc {
        ToLeafletHeatFormat(Array(AsEntries(points)));
        { assert AsEntries(points) == [AsEntry(p)] + AsEntries(rest); }
        ToLeafletHeatFormat(Array([AsEntry(p)] + AsEntries(rest)));
        { ConversionPreservesOrder([AsEntry(p)], AsEntries(rest)); }
        ToLeafletHeatFormat(Array([AsEntry(p)])) + ToLeafletHeatFormat(Array(AsEntries(rest)));
        { EntryShowsPoint(p); LayerDropsZeroCells(rest); }
        ShownTriples([p]) + ShownTriples(rest);
        { ShownTriplesAppend([p], rest); assert [p] + rest == points; }
        ShownTriples(points);
      }
    }
  }
}
