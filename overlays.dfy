/**
 * The extreme-heat and extreme-cold overlays the map view derives from the
 * transformed points (`src/components/MapView.tsx`, the `visualizationPoints`
 * memo). As written they test the predicates on `intensity`, which the
 * transform keeps in [0, 1]; the predicates are meant for the signed raw value.
 */
module ExtremeOverlays {
  import opened Js
  import opened ClimatUtils

  /** The heat overlay as written: `points.filter(p => isExtremeHeat(p.intensity))`. */
  function HeatOverlayAsWritten(points: seq<HeatmapPoint>): (r: seq<HeatmapPoint>)
    ensures forall k :: 0 <= k < |r| ==> r[k] in points && r[k].intensity >= 3.0
    ensures forall k :: 0 <= k < |points| && points[k].intensity >= 3.0 ==> points[k] in r
  {
    Filter(points, (p: HeatmapPoint) => IsExtremeHeat(Finite(p.intensity)))
  }

  /** The cold overlay as written: `points.filter(p => isExtremeCold(p.intensity))`. */
  function ColdOverlayAsWritten(points: seq<HeatmapPoint>): (r: seq<HeatmapPoint>)
    ensures forall k :: 0 <= k < |r| ==> r[k] in points && r[k].intensity <= -3.0
    ensures forall k :: 0 <= k < |points| && points[k].intensity <= -3.0 ==> points[k] in r
  {
    Filter(points, (p: HeatmapPoint) => IsExtremeCold(Finite(p.intensity)))
  }

  /** Whatever the grid, both overlays as written are empty. */
  lemma {:induction false} OverlaysAsWrittenAlwaysEmpty(lats: seq<Num>, lngs: seq<Num>, vals: seq<Num>)
    ensures var points := Transformed(lats, lngs, vals, MinLength(|lats|, |lngs|, |vals|));
            HeatOverlayAsWritten(points) == [] && ColdOverlayAsWritten(points) == []
  {
    var points := Transformed(lats, lngs, vals, MinLength(|lats|, |lngs|, |vals|));
    FilterNone(points, (p: HeatmapPoint) => IsExtremeHeat(Finite(p.intensity)));
    FilterNone(points, (p: HeatmapPoint) => IsExtremeCold(Finite(p.intensity)));
  }

  /** The heat overlay keyed on the signed raw value, as the predicates intend. */
  function HeatOverlay(points: seq<HeatmapPoint>): (r: seq<HeatmapPoint>)
    ensures forall k :: 0 <= k < |r| ==> r[k] in points && r[k].rawValue >= 3.0
    ensures forall k :: 0 <= k < |points| && points[k].rawValue >= 3.0 ==> points[k] in r
  {
    Filter(points, (p: HeatmapPoint) => IsExtremeHeat(Finite(p.rawValue)))
  }

  /** The cold overlay keyed on the signed raw value. */
  function ColdOverlay(points: seq<HeatmapPoint>): (r: seq<HeatmapPoint>)
    ensures forall k :: 0 <= k < |r| ==> r[k] in points && r[k].rawValue <= -3.0
    ensures forall k :: 0 <= k < |points| && points[k].rawValue <= -3.0 ==> points[k] in r
  {
    Filter(points, (p: HeatmapPoint) => IsExtremeCold(Finite(p.rawValue)))
  }

  /**
   * The corrected overlays hold exactly the points whose clamped value is
   * at least 3 (heat) or at most -3 (cold), and never share a point.
   */
  lemma OverlaysSelectSignedTails(points: seq<HeatmapPoint>)
    ensures forall k :: 0 <= k < |points| && points[k].rawValue >= 3.0 ==> points[k] in HeatOverlay(points)
    ensures forall k :: 0 <= k < |points| && points[k].rawValue <= -3.0 ==> points[k] in ColdOverlay(points)
    ensures forall k :: 0 <= k < |HeatOverlay(points)| ==> HeatOverlay(points)[k].rawValue >= 3.0
    ensures forall k :: 0 <= k < |ColdOverlay(points)| ==> ColdOverlay(points)[k].rawValue <= -3.0
    ensures forall k :: 0 <= k < |HeatOverlay(points)| ==> HeatOverlay(points)[k] !in ColdOverlay(points)
  {
  }

  /** One cell with value 5: the overlay as written misses it, the corrected one shows it. */
  lemma OverlayDiscrepancy()
    ensures var points := Transformed([Finite(0.0)], [Finite(0.0)], [Finite(5.0)], 1);
            HeatOverlayAsWritten(points) == [] && HeatOverlay(points) == points && |points| == 1
  {
    var points := Transformed([Finite(0.0)], [Finite(0.0)], [Finite(5.0)], 1);
    assert points == [HeatmapPoint(0.0, 0.0, 1.0, 5.0, VeryHigh)];
  }
}
