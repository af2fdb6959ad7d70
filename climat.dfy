/**
 * The climate severity pipeline of `src/utils/climatUtils.ts`: raw standardized
 * index values on a grid become clamped, magnitude-normalized and classified
 * heat-map points, plus the fixed colour, label and recommendation tables.
 */
module ClimatUtils {
  import opened Js
  import opened TextEncoding

  /** The five ordinal severity buckets, low to high. */
  datatype Severity = VeryLow | Low | Moderate | High | VeryHigh

  /** Position of a bucket on the ordinal scale, VERY_LOW = 0 ... VERY_HIGH = 4. */
  function Rank(s: Severity): (n: nat)
    ensures n <= 4
  {
    match s
    case VeryLow => 0
    case Low => 1
    case Moderate => 2
    case High => 3
    case VeryHigh => 4
  }

  const ClampMin: real := -8.0
  const ClampMax: real := 8.0
  /** |value| at which the intensity saturates. */
  const MaxSeverityRef: real := 5.0

  function Abs(x: real): real {
    if x < 0.0 then -x else x
  }

  /** `Math.max(CLAMP_MIN, Math.min(CLAMP_MAX, v))` on a finite value. */
  function Clamp(v: real): (r: real)
    ensures ClampMin <= r <= ClampMax
    ensures ClampMin <= v <= ClampMax ==> r == v
    ensures v > ClampMax ==> r == ClampMax
    ensures v < ClampMin ==> r == ClampMin
  {
    var upper := if ClampMax < v then ClampMax else v;
    if ClampMin > upper then ClampMin else upper
  }

  /** `Math.min(1.0, Math.abs(raw) / MAX_SEVERITY_REF)`: the heat-map colour weight. */
  function Intensity(raw: real): (r: real)
    ensures 0.0 <= r <= 1.0
    ensures r == 0.0 <==> raw == 0.0
    ensures Abs(raw) >= MaxSeverityRef ==> r == 1.0
  {
    var scaled := Abs(raw) / MaxSeverityRef;
    if 1.0 < scaled then 1.0 else scaled
  }

  /** The intensity never decreases as the magnitude grows. */
  lemma IntensityMonotone(a: real, b: real)
    requires Abs(a) <= Abs(b)
    ensures Intensity(a) <= Intensity(b)
  {
  }

  /**
   * `categorizeSeverity(value)`: thresholds 1, 2, 3, 4 on `Math.abs(value)`.
   * NaN and the infinities fail every `<` test and fall through to VERY_HIGH.
   */
  function CategorizeSeverity(value: Num): (r: Severity)
    ensures r == VeryLow <==> value.Finite? && Abs(value.r) < 1.0
    ensures r == VeryHigh <==> !(value.Finite? && Abs(value.r) < 4.0)
  {
    match value
    case Finite(v) =>
      var absVal := Abs(v);
      if absVal < 1.0 then VeryLow
      else if absVal < 2.0 then Low
      else if absVal < 3.0 then Moderate
      else if absVal < 4.0 then High
      else VeryHigh
    case _ => VeryHigh
  }

  /** Each bucket covers one unit of magnitude; VERY_HIGH is everything from 4 on. */
  lemma SeverityBands(v: real)
    ensures Rank(CategorizeSeverity(Finite(v))) < 4 ==>
              Rank(CategorizeSeverity(Finite(v))) as real <= Abs(v) < Rank(CategorizeSeverity(Finite(v))) as real + 1.0
    ensures CategorizeSeverity(Finite(v)) == VeryHigh <==> Abs(v) >= 4.0
    ensures CategorizeSeverity(Finite(v)) == VeryLow <==> Abs(v) < 1.0
  {
  }

  /** The classification only looks at the magnitude. */
  lemma SeveritySymmetric(v: real)
    ensures CategorizeSeverity(Finite(-v)) == CategorizeSeverity(Finite(v))
  {
  }

  /** A larger magnitude never gives a lower bucket. */
  lemma SeverityMonotone(a: real, b: real)
    requires Abs(a) <= Abs(b)
    ensures Rank(CategorizeSeverity(Finite(a))) <= Rank(CategorizeSeverity(Finite(b)))
  {
  }

  /** Non-finite inputs land in the top bucket. */
  lemma SeverityOfNonFinite(value: Num)
    requires !value.IsFinite()
    ensures CategorizeSeverity(value) == VeryHigh
  {
  }

  /** `isExtremeHeat(value)`: `value >= 3.0` on the signed raw value. */
  predicate IsExtremeHeat(value: Num)
    ensures IsExtremeHeat(value) ==> !value.NaN? && Rank(CategorizeSeverity(value)) >= Rank(High)
  {
    value.AtLeast(3.0)
  }

  /** `isExtremeCold(value)`: `value <= -3.0` on the signed raw value. */
  predicate IsExtremeCold(value: Num)
    ensures IsExtremeCold(value) ==> !value.NaN? && Rank(CategorizeSeverity(value)) >= Rank(High)
  {
    value.AtMost(-3.0)
  }

  /** The two tails are disjoint and each is exactly its threshold test. */
  lemma ExtremesDisjoint(value: Num)
    ensures !(IsExtremeHeat(value) && IsExtremeCold(value))
    ensures value.Finite? ==> (IsExtremeHeat(value) <==> value.r >= 3.0)
    ensures value.Finite? ==> (IsExtremeCold(value) <==> value.r <= -3.0)
    ensures value.NaN? ==> !IsExtremeHeat(value) && !IsExtremeCold(value)
  {
  }

  /** An extreme value of either sign is at least HIGH on the symmetric scale. */
  lemma ExtremeIsHighSeverity(v: real)
    requires IsExtremeHeat(Finite(v)) || IsExtremeCold(Finite(v))
    ensures Rank(CategorizeSeverity(Finite(v))) >= Rank(High)
  {
  }

  /** One emitted point: the fields the code pushes (not the declared `HeatmapPoint` type). */
  datatype HeatmapPoint = HeatmapPoint(lat: real, lng: real, intensity: real, rawValue: real, severity: Severity)

  /** The invariant every emitted point satisfies. */
  predicate WellFormed(p: HeatmapPoint) {
    && ClampMin <= p.rawValue <= ClampMax
    && 0.0 <= p.intensity <= 1.0
    && p.intensity == Intensity(p.rawValue)
    && p.severity == CategorizeSeverity(Finite(p.rawValue))
  }

  /** `Math.min(a, b, c)` on array lengths. */
  function MinLength(a: nat, b: nat, c: nat): (m: nat)
    ensures m <= a && m <= b && m <= c
    ensures m == a || m == b || m == c
  {
    if a <= b && a <= c then a else if b <= c then b else c
  }

  /** Index `i` exists in all three arrays and holds three finite numbers. */
  predicate AllFinite(lats: seq<Num>, lngs: seq<Num>, vals: seq<Num>, i: nat) {
    i < |lats| && i < |lngs| && i < |vals| &&
    lats[i].IsFinite() && lngs[i].IsFinite() && vals[i].IsFinite()
  }

  /** The point index `i` contributes. */
  function PointAt(lats: seq<Num>, lngs: seq<Num>, vals: seq<Num>, i: nat): (p: HeatmapPoint)
    requires AllFinite(lats, lngs, vals, i)
    ensures WellFormed(p)
    ensures p.lat == lats[i].r && p.lng == lngs[i].r
    ensures p.rawValue == Clamp(vals[i].r)
  {
    var raw := Clamp(vals[i].r);
    HeatmapPoint(lats[i].r, lngs[i].r, Intensity(raw), raw, CategorizeSeverity(Finite(raw)))
  }

  /** The points the first `n` indices produce, in index order. */
  function Transformed(lats: seq<Num>, lngs: seq<Num>, vals: seq<Num>, n: nat): (r: seq<HeatmapPoint>)
    requires n <= MinLength(|lats|, |lngs|, |vals|)
    ensures |r| <= n
    ensures forall k :: 0 <= k < |r| ==> WellFormed(r[k])
  {
    if n == 0 then []
    else Transformed(lats, lngs, vals, n - 1) +
         (if AllFinite(lats, lngs, vals, n - 1) then [PointAt(lats, lngs, vals, n - 1)] else [])
  }

  /** The indices below `n` that hold three finite numbers, ascending. */
  function ValidIndices(lats: seq<Num>, lngs: seq<Num>, vals: seq<Num>, n: nat): (r: seq<nat>)
    requires n <= MinLength(|lats|, |lngs|, |vals|)
    ensures forall k :: 0 <= k < |r| ==> r[k] < n && AllFinite(lats, lngs, vals, r[k])
    ensures forall k, l :: 0 <= k < l < |r| ==> r[k] < r[l]
    ensures forall i :: 0 <= i < n && AllFinite(lats, lngs, vals, i) ==> i in r
  {
    if n == 0 then []
    else ValidIndices(lats, lngs, vals, n - 1) + (if AllFinite(lats, lngs, vals, n - 1) then [n - 1] else [])
  }

  /**
   * The k-th emitted point comes from the k-th all-finite index: exactly the
   * all-finite indices contribute, each once, in ascending index order.
   */
  lemma {:induction false} TransformedSelectsFiniteIndices(lats: seq<Num>, lngs: seq<Num>, vals: seq<Num>, n: nat)
    requires n <= MinLength(|lats|, |lngs|, |vals|)
    ensures |Transformed(lats, lngs, vals, n)| == |ValidIndices(lats, lngs, vals, n)|
    ensures forall k :: 0 <= k < |Transformed(lats, lngs, vals, n)| ==>
              Transformed(lats, lngs, vals, n)[k] == PointAt(lats, lngs, vals, ValidIndices(lats, lngs, vals, n)[k])
  {
    if n > 0 {
      TransformedSelectsFiniteIndices(lats, lngs, vals, n - 1);
    }
  }

  /** The number of emitted points is the number of all-finite indices. */
  lemma {:induction false} TransformedCount(lats: seq<Num>, lngs: seq<Num>, vals: seq<Num>, n: nat)
    requires n <= MinLength(|lats|, |lngs|, |vals|)
    ensures |Transformed(lats, lngs, vals, n)| == |set i: nat | i < n && AllFinite(lats, lngs, vals, i)|
  {
    if n > 0 {
      TransformedCount(lats, lngs, vals, n - 1);
      var before := set i: nat | i < n - 1 && AllFinite(lats, lngs, vals, i);
      var after := set i: nat | i < n && AllFinite(lats, lngs, vals, i);
      if AllFinite(lats, lngs, vals, n - 1) {
        assert after == before + {n - 1};
        assert n - 1 !in before;
      } else {
        assert after == before;
      }
    }
  }

  /** Trailing entries beyond the shortest array are never looked at. */
  lemma {:induction false} TransformedIgnoresTail(lats: seq<Num>, lngs: seq<Num>, vals: seq<Num>,
                                                   extra: seq<Num>, n: nat)
    requires n <= MinLength(|lats|, |lngs|, |vals|)
    ensures Transformed(lats + extra, lngs, vals, n) == Transformed(lats, lngs, vals, n)
    ensures Transformed(lats, lngs + extra, vals, n) == Transformed(lats, lngs, vals, n)
    ensures Transformed(lats, lngs, vals + extra, n) == Transformed(lats, lngs, vals, n)
  {
    if n > 0 {
      TransformedIgnoresTail(lats, lngs, vals, extra, n - 1);
      assert (lats + extra)[n - 1] == lats[n - 1];
      assert (lngs + extra)[n - 1] == lngs[n - 1];
      assert (vals + extra)[n - 1] == vals[n - 1];
    }
  }

  /**
   * `transformToHeatmapPoints(latitudes, longitudes, stiValues, min, max)`.
   * `min` and `max` are accepted and never influence the result: the
   * range normalisation the source computes from them is never read.
   */
  method TransformToHeatmapPoints(latitudes: seq<Num>, longitudes: seq<Num>, stiValues: seq<Num>,
                                  min: Option<Num>, max: Option<Num>)
    returns (points: seq<HeatmapPoint>)
    ensures points == Transformed(latitudes, longitudes, stiValues,
                                  MinLength(|latitudes|, |longitudes|, |stiValues|))
    ensures |points| <= MinLength(|latitudes|, |longitudes|, |stiValues|)
    ensures forall k :: 0 <= k < |points| ==> WellFormed(points[k])
  {
    var length := MinLength(|latitudes|, |longitudes|, |stiValues|);
    points := [];
    var i := 0;
    while i < length
      invariant i <= length
      invariant points == Transformed(latitudes, longitudes, stiValues, i)
    {
      var lat := latitudes[i];
      var lng := longitudes[i];
      var rawValue := stiValues[i];
      if lat.IsFinite() && lng.IsFinite() && rawValue.IsFinite() {
        var raw := Clamp(rawValue.r);
        var intensity := Intensity(raw);
        points := points + [HeatmapPoint(lat.r, lng.r, intensity, raw, CategorizeSeverity(Finite(raw)))];
      }
      i := i + 1;
    }
  }

  /** Three cells, the last one NaN: the end-to-end scenario of the design. */
  lemma TransformScenario()
    ensures Transformed([Finite(10.0), Finite(20.0), Finite(30.0)], [Finite(10.0), Finite(20.0), Finite(30.0)],
                        [Finite(0.0), Finite(100.0), NaN], 3)
            == [HeatmapPoint(10.0, 10.0, 0.0, 0.0, VeryLow), HeatmapPoint(20.0, 20.0, 1.0, 8.0, VeryHigh)]
  {
  }

  /** `toLeafletHeatFormat(points)` of this file: `[lat, lng, intensity]` per point. */
  function ToLeafletHeatFormat(points: seq<HeatmapPoint>): (r: seq<(real, real, real)>)
    ensures |r| == |points|
    ensures forall k :: 0 <= k < |r| ==> r[k] == (points[k].lat, points[k].lng, points[k].intensity)
  {
    seq(|points|, k requires 0 <= k < |points| => (points[k].lat, points[k].lng, points[k].intensity))
  }

  /** Every weight handed to the heat layer from a transform lies in [0, 1]. */
  lemma LeafletWeightsInUnitRange(lats: seq<Num>, lngs: seq<Num>, vals: seq<Num>)
    ensures var r := ToLeafletHeatFormat(Transformed(lats, lngs, vals, MinLength(|lats|, |lngs|, |vals|)));
            forall k :: 0 <= k < |r| ==> 0.0 <= r[k].2 <= 1.0
  {
    var points := Transformed(lats, lngs, vals, MinLength(|lats|, |lngs|, |vals|));
    var r := ToLeafletHeatFormat(points);
    forall k | 0 <= k < |r|
      ensures 0.0 <= r[k].2 <= 1.0
    {
      assert r[k].2 == points[k].intensity && WellFormed(points[k]);
    }
  }

  /** `SEVERITY_COLORS` and `getSeverityColor`. */
  function SeverityColor(s: Severity): (r: string)
    ensures |r| == 7 && r[0] == '#'
    ensures forall k :: 1 <= k < 7 ==> r[k] in "0123456789ABCDEF"
  {
    match s
    case VeryLow => "#22C55E"
    case Low => "#84CC16"
    case Moderate => "#EAB308"
    case High => "#F97316"
    case VeryHigh => "#DC2626"
  }

  /** `SEVERITY_LABELS` and `getSeverityLabel`. */
  function SeverityLabel(s: Severity): (r: string)
    ensures |r| >= 4
    ensures r[..4] == "Muy " <==> s == VeryLow || s == VeryHigh
  {
    match s
    case VeryLow => "Muy Bajo"
    case Low => assert "Bajo"[0] != 'M'; "Bajo"
    case Moderate => assert "Moderado"[1] != 'u'; "Moderado"
    case High => assert "Alto"[0] != 'M'; "Alto"
    case VeryHigh => "Muy Alto"
  }

  /**
   * `getRecommendation(severity)` as the source file holds it: every
   * non-ASCII character was stored as its UTF-8 bytes read as Mac OS Roman.
   * Both this and `Recommendation` are written as runs of ASCII text
   * between the non-ASCII characters.
   */
  function RecommendationAsWritten(s: Severity): (r: string)
    ensures |r| > 0
    ensures r[0] == if s == VeryHigh then '\U{f8ff}' else '\U{201a}'
  {
    match s
    case VeryLow =>
      "\U{201a}\U{00fa}\U{00d6}" + " Condiciones " + "\U{221a}\U{2265}" + "ptimas. Continuar con pr"
      + "\U{221a}\U{00b0}" + "cticas normales."
    case Low =>
      "\U{201a}\U{00fa}\U{00d6}" + " Condiciones favorables." + " Monitoreo regular" + " recomendado."
    case Moderate =>
      "\U{201a}\U{00f6}\U{2020}" + "\U{00d4}\U{220f}\U{00e8}" + " Condiciones moderadas." + " Implementar medidas"
      + " preventivas."
    case High =>
      "\U{201a}\U{00f6}\U{2020}" + "\U{00d4}\U{220f}\U{00e8}" + " Riesgo elevado." + " Aplicar medidas"
      + " de mitigaci" + "\U{221a}\U{2265}" + "n inmediatas."
    case VeryHigh =>
      "\U{f8ff}\U{00fc}\U{00f6}\U{00ae}" + " Riesgo cr" + "\U{221a}\U{2260}" + "tico. Acci" + "\U{221a}\U{2265}"
      + "n urgente requerida."
  }

  /** The recommendation texts as intended: check mark, warning sign and siren, accented Spanish. */
  function Recommendation(s: Severity): (r: string)
    ensures |r| > 0
    ensures r[0] == if Rank(s) <= 1 then '\U{2705}' else if Rank(s) <= 3 then '\U{26a0}' else '\U{1f6a8}'
  {
    match s
    case VeryLow =>
      "\U{2705}" + " Condiciones " + "\U{00f3}" + "ptimas. Continuar con pr" + "\U{00e1}" + "cticas normales."
    case Low =>
      "\U{2705}" + " Condiciones favorables." + " Monitoreo regular" + " recomendado."
    case Moderate =>
      "\U{26a0}" + "\U{fe0f}" + " Condiciones moderadas." + " Implementar medidas" + " preventivas."
    case High =>
      "\U{26a0}" + "\U{fe0f}" + " Riesgo elevado." + " Aplicar medidas" + " de mitigaci" + "\U{00f3}"
      + "n inmediatas."
    case VeryHigh =>
      "\U{1f6a8}" + " Riesgo cr" + "\U{00ed}" + "tico. Acci" + "\U{00f3}" + "n urgente requerida."
  }

  /** The check mark (three UTF-8 bytes), misread. */
  lemma MisreadCheckMark()
    ensures ReadChar('\U{2705}') == "\U{201a}\U{00fa}\U{00d6}"
  {
    assert Utf8('\U{2705}') == [0xE2, 0x9C, 0x85];
    ReadThree(0xE2, 0x9C, 0x85);
    assert MacRoman(0xE2) == '\U{201a}' && MacRoman(0x9C) == '\U{00fa}' && MacRoman(0x85) == '\U{00d6}';
  }

  /** The warning sign, misread. */
  lemma MisreadWarningSign()
    ensures ReadChar('\U{26a0}') == "\U{201a}\U{00f6}\U{2020}"
  {
    assert Utf8('\U{26a0}') == [0xE2, 0x9A, 0xA0];
    ReadThree(0xE2, 0x9A, 0xA0);
    assert MacRoman(0xE2) == '\U{201a}' && MacRoman(0x9A) == '\U{00f6}' && MacRoman(0xA0) == '\U{2020}';
  }

  /** The variation selector that asks for the emoji form of the warning sign, misread. */
  lemma MisreadVariationSelector()
    ensures ReadChar('\U{fe0f}') == "\U{00d4}\U{220f}\U{00e8}"
  {
    assert Utf8('\U{fe0f}') == [0xEF, 0xB8, 0x8F];
    ReadThree(0xEF, 0xB8, 0x8F);
    assert MacRoman(0xEF) == '\U{00d4}' && MacRoman(0xB8) == '\U{220f}' && MacRoman(0x8F) == '\U{00e8}';
  }

  /** The police-car light (four UTF-8 bytes), misread. */
  lemma MisreadSiren()
    ensures ReadChar('\U{1f6a8}') == "\U{f8ff}\U{00fc}\U{00f6}\U{00ae}"
  {
    assert Utf8('\U{1f6a8}') == [0xF0, 0x9F, 0x9A, 0xA8];
    ReadFour(0xF0, 0x9F, 0x9A, 0xA8);
    assert MacRoman(0xF0) == '\U{f8ff}' && MacRoman(0x9F) == '\U{00fc}';
    assert MacRoman(0x9A) == '\U{00f6}' && MacRoman(0xA8) == '\U{00ae}';
  }

  /** The accented vowels (two UTF-8 bytes each), misread. */
  lemma MisreadAccents()
    ensures ReadChar('\U{00f3}') == "\U{221a}\U{2265}"
    ensures ReadChar('\U{00e1}') == "\U{221a}\U{00b0}"
    ensures ReadChar('\U{00ed}') == "\U{221a}\U{2260}"
  {
    assert MacRoman(0xC3) == '\U{221a}';
    assert Utf8('\U{00f3}') == [0xC3, 0xB3];
    ReadTwo(0xC3, 0xB3);
    assert MacRoman(0xB3) == '\U{2265}';
    assert Utf8('\U{00e1}') == [0xC3, 0xA1];
    ReadTwo(0xC3, 0xA1);
    assert MacRoman(0xA1) == '\U{00b0}';
    assert Utf8('\U{00ed}') == [0xC3, 0xAD];
    ReadTwo(0xC3, 0xAD);
    assert MacRoman(0xAD) == '\U{2260}';
  }

  /** Misreading a text made of one character followed by three ASCII runs. */
  lemma MisreadShapeCAAA(c: char, t1: string, t2: string, t3: string)
    requires IsAscii(t1) && IsAscii(t2) && IsAscii(t3)
    ensures MisreadAsMacRoman([c] + t1 + t2 + t3) == ReadChar(c) + t1 + t2 + t3
  {
    MisreadThenAscii([c] + t1 + t2, t3);
    MisreadThenAscii([c] + t1, t2);
    MisreadThenAscii([c], t1);
    MisreadOne(c);
  }

  /** Misreading two characters followed by three ASCII runs. */
  lemma MisreadShapeCCAAA(c1: char, c2: char, t1: string, t2: string, t3: string)
    requires IsAscii(t1) && IsAscii(t2) && IsAscii(t3)
    ensures MisreadAsMacRoman([c1] + [c2] + t1 + t2 + t3) == ReadChar(c1) + ReadChar(c2) + t1 + t2 + t3
  {
    MisreadThenAscii([c1] + [c2] + t1 + t2, t3);
    MisreadThenAscii([c1] + [c2] + t1, t2);
    MisreadThenAscii([c1] + [c2], t1);
    MisreadThenChar([c1], c2);
    MisreadOne(c1);
  }

  /** Misreading two characters, three ASCII runs, a character and an ASCII run. */
  lemma MisreadShapeCCAAACA(c1: char, c2: char, t1: string, t2: string, t3: string, c3: char, t4: string)
    requires IsAscii(t1) && IsAscii(t2) && IsAscii(t3) && IsAscii(t4)
    ensures MisreadAsMacRoman([c1] + [c2] + t1 + t2 + t3 + [c3] + t4)
         == ReadChar(c1) + ReadChar(c2) + t1 + t2 + t3 + ReadChar(c3) + t4
  {
    var head := [c1] + [c2] + t1 + t2 + t3;
    MisreadThenAscii(head + [c3], t4);
    MisreadThenChar(head, c3);
    MisreadShapeCCAAA(c1, c2, t1, t2, t3);
  }

  /** Misreading three characters, each followed by an ASCII run. */
  lemma MisreadShapeCACACA(c1: char, t1: string, c2: char, t2: string, c3: char, t3: string)
    requires IsAscii(t1) && IsAscii(t2) && IsAscii(t3)
    ensures MisreadAsMacRoman([c1] + t1 + [c2] + t2 + [c3] + t3)
         == ReadChar(c1) + t1 + ReadChar(c2) + t2 + ReadChar(c3) + t3
  {
    var p2 := [c1] + t1 + [c2] + t2;
    MisreadThenAscii(p2 + [c3], t3);
    MisreadThenChar(p2, c3);
    MisreadThenAscii([c1] + t1 + [c2], t2);
    MisreadThenChar([c1] + t1, c2);
    MisreadThenAscii([c1], t1);
    MisreadOne(c1);
  }

  lemma MisdecodedVeryLow(s: Severity)
    requires s == VeryLow
    ensures RecommendationAsWritten(s) == MisreadAsMacRoman(Recommendation(s))
  {
    var check, oAcute, aAcute := '\U{2705}', '\U{00f3}', '\U{00e1}';
    var t1, t2, t3 := " Condiciones ", "ptimas. Continuar con pr", "cticas normales.";
    var text := [check] + t1 + [oAcute] + t2 + [aAcute] + t3;
    assert Recommendation(s) == text;
    MisreadShapeCACACA(check, t1, oAcute, t2, aAcute, t3);
    MisreadCheckMark();
    MisreadAccents();
  }

  lemma MisdecodedLow(s: Severity)
    requires s == Low
    ensures RecommendationAsWritten(s) == MisreadAsMacRoman(Recommendation(s))
  {
    var check := '\U{2705}';
    var t1, t2, t3 := " Condiciones favorables.", " Monitoreo regular", " recomendado.";
    var text := [check] + t1 + t2 + t3;
    assert Recommendation(s) == text;
    MisreadShapeCAAA(check, t1, t2, t3);
    MisreadCheckMark();
  }

  lemma MisdecodedModerate(s: Severity)
    requires s == Moderate
    ensures RecommendationAsWritten(s) == MisreadAsMacRoman(Recommendation(s))
  {
    var warning, selector := '\U{26a0}', '\U{fe0f}';
    var t1, t2, t3 := " Condiciones moderadas.", " Implementar medidas", " preventivas.";
    var text := [warning] + [selector] + t1 + t2 + t3;
    assert Recommendation(s) == text;
    MisreadShapeCCAAA(warning, selector, t1, t2, t3);
    MisreadWarningSign();
    MisreadVariationSelector();
  }

  lemma MisdecodedHigh(s: Severity)
    requires s == High
    ensures RecommendationAsWritten(s) == MisreadAsMacRoman(Recommendation(s))
  {
    var warning, selector, oAcute := '\U{26a0}', '\U{fe0f}', '\U{00f3}';
    var t1, t2, t3, t4 := " Riesgo elevado.", " Aplicar medidas", " de mitigaci", "n inmediatas.";
    var text := [warning] + [selector] + t1 + t2 + t3 + [oAcute] + t4;
    assert Recommendation(s) == text;
    MisreadShapeCCAAACA(warning, selector, t1, t2, t3, oAcute, t4);
    MisreadWarningSign();
    MisreadVariationSelector();
    MisreadAccents();
  }

  lemma MisdecodedVeryHigh(s: Severity)
    requires s == VeryHigh
    ensures RecommendationAsWritten(s) == MisreadAsMacRoman(Recommendation(s))
  {
    var siren, iAcute, oAcute := '\U{1f6a8}', '\U{00ed}', '\U{00f3}';
    var t1, t2, t3 := " Riesgo cr", "tico. Acci", "n urgente requerida.";
    var text := [siren] + t1 + [iAcute] + t2 + [oAcute] + t3;
    assert Recommendation(s) == text;
    MisreadShapeCACACA(siren, t1, iAcute, t2, oAcute, t3);
    MisreadSiren();
    MisreadAccents();
  }

  /**
   * Each recommendation as written is exactly the intended text saved as
   * UTF-8 and read back as Mac OS Roman.
   */
  lemma RecommendationsMisdecoded(s: Severity)
    ensures RecommendationAsWritten(s) == MisreadAsMacRoman(Recommendation(s))
  {
    match s
    case VeryLow => MisdecodedVeryLow(s);
    case Low => MisdecodedLow(s);
    case Moderate => MisdecodedModerate(s);
    case High => MisdecodedHigh(s);
    case VeryHigh => MisdecodedVeryHigh(s);
  }

  /** Every recommendation opens with a symbol outside ASCII, so misreading it changes it. */
  lemma RecommendationsAltered(s: Severity)
    ensures RecommendationAsWritten(s) != Recommendation(s)
  {
    RecommendationsMisdecoded(s);
    var text := Recommendation(s);
    assert text[0] as int >= 0x80;
    NonAsciiIsGarbled(text, 0);
  }

  /**
   * The intended texts open with a check mark for the two lowest buckets, a
   * warning sign for the middle two and a siren for the highest; the texts
   * as written open with a low single quotation mark or the Apple logo.
   */
  lemma RecommendationSymbols(s: Severity)
    ensures Recommendation(s)[0]
         == if Rank(s) <= 1 then '\U{2705}' else if Rank(s) <= 3 then '\U{26a0}' else '\U{1f6a8}'
    ensures RecommendationAsWritten(s)[0] == if s == VeryHigh then '\U{f8ff}' else '\U{201a}'
  {
  }

  /** Every bucket has its own colour and its own label, and none is empty. */
  lemma TablesDistinguishBuckets(s: Severity, t: Severity)
    ensures SeverityColor(s) == SeverityColor(t) ==> s == t
    ensures SeverityLabel(s) == SeverityLabel(t) ==> s == t
    ensures SeverityColor(s) != "" && SeverityLabel(s) != "" && Recommendation(s) != ""
  {
    if SeverityColor(s) == SeverityColor(t) {
      assert SeverityColor(s)[1] == SeverityColor(t)[1];
    }
    if SeverityLabel(s) == SeverityLabel(t) {
      assert |SeverityLabel(s)| == |SeverityLabel(t)|;
      assert SeverityLabel(s)[1] == SeverityLabel(t)[1];
      if |SeverityLabel(s)| == 8 {
        assert SeverityLabel(s)[4] == SeverityLabel(t)[4];
      } else {
        assert SeverityLabel(s)[0] == SeverityLabel(t)[0];
      }
    }
  }

  /** `getHeatmapGradient()`: intensity stop to colour. */
  function HeatmapGradient(): (g: map<real, string>)
    ensures g.Keys == {0.0, 0.25, 0.5, 0.75, 1.0}
  {
    map[0.0 := SeverityColor(VeryLow), 0.25 := SeverityColor(Low), 0.5 := SeverityColor(Moderate),
        0.75 := SeverityColor(High), 1.0 := SeverityColor(VeryHigh)]
  }

  /** The gradient puts the five bucket colours at evenly spaced ascending stops. */
  lemma GradientFollowsSeverityOrder(s: Severity)
    ensures Rank(s) as real / 4.0 in HeatmapGradient()
    ensures HeatmapGradient()[Rank(s) as real / 4.0] == SeverityColor(s)
  {
  }
}
