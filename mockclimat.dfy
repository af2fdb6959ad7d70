/**
 * The deterministic part of the agro-climate mock data (`src/data/mockClimatData.ts`):
 * forecast-step labels, the crop-layer catalogue and its lookups, and the
 * crop layers made up for an analysed polygon.
 */
module MockClimatData {
  import opened Js
  import opened Types
  import opened GeoJson
  import ClimatUtils

  // ---------------------------------------------------------------------
  // Forecast steps: `String(hour).padStart(3, '0')`
  // ---------------------------------------------------------------------

  predicate IsDigit(c: char) {
    '0' <= c <= '9'
  }

  predicate AllDigits(s: string) {
    forall k :: 0 <= k < |s| ==> IsDigit(s[k])
  }

  function DigitChar(d: nat): (c: char)
    requires d < 10
    ensures IsDigit(c)
  {
    (48 + d) as char
  }

  /** `String(n)` for a natural number: decimal digits, no leading zero. */
  function DecimalString(n: nat): (s: string)
    ensures |s| >= 1 && AllDigits(s)
    ensures n < 10 ==> |s| == 1
    ensures 10 <= n < 100 ==> |s| == 2
  {
    if n < 10 then [DigitChar(n)] else DecimalString(n / 10) + [DigitChar(n % 10)]
  }

  /** `s.padStart(width, fill)`: fill characters in front up to `width`. */
  function PadStart(s: string, width: nat, fill: char): (r: string)
    ensures |r| == if |s| >= width then |s| else width
    ensures r[|r| - |s|..] == s
    ensures forall k :: 0 <= k < |r| - |s| ==> r[k] == fill
  {
    if |s| >= width then s else seq(width - |s|, _ => fill) + s
  }

  /** The number a digit string denotes. */
  function DecimalValue(s: string): nat
    requires AllDigits(s)
  {
    if s == [] then 0 else DecimalValue(s[..|s| - 1]) * 10 + (s[|s| - 1] as int - 48)
  }

  /** Reading back what `DecimalString` wrote gives the number. */
  lemma {:induction false} DecimalRoundTrip(n: nat)
    ensures DecimalValue(DecimalString(n)) == n
  {
    if n >= 10 {
      DecimalRoundTrip(n / 10);
      var s := DecimalString(n);
      assert s[..|s| - 1] == DecimalString(n / 10);
    }
  }

  /** Leading zeros do not change the value. */
  lemma {:induction false} LeadingZerosIgnored(zeros: string, s: string)
    requires forall k :: 0 <= k < |zeros| ==> zeros[k] == '0'
    requires AllDigits(s)
    ensures AllDigits(zeros + s)
    ensures DecimalValue(zeros + s) == DecimalValue(s)
  {
    if s == [] {
      assert zeros + s == zeros;
      ZerosValue(zeros);
    } else {
      LeadingZerosIgnored(zeros, s[..|s| - 1]);
      assert (zeros + s)[..|zeros + s| - 1] == zeros + s[..|s| - 1];
    }
  }

  lemma {:induction false} ZerosValue(zeros: string)
    requires forall k :: 0 <= k < |zeros| ==> zeros[k] == '0'
    ensures AllDigits(zeros) && DecimalValue(zeros) == 0
  {
    if zeros != [] {
      ZerosValue(zeros[..|zeros| - 1]);
    }
  }

  /** The label of forecast hour `hour`. */
  function StepLabel(hour: nat): string {
    PadStart(DecimalString(hour), 3, '0')
  }

  /** Below 1000 a label has three digits and denotes its hour. */
  lemma StepLabelDenotesHour(hour: nat)
    requires hour < 1000
    ensures |StepLabel(hour)| == 3 && AllDigits(StepLabel(hour))
    ensures DecimalValue(StepLabel(hour)) == hour
  {
    var s := DecimalString(hour);
    if hour >= 100 {
      assert |DecimalString(hour / 10)| == 2;
    }
    var r := StepLabel(hour);
    assert r == r[..|r| - |s|] + s;
    LeadingZerosIgnored(r[..|r| - |s|], s);
    DecimalRoundTrip(hour);
  }

  /** `getMockSteps()`: hours 0, 3, ..., 72, each as a three-digit label. */
  method GetMockSteps() returns (steps: seq<string>)
    ensures |steps| == 25
    ensures forall k :: 0 <= k < |steps| ==> steps[k] == StepLabel(3 * k)
    ensures forall k :: 0 <= k < |steps| ==>
              |steps[k]| == 3 && AllDigits(steps[k]) && DecimalValue(steps[k]) == 3 * k
  {
    steps := [];
    var hour := 0;
    while hour <= 72
      invariant hour == 3 * |steps| && hour <= 75
      invariant forall k :: 0 <= k < |steps| ==> steps[k] == StepLabel(3 * k)
    {
      steps := steps + [StepLabel(hour)];
      hour := hour + 3;
    }
    forall k | 0 <= k < |steps|
      ensures |steps[k]| == 3 && AllDigits(steps[k]) && DecimalValue(steps[k]) == 3 * k
    {
      StepLabelDenotesHour(3 * k);
    }
  }

  /** The steps start at "000", end at "072" and increase strictly. */
  lemma StepsRunFromZeroTo72(steps: seq<string>)
    requires |steps| == 25
    requires forall k :: 0 <= k < |steps| ==> steps[k] == StepLabel(3 * k)
    requires forall k :: 0 <= k < |steps| ==> AllDigits(steps[k]) && DecimalValue(steps[k]) == 3 * k
    ensures steps[0] == "000" && steps[24] == "072"
    ensures forall i, j :: 0 <= i < j < |steps| ==> DecimalValue(steps[i]) < DecimalValue(steps[j])
  {
    assert DecimalString(0) == "0";
    assert DecimalString(72) == DecimalString(7) + "2" == "72";
    assert StepLabel(0) == "00" + "0";
    assert StepLabel(72) == "0" + "72";
  }

  // ---------------------------------------------------------------------
  // Crop layers
  // ---------------------------------------------------------------------

  datatype CropMetadata = CropMetadata(soilType: string, irrigation: string, expectedYield: real)

  /** `CropLayer`; `geometry` is the GeoJSON Feature as a parsed value. */
  datatype CropLayer = CropLayer(
    id: string, cropType: CropType, name: string, area: real,
    currentRiskLevel: ClimatUtils.Severity, geometry: Json, metadata: Option<CropMetadata>)

  function Position(lng: real, lat: real): Json {
    JArray([JNumber(lng), JNumber(lat)])
  }

  /** A closed axis-aligned ring: north-west, north-east, south-east, south-west, north-west. */
  function Rectangle(west: real, east: real, north: real, south: real): Json {
    JArray([Position(west, north), Position(east, north), Position(east, south),
            Position(west, south), Position(west, north)])
  }

  function PolygonOf(ring: Json): Json {
    JObject(map["type" := JString("Polygon"), "coordinates" := JArray([ring])])
  }

  /** `{ type: 'Feature', properties: {}, geometry }` */
  function FeatureOf(geometry: Json): Json {
    JObject(map["type" := JString("Feature"), "properties" := JObject(map[]), "geometry" := geometry])
  }

  /** `getMockCropLayers()` */
  function MockCropLayers(): (r: seq<CropLayer>)
    ensures |r| == 5
    ensures forall i :: 0 <= i < 5 ==> r[i].cropType == GetAllCropTypes()[i]
    ensures forall i, j :: 0 <= i < j < 5 ==> r[i].id != r[j].id
  {
    [MaizLayer(), TrigoLayer(), VidLayer(), PaltoLayer(), ArandanoLayer()]
  }

  function MaizLayer(): CropLayer {
    CropLayer("crop-maiz-1", Maiz, "Ma\U{00ed}z - Valle Central", 450.0, ClimatUtils.Moderate,
              FeatureOf(PolygonOf(Rectangle(-70.7, -70.6, -33.4, -33.5))),
              Some(CropMetadata("Franco-arcilloso", "Goteo", 12000.0)))
  }

  function TrigoLayer(): CropLayer {
    CropLayer("crop-trigo-1", Trigo, "Trigo - Secano", 230.0, ClimatUtils.Low,
              FeatureOf(PolygonOf(Rectangle(-70.8, -70.7, -33.35, -33.45))),
              Some(CropMetadata("Franco-arenoso", "Lluvia", 5500.0)))
  }

  function VidLayer(): CropLayer {
    CropLayer("crop-vid-1", Vid, "Vid - Valle del Maipo", 180.0, ClimatUtils.High,
              FeatureOf(PolygonOf(Rectangle(-70.75, -70.65, -33.5, -33.6))),
              Some(CropMetadata("Franco", "Goteo", 8000.0)))
  }

  function PaltoLayer(): CropLayer {
    CropLayer("crop-palto-1", Palto, "Palto - La Cruz", 120.0, ClimatUtils.Moderate,
              FeatureOf(PolygonOf(Rectangle(-70.95, -70.85, -33.3, -33.38))),
              Some(CropMetadata("Franco-limoso", "Microaspersi\U{00f3}n", 15000.0)))
  }

  function ArandanoLayer(): CropLayer {
    CropLayer("crop-arandano-1", Arandano, "Ar\U{00e1}ndano - Colina", 85.0, ClimatUtils.VeryHigh,
              FeatureOf(PolygonOf(Rectangle(-70.55, -70.45, -33.15, -33.25))),
              Some(CropMetadata("\U{00c1}cido", "Goteo", 9000.0)))
  }

  function OfType(t: CropType): CropLayer -> bool {
    (layer: CropLayer) => layer.cropType == t
  }

  /** `getCropLayersByType(type)` */
  function GetCropLayersByType(t: CropType): (r: seq<CropLayer>)
    ensures forall k :: 0 <= k < |r| ==> r[k].cropType == t && r[k] in MockCropLayers()
    ensures forall k :: 0 <= k < |MockCropLayers()| && MockCropLayers()[k].cropType == t ==> MockCropLayers()[k] in r
  {
    var r := Filter(MockCropLayers(), OfType(t));
    assert forall k :: 0 <= k < |r| ==> OfType(t)(r[k]);
    r
  }

  /** `getAllCropTypes()` */
  function GetAllCropTypes(): (r: seq<CropType>)
    ensures |r| == 5 && Distinct(r)
  {
    [Maiz, Trigo, Vid, Palto, Arandano]
  }

  /**
   * The catalogue has one layer per crop type, listed in the order of
   * `getAllCropTypes`; so each lookup yields exactly that one layer.
   */
  lemma OneLayerPerCropType(t: CropType)
    ensures forall k :: 0 <= k < 5 ==> MockCropLayers()[k].cropType == GetAllCropTypes()[k]
    ensures GetCropLayersByType(t) == [MockCropLayers()[IndexOf(t)]]
  {
    var layers := MockCropLayers();
    CatalogueOrder();
    var i := IndexOf(t);
    forall k | 0 <= k < 5 && k != i
      ensures !OfType(t)(layers[k])
    {
      assert GetAllCropTypes()[k] != GetAllCropTypes()[i];
    }
    FilterSingleMatch(layers, OfType(t), i);
  }

  lemma CatalogueOrder()
    ensures forall k :: 0 <= k < 5 ==> MockCropLayers()[k].cropType == GetAllCropTypes()[k]
  {
  }

  /** Position of a crop type in the catalogue. */
  function IndexOf(t: CropType): (k: nat)
    ensures k < 5 && GetAllCropTypes()[k] == t
  {
    match t
    case Maiz => 0
    case Trigo => 1
    case Vid => 2
    case Palto => 3
    case Arandano => 4
  }

  /** `getAllCropTypes` lists every crop type. */
  lemma AllCropTypesListed(t: CropType)
    ensures t in GetAllCropTypes()
  {
    var k := IndexOf(t);
  }

  /** A Feature wrapping a rectangle is accepted, whatever its bounds. */
  lemma RectangleFeatureAccepted(west: real, east: real, north: real, south: real)
    ensures Accepted(FeatureOf(PolygonOf(Rectangle(west, east, north, south))))
  {
    var g := FeatureOf(PolygonOf(Rectangle(west, east, north, south)));
    var poly := Prop(g, "geometry");
    assert Prop(g, "type") == Some(JString("Feature"));
    assert poly.Some? && Prop(poly.value, "type") == Some(JString("Polygon"));
    var rings := Prop(poly.value, "coordinates");
    assert rings.Some? && rings.value.JArray? && |rings.value.items| == 1;
    var ring := rings.value.items[0];
    assert ring.JArray? && |ring.items| == 5;
    assert forall m :: 0 <= m < 5 ==> ValidPosition(ring.items[m]);
  }

  /** Every catalogue geometry is a Feature the GeoJSON validation accepts. */
  lemma MockGeometriesValid(k: nat)
    requires k < 5
    ensures Accepted(MockCropLayers()[k].geometry)
  {
    if k == 0 {
      RectangleFeatureAccepted(-70.7, -70.6, -33.4, -33.5);
    } else if k == 1 {
      RectangleFeatureAccepted(-70.8, -70.7, -33.35, -33.45);
    } else if k == 2 {
      RectangleFeatureAccepted(-70.75, -70.65, -33.5, -33.6);
    } else if k == 3 {
      RectangleFeatureAccepted(-70.95, -70.85, -33.3, -33.38);
    } else {
      RectangleFeatureAccepted(-70.55, -70.45, -33.15, -33.25);
    }
  }

  // ---------------------------------------------------------------------
  // Analysis crops
  // ---------------------------------------------------------------------

  /**
   * `x.length === 0`: an empty array, an empty string, or an object whose own
   * `length` property is the number 0. Numbers, booleans and `null` never
   * reach this test, since the guard stops at falsy values and numbers have
   * no `length`.
   */
  predicate HasZeroLength(j: Json) {
    || (j.JArray? && |j.items| == 0)
    || (j.JString? && |j.s| == 0)
    || (j.JObject? && "length" in j.props && j.props["length"] == JNumber(0.0))
  }

  /** The guard `!polygon || !polygon.coordinates || polygon.coordinates.length === 0`; `None` is `undefined`. */
  predicate NoAnalysableCoordinates(polygon: Option<Json>) {
    || polygon.None?
    || !Truthy(polygon.value)
    || Prop(polygon.value, "coordinates").None?
    || !Truthy(Prop(polygon.value, "coordinates").value)
    || HasZeroLength(Prop(polygon.value, "coordinates").value)
  }

  /** `getMockAnalysisCrops(polygonGeoJSON)` */
  function GetMockAnalysisCrops(polygon: Option<Json>): (r: seq<CropLayer>)
    ensures NoAnalysableCoordinates(polygon) <==> r == []
  {
    if NoAnalysableCoordinates(polygon) then []
    else
      var feature := FeatureOf(polygon.value);
      [ CropLayer("analysis-maiz", Maiz, "Ma\U{00ed}z (Lote A)", 145.0, ClimatUtils.Moderate, feature, None),
        CropLayer("analysis-trigo", Trigo, "Trigo (Lote B)", 89.0, ClimatUtils.Low, feature, None),
        CropLayer("analysis-vid", Vid, "Vid (Lote C)", 34.0, ClimatUtils.High, feature, None) ]
  }

  /**
   * With usable coordinates the result is three layers, maize, wheat and
   * vine, each a Feature wrapping the given polygon itself.
   */
  lemma AnalysisCropsWrapPolygon(polygon: Option<Json>)
    requires !NoAnalysableCoordinates(polygon)
    ensures var r := GetMockAnalysisCrops(polygon);
            && |r| == 3
            && r[0].cropType == Maiz && r[1].cropType == Trigo && r[2].cropType == Vid
            && forall k :: 0 <= k < 3 ==>
                 Prop(r[k].geometry, "type") == Some(JString("Feature")) &&
                 Prop(r[k].geometry, "geometry") == polygon
  {
  }

  /**
   * Any polygon the GeoJSON validation accepts can be analysed, and every
   * analysis layer's geometry is then itself an accepted Feature.
   */
  lemma AnalysisOfValidPolygon(polygon: Json)
    requires Accepted(polygon) && Prop(polygon, "type") == Some(JString("Polygon"))
    ensures |GetMockAnalysisCrops(Some(polygon))| == 3
    ensures forall k :: 0 <= k < 3 ==> Accepted(GetMockAnalysisCrops(Some(polygon))[k].geometry)
  {
    assert !NoAnalysableCoordinates(Some(polygon));
    var f := FeatureOf(polygon);
    assert Prop(f, "type") == Some(JString("Feature"));
    assert Prop(f, "geometry") == Some(polygon);
    assert Accepted(f);
  }

  /** An object with an empty coordinate list, and one without coordinates, give no layers. */
  lemma AnalysisRejectsEmptyCoordinates()
    ensures GetMockAnalysisCrops(Some(JObject(map["type" := JString("Polygon"), "coordinates" := JArray([])]))) == []
    ensures GetMockAnalysisCrops(Some(JObject(map["type" := JString("Polygon")]))) == []
    ensures GetMockAnalysisCrops(Some(JNull)) == [] && GetMockAnalysisCrops(None) == []
    ensures GetMockAnalysisCrops(Some(JObject(map["coordinates" := JObject(map["length" := JNumber(0.0)])]))) == []
  {
    var a := JObject(map["type" := JString("Polygon"), "coordinates" := JArray([])]);
    assert Prop(a, "coordinates") == Some(JArray([]));
    var b := JObject(map["type" := JString("Polygon")]);
    assert Prop(b, "coordinates") == None;
    var lengthZero := JObject(map["length" := JNumber(0.0)]);
    var c := JObject(map["coordinates" := lengthZero]);
    assert Prop(c, "coordinates") == Some(lengthZero);
    assert HasZeroLength(lengthZero);
  }
}
