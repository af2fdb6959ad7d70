/**
 * The GeoJSON structural checks of `src/utils/geoJsonLoader.ts` over parsed
 * JSON values, and the polygon-extraction step of `parseGeoJSONFile`.
 * Only a subset of RFC 7946 is enforced: a Polygon's first ring needs at least
 * four positions (section 3.1.6) of at least two numbers each (section 3.1.1),
 * the ring is not required to be closed, and of a FeatureCollection
 * (section 3.3) only the first Feature (section 3.2) is looked at.
 */
module GeoJson {
  import opened Js

  /** A value produced by `JSON.parse`. */
  datatype Json =
    | JNull
    | JBool(b: bool)
    | JNumber(n: real)
    | JString(s: string)
    | JArray(items: seq<Json>)
    | JObject(props: map<string, Json>)

  /** `j.key`: undefined unless `j` is an object holding `key`. */
  function Prop(j: Json, key: string): (r: Option<Json>)
    ensures r.Some? ==> j.JObject? && key in j.props && r.value == j.props[key]
  {
    if j.JObject? && key in j.props then Some(j.props[key]) else None
  }

  /** JavaScript truthiness of a parsed value: `null`, `false`, `0` and `""` are falsy. */
  predicate Truthy(j: Json) {
    match j
    case JNull => false
    case JBool(b) => b
    case JNumber(n) => n != 0.0
    case JString(s) => s != ""
    case _ => true
  }

  /** `o?.key` */
  function PropOf(o: Option<Json>, key: string): Option<Json> {
    if o.Some? then Prop(o.value, key) else None
  }

  /** `o?.type === name` */
  predicate HasType(o: Option<Json>, name: string) {
    PropOf(o, "type") == Some(JString(name))
  }

  /** `o?.[0]`: first element of an array, property "0" of an object, first character of a string. */
  function FirstOf(o: Option<Json>): Option<Json> {
    match o
    case Some(JArray(items)) => if |items| > 0 then Some(items[0]) else None
    case Some(JObject(props)) => if "0" in props then Some(props["0"]) else None
    case Some(JString(s)) => if |s| > 0 then Some(JString([s[0]])) else None
    case _ => None
  }

  /** The outcome of a JavaScript expression that may throw a TypeError. */
  datatype Eval<T> = Returns(value: T) | ThrowsTypeError

  /** One ring entry: an array of length at least 2 whose first two elements are numbers. */
  predicate ValidPosition(c: Json) {
    c.JArray? && |c.items| >= 2 && c.items[0].JNumber? && c.items[1].JNumber?
  }

  /** `validatePolygonCoordinates(coordinates)`: only the first ring is inspected. */
  predicate ValidatePolygonCoordinates(coordinates: Option<Json>)
    ensures ValidatePolygonCoordinates(coordinates) ==>
              coordinates.Some? && coordinates.value.JArray? && |coordinates.value.items| >= 1
  {
    match coordinates
    case Some(JArray(rings)) =>
      && |rings| > 0
      && rings[0].JArray?
      && |rings[0].items| >= 4
      && forall k :: 0 <= k < |rings[0].items| ==> ValidPosition(rings[0].items[k])
    case _ => false
  }

  /** The geometry `g` is a Polygon with valid coordinates. */
  predicate IsValidPolygonGeometry(g: Option<Json>) {
    HasType(g, "Polygon") && ValidatePolygonCoordinates(PropOf(g, "coordinates"))
  }

  /**
   * `validateGeoJSON(geoJSON)`. The FeatureCollection branch reads
   * `features[0].geometry` without optional chaining, so a `null` first
   * feature throws a TypeError.
   */
  function ValidateGeoJson(j: Json): (r: Eval<bool>)
    ensures r == Returns(true) ==>
              j.JObject? && Prop(j, "type") in {Some(JString("Polygon")), Some(JString("Feature")), Some(JString("FeatureCollection"))}
    ensures r == ThrowsTypeError ==> Prop(j, "type") == Some(JString("FeatureCollection"))
  {
    if !(j.JObject? || j.JArray?) then Returns(false)
    else
      var t := Prop(j, "type");
      if t !in {Some(JString("Polygon")), Some(JString("Feature")), Some(JString("FeatureCollection"))} then
        Returns(false)
      else if t == Some(JString("Polygon")) then
        Returns(ValidatePolygonCoordinates(Prop(j, "coordinates")))
      else if t == Some(JString("Feature")) then
        Returns(IsValidPolygonGeometry(Prop(j, "geometry")))
      else
        var features := Prop(j, "features");
        if !(features.Some? && features.value.JArray?) || |features.value.items| == 0 then Returns(false)
        else if features.value.items[0].JNull? then ThrowsTypeError
        else Returns(IsValidPolygonGeometry(Prop(features.value.items[0], "geometry")))
  }

  /** Accepted means: evaluated without throwing and returned true. */
  predicate Accepted(j: Json) {
    ValidateGeoJson(j) == Returns(true)
  }

  /** Anything but an object is rejected, and so is an object of any other `type`. */
  lemma RejectsNonObjectsAndOtherTypes(j: Json)
    ensures !j.JObject? ==> ValidateGeoJson(j) == Returns(false)
    ensures Prop(j, "type") !in {Some(JString("Polygon")), Some(JString("Feature")), Some(JString("FeatureCollection"))}
            ==> ValidateGeoJson(j) == Returns(false)
  {
  }

  /** A Polygon is accepted exactly when its coordinates pass; a Feature exactly when its geometry is such a Polygon. */
  lemma PolygonAndFeatureVerdicts(j: Json)
    ensures Prop(j, "type") == Some(JString("Polygon")) ==>
              (Accepted(j) <==> ValidatePolygonCoordinates(Prop(j, "coordinates")))
    ensures Prop(j, "type") == Some(JString("Feature")) ==>
              (Accepted(j) <==> HasType(Prop(j, "geometry"), "Polygon") &&
                                ValidatePolygonCoordinates(PropOf(Prop(j, "geometry"), "coordinates")))
  {
  }

  /**
   * A FeatureCollection is decided by its first feature alone: features
   * after the first never change the verdict.
   */
  lemma {:induction false} OnlyFirstFeatureCounts(props: map<string, Json>, first: Json, rest: seq<Json>, other: seq<Json>)
    requires "type" in props && props["type"] == JString("FeatureCollection")
    ensures ValidateGeoJson(JObject(props["features" := JArray([first] + rest)]))
            == ValidateGeoJson(JObject(props["features" := JArray([first] + other)]))
    ensures first.JNull? ==> ValidateGeoJson(JObject(props["features" := JArray([first] + rest)])) == ThrowsTypeError
    ensures !first.JNull? ==>
              (Accepted(JObject(props["features" := JArray([first] + rest)])) <==> IsValidPolygonGeometry(Prop(first, "geometry")))
  {
    var a := JObject(props["features" := JArray([first] + rest)]);
    var b := JObject(props["features" := JArray([first] + other)]);
    assert Prop(a, "type") == Some(JString("FeatureCollection")) == Prop(b, "type");
    assert Prop(a, "features") == Some(JArray([first] + rest));
    assert Prop(b, "features") == Some(JArray([first] + other));
  }

  /** An empty or missing feature list is rejected. */
  lemma EmptyCollectionRejected(props: map<string, Json>)
    requires "type" in props && props["type"] == JString("FeatureCollection")
    requires "features" !in props || props["features"] == JArray([])
    ensures ValidateGeoJson(JObject(props)) == Returns(false)
  {
  }

  /** Inner rings are never inspected: anything after the first ring is accepted as it is. */
  lemma {:induction false} InnerRingsIgnored(ring: Json, inner: seq<Json>)
    ensures ValidatePolygonCoordinates(Some(JArray([ring] + inner))) == ValidatePolygonCoordinates(Some(JArray([ring])))
  {
    assert ([ring] + inner)[0] == ring;
  }

  /** Four distinct corners with no closing position: RFC 7946 forbids it, the check accepts it. */
  lemma OpenRingAccepted()
    ensures var pos := (x: real, y: real) => JArray([JNumber(x), JNumber(y)]);
            var ring := JArray([pos(0.0, 0.0), pos(1.0, 0.0), pos(1.0, 1.0), pos(0.0, 1.0)]);
            ring.items[0] != ring.items[3] &&
            Accepted(JObject(map["type" := JString("Polygon"), "coordinates" := JArray([ring])]))
  {
    var pos := (x: real, y: real) => JArray([JNumber(x), JNumber(y)]);
    var ring := JArray([pos(0.0, 0.0), pos(1.0, 0.0), pos(1.0, 1.0), pos(0.0, 1.0)]);
    assert ring.items[0].items[1] != ring.items[3].items[1];
    var j := JObject(map["type" := JString("Polygon"), "coordinates" := JArray([ring])]);
    assert Prop(j, "type") == Some(JString("Polygon"));
    assert Prop(j, "coordinates") == Some(JArray([ring]));
  }

  /** The reasons `parseGeoJSONFile` rejects with. */
  datatype ParseError =
    | ReadFailed      // the catch: unparsable text, or a TypeError while validating
    | InvalidGeoJson  // validateGeoJSON returned false
    | NoPolygon       // validated, yet no polygon found

  function ErrorMessage(e: ParseError): string {
    match e
    case ReadFailed => "Error al leer el archivo GeoJSON"
    case InvalidGeoJson => "Archivo GeoJSON inv\U{00e1}lido"
    case NoPolygon => "El archivo debe contener un pol\U{00ed}gono"
  }

  datatype Parsed = Resolved(polygon: Json) | Rejected(error: ParseError)

  /** The extraction branch: the object itself, its geometry, or the first feature's geometry. */
  function ExtractPolygon(j: Json): (r: Parsed)
    ensures r.Resolved? ==> Prop(r.polygon, "type") == Some(JString("Polygon"))
    ensures r.Rejected? ==> r.error == NoPolygon
  {
    var t := Prop(j, "type");
    if t == Some(JString("Polygon")) then Resolved(j)
    else if t == Some(JString("Feature")) && HasType(Prop(j, "geometry"), "Polygon") then
      Resolved(Prop(j, "geometry").value)
    else if t == Some(JString("FeatureCollection")) &&
            HasType(PropOf(FirstOf(Prop(j, "features")), "geometry"), "Polygon") then
      Resolved(PropOf(FirstOf(Prop(j, "features")), "geometry").value)
    else Rejected(NoPolygon)
  }

  /**
   * The `onload` handler after the text was read: `None` when `JSON.parse`
   * threw, otherwise validation and then extraction.
   */
  function ParseGeoJson(parsed: Option<Json>): (r: Parsed)
    ensures r.Resolved? ==> parsed.Some? && Accepted(parsed.value)
    ensures parsed.None? ==> r == Rejected(ReadFailed)
    ensures parsed.Some? && ValidateGeoJson(parsed.value) == Returns(false) ==> r == Rejected(InvalidGeoJson)
  {
    match parsed
    case None => Rejected(ReadFailed)
    case Some(j) =>
      match ValidateGeoJson(j)
      case ThrowsTypeError => Rejected(ReadFailed)
      case Returns(ok) => if ok then ExtractPolygon(j) else Rejected(InvalidGeoJson)
  }

  /**
   * Whatever validation accepts, extraction turns into a polygon: the
   * "must contain a polygon" rejection is unreachable. The polygon found is
   * the object, its geometry, or the first feature's geometry, and it is
   * itself an accepted Polygon.
   */
  lemma AcceptedYieldsPolygon(j: Json)
    requires Accepted(j)
    ensures ParseGeoJson(Some(j)).Resolved?
    ensures var p := ParseGeoJson(Some(j)).polygon;
            && Prop(p, "type") == Some(JString("Polygon"))
            && Accepted(p)
            && (Prop(j, "type") == Some(JString("Polygon")) ==> p == j)
            && (Prop(j, "type") == Some(JString("Feature")) ==> Prop(j, "geometry") == Some(p))
            && (Prop(j, "type") == Some(JString("FeatureCollection")) ==>
                  Prop(j, "features").Some? && Prop(j, "features").value.JArray? &&
                  Prop(j, "features").value.items != [] &&
                  Prop(Prop(j, "features").value.items[0], "geometry") == Some(p))
  {
  }

  /**
   * Resolution happens exactly on accepted input, and never with the
   * no-polygon error. Each rejection names its cause: the invalid-file error
   * exactly when validation returns false, the read error when parsing or
   * validation threw.
   */
  lemma ParseOutcomes(parsed: Option<Json>)
    ensures ParseGeoJson(parsed).Resolved? <==> parsed.Some? && Accepted(parsed.value)
    ensures ParseGeoJson(parsed) != Rejected(NoPolygon)
    ensures parsed.Some? && ValidateGeoJson(parsed.value) == ThrowsTypeError ==> ParseGeoJson(parsed) == Rejected(ReadFailed)
    ensures ParseGeoJson(parsed) == Rejected(InvalidGeoJson) <==>
              parsed.Some? && ValidateGeoJson(parsed.value) == Returns(false)
  {
    if parsed.Some? && Accepted(parsed.value) {
      AcceptedYieldsPolygon(parsed.value);
    }
  }
}
