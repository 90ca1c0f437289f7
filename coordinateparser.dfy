/**
 * `CoordinateParser.Parse`: reads the "coordinate" member of an indexed document, which
 * may be a geo-point object `{"lat": .., "lon": ..}`, a "lat,lon" string, or a GeoJSON
 * array `[lon, lat]` (RFC 7946 section 3.1.1). Anything else, and a document without a
 * coordinate, gives (0, 0). `double.TryParse` is the parameter `tryParseDouble`.
 */
module CoordinateParsing {
  import opened Wrappers
  import opened Primitives
  import opened Json
  import opened Coordinates
  import Text

  /** The coordinate element's member `name`, when it is an object that has one. */
  function Member(j: Json, name: string): Option<Json>
  {
    if j.JObject? then Get(j.members, name) else None
  }

  /** The string form: non-empty, exactly one comma, and both sides parse as numbers. */
  function ParseText(s: string, tryParseDouble: string -> Option<real>): Option<(real, real)>
  {
    if s == "" then None
    else
      var parts := Text.Split(s, ',');
      if |parts| != 2 then None
      else
        match (tryParseDouble(parts[0]), tryParseDouble(parts[1]))
        case (Some(lat), Some(lon)) => Some((lat, lon))
        case _ => None
  }

  /** None of the three forms: the parser falls back to (0, 0). */
  predicate Unrecognised(c: Json, tryParseDouble: string -> Option<real>)
  {
    && !(c.JObject? && Member(c, "lat").Some? && Member(c, "lon").Some?)
    && !(c.JString? && ParseText(c.s, tryParseDouble).Some?)
    && !(c.JArray? && |c.items| == 2)
  }

  /** The coordinate element, once it has been found. */
  function ParseElement(c: Json, tryParseDouble: string -> Option<real>): (r: Result<Coordinate, Exception>)
    ensures r.Success? ==> Valid(r.value)
    ensures c.JObject? && Member(c, "lat").Some? && Member(c, "lon").Some? ==>
      match (Member(c, "lat").value, Member(c, "lon").value)
      case (JNumber(lat), JNumber(lon)) => r == Create(lat, lon)
      case _ => r == Failure(JsonKindMismatch)
    ensures c.JString? && ParseText(c.s, tryParseDouble).Some? ==>
      r == Create(ParseText(c.s, tryParseDouble).value.0, ParseText(c.s, tryParseDouble).value.1)
    ensures c.JArray? && |c.items| == 2 ==>
      if c.items[0].JNumber? && c.items[1].JNumber? then r == Create(c.items[1].n, c.items[0].n)
      else r == Failure(JsonKindMismatch)
    ensures Unrecognised(c, tryParseDouble) ==> r == Success(Origin)
  {
    match c
    case JObject(ms) =>
      if Get(ms, "lat").Some? && Get(ms, "lon").Some? then
        var lat :- GetDouble(Get(ms, "lat").value);
        var lon :- GetDouble(Get(ms, "lon").value);
        Create(lat, lon)
      else Create(0.0, 0.0)
    case JString(s) =>
      (match ParseText(s, tryParseDouble)
       case Some((lat, lon)) => Create(lat, lon)
       case None => Create(0.0, 0.0))
    case JArray(items) =>
      if |items| == 2 then
        var lat :- GetDouble(items[1]);
        var lon :- GetDouble(items[0]);
        Create(lat, lon)
      else Create(0.0, 0.0)
    case _ => Create(0.0, 0.0)
  }

  /**
   * `Parse`: a document without "coordinate" gives (0, 0); otherwise the element decides.
   * Out-of-range numbers in a recognised form are not clamped: Coordinate.Create's error
   * comes through.
   */
  function Parse(root: Json, tryParseDouble: string -> Option<real>): (r: Result<Coordinate, Exception>)
    ensures !root.JObject? ==> r == Failure(JsonKindMismatch)
    ensures root.JObject? && Member(root, "coordinate").None? ==> r == Success(Origin)
    ensures root.JObject? && Member(root, "coordinate").Some? ==>
      r == ParseElement(Member(root, "coordinate").value, tryParseDouble)
    ensures r.Success? ==> Valid(r.value)
  {
    var found :- TryGetProperty(root, "coordinate");
    match found
    case None => Create(0.0, 0.0)
    case Some(c) => ParseElement(c, tryParseDouble)
  }

  // ------------------------------------------------ the three forms, written out

  /** `{"lat": latitude, "lon": longitude}` */
  function GeoPointObject(c: Coordinate): Json
  {
    JObject([("lat", JNumber(c.latitude)), ("lon", JNumber(c.longitude))])
  }

  /** `[longitude, latitude]`, the GeoJSON position order. */
  function GeoJsonPosition(c: Coordinate): Json
  {
    JArray([JNumber(c.longitude), JNumber(c.latitude)])
  }

  function WithCoordinate(element: Json): Json
  {
    JObject([("coordinate", element)])
  }

  /** A valid coordinate written in either structured form is read back unchanged. */
  lemma StructuredFormsRoundTrip(c: Coordinate, tryParseDouble: string -> Option<real>)
    requires Valid(c)
    ensures Parse(WithCoordinate(GeoPointObject(c)), tryParseDouble) == Success(c)
    ensures Parse(WithCoordinate(GeoJsonPosition(c)), tryParseDouble) == Success(c)
  {
    assert Member(WithCoordinate(GeoPointObject(c)), "coordinate") == Some(GeoPointObject(c));
    assert Member(GeoPointObject(c), "lat") == Some(JNumber(c.latitude));
    assert Member(GeoPointObject(c), "lon") == Some(JNumber(c.longitude));
    assert Member(WithCoordinate(GeoJsonPosition(c)), "coordinate") == Some(GeoJsonPosition(c));
  }

  /**
   * The string form: two comma-free pieces that parse as `lat` and `lon` give
   * Create(lat, lon), whichever order a GeoJSON array would use.
   */
  lemma TextFormReadsLatitudeFirst(a: string, b: string, lat: real, lon: real,
                                   tryParseDouble: string -> Option<real>)
    requires ',' !in a && ',' !in b
    requires tryParseDouble(a) == Some(lat) && tryParseDouble(b) == Some(lon)
    ensures Parse(WithCoordinate(JString(a + "," + b)), tryParseDouble) == Create(lat, lon)
  {
    Text.SplitTwo(a, b, ',');
    assert a + "," + b == a + [','] + b;
    assert Member(WithCoordinate(JString(a + "," + b)), "coordinate") == Some(JString(a + "," + b));
  }

  /** The array form is read in GeoJSON order: the same pair of numbers as an object swaps places. */
  lemma ArrayIsLongitudeFirst(x: real, y: real, tryParseDouble: string -> Option<real>)
    ensures Parse(WithCoordinate(JArray([JNumber(x), JNumber(y)])), tryParseDouble)
         == Parse(WithCoordinate(JObject([("lat", JNumber(y)), ("lon", JNumber(x))])), tryParseDouble)
  {
    var arr := JArray([JNumber(x), JNumber(y)]);
    var obj := JObject([("lat", JNumber(y)), ("lon", JNumber(x))]);
    assert Member(WithCoordinate(arr), "coordinate") == Some(arr);
    assert Member(WithCoordinate(obj), "coordinate") == Some(obj);
    assert Member(obj, "lat") == Some(JNumber(y)) && Member(obj, "lon") == Some(JNumber(x));
  }
}
