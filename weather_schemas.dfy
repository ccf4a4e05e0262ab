/** The zod schemas of the app's internal weather record and of the OpenWeather
    geocoding response, as parsers over JSON values. A schema's `parse` either returns
    the value restricted to the declared keys or fails; here it returns `Some` or
    `None`. */
module WeatherSchemas {
  import opened Wrappers

  /** A JSON value as `response.json()` yields it. */
  datatype Json =
    | JNull
    | JBool(b: bool)
    | JNum(n: real)
    | JStr(s: string)
    | JArr(items: seq<Json>)
    | JObj(fields: map<string, Json>)

  datatype Coordinates = Coordinates(lat: real, lon: real)

  datatype HourlyForecast = HourlyForecast(time: string, temp: real, icon: string, description: string)

  datatype Current = Current(
    temp: real, feelsLike: real, tempMin: real, tempMax: real,
    humidity: real, description: string, icon: string, windSpeed: real)

  datatype WeatherData = WeatherData(
    location: string, coordinates: Coordinates, current: Current,
    hourlyForecast: seq<HourlyForecast>)

  datatype GeocodingEntry = GeocodingEntry(
    lat: real, lon: real, name: string, country: string,
    state: Option<string>, localNames: Option<map<string, string>>)

  /** The range constraints of `CoordinatesSchema`, bounds included. */
  predicate ValidCoordinates(c: Coordinates) {
    -90.0 <= c.lat <= 90.0 && -180.0 <= c.lon <= 180.0
  }

  /** What `WeatherDataSchema` asks of a record beyond its field types: in-range
      coordinates. The hourly list may have any length. */
  predicate ValidWeatherData(w: WeatherData) {
    ValidCoordinates(w.coordinates)
  }

  // Field readers: a required field of the given JSON type, or a failure.

  function Num(o: map<string, Json>, key: string): Option<real> {
    if key in o && o[key].JNum? then Some(o[key].n) else None
  }

  function Str(o: map<string, Json>, key: string): Option<string> {
    if key in o && o[key].JStr? then Some(o[key].s) else None
  }

  /** An `.optional()` string field: absent gives `Some(None)`, a string gives
      `Some(Some(s))`, anything else (`null` included) fails. */
  function OptStr(o: map<string, Json>, key: string): Option<Option<string>> {
    if key !in o then Some(None)
    else if o[key].JStr? then Some(Some(o[key].s))
    else None
  }

  predicate AllStrings(m: map<string, Json>) {
    forall k :: k in m ==> m[k].JStr?
  }

  /** An optional `z.record(z.string(), z.string())` field. */
  function OptRecord(o: map<string, Json>, key: string): Option<Option<map<string, string>>> {
    if key !in o then Some(None)
    else if o[key].JObj? && AllStrings(o[key].fields) then
      var m := o[key].fields;
      Some(Some(map k | k in m :: m[k].s))
    else None
  }

  /** `CoordinatesSchema.parse`. */
  function ParseCoordinates(j: Json): (r: Option<Coordinates>)
    ensures r.Some? ==> ValidCoordinates(r.value)
  {
    if !j.JObj? then None
    else
      var lat, lon := Num(j.fields, "lat"), Num(j.fields, "lon");
      if lat.None? || lon.None? then None
      else if ValidCoordinates(Coordinates(lat.value, lon.value)) then Some(Coordinates(lat.value, lon.value))
      else None
  }

  /** `HourlyForecastSchema.parse`. */
  function ParseHourly(j: Json): Option<HourlyForecast> {
    if !j.JObj? then None
    else
      var o := j.fields;
      var time, temp, icon, desc := Str(o, "time"), Num(o, "temp"), Str(o, "icon"), Str(o, "description");
      if time.None? || temp.None? || icon.None? || desc.None? then None
      else Some(HourlyForecast(time.value, temp.value, icon.value, desc.value))
  }

  /** `z.array(HourlyForecastSchema).parse`: every element must parse. */
  function ParseHourlyList(items: seq<Json>): (r: Option<seq<HourlyForecast>>)
    ensures r.Some? ==> |r.value| == |items|
  {
    if items == [] then Some([])
    else
      var head, tail := ParseHourly(items[0]), ParseHourlyList(items[1..]);
      if head.None? || tail.None? then None else Some([head.value] + tail.value)
  }

  /** The `current` object of `WeatherDataSchema`. */
  function ParseCurrent(j: Json): Option<Current> {
    if !j.JObj? then None
    else
      var o := j.fields;
      var temp, feels, tmin, tmax := Num(o, "temp"), Num(o, "feelsLike"), Num(o, "tempMin"), Num(o, "tempMax");
      var hum, desc, icon, wind := Num(o, "humidity"), Str(o, "description"), Str(o, "icon"), Num(o, "windSpeed");
      if temp.None? || feels.None? || tmin.None? || tmax.None? || hum.None? || desc.None? || icon.None? || wind.None? then None
      else Some(Current(temp.value, feels.value, tmin.value, tmax.value, hum.value, desc.value, icon.value, wind.value))
  }

  /** `WeatherDataSchema.parse`. */
  function ParseWeatherData(j: Json): (r: Option<WeatherData>)
    ensures r.Some? ==> ValidWeatherData(r.value)
  {
    if !j.JObj? then None
    else
      var o := j.fields;
      var location := Str(o, "location");
      var coords := if "coordinates" in o then ParseCoordinates(o["coordinates"]) else None;
      var current := if "current" in o then ParseCurrent(o["current"]) else None;
      var hourly := if "hourlyForecast" in o && o["hourlyForecast"].JArr? then ParseHourlyList(o["hourlyForecast"].items) else None;
      if location.None? || coords.None? || current.None? || hourly.None? then None
      else Some(WeatherData(location.value, coords.value, current.value, hourly.value))
  }

  /** One element of `GeocodingResponseSchema`: lat/lon are any numbers, `state` and
      `local_names` may be absent. */
  function ParseGeocodingEntry(j: Json): Option<GeocodingEntry> {
    if !j.JObj? then None
    else
      var o := j.fields;
      var lat, lon, name, country := Num(o, "lat"), Num(o, "lon"), Str(o, "name"), Str(o, "country");
      var state, localNames := OptStr(o, "state"), OptRecord(o, "local_names");
      if lat.None? || lon.None? || name.None? || country.None? || state.None? || localNames.None? then None
      else Some(GeocodingEntry(lat.value, lon.value, name.value, country.value, state.value, localNames.value))
  }

  function ParseGeocodingList(items: seq<Json>): (r: Option<seq<GeocodingEntry>>)
    ensures r.Some? ==> |r.value| == |items|
  {
    if items == [] then Some([])
    else
      var head, tail := ParseGeocodingEntry(items[0]), ParseGeocodingList(items[1..]);
      if head.None? || tail.None? then None else Some([head.value] + tail.value)
  }

  /** `GeocodingResponseSchema.parse`: an array with at least one valid entry, so
      that element 0 of a parsed response always exists. */
  function ParseGeocodingResponse(j: Json): (r: Option<seq<GeocodingEntry>>)
    ensures r.Some? ==> |r.value| >= 1
  {
    if !j.JArr? || |j.items| < 1 then None else ParseGeocodingList(j.items)
  }

  // Encoders: the JSON text a value of each type is written as.

  function EncodeCoordinates(c: Coordinates): Json {
    JObj(map["lat" := JNum(c.lat), "lon" := JNum(c.lon)])
  }

  function EncodeHourly(h: HourlyForecast): Json {
    JObj(map["time" := JStr(h.time), "temp" := JNum(h.temp), "icon" := JStr(h.icon), "description" := JStr(h.description)])
  }

  function EncodeHourlyList(hs: seq<HourlyForecast>): (r: seq<Json>)
    ensures |r| == |hs|
  {
    if hs == [] then [] else [EncodeHourly(hs[0])] + EncodeHourlyList(hs[1..])
  }

  function EncodeCurrent(c: Current): Json {
    JObj(map[
      "temp" := JNum(c.temp), "feelsLike" := JNum(c.feelsLike),
      "tempMin" := JNum(c.tempMin), "tempMax" := JNum(c.tempMax),
      "humidity" := JNum(c.humidity), "description" := JStr(c.description),
      "icon" := JStr(c.icon), "windSpeed" := JNum(c.windSpeed)])
  }

  function EncodeWeatherData(w: WeatherData): Json {
    JObj(map[
      "location" := JStr(w.location),
      "coordinates" := EncodeCoordinates(w.coordinates),
      "current" := EncodeCurrent(w.current),
      "hourlyForecast" := JArr(EncodeHourlyList(w.hourlyForecast))])
  }

  function EncodeRecord(m: map<string, string>): Json {
    JObj(map k | k in m :: JStr(m[k]))
  }

  function EncodeGeocodingEntry(e: GeocodingEntry): Json {
    var base := map["lat" := JNum(e.lat), "lon" := JNum(e.lon), "name" := JStr(e.name), "country" := JStr(e.country)];
    var withState := if e.state.Some? then base["state" := JStr(e.state.value)] else base;
    JObj(if e.localNames.Some? then withState["local_names" := EncodeRecord(e.localNames.value)] else withState)
  }

  function EncodeGeocodingList(es: seq<GeocodingEntry>): (r: seq<Json>)
    ensures |r| == |es|
  {
    if es == [] then [] else [EncodeGeocodingEntry(es[0])] + EncodeGeocodingList(es[1..])
  }

  // Round trips: what each schema accepts, stated on the encoded values.

  /** Coordinates pass `CoordinatesSchema` exactly when both are within range,
      bounds included; a passing value comes back unchanged. */
  lemma CoordinatesRoundTrip(c: Coordinates)
    ensures ParseCoordinates(EncodeCoordinates(c)) == if ValidCoordinates(c) then Some(c) else None
  {
    var o := EncodeCoordinates(c).fields;
    assert Num(o, "lat") == Some(c.lat) && Num(o, "lon") == Some(c.lon);
  }

  /** Any hourly entry passes: the schema only asks for string time, icon and
      description and a numeric temp. */
  lemma HourlyRoundTrip(h: HourlyForecast)
    ensures ParseHourly(EncodeHourly(h)) == Some(h)
  {
    var o := EncodeHourly(h).fields;
    assert Str(o, "time") == Some(h.time) && Num(o, "temp") == Some(h.temp);
    assert Str(o, "icon") == Some(h.icon) && Str(o, "description") == Some(h.description);
  }

  lemma {:induction false} HourlyListRoundTrip(hs: seq<HourlyForecast>)
    ensures ParseHourlyList(EncodeHourlyList(hs)) == Some(hs)
  {
    if hs != [] {
      var items := EncodeHourlyList(hs);
      assert items[0] == EncodeHourly(hs[0]) && items[1..] == EncodeHourlyList(hs[1..]);
      HourlyRoundTrip(hs[0]);
      HourlyListRoundTrip(hs[1..]);
      assert [hs[0]] + hs[1..] == hs;
    }
  }

  lemma CurrentRoundTrip(c: Current)
    ensures ParseCurrent(EncodeCurrent(c)) == Some(c)
  {
    var o := EncodeCurrent(c).fields;
    assert Num(o, "temp") == Some(c.temp) && Num(o, "feelsLike") == Some(c.feelsLike);
    assert Num(o, "tempMin") == Some(c.tempMin) && Num(o, "tempMax") == Some(c.tempMax);
    assert Num(o, "humidity") == Some(c.humidity) && Str(o, "description") == Some(c.description);
    assert Str(o, "icon") == Some(c.icon) && Num(o, "windSpeed") == Some(c.windSpeed);
  }

  /** A weather record passes `WeatherDataSchema` exactly when its coordinates are in
      range, whatever the length of its hourly list, and comes back unchanged. */
  lemma WeatherDataRoundTrip(w: WeatherData)
    ensures ParseWeatherData(EncodeWeatherData(w)) == if ValidWeatherData(w) then Some(w) else None
  {
    var o := EncodeWeatherData(w).fields;
    assert Str(o, "location") == Some(w.location);
    assert o["coordinates"] == EncodeCoordinates(w.coordinates);
    assert o["current"] == EncodeCurrent(w.current);
    assert o["hourlyForecast"] == JArr(EncodeHourlyList(w.hourlyForecast));
    CoordinatesRoundTrip(w.coordinates);
    CurrentRoundTrip(w.current);
    HourlyListRoundTrip(w.hourlyForecast);
  }

  /** What `WeatherDataSchema.parse` returns passes it again unchanged. */
  lemma WeatherDataParseStable(j: Json)
    requires ParseWeatherData(j).Some?
    ensures ParseWeatherData(EncodeWeatherData(ParseWeatherData(j).value)) == ParseWeatherData(j)
  {
    WeatherDataRoundTrip(ParseWeatherData(j).value);
  }

  lemma RecordRoundTrip(m: map<string, string>)
    ensures OptRecord(map["local_names" := EncodeRecord(m)], "local_names") == Some(Some(m))
  {
    var f := EncodeRecord(m).fields;
    assert AllStrings(f);
    var back := map k | k in f :: f[k].s;
    assert back == m;
  }

  /** Any geocoding entry passes, with lat/lon of any value (they are not
      range-checked) and `state`/`local_names` present or absent. */
  lemma GeocodingEntryRoundTrip(e: GeocodingEntry)
    ensures ParseGeocodingEntry(EncodeGeocodingEntry(e)) == Some(e)
  {
    var o := EncodeGeocodingEntry(e).fields;
    assert Num(o, "lat") == Some(e.lat) && Num(o, "lon") == Some(e.lon);
    assert Str(o, "name") == Some(e.name) && Str(o, "country") == Some(e.country);
    assert OptStr(o, "state") == Some(e.state);
    if e.localNames.Some? {
      RecordRoundTrip(e.localNames.value);
      assert o["local_names"] == EncodeRecord(e.localNames.value);
      var f := EncodeRecord(e.localNames.value).fields;
      assert AllStrings(f);
      assert (map k | k in f :: f[k].s) == e.localNames.value;
    }
    assert OptRecord(o, "local_names") == Some(e.localNames);
  }

  lemma {:induction false} GeocodingListRoundTrip(es: seq<GeocodingEntry>)
    ensures ParseGeocodingList(EncodeGeocodingList(es)) == Some(es)
  {
    if es != [] {
      var items := EncodeGeocodingList(es);
      assert items[0] == EncodeGeocodingEntry(es[0]) && items[1..] == EncodeGeocodingList(es[1..]);
      GeocodingEntryRoundTrip(es[0]);
      GeocodingListRoundTrip(es[1..]);
      assert [es[0]] + es[1..] == es;
    }
  }

  /** A geocoding response passes exactly when it is a non-empty list. */
  lemma GeocodingResponseRoundTrip(es: seq<GeocodingEntry>)
    ensures ParseGeocodingResponse(JArr(EncodeGeocodingList(es))) == if es == [] then None else Some(es)
  {
    GeocodingListRoundTrip(es);
  }
}
