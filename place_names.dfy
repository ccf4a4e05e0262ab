/** The two place-name fallback chains of reverse geocoding: the OpenWeather one
    (`location-utils.ts`) and the Nominatim one (`reverse-geocoding.ts`). The HTTP
    request is an input: it threw, answered with a non-ok status, or answered with a
    body. A field of the body is `None` when it is absent; a field counts as present
    for an `if` or `||` only when it is a non-empty string, as in JavaScript. */
module PlaceNames {
  import opened Wrappers

  datatype FetchOutcome<+T> = Threw | NotOk | Answered(body: T)

  /** JavaScript truthiness of an optional string. */
  predicate Truthy(o: Option<string>) {
    o.Some? && o.value != ""
  }

  /** The first truthy candidate, in order; the reference both chains are stated
      against. */
  function FirstPresent(candidates: seq<Option<string>>): (r: Option<string>)
    ensures r.Some? ==> r.value != "" && exists k | 0 <= k < |candidates| :: candidates[k] == r
    ensures r.None? <==> forall k | 0 <= k < |candidates| :: !Truthy(candidates[k])
    ensures forall k | 0 <= k < |candidates| && Truthy(candidates[k]) ::
      (forall j | 0 <= j < k :: !Truthy(candidates[j])) ==> r == candidates[k]
  {
    if candidates == [] then None
    else if Truthy(candidates[0]) then candidates[0]
    else
      var r := FirstPresent(candidates[1..]);
      assert forall k | 0 <= k < |candidates| - 1 :: candidates[1..][k] == candidates[k + 1];
      r
  }

  // ----- OpenWeather reverse geocoding -----

  /** One element of the OpenWeather reverse-geocoding array; `localKo` is
      `local_names?.ko`. */
  datatype ReverseEntry = ReverseEntry(
    name: Option<string>,
    country: Option<string>,
    state: Option<string>,
    localKo: Option<string>)

  /** `reverseGeocode` of `location-utils.ts`. The body is `None` when it is `null`
      or another falsy value. */
  function OpenWeatherPlaceName(keyPresent: bool, outcome: FetchOutcome<Option<seq<ReverseEntry>>>)
    : (r: Option<string>)
    ensures !keyPresent ==> r.None?
    ensures !outcome.Answered? ==> r.None?
    ensures outcome.Answered? && (outcome.body.None? || outcome.body.value == []) ==> r.None?
    ensures r.Some? ==> r.value != ""
  {
    if !keyPresent then None
    else match outcome
      case Threw => None
      case NotOk => None
      case Answered(body) =>
        if body.None? || |body.value| == 0 then None
        else
          var location := body.value[0];
          if location.country == Some("KR") && Truthy(location.state) then location.state
          else if location.country == Some("KR") && Truthy(location.localKo) then location.localKo
          else if location.country == Some("KR") && Truthy(location.name) then location.name
          else if Truthy(location.name) then location.name
          else None
  }

  /** For a Korean place the name is the province, else the Korean local name, else
      the name; anywhere else it is the name; an empty name gives no result. Only the
      first entry of the array is looked at. */
  lemma OpenWeatherChain(entries: seq<ReverseEntry>)
    requires |entries| >= 1
    ensures var e := entries[0];
      OpenWeatherPlaceName(true, Answered(Some(entries)))
        == FirstPresent(if e.country == Some("KR") then [e.state, e.localKo, e.name] else [e.name])
  {
    var e := entries[0];
    assert [e.name][1..] == [];
    assert FirstPresent([e.name]) == (if Truthy(e.name) then e.name else None);
    if e.country == Some("KR") {
      assert [e.state, e.localKo, e.name][1..] == [e.localKo, e.name];
      assert [e.localKo, e.name][1..] == [e.name];
      assert FirstPresent([e.localKo, e.name])
        == (if Truthy(e.localKo) then e.localKo else FirstPresent([e.name]));
      assert FirstPresent([e.state, e.localKo, e.name])
        == (if Truthy(e.state) then e.state else FirstPresent([e.localKo, e.name]));
    }
  }

  // ----- Nominatim reverse geocoding -----

  /** The `address` object of a Nominatim answer. */
  datatype Address = Address(city: Option<string>, borough: Option<string>, suburb: Option<string>)

  /** The text a field yields in `+` concatenation: an absent field reads
      "undefined". */
  function ConcatText(field: Option<string>): string {
    if field.Some? then field.value else "undefined"
  }

  /** `reverseGeocode` of `reverse-geocoding.ts` as written: the three-part and the
      two-part names are concatenated whether or not the city (and borough) are
      there. The body is `None` when it is falsy or has no `address`. */
  function NominatimPlaceNameAsWritten(outcome: FetchOutcome<Option<Address>>): (r: Option<string>)
    ensures !outcome.Answered? || outcome.body.None? ==> r.None?
    ensures (outcome.Answered? && outcome.body.Some? && !Truthy(outcome.body.value.suburb)
      && !Truthy(outcome.body.value.borough))
      ==> r == (if Truthy(outcome.body.value.city) then outcome.body.value.city else None)
    ensures (outcome.Answered? && outcome.body.Some? && Truthy(outcome.body.value.suburb))
      ==> r == Some(ConcatText(outcome.body.value.city) + " " + ConcatText(outcome.body.value.borough)
                    + " " + outcome.body.value.suburb.value)
    ensures (outcome.Answered? && outcome.body.Some? && !Truthy(outcome.body.value.suburb)
      && Truthy(outcome.body.value.borough))
      ==> r == Some(ConcatText(outcome.body.value.city) + " " + outcome.body.value.borough.value)
  {
    match outcome
      case Threw => None
      case NotOk => None
      case Answered(body) =>
        if body.None? then None
        else
          var address := body.value;
          if Truthy(address.suburb) then
            Some(ConcatText(address.city) + " " + ConcatText(address.borough) + " " + address.suburb.value)
          else if Truthy(address.borough) then
            Some(ConcatText(address.city) + " " + address.borough.value)
          else if Truthy(address.city) then address.city
          else None
  }

  /** An address with a suburb and no city or borough (as Nominatim gives for places
      outside a city) yields a name made of the word "undefined". */
  lemma NominatimUndefinedCity()
    ensures NominatimPlaceNameAsWritten(Answered(Some(Address(None, None, Some("청운동")))))
      == Some("undefined undefined 청운동")
  {
    assert "undefined" + " " + "undefined" + " " + "청운동" == "undefined undefined 청운동";
  }

  /** The words a place name is joined from: the present fields of the chosen level. */
  function NameParts(address: Address): (parts: seq<string>)
    ensures forall k | 0 <= k < |parts| :: parts[k] != ""
  {
    var level :=
      if Truthy(address.suburb) then [address.city, address.borough, address.suburb]
      else if Truthy(address.borough) then [address.city, address.borough]
      else [address.city];
    PresentValues(level)
  }

  /** The values of the truthy fields, in order. */
  function PresentValues(fields: seq<Option<string>>): (values: seq<string>)
    ensures |values| <= |fields|
    ensures forall k | 0 <= k < |values| :: values[k] != ""
    ensures forall k | 0 <= k < |fields| :: Truthy(fields[k]) ==> fields[k].value in values
    ensures forall v :: v in values ==> Some(v) in fields
  {
    if fields == [] then []
    else
      var rest := PresentValues(fields[1..]);
      assert forall k | 0 <= k < |fields| - 1 :: fields[1..][k] == fields[k + 1];
      if Truthy(fields[0]) then [fields[0].value] + rest else rest
  }

  /** Joins words with single spaces. */
  function Words(parts: seq<string>): string {
    if |parts| == 0 then ""
    else if |parts| == 1 then parts[0]
    else parts[0] + " " + Words(parts[1..])
  }

  /** The Nominatim chain as intended: the same level choice, but only the fields
      that are there are joined. */
  function NominatimPlaceName(outcome: FetchOutcome<Option<Address>>): (r: Option<string>)
    ensures !outcome.Answered? || outcome.body.None? ==> r.None?
    ensures r.Some? ==> (outcome.Answered? && outcome.body.Some?
      && r.value == Words(NameParts(outcome.body.value)) && NameParts(outcome.body.value) != [])
  {
    match outcome
      case Threw => None
      case NotOk => None
      case Answered(body) =>
        if body.None? then None
        else
          var parts := NameParts(body.value);
          if parts == [] then None else Some(Words(parts))
  }

  /** When every field is present, the values are the fields' values in order. */
  lemma {:induction false} PresentValuesOfTruthy(fields: seq<Option<string>>)
    requires forall k | 0 <= k < |fields| :: Truthy(fields[k])
    ensures |PresentValues(fields)| == |fields|
    ensures forall k | 0 <= k < |fields| :: PresentValues(fields)[k] == fields[k].value
  {
    if fields != [] {
      PresentValuesOfTruthy(fields[1..]);
    }
  }

  /** The corrected chain never yields the text "undefined" for a missing field: a
      name is produced exactly when the chosen level has a field, and then it is the
      join of the present fields. */
  lemma NominatimNameIsPresentFields(address: Address)
    ensures var r := NominatimPlaceName(Answered(Some(address)));
      r.None? <==> !Truthy(address.suburb) && !Truthy(address.borough) && !Truthy(address.city)
  {
    var c, b, s := address.city, address.borough, address.suburb;
    var parts := NameParts(address);
    if Truthy(s) {
      assert [c, b, s][2] == s;
      assert s.value in parts;
    } else if Truthy(b) {
      assert [c, b][1] == b;
      assert b.value in parts;
    } else if Truthy(c) {
      assert [c][0] == c;
      assert c.value in parts;
    }
  }

  lemma WordsOfThree(x: string, y: string, z: string)
    ensures Words([x, y, z]) == x + " " + y + " " + z
  {
    assert [x, y, z][1..] == [y, z] && [y, z][1..] == [z];
    assert Words([y, z]) == y + " " + z;
    assert x + " " + (y + " " + z) == x + " " + y + " " + z;
  }

  /** Where the city and borough are present the corrected chain agrees with the
      code as written. */
  lemma NominatimAgreesWhenComplete(address: Address)
    requires Truthy(address.city) && Truthy(address.borough)
    ensures NominatimPlaceName(Answered(Some(address))) == NominatimPlaceNameAsWritten(Answered(Some(address)))
  {
    var c, b, s := address.city, address.borough, address.suburb;
    if Truthy(s) {
      PresentValuesOfTruthy([c, b, s]);
      assert NameParts(address) == [c.value, b.value, s.value];
      WordsOfThree(c.value, b.value, s.value);
    } else {
      PresentValuesOfTruthy([c, b]);
      assert NameParts(address) == [c.value, b.value];
      assert [c.value, b.value][1..] == [b.value];
      assert Words([c.value, b.value]) == c.value + " " + b.value;
    }
  }
}
