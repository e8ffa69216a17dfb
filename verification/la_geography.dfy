/**
 * The LA-geography lookup client: validation of the lookup service's parsed
 * reply and its normalisation into the application's internal response shape.
 *
 * The HTTP request itself is not modelled; the transport's `ok` flag, its
 * status text and the already-parsed JSON body are parameters.
 */
module LAGeography {
  import opened Wrappers

  // ---------------------------------------------------------------------------
  // JavaScript values
  // ---------------------------------------------------------------------------

  /** An optional key of a parsed JSON object: missing, explicitly `null`, or a value. */
  datatype Maybe<+T> = Undefined | Null | Defined(value: T)

  /** A JSON value whose type is not fixed in advance; arrays and objects are not looked into. */
  datatype JsonScalar = JBool(b: bool) | JNumber(n: real) | JString(s: string) | JComposite

  /** JavaScript truthiness of an optional string: `undefined`, `null` and `""` are falsy. */
  predicate Truthy(v: Maybe<string>)
  {
    v.Defined? && v.value != ""
  }

  /** JavaScript `v !== undefined`: an explicit `null` counts as given. */
  predicate IsGiven<T>(v: Maybe<T>)
  {
    !v.Undefined?
  }

  /** JavaScript `v || 'Unknown'` on an optional string. */
  function OrUnknown(v: Maybe<string>): (s: string)
    ensures s != ""
    ensures s == "Unknown" || v == Defined(s)
    ensures Truthy(v) ==> v == Defined(s)
  {
    if Truthy(v) then v.value else "Unknown"
  }

  /** JavaScript `v ?? null`: only `undefined` and `null` become `null` (here `None`). */
  function OrNull<T>(v: Maybe<T>): (o: Option<T>)
    ensures o.None? <==> !v.Defined?
    ensures o.Some? ==> v == Defined(o.value)
  {
    if v.Defined? then Some(v.value) else None
  }

  /** `typeof v === 'boolean' ? v : null`. */
  function BooleanOrNull(v: Maybe<JsonScalar>): (o: Option<bool>)
    ensures forall b: bool :: o == Some(b) <==> v == Defined(JBool(b))
  {
    if v.Defined? && v.value.JBool? then Some(v.value.b) else None
  }

  // ---------------------------------------------------------------------------
  // Raw reply of the lookup service
  // ---------------------------------------------------------------------------

  /** A point; latitude and longitude are copied, never computed. */
  datatype Coordinates = Coordinates(lat: real, lon: real)

  /** Six population counts of one scope (raw and internal shapes agree field by field). */
  datatype Demographics = Demographics(
    population: int,
    popHispanic: int,
    popWhiteNh: int,
    popBlackNh: int,
    popAsianNh: int,
    popOtherNh: int)

  /** The `results` object of the raw reply: every key is optional. */
  datatype RawResults = RawResults(
    neighborhood: Maybe<string>,
    region: Maybe<string>,
    city: Maybe<string>,
    lapdDivision: Maybe<string>,
    lapdBureau: Maybe<string>,
    lafdStation: Maybe<string>,
    cityCouncil: Maybe<string>,
    cityCouncilDistrict: Maybe<string>,
    neighborhoodCouncil: Maybe<string>,
    schoolDistrict: Maybe<string>,
    neighborhoodDemographics: Maybe<Demographics>,
    cityDemographics: Maybe<Demographics>,
    neighborhoodType: Maybe<string>,
    neighborhoodCitySlug: Maybe<string>,
    placeCategory: Maybe<string>,
    cityIsIncorporated: Maybe<JsonScalar>)

  /** The parsed reply body: `status`, the echoed `query` and `results`. */
  datatype RawBody = RawBody(status: Maybe<string>, query: Maybe<Coordinates>, results: Maybe<RawResults>)

  /** A `results` object with no key at all. */
  const NoRawResults: RawResults :=
    RawResults(Undefined, Undefined, Undefined, Undefined, Undefined, Undefined, Undefined, Undefined,
               Undefined, Undefined, Undefined, Undefined, Undefined, Undefined, Undefined, Undefined)

  // ---------------------------------------------------------------------------
  // Internal response shape
  // ---------------------------------------------------------------------------

  /** `la_neighborhoods_comprehensive`; `kind` is the entry's `type` key. */
  datatype NeighborhoodEntry = NeighborhoodEntry(name: string, kind: string)

  /** A layer entry carrying a `name` (regions, LAPD bureaus, LAFD stations, neighborhood councils). */
  datatype NamedEntry = NamedEntry(name: string)

  /** `lapd_divisions` entry. */
  datatype DivisionEntry = DivisionEntry(aprec: string)

  /** `la_city_council_districts` entry. */
  datatype CouncilDistrictEntry = CouncilDistrictEntry(districtName: string, district: string)

  /** `la_county_school_districts` entry; `districtLabel` is its `label` key. */
  datatype SchoolDistrictEntry = SchoolDistrictEntry(districtLabel: string)

  /** The `layers` object; `None` is a missing key. */
  datatype Layers = Layers(
    laNeighborhoodsComprehensive: Option<NeighborhoodEntry>,
    laRegions: Option<NamedEntry>,
    lapdDivisions: Option<DivisionEntry>,
    lapdBureaus: Option<NamedEntry>,
    lafdStationBoundaries: Option<NamedEntry>,
    laCityCouncilDistricts: Option<CouncilDistrictEntry>,
    laNeighborhoodCouncils: Option<NamedEntry>,
    laCountySchoolDistricts: Option<SchoolDistrictEntry>)

  const NoLayers: Layers := Layers(None, None, None, None, None, None, None, None)

  /** The `demographics` object, keyed by scope; `None` is a missing key. */
  datatype DemographicsByScope = DemographicsByScope(neighborhood: Option<Demographics>, city: Option<Demographics>)

  /** The `place` object; once it is emitted every key is set, `None` standing for `null`. */
  datatype Place = Place(
    neighborhoodType: Option<string>,
    neighborhoodCitySlug: Option<string>,
    placeCategory: Option<string>,
    cityIsIncorporated: Option<bool>)

  datatype LAGeographyResponse = LAGeographyResponse(
    coordinates: Coordinates,
    layers: Layers,
    demographics: Option<DemographicsByScope>,
    place: Option<Place>)

  /** What the lookup throws: an `Error` with a message, or the `TypeError` of reading `query.lat` off a missing query. */
  datatype Error = Thrown(message: string) | QueryTypeError

  const FetchFailedPrefix: string := "Failed to fetch geography data: "
  const InvalidFormatMessage: string := "Invalid API response format"

  // ---------------------------------------------------------------------------
  // Reference definition
  // ---------------------------------------------------------------------------

  /** The body passes the structural check: present, `status` exactly "success", `results` truthy. */
  predicate ValidBody(body: Option<RawBody>)
  {
    body.Some? && body.value.status == Defined("success") && body.value.results.Defined?
  }

  /** A layer entry with the given name, present only when the raw string is truthy. */
  function NamedLayer(v: Maybe<string>): Option<NamedEntry>
  {
    if Truthy(v) then Some(NamedEntry(v.value)) else None
  }

  /** Whether any of the four governance keys is given (not `undefined`). */
  predicate PlaceRequested(res: RawResults)
  {
    IsGiven(res.neighborhoodType) || IsGiven(res.neighborhoodCitySlug) ||
    IsGiven(res.placeCategory) || IsGiven(res.cityIsIncorporated)
  }

  /** The `layers` object: one entry per truthy raw key (two for the council district). */
  function NormalizeLayers(res: RawResults): Layers
  {
    Layers(
      if Truthy(res.neighborhood) then Some(NeighborhoodEntry(res.neighborhood.value, OrUnknown(res.city))) else None,
      NamedLayer(res.region),
      if Truthy(res.lapdDivision) then Some(DivisionEntry(res.lapdDivision.value)) else None,
      NamedLayer(res.lapdBureau),
      NamedLayer(res.lafdStation),
      if Truthy(res.cityCouncil) || Truthy(res.cityCouncilDistrict)
      then Some(CouncilDistrictEntry(OrUnknown(res.cityCouncil), OrUnknown(res.cityCouncilDistrict)))
      else None,
      NamedLayer(res.neighborhoodCouncil),
      if Truthy(res.schoolDistrict) then Some(SchoolDistrictEntry(res.schoolDistrict.value)) else None)
  }

  /** The `demographics` object: present when either scope is, each scope under its own key. */
  function NormalizeDemographics(res: RawResults): Option<DemographicsByScope>
  {
    if res.neighborhoodDemographics.Defined? || res.cityDemographics.Defined?
    then Some(DemographicsByScope(OrNull(res.neighborhoodDemographics), OrNull(res.cityDemographics)))
    else None
  }

  /** The `place` object: present when a governance key is given, every key then set. */
  function NormalizePlace(res: RawResults): Option<Place>
  {
    if PlaceRequested(res)
    then Some(Place(OrNull(res.neighborhoodType), OrNull(res.neighborhoodCitySlug),
                    OrNull(res.placeCategory), BooleanOrNull(res.cityIsIncorporated)))
    else None
  }

  /** The internal response built from the echoed query and the raw results, each output key defined on its own. */
  function Normalize(query: Coordinates, res: RawResults): LAGeographyResponse
  {
    LAGeographyResponse(Coordinates(query.lat, query.lon), NormalizeLayers(res),
                        NormalizeDemographics(res), NormalizePlace(res))
  }

  /** The outcome of a lookup for (`lat`, `lon`) given what the transport delivered. */
  function LookupOutcome(lat: real, lon: real, ok: bool, statusText: string, body: Option<RawBody>)
    : Result<LAGeographyResponse, Error>
  {
    if !ok then Failure(Thrown(FetchFailedPrefix + statusText))
    else if !ValidBody(body) then Failure(Thrown(InvalidFormatMessage))
    else if !body.value.query.Defined? then Failure(QueryTypeError)
    else Success(Normalize(body.value.query.value, body.value.results.value))
  }

  // ---------------------------------------------------------------------------
  // The lookup, step by step
  // ---------------------------------------------------------------------------

  /**
   * Checks the transport flag and the body, then creates the response with
   * empty layers and fills it in, one guarded assignment per output key.
   * `lat` and `lon` only shape the request URL.
   */
  method GetLAGeography(lat: real, lon: real, ok: bool, statusText: string, body: Option<RawBody>)
    returns (r: Result<LAGeographyResponse, Error>)
    ensures r == LookupOutcome(lat, lon, ok, statusText, body)
  {
    if !ok {
      return Failure(Thrown(FetchFailedPrefix + statusText));
    }
    if body.None? || body.value.status != Defined("success") || !body.value.results.Defined? {
      return Failure(Thrown(InvalidFormatMessage));
    }
    var raw := body.value;
    var res := raw.results.value;
    if !raw.query.Defined? {
      return Failure(QueryTypeError);
    }
    var t := LAGeographyResponse(Coordinates(raw.query.value.lat, raw.query.value.lon), NoLayers, None, None);
    t := AddLayers(t, res);
    t := AddDemographics(t, res);
    t := AddPlace(t, res);
    return Success(t);
  }

  /** The layer guards: each layer entry is assigned only when its raw key is truthy. */
  method AddLayers(t: LAGeographyResponse, res: RawResults) returns (u: LAGeographyResponse)
    requires t.layers == NoLayers
    ensures u == t.(layers := NormalizeLayers(res))
  {
    ghost var layers := NormalizeLayers(res);
    u := t;
    if Truthy(res.neighborhood) {
      u := u.(layers := u.layers.(laNeighborhoodsComprehensive :=
        Some(NeighborhoodEntry(res.neighborhood.value, OrUnknown(res.city)))));
    }
    assert u == t.(layers := NoLayers.(laNeighborhoodsComprehensive := layers.laNeighborhoodsComprehensive));
    if Truthy(res.region) {
      u := u.(layers := u.layers.(laRegions := Some(NamedEntry(res.region.value))));
    }
    assert u.layers.laRegions == layers.laRegions;
    if Truthy(res.lapdDivision) {
      u := u.(layers := u.layers.(lapdDivisions := Some(DivisionEntry(res.lapdDivision.value))));
    }
    assert u.layers.lapdDivisions == layers.lapdDivisions;
    if Truthy(res.lapdBureau) {
      u := u.(layers := u.layers.(lapdBureaus := Some(NamedEntry(res.lapdBureau.value))));
    }
    assert u.layers.lapdBureaus == layers.lapdBureaus;
    if Truthy(res.lafdStation) {
      u := u.(layers := u.layers.(lafdStationBoundaries := Some(NamedEntry(res.lafdStation.value))));
    }
    assert u.layers.lafdStationBoundaries == layers.lafdStationBoundaries;
    if Truthy(res.cityCouncil) || Truthy(res.cityCouncilDistrict) {
      u := u.(layers := u.layers.(laCityCouncilDistricts :=
        Some(CouncilDistrictEntry(OrUnknown(res.cityCouncil), OrUnknown(res.cityCouncilDistrict)))));
    }
    assert u.layers.laCityCouncilDistricts == layers.laCityCouncilDistricts;
    if Truthy(res.neighborhoodCouncil) {
      u := u.(layers := u.layers.(laNeighborhoodCouncils := Some(NamedEntry(res.neighborhoodCouncil.value))));
    }
    assert u.layers.laNeighborhoodCouncils == layers.laNeighborhoodCouncils;
    if Truthy(res.schoolDistrict) {
      u := u.(layers := u.layers.(laCountySchoolDistricts := Some(SchoolDistrictEntry(res.schoolDistrict.value))));
    }
  }

  /** Each demographic scope is merged into whatever `demographics` already holds. */
  method AddDemographics(t: LAGeographyResponse, res: RawResults) returns (u: LAGeographyResponse)
    ensures u.coordinates == t.coordinates && u.layers == t.layers && u.place == t.place
    ensures t.demographics == None ==> u.demographics == NormalizeDemographics(res)
    ensures !res.neighborhoodDemographics.Defined? && !res.cityDemographics.Defined? ==> u.demographics == t.demographics
    ensures t.demographics.Some? ==>
              u.demographics.Some? &&
              (!res.neighborhoodDemographics.Defined? ==> u.demographics.value.neighborhood == t.demographics.value.neighborhood) &&
              (!res.cityDemographics.Defined? ==> u.demographics.value.city == t.demographics.value.city)
    ensures res.neighborhoodDemographics.Defined? ==>
              u.demographics.Some? && u.demographics.value.neighborhood == Some(res.neighborhoodDemographics.value)
    ensures res.cityDemographics.Defined? ==>
              u.demographics.Some? && u.demographics.value.city == Some(res.cityDemographics.value)
  {
    u := t;
    if res.neighborhoodDemographics.Defined? {
      var prior := if u.demographics.Some? then u.demographics.value else DemographicsByScope(None, None);
      u := u.(demographics := Some(prior.(neighborhood := Some(res.neighborhoodDemographics.value))));
    }
    if res.cityDemographics.Defined? {
      var prior := if u.demographics.Some? then u.demographics.value else DemographicsByScope(None, None);
      u := u.(demographics := Some(prior.(city := Some(res.cityDemographics.value))));
    }
  }

  /** The governance keys: `place` is assigned, all four keys at once, when any of them is not undefined. */
  method AddPlace(t: LAGeographyResponse, res: RawResults) returns (u: LAGeographyResponse)
    requires t.place == None
    ensures u == t.(place := NormalizePlace(res))
  {
    u := t;
    if IsGiven(res.neighborhoodType) || IsGiven(res.neighborhoodCitySlug) ||
       IsGiven(res.placeCategory) || IsGiven(res.cityIsIncorporated)
    {
      u := u.(place := Some(Place(OrNull(res.neighborhoodType), OrNull(res.neighborhoodCitySlug),
                                  OrNull(res.placeCategory), BooleanOrNull(res.cityIsIncorporated))));
    }
  }

  // ---------------------------------------------------------------------------
  // Validation
  // ---------------------------------------------------------------------------

  /** A transport failure yields the fetch error, whatever the body holds. */
  lemma FetchFailureIgnoresBody(lat: real, lon: real, statusText: string, body: Option<RawBody>)
    ensures LookupOutcome(lat, lon, false, statusText, body)
         == Failure(Thrown("Failed to fetch geography data: " + statusText))
  {
  }

  /** With the transport ok, the format error is reported exactly for a missing body, a wrong status or missing results. */
  lemma InvalidFormatExactly(lat: real, lon: real, statusText: string, body: Option<RawBody>)
    ensures LookupOutcome(lat, lon, true, statusText, body) == Failure(Thrown("Invalid API response format"))
        <==> (body.None? || body.value.status != Defined("success") || body.value.results.Undefined?
              || body.value.results.Null?)
  {
  }

  /** A status other than "success" is refused even when `results` is present. */
  lemma NonSuccessStatusRejected(lat: real, lon: real, statusText: string, body: RawBody)
    requires body.status != Defined("success")
    ensures LookupOutcome(lat, lon, true, statusText, Some(body)) == Failure(Thrown("Invalid API response format"))
  {
  }

  /** The lookup succeeds exactly on an ok transport and a valid body echoing a query. */
  lemma SuccessExactly(lat: real, lon: real, ok: bool, statusText: string, body: Option<RawBody>)
    ensures LookupOutcome(lat, lon, ok, statusText, body).Success?
        <==> ok && body.Some? && body.value.status == Defined("success")
             && body.value.results.Defined? && body.value.query.Defined?
  {
  }

  /** Output coordinates are the echoed query's, and the requested point plays no part in the result. */
  lemma CoordinatesFromEchoedQuery(lat: real, lon: real, lat': real, lon': real, ok: bool, statusText: string,
                                   body: Option<RawBody>)
    ensures LookupOutcome(lat, lon, ok, statusText, body) == LookupOutcome(lat', lon', ok, statusText, body)
    ensures LookupOutcome(lat, lon, ok, statusText, body).Success? ==>
      body.Some? && body.value.query.Defined? &&
      LookupOutcome(lat, lon, ok, statusText, body).value.coordinates.lat == body.value.query.value.lat &&
      LookupOutcome(lat, lon, ok, statusText, body).value.coordinates.lon == body.value.query.value.lon
  {
  }

  // ---------------------------------------------------------------------------
  // Layers
  // ---------------------------------------------------------------------------

  /** `la_neighborhoods_comprehensive` is present iff `neighborhood` is a non-empty string; its type falls back to "Unknown". */
  lemma NeighborhoodLayer(query: Coordinates, res: RawResults)
    ensures Normalize(query, res).layers.laNeighborhoodsComprehensive.Some? <==> Truthy(res.neighborhood)
    ensures Normalize(query, res).layers.laNeighborhoodsComprehensive.Some? ==>
      var e := Normalize(query, res).layers.laNeighborhoodsComprehensive.value;
      res.neighborhood == Defined(e.name) && e.name != "" &&
      (e.kind == "Unknown" <==> !Truthy(res.city) || res.city == Defined("Unknown")) &&
      (Truthy(res.city) ==> res.city == Defined(e.kind))
  {
  }

  /** `la_city_council_districts` is present iff either raw part is non-empty; a missing or empty part reads "Unknown". */
  lemma CouncilDistrictLayer(query: Coordinates, res: RawResults)
    ensures Normalize(query, res).layers.laCityCouncilDistricts.Some?
        <==> Truthy(res.cityCouncil) || Truthy(res.cityCouncilDistrict)
    ensures Normalize(query, res).layers.laCityCouncilDistricts.Some? ==>
      var e := Normalize(query, res).layers.laCityCouncilDistricts.value;
      (Truthy(res.cityCouncil) ==> res.cityCouncil == Defined(e.districtName)) &&
      (!Truthy(res.cityCouncil) ==> e.districtName == "Unknown") &&
      (Truthy(res.cityCouncilDistrict) ==> res.cityCouncilDistrict == Defined(e.district)) &&
      (!Truthy(res.cityCouncilDistrict) ==> e.district == "Unknown")
  {
  }

  /** The six layers that copy one raw string each. */
  datatype SimpleLayer = Region | LapdDivision | LapdBureau | LafdStation | NeighborhoodCouncil | SchoolDistrict

  /** The raw key a simple layer is read from. */
  function RawSource(res: RawResults, k: SimpleLayer): Maybe<string>
  {
    match k
    case Region => res.region
    case LapdDivision => res.lapdDivision
    case LapdBureau => res.lapdBureau
    case LafdStation => res.lafdStation
    case NeighborhoodCouncil => res.neighborhoodCouncil
    case SchoolDistrict => res.schoolDistrict
  }

  /** `res` with the raw key of layer `k` replaced by `v`. */
  function WithRawSource(res: RawResults, k: SimpleLayer, v: Maybe<string>): RawResults
  {
    match k
    case Region => res.(region := v)
    case LapdDivision => res.(lapdDivision := v)
    case LapdBureau => res.(lapdBureau := v)
    case LafdStation => res.(lafdStation := v)
    case NeighborhoodCouncil => res.(neighborhoodCouncil := v)
    case SchoolDistrict => res.(schoolDistrict := v)
  }

  /** The string carried by layer `k` (`name`, `aprec` or `label`), if the layer is present. */
  function Carried(layers: Layers, k: SimpleLayer): Option<string>
  {
    match k
    case Region => if layers.laRegions.Some? then Some(layers.laRegions.value.name) else None
    case LapdDivision => if layers.lapdDivisions.Some? then Some(layers.lapdDivisions.value.aprec) else None
    case LapdBureau => if layers.lapdBureaus.Some? then Some(layers.lapdBureaus.value.name) else None
    case LafdStation =>
      if layers.lafdStationBoundaries.Some? then Some(layers.lafdStationBoundaries.value.name) else None
    case NeighborhoodCouncil =>
      if layers.laNeighborhoodCouncils.Some? then Some(layers.laNeighborhoodCouncils.value.name) else None
    case SchoolDistrict =>
      if layers.laCountySchoolDistricts.Some? then Some(layers.laCountySchoolDistricts.value.districtLabel) else None
  }

  /** `layers` with layer `k` removed. */
  function Without(layers: Layers, k: SimpleLayer): Layers
  {
    match k
    case Region => layers.(laRegions := None)
    case LapdDivision => layers.(lapdDivisions := None)
    case LapdBureau => layers.(lapdBureaus := None)
    case LafdStation => layers.(lafdStationBoundaries := None)
    case NeighborhoodCouncil => layers.(laNeighborhoodCouncils := None)
    case SchoolDistrict => layers.(laCountySchoolDistricts := None)
  }

  /** Each simple layer is present iff its raw key is a non-empty string, and carries exactly that string. */
  lemma SimpleLayerPresence(query: Coordinates, res: RawResults, k: SimpleLayer)
    ensures Carried(Normalize(query, res).layers, k).Some? <==> Truthy(RawSource(res, k))
    ensures Carried(Normalize(query, res).layers, k).Some? ==>
      RawSource(res, k) == Defined(Carried(Normalize(query, res).layers, k).value)
  {
  }

  /** Changing the raw key of one simple layer changes nothing in the response but that layer. */
  lemma SimpleLayerIsolated(query: Coordinates, res: RawResults, k: SimpleLayer, v: Maybe<string>)
    ensures var before, after := Normalize(query, res), Normalize(query, WithRawSource(res, k, v));
      after.(layers := Without(after.layers, k)) == before.(layers := Without(before.layers, k))
  {
  }

  // ---------------------------------------------------------------------------
  // Demographics and place
  // ---------------------------------------------------------------------------

  /** `demographics` appears iff some scope is given; each scope key appears iff its raw object does, counts unchanged. */
  lemma DemographicsByScopeCopied(query: Coordinates, res: RawResults)
    ensures Normalize(query, res).demographics.Some?
        <==> res.neighborhoodDemographics.Defined? || res.cityDemographics.Defined?
    ensures Normalize(query, res).demographics.Some? ==>
      var d := Normalize(query, res).demographics.value;
      (d.neighborhood.Some? <==> res.neighborhoodDemographics.Defined?) &&
      (d.city.Some? <==> res.cityDemographics.Defined?) &&
      (d.neighborhood.Some? ==> res.neighborhoodDemographics == Defined(d.neighborhood.value)) &&
      (d.city.Some? ==> res.cityDemographics == Defined(d.city.value))
  {
  }

  /** `place` appears iff a governance key is not undefined; then every key is set, to the raw value or null. */
  lemma PlaceEmission(query: Coordinates, res: RawResults)
    ensures Normalize(query, res).place.Some? <==>
      !res.neighborhoodType.Undefined? || !res.neighborhoodCitySlug.Undefined? ||
      !res.placeCategory.Undefined? || !res.cityIsIncorporated.Undefined?
    ensures Normalize(query, res).place.Some? ==>
      var p := Normalize(query, res).place.value;
      (p.neighborhoodType.Some? <==> res.neighborhoodType.Defined?) &&
      (p.neighborhoodType.Some? ==> res.neighborhoodType == Defined(p.neighborhoodType.value)) &&
      (p.neighborhoodCitySlug.Some? <==> res.neighborhoodCitySlug.Defined?) &&
      (p.neighborhoodCitySlug.Some? ==> res.neighborhoodCitySlug == Defined(p.neighborhoodCitySlug.value)) &&
      (p.placeCategory.Some? <==> res.placeCategory.Defined?) &&
      (p.placeCategory.Some? ==> res.placeCategory == Defined(p.placeCategory.value)) &&
      (p.cityIsIncorporated.Some? <==> res.cityIsIncorporated.Defined? && res.cityIsIncorporated.value.JBool?) &&
      (p.cityIsIncorporated.Some? ==> res.cityIsIncorporated == Defined(JBool(p.cityIsIncorporated.value)))
  {
  }

  /** An explicit `null` slug alone still emits `place`, with every key null. */
  lemma NullSlugEmitsPlace(query: Coordinates)
    ensures Normalize(query, NoRawResults.(neighborhoodCitySlug := Null)).place == Some(Place(None, None, None, None))
  {
  }

  /** An empty neighborhood type is passed through as "", not turned into null. */
  lemma EmptyTypePassesThrough(query: Coordinates, res: RawResults)
    requires res.neighborhoodType == Defined("")
    ensures Normalize(query, res).place.Some?
    ensures Normalize(query, res).place.value.neighborhoodType == Some("")
  {
  }

  /** A non-boolean `city_is_incorporated` (here the string "true") still emits `place` but maps to null. */
  lemma NonBooleanIncorporationIsNull(query: Coordinates, res: RawResults)
    requires res.cityIsIncorporated == Defined(JString("true"))
    ensures Normalize(query, res).place.Some?
    ensures Normalize(query, res).place.value.cityIsIncorporated == None
  {
  }

  /** The Downtown reply normalises to a neighborhood and a region layer, with no demographics and no place. */
  lemma DowntownScenario()
    ensures
      var res := NoRawResults.(neighborhood := Defined("Downtown"), city := Defined("Los Angeles"),
                               region := Defined("Central LA"));
      var body := RawBody(Defined("success"), Defined(Coordinates(34.05, -118.24)), Defined(res));
      LookupOutcome(34.05, -118.24, true, "OK", Some(body)) ==
        Success(LAGeographyResponse(
          Coordinates(34.05, -118.24),
          NoLayers.(laNeighborhoodsComprehensive := Some(NeighborhoodEntry("Downtown", "Los Angeles")),
                    laRegions := Some(NamedEntry("Central LA"))),
          None,
          None))
  {
  }
}
