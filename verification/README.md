# LA geography lookup and location store, modelled in Dafny

This project models two parts of a browser application that looks up LA-area
jurisdictions and demographics for a point.

- **The LA-geography client** (`src/lib/api/laGeography.ts`). The model covers
  what `getLAGeography` does once the HTTP call has returned:
  - It refuses a failed transport.
  - It validates the parsed reply (`status`, `results`).
  - It normalises the flat, optional-keyed `results` object into the internal
    `LAGeographyResponse`. That shape has renamed layer entries, a
    `demographics` object keyed by scope, and a `place` object whose keys
    default to `null`.

  The model is in `la_geography.dfy` (module `LAGeography`):
  - JSON keys that may be missing are `Maybe<T> = Undefined | Null | Defined(T)`.
  - The source's JavaScript tests are written out as `Truthy` (`if (x)`),
    `OrUnknown` (`x || 'Unknown'`), `OrNull` (`x ?? null`), `IsGiven`
    (`x !== undefined`) and `BooleanOrNull` (`typeof x === 'boolean'`).
  - `Normalize` and `LookupOutcome` are the reference definition. Each output
    key is defined on its own.
  - `GetLAGeography` follows the source's order of checks. It creates the
    response with empty layers and fills it in under one guard per key
    (`AddLayers`, `AddDemographics`, `AddPlace`). It is proved equal to
    `LookupOutcome`.
  - The lemmas state the presence and absence rules about `Normalize`.

- **The location store** (`src/lib/stores/location.ts`), in
  `location_store.dfy` (module `Location`):
  - The setters are pure updates of the `LocationData` record (`WithCoordinates`,
    `WithGeographyData`, `WithLoading`, `WithError`, `Initial`).
  - The class `LocationStore` holds the shared cell. Each setter and `Reset`
    is a method that assigns `state`.
  - The ghost field `history` records the calls made. `Valid()` says the state
    is the `Replay` of that history from the initial state.
  - The lemmas about `Replay` state what persists across sequences of calls.
    They use `Writes`, a table of which fields each call may write, read off
    the store's definition. They also cover the loading-flag invariant and
    last-write-wins.

The lookup throws plain `Error` values. The fetch failure message is
`"Failed to fetch geography data: " + statusText`
(src/lib/api/laGeography.ts:111). The format failure message is
`"Invalid API response format"` (src/lib/api/laGeography.ts:119). A missing or
`null` `query` makes the read of `rawData.query.lat` throw a `TypeError`
(src/lib/api/laGeography.ts:125). The model's `Error` is
`Thrown(message) | QueryTypeError`.

## Model

| member | source | states |
|---|---|---|
| `LAGeography.OrUnknown` | src/lib/api/laGeography.ts:135 | `x \|\| 'Unknown'` is never empty: it is the raw string when that is non-empty, otherwise "Unknown" |
| `LAGeography.OrNull` | src/lib/api/laGeography.ts:229-231 | `x ?? null` is null exactly for undefined/null; any other value, "" included, passes through unchanged |
| `LAGeography.BooleanOrNull` | src/lib/api/laGeography.ts:232-233 | yields `b` exactly when the raw value is the boolean `b`, otherwise null |
| `LAGeography.GetLAGeography` | src/lib/api/laGeography.ts:110-239 | the step-by-step lookup (ok check, format check, query read, in-place fill) returns exactly the reference outcome `LookupOutcome` |
| `LAGeography.AddLayers` | src/lib/api/laGeography.ts:131-187 | the eight guarded layer assignments, starting from empty layers, produce exactly the reference layers and touch nothing else |
| `LAGeography.AddDemographics` | src/lib/api/laGeography.ts:189-216 | the scope merge touches only `demographics`; from an unset `demographics` it yields the reference object; with no raw scope it changes nothing; a given raw scope becomes that scope's key; a scope already held survives unless its raw counterpart is given |
| `LAGeography.AddPlace` | src/lib/api/laGeography.ts:218-235 | the governance guard sets `place` to the reference value and touches nothing else |
| `LAGeography.FetchFailureIgnoresBody` | src/lib/api/laGeography.ts:110-112 | a not-ok transport yields "Failed to fetch geography data: " plus the status text, whatever the body |
| `LAGeography.InvalidFormatExactly` | src/lib/api/laGeography.ts:117-120 | with an ok transport, "Invalid API response format" is thrown iff the body is missing, `status` is not exactly "success", or `results` is undefined or null |
| `LAGeography.NonSuccessStatusRejected` | src/lib/api/laGeography.ts:118-119 | a status other than "success" is refused even when `results` is present |
| `LAGeography.SuccessExactly` | src/lib/api/laGeography.ts:110-127 | the lookup succeeds iff the transport is ok, the body is valid, and the echoed `query` is present |
| `LAGeography.CoordinatesFromEchoedQuery` | src/lib/api/laGeography.ts:123-127 | the output coordinates are the echoed `query.lat`/`query.lon`, and the requested lat/lon do not affect the outcome |
| `LAGeography.NeighborhoodLayer` | src/lib/api/laGeography.ts:131-137 | `la_neighborhoods_comprehensive` is present iff `neighborhood` is non-empty; its name is that string; its type is `city` when non-empty, otherwise "Unknown" |
| `LAGeography.CouncilDistrictLayer` | src/lib/api/laGeography.ts:167-173 | `la_city_council_districts` is present iff `city_council` or `city_council_district` is non-empty; each missing or empty part reads "Unknown" |
| `LAGeography.SimpleLayerPresence` | src/lib/api/laGeography.ts:139-187 | each of regions, LAPD division (`aprec`), LAPD bureau, LAFD station, neighborhood council and school district (`label`) is present iff its raw key is non-empty, and carries exactly that string |
| `LAGeography.SimpleLayerIsolated` | src/lib/api/laGeography.ts:139-187 | changing the raw key of one of those six layers changes nothing in the response except that layer |
| `LAGeography.DemographicsByScopeCopied` | src/lib/api/laGeography.ts:189-216 | `demographics` is present iff some raw scope is; the `neighborhood`/`city` keys are each present iff their raw object is, with the counts unchanged; setting `city` keeps `neighborhood` |
| `LAGeography.PlaceEmission` | src/lib/api/laGeography.ts:218-235 | `place` is emitted iff a governance key is not undefined; then each string key is the raw value or null (null exactly for undefined/null), and `cityIsIncorporated` is the raw boolean or null |
| `LAGeography.NullSlugEmitsPlace` | src/lib/api/laGeography.ts:222-230 | an explicit `null` slug alone emits `place` with all four keys null |
| `LAGeography.EmptyTypePassesThrough` | src/lib/api/laGeography.ts:229 | an empty `neighborhood_type` emits `place` with `neighborhoodType` equal to "" rather than null |
| `LAGeography.NonBooleanIncorporationIsNull` | src/lib/api/laGeography.ts:226-233 | a non-boolean `city_is_incorporated` emits `place` but maps to null |
| `LAGeography.DowntownScenario` | src/lib/api/laGeography.ts:117-239 | the Downtown / Los Angeles / Central LA reply gives exactly a neighborhood layer and a region layer, with no demographics and no place |
| `Location.Initial` | src/lib/stores/location.ts:16-19 | the initial state has point (0,0), is not loading, and has no address, geography data or error |
| `Location.WithCoordinates` | src/lib/stores/location.ts:23-28 | sets the point and the address (an omitted address clears it); geography data, loading and error are unchanged |
| `Location.WithGeographyData` | src/lib/stores/location.ts:29-34 | stores the data and clears loading; point, address and error are unchanged, so a prior error stays |
| `Location.WithLoading` | src/lib/stores/location.ts:35-39 | changes only the loading flag |
| `Location.WithError` | src/lib/stores/location.ts:40-45 | records the error and clears loading; point, address and geography data are unchanged |
| `Location.ResetFromAnyState` | src/lib/stores/location.ts:46-50 | reset from any state yields point (0,0), not loading, and no address, data or error |
| `Location.ApplyFrame` | src/lib/stores/location.ts:23-50 | a call leaves every field outside its write set unchanged |
| `Location.ReplayFrame` | src/lib/stores/location.ts:23-50 | a field written by no call in a sequence keeps its value through the whole sequence |
| `Location.SettledStaysIdle` | src/lib/stores/location.ts:29-50 | after setGeographyData, setError or reset, loading stays false until setLoading is called again |
| `Location.LoadingHasCause` | src/lib/stores/location.ts:29-50 | if loading is true and was false at the start, there was a setLoading(true) after which nothing cleared it |
| `Location.ErrorKeepsStaleData` | src/lib/stores/location.ts:29-45 | data followed by an error leaves both the data and the error in the state, not loading |
| `Location.LastWriteWins` | src/lib/stores/location.ts:29-50 | after any sequence of calls, the data of the last setGeographyData is what the state holds, provided no reset comes after it |
| `Location.StoreLoadingHasCause` | src/lib/stores/location.ts:15-50 | a store whose state is loading has a setLoading(true) in its history after which nothing cleared the flag |
| `Location.LocationStore.constructor` | src/lib/stores/location.ts:15-19 | the store starts in the initial state, with an empty history |
| `Location.LocationStore.SetCoordinates` | src/lib/stores/location.ts:23-28 | the cell becomes `WithCoordinates` of its old value, and the history grows by this call |
| `Location.LocationStore.SetGeographyData` | src/lib/stores/location.ts:29-34 | the cell becomes `WithGeographyData` of its old value, and the history grows by this call |
| `Location.LocationStore.SetLoading` | src/lib/stores/location.ts:35-39 | the cell becomes `WithLoading` of its old value, and the history grows by this call |
| `Location.LocationStore.SetError` | src/lib/stores/location.ts:40-45 | the cell becomes `WithError` of its old value, and the history grows by this call |
| `Location.LocationStore.Reset` | src/lib/stores/location.ts:46-50 | the cell becomes the initial state, and the history grows by this call |

## Left out

- The `fetch` call, the URL built from `lat`/`lon`, and the parsing of the body (src/lib/api/laGeography.ts:106-114) are network I/O. The transport's `ok` flag, its status text and the parsed body are parameters instead.
- The two `console.log` calls (src/lib/api/laGeography.ts:115, 237) are output only.
- Raw layer and governance keys are modelled at their declared type (a string), or as missing or `null`. A number or object arriving at one of those keys is not modelled.
- The raw `neighborhood_demographics` and `city_demographics` objects are modelled at their declared type, with all six integer counts present. An object that lacks a count (which would copy `undefined`, src/lib/api/laGeography.ts:194-199 and 208-213) is not modelled. `city_is_incorporated` is the exception: it may be any JSON value, because the source tests its type.
- A parsed body that is a falsy non-object (`false`, `0`, `""`) is not distinguished from a missing body; both are `None`.
- The echoed `query` is either missing/`null` or holds two numbers. A `query` object that lacks `lat` or `lon` (which would copy `undefined`) is not modelled.
- The `area_sqmi` keys of the internal layer entries are never written by the transform, so the output datatypes omit them.
- The extra `[key: string]: any` keys of the raw `results` are ignored by the transform and are not in the raw datatype.
- Coordinates are `real` and population counts are `int`. Both are only copied; floating-point behaviour is not modelled.
- Svelte's `writable`, `subscribe` and change notification (src/lib/stores/location.ts:1, 16, 22) are library machinery. The store is a class field that the methods assign.
- The ordering of concurrent lookups against the store is not modelled. Interleavings are represented only as sequences of store calls (`Replay`).
- src/lib/api/geocode.ts is a pass-through HTTP client and is not part of this model.
- src/lib/utils/formatters.ts is floating-point formatting and is not part of this model.
- tailwind.config.js is styling configuration and is not part of this model.
