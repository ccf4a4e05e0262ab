# Weather app core, modelled in Dafny

This project models the logic of a Korean weather web app (Next.js, TypeScript).
The app shows current weather and an hourly forecast from OpenWeather, searches
Korean districts by name, finds the browser's position and keeps up to six
favourite places in `localStorage`. The model covers the parts that are plain
logic once their I/O is made an input:

- **Favorites store** (`favorites_storage.dfy`). A class holds the `localStorage`
  slot and a count of `favorites-changed` events. Add, remove, update-alias and
  update-coordinates are methods. Each is proved equal to a pure function of the
  old list. Lemmas prove that every operation keeps the list within six entries
  with unique place names, and keeps ids unique.
- **Favorites hook** (`favorites_hook.dfy`). A cached copy of the list and of the
  "can add more" flag. It is re-read only after a successful change, so it stays
  in sync with the store.
- **Alias editor** (`edit_favorite_dialog.dfy`). Trim-or-null normalisation and
  the field's state.
- **Provider client** (`weather_api.dfy`). The module-level rate limiter (50
  calls per 60 s window, HTTP 429 cooldown) and the error mapping of
  `fetchWeatherAPI`. Also the hourly formatter, and the assembly and final
  validation of the weather record in `getWeatherData`.
- **Weather-code mapper** (`weather_code_mapper.dfy`). WMO codes to icon code
  and Korean description.
- **Schemas** (`weather_schemas.dfy`). The zod schemas as parsers over a JSON
  datatype. Encode/parse round-trip lemmas state exactly what each schema
  accepts.
- **Place-name chains** (`place_names.dfy`). The OpenWeather and Nominatim
  reverse-geocoding fallbacks, as functions of the fetch outcome.
- **Geolocation hook** (`geolocation.dfy`). A class whose methods are the
  hook's events. Each method is proved equal to a transition function. Lemmas
  about runs of events show that the automatic request fires at most once.
- **Districts** (`korea_districts.dfy`). Splitting a "시-구-동" name into its
  levels, the search (filter, cut, then a stable sort by prefix match, level
  and the collation of full names), and the weather query string.
- **Location search hook** (`location_search.dfy`). The search box's state and
  its derived results.
- **JavaScript built-ins** the code relies on: `trim`, `split`, `join`,
  `toLowerCase`, `includes`, `startsWith` and number-to-text
  (`js_text.dfy`), plus `Math.round` (`js_math.dfy`).

Inputs:
- The clock (`now`), the API key's presence and every HTTP outcome are parameters.
- The random id and the creation time of a new favorite are parameters.
- The browser's position and geolocation error code are parameters.
- The district list (`korea_districts.json`) is a parameter.
- The Korean collation that `localeCompare` applies is a parameter.

`weather.ts` imports `CurrentWeatherResponseSchema` and
`ForecastResponseSchema`, but `weather.schemas.ts` does not define them. So the
verdict of those response schemas is part of the HTTP outcome (`Payload`).

The model follows the code where the project's own documentation promises
more. The code:
- names the weather record after the provider's `name` field;
- takes no location hint;
- has no reverse-geocoding fallback;
- takes the daily min/max temperatures from the provider instead of deriving
  them;
- does not snap forecast times to fixed hours.

## Model

| member | source | states |
|---|---|---|
| FavoritesStorage.NewFavorite | src/shared/lib/storage.ts:47-76 | no entry is created exactly when the list already has 6 entries or one with the same fullName; otherwise the entry has the given names and coordinates, the given id and time, and no alias |
| FavoritesStorage.WithoutId | src/shared/lib/storage.ts:80 | the filter keeps exactly the entries whose id differs; the length is unchanged iff no entry had the id |
| FavoritesStorage.WithoutIdKeepsOrder | src/shared/lib/storage.ts:80 | the filter keeps the order of the kept entries |
| FavoritesStorage.FindIndex | src/shared/lib/storage.ts:92 | the first index holding the id, or -1 exactly when no entry has it |
| FavoritesStorage.WithAlias | src/shared/lib/storage.ts:98 | the entry at the index gets the alias and keeps its other fields; every other entry and the length are unchanged |
| FavoritesStorage.WithCoordinates | src/shared/lib/storage.ts:114 | the entry at the index gets the coordinates and keeps its other fields; every other entry and the length are unchanged |
| FavoritesStorage.AddKeepsWellFormed | src/shared/lib/storage.ts:54-73 | appending the created entry keeps at most 6 entries and unique fullNames, and keeps ids unique when the new id is fresh |
| FavoritesStorage.RemoveKeepsUniqueFullNames | src/shared/lib/storage.ts:78-88 | removing by id keeps fullNames unique |
| FavoritesStorage.RemoveKeepsUniqueIds | src/shared/lib/storage.ts:78-88 | removing by id keeps ids unique |
| FavoritesStorage.RemoveKeepsWellFormed | src/shared/lib/storage.ts:78-88 | removing by id keeps the list well formed |
| FavoritesStorage.UpdateKeepsWellFormed | src/shared/lib/storage.ts:90-117 | an alias or coordinates update changes only that field of that entry, so the list stays well formed with unique ids |
| FavoritesStorage.FavoritesStore.Favorites | src/shared/lib/storage.ts:19-29 | the stored list, or [] outside a browser, when nothing is stored or when the stored text does not parse |
| FavoritesStorage.FavoritesStore.constructor | src/shared/lib/storage.ts:15-17 | a store in or out of a browser with the given slot contents and no change events yet |
| FavoritesStorage.FavoritesStore.CanAddMore | src/shared/lib/storage.ts:119-121 | true iff fewer than 6 entries are stored |
| FavoritesStorage.FavoritesStore.Save | src/shared/lib/storage.ts:31-45 | in a browser the slot holds the list and one change event is dispatched; outside a browser nothing changes |
| FavoritesStorage.FavoritesStore.AddFavorite | src/shared/lib/storage.ts:47-76 | returns NewFavorite of the old list; on refusal nothing is written; on success the list is the old list with the entry appended |
| FavoritesStorage.FavoritesStore.RemoveFavorite | src/shared/lib/storage.ts:78-88 | true iff some entry has the id; false writes nothing; true stores the filtered list |
| FavoritesStorage.FavoritesStore.UpdateFavoriteAlias | src/shared/lib/storage.ts:90-101 | true iff some entry has the id; the alias is stored verbatim on the first such entry; false writes nothing |
| FavoritesStorage.FavoritesStore.UpdateFavoriteCoordinates | src/shared/lib/storage.ts:103-117 | true iff some entry has the id; the coordinates are set on the first such entry; false writes nothing |
| FavoritesStorage.SeventhFavoriteRefused | src/shared/lib/storage.ts:13 | six adds of distinct places fill an empty store; the seventh add returns nothing and the store keeps six |
| FavoritesHook.FavoritesCache.constructor | src/features/favorites/model/useFavorites.ts:32-37 | the stored list and its capacity flag in a browser, [] and true outside one; in sync either way |
| FavoritesHook.FavoritesCache.Refresh | src/features/favorites/model/useFavorites.ts:39-42 | the cache equals the store's list and capacity flag |
| FavoritesHook.FavoritesCache.AddToFavorites | src/features/favorites/model/useFavorites.ts:44-55 | true iff the store added the place; on success the cache is in sync and, in a browser, is the old list with the new entry appended; on failure cache, slot and event count are unchanged |
| FavoritesHook.FavoritesCache.RemoveFromFavorites | src/features/favorites/model/useFavorites.ts:57-64 | true iff the id was stored; on success the cache is the filtered list; on failure cache, slot and event count are unchanged |
| FavoritesHook.FavoritesCache.UpdateAlias | src/features/favorites/model/useFavorites.ts:66-73 | true iff the id was stored; on success the cache holds the updated list; on failure cache, slot and event count are unchanged |
| FavoritesHook.FavoritesCache.UpdateCoordinates | src/features/favorites/model/useFavorites.ts:75-82 | true iff the id was stored; on success the cache holds the updated list; on failure cache, slot and event count are unchanged |
| EditFavoriteDialog.NormalizeAlias | src/features/favorites/ui/EditFavoriteDialog.tsx:35-36 | no alias exactly when the text is all white space; otherwise a non-empty, trimmed alias no longer than the text |
| EditFavoriteDialog.InitialText | src/features/favorites/ui/EditFavoriteDialog.tsx:32 | the field starts as the existing alias, or "" without one |
| EditFavoriteDialog.NormalizeFramed | src/features/favorites/ui/EditFavoriteDialog.tsx:35-36 | white space around a trimmed name is dropped and the name is kept |
| EditFavoriteDialog.ReopenAndSaveIsStable | src/features/favorites/ui/EditFavoriteDialog.tsx:32-36 | reopening the dialog on a saved alias and saving again saves the same alias |
| EditFavoriteDialog.NormalizeExamples | src/features/favorites/ui/EditFavoriteDialog.tsx:35-36 | "   " saves no alias; " 우리집 " saves "우리집" |
| EditFavoriteDialog.AliasEditor.HandleSave | src/features/favorites/ui/EditFavoriteDialog.tsx:34-37 | onSave receives the normalised text; the field keeps its text |
| EditFavoriteDialog.AliasEditor.constructor | src/features/favorites/ui/EditFavoriteDialog.tsx:32 | the field starts with the saved alias, or "" when there is none; nothing saved yet |
| EditFavoriteDialog.AliasEditor.SetAlias | src/features/favorites/ui/EditFavoriteDialog.tsx:68 | typing replaces the field text and saves nothing |
| EditFavoriteDialog.AliasEditor.HandleReset | src/features/favorites/ui/EditFavoriteDialog.tsx:39-42 | the field is emptied and onSave receives no alias |
| WeatherApi.Message | src/shared/api/weather.ts:35-84 | the errors the code throws itself carry a non-empty message; a network failure, a non-JSON body and a rejected record carry the platform's own (the schema text is stated by SchemaMismatchMessageCarriesIssues) |
| WeatherApi.Admit | src/shared/api/weather.ts:28-43 | the window restarts after more than 60000 ms; the call is refused for the rate limit iff the window's count is at 50, and otherwise counts one call; it is admitted iff under the limit and the key is set |
| WeatherApi.Settle | src/shared/api/weather.ts:54-85 | a value iff a 2xx response with a conforming body, and then that body; 404 is NotFound, another non-2xx status is HttpFailure of it, a 2xx body failing its schema is SchemaMismatch of the issues, a non-JSON body is BodyNotJson, a rejected fetch is NetworkFailure; only a 429 changes the counter, to 50 |
| WeatherApi.Fetch | src/shared/api/weather.ts:22-86 | a value iff the call is admitted and the response is 2xx with a conforming body (so only with the key set); an admitted call settles its response, a refused call ignores it; the counter stays within 0..50 |
| WeatherApi.GetWeatherDataSpec | src/shared/api/weather.ts:144-176 | without a key it rejects with the key or rate-limit error; the counter stays within 0..50; a returned record has in-range coordinates |
| WeatherApi.HttpFailureMessageCarriesStatus | src/shared/api/weather.ts:62-64 | the failure message ends with the status in decimal between parentheses, and reading it back gives the status |
| WeatherApi.SchemaMismatchMessageCarriesIssues | src/shared/api/weather.ts:74-79 | the mismatch message is the fixed prefix followed by every issue message, in order, each but the last followed by ", ", and nothing after the last |
| WeatherApi.LimiterStaysInRange | src/shared/api/weather.ts:28-39 | admission and settlement keep the counter within 0..50 |
| WeatherApi.WindowResetRule | src/shared/api/weather.ts:28-33 | the window restarts (counter 0 then 1, start now) exactly when more than 60000 ms have passed |
| WeatherApi.RefusedAtLimit | src/shared/api/weather.ts:35-37 | at 50 calls in the window the call is refused with no state change |
| WeatherApi.AdmissionSpendsBudget | src/shared/api/weather.ts:39-43 | a call under the limit spends one unit before the key check, and is refused for a missing key after spending |
| WeatherApi.CooldownAfterTooManyRequests | src/shared/api/weather.ts:58-64 | a 429 sets the counter to 50 and fails with the status message; the next call in the window is refused |
| WeatherApi.BudgetPerWindow | src/shared/api/weather.ts:28-43 | within one window at most the remaining budget of calls get past the limit, whatever the responses |
| WeatherApi.ExactBudgetPerWindow | src/shared/api/weather.ts:28-43 | without 429s the calls of one window spend exactly min(calls, remaining budget) |
| WeatherApi.ProviderClient.Begin | src/shared/api/weather.ts:27-43 | the new limiter state and the admission are Admit of the old state; the counter stays within range |
| WeatherApi.ProviderClient.constructor | src/shared/api/weather.ts:17-20 | at module load the counter is 0 and the window starts at the load time, which satisfies the limiter invariant |
| WeatherApi.ProviderClient.Complete | src/shared/api/weather.ts:54-85 | the result and new state are Settle: 404, then 429 (counter forced to 50), then other statuses, then body and schema |
| WeatherApi.ProviderClient.FetchWeatherApi | src/shared/api/weather.ts:22-86 | one whole call equals Fetch of the old state |
| WeatherApi.ProviderClient.GetWeatherData | src/shared/api/weather.ts:144-176 | both calls are admitted before either response is handled; result and state equal GetWeatherDataSpec |
| WeatherApi.FirstRejection | src/shared/api/weather.ts:147-150 | the combined call rejects iff either request failed, and with one of their errors |
| WeatherApi.NoPartialSnapshot | src/shared/api/weather.ts:147-175 | a record is returned only when the key is set and both responses were 2xx with conforming bodies, and then it is built from those bodies; conversely, with the key set, room for two calls and two such responses, the result is the record built from them |
| WeatherApi.WeatherDataSpendsTwoCalls | src/shared/api/weather.ts:144-150 | one getWeatherData spends two calls of the window's budget whatever the responses, or hits the 429 cap |
| WeatherApi.Upcoming | src/shared/api/weather.ts:122-124 | keeps exactly the items with dt*1000 >= now |
| WeatherApi.UpcomingKeepsOrder | src/shared/api/weather.ts:122-124 | the filter keeps input order |
| WeatherApi.IconOf | src/shared/api/weather.ts:137-139 | the first condition's icon when it is non-empty, else "01d"; never empty |
| WeatherApi.DescriptionOf | src/shared/api/weather.ts:137-139 | the first condition's description, or "" when there is no condition |
| WeatherApi.FormatHourlyForecast | src/shared/api/weather.ts:117-142 | the first min(8, upcoming) upcoming items in order, each with a whole temperature and a non-empty icon |
| WeatherApi.ToHourly | src/shared/api/weather.ts:129-140 | an hourly entry has the item time's label, a whole temperature within half a degree of the item's, the first condition's icon or "01d" (never empty), and the first condition's description or "" |
| WeatherApi.HourlyEntriesAreUpcoming | src/shared/api/weather.ts:122-129 | every formatted entry comes from an item at or after now |
| WeatherApi.BuildWeatherData | src/shared/api/weather.ts:153-175 | succeeds iff the provider's coordinates are in range; location is the provider name; temperatures rounded; humidity and wind passed through; icon and description taken from the first condition with their defaults |
| WeatherCodeMapper.MapWeatherCodeToIcon | src/shared/utils/weather-code-mapper.ts:12-88 | three characters: a family from {01,02,03,04,09,10,11,13,50}, then n at night or d by day; unlisted codes give 01 |
| WeatherCodeMapper.MapWeatherCodeToDescription | src/shared/utils/weather-code-mapper.ts:95-208 | "알 수 없음" exactly for the codes without an icon branch |
| WeatherCodeMapper.IconFamilyIsGroup | src/shared/utils/weather-code-mapper.ts:16-87 | the family is the WMO group: 0-3 give 01-04, fog 50, drizzle and showers 09, rain 10, snow 13, thunder 11 |
| WeatherCodeMapper.ClearSky | src/shared/utils/weather-code-mapper.ts:16-98 | code 0 is "맑음" with icon 01d by day |
| WeatherSchemas.ParseCoordinates | src/shared/api/schemas/weather.schemas.ts:9-12 | a parsed value is within the latitude and longitude ranges |
| WeatherSchemas.CoordinatesRoundTrip | src/shared/api/schemas/weather.schemas.ts:9-12 | coordinates pass iff -90<=lat<=90 and -180<=lon<=180, bounds included, and come back unchanged |
| WeatherSchemas.HourlyRoundTrip | src/shared/api/schemas/weather.schemas.ts:15-20 | every hourly entry with string time, icon, description and numeric temp passes unchanged |
| WeatherSchemas.HourlyListRoundTrip | src/shared/api/schemas/weather.schemas.ts:36 | a list of hourly entries of any length passes unchanged |
| WeatherSchemas.CurrentRoundTrip | src/shared/api/schemas/weather.schemas.ts:26-35 | a current block with every field passes unchanged |
| WeatherSchemas.ParseWeatherData | src/shared/api/schemas/weather.schemas.ts:23-37 | a parsed record has in-range coordinates |
| WeatherSchemas.WeatherDataRoundTrip | src/shared/api/schemas/weather.schemas.ts:23-37 | a record passes iff its coordinates are in range, whatever its hourly length, and comes back unchanged |
| WeatherSchemas.WeatherDataParseStable | src/shared/api/schemas/weather.schemas.ts:23-37 | what the schema returns passes it again unchanged |
| WeatherSchemas.RecordRoundTrip | src/shared/api/schemas/weather.schemas.ts:48 | any string-to-string record passes as local_names unchanged |
| WeatherSchemas.GeocodingEntryRoundTrip | src/shared/api/schemas/weather.schemas.ts:42-49 | any entry passes: lat/lon are not range-checked; state and local_names may be absent |
| WeatherSchemas.GeocodingListRoundTrip | src/shared/api/schemas/weather.schemas.ts:41-50 | a list of entries passes unchanged |
| WeatherSchemas.ParseGeocodingResponse | src/shared/api/schemas/weather.schemas.ts:40-51 | a parsed response has at least one element |
| WeatherSchemas.GeocodingResponseRoundTrip | src/shared/api/schemas/weather.schemas.ts:40-51 | a response passes iff it is non-empty |
| PlaceNames.FirstPresent | src/shared/lib/location-utils.ts:32-46 | the truthy candidate with no truthy candidate before it, or none exactly when no candidate is a non-empty string |
| PlaceNames.OpenWeatherPlaceName | src/shared/lib/location-utils.ts:6-50 | no result without a key, on a thrown or non-ok fetch, or for a falsy or empty body; a result is never empty |
| PlaceNames.OpenWeatherChain | src/shared/lib/location-utils.ts:29-46 | for KR: state, else local_names.ko, else name; elsewhere: name; only element 0 counts |
| PlaceNames.NominatimPlaceNameAsWritten | src/shared/lib/reverse-geocoding.ts:8-48 | no result on a thrown or non-ok fetch or without address; with a suburb, city + " " + borough + " " + suburb, an absent field reading "undefined"; else with a borough, city + " " + borough likewise; else the city, or none |
| PlaceNames.NominatimUndefinedCity | src/shared/lib/reverse-geocoding.ts:34-36 | a suburb without city or borough yields "undefined undefined 청운동" |
| PlaceNames.NominatimPlaceName | src/shared/lib/reverse-geocoding.ts:8-48 | a result is the space-join of the present fields of the chosen level |
| PlaceNames.NominatimNameIsPresentFields | src/shared/lib/reverse-geocoding.ts:34-44 | there is no result exactly when none of suburb, borough and city is present |
| PlaceNames.NominatimAgreesWhenComplete | src/shared/lib/reverse-geocoding.ts:34-39 | with city and borough present the corrected chain equals the code as written |
| Geolocation.Round4 | src/features/geolocation/model/useGeolocation.ts:48-50 | the stored coordinate is a whole number of 0.0001 steps (four decimal places) within half a step of the input |
| Geolocation.Round4Unique | src/features/geolocation/model/useGeolocation.ts:48-50 | the result is the only multiple of 0.0001 in the window [x - 0.00005, x + 0.00005), so halves round up |
| Geolocation.Round4Idempotent | src/features/geolocation/model/useGeolocation.ts:47-50 | rounding a rounded coordinate changes nothing |
| Geolocation.Round4KeepsValid | src/features/geolocation/model/useGeolocation.ts:47-55 | rounding an in-range position keeps it in range |
| Geolocation.PositionErrorMessage | src/features/geolocation/model/useGeolocation.ts:62-75 | codes 1, 2 and 3 give the denied, unavailable and timeout messages; any other code gives the default |
| Geolocation.ErrorMessagesDistinct | src/features/geolocation/model/useGeolocation.ts:62-75 | the messages differ from each other and from the default |
| Geolocation.Detected | src/features/geolocation/model/useGeolocation.ts:26-36 | support is recorded, with an error exactly when geolocation is unavailable |
| Geolocation.Requested | src/features/geolocation/model/useGeolocation.ts:38-43 | a no-op while loading or unsupported; otherwise loading starts, the error clears and coordinates are kept |
| Geolocation.Succeeded | src/features/geolocation/model/useGeolocation.ts:46-59 | the rounded position is stored, loading ends, the error clears and support is set |
| Geolocation.Failed | src/features/geolocation/model/useGeolocation.ts:61-81 | loading ends with the code's message; coordinates are kept |
| Geolocation.AutoRequested | src/features/geolocation/model/useGeolocation.ts:92-104 | fires iff enabled, supported, without coordinates, not loading and not fired before; firing sets the flag and starts a request |
| Geolocation.FlagStaysSet | src/features/geolocation/model/useGeolocation.ts:98-100 | once set the flag stays set and the auto request never fires again |
| Geolocation.AutoRequestAtMostOnce | src/features/geolocation/model/useGeolocation.ts:92-104 | in any run of events the automatic request fires at most once |
| Geolocation.NoAutoRequestWhenDisabled | src/features/geolocation/model/useGeolocation.ts:94 | with autoRequest off it never fires |
| Geolocation.NoOverlappingRequests | src/features/geolocation/model/useGeolocation.ts:39-43 | a second request while the first is pending is ignored |
| Geolocation.GeolocationHook.RequestLocation | src/features/geolocation/model/useGeolocation.ts:38-89 | the new state is Requested of the old; one position request is made iff it started |
| Geolocation.GeolocationHook.OnPositionSuccess | src/features/geolocation/model/useGeolocation.ts:46-60 | the new state is Succeeded of the old |
| Geolocation.GeolocationHook.OnPositionError | src/features/geolocation/model/useGeolocation.ts:61-82 | the new state is Failed of the old |
| Geolocation.GeolocationHook.AutoRequestEffect | src/features/geolocation/model/useGeolocation.ts:92-104 | the new state is AutoRequested of the old; one position request iff it fired |
| Geolocation.GeolocationHook.DetectSupport | src/features/geolocation/model/useGeolocation.ts:26-36 | the new state is Detected of the old |
| Geolocation.GeolocationHook.constructor | src/features/geolocation/model/useGeolocation.ts:17-24 | no coordinates, not loading, no error, not supported yet, no auto request and no position request made |
| KoreaDistricts.ParseLocationName | src/shared/lib/korea-districts.ts:14-33 | fullName kept; city is the first "-" segment, or the whole name when that is empty; district and dong are the second and third segments when non-empty; display name is "district dong", "city district" or city |
| KoreaDistricts.ParseJoined | src/shared/lib/korea-districts.ts:14-24 | for any name joined from dash-free segments (any count, empty ones included) the levels are those segments; segments past the third are ignored |
| KoreaDistricts.ParseDong | src/shared/lib/korea-districts.ts:14-33 | "c-d-g" parses to city c, district d, dong g, shown "d g" |
| KoreaDistricts.ParseDistrict | src/shared/lib/korea-districts.ts:14-33 | "c-d" parses to city c, district d, no dong, shown "c d" |
| KoreaDistricts.ParseCity | src/shared/lib/korea-districts.ts:14-33 | a name without "-" is a city shown as itself |
| KoreaDistricts.ParseEmptyDistrict | src/shared/lib/korea-districts.ts:17-24 | "c--g" has no district, keeps dong g and is shown as the city |
| KoreaDistricts.LocationForWeatherSearch | src/shared/lib/korea-districts.ts:77-84 | "district, city, KR" with a district, else "city, KR" |
| KoreaDistricts.DongSearchesItsDistrict | src/shared/lib/korea-districts.ts:77-84 | a dong is looked up with its district's query string |
| KoreaDistricts.AllLocations | src/shared/lib/korea-districts.ts:86-88 | every data entry, parsed, in order |
| KoreaDistricts.NormalizedQuery | src/shared/lib/korea-districts.ts:40 | no longer than the query, and empty iff the query is all white space |
| KoreaDistricts.Matching | src/shared/lib/korea-districts.ts:42-48 | exactly the entries with a "-" segment containing the query |
| KoreaDistricts.FilterOfConcat | src/shared/lib/korea-districts.ts:42-48 | filtering a concatenation filters each part in turn, so order is kept |
| KoreaDistricts.MatchingOfConcat | src/shared/lib/korea-districts.ts:42-48 | the search filter keeps data order |
| KoreaDistricts.Level | src/shared/lib/korea-districts.ts:68-69 | 3 iff a truthy dong, else 2 iff a truthy district, else 1 |
| KoreaDistricts.Rank | src/shared/lib/korea-districts.ts:53-71 | the comparator's two keys: a prefix match ranks below 3, then city < district < dong |
| KoreaDistricts.ThenByNameIsTotalPreorder | src/shared/lib/korea-districts.ts:53-74 | ordering by rank, then by a total preorder on full names, is a total preorder |
| KoreaDistricts.SortByIsPermutation | src/shared/lib/korea-districts.ts:53 | the sort loses and adds nothing |
| KoreaDistricts.SortByIsSorted | src/shared/lib/korea-districts.ts:53 | under a total preorder the sorted output is ordered |
| KoreaDistricts.SortKeepsPeerOrder | src/shared/lib/korea-districts.ts:53 | entries the comparator ranks equal keep their input order, as with the stable `Array.prototype.sort` |
| KoreaDistricts.SearchLocations | src/shared/lib/korea-districts.ts:35-75 | [] for a blank query; at most limit results; a permutation of the first limit matches; sorted by rank, then by the collation of full names; every result matches |
| KoreaDistricts.FirstMatches | src/shared/lib/korea-districts.ts:42-50 | the matches cut as `slice(0, limit)` cuts (a negative limit counts from the end), each parsed, in data order |
| KoreaDistricts.SearchOrdersByRankThenName | src/shared/lib/korea-districts.ts:53-74 | ranks never decrease along the results, and within one rank the full names follow the collation |
| KoreaDistricts.SearchIsStable | src/shared/lib/korea-districts.ts:49-74 | results that compare equal keep the order of the data |
| KoreaDistricts.SearchFindsAllMatches | src/shared/lib/korea-districts.ts:42-50 | with at most limit matches every matching entry is returned |
| LocationSearch.LocationSearchHook.constructor | src/features/location-search/model/useLocationSearch.ts:20-22 | query "", closed, nothing selected, nothing notified |
| LocationSearch.LocationSearchHook.Results | src/features/location-search/model/useLocationSearch.ts:24 | [] for a blank query, else at most 20 matches of the query, a permutation of the first 20, sorted by rank and then by the collation |
| LocationSearch.LocationSearchHook.SelectLocation | src/features/location-search/model/useLocationSearch.ts:26-31 | the location is selected, its display name fills the box, the list closes, onSelect gets it once |
| LocationSearch.LocationSearchHook.SetQuery | src/features/location-search/model/useLocationSearch.ts:20 | the query becomes the text; the open flag, the selection and the notifications are unchanged |
| LocationSearch.LocationSearchHook.SetIsOpen | src/features/location-search/model/useLocationSearch.ts:21 | the open flag becomes the value; the query, the selection and the notifications are unchanged |
| LocationSearch.LocationSearchHook.ClearSelection | src/features/location-search/model/useLocationSearch.ts:33-37 | nothing selected, empty query, closed, no results |
| JsText.Trim | src/features/favorites/ui/EditFavoriteDialog.tsx:35 | the result is trimmed, no longer than the input, and empty iff the input is all white space |
| JsText.TrimIdempotent | src/features/favorites/ui/EditFavoriteDialog.tsx:35 | trimming twice is trimming once |
| JsText.Split | src/shared/lib/korea-districts.ts:15 | at least one part and no part holds the separator |
| JsText.SplitThenJoin | src/shared/lib/korea-districts.ts:15 | joining a split with its separator gives the text back |
| JsText.JoinThenSplit | src/shared/lib/korea-districts.ts:15 | splitting a join of separator-free parts gives the parts back |
| JsText.JoinWithPlacesParts | src/shared/api/weather.ts:76-78 | in `parts.join(sep)` each part sits at its start offset, the separator follows every part but the last, and the last part ends the text |
| JsText.DecimalValue | src/shared/api/weather.ts:63 | the decimal text of a status reads back as the status |
| JsMath.Round | src/shared/api/weather.ts:162-165 | the nearest integer, halves rounded up |
| JsMath.RoundOfInteger | src/shared/api/weather.ts:162-165 | whole numbers are unchanged |

## Left out

- Network, storage and browser APIs (`fetch`, `response.json()`, `localStorage`,
  `window.dispatchEvent`, `navigator.geolocation`) are inputs or fields. A
  failing `localStorage.setItem` (quota) is not modelled: the write always
  succeeds.
- Stored text that parses to something other than an array of favorites is
  not modelled. The slot is missing, unparsable, or a list.
- Floating point: temperatures and coordinates are reals. `Math.round` is
  floor(x + 0.5), exact where IEEE doubles are not.
- `toLocaleTimeString("ko-KR")` is the `timeLabel` parameter. `new Date()` in
  the formatter is the `formattedAt` parameter. `Date.now()` in
  `fetchWeatherAPI` is `now`, taken equal for both requests of one
  `getWeatherData`.
- When both responses of `getWeatherData` fail, which rejection wins depends on
  network timing. It is the `currentSettlesFirst` parameter.
- A non-Zod exception rethrown by a response schema's `parse` is not modelled.
- `fullName.localeCompare(…, 'ko')` is the parameter `before` (read as
  `localeCompare(a, b) <= 0`), assumed only to be a total preorder. Korean
  collation itself is not modelled.
- JsText.ToLower: maps ASCII letters only. Hangul has no case.
- `isFavorite` (imported by `useFavorites.ts`) is not defined in `storage.ts`.
  So `isFavoriteLocation` is not modelled.
- `requestLocation` reads the state of the render it was created in. The model
  reads the current state, which is the same for the sequential event orders it
  considers.
- Non-integer weather codes do not occur in the model (codes are `int`).
- The alias input's `maxLength={20}` is enforced by the browser, not by the
  code, and is not modelled.
- Presentation components, react-query wrappers and type-only files hold no
  logic to verify.

## Findings

| source | as written | input that shows it | evidently intended | confidence | as-written member | corrected member |
|---|---|---|---|---|---|---|
| src/shared/lib/reverse-geocoding.ts:34-39 | `address.city + " " + address.borough + " " + address.suburb` concatenates absent fields, which JavaScript renders as the text "undefined" | an address with suburb "청운동" and no city or borough gives "undefined undefined 청운동" | join only the fields that are present | not executed; high that the text appears, medium that Nominatim sends such addresses for Korea | PlaceNames.NominatimPlaceNameAsWritten, PlaceNames.NominatimUndefinedCity | PlaceNames.NominatimPlaceName, PlaceNames.NominatimNameIsPresentFields |
