# Weather app: navigation and recently-viewed list

A Dafny model of the control core of a small browser weather app. The app shows
current weather for a fixed set of tracked cities. It also shows a 7-day forecast
for one city, lets the user search for a city by name or click a point on a map,
and remembers recently viewed places in session storage.

Modules, one per source file:

- `Types`: the city record and the parsed response shapes. Also `Network`, which
  holds the answers the forecast and geocoding services give during one event.
- `Utilities` (`src/utilities.ts`): `extractCityData`, `createCityFromLatLng` and
  the viewBox choice of `getSvgIcon`.
- `Recent` (the list part of `src/main.ts`): coordinate equality, `addRecentlyViewedCity`
  as a pure function, and the `recentlyViewed` session-storage entry (`Stored`).
- `View` (`src/dom-manipulation.ts`): each screen as a sequence of row descriptors
  instead of DOM nodes. This covers the loading placeholder, city cards, the
  recently-viewed section, the today panel and the forecast grid. The placeholder,
  the recently-viewed section and the grid are built by loops, as in the source.
- `App` (`src/main.ts`): class `App` holds the active `Screen`, the stored list and
  a ghost log of every `setItem` write. It has one method per event: startup or
  back (`DisplaySkeleton`), search, map button, map click, card click. Each method
  is proved against a pure function of the old state (`LoadedHome`, `DetailScreen`,
  `ScreenAfterOpen`, `StoreAfterAdd`). The lemmas beside them state the ordering and
  failure rules.

The model follows the code where a reader might expect something else:

- A failed fetch for any tracked city aborts the whole home render and leaves the
  loading placeholder. A failed fetch for any stored recent city hides the whole
  recently-viewed section. This applies to every stored city, including those
  beyond the five shown.
- An unreadable stored list is not treated as empty. `JSON.parse` throws, so the
  recent section is not rendered, and a search or map click stops before fetching.
- Clicking a city card opens its detail screen but does not add the city to the
  recently-viewed list. Only search and map click add.
- A failed forecast fetch leaves the detail screen on "loading..." for good. The
  back button is built only inside the today panel, so that screen has no back
  button, search or map control (`ForecastFailureStrandsDetail`).
- Search and map click add the city before its current weather is fetched. If that
  fetch fails, the list has grown but the screen stays (`AddPrecedesWeatherFetch`).
- An already present city is not moved: recency means "first seen".

Each event method requires the screen that renders its control. Search and the map
button need the home screen. A map click needs the map screen. Back needs the map
screen or a filled detail screen (`View.HasBackButton`). A card click needs a card
row.

## Model

| member | source | states |
|---|---|---|
| `Utilities.GetSvgIcon` | src/utilities.ts:3-17 | viewBox is "0 0 16 16" exactly for weather icons and "0 0 576 512" otherwise; the given path is embedded |
| `Utilities.ExtractCityData` | src/utilities.ts:19-25 | a city exists exactly when `results` is present and non-empty; then its name and coordinates are those of `results[0]` |
| `Utilities.ExtractCityDataIgnoresLaterResults` | src/utilities.ts:19-25 | results after the first never change the extracted city |
| `Utilities.CreateCityFromLatLng` | src/utilities.ts:27-33 | latitude and longitude are kept unchanged; the name is the formatted lat then lng, each with a "°" suffix |
| `Utilities.CreateCityFromLatLngInjective` | src/utilities.ts:27-33 | two clicks give the same city exactly when they are at the same point |
| `Recent.Contains` | src/main.ts:128-132 | true exactly when some stored city has both coordinates equal to the new city's, whatever the names |
| `Recent.Added` | src/main.ts:128-136 | the city is present afterwards; the old list is kept as a suffix; the list grows exactly when no entry had the city's coordinates, and then by the city itself at index 0 |
| `Recent.AddAbsentPrepends` | src/main.ts:134-136 | a city matching no entry is inserted at index 0, the old list follows it, and the length grows by one |
| `Recent.AddPresentUnchanged` | src/main.ts:128-137 | a city matching an entry leaves the list unchanged, so nothing is reordered |
| `Recent.AddKeepsOldEntries` | src/main.ts:134-136 | after an add the city is present, and every old entry is still there in its old order |
| `Recent.AddIdempotent` | src/main.ts:123-138 | adding the same city twice is the same as adding it once |
| `Recent.AddSameCoordinatesKeepsFirst` | src/main.ts:128-132 | a second city with the same coordinates and any name counts as present; the first one stays where it was inserted |
| `Recent.AddPreservesNoDuplicates` | src/main.ts:123-138 | if no two entries share coordinates before the add, none do after it |
| `Recent.Read` | src/main.ts:124-126 | reading fails exactly when the stored text is unreadable; a missing entry reads as the empty list, and a stored list reads as itself |
| `Recent.StoreAfterAdd` | src/main.ts:123-138 | an unreadable store stays unreadable; any other store ends up holding the read list after `Added` |
| `Recent.WritesOfAdd` | src/main.ts:123-138 | at most one `setItem`; it happens exactly when the list was readable and lacked the city, and writes the city followed by the old list |
| `Recent.StoreAfterAddMatchesWrites` | src/main.ts:134-137 | the store changes exactly when one `setItem` happens, and then holds the written list; a readable store always ends up containing the city |
| `Recent.UnreadableStoreUntouched` | src/main.ts:124-126 | when parsing throws, the store is unchanged and nothing is written |
| `Recent.StoreAfterAddPreservesNoDuplicates` | src/main.ts:123-138 | the no-duplicate-coordinates invariant of the stored list survives every add |
| `View.PlaceholderItems` | src/dom-manipulation.ts:68-82 | the placeholder is the loading heading followed by exactly 4 bars |
| `View.CreateCityPlaceholder` | src/dom-manipulation.ts:75-80 | the loop appends exactly the 4 bars after the heading |
| `View.CreateLocationCard` | src/dom-manipulation.ts:84-119 | a card is built exactly when the response has `current`; it keeps the city and the whole response for its click |
| `View.LimitedRecentlyViewed` | src/dom-manipulation.ts:272 | at most 5 entries, a prefix of the stored list in stored order, and exactly 5 when at least 5 are stored |
| `View.WellFormedPrefix` | src/dom-manipulation.ts:273-276 | the number of leading responses that have `current`; the next response, if any, lacks it |
| `View.RecentlyViewedRows` | src/dom-manipulation.ts:266-276 | empty exactly for an empty list; otherwise the heading, then at most five cards, card i pairing stored city i with response i, each with `current`; it stops short only at a response without `current` |
| `View.DisplayRecentlyViewedCities` | src/dom-manipulation.ts:261-278 | the loop appends exactly the section `RecentlyViewedRows` describes, stopping at the first card that throws |
| `View.RecentHeadingIffNonEmpty` | src/dom-manipulation.ts:266-270 | the section is non-empty exactly when the list is, and then it starts with its heading |
| `View.RecentCardsPairedByIndex` | src/dom-manipulation.ts:272-276 | at most 5 cards; card i shows stored city i with response i; when every response has `current`, all of the first five are shown |
| `View.At` | src/dom-manipulation.ts:239 | `arr?.[i]` with `??`: a value exactly when the array exists, is long enough and holds non-null at i |
| `View.TempLabelAt` | src/dom-manipulation.ts:245-253 | a temperature cell reads "Unknown" exactly when the value at that index is missing; otherwise it shows that value |
| `View.CreateTodayPanel` | src/dom-manipulation.ts:171-211 | built exactly when `daily` exists; the H/L line uses index 0 of the maxima and minima with the "Unknown" fallback |
| `View.GridRowAt` | src/dom-manipulation.ts:222-257 | only row 0 reads "Today"; others show the weekday of their date; a missing code falls back to 0; min and max cells read index i |
| `View.GridRows` | src/dom-manipulation.ts:222-257 | a grid exists exactly when `daily.time` does; it has one row per date, row i being `GridRowAt` of index i |
| `View.CreateGridDiv` | src/dom-manipulation.ts:213-259 | the loop builds exactly one row per `daily.time` entry, or fails when `time` is absent |
| `View.GridShape` | src/dom-manipulation.ts:222-253 | the grid length equals the number of dates; day labels and "Unknown" cells follow the arrays |
| `View.DetailContentOf` | src/dom-manipulation.ts:156-169 | the detail is left empty exactly when `daily` is absent; otherwise it shows the today panel of `daily` with the grid of `daily` |
| `View.HasBackButton` | src/dom-manipulation.ts:185-186 | the back button is on the map screen and on a detail screen exactly when its today panel was built; no other screen has one |
| `App.AllOf` | src/main.ts:64-69 | `Promise.all`: succeeds exactly when every request does, and then gives one value per request in request order |
| `App.LoadCard` | src/main.ts:65-68 | a card exists exactly when the city's fetch succeeds with `current`, and it pairs the city with that response |
| `App.TrackedCards` | src/main.ts:64-69 | the tracked cards exist exactly when every tracked city's card does, one per tracked city in the same order |
| `App.RecentWeathers` | src/main.ts:77-79 | the responses exist exactly when every stored city's fetch succeeds, one per stored city in the same order |
| `App.LoadedHome` | src/main.ts:60-84 | after `displayWeather` the home screen is shown |
| `App.TrackedCardsInOrder` | src/main.ts:64-72 | tracked cards follow the tracked-city order, each paired with its own response |
| `App.TrackedFailureKeepsPlaceholder` | src/main.ts:63-83 | one failing tracked city aborts the whole render, leaving only the placeholder |
| `App.RecentFailureDropsSection` | src/main.ts:77-83 | one failing stored city, at any index, hides the whole recently-viewed section |
| `App.UnreadableStoreDropsSection` | src/main.ts:74-76 | an unreadable stored list shows the tracked cards and no recent section |
| `App.RecentSectionFollowsStore` | src/main.ts:74-80 | when all fetches succeed, the weather list has the stored list's length and order, and the section is built from both |
| `App.MissingStoreReadsEmpty` | src/main.ts:74-76 | a missing stored list renders like the empty list, and adding to it writes the one-city list |
| `App.LoadedHomeCardsWellFormed` | src/main.ts:64-80 | every card on the loaded home screen has a response with `current` |
| `App.NewCityShownFirst` | src/dom-manipulation.ts:272 | a newly added city is the first shown card; the previously shown entries follow it, and the fifth drops out of view |
| `App.DetailScreen` | src/main.ts:86-100 | the detail screen for the city and today's data when the response has `current`; otherwise the app is left with no screen |
| `App.ForecastFailureStrandsDetail` | src/main.ts:94-99 | a failed forecast leaves the detail screen loading, with no back button |
| `App.ForecastFillsDetail` | src/dom-manipulation.ts:156-169 | a complete forecast fills the detail screen: back button, and one grid row per date with row 0 "Today" |
| `App.CardOpensItsCity` | src/dom-manipulation.ts:115-117 | a card click opens the detail screen with that card's own city and weather |
| `App.TrimStart` | src/main.ts:33 | the result is a suffix of the input; only white space was removed, and it starts with a non-space character |
| `App.TrimEnd` | src/main.ts:33 | the result is a prefix of the input; only white space was removed, and it ends with a non-space character |
| `App.Trim` | src/main.ts:33 | the result is the input with only leading and trailing white space removed, and a non-empty result starts and ends with a non-space character |
| `App.TrimEmptyIffBlank` | src/main.ts:33-34 | a name trims to empty exactly when it is all white space |
| `App.SearchedCity` | src/main.ts:33-37 | a blank trimmed name finds nothing; a city is found exactly when the trimmed name is geocoded and has a first result, and it is that result |
| `App.BlankSearchFindsNothing` | src/main.ts:33-34 | a blank or white-space-only search resolves to no city whatever the network answers, so nothing changes |
| `App.ScreenAfterOpen` | src/main.ts:39-42 | an unreadable store or a failed weather fetch leaves the screen as it was; otherwise the screen is the detail screen of the city with that response |
| `App.AddPrecedesWeatherFetch` | src/main.ts:36-42 | when the weather fetch fails after the add, the list has already grown and the screen stays |
| `App.App.AddRecentlyViewedCity` | src/main.ts:123-138 | the store becomes `StoreAfterAdd`, the write log grows by `WritesOfAdd`, and the call throws exactly on an unreadable store |
| `App.App.DisplaySkeleton` | src/main.ts:24-58 | the placeholder home screen, then the loaded home screen `LoadedHome`; the store is untouched |
| `App.App.DisplayWeather` | src/main.ts:60-84 | from the placeholder home screen to `LoadedHome` |
| `App.App.DisplayWeatherDetail` | src/main.ts:86-100 | the screen becomes `DetailScreen(city, today)` |
| `App.App.HandleSearch` | src/main.ts:32-47 | an unresolved search changes nothing; a resolved city is added first, then opened if its weather arrives |
| `App.App.OpenMap` | src/main.ts:102-110 | the map button replaces the home screen with the map screen |
| `App.App.MapClick` | src/main.ts:112-120 | the clicked point's city is added, then opened if its weather arrives |
| `App.App.ClickCard` | src/dom-manipulation.ts:115-117 | opens the detail screen of the card's own city and response; the recent list and storage are untouched |
| `App.App.Back` | src/dom-manipulation.ts:128-133 | the back button always leads to the freshly loaded home screen |

## Left out

- HTTP: `Network` gives each request's parsed body, or a rejection. Within one
  event the same city always gets the same answer. Request URLs, and the lack of
  encoding of the searched name, are not modelled.
- Concurrency: each handler runs as one sequential step. Interleaved handlers, late
  responses after navigation, and the lost update between two concurrent adds are
  not modelled.
- Session storage is an abstract cell (`Stored`). JSON encoding and its round trip
  are not modelled. `Unreadable` covers any stored text that `JSON.parse` rejects or
  that is not an array.
- NaN coordinates are not modelled. They could arise only from a malformed geocode
  result, and `===` would never match them.
- Rendering: CSS classes, SVG markup beyond the viewBox, the Leaflet map setup
  (`initializeMap`) and the page title are not modelled.
- Formatting: `toFixed` and `toLocaleDateString` are uninterpreted. `toFixed(2)` is
  the `toFixed2` parameter of `CreateCityFromLatLng`. A day label is `Weekday(date)`.
  The day label's "Unknown" fallback is unreachable in the source, because
  `toLocaleDateString` always returns a string.
- The weather-code tables (`WEATHER_CODES`, `WEATHER_ICONS`, `WEATHER_IMAGES`) and the
  tracked `cities` map live in `src/constants.ts`, which is not part of this model.
  Cards and panels carry the code. The tracked cities are a constructor parameter.
- A current-weather response is modelled only as having `current` or not. A
  `current` block missing one of its fields is not modelled.
- `console.error` in every catch (src/main.ts:21, 44, 82, 98; src/dom-manipulation.ts:132) is
  not modelled: the console is output only, and each catch is modelled as stopping the handler.
- App.App.constructor: requires that the session entry, when it holds a list, has no two cities
  with the same coordinates, i.e. that it was written by this app. The source reads whatever the
  store holds; a list with duplicates from elsewhere would still render and be added to, but the
  `Valid` invariant would not hold for it.
- App.App.OpenMap: the click handler that `map()` registers is not modelled as
  state. It is the `MapClick` method, which requires the map screen.
