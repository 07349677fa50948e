# Subway KL outlets map: display state

A Dafny model of the page component that shows Subway outlets in Kuala
Lumpur on a map (`MapContainerComponent`). The component keeps five pieces of
state: the outlet list, `searched`, `outletsCount`, `type` and `loading`. Three
event handlers rewrite that state:

- loading the outlet list (`fetchOutlets`);
- clicking a marker, which colours yellow every outlet within 5000 m of the
  clicked one (`handleMarkerClick`);
- submitting a search, which resets every icon, then colours red the
  outlets whose name appears in the results and copies those entries'
  `coordinate` over (`handleSearch`).

Layout:

- `wrappers.dfy`: module `Wrappers`, an `Option` type for JavaScript
  properties that may be absent.
- `display.dfy`: module `Display`. It holds the outlet records and the pure
  list transforms inside the handlers (`.map` is `MapSeq`, `.find` is
  `FindByName`, object spread is datatype update), with the lemmas that
  characterise them element by element.
- `map_container.dfy`: module `MapContainer`. The class `Component` has one
  field per state hook and one method per handler. Each method's `ensures`
  ties the new state to the `Display` functions of the old state, and says
  which fields stay the same. Two client methods walk through concrete
  scenarios: a click followed by a search, and the stale count described
  below.

The network answers are method parameters: `LoadResponse` for the listing
request and `SearchResponse` for the search request. The two things the
page calls but cannot see, geolib's `getDistance` and `parseFloat`, are
function-typed parameters (`Distance`, `Parser`) that the model does not
interpret. The one fact about distance that a proof uses, that a point is
at distance 0 from itself, is stated as a precondition of
`HighlightIncludesClickedSpot`.

The model follows the code in these details, each of which is easy to misread:

- A matched outlet's `coordinate` is always overwritten with the entry's
  `coordinate`, even when the entry has none. Inside the `if (foundOutlet)`
  branch the `isMatched` tests are always true.
- `outletsCount` is the number of search entries, not the number of
  matched outlets. The two differ when entries repeat a name or name an
  unknown outlet.
- Suppose a search response has no `data` array and the page has no
  outlets. Then `setSearched(true)` runs before `searchData.length` throws,
  so `searched` stays true. If the previous search had type
  `outlets_in_location`, the old count is still shown
  (`MapContainer.StaleCountScenario`).
- The count message is inside the branch that is drawn only when the page
  is not loading, so `ShowsCount` includes `!loading`.
- Distances use the parsed `latitude`/`longitude`, never `coordinate`
  (`Display.Position`).

## Model

| member | source | states |
|---|---|---|
| `Display.FormatAt` | src/components/MapContainer.js:56-61 | loading keeps one outlet per raw record, in order; each copies name, address, hours, waze link and coordinate, has its latitude and longitude parsed, and gets the default icon |
| `MapContainer.Component.FetchOutlets` | src/components/MapContainer.js:51-68 | a successful load sets the list to the formatted response; a failed one leaves it unchanged; `loading` is false after both; the search summary is untouched |
| `Display.HighlightAt` | src/components/MapContainer.js:70-80 | a click keeps every outlet's position in the list and every property but the icon; an outlet is yellow iff its distance to the clicked outlet is at most 5000 m, and default otherwise |
| `Display.HighlightIncludesClickedSpot` | src/components/MapContainer.js:72-75 | if a point is at distance 0 from itself, every outlet at the clicked outlet's latitude and longitude turns yellow, the clicked outlet included |
| `Display.HighlightIgnoresPriorIcons` | src/components/MapContainer.js:71-77 | the result of a click does not depend on the icons before it: lists that differ only in icons give the same result, so a click overrides any earlier yellow or red |
| `MapContainer.Component.HandleMarkerClick` | src/components/MapContainer.js:70-80 | the list becomes the highlighted list; `searched`, `outletsCount`, `type` and `loading` are unchanged |
| `Display.ResetAt` | src/components/MapContainer.js:95-98 | the reset list has the same outlets in the same order, each with the default icon and nothing else changed |
| `Display.FindByName` | src/components/MapContainer.js:105 | the lookup returns an entry of the results that has the outlet's name, and returns nothing iff no entry has that name |
| `Display.FindByNameFirst` | src/components/MapContainer.js:105 | when entry i is the first with the name, the lookup returns exactly entry i, whatever entries follow it |
| `Display.SearchMatchedAt` | src/components/MapContainer.js:104-112 | after a successful search an outlet whose first namesake is entry i equals the old outlet with the red icon and entry i's coordinate, even when that coordinate is absent |
| `Display.SearchUnmatchedAt` | src/components/MapContainer.js:95-116 | after a successful search an outlet whose name no entry has equals the old outlet with the default icon, so its coordinate is kept and any earlier yellow or red is gone |
| `Display.SearchIconAt` | src/components/MapContainer.js:95-116 | a successful search keeps list length and order and every property but icon and coordinate; an outlet is red iff some entry has its name, and default otherwise |
| `Display.SearchIgnoresPriorIcons` | src/components/MapContainer.js:95-116 | lists that differ only in icons give the same search result: a search overrides every earlier highlight |
| `Display.FailedSearchIsReset` | src/components/MapContainer.js:122-133 | the catch path's list is exactly the reset list: every icon is default and every coordinate is as before |
| `MapContainer.Component.HandleSearch` | src/components/MapContainer.js:90-135 | success: the list is the reconciled reset list; `searched` is true; `outletsCount` is the number of entries; `type` is the response type; the count shows iff the type is `outlets_in_location`. Transport failure: the list is the reset list; `searched` is false; count and type are unchanged; no message shows. Missing data: as failure, except that `searched` is true iff there were no outlets. `loading` is unchanged |
| `MapContainer.Component.constructor` | src/components/MapContainer.js:40-45 | the initial state is an empty list, `searched` false, count 0, `type` not a string and `loading` false, so no count message shows |

## Left out

- HTTP requests (axios), construction of the request URL and query string,
  and `console.error` logging are I/O. Their outcomes are the
  `LoadResponse` and `SearchResponse` parameters.
- geolib's `getDistance` is foreign floating-point geodesy. It is the
  uninterpreted `Distance` parameter with whole metres as its result, so a
  NaN distance (from NaN coordinates) is not represented.
- `parseFloat` is the uninterpreted `Parser` parameter. A raw latitude that
  arrives as a JSON number is taken by its string form, which is what
  `parseFloat` itself converts it to.
- Rendering is left out: JSX, the Leaflet map and markers, popups, the
  spinner, and the `L.Icon` objects, which become the three-value `Icon`.
  The `searchTerm` hook and its `onChange` setter are left out too, since
  the term only feeds the request URL.
- Each handler runs as one step from its first setter to its last. The
  moment in `fetchOutlets` when `loading` is true, and any click or search
  that lands while a request is pending, are not represented. Overlapping
  searches race on shared state, and the source does not coordinate them.
- Outlet records are limited to the properties the page reads: name,
  address, operating hours, waze link, latitude, longitude and coordinate.
  Other JSON properties pass through the spreads unchanged and are not
  represented.
- A search entry's `coordinate` is an opaque value, compared only for
  equality.
- Response shapes other than the three modelled ones are not modelled,
  for example a `data` that is an object but not an array. Absent
  (`undefined`) names are not modelled either; they would compare equal to
  each other.
- src/App.js only passes a hard-coded base URL to the component and has no
  logic.
