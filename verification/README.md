# WanderList Bengaluru — a Dafny model of the widget's state transitions

WanderList Bengaluru is a single React component (`src/App.js`) that keeps a
list of saved places, shows one Leaflet marker per place on a map centred on
Bengaluru, lets the user add a place through a form, and bulk-imports places
from pasted JSON. This project models the component's logic as a Dafny class
and proves what its handlers and effects do:

- `JsValues` (`js_values.dfy`): JavaScript numbers with NaN and the
  infinities and JavaScript's comparison rules for them; the values
  `JSON.parse` produces and property lookup on them; `String.prototype.trim`.
- `Places` (`places.dfy`): the `Place` record; the per-element test and copy of
  the bulk import, the filter over a whole array, the import loop
  (`CollectValidPlaces`) and the outcome of an import; the three checks of the
  add form and the message the form then shows.
- `MapSurface` (`map_surface.dfy`): the map reduced to what the widget
  changes: the list of markers (position and popup), the view (centre and
  zoom) and the number of attached tile layers.
- `WanderList` (`wander_list.dfy`): the component itself, class `Widget`,
  with the places, the four form fields, the error line, the import text, the
  import-form flag and the map reference as fields, and one method per
  handler or effect. `Widget.Valid()` (every place has in-range coordinates) is
  kept by every handler; `Widget.Synced()` (the markers are exactly one per
  place, in list order) is established by the marker effect and by the
  refresh.

`JSON.parse` and `parseFloat` are parameters of the handlers that call them:
`Import` takes a `string -> Option<Json>` (None when parsing throws) and
`AddDestination` takes a `string -> Num`.

Behaviour of the code worth knowing, which the model follows:

- The import test does not look at the name's contents: giving a passing
  element any other name, `""` or all blanks included, still passes and is
  copied as is (`Places.ImportIgnoresNameContents`), while the add form
  refuses a blank name. The add form stores the name as typed, not
  trimmed.
- A `null` element of the imported array makes the loop throw a TypeError
  when it reads `place.name`; the import then fails as a whole with the
  generic "Error importing data." message and nothing else changes
  (`ImportError.TypeError`). Elements of any other kind that fail the test are
  dropped silently.
- The add form shows only one error: the checks run in the order name,
  latitude, longitude and each failing check overwrites the message, so the
  message of the last failing check is the one left (`Places.FormError`).
- The refresh button attaches a new tile layer on every click without
  removing the previous ones, so the count of tile layers grows by one per
  refresh (`Widget.RefreshMap`).
- Each marker is passed to `addTo` twice; adding a layer that is already on
  the map does nothing in Leaflet, so one marker per place is modelled.

## Model

| member | source | states |
|---|---|---|
| JsValues.CoordinateOk | src/App.js:144-149 | `!isNaN(n) && n >= lo && n <= hi` holds exactly of finite numbers within [lo, hi]; NaN and both infinities fail |
| JsValues.CoordinateBad | src/App.js:84-91 | the form's rejection test (NaN, below lo or above hi) is exactly the negation of the import's range test, and passing it implies a finite number |
| JsValues.TrimStartSpec | src/App.js:80 | trimming the front leaves a suffix of the name that does not start with white space, and every dropped character is white space |
| JsValues.TrimEndSpec | src/App.js:80 | trimming the end leaves a prefix that does not end with white space, and every dropped character is white space |
| JsValues.BlankIffAllSpace | src/App.js:80 | `!name.trim()` holds if and only if every character of the name is JavaScript white space |
| Places.IsPlaceRecord | src/App.js:139-150 | an element passes if and only if it is an object whose `name` and `description` are strings and whose `latitude` and `longitude` are finite numbers in [-90, 90] and [-180, 180] |
| Places.ToPlace | src/App.js:151-156 | an accepted element is copied to a place holding exactly its `name`, `latitude`, `longitude` and `description`, with coordinates in range |
| Places.ValidPlaces | src/App.js:137-160 | the filtered list is no longer than the input and every place in it has latitude in [-90, 90] and longitude in [-180, 180] |
| Places.ValidPlacesAppend | src/App.js:137-160 | filtering distributes over concatenation: each element is decided on its own and relative order is kept |
| Places.ValidPlacesMembership | src/App.js:138-159 | a place is imported if and only if some element passes the test and is copied to it |
| Places.ValidPlacesKeepsAll | src/App.js:138-160 | nothing is dropped if and only if every element passes, and then the i-th place is the copy of the i-th element |
| Places.ValidPlacesDropsAll | src/App.js:157-161 | the imported list is empty if and only if no element passes the test (the import still succeeds) |
| Places.CollectValidPlaces | src/App.js:137-160 | the import loop fails exactly when the array holds `null`; otherwise it returns the filtered list |
| Places.ImportResult | src/App.js:133-176 | an import succeeds if and only if the payload parses to an array without `null` elements, and then yields the filtered list; a parse failure and a non-array give their own errors |
| Places.ImportIgnoresNameContents | src/App.js:139-156 | for every passing element and every string, the element with its name replaced by that string (empty or blank included) still passes and is copied with that name unchanged |
| Places.ImportKeepsTheValidOne | src/App.js:137-164 | importing one passing and one failing element succeeds with exactly the passing one |
| Places.FormError | src/App.js:78-91 | the form error is empty exactly when all three checks pass, is the longitude message exactly when longitude fails, the latitude message exactly when latitude fails and longitude passes, the name message exactly when only the name fails |
| Places.CheckForm | src/App.js:71-91 | after the error is cleared and the three checks overwrite it in turn, the flag is raised exactly when some check fails and the error equals `FormError` (the last failing check's message, or empty) |
| Places.FormPlace | src/App.js:97-102 | an accepted form gives a place with the untrimmed name, the parsed coordinates (in range) and the description, whose name is not blank |
| MapSurface.MarkersOf | src/App.js:60-65 | one marker per place, in list order, at that place's coordinates, with popup `<b>name</b><br>description` |
| MapSurface.MarkersInBounds | src/App.js:60-65 | markers of in-range places have in-range positions |
| MapSurface.MapView.constructor | src/App.js:35-38 | a new map shows (12.9716, 77.5946) at zoom 11 with one tile layer and no markers |
| MapSurface.MapView.RemoveMarkers | src/App.js:53-57 | every marker is removed; tile layers and view are kept |
| MapSurface.MapView.AddMarker | src/App.js:61-64 | the marker is added after the existing ones; nothing else changes |
| MapSurface.MapView.SetView | src/App.js:119 | the view becomes the given centre and zoom; markers and tile layers are kept |
| MapSurface.MapView.AddTileLayer | src/App.js:120-122 | the tile-layer count grows by one; markers and view are kept |
| WanderList.Widget.constructor | src/App.js:10-18 | no places, every text field empty, import form hidden, no map |
| WanderList.Widget.MountMap | src/App.js:32-39 | creates the map at the fallback view with one tile layer only when none exists; component state unchanged |
| WanderList.Widget.UnmountMap | src/App.js:41-46 | the map reference is cleared; component state unchanged |
| WanderList.Widget.RenderMarkers | src/App.js:49-67 | afterwards the markers are exactly `MarkersOf(places)`, whatever they were before (so a second run changes nothing); tile layers and view kept |
| WanderList.Widget.MarkersOnMapInRange | src/App.js:49-67 | when every place is in range and the markers are in step with the places, every marker on the map lies in range |
| WanderList.Widget.AddMarkersFor | src/App.js:124-129 | the loop appends `MarkersOf(places)` to the map's markers and changes nothing else |
| WanderList.Widget.RefreshMap | src/App.js:111-131 | afterwards the view is (12.9716, 77.5946) at zoom 11, the markers are exactly `MarkersOf(places)` and there is one more tile layer; component state untouched |
| WanderList.Widget.AddDestination | src/App.js:69-109 | accepted: one place appended at the end, earlier places untouched, error and the four fields cleared; rejected: only the error changes, to the last failing check's message; coordinates stay in range |
| WanderList.Widget.Import | src/App.js:133-176 | success: places replaced by the filtered list, error and import text cleared, form hidden; failure: only the error changes, to the message of the failure; coordinates stay in range |
| WanderList.Widget.ToggleImportForm | src/App.js:178-182 | the import form's visibility is negated, error and import text are cleared, places and form fields untouched |
| WanderList.Widget.SetDestinationName | src/App.js:234 | only the name field changes, to the typed text |
| WanderList.Widget.SetLatitude | src/App.js:243 | only the latitude field changes, to the typed text |
| WanderList.Widget.SetLongitude | src/App.js:252 | only the longitude field changes, to the typed text |
| WanderList.Widget.SetDescription | src/App.js:262 | only the description field changes, to the typed text |
| WanderList.Widget.SetImportData | src/App.js:210 | only the import text changes, to the typed text |

`WanderList.AddOnePlace` is a client of these contracts: adding "MG Road"
(12.9758, 77.6045) to a new widget and running the marker effect gives one
place and one marker at that position, and a second submission with a missing
latitude leaves the latitude message and the single place.

## Left out

- JSX markup, react-bootstrap and lucide components (src/App.js:184-273): presentation only; the `onChange` handlers are kept as the setter methods.
- The default-icon patch on `L.Marker.prototype` and the icon URLs (src/App.js:20-30): a change to a library global with no effect on what is modelled.
- Leaflet itself (`L.map`, `L.tileLayer`, `L.marker`, `bindPopup`, `eachLayer`, `removeLayer`, `remove`): the map is reduced to markers, view and a tile-layer count; tile URLs and attribution text are not modelled.
- `JSON.parse` and `parseFloat`: their algorithms are not modelled; the two functions themselves are parameters of `Import` (`jsonParse`) and `AddDestination` (`parseFloat`).
- JavaScript strings are UTF-16 code units, while the model's strings are Unicode scalar values: a name or description holding a lone surrogate (JSON `"\ud800"`) cannot be represented. `trim` is unaffected, since every JavaScript white-space code point lies in the Basic Multilingual Plane.
- IEEE doubles: finite numbers are unbounded reals, so rounding of parsed values is not modelled; NaN and the infinities are modelled.
- React scheduling: state updates take effect at once, and the marker effect is a separate method (`RenderMarkers`) that a caller runs after a change of `places`, as React would; batching, `useCallback` dependencies and double mounting in development mode are not modelled.
- `console.warn` for a dropped element (src/App.js:158): logging only.
- Routing, tile-theme switching, geolocation and external search do not occur in src/App.js and are not part of this model.
