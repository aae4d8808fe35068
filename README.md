# Overpass layer for Leaflet — a Dafny model

This project models the core of `OverPassLayer`, a Leaflet feature group. When the map settles, the layer
fetches OpenStreetMap features for the current view from an Overpass API end point and adds one marker per
feature.

It models four pieces of logic:

- **The request controller.** It keeps an in-progress flag and a single "latest wins" pending slot. It
  also keeps the list of bounds already loaded and the set of feature ids already seen. It is driven by
  map moves (`_prepareRequest`) and by the completion callbacks of the requests it sends (`_onRequestLoad`,
  `_onRequestTimeout`, `_onRequestCompleteCallback`). It is the class `Layer.OverPassLayer`, whose
  methods update these fields in place.
- **The default `onSuccess` handler.** A loop over the elements of a response records every new id and
  turns each new element into a marker. Nodes are placed at their `lat`/`lon`, other elements at their
  `center`. The loop is `OverPassLayer.OnSuccess`. It is specified by the function `Features.Ingest`,
  which is in turn compared with an independent reference, `Features.Fresh`: the first occurrence of every
  unseen id, in response order.
- **The query and URL builder.** It strips `//` comments up to the end of their line. It replaces every
  `{{bbox}}` with `south,west,north,east`. It prefixes `endPoint + "interpreter?data=[out:json];"`. These
  are pure functions on strings in module `Query`.
- **The UK envelope address of the popup.** A `for…in` loop reads the `addr:*` tags into locals. The
  place is then folded into the substreet. Finally the rows are written in envelope order, with
  `[TOWN/CITY]` and `[Postcode]` as defaults. This is module `Envelope`: methods with the loop and the
  row writing, proved equal to the function `Envelope.Envelope`, whose properties are proved as lemmas.

Modelling choices:

- The environment is explicit. The clipping library's coverage test, `_buildLargerBounds`, JavaScript's
  number-to-string conversion and `toUpperCase` are the function-typed fields of `Layer.Host`. Only the
  empty-list shortcut of `_isFullyLoadedBounds` is concrete.
- What `beforeRequest` returns is the `veto` parameter of every method that may send.
- The `XMLHttpRequest` is replaced by its two callbacks, `OnLoad` and `OnTimeout`. They may be called for
  any request sent and not yet completed. These requests are the ghost multiset `inFlight`. A body that
  `JSON.parse` rejects is `response == None`.
- The ghost sequence `trace` records the hooks called and the requests sent.
- The predicate `SingleFlight` states that at most one request is out, and only while the flag is set.
  `PrepareRequest`, `OnLoad`, `OnTimeout` and `OnAdd` preserve it. `ResetData`, `SetQuery` and `OnRemove`
  establish it only when nothing is out. `OnRequestComplete` and `OnLoadSuccess` establish it when nothing
  else is out. `SendRequest` alone does not keep it, because a request already out stays out.
- The predicate `MarkersUnique` states that no feature id has two markers. `OnLoad` preserves it.
  `ResetData`, `SetQuery`, `OnRemove` and `OnAdd` re-establish it.

Where the code departs from what it evidently intends, the model follows the code:

- Suppose `beforeRequest` vetoes the pending request that `_onRequestCompleteCallback` starts. Then
  `_requestInProgress` stays `true` with nothing in flight. From then on every move only fills the pending
  slot, and no request is sent until a reset. `Scenarios.StuckAfterVetoedFollowUp` shows this.
- `_resetData` (and so `setQuery`) clears the flag without aborting the request in flight. The next
  prepare can therefore put a second request out beside the first (`Scenarios.TwoInFlightAfterSetQuery`).
- With `retryOnTimeout`, `_onRequestTimeout` passes the URL string to `_sendRequest`. That call throws a
  `TypeError` before any hook runs, whether or not bounds are loaded. So the model records only the
  `onTimeout` hook: the flag and the pending slot stay as they were, and no completion follows.
- When `onSuccess` throws, the load and complete callbacks never run. It throws on an element without a
  position, and `JSON.parse` throws on a bad body. The bounds are then not recorded and the flag stays as
  it was.
- `addrsubstreet` is never declared, and in module code assigning it throws a `ReferenceError`. The model
  treats it as a local that starts absent, like the other address parts, which is evidently what was
  meant.

## Model

| member | source | states |
|---|---|---|
| Query.UrlRoundTrip | leaflet-overpass-layer/src/OverPassLayer.js:372-374 | the URL is exactly the end point, `interpreter?data=[out:json];` and the query; reading the query back off a URL built for that end point gives it back, and only that URL carries that query |
| Query.StripCommentsLeavesNoComment | leaflet-overpass-layer/src/OverPassLayer.js:366 | no `//` is left in a template once comments are stripped |
| Query.StripCommentsIdentity | leaflet-overpass-layer/src/OverPassLayer.js:366 | a template without `//` is left unchanged by comment stripping |
| Query.ReplaceBboxIdentity | leaflet-overpass-layer/src/OverPassLayer.js:367 | a template without `{{bbox}}` is left unchanged by the substitution |
| Query.ReplaceBboxSplit | leaflet-overpass-layer/src/OverPassLayer.js:367 | every `{{bbox}}` becomes the coordinates, whatever surrounds it: R(a + `{{bbox}}` + b) = R(a) + coords + R(b) |
| Query.ReplaceBboxLeavesNoPlaceholder | leaflet-overpass-layer/src/OverPassLayer.js:367 | with coordinates that share no character with `{{bbox}}`, no placeholder is left after the substitution |
| Query.ReplaceBboxKeepsNoComment | leaflet-overpass-layer/src/OverPassLayer.js:366-367 | coordinates without `/` bring no `//` into a template that had none |
| Query.BuildQueryIsClean | leaflet-overpass-layer/src/OverPassLayer.js:361-369 | the built query contains neither `{{bbox}}` nor `//`, for every template, given coordinates without `{`, `}`, `b`, `o`, `x` or `/` |
| Query.BuildQueryIdentity | leaflet-overpass-layer/src/OverPassLayer.js:361-369 | a template with neither placeholder nor `//` comes out unchanged |
| Query.BuildQuerySubstitutes | leaflet-overpass-layer/src/OverPassLayer.js:361-369 | in a template without comments, each placeholder becomes `swLat,swLng,neLat,neLng`, the rest being built the same way |
| Envelope.ReadTagValues | leaflet-overpass-layer/src/OverPassLayer.js:116-161 | the loop over the tags, in any key order, leaves each address local holding its tag or absent, the city upper-cased or `[TOWN/CITY]`, the postcode or `[Postcode]` |
| Envelope.ReadAddress | leaflet-overpass-layer/src/OverPassLayer.js:116-170 | the loop followed by the pre-processing step: a place different from the substreet is put in front of it, or stands for it |
| Envelope.WriteRows | leaflet-overpass-layer/src/OverPassLayer.js:172-239 | the rows written are the envelope lines of the parts, in order |
| Envelope.FormatEnvelope | leaflet-overpass-layer/src/OverPassLayer.js:116-239 | the address lines the popup shows for a tag map are `Envelope.Envelope(tags)` |
| Envelope.EnvelopeFirstLine | leaflet-overpass-layer/src/OverPassLayer.js:174-185 | line 1 is `unit name,`, `name,` or `unit,`, as the tags present decide |
| Envelope.EnvelopeMiddleLines | leaflet-overpass-layer/src/OverPassLayer.js:186-233 | after the unit/name line come the number-and-street line, the parent street and the suburb, each only when present; every line before the last two carries exactly that content; the number line uses the place-and-substreet text in preference to the street, with the house number in front when there is one |
| Envelope.EnvelopeLastLines | leaflet-overpass-layer/src/OverPassLayer.js:234-239 | there are always at least two lines; the city (upper-cased, or `[TOWN/CITY]`) and the postcode (or `[Postcode]`) are the last two; every earlier line ends with `,` |
| Envelope.EnvelopeIgnoresOtherTags | leaflet-overpass-layer/src/OverPassLayer.js:128-160 | tags other than the ten `addr:*` keys change nothing: adding one leaves the lines as they were, and the lines of a map equal those of its address keys alone |
| Envelope.HouseNumberNeedsStreet | leaflet-overpass-layer/src/OverPassLayer.js:187-206 | with neither street, substreet nor place, the house number is never printed |
| Envelope.PlaceReplacesMissingSubstreet | leaflet-overpass-layer/src/OverPassLayer.js:163-170 | a place without a substreet gives the same lines as a substreet with the place's value, the street being ignored |
| Features.IngestIsFresh | leaflet-overpass-layer/src/OverPassLayer.js:22-56 | the handler runs to its end exactly when every fresh element has a position; then the ids are the old ones plus every id of the response and the markers are those of the fresh elements, in response order |
| Features.IngestIds | leaflet-overpass-layer/src/OverPassLayer.js:28-32 | ids only accumulate, and only ids of the response are added |
| Features.IngestMarkersAreNew | leaflet-overpass-layer/src/OverPassLayer.js:28-32 | every marker added is for an id unseen before and now recorded, and no two added markers share an id, duplicates within one response included |
| Features.FreshIsNewAndOrdered | leaflet-overpass-layer/src/OverPassLayer.js:23-32 | the fresh elements are a subsequence of the response with new, pairwise distinct ids |
| Features.FreshKeepsFirstOccurrence | leaflet-overpass-layer/src/OverPassLayer.js:23-32 | the first element carrying an unseen id is among the fresh ones |
| Features.IngestKeepsUnique | leaflet-overpass-layer/src/OverPassLayer.js:28-55 | across responses, markers that had unique recorded ids keep them once a response's markers are added |
| Features.IngestStopsAtFailure | leaflet-overpass-layer/src/OverPassLayer.js:34-38 | once an element without a position has ended the loop, the later elements change nothing |
| Layer.RequestFor | leaflet-overpass-layer/src/OverPassLayer.js:443-451 | the request covers the bounds enlarged once more, and its URL carries the query built for exactly those enlarged bounds |
| Layer.IsFullyLoadedBounds | leaflet-overpass-layer/src/OverPassLayer.js:292-295 | an empty list of loaded bounds never covers anything; otherwise the clipping library decides |
| Layer.OverPassLayer.constructor | leaflet-overpass-layer/src/OverPassLayer.js:70-76 | no ids, the given loaded bounds, the flag clear and nothing pending |
| Layer.OverPassLayer.SendRequest | leaflet-overpass-layer/src/OverPassLayer.js:436-475 | bounds already covered clear the flag and send nothing; a veto calls `afterRequest` and leaves the flag as it was; otherwise the flag is set and exactly one request goes out; nothing else changes |
| Layer.OverPassLayer.PrepareRequest | leaflet-overpass-layer/src/OverPassLayer.js:420-434 | below `minZoom` nothing changes; while a request is in progress only the pending slot is overwritten with the enlarged view; otherwise the slot is cleared and the request is dispatched at once; single flight is kept |
| Layer.OverPassLayer.OnRequestComplete | leaflet-overpass-layer/src/OverPassLayer.js:516-528 | `afterRequest` runs once; a pending request is taken out of the slot and dispatched, otherwise the flag is cleared |
| Layer.OverPassLayer.OnSuccess | leaflet-overpass-layer/src/OverPassLayer.js:22-56 | the loop records ids and appends markers exactly as `Ingest` says, and reports whether it reached the end |
| Layer.OverPassLayer.MakeMarker | leaflet-overpass-layer/src/OverPassLayer.js:40-53 | the marker of a new element is at its position, with the envelope of its tags as popup |
| Layer.OverPassLayer.OnRequestLoadCallback | leaflet-overpass-layer/src/OverPassLayer.js:502-508 | the request's bounds are appended to the loaded bounds |
| Layer.OverPassLayer.OnLoadSuccess | leaflet-overpass-layer/src/OverPassLayer.js:477-482 | `onSuccess`, then, only if it did not throw, the bounds are recorded and the complete callback runs |
| Layer.OverPassLayer.OnLoad | leaflet-overpass-layer/src/OverPassLayer.js:477-489 | loaded bounds grow by the request's bounds only after a status in [200, 400) whose handler completes; an error status calls `onError` and then completes; single flight and unique markers are kept |
| Layer.OverPassLayer.OnTimeout | leaflet-overpass-layer/src/OverPassLayer.js:491-500 | `onTimeout` runs; without retry the complete callback follows; with retry nothing more happens; loaded bounds never change |
| Layer.OverPassLayer.ResetData | leaflet-overpass-layer/src/OverPassLayer.js:593-604 | ids, loaded bounds and markers are emptied and the flag cleared; the pending slot is kept |
| Layer.OverPassLayer.SetQuery | leaflet-overpass-layer/src/OverPassLayer.js:587-591 | the new template, a reset, then a prepare that is never skipped as already covered |
| Layer.OverPassLayer.OnAdd | leaflet-overpass-layer/src/OverPassLayer.js:530-560 | the layer gets a new, empty marker group while the seen ids are kept; then, unless `noInitialRequest`, the initial prepare runs with all three outcomes of `PrepareRequest` (below `minZoom` nothing more changes, while a request is in progress only the pending slot is set, otherwise the enlarged view is dispatched); single flight is kept |
| Layer.OverPassLayer.OnRemove | leaflet-overpass-layer/src/OverPassLayer.js:562-585 | the layer's data is reset; the markers are unique again, and single flight holds when nothing is out |
| Scenarios.LatestMoveWins | leaflet-overpass-layer/src/OverPassLayer.js:428-433 | of several moves made while a request is out, only the last is sent when that request fails |
| Scenarios.StuckAfterVetoedFollowUp | leaflet-overpass-layer/src/OverPassLayer.js:456-461 | a vetoed follow-up leaves the flag set with nothing in flight, and later moves only fill the pending slot |
| Scenarios.TwoInFlightAfterSetQuery | leaflet-overpass-layer/src/OverPassLayer.js:587-597 | `setQuery` while a request is out lets a second request out beside it |

## Left out

- DOM construction and styling of the popup and the table around the address lines: presentation only.
- Leaflet's map, marker and feature-group objects. A marker is the record of its id, position and popup lines.
- The circle-or-icon choice for the marker: presentation only.
- The debug request and response boxes, and the MinZoomIndicator control: presentation only.
- `XMLHttpRequest`, its timeout timer and `JSON.parse`: the network is the environment. Completion is a
  method call carrying a status, and an unparsable body is a missing response.
- ClipperLib's polygon difference and the 1e6 scaling in `_buildClipsFromBounds` and `_buildBoundsFromClips`:
  these are a foreign library working in floating point, so coverage is the abstract `Host.covers`.
- `_buildLargerBounds`: its floating-point margin and Leaflet's `wrap()` are the abstract `Host.expand`. It
  also mutates its argument in place, which nothing reads afterwards.
- The conversion of coordinates to text by `join(',')`: the abstract `Host.format`.
- `toUpperCase`: the abstract `Host.upper`, since Unicode case mapping is not modelled.
- The retry path as a resend: `_sendRequest(url)` throws, as described above.
- `getData`: it reads a field that is never set.
- The layer's attachment to a map. The controller is modelled only while the layer is on a map, with the
  map's zoom and bounds passed in. The code's `setQuery` before `onAdd` clears ids, bounds and the flag and
  then throws at `this._markers.clearLayers()`. After `onRemove` the map is gone, so `_prepareRequest` throws
  at its first line. Neither failure is modelled, and the model's `SetQuery` and `PrepareRequest` may send
  in these states.
- The map's `moveend` subscription in `onAdd` and `onRemove`: each later move is a call of `PrepareRequest`.
- The aliasing of a caller's `loadedBounds` array, which `initialize` keeps and `push` extends: the model
  copies the list.
- `$` patterns in the replacement string of `String.prototype.replace`: the coordinates are taken to
  contain none, which JavaScript's number formatting guarantees.
