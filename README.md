# Homestead exemption outreach explorer, modelled in Dafny

The explorer is a browser map of Philadelphia properties that probably qualify
for the Homestead property-tax exemption but are not enrolled. A model gives
each property a predicted eligibility score. A slider sets a score threshold.
The properties meeting it are drawn as a clustered marker layer. Clicking a
property selects its census tract. The side panel then shows how many of the
tract's properties meet the threshold, what a door-knocking or direct-mail
campaign for them would cost, and what tax savings they could bring. The
selected object ids can be exported as CSV. An address box geocodes a typed
address, offers the Philadelphia matches, and drops a pin on the chosen one. A
Python script prepares the data. It cuts every feature's properties down to a
keep-list, and a second loop counts features whose owner is missing.

This project models that core:

- `wrappers.dfy`: `Option` and `Result`.
- `seqs.dfy`: order-preserving `Filter` and `Map`, which model JavaScript's `filter`/`map`. Also the subsequence relation and the first index where a loop stops.
- `text.dfy`: JavaScript `trim`, Python `strip` and ASCII `toLowerCase`. Also `includes`, and joining and splitting on newlines.
- `features.dfy`: property features, the score-only filter used by the map, and the tract-and-score filter used by the dashboard.
- `outreach.dfy`: the cost and benefit formulas, with money as exact `real`.
- `layermap.dfy`: the shared Leaflet map as a set of layers plus a zoom and a centre.
- `propertymap.dfy`: the zoom visibility rules, the cluster icon size, and the rebuild of the cluster layer. It is a class over the map.
- `dashboard.dfy`: the dashboard's module state as a class. It covers the tract count, the tract update, the slider handler and the export handler.
- `addresssearch.dfy`: the suggestion list, the geocoder requests and the single search pin, as a class.
- `reducegeojson.dfy`: JSON values, plus the cleaning loop and the counting loop as methods of a document class. Both are proved against specification functions.

Behaviour of the code worth noting:

- `countPropertiesInTract` reads `withoutExemptionData.features` without a check, so before the data loads it throws. It does not return an empty result. The model returns `None`.
- A geocoder response that succeeds but arrives late is still rendered. Only the error path re-checks the text box.
- The door-knocking cost is the flat formula `(32000 + 3.5 n) * 1.1`, not a model with more parameters.
- `updateBenefitTable` appends the uptake message to the element of class `benefit-table-container`, which no code of the dashboard creates. On a page without it, every tract update throws at its last step, after the GEOID and the ids are stored, so the slider handler never stores `threshold`. Whether the page has it is the constructor's parameter `benefitContainer`.

## Model

| member | source | states |
|---|---|---|
| Outreach.DoorKnockingCost | script/dashboard.js:217-219 | the door-knocking total is never below the fixed cost with overhead, 35200 |
| Outreach.DirectMailCost | script/dashboard.js:221-223 | the direct-mail total is never below the fixed cost with overhead, 3850 |
| Outreach.TaxSavings | script/dashboard.js:225-227 | the homeowner tax saving is never negative |
| Outreach.Estimate | script/dashboard.js:190-258 | the two costs are the campaign formulas, direct benefit is the tax saving, indirect is twice it, total is three times it, and the total is never negative |
| Outreach.EstimateAtZero | script/dashboard.js:217-227 | with no property selected only the fixed costs 35200 and 3850 remain, and every benefit is 0 |
| Outreach.MarginalEffect | script/dashboard.js:217-227 | each extra property adds 3.85 to door knocking, 0.418 to mailing and 139.9 to the tax saving |
| Outreach.EstimateMonotone | script/dashboard.js:217-227 | both costs, the saving and the total benefit strictly grow with the count |
| Features.AboveThreshold | script/property-map.js:179-181 | at most as many features as the data, each with score at least the threshold |
| Features.Matches | script/dashboard.js:206-208 | at most as many features as the data, each of the tract and with score at least the threshold |
| Features.ObjectIds | script/dashboard.js:211 | one id per feature, in order, each the feature's `objectid` |
| Features.MatchesExactly | script/dashboard.js:206-208 | a feature is counted for a tract iff it is in the data, has exactly that GEOID, and its score is at least the threshold |
| Features.AboveThresholdExactly | script/property-map.js:179-181 | a feature is on the map layer iff it is in the data and its score is at least the threshold |
| Features.MatchesShrink | script/dashboard.js:204-215 | raising the threshold keeps a subsequence of the tract's matches, and of their ids, so the count cannot grow |
| Features.AboveThresholdShrink | script/property-map.js:179-181 | raising the threshold keeps a subsequence of the map's features, so there are never more |
| Features.MatchesWithinAboveThreshold | script/dashboard.js:206-208 | a tract's selection is a subsequence of the map's features at the same threshold |
| PropertyMap.MarkerFor | script/property-map.js:263 | a marker sits at the feature's latitude and longitude (GeoJSON's order reversed) and carries the feature |
| LayerMap.ShowIf | script/property-map.js:42-56 | after a visibility rule, its layer is present iff the rule's test holds, and no other layer changes |
| LayerMap.ShowIfIdempotent | script/property-map.js:42-56 | running a visibility rule twice is the same as running it once |
| LayerMap.ShowIfCommutes | script/property-map.js:81-97 | rules for different layers commute, so the order of the `zoomend` handlers does not matter |
| LayerMap.LeafletMap.constructor | script/property-map.js:15 | a new map has no layers and the given centre and zoom |
| LayerMap.LeafletMap.HasLayer | script/property-map.js:46 | the answer is true iff the layer is on the map |
| LayerMap.LeafletMap.AddLayer | script/property-map.js:48 | the layer is added, re-adding changes nothing, and the view is kept |
| LayerMap.LeafletMap.RemoveLayer | script/property-map.js:53 | the layer is removed, removing an absent layer changes nothing, and the view is kept |
| LayerMap.LeafletMap.SetView | script/address-search.js:91 | the centre and zoom are set and the layers are kept |
| PropertyMap.DetailAndHotspotsExclusive | script/property-map.js:156-168 | no zoom level satisfies both the hotspot test (at most 15) and the footprint test (at least 18) |
| PropertyMap.IconSize | script/property-map.js:195-201 | a cluster icon is 24 px for one marker, 120 px from 2000 markers up, and between the two otherwise |
| PropertyMap.MarginalIconSize | script/property-map.js:195-201 | from 1 to 2000 markers each further marker adds 96/1999 px, so with the size 24 at one marker every size in between is fixed |
| PropertyMap.IconSizeMonotone | script/property-map.js:195-201 | a bigger cluster never gets a smaller icon |
| PropertyMap.PropertyLayers.constructor | script/property-map.js:10-58 | the map is centred on (39.9526, -75.1652) at zoom 16, with only the base tiles, and nothing is loaded |
| PropertyMap.PropertyLayers.UpdateVectorLayerVisibility | script/property-map.js:42-56 | footprints are on the map exactly from zoom 18 up, and nothing else changes |
| PropertyMap.PropertyLayers.UpdateExemptionLayerVisibility | script/property-map.js:81-91 | exemption points are on the map exactly from zoom 18 up, and nothing else changes |
| PropertyMap.PropertyLayers.UpdateHighHighVisibility | script/property-map.js:156-168 | before the hotspots load nothing changes, and after they load they are on the map exactly up to zoom 15 |
| PropertyMap.PropertyLayers.LoadExemptions | script/property-map.js:62-98 | once the exemption data has loaded, its visibility rule has been applied |
| PropertyMap.PropertyLayers.LoadCensusTracts | script/property-map.js:115-132 | the tract outlines are added and nothing else changes |
| PropertyMap.PropertyLayers.LoadHotspots | script/property-map.js:135-154 | once the hotspots have loaded, their visibility rule has been applied |
| PropertyMap.PropertyLayers.ZoomTo | script/property-map.js:42-168 | after `zoomend` each rule's layer is present iff its zoom test holds (an overlay whose data has not loaded is absent), the hotspots are never shown with the footprints or the exemption points, and other layers are untouched |
| PropertyMap.PropertyLayers.UpdateWithoutExemptionLayer | script/property-map.js:172-334 | the old cluster group is removed; with data loaded, one new group holds a marker for each feature meeting the threshold, in order, at [lat, lng]; at most one group is ever on the map |
| PropertyMap.PropertyLayers.LoadWithoutExemptionData | script/property-map.js:104-112 | the loaded data is drawn as a fresh cluster group at threshold 0.7 |
| Text.TrimStart | script/address-search.js:24 | the result is no longer than the input and does not start with whitespace |
| Text.TrimStartIsSuffix | script/address-search.js:24 | the left-trimmed text is a suffix of the input |
| Text.TrimStartDropsSpace | script/address-search.js:24 | everything left-trimming drops is whitespace |
| Text.TrimEnd | script/address-search.js:24 | the result is no longer than the input and does not end with whitespace |
| Text.TrimEndIsPrefix | script/address-search.js:24 | the right-trimmed text is a prefix of the input |
| Text.TrimEndDropsSpace | script/address-search.js:24 | everything right-trimming drops is whitespace |
| Text.Trim | script/address-search.js:24 | the result neither starts nor ends with whitespace |
| Text.TrimOccurs | script/address-search.js:24 | the trimmed text occurs in the input right after the leading whitespace |
| Text.JsTrim | script/address-search.js:24 | the trimmed text neither starts nor ends with ECMAScript whitespace |
| Text.PyStrip | reducegeojson.py:45 | the stripped text neither starts nor ends with Python whitespace |
| Text.TrimEmptyIff | script/address-search.js:24-32 | a text trims to empty iff it is all whitespace, which is when the handler stops early |
| Text.ToLower | script/address-search.js:50 | lower-casing keeps the length, turns each ASCII capital into its own small letter (code point plus 32), keeps every other character and leaves no capital |
| Text.LowerOfCapitalisation | script/address-search.js:50 | lower-casing any capitalisation of a text without capitals gives that text back |
| Text.Contains | script/address-search.js:50 | a text only contains texts no longer than itself |
| Text.ContainsIff | script/address-search.js:50 | `includes` holds iff some slice of the text equals the sought text |
| Text.ContainsLowered | script/address-search.js:50 | a substring of the name stays a substring after both are lower-cased |
| Text.JoinLines | script/dashboard.js:129 | the joined text starts with the first line |
| Text.SplitLines | script/dashboard.js:129 | splitting always gives at least one piece |
| Text.SplitAtNewline | script/dashboard.js:129 | splitting text around one newline gives the lines of each side, concatenated |
| Text.SplitJoinLines | script/dashboard.js:129 | joining newline-free lines with "\n" and splitting on "\n" gives the lines back |
| Dashboard.IsSelected | script/dashboard.js:116 | the guard treats a missing and an empty GEOID alike as no selection |
| Dashboard.ExportCsv | script/dashboard.js:129 | the exported text starts with the header line "objectid" |
| Dashboard.ExportCsvLines | script/dashboard.js:129 | the CSV splits into the header "objectid" followed by exactly the selected ids |
| Dashboard.DashboardState.constructor | script/dashboard.js:1-5 | nothing is selected, no data is loaded, the threshold is 0.7, and the page has or lacks the benefit-table container as given |
| Dashboard.DashboardState.LoadData | script/dashboard.js:8-19 | the features are stored |
| Dashboard.DashboardState.RenderDashboardPanel | script/dashboard.js:58-64 | the panel exists and its slider reads 0.7 |
| Dashboard.DashboardState.CountPropertiesInTract | script/dashboard.js:204-215 | with data, the count is the number of tract matches and the stored ids are their object ids in order; without data, it throws and the ids are unchanged |
| Dashboard.DashboardState.UpdateTractCharacteristics | script/dashboard.js:164-293 | the tract is always stored; without a panel, nothing else happens; with a panel, a null tract throws before the GEOID is recorded; otherwise the GEOID and the ids at the slider value are stored, and the count and its estimate are shown, or without the benefit-table container the update throws at its last step |
| Dashboard.DashboardState.SliderInput | script/dashboard.js:66-71 | the old cluster group is replaced by one for the new value (the map's zoom, centre, other layers and loaded overlays are kept), the tract is recounted at the new value, and `threshold` takes the value only when the tract update did not throw: with a tract, loaded data and the benefit-table container |
| Dashboard.DashboardState.RetallyAfterSlide | script/dashboard.js:69-70 | the tract update at the slider's value, then `threshold` set to that value only when the update did not throw; without loaded data the stored ids are kept |
| Dashboard.DashboardState.ExportAsWritten | script/dashboard.js:115-141 | no tract gives an alert; no match gives an alert; otherwise it downloads the tract's ids at the slider value, but the file is named with the module `threshold` |
| Dashboard.DashboardState.Export | script/dashboard.js:115-141 | the same outcomes, but a download is named with the same tract and threshold its ids were selected at |
| Dashboard.SlideBeforeFirstClick | script/dashboard.js:66-71 | after the data loads, the panel opens, the slider moves to 0.9 while no tract is selected and a property is then clicked, the slider reads 0.9 but `threshold` is still 0.7 |
| Dashboard.StaleFileNameScenario | script/dashboard.js:66-71 | moving the slider to 0.9 before any tract click makes the as-written export name the file 0.7 for ids selected at 0.9; the corrected export names it 0.9 |
| Dashboard.ScenarioSelection | script/dashboard.js:204-215 | in that scenario only property "17" meets 0.9, and the CSV is "objectid\n17" |
| AddressSearch.RequestFor | script/address-search.js:35-37 | the query is the trimmed text followed by ", Philadelphia, PA", with country "us" and limit 5 |
| AddressSearch.IsPhiladelphiaResult | script/address-search.js:49-51 | an accepted result has a name at least as long as "philadelphia" |
| AddressSearch.PhiladelphiaResults | script/address-search.js:49-51 | the offered list is no longer than the results and every entry passes the Philadelphia test |
| AddressSearch.PhiladelphiaResultsExactly | script/address-search.js:48-51 | a result is offered iff it has a non-empty name containing "philadelphia" in lower case; the order is kept |
| AddressSearch.AnyCaseAccepted | script/address-search.js:49-51 | a name containing "philadelphia" in any ASCII capitalisation is accepted |
| AddressSearch.CapitalsAccepted | script/address-search.js:49-51 | the name "PHILADELPHIA, PA, USA", all in capitals, is offered |
| AddressSearch.AddressSearch.constructor | script/address-search.js:5-7 | the list is empty and hidden, and there are no requests and no pin |
| AddressSearch.AddressSearch.RenderAddressSuggestions | script/address-search.js:48-70 | the list holds exactly the Philadelphia results and is hidden iff that list is empty |
| AddressSearch.AddressSearch.HandleAddressInput | script/address-search.js:23-46 | blank input issues no request and leaves the list empty and hidden; otherwise one request for the trimmed text is issued, and the list shows the Philadelphia results or is empty after a failed lookup |
| AddressSearch.AddressSearch.HandleAddressSubmit | script/address-search.js:81-85 | a blank box changes nothing; otherwise it behaves as an input event |
| AddressSearch.AddressSearch.Focus | script/address-search.js:9-13 | a list with entries is shown again, and an empty one stays hidden |
| AddressSearch.AddressSearch.CenterMapOnAddress | script/address-search.js:87-105 | the map is at the address and zoom 18, the old pin is removed, and the new pin is the only search pin |
| AddressSearch.AddressSearch.SelectSuggestion | script/address-search.js:72-79 | the list is hidden and the map is centred on the chosen entry with a single pin |
| ReduceGeoJson.FeaturesOf | reducegeojson.py:25 | a non-object document raises; a missing `features` key visits nothing; a list gives exactly its items; a non-empty string or object fails at feature 0 and an empty one visits nothing; `null`, a boolean or a number is not iterable |
| ReduceGeoJson.Project | reducegeojson.py:26 | the projection only keeps keys the properties had |
| ReduceGeoJson.ProjectExactly | reducegeojson.py:26 | projection keeps exactly the present keep-list keys, each with its value |
| ReduceGeoJson.ProjectIdempotent | reducegeojson.py:26 | projecting twice is projecting once |
| ReduceGeoJson.WithFeaturesKeepsRest | reducegeojson.py:26 | writing the features back leaves every other member of the document as it was |
| ReduceGeoJson.HasPropertyObject | reducegeojson.py:26 | every feature the cleaning loop can index the counting loop can read as well |
| ReduceGeoJson.CleanFeature | reducegeojson.py:26 | a feature can still be indexed after cleaning exactly when it could before |
| ReduceGeoJson.CleanDocument | reducegeojson.py:25-26 | a clean run needs an iterable `features`, and an error in reading `features` is the run's error |
| ReduceGeoJson.CleanedPrefix | reducegeojson.py:25-26 | the in-place steps keep the number of features |
| ReduceGeoJson.CleanedPrefixSplits | reducegeojson.py:25-26 | after k in-place steps the first k features are cleaned and the rest are untouched |
| ReduceGeoJson.CleanedBeforeNothing | reducegeojson.py:25 | before the loop has cleaned a feature the document is as loaded |
| ReduceGeoJson.CleanedBeforeStep | reducegeojson.py:25-26 | cleaning feature i in place takes the document from i cleaned features to i + 1 |
| ReduceGeoJson.CleanedBeforeAll | reducegeojson.py:25-26 | once every feature is cleaned in place, the document is the cleaned document |
| ReduceGeoJson.CleanFeatureProperties | reducegeojson.py:26 | a cleaned feature keeps every member except `properties`, and its property keys are exactly the keep-list keys it had, with their values |
| ReduceGeoJson.CleanKeepsShape | reducegeojson.py:25-26 | a clean run keeps the document's other members and the features' number and order, and replaces only each feature's properties |
| ReduceGeoJson.CleanedWithinKeepList | reducegeojson.py:4-26 | after cleaning, every feature's property keys lie in the keep-list; kept keys keep their values, and present keep-list keys are kept |
| ReduceGeoJson.CleanIdempotent | reducegeojson.py:25-26 | cleaning a cleaned document changes nothing |
| ReduceGeoJson.CleanWithoutFeatures | reducegeojson.py:25 | a document without `features` is left unchanged |
| ReduceGeoJson.GeoJsonDocument.constructor | reducegeojson.py:16-18 | the document holds the loaded value |
| ReduceGeoJson.GeoJsonDocument.CleanFeatures | reducegeojson.py:25-26 | on success the document is the cleaned one; on a malformed feature the error names the first bad index, and the features before it are already cleaned in place |
| ReduceGeoJson.GeoJsonDocument.CountMissingOwners | reducegeojson.py:42-46 | the loop returns the number of features with a missing or blank `owner_1`, or the first feature it cannot read |
| ReduceGeoJson.OwnerOf | reducegeojson.py:44 | an owner is found iff `properties` and its `owner_1` are both present, and it is the value of `owner_1` |
| ReduceGeoJson.CanLookUpOwner | reducegeojson.py:44 | a feature object without `properties` can be read, through the `{}` default |
| ReduceGeoJson.IsMissingOwner | reducegeojson.py:44-45 | a feature object without `properties` is counted as missing |
| ReduceGeoJson.IsBlankOwner | reducegeojson.py:45 | a present owner that counts as missing is `null` or a string |
| ReduceGeoJson.BlankOwnerExactly | reducegeojson.py:45 | an owner counts as missing iff it is absent, null, or a string of Python whitespace; numbers and booleans never count |
| ReduceGeoJson.MissingOwnerExactly | reducegeojson.py:44-45 | a readable feature is counted iff it has no `properties`, no `owner_1`, or an `owner_1` that is `null` or a string of Python whitespace |
| ReduceGeoJson.MissingOwnerCount | reducegeojson.py:42-46 | the count is at most the number of features, and an error in reading `features` is the script's error |
| ReduceGeoJson.MissingOwnerCountWithoutFeatures | reducegeojson.py:43 | a document without `features` counts 0 |
| ReduceGeoJson.CleaningKeepsMissingOwnerCount | reducegeojson.py:25-46 | `owner_1` is kept, so counting the cleaned output gives the same result as counting the input |

## Left out

- Network and JSON loading: the `fetch` calls and their log-only handlers in all three scripts are left out, as are the Python script's file reads and writes, `print` and `exit`. Loaded data is an input that may be absent: `LoadData`, `LoadWithoutExemptionData`, `LoadExemptions`, `LoadHotspots`, `LoadCensusTracts` and the `LookupResponse` of the address search.
- The call `countPropertiesInTract()` with no arguments, made after the dashboard's data loads: it compares GEOIDs to `undefined`. Its only effect is to set the selected ids to an empty list, and it is not modelled.
- `currentProperties` is only stored by `updateTractCharacteristics` and passed back by the slider handler, never used, so it is not modelled.
- DOM construction and display formatting: the table HTML, `toFixed`, `toLocaleString`, the popup HTML, the text of the `li` entries, and the `Blob`/link download mechanics. The file name is modelled by its two parts, tract and threshold, not as JavaScript's number-to-text.
- PropertyLayers.UpdateWithoutExemptionLayer: assumes well-formed records; it does not model the throw at the popup's `_pred1.toFixed(2)` or `avg_mr_.toLocaleString(...)` on a record with a non-numeric score or a null value, which would abort the rebuild after the old group was removed and skip the rest of the slider handler.
- UpdateTractCharacteristics: does not model the throw when a non-null tract record lacks the numeric fields whose `toFixed` the table calls. The uptake message itself, created once when the benefit-table container exists, is display and not modelled.
- Timers: the 300 ms debounce on address input and the 5-second removal of the search pin.
- HandleAddressInput: each lookup runs to its response before the next event; `inputLater` is the box's text when that response arrives; interleaved lookups are not modelled.
- Leaflet and d3 rendering: tile and vector-grid layers, cluster options, `clusterclick`/`fitBounds`, the d3 colour scale, and marker icons. The map is modelled only as its set of layers, its zoom and its centre.
- Marker hover and click: the highlight state (`lastClickedMarker`, `setStyle`) and the click wiring that calls `updateTractCharacteristics` with the marker's record. The tract update itself is modelled.
- CenterMapOnAddress: the `zoomend` event that Leaflet fires after `setView` is not dispatched. Calling `PropertyLayers.ZoomTo` afterwards models it.
- `initializePropertyMap` called a second time, which removes and rebuilds the map, is not modelled. The model builds the map once.
- Text: `toLowerCase` is modelled for ASCII letters only; there is no Unicode case mapping. `encodeURIComponent` is not modelled, so the request holds the query before encoding.
- The slider's range of 0.5 to 1 in steps of 0.1 is not imposed. Any real value is accepted.
- ReduceGeoJson: JSON objects are maps, so Python's dict key order, and with it the order of iterating an object, is not modelled. Numbers are reals. Of the two scripts' file paths only the fact that the second one reads the first one's output is reflected, in `CleaningKeepsMissingOwnerCount`.
- Floating point: JavaScript and Python numbers are exact `real`s in the model, so the scores, the `parseFloat` slider threshold, the `* 1.1` money and the icon interpolation have no rounding.
- `main.js` (start-up wiring) and `HomesteadExplorer.java` are not part of this model.

## Findings

| source | as written | input that shows it | evidently intended | confidence | as-written member | corrected member |
|---|---|---|---|---|---|---|
| script/dashboard.js:66-71 | the slider handler sets `threshold` only after `updateTractCharacteristics(currentTractData, ...)`, which throws on a null tract. The export at line 130 names the file with `threshold`, but selects the ids at the slider's value (lines 121-122). | load the data, open the panel, move the slider to 0.9 before clicking any property, then click a property of tract 42101000100 and export: the file is named `tract_42101000100_0.7.csv` but holds only the ids meeting 0.9 | the file name states the threshold the exported ids were selected at | not executed | Dashboard.DashboardState.ExportAsWritten, Dashboard.StaleFileNameScenario | Dashboard.DashboardState.Export |
