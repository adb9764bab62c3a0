# EcoScan core model

EcoScan photographs an electronic device, has a backend analyse it, and shows
a sustainability report with a lookup of nearby e-waste recyclers. This Dafny
project models the small deterministic parts of that system:

- **Analysis report shaping** (`AnalysisReport`, in `analysis_report.dfy`).
  The backend's analysis record becomes a display record: three "Yes/No — note"
  suggestion lines, one toxic-component row per component, and three disposal
  entries titled Battery, Plastic and General. Highlight badges are pushed
  onto the record by score thresholds. Each score is classified into a green,
  yellow or red band. The nearby-recyclers panel is a class with the
  component's three state variables (list, shown, loading). Each of its
  callbacks is a method. A pure `Step`/`Run` over events specifies them.
- **Recycler list filter and sort** (`RecyclerList`, in `recycler_list.dfy`).
  A record is kept when the lower-cased query occurs in its lower-cased name or
  address. The kept records are then stably sorted with the component's
  comparator: ascending distance, descending rating, or no order at all.
  The component holds the query and the sort mode as state but renders no
  control that changes them, so the program only ever shows the initial
  view: every record, nearest first when every record has a distance
  (see "## Findings").
- **Recycler record building** (`MapsService`, in `maps_service.dfy`).
  The server takes the first five Places results and builds one record from
  each, inside a loop. Missing fields get defaults: rating "N/A", and empty
  distance, thumbnail and maps link. The maps link puts the name, with spaces
  turned into `+`, before the place id.
- **Vision label selection** (`VisionService`, in `vision_service.dfy`).
  The request is built by image URI when the input starts with "http", and
  from the file's content otherwise. Only the descriptions of the second half
  of the returned labels are kept.

`Wrappers` (Option, Result) and `Text` (ASCII lower-casing, substring search,
prefix test, character replacement, decimal rendering) are shared helpers.

Scores, ratings and distances are integers (distances and ratings in tenths).
The source parses them from floating-point text; that parsing is not modelled.

## Model

| member | source | states |
|---|---|---|
| Text.Lower | client/src/components/EcoWasteRecyclers.js:18-19 | `toLowerCase` maps each character by ASCII case folding and keeps the length; no upper-case letter remains |
| Text.Includes | client/src/components/EcoWasteRecyclers.js:18-19 | `includes` is true exactly when the needle occurs at some position of the haystack |
| Text.ReplaceChar | server/app/services/maps_services.py:72 | `replace(' ', '+')` keeps the length and changes exactly the spaces into `+` |
| Text.ReplaceCharRemoves | server/app/services/maps_services.py:72 | after the replacement no space is left, and every other character is the original one |
| Text.ReplaceCharRoundTrip | server/app/services/maps_services.py:72 | turning `+` back into spaces recovers the name when the name had no `+` |
| RecyclerList.MatchesIgnoresQueryCase | client/src/components/EcoWasteRecyclers.js:18-19 | lower-casing the query first does not change which records match |
| RecyclerList.EmptyQueryMatches | client/src/components/EcoWasteRecyclers.js:17-19 | the empty query matches every record |
| RecyclerList.Matches | client/src/components/EcoWasteRecyclers.js:17-19 | a record matches iff the lower-cased query occurs at some position of its lower-cased name or of its lower-cased address |
| RecyclerList.Filter | client/src/components/EcoWasteRecyclers.js:15-20 | a record is in the output iff it is in the input and the query occurs in its name or address; each kept record appears exactly as often as in the input, and nothing else appears |
| RecyclerList.FilterOne | client/src/components/EcoWasteRecyclers.js:15-20 | a one-record list is kept iff the record matches |
| RecyclerList.FilterAppend | client/src/components/EcoWasteRecyclers.js:15-20 | filtering a concatenation is the concatenation of the filtered parts, so kept records keep their input order |
| RecyclerList.FilterEmptyQuery | client/src/components/EcoWasteRecyclers.js:17-19 | an empty query keeps the whole list, in order |
| RecyclerList.ModeOf | client/src/components/EcoWasteRecyclers.js:22-24 | "distance" selects the distance order, "rating" the rating order, and any other string neither |
| RecyclerList.Compare | client/src/components/EcoWasteRecyclers.js:21-25 | the comparator is the difference of two keys (distance, negated rating, or 0), so it is a consistent order |
| RecyclerList.Insert | client/src/components/EcoWasteRecyclers.js:21-25 | inserting into a sorted list adds exactly that record and keeps the list sorted |
| RecyclerList.Sort | client/src/components/EcoWasteRecyclers.js:21-25 | the sorted list is a permutation of the input and is ordered by the comparator's key |
| RecyclerList.SortUnsortedKeepsOrder | client/src/components/EcoWasteRecyclers.js:24 | with a comparator that is always 0 the output is the input unchanged |
| RecyclerList.Visible | client/src/components/EcoWasteRecyclers.js:15-25 | the shown list is a permutation of the filtered records, ordered by the source comparator (it never returns a positive value for an earlier record against a later one); with "distance" distances never decrease, with "rating" ratings never increase |
| RecyclerList.UnratedComesLast | client/src/components/EcoWasteRecyclers.js:23 | in a list sorted by the rating comparator, a 0-rated record comes after every positively rated one |
| RecyclerList.VisibleOtherModeIsFilter | client/src/components/EcoWasteRecyclers.js:24 | any other sort mode shows the filtered records in input order |
| RecyclerList.InitialViewShowsAll | client/src/components/EcoWasteRecyclers.js:11-25 | with the initial mode "distance" and the initial empty query, the only ones the component uses, every record is shown, nearest first |
| AnalysisReport.Suggestion | client/src/components/AnalysisResult.js:40-42 | a suggestion line is "Yes — " followed by the note when the flag is set, "No — " followed by the note otherwise |
| AnalysisReport.SuggestionInjective | client/src/components/AnalysisResult.js:40-42 | the flag and the note can both be read back from a suggestion line |
| AnalysisReport.ToxicEntries | client/src/components/AnalysisResult.js:44-48 | one row per toxic component, same length and order, row i carrying component i's name, risk level and location |
| AnalysisReport.Guidelines | client/src/components/AnalysisResult.js:49-53 | exactly three disposal entries, Battery, Plastic and General in that order, with the matching texts |
| AnalysisReport.Project | client/src/components/AnalysisResult.js:27-55 | the display record copies identity, the four scores, composition and summary, holds the three suggestion lines, toxic rows and disposal entries, and starts with no highlights |
| AnalysisReport.Shape | client/src/components/AnalysisResult.js:27-74 | besides the projection: "High Recyclability" is present iff recyclability >= 80, "Repair-Friendly" iff repairability >= 70, "Smart Suggestions" is always last, there are 1 to 3 badges and they follow the fixed order without repeats |
| AnalysisReport.ScoreColor | client/src/components/AnalysisResult.js:76-80 | green iff score >= 70, yellow iff 50 <= score < 70, red iff score < 50 |
| AnalysisReport.ScoreColorMonotone | client/src/components/AnalysisResult.js:76-80 | a higher score never gets a more severe band |
| AnalysisReport.Step | client/src/components/AnalysisResult.js:87-122 | one event: the list changes only on a successful fetch, which stores its list; the panel is shown after it iff it was a successful fetch or it was shown and the event was no click; loading is on after it iff it was a click while loading, or a click on a collapsed panel with geolocation |
| AnalysisReport.Run | client/src/components/AnalysisResult.js:87-122 | a sequence of events without a successful fetch leaves the list as it was; one ending in a successful fetch leaves the panel shown and not loading |
| AnalysisReport.PanelHoldsLastFetched | client/src/components/AnalysisResult.js:83-124 | from the initial state, the panel's list is always the list of the latest successful fetch, or empty before any |
| AnalysisReport.ShownOnlyAfterFetch | client/src/components/AnalysisResult.js:87-124 | from a collapsed panel, no sequence of toggles and failures ever shows it |
| AnalysisReport.CompletionClearsLoading | client/src/components/AnalysisResult.js:108-122 | every completion (fetch ok, fetch failed, location failed) turns loading off |
| AnalysisReport.RecyclerPanel.constructor | client/src/components/AnalysisResult.js:83-85 | the panel starts with an empty list, collapsed and not loading |
| AnalysisReport.RecyclerPanel.HandleNearbyRecyclers | client/src/components/AnalysisResult.js:87-97 | a shown list is hidden with nothing else changed and no lookup; without geolocation nothing changes; otherwise loading is set and a position query starts |
| AnalysisReport.RecyclerPanel.OnLocationError | client/src/components/AnalysisResult.js:118-122 | a location failure turns loading off and leaves list and visibility alone |
| AnalysisReport.RecyclerPanel.OnRecyclersFetched | client/src/components/AnalysisResult.js:108-116 | a successful fetch stores the list, shows it and turns loading off |
| AnalysisReport.RecyclerPanel.OnFetchError | client/src/components/AnalysisResult.js:112-116 | a failed fetch turns loading off and leaves list and visibility alone |
| MapsService.FormatKm | server/app/services/maps_services.py:60 | a distance renders as a non-empty text ending in " km" |
| MapsService.MapsUrl | server/app/services/maps_services.py:70-72 | the link starts with the maps search address, its query is the name with every space replaced by `+` (so no space is left, and the name comes back when it had no `+`), and it ends with the place id parameter |
| MapsService.ThumbnailUrl | server/app/services/maps_services.py:63-67 | the thumbnail link is the photo address with the first photo's reference, then the key |
| MapsService.BuildRecord | server/app/services/maps_services.py:48-81 | a record fails only for a place id without a name; otherwise it copies name and address, rating is "N/A" iff absent, distance is empty iff a coordinate is missing or 0, thumbnail is empty iff there are no photos, maps link is empty iff there is no place id |
| MapsService.FindNearbyRecyclers | server/app/services/maps_services.py:25-83 | a missing key fails first, then an API error message; otherwise the output has min(5, n) records, record k being built from result k, or the call fails because some such result has a place id but no name |
| VisionService.ImageRequestFor | server/app/services/vision_service.py:21-26 | an input starting with "http" is sent as an image URI, anything else as file content |
| VisionService.Descriptions | server/app/services/vision_service.py:47 | the projection keeps length and order, entry i being label i's description |
| VisionService.SecondHalf | server/app/services/vision_service.py:45-47 | the result has n - n/2 entries, entry i being the description of label n/2 + i |
| VisionService.SecondHalfIsSliceOfDescriptions | server/app/services/vision_service.py:45-47 | the result is the slice [n/2..] of all descriptions, a suffix in label order |
| VisionService.SecondHalfBounds | server/app/services/vision_service.py:45-46 | the result has between n/2 and n entries, and is empty only when there were no labels |
| VisionService.SecondHalfOfOne | server/app/services/vision_service.py:45-46 | a single label is kept |
| VisionService.Classify | server/app/services/vision_service.py:14-47 | a missing key, a non-200 status, an error field or no responses give a failure; otherwise the result is the second half of the first response's labels |
| VisionService.MissingLabelsGiveNothing | server/app/services/vision_service.py:43 | a response without labelAnnotations gives an empty list |

## Left out

- HTTP calls, `fetch`, geolocation, `FileReader`, alerts and logging. The search and Vision responses are parameters. Geolocation support is a flag, and the lookup's completions are events.
- The great-circle distance (maps_services.py lines 6-15) is the parameter `distanceTo`, in tenths of a km. `float(lat)` and the float formatting are not modelled.
- RecyclerList.InitialViewShowsAll: holds only when every record has a distance. The server sends `distance = ""` for a result whose lat or lng is missing or 0 (maps_services.py:57-60); `parseFloat("")` is NaN, the comparator then returns NaN, which the sort reads as 0, and the comparator is no longer consistent, so the order the program shows is implementation-defined. The same applies to the "distance" clause of `RecyclerList.Visible`. Client distances are integers, so the model cannot express a missing distance.
- `parseFloat` of distance and rating text on the client, and a rating of "N/A" there (NaN makes the comparator inconsistent). Client ratings and distances are integers.
- Unicode `toLowerCase`: only ASCII letters are folded.
- Geolocation success does not change the panel; the HTTP request itself is not modelled, and its outcomes are events. Events may arrive in any order, so overlapping lookups are covered.
- AnalysisReport.ShownOnlyAfterFetch: the `FetchSucceeded` event always carries a list. Every server failure comes back as a 500 reply `{"error": ...}` (server/app/routes/recycler_routes.py:20-21), and `fetch` does not reject it: the client then stores an undefined list and shows the panel (client/src/components/AnalysisResult.js:107-110), and once loading is cleared the panel's render throws on `undefined.filter` (AnalysisResult.js:326, EcoWasteRecyclers.js:15-16). The program therefore shows the panel on a backend failure; `ShownOnlyAfterFetch` holds only because such a reply is a `FetchSucceeded` event, and the model cannot express the undefined list.
- A missing geolocation capability only raises an alert; the panel state does not change, and the model has no error state for it.
- The analysis record always has every field in the model. In the source, a missing nested object (`device_info`, `eco_score`, `recommendations`, `toxic_components`, `disposal_guidelines`) throws. A missing leaf does not throw: a missing note renders as "undefined" in the suggestion line, and a missing score becomes NaN.
- RecyclerList.Filter: the client record has a string name and address. The server sends null for an absent name or vicinity. On a null name `toLowerCase` throws (EcoWasteRecyclers.js:18), and so it does on a null address when the name did not match (line 19). The model does not express these throws.
- MapsService.FindNearbyRecyclers: an explicit null `results` makes `None[:5]` raise (maps_services.py:43-45). The model treats it like a missing `results`, as an empty list.
- VisionService.Classify: every label has a description. A label without one makes the comprehension raise a KeyError (vision_service.py:47); that failure is not modelled.
- The base64 read of a local file in the Vision service is I/O; `Content` carries the path. A failed file read is not modelled.
- The upload component, hero, navbar, floating paper, the Flask routes, the Mongo model and the Gemini wrapper are UI or I/O glue and are not part of this model.
- RecyclerList.Sort: states a permutation and sortedness. It does not state that records with equal keys keep their input order, except when the comparator is always 0.
- Rendering and styling.

## Findings

| source | as written | input that shows it | evidently intended | confidence | as-written member | corrected member |
|---|---|---|---|---|---|---|
| client/src/components/EcoWasteRecyclers.js:11-12 | `sortBy` and `searchQuery` are state whose setters are never called, and no input or select is rendered (`Input` and `Select` are imported unused), so the filter and sort always run with "" and "distance" | any list of recyclers: whatever the user wants to search for or sort by, every record is shown, nearest first when every record has a distance | a search box setting the query and a selector setting the sort mode, so that the list is filtered and ordered as chosen | high (not executed) | RecyclerList.InitialViewShowsAll | RecyclerList.Visible |
