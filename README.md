# AirQualityApp in Dafny

A model of the logic inside AirQualityApp, a wxWidgets client of the Polish
air-quality API (GIOŚ). The model covers main.cpp and ChartFrame.cpp:

- `fetch_data`, which classifies what one GET returned;
- the `MainFrame` window:
  - loading the station list;
  - the name/province filter;
  - the selection and station lookup at the start of every button handler;
  - the two worker threads that build the sensor report (current and historical);
  - `OnShowChart`, which reads sensors back from `sensors.json` or falls back to the API and rewrites the file;
- `ChartFrame::FetchAndPlotData`:
  - extracts the points of each sensor;
  - keeps the running y range;
  - adds a layer and a legend entry per plotted sensor;
  - fits the axes.

The project has one module per concern:

- `Text` stands in for the wxString and std::string operations used: prefix,
  substring, `AfterFirst`, comma removal, `std::to_string`, `wxAtoi`.
- `JsonTree` is the nlohmann::json tree and the accessors the program calls.
  Each accessor either throws or returns, and a throw is a `Result` error.
- `Fetch` is fetch_data's chain of checks.
- `Stations` covers the records, the list entries, the filter, the lookup and
  the two sensor-list decode policies.
- `Snapshot` holds the `sensors.json` encoders and the read-back.
- `Report` holds the worker threads' bodies.
- `Chart` is the `ChartFrame` class.
- `MainWindow` is the `MainFrame` class.

The code's own form carries over. The windows are classes whose fields the
handlers update, and every loop of the modelled code (the station and
sensor-list decodes, the filter, the lookups, the encoders, the read-back,
the report and the chart scans) is a `while`/`for` loop proved against a
specification function. Properties that relate several calls are
lemmas about those functions.

Parameters stand in for the pieces of the outside world:

- the network and file reads, as the strings they yield;
- whether a save succeeded;
- `json::parse`, as `string -> ParseResult`;
- wxDateTime parsing and the current time;
- `Lower`;
- the `%.2f` rendering;
- the random colour generator.

The conversions between wxString and std::string (`ToStdString`,
`wxString::FromUTF8`, `c_str()`) are taken as the identity; "## Left out"
says what that assumes.

The chart's x coordinate is modelled exactly as written: `GetHours()` plus
`GetMinutes()/60.0`, where both accessors return whole-span totals. The
lemmas `Chart.WholeHoursPlotTwice` and `Chart.OldReadingsLeaveTheAxis` state
what follows from this. A reading h hours old is plotted at 2h. Readings
older than about 36 hours therefore fall outside the fixed [0, 72] x range.

## Model

| member | source | states |
|---|---|---|
| Text.AfterFirst | main.cpp:320 | what follows the first ':' of the string, or "" when there is none |
| Text.Without | main.cpp:570 | removing every ',' leaves no ',' and keeps every other character |
| Text.WithoutAppend | main.cpp:570 | removal works piece by piece, so the kept characters stay in their order |
| Text.MapChars | main.cpp:569 | `Lower` maps each character in place, keeping the length |
| Text.DecimalRoundTrip | main.cpp:298 | `wxAtoi` reads back the station id that `std::to_string` wrote into the client data |
| JsonTree.DecodeEach | main.cpp:174-183 | a decode loop keeps exactly the items before the first element that throws, and reports that element's error |
| JsonTree.DecodeEachDetermined | main.cpp:174-183 | any items/failure pair satisfying those four properties is the loop's result |
| JsonTree.Field | main.cpp:176 | const `operator[]` succeeds exactly on an object that has the key; on a non-object it is type_error 305 |
| JsonTree.FieldOfObject | main.cpp:176 | on an object, `operator[]` gives the value of the key's first member, and `MissingKey` when no member has the key |
| JsonTree.EmptyMeansNoElements | main.cpp:336 | `empty()` holds exactly when a range-for visits nothing |
| JsonTree.Truncate | main.cpp:176 | the conversion to int truncates toward zero |
| JsonTree.AsInt | main.cpp:176 | `get<int>` succeeds on numbers and booleans only; a number is truncated toward zero, a boolean gives 1 or 0 |
| JsonTree.AsReal | main.cpp:412 | `get<double>` succeeds on numbers only and returns the number; a boolean, like any other non-number, throws type_error 302 "type must be number" |
| JsonTree.AsString | main.cpp:177 | `get<std::string>` succeeds on strings only |
| JsonTree.AsIntOfInt | main.cpp:630 | an int written as a JSON number reads back as the same int |
| JsonTree.MarkedTextAdmitted | main.cpp:327 | a text that starts with a byte order mark followed by a value is among those `json::parse` may accept |
| JsonTree.PushBack | main.cpp:369 | `push_back` on null or an array appends exactly one element |
| Fetch.SaveFailureMessage | main.cpp:104-107 | the save-failure message carries neither the "ERROR:" nor the "Błąd" prefix |
| Fetch.Tagged | main.cpp:112-114 | a caught exception yields "ERROR:" plus what(), and `AfterFirst(':')` recovers what() exactly |
| Fetch.FetchData | main.cpp:67-115 | a resolve, connect, write or read failure gives "ERROR:" followed by its what() text; then the checks run in order: shutdown error, status other than 200 ("HTTP <code>"), empty body ("Pusta odpowiedź"), failed save; otherwise the body is returned |
| Fetch.NotConnectedIsClean | main.cpp:91-93 | a not_connected shutdown gives the same result as a clean one |
| Fetch.SentinelIsAmbiguous | main.cpp:94-113 | for every failed exchange, a successful reply whose body is the failure's text gives the same string (e.g. a 200 body "ERROR:HTTP 500" and a real 500) |
| Stations.EntryOf | main.cpp:180-182 | a list entry reads "name (province)" and carries the id as client data that reads back as the id |
| Stations.EntriesOf | main.cpp:173-183 | one entry per station, in order |
| Stations.DecodeStation | main.cpp:175-178 | an element decodes exactly when "id" converts to int, "stationName" is a string and city.commune.provinceName is a string, whatever other keys it has; the station then has that id, name and province and no sensors; a non-object element throws type_error 305 |
| Stations.DecodeApiStation | main.cpp:174-179 | an API station object decodes to exactly its id, name and province, with no sensors |
| Stations.Matching | main.cpp:573-584 | a station is listed if and only if it matches the filter |
| Stations.MatchingKeepsOrder | main.cpp:573-584 | filtering distributes over concatenation, so station order is preserved |
| Stations.BlankFilterKeepsAll | main.cpp:579 | a filter that is empty once commas are removed lists every station |
| Stations.FirstIndex | main.cpp:303-309 | the lookup finds the first station with the id, or runs past the end when there is none |
| Stations.DecodeSensor | main.cpp:344-347 | an entry decodes exactly when "Identyfikator stanowiska" is present and converts to int and "Wskaźnik" is present and a string, whatever other keys it has; the sensor then has that id and parameter name |
| Stations.StrictSensors | main.cpp:343-348 | the workers' decode succeeds if and only if every entry decodes; on failure it reports the first error |
| Stations.KeyedOnlyMembers | main.cpp:673-676 | `OnShowChart` keeps exactly the entries that have both keys |
| Stations.KeyedOnlyAppend | main.cpp:671-680 | skipping works piece by piece, so the kept entries stay in payload order |
| Stations.LenientIsStrictOnKeyed | main.cpp:671-680 | `OnShowChart`'s decode is the strict decode applied to the entries that have both keys |
| Stations.StrictSuccessIsLenientSuccess | main.cpp:671-680 | where the strict decode succeeds, the lenient one yields the same sensors |
| Stations.WorkerSensorList | main.cpp:327-349 | each outcome holds exactly when its case does: no envelope key; an empty list ("Brak czujników…"); a non-empty list whose strict decode succeeds (the non-empty decoded sensors); or one whose strict decode throws (that error) |
| Stations.ChartSensorList | main.cpp:659-685 | each outcome holds exactly when its case does: no envelope key; an empty list; a lenient decode that throws (that error); a decode that leaves nothing in the vector ("none remain", main.cpp:682); otherwise the leftover sensors followed by the lenient decode |
| Stations.DecodeSensorsStrict | main.cpp:343-348 | the workers' loop gives the strict decode's sensors, or stops with its first error |
| Stations.DecodeSensorsSkipping | main.cpp:671-680 | `OnShowChart`'s loop skips entries without both keys and gives the leftover followed by the lenient decode, or stops with its error |
| Stations.DecodeWorkerList | main.cpp:327-349 | the workers' decode block, run as a loop, gives `WorkerSensorList` |
| Stations.DecodeChartList | main.cpp:659-685 | `OnShowChart`'s decode block, run as a loop, gives `ChartSensorList` |
| Stations.UnkeyedEntryPolicies | main.cpp:343-348 | an entry lacking a key, after entries that decode, aborts the workers' decode with its error, while `OnShowChart`'s decode (main.cpp:671-680) behaves as if it were absent |
| Stations.CallSitesAgreeOnWellFormedLists | main.cpp:659-685 | on lists whose entries all have both keys, the two call sites give the same outcome |
| Stations.KeyedOnlyKeepsKeyed | main.cpp:673 | when every entry has both keys, none is skipped |
| Stations.MissingKeyPolicies | main.cpp:671-680 | a worked example of `UnkeyedEntryPolicies` on one two-entry payload: an entry without "Wskaźnik" aborts the workers' decode but is skipped by `OnShowChart` |
| Snapshot.EncodeSensors | main.cpp:361-367 | the encoding loop builds the array of sensor objects |
| Snapshot.EncodeSnapshot | main.cpp:691-705 | the encoding loop builds the snapshot of every station |
| Snapshot.ReadEntrySensors | main.cpp:631-637 | the sensors of an entry are all loaded, or only those before the first one that throws |
| Snapshot.ReadBackSensors | main.cpp:629-641 | the read-back loop with its `break` gives the first entry with the id, and stops at an entry whose id throws |
| Snapshot.StationEntryReadsBack | main.cpp:693-703 | an encoded entry reads back its id and exactly its sensors |
| Snapshot.EntryFields | main.cpp:694-703 | an encoded entry's "stationId" and "sensors" hold the id and the sensor array |
| Snapshot.SensorsReadBack | main.cpp:632-637 | encoded sensors decode back to the same sensors |
| Snapshot.SnapshotReadsBack | main.cpp:629-641 | reading id k from a snapshot gives the sensors of the first station with id k, or nothing |
| Snapshot.WithSensors | main.cpp:688 | giving a station new sensors changes no id |
| Snapshot.ShowChartRoundTrip | main.cpp:688-705 | after the first station with id k gets new sensors and every station is written, reading k back yields exactly those sensors |
| Snapshot.FirstIndexOnSameIds | main.cpp:604-605 | the lookup depends only on the ids |
| Snapshot.FetchSnapshotHoldsOneStation | main.cpp:357-372 | `OnFetchData`'s file holds only the selected station, so only its id reads back |
| Report.Valued | main.cpp:410-411 | the report keeps exactly the entries whose "Wartość" is present and not null |
| Report.ValuedAppend | main.cpp:410-417 | the kept entries stay in payload order |
| Report.AppendMeasurements | main.cpp:410-417 | the loop appends one line per kept entry until one throws, and reports that error |
| Report.ReportPayload | main.cpp:402-421 | a missing key gives "Brak klucza…"; an empty list gives "Brak danych pomiarowych."; otherwise the lines follow, then the parse error, if any |
| Report.ReportBody | main.cpp:383-426 | a sensor's text after its heading, covering the fetch-error, HTTP 400, invalid-reply and parse-error branches |
| Report.ReportSensors | main.cpp:379-427 | the report is the header followed by every sensor's heading and body, in order |
| Report.WorkerSensors | main.cpp:316-355 | each abort message with its condition: a tagged fetch error ("Błąd podczas pobierania czujników: " and the cause), a parse failure, a missing envelope key, an empty list ("Brak czujników dla tej stacji."), an entry that throws; the workers continue exactly when the strict decode of a non-empty list succeeds, with those sensors |
| Report.ReadWorkerSensors | main.cpp:316-355 | the sensor-list part of both threads, with its decode loop, gives `WorkerSensors` |
| Report.FetchWorker | main.cpp:315-432 | the thread's message, and a one-station sensors.json that is written only when the list decoded |
| Report.HistoricalWorker | main.cpp:465-560 | the historical thread's message |
| Report.ValuelessEntryIsSkipped | main.cpp:411 | a reading whose value is missing or null yields no line and stops nothing, wherever it stands in the list |
| Report.AnyDateIsReported | main.cpp:410-417 | when every reading with a value has a numeric value and string date and code, whatever the dates, each gets its "- code: value (data: date)" line in payload order and nothing throws: the report has no time window |
| Report.Http400IsNoData | main.cpp:384-388 | a 400 reply is reported as "Brak danych w API (HTTP 400)" |
| Report.SaveFailureReachesParser | main.cpp:383-402 | a failed save of data.json reaches the parser and is reported as a parse error |
| Report.FetchErrorIsReported | main.cpp:318-323 | a failed sensor-list fetch ends the thread with the cause, and nothing is saved |
| Report.FetchWorkerSnapshotReadsBack | main.cpp:357-372 | reading back the file `OnFetchData` saved gives the decoded sensors for the station's id, and nothing for any other id |
| Chart.HoursBack | ChartFrame.cpp:129-130 | an x coordinate is never negative |
| Chart.PointOf | ChartFrame.cpp:118-134 | a reading is plotted exactly when it has a value, its date parses and lies in [now − 3 days, now], and the value converts; the point is then (x of now − date, value) with x in [0, 144]; a reading without a value is skipped; an exception happens exactly when the date is missing or not a string, or the in-window value does not convert |
| Chart.Present | ChartFrame.cpp:118-134 | exactly the emitted points are plotted |
| Chart.ChartFrame.constructor | ChartFrame.cpp:34-74 | the title is "Wykres danych dla " plus the station name; the plot, legend and view are those of `PlotAll`; the legend is consistent |
| Chart.ChartFrame.ScanMeasurements | ChartFrame.cpp:115-140 | the loop's points, completion flag and running min/max are those of the decode loop over the readings |
| Chart.ChartFrame.ReadSensorData | ChartFrame.cpp:102-140 | an error fetch, an unparsable reply or a missing list reads nothing; otherwise the scan result |
| Chart.ChartFrame.PlotSensor | ChartFrame.cpp:99-162 | one sensor's turn is `Step`: the y range widens; a layer, label and colour are added only after a complete read with points |
| Chart.ChartFrame.FetchAndPlotData | ChartFrame.cpp:76-196 | the colours, labels and series are those of `PlotAll`, followed by the two axes; the view is `FitView` of the final range; labels and colours have equal length |
| Chart.HoursBackWithinWindow | ChartFrame.cpp:125-131 | a reading within [now − 3 days, now] gets an x in [0, 144] |
| Chart.WholeHoursPlotTwice | ChartFrame.cpp:129-130 | a reading exactly h hours old is plotted at x = 2h |
| Chart.OldReadingsLeaveTheAxis | ChartFrame.cpp:129-131 | readings older than 36 hours and 1 minute get an x beyond 72 |
| Chart.FoldMinBounds | ChartFrame.cpp:137 | the running minimum is at most every value and the start, and is one of them |
| Chart.FoldMaxBounds | ChartFrame.cpp:138 | the running maximum is at least every value and the start, and is one of them |
| Chart.FitCoversValues | ChartFrame.cpp:180-192 | x is fixed at [0, 72]; the y range contains 0 and every value read; with no data it is [0, 72] |
| Chart.FoldMinAppend | ChartFrame.cpp:96-138 | folding runs on across sensors |
| Chart.PlotAllRange | ChartFrame.cpp:96-162 | the final yMin and yMax are the minimum and maximum of every value read from every sensor |
| Chart.ChartCoversEveryValue | ChartFrame.cpp:96-194 | the fitted y range covers 0 and every value read |
| Chart.PlotAllConsistent | ChartFrame.cpp:142-158 | labels, colours and series have equal length; layer i has colour i, and equally many x and y values (at least one) |
| Chart.ThrowingSensorOnlyWidens | ChartFrame.cpp:137-160 | a sensor whose list throws part-way gets no layer or legend entry, but its earlier values widen the range |
| Chart.ScanSnoc | ChartFrame.cpp:131-138 | each emitted point appends its x and y and updates the running min and max |
| MainWindow.EntriesAreListed | main.cpp:180-182 | every entry built from the stations shows one of them |
| MainWindow.Selected | main.cpp:298-313 | a selection leads to a valid station index, or to none |
| MainWindow.FallbackSpec | main.cpp:650-712 | the API path either writes a file, gives the chosen station the chart's sensors and opens the chart, or changes no station |
| MainWindow.MainFrame.constructor | main.cpp:120-158 | the window starts with the loading text, then loads the stations |
| MainWindow.MainFrame.LoadStations | main.cpp:161-189 | the stations, list and message after loading, as `LoadStationsSpec` defines them; every entry shows a station |
| MainWindow.MainFrame.ReadStations | main.cpp:172-183 | both vectors are rebuilt from the elements decoded before the first failure |
| MainWindow.MainFrame.OnFilterText | main.cpp:568-585 | the list shows exactly the matching stations, in order; the stations are unchanged |
| MainWindow.MainFrame.FindStation | main.cpp:301-309 | the index of the first station with the id |
| MainWindow.MainFrame.SelectStation | main.cpp:286-313 | the selected station, or the "select a station" or "not found" message |
| MainWindow.MainFrame.OnFetchData | main.cpp:285-433 | the message and the saved file are the worker's, run on the selected station |
| MainWindow.MainFrame.OnFetchHistoricalData | main.cpp:435-561 | the message is the historical worker's, run on the selected station |
| MainWindow.MainFrame.ReadSavedSensors | main.cpp:624-647 | a missing, empty or unparsable file loads nothing; otherwise the read-back result |
| MainWindow.MainFrame.ChartFallback | main.cpp:650-712 | the API path's message, chart and written file, as `FallbackSpec` defines them; the list entries stay valid |
| MainWindow.MainFrame.OnShowChart | main.cpp:587-718 | the stations, message, opened chart and written file, as `ShowChartSpec` defines them; the list is unchanged and stays valid |
| MainWindow.MatchingIsListed | main.cpp:573-584 | every filtered entry shows a station |
| MainWindow.SameNamesStayListed | main.cpp:688 | giving stations new sensors keeps every list entry valid |
| MainWindow.ListedStationIsFound | main.cpp:604-609 | a station the list shows is always found |
| MainWindow.FetchErrorBecomesParseError | main.cpp:163-188 | a failed fetch passes the "Błąd" check, fails to parse, and shows a JSON parse error; the stations and list are unchanged |
| MainWindow.WellFormedListLoads | main.cpp:170-184 | a well-formed station array loads every station in order, one entry each, followed by the prompt |
| MainWindow.ApiStationsDecode | main.cpp:174-183 | a well-formed station array decodes completely |
| MainWindow.ShownSensorsAreSaved | main.cpp:624-705 | after `OnShowChart` writes sensors.json, reading the same station back loads exactly the sensors it charted |

## Left out

- Network I/O in fetch_data (resolve, connect, read, the 30-second timeout) is left out. An exchange is either a transport error with its text, or a reply carrying its shutdown result, status and body.
- File I/O (`SaveToFile`, `ReadFromFile`, directory creation, `std::filesystem::exists`) is reduced to parameters: a boolean for success or existence, and the optional file contents.
- The worker threads, `wxQueueEvent` and `OnThreadUpdate` are left out. Each thread runs to the end in sequence and its message is assigned at once.
- JSON text syntax is not modelled: neither `json::parse` nor `dump(4)`. The parser is a parameter. Where a property needs it, the parser is required to reject text that, past one optional byte order mark (which nlohmann's lexer skips), cannot start a JSON value (`ConformingParser`).
- Object members are taken in the order given. nlohmann sorts them by key, which only affects the order of keys in written files.
- The fetch targets of the per-sensor requests are abstracted as `dataFor(id)`, the string fetch_data returned for that sensor.
- wxDateTime parsing, `Now()` and `wxTimeSpan` are integers in milliseconds plus a parameter `parseDate`.
- `wxString::Lower` and `%.2f` are parameters.
- FetchData: returns the body itself. The source returns `wxString::FromUTF8(data.c_str())`, which is the body only when it is valid UTF-8 without a NUL character (an invalid body becomes "", a NUL cuts it short); the model assumes such bodies.
- The other wxString/std::string conversions (`ToStdString`, `get<std::string>` followed by `FromUTF8`) are taken as the identity, which assumes the names and texts involved are valid UTF-8; `Snapshot.ShowChartRoundTrip` and `MainWindow.ShownSensorsAreSaved` rest on it.
- IEEE doubles are reals, so overflow and rounding in the 10% margin are not modelled.
- Widgets and drawing are left out: layout, `LegendPanel::OnPaint`, mpWindow rendering, `EnableMousePanZoom`, tick formats.
- wxLogError and wxLogMessage calls are left out.
- The random colours are a parameter `colourFor`.
- `LoadSensors` (main.cpp:191-283) is not modelled because nothing calls it.
- The `dynamic_cast` null check on the client data is not modelled, because every entry is appended with string client data.
- `OnShowChart` ignores the result of `SaveToFile`, so the model records the tree it writes and nothing more.
- int width is not modelled: ids and `get<int>` results are unbounded integers, and a number outside the int range does not wrap.
- A missing key under const `operator[]` is undefined behaviour in nlohmann. The model treats it as an exception (`MissingKey`), which the surrounding catch would report.
