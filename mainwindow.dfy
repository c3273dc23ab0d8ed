/**
 * MainFrame (main.cpp): the station list window. It holds the stations
 * read from the API, the entries of the list box (each carries its
 * station's id as text client data) and the text shown in the message box.
 * The button handlers take the list box's selection (-1 for none); their
 * worker threads run to completion inside the call, and what the thread
 * posts back becomes the message.
 */
module MainWindow {
  import opened Text
  import opened JsonTree
  import opened Stations
  import opened Snapshot
  import opened Report
  import Fetch

  /** wxNOT_FOUND */
  const NotFound := -1

  const Loading := "Ładowanie danych..."
  const Prompt := "Wybierz stację z listy i kliknij 'Pobierz dane stacji'."
  const PleaseSelect := "Proszę wybrać stację z listy."
  const StationMissing := "Błąd: Nie znaleziono wybranej stacji."
  const NoSavedData := "Błąd: Brak zapisanych danych. Najpierw pobierz dane stacji."

  /** Every list entry shows a station of the vector, with that station's id as client data. */
  ghost predicate Listed(list: seq<ListEntry>, stations: seq<Station>) {
    forall e :: e in list ==> exists j :: 0 <= j < |stations| && e == EntryOf(stations[j])
  }

  lemma EntriesAreListed(stations: seq<Station>)
    ensures Listed(EntriesOf(stations), stations)
  {
    forall e | e in EntriesOf(stations)
      ensures exists j :: 0 <= j < |stations| && e == EntryOf(stations[j])
    {
      var i :| 0 <= i < |EntriesOf(stations)| && EntriesOf(stations)[i] == e;
    }
  }

  // ---------------------------------------------------------------------------
  // Specifications of the handlers

  datatype Screen = Screen(stations: seq<Station>, list: seq<ListEntry>, message: string)

  /** LoadStations: stations and list are rebuilt from the parsed array; an exception leaves the ones read before it. */
  function LoadStationsSpec(data: string, parse: string -> ParseResult, before: Screen): Screen {
    if StartsWith(data, Fetch.FailurePrefix) then before.(message := data)
    else match parse(data)
      case ParseFailed(what) => before.(message := JsonErrorMessage(what))
      case Parsed(j) =>
        var d := DecodeEach(Elements(j), DecodeStation);
        Screen(d.items, EntriesOf(d.items), if d.failure.None? then Prompt else JsonErrorMessage(What(d.failure.value)))
  }

  /** The station list's parse error, as LoadStations shows it. */
  function JsonErrorMessage(what: string): string {
    "Błąd parsowania JSON: " + what
  }

  /** The station a selection leads to: the first one whose id is the entry's client data read as a number. */
  function Selected(stations: seq<Station>, list: seq<ListEntry>, selection: int): (k: Option<nat>)
    requires selection == NotFound || 0 <= selection < |list|
    ensures k.Some? ==> k.value < |stations|
  {
    if selection == NotFound then None
    else
      var i := FirstIndex(stations, Atoi(list[selection].clientData));
      if i < |stations| then Some(i) else None
  }

  function SelectionMessage(selection: int): string {
    if selection == NotFound then PleaseSelect else StationMissing
  }

  /** Where OnShowChart's read-back of sensors.json ends: the file may be absent, empty or unparsable. */
  function SavedSensors(sensorsFile: Option<string>, parse: string -> ParseResult, id: int): ReadBack {
    match sensorsFile
    case None => NotLoaded([])
    case Some(content) =>
      if content == [] then NotLoaded([])
      else match parse(content)
        case ParseFailed(_) => NotLoaded([])
        case Parsed(tree) => ReadBackSpec(Elements(tree), id)
  }

  /** What OnShowChart leaves: the stations, the message, the chart it opens (station and sensors) and the sensors.json tree it writes. */
  datatype ShowChart = ShowChart(stations: seq<Station>, message: string, chart: Option<(Station, seq<Sensor>)>, written: Option<Json>)

  /** OnShowChart's API path, taken when the read-back did not load; `leftover` is what the read-back pushed. */
  function FallbackSpec(stations: seq<Station>, k: nat, leftover: seq<Sensor>, sensorsText: string,
                        parse: string -> ParseResult, message: string): (r: ShowChart)
    requires k < |stations|
    ensures r.written.Some? ==> r.chart.Some? && r.stations == WithSensors(stations, k, r.chart.value.1)
    ensures r.written.None? ==> r.chart.None? && r.stations == stations
  {
    var name := stations[k].name;
    if StartsWith(sensorsText, Fetch.ErrorTag) then
      ShowChart(stations, "Błąd podczas pobierania czujników dla stacji " + name + ": " + AfterFirst(sensorsText, ':'), None, None)
    else match parse(sensorsText)
      case ParseFailed(what) => ShowChart(stations, "Błąd parsowania danych czujników dla stacji " + name + ": " + what, None, None)
      case Parsed(j) =>
        var list := ChartSensorList(j, leftover);
        if list.SensorsDecoded? then
          var updated := WithSensors(stations, k, list.sensors);
          ShowChart(updated, message, Some((updated[k], list.sensors)), Some(SnapshotJson(updated)))
        else ShowChart(stations, SensorListMessage(name, list), None, None)
  }

  /** What OnShowChart shows when the freshly fetched sensor list yields no sensors. */
  function SensorListMessage(name: string, list: SensorList): string
    requires !list.SensorsDecoded?
  {
    match list
    case NoEnvelope => "Błąd: Nieprawidłowy format odpowiedzi API dla czujników stacji " + name + "."
    case NoSensors => "Brak czujników dla stacji " + name + "."
    case NoValidSensors => "Nie znaleziono żadnych prawidłowych czujników dla stacji " + name + "."
    case SensorsFailed(e) => "Błąd parsowania danych czujników dla stacji " + name + ": " + What(e)
  }

  function ShowChartSpec(stations: seq<Station>, list: seq<ListEntry>, message: string, selection: int,
                         dataFileExists: bool, sensorsFile: Option<string>, sensorsText: string,
                         parse: string -> ParseResult): ShowChart
    requires selection == NotFound || 0 <= selection < |list|
  {
    match Selected(stations, list, selection)
    case None => ShowChart(stations, SelectionMessage(selection), None, None)
    case Some(k) =>
      if !dataFileExists then ShowChart(stations, NoSavedData, None, None)
      else match SavedSensors(sensorsFile, parse, Atoi(list[selection].clientData))
        case Loaded(sensors) => ShowChart(stations, message, Some((stations[k], sensors)), None)
        case NotLoaded(leftover) => FallbackSpec(stations, k, leftover, sensorsText, parse, message)
  }

  // ---------------------------------------------------------------------------
  // The window

  class MainFrame {
    var stations: seq<Station>
    /** The list box: the entries in display order. */
    var list: seq<ListEntry>
    /** The read-only text control. */
    var message: string

    ghost predicate Valid()
      reads this
    {
      Listed(list, stations)
    }

    /** The window starts empty, showing "loading", and loads the stations at once. */
    constructor (data: string, parse: string -> ParseResult)
      ensures var after := LoadStationsSpec(data, parse, Screen([], [], Loading));
              stations == after.stations && list == after.list && message == after.message
      ensures Valid()
    {
      stations := [];
      list := [];
      message := Loading;
      new;
      LoadStations(data, parse);
    }

    /** MainFrame::LoadStations (main.cpp:161-189). `data` is fetch_data's result for the station list. */
    method LoadStations(data: string, parse: string -> ParseResult)
      requires Valid()
      modifies this
      ensures var after := LoadStationsSpec(data, parse, Screen(old(stations), old(list), old(message)));
              stations == after.stations && list == after.list && message == after.message
      ensures Valid()
    {
      if StartsWith(data, Fetch.FailurePrefix) {
        message := data;
        return;
      }
      match parse(data) {
        case ParseFailed(what) =>
          message := JsonErrorMessage(what);
        case Parsed(j) =>
          var failure := ReadStations(Elements(j));
          if failure.Some? {
            message := JsonErrorMessage(What(failure.value));
          } else {
            message := Prompt;
          }
      }
    }

    /** The loop of LoadStations (main.cpp:172-182): both vectors are cleared, then filled one station at a time. */
    method ReadStations(xs: seq<Json>) returns (failure: Option<JsonError>)
      modifies this
      ensures var d := DecodeEach(xs, DecodeStation);
              stations == d.items && list == EntriesOf(d.items) && failure == d.failure
      ensures message == old(message)
      ensures Valid()
    {
      stations := [];
      list := [];
      for i := 0 to |xs|
        invariant |stations| == i && DecodedAs(xs, stations)
        invariant list == EntriesOf(stations)
        invariant message == old(message)
      {
        var s := DecodeStation(xs[i]);
        if s.Err? {
          StationsStop(xs, stations, s.error);
          return Some(s.error);
        }
        DecodedGrow(xs, stations, s.value);
        EntriesSnoc(stations, s.value);
        stations := stations + [s.value];
        list := list + [EntryOf(s.value)];
      }
      StationsEnd(xs, stations);
      return None;
    }

    /** MainFrame::OnFilterText (main.cpp:568-585): the list shows exactly the matching stations, in order. */
    method OnFilterText(filter: string, lower: char -> char)
      modifies this
      ensures list == EntriesOf(Matching(stations, filter, lower))
      ensures stations == old(stations) && message == old(message)
      ensures Valid()
    {
      list := [];
      for i := 0 to |stations|
        invariant stations == old(stations) && message == old(message)
        invariant list == EntriesOf(Matching(stations[..i], filter, lower))
      {
        MatchingStep(stations, i, filter, lower);
        if Matches(stations[i], filter, lower) {
          EntriesSnoc(Matching(stations[..i], filter, lower), stations[i]);
          list := list + [EntryOf(stations[i])];
        }
      }
      assert stations[..|stations|] == stations;
      MatchingIsListed(stations, filter, lower);
    }

    /** The search for the selected station's id, first match wins (main.cpp:301-309, 451-459, 604-605). */
    method FindStation(id: int) returns (i: nat)
      ensures i == FirstIndex(stations, id)
    {
      i := 0;
      while i < |stations| && stations[i].id != id
        invariant i <= |stations|
        invariant forall j :: 0 <= j < i ==> stations[j].id != id
      {
        i := i + 1;
      }
    }

    /** The opening of every button handler: the selection check and the station lookup (main.cpp:286-313, 436-463, 588-609). */
    method SelectStation(selection: int) returns (k: Option<nat>)
      requires selection == NotFound || 0 <= selection < |list|
      modifies this
      ensures stations == old(stations) && list == old(list)
      ensures k == Selected(stations, list, selection)
      ensures message == if k.None? then SelectionMessage(selection) else old(message)
    {
      if selection == NotFound {
        message := PleaseSelect;
        return None;
      }
      var stationId := Atoi(list[selection].clientData);
      var i := FindStation(stationId);
      if i == |stations| {
        message := StationMissing;
        return None;
      }
      return Some(i);
    }

    /** MainFrame::OnFetchData (main.cpp:285-433), with its thread run to the end; returns what the thread saved to sensors.json. */
    method OnFetchData(selection: int, sensorsText: string, parse: string -> ParseResult, saveOk: bool,
                       dataFor: int -> string, format: real -> string)
        returns (saved: Option<Json>)
      requires selection == NotFound || 0 <= selection < |list|
      modifies this
      ensures stations == old(stations) && list == old(list)
      ensures match Selected(stations, list, selection)
              case None => message == SelectionMessage(selection) && saved == None
              case Some(k) =>
                var r := FetchWorkerSpec(stations[k], sensorsText, parse, saveOk, dataFor, format);
                message == r.message && saved == r.saved
    {
      var k := SelectStation(selection);
      if k.None? {
        return None;
      }
      var result := FetchWorker(stations[k.value], sensorsText, parse, saveOk, dataFor, format);
      message := result.message;
      saved := result.saved;
    }

    /** MainFrame::OnFetchHistoricalData (main.cpp:435-561), with its thread run to the end. */
    method OnFetchHistoricalData(selection: int, sensorsText: string, parse: string -> ParseResult,
                                 dataFor: int -> string, format: real -> string)
      requires selection == NotFound || 0 <= selection < |list|
      modifies this
      ensures stations == old(stations) && list == old(list)
      ensures match Selected(stations, list, selection)
              case None => message == SelectionMessage(selection)
              case Some(k) => message == HistoricalWorkerSpec(stations[k], sensorsText, parse, dataFor, format)
    {
      var k := SelectStation(selection);
      if k.None? {
        return;
      }
      message := HistoricalWorker(stations[k.value], sensorsText, parse, dataFor, format);
    }

    /** The read-back of sensors.json (main.cpp:616-647). */
    static method ReadSavedSensors(sensorsFile: Option<string>, parse: string -> ParseResult, id: int) returns (r: ReadBack)
      ensures r == SavedSensors(sensorsFile, parse, id)
    {
      if sensorsFile.None? || sensorsFile.value == [] {
        return NotLoaded([]);
      }
      match parse(sensorsFile.value) {
        case ParseFailed(_) =>
          return NotLoaded([]);
        case Parsed(tree) =>
          r := ReadBackSensors(tree, id);
      }
    }

    /** OnShowChart's API path (main.cpp:650-712). */
    method ChartFallback(k: nat, leftover: seq<Sensor>, sensorsText: string, parse: string -> ParseResult)
        returns (chart: Option<(Station, seq<Sensor>)>, written: Option<Json>)
      requires k < |stations|
      requires Valid()
      modifies this
      ensures var r := FallbackSpec(old(stations), k, leftover, sensorsText, parse, old(message));
              stations == r.stations && message == r.message && chart == r.chart && written == r.written
      ensures list == old(list)
      ensures Valid()
    {
      var name := stations[k].name;
      chart, written := None, None;
      if StartsWith(sensorsText, Fetch.ErrorTag) {
        message := "Błąd podczas pobierania czujników dla stacji " + name + ": " + AfterFirst(sensorsText, ':');
        return;
      }
      match parse(sensorsText) {
        case ParseFailed(what) =>
          message := "Błąd parsowania danych czujników dla stacji " + name + ": " + what;
        case Parsed(j) =>
          var decoded := DecodeChartList(j, leftover);
          if !decoded.SensorsDecoded? {
            message := SensorListMessage(name, decoded);
          } else {
            var sensors := decoded.sensors;
            ghost var before := stations;
            stations := stations[k := stations[k].(sensors := sensors)];
            SameNamesStayListed(list, before, stations);
            var file := EncodeSnapshot(stations);
            chart, written := Some((stations[k], sensors)), Some(file);
          }
      }
    }

    /**
     * MainFrame::OnShowChart (main.cpp:587-718). `dataFileExists` is whether
     * data.json exists, `sensorsFile` the content of sensors.json if it
     * exists, `sensorsText` what the sensor list fetch would return. Returns
     * the chart it opens and the tree it writes to sensors.json.
     */
    method OnShowChart(selection: int, dataFileExists: bool, sensorsFile: Option<string>, sensorsText: string,
                       parse: string -> ParseResult)
        returns (chart: Option<(Station, seq<Sensor>)>, written: Option<Json>)
      requires selection == NotFound || 0 <= selection < |list|
      requires Valid()
      modifies this
      ensures var r := ShowChartSpec(old(stations), old(list), old(message), selection, dataFileExists, sensorsFile, sensorsText, parse);
              stations == r.stations && message == r.message && chart == r.chart && written == r.written
      ensures list == old(list)
      ensures Valid()
    {
      chart, written := None, None;
      var k := SelectStation(selection);
      if k.None? {
        return;
      }
      if !dataFileExists {
        message := NoSavedData;
        return;
      }
      var stationId := Atoi(list[selection].clientData);
      var readBack := ReadSavedSensors(sensorsFile, parse, stationId);
      if readBack.Loaded? {
        return Some((stations[k.value], readBack.sensors)), None;
      }
      chart, written := ChartFallback(k.value, readBack.leftover, sensorsText, parse);
    }
  }

  lemma MatchingStep(stations: seq<Station>, i: nat, filter: string, lower: char -> char)
    requires i < |stations|
    ensures Matching(stations[..i + 1], filter, lower)
         == Matching(stations[..i], filter, lower) + if Matches(stations[i], filter, lower) then [stations[i]] else []
  {
    assert stations[..i + 1] == stations[..i] + [stations[i]];
    MatchingKeepsOrder(stations[..i], [stations[i]], filter, lower);
    assert [stations[i]][1..] == [];
  }

  lemma EntriesSnoc(stations: seq<Station>, s: Station)
    ensures EntriesOf(stations + [s]) == EntriesOf(stations) + [EntryOf(s)]
  {
  }

  lemma MatchingIsListed(stations: seq<Station>, filter: string, lower: char -> char)
    ensures Listed(EntriesOf(Matching(stations, filter, lower)), stations)
  {
    var m := Matching(stations, filter, lower);
    forall e | e in EntriesOf(m)
      ensures exists j :: 0 <= j < |stations| && e == EntryOf(stations[j])
    {
      var i :| 0 <= i < |m| && e == EntriesOf(m)[i];
      assert m[i] in stations;
      var j :| 0 <= j < |stations| && stations[j] == m[i];
    }
  }

  /** The stations read so far are the decoded first elements. */
  ghost predicate DecodedAs(xs: seq<Json>, stations: seq<Station>) {
    |stations| <= |xs| && forall t :: 0 <= t < |stations| ==> DecodeStation(xs[t]) == Ok(stations[t])
  }

  lemma DecodedGrow(xs: seq<Json>, stations: seq<Station>, s: Station)
    requires DecodedAs(xs, stations) && |stations| < |xs| && DecodeStation(xs[|stations|]) == Ok(s)
    ensures DecodedAs(xs, stations + [s])
  {
  }

  lemma StationsStop(xs: seq<Json>, stations: seq<Station>, e: JsonError)
    requires DecodedAs(xs, stations) && |stations| < |xs| && DecodeStation(xs[|stations|]) == Err(e)
    ensures DecodeEach(xs, DecodeStation) == Decoded(stations, Some(e))
    ensures Listed(EntriesOf(stations), stations)
  {
    DecodeEachDetermined(xs, DecodeStation, stations, Some(e));
    EntriesAreListed(stations);
  }

  lemma StationsEnd(xs: seq<Json>, stations: seq<Station>)
    requires DecodedAs(xs, stations) && |stations| == |xs|
    ensures DecodeEach(xs, DecodeStation) == Decoded(stations, None)
    ensures Listed(EntriesOf(stations), stations)
  {
    DecodeEachDetermined(xs, DecodeStation, stations, None);
    EntriesAreListed(stations);
  }

  /** Giving a station other sensors changes no list entry. */
  lemma SameNamesStayListed(list: seq<ListEntry>, before: seq<Station>, after: seq<Station>)
    requires Listed(list, before)
    requires |before| == |after| && forall i :: 0 <= i < |before| ==> after[i] == before[i].(sensors := after[i].sensors)
    ensures Listed(list, after)
  {
    forall e | e in list
      ensures exists j :: 0 <= j < |after| && e == EntryOf(after[j])
    {
      var i :| 0 <= i < |before| && e == EntryOf(before[i]);
      assert EntryOf(after[i]) == EntryOf(before[i]);
    }
  }

  // ---------------------------------------------------------------------------
  // Properties

  /** A station the list shows is always found: the "not found" message needs a selection the list never offers. */
  lemma ListedStationIsFound(stations: seq<Station>, list: seq<ListEntry>, selection: int)
    requires Listed(list, stations)
    requires 0 <= selection < |list|
    ensures Selected(stations, list, selection).Some?
  {
    var e := list[selection];
    assert e in list;
    var j :| 0 <= j < |stations| && e == EntryOf(stations[j]);
    assert Atoi(e.clientData) == stations[j].id;
  }

  /**
   * LoadStations tests for "Błąd" but fetch_data tags its errors "ERROR:",
   * so a failed fetch reaches the parser, which rejects it: the message is a
   * JSON parse error and the stations and the list stay as they were.
   */
  lemma FetchErrorBecomesParseError(cause: string, parse: string -> ParseResult, before: Screen)
    requires ConformingParser(parse)
    ensures var data := Fetch.Tagged(cause);
            parse(data).ParseFailed? &&
            LoadStationsSpec(data, parse, before) == before.(message := "Błąd parsowania JSON: " + parse(data).what)
  {
    var data := Fetch.Tagged(cause);
    assert data[0] == 'E';
    assert !MayBeJsonText(data);
  }

  /** The tree the station list API sends for `stations`: one object per station. */
  function ApiStations(stations: seq<Station>): (r: seq<Json>)
    ensures |r| == |stations|
    ensures forall i :: 0 <= i < |stations| ==> r[i] == ApiStationJson(stations[i].id, stations[i].name, stations[i].province)
  {
    seq(|stations|, i requires 0 <= i < |stations| => ApiStationJson(stations[i].id, stations[i].name, stations[i].province))
  }

  /** A well-formed station list loads completely: every station, in order, one list entry each, and the prompt. */
  lemma WellFormedListLoads(data: string, parse: string -> ParseResult, stations: seq<Station>, before: Screen)
    requires !StartsWith(data, Fetch.FailurePrefix)
    requires parse(data) == Parsed(JArray(ApiStations(stations)))
    requires forall i :: 0 <= i < |stations| ==> stations[i].sensors == []
    ensures LoadStationsSpec(data, parse, before) == Screen(stations, EntriesOf(stations), Prompt)
  {
    ApiStationsDecode(stations);
  }

  lemma ApiStationsDecode(stations: seq<Station>)
    requires forall i :: 0 <= i < |stations| ==> stations[i].sensors == []
    ensures DecodeEach(Elements(JArray(ApiStations(stations))), DecodeStation) == Decoded(stations, None)
  {
    var xs := ApiStations(stations);
    assert Elements(JArray(xs)) == xs;
    forall i | 0 <= i < |xs|
      ensures DecodeStation(xs[i]) == Ok(stations[i])
    {
      DecodeApiStation(stations[i].id, stations[i].name, stations[i].province);
    }
    DecodeEachDetermined(xs, DecodeStation, stations, None);
  }

  /** After OnShowChart writes sensors.json, the next OnShowChart for the same station loads its sensors from the file. */
  lemma ShownSensorsAreSaved(stations: seq<Station>, list: seq<ListEntry>, message: string, selection: int,
                             sensorsFile: Option<string>, sensorsText: string, parse: string -> ParseResult)
    requires 0 <= selection < |list|
    requires ShowChartSpec(stations, list, message, selection, true, sensorsFile, sensorsText, parse).written.Some?
    ensures var r := ShowChartSpec(stations, list, message, selection, true, sensorsFile, sensorsText, parse);
            ReadBackSpec(Elements(r.written.value), Atoi(list[selection].clientData)) == Loaded(r.chart.value.1)
  {
    var id := Atoi(list[selection].clientData);
    var k := Selected(stations, list, selection).value;
    var rb := SavedSensors(sensorsFile, parse, id);
    assert rb.NotLoaded?;
    var fallback := FallbackSpec(stations, k, rb.leftover, sensorsText, parse, message);
    assert fallback.written.Some?;
    match parse(sensorsText) {
      case Parsed(j) =>
        var sensors := ChartSensorList(j, rb.leftover).sensors;
        assert FirstIndex(stations, id) == k;
        ShowChartRoundTrip(stations, id, sensors);
      case ParseFailed(_) =>
    }
  }
}
