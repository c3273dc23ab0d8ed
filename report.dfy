/**
 * The bodies of the two worker threads MainFrame starts (main.cpp):
 * OnFetchData's (current readings, with the sensors.json snapshot) and
 * OnFetchHistoricalData's (archived readings). Each is one sequential
 * computation of the message the thread posts back. The fetch results are
 * inputs: the sensor list's text, and a function from sensor id to the
 * text fetched for that sensor. `format` stands for the "%.2f" rendering
 * of a value.
 */
module Report {
  import opened Text
  import opened JsonTree
  import opened Stations
  import opened Snapshot
  import Fetch

  const ValueKey := "Wartość"
  const DateKey := "Data"
  const CodeKey := "Kod stanowiska"
  const CurrentListKey := "Lista danych pomiarowych"
  const ArchiveListKey := "Lista archiwalnych wyników pomiarów"

  /** measurement.contains("Wartość") && !measurement["Wartość"].is_null() */
  predicate HasValue(m: Json) {
    HasKey(m, ValueKey) && !Field(m, ValueKey).value.JNull?
  }

  /** The entries the report looks at, in payload order. */
  function Valued(ms: seq<Json>): (r: seq<Json>)
    ensures forall m :: m in r <==> m in ms && HasValue(m)
  {
    if ms == [] then []
    else
      assert forall m :: m in ms ==> m == ms[0] || m in ms[1..];
      (if HasValue(ms[0]) then [ms[0]] else []) + Valued(ms[1..])
  }

  lemma {:induction false} ValuedAppend(a: seq<Json>, b: seq<Json>)
    ensures Valued(a + b) == Valued(a) + Valued(b)
  {
    if a == [] {
      assert a + b == b;
    } else {
      var head := if HasValue(a[0]) then [a[0]] else [];
      assert (a + b)[0] == a[0] && (a + b)[1..] == a[1..] + b;
      assert Valued(a + b) == head + Valued(a[1..] + b);
      ValuedAppend(a[1..], b);
      assert head + (Valued(a[1..]) + Valued(b)) == (head + Valued(a[1..])) + Valued(b);
    }
  }

  /** One report line. The value, the date and the code are read in that order; any of them may throw. */
  function MeasurementLine(m: Json, format: real -> string): Result<string> {
    var valueJson :- Field(m, ValueKey);
    var value :- AsReal(valueJson);
    var dateJson :- Field(m, DateKey);
    var date :- AsString(dateJson);
    var codeJson :- Field(m, CodeKey);
    var code :- AsString(codeJson);
    Ok("- " + code + ": " + format(value) + " (data: " + date + ")\n")
  }

  function LineOf(format: real -> string): Json -> Result<string> {
    m => MeasurementLine(m, format)
  }

  /**
   * The lines of a measurement list: one per entry with a non-null value,
   * in payload order, until an entry throws. No date window applies.
   */
  function ReportedLines(ms: seq<Json>, format: real -> string): Decoded<string> {
    DecodeEach(Valued(ms), LineOf(format))
  }

  lemma ValuedStep(ms: seq<Json>, i: nat)
    requires i < |ms|
    ensures Valued(ms[..i + 1]) == Valued(ms[..i]) + if HasValue(ms[i]) then [ms[i]] else []
  {
    assert ms[..i + 1] == ms[..i] + [ms[i]];
    ValuedAppend(ms[..i], [ms[i]]);
    assert [ms[i]][1..] == [];
  }

  lemma ValuedPrefix(ms: seq<Json>, i: nat)
    requires i < |ms| && HasValue(ms[i])
    ensures |Valued(ms[..i])| < |Valued(ms)| && Valued(ms)[|Valued(ms[..i])|] == ms[i]
    ensures forall t :: 0 <= t < |Valued(ms[..i])| ==> Valued(ms)[t] == Valued(ms[..i])[t]
  {
    var pre := Valued(ms[..i]);
    assert Valued(ms) == pre + [ms[i]] + Valued(ms[i + 1..]) by {
      ValuedStep(ms, i);
      assert ms == ms[..i + 1] + ms[i + 1..];
      ValuedAppend(ms[..i + 1], ms[i + 1..]);
    }
  }

  /** The lines so far are the lines of a prefix of the list. */
  ghost predicate LinesOf(valued: seq<Json>, lines: seq<string>, format: real -> string) {
    |lines| == |valued| && forall t :: 0 <= t < |lines| ==> MeasurementLine(valued[t], format) == Ok(lines[t])
  }

  lemma LinesStop(ms: seq<Json>, i: nat, lines: seq<string>, format: real -> string, e: JsonError)
    requires i < |ms| && HasValue(ms[i]) && MeasurementLine(ms[i], format) == Err(e)
    requires LinesOf(Valued(ms[..i]), lines, format)
    ensures ReportedLines(ms, format) == Decoded(lines, Some(e))
  {
    ValuedPrefix(ms, i);
    DecodeEachDetermined(Valued(ms), LineOf(format), lines, Some(e));
  }

  lemma LinesEnd(ms: seq<Json>, lines: seq<string>, format: real -> string)
    requires LinesOf(Valued(ms[..|ms|]), lines, format)
    ensures ReportedLines(ms, format) == Decoded(lines, None)
  {
    assert ms[..|ms|] == ms;
    DecodeEachDetermined(Valued(ms), LineOf(format), lines, None);
  }

  lemma LinesGrow(valued: seq<Json>, lines: seq<string>, m: Json, line: string, format: real -> string)
    requires LinesOf(valued, lines, format) && MeasurementLine(m, format) == Ok(line)
    ensures LinesOf(valued + [m], lines + [line], format)
    ensures Concat(lines + [line]) == Concat(lines) + line
  {
    ConcatAppend(lines, [line]);
    assert Concat([line]) == line + Concat([]);
  }

  /** The loop that appends one line per valued entry to `formattedData` (main.cpp:410-417, 538-545). */
  method AppendMeasurements(ms: seq<Json>, format: real -> string) returns (text: string, failure: Option<JsonError>)
    ensures text == Concat(ReportedLines(ms, format).items)
    ensures failure == ReportedLines(ms, format).failure
  {
    text := "";
    ghost var lines: seq<string> := [];
    ghost var valued: seq<Json> := [];
    for i := 0 to |ms|
      invariant valued == Valued(ms[..i])
      invariant LinesOf(valued, lines, format)
      invariant text == Concat(lines)
    {
      ValuedStep(ms, i);
      if HasValue(ms[i]) {
        var line := MeasurementLine(ms[i], format);
        if line.Err? {
          LinesStop(ms, i, lines, format, line.error);
          return text, Some(line.error);
        }
        LinesGrow(valued, lines, ms[i], line.value, format);
        text := text + line.value;
        lines := lines + [line.value];
        valued := valued + [ms[i]];
      }
    }
    LinesEnd(ms, lines, format);
    failure := None;
  }

  // The lines a sensor's section can end with instead of (or after) its measurements.

  function MissingList(listKey: string): string {
    "Brak klucza '" + listKey + "' w odpowiedzi API.\n"
  }

  const NoMeasurements := "Brak danych pomiarowych.\n"

  function DataParseError(what: string): string {
    "Błąd parsowania danych: " + what + "\n"
  }

  const NoDataHttp400 := "Brak danych w API (HTTP 400)\n"

  function FetchFailure(cause: string): string {
    "Błąd: " + cause + "\n"
  }

  function BadReply(data: string): string {
    "Błąd: Nieprawidłowa odpowiedź API: " + data + "\n"
  }

  /** What follows a successfully parsed payload. */
  function MeasurementsText(j: Json, listKey: string, format: real -> string): string {
    if !HasKey(j, listKey) then MissingList(listKey)
    else
      var ms := Field(j, listKey).value;
      if IsEmpty(ms) then NoMeasurements
      else
        var d := ReportedLines(Elements(ms), format);
        Concat(d.items) + if d.failure.Some? then DataParseError(What(d.failure.value)) else ""
  }

  /** Everything the report says about one sensor after its heading, given the text fetched for it. */
  function SectionBody(data: string, listKey: string, parse: string -> ParseResult, format: real -> string): string {
    if StartsWith(data, Fetch.ErrorTag) then
      var cause := AfterFirst(data, ':');
      if Contains(cause, "HTTP 400") then NoDataHttp400 else FetchFailure(cause)
    else if StartsWith(data, "Error") || data == [] then BadReply(data)
    else match parse(data)
      case ParseFailed(what) => DataParseError(what)
      case Parsed(j) => MeasurementsText(j, listKey, format)
  }

  function SensorHeading(s: Sensor): string {
    "\nCzujnik: " + s.paramName + " (ID: " + DecimalString(s.id) + ")\n"
  }

  /** The handling of a parsed payload (main.cpp:395-421, 523-549). */
  method ReportPayload(j: Json, listKey: string, format: real -> string) returns (text: string)
    ensures text == MeasurementsText(j, listKey, format)
  {
    if !HasKey(j, listKey) {
      return MissingList(listKey);
    }
    var ms := Field(j, listKey).value;
    if IsEmpty(ms) {
      return NoMeasurements;
    }
    var lines, failure := AppendMeasurements(Elements(ms), format);
    if failure.Some? {
      text := lines + DataParseError(What(failure.value));
    } else {
      text := lines + "";
    }
  }

  /** Everything after a sensor's heading (main.cpp:383-426, 511-554). */
  method ReportBody(data: string, listKey: string, parse: string -> ParseResult, format: real -> string)
      returns (body: string)
    ensures body == SectionBody(data, listKey, parse, format)
  {
    if StartsWith(data, Fetch.ErrorTag) {
      var cause := AfterFirst(data, ':');
      if Contains(cause, "HTTP 400") {
        body := NoDataHttp400;
      } else {
        body := FetchFailure(cause);
      }
    } else if StartsWith(data, "Error") || data == [] {
      body := BadReply(data);
    } else {
      match parse(data) {
        case ParseFailed(what) =>
          body := DataParseError(what);
        case Parsed(j) =>
          body := ReportPayload(j, listKey, format);
      }
    }
  }

  /** One sensor's part of the report: its heading, then its body. */
  function Section(s: Sensor, data: string, listKey: string, parse: string -> ParseResult, format: real -> string): string {
    SensorHeading(s) + SectionBody(data, listKey, parse, format)
  }

  /** The section of each sensor of a worker, given what was fetched for each id. */
  function SectionOf(dataFor: int -> string, listKey: string, parse: string -> ParseResult, format: real -> string): Sensor -> string {
    (s: Sensor) => Section(s, dataFor(s.id), listKey, parse, format)
  }

  function Sections(sensors: seq<Sensor>, sectionOf: Sensor -> string): seq<string> {
    seq(|sensors|, i requires 0 <= i < |sensors| => sectionOf(sensors[i]))
  }

  lemma SectionsStep(sensors: seq<Sensor>, i: nat, sectionOf: Sensor -> string)
    requires i < |sensors|
    ensures Sections(sensors[..i + 1], sectionOf) == Sections(sensors[..i], sectionOf) + [sectionOf(sensors[i])]
  {
  }

  /** The per-sensor loop of a worker: the heading, then one section per sensor in order. */
  method ReportSensors(header: string, sensors: seq<Sensor>, dataFor: int -> string, listKey: string,
                       parse: string -> ParseResult, format: real -> string)
      returns (text: string)
    ensures text == header + Concat(Sections(sensors, SectionOf(dataFor, listKey, parse, format)))
  {
    ghost var sectionOf := SectionOf(dataFor, listKey, parse, format);
    var sectionsText := "";
    ghost var done: seq<string> := [];
    for i := 0 to |sensors|
      invariant done == Sections(sensors[..i], sectionOf)
      invariant sectionsText == Concat(done)
    {
      var body := ReportBody(dataFor(sensors[i].id), listKey, parse, format);
      var section := SensorHeading(sensors[i]) + body;
      assert section == sectionOf(sensors[i]);
      SectionsStep(sensors, i, sectionOf);
      ConcatSnoc(done, section);
      sectionsText := sectionsText + section;
      done := done + [section];
    }
    assert sensors[..|sensors|] == sensors;
    text := header + sectionsText;
  }

  // ---------------------------------------------------------------------------
  // The worker bodies

  datatype SensorsStep = GotSensors(sensors: seq<Sensor>) | Abort(message: string)

  function SensorsFetchError(cause: string): string {
    "Błąd podczas pobierania czujników: " + cause
  }

  function SensorsParseError(what: string): string {
    "Błąd parsowania danych czujników: " + what
  }

  const SensorsFormatError := "Błąd: Nieprawidłowy format odpowiedzi API dla czujników."

  const NoSensorsMessage := "Brak czujników dla tej stacji."

  /** The sensor-list text was fetched and parsed; `tree` is then what it parsed to. */
  predicate Received(sensorsText: string, parse: string -> ParseResult) {
    !StartsWith(sensorsText, Fetch.ErrorTag) && parse(sensorsText).Parsed?
  }

  /** The part both workers share: fetch result check, parse, and the strict sensor-list decode. */
  function WorkerSensors(sensorsText: string, parse: string -> ParseResult): (r: SensorsStep)
    ensures StartsWith(sensorsText, Fetch.ErrorTag) ==> r == Abort(SensorsFetchError(AfterFirst(sensorsText, ':')))
    ensures !StartsWith(sensorsText, Fetch.ErrorTag) && parse(sensorsText).ParseFailed? ==>
              r == Abort(SensorsParseError(parse(sensorsText).what))
    ensures Received(sensorsText, parse) && !HasKey(parse(sensorsText).tree, SensorListKey) ==>
              r == Abort(SensorsFormatError)
    ensures Received(sensorsText, parse) && HasKey(parse(sensorsText).tree, SensorListKey) &&
            IsEmpty(Field(parse(sensorsText).tree, SensorListKey).value) ==>
              r == Abort(NoSensorsMessage)
    ensures Received(sensorsText, parse) && HasEntries(parse(sensorsText).tree) &&
            StrictSensors(SensorEntries(parse(sensorsText).tree)).Err? ==>
              r == Abort(SensorsParseError(What(StrictSensors(SensorEntries(parse(sensorsText).tree)).error)))
    ensures r.GotSensors? <==>
              Received(sensorsText, parse) && HasEntries(parse(sensorsText).tree) &&
              StrictSensors(SensorEntries(parse(sensorsText).tree)).Ok?
    ensures r.GotSensors? ==> r.sensors != [] && r.sensors == StrictSensors(SensorEntries(parse(sensorsText).tree)).value
  {
    if StartsWith(sensorsText, Fetch.ErrorTag) then Abort(SensorsFetchError(AfterFirst(sensorsText, ':')))
    else match parse(sensorsText)
      case ParseFailed(what) => Abort(SensorsParseError(what))
      case Parsed(j) =>
        var list := WorkerSensorList(j);
        if list.NoEnvelope? then Abort(SensorsFormatError)
        else if list.NoSensors? then Abort(NoSensorsMessage)
        else if list.SensorsFailed? then Abort(SensorsParseError(What(list.error)))
        else GotSensors(list.sensors)
  }

  /** The sensor-list part of both threads (main.cpp:317-355, 467-505). */
  method ReadWorkerSensors(sensorsText: string, parse: string -> ParseResult) returns (step: SensorsStep)
    ensures step == WorkerSensors(sensorsText, parse)
  {
    if StartsWith(sensorsText, Fetch.ErrorTag) {
      return Abort(SensorsFetchError(AfterFirst(sensorsText, ':')));
    }
    match parse(sensorsText) {
      case ParseFailed(what) =>
        step := Abort(SensorsParseError(what));
      case Parsed(j) =>
        var list := DecodeWorkerList(j);
        if list.NoEnvelope? {
          step := Abort(SensorsFormatError);
        } else if list.NoSensors? {
          step := Abort(NoSensorsMessage);
        } else if list.SensorsFailed? {
          step := Abort(SensorsParseError(What(list.error)));
        } else {
          step := GotSensors(list.sensors);
        }
    }
  }

  /** The message a worker posts, and the snapshot it saved to sensors.json, if any. */
  datatype WorkerResult = WorkerResult(message: string, saved: Option<Json>)

  function FetchWorkerSpec(st: Station, sensorsText: string, parse: string -> ParseResult, saveOk: bool,
                           dataFor: int -> string, format: real -> string): WorkerResult
  {
    match WorkerSensors(sensorsText, parse)
    case Abort(message) => WorkerResult(message, None)
    case GotSensors(sensors) =>
      if !saveOk then WorkerResult("Błąd: Nie udało się zapisać pliku sensors.json.", None)
      else WorkerResult("Dane dla stacji " + st.name + ":\n" + Concat(Sections(sensors, SectionOf(dataFor, CurrentListKey, parse, format))),
                        Some(SnapshotJson([st.(sensors := sensors)])))
  }

  function HistoricalWorkerSpec(st: Station, sensorsText: string, parse: string -> ParseResult,
                                dataFor: int -> string, format: real -> string): string
  {
    match WorkerSensors(sensorsText, parse)
    case Abort(message) => message
    case GotSensors(sensors) =>
      "Dane historyczne dla stacji " + st.name + " (ostatnie 5 dni):\n" + Concat(Sections(sensors, SectionOf(dataFor, ArchiveListKey, parse, format)))
  }

  /** OnFetchData's thread (main.cpp:315-432). `saveOk` is whether writing sensors.json succeeded. */
  method FetchWorker(st: Station, sensorsText: string, parse: string -> ParseResult, saveOk: bool,
                     dataFor: int -> string, format: real -> string)
      returns (result: WorkerResult)
    ensures result == FetchWorkerSpec(st, sensorsText, parse, saveOk, dataFor, format)
  {
    var step := ReadWorkerSensors(sensorsText, parse);
    if step.Abort? {
      return WorkerResult(step.message, None);
    }
    var snapshot := EncodeSnapshot([st.(sensors := step.sensors)]);
    if !saveOk {
      return WorkerResult("Błąd: Nie udało się zapisać pliku sensors.json.", None);
    }
    var text := ReportSensors("Dane dla stacji " + st.name + ":\n", step.sensors, dataFor, CurrentListKey, parse, format);
    return WorkerResult(text, Some(snapshot));
  }

  /** OnFetchHistoricalData's thread (main.cpp:465-560). */
  method HistoricalWorker(st: Station, sensorsText: string, parse: string -> ParseResult,
                          dataFor: int -> string, format: real -> string)
      returns (message: string)
    ensures message == HistoricalWorkerSpec(st, sensorsText, parse, dataFor, format)
  {
    var step := ReadWorkerSensors(sensorsText, parse);
    if step.Abort? {
      return step.message;
    }
    message := ReportSensors("Dane historyczne dla stacji " + st.name + " (ostatnie 5 dni):\n", step.sensors, dataFor, ArchiveListKey, parse, format);
  }

  // ---------------------------------------------------------------------------
  // Properties

  /**
   * A reading without a value (the key missing or null) yields no line and
   * stops nothing, wherever it stands in the list.
   */
  lemma ValuelessEntryIsSkipped(a: seq<Json>, m: Json, b: seq<Json>, format: real -> string)
    requires !HasValue(m)
    ensures ReportedLines(a + [m] + b, format) == ReportedLines(a + b, format)
  {
    assert Valued([m]) == [] by {
      assert [m][1..] == [];
    }
    ValuedAppend(a + [m], b);
    ValuedAppend(a, [m]);
    ValuedAppend(a, b);
    assert Valued(a + [m]) == Valued(a) + [];
    assert Valued(a) + [] == Valued(a);
    assert Valued(a + [m] + b) == Valued(a + b);
  }

  /** A reading whose value is a number and whose date and code are strings. */
  predicate WellFormedReading(m: Json) {
    HasKey(m, ValueKey) && Field(m, ValueKey).value.JNumber? &&
    HasKey(m, DateKey) && Field(m, DateKey).value.JString? &&
    HasKey(m, CodeKey) && Field(m, CodeKey).value.JString?
  }

  /**
   * The report applies no time window: when every reading with a value is
   * well formed, whatever its date, each gets its line, in payload order,
   * and nothing throws.
   */
  lemma AnyDateIsReported(ms: seq<Json>, format: real -> string)
    requires forall m :: m in ms && HasValue(m) ==> WellFormedReading(m)
    ensures ReportedLines(ms, format).failure.None?
    ensures |ReportedLines(ms, format).items| == |Valued(ms)|
    ensures forall i :: 0 <= i < |Valued(ms)| ==>
              var m := Valued(ms)[i];
              ReportedLines(ms, format).items[i]
                == "- " + Field(m, CodeKey).value.s + ": " + format(Field(m, ValueKey).value.n)
                   + " (data: " + Field(m, DateKey).value.s + ")\n"
  {
    var valued := Valued(ms);
    forall i | 0 <= i < |valued|
      ensures WellFormedReading(valued[i])
    {
      assert valued[i] in valued;
    }
  }

  /** A 400 reply to a sensor's data request is reported as "no data in the API", not as an error. */
  lemma Http400IsNoData(body: string, filename: string, saveOk: bool, listKey: string, parse: string -> ParseResult, format: real -> string)
    ensures SectionBody(Fetch.FetchData(Fetch.Answered(Fetch.Clean, 400, body), filename, true, saveOk), listKey, parse, format)
         == "Brak danych w API (HTTP 400)\n"
  {
    var cause := "HTTP " + DecimalString(400);
    assert DecimalString(400) == "400" by {
      assert NatDigits(4) == "4";
      assert NatDigits(40) == "40";
      assert NatDigits(400) == "400";
    }
    assert StartsWith(cause, "HTTP 400");
    assert Contains(cause, "HTTP 400");
  }

  /**
   * When the reading was fetched but saving it to disk failed, fetch_data's
   * message carries no tag, so it is handed to the parser, which rejects it.
   */
  lemma SaveFailureReachesParser(body: string, filename: string, listKey: string, parse: string -> ParseResult, format: real -> string)
    requires ConformingParser(parse)
    requires body != []
    ensures var data := Fetch.FetchData(Fetch.Answered(Fetch.Clean, 200, body), filename, true, false);
            parse(data).ParseFailed? &&
            SectionBody(data, listKey, parse, format) == "Błąd parsowania danych: " + parse(data).what + "\n"
  {
    var data := Fetch.FetchData(Fetch.Answered(Fetch.Clean, 200, body), filename, true, false);
    assert data == Fetch.SaveFailureMessage(filename);
    assert data[0] == 'N';
    assert !MayBeJsonText(data);
    assert !StartsWith(data, "Error");
  }

  /** A failed sensor-list fetch ends the worker with the cause, before anything is saved. */
  lemma FetchErrorIsReported(st: Station, cause: string, parse: string -> ParseResult, saveOk: bool,
                             dataFor: int -> string, format: real -> string)
    ensures FetchWorkerSpec(st, Fetch.Tagged(cause), parse, saveOk, dataFor, format)
         == WorkerResult("Błąd podczas pobierania czujników: " + cause, None)
  {
  }

  /** What OnFetchData saves holds the selected station alone, and reading its id back gives the decoded sensors. */
  lemma FetchWorkerSnapshotReadsBack(st: Station, sensorsText: string, parse: string -> ParseResult,
                                     dataFor: int -> string, format: real -> string, k: int)
    requires FetchWorkerSpec(st, sensorsText, parse, true, dataFor, format).saved.Some?
    ensures var file := FetchWorkerSpec(st, sensorsText, parse, true, dataFor, format).saved.value;
            var sensors := WorkerSensors(sensorsText, parse).sensors;
            ReadBackSpec(Elements(file), k) == if k == st.id then Loaded(sensors) else NotLoaded([])
  {
    FetchSnapshotHoldsOneStation(st, WorkerSensors(sensorsText, parse).sensors, k);
  }
}
