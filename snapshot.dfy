/**
 * The sensors.json snapshot (main.cpp): the encoders that build
 * `[{stationId, stationName, sensors: [{sensorId, paramName}]}]` with
 * push_back, and OnShowChart's loop that reads one station's sensors
 * back. Objects list their keys in nlohmann's sorted order.
 */
module Snapshot {
  import opened Text
  import opened JsonTree
  import opened Stations

  function SensorJson(s: Sensor): Json {
    JObject([("paramName", JString(s.paramName)), ("sensorId", JNumber(s.id as real))])
  }

  function SensorObjects(sensors: seq<Sensor>): (r: seq<Json>)
    ensures |r| == |sensors|
    ensures forall i :: 0 <= i < |sensors| ==> r[i] == SensorJson(sensors[i])
  {
    seq(|sensors|, i requires 0 <= i < |sensors| => SensorJson(sensors[i]))
  }

  /** One station's entry; its sensors are the ones given, which need not be the station's own. */
  function EntryJson(id: int, name: string, sensors: seq<Sensor>): Json {
    JObject([("sensors", JArray(SensorObjects(sensors))), ("stationId", JNumber(id as real)), ("stationName", JString(name))])
  }

  function StationJson(st: Station): Json {
    EntryJson(st.id, st.name, st.sensors)
  }

  /** The whole snapshot: a json value that starts as null and gets one push_back per station. */
  function SnapshotJson(stations: seq<Station>): (r: Json)
    ensures stations == [] ==> r == JNull
    ensures |Elements(r)| == |stations|
    ensures forall i :: 0 <= i < |stations| ==> Elements(r)[i] == StationJson(stations[i])
  {
    if stations == [] then JNull
    else JArray(seq(|stations|, i requires 0 <= i < |stations| => StationJson(stations[i])))
  }

  /** The inner loop of the encoders (main.cpp:361-367, 696-702). */
  method EncodeSensors(sensors: seq<Sensor>) returns (arr: Json)
    ensures arr == JArray(SensorObjects(sensors))
  {
    arr := JArray([]);
    for i := 0 to |sensors|
      invariant arr == JArray(SensorObjects(sensors[..i]))
    {
      assert SensorObjects(sensors[..i + 1]) == SensorObjects(sensors[..i]) + [SensorJson(sensors[i])];
      arr := PushBack(arr, SensorJson(sensors[i]));
    }
    assert sensors[..|sensors|] == sensors;
  }

  /** The encoder over every station (main.cpp:691-705). */
  method EncodeSnapshot(stations: seq<Station>) returns (out: Json)
    ensures out == SnapshotJson(stations)
  {
    out := JNull;
    for i := 0 to |stations|
      invariant out == SnapshotJson(stations[..i])
    {
      var sensorsArray := EncodeSensors(stations[i].sensors);
      var stationJson := JObject([("sensors", sensorsArray), ("stationId", JNumber(stations[i].id as real)), ("stationName", JString(stations[i].name))]);
      assert stationJson == StationJson(stations[i]);
      assert SnapshotJson(stations[..i + 1]) == PushBack(SnapshotJson(stations[..i]), stationJson) by {
        assert Elements(SnapshotJson(stations[..i + 1])) == Elements(SnapshotJson(stations[..i])) + [stationJson];
      }
      out := PushBack(out, stationJson);
    }
    assert stations[..|stations|] == stations;
  }

  // ---------------------------------------------------------------------------
  // Reading one station's sensors back (OnShowChart)

  /** One sensor of the file: sensorId, then paramName. */
  function SnapshotSensor(x: Json): Result<Sensor> {
    var idJson :- Field(x, "sensorId");
    var id :- AsInt(idJson);
    var nameJson :- Field(x, "paramName");
    var name :- AsString(nameJson);
    Ok(Sensor(id, name))
  }

  function EntryId(entry: Json): Result<int> {
    var idJson :- Field(entry, "stationId");
    AsInt(idJson)
  }

  /**
   * What the read-back leaves in OnShowChart's `sensors` vector: either the
   * sensors with `sensorsLoaded` set, or, with it unset, whatever had been
   * pushed before an exception ended the read.
   */
  datatype ReadBack = Loaded(sensors: seq<Sensor>) | NotLoaded(leftover: seq<Sensor>)

  /** The sensors of a matching entry: all of them, or those before the first malformed one. */
  function EntrySensors(entry: Json): (r: ReadBack)
  {
    match Field(entry, "sensors")
    case Err(_) => NotLoaded([])
    case Ok(arr) =>
      var d := DecodeEach(Elements(arr), SnapshotSensor);
      if d.failure.None? then Loaded(d.items) else NotLoaded(d.items)
  }

  /** The first entry whose stationId is `k` supplies the sensors; an entry whose id cannot be read ends the search. */
  function ReadBackSpec(entries: seq<Json>, k: int): (r: ReadBack)
  {
    if entries == [] then NotLoaded([])
    else match EntryId(entries[0])
      case Err(_) => NotLoaded([])
      case Ok(id) => if id == k then EntrySensors(entries[0]) else ReadBackSpec(entries[1..], k)
  }

  /** The inner loop of the read-back: push each sensor of the matching entry until one throws. */
  method ReadEntrySensors(arr: Json) returns (r: ReadBack)
    ensures var d := DecodeEach(Elements(arr), SnapshotSensor);
            r == if d.failure.None? then Loaded(d.items) else NotLoaded(d.items)
  {
    var items := Elements(arr);
    var sensors: seq<Sensor> := [];
    for j := 0 to |items|
      invariant |sensors| == j
      invariant forall t :: 0 <= t < j ==> SnapshotSensor(items[t]) == Ok(sensors[t])
    {
      var s := SnapshotSensor(items[j]);
      if s.Err? {
        DecodeEachDetermined(items, SnapshotSensor, sensors, Some(s.error));
        return NotLoaded(sensors);
      }
      sensors := sensors + [s.value];
    }
    DecodeEachDetermined(items, SnapshotSensor, sensors, None);
    return Loaded(sensors);
  }

  /** The read-back loop of OnShowChart, with its `found` break. */
  method ReadBackSensors(file: Json, k: int) returns (r: ReadBack)
    ensures r == ReadBackSpec(Elements(file), k)
  {
    var entries := Elements(file);
    var i := 0;
    while i < |entries|
      invariant 0 <= i <= |entries|
      invariant ReadBackSpec(entries, k) == ReadBackSpec(entries[i..], k)
    {
      var entry := entries[i];
      assert entries[i..][1..] == entries[i + 1..];
      var idJson := Field(entry, "stationId");
      if idJson.Err? {
        return NotLoaded([]);
      }
      var id := AsInt(idJson.value);
      if id.Err? {
        return NotLoaded([]);
      }
      if id.value == k {
        var arr := Field(entry, "sensors");
        if arr.Err? {
          return NotLoaded([]);
        }
        r := ReadEntrySensors(arr.value);
        return;
      }
      i := i + 1;
    }
    return NotLoaded([]);
  }

  // ---------------------------------------------------------------------------
  // Round trips

  lemma StationEntryReadsBack(id: int, name: string, sensors: seq<Sensor>)
    ensures EntryId(EntryJson(id, name, sensors)) == Ok(id)
    ensures EntrySensors(EntryJson(id, name, sensors)) == Loaded(sensors)
  {
    var e := EntryJson(id, name, sensors);
    assert EntryId(e) == Ok(id) by {
      EntryFields(id, name, sensors);
      AsIntOfInt(id);
    }
    assert EntrySensors(e) == Loaded(sensors) by {
      EntryFields(id, name, sensors);
      SensorsReadBack(sensors);
    }
  }

  lemma EntryFields(id: int, name: string, sensors: seq<Sensor>)
    ensures Field(EntryJson(id, name, sensors), "stationId") == Ok(JNumber(id as real))
    ensures Field(EntryJson(id, name, sensors), "sensors") == Ok(JArray(SensorObjects(sensors)))
  {
    var arr := JArray(SensorObjects(sensors));
    var e := EntryJson(id, name, sensors);
    var m2 := [("stationName", JString(name))];
    var m1 := [("stationId", JNumber(id as real))] + m2;
    assert e.members == [("sensors", arr)] + m1;
    LookupStep("sensors", arr, m1, "stationId");
    LookupStep("stationId", JNumber(id as real), m2, "stationId");
    LookupStep("sensors", arr, m1, "sensors");
  }

  lemma {:induction false} SensorsReadBack(sensors: seq<Sensor>)
    ensures DecodeEach(SensorObjects(sensors), SnapshotSensor) == Decoded(sensors, None)
  {
    if sensors != [] {
      var s := sensors[0];
      var x := SensorJson(s);
      var m := [("sensorId", JNumber(s.id as real))];
      assert x.members == [("paramName", JString(s.paramName))] + m;
      LookupStep("paramName", JString(s.paramName), m, "sensorId");
      LookupStep("paramName", JString(s.paramName), m, "paramName");
      assert m == [("sensorId", JNumber(s.id as real))] + [];
      LookupStep("sensorId", JNumber(s.id as real), [], "sensorId");
      AsIntOfInt(s.id);
      assert SnapshotSensor(x) == Ok(s);
      assert SensorObjects(sensors)[1..] == SensorObjects(sensors[1..]);
      SensorsReadBack(sensors[1..]);
      assert [s] + sensors[1..] == sensors;
    }
  }

  /** Reading id `k` back from a snapshot of all stations gives the sensors of the first station with that id. */
  lemma {:induction false} SnapshotReadsBack(stations: seq<Station>, k: int)
    ensures var i := FirstIndex(stations, k);
            ReadBackSpec(Elements(SnapshotJson(stations)), k) == if i < |stations| then Loaded(stations[i].sensors) else NotLoaded([])
  {
    if stations != [] {
      var st := stations[0];
      StationEntryReadsBack(st.id, st.name, st.sensors);
      SnapshotTail(stations);
      if st.id != k {
        SnapshotReadsBack(stations[1..], k);
      }
    }
  }

  lemma SnapshotTail(stations: seq<Station>)
    requires stations != []
    ensures Elements(SnapshotJson(stations))[0] == StationJson(stations[0])
    ensures Elements(SnapshotJson(stations))[1..] == Elements(SnapshotJson(stations[1..]))
  {
    var entries := Elements(SnapshotJson(stations));
    assert |entries[1..]| == |stations[1..]|;
    assert forall j :: 0 <= j < |stations| - 1 ==> entries[1..][j] == StationJson(stations[1..][j]);
  }

  /** With the station's id, its entry stays readable after any other station is given new sensors. */
  function WithSensors(stations: seq<Station>, i: nat, sensors: seq<Sensor>): (r: seq<Station>)
    requires i < |stations|
    ensures |r| == |stations|
    ensures forall j :: 0 <= j < |r| ==> r[j].id == stations[j].id
  {
    stations[i := stations[i].(sensors := sensors)]
  }

  /**
   * OnShowChart gives the first station with id `k` the freshly decoded
   * sensors and writes every station out; reading `k` back from that file
   * yields exactly those sensors, in order.
   */
  lemma ShowChartRoundTrip(stations: seq<Station>, k: int, sensors: seq<Sensor>)
    requires FirstIndex(stations, k) < |stations|
    ensures ReadBackSpec(Elements(SnapshotJson(WithSensors(stations, FirstIndex(stations, k), sensors))), k) == Loaded(sensors)
  {
    var i := FirstIndex(stations, k);
    var updated := WithSensors(stations, i, sensors);
    FirstIndexOnSameIds(stations, updated, k);
    SnapshotReadsBack(updated, k);
  }

  lemma {:induction false} FirstIndexOnSameIds(a: seq<Station>, b: seq<Station>, k: int)
    requires |a| == |b| && forall j :: 0 <= j < |a| ==> a[j].id == b[j].id
    ensures FirstIndex(a, k) == FirstIndex(b, k)
  {
    if a != [] && a[0].id != k {
      FirstIndexOnSameIds(a[1..], b[1..], k);
    }
  }

  /**
   * OnFetchData overwrites the file with one entry: the selected station
   * with the sensors just decoded. Only that id reads back afterwards.
   */
  lemma FetchSnapshotHoldsOneStation(st: Station, sensors: seq<Sensor>, k: int)
    ensures var file := SnapshotJson([st.(sensors := sensors)]);
            ReadBackSpec(Elements(file), k) == if k == st.id then Loaded(sensors) else NotLoaded([])
  {
    SnapshotReadsBack([st.(sensors := sensors)], k);
  }
}
