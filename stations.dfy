/**
 * The records of main.h (Station, Sensor), the list-box entry MainFrame
 * shows for a station, and the value-level specifications of the
 * station-list decode, the name/province filter, the lookup by id and
 * the two sensor-list decode policies of main.cpp.
 */
module Stations {
  import opened Text
  import opened JsonTree

  datatype Sensor = Sensor(id: int, paramName: string)

  datatype Station = Station(id: int, name: string, province: string, sensors: seq<Sensor>)

  /** One line of the station list box: its text and the client data attached to it. */
  datatype ListEntry = ListEntry(text: string, clientData: string)

  /** The entry shown for a station: "name (province)", carrying the decimal id as client data. */
  function EntryOf(s: Station): (e: ListEntry)
    ensures Atoi(e.clientData) == s.id
    ensures e.text == s.name + " (" + s.province + ")"
    ensures StartsWith(e.text, s.name)
  {
    DecimalRoundTrip(s.id);
    var text := s.name + " (" + s.province + ")";
    assert text[..|s.name|] == s.name;
    ListEntry(text, DecimalString(s.id))
  }

  function EntriesOf(stations: seq<Station>): (r: seq<ListEntry>)
    ensures |r| == |stations|
    ensures forall i :: 0 <= i < |stations| ==> r[i] == EntryOf(stations[i])
  {
    if stations == [] then [] else [EntryOf(stations[0])] + EntriesOf(stations[1..])
  }

  // ---------------------------------------------------------------------------
  // Station-list decode (LoadStations)

  /** The value at city.commune.provinceName, or the exception reading the path throws. */
  function ProvinceJson(e: Json): Result<Json> {
    var city :- Field(e, "city");
    var commune :- Field(city, "commune");
    Field(commune, "provinceName")
  }

  /**
   * One element of the findAll array: id, stationName, city.commune.provinceName,
   * in that order. Other keys of the element are ignored.
   */
  function DecodeStation(e: Json): (r: Result<Station>)
    ensures r.Ok? <==>
              Field(e, "id").Ok? && AsInt(Field(e, "id").value).Ok? &&
              Field(e, "stationName").Ok? && Field(e, "stationName").value.JString? &&
              ProvinceJson(e).Ok? && ProvinceJson(e).value.JString?
    ensures r.Ok? ==> Field(e, "id").Ok? && AsInt(Field(e, "id").value) == Ok(r.value.id)
    ensures r.Ok? ==> Field(e, "stationName") == Ok(JString(r.value.name))
    ensures r.Ok? ==> ProvinceJson(e) == Ok(JString(r.value.province))
    ensures r.Ok? ==> r.value.sensors == []
    ensures !e.JObject? ==> r == Err(NotAnObject(TypeName(e)))
  {
    var idJson :- Field(e, "id");
    var id :- AsInt(idJson);
    var nameJson :- Field(e, "stationName");
    var name :- AsString(nameJson);
    var provinceJson :- ProvinceJson(e);
    var province :- AsString(provinceJson);
    Ok(Station(id, name, province, []))
  }

  /** The shape the API gives a station, keys in nlohmann's sorted order. */
  function ApiStationJson(id: int, name: string, province: string): Json {
    JObject([
      ("city", JObject([("commune", JObject([("provinceName", JString(province))]))])),
      ("id", JNumber(id as real)),
      ("stationName", JString(name))])
  }

  /** Decoding inverts the API's station shape. */
  lemma DecodeApiStation(id: int, name: string, province: string)
    ensures DecodeStation(ApiStationJson(id, name, province)) == Ok(Station(id, name, province, []))
  {
    var e := ApiStationJson(id, name, province);
    assert "city"[0] != "id"[0] && "city"[0] != "stationName"[0] && "id"[0] != "stationName"[0];
    var m2 := [("stationName", JString(name))];
    var m1 := [("id", JNumber(id as real))] + m2;
    assert e.members == [e.members[0]] + m1;
    LookupStep(e.members[0].0, e.members[0].1, m1, "id");
    LookupStep(e.members[0].0, e.members[0].1, m1, "stationName");
    LookupStep("id", JNumber(id as real), m2, "stationName");
    assert m2 == [("stationName", JString(name))] + [];
    LookupStep("stationName", JString(name), [], "stationName");
    assert Field(e, "id") == Ok(JNumber(id as real));
    assert Field(e, "stationName") == Ok(JString(name));
    assert Field(e, "city") == Ok(e.members[0].1);
    AsIntOfInt(id);
  }

  // ---------------------------------------------------------------------------
  // Filter (OnFilterText)

  /** Lower-case, then drop every comma. */
  function Normalize(s: string, lower: char -> char): string {
    Without(MapChars(s, lower), ',')
  }

  predicate Matches(s: Station, filter: string, lower: char -> char) {
    var f := Normalize(filter, lower);
    Contains(Normalize(s.name, lower), f) || Contains(Normalize(s.province, lower), f) || f == []
  }

  /** The stations the filter keeps, in the order of `stations`. */
  function Matching(stations: seq<Station>, filter: string, lower: char -> char): (r: seq<Station>)
    ensures |r| <= |stations|
    ensures forall s :: s in r ==> s in stations && Matches(s, filter, lower)
    ensures forall s :: s in stations && Matches(s, filter, lower) ==> s in r
  {
    if stations == [] then []
    else
      var rest := Matching(stations[1..], filter, lower);
      assert forall s :: s in stations ==> s == stations[0] || s in stations[1..];
      if Matches(stations[0], filter, lower) then [stations[0]] + rest else rest
  }

  /** Filtering distributes over concatenation, so it keeps the relative order of the stations. */
  lemma {:induction false} MatchingKeepsOrder(a: seq<Station>, b: seq<Station>, filter: string, lower: char -> char)
    ensures Matching(a + b, filter, lower) == Matching(a, filter, lower) + Matching(b, filter, lower)
  {
    if a == [] {
      assert a + b == b;
    } else {
      assert (a + b)[1..] == a[1..] + b;
      MatchingKeepsOrder(a[1..], b, filter, lower);
    }
  }

  /** A filter that is empty once commas are dropped (for instance "" or ",,") lists every station. */
  lemma {:induction false} BlankFilterKeepsAll(stations: seq<Station>, filter: string, lower: char -> char)
    requires Normalize(filter, lower) == []
    ensures Matching(stations, filter, lower) == stations
  {
    if stations != [] {
      BlankFilterKeepsAll(stations[1..], filter, lower);
    }
  }

  // ---------------------------------------------------------------------------
  // Lookup by id (the `found` loops and std::find_if)

  /** Position of the first station with the id, or |stations| (the end iterator) when none has it. */
  function FirstIndex(stations: seq<Station>, id: int): (i: nat)
    ensures i <= |stations|
    ensures i < |stations| ==> stations[i].id == id
    ensures forall j :: 0 <= j < i ==> stations[j].id != id
  {
    if stations == [] then 0
    else if stations[0].id == id then 0
    else 1 + FirstIndex(stations[1..], id)
  }

  // ---------------------------------------------------------------------------
  // Sensor-list decode

  const SensorListKey := "Lista stanowisk pomiarowych dla podanej stacji"
  const SensorIdKey := "Identyfikator stanowiska"
  const ParamKey := "Wskaźnik"

  /** One sensor entry: its id, then its parameter name. */
  function DecodeSensor(x: Json): (r: Result<Sensor>)
    ensures r.Ok? <==>
              Field(x, SensorIdKey).Ok? && AsInt(Field(x, SensorIdKey).value).Ok? &&
              Field(x, ParamKey).Ok? && Field(x, ParamKey).value.JString?
    ensures r.Ok? ==> HasKey(x, SensorIdKey) && HasKey(x, ParamKey)
    ensures r.Ok? ==> AsInt(Field(x, SensorIdKey).value) == Ok(r.value.id)
    ensures r.Ok? ==> Field(x, ParamKey) == Ok(JString(r.value.paramName))
  {
    var idJson :- Field(x, SensorIdKey);
    var id :- AsInt(idJson);
    var nameJson :- Field(x, ParamKey);
    var name :- AsString(nameJson);
    Ok(Sensor(id, name))
  }

  /** The workers' policy: every entry must decode; the first that does not aborts the whole list. */
  function StrictSensors(xs: seq<Json>): (r: Result<seq<Sensor>>)
    ensures r.Ok? <==> forall i :: 0 <= i < |xs| ==> DecodeSensor(xs[i]).Ok?
    ensures r.Ok? ==> |r.value| == |xs| && forall i :: 0 <= i < |xs| ==> DecodeSensor(xs[i]) == Ok(r.value[i])
    ensures r.Err? ==> exists i :: 0 <= i < |xs| && DecodeSensor(xs[i]) == Err(r.error) && forall j :: 0 <= j < i ==> DecodeSensor(xs[j]).Ok?
  {
    var d := DecodeEach(xs, DecodeSensor);
    if d.failure.None? then Ok(d.items) else Err(d.failure.value)
  }

  /** An entry OnShowChart does not skip: it has both keys. */
  predicate Keyed(x: Json) {
    HasKey(x, SensorIdKey) && HasKey(x, ParamKey)
  }

  function KeyedOnly(xs: seq<Json>): (r: seq<Json>)
  {
    if xs == [] then []
    else
      assert forall x :: x in xs ==> x == xs[0] || x in xs[1..];
      (if Keyed(xs[0]) then [xs[0]] else []) + KeyedOnly(xs[1..])
  }

  /** OnShowChart keeps exactly the entries that have both keys. */
  lemma {:induction false} KeyedOnlyMembers(xs: seq<Json>)
    ensures forall x :: x in KeyedOnly(xs) <==> x in xs && Keyed(x)
  {
    if xs != [] {
      KeyedOnlyMembers(xs[1..]);
      assert xs == [xs[0]] + xs[1..];
    }
  }

  /** Skipping works piece by piece, so the kept entries stay in payload order. */
  lemma {:induction false} KeyedOnlyAppend(a: seq<Json>, b: seq<Json>)
    ensures KeyedOnly(a + b) == KeyedOnly(a) + KeyedOnly(b)
  {
    if a == [] {
      assert a + b == b;
    } else {
      var head := if Keyed(a[0]) then [a[0]] else [];
      assert (a + b)[0] == a[0] && (a + b)[1..] == a[1..] + b;
      assert KeyedOnly(a + b) == head + KeyedOnly(a[1..] + b);
      KeyedOnlyAppend(a[1..], b);
      assert head + (KeyedOnly(a[1..]) + KeyedOnly(b)) == (head + KeyedOnly(a[1..])) + KeyedOnly(b);
    }
  }

  lemma KeyedOnlyStep(xs: seq<Json>, i: nat)
    requires i < |xs|
    ensures KeyedOnly(xs[..i + 1]) == KeyedOnly(xs[..i]) + if Keyed(xs[i]) then [xs[i]] else []
  {
    assert xs[..i + 1] == xs[..i] + [xs[i]];
    KeyedOnlyAppend(xs[..i], [xs[i]]);
    assert [xs[i]][1..] == [];
  }

  /** OnShowChart's policy: entries lacking either key are skipped; a keyed entry of the wrong type still aborts. */
  function LenientSensors(xs: seq<Json>): (r: Result<seq<Sensor>>)
  {
    if xs == [] then Ok([])
    else if !Keyed(xs[0]) then LenientSensors(xs[1..])
    else match DecodeSensor(xs[0])
      case Err(e) => Err(e)
      case Ok(s) =>
        match LenientSensors(xs[1..])
        case Err(e) => Err(e)
        case Ok(ss) => Ok([s] + ss)
  }

  /** Skipping entries without the keys and then decoding strictly is exactly the lenient policy. */
  lemma {:induction false} LenientIsStrictOnKeyed(xs: seq<Json>)
    ensures LenientSensors(xs) == StrictSensors(KeyedOnly(xs))
  {
    if xs != [] {
      LenientIsStrictOnKeyed(xs[1..]);
      if Keyed(xs[0]) {
        assert KeyedOnly(xs) == [xs[0]] + KeyedOnly(xs[1..]);
        assert KeyedOnly(xs)[1..] == KeyedOnly(xs[1..]);
      } else {
        assert KeyedOnly(xs) == KeyedOnly(xs[1..]);
      }
    }
  }

  /** Where the workers' decode succeeds, OnShowChart's decode yields the same sensors. */
  lemma {:induction false} StrictSuccessIsLenientSuccess(xs: seq<Json>)
    requires StrictSensors(xs).Ok?
    ensures LenientSensors(xs) == StrictSensors(xs)
  {
    if xs != [] {
      assert DecodeSensor(xs[0]).Ok?;
      assert StrictSensors(xs[1..]).Ok? by {
        forall i | 0 <= i < |xs| - 1 ensures DecodeSensor(xs[1..][i]).Ok? {
          assert xs[1..][i] == xs[i + 1];
        }
      }
      StrictSuccessIsLenientSuccess(xs[1..]);
    }
  }

  /** The outcomes of the sensor-list decode blocks. */
  datatype SensorList =
    | SensorsDecoded(sensors: seq<Sensor>)
    | NoEnvelope                         // the envelope key is missing
    | NoSensors                          // the list under it is empty
    | NoValidSensors                     // OnShowChart only: nothing was left to keep
    | SensorsFailed(error: JsonError)    // an exception while decoding an entry

  /** The list under the envelope key holds entries. */
  predicate HasEntries(j: Json) {
    HasKey(j, SensorListKey) && !IsEmpty(Field(j, SensorListKey).value)
  }

  /** The entries of the list under the envelope key. */
  function SensorEntries(j: Json): seq<Json>
    requires HasKey(j, SensorListKey)
  {
    Elements(Field(j, SensorListKey).value)
  }

  /** The decode block of the two worker threads. */
  function WorkerSensorList(j: Json): (r: SensorList)
    ensures r.NoEnvelope? <==> !HasKey(j, SensorListKey)
    ensures r.NoSensors? <==> HasKey(j, SensorListKey) && IsEmpty(Field(j, SensorListKey).value)
    ensures r.SensorsDecoded? <==> HasEntries(j) && StrictSensors(SensorEntries(j)).Ok?
    ensures r.SensorsDecoded? ==> r.sensors != [] && r.sensors == StrictSensors(SensorEntries(j)).value
    ensures r.SensorsFailed? <==> HasEntries(j) && StrictSensors(SensorEntries(j)).Err?
    ensures r.SensorsFailed? ==> r.error == StrictSensors(SensorEntries(j)).error
    ensures !r.NoValidSensors?
  {
    if !HasKey(j, SensorListKey) then NoEnvelope
    else
      var list := Field(j, SensorListKey).value;
      if IsEmpty(list) then NoSensors
      else
        EmptyMeansNoElements(list);
        match StrictSensors(Elements(list))
        case Err(e) => SensorsFailed(e)
        case Ok(ss) => SensorsDecoded(ss)
  }

  /**
   * The decode block of OnShowChart. Whatever was already in its `sensors`
   * vector (`leftover`) stays in front of the newly decoded entries.
   */
  function ChartSensorList(j: Json, leftover: seq<Sensor>): (r: SensorList)
    ensures r.NoEnvelope? <==> !HasKey(j, SensorListKey)
    ensures r.NoSensors? <==> HasKey(j, SensorListKey) && IsEmpty(Field(j, SensorListKey).value)
    ensures r.SensorsDecoded? ==> r.sensors != [] && LenientSensors(SensorEntries(j)).Ok?
    ensures r.SensorsDecoded? ==> r.sensors == leftover + LenientSensors(SensorEntries(j)).value
    ensures r.NoValidSensors? <==> HasEntries(j) && LenientSensors(SensorEntries(j)).Ok? && leftover + LenientSensors(SensorEntries(j)).value == []
    ensures r.SensorsFailed? <==> HasEntries(j) && LenientSensors(SensorEntries(j)).Err?
    ensures r.SensorsFailed? ==> r.error == LenientSensors(SensorEntries(j)).error
  {
    if !HasKey(j, SensorListKey) then NoEnvelope
    else
      var list := Field(j, SensorListKey).value;
      if IsEmpty(list) then NoSensors
      else match LenientSensors(Elements(list))
        case Err(e) => SensorsFailed(e)
        case Ok(ss) => if leftover + ss == [] then NoValidSensors else SensorsDecoded(leftover + ss)
  }

  /**
   * On a list where every entry carries both keys the two call sites agree,
   * when OnShowChart starts from an empty vector.
   */
  lemma CallSitesAgreeOnWellFormedLists(j: Json)
    requires HasKey(j, SensorListKey)
    requires forall x :: x in Elements(Field(j, SensorListKey).value) ==> Keyed(x)
    ensures ChartSensorList(j, []) == WorkerSensorList(j)
  {
    var xs := Elements(Field(j, SensorListKey).value);
    assert KeyedOnly(xs) == xs by {
      KeyedOnlyKeepsKeyed(xs);
    }
    LenientIsStrictOnKeyed(xs);
    EmptyMeansNoElements(Field(j, SensorListKey).value);
    assert [] + xs == xs;
    match StrictSensors(xs) {
      case Err(e) =>
      case Ok(ss) =>
        if xs != [] {
          assert |ss| == |xs|;
          assert [] + ss == ss;
        }
    }
  }

  lemma {:induction false} KeyedOnlyKeepsKeyed(xs: seq<Json>)
    requires forall x :: x in xs ==> Keyed(x)
    ensures KeyedOnly(xs) == xs
  {
    if xs != [] {
      KeyedOnlyKeepsKeyed(xs[1..]);
    }
  }

  /**
   * A worked example of UnkeyedEntryPolicies: an entry lacking a key is
   * fatal to the workers but merely skipped by OnShowChart.
   */
  lemma MissingKeyPolicies(j: Json)
    requires j == JObject([(SensorListKey, JArray([JObject([(SensorIdKey, JNumber(7.0))]), JObject([(SensorIdKey, JNumber(8.0)), (ParamKey, JString("PM10"))])]))])
    ensures WorkerSensorList(j) == SensorsFailed(MissingKey(ParamKey))
    ensures ChartSensorList(j, []) == SensorsDecoded([Sensor(8, "PM10")])
  {
    var bare := JObject([(SensorIdKey, JNumber(7.0))]);
    var good := JObject([(SensorIdKey, JNumber(8.0)), (ParamKey, JString("PM10"))]);
    var xs := [bare, good];
    assert HasEntries(j) && SensorEntries(j) == xs;
    assert !Keyed(bare) && DecodeSensor(bare) == Err(MissingKey(ParamKey)) by {
      assert SensorIdKey[0] != ParamKey[0];
    }
    UnkeyedEntryPolicies(xs, 0);
    assert WorkerSensorList(j) == SensorsFailed(MissingKey(ParamKey));
    assert LenientSensors(xs) == Ok([Sensor(8, "PM10")]) by {
      assert xs[..0] + xs[1..] == [good];
      GoodEntryDecodes(good);
      assert [good][1..] == [];
      assert [Sensor(8, "PM10")] + [] == [Sensor(8, "PM10")];
    }
  }

  lemma GoodEntryDecodes(good: Json)
    requires good == JObject([(SensorIdKey, JNumber(8.0)), (ParamKey, JString("PM10"))])
    ensures Keyed(good) && DecodeSensor(good) == Ok(Sensor(8, "PM10"))
  {
    assert SensorIdKey[0] != ParamKey[0];
    assert good.members == [(SensorIdKey, JNumber(8.0))] + [(ParamKey, JString("PM10"))];
    LookupStep(SensorIdKey, JNumber(8.0), [(ParamKey, JString("PM10"))], ParamKey);
    assert [(ParamKey, JString("PM10"))] == [(ParamKey, JString("PM10"))] + [];
    LookupStep(ParamKey, JString("PM10"), [], ParamKey);
    LookupStep(SensorIdKey, JNumber(8.0), [(ParamKey, JString("PM10"))], SensorIdKey);
  }

  /**
   * An entry without both keys, reached after entries that all decode,
   * aborts the workers' decode with that entry's error, while OnShowChart's
   * decode goes on as if the entry were not there.
   */
  lemma {:induction false} UnkeyedEntryPolicies(xs: seq<Json>, i: nat)
    requires i < |xs| && !Keyed(xs[i])
    requires forall t :: 0 <= t < i ==> DecodeSensor(xs[t]).Ok?
    ensures StrictSensors(xs) == Err(DecodeSensor(xs[i]).error)
    ensures LenientSensors(xs) == LenientSensors(xs[..i] + xs[i + 1..])
  {
    StrictStopsAt(xs, i);
    KeyedOnlyDrops(xs, i);
    LenientIsStrictOnKeyed(xs);
    LenientIsStrictOnKeyed(xs[..i] + xs[i + 1..]);
  }

  lemma {:induction false} StrictStopsAt(xs: seq<Json>, i: nat)
    requires i < |xs| && DecodeSensor(xs[i]).Err?
    requires forall t :: 0 <= t < i ==> DecodeSensor(xs[t]).Ok?
    ensures StrictSensors(xs) == Err(DecodeSensor(xs[i]).error)
  {
    var r := StrictSensors(xs);
    if r.Err? {
      var t :| 0 <= t < |xs| && DecodeSensor(xs[t]) == Err(r.error) && forall u :: 0 <= u < t ==> DecodeSensor(xs[u]).Ok?;
      assert t == i;
    }
  }

  lemma {:induction false} KeyedOnlyDrops(xs: seq<Json>, i: nat)
    requires i < |xs| && !Keyed(xs[i])
    ensures KeyedOnly(xs) == KeyedOnly(xs[..i] + xs[i + 1..])
  {
    assert xs == xs[..i] + ([xs[i]] + xs[i + 1..]);
    KeyedOnlyAppend(xs[..i], [xs[i]] + xs[i + 1..]);
    KeyedOnlyAppend([xs[i]], xs[i + 1..]);
    assert [xs[i]][1..] == [];
    KeyedOnlyAppend(xs[..i], xs[i + 1..]);
  }

  // ---------------------------------------------------------------------------
  // The decode loops

  /** The workers' loop (main.cpp:343-348, 493-498): each entry is decoded and pushed; the first that throws ends it. */
  method DecodeSensorsStrict(xs: seq<Json>) returns (sensors: seq<Sensor>, failure: Option<JsonError>)
    ensures failure.None? <==> StrictSensors(xs).Ok?
    ensures failure.None? ==> sensors == StrictSensors(xs).value
    ensures failure.Some? ==> failure.value == StrictSensors(xs).error
  {
    sensors := [];
    for i := 0 to |xs|
      invariant |sensors| == i
      invariant forall t :: 0 <= t < i ==> DecodeSensor(xs[t]) == Ok(sensors[t])
    {
      var s := DecodeSensor(xs[i]);
      if s.Err? {
        DecodeEachDetermined(xs, DecodeSensor, sensors, Some(s.error));
        return sensors, Some(s.error);
      }
      sensors := sensors + [s.value];
    }
    DecodeEachDetermined(xs, DecodeSensor, sensors, None);
    failure := None;
  }

  /** The decoded sensors so far are those of the keyed entries seen so far. */
  ghost predicate DecodedKeyed(keyed: seq<Json>, decoded: seq<Sensor>) {
    |decoded| == |keyed| && forall t :: 0 <= t < |keyed| ==> DecodeSensor(keyed[t]) == Ok(decoded[t])
  }

  lemma {:induction false} SkippingStop(xs: seq<Json>, i: nat, decoded: seq<Sensor>, e: JsonError)
    requires i < |xs| && Keyed(xs[i]) && DecodeSensor(xs[i]) == Err(e)
    requires DecodedKeyed(KeyedOnly(xs[..i]), decoded)
    ensures LenientSensors(xs) == Err(e)
  {
    var keyed := KeyedOnly(xs[..i]);
    var all := KeyedOnly(xs);
    assert all == keyed + [xs[i]] + KeyedOnly(xs[i + 1..]) by {
      KeyedOnlyStep(xs, i);
      assert xs == xs[..i + 1] + xs[i + 1..];
      KeyedOnlyAppend(xs[..i + 1], xs[i + 1..]);
    }
    assert DecodeEach(all, DecodeSensor) == Decoded(decoded, Some(e)) by {
      assert all[|keyed|] == xs[i];
      assert forall t :: 0 <= t < |keyed| ==> all[t] == keyed[t];
      DecodeEachDetermined(all, DecodeSensor, decoded, Some(e));
    }
    LenientIsStrictOnKeyed(xs);
  }

  lemma {:induction false} SkippingEnd(xs: seq<Json>, decoded: seq<Sensor>)
    requires DecodedKeyed(KeyedOnly(xs[..|xs|]), decoded)
    ensures LenientSensors(xs) == Ok(decoded)
  {
    assert xs[..|xs|] == xs;
    DecodeEachDetermined(KeyedOnly(xs), DecodeSensor, decoded, None);
    LenientIsStrictOnKeyed(xs);
  }

  /**
   * OnShowChart's loop (main.cpp:671-680): entries without both keys are
   * skipped, the others decoded and pushed after what `sensors` already held.
   */
  method DecodeSensorsSkipping(xs: seq<Json>, leftover: seq<Sensor>) returns (sensors: seq<Sensor>, failure: Option<JsonError>)
    ensures failure.None? <==> LenientSensors(xs).Ok?
    ensures failure.None? ==> sensors == leftover + LenientSensors(xs).value
    ensures failure.Some? ==> failure.value == LenientSensors(xs).error
  {
    sensors := leftover;
    ghost var decoded: seq<Sensor> := [];
    for i := 0 to |xs|
      invariant DecodedKeyed(KeyedOnly(xs[..i]), decoded)
      invariant sensors == leftover + decoded
    {
      KeyedOnlyStep(xs, i);
      if !Keyed(xs[i]) {
        continue;
      }
      var s := DecodeSensor(xs[i]);
      if s.Err? {
        SkippingStop(xs, i, decoded, s.error);
        return sensors, Some(s.error);
      }
      sensors := sensors + [s.value];
      decoded := decoded + [s.value];
    }
    SkippingEnd(xs, decoded);
    failure := None;
  }

  /** The workers' decode block (main.cpp:327-349, 477-499) once the text has parsed. */
  method DecodeWorkerList(j: Json) returns (r: SensorList)
    ensures r == WorkerSensorList(j)
  {
    if !HasKey(j, SensorListKey) {
      return NoEnvelope;
    }
    var list := Field(j, SensorListKey).value;
    if IsEmpty(list) {
      return NoSensors;
    }
    var sensors, failure := DecodeSensorsStrict(Elements(list));
    if failure.Some? {
      r := SensorsFailed(failure.value);
    } else {
      r := SensorsDecoded(sensors);
    }
  }

  /** OnShowChart's decode block (main.cpp:659-685) once the text has parsed. */
  method DecodeChartList(j: Json, leftover: seq<Sensor>) returns (r: SensorList)
    ensures r == ChartSensorList(j, leftover)
  {
    if !HasKey(j, SensorListKey) {
      return NoEnvelope;
    }
    var list := Field(j, SensorListKey).value;
    if IsEmpty(list) {
      return NoSensors;
    }
    var sensors, failure := DecodeSensorsSkipping(Elements(list), leftover);
    if failure.Some? {
      r := SensorsFailed(failure.value);
    } else if sensors == [] {
      r := NoValidSensors;
    } else {
      r := SensorsDecoded(sensors);
    }
  }
}
