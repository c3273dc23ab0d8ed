/**
 * ChartFrame (ChartFrame.cpp): the chart window. Building it fetches each
 * sensor's current readings, turns those of the last three days into
 * (hours back, value) points, adds one plot layer and one legend entry per
 * sensor that produced points, then fits the axes. Times are milliseconds;
 * "now", the date parser and the colour generator are parameters.
 */
module Chart {
  import opened Text
  import opened JsonTree
  import opened Stations
  import opened Report
  import Fetch

  newtype Channel = c: int | 0 <= c < 256

  datatype Colour = Colour(red: Channel, green: Channel, blue: Channel)

  /** A layer of the plot window: one sensor's line, or an axis. */
  datatype Layer = Series(xs: seq<real>, ys: seq<real>, colour: Colour) | Axis(title: string)

  /** The window the plot is fitted to. */
  datatype View = View(xMin: real, xMax: real, yMin: real, yMax: real)

  /** std::numeric_limits<double>::max(); the y range starts at (max, lowest) = (MaxDouble, -MaxDouble). */
  const MaxDouble: real := 1.7976931348623157e308

  const ThreeDays: int := 3 * 24 * 60 * 60 * 1000

  /** 3 * 24.0: the x range is fixed at 72 hours. */
  const MaxHours: real := 72.0

  const XAxisTitle := "Czas (godziny wstecz)"
  const YAxisTitle := "Wartość"

  // ---------------------------------------------------------------------------
  // One measurement

  /**
   * diff.GetHours() + diff.GetMinutes() / 60.0 for a span of `diff`
   * milliseconds: whole hours plus the span's TOTAL minutes over sixty.
   */
  function HoursBack(diff: nat): (x: real)
    ensures 0.0 <= x
  {
    var minutes := diff / 1000 / 60;
    (minutes / 60) as real + minutes as real / 60.0
  }

  datatype Point = Point(x: real, y: real)

  /** The entry's date as wxDateTime parses it, provided its "Data" member is a string. */
  function EntryDate(m: Json, parseDate: string -> Option<int>): Option<int> {
    if HasKey(m, DateKey) && Field(m, DateKey).value.JString? then parseDate(Field(m, DateKey).value.s) else None
  }

  /** The chart keeps dates in [now - 3 days, now]. */
  predicate InWindow(date: int, now: int) {
    now - ThreeDays <= date <= now
  }

  /**
   * One entry of the measurement list: Ok(None) skips it (no value, no
   * parsable date, or a date outside [now - 3 days, now]), Ok(Some(p))
   * plots it, Err is an exception that ends the sensor. The date is read
   * before the value.
   */
  function PointOf(m: Json, now: int, parseDate: string -> Option<int>): (r: Result<Option<Point>>)
    ensures !HasValue(m) ==> r == Ok(None)
    ensures r.Ok? && r.value.Some? <==>
              HasValue(m) && EntryDate(m, parseDate).Some? && InWindow(EntryDate(m, parseDate).value, now) &&
              AsReal(Field(m, ValueKey).value).Ok?
    ensures HasValue(m) && EntryDate(m, parseDate).Some? && InWindow(EntryDate(m, parseDate).value, now) &&
            AsReal(Field(m, ValueKey).value).Ok? ==>
              r == Ok(Some(Point(HoursBack(now - EntryDate(m, parseDate).value), AsReal(Field(m, ValueKey).value).value)))
    ensures r.Err? <==>
              HasValue(m) &&
              (!HasKey(m, DateKey) || !Field(m, DateKey).value.JString? ||
               (EntryDate(m, parseDate).Some? && InWindow(EntryDate(m, parseDate).value, now) &&
                AsReal(Field(m, ValueKey).value).Err?))
    ensures r.Ok? && r.value.Some? ==> 0.0 <= r.value.value.x <= 2.0 * MaxHours
  {
    if !HasValue(m) then Ok(None)
    else
      var dateJson :- Field(m, DateKey);
      var dateText :- AsString(dateJson);
      match parseDate(dateText)
      case None => Ok(None)
      case Some(date) =>
        if date < now - ThreeDays || date > now then Ok(None)
        else
          var valueJson := Field(m, ValueKey).value;
          var value :- AsReal(valueJson);
          HoursBackWithinWindow(now - date);
          Ok(Some(Point(HoursBack(now - date), value)))
  }

  function PointReader(now: int, parseDate: string -> Option<int>): Json -> Result<Option<Point>> {
    m => PointOf(m, now, parseDate)
  }

  /** The plotted points among the outcomes, in order. */
  function Present(os: seq<Option<Point>>): (ps: seq<Point>)
    ensures |ps| <= |os|
    ensures forall p :: p in ps <==> Some(p) in os
  {
    if os == [] then []
    else
      var last := os[|os| - 1];
      assert forall o :: o in os <==> o in os[..|os| - 1] || o == last by {
        assert os == os[..|os| - 1] + [last];
      }
      Present(os[..|os| - 1]) + if last.Some? then [last.value] else []
  }

  function Xs(ps: seq<Point>): (r: seq<real>)
    ensures |r| == |ps| && forall i :: 0 <= i < |ps| ==> r[i] == ps[i].x
  {
    seq(|ps|, i requires 0 <= i < |ps| => ps[i].x)
  }

  function Ys(ps: seq<Point>): (r: seq<real>)
    ensures |r| == |ps| && forall i :: 0 <= i < |ps| ==> r[i] == ps[i].y
  {
    seq(|ps|, i requires 0 <= i < |ps| => ps[i].y)
  }

  /** yMin after `yMin = std::min(yMin, v)` for each v in turn. */
  function FoldMin(lo: real, vs: seq<real>): real {
    if vs == [] then lo
    else
      var m := FoldMin(lo, vs[..|vs| - 1]);
      if vs[|vs| - 1] < m then vs[|vs| - 1] else m
  }

  /** yMax after `yMax = std::max(yMax, v)` for each v in turn. */
  function FoldMax(hi: real, vs: seq<real>): real {
    if vs == [] then hi
    else
      var m := FoldMax(hi, vs[..|vs| - 1]);
      if m < vs[|vs| - 1] then vs[|vs| - 1] else m
  }

  // ---------------------------------------------------------------------------
  // One sensor

  /** What reading one sensor's data gives: nothing, or the points read and whether the whole list was read. */
  datatype SensorScan = Unread | Scanned(points: seq<Point>, complete: bool)

  function ScanSpec(data: string, parse: string -> ParseResult, now: int, parseDate: string -> Option<int>): SensorScan {
    if StartsWith(data, Fetch.ErrorTag) then Unread
    else match parse(data)
      case ParseFailed(_) => Unread
      case Parsed(j) =>
        if !HasKey(j, CurrentListKey) then Unread
        else
          var d := DecodeEach(Elements(Field(j, CurrentListKey).value), PointReader(now, parseDate));
          Scanned(Present(d.items), d.failure.None?)
  }

  function ScanOf(dataFor: int -> string, parse: string -> ParseResult, now: int, parseDate: string -> Option<int>): Sensor -> SensorScan {
    (s: Sensor) => ScanSpec(dataFor(s.id), parse, now, parseDate)
  }

  /** What the outer loop carries from sensor to sensor. */
  datatype PlotState = PlotState(yMin: real, yMax: real, labels: seq<string>, colours: seq<Colour>, series: seq<Layer>)

  /** One sensor's effect: its values widen the y range even when its list later throws; it gets a layer only when read to the end with points. */
  function Step(st: PlotState, sensor: Sensor, scan: SensorScan, colourFor: nat -> Colour): PlotState {
    match scan
    case Unread => st
    case Scanned(points, complete) =>
      var ys := Ys(points);
      var widened := st.(yMin := FoldMin(st.yMin, ys), yMax := FoldMax(st.yMax, ys));
      if complete && points != [] then
        var c := colourFor(|st.colours|);
        widened.(labels := st.labels + [sensor.paramName], colours := st.colours + [c], series := st.series + [Series(Xs(points), ys, c)])
      else widened
  }

  function PlotAll(sensors: seq<Sensor>, scanOf: Sensor -> SensorScan, colourFor: nat -> Colour): PlotState {
    if sensors == [] then PlotState(MaxDouble, -MaxDouble, [], [], [])
    else
      var k := |sensors| - 1;
      Step(PlotAll(sensors[..k], scanOf, colourFor), sensors[k], scanOf(sensors[k]), colourFor)
  }

  /** plot->Fit: x over [0, 72]; y over the values read widened to include 0 with a 10% margin, or [0, 72] when nothing was read. */
  function FitView(yMin: real, yMax: real): View {
    if yMin > yMax then View(0.0, MaxHours, 0.0, 72.0)
    else
      var lo := if yMin < 0.0 then yMin else 0.0;
      var hi := if yMax > 0.0 then yMax else 0.0;
      var margin := (hi - lo) * 0.1;
      View(0.0, MaxHours, lo - margin, hi + margin)
  }

  // ---------------------------------------------------------------------------
  // The window

  class ChartFrame {
    var title: string
    /** The colours of the legend entries (the sensorColors member). */
    var sensorColors: seq<Colour>
    /** The labels the legend panel was built with. */
    var legendLabels: seq<string>
    /** The plot window's layers, in the order they were added. */
    var layers: seq<Layer>
    var view: View

    /** The legend panel draws label i in colour i: there must be as many colours as labels. */
    predicate LegendConsistent()
      reads this
    {
      |legendLabels| == |sensorColors|
    }

    constructor (station: Station, sensors: seq<Sensor>, dataFor: int -> string, parse: string -> ParseResult,
                 now: int, parseDate: string -> Option<int>, colourFor: nat -> Colour)
      ensures title == "Wykres danych dla " + station.name
      ensures var st := PlotAll(sensors, ScanOf(dataFor, parse, now, parseDate), colourFor);
              sensorColors == st.colours && legendLabels == st.labels &&
              layers == st.series + [Axis(XAxisTitle), Axis(YAxisTitle)] &&
              view == FitView(st.yMin, st.yMax)
      ensures LegendConsistent()
    {
      title := "Wykres danych dla " + station.name;
      sensorColors := [];
      legendLabels := [];
      layers := [];
      view := View(0.0, 0.0, 0.0, 0.0);
      new;
      FetchAndPlotData(sensors, dataFor, parse, now, parseDate, colourFor);
    }

    /**
     * The loop over one sensor's measurements (ChartFrame.cpp:115-140);
     * `read` is the loop body's reading of one measurement, PointReader.
     */
    static method ScanMeasurements(ms: seq<Json>, read: Json -> Result<Option<Point>>, yMin0: real, yMax0: real)
        returns (xs: seq<real>, ys: seq<real>, complete: bool, yMin: real, yMax: real)
      ensures var d := DecodeEach(ms, read);
              complete == d.failure.None? &&
              ys == Ys(Present(d.items)) &&
              (complete ==> xs == Xs(Present(d.items))) &&
              yMin == FoldMin(yMin0, ys) && yMax == FoldMax(yMax0, ys)
    {
      xs, ys, yMin, yMax := [], [], yMin0, yMax0;
      ghost var outcomes: seq<Option<Point>> := [];
      for i := 0 to |ms|
        invariant |outcomes| == i
        invariant forall t :: 0 <= t < i ==> read(ms[t]) == Ok(outcomes[t])
        invariant xs == Xs(Present(outcomes)) && ys == Ys(Present(outcomes))
        invariant yMin == FoldMin(yMin0, ys) && yMax == FoldMax(yMax0, ys)
      {
        var m := ms[i];
        var outcome := read(m);
        if outcome.Err? {
          DecodeEachDetermined(ms, read, outcomes, Some(outcome.error));
          return xs, ys, false, yMin, yMax;
        }
        ScanSnoc(outcomes, outcome.value, yMin0, yMax0);
        if outcome.value.Some? {
          var p := outcome.value.value;
          xs := xs + [p.x];
          ys := ys + [p.y];
          yMin := if p.y < yMin then p.y else yMin;
          yMax := if yMax < p.y then p.y else yMax;
        }
        outcomes := outcomes + [outcome.value];
      }
      DecodeEachDetermined(ms, read, outcomes, None);
      complete := true;
    }

    /**
     * The part of one turn of the sensor loop that reads the fetched text
     * (ChartFrame.cpp:103-140): `read` is false when the text is an error,
     * does not parse or has no measurement list.
     */
    static method ReadSensorData(data: string, parse: string -> ParseResult, now: int, parseDate: string -> Option<int>,
                                 yMin0: real, yMax0: real)
        returns (read: bool, xs: seq<real>, ys: seq<real>, complete: bool, yMin: real, yMax: real)
      ensures match ScanSpec(data, parse, now, parseDate)
              case Unread => !read && yMin == yMin0 && yMax == yMax0
              case Scanned(points, complete') =>
                read && complete == complete' && ys == Ys(points) && (complete ==> xs == Xs(points)) &&
                yMin == FoldMin(yMin0, ys) && yMax == FoldMax(yMax0, ys)
    {
      read, xs, ys, complete, yMin, yMax := false, [], [], false, yMin0, yMax0;
      if StartsWith(data, Fetch.ErrorTag) {
        return;
      }
      match parse(data) {
        case ParseFailed(_) =>
        case Parsed(j) =>
          if !HasKey(j, CurrentListKey) {
            return;
          }
          read := true;
          xs, ys, complete, yMin, yMax := ScanMeasurements(Elements(Field(j, CurrentListKey).value), PointReader(now, parseDate), yMin0, yMax0);
      }
    }

    /** One turn of the sensor loop (ChartFrame.cpp:100-162): yMin and yMax are the loop's running range. */
    method PlotSensor(sensor: Sensor, data: string, parse: string -> ParseResult, now: int, parseDate: string -> Option<int>,
                      colourFor: nat -> Colour, labels: seq<string>, yMin0: real, yMax0: real,
                      ghost layers0: seq<Layer>, ghost series0: seq<Layer>)
        returns (labels': seq<string>, yMin: real, yMax: real)
      requires layers == layers0 + series0
      modifies this
      ensures var before := PlotState(yMin0, yMax0, labels, old(sensorColors), series0);
              var after := Step(before, sensor, ScanSpec(data, parse, now, parseDate), colourFor);
              after.yMin == yMin && after.yMax == yMax && after.labels == labels' && after.colours == sensorColors &&
              layers == layers0 + after.series
      ensures title == old(title) && view == old(view) && legendLabels == old(legendLabels)
    {
      labels' := labels;
      var read, xs, ys, complete;
      read, xs, ys, complete, yMin, yMax := ReadSensorData(data, parse, now, parseDate, yMin0, yMax0);
      if read {
        ghost var points := ScanSpec(data, parse, now, parseDate).points;
        assert complete ==> (xs != [] <==> points != []);
        if complete && xs != [] {
          var c := colourFor(|sensorColors|);
          LayersGrow(layers0, series0, Series(xs, ys, c));
          layers := layers + [Series(xs, ys, c)];
          labels' := labels + [sensor.paramName];
          sensorColors := sensorColors + [c];
        }
      }
    }

    /** ChartFrame::FetchAndPlotData (ChartFrame.cpp:76-196). */
    method FetchAndPlotData(sensors: seq<Sensor>, dataFor: int -> string, parse: string -> ParseResult,
                            now: int, parseDate: string -> Option<int>, colourFor: nat -> Colour)
      modifies this
      ensures var st := PlotAll(sensors, ScanOf(dataFor, parse, now, parseDate), colourFor);
              sensorColors == st.colours && legendLabels == st.labels &&
              layers == old(layers) + st.series + [Axis(XAxisTitle), Axis(YAxisTitle)] &&
              view == FitView(st.yMin, st.yMax)
      ensures title == old(title)
      ensures LegendConsistent()
    {
      ghost var scanOf := ScanOf(dataFor, parse, now, parseDate);
      sensorColors := [];
      var labels: seq<string> := [];
      var yMin := MaxDouble;
      var yMax := -MaxDouble;
      ghost var layers0 := layers;
      for i := 0 to |sensors|
        invariant var st := PlotAll(sensors[..i], scanOf, colourFor);
                  st.yMin == yMin && st.yMax == yMax && st.labels == labels && st.colours == sensorColors &&
                  layers == layers0 + st.series
        invariant title == old(title)
      {
        assert sensors[..i + 1][..i] == sensors[..i];
        labels, yMin, yMax := PlotSensor(sensors[i], dataFor(sensors[i].id), parse, now, parseDate, colourFor, labels, yMin, yMax,
                                         layers0, PlotAll(sensors[..i], scanOf, colourFor).series);
      }
      assert sensors[..|sensors|] == sensors;
      PlotAllConsistent(sensors, scanOf, colourFor);
      legendLabels := labels;
      layers := layers + [Axis(XAxisTitle), Axis(YAxisTitle)];
      view := FitView(yMin, yMax);
    }
  }

  // ---------------------------------------------------------------------------
  // Lemmas for the loops

  lemma LayersGrow(layers0: seq<Layer>, series: seq<Layer>, layer: Layer)
    ensures layers0 + series + [layer] == layers0 + (series + [layer])
  {
  }

  lemma PresentSnoc(os: seq<Option<Point>>, o: Option<Point>)
    ensures Present(os + [o]) == Present(os) + if o.Some? then [o.value] else []
  {
    assert (os + [o])[..|os|] == os;
  }

  lemma XsSnoc(ps: seq<Point>, p: Point)
    ensures Xs(ps + [p]) == Xs(ps) + [p.x] && Ys(ps + [p]) == Ys(ps) + [p.y]
  {
  }

  /** One more outcome read: the point, if any, is appended and folded into the running range. */
  lemma ScanSnoc(os: seq<Option<Point>>, o: Option<Point>, lo: real, hi: real)
    ensures var ps := Present(os);
            var ps' := Present(os + [o]);
            if o.None? then ps' == ps
            else
              Xs(ps') == Xs(ps) + [o.value.x] && Ys(ps') == Ys(ps) + [o.value.y] &&
              FoldMin(lo, Ys(ps')) == (if o.value.y < FoldMin(lo, Ys(ps)) then o.value.y else FoldMin(lo, Ys(ps))) &&
              FoldMax(hi, Ys(ps')) == (if FoldMax(hi, Ys(ps)) < o.value.y then o.value.y else FoldMax(hi, Ys(ps)))
  {
    PresentSnoc(os, o);
    if o.Some? {
      var ps := Present(os);
      XsSnoc(ps, o.value);
      var ys' := Ys(ps + [o.value]);
      assert ys'[..|ys'| - 1] == Ys(ps);
    }
  }

  // ---------------------------------------------------------------------------
  // Properties

  /** A plotted x is between 0 and 144: whole hours plus total minutes over sixty counts the age about twice. */
  lemma HoursBackWithinWindow(diff: nat)
    requires diff <= ThreeDays
    ensures 0.0 <= HoursBack(diff) <= 2.0 * MaxHours
  {
    var minutes := diff / 1000 / 60;
    assert minutes <= 4320;
    assert minutes / 60 <= 72;
  }

  /** A reading exactly `h` whole hours old is plotted at x = 2h, not h. */
  lemma WholeHoursPlotTwice(h: nat)
    ensures HoursBack(h * 3600000) == 2.0 * h as real
  {
    var minutes := h * 3600000 / 1000 / 60;
    assert h * 3600000 / 1000 == h * 3600;
    assert minutes == h * 60;
    assert minutes / 60 == h;
  }

  /** Readings more than 36 hours and one minute old land right of the fitted x range. */
  lemma OldReadingsLeaveTheAxis(diff: nat)
    requires diff >= (36 * 60 + 1) * 60000
    ensures HoursBack(diff) > MaxHours
  {
    var minutes := diff / 1000 / 60;
    assert minutes >= 36 * 60 + 1 by {
      assert diff / 1000 >= (36 * 60 + 1) * 60;
    }
    assert minutes / 60 >= 36;
    assert minutes as real / 60.0 > 36.0;
  }

  lemma {:induction false} FoldMinBounds(lo: real, vs: seq<real>)
    ensures FoldMin(lo, vs) <= lo
    ensures forall i :: 0 <= i < |vs| ==> FoldMin(lo, vs) <= vs[i]
    ensures FoldMin(lo, vs) == lo || exists i :: 0 <= i < |vs| && FoldMin(lo, vs) == vs[i]
  {
    if vs != [] {
      var k := |vs| - 1;
      FoldMinBounds(lo, vs[..k]);
      assert forall i :: 0 <= i < k ==> vs[..k][i] == vs[i];
      if FoldMin(lo, vs) != lo && FoldMin(lo, vs) != vs[k] {
        var i :| 0 <= i < k && FoldMin(lo, vs[..k]) == vs[..k][i];
        assert FoldMin(lo, vs) == vs[i];
      }
    }
  }

  lemma {:induction false} FoldMaxBounds(hi: real, vs: seq<real>)
    ensures hi <= FoldMax(hi, vs)
    ensures forall i :: 0 <= i < |vs| ==> vs[i] <= FoldMax(hi, vs)
    ensures FoldMax(hi, vs) == hi || exists i :: 0 <= i < |vs| && FoldMax(hi, vs) == vs[i]
  {
    if vs != [] {
      var k := |vs| - 1;
      FoldMaxBounds(hi, vs[..k]);
      assert forall i :: 0 <= i < k ==> vs[..k][i] == vs[i];
      if FoldMax(hi, vs) != hi && FoldMax(hi, vs) != vs[k] {
        var i :| 0 <= i < k && FoldMax(hi, vs[..k]) == vs[..k][i];
        assert FoldMax(hi, vs) == vs[i];
      }
    }
  }

  /** The y range contains 0 and every value read; with no value read it is [0, 72]. */
  lemma FitCoversValues(vs: seq<real>)
    ensures var v := FitView(FoldMin(MaxDouble, vs), FoldMax(-MaxDouble, vs));
            v.xMin == 0.0 && v.xMax == MaxHours && v.yMin <= 0.0 <= v.yMax &&
            (forall i :: 0 <= i < |vs| ==> v.yMin <= vs[i] <= v.yMax) &&
            (vs == [] ==> v == View(0.0, MaxHours, 0.0, 72.0))
  {
    FoldMinBounds(MaxDouble, vs);
    FoldMaxBounds(-MaxDouble, vs);
  }

  /** The values that went through yMin and yMax: every point read, sensor after sensor. */
  function ValuesRead(sensors: seq<Sensor>, scanOf: Sensor -> SensorScan): seq<real> {
    if sensors == [] then []
    else
      var k := |sensors| - 1;
      ValuesRead(sensors[..k], scanOf) + match scanOf(sensors[k]) { case Unread => [] case Scanned(ps, _) => Ys(ps) }
  }

  lemma {:induction false} FoldMinAppend(lo: real, a: seq<real>, b: seq<real>)
    ensures FoldMin(lo, a + b) == FoldMin(FoldMin(lo, a), b)
    ensures FoldMax(lo, a + b) == FoldMax(FoldMax(lo, a), b)
  {
    if b != [] {
      var k := |b| - 1;
      assert (a + b)[..|a + b| - 1] == a + b[..k];
      FoldMinAppend(lo, a, b[..k]);
    } else {
      assert a + b == a;
    }
  }

  /** The running range is the range of every value read, whatever became of the sensors they came from. */
  lemma {:induction false} PlotAllRange(sensors: seq<Sensor>, scanOf: Sensor -> SensorScan, colourFor: nat -> Colour)
    ensures PlotAll(sensors, scanOf, colourFor).yMin == FoldMin(MaxDouble, ValuesRead(sensors, scanOf))
    ensures PlotAll(sensors, scanOf, colourFor).yMax == FoldMax(-MaxDouble, ValuesRead(sensors, scanOf))
  {
    if sensors != [] {
      var k := |sensors| - 1;
      PlotAllRange(sensors[..k], scanOf, colourFor);
      match scanOf(sensors[k]) {
        case Unread =>
          assert ValuesRead(sensors, scanOf) == ValuesRead(sensors[..k], scanOf) + [];
          assert ValuesRead(sensors[..k], scanOf) + [] == ValuesRead(sensors[..k], scanOf);
        case Scanned(ps, _) =>
          FoldMinAppend(MaxDouble, ValuesRead(sensors[..k], scanOf), Ys(ps));
          FoldMinAppend(-MaxDouble, ValuesRead(sensors[..k], scanOf), Ys(ps));
      }
    }
  }

  /** After the chart is built, its y range covers 0 and every value read from any sensor. */
  lemma ChartCoversEveryValue(sensors: seq<Sensor>, scanOf: Sensor -> SensorScan, colourFor: nat -> Colour)
    ensures var st := PlotAll(sensors, scanOf, colourFor);
            var v := FitView(st.yMin, st.yMax);
            var vs := ValuesRead(sensors, scanOf);
            v.yMin <= 0.0 <= v.yMax && forall i :: 0 <= i < |vs| ==> v.yMin <= vs[i] <= v.yMax
  {
    PlotAllRange(sensors, scanOf, colourFor);
    FitCoversValues(ValuesRead(sensors, scanOf));
  }

  /** Layer i is drawn in legend colour i, has as many x as y values, and at least one point. */
  ghost predicate Consistent(st: PlotState) {
    |st.labels| == |st.colours| == |st.series| &&
    forall i :: 0 <= i < |st.series| ==>
      st.series[i].Series? && st.series[i].colour == st.colours[i] &&
      |st.series[i].xs| == |st.series[i].ys| > 0
  }

  lemma {:induction false} PlotAllConsistent(sensors: seq<Sensor>, scanOf: Sensor -> SensorScan, colourFor: nat -> Colour)
    ensures Consistent(PlotAll(sensors, scanOf, colourFor))
  {
    if sensors != [] {
      PlotAllConsistent(sensors[..|sensors| - 1], scanOf, colourFor);
    }
  }

  /** A sensor whose list throws part-way gets no layer and no legend entry, but the values read before still widen the range. */
  lemma ThrowingSensorOnlyWidens(st: PlotState, sensor: Sensor, ps: seq<Point>, colourFor: nat -> Colour)
    ensures var after := Step(st, sensor, Scanned(ps, false), colourFor);
            after.labels == st.labels && after.colours == st.colours && after.series == st.series &&
            after.yMin <= st.yMin && st.yMax <= after.yMax &&
            forall i :: 0 <= i < |ps| ==> after.yMin <= ps[i].y <= after.yMax
  {
    FoldMinBounds(st.yMin, Ys(ps));
    FoldMaxBounds(st.yMax, Ys(ps));
  }
}
