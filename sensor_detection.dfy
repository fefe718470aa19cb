/**
 * Sensor detection for PLUX devices (src/mobi_physio_api/sensor_detection.py):
 * the first-match resolver that turns a sensor's raw type code,
 * characteristics and product identifier into a type label, the
 * per-port enumeration that builds channels, labels, records and
 * acquisition sources, and the `<type>_CH<port>` naming with its
 * reverse map.
 */
module SensorDetection {
  import opened Wrappers
  import opened Text
  import opened PyDict

  /** A loosely typed attribute value reported by the SDK. */
  datatype Value = Int(i: int) | Str(s: string)

  /** Python's `str(v)`, which is also what an f-string inserts. */
  function Render(v: Value): string {
    match v
    case Int(i) => IntToString(i)
    case Str(s) => s
  }

  /**
   * A sensor object as the SDK reports it.  `characteristics` is `None`
   * when the attribute is not a dict; `productId` is `None` when the
   * sensor has no `productID` attribute.
   */
  datatype Sensor = Sensor(
    typeCode: int,
    clas: Value,
    serialNum: Value,
    hwVersion: Value,
    characteristics: Option<map<string, Value>>,
    productId: Option<Value>)

  /** The device-level properties dict. */
  type Properties = map<string, Value>

  /** The per-port record kept in `sensor_info`. */
  datatype SensorRecord = SensorRecord(
    typeCode: int,
    clas: Value,
    characteristics: Option<map<string, Value>>,
    serial: Value,
    hwVersion: Value,
    productId: Value)

  /** An acquisition source: port, sampling divisor, resolution and optional derivation mask. */
  datatype Source = Source(port: int, freqDivisor: int, nBits: int, chMask: Option<int>)

  /**
   * What the device answers when asked: the sensors by port, or `None`
   * when `getSensors` raises; the properties, or `None` when
   * `getProperties` raises.
   */
  datatype Device = Device(sensors: Option<Dict<int, Sensor>>, properties: Option<Properties>)

  /** The four results of `get_sensor_info`. */
  datatype Detection = Detection(
    channels: seq<int>,
    sensorTypes: Dict<int, string>,
    sensorInfo: Dict<int, SensorRecord>,
    sources: seq<Source>)

  // ---------------------------------------------------------------------
  // The resolver
  // ---------------------------------------------------------------------

  /** `SENSOR_TYPE_MAPPING`: PLUX raw type codes and their labels. */
  function SensorTypeLabel(code: int): Option<string> {
    if code == 0 then Some("EMG")
    else if code == 1 then Some("ECG")
    else if code == 2 then Some("EDA")
    else if code == 3 then Some("EEG")
    else if code == 4 then Some("ACC")
    else if code == 5 then Some("GYRO")
    else if code == 6 then Some("MAG")
    else if code == 7 then Some("RSP")
    else if code == 8 then Some("PZT")
    else if code == 9 then Some("TEMP")
    else if code == 69 then Some("SpO2")
    else if code == 70 then Some("PPG")
    else None
  }

  /** Every label the table holds. */
  const TableLabels: set<string> :=
    {"EMG", "ECG", "EDA", "EEG", "ACC", "GYRO", "MAG", "RSP", "PZT", "TEMP", "SpO2", "PPG"}

  /** The label the table gives a code, or `Unknown_Type<code>`. */
  function BaseType(code: int): (r: string)
    ensures r in TableLabels || r == "Unknown_Type" + IntToString(code)
  {
    SensorTypeLabel(code).GetOr("Unknown_Type" + IntToString(code))
  }

  /** The accelerometer test `sensor.type == 4 or base_type == "ACC"` is just `code == 4`. */
  lemma AccelerometerTest(code: int)
    ensures (code == 4 || BaseType(code) == "ACC") <==> code == 4
  {
    if code != 4 && SensorTypeLabel(code).None? {
      assert |BaseType(code)| > 3;
    }
  }

  /** The `channel` characteristic as an axis letter: 0, 1, 2 become X, Y, Z; anything else as is. */
  function ChannelAxis(c: Value): string {
    if c == Int(0) then "X"
    else if c == Int(1) then "Y"
    else if c == Int(2) then "Z"
    else Render(c)
  }

  /** The axis a port implies under the consecutive-port convention (5-7 or 8-10). */
  function PortAxis(port: int): Option<string> {
    if 5 <= port <= 7 then Some(["X", "Y", "Z"][port - 5])
    else if 8 <= port <= 10 then Some(["X", "Y", "Z"][port - 8])
    else None
  }

  /** The label of an accelerometer: `axis`, then `channel`, then the port, else bare `ACC`. */
  function AccType(characteristics: Option<map<string, Value>>, port: int): string {
    if characteristics.Some? && "axis" in characteristics.value then
      "ACC_" + Render(characteristics.value["axis"])
    else if characteristics.Some? && "channel" in characteristics.value then
      "ACC_" + ChannelAxis(characteristics.value["channel"])
    else match PortAxis(port)
      case Some(a) => "ACC_" + a
      case None => "ACC"
  }

  /** The product identifier as text: the sensor attribute, else the property, else `Unknown`. */
  function ProductIdText(sensor: Sensor, properties: Properties): string {
    match sensor.productId
    case Some(v) => Render(v)
    case None => if "productID" in properties then Render(properties["productID"]) else "Unknown"
  }

  /** The product-identifier chain on lower-cased text, as the resolver writes it. */
  function ProductIdType(lower: string): Option<string> {
    if Contains(lower, "ecg") || Contains(lower, "electrocardiogram") then Some("ECG")
    else if Contains(lower, "emg") || Contains(lower, "electromyogram") then Some("EMG")
    else if Contains(lower, "eda") || Contains(lower, "gsr") || Contains(lower, "galvanic") then Some("EDA")
    else if Contains(lower, "spo2") || Contains(lower, "oximetry") then Some("SpO2")
    else if Contains(lower, "acc") || Contains(lower, "accelerometer") then Some("ACC")
    else if Contains(lower, "ppg") || Contains(lower, "photoplethysmography") then Some("PPG")
    else if Contains(lower, "resp") || Contains(lower, "respiratory") then Some("RSP")
    else None
  }

  /** The same chain as data: pattern groups in the order they are tried. */
  const ProductPatterns: seq<(seq<string>, string)> := [
    (["ecg", "electrocardiogram"], "ECG"),
    (["emg", "electromyogram"], "EMG"),
    (["eda", "gsr", "galvanic"], "EDA"),
    (["spo2", "oximetry"], "SpO2"),
    (["acc", "accelerometer"], "ACC"),
    (["ppg", "photoplethysmography"], "PPG"),
    (["resp", "respiratory"], "RSP")]

  /** Some pattern of the group occurs in `s`. */
  function AnyContains(patterns: seq<string>, s: string): (b: bool)
    ensures b <==> exists j :: 0 <= j < |patterns| && Contains(s, patterns[j])
  {
    if patterns == [] then false
    else Contains(s, patterns[0]) || AnyContains(patterns[1..], s)
  }

  /** The label of the first group with a pattern in `s`: the reference reading of the chain. */
  function FirstMatch(table: seq<(seq<string>, string)>, s: string): (r: Option<string>)
    ensures r.Some? <==> exists i :: 0 <= i < |table| && AnyContains(table[i].0, s)
    ensures r.Some? ==> exists i :: 0 <= i < |table| && AnyContains(table[i].0, s) && table[i].1 == r.value
                          && forall j :: 0 <= j < i ==> !AnyContains(table[j].0, s)
  {
    if table == [] then None
    else if AnyContains(table[0].0, s) then Some(table[0].1)
    else
      var r := FirstMatch(table[1..], s);
      assert forall i :: 1 <= i < |table| ==> table[i] == table[1..][i - 1];
      if r.Some? then
        var i :| 0 <= i < |table[1..]| && AnyContains(table[1..][i].0, s) && table[1..][i].1 == r.value
                  && forall j :: 0 <= j < i ==> !AnyContains(table[1..][j].0, s);
        assert AnyContains(table[i + 1].0, s) && table[i + 1].1 == r.value;
        r
      else r
  }

  /** The written chain agrees with the first match over the pattern table. */
  lemma ProductIdTypeIsFirstMatch(s: string)
    ensures ProductIdType(s) == FirstMatch(ProductPatterns, s)
  {
    var t0 := ProductPatterns;
    var t1 := t0[1..];
    var t2 := t1[1..];
    var t3 := t2[1..];
    var t4 := t3[1..];
    var t5 := t4[1..];
    var t6 := t5[1..];
    assert t6[1..] == [];
    FirstMatchStep(t0, s);
    FirstMatchStep(t1, s);
    FirstMatchStep(t2, s);
    FirstMatchStep(t3, s);
    FirstMatchStep(t4, s);
    FirstMatchStep(t5, s);
    FirstMatchStep(t6, s);
    AnyContainsPair("ecg", "electrocardiogram", s);
    AnyContainsPair("emg", "electromyogram", s);
    AnyContainsTriple("eda", "gsr", "galvanic", s);
    AnyContainsPair("spo2", "oximetry", s);
    AnyContainsPair("acc", "accelerometer", s);
    AnyContainsPair("ppg", "photoplethysmography", s);
    AnyContainsPair("resp", "respiratory", s);
  }

  /** The first match tries the first group, then the rest. */
  lemma FirstMatchStep(table: seq<(seq<string>, string)>, s: string)
    ensures FirstMatch(table, s) == if table == [] then None
      else if AnyContains(table[0].0, s) then Some(table[0].1) else FirstMatch(table[1..], s)
  {
  }

  lemma AnyContainsPair(a: string, b: string, s: string)
    ensures AnyContains([a, b], s) == (Contains(s, a) || Contains(s, b))
  {
    assert [a, b][1..] == [b] && [b][1..] == [];
  }

  lemma AnyContainsTriple(a: string, b: string, c: string, s: string)
    ensures AnyContains([a, b, c], s) == (Contains(s, a) || Contains(s, b) || Contains(s, c))
  {
    assert [a, b, c][1..] == [b, c];
    AnyContainsPair(b, c, s);
  }

  /**
   * `detect_sensor_type`: code 4 resolves an axis, code 69 is SpO2, then the
   * product identifier (unless it reads `Unknown`) is matched
   * case-insensitively, and last the code table decides.  It is total.
   */
  function DetectSensorType(sensor: Sensor, properties: Properties, port: int): (r: string)
    ensures r == "ACC" || StartsWith(r, "ACC_") || r in TableLabels || StartsWith(r, "Unknown_Type")
  {
    var baseType := BaseType(sensor.typeCode);
    if sensor.typeCode == 4 || baseType == "ACC" then AccType(sensor.characteristics, port)
    else if sensor.typeCode == 69 then "SpO2"
    else
      var productId := ProductIdText(sensor, properties);
      var matched := if productId != "Unknown" then ProductIdType(ToLower(productId)) else None;
      match matched
      case Some(t) => t
      case None => baseType
  }

  /** Raw code 69 is SpO2 whatever the characteristics, properties, product identifier and port. */
  lemma SpO2CodeIsSpO2(sensor: Sensor, properties: Properties, port: int)
    requires sensor.typeCode == 69
    ensures DetectSensorType(sensor, properties, port) == "SpO2"
  {
    AccelerometerTest(69);
  }

  /** An accelerometer's `axis` characteristic decides, whatever `channel` says. */
  lemma AxisBeatsChannel(sensor: Sensor, properties: Properties, port: int)
    requires sensor.typeCode == 4
    requires sensor.characteristics.Some? && "axis" in sensor.characteristics.value
    ensures DetectSensorType(sensor, properties, port) == "ACC_" + Render(sensor.characteristics.value["axis"])
  {
  }

  /** Without `axis`, the `channel` characteristic names the axis: 0/1/2 as X/Y/Z, anything else verbatim. */
  lemma ChannelNamesAxis(sensor: Sensor, properties: Properties, port: int)
    requires sensor.typeCode == 4 && sensor.characteristics.Some?
    requires "axis" !in sensor.characteristics.value && "channel" in sensor.characteristics.value
    ensures var c := sensor.characteristics.value["channel"];
      DetectSensorType(sensor, properties, port) ==
        "ACC_" + (if c == Int(0) then "X" else if c == Int(1) then "Y" else if c == Int(2) then "Z" else Render(c))
  {
  }

  /** Without axis information, ports 5-7 and 8-10 give X, Y, Z, any other port bare `ACC`. */
  lemma PortHeuristic(sensor: Sensor, properties: Properties, port: int)
    requires sensor.typeCode == 4
    requires sensor.characteristics.None? ||
      ("axis" !in sensor.characteristics.value && "channel" !in sensor.characteristics.value)
    ensures DetectSensorType(sensor, properties, port) ==
      if port == 5 || port == 8 then "ACC_X"
      else if port == 6 || port == 9 then "ACC_Y"
      else if port == 7 || port == 10 then "ACC_Z"
      else "ACC"
  {
  }

  /** For other codes, a matching product identifier overrides the code table. */
  lemma ProductIdOverridesTable(sensor: Sensor, properties: Properties, port: int)
    requires sensor.typeCode != 4 && sensor.typeCode != 69
    requires ProductIdText(sensor, properties) != "Unknown"
    requires FirstMatch(ProductPatterns, ToLower(ProductIdText(sensor, properties))).Some?
    ensures DetectSensorType(sensor, properties, port) ==
      FirstMatch(ProductPatterns, ToLower(ProductIdText(sensor, properties))).value
  {
    AccelerometerTest(sensor.typeCode);
    ProductIdTypeIsFirstMatch(ToLower(ProductIdText(sensor, properties)));
  }

  /** With no usable product match, the code table decides, falling back to `Unknown_Type<code>`. */
  lemma TableDecides(sensor: Sensor, properties: Properties, port: int)
    requires sensor.typeCode != 4 && sensor.typeCode != 69
    requires ProductIdText(sensor, properties) == "Unknown" ||
      FirstMatch(ProductPatterns, ToLower(ProductIdText(sensor, properties))).None?
    ensures DetectSensorType(sensor, properties, port) ==
      match SensorTypeLabel(sensor.typeCode)
      case Some(t) => t
      case None => "Unknown_Type" + IntToString(sensor.typeCode)
  {
    AccelerometerTest(sensor.typeCode);
    ProductIdTypeIsFirstMatch(ToLower(ProductIdText(sensor, properties)));
  }

  /** A sensor `productID` attribute hides the device properties entirely. */
  lemma SensorAttributeBeatsProperties(sensor: Sensor, p1: Properties, p2: Properties, port: int)
    requires sensor.productId.Some?
    ensures DetectSensorType(sensor, p1, port) == DetectSensorType(sensor, p2, port)
  {
  }

  // ---------------------------------------------------------------------
  // Enumeration
  // ---------------------------------------------------------------------

  /** The raw product identifier stored in the record: the attribute, else the property, else `"Unknown"`. */
  function ProductIdValue(sensor: Sensor, properties: Properties): Value {
    match sensor.productId
    case Some(v) => v
    case None => if "productID" in properties then properties["productID"] else Str("Unknown")
  }

  function Record(sensor: Sensor, properties: Properties): SensorRecord {
    SensorRecord(sensor.typeCode, sensor.clas, sensor.characteristics, sensor.serialNum,
                 sensor.hwVersion, ProductIdValue(sensor, properties))
  }

  /** One 16-bit source per port; raw code 69 also asks for both derivations (mask 0x03). */
  function SourceFor(port: int, typeCode: int): (s: Source)
    ensures s.port == port && s.freqDivisor == 1 && s.nBits == 16
    ensures s.chMask.Some? <==> typeCode == 69
    ensures s.chMask.Some? ==> s.chMask.value == 3
  {
    Source(port, 1, 16, if typeCode == 69 then Some(0x03) else None)
  }

  /** The result when sensor enumeration fails: ports 1-3 as RSP, EMG, EDA, no records. */
  const FallbackDetection: Detection := Detection(
    [1, 2, 3],
    [(1, "RSP"), (2, "EMG"), (3, "EDA")],
    [],
    [Source(1, 1, 16, None), Source(2, 1, 16, None), Source(3, 1, 16, None)])

  /** Each entry's port with the resolver's label for it. */
  function LabelEntries(sensors: Dict<int, Sensor>, properties: Properties): (r: Dict<int, string>)
    ensures |r| == |sensors|
    ensures forall i :: 0 <= i < |sensors| ==> r[i] == (sensors[i].0, DetectSensorType(sensors[i].1, properties, sensors[i].0))
  {
    seq(|sensors|, i requires 0 <= i < |sensors| => (sensors[i].0, DetectSensorType(sensors[i].1, properties, sensors[i].0)))
  }

  /** Each entry's port with its stored record. */
  function RecordEntries(sensors: Dict<int, Sensor>, properties: Properties): (r: Dict<int, SensorRecord>)
    ensures |r| == |sensors|
    ensures forall i :: 0 <= i < |sensors| ==> r[i] == (sensors[i].0, Record(sensors[i].1, properties))
  {
    seq(|sensors|, i requires 0 <= i < |sensors| => (sensors[i].0, Record(sensors[i].1, properties)))
  }

  /** The labels assigned by the enumeration loop to the entries visited so far. */
  function Labels(sensors: Dict<int, Sensor>, properties: Properties): Dict<int, string> {
    FromEntries(LabelEntries(sensors, properties))
  }

  /** The records stored by the enumeration loop for the entries visited so far. */
  function Records(sensors: Dict<int, Sensor>, properties: Properties): Dict<int, SensorRecord> {
    FromEntries(RecordEntries(sensors, properties))
  }

  /** One source per entry, from its port and raw code. */
  function Sources(sensors: Dict<int, Sensor>): (r: seq<Source>)
    ensures |r| == |sensors|
    ensures forall i :: 0 <= i < |sensors| ==> r[i] == SourceFor(sensors[i].0, sensors[i].1.typeCode)
  {
    seq(|sensors|, i requires 0 <= i < |sensors| => SourceFor(sensors[i].0, sensors[i].1.typeCode))
  }

  /**
   * The enumeration loop over `sensors.items()`, as a function of the
   * entries visited so far: the ports in order, their labels and records,
   * one source per entry.
   */
  function DetectAll(sensors: Dict<int, Sensor>, properties: Properties): Detection {
    Detection(Keys(sensors), Labels(sensors, properties), Records(sensors, properties), Sources(sensors))
  }

  /** One turn of the enumeration loop: append the port and the source, assign the label and the record. */
  lemma DetectAllStep(sensors: Dict<int, Sensor>, properties: Properties)
    requires |sensors| > 0
    ensures var n := |sensors| - 1;
      var d := DetectAll(sensors[..n], properties);
      var (port, sensor) := sensors[n];
      DetectAll(sensors, properties) == Detection(
        d.channels + [port],
        Set(d.sensorTypes, port, DetectSensorType(sensor, properties, port)),
        Set(d.sensorInfo, port, Record(sensor, properties)),
        d.sources + [SourceFor(port, sensor.typeCode)])
  {
    var n := |sensors| - 1;
    assert Keys(sensors) == Keys(sensors[..n]) + [sensors[n].0];
    assert Sources(sensors) == Sources(sensors[..n]) + [SourceFor(sensors[n].0, sensors[n].1.typeCode)];
    assert LabelEntries(sensors, properties)[..n] == LabelEntries(sensors[..n], properties);
    assert RecordEntries(sensors, properties)[..n] == RecordEntries(sensors[..n], properties);
  }

  /** The labels and the records are dicts with distinct keys, labelling exactly the enumerated ports. */
  lemma DetectAllKeys(sensors: Dict<int, Sensor>, properties: Properties)
    ensures forall p :: HasKey(Labels(sensors, properties), p) <==> HasKey(sensors, p)
    ensures DistinctKeys(Labels(sensors, properties)) && DistinctKeys(Records(sensors, properties))
  {
    var entries := LabelEntries(sensors, properties);
    FromEntriesKeys(entries);
    FromEntriesKeys(RecordEntries(sensors, properties));
    forall p ensures HasKey(entries, p) <==> HasKey(sensors, p) {
      if HasKey(sensors, p) {
        var i :| 0 <= i < |sensors| && sensors[i].0 == p;
        assert entries[i].0 == p;
      }
    }
  }

  /** `get_sensor_info` as a function of what the device answers. */
  function SensorInfoSpec(device: Device): Detection {
    match device.sensors
    case None => FallbackDetection
    case Some(sensors) => DetectAll(sensors, device.properties.GetOr(map[]))
  }

  /** In a sensors dict (distinct ports), each port's label is the resolver's answer for its sensor. */
  lemma DetectAllTypes(sensors: Dict<int, Sensor>, properties: Properties, i: int)
    requires DistinctKeys(sensors) && 0 <= i < |sensors|
    ensures Get(Labels(sensors, properties), sensors[i].0) == Some(DetectSensorType(sensors[i].1, properties, sensors[i].0))
  {
    var entries := LabelEntries(sensors, properties);
    assert DistinctKeys(entries);
    FromEntriesGet(entries, i);
  }

  /**
   * The derivation mask follows the raw code, not the label: code 70 with
   * an SpO2 product identifier is labelled SpO2 yet gets a plain source.
   */
  lemma ChMaskFollowsCodeNotLabel()
    ensures var s := Sensor(70, Int(0), Int(0), Int(0), None, Some(Str("SpO2")));
      var d := DetectAll([(3, s)], map[]);
      Get(d.sensorTypes, 3) == Some("SpO2") && d.sources == [Source(3, 1, 16, None)]
  {
    var s := Sensor(70, Int(0), Int(0), Int(0), None, Some(Str("SpO2")));
    SpO2ProductId();
    AccelerometerTest(70);
    assert DetectSensorType(s, map[], 3) == "SpO2";
    FromEntriesGet(LabelEntries([(3, s)], map[]), 0);
    assert Sources([(3, s)]) == [SourceFor(3, 70)];
  }

  /** The product identifier `SpO2` matches the SpO2 group and none before it. */
  lemma SpO2ProductId()
    ensures ProductIdType(ToLower("SpO2")) == Some("SpO2")
  {
    assert ToLower("SpO2") == "spo2";
    assert Contains("spo2", "spo2");
    ContainsNeedsChar("spo2", "ecg", 0);
    ContainsNeedsChar("spo2", "electrocardiogram", 0);
    ContainsNeedsChar("spo2", "emg", 0);
    ContainsNeedsChar("spo2", "electromyogram", 0);
    ContainsNeedsChar("spo2", "eda", 0);
    ContainsNeedsChar("spo2", "gsr", 0);
    ContainsNeedsChar("spo2", "galvanic", 0);
  }

  /**
   * `get_sensor_info`: enumerate the sensors in order, or fall back to
   * ports 1-3 when enumeration raises.  A failing `getProperties` only
   * means empty properties.
   */
  method GetSensorInfo(device: Device) returns (detection: Detection)
    ensures detection == SensorInfoSpec(device)
  {
    if device.sensors.None? {
      return FallbackDetection;
    }
    var sensors := device.sensors.value;
    var properties := if device.properties.Some? then device.properties.value else map[];
    var channels: seq<int> := [];
    var sensorTypes: Dict<int, string> := [];
    var sensorInfo: Dict<int, SensorRecord> := [];
    var sources: seq<Source> := [];
    var i := 0;
    while i < |sensors|
      invariant 0 <= i <= |sensors|
      invariant Detection(channels, sensorTypes, sensorInfo, sources) == DetectAll(sensors[..i], properties)
    {
      var (port, sensor) := sensors[i];
      assert sensors[..i + 1][..i] == sensors[..i];
      DetectAllStep(sensors[..i + 1], properties);
      channels := channels + [port];
      sensorTypes := Set(sensorTypes, port, DetectSensorType(sensor, properties, port));
      sensorInfo := Set(sensorInfo, port, Record(sensor, properties));
      sources := sources + [SourceFor(port, sensor.typeCode)];
      i := i + 1;
    }
    assert sensors[..i] == sensors;
    detection := Detection(channels, sensorTypes, sensorInfo, sources);
  }

  // ---------------------------------------------------------------------
  // Channel naming
  // ---------------------------------------------------------------------

  /** The `DEFAULT_CHANNEL_NAMES` templates, each written as the text before its `{port}` field. */
  function DefaultChannelTemplate(sensorType: string): Option<string> {
    if sensorType == "EMG" then Some("EMG_CH")
    else if sensorType == "ECG" then Some("ECG_CH")
    else if sensorType == "EDA" then Some("EDA_CH")
    else if sensorType == "EEG" then Some("EEG_CH")
    else if sensorType == "ACC" then Some("ACC_CH")
    else if sensorType == "GYRO" then Some("GYRO_CH")
    else if sensorType == "MAG" then Some("MAG_CH")
    else if sensorType == "RSP" then Some("RSP_CH")
    else if sensorType == "PZT" then Some("PZT_CH")
    else if sensorType == "TEMP" then Some("TEMP_CH")
    else if sensorType == "SpO2" then Some("SpO2_CH")
    else if sensorType == "PPG" then Some("PPG_CH")
    else if sensorType == "Unknown" then Some("UNKNOWN_CH")
    else None
  }

  /** The name of one port: the template for its label, else `<label>_CH<port>`. */
  function ChannelName(sensorType: string, port: int): string {
    match DefaultChannelTemplate(sensorType)
    case Some(template) => template + IntToString(port)
    case None => sensorType + "_CH" + IntToString(port)
  }

  /** Every template is its label (upper-cased for `Unknown`) followed by `_CH`. */
  lemma DefaultChannelTemplateShape(sensorType: string)
    ensures DefaultChannelTemplate(sensorType).Some? ==>
      DefaultChannelTemplate(sensorType).value == (if sensorType == "Unknown" then "UNKNOWN" else sensorType) + "_CH"
  {
  }

  /** Every label names its channel `<label>_CH<port>`, except `Unknown`, which gives `UNKNOWN_CH<port>`. */
  lemma ChannelNameShape(sensorType: string, port: int)
    ensures ChannelName(sensorType, port) ==
      (if sensorType == "Unknown" then "UNKNOWN" else sensorType) + "_CH" + IntToString(port)
  {
    DefaultChannelTemplateShape(sensorType);
  }

  /** A channel name split at the `H` of its `_CH`, which is followed by the port digits only. */
  lemma ChannelNameSplit(sensorType: string, port: int)
    ensures ChannelName(sensorType, port) ==
      ((if sensorType == "Unknown" then "UNKNOWN" else sensorType) + "_C") + ['H'] + IntToString(port)
  {
    ChannelNameShape(sensorType, port);
    var stem := if sensorType == "Unknown" then "UNKNOWN" else sensorType;
    assert stem + "_CH" == (stem + "_C") + ['H'];
  }

  /** A channel name determines its port. */
  lemma ChannelNamePort(t1: string, p1: int, t2: string, p2: int)
    requires ChannelName(t1, p1) == ChannelName(t2, p2)
    ensures p1 == p2
  {
    ChannelNameSplit(t1, p1);
    ChannelNameSplit(t2, p2);
    TailAfterSeparator((if t1 == "Unknown" then "UNKNOWN" else t1) + "_C", IntToString(p1),
                       (if t2 == "Unknown" then "UNKNOWN" else t2) + "_C", IntToString(p2), 'H');
    IntToStringInjective(p1, p2);
  }

  /** Each port with its name, in the order of the labels. */
  function NameEntries(sensorTypes: Dict<int, string>): (r: Dict<int, string>)
    ensures |r| == |sensorTypes|
    ensures forall i :: 0 <= i < |sensorTypes| ==> r[i] == (sensorTypes[i].0, ChannelName(sensorTypes[i].1, sensorTypes[i].0))
  {
    seq(|sensorTypes|, i requires 0 <= i < |sensorTypes| => (sensorTypes[i].0, ChannelName(sensorTypes[i].1, sensorTypes[i].0)))
  }

  /** The loop of `generate_channel_names` over the entries visited so far. */
  function ChannelNames(sensorTypes: Dict<int, string>): Dict<int, string> {
    FromEntries(NameEntries(sensorTypes))
  }

  /** For a dict of labels (distinct ports), the names are the labels' names in the same order. */
  lemma ChannelNamesInOrder(sensorTypes: Dict<int, string>)
    requires DistinctKeys(sensorTypes)
    ensures ChannelNames(sensorTypes) == NameEntries(sensorTypes)
  {
    assert DistinctKeys(NameEntries(sensorTypes));
    FromEntriesDistinct(NameEntries(sensorTypes));
  }

  /** `generate_channel_names`; the `sensor_info` argument is accepted and not consulted. */
  method GenerateChannelNames(sensorTypes: Dict<int, string>, sensorInfo: Dict<int, SensorRecord>)
    returns (names: Dict<int, string>)
    ensures names == ChannelNames(sensorTypes)
  {
    names := [];
    var i := 0;
    while i < |sensorTypes|
      invariant 0 <= i <= |sensorTypes|
      invariant names == ChannelNames(sensorTypes[..i])
    {
      var (port, t) := sensorTypes[i];
      assert NameEntries(sensorTypes[..i + 1])[..i] == NameEntries(sensorTypes[..i]);
      names := Set(names, port, ChannelName(t, port));
      i := i + 1;
    }
    assert sensorTypes[..i] == sensorTypes;
  }

  /** Each entry with name and port swapped. */
  function Swapped(names: Dict<int, string>): (r: Dict<string, int>)
    ensures |r| == |names|
    ensures forall i :: 0 <= i < |names| ==> r[i] == (names[i].1, names[i].0)
  {
    seq(|names|, i requires 0 <= i < |names| => (names[i].1, names[i].0))
  }

  /** The reverse map, name to port, built over the entries visited so far. */
  function Reverse(names: Dict<int, string>): Dict<string, int> {
    FromEntries(Swapped(names))
  }

  /** The channel mapping of labels with distinct ports sends each port's name back to the port. */
  lemma ChannelMappingInverse(sensorTypes: Dict<int, string>, i: int)
    requires DistinctKeys(sensorTypes) && 0 <= i < |sensorTypes|
    ensures Get(Reverse(ChannelNames(sensorTypes)), ChannelName(sensorTypes[i].1, sensorTypes[i].0))
         == Some(sensorTypes[i].0)
  {
    ChannelNamesInOrder(sensorTypes);
    var names := ChannelNames(sensorTypes);
    forall a, b | 0 <= a < b < |names|
      ensures names[a].1 != names[b].1
    {
      if names[a].1 == names[b].1 {
        ChannelNamePort(sensorTypes[a].1, sensorTypes[a].0, sensorTypes[b].1, sensorTypes[b].0);
      }
    }
    var swapped := Swapped(names);
    assert DistinctKeys(swapped);
    FromEntriesGet(swapped, i);
  }

  /** `get_channel_mapping`: detect, name, then map each name back to its port. */
  method GetChannelMapping(device: Device) returns (mapping: Dict<string, int>)
    ensures var st := SensorInfoSpec(device).sensorTypes;
      mapping == Reverse(ChannelNames(st)) &&
      forall i :: 0 <= i < |st| ==> Get(mapping, ChannelName(st[i].1, st[i].0)) == Some(st[i].0)
  {
    var detection := GetSensorInfo(device);
    var names := GenerateChannelNames(detection.sensorTypes, detection.sensorInfo);
    mapping := [];
    var i := 0;
    while i < |names|
      invariant 0 <= i <= |names|
      invariant mapping == Reverse(names[..i])
    {
      assert Swapped(names[..i + 1])[..i] == Swapped(names[..i]);
      mapping := Set(mapping, names[i].1, names[i].0);
      i := i + 1;
    }
    assert names[..i] == names;
    DeviceMappingInverse(device);
  }

  /** For whatever the device answers, each detected port's name maps back to the port. */
  lemma DeviceMappingInverse(device: Device)
    ensures var st := SensorInfoSpec(device).sensorTypes;
      forall i :: 0 <= i < |st| ==> Get(Reverse(ChannelNames(st)), ChannelName(st[i].1, st[i].0)) == Some(st[i].0)
  {
    var st := SensorInfoSpec(device).sensorTypes;
    assert DistinctKeys(st) by {
      match device.sensors
      case None =>
      case Some(sensors) => DetectAllKeys(sensors, device.properties.GetOr(map[]));
    }
    forall i | 0 <= i < |st|
      ensures Get(Reverse(ChannelNames(st)), ChannelName(st[i].1, st[i].0)) == Some(st[i].0)
    {
      ChannelMappingInverse(st, i);
    }
  }
}
