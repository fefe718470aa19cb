/**
 * The stand-alone script Custom_API_Auto.py: its own SDK directory lookup,
 * its copy of the sensor-type resolver and of the sensor enumeration, and
 * `MyDevice`, which names channels `<type>_Port<port>` (two for SpO2),
 * describes them with a metadata type, and passes raw values through,
 * two per SpO2 port and one per other port.
 */
module CustomApiAuto {
  import opened Wrappers
  import opened Text
  import opened PyDict
  import SensorDetection
  import PlatformDetection
  import Streaming

  // ---------------------------------------------------------------------
  // SDK directory
  // ---------------------------------------------------------------------

  /**
   * `get_plux_path`: the directory name under the SDK root.  A Mac with no
   * existing option falls through to the unsupported-platform error.
   */
  function GetPluxPath(host: PlatformDetection.Host, present: set<string>): (r: Result<string>)
    ensures host.system == "Linux" ==> r == Ok("Linux64")
    ensures host.system == "Darwin" && r.Err? ==> r.error == RuntimeError(PlatformDetection.UnsupportedMessage("Darwin"))
    ensures host.system !in {"Darwin", "Linux", "Windows"} ==> r.Err?
  {
    if host.system == "Darwin" then
      match PlatformDetection.FirstExisting(PlatformDetection.MacOsOptions(host), present)
      case Some(option) => Ok(option)
      case None => Err(RuntimeError(PlatformDetection.UnsupportedMessage(host.system)))
    else if host.system == "Linux" then Ok("Linux64")
    else if host.system == "Windows" then
      Ok("Win" + PlatformDetection.ArchTag(host.architecture) + "_" + PlatformDetection.VersionTag(host.pythonVersion))
    else Err(RuntimeError(PlatformDetection.UnsupportedMessage(host.system)))
  }

  /**
   * The script and the package pick the same directory: one succeeds
   * exactly when the other does, the package's answer being the script's
   * under the SDK root.
   */
  lemma GetPluxPathAgrees(host: PlatformDetection.Host, present: set<string>)
    ensures GetPluxPath(host, present).Ok? <==> PlatformDetection.GetPluxSdkPath(host, present).Ok?
    ensures GetPluxPath(host, present).Ok? ==>
      PlatformDetection.GetPluxSdkPath(host, present).value == PlatformDetection.SdkPath(GetPluxPath(host, present).value)
  {
    if host.system == "Linux" {
      var a := PlatformDetection.SdkPath("Linux64");
      var b := "PLUX-API-Python3/Linux64";
      assert |a| == |b|;
      assert forall k :: 0 <= k < |a| ==> a[k] == b[k];
    }
  }

  // ---------------------------------------------------------------------
  // The resolver and the enumeration
  // ---------------------------------------------------------------------

  /** The script's `type_map` literal. */
  function TypeMap(code: int): Option<string> {
    match code
    case 0 => Some("EMG")
    case 1 => Some("ECG")
    case 2 => Some("EDA")
    case 3 => Some("EEG")
    case 4 => Some("ACC")
    case 5 => Some("GYRO")
    case 6 => Some("MAG")
    case 7 => Some("RSP")
    case 8 => Some("PZT")
    case 9 => Some("TEMP")
    case 69 => Some("SpO2")
    case 70 => Some("PPG")
    case _ => None
  }

  /** The script's `detect_sensor_type`. */
  function DetectSensorType(sensor: SensorDetection.Sensor, properties: SensorDetection.Properties, port: int): (r: string)
    ensures r == "ACC" || StartsWith(r, "ACC_") || r in SensorDetection.TableLabels || StartsWith(r, "Unknown_Type")
    ensures sensor.typeCode == 69 ==> r == "SpO2"
  {
    var baseType := TypeMap(sensor.typeCode).GetOr("Unknown_Type" + IntToString(sensor.typeCode));
    if sensor.typeCode == 4 || baseType == "ACC" then SensorDetection.AccType(sensor.characteristics, port)
    else if sensor.typeCode == 69 then "SpO2"
    else
      var productId := SensorDetection.ProductIdText(sensor, properties);
      if productId == "Unknown" then baseType
      else match SensorDetection.ProductIdType(ToLower(productId))
        case Some(t) => t
        case None => baseType
  }

  /** The script's resolver gives the package's answer on every input. */
  lemma DetectSensorTypeAgrees(sensor: SensorDetection.Sensor, properties: SensorDetection.Properties, port: int)
    ensures DetectSensorType(sensor, properties, port) == SensorDetection.DetectSensorType(sensor, properties, port)
  {
    assert TypeMap(sensor.typeCode) == SensorDetection.SensorTypeLabel(sensor.typeCode);
  }

  /**
   * The script's `get_sensor_info`: the same enumeration and fallback as
   * the package's, so the same four results.
   */
  method GetSensorInfo(device: SensorDetection.Device) returns (detection: SensorDetection.Detection)
    ensures detection == SensorDetection.SensorInfoSpec(device)
  {
    if device.sensors.None? {
      var fallback: seq<SensorDetection.Source> := [];
      for k := 0 to 3
        invariant fallback == SensorDetection.FallbackDetection.sources[..k]
      {
        fallback := fallback + [SensorDetection.Source(k + 1, 1, 16, None)];
      }
      return SensorDetection.Detection([1, 2, 3], [(1, "RSP"), (2, "EMG"), (3, "EDA")], [], fallback);
    }
    var sensors := device.sensors.value;
    var properties := if device.properties.Some? then device.properties.value else map[];
    var channels: seq<int> := [];
    var sensorTypes: Dict<int, string> := [];
    var sensorInfo: Dict<int, SensorDetection.SensorRecord> := [];
    var sources: seq<SensorDetection.Source> := [];
    for i := 0 to |sensors|
      invariant SensorDetection.Detection(channels, sensorTypes, sensorInfo, sources)
             == SensorDetection.DetectAll(sensors[..i], properties)
    {
      var (port, sensor) := sensors[i];
      assert sensors[..i + 1][..i] == sensors[..i];
      SensorDetection.DetectAllStep(sensors[..i + 1], properties);
      var sensorType := DetectSensorType(sensor, properties, port);
      DetectSensorTypeAgrees(sensor, properties, port);
      channels := channels + [port];
      sensorTypes := Set(sensorTypes, port, sensorType);
      sensorInfo := Set(sensorInfo, port, SensorDetection.Record(sensor, properties));
      sources := sources + [SensorDetection.SourceFor(port, sensor.typeCode)];
    }
    assert sensors[..|sensors|] == sensors;
    detection := SensorDetection.Detection(channels, sensorTypes, sensorInfo, sources);
  }

  // ---------------------------------------------------------------------
  // Channel names and their owners
  // ---------------------------------------------------------------------

  /** Channels per port: two for a port labelled SpO2, one otherwise (a bare ACC included). */
  function PortWidth(sensorTypes: Dict<int, string>, port: int): nat {
    if Get(sensorTypes, port) == Some("SpO2") then 2 else 1
  }

  /** `<t>_Port<p>_RED` and `_INFRARED` for SpO2, else `<t>_Port<p>`, with `Port<p>` for an unlabelled port. */
  function PortNames(sensorTypes: Dict<int, string>, port: int): (names: seq<string>)
    ensures |names| == PortWidth(sensorTypes, port)
  {
    var p := IntToString(port);
    var t := Get(sensorTypes, port).GetOr("Port" + p);
    if Get(sensorTypes, port) == Some("SpO2") then [t + "_Port" + p + "_RED", t + "_Port" + p + "_INFRARED"]
    else [t + "_Port" + p]
  }

  /** The number of stream channels for a port list. */
  function FrameWidth(sensorTypes: Dict<int, string>, ports: seq<int>): nat
    decreases |ports|
  {
    if ports == [] then 0
    else FrameWidth(sensorTypes, ports[..|ports| - 1]) + PortWidth(sensorTypes, ports[|ports| - 1])
  }

  /** `lsl_channel_names` for the ports visited so far. */
  function NamesOf(sensorTypes: Dict<int, string>, ports: seq<int>): (names: seq<string>)
    ensures |names| == FrameWidth(sensorTypes, ports)
    decreases |ports|
  {
    if ports == [] then []
    else NamesOf(sensorTypes, ports[..|ports| - 1]) + PortNames(sensorTypes, ports[|ports| - 1])
  }

  /** The port each stream channel belongs to. */
  function Owners(sensorTypes: Dict<int, string>, ports: seq<int>): (owners: seq<int>)
    ensures |owners| == FrameWidth(sensorTypes, ports)
    decreases |ports|
  {
    if ports == [] then []
    else
      var port := ports[|ports| - 1];
      Owners(sensorTypes, ports[..|ports| - 1]) + seq(PortWidth(sensorTypes, port), _ => port)
  }

  /** Channel `i` is one of the names of its owner, and its owner is one of the ports. */
  lemma {:induction false} OwnerNamesChannel(sensorTypes: Dict<int, string>, ports: seq<int>, i: int)
    requires 0 <= i < FrameWidth(sensorTypes, ports)
    ensures Owners(sensorTypes, ports)[i] in ports
    ensures NamesOf(sensorTypes, ports)[i] in PortNames(sensorTypes, Owners(sensorTypes, ports)[i])
    decreases |ports|
  {
    var n := |ports| - 1;
    var w := FrameWidth(sensorTypes, ports[..n]);
    if i < w {
      OwnerNamesChannel(sensorTypes, ports[..n], i);
      assert ports[..n] <= ports;
    } else {
      assert Owners(sensorTypes, ports)[i] == ports[n];
      assert NamesOf(sensorTypes, ports)[i] == PortNames(sensorTypes, ports[n])[i - w];
    }
  }

  /** An SpO2 port gets a RED and an INFRARED channel; every other port, a bare ACC included, one. */
  lemma PortNamesShape(sensorTypes: Dict<int, string>, port: int)
    ensures Get(sensorTypes, port) == Some("SpO2") ==>
      PortNames(sensorTypes, port) == ["SpO2" + "_Port" + IntToString(port) + "_RED", "SpO2" + "_Port" + IntToString(port) + "_INFRARED"]
    ensures Get(sensorTypes, port) == Some("ACC") ==> PortNames(sensorTypes, port) == ["ACC" + "_Port" + IntToString(port)]
  {
  }

  // ---------------------------------------------------------------------
  // Channel metadata
  // ---------------------------------------------------------------------

  /**
   * The metadata type as written: the first of SpO2, ACC, RSP found in
   * the name, else the label of `channels[i % len(channels)]`, where `i`
   * counts channel names, not ports.
   */
  function MetadataTypeAsWritten(name: string, sensorTypes: Dict<int, string>, channels: seq<int>, i: nat): (r: string)
    requires |channels| > 0
    ensures r in {"SpO2", "Accelerometer", "Respiratory", "Unknown"} ||
      exists k :: 0 <= k < |channels| && Get(sensorTypes, channels[k]) == Some(r)
    ensures i < |channels| && !Contains(name, "SpO2") && !Contains(name, "ACC") && !Contains(name, "RSP") ==>
      r == Get(sensorTypes, channels[i]).GetOr("Unknown")
  {
    if Contains(name, "SpO2") then "SpO2"
    else if Contains(name, "ACC") then "Accelerometer"
    else if Contains(name, "RSP") then "Respiratory"
    else Get(sensorTypes, channels[i % |channels|]).GetOr("Unknown")
  }

  /** The metadata type with the fallback label taken from the port that owns the channel. */
  function MetadataType(name: string, sensorTypes: Dict<int, string>, owner: int): string {
    if Contains(name, "SpO2") then "SpO2"
    else if Contains(name, "ACC") then "Accelerometer"
    else if Contains(name, "RSP") then "Respiratory"
    else Get(sensorTypes, owner).GetOr("Unknown")
  }

  /** The channel descriptions, unit `microvolts`. */
  function Describe(names: seq<string>, sensorTypes: Dict<int, string>, owners: seq<int>): (d: seq<Streaming.ChannelDesc>)
    requires |owners| == |names|
    ensures |d| == |names|
    ensures forall i :: 0 <= i < |names| ==> d[i].channelLabel == names[i] && d[i].unit == "microvolts"
  {
    seq(|names|, i requires 0 <= i < |names| =>
      Streaming.ChannelDesc(names[i], "microvolts", MetadataType(names[i], sensorTypes, owners[i])))
  }

  /** The channel descriptions as the script writes them, name `i` falling back on `channels[i % len(channels)]`. */
  function DescribeAsWritten(names: seq<string>, sensorTypes: Dict<int, string>, channels: seq<int>)
    : (d: seq<Streaming.ChannelDesc>)
    requires |names| > 0 ==> |channels| > 0
    ensures |d| == |names|
    ensures forall i :: 0 <= i < |names| ==> d[i].channelLabel == names[i] && d[i].unit == "microvolts"
  {
    seq(|names|, i requires 0 <= i < |names| =>
      Streaming.ChannelDesc(names[i], "microvolts", MetadataTypeAsWritten(names[i], sensorTypes, channels, i)))
  }

  /**
   * With the SpO2 port 3 before the EMG port 5, the script describes the
   * EMG channel as SpO2: name index 2 wraps to port 3.  Its owner is port 5,
   * whose label is EMG.
   */
  lemma MetadataIndexMismatch()
    ensures var st := [(3, "SpO2"), (5, "EMG")];
      var names := NamesOf(st, [3, 5]);
      |names| == 3 && names[2] == "EMG_Port5" &&
      MetadataTypeAsWritten(names[2], st, [3, 5], 2) == "SpO2" &&
      DescribeAsWritten(names, st, [3, 5])[2].channelType == "SpO2" &&
      Describe(names, st, Owners(st, [3, 5]))[2].channelType == "EMG" &&
      Owners(st, [3, 5])[2] == 5 &&
      MetadataType(names[2], st, Owners(st, [3, 5])[2]) == "EMG"
  {
    var st := [(3, "SpO2"), (5, "EMG")];
    ExampleLayout(st);
    NoKeywordIn("EMG_Port5");
    assert Get(st, 3) == Some("SpO2") && Get(st, 5) == Some("EMG");
  }

  /** Names and owners of the ports 3 (SpO2) and 5 (EMG). */
  lemma ExampleLayout(st: Dict<int, string>)
    requires st == [(3, "SpO2"), (5, "EMG")]
    ensures |NamesOf(st, [3, 5])| == 3 && NamesOf(st, [3, 5])[2] == "EMG_Port5"
    ensures Owners(st, [3, 5])[2] == 5
  {
    assert Get(st, 3) == Some("SpO2") && Get(st, 5) == Some("EMG");
    assert [3, 5][..1] == [3] && [3][..0] == [];
    assert FrameWidth(st, [3]) == 2;
    assert PortNames(st, 5) == ["EMG" + "_Port" + IntToString(5)];
    assert IntToString(5) == "5";
    assert "EMG" + "_Port" + "5" == "EMG_Port5";
    assert NamesOf(st, [3, 5]) == NamesOf(st, [3]) + PortNames(st, 5);
    assert Owners(st, [3, 5]) == Owners(st, [3]) + [5];
  }

  /** `EMG_Port5` names none of SpO2, ACC and RSP. */
  lemma NoKeywordIn(name: string)
    requires name == "EMG_Port5"
    ensures !Contains(name, "SpO2") && !Contains(name, "ACC") && !Contains(name, "RSP")
  {
    ContainsNeedsChar(name, "SpO2", 0);
    ContainsNeedsChar(name, "ACC", 0);
    ContainsNeedsChar(name, "RSP", 0);
  }

  /** Both channels of an SpO2 port are described as SpO2. */
  lemma {:induction false} SpO2ChannelsDescribed(sensorTypes: Dict<int, string>, ports: seq<int>, i: int)
    requires 0 <= i < FrameWidth(sensorTypes, ports)
    requires Get(sensorTypes, Owners(sensorTypes, ports)[i]) == Some("SpO2")
    ensures Describe(NamesOf(sensorTypes, ports), sensorTypes, Owners(sensorTypes, ports))[i].channelType == "SpO2"
  {
    var owner := Owners(sensorTypes, ports)[i];
    var name := NamesOf(sensorTypes, ports)[i];
    OwnerNamesChannel(sensorTypes, ports, i);
    var p := IntToString(owner);
    assert name == "SpO2" + "_Port" + p + "_RED" || name == "SpO2" + "_Port" + p + "_INFRARED";
    assert StartsWith(name, "SpO2");
    ContainsPrefix(name, "SpO2");
  }

  /**
   * A channel whose name holds none of SpO2, ACC and RSP is described with
   * the label of the port that owns it, one of the stream's ports.
   */
  lemma {:induction false} DescribedByOwner(sensorTypes: Dict<int, string>, ports: seq<int>, i: int)
    requires 0 <= i < FrameWidth(sensorTypes, ports)
    requires var name := NamesOf(sensorTypes, ports)[i];
      !Contains(name, "SpO2") && !Contains(name, "ACC") && !Contains(name, "RSP")
    ensures Owners(sensorTypes, ports)[i] in ports
    ensures Describe(NamesOf(sensorTypes, ports), sensorTypes, Owners(sensorTypes, ports))[i].channelType
         == Get(sensorTypes, Owners(sensorTypes, ports)[i]).GetOr("Unknown")
  {
    OwnerNamesChannel(sensorTypes, ports, i);
  }

  /** Without SpO2 ports every port has one channel, so channel `i` belongs to port `i`. */
  lemma {:induction false} OwnersWithoutSpO2(sensorTypes: Dict<int, string>, ports: seq<int>)
    requires forall k :: 0 <= k < |ports| ==> Get(sensorTypes, ports[k]) != Some("SpO2")
    ensures FrameWidth(sensorTypes, ports) == |ports|
    ensures Owners(sensorTypes, ports) == ports
    decreases |ports|
  {
    if ports != [] {
      var n := |ports| - 1;
      OwnersWithoutSpO2(sensorTypes, ports[..n]);
      assert seq(PortWidth(sensorTypes, ports[n]), _ => ports[n]) == [ports[n]];
      assert ports[..n] + [ports[n]] == ports;
    }
  }

  /** When there are as many ports as names, name `i` falls back on port `i` itself. */
  lemma DescribeAsWrittenOneToOne(names: seq<string>, sensorTypes: Dict<int, string>, channels: seq<int>)
    requires |names| == |channels|
    ensures DescribeAsWritten(names, sensorTypes, channels) == Describe(names, sensorTypes, channels)
  {
    var a := DescribeAsWritten(names, sensorTypes, channels);
    var b := Describe(names, sensorTypes, channels);
    forall i | 0 <= i < |names|
      ensures a[i] == b[i]
    {
      assert i % |channels| == i;
    }
  }

  /**
   * The name-index fallback goes wrong only through SpO2 ports: without
   * them the descriptions as written are the owner-based ones.
   */
  lemma AsWrittenAgreesWithoutSpO2(sensorTypes: Dict<int, string>, ports: seq<int>)
    requires forall k :: 0 <= k < |ports| ==> Get(sensorTypes, ports[k]) != Some("SpO2")
    ensures DescribeAsWritten(NamesOf(sensorTypes, ports), sensorTypes, ports)
         == Describe(NamesOf(sensorTypes, ports), sensorTypes, Owners(sensorTypes, ports))
  {
    OwnersWithoutSpO2(sensorTypes, ports);
    DescribeAsWrittenOneToOne(NamesOf(sensorTypes, ports), sensorTypes, ports);
  }

  // ---------------------------------------------------------------------
  // Frame pass-through
  // ---------------------------------------------------------------------

  function Min(a: int, b: int): int {
    if a <= b then a else b
  }

  /** The values one port takes from the frame at `offset`: two for SpO2, one otherwise, as far as the frame goes. */
  function PortValues(data: seq<int>, sensorTypes: Dict<int, string>, port: int, offset: nat): seq<int> {
    var first := if offset < |data| then [data[offset]] else [];
    if Get(sensorTypes, port) == Some("SpO2") then first + (if offset + 1 < |data| then [data[offset + 1]] else [])
    else first
  }

  /** `lsl_data` for the ports visited so far, each reading where the previous ones stopped. */
  function PassThrough(data: seq<int>, sensorTypes: Dict<int, string>, ports: seq<int>): seq<int>
    decreases |ports|
  {
    if ports == [] then []
    else
      var n := |ports| - 1;
      PassThrough(data, sensorTypes, ports[..n]) + PortValues(data, sensorTypes, ports[n], FrameWidth(sensorTypes, ports[..n]))
  }

  /** The port walk only ever copies a prefix of the frame: as many values as there are channels, or all of a short frame. */
  lemma {:induction false} PassThroughIsPrefix(data: seq<int>, sensorTypes: Dict<int, string>, ports: seq<int>)
    ensures PassThrough(data, sensorTypes, ports) == data[..Min(|data|, FrameWidth(sensorTypes, ports))]
    decreases |ports|
  {
    if ports != [] {
      var n := |ports| - 1;
      var w := FrameWidth(sensorTypes, ports[..n]);
      var k := PortWidth(sensorTypes, ports[n]);
      PassThroughIsPrefix(data, sensorTypes, ports[..n]);
      PortValuesSlice(data, sensorTypes, ports[n], w);
      var a := Min(|data|, w);
      var b := Min(|data|, w + k);
      assert data[..a] + data[a..b] == data[..b];
    }
  }

  /** One port's values are the frame's slice from its offset, cut at the frame's end. */
  lemma PortValuesSlice(data: seq<int>, sensorTypes: Dict<int, string>, port: int, offset: nat)
    ensures PortValues(data, sensorTypes, port, offset)
         == data[Min(|data|, offset)..Min(|data|, offset + PortWidth(sensorTypes, port))]
  {
  }

  /** A frame one value short of the channel count ends with the last SpO2 port's RED value alone. */
  lemma TrailingSpO2RedOnly(data: seq<int>, sensorTypes: Dict<int, string>, ports: seq<int>)
    requires ports != [] && Get(sensorTypes, ports[|ports| - 1]) == Some("SpO2")
    requires |data| == FrameWidth(sensorTypes, ports) - 1
    ensures PassThrough(data, sensorTypes, ports) == data
    ensures |PassThrough(data, sensorTypes, ports)| == |NamesOf(sensorTypes, ports)| - 1
  {
    PassThroughIsPrefix(data, sensorTypes, ports);
  }

  // ---------------------------------------------------------------------
  // The device
  // ---------------------------------------------------------------------

  /** The naming loop of `__init__`, also recording which port each name belongs to. */
  method NameChannels(sensorTypes: Dict<int, string>, ports: seq<int>) returns (names: seq<string>, owners: seq<int>)
    ensures names == NamesOf(sensorTypes, ports) && owners == Owners(sensorTypes, ports)
  {
    names := [];
    owners := [];
    for i := 0 to |ports|
      invariant names == NamesOf(sensorTypes, ports[..i]) && owners == Owners(sensorTypes, ports[..i])
    {
      assert ports[..i + 1][..i] == ports[..i];
      var port := ports[i];
      var p := IntToString(port);
      var t := Get(sensorTypes, port).GetOr("Port" + p);
      if Get(sensorTypes, port) == Some("SpO2") {
        names := names + [t + "_Port" + p + "_RED", t + "_Port" + p + "_INFRARED"];
        owners := owners + [port, port];
      } else {
        names := names + [t + "_Port" + p];
        owners := owners + [port];
      }
      assert names == NamesOf(sensorTypes, ports[..i]) + PortNames(sensorTypes, port);
      assert owners == Owners(sensorTypes, ports[..i]) + seq(PortWidth(sensorTypes, port), _ => port);
    }
    assert ports[..|ports|] == ports;
  }

  /** The description loop of `__init__`, with the fallback label read through `channels[i % len(channels)]`. */
  method DescribeChannels(names: seq<string>, sensorTypes: Dict<int, string>, channels: seq<int>)
    returns (descs: seq<Streaming.ChannelDesc>)
    requires |names| > 0 ==> |channels| > 0
    ensures descs == DescribeAsWritten(names, sensorTypes, channels)
  {
    descs := [];
    for i := 0 to |names|
      invariant descs == DescribeAsWritten(names, sensorTypes, channels)[..i]
    {
      var name := names[i];
      var channelType: string;
      if Contains(name, "SpO2") {
        channelType := "SpO2";
      } else if Contains(name, "ACC") {
        channelType := "Accelerometer";
      } else if Contains(name, "RSP") {
        channelType := "Respiratory";
      } else {
        channelType := Get(sensorTypes, channels[i % |channels|]).GetOr("Unknown");
      }
      descs := descs + [Streaming.ChannelDesc(name, "microvolts", channelType)];
    }
  }

  /** What the outlet receives for a run of frames: each cut to the channel count. */
  function Truncated(frames: seq<seq<int>>, n: nat): (r: seq<seq<int>>)
    ensures |r| == |frames|
    ensures forall i :: 0 <= i < |frames| ==> r[i] == frames[i][..Min(|frames[i]|, n)]
    decreases |frames|
  {
    if frames == [] then []
    else
      var k := |frames| - 1;
      Truncated(frames[..k], n) + [frames[k][..Min(|frames[k]|, n)]]
  }

  /** The copying loop of `on_raw_frame`: one value per port, two for SpO2, skipping those past the frame's end. */
  method CopyFrame(data: seq<int>, sensorTypes: Dict<int, string>, channels: seq<int>) returns (lslData: seq<int>)
    ensures lslData == PassThrough(data, sensorTypes, channels)
  {
    lslData := [];
    var dataIndex := 0;
    for i := 0 to |channels|
      invariant lslData == PassThrough(data, sensorTypes, channels[..i])
      invariant dataIndex == FrameWidth(sensorTypes, channels[..i])
    {
      assert channels[..i + 1][..i] == channels[..i];
      ghost var before := lslData;
      var port := channels[i];
      if Get(sensorTypes, port) == Some("SpO2") {
        if dataIndex < |data| {
          lslData := lslData + [data[dataIndex]];
        }
        if dataIndex + 1 < |data| {
          lslData := lslData + [data[dataIndex + 1]];
        }
        dataIndex := dataIndex + 2;
      } else {
        if dataIndex < |data| {
          lslData := lslData + [data[dataIndex]];
        }
        dataIndex := dataIndex + 1;
      }
      assert lslData == before + PortValues(data, sensorTypes, port, FrameWidth(sensorTypes, channels[..i]));
    }
    assert channels[..|channels|] == channels;
  }

  const SamplingRate: real := 1000.0

  /** `MyDevice`: detection, names and stream description are fixed at construction. */
  class MyDevice {
    const mac: string
    const channels: seq<int>
    const sensorTypes: Dict<int, string>
    const sensorInfo: Dict<int, SensorDetection.SensorRecord>
    const sources: seq<SensorDetection.Source>
    const lslChannelNames: seq<string>
    const lslInfo: Streaming.StreamInfo
    var sampleCount: nat
    var running: bool
    /** What the outlet has been handed, oldest first. */
    var pushed: seq<seq<int>>

    predicate Valid() {
      lslChannelNames == NamesOf(sensorTypes, channels)
    }

    /** `__init__`, given what the device answers about its sensors. */
    constructor(mac: string, answers: SensorDetection.Device)
      ensures Valid()
      ensures SensorDetection.Detection(channels, sensorTypes, sensorInfo, sources) == SensorDetection.SensorInfoSpec(answers)
      ensures lslInfo == Streaming.StreamInfo("biosignalsplux", "Physiological", |lslChannelNames|, SamplingRate,
        "float32", "biosignalsplux", DescribeAsWritten(lslChannelNames, sensorTypes, channels))
      ensures this.mac == mac && sampleCount == 0 && !running && pushed == []
    {
      var detection := GetSensorInfo(answers);
      var st := detection.sensorTypes;
      var ports := detection.channels;
      var names, owners := NameChannels(st, ports);
      var descs := DescribeChannels(names, st, ports);
      this.mac := mac;
      channels := ports;
      sensorTypes := st;
      sensorInfo := detection.sensorInfo;
      sources := detection.sources;
      lslChannelNames := names;
      lslInfo := Streaming.StreamInfo("biosignalsplux", "Physiological", |names|, SamplingRate,
        "float32", "biosignalsplux", descs);
      sampleCount := 0;
      running := false;
      pushed := [];
    }

    /**
     * `onRawFrame`: stop when not running; otherwise count the frame, copy
     * its values port by port and push them, and ask to go on while running.
     */
    method OnRawFrame(sequence: int, data: seq<int>) returns (stop: bool)
      requires Valid()
      modifies this
      ensures running == old(running)
      ensures !running ==> stop && sampleCount == old(sampleCount) && pushed == old(pushed)
      ensures running ==>
        !stop && sampleCount == old(sampleCount) + 1 && pushed == old(pushed) + [data[..Min(|data|, |lslChannelNames|)]]
    {
      if !running {
        return true;
      }
      sampleCount := sampleCount + 1;
      var lslData := CopyFrame(data, sensorTypes, channels);
      PassThroughIsPrefix(data, sensorTypes, channels);
      pushed := pushed + [lslData];
      return !running;
    }

    /**
     * `start_acquisition`: raise the flag and let the acquisition loop hand
     * each delivered frame to the callback until it asks to stop.  The
     * keyboard thread that may clear the flag is not modelled.
     */
    method StartAcquisition(frames: seq<seq<int>>)
      requires Valid()
      modifies this
      ensures running
      ensures sampleCount == old(sampleCount) + |frames|
      ensures pushed == old(pushed) + Truncated(frames, |lslChannelNames|)
    {
      running := true;
      var k := 0;
      var stop := false;
      while k < |frames| && !stop
        invariant 0 <= k <= |frames| && running && !stop
        invariant sampleCount == old(sampleCount) + k
        invariant pushed == old(pushed) + Truncated(frames[..k], |lslChannelNames|)
      {
        assert frames[..k + 1][..k] == frames[..k];
        stop := OnRawFrame(k, frames[k]);
        k := k + 1;
      }
      assert frames[..k] == frames;
    }

    /** `stop_acquisition`: clear the flag, so the next frame stops the loop. */
    method StopAcquisition()
      modifies this
      ensures !running && sampleCount == old(sampleCount) && pushed == old(pushed)
    {
      running := false;
    }
  }
}
