/**
 * The stand-alone streamer minimal_streaming.py: a reduced type table, a
 * fallback to ports 1-3, `<type>_CH<port>` channel names, and a frame
 * callback that pushes the first values of each frame while the
 * module-level `running` flag is set.
 */
module MinimalStreaming {
  import opened Wrappers
  import opened Text
  import opened PyDict
  import SensorDetection

  /** The reduced `type_map`: no gyroscope, magnetometer, piezo or temperature. */
  function ReducedTypeLabel(code: int): Option<string> {
    match code
    case 0 => Some("EMG")
    case 1 => Some("ECG")
    case 2 => Some("EDA")
    case 3 => Some("EEG")
    case 4 => Some("ACC")
    case 7 => Some("RSP")
    case 69 => Some("SpO2")
    case 70 => Some("PPG")
    case _ => None
  }

  /** `type_map.get(sensor.type, f"Unknown_Type{sensor.type}")`. */
  function ReducedType(code: int): (r: string)
    ensures r in {"EMG", "ECG", "EDA", "EEG", "ACC", "RSP", "SpO2", "PPG"} || r == "Unknown_Type" + IntToString(code)
    ensures code in {0, 1, 2, 3, 4, 7, 69, 70} <==> !StartsWith(r, "Unknown_Type")
    ensures r == "SpO2" <==> code == 69
  {
    ReducedTypeLabel(code).GetOr("Unknown_Type" + IntToString(code))
  }

  /** The reduced table agrees with the full one except on codes 5, 6, 8 and 9. */
  lemma ReducedTableAgrees(code: int)
    ensures code !in {5, 6, 8, 9} ==> ReducedType(code) == SensorDetection.BaseType(code)
    ensures code in {5, 6, 8, 9} ==>
      ReducedType(code) == "Unknown_Type" + IntToString(code) && SensorDetection.SensorTypeLabel(code).Some?
  {
  }

  /** Each sensor's port with its reduced label. */
  function TypeEntries(sensors: Dict<int, SensorDetection.Sensor>): (r: Dict<int, string>)
    ensures |r| == |sensors|
    ensures forall i :: 0 <= i < |sensors| ==> r[i] == (sensors[i].0, ReducedType(sensors[i].1.typeCode))
  {
    seq(|sensors|, i requires 0 <= i < |sensors| => (sensors[i].0, ReducedType(sensors[i].1.typeCode)))
  }

  /** `self.sensor_types[port] = ...` for each sensor in turn. */
  function TypesOf(sensors: Dict<int, SensorDetection.Sensor>): Dict<int, string> {
    FromEntries(TypeEntries(sensors))
  }

  /** The labelled ports are the sensors' ports. */
  lemma TypesOfKeys(sensors: Dict<int, SensorDetection.Sensor>)
    ensures forall p :: HasKey(TypesOf(sensors), p) <==> HasKey(sensors, p)
  {
    var entries := TypeEntries(sensors);
    FromEntriesKeys(entries);
    forall p ensures HasKey(entries, p) <==> HasKey(sensors, p) {
      if HasKey(sensors, p) {
        var i :| 0 <= i < |sensors| && sensors[i].0 == p;
        assert entries[i].0 == p;
      }
    }
  }

  /** In a sensors dict, each port gets the reduced table's label for its code. */
  lemma TypesOfLabels(sensors: Dict<int, SensorDetection.Sensor>, i: int)
    requires DistinctKeys(sensors) && 0 <= i < |sensors|
    ensures Get(TypesOf(sensors), sensors[i].0) == Some(ReducedType(sensors[i].1.typeCode))
  {
    var entries := TypeEntries(sensors);
    assert DistinctKeys(entries);
    FromEntriesGet(entries, i);
  }

  /** The ports and their labels after construction. */
  datatype Setup = Setup(channels: seq<int>, sensorTypes: Dict<int, string>)

  const FallbackSetup := Setup([1, 2, 3], [(1, "RSP"), (2, "EMG"), (3, "EDA")])

  /** A listing that raises (`None`) or is empty falls back; otherwise the keys in order and their labels. */
  function SetupOf(sensors: Option<Dict<int, SensorDetection.Sensor>>): (s: Setup)
    ensures forall p :: p in s.channels ==> HasKey(s.sensorTypes, p)
  {
    if sensors.None? || sensors.value == [] then
      assert forall p :: p in FallbackSetup.channels ==> HasKey(FallbackSetup.sensorTypes, p) by {
        assert FallbackSetup.sensorTypes[0].0 == 1 && FallbackSetup.sensorTypes[1].0 == 2
          && FallbackSetup.sensorTypes[2].0 == 3;
      }
      FallbackSetup
    else
      var channels := Keys(sensors.value);
      assert forall p :: p in channels ==> HasKey(sensors.value, p);
      TypesOfKeys(sensors.value);
      Setup(channels, TypesOf(sensors.value))
  }

  /** `f"{self.sensor_types[port]}_CH{port}"` for each port in order. */
  function ChannelNames(s: Setup): (names: seq<string>)
    requires forall p :: p in s.channels ==> HasKey(s.sensorTypes, p)
    ensures |names| == |s.channels|
    ensures forall i :: 0 <= i < |s.channels| ==>
      names[i] == Get(s.sensorTypes, s.channels[i]).value + "_CH" + IntToString(s.channels[i])
  {
    seq(|s.channels|, i requires 0 <= i < |s.channels| =>
      Get(s.sensorTypes, s.channels[i]).value + "_CH" + IntToString(s.channels[i]))
  }

  /** The naming loop of the constructor. */
  method NameChannels(s: Setup) returns (names: seq<string>)
    requires forall p :: p in s.channels ==> HasKey(s.sensorTypes, p)
    ensures names == ChannelNames(s)
  {
    ghost var spec := ChannelNames(s);
    names := [];
    for i := 0 to |s.channels|
      invariant |names| == i && forall k :: 0 <= k < i ==> names[k] == spec[k]
    {
      names := names + [Get(s.sensorTypes, s.channels[i]).value + "_CH" + IntToString(s.channels[i])];
    }
  }

  /** Gyroscope, magnetometer, piezo and temperature sensors stream as `Unknown_Type<code>`. */
  lemma {:induction false} UnlistedCodesUnknown(sensors: Dict<int, SensorDetection.Sensor>, i: int)
    requires DistinctKeys(sensors) && 0 <= i < |sensors|
    requires sensors[i].1.typeCode in {5, 6, 8, 9}
    ensures var s := SetupOf(Some(sensors));
      s.channels[i] == sensors[i].0 &&
      ChannelNames(s)[i] == "Unknown_Type" + IntToString(sensors[i].1.typeCode) + "_CH" + IntToString(sensors[i].0)
  {
    var s := SetupOf(Some(sensors));
    var code := sensors[i].1.typeCode;
    assert s.channels == Keys(sensors) && s.sensorTypes == TypesOf(sensors);
    TypesOfLabels(sensors, i);
    ReducedTableAgrees(code);
    assert Get(s.sensorTypes, s.channels[i]).value == "Unknown_Type" + IntToString(code);
  }

  /** `data[:len(self.channels)]`. */
  function Truncate(data: seq<int>, n: nat): (r: seq<int>)
    ensures |r| == if |data| < n then |data| else n
    ensures r == data[..|r|]
  {
    if |data| <= n then data else data[..n]
  }

  /** One 16-bit source per port, no derivation mask. */
  function Sources(channels: seq<int>): (r: seq<SensorDetection.Source>)
    ensures |r| == |channels|
    ensures forall i :: 0 <= i < |channels| ==> r[i] == SensorDetection.Source(channels[i], 1, 16, None)
  {
    seq(|channels|, i requires 0 <= i < |channels| => SensorDetection.Source(channels[i], 1, 16, None))
  }

  /** The module-level `running` flag, shared by the callback, the start routine and the signal handler. */
  class RunFlag {
    var running: bool

    constructor()
      ensures !running
    {
      running := false;
    }
  }

  /** `MinimalDevice`: its ports, labels and names are fixed at construction. */
  class MinimalDevice {
    const channels: seq<int>
    const sensorTypes: Dict<int, string>
    const channelNames: seq<string>
    var sampleCount: nat
    /** What the outlet has been handed, oldest first. */
    var pushed: seq<seq<int>>

    /** The constructor, given what `getSensors` answers (`None` when it raises). */
    constructor(sensors: Option<Dict<int, SensorDetection.Sensor>>)
      ensures Setup(channels, sensorTypes) == SetupOf(sensors)
      ensures channelNames == ChannelNames(SetupOf(sensors))
      ensures sampleCount == 0 && pushed == []
    {
      var s := SetupOf(sensors);
      channels := s.channels;
      sensorTypes := s.sensorTypes;
      var names := NameChannels(s);
      channelNames := names;
      sampleCount := 0;
      pushed := [];
    }

    /** `onRawFrame`: stop when the flag is clear; otherwise push the frame's first values and count it. */
    method OnRawFrame(flag: RunFlag, sequence: int, data: seq<int>) returns (stop: bool)
      modifies this
      ensures !flag.running ==> stop && sampleCount == old(sampleCount) && pushed == old(pushed)
      ensures flag.running ==>
        !stop && sampleCount == old(sampleCount) + 1 && pushed == old(pushed) + [Truncate(data, |channels|)]
    {
      if !flag.running {
        return true;
      }
      pushed := pushed + [Truncate(data, |channels|)];
      sampleCount := sampleCount + 1;
      return false;
    }

    /**
     * `start_streaming`: build the sources, raise the flag, let the
     * acquisition loop hand each frame to the callback until it asks to
     * stop, and clear the flag on the way out.  The frames are those the
     * device delivers; a signal clearing the flag mid-loop is not modelled.
     */
    method StartStreaming(flag: RunFlag, frames: seq<seq<int>>) returns (sources: seq<SensorDetection.Source>)
      modifies this, flag
      ensures sources == Sources(channels)
      ensures sampleCount == old(sampleCount) + |frames|
      ensures pushed == old(pushed) + seq(|frames|, i requires 0 <= i < |frames| => Truncate(frames[i], |channels|))
      ensures !flag.running
    {
      sources := [];
      for i := 0 to |channels|
        invariant sources == Sources(channels[..i])
      {
        sources := sources + [SensorDetection.Source(channels[i], 1, 16, None)];
      }
      assert channels[..|channels|] == channels;
      flag.running := true;
      var k := 0;
      var stop := false;
      while k < |frames| && !stop
        invariant 0 <= k <= |frames| && flag.running && !stop
        invariant sampleCount == old(sampleCount) + k
        invariant pushed == old(pushed) + seq(k, i requires 0 <= i < k => Truncate(frames[i], |channels|))
      {
        stop := OnRawFrame(flag, k, frames[k]);
        k := k + 1;
      }
      flag.running := false;
    }
  }
}
