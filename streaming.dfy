/**
 * Lab Streaming Layer output (src/mobi_physio_api/streaming.py): the
 * channel layout a list of ports expands to, the demultiplexer that
 * splits one raw frame into values in that same order, and the
 * `LSLStreamer` object that holds the layout and the outlet.
 */
module Streaming {
  import opened Wrappers
  import opened Text
  import opened PyDict
  import opened Seqs

  /** `sensor_types.get(port, "UNKNOWN")`. */
  function TypeOf(sensorTypes: Dict<int, string>, port: int): string {
    Get(sensorTypes, port).GetOr("UNKNOWN")
  }

  /** How many output channels a port of this type contributes. */
  function Width(sensorType: string): nat {
    if sensorType == "SpO2" then 2 else if sensorType == "ACC" then 3 else 1
  }

  /** The total channel count of a port list: the sum of the widths. */
  function ChannelCount(sensorTypes: Dict<int, string>, ports: seq<int>): (n: nat)
    decreases |ports|
  {
    if ports == [] then 0
    else ChannelCount(sensorTypes, ports[..|ports| - 1]) + Width(TypeOf(sensorTypes, ports[|ports| - 1]))
  }

  /** Every port contributes at least one channel, so a non-empty port list has channels. */
  lemma {:induction false} ChannelCountCoversPorts(sensorTypes: Dict<int, string>, ports: seq<int>)
    ensures ChannelCount(sensorTypes, ports) >= |ports|
    decreases |ports|
  {
    if ports != [] {
      ChannelCountCoversPorts(sensorTypes, ports[..|ports| - 1]);
    }
  }

  /** The three parallel lists `channel_names`, `channel_types` and `channels`. */
  datatype Layout = Layout(names: seq<string>, types: seq<string>, ports: seq<string>)

  /** The channels of one port: `<t>_<p>_RED`/`_INFRARED`, `<t>_<p>_X`/`_Y`/`_Z`, or `<t>_<p>`. */
  function PortLayout(sensorType: string, port: int): (l: Layout)
    ensures |l.names| == |l.types| == |l.ports| == Width(sensorType)
    ensures forall k :: 0 <= k < |l.ports| ==> l.ports[k] == IntToString(port)
  {
    var stem := sensorType + "_" + IntToString(port);
    var p := IntToString(port);
    if sensorType == "SpO2" then
      Layout([stem + "_RED", stem + "_INFRARED"], ["SpO2", "SpO2"], [p, p])
    else if sensorType == "ACC" then
      Layout([stem + "_X", stem + "_Y", stem + "_Z"], ["ACC", "ACC", "ACC"], [p, p, p])
    else
      Layout([stem], [sensorType], [p])
  }

  /** Each port's channel names, in port order. */
  function NameParts(sensorTypes: Dict<int, string>, ports: seq<int>): (r: seq<seq<string>>)
    ensures |r| == |ports|
    ensures forall k :: 0 <= k < |ports| ==> r[k] == PortLayout(TypeOf(sensorTypes, ports[k]), ports[k]).names
  {
    seq(|ports|, k requires 0 <= k < |ports| => PortLayout(TypeOf(sensorTypes, ports[k]), ports[k]).names)
  }

  /** Each port's channel types, in port order. */
  function TypeParts(sensorTypes: Dict<int, string>, ports: seq<int>): (r: seq<seq<string>>)
    ensures |r| == |ports|
    ensures forall k :: 0 <= k < |ports| ==> r[k] == PortLayout(TypeOf(sensorTypes, ports[k]), ports[k]).types
  {
    seq(|ports|, k requires 0 <= k < |ports| => PortLayout(TypeOf(sensorTypes, ports[k]), ports[k]).types)
  }

  /** Each port's entries in `channels`, in port order. */
  function PortParts(sensorTypes: Dict<int, string>, ports: seq<int>): (r: seq<seq<string>>)
    ensures |r| == |ports|
    ensures forall k :: 0 <= k < |ports| ==> r[k] == PortLayout(TypeOf(sensorTypes, ports[k]), ports[k]).ports
  {
    seq(|ports|, k requires 0 <= k < |ports| => PortLayout(TypeOf(sensorTypes, ports[k]), ports[k]).ports)
  }

  /** The layout `setup_channels` builds: each port's channels after those of the ports before it. */
  function LayoutOf(sensorTypes: Dict<int, string>, ports: seq<int>): (l: Layout)
    ensures |l.names| == |l.types| == |l.ports| == ChannelCount(sensorTypes, ports)
  {
    LayoutCount(sensorTypes, ports);
    Layout(Flatten(NameParts(sensorTypes, ports)), Flatten(TypeParts(sensorTypes, ports)),
           Flatten(PortParts(sensorTypes, ports)))
  }

  /** The parts of the first `i` ports are the first `i` parts. */
  lemma LayoutPartsPrefix(sensorTypes: Dict<int, string>, ports: seq<int>, i: int)
    requires 0 <= i <= |ports|
    ensures NameParts(sensorTypes, ports)[..i] == NameParts(sensorTypes, ports[..i])
    ensures TypeParts(sensorTypes, ports)[..i] == TypeParts(sensorTypes, ports[..i])
    ensures PortParts(sensorTypes, ports)[..i] == PortParts(sensorTypes, ports[..i])
  {
  }

  /** The names of a port list number its channel count. */
  lemma {:induction false} NamesCount(sensorTypes: Dict<int, string>, ports: seq<int>)
    ensures |Flatten(NameParts(sensorTypes, ports))| == ChannelCount(sensorTypes, ports)
    decreases |ports|
  {
    if ports != [] {
      var n := |ports| - 1;
      var parts := NameParts(sensorTypes, ports);
      NamesCount(sensorTypes, ports[..n]);
      LayoutPartsPrefix(sensorTypes, ports, n);
      assert Flatten(parts) == Flatten(parts[..n]) + parts[n];
    }
  }

  /** The three lists of a layout each number its channel count. */
  lemma LayoutCount(sensorTypes: Dict<int, string>, ports: seq<int>)
    ensures |Flatten(NameParts(sensorTypes, ports))| == ChannelCount(sensorTypes, ports)
    ensures |Flatten(TypeParts(sensorTypes, ports))| == ChannelCount(sensorTypes, ports)
    ensures |Flatten(PortParts(sensorTypes, ports))| == ChannelCount(sensorTypes, ports)
  {
    NamesCount(sensorTypes, ports);
    FlattenSameLength(TypeParts(sensorTypes, ports), NameParts(sensorTypes, ports));
    FlattenSameLength(PortParts(sensorTypes, ports), NameParts(sensorTypes, ports));
  }

  /** One more port appends that port's channels to each list. */
  lemma LayoutOfStep(sensorTypes: Dict<int, string>, ports: seq<int>, i: int)
    requires 0 <= i < |ports|
    ensures var l := LayoutOf(sensorTypes, ports[..i]);
      var c := PortLayout(TypeOf(sensorTypes, ports[i]), ports[i]);
      LayoutOf(sensorTypes, ports[..i + 1]) == Layout(l.names + c.names, l.types + c.types, l.ports + c.ports)
  {
    var q := ports[..i + 1];
    LayoutPartsPrefix(sensorTypes, q, i);
    assert q[..i] == ports[..i] && q[i] == ports[i];
    assert Flatten(NameParts(sensorTypes, q)) == Flatten(NameParts(sensorTypes, q)[..i]) + NameParts(sensorTypes, q)[i];
    assert Flatten(TypeParts(sensorTypes, q)) == Flatten(TypeParts(sensorTypes, q)[..i]) + TypeParts(sensorTypes, q)[i];
    assert Flatten(PortParts(sensorTypes, q)) == Flatten(PortParts(sensorTypes, q)[..i]) + PortParts(sensorTypes, q)[i];
  }

  /**
   * How one raw value unpacks: SpO2 into its low and high 16-bit fields
   * (RED, INFRARED), bare ACC into its three low bytes (X, Y, Z), any
   * other type unchanged.  Python's `&` and `>>` by powers of two are
   * Euclidean `%` and `/`.
   */
  function Unpack(sensorType: string, v: int): (r: seq<int>)
    ensures |r| == Width(sensorType)
    ensures sensorType == "SpO2" ==> forall k :: 0 <= k < |r| ==> 0 <= r[k] <= 0xFFFF
    ensures sensorType == "ACC" ==> forall k :: 0 <= k < |r| ==> 0 <= r[k] <= 0xFF
    ensures sensorType != "SpO2" && sensorType != "ACC" ==> r == [v]
  {
    if sensorType == "SpO2" then [v % 0x1_0000, (v / 0x1_0000) % 0x1_0000]
    else if sensorType == "ACC" then [v % 0x100, (v / 0x100) % 0x100, (v / 0x1_0000) % 0x100]
    else [v]
  }

  /** Two 16-bit fields packed as `red | infrared << 16` unpack to themselves. */
  lemma SpO2RoundTrip(red: int, infrared: int)
    requires 0 <= red < 0x1_0000 && 0 <= infrared < 0x1_0000
    ensures Unpack("SpO2", red + infrared * 0x1_0000) == [red, infrared]
  {
    var v := red + infrared * 0x1_0000;
    assert v / 0x1_0000 == infrared;
  }

  /** A 32-bit raw value is exactly its two unpacked fields. */
  lemma SpO2Repack(v: int)
    requires 0 <= v < 0x1_0000_0000
    ensures var r := Unpack("SpO2", v); r[0] + r[1] * 0x1_0000 == v
  {
  }

  /** Three bytes packed as `x | y << 8 | z << 16` unpack to themselves. */
  lemma AccRoundTrip(x: int, y: int, z: int)
    requires 0 <= x < 0x100 && 0 <= y < 0x100 && 0 <= z < 0x100
    ensures Unpack("ACC", x + y * 0x100 + z * 0x1_0000) == [x, y, z]
  {
    var v := x + y * 0x100 + z * 0x1_0000;
    assert v / 0x100 == y + z * 0x100;
    assert v / 0x1_0000 == z;
  }

  /** A 24-bit raw value is exactly its three unpacked bytes. */
  lemma AccRepack(v: int)
    requires 0 <= v < 0x100_0000
    ensures var r := Unpack("ACC", v); r[0] + r[1] * 0x100 + r[2] * 0x1_0000 == v
  {
    assert v / 0x100 / 0x100 == v / 0x1_0000;
  }

  /** Each port's unpacked values: port `j` reads raw value `j`, a port past the end of the frame nothing. */
  function ValueParts(raw: seq<int>, sensorTypes: Dict<int, string>, ports: seq<int>): (r: seq<seq<int>>)
    ensures |r| == |ports|
    ensures forall k :: 0 <= k < |ports| ==>
      r[k] == if k < |raw| then Unpack(TypeOf(sensorTypes, ports[k]), raw[k]) else []
  {
    seq(|ports|, k requires 0 <= k < |ports| =>
      if k < |raw| then Unpack(TypeOf(sensorTypes, ports[k]), raw[k]) else [])
  }

  /** `process_raw_data`: each port's unpacked values after those of the ports before it. */
  function ProcessRaw(raw: seq<int>, sensorTypes: Dict<int, string>, ports: seq<int>): (out: seq<int>)
    ensures |raw| >= |ports| ==> |out| == ChannelCount(sensorTypes, ports)
  {
    ValuesCount(raw, sensorTypes, ports);
    Flatten(ValueParts(raw, sensorTypes, ports))
  }

  lemma ValuePartsPrefix(raw: seq<int>, sensorTypes: Dict<int, string>, ports: seq<int>, i: int)
    requires 0 <= i <= |ports|
    ensures ValueParts(raw, sensorTypes, ports)[..i] == ValueParts(raw, sensorTypes, ports[..i])
  {
  }

  /** A full frame yields one value per channel of the layout. */
  lemma ValuesCount(raw: seq<int>, sensorTypes: Dict<int, string>, ports: seq<int>)
    ensures |raw| >= |ports| ==> |Flatten(ValueParts(raw, sensorTypes, ports))| == ChannelCount(sensorTypes, ports)
  {
    if |raw| >= |ports| {
      FlattenSameLength(ValueParts(raw, sensorTypes, ports), NameParts(sensorTypes, ports));
      NamesCount(sensorTypes, ports);
    }
  }

  /** One more port appends its unpacked raw value, if the frame reaches it. */
  lemma ProcessRawStep(raw: seq<int>, sensorTypes: Dict<int, string>, ports: seq<int>, i: int)
    requires 0 <= i < |ports|
    ensures ProcessRaw(raw, sensorTypes, ports[..i + 1]) ==
      ProcessRaw(raw, sensorTypes, ports[..i]) + if i < |raw| then Unpack(TypeOf(sensorTypes, ports[i]), raw[i]) else []
  {
    var q := ports[..i + 1];
    var parts := ValueParts(raw, sensorTypes, q);
    ValuePartsPrefix(raw, sensorTypes, q, i);
    assert q[..i] == ports[..i] && q[i] == ports[i];
    assert Flatten(parts) == Flatten(parts[..i]) + parts[i];
  }

  /** A short frame is processed as if the ports it does not reach were absent. */
  lemma ShortFrame(raw: seq<int>, sensorTypes: Dict<int, string>, ports: seq<int>)
    requires |raw| < |ports|
    ensures ProcessRaw(raw, sensorTypes, ports) == ProcessRaw(raw, sensorTypes, ports[..|raw|])
    ensures |ProcessRaw(raw, sensorTypes, ports)| == ChannelCount(sensorTypes, ports[..|raw|])
  {
    FlattenEmptyTail(ValueParts(raw, sensorTypes, ports), |raw|);
    ValuePartsPrefix(raw, sensorTypes, ports, |raw|);
    ValuesCount(raw, sensorTypes, ports[..|raw|]);
  }

  /** Port `j`'s channel names start at the channel count of the ports before it. */
  lemma NamesSlot(sensorTypes: Dict<int, string>, ports: seq<int>, j: int)
    requires 0 <= j < |ports|
    ensures var off := ChannelCount(sensorTypes, ports[..j]);
      var c := NameParts(sensorTypes, ports)[j];
      off + |c| <= |LayoutOf(sensorTypes, ports).names| && LayoutOf(sensorTypes, ports).names[off..off + |c|] == c
  {
    var parts := NameParts(sensorTypes, ports);
    LayoutPartsPrefix(sensorTypes, ports, j);
    NamesCount(sensorTypes, ports[..j]);
    FlattenSlot(parts, j);
  }

  /** Port `j`'s channel types start at the same offset. */
  lemma TypesSlot(sensorTypes: Dict<int, string>, ports: seq<int>, j: int)
    requires 0 <= j < |ports|
    ensures var off := ChannelCount(sensorTypes, ports[..j]);
      var c := TypeParts(sensorTypes, ports)[j];
      off + |c| <= |LayoutOf(sensorTypes, ports).types| && LayoutOf(sensorTypes, ports).types[off..off + |c|] == c
  {
    var parts := TypeParts(sensorTypes, ports);
    LayoutPartsPrefix(sensorTypes, ports, j);
    LayoutCount(sensorTypes, ports[..j]);
    FlattenSlot(parts, j);
  }

  /** In a full frame, port `j`'s unpacked values start at the same offset as its channels. */
  lemma ValueSlot(raw: seq<int>, sensorTypes: Dict<int, string>, ports: seq<int>, j: int)
    requires 0 <= j < |ports| <= |raw|
    ensures var off := ChannelCount(sensorTypes, ports[..j]);
      var w := Width(TypeOf(sensorTypes, ports[j]));
      off + w <= |ProcessRaw(raw, sensorTypes, ports)| &&
      ProcessRaw(raw, sensorTypes, ports)[off..off + w] == Unpack(TypeOf(sensorTypes, ports[j]), raw[j])
  {
    var parts := ValueParts(raw, sensorTypes, ports);
    ValuePartsPrefix(raw, sensorTypes, ports, j);
    ValuesCount(raw, sensorTypes, ports[..j]);
    assert |Flatten(parts[..j])| == ChannelCount(sensorTypes, ports[..j]);
    assert parts[j] == Unpack(TypeOf(sensorTypes, ports[j]), raw[j]);
    FlattenSlot(parts, j);
    assert ProcessRaw(raw, sensorTypes, ports) == Flatten(parts);
  }

  /** A channel description inside the stream info. */
  datatype ChannelDesc = ChannelDesc(channelLabel: string, unit: string, channelType: string)

  /** The stream info handed to the outlet. */
  datatype StreamInfo = StreamInfo(
    name: string, streamType: string, channelCount: nat, nominalSrate: real,
    channelFormat: string, sourceId: string, channels: seq<ChannelDesc>)

  /** An open outlet and the info it was opened with. */
  datatype Outlet = Outlet(info: StreamInfo)

  const NoChannelsMessage := "No channels configured. Call setup_channels() first."
  const NoStreamMessage := "Stream not created. Call create_stream() first."

  function Min(a: int, b: int): int {
    if a <= b then a else b
  }

  /** The `ValueError` a strict `zip` of two lists raises when the second is shorter or longer. */
  function ZipLengthMessage(first: nat, second: nat): string {
    if second < first then "zip() argument 2 is shorter than argument 1"
    else "zip() argument 2 is longer than argument 1"
  }

  /** The channel descriptions of parallel name and type lists, unit `microvolts`. */
  function Describe(names: seq<string>, types: seq<string>): (d: seq<ChannelDesc>)
    requires |names| == |types|
    ensures |d| == |names|
  {
    seq(|names|, k requires 0 <= k < |names| => ChannelDesc(names[k], "microvolts", types[k]))
  }

  class LslStreamer {
    const streamName: string
    const streamType: string
    const sourceId: string
    const samplingRate: real

    var channels: seq<string>
    var channelNames: seq<string>
    var channelTypes: seq<string>
    var info: Option<StreamInfo>
    var outlet: Option<Outlet>
    /** The samples handed to the outlet, oldest first. */
    var pushed: seq<seq<int>>

    /** The three channel lists run in parallel. */
    predicate Valid()
      reads this
    {
      |channels| == |channelNames| == |channelTypes|
    }

    constructor(streamName: string, streamType: string, sourceId: string, samplingRate: real)
      ensures this.streamName == streamName && this.streamType == streamType
      ensures this.sourceId == sourceId && this.samplingRate == samplingRate
      ensures channels == [] && channelNames == [] && channelTypes == []
      ensures info == None && outlet == None && pushed == []
      ensures Valid()
    {
      this.streamName := streamName;
      this.streamType := streamType;
      this.sourceId := sourceId;
      this.samplingRate := samplingRate;
      channels := [];
      channelNames := [];
      channelTypes := [];
      info := None;
      outlet := None;
      pushed := [];
    }

    /**
     * `setup_channels`: clear the three lists, then expand each port in
     * order.  The new lists depend on the arguments alone, so a second
     * call with the same arguments changes nothing.
     */
    method SetupChannels(sensorTypes: Dict<int, string>, ports: seq<int>)
      modifies this
      ensures channelNames == LayoutOf(sensorTypes, ports).names
      ensures channelTypes == LayoutOf(sensorTypes, ports).types
      ensures channels == LayoutOf(sensorTypes, ports).ports
      ensures |channelNames| == ChannelCount(sensorTypes, ports)
      ensures info == old(info) && outlet == old(outlet) && pushed == old(pushed)
      ensures Valid()
    {
      channels := [];
      channelNames := [];
      channelTypes := [];
      var i := 0;
      while i < |ports|
        invariant 0 <= i <= |ports|
        invariant Layout(channelNames, channelTypes, channels) == LayoutOf(sensorTypes, ports[..i])
        invariant info == old(info) && outlet == old(outlet) && pushed == old(pushed)
      {
        LayoutOfStep(sensorTypes, ports, i);
        AppendPort(TypeOf(sensorTypes, ports[i]), ports[i]);
        i := i + 1;
      }
      assert ports[..i] == ports;
    }

    /** The body of the `setup_channels` loop for one port: append its channels to the three lists. */
    method AppendPort(sensorType: string, port: int)
      modifies this
      ensures channelNames == old(channelNames) + PortLayout(sensorType, port).names
      ensures channelTypes == old(channelTypes) + PortLayout(sensorType, port).types
      ensures channels == old(channels) + PortLayout(sensorType, port).ports
      ensures info == old(info) && outlet == old(outlet) && pushed == old(pushed)
    {
      var p := IntToString(port);
      if sensorType == "SpO2" {
        var derivations := ["RED", "INFRARED"];
        var k := 0;
        while k < 2
          invariant 0 <= k <= 2
          invariant channelNames == old(channelNames) + PortLayout(sensorType, port).names[..k]
          invariant channelTypes == old(channelTypes) + PortLayout(sensorType, port).types[..k]
          invariant channels == old(channels) + PortLayout(sensorType, port).ports[..k]
          invariant info == old(info) && outlet == old(outlet) && pushed == old(pushed)
        {
          assert sensorType + "_" + p + "_" + derivations[k] == PortLayout(sensorType, port).names[k];
          channelNames := channelNames + [sensorType + "_" + p + "_" + derivations[k]];
          channelTypes := channelTypes + ["SpO2"];
          channels := channels + [p];
          k := k + 1;
        }
      } else if sensorType == "ACC" {
        var axes := ["X", "Y", "Z"];
        var k := 0;
        while k < 3
          invariant 0 <= k <= 3
          invariant channelNames == old(channelNames) + PortLayout(sensorType, port).names[..k]
          invariant channelTypes == old(channelTypes) + PortLayout(sensorType, port).types[..k]
          invariant channels == old(channels) + PortLayout(sensorType, port).ports[..k]
          invariant info == old(info) && outlet == old(outlet) && pushed == old(pushed)
        {
          assert sensorType + "_" + p + "_" + axes[k] == PortLayout(sensorType, port).names[k];
          channelNames := channelNames + [sensorType + "_" + p + "_" + axes[k]];
          channelTypes := channelTypes + ["ACC"];
          channels := channels + [p];
          k := k + 1;
        }
      } else {
        channelNames := channelNames + [sensorType + "_" + p];
        channelTypes := channelTypes + [sensorType];
        channels := channels + [p];
      }
    }

    /**
     * `create_stream`: refuse an empty layout; otherwise build the info
     * (channel count = number of names, `float32`) and describe the
     * channels pairwise.  The strict `zip` describes as many pairs as the
     * shorter list holds and then raises when the lengths differ, leaving
     * the info with those descriptions and no outlet; otherwise the outlet
     * is opened on the info.
     */
    method CreateStream() returns (outcome: Outcome)
      modifies this
      ensures channels == old(channels) && channelNames == old(channelNames) && channelTypes == old(channelTypes)
      ensures pushed == old(pushed)
      ensures |channelNames| == 0 ==>
        outcome == Fail(RuntimeError(NoChannelsMessage)) && info == old(info) && outlet == old(outlet)
      ensures |channelNames| > 0 ==>
        var m := Min(|channelNames|, |channelTypes|);
        info == Some(StreamInfo(streamName, streamType, |channelNames|, samplingRate, "float32", sourceId,
                                Describe(channelNames[..m], channelTypes[..m])))
      ensures |channelNames| > 0 && |channelNames| != |channelTypes| ==>
        outcome == Fail(ValueError(ZipLengthMessage(|channelNames|, |channelTypes|))) && outlet == old(outlet)
      ensures |channelNames| > 0 && |channelNames| == |channelTypes| ==>
        outcome == Pass && |info.value.channels| == |channelNames| && outlet == Some(Outlet(info.value))
    {
      if |channelNames| == 0 {
        return Fail(RuntimeError(NoChannelsMessage));
      }
      var newInfo := StreamInfo(streamName, streamType, |channelNames|, samplingRate, "float32", sourceId, []);
      info := Some(newInfo);
      var k := 0;
      while k < |channelNames| && k < |channelTypes|
        invariant 0 <= k <= Min(|channelNames|, |channelTypes|)
        invariant info == Some(newInfo.(channels := Describe(channelNames[..k], channelTypes[..k])))
        invariant channels == old(channels) && channelNames == old(channelNames) && channelTypes == old(channelTypes)
        invariant pushed == old(pushed) && outlet == old(outlet)
      {
        var desc := ChannelDesc(channelNames[k], "microvolts", channelTypes[k]);
        assert Describe(channelNames[..k + 1], channelTypes[..k + 1])
            == Describe(channelNames[..k], channelTypes[..k]) + [desc];
        info := Some(info.value.(channels := info.value.channels + [desc]));
        k := k + 1;
      }
      if |channelNames| != |channelTypes| {
        return Fail(ValueError(ZipLengthMessage(|channelNames|, |channelTypes|)));
      }
      outlet := Some(Outlet(info.value));
      outcome := Pass;
    }

    /** `push_sample`: refuse when no outlet is open, otherwise hand the sample over. */
    method PushSample(data: seq<int>) returns (outcome: Outcome)
      modifies this
      ensures channels == old(channels) && channelNames == old(channelNames) && channelTypes == old(channelTypes)
      ensures info == old(info) && outlet == old(outlet)
      ensures old(outlet).None? ==> outcome == Fail(RuntimeError(NoStreamMessage)) && pushed == old(pushed)
      ensures old(outlet).Some? ==> outcome == Pass && pushed == old(pushed) + [data]
    {
      if outlet.None? {
        return Fail(RuntimeError(NoStreamMessage));
      }
      pushed := pushed + [data];
      outcome := Pass;
    }

    /** `get_channel_count`: the number of channel names. */
    method GetChannelCount() returns (n: nat)
      ensures n == |channelNames|
    {
      n := |channelNames|;
    }

    /** `get_channel_names`: a copy of the channel names. */
    method GetChannelNames() returns (names: seq<string>)
      ensures names == channelNames
    {
      names := channelNames;
    }

    /**
     * `process_raw_data`: walk the ports with a raw-data index that
     * advances by one per port whatever its type.
     */
    method ProcessRawData(raw: seq<int>, sensorTypes: Dict<int, string>, ports: seq<int>) returns (processed: seq<int>)
      ensures processed == ProcessRaw(raw, sensorTypes, ports)
      ensures |raw| >= |ports| ==> |processed| == ChannelCount(sensorTypes, ports)
    {
      processed := [];
      var dataIndex := 0;
      var i := 0;
      while i < |ports|
        invariant 0 <= i <= |ports|
        invariant dataIndex == i
        invariant processed == ProcessRaw(raw, sensorTypes, ports[..i])
      {
        var sensorType := TypeOf(sensorTypes, ports[i]);
        ProcessRawStep(raw, sensorTypes, ports, i);
        ghost var before := processed;
        if sensorType == "SpO2" {
          if dataIndex < |raw| {
            var rawValue := raw[dataIndex];
            processed := processed + [rawValue % 0x1_0000];
            processed := processed + [(rawValue / 0x1_0000) % 0x1_0000];
            assert processed == before + Unpack(sensorType, raw[i]);
          }
          dataIndex := dataIndex + 1;
        } else if sensorType == "ACC" {
          if dataIndex < |raw| {
            var rawValue := raw[dataIndex];
            processed := processed + [rawValue % 0x100];
            processed := processed + [(rawValue / 0x100) % 0x100];
            processed := processed + [(rawValue / 0x1_0000) % 0x100];
            assert processed == before + Unpack(sensorType, raw[i]);
          }
          dataIndex := dataIndex + 1;
        } else {
          if dataIndex < |raw| {
            processed := processed + [raw[dataIndex]];
            assert processed == before + Unpack(sensorType, raw[i]);
          }
          dataIndex := dataIndex + 1;
        }
        i := i + 1;
      }
      assert ports[..i] == ports;
    }
  }

  /**
   * For a full frame, `process_raw_data` yields exactly as many values as
   * the layout `setup_channels` declares for the same arguments.
   */
  lemma FullFrameMatchesLayout(raw: seq<int>, sensorTypes: Dict<int, string>, ports: seq<int>)
    requires |raw| >= |ports|
    ensures |ProcessRaw(raw, sensorTypes, ports)| == |LayoutOf(sensorTypes, ports).names|
  {
  }
}
