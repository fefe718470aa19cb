/**
 * The PLUX device session (src/mobi_physio_api/device.py): platform
 * formatting of the MAC address, the discover / set up streaming /
 * start acquisition sequence with its guards, and the frame callback
 * of the wrapper that feeds the streamer.
 */
module Device {
  import opened Wrappers
  import opened Text
  import opened PyDict
  import SensorDetection
  import Streaming
  import PlatformDetection

  /**
   * `_format_mac_address` with `platform.system()` as a parameter: Windows
   * wants a `BTH` prefix, other systems dash-separated octets.
   */
  function FormatMacAddress(mac: string, system: string): (r: string)
    ensures system == "Windows" && StartsWith(mac, "BTH") ==> r == mac
    ensures system == "Windows" && !StartsWith(mac, "BTH") ==> r == "BTH" + mac
    ensures system != "Windows" ==> |r| == |mac| && ':' !in r
    ensures system != "Windows" ==> forall k :: 0 <= k < |mac| ==> r[k] == if mac[k] == ':' then '-' else mac[k]
  {
    if system == "Windows" then
      if !StartsWith(mac, "BTH") then "BTH" + mac else mac
    else if Contains(mac, ":") then
      ReplaceChar(mac, ':', '-')
    else
      (NoColon(mac); mac)
  }

  /** A string in which `":"` is not found holds no colon. */
  lemma NoColon(s: string)
    requires !Contains(s, ":")
    ensures ':' !in s
  {
    ContainsIff(s, ":");
  }

  /** Formatting an already formatted address changes nothing, on every platform. */
  lemma FormatMacAddressIdempotent(mac: string, system: string)
    ensures FormatMacAddress(FormatMacAddress(mac, system), system) == FormatMacAddress(mac, system)
  {
    var once := FormatMacAddress(mac, system);
    if system == "Windows" {
      assert StartsWith(once, "BTH");
    } else {
      ContainsIff(once, ":");
    }
  }

  const NoSensorsMessage := "No sensors detected on device"
  const NoChannelsMessage := "No channels configured. Call discover_sensors() first."
  const NotSetUpMessage := "Streaming not set up. Call setup_streaming() first."
  /** What Python says when `push_sample(data)` is called with a timestamp as well. */
  const PushArityMessage := "LSLStreamer.push_sample() takes 2 positional arguments but 3 were given"
  const ModuloByZeroMessage := "integer modulo by zero"

  /**
   * `PluxDeviceWrapper`: the callback object handed the streamer, the
   * labels and the ports at the start of acquisition.
   */
  class PluxDeviceWrapper {
    const streamer: Streaming.LslStreamer
    const sensorTypes: Dict<int, string>
    const channels: seq<int>
    const debugInterval: int
    var sampleCount: nat
    var running: bool

    constructor(streamer: Streaming.LslStreamer, sensorTypes: Dict<int, string>, channels: seq<int>, debugInterval: int)
      ensures this.streamer == streamer && this.sensorTypes == sensorTypes
      ensures this.channels == channels && this.debugInterval == debugInterval
      ensures sampleCount == 0 && running
    {
      this.streamer := streamer;
      this.sensorTypes := sensorTypes;
      this.channels := channels;
      this.debugInterval := debugInterval;
      sampleCount := 0;
      running := true;
    }

    /**
     * `on_raw_frame` as written: while running it counts the frame,
     * demultiplexes it, and then calls `push_sample` with a timestamp
     * that the one-argument `push_sample` does not accept, so every
     * running frame raises `TypeError` and nothing reaches the outlet.
     */
    method OnRawFrameAsWritten(sequence: int, data: seq<int>) returns (r: Result<bool>)
      modifies this
      ensures running == old(running)
      ensures !old(running) ==> r == Ok(true) && sampleCount == old(sampleCount)
      ensures old(running) ==> r == Err(TypeError(PushArityMessage)) && sampleCount == old(sampleCount) + 1
    {
      if !running {
        return Ok(true);
      }
      sampleCount := sampleCount + 1;
      var processed := streamer.ProcessRawData(data, sensorTypes, channels);
      return Err(TypeError(PushArityMessage));
    }

    /**
     * `on_raw_frame` with the sample pushed on its own: not running, it
     * asks the loop to stop and counts nothing; running, it counts the
     * frame, pushes the demultiplexed values and asks to continue.  The
     * push fails when no outlet is open, and the debug-interval test
     * divides by `debug_interval`.
     */
    method OnRawFrame(sequence: int, data: seq<int>) returns (r: Result<bool>)
      modifies this, streamer
      ensures running == old(running)
      ensures streamer.channelNames == old(streamer.channelNames) && streamer.outlet == old(streamer.outlet)
      ensures streamer.channels == old(streamer.channels) && streamer.channelTypes == old(streamer.channelTypes)
      ensures streamer.info == old(streamer.info)
      ensures !old(running) ==>
        r == Ok(true) && sampleCount == old(sampleCount) && streamer.pushed == old(streamer.pushed)
      ensures old(running) ==> sampleCount == old(sampleCount) + 1
      ensures old(running) && streamer.outlet.None? ==>
        r == Err(RuntimeError(Streaming.NoStreamMessage)) && streamer.pushed == old(streamer.pushed)
      ensures old(running) && streamer.outlet.Some? ==>
        streamer.pushed == old(streamer.pushed) + [Streaming.ProcessRaw(data, sensorTypes, channels)] &&
        r == if debugInterval == 0 then Err(ZeroDivisionError(ModuloByZeroMessage)) else Ok(false)
    {
      if !running {
        return Ok(true);
      }
      sampleCount := sampleCount + 1;
      var processed := streamer.ProcessRawData(data, sensorTypes, channels);
      var pushed := streamer.PushSample(processed);
      if pushed.Fail? {
        return Err(pushed.error);
      }
      if debugInterval == 0 {
        return Err(ZeroDivisionError(ModuloByZeroMessage));
      }
      return Ok(false);
    }
  }

  /**
   * `PluxDevice`: the session object.  Connecting to the hardware is not
   * modelled; `discover_sensors` is given what the connected device
   * answers.
   */
  class PluxDevice {
    const macAddress: string
    const samplingRate: real
    const streamName: string
    const streamer: Streaming.LslStreamer

    var channels: seq<int>
    var sensorTypes: Dict<int, string>
    var sensorInfo: Dict<int, SensorDetection.SensorRecord>
    var sources: seq<SensorDetection.Source>
    var running: bool

    /** The constructor's state: formatted address, empty detection, a fresh streamer. */
    constructor(mac: string, system: string, samplingRate: real, streamName: string)
      ensures macAddress == FormatMacAddress(mac, system)
      ensures this.samplingRate == samplingRate && this.streamName == streamName
      ensures channels == [] && sensorTypes == [] && sensorInfo == [] && sources == [] && !running
      ensures fresh(streamer)
      ensures streamer.streamName == streamName && streamer.samplingRate == samplingRate
      ensures streamer.streamType == "Physiological" && streamer.sourceId == "biosignalsplux"
      ensures streamer.channelNames == [] && streamer.outlet.None?
    {
      macAddress := FormatMacAddress(mac, system);
      this.samplingRate := samplingRate;
      this.streamName := streamName;
      channels := [];
      sensorTypes := [];
      sensorInfo := [];
      sources := [];
      running := false;
      streamer := new Streaming.LslStreamer(streamName, "Physiological", "biosignalsplux", samplingRate);
    }

    /**
     * `discover_sensors`: store the four detection results, then refuse an
     * empty port list (which happens exactly when the device reports no
     * sensors, since a failing enumeration falls back to three ports).
     */
    method DiscoverSensors(answers: SensorDetection.Device) returns (r: Result<Dict<int, string>>)
      modifies this
      ensures SensorDetection.Detection(channels, sensorTypes, sensorInfo, sources)
           == SensorDetection.SensorInfoSpec(answers)
      ensures running == old(running)
      ensures r.Err? <==> answers.sensors == Some([])
      ensures r.Err? ==> r.error == RuntimeError(NoSensorsMessage)
      ensures r.Ok? ==> r.value == sensorTypes
    {
      var detection := SensorDetection.GetSensorInfo(answers);
      channels := detection.channels;
      sensorTypes := detection.sensorTypes;
      sensorInfo := detection.sensorInfo;
      sources := detection.sources;
      if |channels| == 0 {
        return Err(RuntimeError(NoSensorsMessage));
      }
      return Ok(sensorTypes);
    }

    /**
     * `setup_streaming`: refuse when no ports are known; otherwise lay out
     * the channels and open the stream, which cannot then fail because
     * every port contributes at least one channel.
     */
    method SetupStreaming() returns (outcome: Outcome)
      modifies streamer
      ensures |channels| == 0 ==> (outcome == Fail(RuntimeError(NoChannelsMessage)) &&
        streamer.outlet == old(streamer.outlet) && streamer.channelNames == old(streamer.channelNames))
      ensures |channels| > 0 ==> (outcome == Pass && streamer.outlet.Some? &&
        streamer.channelNames == Streaming.LayoutOf(sensorTypes, channels).names &&
        streamer.channelTypes == Streaming.LayoutOf(sensorTypes, channels).types &&
        streamer.outlet.value.info.channelCount == Streaming.ChannelCount(sensorTypes, channels))
      ensures |channels| > 0 ==>
        var layout := Streaming.LayoutOf(sensorTypes, channels);
        var info := Streaming.StreamInfo(streamer.streamName, streamer.streamType,
          Streaming.ChannelCount(sensorTypes, channels), streamer.samplingRate, "float32", streamer.sourceId,
          Streaming.Describe(layout.names, layout.types));
        streamer.channels == layout.ports && streamer.pushed == old(streamer.pushed) &&
        streamer.info == Some(info) && streamer.outlet == Some(Streaming.Outlet(info))
    {
      if |channels| == 0 {
        return Fail(RuntimeError(NoChannelsMessage));
      }
      Streaming.ChannelCountCoversPorts(sensorTypes, channels);
      streamer.SetupChannels(sensorTypes, channels);
      assert streamer.channelNames[..|streamer.channelNames|] == streamer.channelNames;
      assert streamer.channelTypes[..|streamer.channelTypes|] == streamer.channelTypes;
      outcome := streamer.CreateStream();
    }

    /**
     * `start_acquisition`: refuse without ports or without an open
     * outlet; otherwise build the callback wrapper over the streamer,
     * labels and ports, and mark the session running.  Starting the
     * hardware and the acquisition loop are not modelled.
     */
    method StartAcquisition(debugInterval: int) returns (r: Result<PluxDeviceWrapper>)
      modifies this
      ensures channels == old(channels) && sensorTypes == old(sensorTypes)
      ensures sensorInfo == old(sensorInfo) && sources == old(sources)
      ensures |channels| == 0 ==> r == Err(RuntimeError(NoChannelsMessage)) && running == old(running)
      ensures |channels| > 0 && streamer.outlet.None? ==>
        r == Err(RuntimeError(NotSetUpMessage)) && running == old(running)
      ensures |channels| > 0 && streamer.outlet.Some? ==>
        r.Ok? && running && fresh(r.value) &&
        r.value.streamer == streamer && r.value.sensorTypes == sensorTypes &&
        r.value.channels == channels && r.value.debugInterval == debugInterval &&
        r.value.running && r.value.sampleCount == 0
    {
      if |channels| == 0 {
        return Err(RuntimeError(NoChannelsMessage));
      }
      if streamer.outlet.None? {
        return Err(RuntimeError(NotSetUpMessage));
      }
      var wrapper := new PluxDeviceWrapper(streamer, sensorTypes, channels, debugInterval);
      running := true;
      return Ok(wrapper);
    }

    /**
     * `stop_acquisition`: clears the session's flag only.  A wrapper made
     * by `StartAcquisition` keeps its own flag, so it goes on accepting
     * frames.
     */
    method StopAcquisition()
      modifies this
      ensures !running
      ensures channels == old(channels) && sensorTypes == old(sensorTypes)
      ensures sensorInfo == old(sensorInfo) && sources == old(sources)
    {
      running := false;
    }
  }

  /** The message of the `RuntimeError` that replaces a failed `import plux`. */
  function ImportFailureMessage(pluxPath: string, error: string): string {
    "Failed to import PLUX library from " + pluxPath + ": " + error
  }

  /**
   * `PluxDevice.__init__` with its two ways to fail: the SDK directory is
   * found and put on the search path first (the working directory `cwd`
   * standing in when no base is given), then `import plux` is attempted,
   * its `ImportError` text given as `importError`.  Only when both succeed
   * is the device state set up.
   */
  method OpenPluxDevice(mac: string, host: PlatformDetection.Host, samplingRate: real, streamName: string,
                        sdkBase: Option<string>, cwd: string, present: set<string>,
                        sysPath: PlatformDetection.SearchPath, importError: Option<string>)
    returns (r: Result<PluxDevice>)
    modifies sysPath
    ensures var base := sdkBase.GetOr(cwd);
      var relative := PlatformDetection.GetPluxSdkPath(host, present);
      if relative.Err? then r == Err(relative.error) && sysPath.entries == old(sysPath.entries)
      else
        var full := PlatformDetection.JoinPath(base, relative.value);
        if full !in present then
          r == Err(RuntimeError("PLUX SDK not found at " + full)) && sysPath.entries == old(sysPath.entries)
        else
          sysPath.entries == PlatformDetection.InsertFront(old(sysPath.entries), full) &&
          (importError.Some? ==> r == Err(RuntimeError(ImportFailureMessage(full, importError.value)))) &&
          (importError.None? ==>
             r.Ok? && fresh(r.value) &&
             r.value.macAddress == FormatMacAddress(mac, host.system) &&
             r.value.channels == [] && r.value.sensorTypes == [] && !r.value.running &&
             r.value.streamer.streamName == streamName && r.value.streamer.outlet.None?)
  {
    var base := sdkBase.GetOr(cwd);
    var pluxPath := PlatformDetection.SetupPluxImportPath(host, present, base, sysPath);
    if pluxPath.Err? {
      return Err(pluxPath.error);
    }
    if importError.Some? {
      return Err(RuntimeError(ImportFailureMessage(pluxPath.value, importError.value)));
    }
    var device := new PluxDevice(mac, host.system, samplingRate, streamName);
    return Ok(device);
  }
}
