# MoBI-Physio-API: sensor detection, channel layout and frame demultiplexing in Dafny

This project models the logic that sits between a PLUX biosignal device and a
Lab Streaming Layer (LSL) outlet. It covers these parts:

- **The sensor-type resolver.** This is a first-match chain. An accelerometer
  (raw code 4) has its axis resolved from the `axis` characteristic, then
  `channel`, then the port. Code 69 is SpO2. Other codes try a case-insensitive
  product-identifier pattern and then the `SENSOR_TYPE_MAPPING` table. The
  package has it, the stand-alone script `Custom_API_Auto.py` copies it, and
  `minimal_streaming.py` has a reduced table.
- **Sensor enumeration.** `get_sensor_info` gathers ports, labels, per-port
  records and acquisition sources in order. When enumeration fails it falls back
  to ports 1-3.
- **Naming.** `<type>_CH<port>` channel names come with their reverse map.
- **The streamer's layout.** Each port expands to channels: two for SpO2
  (RED, INFRARED), three for a bare ACC (X, Y, Z) and one otherwise.
- **The demultiplexer.** It unpacks one raw value per port into values in that
  same order.
- **The stream guards.** `create_stream` and `push_sample` each refuse under
  their own condition.
- **The device session.** It runs discover, then set up streaming, then start
  acquisition, each with its own guard. Its frame callback counts frames while
  running.
- **The two stand-alone streamers.** Each has its own naming and a pass-through
  frame copy.
- **The `--sensors port:TYPE,...` option parser.**
- **SDK directory selection and import-path insertion.**
- **The two MAC-address formatters.**

The model's structure:

- **Raised exceptions** are `Err`/`Fail` results. They carry the Python
  exception class and message, and the state changes made before the raise are
  kept.
- **Ordered Python dicts** are sequences of key/value pairs (`PyDict.Dict`), and
  assignment replaces in place or appends.
- **Loops in the source** are Dafny `method`s with loop invariants. Each is
  proved equal to a specification function.
- **Mutating objects** become Dafny classes: `LSLStreamer`, `PluxDevice`,
  `PluxDeviceWrapper`, `MyDevice`, `MinimalDevice`, and `sys.path` in
  `SearchPath`.
- **Outside inputs are parameters.** These are:
  - what the device answers to `getSensors`/`getProperties`;
  - what `platform` reports;
  - which paths exist;
  - the frames the acquisition loop delivers.
- **The LSL outlet** is an `Outlet` value, and the samples pushed to it are a
  sequence field.

Python's `&` and `>>` by powers of two are Euclidean `%` and `/` on
unbounded integers. They are used as such, and no machine width is involved.

Modules:

| module | contents |
|---|---|
| `Wrappers` | `Option`, `Result`, `Outcome` and the Python error classes |
| `Text` | the string operations involved |
| `PyDict` | ordered dicts |
| `Seqs` | flattening per-port parts |
| `SensorDetection` | the resolver, enumeration and naming |
| `Streaming` | the layout, the demultiplexer and `LslStreamer` |
| `Device` | the session and the wrapper |
| `CustomApiAuto` | `Custom_API_Auto.py` |
| `MinimalStreaming` | `minimal_streaming.py` |
| `CliSimple` | the `--sensors` parser |
| `PlatformDetection` | SDK path selection |
| `Utils` | the package-level MAC formatter |

Where the documentation and the code differ, the model follows the code:

- **`get_plux_path` in `Custom_API_Auto.py` on macOS.** When no macOS option
  exists it does not raise a "no compatible SDK" error. It falls through to the
  final `Unsupported platform: Darwin` error, and it returns the bare directory
  name, not one under `PLUX-API-Python3/`.
- **`stop_acquisition` of `PluxDevice`.** It clears only the session's own
  flag. The wrapper that receives frames keeps its own `running` flag.

## Model

| member | source | states |
|---|---|---|
| SensorDetection.BaseType | src/mobi_physio_api/sensor_detection.py:57 | the table's label for a raw code is one of the twelve table labels, or `Unknown_Type<code>` |
| SensorDetection.AccelerometerTest | src/mobi_physio_api/sensor_detection.py:61 | the test `type == 4 or base_type == "ACC"` holds exactly for code 4 |
| SensorDetection.DetectSensorType | src/mobi_physio_api/sensor_detection.py:42-121 | the resolver is total and yields `ACC`, an `ACC_` label, a table label or an `Unknown_Type` label |
| SensorDetection.SpO2CodeIsSpO2 | src/mobi_physio_api/sensor_detection.py:57-89 | raw code 69 yields `SpO2`, whatever the characteristics, properties, product identifier and port |
| SensorDetection.AxisBeatsChannel | src/mobi_physio_api/sensor_detection.py:61-68 | for code 4 with a dict holding `axis`, the label is `ACC_` + str(axis), whatever `channel` says |
| SensorDetection.ChannelNamesAxis | src/mobi_physio_api/sensor_detection.py:69-73 | without `axis`, the `channel` value 0/1/2 gives `ACC_X`/`ACC_Y`/`ACC_Z`, and any other value is rendered verbatim |
| SensorDetection.PortHeuristic | src/mobi_physio_api/sensor_detection.py:77-85 | without axis information, ports 5/8, 6/9 and 7/10 give `ACC_X`, `ACC_Y` and `ACC_Z`, and every other port gives bare `ACC` |
| SensorDetection.AnyContains | src/mobi_physio_api/sensor_detection.py:99-118 | a pattern group matches exactly when one of its patterns occurs in the text |
| SensorDetection.FirstMatch | src/mobi_physio_api/sensor_detection.py:99-118 | the reference reading of the pattern chain: a label is found exactly when some group matches, and it is the label of the first matching group |
| SensorDetection.ProductIdTypeIsFirstMatch | src/mobi_physio_api/sensor_detection.py:99-118 | the written if-chain over ecg, emg, eda/gsr/galvanic, spo2, acc, ppg and resp equals the first match over the ordered pattern table |
| SensorDetection.ProductIdOverridesTable | src/mobi_physio_api/sensor_detection.py:92-118 | for codes other than 4 and 69, a product identifier other than `Unknown` that matches a pattern decides the label over the code table |
| SensorDetection.TableDecides | src/mobi_physio_api/sensor_detection.py:92-121 | with no usable product match, the label is the table's entry for the code, else `Unknown_Type<code>` |
| SensorDetection.SensorAttributeBeatsProperties | src/mobi_physio_api/sensor_detection.py:92-96 | a sensor's own `productID` attribute makes the device properties irrelevant |
| SensorDetection.SourceFor | src/mobi_physio_api/sensor_detection.py:199-215 | one source per port, with freqDivisor 1 and nBits 16; it has a mask exactly when the raw code is 69, and the mask is 0x03 |
| SensorDetection.DetectAllStep | src/mobi_physio_api/sensor_detection.py:163-215 | one turn of the enumeration appends the port and its source, and assigns the port's label and record |
| SensorDetection.DetectAllKeys | src/mobi_physio_api/sensor_detection.py:163-215 | the label and record dicts have distinct keys, and the labelled ports are exactly the enumerated ports |
| SensorDetection.DetectAllTypes | src/mobi_physio_api/sensor_detection.py:184 | in enumeration, each port's label is the resolver's answer for its sensor, the properties and its port |
| SensorDetection.ChMaskFollowsCodeNotLabel | src/mobi_physio_api/sensor_detection.py:199-215 | a code-70 sensor with product identifier `SpO2` is labelled SpO2 but gets a source without derivation mask |
| SensorDetection.GetSensorInfo | src/mobi_physio_api/sensor_detection.py:124-240 | the enumeration loop builds ports, labels, records and sources in order, as the specification function does; a failing enumeration gives ports 1-3 as RSP/EMG/EDA, and failing properties give `{}` |
| SensorDetection.DefaultChannelTemplateShape | src/mobi_physio_api/sensor_detection.py:25-39 | every `DEFAULT_CHANNEL_NAMES` template is its label followed by `_CH`, except `Unknown`, whose template is `UNKNOWN_CH` |
| SensorDetection.ChannelNameShape | src/mobi_physio_api/sensor_detection.py:255-263 | every label names its channel `<label>_CH<port>`, except `Unknown`, which names it `UNKNOWN_CH<port>` |
| SensorDetection.ChannelNamePort | src/mobi_physio_api/sensor_detection.py:255-263 | two equal channel names have the same port |
| SensorDetection.ChannelNamesInOrder | src/mobi_physio_api/sensor_detection.py:255-265 | for a dict of labels, the names dict holds each port's name in the labels' order |
| SensorDetection.GenerateChannelNames | src/mobi_physio_api/sensor_detection.py:243-265 | the naming loop yields the names dict of its specification; the record argument is not consulted |
| SensorDetection.ChannelMappingInverse | src/mobi_physio_api/sensor_detection.py:268-285 | the reverse map sends each port's channel name back to that port |
| SensorDetection.GetChannelMapping | src/mobi_physio_api/sensor_detection.py:268-285 | detect, name and reverse: each detected port's name maps back to the port, for whatever the device answers |
| SensorDetection.DeviceMappingInverse | src/mobi_physio_api/sensor_detection.py:268-285 | for every device answer, the mapping of every detected port's name is that port |
| Streaming.ChannelCountCoversPorts | src/mobi_physio_api/streaming.py:52-73 | every port contributes at least one channel, so the channel count is at least the number of ports |
| Streaming.PortLayout | src/mobi_physio_api/streaming.py:53-73 | a port of type SpO2 contributes two channels, bare ACC three and anything else one; each `channels` entry is str(port) |
| Streaming.LayoutOf | src/mobi_physio_api/streaming.py:52-73 | the three lists `channel_names`, `channel_types` and `channels` each have length equal to the sum of the port widths |
| Streaming.LayoutOfStep | src/mobi_physio_api/streaming.py:52-73 | one more port appends that port's channels, in order, to each of the three lists |
| Streaming.NamesSlot | src/mobi_physio_api/streaming.py:52-73 | port j's names occupy the slice of `channel_names` starting at the channel count of the ports before it |
| Streaming.TypesSlot | src/mobi_physio_api/streaming.py:52-73 | port j's types occupy the slice of `channel_types` at that same offset |
| Streaming.Unpack | src/mobi_physio_api/streaming.py:147-173 | one raw value gives as many values as its type's width; SpO2 values lie in [0, 65535], ACC values in [0, 255], and other types pass the value through |
| Streaming.SpO2RoundTrip | src/mobi_physio_api/streaming.py:150-158 | two 16-bit fields packed low-then-high unpack to themselves |
| Streaming.SpO2Repack | src/mobi_physio_api/streaming.py:150-158 | a 32-bit raw value is recovered from its two unpacked fields |
| Streaming.AccRoundTrip | src/mobi_physio_api/streaming.py:159-168 | three bytes packed X, Y, Z from the low end unpack to themselves |
| Streaming.AccRepack | src/mobi_physio_api/streaming.py:159-168 | a 24-bit raw value is recovered from its three unpacked bytes |
| Streaming.ProcessRaw | src/mobi_physio_api/streaming.py:126-175 | a frame with at least one raw value per port yields exactly the channel count of the layout |
| Streaming.ProcessRawStep | src/mobi_physio_api/streaming.py:147-173 | one more port appends its unpacked raw value when the frame reaches it, and nothing otherwise |
| Streaming.ShortFrame | src/mobi_physio_api/streaming.py:150-173 | a short frame is processed as if the ports past its end were absent, with as many values as those ports' channels |
| Streaming.ValueSlot | src/mobi_physio_api/streaming.py:126-175 | in a full frame, port j's unpacked values sit at the same offset as port j's channels in the layout |
| Streaming.FullFrameMatchesLayout | src/mobi_physio_api/streaming.py:126-175 | for a full frame, the demultiplexed sample has as many values as `setup_channels` declares names for the same arguments |
| Streaming.Describe | src/mobi_physio_api/streaming.py:93-97 | one channel description per name |
| Streaming.LslStreamer.constructor | src/mobi_physio_api/streaming.py:11-35 | empty lists, no info, no outlet, nothing pushed |
| Streaming.LslStreamer.SetupChannels | src/mobi_physio_api/streaming.py:37-73 | the lists are reset and then hold the layout of the arguments, so a repeated call changes nothing; info, outlet and pushed samples are untouched |
| Streaming.LslStreamer.AppendPort | src/mobi_physio_api/streaming.py:52-73 | the derivation and axis loops append exactly that port's channels to each list |
| Streaming.LslStreamer.CreateStream | src/mobi_physio_api/streaming.py:75-100 | no names gives the RuntimeError and nothing changes; the info has `channel_count = len(channel_names)` and `float32`; the strict `zip` describes the first `min(len(names), len(types))` pairs, and on a length mismatch raises `zip()`'s ValueError (argument 2 shorter or longer than argument 1) with no outlet opened; otherwise every channel is described and the outlet is opened on the info |
| Streaming.LslStreamer.PushSample | src/mobi_physio_api/streaming.py:102-116 | without an outlet the RuntimeError is returned and nothing is pushed; otherwise the sample is appended |
| Streaming.LslStreamer.GetChannelCount | src/mobi_physio_api/streaming.py:118-120 | the number of channel names |
| Streaming.LslStreamer.GetChannelNames | src/mobi_physio_api/streaming.py:122-124 | the channel names |
| Streaming.LslStreamer.ProcessRawData | src/mobi_physio_api/streaming.py:126-175 | the data-index loop yields the specification's values, and for a full frame exactly the layout's channel count |
| Device.FormatMacAddress | src/mobi_physio_api/device.py:23-43 | on Windows a `BTH` prefix is added unless present; elsewhere every `:` becomes `-`, with the same length and no colon left |
| Device.FormatMacAddressIdempotent | src/mobi_physio_api/device.py:34-43 | formatting twice equals formatting once, on every platform |
| Device.PluxDeviceWrapper.constructor | src/mobi_physio_api/device.py:341-367 | streamer, labels, ports and debug interval kept, count 0, running |
| Device.PluxDeviceWrapper.OnRawFrameAsWritten | src/mobi_physio_api/device.py:386-408 | not running: returns True and counts nothing; running: counts the frame, then the two-argument `push_sample` call raises TypeError |
| Device.PluxDeviceWrapper.OnRawFrame | src/mobi_physio_api/device.py:386-431 | not running: returns True, nothing counted or pushed; running: the count goes up by exactly one and the demultiplexed frame is pushed; it returns False, or the error when no outlet is open or the debug interval is 0; the streamer's channel lists, info and outlet are untouched |
| Device.PluxDevice.constructor | src/mobi_physio_api/device.py:49-107 | formatted address, empty detection, not running, a fresh streamer with no channels and no outlet |
| Device.OpenPluxDevice | src/mobi_physio_api/device.py:69-107 | `__init__` with its failures: the SDK selection error or a missing SDK directory is raised with `sys.path` unchanged; otherwise the directory (under the given base, or the working directory) is put on `sys.path`, a failed `import plux` raises `Failed to import PLUX library from <path>: <error>`, and a successful one yields a fresh device in its initial state |
| Device.PluxDevice.DiscoverSensors | src/mobi_physio_api/device.py:109-134 | the four detection results are stored; it raises exactly when the device reports no sensors, and otherwise returns the labels |
| Device.PluxDevice.SetupStreaming | src/mobi_physio_api/device.py:136-150 | no ports gives the RuntimeError; otherwise the streamer holds the layout's names, types and port strings, and its info and outlet carry the stream name, type, rate, `float32`, source id, the layout's channel count and a label/unit/type description per channel, with nothing pushed |
| Device.PluxDevice.StartAcquisition | src/mobi_physio_api/device.py:152-193 | no ports or no outlet gives each its RuntimeError; otherwise a fresh running wrapper over the streamer, labels and ports, and the session is running; the four detection results are kept |
| Device.PluxDevice.StopAcquisition | src/mobi_physio_api/device.py:195-207 | the session's flag is cleared and all four detection results are kept |
| Utils.FormatMacAddress | src/mobi_physio_api/utils.py:72-85 | on Windows `BTH` is prefixed unless already there; elsewhere the address is unchanged |
| Utils.FormatMacAddressIdempotent | src/mobi_physio_api/utils.py:83-85 | formatting twice equals formatting once |
| Utils.AgreesWithDeviceOnlyOnWindows | src/mobi_physio_api/utils.py:83-85 | the two formatters agree on Windows and differ elsewhere on every address with a colon |
| CustomApiAuto.GetPluxPath | Custom_API_Auto.py:18-50 | Linux gives `Linux64`; a Mac with no existing option gets `Unsupported platform: Darwin`; other systems are refused |
| CustomApiAuto.GetPluxPathAgrees | Custom_API_Auto.py:18-50 | the script and the package succeed on the same hosts, and the package's path is the script's directory under the SDK root |
| CustomApiAuto.DetectSensorType | Custom_API_Auto.py:70-150 | the label is a bare or per-axis ACC, a table label, or `Unknown_Type...`; raw code 69 is always SpO2 |
| CustomApiAuto.DetectSensorTypeAgrees | Custom_API_Auto.py:70-150 | the script's resolver gives the package's label on every input |
| CustomApiAuto.GetSensorInfo | Custom_API_Auto.py:152-242 | the script's enumeration and fallback give the package's four results |
| CustomApiAuto.PortNames | Custom_API_Auto.py:260-268 | a port labelled SpO2 gets two names, and every other port one |
| CustomApiAuto.NamesOf | Custom_API_Auto.py:260-268 | the names list is as long as the channel count |
| CustomApiAuto.Owners | Custom_API_Auto.py:260-268 | one owning port per channel name |
| CustomApiAuto.PortNamesShape | Custom_API_Auto.py:260-268 | SpO2 gives `SpO2_Port<p>_RED` and `SpO2_Port<p>_INFRARED`; a bare ACC gives the single `ACC_Port<p>` |
| CustomApiAuto.OwnerNamesChannel | Custom_API_Auto.py:260-268 | every channel's owner is one of the ports, and the channel's name is one of its owner's names |
| CustomApiAuto.MetadataTypeAsWritten | Custom_API_Auto.py:286-294 | the type is always `SpO2`, `Accelerometer`, `Respiratory`, `Unknown` or some port's label, not necessarily the channel's own; a name holding none of SpO2, ACC and RSP at an index `i` below the port count gets the label of port `channels[i]`, `Unknown` when unlabelled |
| CustomApiAuto.DescribeAsWritten | Custom_API_Auto.py:282-294 | one description per channel name, carrying that name and unit `microvolts`, typed as the script types it |
| CustomApiAuto.MetadataIndexMismatch | Custom_API_Auto.py:286-294 | with an SpO2 port 3 before an EMG port 5, the descriptions as written type `EMG_Port5` as SpO2, while the owner-based ones type it EMG |
| CustomApiAuto.DescribeAsWrittenOneToOne | Custom_API_Auto.py:293-294 | with as many ports as names, the name-index fallback is the owner-based description |
| CustomApiAuto.OwnersWithoutSpO2 | Custom_API_Auto.py:260-268 | without SpO2 ports each port owns exactly one channel, so the owners are the ports themselves |
| CustomApiAuto.AsWrittenAgreesWithoutSpO2 | Custom_API_Auto.py:260-294 | without SpO2 ports the descriptions as written equal the owner-based ones: the mismatch needs an SpO2 port |
| CustomApiAuto.Describe | Custom_API_Auto.py:282-294 | one description per channel name, carrying that name and unit `microvolts` |
| CustomApiAuto.DescribedByOwner | Custom_API_Auto.py:293-294 | corrected fallback: a channel whose name holds none of SpO2, ACC and RSP is described with the label of its owning port, which is one of the stream's ports |
| CustomApiAuto.SpO2ChannelsDescribed | Custom_API_Auto.py:286-288 | both channels of an SpO2 port are described with type SpO2 |
| CustomApiAuto.NameChannels | Custom_API_Auto.py:260-268 | the naming loop yields the names specification and each name's owner |
| CustomApiAuto.DescribeChannels | Custom_API_Auto.py:282-294 | the description loop, with its `channels[i % len(channels)]` fallback, yields the descriptions as written |
| CustomApiAuto.PassThroughIsPrefix | Custom_API_Auto.py:307-323 | the port walk copies exactly `data[:min(len(data), channel count)]` |
| CustomApiAuto.TrailingSpO2RedOnly | Custom_API_Auto.py:313-318 | a frame one value short, with the last port SpO2, is copied whole: the last port contributes its RED value alone |
| CustomApiAuto.CopyFrame | Custom_API_Auto.py:307-323 | the data-index loop yields the pass-through specification without reading past the frame |
| CustomApiAuto.Truncated | Custom_API_Auto.py:326 | each frame pushed is its prefix of at most the channel count |
| CustomApiAuto.MyDevice.constructor | Custom_API_Auto.py:245-297 | detection as the specification gives it, names as `NamesOf`, and a stream info with the name count and the descriptions as the script writes them, fallback by name index included |
| CustomApiAuto.MyDevice.OnRawFrame | Custom_API_Auto.py:299-345 | not running: returns True, nothing counted or pushed; running: count plus one, `data[:len(names)]` pushed, returns `not running` |
| CustomApiAuto.MyDevice.StartAcquisition | Custom_API_Auto.py:347-382 | the flag is raised, and every delivered frame is counted and pushed truncated to the channel count |
| CustomApiAuto.MyDevice.StopAcquisition | Custom_API_Auto.py:384-391 | the flag is cleared and nothing else changes |
| MinimalStreaming.ReducedType | minimal_streaming.py:65-75 | the label is one of the eight listed or `Unknown_Type<code>`; it is a listed one exactly for codes 0-4, 7, 69 and 70, and SpO2 exactly for code 69 |
| MinimalStreaming.ReducedTableAgrees | minimal_streaming.py:65-75 | the reduced table agrees with the full one except on codes 5, 6, 8 and 9, which give `Unknown_Type<code>` |
| MinimalStreaming.TypesOfKeys | minimal_streaming.py:61-76 | the labelled ports are exactly the sensors' ports |
| MinimalStreaming.TypesOfLabels | minimal_streaming.py:63-76 | each port gets the reduced table's label for its code |
| MinimalStreaming.SetupOf | minimal_streaming.py:52-82 | every port kept, whether detected or from the fallback, has a label |
| MinimalStreaming.ChannelNames | minimal_streaming.py:85 | one name `<label>_CH<port>` per port, in port order |
| MinimalStreaming.NameChannels | minimal_streaming.py:85 | the naming comprehension yields the names specification |
| MinimalStreaming.UnlistedCodesUnknown | minimal_streaming.py:65-85 | a gyroscope, magnetometer, piezo or temperature sensor streams as `Unknown_Type<code>_CH<port>` |
| MinimalStreaming.Truncate | minimal_streaming.py:108 | the pushed values are the frame's prefix of length `min(len(data), len(channels))` |
| MinimalStreaming.Sources | minimal_streaming.py:128-134 | one source per port, freqDivisor 1, nBits 16, no mask |
| MinimalStreaming.MinimalDevice.constructor | minimal_streaming.py:46-99 | ports and labels as detected or from the fallback, and names as specified |
| MinimalStreaming.MinimalDevice.OnRawFrame | minimal_streaming.py:101-118 | flag clear: returns True, nothing counted or pushed; flag set: the truncated frame is pushed, the count goes up by one, and it returns False |
| MinimalStreaming.MinimalDevice.StartStreaming | minimal_streaming.py:120-150 | the sources are built, every delivered frame is counted and pushed truncated, and the flag ends cleared |
| CliSimple.ParsePiece | src/mobi_physio_api/cli_simple.py:70-72 | every failure is a ValueError; a parsed type has no colon and no lower-case letter |
| CliSimple.ParseSensorMap | src/mobi_physio_api/cli_simple.py:66-77 | the parsing loop gives the fold of the pieces, stopping at the first error |
| CliSimple.CollectStep | src/mobi_physio_api/cli_simple.py:69-72 | one more piece steps the mapping built so far with that piece's entry |
| CliSimple.ErrorSticks | src/mobi_physio_api/cli_simple.py:74-77 | once a piece fails, later pieces do not change the outcome |
| CliSimple.CollectOk | src/mobi_physio_api/cli_simple.py:69-77 | the option parses exactly when every piece does |
| CliSimple.LastEntryWins | src/mobi_physio_api/cli_simple.py:72 | a later piece for a port overwrites the type earlier pieces gave it |
| CliSimple.NoOptionNoMapping | src/mobi_physio_api/cli_simple.py:66-67 | an absent or empty option gives the empty mapping |
| CliSimple.ColonCountRefused | src/mobi_physio_api/cli_simple.py:70 | a piece without exactly one colon is refused, including the empty piece of a trailing comma |
| CliSimple.PieceRoundTrip | src/mobi_physio_api/cli_simple.py:70-72 | `str(n) + ":" + t` parses back to port n and `t.upper()` |
| CliSimple.InnerSpaceKept | src/mobi_physio_api/cli_simple.py:70 | only the whole piece is stripped: `1: emg` gives the type ` EMG` |
| PlatformDetection.VersionTag | src/mobi_physio_api/platform_detection.py:32 | the tag has no dot, and a version without a dot is its own tag |
| PlatformDetection.VersionTagOfRelease | src/mobi_physio_api/platform_detection.py:32 | the version tag joins the major and minor components and drops the rest |
| PlatformDetection.ArchTag | src/mobi_physio_api/platform_detection.py:65 | the architecture tag is the first two characters of the architecture |
| PlatformDetection.FirstExisting | src/mobi_physio_api/platform_detection.py:43-56 | an option is found exactly when one exists, and it is the first existing option |
| PlatformDetection.MacOsPath | src/mobi_physio_api/platform_detection.py:29-59 | macOS succeeds exactly when one option exists, with an existing path; otherwise it raises naming the machine and the version |
| PlatformDetection.GetPluxSdkPath | src/mobi_physio_api/platform_detection.py:7-26 | every path is under `PLUX-API-Python3/`: Linux gives `Linux64`, Windows always succeeds, a Mac path exists, and other systems raise `Unsupported platform` |
| PlatformDetection.WindowsPath | src/mobi_physio_api/platform_detection.py:62-66 | the path is `PLUX-API-Python3/Win<arch>_` followed by a dot-free version tag |
| PlatformDetection.WindowsPathOf64BitPython312 | src/mobi_physio_api/platform_detection.py:62-66 | 64-bit Python 3.12.4 on Windows gives `PLUX-API-Python3/Win64_312` |
| PlatformDetection.MacArmPath | src/mobi_physio_api/platform_detection.py:34-45 | on Apple Silicon every path found is an `M1_` directory |
| PlatformDetection.MacIntelPath | src/mobi_physio_api/platform_detection.py:46-56 | on an Intel Mac every path found is a `MacOS/Intel` directory |
| PlatformDetection.MacPrefersRunningVersion | src/mobi_physio_api/platform_detection.py:34-56 | the running version's own directory wins whenever it exists |
| PlatformDetection.MacNothingFound | src/mobi_physio_api/platform_detection.py:58-59 | with no option present, macOS is refused with the machine and the version named |
| PlatformDetection.InsertFront | src/mobi_physio_api/platform_detection.py:95-96 | after insertion the path is listed, nothing is lost and nothing else is added |
| PlatformDetection.InsertFrontOnce | src/mobi_physio_api/platform_detection.py:95-96 | inserting twice equals inserting once, and a new path is listed exactly once |
| PlatformDetection.SetupPluxImportPath | src/mobi_physio_api/platform_detection.py:69-98 | a selection error is passed on, and a missing directory raises with `sys.path` unchanged; otherwise the full path is returned and put at the front of `sys.path` unless already there |
| PyDict.GetSet | src/mobi_physio_api/cli_simple.py:72 | after `d[k] = v`, `k` maps to `v` and every other key is unaffected |
| PyDict.FromEntriesGet | src/mobi_physio_api/sensor_detection.py:184 | a dict assigned entry by entry maps each of its distinct keys to its value |
| Text.PyIntOfIntToString | src/mobi_physio_api/cli_simple.py:71 | `int(str(n)) == n` for every integer |

## Left out

- Bluetooth connection and retry (`_connect_device`): a wall-clock loop with `time.sleep`. The device's answers are taken as input instead.
- Keyboard and signal threads, signal handlers, the emergency shutdown event and `is_emergency_shutdown`, and process cleanup through `pkill`/`taskkill`: concurrency and operating-system I/O.
- pylsl and the PLUX SDK internals, such as the XML form pylsl gives the channel descriptions (their contents are modelled in `Streaming.StreamInfo`), `start`, `loop`, `stop` and `close`. The outlet is a value, and the acquisition loop is the sequence of frames it delivers.
- Floating point and clocks: the `int()`/`float()` conversions of raw values, timestamps, and the sample-rate debug printing. Raw values are integers.
- Logging and `print`.
- The CLI wiring of `cli.py` and `cli_simple.py`:
  - argparse;
  - `findDevices`;
  - the `PluxDevice(manual_sensor_map=...)` call, a keyword `PluxDevice` does not accept;
  - the calls to `connect_and_setup` and `start_streaming`, methods `PluxDevice` does not have.

  Only the `--sensors` parsing loop is modelled.
- No gain or frequency classifier and no manual-override map: no source implements them.
- The `setup_plux` import fallback and the `MAC_ADDRESS`/`DEVICE_MAC` constants of the scripts. The MAC address is a parameter.
- `lower()`/`upper()`: only ASCII letters are case-mapped.
- `int()` accepts what the model's `PyInt` accepts:
  - surrounding whitespace;
  - a sign;
  - ASCII digits with single underscores between them.

  Non-ASCII digits are not accepted.
- Path handling: `base_path / relative` is modelled as `base + "/" + relative`, without normalisation, and `Path.cwd()` is a parameter.
- Device.PluxDevice.constructor: the SDK set-up and `import plux` that can make `__init__` raise are in `Device.OpenPluxDevice`, which calls it; whether the import succeeds is a parameter, and the connection timeout, statistics and signal handler are not modelled.
- The quoting `repr` adds inside Python's `int()` error message.
- Characteristics or properties that are neither a dict nor absent. Attribute values are integers or strings.
- Exceptions raised inside the enumeration loop, for example by a sensor lacking an attribute. The model's enumeration fails only when `getSensors` raises.
- Device.PluxDeviceWrapper.OnRawFrame: the periodic debug print every `debug_interval` frames is left out. Only its modulo, which raises when the interval is 0, is kept.
- MinimalStreaming.MinimalDevice.constructor: the stream info and outlet it opens are not modelled. Only the ports, labels and names are.
- MinimalStreaming.MinimalDevice.StartStreaming: a signal handler that clears the flag while the loop runs is not modelled. Every delivered frame reaches the callback with the flag set.
- CustomApiAuto.MyDevice.StartAcquisition: the keyboard thread that may clear the flag mid-loop is not modelled.

## Findings

| source | as written | input that shows it | evidently intended | confidence | as-written member | corrected member |
|---|---|---|---|---|---|---|
| src/mobi_physio_api/device.py:408 | `on_raw_frame` calls `push_sample(processed_data, timestamp)`, but `push_sample` takes only the sample (src/mobi_physio_api/streaming.py:102) | any frame while running: the call raises TypeError, so no sample reaches the outlet | push the demultiplexed sample | not executed | Device.PluxDeviceWrapper.OnRawFrameAsWritten | Device.PluxDeviceWrapper.OnRawFrame |
| Custom_API_Auto.py:294 | the fallback metadata type is looked up through `channels[i % len(channels)]`, where `i` indexes channel names, not ports; `CustomApiAuto.MyDevice.constructor` streams these descriptions (`CustomApiAuto.DescribeAsWritten`) | ports 3 (SpO2) and 5 (EMG): name index 2, `EMG_Port5`, wraps to port 3 and is typed SpO2 | the type of the port that owns the channel | not executed | CustomApiAuto.MetadataIndexMismatch | CustomApiAuto.Describe |
