/** Device hardware and state context of an event (Sources/ContextKit/Context/DeviceContext.swift). */
module Device {
  import opened Wrappers
  import opened Json

  datatype BatteryState = BatteryUnknown | Unplugged | Charging | Full

  datatype NetworkType = NetworkUnknown | Wifi | Cellular | Offline

  function BatteryStateName(s: BatteryState): string {
    match s
    case BatteryUnknown => "unknown"
    case Unplugged => "unplugged"
    case Charging => "charging"
    case Full => "full"
  }

  function BatteryStateFromName(n: string): (r: Option<BatteryState>)
    ensures r.Some? ==> BatteryStateName(r.value) == n
  {
    if n == "unknown" then Some(BatteryUnknown)
    else if n == "unplugged" then Some(Unplugged)
    else if n == "charging" then Some(Charging)
    else if n == "full" then Some(Full)
    else None
  }

  function NetworkTypeName(t: NetworkType): string {
    match t
    case NetworkUnknown => "unknown"
    case Wifi => "wifi"
    case Cellular => "cellular"
    case Offline => "offline"
  }

  function NetworkTypeFromName(n: string): (r: Option<NetworkType>)
    ensures r.Some? ==> NetworkTypeName(r.value) == n
  {
    if n == "unknown" then Some(NetworkUnknown)
    else if n == "wifi" then Some(Wifi)
    else if n == "cellular" then Some(Cellular)
    else if n == "offline" then Some(Offline)
    else None
  }

  lemma EnumNamesRoundTrip(s: BatteryState, t: NetworkType)
    ensures BatteryStateFromName(BatteryStateName(s)) == Some(s)
    ensures NetworkTypeFromName(NetworkTypeName(t)) == Some(t)
  {
  }

  datatype DeviceContext = DeviceContext(
    model: string,
    osVersion: string,
    screenWidth: real,
    screenHeight: real,
    screenScale: real,
    batteryLevel: real,
    batteryState: BatteryState,
    networkType: NetworkType,
    isLowPowerMode: bool,
    availableDiskSpace: int,
    totalMemory: nat)

  /** A C `char` (`Int8`) of the `utsname.machine` buffer. */
  type Int8 = x: int | -128 <= x < 128

  predicate NonNegativeBytes(machine: seq<Int8>) {
    forall i :: 0 <= i < |machine| ==> machine[i] >= 0
  }

  /**
   * The `reduce` over the machine buffer: each non-zero byte, in order, becomes one character;
   * zero bytes are skipped wherever they occur. `UInt8(value)` traps on a negative byte, hence
   * the precondition.
   */
  function Identifier(machine: seq<Int8>): (id: string)
    requires NonNegativeBytes(machine)
    ensures |id| <= |machine|
    ensures forall i :: 0 <= i < |id| ==> 0 < id[i] as int < 128
    decreases |machine|
  {
    if machine == [] then ""
    else
      var acc := Identifier(machine[..|machine| - 1]);
      var b := machine[|machine| - 1];
      if b == 0 then acc else acc + [b as char]
  }

  /** The characters of a byte string with no zero byte. */
  function Characters(name: seq<Int8>): (s: string)
    requires forall i :: 0 <= i < |name| ==> name[i] > 0
    ensures |s| == |name| && forall i :: 0 <= i < |s| ==> s[i] as int == name[i] as int
  {
    seq(|name|, i requires 0 <= i < |name| => name[i] as char)
  }

  /** For a NUL-padded buffer (the usual `utsname` layout) the identifier is the name before the padding. */
  lemma {:induction false} PaddedIdentifier(name: seq<Int8>, padding: seq<Int8>)
    requires forall i :: 0 <= i < |name| ==> name[i] > 0
    requires forall i :: 0 <= i < |padding| ==> padding[i] == 0
    ensures NonNegativeBytes(name + padding)
    ensures Identifier(name + padding) == Characters(name)
    decreases |padding|
  {
    if padding == [] {
      assert name + padding == name;
      NameIdentifier(name);
    } else {
      var shorter := padding[..|padding| - 1];
      assert (name + padding)[..|name + padding| - 1] == name + shorter;
      PaddedIdentifier(name, shorter);
    }
  }

  lemma {:induction false} NameIdentifier(name: seq<Int8>)
    requires forall i :: 0 <= i < |name| ==> name[i] > 0
    ensures Identifier(name) == Characters(name)
    decreases |name|
  {
    if name != [] {
      NameIdentifier(name[..|name| - 1]);
    }
  }

  /** The identifier-to-name table of `deviceModel()`. */
  const ModelNames: map<string, string> := map[
    "iPhone14,2" := "iPhone 13 Pro",
    "iPhone14,3" := "iPhone 13 Pro Max",
    "iPhone14,4" := "iPhone 13 mini",
    "iPhone14,5" := "iPhone 13",
    "iPhone15,2" := "iPhone 14 Pro",
    "iPhone15,3" := "iPhone 14 Pro Max",
    "iPhone15,4" := "iPhone 14",
    "iPhone15,5" := "iPhone 14 Plus",
    "iPhone16,1" := "iPhone 15 Pro",
    "iPhone16,2" := "iPhone 15 Pro Max",
    "iPhone16,3" := "iPhone 15",
    "iPhone16,4" := "iPhone 15 Plus",
    "iPad13,1" := "iPad Air (4th gen)",
    "iPad13,2" := "iPad Air (4th gen)",
    "iPad14,1" := "iPad mini (6th gen)",
    "iPad14,2" := "iPad mini (6th gen)"
  ]

  /** `deviceModel()`: the readable name of a listed identifier, the raw identifier otherwise. */
  function DeviceModel(machine: seq<Int8>): (model: string)
    requires NonNegativeBytes(machine)
    ensures Identifier(machine) in ModelNames ==> model == ModelNames[Identifier(machine)]
    ensures Identifier(machine) !in ModelNames ==> model == Identifier(machine)
  {
    var id := Identifier(machine);
    if id in ModelNames then ModelNames[id] else id
  }

  lemma DeviceModelExamples()
    ensures ModelNames["iPhone16,1"] == "iPhone 15 Pro"
    ensures "iPhone99,9" !in ModelNames
  {
  }

  /** The reported battery level: the platform's reading when non-negative, exactly -1 otherwise. */
  function BatteryLevel(reading: real): (level: real)
    ensures level == -1.0 || level >= 0.0
    ensures level >= 0.0 <==> reading >= 0.0
    ensures reading >= 0.0 ==> level == reading
  {
    if reading >= 0.0 then reading else -1.0
  }

  /** `UIDevice.BatteryState`, including a state a future platform may add. */
  datatype PlatformBatteryState = PlatformUnknown | PlatformUnplugged | PlatformCharging | PlatformFull | PlatformFuture(raw: int)

  function MapBatteryState(s: PlatformBatteryState): (r: BatteryState)
    ensures s.PlatformFuture? ==> r == BatteryUnknown
  {
    match s
    case PlatformUnknown => BatteryUnknown
    case PlatformUnplugged => Unplugged
    case PlatformCharging => Charging
    case PlatformFull => Full
    case PlatformFuture(_) => BatteryUnknown
  }

  /** The four known platform states map one-to-one onto the four battery states. */
  lemma MapBatteryStateOneToOne(s: PlatformBatteryState, t: PlatformBatteryState)
    requires !s.PlatformFuture? && !t.PlatformFuture?
    ensures MapBatteryState(s) == MapBatteryState(t) <==> s == t
  {
  }

  /** `detectNetworkType()` does not inspect the network: it always answers wifi. */
  function DetectNetworkType(): (t: NetworkType)
    ensures t == Wifi
  {
    Wifi
  }

  /** Outcome of the volume-capacity query of `getAvailableDiskSpace()`. */
  datatype DiskQuery = QueryThrew | NoCapacity | Capacity(bytes: int)

  function AvailableDiskSpace(q: DiskQuery): (space: int)
    ensures q.Capacity? ==> space == q.bytes
    ensures !q.Capacity? ==> space == -1
  {
    match q
    case Capacity(bytes) => bytes
    case _ => -1
  }

  /** Readings of UIDevice, UIScreen, uname, ProcessInfo and the file system. */
  datatype UIKitReadings = UIKitReadings(
    machine: seq<Int8>,
    systemVersion: string,
    screenWidth: real,
    screenHeight: real,
    screenScale: real,
    batteryReading: real,
    batteryState: PlatformBatteryState,
    lowPowerMode: bool,
    disk: DiskQuery,
    physicalMemory: nat)

  /** `DeviceContext.capture()` on UIKit platforms. */
  function Capture(p: UIKitReadings): (d: DeviceContext)
    requires NonNegativeBytes(p.machine)
    ensures d.model == DeviceModel(p.machine) && d.osVersion == p.systemVersion
    ensures d.batteryLevel == BatteryLevel(p.batteryReading) && d.batteryState == MapBatteryState(p.batteryState)
    ensures d.networkType == Wifi && d.availableDiskSpace == AvailableDiskSpace(p.disk)
  {
    DeviceContext(
      DeviceModel(p.machine), p.systemVersion, p.screenWidth, p.screenHeight, p.screenScale,
      BatteryLevel(p.batteryReading), MapBatteryState(p.batteryState), DetectNetworkType(),
      p.lowPowerMode, AvailableDiskSpace(p.disk), p.physicalMemory)
  }

  /** `DeviceContext.capture()` where UIKit is unavailable (macOS, Mac Catalyst). */
  function FallbackCapture(osVersionString: string, disk: DiskQuery, physicalMemory: nat): (d: DeviceContext)
    ensures d.model == "Mac" && d.screenWidth == 0.0 && d.screenHeight == 0.0 && d.screenScale == 1.0
    ensures d.batteryLevel == -1.0 && d.batteryState == BatteryUnknown
    ensures d.networkType == Wifi && !d.isLowPowerMode
    ensures d.availableDiskSpace == AvailableDiskSpace(disk) && d.totalMemory == physicalMemory
  {
    DeviceContext("Mac", osVersionString, 0.0, 0.0, 1.0, -1.0, BatteryUnknown, Wifi, false,
      AvailableDiskSpace(disk), physicalMemory)
  }

  /** `DeviceContext.empty()`, the record used when device collection is disabled. */
  function Empty(): (d: DeviceContext)
    ensures d.model == "unknown" && d.osVersion == "unknown"
    ensures d.screenWidth == 0.0 && d.screenHeight == 0.0 && d.screenScale == 1.0
    ensures d.batteryLevel == -1.0 && d.batteryState == BatteryUnknown && !d.isLowPowerMode
    ensures d.networkType == NetworkUnknown && d.networkType != DetectNetworkType()
    ensures d.availableDiskSpace == AvailableDiskSpace(QueryThrew) && d.totalMemory == 0
  {
    DeviceContext("unknown", "unknown", 0.0, 0.0, 1.0, -1.0, BatteryUnknown, NetworkUnknown, false, -1, 0)
  }

  // Coding keys: model, os_version, screen_width, screen_height, screen_scale, battery_level,
  // battery_state, network_type, is_low_power_mode, available_disk_space, total_memory.

  function Encode(d: DeviceContext): (j: Json)
    ensures j.JObject? && j.fields.Keys == {"model", "os_version", "screen_width", "screen_height", "screen_scale",
      "battery_level", "battery_state", "network_type", "is_low_power_mode", "available_disk_space", "total_memory"}
  {
    JObject(map[
      "model" := JString(d.model),
      "os_version" := JString(d.osVersion),
      "screen_width" := JNum(d.screenWidth),
      "screen_height" := JNum(d.screenHeight),
      "screen_scale" := JNum(d.screenScale),
      "battery_level" := JNum(d.batteryLevel),
      "battery_state" := JString(BatteryStateName(d.batteryState)),
      "network_type" := JString(NetworkTypeName(d.networkType)),
      "is_low_power_mode" := JBool(d.isLowPowerMode),
      "available_disk_space" := JNum(d.availableDiskSpace as real),
      "total_memory" := JNum(d.totalMemory as real)])
  }

  function Decode(j: Json): Option<DeviceContext> {
    var model :- StringField(j, "model");
    var osVersion :- StringField(j, "os_version");
    var screenWidth :- NumField(j, "screen_width");
    var screenHeight :- NumField(j, "screen_height");
    var screenScale :- NumField(j, "screen_scale");
    var batteryLevel :- NumField(j, "battery_level");
    var batteryName :- StringField(j, "battery_state");
    var batteryState :- BatteryStateFromName(batteryName);
    var networkName :- StringField(j, "network_type");
    var networkType :- NetworkTypeFromName(networkName);
    var lowPower :- BoolField(j, "is_low_power_mode");
    var disk :- IntField(j, "available_disk_space");
    var memory :- IntField(j, "total_memory");
    if memory < 0 then None
    else Some(DeviceContext(model, osVersion, screenWidth, screenHeight, screenScale, batteryLevel,
      batteryState, networkType, lowPower, disk, memory))
  }

  /** The text-valued coding keys of `Encode(d)` read back the fields they were written from. */
  lemma EncodeTextFields(d: DeviceContext)
    ensures StringField(Encode(d), "model") == Some(d.model)
    ensures StringField(Encode(d), "os_version") == Some(d.osVersion)
    ensures StringField(Encode(d), "battery_state") == Some(BatteryStateName(d.batteryState))
    ensures StringField(Encode(d), "network_type") == Some(NetworkTypeName(d.networkType))
  {
  }

  /** The screen and battery-level keys of `Encode(d)` read back the fields they were written from. */
  lemma EncodeScreenFields(d: DeviceContext)
    ensures NumField(Encode(d), "screen_width") == Some(d.screenWidth)
    ensures NumField(Encode(d), "screen_height") == Some(d.screenHeight)
    ensures NumField(Encode(d), "screen_scale") == Some(d.screenScale)
    ensures NumField(Encode(d), "battery_level") == Some(d.batteryLevel)
  {
  }

  /** The power, disk and memory keys of `Encode(d)` read back the fields they were written from. */
  lemma EncodeResourceFields(d: DeviceContext)
    ensures BoolField(Encode(d), "is_low_power_mode") == Some(d.isLowPowerMode)
    ensures IntField(Encode(d), "available_disk_space") == Some(d.availableDiskSpace)
    ensures IntField(Encode(d), "total_memory") == Some(d.totalMemory)
  {
  }

  lemma RoundTrip(d: DeviceContext)
    ensures Decode(Encode(d)) == Some(d)
  {
    EnumNamesRoundTrip(d.batteryState, d.networkType);
    EncodeTextFields(d);
    EncodeScreenFields(d);
    EncodeResourceFields(d);
  }
}
