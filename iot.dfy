// The IoT device command interpreter: JavaScript-valued device state maps,
// the command switch that rewrites them, the bounded live-command log, the
// real-time sensor tick and the zoom controls.

module IoT {
  import opened Common

  // ---------------------------------------------------------------------------
  // Values in a device's state map
  // ---------------------------------------------------------------------------

  /** The JavaScript values a device state or a command parameter can hold. */
  datatype Value = Bool(b: bool) | Num(n: real) | Text(s: string) | Undefined

  /** JavaScript truthiness (NaN is not a value of this model). */
  predicate Truthy(v: Value)
  {
    match v
    case Bool(b) => b
    case Num(n) => n != 0.0
    case Text(s) => s != ""
    case Undefined => false
  }

  /** The `!` operator. */
  function Not(v: Value): (r: Value)
    ensures r.Bool? && (r.b <==> !Truthy(v))
    ensures v.Bool? ==> r == Bool(!v.b)
  {
    Bool(!Truthy(v))
  }

  type State = map<string, Value>

  /** A missing property reads as `undefined`. */
  function Get(m: map<string, Value>, key: string): Value
  {
    if key in m then m[key] else Undefined
  }

  // ---------------------------------------------------------------------------
  // Devices
  // ---------------------------------------------------------------------------

  datatype DeviceKind =
    | SmartValve | MotorController | LightingSystem | HvacController
    | PumpController | ConveyorController | SecurityCamera | AccessControl
    | EmergencyShutdown | ChemicalDosing | VentilationFan | CrusherControl

  const Online := "Online"
  const ControlActive := "Control Active"
  const Error := "Error"
  const Automatic := "Automatic"
  const Manual := "Manual Control"
  const Scheduled := "Scheduled"

  /** A preset: its properties in the order the object literal lists them. */
  type Preset = seq<(string, Value)>

  datatype Device = Device(
    id: string,
    name: string,
    kind: DeviceKind,
    status: string,
    controlMode: string,
    state: State,
    presets: seq<Preset>,
    lastAction: string)

  /** The eight seed devices; each seed's own contract states that it is ready for the tick. */
  function InitialDevices(): seq<Device>
  {
    [ SeedValve(), SeedMotor(), SeedLights(), SeedPump(),
      SeedHvac(), SeedCamera(), SeedCrusher(), SeedFan() ]
  }

  function SeedValve(): (d: Device)
    ensures Ready(d)
  {
    Device("VALVE_001", "Main Water Intake Valve", SmartValve, Online, Automatic,
      map["isOpen" := Bool(true), "openingPercentage" := Num(75.0), "flowRate" := Num(1247.3),
          "pressure" := Num(4.2), "temperature" := Num(22.1)],
      [ [("name", Text("Fully Open")), ("value", Num(100.0))],
        [("name", Text("Half Open")), ("value", Num(50.0))],
        [("name", Text("Quarter Open")), ("value", Num(25.0))],
        [("name", Text("Closed")), ("value", Num(0.0))] ],
      "Set Opening to 75%")
  }

  function SeedMotor(): (d: Device)
    ensures Ready(d)
  {
    Device("MOTOR_002", "Conveyor Belt Motor #3", MotorController, Online, Manual,
      map["isRunning" := Bool(true), "speed" := Num(85.0), "direction" := Text("Forward"),
          "current" := Num(12.4), "temperature" := Num(67.8), "vibration" := Num(2.1)],
      [ [("name", Text("Full Speed")), ("value", Num(100.0))],
        [("name", Text("Normal Speed")), ("value", Num(85.0))],
        [("name", Text("Slow Speed")), ("value", Num(50.0))],
        [("name", Text("Maintenance Speed")), ("value", Num(25.0))] ],
      "Speed adjusted to 85%")
  }

  function SeedLights(): (d: Device)
    ensures Ready(d)
  {
    Device("LIGHT_003", "Underground Mining Lights - Sector 7", LightingSystem, Online, Scheduled,
      map["isOn" := Bool(true), "brightness" := Num(90.0), "colorTemperature" := Num(4000.0),
          "energyConsumption" := Num(2.4), "motionDetected" := Bool(false)],
      [ [("name", Text("Full Bright")), ("brightness", Num(100.0)), ("temp", Num(5000.0))],
        [("name", Text("Work Light")), ("brightness", Num(90.0)), ("temp", Num(4000.0))],
        [("name", Text("Safety Light")), ("brightness", Num(60.0)), ("temp", Num(3000.0))],
        [("name", Text("Emergency")), ("brightness", Num(100.0)), ("temp", Num(6500.0))] ],
      "Brightness set to 90%")
  }

  function SeedPump(): (d: Device)
    ensures Ready(d)
  {
    Device("PUMP_004", "Slurry Pump Station Alpha", PumpController, ControlActive, Automatic,
      map["isRunning" := Bool(true), "flowRate" := Num(890.5), "pressure" := Num(6.8),
          "speed" := Num(1850.0), "efficiency" := Num(87.2), "cavitation" := Bool(false)],
      [ [("name", Text("Maximum Flow")), ("speed", Num(100.0)), ("flow", Num(1200.0))],
        [("name", Text("Normal Operation")), ("speed", Num(85.0)), ("flow", Num(900.0))],
        [("name", Text("Reduced Flow")), ("speed", Num(60.0)), ("flow", Num(600.0))],
        [("name", Text("Minimum Flow")), ("speed", Num(30.0)), ("flow", Num(300.0))] ],
      "Auto-adjust speed to maintain pressure")
  }

  function SeedHvac(): (d: Device)
    ensures Ready(d)
  {
    Device("HVAC_005", "Control Room Climate System", HvacController, Online, Automatic,
      map["temperature" := Num(22.5), "targetTemperature" := Num(23.0), "humidity" := Num(45.0),
          "targetHumidity" := Num(50.0), "fanSpeed" := Num(65.0), "coolingActive" := Bool(true),
          "heatingActive" := Bool(false)],
      [ [("name", Text("Comfort")), ("temp", Num(23.0)), ("humidity", Num(50.0)), ("fan", Num(60.0))],
        [("name", Text("Energy Save")), ("temp", Num(25.0)), ("humidity", Num(45.0)), ("fan", Num(40.0))],
        [("name", Text("High Performance")), ("temp", Num(21.0)), ("humidity", Num(55.0)), ("fan", Num(80.0))],
        [("name", Text("Night Mode")), ("temp", Num(20.0)), ("humidity", Num(45.0)), ("fan", Num(30.0))] ],
      "Set target temperature to 23 C")
  }

  function SeedCamera(): (d: Device)
    ensures Ready(d)
  {
    Device("CAMERA_006", "Security Camera - Main Entrance", SecurityCamera, Online, Automatic,
      map["isRecording" := Bool(true), "panAngle" := Num(45.0), "tiltAngle" := Num(-10.0),
          "zoomLevel" := Num(1.5), "nightVision" := Bool(false), "motionDetection" := Bool(true),
          "resolution" := Text("4K")],
      [ [("name", Text("Gate View")), ("pan", Num(0.0)), ("tilt", Num(0.0)), ("zoom", Num(1.0))],
        [("name", Text("Parking Area")), ("pan", Num(45.0)), ("tilt", Num(-10.0)), ("zoom", Num(1.5))],
        [("name", Text("Road Monitor")), ("pan", Num(-30.0)), ("tilt", Num(5.0)), ("zoom", Num(2.0))],
        [("name", Text("Wide Angle")), ("pan", Num(0.0)), ("tilt", Num(0.0)), ("zoom", Num(0.5))] ],
      "Pan to parking area view")
  }

  function SeedCrusher(): (d: Device)
    ensures Ready(d)
  {
    Device("CRUSHER_007", "Primary Jaw Crusher Control", CrusherControl, Online, Manual,
      map["isRunning" := Bool(true), "jawGap" := Num(125.0), "crushingForce" := Num(850.0),
          "feedRate" := Num(1200.0), "outputSize" := Num(85.0), "motorLoad" := Num(78.0)],
      [ [("name", Text("Coarse Crushing")), ("gap", Num(150.0)), ("feed", Num(1000.0))],
        [("name", Text("Standard")), ("gap", Num(125.0)), ("feed", Num(1200.0))],
        [("name", Text("Fine Crushing")), ("gap", Num(100.0)), ("feed", Num(900.0))],
        [("name", Text("Maintenance")), ("gap", Num(200.0)), ("feed", Num(0.0))] ],
      "Jaw gap adjusted to 125mm")
  }

  function SeedFan(): (d: Device)
    ensures Ready(d)
  {
    Device("FAN_008", "Ventilation Fan - Main Shaft", VentilationFan, Online, Automatic,
      map["isRunning" := Bool(true), "speed" := Num(1450.0), "airFlow" := Num(25000.0),
          "power" := Num(45.6), "direction" := Text("Exhaust"), "vibration" := Num(1.8)],
      [ [("name", Text("Maximum Ventilation")), ("speed", Num(100.0))],
        [("name", Text("Normal Operation")), ("speed", Num(80.0))],
        [("name", Text("Reduced Ventilation")), ("speed", Num(60.0))],
        [("name", Text("Emergency Exhaust")), ("speed", Num(100.0)), ("direction", Text("Exhaust"))] ],
      "Speed set to 80% (Auto)")
  }

  // ---------------------------------------------------------------------------
  // Presets
  // ---------------------------------------------------------------------------

  /** A preset property as an object reads it: the last entry with that key wins. */
  function PresetGet(p: Preset, key: string): (r: Option<Value>)
    ensures r.Some? <==> exists i :: 0 <= i < |p| && p[i].0 == key
    decreases |p|
  {
    if p == [] then None
    else if p[|p| - 1].0 == key then Some(p[|p| - 1].1)
    else PresetGet(p[..|p| - 1], key)
  }

  /** The entry at `i` is the last one with its key, so reading the key gives its value. */
  lemma {:induction false} PresetGetLast(p: Preset, i: nat)
    requires i < |p|
    requires forall j :: i < j < |p| ==> p[j].0 != p[i].0
    ensures PresetGet(p, p[i].0) == Some(p[i].1)
    decreases |p|
  {
    if i < |p| - 1 {
      var q := p[..|p| - 1];
      assert q[i] == p[i];
      PresetGetLast(q, i);
    }
  }

  function PresetName(p: Preset): Value
  {
    match PresetGet(p, "name")
    case Some(v) => v
    case None => Undefined
  }

  /** `presets.find(p => p.name === presetName)`. */
  function FindPreset(presets: seq<Preset>, name: Value): (r: Option<Preset>)
    ensures r.Some? ==> r.value in presets && PresetName(r.value) == name
    ensures r.None? <==> forall i :: 0 <= i < |presets| ==> PresetName(presets[i]) != name
    decreases |presets|
  {
    if presets == [] then None
    else if PresetName(presets[0]) == name then Some(presets[0])
    else FindPreset(presets[1..], name)
  }

  /** The preset found is the first one with the name. */
  lemma {:induction false} FindPresetFirst(presets: seq<Preset>, name: Value, i: nat)
    requires i < |presets| && PresetName(presets[i]) == name
    requires forall j :: 0 <= j < i ==> PresetName(presets[j]) != name
    ensures FindPreset(presets, name) == Some(presets[i])
    decreases i
  {
    if i > 0 {
      FindPresetFirst(presets[1..], name, i - 1);
    }
  }

  /** Copy every non-`name` property of the preset that the state already has. */
  function CopyPreset(s: State, p: Preset): (r: State)
    ensures r.Keys == s.Keys
    ensures forall k :: k in s && (k == "name" || PresetGet(p, k).None?) ==> r[k] == s[k]
    ensures forall i :: (0 <= i < |p| && p[i].0 in s && p[i].0 != "name"
                         && (forall j :: i < j < |p| ==> p[j].0 != p[i].0)) ==> r[p[i].0] == p[i].1
  {
    forall i | 0 <= i < |p| && p[i].0 in s && p[i].0 != "name" && (forall j :: i < j < |p| ==> p[j].0 != p[i].0)
      ensures PresetGet(p, p[i].0) == Some(p[i].1)
    {
      PresetGetLast(p, i);
    }
    map k | k in s :: if k != "name" && PresetGet(p, k).Some? then PresetGet(p, k).value else s[k]
  }

  /** A preset none of whose properties the state has leaves it unchanged. */
  lemma CopyPresetDisjoint(s: State, p: Preset)
    requires forall i :: 0 <= i < |p| && p[i].0 != "name" ==> p[i].0 !in s
    ensures CopyPreset(s, p) == s
  {
    var r := CopyPreset(s, p);
    forall k | k in s
      ensures r[k] == s[k]
    {
      if k != "name" {
        assert PresetGet(p, k).None?;
      }
    }
  }

  /** The camera's presets name `pan`, `tilt` and `zoom`, which its state does not have,
      so selecting any of them leaves the camera's state as it was. */
  lemma CameraPresetsChangeNothing(i: nat)
    requires i < |SeedCamera().presets|
    ensures CopyPreset(SeedCamera().state, SeedCamera().presets[i]) == SeedCamera().state
  {
    var cam := SeedCamera();
    var p := cam.presets[i];
    forall j | 0 <= j < |p| && p[j].0 != "name"
      ensures p[j].0 !in cam.state
    {
      assert p[j].0 in {"pan", "tilt", "zoom"};
    }
    CopyPresetDisjoint(cam.state, p);
  }

  // ---------------------------------------------------------------------------
  // Commands
  // ---------------------------------------------------------------------------

  const ToggleKeys: set<string> := {"isOn", "isRunning", "isOpen"}
  const PercentageKeys: set<string> := {"openingPercentage", "speed", "brightness"}

  function Toggle(s: State): (r: State)
    ensures r.Keys == s.Keys
    ensures forall k :: k in s && k in ToggleKeys ==> r[k] == Not(s[k])
    ensures forall k :: k in s && k !in ToggleKeys ==> r[k] == s[k]
  {
    map k | k in s :: if k in ToggleKeys then Not(s[k]) else s[k]
  }

  /** Toggling twice restores a state whose toggled properties hold booleans. */
  lemma ToggleTwice(s: State)
    requires forall k :: k in s && k in ToggleKeys ==> s[k].Bool?
    ensures Toggle(Toggle(s)) == s
  {
    var t := Toggle(Toggle(s));
    forall k | k in s
      ensures t[k] == s[k]
    {
      if k in ToggleKeys {
        assert Not(Not(s[k])) == s[k];
      }
    }
  }

  function SetPercentage(s: State, v: Value): (r: State)
    ensures r.Keys == s.Keys
    ensures forall k :: k in s ==> r[k] == if k in PercentageKeys then v else s[k]
  {
    map k | k in s :: if k in PercentageKeys then v else s[k]
  }

  /** Write `v` to `key` only when the state already has it. */
  function SetIfPresent(s: State, key: string, v: Value): (r: State)
    ensures r.Keys == s.Keys
    ensures key in s ==> r[key] == v
    ensures forall k :: k in s && k != key ==> r[k] == s[k]
  {
    if key in s then s[key := v] else s
  }

  function EmergencyStop(s: State): (r: State)
    ensures r.Keys == s.Keys + {"isRunning", "speed"}
    ensures r["isRunning"] == Bool(false) && r["speed"] == Num(0.0)
    ensures forall k :: k in s && k != "isRunning" && k != "speed" ==> r[k] == s[k]
  {
    s["isRunning" := Bool(false)]["speed" := Num(0.0)]
  }

  function SetPreset(s: State, presets: seq<Preset>, name: Value): State
  {
    match FindPreset(presets, name)
    case Some(p) => CopyPreset(s, p)
    case None => s
  }

  /** The new state map after `command`, as the command switch computes it. */
  function CommandState(s: State, presets: seq<Preset>, command: string, params: map<string, Value>): State
  {
    if command == "toggle" then Toggle(s)
    else if command == "setPercentage" then SetPercentage(s, Get(params, "value"))
    else if command == "setTemperature" then SetIfPresent(s, "targetTemperature", Get(params, "value"))
    else if command == "setPreset" then SetPreset(s, presets, Get(params, "presetName"))
    else if command == "emergencyStop" then EmergencyStop(s)
    else if command == "panTilt" then
      SetIfPresent(SetIfPresent(s, "panAngle", Get(params, "pan")), "tiltAngle", Get(params, "tilt"))
    else if command == "zoom" then SetIfPresent(s, "zoomLevel", Get(params, "value"))
    else s
  }

  /** Every command but the emergency stop rewrites only properties the state already has. */
  lemma CommandKeepsKeys(s: State, presets: seq<Preset>, command: string, params: map<string, Value>)
    ensures command != "emergencyStop" ==> CommandState(s, presets, command, params).Keys == s.Keys
    ensures command == "emergencyStop" ==>
      CommandState(s, presets, command, params).Keys == s.Keys + {"isRunning", "speed"}
  {
    if command == "setPreset" {
      match FindPreset(presets, Get(params, "presetName"))
      case Some(p) =>
      case None =>
    }
  }

  /** Selecting a preset no preset is named after leaves the state as it was. */
  lemma UnknownPresetUnchanged(s: State, presets: seq<Preset>, params: map<string, Value>)
    requires forall i :: 0 <= i < |presets| ==> PresetName(presets[i]) != Get(params, "presetName")
    ensures CommandState(s, presets, "setPreset", params) == s
  {
  }

  /** A command name the switch does not know leaves the state as it was. */
  lemma UnknownCommandUnchanged(s: State, presets: seq<Preset>, command: string, params: map<string, Value>)
    requires command !in {"toggle", "setPercentage", "setTemperature", "setPreset", "emergencyStop", "panTilt", "zoom"}
    ensures CommandState(s, presets, command, params) == s
  {
  }

  /** The device after a command completes: new state, `Control Active`, and the action recorded. */
  function Executed(d: Device, command: string, params: map<string, Value>): (e: Device)
    ensures e.state == CommandState(d.state, d.presets, command, params)
    ensures e.status == ControlActive
    ensures e.lastAction == command + " executed"
    ensures e.id == d.id && e.kind == d.kind && e.presets == d.presets && e.controlMode == d.controlMode
  {
    d.(state := CommandState(d.state, d.presets, command, params),
       status := ControlActive,
       lastAction := command + " executed")
  }

  /** The emergency stop's Error status does not survive: the device ends up `Control Active`, stopped. */
  lemma EmergencyStopOutcome(d: Device, params: map<string, Value>)
    ensures Executed(d, "emergencyStop", params).status == ControlActive
    ensures Executed(d, "emergencyStop", params).status != Error
    ensures Executed(d, "emergencyStop", params).state["isRunning"] == Bool(false)
    ensures Executed(d, "emergencyStop", params).state["speed"] == Num(0.0)
  {
  }

  /** Apply the command to the devices with the given id; all others are returned as they were.
      The contract is the frame `map` keeps: same length and order, every other device unchanged. */
  function ApplyCommand(devices: seq<Device>, id: string, command: string, params: map<string, Value>): (r: seq<Device>)
    ensures |r| == |devices|
    ensures forall i :: 0 <= i < |r| ==>
      r[i] == if devices[i].id == id then Executed(devices[i], command, params) else devices[i]
  {
    seq(|devices|, i requires 0 <= i < |devices| =>
      if devices[i].id == id then Executed(devices[i], command, params) else devices[i])
  }

  // The command switch, statement by statement.

  method FindPresetIn(presets: seq<Preset>, name: Value) returns (r: Option<Preset>)
    ensures r == FindPreset(presets, name)
  {
    var i := 0;
    while i < |presets|
      invariant 0 <= i <= |presets|
      invariant FindPreset(presets, name) == FindPreset(presets[i..], name)
    {
      assert presets[i..][1..] == presets[i + 1..];
      if PresetName(presets[i]) == name {
        return Some(presets[i]);
      }
      i := i + 1;
    }
    return None;
  }

  /** One step of the preset copy: the entry `p[i]` overrides what the prefix set. */
  lemma CopyPresetStep(s0: State, p: Preset, i: nat)
    requires i < |p|
    ensures CopyPreset(s0, p[..i + 1])
      == if p[i].0 != "name" && p[i].0 in s0 then CopyPreset(s0, p[..i])[p[i].0 := p[i].1] else CopyPreset(s0, p[..i])
  {
    assert p[..i + 1][..i] == p[..i];
    forall k | k in s0
      ensures PresetGet(p[..i + 1], k) == if p[i].0 == k then Some(p[i].1) else PresetGet(p[..i], k)
    {
    }
  }

  /** `Object.keys(preset).forEach(...)`: copy entry by entry. */
  method CopyPresetInto(s0: State, p: Preset) returns (s: State)
    ensures s == CopyPreset(s0, p)
  {
    s := s0;
    var i := 0;
    while i < |p|
      invariant 0 <= i <= |p|
      invariant s == CopyPreset(s0, p[..i])
    {
      var (key, v) := p[i];
      CopyPresetStep(s0, p, i);
      if key != "name" && key in s {
        s := s[key := v];
      }
      i := i + 1;
    }
    assert p[..i] == p;
  }

  /** The `executeCommand` switch applied to one device. */
  method ExecuteOn(d: Device, command: string, params: map<string, Value>) returns (e: Device)
    ensures e == Executed(d, command, params)
  {
    var s := d.state;
    if command == "toggle" {
      if "isOn" in s { s := s["isOn" := Not(s["isOn"])]; }
      if "isRunning" in s { s := s["isRunning" := Not(s["isRunning"])]; }
      if "isOpen" in s { s := s["isOpen" := Not(s["isOpen"])]; }
      assert s == Toggle(d.state);
    } else if command == "setPercentage" {
      var v := Get(params, "value");
      if "openingPercentage" in s { s := s["openingPercentage" := v]; }
      if "speed" in s { s := s["speed" := v]; }
      if "brightness" in s { s := s["brightness" := v]; }
      assert s == SetPercentage(d.state, v);
    } else if command == "setTemperature" {
      if "targetTemperature" in s { s := s["targetTemperature" := Get(params, "value")]; }
    } else if command == "setPreset" {
      var preset := FindPresetIn(d.presets, Get(params, "presetName"));
      if preset.Some? {
        s := CopyPresetInto(s, preset.value);
      }
    } else if command == "emergencyStop" {
      s := s["isRunning" := Bool(false)];
      s := s["speed" := Num(0.0)];
    } else if command == "panTilt" {
      if "panAngle" in s { s := s["panAngle" := Get(params, "pan")]; }
      if "tiltAngle" in s { s := s["tiltAngle" := Get(params, "tilt")]; }
    } else if command == "zoom" {
      if "zoomLevel" in s { s := s["zoomLevel" := Get(params, "value")]; }
    }
    e := d.(state := s, lastAction := command + " executed", status := ControlActive);
  }

  // ---------------------------------------------------------------------------
  // The live-command log
  // ---------------------------------------------------------------------------

  datatype CommandStatus = Executing | Completed

  datatype LiveCommand = LiveCommand(
    id: int,
    deviceId: string,
    command: string,
    params: map<string, Value>,
    status: CommandStatus)

  const LogCap: nat := 10
  const NoticeCap: nat := 5

  /** Completion flips the entries with the command's id, and only those. */
  function MarkCompleted(log: seq<LiveCommand>, id: int): (r: seq<LiveCommand>)
    ensures |r| == |log|
    ensures forall i :: 0 <= i < |r| && log[i].id != id ==> r[i] == log[i]
    ensures forall i :: 0 <= i < |r| && log[i].id == id ==> r[i] == log[i].(status := Completed)
  {
    seq(|log|, i requires 0 <= i < |log| => if log[i].id == id then log[i].(status := Completed) else log[i])
  }

  /** Issuing then completing a command with a fresh id leaves it first in the log, Completed. */
  lemma IssueThenComplete(log: seq<LiveCommand>, c: LiveCommand)
    requires forall i :: 0 <= i < |log| ==> log[i].id != c.id
    ensures MarkCompleted(PushNewest(log, c, LogCap), c.id)[0] == c.(status := Completed)
    ensures MarkCompleted(PushNewest(log, c, LogCap), c.id)[1..] == PushNewest(log, c, LogCap)[1..]
  {
    var pushed := PushNewest(log, c, LogCap);
    var r := MarkCompleted(pushed, c.id);
    forall i | 1 <= i < |r|
      ensures r[i] == pushed[i]
    {
      assert pushed[i] == pushed[1..][i - 1] == log[i - 1];
    }
  }

  // ---------------------------------------------------------------------------
  // The real-time tick
  // ---------------------------------------------------------------------------

  /** The draws of one device's tick, each `Math.random() - 0.5`. */
  datatype Draws = Draws(d1: real, d2: real, d3: real)

  predicate DrawsInRange(w: Draws)
  {
    -0.5 <= w.d1 <= 0.5 && -0.5 <= w.d2 <= 0.5 && -0.5 <= w.d3 <= 0.5
  }

  predicate HasNumber(s: State, key: string)
  {
    key in s && s[key].Num?
  }

  /** The properties the tick reads hold numbers. */
  predicate TickReady(d: Device)
  {
    match d.kind
    case SmartValve => d.controlMode == Automatic ==> HasNumber(d.state, "flowRate") && HasNumber(d.state, "pressure")
    case MotorController =>
      Truthy(Get(d.state, "isRunning")) ==>
        HasNumber(d.state, "current") && HasNumber(d.state, "temperature") && HasNumber(d.state, "vibration")
    case HvacController =>
      HasNumber(d.state, "temperature") && HasNumber(d.state, "targetTemperature") && HasNumber(d.state, "humidity")
    case _ => true
  }

  /** One device's state after a tick. */
  function TickState(d: Device, w: Draws): (r: State)
    requires TickReady(d)
    ensures r.Keys == d.state.Keys
    ensures d.kind == SmartValve && d.controlMode == Automatic ==>
      HasNumber(r, "pressure") && 3.0 <= r["pressure"].n <= 6.0
    ensures d.kind == MotorController && Truthy(Get(d.state, "isRunning")) ==>
      HasNumber(r, "temperature") && 40.0 <= r["temperature"].n <= 80.0
      && HasNumber(r, "vibration") && 1.0 <= r["vibration"].n <= 5.0
    ensures d.kind == HvacController ==> HasNumber(r, "humidity") && 30.0 <= r["humidity"].n <= 70.0
    ensures d.kind == SmartValve && d.controlMode != Automatic ==> r == d.state
    ensures d.kind == MotorController && !Truthy(Get(d.state, "isRunning")) ==> r == d.state
    ensures d.kind !in {SmartValve, MotorController, HvacController} ==> r == d.state
    ensures forall k :: (k in d.state && k !in {"flowRate", "pressure", "current", "temperature", "vibration", "humidity"}
      ==> r[k] == d.state[k])
  {
    var s := d.state;
    match d.kind
    case SmartValve =>
      if d.controlMode == Automatic then
        s["flowRate" := Num(s["flowRate"].n + w.d1 * 50.0)]
         ["pressure" := Num(Clamp(s["pressure"].n + w.d2 * 0.5, 3.0, 6.0))]
      else s
    case MotorController =>
      if Truthy(Get(s, "isRunning")) then
        s["current" := Num(s["current"].n + w.d1 * 2.0)]
         ["temperature" := Num(Clamp(s["temperature"].n + w.d2 * 3.0, 40.0, 80.0))]
         ["vibration" := Num(Clamp(s["vibration"].n + w.d3 * 0.3, 1.0, 5.0))]
      else s
    case HvacController =>
      var t := s["temperature"].n;
      s["temperature" := Num(t + (s["targetTemperature"].n - t) * 0.1 + w.d1 * 0.5)]
       ["humidity" := Num(Clamp(s["humidity"].n + w.d2 * 2.0, 30.0, 70.0))]
    case _ => s
  }

  /** A tick keeps every device ready for the next one. */
  lemma TickKeepsReady(d: Device, w: Draws)
    requires TickReady(d)
    ensures TickReady(d.(state := TickState(d, w)))
  {
  }

  /** The properties a device's tick reads, by kind. */
  function TickKeys(k: DeviceKind): set<string>
  {
    match k
    case SmartValve => {"flowRate", "pressure"}
    case MotorController => {"current", "temperature", "vibration"}
    case HvacController => {"temperature", "targetTemperature", "humidity"}
    case _ => {}
  }

  /** Every property the tick reads holds a number, whatever the device's mode, and no preset
      can write anything but a number there. */
  predicate Ready(d: Device)
  {
    (forall k :: k in TickKeys(d.kind) ==> HasNumber(d.state, k))
    && (forall i, j :: 0 <= i < |d.presets| && 0 <= j < |d.presets[i]| && d.presets[i][j].0 in TickKeys(d.kind)
          ==> d.presets[i][j].1.Num?)
  }

  /** A ready device can be ticked in any mode. */
  lemma ReadyIsTickReady(d: Device)
    requires Ready(d)
    ensures TickReady(d)
  {
    assert forall k :: k in TickKeys(d.kind) ==> HasNumber(d.state, k);
    match d.kind
    case SmartValve => assert "flowRate" in TickKeys(d.kind) && "pressure" in TickKeys(d.kind);
    case MotorController =>
      assert "current" in TickKeys(d.kind) && "temperature" in TickKeys(d.kind) && "vibration" in TickKeys(d.kind);
    case HvacController =>
      assert "temperature" in TickKeys(d.kind) && "targetTemperature" in TickKeys(d.kind) && "humidity" in TickKeys(d.kind);
    case _ =>
  }

  /** Every seed device is ready. */
  lemma InitialDevicesReady()
    ensures forall i :: 0 <= i < |InitialDevices()| ==> Ready(InitialDevices()[i])
  {
  }

  /** A value a preset yields for a key is the value of one of its entries with that key. */
  lemma {:induction false} PresetGetEntry(p: Preset, key: string)
    requires PresetGet(p, key).Some?
    ensures exists j :: 0 <= j < |p| && p[j].0 == key && p[j].1 == PresetGet(p, key).value
    decreases |p|
  {
    if p[|p| - 1].0 != key {
      var q := p[..|p| - 1];
      PresetGetEntry(q, key);
      var j :| 0 <= j < |q| && q[j].0 == key && q[j].1 == PresetGet(q, key).value;
      assert p[j] == q[j];
    }
  }

  /** Selecting a preset keeps a device ready: the presets write only numbers to what the tick reads. */
  lemma SetPresetKeepsReady(d: Device, name: Value)
    requires Ready(d)
    ensures Ready(d.(state := SetPreset(d.state, d.presets, name)))
  {
    match FindPreset(d.presets, name)
    case None =>
    case Some(p) =>
      var i :| 0 <= i < |d.presets| && d.presets[i] == p;
      var r := CopyPreset(d.state, p);
      forall k | k in TickKeys(d.kind)
        ensures HasNumber(r, k)
      {
        if k != "name" && PresetGet(p, k).Some? {
          PresetGetEntry(p, k);
          var j :| 0 <= j < |p| && p[j].0 == k && p[j].1 == PresetGet(p, k).value;
          assert d.presets[i][j].0 in TickKeys(d.kind);
        }
      }
  }

  /** The tick reads none of the properties the toggle, percentage, stop and camera commands write. */
  lemma TickKeysUntouched(k: DeviceKind)
    ensures TickKeys(k) !! ToggleKeys + PercentageKeys + {"isRunning", "speed", "panAngle", "tiltAngle", "zoomLevel"}
  {
  }

  /** A new state that agrees with the old one on every property the tick reads keeps the device ready. */
  lemma SameTickKeysReady(d: Device, t: State)
    requires Ready(d)
    requires forall k :: k in TickKeys(d.kind) ==> k in t && t[k] == d.state[k]
    ensures Ready(d.(state := t))
  {
  }

  /** A completed command keeps a device ready, provided a temperature setting is a number, as the
      temperature buttons send (the target plus or minus one). */
  lemma ExecutedKeepsReady(d: Device, command: string, params: map<string, Value>)
    requires Ready(d)
    requires command == "setTemperature" ==> Get(params, "value").Num?
    ensures Ready(Executed(d, command, params))
  {
    var t := CommandState(d.state, d.presets, command, params);
    TickKeysUntouched(d.kind);
    if command == "setPreset" {
      SetPresetKeepsReady(d, Get(params, "presetName"));
    } else if command == "setTemperature" {
      assert t == SetIfPresent(d.state, "targetTemperature", Get(params, "value"));
      forall k | k in TickKeys(d.kind)
        ensures HasNumber(t, k)
      {
      }
    } else {
      forall k | k in TickKeys(d.kind)
        ensures k in t && t[k] == d.state[k]
      {
      }
      SameTickKeysReady(d, t);
    }
  }

  /** A tick keeps a device ready. */
  lemma TickStateKeepsReady(d: Device, w: Draws)
    requires Ready(d)
    ensures TickReady(d) && Ready(d.(state := TickState(d, w)))
  {
    ReadyIsTickReady(d);
  }

  /** In a small step the HVAC temperature moves a tenth of the way toward the target. */
  lemma HvacTowardTarget(d: Device, w: Draws)
    requires d.kind == HvacController && TickReady(d) && w.d1 == 0.0
    requires d.state["temperature"].n <= d.state["targetTemperature"].n
    ensures d.state["temperature"].n <= TickState(d, w)["temperature"].n <= d.state["targetTemperature"].n
  {
  }

  /** The tick's `map` over the devices, in order; `TickState`'s contract carries the per-device bounds. */
  function TickAll(devices: seq<Device>, draws: seq<Draws>): (r: seq<Device>)
    requires |draws| == |devices|
    requires forall i :: 0 <= i < |devices| ==> TickReady(devices[i])
    ensures |r| == |devices|
    ensures forall i :: 0 <= i < |r| ==> r[i] == devices[i].(state := TickState(devices[i], draws[i]))
  {
    seq(|devices|, i requires 0 <= i < |devices| => devices[i].(state := TickState(devices[i], draws[i])))
  }

  // ---------------------------------------------------------------------------
  // Zoom controls
  // ---------------------------------------------------------------------------

  function ZoomOutRequest(zoom: real): (r: real)
    ensures r >= 0.5
  {
    Max(0.5, zoom - 0.5)
  }

  function ZoomInRequest(zoom: real): (r: real)
    ensures r <= 5.0
  {
    Min(5.0, zoom + 0.5)
  }

  /** Each button clamps only one side; from a level in [0.5, 5] both stay in [0.5, 5]. */
  lemma ZoomStaysInRange(zoom: real)
    requires 0.5 <= zoom <= 5.0
    ensures 0.5 <= ZoomOutRequest(zoom) <= 5.0 && ZoomOutRequest(zoom) <= zoom
    ensures 0.5 <= ZoomInRequest(zoom) <= 5.0 && ZoomInRequest(zoom) >= zoom
  {
  }

  // ---------------------------------------------------------------------------
  // The page state
  // ---------------------------------------------------------------------------

  class ControlCenter {
    var devices: seq<Device>
    var liveCommands: seq<LiveCommand>
    var notifications: seq<Notice>

    /** The command log keeps at most ten entries, the notifications at most five. */
    ghost predicate Valid()
      reads this
    {
      |liveCommands| <= LogCap && |notifications| <= NoticeCap
    }

    constructor ()
      ensures Valid()
      ensures devices == InitialDevices() && liveCommands == [] && notifications == []
      ensures forall i :: 0 <= i < |devices| ==> Ready(devices[i])
    {
      InitialDevicesReady();
      devices := InitialDevices();
      liveCommands := [];
      notifications := [];
    }

    /** `addNotification`: newest first, at most five. */
    method AddNotification(n: Notice)
      requires Valid()
      modifies this`notifications
      ensures Valid()
      ensures notifications == PushNewest(old(notifications), n, NoticeCap)
    {
      notifications := PushNewest(notifications, n, NoticeCap);
    }

    /** The first half of `executeCommand`: log the command as Executing and announce it. */
    method Issue(commandId: int, deviceId: string, command: string, params: map<string, Value>, noticeId: int)
      requires Valid()
      modifies this`liveCommands, this`notifications
      ensures Valid()
      ensures liveCommands == PushNewest(old(liveCommands),
        LiveCommand(commandId, deviceId, command, params, Executing), LogCap)
      ensures notifications == PushNewest(old(notifications),
        Notice(noticeId, "Executing: " + command + " on device " + deviceId, "info"), NoticeCap)
    {
      liveCommands := PushNewest(liveCommands, LiveCommand(commandId, deviceId, command, params, Executing), LogCap);
      AddNotification(Notice(noticeId, "Executing: " + command + " on device " + deviceId, "info"));
    }

    /** The delayed second half: run the switch on the matching device, mark the log entry Completed. */
    method Complete(commandId: int, deviceId: string, command: string, params: map<string, Value>, noticeId: int)
      requires Valid()
      modifies this`devices, this`liveCommands, this`notifications
      ensures Valid()
      ensures devices == ApplyCommand(old(devices), deviceId, command, params)
      ensures liveCommands == MarkCompleted(old(liveCommands), commandId)
      ensures notifications == PushNewest(old(notifications),
        Notice(noticeId, "Command completed: " + command, "success"), NoticeCap)
      ensures (forall i :: 0 <= i < |old(devices)| ==> Ready(old(devices)[i]))
        && (command == "setTemperature" ==> Get(params, "value").Num?)
        ==> forall i :: 0 <= i < |devices| ==> Ready(devices[i])
    {
      if (forall i :: 0 <= i < |devices| ==> Ready(devices[i]))
        && (command == "setTemperature" ==> Get(params, "value").Num?) {
        forall i | 0 <= i < |devices|
          ensures Ready(Executed(devices[i], command, params))
        {
          ExecutedKeepsReady(devices[i], command, params);
        }
      }
      var src := devices;
      var next: seq<Device> := [];
      var i := 0;
      while i < |src|
        invariant 0 <= i <= |src| && devices == src
        invariant liveCommands == old(liveCommands) && notifications == old(notifications)
        invariant |next| == i
        invariant forall k :: 0 <= k < i ==>
          next[k] == if src[k].id == deviceId then Executed(src[k], command, params) else src[k]
      {
        var d := src[i];
        if d.id == deviceId {
          d := ExecuteOn(d, command, params);
        }
        next := next + [d];
        i := i + 1;
      }
      devices := next;
      liveCommands := MarkCompleted(liveCommands, commandId);
      AddNotification(Notice(noticeId, "Command completed: " + command, "success"));
    }

    /** One tick of the real-time feed over every device. */
    method Tick(draws: seq<Draws>)
      requires Valid() && |draws| == |devices|
      requires forall i :: 0 <= i < |devices| ==> TickReady(devices[i])
      modifies this`devices
      ensures Valid()
      ensures devices == TickAll(old(devices), draws)
      ensures forall i :: 0 <= i < |devices| ==> TickReady(devices[i])
      ensures (forall i :: 0 <= i < |old(devices)| ==> Ready(old(devices)[i]))
        ==> forall i :: 0 <= i < |devices| ==> Ready(devices[i])
    {
      forall i | 0 <= i < |devices|
        ensures TickReady(devices[i].(state := TickState(devices[i], draws[i])))
      {
        TickKeepsReady(devices[i], draws[i]);
      }
      if forall i :: 0 <= i < |devices| ==> Ready(devices[i]) {
        forall i | 0 <= i < |devices|
          ensures Ready(devices[i].(state := TickState(devices[i], draws[i])))
        {
          TickStateKeepsReady(devices[i], draws[i]);
        }
      }
      devices := TickAll(devices, draws);
    }
  }
}
