/** The equipment layout designer and its step simulator
    (src/pages/SimulationTool.tsx): the per-type parameter templates, the
    equipment registry with its add form, parameter merge and drag controller,
    and the fixed 100-step performance run with its per-step aggregates. The
    random draws of a run are inputs; canvas drawing is not modelled. */
module Simulation {
  import opened Common

  datatype EquipmentType =
    Crusher | Mill | Conveyor | Pump | Separator | Screen | Feeder | Compressor

  function TypeName(t: EquipmentType): string
  {
    match t
    case Crusher => "Crusher"
    case Mill => "Mill"
    case Conveyor => "Conveyor"
    case Pump => "Pump"
    case Separator => "Separator"
    case Screen => "Screen"
    case Feeder => "Feeder"
    case Compressor => "Compressor"
  }

  /** A parameter map: parameter name to numeric value. */
  type Params = map<string, real>

  /** The parameters every step of a run reads from a node. */
  const SimulationKeys: set<string> :=
    {"capacity", "powerRating", "efficiency", "wearRate", "operatingTemperature", "vibrationLevel"}

  const CrusherDefaults: Params := map[
    "capacity" := 1000.0, "powerRating" := 500.0, "efficiency" := 85.0,
    "gapeSize" := 150.0, "compressionRatio" := 4.0, "wearRate" := 0.5,
    "maintenanceInterval" := 720.0, "operatingTemperature" := 45.0,
    "vibrationLevel" := 3.2, "noiseLevel" := 85.0]

  const MillDefaults: Params := map[
    "capacity" := 800.0, "powerRating" := 2500.0, "efficiency" := 82.0,
    "millSpeed" := 75.0, "ballCharge" := 35.0, "pulpDensity" := 70.0,
    "wearRate" := 0.3, "maintenanceInterval" := 1440.0,
    "operatingTemperature" := 65.0, "vibrationLevel" := 2.8, "noiseLevel" := 92.0]

  const ConveyorDefaults: Params := map[
    "capacity" := 2000.0, "powerRating" := 150.0, "efficiency" := 95.0,
    "beltSpeed" := 2.5, "beltWidth" := 1.2, "inclination" := 15.0,
    "wearRate" := 0.1, "maintenanceInterval" := 2160.0,
    "operatingTemperature" := 35.0, "vibrationLevel" := 1.5, "noiseLevel" := 65.0]

  const PumpDefaults: Params := map[
    "capacity" := 500.0, "powerRating" := 300.0, "efficiency" := 78.0,
    "flowRate" := 350.0, "headPressure" := 85.0, "impellerSpeed" := 1800.0,
    "wearRate" := 0.4, "maintenanceInterval" := 1080.0,
    "operatingTemperature" := 55.0, "vibrationLevel" := 2.2, "noiseLevel" := 70.0]

  /** `getEquipmentDefaults`: only four types have a template of their own; every
      other type falls back to the Crusher template. Every template carries the
      parameters a simulation step reads. */
  function Template(t: EquipmentType): (p: Params)
    ensures SimulationKeys <= p.Keys
    ensures "capacity" in p && p["capacity"] > 0.0
    ensures "powerRating" in p && p["powerRating"] > 0.0
  {
    match t
    case Mill => MillDefaults
    case Conveyor => ConveyorDefaults
    case Pump => PumpDefaults
    case _ => CrusherDefaults
  }

  /** The four types without a template of their own get the Crusher template. */
  lemma TemplateFallback(t: EquipmentType)
    ensures t !in {Mill, Conveyor, Pump} ==> Template(t) == Template(Crusher)
    ensures t in {Mill, Conveyor, Pump} ==> Template(t) != Template(Crusher)
  {
    assert "gapeSize" in CrusherDefaults;
  }

  /** Switching a Crusher to a Mill drops the Crusher-only keys and brings in the Mill-only ones. */
  lemma CrusherToMillKeys()
    ensures "gapeSize" in Template(Crusher) && "gapeSize" !in Template(Mill)
    ensures "millSpeed" in Template(Mill) && Template(Mill)["millSpeed"] == 75.0
    ensures "ballCharge" in Template(Mill) && Template(Mill)["ballCharge"] == 35.0
    ensures "millSpeed" !in Template(Crusher) && "ballCharge" !in Template(Crusher)
  {
  }

  datatype Point = Point(x: real, y: real)

  datatype Status = Active | Inactive

  /** The last performance snapshot shown on a node. */
  datatype Performance = Performance(
    throughput: real, powerConsumption: real, wearProgress: real,
    vibrationActual: real, temperatureActual: real, efficiency: real)

  const ZeroPerformance := Performance(0.0, 0.0, 0.0, 0.0, 0.0, 0.0)

  datatype Node = Node(
    id: string, name: string, kind: EquipmentType, material: string,
    parameters: Params, position: Point, connections: seq<string>,
    status: Status, results: Performance)

  /** The add-equipment form. */
  datatype Form = Form(name: string, kind: EquipmentType, material: string, parameters: Params, position: Point)

  const BlankForm := Form("", Crusher, "Iron Ore", Template(Crusher), Point(200.0, 300.0))

  /** A grabbed node: its id and the pointer's offset from the node at mousedown. */
  datatype Drag = Drag(id: string, offset: Point)

  // ---------------------------------------------------------------------------
  // Registry operations as functions of the equipment list
  // ---------------------------------------------------------------------------

  /** The node `addEquipment` builds from the form; an empty name falls back to "New <type>". */
  function NewNode(f: Form, id: string): (n: Node)
    ensures n.status == Inactive && n.connections == [] && n.results == ZeroPerformance
    ensures n.id == id && n.kind == f.kind && n.parameters == f.parameters && n.position == f.position
    ensures n.name == (if f.name == "" then "New " + TypeName(f.kind) else f.name)
    ensures n.name != ""
  {
    Node(id, if f.name == "" then "New " + TypeName(f.kind) else f.name, f.kind, f.material,
         f.parameters, f.position, [], Inactive, ZeroPerformance)
  }

  /** The form the Add button's `addEquipment` reads. The add modal is memoised once with no
      dependencies, so its button keeps calling the first render's callback, and that callback
      captured the blank form: whatever the modal shows, this is the form a click adds. */
  const CapturedForm := BlankForm

  /** Whatever the user has typed or chosen, the Add button appends a "New Crusher" with the
      Crusher template at (200, 300); a named form, or one of another type, is ignored. */
  lemma AddIgnoresShownForm(shown: Form, id: string)
    ensures NewNode(CapturedForm, id).name == "New Crusher"
    ensures NewNode(CapturedForm, id).kind == Crusher && NewNode(CapturedForm, id).parameters == Template(Crusher)
    ensures NewNode(CapturedForm, id).position == Point(200.0, 300.0)
    ensures shown.name != "" && shown.name != "New Crusher" ==> NewNode(CapturedForm, id) != NewNode(shown, id)
    ensures shown.kind != Crusher ==> NewNode(CapturedForm, id) != NewNode(shown, id)
  {
    assert TypeName(Crusher) == "Crusher";
    assert "New " + "Crusher" == "New Crusher";
  }

  /** `updateEquipmentParameters`: the nodes with the given id get their parameters
      shallow-merged with the new ones (new keys win, unknown keys are added). */
  function MergeParameters(nodes: seq<Node>, id: string, update: Params): (r: seq<Node>)
    ensures |r| == |nodes|
    ensures forall i :: 0 <= i < |r| && nodes[i].id != id ==> r[i] == nodes[i]
    ensures forall i :: 0 <= i < |r| && nodes[i].id == id ==>
      r[i] == nodes[i].(parameters := r[i].parameters)
      && r[i].parameters.Keys == nodes[i].parameters.Keys + update.Keys
      && (forall k :: k in update ==> r[i].parameters[k] == update[k])
      && (forall k :: k in nodes[i].parameters && k !in update ==> r[i].parameters[k] == nodes[i].parameters[k])
  {
    seq(|nodes|, i requires 0 <= i < |nodes| =>
      if nodes[i].id == id then nodes[i].(parameters := nodes[i].parameters + update) else nodes[i])
  }

  /** The offset recorded at mousedown: pointer minus canvas origin minus node position. */
  function GrabOffset(n: Node, pointer: Point, origin: Point): Point
  {
    Point(pointer.x - origin.x - n.position.x, pointer.y - origin.y - n.position.y)
  }

  /** The position a mouse move gives the dragged node. */
  function DragTarget(d: Drag, pointer: Point, origin: Point): Point
  {
    Point(pointer.x - origin.x - d.offset.x, pointer.y - origin.y - d.offset.y)
  }

  /** Grabbing a node and moving by nothing puts it back where it was. */
  lemma {:induction false} GrabWithoutMove(n: Node, pointer: Point, origin: Point)
    ensures DragTarget(Drag(n.id, GrabOffset(n, pointer, origin)), pointer, origin) == n.position
  {
  }

  /** A mouse move while a node is grabbed: only the grabbed node's position changes.
      The contract is the frame `map` keeps: same length and order, every other node unchanged. */
  function MoveDragged(nodes: seq<Node>, id: string, p: Point): (r: seq<Node>)
    ensures |r| == |nodes|
    ensures forall i :: 0 <= i < |r| ==>
      r[i] == (if nodes[i].id == id then nodes[i].(position := p) else nodes[i])
  {
    seq(|nodes|, i requires 0 <= i < |nodes| =>
      if nodes[i].id == id then nodes[i].(position := p) else nodes[i])
  }

  /** A move to the grab point leaves a registry whose grabbed nodes sit there unchanged. */
  lemma MoveToGrabPointIsIdentity(nodes: seq<Node>, j: nat, pointer: Point, origin: Point)
    requires j < |nodes|
    requires forall i :: 0 <= i < |nodes| && nodes[i].id == nodes[j].id ==> nodes[i].position == nodes[j].position
    ensures MoveDragged(nodes, nodes[j].id,
              DragTarget(Drag(nodes[j].id, GrabOffset(nodes[j], pointer, origin)), pointer, origin)) == nodes
  {
    var r := MoveDragged(nodes, nodes[j].id,
               DragTarget(Drag(nodes[j].id, GrabOffset(nodes[j], pointer, origin)), pointer, origin));
    GrabWithoutMove(nodes[j], pointer, origin);
    assert forall i :: 0 <= i < |nodes| ==> r[i] == nodes[i];
  }

  // ---------------------------------------------------------------------------
  // One simulation step
  // ---------------------------------------------------------------------------

  const TotalSteps: nat := 100

  /** The four random draws for one node in one step: efficiency noise in [-5, 5],
      temperature noise in [-3, 8], vibration noise in [-0.5, 1.0] and the wear
      factor noise in [-0.2, 0.3]. */
  datatype Draw = Draw(efficiency: real, temperature: real, vibration: real, wear: real)

  predicate DrawInRange(d: Draw)
  {
    -5.0 <= d.efficiency <= 5.0 && -3.0 <= d.temperature <= 8.0
    && -0.5 <= d.vibration <= 1.0 && -0.2 <= d.wear <= 0.3
  }

  datatype Entry = Entry(
    equipmentId: string, efficiency: real, throughput: real, powerConsumption: real,
    temperature: real, vibration: real, wearRate: real)

  datatype GlobalMetrics = GlobalMetrics(
    totalThroughput: real, totalPowerConsumption: real,
    averageEfficiency: JsNumber, energyIntensity: JsNumber)

  datatype StepResult = StepResult(step: nat, equipment: seq<Entry>, globalMetrics: GlobalMetrics)

  ghost predicate HasSimulationKeys(n: Node)
  {
    SimulationKeys <= n.parameters.Keys
  }

  /** `Math.max(0, Math.min(100, base + noise))`. */
  function SampledEfficiency(base: real, noise: real): (eff: real)
    ensures 0.0 <= eff <= 100.0
    ensures 0.0 <= base + noise <= 100.0 ==> eff == base + noise
  {
    Clamp(base + noise, 0.0, 100.0)
  }

  /** Throughput at a given efficiency: between 0 and the capacity. */
  function ThroughputAt(capacity: real, eff: real): (t: real)
    requires 0.0 <= eff <= 100.0
    ensures capacity >= 0.0 ==> 0.0 <= t <= capacity
    ensures eff == 0.0 ==> t == 0.0
  {
    var f := eff / 100.0;
    assert 0.0 <= f <= 1.0;
    ScaleBounds(capacity, f, 0.0, 1.0);
    assert capacity * 1.0 == capacity && capacity * 0.0 == 0.0;
    capacity * f
  }

  /** Power drawn at a given efficiency: between 70% and 100% of the rating. */
  function PowerAt(rating: real, eff: real): (w: real)
    requires 0.0 <= eff <= 100.0
    ensures rating >= 0.0 ==> 0.7 * rating <= w <= rating
  {
    var f := eff / 100.0;
    assert 0.0 <= f * 0.3 <= 0.3;
    ScaleBounds(rating, 0.7 + f * 0.3, 0.7, 1.0);
    rating * (0.7 + f * 0.3)
  }

  /** The sampled wear rate: between 80% and 130% of the base rate. */
  function WearAt(rate: real, noise: real): (w: real)
    ensures rate >= 0.0 && -0.2 <= noise <= 0.3 ==> 0.8 * rate <= w <= 1.3 * rate
  {
    ScaleBounds(rate, 1.0 + noise, 0.8, 1.3);
    rate * (1.0 + noise)
  }

  /** One node's sample in one step. */
  function EntryFor(n: Node, d: Draw): (e: Entry)
    requires HasSimulationKeys(n)
    ensures e.equipmentId == n.id
    ensures 0.0 <= e.efficiency <= 100.0
    ensures e.throughput == ThroughputAt(n.parameters["capacity"], e.efficiency)
    ensures e.powerConsumption == PowerAt(n.parameters["powerRating"], e.efficiency)
    ensures DrawInRange(d) && 5.0 <= n.parameters["efficiency"] <= 95.0 ==>
      n.parameters["efficiency"] - 5.0 <= e.efficiency <= n.parameters["efficiency"] + 5.0
    ensures DrawInRange(d) ==>
      n.parameters["operatingTemperature"] - 3.0 <= e.temperature <= n.parameters["operatingTemperature"] + 8.0
    ensures DrawInRange(d) ==>
      n.parameters["vibrationLevel"] - 0.5 <= e.vibration <= n.parameters["vibrationLevel"] + 1.0
    ensures DrawInRange(d) && n.parameters["wearRate"] >= 0.0 ==>
      0.8 * n.parameters["wearRate"] <= e.wearRate <= 1.3 * n.parameters["wearRate"]
  {
    var p := n.parameters;
    var eff := SampledEfficiency(p["efficiency"], d.efficiency);
    Entry(n.id, eff,
          ThroughputAt(p["capacity"], eff),
          PowerAt(p["powerRating"], eff),
          p["operatingTemperature"] + d.temperature,
          p["vibrationLevel"] + d.vibration,
          WearAt(p["wearRate"], d.wear))
  }

  /** One step's `map` over the registry: one entry per node, in registry order; `EntryFor`'s
      own contract carries the per-node bounds. */
  function StepEntries(nodes: seq<Node>, draws: seq<Draw>): (es: seq<Entry>)
    requires |draws| == |nodes|
    requires forall i :: 0 <= i < |nodes| ==> HasSimulationKeys(nodes[i])
    ensures |es| == |nodes|
    ensures forall i :: 0 <= i < |es| ==> es[i] == EntryFor(nodes[i], draws[i])
  {
    seq(|nodes|, i requires 0 <= i < |nodes| => EntryFor(nodes[i], draws[i]))
  }

  function Throughput(e: Entry): real { e.throughput }
  function Power(e: Entry): real { e.powerConsumption }
  function Efficiency(e: Entry): real { e.efficiency }

  /** The step's aggregates: sums, the mean efficiency and the energy intensity,
      the last two with JavaScript's division so the zero cases are explicit. */
  function Metrics(es: seq<Entry>): GlobalMetrics
  {
    GlobalMetrics(
      Sum(es, Throughput), Sum(es, Power),
      JsDivide(Sum(es, Efficiency), |es| as real),
      JsDivide(Sum(es, Power), Sum(es, Throughput)))
  }

  function StepOf(nodes: seq<Node>, k: nat, draws: seq<Draw>): StepResult
    requires |draws| == |nodes|
    requires forall i :: 0 <= i < |nodes| ==> HasSimulationKeys(nodes[i])
  {
    var es := StepEntries(nodes, draws);
    StepResult(k, es, Metrics(es))
  }

  ghost predicate DrawsFit(nodes: seq<Node>, draws: seq<seq<Draw>>)
  {
    |draws| == TotalSteps && forall k :: 0 <= k < |draws| ==> |draws[k]| == |nodes|
  }

  /** The whole run: step `k` samples every node of the snapshot with the k-th draws. */
  function Steps(nodes: seq<Node>, draws: seq<seq<Draw>>): (r: seq<StepResult>)
    requires DrawsFit(nodes, draws)
    requires forall i :: 0 <= i < |nodes| ==> HasSimulationKeys(nodes[i])
    ensures |r| == TotalSteps
    ensures forall k :: 0 <= k < |r| ==> r[k].step == k && |r[k].equipment| == |nodes|
    ensures forall k, i :: 0 <= k < |r| && 0 <= i < |nodes| ==> r[k].equipment[i].equipmentId == nodes[i].id
  {
    seq(TotalSteps, k requires 0 <= k < TotalSteps => StepOf(nodes, k, draws[k]))
  }

  /** The energy intensity is a finite number exactly when the step's throughput is
      not zero; a zero throughput gives NaN or Infinity depending on the power. */
  lemma EnergyIntensityZeroCase(es: seq<Entry>)
    requires forall i :: 0 <= i < |es| ==> es[i].powerConsumption >= 0.0
    ensures Metrics(es).energyIntensity.Finite? <==> Metrics(es).totalThroughput != 0.0
    ensures Metrics(es).totalThroughput == 0.0 ==>
      Metrics(es).energyIntensity in {NaN, PositiveInfinity}
  {
    SumNonNegative(es, Power);
  }

  /** The mean efficiency of a non-empty step lies in [0, 100]; of an empty one it is NaN. */
  lemma AverageEfficiencyBounds(nodes: seq<Node>, draws: seq<Draw>)
    requires |draws| == |nodes|
    requires forall i :: 0 <= i < |nodes| ==> HasSimulationKeys(nodes[i])
    ensures var m := Metrics(StepEntries(nodes, draws));
      if nodes == [] then m.averageEfficiency == NaN
      else m.averageEfficiency.Finite? && 0.0 <= m.averageEfficiency.v <= 100.0
  {
    var es := StepEntries(nodes, draws);
    SumBounds(es, Efficiency, 0.0, 100.0);
    if nodes != [] {
      DivideBounds(Sum(es, Efficiency), |es| as real, 0.0, 100.0);
    }
  }

  /** With non-negative ratings, the step's total power lies between 70% and 100%
      of the summed power ratings, and the total throughput between 0 and the summed capacities. */
  lemma {:induction false} StepTotalsBounds(nodes: seq<Node>, draws: seq<Draw>)
    requires |draws| == |nodes|
    requires forall i :: 0 <= i < |nodes| ==> HasSimulationKeys(nodes[i])
    requires forall i :: 0 <= i < |nodes| ==> PowerRating(nodes[i]) >= 0.0 && Capacity(nodes[i]) >= 0.0
    ensures var es := StepEntries(nodes, draws);
      0.7 * Sum(nodes, PowerRating) <= Sum(es, Power) <= Sum(nodes, PowerRating)
      && 0.0 <= Sum(es, Throughput) <= Sum(nodes, Capacity)
  {
    if nodes != [] {
      var es := StepEntries(nodes, draws);
      StepTotalsBounds(nodes[1..], draws[1..]);
      assert StepEntries(nodes[1..], draws[1..]) == es[1..];
      var e := EntryFor(nodes[0], draws[0]);
      assert es[0] == e;
    }
  }

  function PowerRating(n: Node): real
  {
    if "powerRating" in n.parameters then n.parameters["powerRating"] else 0.0
  }

  function Capacity(n: Node): real
  {
    if "capacity" in n.parameters then n.parameters["capacity"] else 0.0
  }

  /** A single Crusher with capacity 1200, rating 500 and efficiency 87: every
      step's throughput lies in [984, 1104] and its power in [350, 500]. */
  lemma SingleCrusherStep(n: Node, d: Draw)
    requires HasSimulationKeys(n) && DrawInRange(d)
    requires n.parameters["capacity"] == 1200.0 && n.parameters["powerRating"] == 500.0
    requires n.parameters["efficiency"] == 87.0
    ensures 1200.0 * 0.82 <= EntryFor(n, d).throughput <= 1200.0 * 0.92
    ensures 500.0 * 0.7 <= EntryFor(n, d).powerConsumption <= 500.0
  {
  }

  /** The progress reported after step `k`. */
  function ProgressAfter(k: nat): real
  {
    (k + 1) as real / TotalSteps as real * 100.0
  }

  // ---------------------------------------------------------------------------
  // The page's state
  // ---------------------------------------------------------------------------

  function InitialEquipment(): seq<Node>
  {
    [ Node("EQUIP_001", "Primary Jaw Crusher", Crusher, "Iron Ore",
           Template(Crusher)["capacity" := 1200.0]["efficiency" := 87.0],
           Point(150.0, 200.0), ["EQUIP_002"], Active,
           Performance(1050.0, 445.0, 15.5, 3.4, 47.2, 87.5)),
      Node("EQUIP_002", "Primary Conveyor", Conveyor, "Iron Ore",
           Template(Conveyor)["capacity" := 1500.0]["beltSpeed" := 3.0],
           Point(400.0, 200.0), ["EQUIP_003"], Active,
           Performance(1050.0, 125.0, 8.2, 1.3, 32.8, 96.2)),
      Node("EQUIP_003", "Ball Mill", Mill, "Iron Ore",
           Template(Mill)["capacity" := 900.0]["efficiency" := 84.0],
           Point(650.0, 200.0), [], Active,
           Performance(850.0, 2100.0, 12.3, 2.9, 68.5, 84.2)) ]
  }

  const NoticeCap: nat := 5

  class SimulationTool {
    var equipment: seq<Node>
    var form: Form
    var dragged: Option<Drag>
    var results: seq<StepResult>
    var progress: real
    var running: bool
    var notifications: seq<Notice>

    /** Every node and the add form carry the parameters a run reads, and the
        notification list holds at most five entries. */
    ghost predicate Valid()
      reads this
    {
      (forall i :: 0 <= i < |equipment| ==> HasSimulationKeys(equipment[i]))
      && SimulationKeys <= form.parameters.Keys
      && |notifications| <= NoticeCap
    }

    constructor ()
      ensures Valid()
      ensures equipment == InitialEquipment() && form == BlankForm
      ensures dragged == None && results == [] && progress == 0.0 && !running && notifications == []
    {
      equipment := InitialEquipment();
      form := BlankForm;
      dragged := None;
      results := [];
      progress := 0.0;
      running := false;
      notifications := [];
    }

    method AddNotification(n: Notice)
      requires Valid()
      modifies this`notifications
      ensures Valid()
      ensures notifications == PushNewest(old(notifications), n, NoticeCap)
    {
      notifications := PushNewest(notifications, n, NoticeCap);
    }

    /** Choosing a type in the add form re-templates the whole parameter map. */
    method SelectFormType(t: EquipmentType)
      requires Valid()
      modifies this`form
      ensures Valid()
      ensures form == old(form).(kind := t, parameters := Template(t))
      ensures form.parameters.Keys == Template(t).Keys
    {
      form := form.(kind := t, parameters := Template(t));
    }

    method SetFormName(name: string)
      requires Valid()
      modifies this`form
      ensures Valid()
      ensures form == old(form).(name := name)
    {
      form := form.(name := name);
    }

    /** Editing one of the displayed form parameters (the inputs list exactly the form's keys). */
    method SetFormParameter(key: string, value: real)
      requires Valid() && key in form.parameters
      modifies this`form
      ensures Valid()
      ensures form == old(form).(parameters := old(form).parameters[key := value])
      ensures form.parameters.Keys == old(form).parameters.Keys
    {
      form := form.(parameters := form.parameters[key := value]);
    }

    /** A click on the Add button, as written: the callback it runs appends the node built from
        the captured blank form, resets the form and notifies. */
    method AddEquipment(id: string, noticeId: int)
      requires Valid()
      modifies this`equipment, this`form, this`notifications
      ensures Valid()
      ensures equipment == old(equipment) + [NewNode(CapturedForm, id)]
      ensures equipment[|equipment| - 1].name == "New Crusher" && equipment[|equipment| - 1].kind == Crusher
      ensures form == BlankForm
      ensures notifications == PushNewest(old(notifications),
        Notice(noticeId, "Added new equipment: New Crusher", "success"), NoticeCap)
    {
      AddIgnoresShownForm(form, id);
      var node := NewNode(CapturedForm, id);
      assert "Added new equipment: " + node.name == "Added new equipment: New Crusher";
      equipment := equipment + [node];
      form := BlankForm;
      AddNotification(Notice(noticeId, "Added new equipment: " + node.name, "success"));
    }

    /** `addEquipment` as intended: the node is built from the form the modal shows. */
    method AddEquipmentIntended(id: string, noticeId: int)
      requires Valid()
      modifies this`equipment, this`form, this`notifications
      ensures Valid()
      ensures equipment == old(equipment) + [NewNode(old(form), id)]
      ensures var n := equipment[|equipment| - 1];
        n.kind == old(form).kind && n.parameters == old(form).parameters && n.position == old(form).position
        && (old(form).name != "" ==> n.name == old(form).name)
      ensures form == BlankForm
      ensures notifications == PushNewest(old(notifications),
        Notice(noticeId, "Added new equipment: " + NewNode(old(form), id).name, "success"), NoticeCap)
    {
      var node := NewNode(form, id);
      equipment := equipment + [node];
      form := BlankForm;
      AddNotification(Notice(noticeId, "Added new equipment: " + node.name, "success"));
    }

    /** `updateEquipmentParameters`: shallow-merge `update` into the nodes with this id. */
    method UpdateParameters(id: string, update: Params, noticeId: int)
      requires Valid()
      modifies this`equipment, this`notifications
      ensures Valid()
      ensures equipment == MergeParameters(old(equipment), id, update)
      ensures notifications == PushNewest(old(notifications),
        Notice(noticeId, "Equipment parameters updated", "info"), NoticeCap)
    {
      equipment := MergeParameters(equipment, id, update);
      AddNotification(Notice(noticeId, "Equipment parameters updated", "info"));
    }

    /** `handleEquipmentMouseDown` on the j-th rendered node: record the grab offset. */
    method MouseDown(j: nat, pointer: Point, origin: Point)
      requires Valid() && j < |equipment|
      modifies this`dragged
      ensures Valid()
      ensures dragged == Some(Drag(equipment[j].id, GrabOffset(equipment[j], pointer, origin)))
    {
      dragged := Some(Drag(equipment[j].id, GrabOffset(equipment[j], pointer, origin)));
    }

    /** `handleMouseMove`: with a node grabbed, move exactly that node; otherwise nothing. */
    method MouseMove(pointer: Point, origin: Point)
      requires Valid()
      modifies this`equipment
      ensures Valid()
      ensures old(dragged).None? ==> equipment == old(equipment)
      ensures old(dragged).Some? ==>
        equipment == MoveDragged(old(equipment), dragged.value.id, DragTarget(dragged.value, pointer, origin))
    {
      if dragged.Some? {
        equipment := MoveDragged(equipment, dragged.value.id, DragTarget(dragged.value, pointer, origin));
      }
    }

    /** `handleMouseUp` (also bound to mouse leave): release the grab. */
    method MouseUp()
      requires Valid()
      modifies this`dragged
      ensures Valid() && dragged == None
    {
      dragged := None;
    }

    /** "Auto Layout": every node goes to (100 + 600 rx, 100 + 400 ry) for its own
        draws rx, ry in [0, 1); nothing else changes. */
    method AutoLayout(rx: seq<real>, ry: seq<real>)
      requires Valid()
      requires |rx| == |equipment| && |ry| == |equipment|
      requires forall i :: 0 <= i < |rx| ==> 0.0 <= rx[i] < 1.0 && 0.0 <= ry[i] < 1.0
      modifies this`equipment
      ensures Valid()
      ensures |equipment| == |old(equipment)|
      ensures forall i :: 0 <= i < |equipment| ==>
        equipment[i] == old(equipment)[i].(position := Point(100.0 + rx[i] * 600.0, 100.0 + ry[i] * 400.0))
      ensures forall i :: 0 <= i < |equipment| ==>
        100.0 <= equipment[i].position.x < 700.0 && 100.0 <= equipment[i].position.y < 500.0
    {
      var nodes := equipment;
      equipment := seq(|nodes|, i requires 0 <= i < |nodes| =>
        nodes[i].(position := Point(100.0 + rx[i] * 600.0, 100.0 + ry[i] * 400.0)));
    }

    /** `runSimulation`: 100 steps over the registry as it was when the run began,
        reporting progress after each step; the registry itself is not written. */
    method Run(draws: seq<seq<Draw>>, noticeId: int) returns (reported: seq<real>)
      requires Valid() && DrawsFit(equipment, draws)
      modifies this`results, this`progress, this`running, this`notifications
      ensures Valid()
      ensures equipment == old(equipment)
      ensures results == Steps(old(equipment), draws)
      ensures |reported| == TotalSteps
      ensures forall k :: 0 <= k < |reported| ==> reported[k] == ProgressAfter(k)
      ensures forall k :: 0 < k < |reported| ==> reported[k - 1] < reported[k]
      ensures reported[TotalSteps - 1] == 100.0 && progress == 100.0
      ensures !running
      ensures notifications == PushNewest(old(notifications),
        Notice(noticeId, "Simulation completed successfully!", "success"), NoticeCap)
    {
      running := true;
      progress := 0.0;
      var snapshot := equipment;
      var acc: seq<StepResult> := [];
      reported := [];
      for step := 0 to TotalSteps
        invariant equipment == snapshot && Valid()
        invariant notifications == old(notifications)
        invariant |acc| == step && |reported| == step
        invariant forall k :: 0 <= k < step ==> acc[k] == StepOf(snapshot, k, draws[k])
        invariant forall k :: 0 <= k < step ==> reported[k] == (k + 1) as real
        invariant step > 0 ==> progress == step as real
      {
        var entries := StepEntries(snapshot, draws[step]);
        acc := acc + [StepResult(step, entries, Metrics(entries))];
        progress := (step + 1) as real / TotalSteps as real * 100.0;
        reported := reported + [progress];
      }
      results := acc;
      running := false;
      AddNotification(Notice(noticeId, "Simulation completed successfully!", "success"));
    }
  }
}
