// Renewable energy systems: the per-system actions, the global optimization,
// the savings metrics with their caps, the real-time tick, the filtered view
// and the statistics panel.

module Renewable {
  import opened Common

  // ---------------------------------------------------------------------------
  // Systems
  // ---------------------------------------------------------------------------

  datatype Source = Solar | Wind | Battery | GridPower | Hybrid

  function SourceName(s: Source): string
  {
    match s
    case Solar => "Solar"
    case Wind => "Wind"
    case Battery => "Battery Storage"
    case GridPower => "Grid Power"
    case Hybrid => "Hybrid"
  }

  const Operational := "Operational"
  const AiOptimized := "AI-Optimized"
  const PeakPerformance := "Peak Performance"
  const MaintenanceScheduled := "Maintenance Scheduled"
  const ShutdownStatus := "Shutdown"
  const Upgraded := "Upgraded - Peak Performance"

  /** One energy system. `currentOutput` is `None` where the record has no such
      property (the battery bank's seed record); `currentLevel` is read only for batteries. */
  datatype System = System(
    id: string,
    name: string,
    kind: Source,
    zone: string,
    status: string,
    capacity: real,
    currentOutput: Option<real>,
    currentLevel: real,
    efficiency: real,
    carbonOffset: real,
    roi: real,
    energySavingsContribution: real,
    costSavingsDaily: real,
    alerts: seq<string>,
    lastMaintenance: string)

  function InitialSystems(): seq<System>
  {
    [ System("SOLAR_FARM_01", "Primary Solar Array", Solar, "Comminution Zone A", Operational,
             2800.0, Some(2420.0), 0.0, 92.3, 2150.0, 24.8, 8.5, 8500.0, [], "2025-09-15"),
      System("WIND_FARM_01", "Highland Wind Turbines", Wind, "Processing Plant", Operational,
             2100.0, Some(1789.0), 0.0, 85.2, 1520.0, 19.7, 4.2, 4200.0, [], "2025-08-20"),
      System("BATTERY_BANK_01", "Advanced Lithium Storage", Battery, "Comminution Zone B", Operational,
             6000.0, None, 5100.0, 96.8, 1200.0, 28.4, 1.8, 1800.0, [], "2025-10-01"),
      System("SOLAR_FARM_02", "Secondary Solar Grid", Solar, "Maintenance Facility", "Optimization in Progress",
             1400.0, Some(1190.0), 0.0, 85.0, 1010.0, 18.5, 0.3, 300.0,
             ["Performance optimization in progress"], "2025-10-05"),
      System("HYBRID_SYSTEM_01", "Smart Solar-Wind Hybrid", Hybrid, "Administrative Complex", PeakPerformance,
             950.0, Some(815.0), 0.0, 85.8, 692.0, 23.1, 0.2, 200.0, [], "2025-09-05") ]
  }

  // ---------------------------------------------------------------------------
  // Per-system actions
  // ---------------------------------------------------------------------------

  /** The two draws of an optimize action: the efficiency gain in [3, 8] and the
      savings contribution gain in [0.5, 1.5]. */
  datatype ActionDraws = ActionDraws(gain: real, contribution: real)

  predicate ActionDrawsInRange(w: ActionDraws)
  {
    3.0 <= w.gain <= 8.0 && 0.5 <= w.contribution <= 1.5
  }

  predicate MentionsEfficiency(alert: string)
  {
    Contains(alert, "efficiency")
  }

  function Optimize(s: System, w: ActionDraws): (t: System)
    ensures t.status == AiOptimized
    ensures t.efficiency <= 98.0
    ensures s.efficiency <= 98.0 && w.gain >= 0.0 ==> t.efficiency >= s.efficiency
    ensures forall a :: a in t.alerts <==> a in s.alerts && !MentionsEfficiency(a)
    ensures IsSubsequence(t.alerts, s.alerts)
    ensures t.capacity == s.capacity && t.currentOutput == s.currentOutput && t.roi == s.roi
  {
    var kept := Filter(s.alerts, (a: string) => !MentionsEfficiency(a));
    FilterIsSubsequence(s.alerts, (a: string) => !MentionsEfficiency(a));
    forall a ensures a in kept <==> a in s.alerts && !MentionsEfficiency(a) {
      FilterMembers(s.alerts, (a: string) => !MentionsEfficiency(a), a);
    }
    s.(efficiency := Min(98.0, s.efficiency + w.gain),
       status := AiOptimized,
       energySavingsContribution := s.energySavingsContribution + w.contribution,
       alerts := kept)
  }

  function Upgrade(s: System): (t: System)
    ensures t.efficiency <= 98.0
    ensures t.capacity == s.capacity * 1.1
    ensures s.capacity >= 0.0 ==> t.capacity >= s.capacity
    ensures t.roi == s.roi + 2.0
    ensures t.status == Upgraded
    ensures t.currentOutput == s.currentOutput && t.alerts == s.alerts
  {
    s.(efficiency := Min(98.0, s.efficiency + 5.0),
       capacity := s.capacity * 1.1,
       status := Upgraded,
       roi := s.roi + 2.0)
  }

  /** The system after `action`; an unknown action leaves it as it was. */
  function ApplyActionTo(s: System, action: string, w: ActionDraws, today: string): (t: System)
    ensures action == "maintenance" ==> t == s.(status := MaintenanceScheduled, lastMaintenance := today)
    ensures action == "shutdown" ==> t == s.(status := ShutdownStatus, currentOutput := Some(0.0))
    ensures action == "restart" ==> t == s.(status := Operational, currentOutput := Some(s.capacity * 0.8))
    ensures action !in {"optimize", "maintenance", "shutdown", "restart", "upgrade"} ==> t == s
    ensures t.id == s.id && t.kind == s.kind && t.zone == s.zone && t.name == s.name
  {
    if action == "optimize" then Optimize(s, w)
    else if action == "maintenance" then s.(status := MaintenanceScheduled, lastMaintenance := today)
    else if action == "shutdown" then s.(status := ShutdownStatus, currentOutput := Some(0.0))
    else if action == "restart" then s.(status := Operational, currentOutput := Some(s.capacity * 0.8))
    else if action == "upgrade" then Upgrade(s)
    else s
  }

  /** The action changes the system with the given id and no other.
      The contract is the frame `map` keeps: same length and order, every other system unchanged. */
  function ApplyAction(systems: seq<System>, id: string, action: string, w: ActionDraws, today: string): (r: seq<System>)
    ensures |r| == |systems|
    ensures forall i :: 0 <= i < |r| ==>
      r[i] == if systems[i].id == id then ApplyActionTo(systems[i], action, w, today) else systems[i]
  {
    seq(|systems|, i requires 0 <= i < |systems| =>
      if systems[i].id == id then ApplyActionTo(systems[i], action, w, today) else systems[i])
  }

  /** No action makes a capacity negative or lifts an efficiency cap already met. */
  lemma ActionKeepsBounds(s: System, action: string, w: ActionDraws, today: string)
    requires s.capacity >= 0.0 && s.efficiency <= 98.0
    ensures ApplyActionTo(s, action, w, today).capacity >= 0.0
    ensures ApplyActionTo(s, action, w, today).efficiency <= 98.0
  {
  }

  /** A restart brings the output back to 80% of capacity, after a shutdown as well. */
  lemma ShutdownThenRestart(s: System, w: ActionDraws, today: string)
    ensures ApplyActionTo(ApplyActionTo(s, "shutdown", w, today), "restart", w, today)
      == s.(status := Operational, currentOutput := Some(s.capacity * 0.8))
  {
  }

  /** An upgraded system leaves the operational count: its status is none of the counted ones. */
  lemma UpgradedNotOperational(s: System)
    ensures !IsOperational(Upgrade(s))
  {
  }

  const ProcessingDefault := "Processing request..."

  function ProcessingMessage(action: string): (m: string)
    ensures action !in {"optimize", "maintenance", "shutdown", "restart", "upgrade"} ==> m == ProcessingDefault
  {
    if action == "optimize" then "Optimizing energy output..."
    else if action == "maintenance" then "Scheduling maintenance..."
    else if action == "shutdown" then "Initiating shutdown procedure..."
    else if action == "restart" then "Restarting system..."
    else if action == "upgrade" then "Upgrading system efficiency..."
    else ProcessingDefault
  }

  /** The completion text; `reported` is the separately drawn figure the optimize message quotes. */
  function ActionMessage(id: string, action: string, reported: string): (m: string)
    ensures action !in {"optimize", "maintenance", "shutdown", "restart", "upgrade"} ==> m == ""
  {
    if action == "optimize" then id + " optimized! Efficiency improved by " + reported + "%"
    else if action == "maintenance" then "Maintenance scheduled for " + id
    else if action == "shutdown" then id + " shut down safely"
    else if action == "restart" then id + " restarted successfully"
    else if action == "upgrade" then id + " upgraded! Performance enhanced significantly"
    else ""
  }

  // ---------------------------------------------------------------------------
  // Global optimization
  // ---------------------------------------------------------------------------

  /** Per system: the efficiency gain in [2, 5] and the contribution gain in [0.3, 1.0]. */
  predicate GlobalDrawsInRange(w: ActionDraws)
  {
    2.0 <= w.gain <= 5.0 && 0.3 <= w.contribution <= 1.0
  }

  function GloballyOptimized(s: System, w: ActionDraws): (t: System)
    ensures t.efficiency <= 98.0
    ensures Contains(s.status, "Shutdown") ==> t.status == s.status
    ensures !Contains(s.status, "Shutdown") ==> t.status == AiOptimized
    ensures t == s.(efficiency := t.efficiency, energySavingsContribution := t.energySavingsContribution, status := t.status)
  {
    s.(efficiency := Min(98.0, s.efficiency + w.gain),
       energySavingsContribution := s.energySavingsContribution + w.contribution,
       status := if Contains(s.status, "Shutdown") then s.status else AiOptimized)
  }

  /** The global optimization's `map` over the systems, in order; `GloballyOptimized`'s contract
      carries the per-system properties. */
  function GlobalOptimization(systems: seq<System>, draws: seq<ActionDraws>): (r: seq<System>)
    requires |draws| == |systems|
    ensures |r| == |systems|
    ensures forall i :: 0 <= i < |r| ==> r[i] == GloballyOptimized(systems[i], draws[i])
  {
    seq(|systems|, i requires 0 <= i < |systems| => GloballyOptimized(systems[i], draws[i]))
  }

  /** The one shutdown status an action sets survives global optimization. */
  lemma GlobalSparesShutdown(s: System, w: ActionDraws)
    requires s.status == ShutdownStatus
    ensures GloballyOptimized(s, w).status == ShutdownStatus
  {
    assert OccursAt(s.status, "Shutdown", 0);
  }

  /** With draws in range, efficiency never falls below its old value while under the cap. */
  lemma GlobalRaisesEfficiency(s: System, w: ActionDraws)
    requires GlobalDrawsInRange(w) && s.efficiency <= 98.0
    ensures s.efficiency <= GloballyOptimized(s, w).efficiency <= 98.0
    ensures GloballyOptimized(s, w).energySavingsContribution > s.energySavingsContribution
  {
  }

  // ---------------------------------------------------------------------------
  // Savings metrics
  // ---------------------------------------------------------------------------

  datatype Metrics = Metrics(
    currentSavings: real,
    targetSavings: real,
    dailyCostSavings: real,
    annualProjection: real,
    carbonReduction: real,
    gridDependency: real,
    energyEfficiencyGain: real)

  const InitialMetrics := Metrics(14.2, 15.0, 23800.0, 8687000.0, 2847.0, 36.8, 89.4)

  /** The caps every metrics update enforces. */
  predicate MetricsValid(m: Metrics)
  {
    m.currentSavings <= 15.0 && m.energyEfficiencyGain <= 95.0 && m.gridDependency >= 35.0
  }

  /** The draws of a metrics tick: savings in [-0.1, 0.2], cost in [-500, 1000],
      grid dependency in [-0.3, 0.1], efficiency gain in [-0.2, 0.5]. */
  datatype MetricDraws = MetricDraws(savings: real, cost: real, grid: real, gain: real)

  predicate MetricDrawsInRange(w: MetricDraws)
  {
    -0.1 <= w.savings <= 0.2 && -500.0 <= w.cost <= 1000.0 && -0.3 <= w.grid <= 0.1 && -0.2 <= w.gain <= 0.5
  }

  function TickMetrics(m: Metrics, w: MetricDraws): (r: Metrics)
    ensures MetricsValid(r)
    ensures MetricDrawsInRange(w) ==> m.dailyCostSavings - 500.0 <= r.dailyCostSavings <= m.dailyCostSavings + 1000.0
    ensures MetricDrawsInRange(w) && m.currentSavings <= 15.0 ==> r.currentSavings <= m.currentSavings + 0.2
    ensures r.targetSavings == m.targetSavings && r.annualProjection == m.annualProjection
    ensures r.carbonReduction == m.carbonReduction
  {
    m.(currentSavings := Min(15.0, m.currentSavings + w.savings),
       dailyCostSavings := m.dailyCostSavings + w.cost,
       gridDependency := Max(35.0, m.gridDependency + w.grid),
       energyEfficiencyGain := Min(95.0, m.energyEfficiencyGain + w.gain))
  }

  /** After an optimize or upgrade action. */
  function BoostMetrics(m: Metrics): (r: Metrics)
    ensures MetricsValid(m) ==> MetricsValid(r)
    ensures r.dailyCostSavings == m.dailyCostSavings + 1200.0
    ensures m.currentSavings <= 15.0 ==> m.currentSavings <= r.currentSavings <= 15.0
    ensures r.gridDependency == m.gridDependency
  {
    m.(currentSavings := Min(15.0, m.currentSavings + 0.3),
       dailyCostSavings := m.dailyCostSavings + 1200.0,
       energyEfficiencyGain := Min(95.0, m.energyEfficiencyGain + 1.5))
  }

  /** After the global optimization. */
  function GlobalMetrics(m: Metrics): (r: Metrics)
    ensures MetricsValid(r)
    ensures r.dailyCostSavings == m.dailyCostSavings + 3500.0
    ensures m.gridDependency >= 35.0 ==> 35.0 <= r.gridDependency <= m.gridDependency
  {
    m.(currentSavings := Min(15.0, m.currentSavings + 1.2),
       dailyCostSavings := m.dailyCostSavings + 3500.0,
       energyEfficiencyGain := Min(95.0, m.energyEfficiencyGain + 3.5),
       gridDependency := Max(35.0, m.gridDependency - 1.5))
  }

  /** Savings saturate: from 13.8 % upward, one global optimization reaches the 15 % target. */
  lemma GlobalReachesTarget(m: Metrics)
    requires 13.8 <= m.currentSavings <= 15.0
    ensures GlobalMetrics(m).currentSavings == 15.0
  {
  }

  // ---------------------------------------------------------------------------
  // The real-time tick
  // ---------------------------------------------------------------------------

  /** One system's draws: `solarOutput` is the raw product capacity * sun * (0.8 + r * 0.2)
      (the clock-dependent sun factor is not modelled), `fraction` a `Math.random()` in [0, 1],
      `drift` the efficiency noise in [-1, 1], `charge` the battery change in [-30, 80]. */
  datatype TickDraws = TickDraws(solarOutput: real, fraction: real, drift: real, charge: real)

  predicate TickDrawsInRange(w: TickDraws)
  {
    0.0 <= w.fraction <= 1.0 && -1.0 <= w.drift <= 1.0 && -30.0 <= w.charge <= 80.0
  }

  function TickSystem(s: System, w: TickDraws): (t: System)
    ensures s.kind == Solar ==> 80.0 <= t.efficiency <= 98.0
    ensures s.kind == Wind ==> 75.0 <= t.efficiency <= 95.0
    ensures s.kind in {Solar, Wind, Hybrid} ==> t.currentOutput.Some? && t.currentOutput.value >= 0.0
    ensures s.kind == Battery && s.status == Operational ==>
      t.currentOutput.Some? && 0.0 <= t.currentOutput.value && (s.capacity >= 0.0 ==> t.currentOutput.value <= s.capacity)
    ensures s.kind == Battery && s.status != Operational ==> t == s
    ensures s.kind == GridPower ==> t == s
    ensures t.capacity == s.capacity && t.status == s.status && t.alerts == s.alerts && t.id == s.id
  {
    match s.kind
    case Solar =>
      s.(currentOutput := Some(Max(0.0, w.solarOutput)),
         efficiency := Clamp(s.efficiency + w.drift, 80.0, 98.0))
    case Wind =>
      s.(currentOutput := Some(Max(0.0, s.capacity * (0.4 + w.fraction * 0.6))),
         efficiency := Clamp(s.efficiency + w.drift, 75.0, 95.0))
    case Battery =>
      if s.status == Operational then
        s.(currentOutput := Some(Max(0.0, Min(s.capacity, s.currentLevel + w.charge))))
      else s
    case Hybrid =>
      s.(currentOutput := Some(Max(0.0, s.capacity * (0.7 + w.fraction * 0.3))))
    case GridPower => s
  }

  /** With a non-negative capacity and draws in range, wind output lies in [0.4, 1.0] * capacity. */
  lemma WindOutputBand(s: System, w: TickDraws)
    requires s.kind == Wind && s.capacity >= 0.0 && TickDrawsInRange(w)
    ensures s.capacity * 0.4 <= TickSystem(s, w).currentOutput.value <= s.capacity
  {
    var f := 0.4 + w.fraction * 0.6;
    assert 0.4 <= f <= 1.0;
    assert s.capacity * 1.0 == s.capacity;
    assert s.capacity * f <= s.capacity;
    assert Max(0.0, s.capacity * f) == s.capacity * f;
    assert s.capacity * 1.0 == s.capacity;
    assert TickSystem(s, w).currentOutput.value == Max(0.0, s.capacity * f);
  }

  /** The tick's `map` over the systems, in order; `TickSystem`'s contract carries the per-system bounds. */
  function TickAll(systems: seq<System>, draws: seq<TickDraws>): (r: seq<System>)
    requires |draws| == |systems|
    ensures |r| == |systems|
    ensures forall i :: 0 <= i < |r| ==> r[i] == TickSystem(systems[i], draws[i])
  {
    seq(|systems|, i requires 0 <= i < |systems| => TickSystem(systems[i], draws[i]))
  }

  // ---------------------------------------------------------------------------
  // The filtered view
  // ---------------------------------------------------------------------------

  predicate Matches(s: System, typeFilter: string, zoneFilter: string, term: string)
  {
    (typeFilter == "All" || SourceName(s.kind) == typeFilter)
    && (zoneFilter == "All" || s.zone == zoneFilter)
    && MatchesSearch(s.name, s.id, term)
  }

  /** The systems that match the type, zone and search filters, in their original order. */
  function FilteredData(systems: seq<System>, typeFilter: string, zoneFilter: string, term: string): (r: seq<System>)
    ensures IsSubsequence(r, systems)
    ensures forall i :: 0 <= i < |r| ==> Matches(r[i], typeFilter, zoneFilter, term)
  {
    var p := (s: System) => Matches(s, typeFilter, zoneFilter, term);
    FilterIsSubsequence(systems, p);
    Filter(systems, p)
  }

  /** The view holds exactly the matching systems. */
  lemma FilteredDataMembers(systems: seq<System>, typeFilter: string, zoneFilter: string, term: string, s: System)
    ensures s in FilteredData(systems, typeFilter, zoneFilter, term)
      <==> s in systems && Matches(s, typeFilter, zoneFilter, term)
  {
    FilterMembers(systems, (x: System) => Matches(x, typeFilter, zoneFilter, term), s);
  }

  /** With every filter at its default, the view is the whole list. */
  lemma FilteredDataAll(systems: seq<System>)
    ensures FilteredData(systems, "All", "All", "") == systems
  {
    forall i | 0 <= i < |systems|
      ensures Matches(systems[i], "All", "All", "")
    {
      EmptySearchMatchesAll(systems[i].name, systems[i].id);
    }
    FilterAll(systems, (x: System) => Matches(x, "All", "All", ""));
  }

  // ---------------------------------------------------------------------------
  // Statistics
  // ---------------------------------------------------------------------------

  /** JavaScript `+` over the outputs: a missing output makes the total NaN. */
  function TotalOutput(systems: seq<System>): (r: JsNumber)
    ensures r.Finite? || r == NaN
    ensures r.Finite? <==> forall i :: 0 <= i < |systems| ==> systems[i].currentOutput.Some?
    ensures r.Finite? ==> r.v == Sum(systems, OutputOrZero)
  {
    if systems == [] then Finite(0.0)
    else
      var rest := TotalOutput(systems[1..]);
      if systems[0].currentOutput.Some? && rest.Finite? then Finite(systems[0].currentOutput.value + rest.v)
      else NaN
  }

  function OutputOrZero(s: System): real
  {
    if s.currentOutput.Some? then s.currentOutput.value else 0.0
  }

  /** `total / (total + 800) * 100`. */
  function GridIndependence(total: JsNumber): (r: JsNumber)
    ensures total.Finite? && total.v >= 0.0 ==> r.Finite? && 0.0 <= r.v < 100.0
    ensures total == NaN ==> r == NaN
  {
    match total
    case Finite(t) =>
      var q := JsDivide(t, t + 800.0);
      if q.Finite? then
        (if t >= 0.0 then assert 0.0 <= q.v < 1.0 by { FractionBelowOne(t, q.v); } Finite(q.v * 100.0)
         else Finite(q.v * 100.0))
      else q
    case _ => NaN
  }

  lemma FractionBelowOne(t: real, q: real)
    requires t >= 0.0 && q * (t + 800.0) == t
    ensures 0.0 <= q < 1.0
  {
    var c := t + 800.0;
    ProductSigns(q, c);
    assert q * c == t;
  }

  lemma ProductSigns(q: real, c: real)
    requires c > 0.0
    ensures q < 0.0 ==> q * c < 0.0
    ensures q >= 1.0 ==> q * c >= c
  {
  }

  predicate IsOperational(s: System)
  {
    s.status == Operational || s.status == AiOptimized || s.status == PeakPerformance
  }

  datatype Stats = Stats(
    totalCapacity: real,
    totalOutput: JsNumber,
    avgEfficiency: JsNumber,
    totalCarbonOffset: real,
    totalEnergySavings: real,
    totalDailySavings: real,
    operationalSystems: nat,
    totalSystems: nat,
    gridIndependence: JsNumber)

  /** The statistics panel over a given total output. */
  function StatsWith(systems: seq<System>, total: JsNumber): (r: Stats)
    ensures r.totalSystems == |systems| && r.operationalSystems <= |systems|
    ensures r.avgEfficiency.Finite? <==> systems != []
    ensures r.totalOutput == total && r.gridIndependence == GridIndependence(total)
  {
    Stats(
      Sum(systems, (s: System) => s.capacity),
      total,
      JsDivide(Sum(systems, (s: System) => s.efficiency), |systems| as real),
      Sum(systems, (s: System) => s.carbonOffset),
      Sum(systems, (s: System) => s.energySavingsContribution),
      Sum(systems, (s: System) => s.costSavingsDaily),
      |Filter(systems, IsOperational)|,
      |systems|,
      GridIndependence(total))
  }

  /** `stats` as written: the output total is JavaScript `+` over the outputs. */
  function ComputeStats(systems: seq<System>): (r: Stats)
    ensures r.totalSystems == |systems| && r.operationalSystems <= |systems|
    ensures r.avgEfficiency.Finite? <==> systems != []
    ensures r.totalOutput.Finite? <==> forall i :: 0 <= i < |systems| ==> systems[i].currentOutput.Some?
  {
    StatsWith(systems, TotalOutput(systems))
  }

  /** `stats` with a missing output counted as 0 (`sum + (system.currentOutput || 0)`). */
  function ComputeStatsCorrected(systems: seq<System>): (r: Stats)
    ensures r.totalOutput.Finite?
  {
    StatsWith(systems, Finite(Sum(systems, OutputOrZero)))
  }

  /** With a non-negative output wherever one is present, the corrected panel always shows
      a grid independence in [0, 100). */
  lemma CorrectedStatsBounded(systems: seq<System>)
    requires forall i :: 0 <= i < |systems| && systems[i].currentOutput.Some? ==>
      systems[i].currentOutput.value >= 0.0
    ensures ComputeStatsCorrected(systems).gridIndependence.Finite?
    ensures 0.0 <= ComputeStatsCorrected(systems).gridIndependence.v < 100.0
  {
    SumNonNegative(systems, OutputOrZero);
  }

  /** Once every system reports an output, the corrected panel and the written one agree. */
  lemma CorrectedStatsAgree(systems: seq<System>)
    requires forall i :: 0 <= i < |systems| ==> systems[i].currentOutput.Some?
    ensures ComputeStatsCorrected(systems) == ComputeStats(systems)
  {
  }

  /** Once every output is present and non-negative, grid independence lies in [0, 100). */
  lemma GridIndependenceBounds(systems: seq<System>)
    requires forall i :: 0 <= i < |systems| ==>
      systems[i].currentOutput.Some? && systems[i].currentOutput.value >= 0.0
    ensures ComputeStats(systems).gridIndependence.Finite?
    ensures 0.0 <= ComputeStats(systems).gridIndependence.v < 100.0
  {
    SumNonNegative(systems, OutputOrZero);
  }

  /** The battery bank's seed record has no output, so the total output and grid
      independence read NaN until the first tick gives it one. */
  lemma InitialStatsNaN()
    ensures ComputeStats(InitialSystems()).totalOutput == NaN
    ensures ComputeStats(InitialSystems()).gridIndependence == NaN
  {
    assert InitialSystems()[2].currentOutput.None?;
  }

  /** A tick with every battery operational and every grid system reporting
      gives every system an output. */
  lemma TickFillsOutputs(systems: seq<System>, draws: seq<TickDraws>)
    requires |draws| == |systems|
    requires forall i :: 0 <= i < |systems| && systems[i].kind == Battery ==> systems[i].status == Operational
    requires forall i :: 0 <= i < |systems| && systems[i].kind == GridPower ==>
      systems[i].currentOutput.Some? && systems[i].currentOutput.value >= 0.0
    ensures forall i :: 0 <= i < |systems| ==>
      TickAll(systems, draws)[i].currentOutput.Some? && TickAll(systems, draws)[i].currentOutput.value >= 0.0
  {
  }

  // ---------------------------------------------------------------------------
  // The page state
  // ---------------------------------------------------------------------------

  const NoticeCap: nat := 10

  class RenewableCenter {
    var systems: seq<System>
    var metrics: Metrics
    var notifications: seq<Notice>

    /** Metrics within their caps, capacities non-negative, at most ten notices. */
    ghost predicate Valid()
      reads this
    {
      MetricsValid(metrics)
      && (forall i :: 0 <= i < |systems| ==> systems[i].capacity >= 0.0)
      && |notifications| <= NoticeCap
    }

    constructor ()
      ensures Valid()
      ensures systems == InitialSystems() && metrics == InitialMetrics && notifications == []
    {
      systems := InitialSystems();
      metrics := InitialMetrics;
      notifications := [];
    }

    /** `addNotification`: newest first, at most ten. */
    method AddNotification(n: Notice)
      requires Valid()
      modifies this`notifications
      ensures Valid()
      ensures notifications == PushNewest(old(notifications), n, NoticeCap)
    {
      notifications := PushNewest(notifications, n, NoticeCap);
    }

    /** The immediate half of `handleSystemAction`: announce the action. */
    method RequestAction(action: string, noticeId: int)
      requires Valid()
      modifies this`notifications
      ensures Valid()
      ensures notifications == PushNewest(old(notifications), Notice(noticeId, ProcessingMessage(action), "info"), NoticeCap)
    {
      AddNotification(Notice(noticeId, ProcessingMessage(action), "info"));
    }

    /** The delayed half: apply the action, boost the metrics after optimize or upgrade, report. */
    method CompleteAction(id: string, action: string, w: ActionDraws, today: string, reported: string, noticeId: int)
      requires Valid()
      modifies this`systems, this`metrics, this`notifications
      ensures Valid()
      ensures systems == ApplyAction(old(systems), id, action, w, today)
      ensures metrics == if action in {"optimize", "upgrade"} then BoostMetrics(old(metrics)) else old(metrics)
      ensures notifications == PushNewest(old(notifications),
        Notice(noticeId, ActionMessage(id, action, reported), "success"), NoticeCap)
    {
      forall i | 0 <= i < |systems|
        ensures ApplyActionTo(systems[i], action, w, today).capacity >= 0.0
      {
        if action == "upgrade" {
          assert systems[i].capacity * 1.1 >= 0.0;
        }
      }
      systems := ApplyAction(systems, id, action, w, today);
      if action == "optimize" || action == "upgrade" {
        metrics := BoostMetrics(metrics);
      }
      AddNotification(Notice(noticeId, ActionMessage(id, action, reported), "success"));
    }

    method StartGlobalOptimization(noticeId: int)
      requires Valid()
      modifies this`notifications
      ensures Valid()
      ensures notifications == PushNewest(old(notifications),
        Notice(noticeId, "Initiating global energy optimization across all systems...", "info"), NoticeCap)
    {
      AddNotification(Notice(noticeId, "Initiating global energy optimization across all systems...", "info"));
    }

    method CompleteGlobalOptimization(draws: seq<ActionDraws>, noticeId: int)
      requires Valid() && |draws| == |systems|
      modifies this`systems, this`metrics, this`notifications
      ensures Valid()
      ensures systems == GlobalOptimization(old(systems), draws)
      ensures metrics == GlobalMetrics(old(metrics))
      ensures notifications == PushNewest(old(notifications),
        Notice(noticeId, "Global optimization complete! Energy savings increased by 1.2%", "success"), NoticeCap)
    {
      systems := GlobalOptimization(systems, draws);
      metrics := GlobalMetrics(metrics);
      AddNotification(Notice(noticeId, "Global optimization complete! Energy savings increased by 1.2%", "success"));
    }

    /** One tick of the live feed: every system and the savings metrics. */
    method Tick(draws: seq<TickDraws>, m: MetricDraws)
      requires Valid() && |draws| == |systems|
      modifies this`systems, this`metrics
      ensures Valid()
      ensures systems == TickAll(old(systems), draws)
      ensures metrics == TickMetrics(old(metrics), m)
    {
      systems := TickAll(systems, draws);
      metrics := TickMetrics(metrics, m);
    }
  }
}
