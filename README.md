# Mining operations dashboard: a verified model of its page logic

The dashboard is a client-side web application for a mining site. Five of its
pages hold real logic behind the charts. This project models that logic in
Dafny and proves what each page promises its user:

- **Simulation tool** (`simulation.dfy`, module `Simulation`). A process
  designer keeps a registry of equipment nodes. Each type gets a parameter
  template, and only Crusher, Mill, Conveyor and Pump have templates of their
  own. An add form is shown, but its Add button appends a blank "New Crusher" whatever the form holds (see Findings); a parameter editor shallow-merges updates,
  and a drag controller moves one node at a time. A 100-step run samples every
  node per step and computes totals, the mean efficiency and the energy
  intensity. The intensity uses JavaScript division, so a zero throughput is
  an explicit case.
- **Predictive maintenance** (`maintenance.dfy`, module `Maintenance`).
  - Wear sets criticality at the 90 / 70 / 30 thresholds.
  - The 2-second tick clamps the readings and raises CRITICAL or HIGH alerts,
    but only for Operational assets.
  - Schedule, emergency shutdown and acknowledge update one asset.
    Acknowledge uses `String.replace`, which replaces only the first `ALERT`.
  - The asset view is filtered and ranked Critical first, with a stable
    sort. A statistics panel sits beside it.
- **IoT control centre** (`iot.dfy`, module `IoT`). Device states are maps
  to JavaScript values. The command switch rewrites these maps:
  - toggle, percentage and temperature set-points
  - presets: the first preset with the name is copied, property by property
  - emergency stop
  - pan/tilt and zoom

  Every command passes through a live command log of at most 10 entries, as
  Executing and then Completed. A 3-second tick drives the valve, motor and
  HVAC readings within their clamps.
- **Renewable energy** (`renewable.dfy`, module `Renewable`).
  - The per-system actions: optimize, maintenance, shutdown, restart and
    upgrade.
  - The global optimization and the savings metrics with their caps (15 %
    savings, 95 % efficiency gain, 35 % minimum grid dependency).
  - The 2.5-second tick per source type.
  - The filtered view and the statistics panel.
- **Energy-saving opportunities** (`energy.dfy`, module `Energy`).
  - A three-way filter with a key-selectable stable sort (roi, savings,
    payback ascending, CO2).
  - The filter summary's savings total.
  - The roadmap of unfinished opportunities ordered by priority.
  - The detail view's decision buttons.

`common.dfy` (module `Common`) holds what the pages share:

- JavaScript division with its Infinity and NaN outcomes
- clamping, sums and `Array.prototype.filter`
- an insertion sort that is the stable sort JavaScript engines perform for a
  key comparator, proved to be a permutation, sorted and stable
- the case-insensitive search box
- the newest-first notification list that keeps the first `cap` entries

Each page's mutable state (React `useState`) is a class whose methods are the
event handlers. A handler that finishes after a timer is split where the
intermediate state can be seen: the IoT command log shows "Executing" before
"Completed", and Renewable shows the processing notice before the result.
Every random draw, clock date and `Date.now()` id is a parameter of the
handler; where the page bounds a draw, a predicate states the bound.

## Model

| member | source | states |
|---|---|---|
| Common.JsDivide | src/pages/SimulationTool.tsx:431-434 | The quotient is finite exactly when the divisor is non-zero, and then it times the divisor gives the dividend. It is NaN exactly for 0/0. |
| Common.Filter | src/pages/Maintainance.tsx:320-325 | The kept elements all satisfy the predicate, and there are no more of them than in the input (a sub-multiset). |
| Common.FilterMembers | src/pages/Renewable.tsx:460-466 | An element is kept if and only if it is in the input and satisfies the predicate. |
| Common.FilterIsSubsequence | src/pages/Renewable.tsx:460-466 | Filtering keeps the input order. |
| Common.SortDesc | src/pages/Maintainance.tsx:327-330 | The result is a permutation of the input (same multiset) and has non-increasing keys. |
| Common.SortDescStable | src/pages/Energy.tsx:368-376 | Elements with equal keys keep their relative input order. |
| Common.SortDescConstantKey | src/pages/Energy.tsx:374 | A comparator that always returns 0 leaves the list exactly as it was. |
| Common.SumSortDesc | src/pages/Energy.tsx:609 | Sorting does not change a sum over the list. |
| Common.EmptySearchMatchesAll | src/pages/Maintainance.tsx:323-324 | An empty search term matches every name and id. |
| Common.SearchOwnName | src/pages/Renewable.tsx:464-465 | Every record matches a search for its own name. |
| Common.PushNewest | src/pages/Maintainance.tsx:258 | The new notice is first, the older ones follow in order, and the list is cut to the cap. |
| Simulation.Template | src/pages/SimulationTool.tsx:96-151 | Every template has the keys a run reads, with positive capacity and power rating. |
| Simulation.TemplateFallback | src/pages/SimulationTool.tsx:150 | The four types without a template of their own get exactly the Crusher template; the other three types differ from it. |
| Simulation.CrusherToMillKeys | src/pages/SimulationTool.tsx:717-724 | Re-templating from Crusher to Mill drops gapeSize and brings in millSpeed 75 and ballCharge 35. |
| Simulation.NewNode | src/pages/SimulationTool.tsx:448-465 | The new node is Inactive, with no connections and all-zero results. It takes the form's type, parameters and position. An empty name falls back to "New <type>". |
| Simulation.MergeParameters | src/pages/SimulationTool.tsx:486-494 | Nodes with the id get their old parameters overridden by the update, with new keys added; every other node is unchanged. |
| Simulation.GrabWithoutMove | src/pages/SimulationTool.tsx:499-517 | Moving to the pointer position of the mousedown gives back the node's own position. |
| Simulation.MoveDragged | src/pages/SimulationTool.tsx:510-525 | Only nodes with the dragged id change, and only their position. |
| Simulation.MoveToGrabPointIsIdentity | src/pages/SimulationTool.tsx:499-525 | A grab followed by a move to the same pointer leaves the registry unchanged. |
| Simulation.SampledEfficiency | src/pages/SimulationTool.tsx:406-408 | The sampled efficiency lies in [0, 100] and equals base + noise when that is already in range. |
| Simulation.ThroughputAt | src/pages/SimulationTool.tsx:410 | Throughput lies between 0 and the capacity, and is 0 at efficiency 0. |
| Simulation.PowerAt | src/pages/SimulationTool.tsx:411 | Power lies in [0.7, 1.0] times a non-negative rating. |
| Simulation.WearAt | src/pages/SimulationTool.tsx:420 | The sampled wear rate lies in [0.8, 1.3] times a non-negative base rate. |
| Simulation.EntryFor | src/pages/SimulationTool.tsx:404-422 | One node's sample: efficiency in [0, 100], throughput and power as above, and temperature, vibration and wear within their noise bands. |
| Simulation.StepEntries | src/pages/SimulationTool.tsx:404-422 | A step has one entry per node, in registry order. |
| Simulation.Steps | src/pages/SimulationTool.tsx:398-436 | A run has exactly 100 steps numbered 0..99, and each step has an entry for every node id in order. |
| Simulation.EnergyIntensityZeroCase | src/pages/SimulationTool.tsx:433-434 | The energy intensity is finite if and only if total throughput is non-zero; with zero throughput it is NaN or Infinity. |
| Simulation.AverageEfficiencyBounds | src/pages/SimulationTool.tsx:431 | The mean efficiency of a non-empty step lies in [0, 100]; for an empty registry it is NaN. |
| Simulation.StepTotalsBounds | src/pages/SimulationTool.tsx:429-430 | With non-negative ratings and capacities, total power lies in [0.7, 1.0] times the summed ratings, and total throughput between 0 and the summed capacities. |
| Simulation.SingleCrusherStep | src/pages/SimulationTool.tsx:405-411 | For the seed Crusher (1200 t/h, 500 kW, 87 %), throughput lies in [984, 1104] and power in [350, 500]. |
| Simulation.SimulationTool.constructor | src/pages/SimulationTool.tsx:239-258 | Starts with the seed registry, the blank Crusher form, no drag, no results and progress 0. |
| Simulation.SimulationTool.AddNotification | src/pages/SimulationTool.tsx:383-391 | Newest first, at most 5 notices. |
| Simulation.SimulationTool.SelectFormType | src/pages/SimulationTool.tsx:717-724 | The form's parameter map becomes exactly the new type's template. |
| Simulation.SimulationTool.SetFormName | src/pages/SimulationTool.tsx:700-705 | Only the form's name changes. |
| Simulation.SimulationTool.SetFormParameter | src/pages/SimulationTool.tsx:760-768 | One displayed parameter is overwritten, and the key set stays the same. |
| Simulation.AddIgnoresShownForm | src/pages/SimulationTool.tsx:683-794 | The node the Add button appends is a "New Crusher" with the Crusher template at (200, 300), and it differs from the node any named or non-Crusher form would build. |
| Simulation.SimulationTool.AddEquipment | src/pages/SimulationTool.tsx:447-483 | As written: appends exactly one node, built from the captured blank form, so its name is "New Crusher" and its type Crusher; resets the form and sends "Added new equipment: New Crusher". |
| Simulation.SimulationTool.AddEquipmentIntended | src/pages/SimulationTool.tsx:447-483 | As intended: appends exactly one node that carries the shown form's type, parameters, position and (when non-empty) name; resets the form and sends the notice with that name. |
| Simulation.SimulationTool.UpdateParameters | src/pages/SimulationTool.tsx:486-496 | The registry becomes the shallow merge and an info notice is sent. |
| Simulation.SimulationTool.MouseDown | src/pages/SimulationTool.tsx:499-508 | Records the grabbed node's id and its pointer offset. |
| Simulation.SimulationTool.MouseMove | src/pages/SimulationTool.tsx:510-525 | With no grab nothing changes. With a grab, only the grabbed node moves, to pointer − origin − offset. |
| Simulation.SimulationTool.MouseUp | src/pages/SimulationTool.tsx:527-529 | Releases the grab. |
| Simulation.SimulationTool.AutoLayout | src/pages/SimulationTool.tsx:595-606 | Every node moves into [100, 700) × [100, 500); nothing else about it changes. |
| Simulation.SimulationTool.Run | src/pages/SimulationTool.tsx:394-444 | The results are the 100 steps over the registry as it stood at the start. The reported progress strictly increases and ends at 100. The completion notice is sent. |
| Maintenance.GetCriticality | src/pages/Maintainance.tsx:34-46 | Critical iff wear ≥ 90, High iff 70 ≤ wear < 90, Medium iff 30 ≤ wear < 70, Low otherwise. |
| Maintenance.RankMonotone | src/pages/Maintainance.tsx:41-46 | More wear never gives a lower criticality rank. |
| Maintenance.InitialCriticality | src/pages/Maintainance.tsx:67-195 | The seed assets' criticalities agree with their wear. |
| Maintenance.NextStatus | src/pages/Maintainance.tsx:222-230 | The status changes only for an Operational asset: at wear ≥ 95 to the CRITICAL alert, at 85 ≤ wear < 95 to the HIGH alert. |
| Maintenance.RaisedAlert | src/pages/Maintainance.tsx:223-229 | A notice is raised exactly when the status changes, with kind critical or high to match. |
| Maintenance.TickAsset | src/pages/Maintainance.tsx:212-243 | Wear is capped at 100 and criticality recomputed from it. Efficiency, temperature, vibration and pressure are clamped to [70, 99], [50, 100], [1, 10] and [30, 70]. The status follows NextStatus. |
| Maintenance.TickWearMonotone | src/pages/Maintainance.tsx:214 | With non-negative wear noise, wear and criticality rank never go down. |
| Maintenance.TickAll | src/pages/Maintainance.tsx:212-245 | Every asset is ticked, in order. |
| Maintenance.Alerts | src/pages/Maintainance.tsx:223-229 | A tick raises at most one notice per asset. |
| Maintenance.AlertsStep | src/pages/Maintainance.tsx:223-229 | Ticking one more asset appends exactly that asset's notice, if it raises one, after the earlier ones: notices come out in asset order. |
| Maintenance.PushAll | src/pages/Maintainance.tsx:258 | Pushing several notices keeps the cap, puts the last one pushed first, and pushing none leaves the list unchanged. |
| Maintenance.PushAllStep | src/pages/Maintainance.tsx:258 | Pushing one more notice is pushing it onto the result of the earlier pushes. |
| Maintenance.QuietTick | src/pages/Maintainance.tsx:223-229 | A tick whose wear readings are all below 85 raises no notice. |
| Maintenance.UpdateWhere | src/pages/Maintainance.tsx:273-282 | Only assets with the id are transformed. |
| Maintenance.ScheduleAsset | src/pages/Maintainance.tsx:274-280 | Status becomes "Maintenance Scheduled" and wear becomes max(20, wear − 10), so at least 20 and never higher than before when wear ≥ 20. |
| Maintenance.ShutdownAsset | src/pages/Maintainance.tsx:291-292 | Only the status changes, to "EMERGENCY SHUTDOWN - Offline". |
| Maintenance.ReplaceFirstAbsent | src/pages/Maintainance.tsx:303 | Where the pattern does not occur, the replacement is the identity. |
| Maintenance.ReplaceFirstAt | src/pages/Maintainance.tsx:303 | The replacement happens at the first occurrence only. |
| Maintenance.AcknowledgeNoAlert | src/pages/Maintainance.tsx:303 | A status without "ALERT" is left as it is. |
| Maintenance.AcknowledgeIdempotent | src/pages/Maintainance.tsx:303 | A status with exactly one "ALERT" has none afterwards, so acknowledging twice equals acknowledging once. |
| Maintenance.AcknowledgeAsset | src/pages/Maintainance.tsx:301-305 | Only the status changes. |
| Maintenance.AcknowledgeAfter | src/pages/Maintainance.tsx:303 | `pre ALERT post` with no earlier alert becomes `pre ACKNOWLEDGED post`. |
| Maintenance.AcknowledgeCriticalAlert | src/pages/Maintainance.tsx:303 | A CRITICAL alert status acknowledges to "CRITICAL ACKNOWLEDGED - Immediate Action Required". |
| Maintenance.AcknowledgeHighAlert | src/pages/Maintainance.tsx:303 | A HIGH alert status acknowledges to "HIGH ACKNOWLEDGED - Schedule Maintenance". |
| Maintenance.ScheduleOnlyTarget | src/pages/Maintainance.tsx:271-282 | Scheduling changes only the target, which gets the scheduled status and wear ≥ 20. |
| Maintenance.ShutdownOnlyTarget | src/pages/Maintainance.tsx:288-295 | A shutdown changes only the target's status; wear and the other assets are unchanged. |
| Maintenance.FilteredData | src/pages/Maintainance.tsx:319-331 | Every shown asset matches the filters; ranks are non-increasing (Critical > High > Medium > Low); nothing is added. |
| Maintenance.FilteredDataMembers | src/pages/Maintainance.tsx:320-325 | An asset is shown if and only if it is in the registry and matches criticality, location and search. |
| Maintenance.FilteredDataStable | src/pages/Maintainance.tsx:326-330 | Assets of one criticality keep their registry order. |
| Maintenance.ComputeStats | src/pages/Maintainance.tsx:334-352 | The counts lie within the asset count. The averages are NaN exactly for an empty registry. |
| Maintenance.StatsCriticalHigh | src/pages/Maintainance.tsx:335-336 | Critical and high counts together never exceed the asset count. |
| Maintenance.StatsEfficiencyBounds | src/pages/Maintainance.tsx:338 | With every efficiency within the tick's clamp, the average is too. |
| Maintenance.MaintenanceBoard.constructor | src/pages/Maintainance.tsx:198-205 | Starts with the seed assets and no notices. |
| Maintenance.MaintenanceBoard.AddNotification | src/pages/Maintainance.tsx:251-264 | Newest first, at most 10 notices. |
| Maintenance.CollectAlerts | src/pages/Maintainance.tsx:223-229 | The loop over the assets leaves exactly the capped push of the tick's notices, in asset order, on the list, and at most 10 of them. |
| Maintenance.MaintenanceBoard.Tick | src/pages/Maintainance.tsx:210-248 | The assets become TickAll of the old ones. The raised notices are pushed one by one in asset order, keeping wear ≤ 100 and at most 10 notices. |
| Maintenance.MaintenanceBoard.ScheduleMaintenance | src/pages/Maintainance.tsx:267-286 | Schedules the target and sends "Maintenance scheduled for <id>" (info). |
| Maintenance.MaintenanceBoard.EmergencyShutdown | src/pages/Maintainance.tsx:288-297 | Shuts the target down and sends "EMERGENCY: <id> has been shut down" (critical). |
| Maintenance.MaintenanceBoard.AcknowledgeAlert | src/pages/Maintainance.tsx:299-308 | Acknowledges the target and sends "Alert acknowledged for <id>" (info). |
| Maintenance.MaintenanceBoard.StartDiagnostic | src/pages/Maintainance.tsx:310-316 | Changes no asset and sends "Diagnostic completed for <id>" (success). |
| IoT.Not | src/pages/IoTSensors.tsx:459-461 | `!v` is a boolean, true exactly when v is falsy. |
| IoT.PresetGet | src/pages/IoTSensors.tsx:473-478 | A preset property is found if and only if some entry has the key. |
| IoT.PresetGetLast | src/pages/IoTSensors.tsx:473-478 | A key's value is that of its last entry in the preset literal. |
| IoT.FindPreset | src/pages/IoTSensors.tsx:472 | A found preset is in the list and has the name; none is found exactly when no preset has the name. |
| IoT.FindPresetFirst | src/pages/IoTSensors.tsx:472 | When several presets share the name, the first one is found. |
| IoT.CopyPreset | src/pages/IoTSensors.tsx:473-478 | The state keeps its key set. A key the preset does not name, and `name` itself, are unchanged. Every other key the state has takes the preset's value for it. |
| IoT.CopyPresetDisjoint | src/pages/IoTSensors.tsx:473-478 | A preset sharing no property with the state leaves it unchanged. |
| IoT.CameraPresetsChangeNothing | src/pages/IoTSensors.tsx:275-279 | The camera's presets (pan, tilt, zoom) change nothing in its state (panAngle, tiltAngle, zoomLevel). |
| IoT.Toggle | src/pages/IoTSensors.tsx:458-461 | isOn, isRunning and isOpen are negated where present, and nothing else changes. |
| IoT.ToggleTwice | src/pages/IoTSensors.tsx:458-461 | Toggling twice restores a state whose toggled properties are booleans. |
| IoT.SetPercentage | src/pages/IoTSensors.tsx:463-466 | openingPercentage, speed and brightness take the value where present; nothing else changes. |
| IoT.SetIfPresent | src/pages/IoTSensors.tsx:468-469 | A key is written only when the state already has it. |
| IoT.EmergencyStop | src/pages/IoTSensors.tsx:481-484 | isRunning becomes false and speed 0, added if missing; other keys are unchanged. |
| IoT.CommandKeepsKeys | src/pages/IoTSensors.tsx:456-493 | Every command but the emergency stop keeps the state's key set. |
| IoT.UnknownPresetUnchanged | src/pages/IoTSensors.tsx:471-479 | Selecting a preset name no preset has leaves the state unchanged. |
| IoT.UnknownCommandUnchanged | src/pages/IoTSensors.tsx:456-493 | An unknown command leaves the state unchanged. |
| IoT.Executed | src/pages/IoTSensors.tsx:449-503 | The device gets the command's new state, status "Control Active" and last action "<command> executed"; the id, kind and presets are kept. |
| IoT.EmergencyStopOutcome | src/pages/IoTSensors.tsx:481-501 | After an emergency stop the device is stopped, but its status is "Control Active", not "Error". |
| IoT.ApplyCommand | src/pages/IoTSensors.tsx:449-505 | Only devices with the id are executed on; all others are unchanged. |
| IoT.FindPresetIn | src/pages/IoTSensors.tsx:472 | The search loop returns exactly the first preset with the name. |
| IoT.CopyPresetInto | src/pages/IoTSensors.tsx:473-478 | The property-by-property loop gives exactly CopyPreset's state. |
| IoT.ExecuteOn | src/pages/IoTSensors.tsx:451-503 | The statement-by-statement update gives exactly the Executed device. |
| IoT.MarkCompleted | src/pages/IoTSensors.tsx:507-513 | Entries with the id become Completed; the others and the order are unchanged. |
| IoT.IssueThenComplete | src/pages/IoTSensors.tsx:507-513 | A command with a fresh id, issued then completed, is first in the log and Completed. |
| IoT.TickState | src/pages/IoTSensors.tsx:394-416 | For a valve in Automatic mode, pressure is clamped to [3, 6]. For a running motor, temperature goes to [40, 80] and vibration to [1, 5]. For HVAC, humidity goes to [30, 70]. Other devices and modes are unchanged, and the key set is kept. |
| IoT.TickKeepsReady | src/pages/IoTSensors.tsx:394-416 | After a tick, every property the next tick reads is still a number. |
| IoT.HvacTowardTarget | src/pages/IoTSensors.tsx:411-413 | Without noise, the HVAC temperature moves a tenth of the way to the target. |
| IoT.TickAll | src/pages/IoTSensors.tsx:391-421 | Every device is ticked, in order. |
| IoT.ReadyIsTickReady | src/pages/IoTSensors.tsx:394-416 | A device whose tick-read properties all hold numbers can be ticked in any mode. |
| IoT.InitialDevicesReady | src/pages/IoTSensors.tsx:65-364 | Every seed device holds numbers in the properties its tick reads, and its presets write only numbers there. |
| IoT.SetPresetKeepsReady | src/pages/IoTSensors.tsx:471-480 | Selecting a preset keeps a device ready for the tick. |
| IoT.ExecutedKeepsReady | src/pages/IoTSensors.tsx:456-503 | Every completed command keeps a device ready for the tick, given a numeric temperature setting, which is what the temperature buttons send. |
| IoT.TickStateKeepsReady | src/pages/IoTSensors.tsx:394-416 | A tick keeps a ready device ready. |
| IoT.ZoomOutRequest | src/pages/IoTSensors.tsx:645 | The zoom-out request is never below 0.5. |
| IoT.ZoomInRequest | src/pages/IoTSensors.tsx:647 | The zoom-in request is never above 5. |
| IoT.ZoomStaysInRange | src/pages/IoTSensors.tsx:645-647 | From a zoom in [0.5, 5], both requests stay in [0.5, 5]; zoom-out never raises the level and zoom-in never lowers it. |
| IoT.ControlCenter.constructor | src/pages/IoTSensors.tsx:378-388 | Starts with the seed devices, all ready for the tick, an empty log and no notices. |
| IoT.ControlCenter.AddNotification | src/pages/IoTSensors.tsx:520-529 | Newest first, at most 5 notices. |
| IoT.ControlCenter.Issue | src/pages/IoTSensors.tsx:430-444 | The command is logged first as Executing (log capped at 10) and "Executing: <command> on device <id>" is sent. |
| IoT.ControlCenter.Complete | src/pages/IoTSensors.tsx:446-517 | The devices become ApplyCommand of the old ones, the log entry is marked Completed, and "Command completed: <command>" is sent. Devices that were ready for the tick stay ready, given a numeric temperature setting. |
| IoT.ControlCenter.Tick | src/pages/IoTSensors.tsx:389-424 | The devices become TickAll of the old ones; devices stay tickable, and ready devices stay ready. |
| Renewable.Optimize | src/pages/Renewable.tsx:355-362 | Status becomes AI-Optimized and efficiency ends ≤ 98; from an efficiency ≤ 98 and a non-negative gain it does not drop. Capacity, output and roi are kept. An alert is kept if and only if it does not mention "efficiency", and kept alerts stay in order. |
| Renewable.Upgrade | src/pages/Renewable.tsx:385-392 | Capacity is multiplied by 1.1, roi goes up by 2, efficiency stays ≤ 98, and the status becomes "Upgraded - Peak Performance". |
| Renewable.ApplyActionTo | src/pages/Renewable.tsx:354-396 | maintenance, shutdown (output 0) and restart (output 0.8 × capacity) set exactly their fields. An unknown action changes nothing, and the identity fields are kept. |
| Renewable.ApplyAction | src/pages/Renewable.tsx:350-398 | Systems with the id get the action; every other system is unchanged, and the list keeps its length and order. |
| Renewable.ShutdownThenRestart | src/pages/Renewable.tsx:371-383 | A restart after a shutdown gives Operational status at 80 % of capacity. |
| Renewable.UpgradedNotOperational | src/pages/Renewable.tsx:485-487 | An upgraded system drops out of the operational count. |
| Renewable.ProcessingMessage | src/pages/Renewable.tsx:338-347 | Any action outside the five known ones gets "Processing request...". |
| Renewable.ActionMessage | src/pages/Renewable.tsx:410-418 | Any action outside the five known ones gets an empty message. |
| Renewable.GloballyOptimized | src/pages/Renewable.tsx:437-442 | Efficiency stays ≤ 98. A status that contains "Shutdown" is kept; any other becomes AI-Optimized. Only efficiency, contribution and status change. |
| Renewable.GlobalOptimization | src/pages/Renewable.tsx:436-443 | Every system is globally optimized, in order. |
| Renewable.GlobalSparesShutdown | src/pages/Renewable.tsx:441 | A system shut down by its action stays "Shutdown". |
| Renewable.GlobalRaisesEfficiency | src/pages/Renewable.tsx:439-440 | With draws in range, efficiency does not drop and the savings contribution rises. |
| Renewable.TickMetrics | src/pages/Renewable.tsx:305-311 | After any tick the caps hold: savings ≤ 15, efficiency gain ≤ 95, grid dependency ≥ 35. With draws in range, daily savings move within [−500, +1000]. |
| Renewable.BoostMetrics | src/pages/Renewable.tsx:401-408 | The caps are preserved, daily savings rise by 1200, and savings do not drop. |
| Renewable.GlobalMetrics | src/pages/Renewable.tsx:445-451 | The caps hold, daily savings rise by 3500, and grid dependency falls but not below 35. |
| Renewable.GlobalReachesTarget | src/pages/Renewable.tsx:447 | From 13.8 % savings upward, one global optimization reaches the 15 % target. |
| Renewable.TickSystem | src/pages/Renewable.tsx:257-300 | Solar efficiency goes to [80, 98] and wind to [75, 95]. Solar, wind and hybrid get a non-negative output. An operational battery gets a non-negative output, at most its capacity; any other battery, or a grid system, is unchanged. |
| Renewable.WindOutputBand | src/pages/Renewable.tsx:274 | Wind output lies in [0.4, 1.0] × capacity. |
| Renewable.TickAll | src/pages/Renewable.tsx:256-302 | Every system is ticked, in order. |
| Renewable.TickFillsOutputs | src/pages/Renewable.tsx:258-295 | A tick with every battery operational and every grid system already reporting a non-negative output gives every system a non-negative output. |
| Renewable.FilteredData | src/pages/Renewable.tsx:459-467 | The view keeps the registry order, and every shown system matches type, zone and search. |
| Renewable.FilteredDataMembers | src/pages/Renewable.tsx:461-466 | A system is shown if and only if it is in the registry and matches. |
| Renewable.FilteredDataAll | src/pages/Renewable.tsx:461-466 | With the default filters the view is the whole registry. |
| Renewable.TotalOutput | src/pages/Renewable.tsx:472 | The total is finite if and only if every system has an output, and then it is their sum; otherwise it is NaN. |
| Renewable.GridIndependence | src/pages/Renewable.tsx:489 | For a non-negative total it lies in [0, 100); NaN stays NaN. |
| Renewable.ComputeStats | src/pages/Renewable.tsx:470-491 | Operational count ≤ system count, average efficiency finite if and only if there are systems, total output finite if and only if all outputs are present. |
| Renewable.GridIndependenceBounds | src/pages/Renewable.tsx:489 | With every output present and non-negative, grid independence lies in [0, 100). |
| Renewable.InitialStatsNaN | src/pages/Renewable.tsx:472 | The seed battery has no output, so total output and grid independence read NaN. |
| Renewable.ComputeStatsCorrected | src/pages/Renewable.tsx:472 | With a missing output counted as 0, the total output is always finite. |
| Renewable.CorrectedStatsBounded | src/pages/Renewable.tsx:489 | With the corrected total and every present output non-negative, grid independence is finite and lies in [0, 100). |
| Renewable.RenewableCenter.constructor | src/pages/Renewable.tsx:230-249 | Starts with the seed systems, the seed metrics and no notices. |
| Renewable.RenewableCenter.AddNotification | src/pages/Renewable.tsx:320-332 | Newest first, at most 10 notices. |
| Renewable.RenewableCenter.RequestAction | src/pages/Renewable.tsx:336-347 | Sends the action's processing notice (info). |
| Renewable.RenewableCenter.CompleteAction | src/pages/Renewable.tsx:349-420 | Applies the action to the target and boosts the metrics only for optimize or upgrade. Sends the success notice, keeping the caps and non-negative capacities. |
| Renewable.RenewableCenter.StartGlobalOptimization | src/pages/Renewable.tsx:431-433 | Sends the "Initiating global energy optimization" notice. |
| Renewable.RenewableCenter.CompleteGlobalOptimization | src/pages/Renewable.tsx:435-455 | Optimizes every system, applies the global metrics and sends the completion notice. |
| Renewable.RenewableCenter.Tick | src/pages/Renewable.tsx:254-314 | Ticks every system and the metrics, keeping the caps. |
| Energy.PriorityRank | src/pages/Energy.tsx:878 | Ranks run from 1 (Low) to 4 (Critical). |
| Energy.Filtered | src/pages/Energy.tsx:361-367 | Keeps the input order, and every kept opportunity matches each filter that is not "All". |
| Energy.FilteredOpportunities | src/pages/Energy.tsx:360-377 | A permutation of the filtered subset, ordered by the chosen key. |
| Energy.FilteredOpportunitiesMembers | src/pages/Energy.tsx:361-367 | An opportunity is listed if and only if it is in the data and matches category, status and priority. |
| Energy.AllFiltersKeepEverything | src/pages/Energy.tsx:361-367 | With all three filters at "All", every opportunity is listed once. |
| Energy.SortByRoi | src/pages/Energy.tsx:370 | Sorting by roi gives non-increasing roi. |
| Energy.SortBySavings | src/pages/Energy.tsx:371 | Sorting by savings gives non-increasing projected savings. |
| Energy.SortByPayback | src/pages/Energy.tsx:372 | Sorting by payback gives non-decreasing payback period. |
| Energy.SortByCo2 | src/pages/Energy.tsx:373 | Sorting by CO2 gives non-increasing CO2 reduction. |
| Energy.UnknownSortKeepsOrder | src/pages/Energy.tsx:374 | Any other sort option keeps the filtered order exactly. |
| Energy.SummaryTotalOfFiltered | src/pages/Energy.tsx:609 | The summary total equals the projected savings summed over the matching opportunities. |
| Energy.SummaryTotalBounded | src/pages/Energy.tsx:609 | With non-negative savings, the shown total lies between 0 and the total over all opportunities. |
| Energy.SubsequenceSum | src/pages/Energy.tsx:609 | Over non-negative savings, a subsequence's total lies between 0 and the whole list's total. |
| Energy.Roadmap | src/pages/Energy.tsx:875-880 | No Completed opportunity is listed, and priority ranks are non-increasing (Critical > High > Medium > Low). |
| Energy.RoadmapMembers | src/pages/Energy.tsx:876 | An opportunity is on the roadmap if and only if it is not Completed. |
| Energy.RoadmapStable | src/pages/Energy.tsx:877-880 | Opportunities of one priority keep their data order. |
| Energy.DecisionNotice | src/pages/Energy.tsx:761-779 | Approve sends a success notice, request analysis an info notice and defer a warning notice, each with the given id and ending with the opportunity's title. |
| Energy.OpportunityBoard.constructor | src/pages/Energy.tsx:338-346 | Starts with no selection, the modal closed and no notices. |
| Energy.OpportunityBoard.AddNotification | src/pages/Energy.tsx:349-357 | Newest first, at most 5 notices. |
| Energy.OpportunityBoard.OpenDetail | src/pages/Energy.tsx:619-622 | Selects the card and opens the modal. |
| Energy.OpportunityBoard.CloseDetail | src/pages/Energy.tsx:685-691 | Closes the modal. |
| Energy.OpportunityBoard.Decide | src/pages/Energy.tsx:757-782 | Sends the decision's notice and closes the modal. |

## Findings

| source | as written | input that shows it | evidently intended | confidence | as-written member | corrected member |
|---|---|---|---|---|---|---|
| src/pages/SimulationTool.tsx:785 | The add modal is `useCallback(..., [])` (lines 683-794), so its Add button keeps the first render's `addEquipment`, whose closure holds the initial blank form of lines 252-258 | Type "Ball Mill", choose Mill, click Add: the page appends "New Crusher" of type Crusher with the Crusher template at (200, 300) and announces "Added new equipment: New Crusher" | The node is built from the form the modal shows | medium, not executed | Simulation.AddIgnoresShownForm | Simulation.SimulationTool.AddEquipmentIntended |
| src/pages/Renewable.tsx:472 | `sum + system.currentOutput` adds `undefined` for the battery bank, whose seed record (lines 144-150) has `currentLevel` but no `currentOutput` | The seed systems, before the first tick: total output and grid independence are NaN and the panel shows "NaN" | A missing output counts as 0, so the panel shows numbers from the start | medium, not executed | Renewable.InitialStatsNaN | Renewable.CorrectedStatsBounded |

The as-written statistics stay in the model as `Renewable.ComputeStats`.
`Renewable.ComputeStatsCorrected` is the corrected version: it counts a
missing output as 0, and `Renewable.CorrectedStatsAgree` shows that the two
agree once every system reports an output. `Simulation.SimulationTool.AddEquipment` models
the Add button as written; `Simulation.SimulationTool.AddEquipmentIntended` builds the node
from the shown form.

## Left out

- JavaScript numbers are IEEE doubles; the model computes with exact reals, so floating-point rounding is not modelled (for example, the run's progress at step 6 is exactly 7 here, where the source computes 7.000000000000001, and `capacity * 1.1` and `getRandomFloat`'s two-decimal rounding are exact). The min/max clamps and caps do not depend on it.
- Canvas drawing, chart datasets, styles, `toFixed`/`toLocaleString` formatting and audio playback: these are presentation only.
- Timers, `await` delays and the loading flags: each handler is modelled by the state it leaves behind. A handler is split in two only where its intermediate state can be seen (the IoT command log, the Renewable processing notice).
- No single-flight guard exists in the source, so none is modelled or proved: Run can start again while a run is in progress.
- Random draws, clock dates and `Date.now()` ids are parameters. Predicates state their bounds where the source bounds them; ids are not proved unique.
- The solar output's sine-of-hour factor is left out. A solar tick takes the raw product as a parameter, and only its `max(0, …)` bound is modelled.
- Maintenance.TickAsset: the source adds `getRandomFloat`'s string result to the readings, so the addition is string concatenation. The model takes the next readings as numbers and keeps the clamps, the wear cap, the reclassification and the status rules.
- Maintenance.ComputeStats: the averages are the exact quotients; the one-decimal `toFixed` strings are not modelled.
- IoT.TickState: the tick requires the properties it reads to hold numbers. With missing or non-numeric properties the source computes NaN, which this model does not represent.
- IoT.Not: NaN is not a value of the model, so its falsiness is not covered.
- Notification texts drop their emoji prefixes. Notices keep the message and kind, not the formatted timestamp.
- Renewable.ActionMessage: an unknown action's message is `undefined` in the source; the model uses the empty string. The optimize message's percentage is a separate draw from the applied gain, so it is a string parameter.
- Renewable's and Maintenance's historical series, operating hours and cost fields only feed charts, so they are not part of the records.
- Search is case-insensitive for ASCII letters only; `toLowerCase`'s full Unicode case mapping is not modelled.
- Energy priorities are a four-valued type. A priority outside the lookup table would make the roadmap comparator return NaN; the seed data has none.
- The parameter editor's `parseFloat(...) || 0` is not modelled: edits arrive as numbers.
