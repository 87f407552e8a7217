# SmartOS system monitor — a Dafny model

SmartOS is a Home Assistant integration. Its one component with real logic is
`SystemMonitorService`. The service has a monitoring flag and a slot for the last
stats dictionary, which is `{}` until the first successful collection.
`start_monitoring` sets the flag and launches a loop task, but only when the service
is stopped. `stop_monitoring` clears the flag. The loop runs `while` the flag is set:
- It collects a stats snapshot.
- It stores that snapshot.
- It fires a `smartos_system_stats` event on the Home Assistant bus.
- It sleeps 30 seconds.
- If anything in that pass raises, it sleeps 60 seconds instead.

`get_last_stats` hands out a top-level copy of the stored dictionary.

The project has three modules:

- `Stats` (stats.dfy) holds the snapshot record and the nested dictionary the
  collector builds from it (`ToDict`). It also has the inverse, `FromDict`, which
  reads such a dictionary back and rejects everything else, including `{}`. `Collect`
  is the shape-and-count part of `_collect_system_stats`: the psutil readings and the
  timestamp are opaque inputs, and each Home Assistant figure is the size of a
  collection.
- `MonitorSpec` (monitor_spec.dfy) is the lifecycle as a pure state machine. The
  state holds the flag, the stored dictionary, a log of fired event payloads, a log
  of wait durations and the number of loop tasks launched. A loop task is driven by
  a finite sequence of rounds. A round is the outcome of one iteration together with
  the `stop_monitoring`/`start_monitoring` calls that other coroutines make while that
  iteration is in flight. An outcome is one of three things:
  - the collector raised;
  - the collector returned a snapshot and the fire succeeded;
  - the collector returned a snapshot and the fire raised.

  Reference definitions (`LastStored`, `Published`, `Waits`) say independently what
  the loop's effects must be. The lemmas connect `Run` to them.
- `SystemMonitor` (system_monitor.dfy) is the class `SystemMonitorService`. Its fields
  are updated in place by `StartMonitoring`, `StopMonitoring`, `RunIteration` and
  `MonitorLoop`, and each method is proved against `MonitorSpec`. The count of
  launched tasks is a ghost field. `Valid()` is the specification's invariant:
  - the stored dictionary is `{}` or a complete snapshot;
  - every fired payload is a complete snapshot;
  - every wait is 30 or 60 seconds;
  - there are never more events than waits;
  - a monitoring service has launched a task;
  - nothing is stored, fired or waited before the first launch.

## Model

| member | source | states |
|---|---|---|
| Stats.ToDict | core/backend/services/system_monitor.py:86-104 | a collected stats dictionary has exactly the six top-level keys timestamp, cpu_percent, memory, disk, network, homeassistant |
| Stats.DictRoundTrip | core/backend/services/system_monitor.py:86-104 | decoding a dictionary gives snapshot s if and only if the dictionary is the one the collector builds for s (the encoding is lossless, and only collector-shaped dictionaries decode) |
| Stats.NoSnapshotIsEmpty | core/backend/services/system_monitor.py:86-104 | no collected dictionary is `{}` |
| Stats.EmptyIsNoSnapshot | core/backend/services/system_monitor.py:19 | `{}` decodes to no snapshot, so the initial empty stats can never be mistaken for collected data |
| Stats.DecodableCountsNonNegative | core/backend/services/system_monitor.py:80-84 | every dictionary of the collector's shape holds only non-negative integer counts under `homeassistant` |
| Stats.Collect | core/backend/services/system_monitor.py:80-104 | the collected dictionary decodes to the given readings and timestamp, with config_entries, states and services equal to the number of config entries, states and service domains (sizes, hence natural numbers) |
| MonitorSpec.InitInv | core/backend/services/system_monitor.py:15-19 | a new service is not monitoring, stores `{}`, has launched no task and satisfies the invariant |
| MonitorSpec.StartWhileRunning | core/backend/services/system_monitor.py:21-24 | starting while monitoring changes no state and launches no task |
| MonitorSpec.StartWhileStopped | core/backend/services/system_monitor.py:26-30 | starting while stopped sets the flag, launches exactly one task and changes nothing else |
| MonitorSpec.StartIdempotent | core/backend/services/system_monitor.py:21-30 | starting twice is the same as starting once |
| MonitorSpec.StopAlwaysStops | core/backend/services/system_monitor.py:32-35 | stopping leaves the flag false whatever it was, touches nothing else, and stopping twice is stopping once |
| MonitorSpec.ControlsEffect | core/backend/services/system_monitor.py:21-35 | any sequence of start/stop calls changes only the flag and the task count, never lowers the count, and leaves the flag as the last call set it |
| MonitorSpec.ControlsWithoutStop | core/backend/services/system_monitor.py:21-30 | on a running service, start calls without a stop change nothing |
| MonitorSpec.IterateSucceeds | core/backend/services/system_monitor.py:42-51 | a pass whose collection and fire succeed stores exactly the collected stats, appends exactly them to the event log, records a 30 s wait and changes nothing else |
| MonitorSpec.IterateCollectFails | core/backend/services/system_monitor.py:40-55 | a pass whose collection raises only appends a 60 s wait: stats, events, flag and task count are unchanged |
| MonitorSpec.IterateFireFails | core/backend/services/system_monitor.py:45-55 | a pass whose fire raises stores the new stats (the store runs first) and appends a 60 s wait; events, flag and task count are unchanged |
| MonitorSpec.IterateInv | core/backend/services/system_monitor.py:40-55 | one pass from a monitoring state keeps the invariant, the flag and the task count |
| MonitorSpec.ControlsInv | core/backend/services/system_monitor.py:21-35 | start/stop calls keep the invariant |
| MonitorSpec.RunInv | core/backend/services/system_monitor.py:37-55 | the loop keeps the invariant |
| MonitorSpec.ExecutedPrefix | core/backend/services/system_monitor.py:39-55 | the passes that run are the first rounds in order, and a loop that finds the flag clear runs none and changes nothing |
| MonitorSpec.RunWithoutStop | core/backend/services/system_monitor.py:39-55 | with no stop call, every round runs and the service is still monitoring: failures never end the loop |
| MonitorSpec.StopEndsLoop | core/backend/services/system_monitor.py:32-55 | after a stop that lands in round k and is not followed by a start, at most k+1 passes run and the later rounds have no effect; the current pass finishes |
| MonitorSpec.RunStoredStats | core/backend/services/system_monitor.py:39-55 | after the loop, the stored stats are those of the last successful collection among the passes run, or the earlier stats if every collection failed |
| MonitorSpec.RunEvents | core/backend/services/system_monitor.py:39-55 | the fired events are exactly the snapshots of passes whose collection and fire both succeeded, in order |
| MonitorSpec.RunSleeps | core/backend/services/system_monitor.py:39-55 | each pass run records exactly one wait: 30 s after a full success, 60 s otherwise |
| MonitorSpec.WaitsMatchPublished | core/backend/services/system_monitor.py:42-55 | over any sequence of passes, the number of 30 s waits equals the number of published events: the normal wait follows exactly the passes whose fire succeeded |
| MonitorSpec.RunNormalWaitsMatchEvents | core/backend/services/system_monitor.py:39-55 | over any run of the loop, the 30 s waits added are exactly as many as the events fired |
| MonitorSpec.ReachableCountsNonNegative | core/backend/services/system_monitor.py:45-48 | in every reachable state, the stored stats (when not `{}`) and every fired payload carry only non-negative counts |
| MonitorSpec.EmptyUntilFirstSuccess | core/backend/services/system_monitor.py:19-55 | starting from `{}`, the stored stats stay `{}` exactly as long as every collection run has failed |
| MonitorSpec.StopThenStartKeepsOldLoop | core/backend/services/system_monitor.py:21-39 | a stop and a start that both land during one pass leave the old loop running its next pass while a second task has been launched |
| SystemMonitor.SystemMonitorService.constructor | core/backend/services/system_monitor.py:15-19 | a new service is not monitoring, stores `{}`, has empty logs and no launched task |
| SystemMonitor.SystemMonitorService.StartMonitoring | core/backend/services/system_monitor.py:21-30 | while monitoring nothing changes; while stopped the flag is set and one task is launched; the stats and logs never change |
| SystemMonitor.SystemMonitorService.StopMonitoring | core/backend/services/system_monitor.py:32-35 | the flag is false afterwards and nothing else changes |
| SystemMonitor.SystemMonitorService.RunIteration | core/backend/services/system_monitor.py:40-55 | the three outcomes of one pass as in the Iterate lemmas, written on the fields; the flag and task count are untouched |
| SystemMonitor.SystemMonitorService.MonitorLoop | core/backend/services/system_monitor.py:37-55 | the loop leaves the service in the state `Run` gives, keeps the invariant and reports how many passes ran |
| SystemMonitor.SystemMonitorService.GetLastStats | core/backend/services/system_monitor.py:106-108 | the result equals the stored stats and is either `{}` or a complete snapshot dictionary with non-negative counts |
| SystemMonitor.CollectOnceThenStop | core/backend/services/system_monitor.py:15-108 | a service started twice, whose one pass succeeds before a stop, hands out exactly the collected snapshot after exactly one pass, having fired exactly that dictionary once |

## Left out

- psutil reads (`cpu_percent(interval=1)`, `virtual_memory`, `disk_usage`, `net_io_counters`, lines 60-77) are foreign I/O. Their values enter as the opaque `Readings` of a snapshot.
- Byte-to-GB/MB division and `round(..., 2)` (lines 65-101) are floating-point presentation. The model carries the resulting numbers as `real` values and proves no bounds on them. The source only passes through what psutil reports, so "used ≤ total" and "percent in [0, 100]" are not promised by the code.
- `datetime.utcnow().isoformat()` (line 87) is a clock read. It is an opaque string parameter.
- The Home Assistant registries are reduced to their sizes. `Collect` takes the config entries and states as sequences and the service registry as a map from domain to service names. `len` of that map counts domains.
- Collection failure is one outcome, `CollectFail`. The model does not say which sub-read raised. No partial dictionary is ever stored, because the store happens only after the collector returns.
- Asyncio scheduling is not modelled. `hass.async_create_task` becomes a ghost count of launched tasks, and `asyncio.sleep` becomes an entry in the wait log. Concurrency is reduced to lifecycle calls landing between the start of one pass and the flag test before the next. The model runs one loop task at a time, so it makes no claim that there are no duplicate loops across a stop/start pair. `StopThenStartKeepsOldLoop` shows how two tasks can come to be launched while the old one keeps running.
- Task cancellation (`CancelledError` raised inside a sleep) is not modelled. Nothing in the service cancels its task.
- `hass.bus.async_fire` becomes an append of the payload to the event log, or a failure. The event name `smartos_system_stats` is fixed and is not recorded.
- Logging calls (lines 27, 35, 54) are not modelled.
- Python dictionaries are references; Dafny maps are values. A successful pass stores the collected `stats` object (line 45) and fires that same object (line 48), so the stored stats and the event payload are one dictionary. `get_last_stats` returns a shallow copy: changing the copy's top-level keys leaves the stored stats alone, which the model gives for free, but the nested `memory`/`disk`/`network`/`homeassistant` dictionaries stay shared with the stored stats and the fired payload. The model does not capture this aliasing.
- The loop has no flag test before its wait and no early exit: every pass ends in its full wait, and the flag is tested only at the top of the loop (line 39).
- Before the first successful collection `get_last_stats` returns `{}`, not a distinct "not available" value. `FromDict` maps `{}` to `None`, and `NoSnapshotIsEmpty` with `EmptyIsNoSnapshot` show that `{}` cannot be confused with data.
- Events go to the global Home Assistant bus; delivery to individual listeners is not modelled.
- core/backend/api/routes.py, core/backend/api/websocket.py and core/backend/integrations/smartos/__init__.py are not part of this model. They register routes and websocket commands, return constant or near-constant JSON, and copy config-entry fields. The package `__init__.py` files only re-export. The `device_manager` module that core/backend/services/__init__.py imports is not part of this model.
- MonitorLoop: the model runs a finite prefix of the loop, given as a finite sequence of rounds. The source loop runs forever while the flag stays set.
