# Citadel node agent: verified protocols

A Dafny model of the stateful parts of the Citadel CLI, the agent that runs on a node of a private mesh:
its self-healing VPN listeners, its gateway exposures and routes, the life of its service modules, and
the loops behind `connect`, `chat`, shutdown and the MCP bridge. External calls (tsnet, docker, git, the
disk, the operator) are answers that come in from outside, every combination of them allowed.

`dafny verify dfyconfig.toml` checks the whole project.

| file | what it holds |
|---|---|
| `VpnListeners`, `VpnInvariant`, `VpnTheorems` | terminal, VNC and H.264 servers, their VPN listeners, stops, starts and the supervisor as interleaved threads; the invariant of every step; what holds of every run |
| `VpnServed`, `VpnPort` | whether the tracked listener belongs to the published server; flags and ports stored too late |
| `ControlCenter` | the same code as methods over mutable fields, each method proved to be a run of one of those threads |
| `VpnWitnesses` | schedules from the start of the control center to the states where a promise fails |
| `Exposures`, `ExposureRuns` | live exposures against the store file, over runs with failing disks and restarts |
| `RegistryWatcher` | module routes that follow a registry file several processes write |
| `Manifest`, `ModuleConfig`, `Node`, `ModuleOps`, `UpdateOps`, `ModuleTheorems` | the node manifest; the env file of a module; module operations as sequences of atomic effects; what holds of them across failures, crashes and boots |
| `ModuleOutcomes` | when a stop, start, run, install or uninstall succeeds, and what is then up, marked and listed |
| `LiveModuleOps` | the same operations as methods that change the node one write at a time |
| `Reconcile`, `Convergence` | the plan from installed to assigned, its application, and what is left to plan afterwards |
| `ModuleUpdate`, `UpdateOutcomes` | `citadel module update` and its rollback, and what they leave of a module |
| `ConnectDispatch`, `Shutdown`, `ChatLister`, `ChatLoop`, `SseScanner`, `ByteUnits` | the smaller loops |
| `Prelude`, `Text` | options, results and the string operations the code leans on |

Operations with several effects are modelled so that a crash can fall between any two of them. Where the
source runs threads, every load, store or call another thread can observe is one step.

## Where the code departs from what it promises

Each of these is proved: a condition that holds if and only if the promise does, or a run that breaks it.

- A VPN listener that was closed on purpose can still be recorded dead, exactly when its accept loop had
  already passed its check of the closed flag (`VpnTheorems.ClosedBecomesDead`; a run that gets there:
  `VpnWitnesses.DeadAfterClose`).
- If a start overtakes a VNC stop before its port clear, a healthy supervisor tick leaves a desktop
  reachable over an open listener with no advertised port (`VpnWitnesses.OvertakenStop`).
- A listener that dies during a tick, after the supervisor has checked its service, is not healed by that
  tick and its port stays advertised (`VpnTheorems.LateMarkBreaks`, `VpnWitnesses.LateMark`). Neither is a
  service whose start stores its flag after that check (`VpnPort.LateFlagBreaks`, `VpnWitnesses.LateFlag`).
- The VNC port can be advertised again after a stop has cleared it, exactly when an attach stands past its
  load of the running flag at the clear (`VpnPort.PortResurfacesIff`); a stop can then return with the port
  still up (`VpnWitnesses.PortOutlivesStop`).
- An attach loads the server pointer before the running flag, so a stop and a restart around the two loads
  strand its listener on the stopped server; two overlapping starts do the same
  (`VpnWitnesses.StaleServer`, `VpnWitnesses.OverlappingStarts`; nothing else does:
  `VpnServed.TrackedIsServed`).
- `DeleteExposure` reports success when the store cannot be read, so a revoked name comes back with the
  next restart (`ExposureRuns.UnexposeSticksIff`).
- `SaveExposure` starts a fresh store when it cannot read the old one, dropping every other record
  (`ExposureRuns.OrphanOrigin`, `ExposureRuns.SaveOrphansAnother`).
- The registry watcher misses a record another process puts back to the port the watcher remembers
  (`RegistryWatcher.OutsideWriteConvergesIff`, `RegistryWatcher.PutBackIsMissed`).
- If the registry cannot be read at startup but can be read by the watcher's seed, the watcher takes for
  wired what is not, and no number of ticks repairs it while nobody writes or wires that entry
  (`RegistryWatcher.SeedIff`, `RegistryWatcher.SeedHidesUnwired`).
- `Uninstall` takes any failure to read the manifest for "nothing installed" and reports success
  (`ModuleTheorems.UninstallRemovesIff`). An update in place inherits that: a module that carried the
  stopped marker can be listed as stopped after a successful install (`ModuleTheorems.InstallIsListed`,
  `ModuleTheorems.InstalledButStopped`).
- `findOrCreateManifest` takes any failure to read the manifest or the global config for a missing manifest
  and starts an empty one in ~/citadel-node. One such read costs every other module its entry and its stopped
  marker, also when the install goes on to succeed or gives up right after (`ModuleTheorems.OthersUntouched`,
  `ModuleTheorems.FailedUpdateKeepsAll`, `ModuleTheorems.InstallIsListed`,
  `ModuleTheorems.InstallLosesAnother`). A reconcile pass can then report no failure and still leave modules
  to install (`Convergence.PassConverges`). Where the node's directory was another one, its files are out of
  sight (`ModuleUpdate.CommandKeepsSync`) and generated secrets are minted anew
  (`ModuleTheorems.SecretsSurvive`).
- `ListInstalled` goes on without the lockfile when it cannot be read, so modules that match their
  assignments are reinstalled (`Convergence.LostLockDriftsIff`).
- The lockfile records the trimmed source while the diff compares the assigned one, so an assignment with
  surrounding blanks is reinstalled on every pass (`Convergence.ModuleConverges`); a module that resolves
  to another name than its key never satisfies its assignment (`Convergence.InstallConvergesIff`).
- `citadel module update` drops the assigned config from the lockfile, so the next reconcile reinstalls
  every updated module that has one (`ModuleUpdate.UpdateDriftsIff`).
- `citadel module update` rewrites the env file without what was assigned: an assigned variable falls back to
  its default (`UpdateOutcomes.AssignedKeptIff`). Generated secrets stay
  (`UpdateOutcomes.SecretsOutliveUpdate`).
- A module whose new version has no variable with a value keeps the env file of the old one, where the
  uninstall did not remove it (`ModuleTheorems.NothingElse`).
- A failed lock write, or an install that fails after copying the compose, leaves lock and files apart
  after an update unless both happen to have moved (`ModuleUpdate.UpdateInSyncIff`).
- A shutdown step that hangs is not reported when another step of the same name has finished
  (`Shutdown.StuckIffNoneFinished`, `Shutdown.SharedNameHidesHang`).
- The chat loop cancels a request before it asks whether the request was cancelled, so every stream error
  counts as an interrupt and the branch that reports it and drops the turn is never taken: a reply that
  delivers "Hel" and then fails stays in the history (`ChatLoop.AsMeantIff`, `ChatLoop.BrokenReplyKept`).
- The SSE scanner passes over messages of the standard whose type is missing, empty, named only after the
  data, or reset by an event field without a colon (`SseScanner.MissedIff`, `SseScanner.LateTypeMissed`,
  `SseScanner.BareEventMissed`).
- A remove after an add gives the manifest back only under an exact condition on the tags
  (`Manifest.AddRemoveIff`).

## Model

| member | source | states |
|---|---|---|
| VpnInvariant.StepKeeps | cmd/controlcenter.go:846-998 | the invariant (mutual exclusion, published servers, tracked, closed and advertised listeners, who vouches for them) survives every step of every thread |
| VpnInvariant.RunInv | cmd/controlcenter.go:655-1079 | the invariant holds at every state of every interleaving |
| VpnTheorems.NoListenerLost | cmd/controlcenter.go:846-998 | between critical sections every VPN listener ever bound is closed or is the one tracked for its service; a server never lists two open ones; running implies a published server |
| VpnTheorems.ReplacedBeforeBind | cmd/controlcenter.go:935-948 | whoever is about to bind tracks nothing, every earlier listener of the service is closed, and the replaced one is removed from the server |
| VpnTheorems.StopIsFinal | cmd/controlcenter.go:676-704 | after a stop's reset its service tracks nothing and no attach, tick or tear-down adds anything until a start sets the flag, over every interleaving |
| VpnTheorems.StoppedTracksNothing | cmd/controlcenter.go:767-786 | a service neither running nor being stopped tracks no listener |
| VpnTheorems.DeadWasTorn | cmd/controlcenter.go:123-134 | only a listener whose binding tsnet tore down is ever recorded dead |
| VpnTheorems.SettledRun | cmd/controlcenter.go:117-141 | a listener closed by us, not dead, with no accept loop past its check never becomes dead |
| VpnTheorems.ClosedBecomesDead | cmd/controlcenter.go:117-141 | exactly when a listener closed on purpose can still become dead: an accept loop is already past its check of the flag |
| VpnTheorems.TickHeals | cmd/controlcenter.go:1036-1079 | a service that runs in time for a connected tick, that is at its poll or at any later state at which the supervisor has not dealt with it and can still attach it, has a live tracked listener when the tick is over, network and binds holding, under any interleaving with no reset of it pending and its listener not recorded dead after the supervisor dealt with it |
| VpnTheorems.TickSettlesPort | cmd/controlcenter.go:906-957 | after a connected tick, binds free to fail, the advertised port of a VNC server that ran in time for it is nonzero exactly when its tracked listener is live, under the last two conditions |
| VpnPort.LateFlagBreaks | cmd/controlcenter.go:1006-1079 | being in time is needed: from any healthy state a start that stores the VNC flag after the last check leaves the tick with VNC running, nothing live and the port as it was |
| VpnPort.PortResurfacesIff | cmd/controlcenter.go:767-786 | a cleared port of a VNC server that is down can be advertised again before the next start if and only if an attach holds the mutex past its load of the running flag with no failed bind |
| VpnPort.PortStaysDown | cmd/controlcenter.go:767-786 | otherwise it stays zero over every run until the next start sets the flag |
| VpnTheorems.LateMarkBreaks | cmd/controlcenter.go:1052-1077 | the second condition is needed: from any healthy state a tick with one late record of the VNC listener's death ends with nothing live and the port advertised |
| VpnTheorems.LiveIsAdvertised | cmd/controlcenter.go:906-957 | at every reachable state outside the mutex a live VNC listener is advertised, unless a stop stands between its port clear and its reset |
| VpnTheorems.HealthyTick | cmd/controlcenter.go:1006-1079 | a connected tick over healthy listeners changes nothing |
| VpnTheorems.OvertakenStopHidesPort | cmd/controlcenter.go:767-786 | from any healthy state with a stop about to clear the port of a running VNC server, the clear and a full connected tick leave the same live listener with port 0 |
| VpnWitnesses.OvertakenStop | cmd/controlcenter.go:755-786 | a run from the initial state, with both starts, the tear-down and the stop in it, that ends after a connected tick with an open, intact, live VNC listener and no port |
| VpnWitnesses.DeadAfterClose | cmd/controlcenter.go:123-139 | a run from the initial state in which a listener closed by a stop is recorded dead |
| VpnWitnesses.LateMark | cmd/controlcenter.go:1036-1079 | a run from the initial state that ends in such a late tick |
| VpnWitnesses.PortOutlivesStop | cmd/controlcenter.go:767-786 | a run from the initial state in which a VNC stop has returned, nothing runs or is tracked, and the port is advertised |
| VpnWitnesses.LateFlag | cmd/controlcenter.go:1036-1079 | a run from the initial state whose last seven steps are a connected tick that ends with VNC running, nothing live and the port advertised, no stop pending and no late death |
| VpnServed.ServedStep | cmd/controlcenter.go:906-957 | unless a start publishes over a running service or under an attach that has loaded the old pointer, every step keeps tracked listeners, and those being attached, on the published server |
| VpnServed.TrackedIsServed | cmd/controlcenter.go:655-998 | over every run without such a publish the published server serves the tracked listener whenever the mutex is free and no reset is pending |
| VpnWitnesses.StaleServer | cmd/controlcenter.go:961-972 | a run from the initial state with one supervisor, in which the terminal is stopped and restarted without overlapping starts, that strands a live listener on the stopped server |
| VpnWitnesses.OverlappingStarts | cmd/controlcenter.go:593-670 | the same by two terminal starts that both found it down |
| ControlCenter.Center.AttachListener | cmd/controlcenter.go:906-957 | attach keeps a live listener, replaces a dead or missing one when the network is up and the bind succeeds, closes what it replaces, and sets the VNC port to match; it does so by enabled steps of its thread alone |
| ControlCenter.Center.GiveUp | cmd/controlcenter.go:935-941 | before the bind the old listener is closed, gone from the server's list, and untracked |
| ControlCenter.Center.Start | cmd/controlcenter.go:792-814 | a start is a no-op when running, leaves all as it was when the server does not come up, and otherwise ends with the new server published, the flag set and the attach done, by enabled steps of its thread alone |
| ControlCenter.Center.Launch | cmd/controlcenter.go:808-809 | the new server, empty, is what is published when the flag is set |
| ControlCenter.StartOrder | cmd/controlcenter.go:655-670 | at every state on the way of a start, running implies published and no listener is tracked anew before the flag is set |
| ControlCenter.Center.Stop | cmd/controlcenter.go:767-786 | a stop closes every listener of the server and the tracked one, clears flag and tracking, zeroes the VNC port and touches nothing else, by enabled steps of its thread alone |
| ControlCenter.Center.Healthy | cmd/controlcenter.go:1006-1020 | true exactly when every running service has a listener that is not dead |
| ControlCenter.Center.Tick | cmd/controlcenter.go:1036-1079 | one undisturbed tick: nothing while disconnected; connected with every bind succeeding, all running services end healthy |
| ControlCenter.Center.AcceptFailed | cmd/controlcenter.go:123-134 | a closed binding is recorded dead exactly when we did not close it ourselves |
| ControlCenter.SegmentFrame | cmd/controlcenter.go:655-1079 | while one thread moves alone, the other threads and the listeners' tear-downs and deaths stand still |
| ControlCenter.AllHealed | cmd/controlcenter.go:1057-1073 | the three re-attachments together leave no running service without a live listener |
| ControlCenter.StartWithRetry | cmd/controlcenter.go:724-753 | at most four tries, success exactly at the first that starts with only transient failures before it, and the doubling pauses in between |
| Exposures.PutIsUpdate | internal/config/exposures.go:78-101 | the save's list rewriting is a map update and keeps names unique |
| Exposures.DropIsRemove | internal/config/exposures.go:105-122 | the delete's filter is a map removal |
| Exposures.RewireIsByName | cmd/expose_ops.go:138-173 | restoring an acceptable store gives exactly the map it stands for |
| Exposures.AcceptsIff | internal/gateway/exposure.go:57-92 | exactly the names made of segments of lower-case letters and digits with single dashes between them, and the three visibilities, are accepted |
| Exposures.ExposureStore.SaveExposure | internal/config/exposures.go:78-101 | replaces the first record of the name or appends, starting afresh when the store cannot be read |
| Exposures.ExposureStore.DeleteExposure | internal/config/exposures.go:105-122 | removes every record of the name; a failed read counts as success |
| Exposures.LiveExposures.Expose | cmd/expose_ops.go:37-85 | the live write, then the durable one whose failure is only logged, and each error case |
| Exposures.LiveExposures.Unexpose | cmd/expose_ops.go:109-132 | the live removal, then the delete whose failure is returned, and each error case |
| Exposures.LiveExposures.Restart | cmd/expose_ops.go:138-173 | a fresh gateway serves exactly what the store restores to |
| ExposureRuns.ExposeIsBothHalves | cmd/expose_ops.go:37-85 | the code's Expose is the two steps the runs interleave with restarts |
| ExposureRuns.UnexposeIsBothHalves | cmd/expose_ops.go:109-132 | likewise for Unexpose |
| ExposureRuns.LiveIsDurable | cmd/expose_ops.go:37-173 | while the disk works, live and durable are one map at every state of every run and a restart between calls is the identity |
| ExposureRuns.UnexposeSticksIff | cmd/expose_ops.go:99-132 | a successful Unexpose keeps the name unserved through restarts, crashes and failing disks until the next Expose, exactly when its delete could read the store or had nothing to delete |
| ExposureRuns.OrphanOrigin | cmd/expose_ops.go:60-75 | a name becomes served without a record exactly by a failed save of its own or a save of another name over an unreadable store |
| ExposureRuns.OrphanHasOrigin | cmd/expose_ops.go:37-173 | over whole runs, a name served without a record lost it in an earlier step of one of those two kinds |
| ExposureRuns.SaveOrphansAnother | internal/config/exposures.go:78-101 | a successful save of one name that costs another its record |
| RegistryWatcher.InvStep | cmd/provisioned_gateway.go:291-320 | every recorded port stays routed, about to be wired, or news to the watcher, through every step of exposers, other processes and the watcher |
| RegistryWatcher.StartupInv | cmd/provisioned_gateway.go:340-356 | startup wiring establishes that, with in-process exposers registering and wiring as they like up to the watcher's seed, whether the seed reads or not |
| RegistryWatcher.SeedIff | cmd/provisioned_gateway.go:417-426 | the watcher starts sound exactly when its seed failed or every recorded positive port was routed or about to be wired |
| RegistryWatcher.SeedHidesUnwired | cmd/provisioned_gateway.go:343-347 | after a failed startup read and a successful seed a recorded port stays unrouted over every run that neither writes nor wires its prefix |
| RegistryWatcher.TickConverges | cmd/provisioned_gateway.go:417-457 | one full tick after the last registry write every positive-port entry's route is on its recorded port, under any interleaving |
| RegistryWatcher.StartupConverges | cmd/provisioned_gateway.go:291-457 | the whole of it: from startup wiring over in-process exposures, the seed, and any run of exposures, seen outside writes and ticks, a full tick after the last write has every recorded positive port routed that is not still being wired |
| RegistryWatcher.Watcher.Tick | cmd/provisioned_gateway.go:433-455 | the loop of one tick computes the routes and the memory of the model's tick run alone, for every list |
| RegistryWatcher.Watcher.RegisterRoutes | cmd/provisioned_gateway.go:348-354 | the startup loop wires every positive port of the list, later entries over earlier ones |
| RegistryWatcher.WiredOnly | cmd/provisioned_gateway.go:348-354 | startup wires nothing but recorded positive ports |
| RegistryWatcher.Watcher.Seed | cmd/provisioned_gateway.go:421-425 | the seed loop remembers every entry of the list |
| RegistryWatcher.TickAloneRoutes | cmd/provisioned_gateway.go:437-455 | an undisturbed tick routes an entry exactly if it is routed already or differs from what is remembered |
| RegistryWatcher.TickAloneSkips | cmd/provisioned_gateway.go:437-455 | a prefix the list has no positive port for keeps the route it had |
| RegistryWatcher.OutsideWriteConvergesIff | cmd/provisioned_gateway.go:435-457 | after another process's write the next tick routes a recorded port if and only if it is routed already or differs from what the watcher remembers |
| RegistryWatcher.PutBackIsMissed | cmd/provisioned_gateway.go:435-457 | a run in which serialised exposures and a full tick leave a route on the wrong port |
| Manifest.ApplyAllKeeps | cmd/manifest.go:264-383 | any sequence of add, remove and set-status keeps service names unique and tags free of duplicates |
| Manifest.AddRemoveIff | cmd/manifest.go:264-336 | remove after add restores services and tags in order if and only if the name is new, none of the present tags is stripped and every tag added is |
| Manifest.StatusTouchesOne | cmd/manifest.go:365-383 | set-status changes that one service's status only and fails only on an unknown name |
| Manifest.MarkerIff | cmd/manifest.go:36-38 | a service carries the boot marker exactly if its status spells "stopped", in any case and between blanks |
| Manifest.AddedIs | cmd/manifest.go:264-302 | a new service is appended with its compose file in the services directory; the tags are then those there were, the declared ones and the ones built in for its name |
| Manifest.AddService | cmd/manifest.go:264-302 | the add loop: unknown services are appended, built-in and declared tags merged in order without duplicates or blanks |
| Manifest.RemoveService | cmd/manifest.go:312-336 | the remove loop: every entry of the name and every tag the catalog declares goes |
| Manifest.StripTags | cmd/manifest.go:342-358 | the filter keeps order and drops exactly the listed tags |
| Manifest.SetStatusLoop | cmd/manifest.go:365-383 | the first service of the name gets the status, or nothing changes |
| ModuleConfig.ResolveConfig | internal/catalog/install.go:290-349 | the loop over the variables refuses exactly if one that is generated or required has no value, and else gives each its override, its persisted or minted value if it is generated, or its default |
| ModuleConfig.CarryGenerated | internal/catalog/install.go:365-390 | the loop adds to the assigned values exactly the generated ones persisted and not assigned |
| ModuleConfig.OverrideWins | internal/catalog/install.go:294-299 | an override reaches every declared variable, of whatever kind and however often declared |
| Node.EffectsFrame | cmd/module_ops.go:97-292 | writes and container actions about one service, cut anywhere, leave everything the node holds about any other alone |
| ModuleTheorems.OthersUntouched | cmd/module_ops.go:97-292 | wherever an operation on one module fails or is cut, an update that keeps its name included, another module keeps its lock entry and its containers; its manifest entry exactly if it had none or no empty manifest has been put in the place of one that could not be read; its files too exactly if the node's directory did not move then, or holds the same for it |
| ModuleTheorems.StopMarksFirst | cmd/module_ops.go:273-292 | no crash point of either stop leaves the service brought down but unmarked |
| ModuleTheorems.BootOnlyEnabled | cmd/run.go:89-122 | a boot brings up only services of the manifest without the marker |
| ModuleTheorems.StopIsDurable | cmd/controlcenter.go:1398-1528 | once stopped, a service stays down, and marked or out of the manifest, through any boots, crashes and operations on any services, module updates and new manifests included, until an explicit start, restart, run or install of it |
| ModuleTheorems.UpdateHarmless | cmd/module_update.go:156-201 | an update edits no manifest entry and brings up only what it found running |
| ModuleTheorems.UninstallRemovesIff | cmd/module_ops.go:204-251 | a successful uninstall leaves no manifest entry, exactly unless the manifest could not be read |
| ModuleTheorems.UninstallLeaves | cmd/module_ops.go:204-251 | a successful uninstall of a module that is there changes nothing if it could not read the manifest; otherwise the entry is gone, nothing is up if the entry names a compose file that is there, and lock entry and files are gone exactly if they could be removed |
| ModuleTheorems.UninstallIdempotent | cmd/module_ops.go:204-224 | uninstalling again does nothing and succeeds |
| ModuleTheorems.FailedUpdateKeepsAll | cmd/module_ops.go:97-167 | if resolve, verify or the old stack's compose down fails, a module keeps its manifest entry, lock entry and files at every crash point, exactly unless the install has by then started a new manifest over one it could not read and the module was in that manifest or has other files in ~/citadel-node |
| ModuleTheorems.InstallView | cmd/module_ops.go:97-198 | everything the node holds about a module after any successful install of it, whatever best-effort step or inner read failed; where the first read of the manifest failed, as on a node with an empty one |
| ModuleTheorems.AssignedReaches | internal/catalog/install.go:291-299 | after every successful install each declared variable that is assigned has the assigned value in the env file |
| ModuleTheorems.UnassignedGets | internal/catalog/install.go:301-320 | a variable that is not assigned has what it had, if generated and found, or else a minted value; any other has its default |
| ModuleTheorems.NothingElse | internal/catalog/install.go:270-277 | nothing else is in the env file, unless no variable has a value: then it is as the last install left it |
| ModuleTheorems.SecretsSurvive | cmd/module_ops.go:150-174 | after every successful update in place a generated value that is not assigned is still there, though the uninstall deletes it, exactly if it was found or the same one is minted: found before the uninstall if manifest and env file could be read, or in the env file that is left, that of ~/citadel-node if the directory moved |
| ModuleTheorems.InstallIsListed | cmd/module_ops.go:301-361 | after any successful install with its lock write done the list shows that module with the requested source (trimmed) and the requested config, as running if and only if the inner uninstall read the manifest, the module was unmarked or the marker was cleared; every other entry is listed exactly if it was and the install could read the manifest to begin with |
| ModuleTheorems.InstalledButStopped | cmd/module_ops.go:204-211 | a successful install with its lock write done after which the module is listed as stopped |
| ModuleTheorems.InstallLosesAnother | cmd/manifest.go:160-213 | a successful install, its lock write done, after which another module that was installed and marked stopped is no longer listed |
| ModuleOutcomes.StopLeaves | cmd/module_ops.go:273-292 | a stop succeeds exactly if the service is there, the marker is written and its compose file, if any, brings it down; then it is marked, and up only if it was and has no compose file |
| ModuleOutcomes.CcStopLeaves | cmd/controlcenter.go:1458-1490 | a stop from the control center succeeds exactly if the service is there, the marker is written and the compose down works; then it is marked and down |
| ModuleOutcomes.StartLeaves | cmd/module_ops.go:255-268 | a start succeeds exactly if the service is there, the marker is cleared and its compose file is there and brings it up; then it is unmarked and up |
| ModuleOutcomes.CcStartLeaves | cmd/controlcenter.go:1398-1455 | a start from the control center succeeds exactly if the service is there, docker is, and the stack comes up; the marker is cleared if it can be, and whether it is up follows from the legacy removal and the compose up |
| ModuleOutcomes.RunLeaves | cmd/run.go:164-222 | exactly when `citadel run <service>` succeeds, and that the service is then in the manifest, unmarked if that could be written, with its compose file, and up |
| ModuleOutcomes.UninstallOkIff | cmd/module_ops.go:204-251 | exactly when an uninstall succeeds |
| ModuleOutcomes.InstallOkIff | cmd/module_ops.go:97-198 | exactly when an install succeeds: neither the lock write nor the clearing of the marker has a say |
| ModuleOutcomes.BootLeaves | cmd/run.go:89-122 | after a boot a service is up exactly if it was, or is unmarked, was reached before a failure that ends the boot, and could be brought up; nothing else changes |
| ModuleOutcomes.ListShows | cmd/module_ops.go:301-337 | an entry is listed exactly if it is that of a service of the manifest with the lockfile's source, ref, commit and config, as far as read, and running exactly if unmarked, up and answered for |
| LiveModuleOps.LiveOps.NodeSince | cmd/module_ops.go:69-78 | the logged effects since an earlier state are what has happened to the node since, so a crash leaves a prefix |
| LiveModuleOps.LiveOps.FindOrCreate | cmd/manifest.go:160-213 | nothing when the manifest can be read; otherwise an empty one is written to ~/citadel-node and the node pointed there, each write free to fail |
| LiveModuleOps.LiveOps.SetDesiredStatus | cmd/manifest.go:365-383 | one manifest write or none, and success exactly when the service is there and the file can be read and written |
| LiveModuleOps.LiveOps.Stop | cmd/module_ops.go:273-292 | performs the specified effects of a stop in order and reports as specified |
| LiveModuleOps.LiveOps.CcStop | cmd/controlcenter.go:1458-1490 | likewise for the control center's stop |
| LiveModuleOps.LiveOps.Start | cmd/module_ops.go:255-268 | likewise for start |
| LiveModuleOps.LiveOps.CcStart | cmd/controlcenter.go:1398-1455 | likewise for the control center's start and restart |
| LiveModuleOps.LiveOps.Uninstall | cmd/module_ops.go:204-251 | likewise for uninstall |
| LiveModuleOps.LiveOps.Install | cmd/module_ops.go:97-198 | likewise for install and update in place, the search for the manifest included |
| LiveModuleOps.LiveOps.RunSingle | cmd/run.go:164-222 | likewise for `citadel run <service>`, the search for the manifest included |
| LiveModuleOps.LiveOps.Boot | cmd/run.go:89-122 | likewise for the boot loop, which skips marked services |
| LiveModuleOps.LiveOps.ListInstalled | cmd/module_ops.go:301-337 | the loop builds one entry per service, marker before container state, joined with the lockfile as far as that can be read; an unreadable manifest lists nothing, an unanswered container query lists the service as stopped |
| Reconcile.SameConfig | internal/reconcile/engine.go:202-212 | the length-and-lookup comparison is map equality |
| Reconcile.HasDrifted | internal/reconcile/engine.go:151-159 | a module needs an update exactly when source or config differ |
| Reconcile.MakePlan | internal/reconcile/engine.go:60-146 | uninstalls come before installs and updates before transitions, each phase sorted by name, and for every name the plan holds exactly the steps its drift calls for |
| Reconcile.PhaseOrder | internal/reconcile/engine.go:60-146 | in a plan only uninstalls precede an uninstall, and only starts and stops follow a start or stop |
| Reconcile.SortedShape | internal/reconcile/engine.go:215-217 | sorting a phase keeps its steps and the order of each module's own, and puts the names in order |
| Reconcile.LessIff | internal/reconcile/engine.go:215-217 | the order of names is lexicographic |
| Convergence.Apply | internal/reconcile/apply.go:38-64 | the loop over the plan up to a cancellation: every step is attempted but those of a module that has failed already |
| Convergence.FailedRests | internal/reconcile/apply.go:38-64 | the steps of a module that has failed have no effect |
| Convergence.StepsLeft | internal/reconcile/engine.go:60-190 | nothing is planned for a module exactly if it is neither wanted nor there, or is there with the wanted source and config and running or stopped as wanted, no status meaning running |
| Convergence.ModuleConverges | internal/reconcile/engine.go:151-190 | a module whose own steps succeed needs no step in the next diff exactly if the plan settles it (seen if unwanted; trimmed source if changed; really matching, and not running unseen where it should be stopped, if left alone) and no step of another module, after its last, starts a new manifest over one it could not read, for any list the plan was made from; its installs wrote the lockfile and read the manifest or cleared the marker, its uninstalls read the manifest |
| Convergence.PassConverges | internal/reconcile/apply.go:30-64 | after a pass without failures, its installs and uninstalls as above, the next plan is empty if and only if that holds of every module |
| Convergence.LostLockDriftsIff | cmd/module_ops.go:301-327 | a module that matches its assignment is seen as changed, when the lockfile cannot be read for the list, exactly unless the assignment is the bare name without a config |
| Convergence.InstallConvergesIff | internal/reconcile/engine.go:85-110 | any successful install of a new module satisfies its assignment exactly when it resolves to its key and the lockfile then holds the assigned source and config: the trimmed source if the lock write was made, a leftover entry if not |
| ModuleUpdate.UpdateInSyncIff | cmd/module_update.go:136-235 | after an update, rolled back or not, locked and installed commit agree exactly when both moved or neither did |
| ModuleUpdate.UpdateKeepsSync | cmd/module_update.go:136-235 | with lock writes succeeding, failed installs leaving files alone and a stable name, they agree on every path exactly if they did before or the module was installed anew |
| ModuleUpdate.UpdateAllKeepsSync | cmd/module_update.go:99-121 | the same for every module after any number of entries of the loop over the lockfile |
| ModuleUpdate.CommandKeepsSync | cmd/module_update.go:77-134 | the same for the whole command, with the files of the directory it finds or moves to |
| ModuleUpdate.UpdateOne | cmd/module_update.go:136-206 | performs the specified effects; a rollback comes right after a successful restart and an unhealthy probe of a module that had moved and was installed, and then always |
| ModuleUpdate.Rollback | cmd/module_update.go:212-235 | performs the specified effects of a rollback |
| ModuleUpdate.UpdateModules | cmd/module_update.go:77-134 | performs the search for the manifest and the effects of every picked entry in order; the error cases and the counters' bounds |
| ModuleUpdate.UpdateDriftsIff | cmd/module_update.go:176-187 | a module that matched its assignment drifts after a successful update exactly when the assignment has a config |
| UpdateOutcomes.UpdateOkIff | cmd/module_update.go:136-206 | an update succeeds exactly if the module resolves, both commits are known and differ, the install is done and no restart came up unhealthy; it has no effect exactly if the module does not resolve, a commit is unknown, they are equal or the install is refused |
| UpdateOutcomes.UpdateLeaves | cmd/module_update.go:136-206 | after a successful update files, and lock if written, are at the new commit with source and ref kept, the manifest entry is as it was, and the module is up if it was or was restarted |
| UpdateOutcomes.RollbackRestores | cmd/module_update.go:212-235 | a rollback whose steps work leaves the lock entry as it was, the files at the locked commit and the module up |
| UpdateOutcomes.UpdateAllSpares | cmd/module_update.go:99-121 | a module that was not asked for, or is not managed here, is left as it is |
| UpdateOutcomes.AssignedKeptIff | cmd/module_update.go:171 | a variable that is not generated keeps its value over a successful update exactly if that is its default, or no variable of the module has a value |
| UpdateOutcomes.SecretsOutliveUpdate | cmd/module_update.go:136-235 | a generated value stays in the env file at every cut of an update and its rollback, as long as the versions installed generate it and the env file can be read |
| ConnectDispatch.ConnectToNode | cmd/connect_dispatch.go:109-193 | every run is a conforming trace: retries use the answer just read, prompts answer passcode challenges only, raw sshd is chosen or follows a refused dial, conflicts do nothing, the result fits the last action |
| ConnectDispatch.AfterDial | cmd/connect_shell.go:182-246 | what follows each dial, told by status and body: a 401 whose reason starts with "passcode_" or whose error is "node passcode required" is followed by a prompt, or by the rejection if it is the third; a refused dial by raw sshd unless only the mesh will do; any other response by its error; the session name is "citadel" or "none" as asked |
| ConnectDispatch.AroundPrompt | cmd/connect_dispatch.go:166-179 | a prompt follows such a challenge and nothing else, and is followed by a dial with the passcode read, or the end |
| ConnectDispatch.Bounds | cmd/connect_dispatch.go:156-193 | a conforming trace has at most three dials, two prompts and one raw session, and never exhausts the loop |
| ConnectDispatch.OneTrace | cmd/connect_dispatch.go:109-193 | dial outcomes and answers determine the conforming trace completely |
| ConnectDispatch.GoesOn | cmd/connect_dispatch.go:162-191 | a trace never stops where a challenge, answer or refused dial calls for another action |
| Shutdown.InvStep | cmd/shutdown.go:33-58 | the pending map holds exactly the names none of whose steps has finished |
| Shutdown.StuckIffNoneFinished | cmd/shutdown.go:28-70 | in every schedule the timeout reports a name exactly when no step of that name has finished |
| Shutdown.TimeoutReport | cmd/shutdown.go:28-70 | with distinct names it reports every step that has not returned and none recorded as finished |
| Shutdown.NilMeansAllFinished | cmd/shutdown.go:53-60 | nil by way of the channel means that every step has finished |
| Shutdown.ReportStands | cmd/shutdown.go:58-70 | the report is given once |
| Shutdown.SharedNameHidesHang | cmd/shutdown.go:34-37 | a schedule in which a hanging step goes unreported because of a namesake |
| ChatLister.Lister.List | cmd/gateway_chat.go:31-56 | the closure returns the latest discovery of its call trace |
| ChatLister.AnswerIsFresh | cmd/gateway_chat.go:31-56 | every answer is that of a discovery finished less than the TTL before the call or made within it |
| ChatLister.DiscoveriesSpaced | cmd/gateway_chat.go:18-25 | a discovery starts no sooner than the TTL after the previous one finished |
| ChatLister.QuickCallsShare | cmd/gateway_chat.go:37-42 | calls within the TTL of a discovery share it, even an empty one |
| ChatLoop.Chat | cmd/chat.go:170-252 | the loop's history and requests are those of the reads it survives, with the request cancelled before its context is looked at |
| ChatLoop.HistoryAlternates | cmd/chat.go:170-252 | at every prompt the history alternates strictly between non-blank user turns and non-empty answers, with even length |
| ChatLoop.RequestsEndOnUser | cmd/chat.go:193-206 | every request is such a history with one user turn on top, the trimmed line that was read |
| ChatLoop.LeavesIff | cmd/chat.go:170-192 | the session ends at the end of the input, at a failed read, or at one of five words between blanks, in any case, and at nothing else |
| ChatLoop.ReplyKept | cmd/chat.go:206-251 | a turn is dropped exactly if no content arrived, whether and however the stream failed; otherwise it stays with all the content there was, and reasoning never counts |
| ChatLoop.KeptInOrder | cmd/chat.go:206-223 | the answer kept is the content of the chunks in the order they arrived |
| ChatLoop.AsMeantIff | cmd/chat.go:230-241 | the history is the one the error branch was meant to leave exactly if no reply failed by itself after some content |
| ChatLoop.BrokenReplyKept | cmd/chat.go:230-241 | a reply that fails after three letters stays in the history and is resent with the next line |
| SseScanner.Parse | cmd/mcp.go:306-348 | returns the last non-blank data payload under a message event with no other event line or empty line between, and fails exactly when there is none or the stream broke |
| SseScanner.OneAnswer | cmd/mcp.go:306-348 | that answer is unique |
| SseScanner.MissedIff | cmd/mcp.go:316-337 | a data line of a block that section 9.2.6 of the WHATWG HTML standard dispatches as a message is passed over exactly when no event line with a colon precedes it in the block, or the last one that does names nothing, or it names something else and the block's last event field is another |
| SseScanner.BlockRule | cmd/mcp.go:316-337 | inside a block the scanner goes by the last event line before the line |
| SseScanner.LateTypeMissed | cmd/mcp.go:316-337 | a block that names its type after its data is a message to the standard and no answer here |
| SseScanner.BareEventMissed | cmd/mcp.go:316-320 | a block whose type a bare event field resets is a message to the standard and no answer here |
| SseScanner.CandidateIs | cmd/mcp.go:322-331 | a line can be the answer exactly if a message event is in force, it is a data line and its payload is not blank |
| SseScanner.FramesRoundTrip | cmd/mcp.go:303-348 | payloads framed as message events are read back: the last one that is not blank |
| ByteUnits.Scale | cmd/status.go:1208-1219 | for every 64-bit count from 1024 up: the divisor is 1024^(exp+1), brackets the count, never overflows, and exp is at most 5 |
| ByteUnits.OneUnit | cmd/status.go:1208-1219 | only one exponent brackets a count |
| Text.TrimIsBlank | cmd/mcp.go:325-328 | trimming leaves nothing exactly of blank text |
| Text.TrimOf | cmd/manifest.go:36-38 | trimming takes exactly the blanks off both ends |

## Left out

- VPN addresses, log lines and activity messages of the attach helpers: no decision depends on them.
- Credentials and token caches of the terminal server: they do not touch its listeners.
- What a server does with a listener added after it was stopped: `VpnServed` only says whose list it is in.
- ControlCenter.Center.Tick: one thread alone; what holds with other threads in between is `VpnTheorems.TickHeals`.
- ControlCenter.Center.Stop: the same; with an attach in between, `VpnTheorems.StopIsFinal` says what remains true.
- Shutdown: functions that panic; a step here returns or does not.
- Link tokens, visibility checks and the routing of exposed requests: only which names are served is modelled.
- Exposures.LiveExposures.Expose: the address and the policy are the record itself; the mesh URL it returns is not modelled.
- Several processes writing the exposure store, the manifest or the lockfile at once: the code takes no file lock and promises nothing there.
- The order in which the exposure store and the registry are sorted on disk: nothing reads it.
- Registry entries that share a prefix: `RegistryWatcher.Watcher` covers them, the convergence theorems assume one entry a prefix.
- The backfill of the WhatsApp registry entry and the TLS and URL forms of a route.
- The derivation of an assignment's key from its source, and the reconcile loop's fetch, report, debounce and full-wipe guard: convergence is stated for any key.
- A write that fails or is cut leaves the file as it was: that `os.WriteFile` truncates before it writes is not modelled.
- The other commands that begin with `findOrCreateManifest` (catalog and module install, the WhatsApp setup, adding a service in the control center): of these only that beginning, as the call `Open`.
- The repair of a global config that names no directory while ~/citadel-node has a manifest: such a node counts as one in ~/citadel-node.
- LiveModuleOps.LiveOps.Install: image digests, signatures' contents, the sandbox override and the port and container-name checks are one refusal of the install.
- The three files of a module are written and removed as one; names that collide with another module's override file are not modelled.
- ModuleTheorems.OthersUntouched: an update that resolves to another module's name writes that module's files and lock entry; it is left out there.
- `citadel stop`, which only warns when the marker write fails, and `citadel run --restart`, which reuses the boot loop.
- Module garbage collection, `module list --outdated` and the prune after an update: reads and cache directories only.
- ModuleUpdate.UpdateModules: which lock entries have a usable source, and whether the config of an updated module resolves, are answers from outside.
- ModuleConfig.ResolveConfig: the prompts of an interactive install.
- Env values that do not survive being written to a line and read back trimmed, and the order of the lines.
- Worker start and stop flags of the control center: check and set are separate there and no invariant is offered.
- Passcode input, WebSocket pumping, ssh itself and the text of error messages: ConnectDispatch keeps their outcome only.
- ChatLoop: an interrupt at the prompt ends the process; only interrupts during a reply reach the loop.
- SseScanner.Parse: takes the stream as lines; the splitting and its 10 MB limit are the failure flag, and a byte order mark or line ends of a lone carriage return, which the standard allows, are not modelled.
- ByteUnits.Scale: the division in floating point and its one printed digit.
- Terminal user interface, tables, install wizards, platform detection, heartbeat, jobs and inference code: no state shared with the protocols above.
