# Cozy SOC: a verified model

Cozy SOC is a local controller. It keeps durable intent, secrets, evidence and
coverage claims consistent while files, keychain, drivers and clocks fail under it.
This project models the parts where that is hard and proves what they promise, for
every input, every run and every interleaving.

* **Intent under failure.** `ConfigManager` is the durable list, `Capability`,
  `Lifecycle` and `LifecycleEngine` the engine, `AdGuardConnection` and
  `DeviceWatchControl` two multi-step drivers, each as the sequence of states it
  passes through when every write, audit, keychain or driver call may fail.
  `ControllerRuns` runs them one after another with a process stop after any step,
  `ControllerOutcomes` says how calls end, and `Controllers` holds the objects and shows
  that their methods take those very steps.
* **Drivers at the same time.** `ExternalServices` adds the OPNsense driver, which shares
  its effects with AdGuard Home's. `Turns`, `ConnectionTurns` and `DeviceWatchTurns` take
  all calls effect by effect; `SharedState`, `ConnectionInvariant` and `WatchInvariant`
  say what every turn keeps, `ConnectionOutcomes` what a call will come to, and
  `Interleaving` lets the three drivers and lifecycle actions act in any order.
* **Addresses and routes.** `NetIP` is Go's `net/netip` on integers, `CheckBinding`
  decides whole address ranges, `CheckRoute` compares enrolled and live prefixes. The
  rules are section 2.1 of RFC 3021 and sections 2.5.5.2 and 2.6.1 of RFC 4291.
* **Concurrency.** `DeviceWatchRuntime` and `WebReview` are interleavings of the
  sections that hold a lock, with an arbitrary clock.
* **Identity over time.** `Reconcile` is one observation of a hardware address over the
  identity tables, `ReconcileTraces` every trace of them, `ReconcileRuns` what that means
  for runs in order, and where order or clock break it.
* **Agreement and accounting.** `Coverage`, `DeviceWatchCoverage`, `CoverageContract`
  and `CoverageTokens` derive coverage and verification from the same facts;
  `CoverageOutcomes` gives every outcome as a condition on the facts;
  `CollectedCoverage` goes from collection to contract; `Storing`, `Collector` and
  `AdGuardCollection` follow counters through every layer;
  `QualityDiagnosis` selects what may be compared.

`Ordering` holds string order and sorting. `dafny verify dfyconfig.toml` checks
everything.

Premises. No manifest is both built-in and process-required (`InitialStatesValidate`
shows that this is exactly what initial states need); manager and engine share one
registry, and each driver's mutex admits one call at a time. A write either succeeds or
leaves the old file; a keychain call may fail before or after its effect. Review ids and
secret references are fresh, the two services' references have different prefixes,
observation ids are distinct, digests injective. Guidance is
put into words by any function whose texts are within the limits of
internal/controller/coverage/model.go.

Results that differ from what one might expect.

* A failed Disable can leave a live runtime running although the emergency stop would
  work: the ways out before and at its own write do not call it
  (cmd/cozysoc/device_watch_control.go:129-162). `DisableHaltsExactly` gives the exact
  condition, `LiveAfterDisableExample` inputs.
* A failed Enable does not always leave intent as it was: after a rollback that could not
  write, Device Watch stays enabled, on disk and in the engine alike. `EnableKeeps` gives
  the exact condition, `EnabledAfterEnableExample` an input.
* A failed Connect can leave an enabled entry, although an entry is reserved disabled to
  avoid that (internal/controller/adguard/connection.go:123-126): the record of success
  fails, and so does the write that disables. `ConnectExactly` and `ConnectBesideOthers`
  give the exact condition, `EnabledAfterConnectExample` an input.
* Sightings in order of observation can still be ambiguous, or split an identity after a
  short gap. The query drops expired claims
  (internal/controller/storage/devicewatch.go:193), so what counts is the store's clock
  too. `EveryChoiceIsDecided` gives the exact rule for every trace; `NeverAmbiguous`
  holds in order when sightings reach the store within 23 days, where 30 days' retention
  covers the horizon, or when the store's clock never runs backwards.
  `ClockSteppedBackIsAmbiguous`, `ExpiredEvidenceSplits` and `LateSightingIsAmbiguous`
  show each way to lose it.
* The domain layer accepts sensor ids that the coverage validator refuses, such as
  `sensor:1`; `ContractValidatesExactly` gives the exact condition, and the ids the
  runtime makes satisfy it.

## Model

| member | source | states |
|---|---|---|
| `ControllerRuns.IntentAgreesAlways` | internal/controller/capability/lifecycle_config.go:59-122 | calls one after another: after every call of every run, whatever failed and wherever the process stopped, durable and engine intent agree on every capability, every stored state validates, and verdicts occur only while enabled |
| `ControllerRuns.SecretsMatchIntentAlways` | internal/controller/adguard/connection.go:123-171 | after every single step of any run, each stored secret is referenced by the durable entry, and an enabled entry with a reference has its secret |
| `ControllerRuns.DisconnectAlwaysRecovers` | internal/controller/adguard/connection.go:248-289 | from every reachable state a Disconnect in which nothing fails succeeds and leaves no entry, on disk or in memory, and no secret |
| `ControllerRuns.FailedConnectRestores` | internal/controller/adguard/connection.go:113-171 | from every reachable unconnected state a failed Connect whose clean-up works leaves no entry, on disk or in memory, and no secret |
| `ControllerRuns.RunsStayQuiet` | cmd/cozysoc/device_watch_control.go:56-217 | any sequence of calls one after another, with failures, stops and restarts, from a consistent state ends in a consistent state |
| `ControllerRuns.ServeKeeps` | cmd/cozysoc/device_watch_control.go:56-217 | every step of every call is safe and its end is consistent |
| `ControllerRuns.RestartIsQuiet` | cmd/cozysoc/main.go:230-245 | a restart after any step rebuilds an engine that agrees with the file |
| `ControllerRuns.AuditComesFirst` | internal/controller/adguard/connection.go:96-128 | no call changes durable intent or the keychain before its request is on the audit log |
| `Interleaving.EveryInterleavingIsSafe` | internal/controller/opnsense/connection.go:82-277 | one AdGuard Home call, one OPNsense call, one Device Watch call and any lifecycle actions interleaved effect by effect, with stops: every state is safe, the secrets of either service match its intent, and file and engine agree on every capability but, in the middle of its call, a driver's own |
| `Interleaving.DisconnectBesideOthers` | internal/controller/opnsense/connection.go:238-277 | beside any other events a Disconnect of either service ends within seven turns of its own, and ends well with no entry, copy or secret exactly when there is no entry or every step the entry needs works |
| `Interleaving.ConnectBesideOthers` | internal/controller/opnsense/connection.go:82-169 | beside any other events a Connect of either service that finds no entry ends within fourteen turns of its own, and succeeds with the requested entry and secret, or else leaves nothing, or nothing enabled, each exactly under its own condition on what may fail |
| `Interleaving.CallEndsAsPromised` | internal/controller/adguard/connection.go:76-289 | from anywhere in a call, once it has had its turns it has ended, and it met its goal exactly when that was promised there |
| `Interleaving.OthersLeaveTheCall` | cmd/cozysoc/main.go:291-320 | calls of the other drivers and lifecycle actions leave a call where it is and its entry, copy and secrets untouched |
| `ConnectionTurns.TurnsAreBounded` | internal/controller/adguard/connection.go:76-289 | every turn of a Connect or Disconnect of either service brings it closer to its end, whatever it meets |
| `ConnectionTurns.TurnsAreTheCall` | internal/controller/adguard/connection.go:76-289 | from anywhere in an AdGuard Home call, its turns taken one after the other to the end are exactly the rest of the sequential call |
| `DeviceWatchTurns.TurnsAreTheCall` | cmd/cozysoc/device_watch_control.go:56-217 | from anywhere in a Device Watch call, its turns taken one after the other to the end are exactly the rest of the sequential call |
| `DeviceWatchTurns.TurnsAreBounded` | cmd/cozysoc/device_watch_control.go:56-217 | every turn of a Device Watch call brings it closer to its end, whatever it meets |
| `ConnectionInvariant.CTurnKeeps` | internal/controller/opnsense/connection.go:82-277 | every turn of a call of either service, whatever it meets, keeps entry, copy and secrets as the place in the call requires and touches no other capability |
| `WatchInvariant.DTurnKeeps` | cmd/cozysoc/device_watch_control.go:56-217 | every turn of a Device Watch call, whatever it meets, keeps entry and copy as the place in the call requires and touches no other capability and no secret |
| `ConnectionOutcomes.TurnKeepsPromise` | internal/controller/adguard/connection.go:76-289 | no turn, whatever it meets, changes what the call will come to: the condition for its goal holds after the turn exactly when it held before |
| `ConnectionOutcomes.ConnectExactly` | internal/controller/adguard/connection.go:76-171 | from a consistent unconnected state a Connect succeeds, with exactly the requested entry and secret; succeeds or leaves nothing; and succeeds or leaves nothing enabled: each exactly under a condition on what may fail |
| `ConnectionOutcomes.DoneExactly` | internal/controller/opnsense/connection.go:82-150 | for either service the condition for success, written out: recorded, not refused, both writes, keychain and last record working, a valid entry; success holds what was asked for |
| `ConnectionOutcomes.LastTurnRecords` | internal/controller/opnsense/connection.go:152-169 | a Connect of either service past its request, and a successful Disconnect, end with a record of how they ended, if the log takes it |
| `ConnectionOutcomes.DisconnectExactly` | internal/controller/adguard/connection.go:248-289 | from a consistent state a Disconnect succeeds and leaves nothing exactly when there is no entry or every step the entry needs works |
| `ConnectionOutcomes.EnabledAfterConnectExample` | internal/controller/adguard/connection.go:144-171 | a failed Connect whose last record and whose disabling write fail leaves an enabled entry |
| `ExternalServices.RouterRoundTrip` | internal/controller/opnsense/connection.go:279-305 | a stored OPNsense connection reads back exactly when it has an endpoint and its reference parses |
| `AdGuardConnection.ConnectKeeps` | internal/controller/adguard/connection.go:76-151 | Connect: safe steps, consistent end, success leaves exactly the requested entry and secret, a failure whose clean-up works leaves nothing |
| `AdGuardConnection.UndoKeeps` | internal/controller/adguard/connection.go:153-171 | the undo passes only through safe states and empties both stores when its own writes and deletion succeed |
| `AdGuardConnection.DisconnectKeeps` | internal/controller/adguard/connection.go:250-289 | Disconnect: safe steps, consistent end, success means neither entry nor secret, and only a failing dependency makes it fail |
| `ControllerWorld.ConnectionRoundTrip` | internal/controller/adguard/connection.go:291-339 | a stored connection reads back exactly when a reference accompanies a username and parses |
| `DeviceWatchControl.EnableKeeps` | cmd/cozysoc/device_watch_control.go:56-127 | Enable: safe steps, consistent end; success leaves Device Watch enabled; a failure changes durable intent, and with it the engine's, exactly when the entry was not enabled, the call was admitted and wrote, and the rollback could not write: then the proposed entry stays |
| `DeviceWatchControl.RollbackKeeps` | cmd/cozysoc/device_watch_control.go:206-217 | the rollback restores the previous entry on disk and in the engine if it can write, and changes neither otherwise |
| `DeviceWatchControl.DisableKeeps` | cmd/cozysoc/device_watch_control.go:129-183 | Disable: safe steps, consistent end; durable intent is untouched or has exactly the one entry switched off, and nothing later revives it |
| `ControllerOutcomes.ConnectClosesItsAudit` | internal/controller/adguard/connection.go:96-171 | with a working audit log, a Connect that finds no entry and whose probe succeeds leaves its true outcome as the last record, whatever else failed |
| `ControllerOutcomes.EnableSettles` | cmd/cozysoc/device_watch_control.go:56-127 | an Enable of an enabled entry records nothing and, failed with a working emergency stop, leaves no runtime live; any other, if admitted, records its true outcome last and, so failed, leaves none live that was not live before; an Enable that is not admitted does nothing |
| `ControllerOutcomes.EnableSucceedsExactly` | cmd/cozysoc/device_watch_control.go:98-127 | Enable of an entry that is not enabled succeeds exactly when it is admitted, writes, and the driver's Enable run on the applied entry succeeds; it then leaves that entry, that run's engine, its two records and the runtime the driver left; the runtime after a failure is given too |
| `ControllerOutcomes.EnableAgainSucceedsExactly` | cmd/cozysoc/device_watch_control.go:56-84 | Enable of an enabled entry succeeds exactly when the entry has a scope and the driver's Enable succeeds, and changes engine state and runtime only |
| `ControllerOutcomes.DisableSucceedsExactly` | cmd/cozysoc/device_watch_control.go:148-183 | Disable of an enabled entry succeeds exactly when it is admitted, writes, and the driver's Disable run on the disabled entry succeeds; the whole end state is given in every case, so a success has asked the driver |
| `ControllerOutcomes.DisableStrayExactly` | cmd/cozysoc/device_watch_control.go:129-150 | Disable of an entry that is not enabled succeeds exactly when no runtime is live or its request is recorded and the driver's Disable succeeds; the whole end state is given |
| `ControllerOutcomes.RuntimeFollowsIntent` | cmd/cozysoc/device_watch_control.go:98-183 | no Enable touches the runtime before the enabled entry is on disk, and no Disable before the disabled one is |
| `ControllerOutcomes.DisableHaltsExactly` | cmd/cozysoc/device_watch_control.go:129-183 | a Disable has effects exactly when it is admitted, and then records its true outcome last; failed with a working emergency stop, it leaves the runtime live exactly when it was live and the request could not be recorded, or the entry was enabled and has no scope, fails its preflight, or could not be switched off on disk |
| `ControllerOutcomes.RefusedWriteLeavesRuntimeLive` | cmd/cozysoc/device_watch_control.go:158-162 | the failing family: the write of the disabled entry fails, the call ends failed and the runtime is still live |
| `ControllerOutcomes.LiveAfterDisableExample` | cmd/cozysoc/device_watch_control.go:148-162 | concrete inputs: a refused write, and a request that could not be recorded, each leave the runtime live |
| `ControllerOutcomes.FailedRollbackLeavesEnabled` | cmd/cozysoc/device_watch_control.go:98-127 | the failing family of Enable: a run that fails and a rollback that cannot write end failed with Device Watch enabled, on disk and in the engine alike |
| `ControllerOutcomes.EnabledAfterEnableExample` | cmd/cozysoc/device_watch_control.go:98-127 | a concrete input of that family |
| `Controllers.Connections.Connect` | internal/controller/adguard/connection.go:76-151 | the object goes through exactly the states of the specified call; from a consistent state all of them are safe |
| `Controllers.Connections.UndoConnect` | internal/controller/adguard/connection.go:153-171 | the object goes through exactly the states of the specified undo |
| `Controllers.Connections.Disconnect` | internal/controller/adguard/connection.go:250-289 | the object goes through exactly the specified states; success empties both stores, and without failures it succeeds |
| `Controllers.Control.Enable` | cmd/cozysoc/device_watch_control.go:56-127 | the object goes through exactly the states of the specified call |
| `Controllers.Control.RestorePrevious` | cmd/cozysoc/device_watch_control.go:206-217 | the object goes through exactly the states of the specified rollback |
| `Controllers.Control.Disable` | cmd/cozysoc/device_watch_control.go:129-183 | the object goes through exactly the states of the specified call |
| `ConfigManager.Manager.ReplaceCapability` | internal/controller/config/manager.go:68-124 | splicing, sorting, checking and writing the list changes memory and disk together to the map with that one entry replaced, or changes nothing |
| `ConfigManager.Manager.Proposed` | internal/controller/config/manager.go:84-115 | the spliced list is sorted, has no id twice, and holds exactly the intended entries |
| `ConfigManager.Manager.Capability` | internal/controller/config/manager.go:52-66 | the search finds the entry of the map view, or none |
| `ConfigManager.ReplaceMeaning` | internal/controller/config/manager.go:68-124 | success makes the entry what was asked for, failure changes nothing, other entries are never touched, validity is kept |
| `ConfigManager.ReplaceSucceedsExactly` | internal/controller/config/manager.go:68-124 | replacing succeeds exactly when the entry is valid for its id and nothing would change or the file can be written; it reports a change exactly when there was one, and what was there before |
| `ConfigManager.SpliceLists` | internal/controller/config/manager.go:96-111 | removing, replacing or appending in the list is removing or updating in the map |
| `ConfigManager.ValidateList` | internal/controller/config/config.go:141-151 | the loop accepts exactly the lists without an empty or repeated id |
| `Capability.ApplyNeverFails` | internal/controller/capability/lifecycle_config.go:59-90 | applying a valid configuration cannot fail, keeps every stored state valid, keeps the process, forgets the verdict exactly when intent changes, and touches no other capability |
| `Capability.RemoveNeverFails` | internal/controller/capability/lifecycle_config.go:95-122 | removing a known configuration cannot fail, keeps the process, forgets the verdict and touches no other capability |
| `Capability.InitialStatesValidate` | internal/controller/capability/instance.go:121-140 | initial states validate exactly when no built-in manifest requires a process |
| `Capability.NewEngineInv` | internal/controller/capability/lifecycle.go:116-146 | a fresh engine satisfies the invariant, holds the given configurations and has verified nothing |
| `Lifecycle.RunKeepsEngine` | internal/controller/capability/lifecycle.go:163-268 | any action with any driver keeps the invariant, never trips the desired-state guard, changes nothing on failure and nothing else on success, with at most three calls of each kind |
| `Lifecycle.ActsOnlyWhenReady` | internal/controller/capability/lifecycle.go:179-266 | the driver is asked to act only when manifest, ownership and intent allow it and a preflight passed all its blocking checks |
| `Lifecycle.AllowedExactly` | internal/controller/capability/lifecycle.go:372-406 | which actions each kind of owner and each intent allows |
| `Lifecycle.VerifiedMeansAllFresh` | internal/controller/capability/lifecycle.go:213-236 | a capability becomes verified only by a returned report in which every declared signal is fresh |
| `Lifecycle.VerifySucceedsExactly` | internal/controller/capability/lifecycle.go:163-236 | Verify succeeds exactly when it is admissible and returns a report of declared signals, each once; it stores the worst verdict of that report and nothing else |
| `Lifecycle.StepSucceedsExactly` | internal/controller/capability/lifecycle.go:163-268 | every other action succeeds exactly when it is admissible, its preflight passes, the driver's step returns and its process is allowed; it stores that process, forgets the verdict and reports the step's change flag and both call counts |
| `Lifecycle.PreflightSucceedsExactly` | internal/controller/capability/lifecycle.go:163-212 | Preflight stores nothing and succeeds exactly when it is admissible and returns a report without repeated checks |
| `Lifecycle.SetStateKeepsEngine` | internal/controller/capability/lifecycle.go:329-341 | a state with the current desired field never trips the guard and keeps the invariant |
| `Lifecycle.RetryMeaning` | internal/controller/capability/lifecycle.go:519-543 | attempts stay within the limit, every attempt but the last failed retryably, success is the last call's, and a failure has one of the four causes |
| `Lifecycle.RetryCall` | internal/controller/capability/lifecycle.go:519-543 | the reported count is the number of calls made |
| `Lifecycle.EvaluateVerification` | internal/controller/capability/lifecycle.go:452-486 | the two loops compute the maximum severity of the declared signals, refusing undeclared ones |
| `Lifecycle.WorstIsMaximum` | internal/controller/capability/lifecycle.go:464-486 | the verdict severity is a maximum over the declared signals |
| `Lifecycle.VerdictIgnoresOrder` | internal/controller/capability/lifecycle.go:452-486 | the verdict is the same for every order of declared and of reported signals |
| `LifecycleObject.LifecycleEngine.Run` | internal/controller/capability/lifecycle.go:163-268 | the object's new state and result are the specified ones, and only one stored state may change |
| `LifecycleObject.LifecycleEngine.ApplyConfiguration` | internal/controller/capability/lifecycle_config.go:59-90 | the maps are updated as specified |
| `LifecycleObject.LifecycleEngine.RemoveConfiguration` | internal/controller/capability/lifecycle_config.go:95-122 | the maps are updated as specified |
| `LifecycleObject.LifecycleEngine.StoreState` | internal/controller/capability/lifecycle.go:329-341 | an invalid or intent-changing state is refused and leaves the map alone |
| `CheckBinding.EligibleHostAvoidsTable` | internal/controller/checkbinding/binding.go:66-84 | an address without a zone is eligible exactly when it lies in none of the nine ranges |
| `CheckBinding.ExcludedRangeIsExact` | internal/controller/checkbinding/binding.go:77-84 | nine overlap tests reject a prefix exactly when some address in it is not eligible |
| `NetIP.OverlapsMeansSharedAddress` | internal/controller/checkbinding/binding.go:77-84 | comparing the shorter masks decides whether two ranges share an address |
| `CheckBinding.FillHostBits` | internal/controller/checkbinding/binding.go:86-99 | the in-place byte and bit loop adds 2^(host bits) - 1 to the masked value |
| `CheckBinding.LastAddress` | internal/controller/checkbinding/binding.go:86-99 | base + 2^(width - bits) - 1 for both widths and every length |
| `CheckBinding.MembersAreAnInterval` | internal/controller/checkbinding/binding.go:86-99 | the members of a masked prefix are exactly the addresses from its base to that last address |
| `CheckBinding.SubnetHostVetoes` | internal/controller/checkbinding/binding.go:101-109 | exactly the lowest and highest address of an IPv4 range of more than two, and the lowest of an IPv6 range of more than one, are vetoed |
| `CheckBinding.RangeAccepted` | internal/controller/checkbinding/binding.go:32-40 | two ends and nine overlaps accept a range exactly when every address in it is eligible |
| `CheckBinding.Validate` | internal/controller/checkbinding/binding.go:17-61 | the loop decides a declarative condition on the whole list and returns it sorted with the target's membership |
| `CheckBinding.DecisionIgnoresOrder` | internal/controller/checkbinding/binding.go:17-61 | the whole result is the same for every permutation of the enrolled list |
| `CheckRoute.MatchesEnrollment` | internal/controller/checkroute/inspect.go:128-151 | filling and emptying the set decides that the enrolled list enumerates the live prefixes without repetition |
| `CheckRoute.MatchesRoute` | internal/controller/checkroute/inspect.go:153-189 | the flags decide the route's shape, its gateway and the ownership of source and target in both reads |
| `CheckRoute.Inspect` | internal/controller/checkroute/inspect.go:67-126 | evidence is given exactly when every answer came in time and both reads and the route are consistent |
| `CheckRoute.EvidenceMeaning` | internal/controller/checkroute/inspect.go:67-189 | the source is eligible, of the target's family, owned in both reads and covered by a live prefix in both; the target is owned in neither |
| `CheckRoute.OnLinkExactly` | internal/controller/checkroute/inspect.go:153-189 | an on-link answer is accepted exactly when it names the interface's own link, covers the target, and an address of the interface that is the source covers the target in both reads |
| `CheckRoute.RoutedExactly` | internal/controller/checkroute/inspect.go:153-189 | a routed answer is accepted exactly when its next hop is of the target's family, neither end, global or link-local in the interface's zone, not owned and covered by a prefix of the interface in both reads |
| `DeviceWatchRuntime.OneLoopAtATime` | internal/controller/devicewatch/runtime.go:110-249 | under every interleaving at most one goroutine has yet to clean up, no channel closes twice, and started, done, cancel and the reported state agree |
| `DeviceWatchRuntime.GenerationTestAlwaysTrue` | internal/controller/devicewatch/runtime.go:177-187 | whenever the goroutine tests that the published channel is its own, it is |
| `DeviceWatchRuntime.StopMeansEnded` | internal/controller/devicewatch/runtime.go:192-217 | a Stop without error read a generation whose goroutine has ended, and never meets a started runtime without a channel |
| `DeviceWatchRuntime.StartTakesEffect` | internal/controller/devicewatch/runtime.go:110-190 | a Start that finds nothing live publishes a new looping generation and shows it running; one that finds a live generation changes nothing |
| `DeviceWatchRuntime.StopTakesEffect` | internal/controller/devicewatch/runtime.go:192-217 | a Stop that finds a live generation cancels that one and waits for its channel; one that finds none has nothing to do |
| `DeviceWatchRuntime.StopCanAlwaysFinish` | internal/controller/devicewatch/runtime.go:192-249 | from every state in which Stop waits, the goroutine can run to its end and the wait is over |
| `DeviceWatchRuntime.StopFinishesUnderFairness` | internal/controller/devicewatch/runtime.go:192-249 | in every infinite run with a fair scheduler, from some time on a Stop that still waits can return without error |
| `DeviceWatchRuntime.CancelledEventuallyEnds` | internal/controller/devicewatch/runtime.go:177-249 | in every such run a cancelled goroutine ends and its channel is closed once |
| `DeviceWatchRuntime.OthersLeaveItAlone` | internal/controller/devicewatch/runtime.go:110-249 | no other step undoes a cancellation or moves a goroutine on its way out |
| `DeviceWatchRuntime.StepKeeps` | internal/controller/devicewatch/runtime.go:110-277 | every critical section keeps the invariant |
| `DeviceWatchRuntime.Runtime.PublishUnlessStarted` | internal/controller/devicewatch/runtime.go:163-175 | the locked section of Start is one step of the machine and keeps its invariant; it publishes exactly when no goroutine has yet to clean up |
| `DeviceWatchRuntime.Runtime.CleanUpGeneration` | internal/controller/devicewatch/runtime.go:177-187 | the locked section of the goroutine is one step of the machine and keeps its invariant; the published channel was its own, and nothing is started afterwards |
| `DeviceWatchRuntime.Runtime.RecordCollection` | internal/controller/devicewatch/runtime.go:251-265 | the locked section of collect is one step of the machine and keeps its invariant; the result recorded belongs to the live generation whose scope the state shows |
| `DeviceWatchRuntime.Runtime.ReadForStop` | internal/controller/devicewatch/runtime.go:196-203 | the locked read of Stop names the live generation, and none exactly when no goroutine is live |
| `WebReview.OneCallPerReview` | cmd/cozysoc/web_adguard_collection.go:50-143 | under every interleaving and clock, no review authorises two calls, and each call carries exactly what was shown and approved before it expired |
| `WebReview.ReviewIsShown` | cmd/cozysoc/web_adguard_collection.go:50-100 | with nothing pending and nothing running, a review request is shown, with the parameters it loaded and its own expiry |
| `WebReview.DecisionIsCarriedOut` | cmd/cozysoc/web_adguard_collection.go:100-143 | an approval in time is called once with what was shown and then everything is free again; a refusal only consumes the review; another id or a late decision changes nothing |
| `WebReview.QuestionIsDecided` | cmd/cozysoc/web_gateway_check.go:186-247 | the runner's question is approved exactly when it matches what was shown before the review expired, and can be asked once |
| `WebReview.OneCollectionAtATime` | cmd/cozysoc/web_adguard_collection.go:116-137 | while collecting no review is pending, the flag is up exactly while a request holds an approval, and at most one collection is in flight |
| `WebReview.GatewayApprovesOnlyWhatWasShown` | cmd/cozysoc/web_gateway_check.go:123-228 | each reviewed plan has at most one check approved, with the shown target, source, binding and budget, before the plan expired |
| `WebReview.StepKeeps` | cmd/cozysoc/web_gateway_check.go:150-228 | every locked section of either handler keeps the invariant |
| `WebReview.Reviews.PublishUnlessBusy` | cmd/cozysoc/web_adguard_collection.go:88-95 | the locked section is one step of the machine and keeps its invariant; a review becomes the pending one only when nothing runs and none is unexpired |
| `WebReview.Reviews.Consume` | cmd/cozysoc/web_adguard_collection.go:116-127 | the locked section is one step of the machine and keeps its invariant; a review is consumed exactly when it matches and has not expired, whatever the decision, and an approval leaves this request its only holder, not yet called |
| `WebReview.Reviews.Release` | cmd/cozysoc/web_adguard_collection.go:132-136 | the deferred section is one step of the machine and keeps its invariant; the request was the only one holding an approval, so afterwards none does and nothing is pending |
| `ReconcileTraces.EveryChoiceIsDecided` | internal/controller/devicewatch/reconcile.go:77-187 | for every trace with distinct observation ids, in any order, with any clock and any failed writes: a sighting is ambiguous exactly when two earlier linked, in-window, retained sightings of its identity carry different devices, continues exactly when they carry one, and creates exactly when there is none |
| `ReconcileTraces.RuleIsExclusive` | internal/controller/devicewatch/reconcile.go:136-153 | the three cases of the rule exclude one another |
| `ReconcileTraces.EveryResultIsReported` | internal/controller/devicewatch/reconcile.go:189-224 | the call reports that choice and leaves exactly the rows its writes let through |
| `ReconcileTraces.CandidatesAreShown` | internal/controller/storage/devicewatch.go:172-214 | the query returns the devices of the linked sightings in the window whose claims are retained, and nothing else |
| `ReconcileTraces.ReplayExactly` | internal/controller/devicewatch/reconcile.go:189-224 | a replay at any time after any trace changes nothing and names the same device exactly when that device is shown to it and no other |
| `ReconcileRuns.NeverAmbiguous` | internal/controller/devicewatch/reconcile.go:77-187 | in non-decreasing observed time, if sightings arrive promptly or the store's clock never runs backwards, none is ambiguous whatever writes fail, and a device is created exactly at the first sighting, after a gap beyond 7 days, and when the evidence before has expired |
| `ReconcileRuns.SameDeviceExactlyWhenContinuous` | internal/controller/devicewatch/reconcile.go:77-187 | in such a run two linked sightings carry one device exactly when they share scope and MAC and each linked one between is within 7 days of the one before and finds its evidence retained |
| `ReconcileRuns.SameDeviceExactlyWithoutGaps` | internal/controller/devicewatch/reconcile.go:77-187 | for sightings that arrive promptly and are stored: one device exactly when scope and MAC agree and no consecutive gap between them exceeds 7 days |
| `ReconcileRuns.ReplayChangesNothing` | internal/controller/devicewatch/reconcile.go:189-224 | in such a run a sighting delivered again, while its evidence is retained and not before any earlier arrival, changes no table and names the same device |
| `ReconcileRuns.ExpiredEvidenceSplits` | internal/controller/storage/devicewatch.go:186-197 | of two sightings within 7 days the second gets another device exactly when the first one's evidence has expired |
| `ReconcileRuns.ClockSteppedBackIsAmbiguous` | internal/controller/devicewatch/reconcile.go:136-144 | in order of observation, but with a store clock that steps back over an expiry, the third sighting is ambiguous |
| `ReconcileRuns.LateSightingIsAmbiguous` | internal/controller/devicewatch/reconcile.go:136-144 | whenever a sighting arrives late from between two runs, the next one is ambiguous |
| `ReconcileRuns.FamiliesExist` | internal/controller/devicewatch/reconcile.go:136-144 | each of these families has an input |
| `ReconcileRuns.AmbiguousLeavesClaims` | internal/controller/devicewatch/reconcile.go:141-144 | an ambiguous sighting leaves its two claims and no device or link |
| `Reconcile.ReconcileAdds` | internal/controller/devicewatch/reconcile.go:189-224 | the whole effect and result of an observation with new identifiers, whichever of its writes fail, before or after their effect |
| `Reconcile.RowsExactly` | internal/controller/devicewatch/reconcile.go:77-187 | field by field, the rows an observation with new identifiers leaves: two claims with kind, validity, retention and confidence; a device exactly when none was found; a link of each claim, marked as continuity exactly when one was |
| `Reconcile.IdentityStore.ReconcileObservation` | internal/controller/devicewatch/reconcile.go:189-224 | the loops over claims and links leave the tables and the result as specified, with links to the claims as resolved, whichever writes fail |
| `Reconcile.IdentityStore.PutClaim` | internal/controller/storage/devicewatch.go:104-144 | insert unless it conflicts, then the id stored under the source key, or an error, before or after the insert |
| `Reconcile.IdentityStore.PutDevice` | internal/controller/storage/devicewatch.go:81-102 | a device is added once and refused with another creation time |
| `Reconcile.IdentityStore.PutLink` | internal/controller/storage/devicewatch.go:146-170 | a link is added once |
| `DeviceWatchCoverage.VerifiedExactlyWhenActive` | internal/controller/devicewatch/lifecycle.go:150-189 | the five signals yield verified exactly when the scope is current and effective coverage of the same facts is active |
| `DeviceWatchCoverage.CoverageNeverWorseThanVerdict` | internal/controller/devicewatch/coverage_operational.go:3-24 | for a stored scope the coverage shown is never worse than the verdict |
| `DeviceWatchCoverage.ActiveExactly` | internal/controller/devicewatch/operational_health.go:112-267 | coverage is active exactly when the runtime succeeded in the last three minutes without error, ingestion and storage are current, and a usable sample of that time saw both neighbour tables |
| `DeviceWatchCoverage.VerdictIsWorst` | internal/controller/capability/lifecycle.go:452-486 | with the five declared signals the verdict is as bad as the worst of them |
| `DeviceWatchCoverage.AllFreshExactly` | internal/controller/devicewatch/operational_health.go:269-307 | all five signals are fresh exactly when the scope is current and effective coverage is active |
| `DeviceWatchCoverage.CurrentCoverage` | internal/controller/devicewatch/coverage_report.go:87-172 | the step-by-step report is the specified one, sources rewritten in place included |
| `CoverageOutcomes.ReportExactly` | internal/controller/devicewatch/coverage_report.go:87-172 | each of the seven reasons of the report as an if-and-only-if on the sample, its flags and the clock |
| `CoverageOutcomes.UsableExactly` | internal/controller/devicewatch/coverage_report.go:174-247 | a sample is unusable exactly when it has one of the listed defects |
| `CoverageOutcomes.ReportStateExactly` | internal/controller/devicewatch/coverage_report.go:87-172 | each state of the report as an if-and-only-if on the sample and the clock, with its guidance |
| `CoverageOutcomes.InTimeExactly` | internal/controller/devicewatch/coverage_report.go:147-171 | for a usable sample in time: reason, state and guidance from which neighbour tables were available and whether a permission is missing |
| `CoverageOutcomes.SourcesExactly` | internal/controller/devicewatch/coverage_report.go:249-297 | each neighbour table of the report: missing, unknown, out of date, or as its own flags say |
| `CoverageOutcomes.SensorExactly` | internal/controller/devicewatch/operational_health.go:112-146 | each state of the sensor as an if-and-only-if on the runtime and the clock |
| `CoverageOutcomes.PartsExactly` | internal/controller/devicewatch/operational_health.go:165-267 | when the ingestion queue and the database count as current, disconnected or unavailable |
| `CoverageOutcomes.EffectiveStateExactly` | internal/controller/devicewatch/coverage_operational.go:3-24 | each state of the effective coverage as an if-and-only-if on the facts: sensor first, then stores, then the sample |
| `CoverageOutcomes.EffectiveReasonExactly` | internal/controller/devicewatch/coverage_operational.go:3-24 | which part gives the reason and the guidance, in the same order; a full database explains a refused write |
| `CoverageOutcomes.VerdictExactly` | internal/controller/devicewatch/lifecycle.go:150-189 | the verdict from the facts: degraded when something fails, else stale when something is out of date, else unverified while something is missing, else verified |
| `CoverageOutcomes.ContractScopeExactly` | internal/controller/devicewatch/coverage_contract.go:74-120 | the contract claims a family as verified exactly when its neighbour table is current, and the network exactly when either is |
| `CoverageOutcomes.ContractPasses` | internal/controller/devicewatch/coverage_contract.go:11-62 | state, reason, guidance and sensor are passed on, and each source with its own state |
| `CoverageOutcomes.ContractWindowExactly` | internal/controller/devicewatch/coverage_contract.go:29-36 | the window is the sample's own instant, and there is one exactly when there is a sample |
| `DeviceWatchCoverage.RewriteSources` | internal/controller/devicewatch/coverage_report.go:129-142 | every source entry is rewritten in place and nothing else of it changes |
| `DeviceWatchCoverage.DecodeCoverageEvidence` | internal/controller/devicewatch/coverage_report.go:187-230 | the checks and loops accept exactly the well-formed evidence |
| `DeviceWatchCoverage.DecodeSources` | internal/controller/devicewatch/coverage_report.go:210-229 | the loop accepts exactly one ARP and one NDP source with a possible permission state |
| `DeviceWatchCoverage.CoverageStatusConsistent` | internal/controller/devicewatch/coverage_report.go:232-247 | the count decides whether the status says that a source was available |
| `CoverageContract.ContractValidatesExactly` | internal/controller/devicewatch/coverage_contract.go:11-62 | for every sample, clock and health the contract passes the whole validation exactly when scope id, sensor id and sample time are presentable |
| `CoverageContract.ScopeIsPartitioned` | internal/controller/devicewatch/coverage_contract.go:74-118 | verified and expected-unverified dimensions partition the configured scope |
| `CoverageContract.EffectiveIsPresentable` | internal/controller/devicewatch/coverage_operational.go:3-24 | whichever component decides, the reason is a token and guidance is present |
| `CoverageContract.StoredIdsPresentable` | internal/controller/domain/validate.go:14 | a stored scope id is always presentable, a stored sensor id exactly without colons, doubled or trailing separators |
| `CoverageContract.StoredSensorIsRefused` | internal/controller/coverage/model.go:22 | a sample with a sensor id the store accepts has no valid contract, whatever else holds |
| `CoverageContract.RuntimeSensorIsPresentable` | internal/controller/devicewatch/runtime.go:136 | the sensor ids the runtime makes are always presentable |
| `CoverageContract.CoverageContract` | internal/controller/devicewatch/coverage_contract.go:11-62 | the built report, or none exactly when it does not validate |
| `CoverageContract.CoverageScope` | internal/controller/devicewatch/coverage_contract.go:74-118 | the loop builds the specified scope |
| `CollectedCoverage.RuntimeSampleHasContract` | internal/controller/devicewatch/coverage_contract.go:11-62 | a sample of the runtime's sensor has a valid contract at every clock and with every health |
| `CollectedCoverage.CollectThenPresent` | internal/controller/devicewatch/collector.go:87-168 | from collection to contract: every sample the runtime stores validates later, and after a success it is not invalid evidence and reports the neighbours that were visible |
| `Coverage.ValidateReport` | internal/controller/coverage/model.go:157-197 | the validator decides exactly the declarative condition on the whole report |
| `Coverage.ValidMeans` | internal/controller/coverage/model.go:157-406 | what a reader of a valid report may rely on: only evidence-backed claims, nothing both verified and expected, current sources observed, guidance everywhere else |
| `Coverage.ValidateObservationPoint` | internal/controller/coverage/model.go:199-254 | the validator decides exactly the condition on one point |
| `Coverage.ValidateScope` | internal/controller/coverage/model.go:256-278 | expected-unverified is configured and not verified, each list valid |
| `Coverage.ValidateDimensionList` | internal/controller/coverage/model.go:280-299 | accepts exactly short lists of valid values without repetition and returns their set |
| `Coverage.ValidateSources` | internal/controller/coverage/model.go:301-328 | accepts exactly distinct valid sources with evidence or guidance |
| `Coverage.ValidateDirections` | internal/controller/coverage/model.go:330-345 | accepts exactly short lists without repetition |
| `Coverage.ValidateGaps` | internal/controller/coverage/model.go:240-252 | accepts exactly distinct valid gaps |
| `Coverage.ValidateEvidenceBacked` | internal/controller/coverage/model.go:227-236 | without a window nothing may be verified, directed, current or observed |
| `Coverage.ValidateSinglePointReport` | internal/controller/coverage/single_point.go:10-25 | additionally the report is its one point's aggregate |
| `Collector.DeduplicateNeighbors` | internal/controller/devicewatch/neighbor.go:189-206 | in place: the kept prefix is the sorted list with one element per key |
| `Collector.DeduplicatedMeaning` | internal/controller/devicewatch/neighbor.go:189-206 | strictly ascending keys, exactly the keys there were, nothing invented |
| `Collector.Compacted` | internal/controller/devicewatch/neighbor.go:195-205 | the compaction loop keeps the first of each run of equal keys |
| `Collector.Sink.CollectOnce` | internal/controller/devicewatch/collector.go:87-168 | success comes exactly when scope, snapshot and every write work; it stores exactly the visible neighbours and one usable sample whose counts say how many were new and how many stored before; only a failed snapshot leaves another sample, usable exactly when no source was available |
| `Collector.VisibleExactly` | internal/controller/devicewatch/collector.go:105-125 | what is visible: only neighbours on the interface and in scope, and one for the key of each of those |
| `Collector.KeyExactly` | internal/controller/devicewatch/neighbor.go:189-210 | the key tells two neighbours apart exactly when source, interface, address or hardware address differ |
| `Collector.ObservationExactly` | internal/controller/devicewatch/collector.go:170-219 | two sightings are one observation exactly when they are of one neighbour, by one sensor in one scope, in one minute |
| `Collector.SamplesExactly` | internal/controller/devicewatch/collector.go:87-270 | every field of the sample of a success and of a failed snapshot |
| `Storing.OfferAll` | internal/controller/devicewatch/collector.go:144-158 | the submission loop stores and counts exactly what was not stored before, and stops at the first failure |
| `Storing.OfferedOnce` | internal/controller/devicewatch/collector.go:144-158 | for distinct observations the deduplicated count is the number stored before |
| `Collector.OneObservationEach` | internal/controller/devicewatch/collector.go:170-190 | deduplicated neighbours give distinct observations |
| `Collector.SampleUsableExactly` | internal/controller/devicewatch/collector.go:221-270 | a written sample is usable exactly when its status says whether a source was available |
| `Collector.CollectedSampleIsNeverInvalid` | internal/controller/devicewatch/collector.go:160-270 | the sample of a successful collection is never classed as invalid evidence, at any later time |
| `AdGuardCollection.EveryQueryIsCounted` | internal/controller/adguard/observation.go:41-109 | the five counts add up to the number of queries, and the selected count is the selection's length |
| `AdGuardCollection.TallyMeaning` | internal/controller/adguard/observation.go:49-108 | each counter of the fold is the number of queries with that mark |
| `AdGuardCollection.CountsExactly` | internal/controller/adguard/observation.go:49-108 | each counter is the number of queries that meet its own condition: hidden client; address in no enrolled prefix; outside the last day; first of its key; repeated |
| `AdGuardCollection.EnrolledExactly` | internal/controller/adguard/observation.go:49-67 | a query counts as enrolled exactly when its client shows a readable address contained in some enrolled prefix |
| `AdGuardCollection.SelectionExactly` | internal/controller/adguard/observation.go:41-109 | the selection has only queries of enrolled clients within the last day, the key of every such query, and each key once |
| `AdGuardCollection.SelectionMeaning` | internal/controller/adguard/observation.go:41-109 | the selection has exactly the eligible keys, each once, and only eligible queries |
| `AdGuardCollection.BuildObservations` | internal/controller/adguard/observation.go:31-110 | fails exactly on a refused scope, a query that cannot be read or an invalid observation of a key; otherwise gives the selection and the five counts, each by its own condition |
| `AdGuardCollection.Collector.Submit` | internal/controller/adguard/collector.go:144-158 | a completed submission stores exactly the selected rows and counts how many were new and how many stored before |
| `AdGuardCollection.Collector.Collect` | internal/controller/adguard/collector.go:74-160 | nothing is stored before the request is audited; success comes exactly when every step works, audits completion, gives each count by its own condition and stores exactly the rows of all chosen queries |
| `AdGuardCollection.AccountingSurvives` | cmd/cozysoc/adguard_control.go:82-85 | the projected counters still account for every query, so the browser's check accepts them |
| `AdGuardCollection.CollectForBrowser` | cmd/cozysoc/web_adguard_collection.go:148-151 | through every layer, a successful collection passes the browser's accounting check, and each number shown is what it says |
| `QualityDiagnosis.DiagnosisIgnoresOrder` | cmd/cozysoc/quality_diagnosis.go:76-297 | the whole diagnosis is the same for every permutation of each layer's runs |
| `QualityDiagnosis.TieRejectsDiagnosis` | cmd/cozysoc/quality_diagnosis.go:121-143 | a tie for the latest run in any layer rejects the diagnosis |
| `QualityDiagnosis.ComparedOnlyWhenUsable` | cmd/cozysoc/quality_diagnosis.go:144-297 | a comparison means two or more layers, each by its sole latest run, all recorded, in one context and in the window, nothing truncated, only selected runs cited |
| `QualityDiagnosis.ComparedExactly` | cmd/cozysoc/quality_diagnosis.go:76-297 | a comparison is made exactly when no layer is refused, nothing is truncated, every item is shown and measured, the layers are comparable, and the corroboration answers citing only selected runs; it is then that answer |
| `QualityDiagnosis.UnknownExactly` | cmd/cozysoc/quality_diagnosis.go:76-297 | the outcome is unknown exactly when history is truncated or the layers are not comparable, with the code of the first reason |
| `QualityDiagnosis.CodeExactly` | cmd/cozysoc/quality_diagnosis.go:311-337 | each code as an if-and-only-if on the items, in the order of the source |
| `QualityDiagnosis.AllThatFitAreComparable` | cmd/cozysoc/quality_diagnosis.go:311-337 | two layers, and three, can be compared exactly when each run fits; one cannot |
| `QualityDiagnosis.ChoiceExactly` | cmd/cozysoc/quality_diagnosis.go:92-143 | a layer is refused exactly when it is invalid or two runs tie for the latest, and gives nothing exactly when it is empty |
| `QualityDiagnosis.SelectedAreLatest` | cmd/cozysoc/quality_diagnosis.go:92-143 | each selected run is its own layer's sole latest one |
| `QualityDiagnosis.ChoiceIgnoresOrder` | cmd/cozysoc/quality_diagnosis.go:92-143 | the run selected from a layer, or the refusal, does not depend on order |
| `QualityDiagnosis.SelectLatest` | cmd/cozysoc/quality_diagnosis.go:92-143 | the loops select the unique latest run of a valid layer or refuse |
| `QualityDiagnosis.DiagnosisPrecondition` | cmd/cozysoc/quality_diagnosis.go:311-337 | the loops give the first failing condition in order, or none |
| `QualityDiagnosis.DiagnoseRetainedQuality` | cmd/cozysoc/quality_diagnosis.go:76-297 | the specified outcome, and the corroboration is asked only about comparable runs |
| `QualityDiagnosis.AnchorIsLatest` | cmd/cozysoc/quality_diagnosis.go:144-213 | the anchor is the time of the latest selected run |
| `QualityDiagnosis.CheckKnown` | cmd/cozysoc/quality_diagnosis.go:279-291 | a verdict passes exactly when every run it cites was selected |

## Left out

- HTTP handlers, CLI, terminal and browser code, apart from the locked sections and the accounting and plan checks.
- JSON bytes, SHA-256, random tokens, regular expressions other than tokens and ids, and string lengths in bytes rather than characters.
- The wording of guidance, of blind spots and of a sample's limitations: any texts within the limits, and short stand-ins for the limitations.
- The 2 KiB value limit applies to decoded strings; the byte limit of a whole configuration is not modelled, nor are unknown enum spellings.
- SQLite, ingestion queue and network run coordinators: they are stores with stated contracts; corroboration and run validators are parameters.
- The AdGuard Home and OPNsense HTTP clients, sockets and the Darwin route-message parser.
- Manifest text, version comparison, field-by-field API copies.
- RetireScope, Current, ReadSnapshot and EnabledScopeID: they only read or forward.
- Context deadlines and monotonic time: a deadline is one of the failures a call may meet.
- Which error a failed call returns, where callers do not act on it; log messages.
- Effects inside one engine call: applying a configuration and running an action are one step each, as the per-capability operation lock makes them.
- Aliasing of Go slices and maps: the manager's clones are values, and nil and empty maps are one value.
- Retired devices, device merges and splits, sensor registration, and arrival findings in reconciliation; a second delivery of an observation whose first one failed.
- ReconcileTraces.CandidatesAreShown: does not filter retired devices, because nothing modelled here retires one.
- OPNsense collection and history, which follow the AdGuard Home pattern; its driver has no sequential form here beside its turns.
- Non-ASCII letters in interface names; the model accepts ASCII letters, digits and `. _ - :` only.
- ControllerRuns.IntentAgreesAlways: calls run one after another here, because Interleaving.EveryInterleavingIsSafe states what holds when they overlap.
- ControllerRuns.RunsStayQuiet: calls run one after another here, because Interleaving.EveryInterleavingIsSafe states what holds when they overlap.
- DeviceWatchRuntime.StopCanAlwaysFinish: shows that the goroutine's remaining steps are possible; DeviceWatchRuntime.StopFinishesUnderFairness shows that a fair scheduler takes them.
- Collector.DeduplicateNeighbors: sorts with a stable insertion, while Go's sort may keep another of several neighbours with equal keys; the key results do not depend on it.
- Collector.CollectedSampleIsNeverInvalid: is about any counts that add up, because Collector.Sink.CollectOnce states it of the sample it stored.
- AdGuardCollection.BuildObservations: the early exit of the loop over prefixes is an existential condition.
