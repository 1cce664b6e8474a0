/** Model of cmd/cozysoc/device_watch_control.go: enabling and disabling Device
    Watch, with rollback of the durable entry when the runtime cannot be started. */
module DeviceWatchControl {
  import opened Ordering
  import opened Capability
  import opened Lifecycle
  import opened ConfigManager
  import opened ControllerWorld

  const DEVICE_WATCH: string := "device-watch"

  lemma IdsDiffer()
    ensures DEVICE_WATCH != ADGUARD
  {
    assert DEVICE_WATCH[0] != ADGUARD[0];
  }

  function ScopeOf(c: Configuration): Option<string> {
    if "network_scope_id" in c.values && c.values["network_scope_id"].JString?
        && c.values["network_scope_id"].text != ""
    then Some(c.values["network_scope_id"].text) else None
  }

  function Proposed(scope: string): Configuration {
    Configuration(DEVICE_WATCH, Builtin, Enabled, map["network_scope_id" := JString(scope)])
  }

  /** `PreflightConfiguration`: reads only. */
  predicate Preflighted(reg: Registry, drivers: set<string>, c: Configuration, action: Action, d: Driver) {
    && ValidConfiguration(reg, c) && action in reg[c.id].lifecycle && OwnershipAllows(c.ownership, action)
    && DesiredAllows(c.desired, action) && c.id in drivers
    && var p := Retry(d.preflight, MAX_ATTEMPTS, 1);
       p.value.Some? && ValidPreflight(p.value.value) && Ready(p.value.value)
  }

  /** `scopes` is None when the store cannot list them. `activeAfterRun` is the
      runtime's state once the driver has been called, whatever it did; `stops` says
      whether the emergency stop works. */
  datatype ControlEnv = ControlEnv(scopes: Option<seq<string>>, preflight: Driver, auditsRequest: bool, writes: bool,
                                   run: Driver,
                                   activeAfterRun: bool, stops: bool, rollbackWrites: bool, auditsOutcome: bool)

  // Each function below is one effect followed by the rest of the call.

  function Ended(w: World, phase: string, env: ControlEnv, ok: bool): Call {
    Call([Audited(w, DEVICE_WATCH, phase, env.auditsOutcome)], ok)
  }

  function EmergencyStop(w: World, env: ControlEnv): World { w.(active := w.active && !env.stops) }

  function AfterRun(w: World, r: Ran, env: ControlEnv): World { w.(engine := r.engine, active := env.activeAfterRun) }

  function Enable(reg: Registry, drivers: set<string>, w: World, env: ControlEnv): Call
    requires ConsistentRegistry(reg)
  {
    var current := Lookup(w.durable, DEVICE_WATCH);
    if current.Some? && current.value.desired == Enabled then
      if ScopeOf(current.value).None? then Call([], false) else EnableAgain(reg, drivers, w, env)
    else if env.scopes.None? || |env.scopes.value| != 1 then Call([], false)
    else EnableProposed(reg, drivers, w, Proposed(env.scopes.value[0]), env)
  }

  function EnableProposed(reg: Registry, drivers: set<string>, w: World, proposed: Configuration, env: ControlEnv): Call
    requires ConsistentRegistry(reg)
  {
    if !Preflighted(reg, drivers, proposed, Action.Enable, env.preflight) || !env.auditsRequest then Call([], false)
    else
      var w' := Audited(w, DEVICE_WATCH, "requested", true);
      Then(w', EnableWrite(reg, drivers, w', proposed, env))
  }

  function EnableAgain(reg: Registry, drivers: set<string>, w: World, env: ControlEnv): Call
    requires ConsistentRegistry(reg)
  {
    var r := Run(reg, drivers, w.engine, DEVICE_WATCH, Action.Enable, env.run);
    var w' := AfterRun(w, r, env);
    Then(w', EnableAgainEnd(w', r.result.failure.Some?, env))
  }

  function EnableAgainEnd(w: World, failed: bool, env: ControlEnv): Call {
    if failed then Call([EmergencyStop(w, env)], false) else Call([], true)
  }

  function EnableWrite(reg: Registry, drivers: set<string>, w: World, proposed: Configuration, env: ControlEnv): Call
    requires ConsistentRegistry(reg)
  {
    var r := Replace(reg, w.durable, DEVICE_WATCH, Some(proposed), env.writes);
    var w' := w.(durable := r.durable);
    Then(w', if r.ok then EnableApply(reg, drivers, w', proposed, r.previous, env) else Ended(w', "failed", env, false))
  }

  function EnableApply(reg: Registry, drivers: set<string>, w: World, proposed: Configuration,
                       previous: Option<Configuration>, env: ControlEnv): Call
    requires ConsistentRegistry(reg)
  {
    var a := ApplyConfiguration(reg, w.engine, proposed);
    var w' := w.(engine := a.engine);
    Then(w', if a.ok then EnableRun(reg, drivers, w', previous, env) else Rollback(reg, w', previous, env))
  }

  function EnableRun(reg: Registry, drivers: set<string>, w: World, previous: Option<Configuration>,
                     env: ControlEnv): Call
    requires ConsistentRegistry(reg)
  {
    var r := Run(reg, drivers, w.engine, DEVICE_WATCH, Action.Enable, env.run);
    var w' := AfterRun(w, r, env);
    Then(w', if r.result.failure.None? then Ended(w', "applied", env, true) else EnableStop(reg, w', previous, env))
  }

  function EnableStop(reg: Registry, w: World, previous: Option<Configuration>, env: ControlEnv): Call {
    var w' := EmergencyStop(w, env);
    Then(w', Rollback(reg, w', previous, env))
  }

  /** `restorePreviousConfiguration`, then the outcome audit. */
  function Rollback(reg: Registry, w: World, previous: Option<Configuration>, env: ControlEnv): Call {
    var r := Replace(reg, w.durable, DEVICE_WATCH, previous, env.rollbackWrites);
    var w' := w.(durable := r.durable);
    Then(w', if r.ok then RollbackEngine(reg, w', previous, env) else Ended(w', "failed", env, false))
  }

  function RollbackEngine(reg: Registry, w: World, previous: Option<Configuration>, env: ControlEnv): Call {
    var a := if previous.Some? then ApplyConfiguration(reg, w.engine, previous.value)
        else RemoveConfiguration(reg, w.engine, DEVICE_WATCH);
    var w' := w.(engine := a.engine);
    Then(w', Ended(w', "failed", env, false))
  }

  function Disable(reg: Registry, drivers: set<string>, w: World, env: ControlEnv): Call
    requires ConsistentRegistry(reg)
  {
    var current := Lookup(w.durable, DEVICE_WATCH);
    if current.None? || current.value.desired == Disabled then
      if !w.active then Call([], true)
      else if !env.auditsRequest then Call([], false)
      else
        var w' := Audited(w, DEVICE_WATCH, "requested", true);
        Then(w', DisableRun(reg, drivers, w', env))
    else DisableEnabled(reg, drivers, w, current.value, env)
  }

  function DisableEnabled(reg: Registry, drivers: set<string>, w: World, c: Configuration, env: ControlEnv): Call
    requires ConsistentRegistry(reg)
  {
    var proposed := c.(desired := Disabled);
    if ScopeOf(c).None? || !Preflighted(reg, drivers, proposed, Action.Disable, env.preflight)
        || !env.auditsRequest then Call([], false)
    else
      var w' := Audited(w, DEVICE_WATCH, "requested", true);
      Then(w', DisableWrite(reg, drivers, w', proposed, env))
  }

  function DisableWrite(reg: Registry, drivers: set<string>, w: World, proposed: Configuration, env: ControlEnv): Call
    requires ConsistentRegistry(reg)
  {
    var r := Replace(reg, w.durable, DEVICE_WATCH, Some(proposed), env.writes);
    var w' := w.(durable := r.durable);
    Then(w', if r.ok then DisableApply(reg, drivers, w', proposed, env) else Ended(w', "failed", env, false))
  }

  function DisableApply(reg: Registry, drivers: set<string>, w: World, proposed: Configuration, env: ControlEnv): Call
    requires ConsistentRegistry(reg)
  {
    var a := ApplyConfiguration(reg, w.engine, proposed);
    var w' := w.(engine := a.engine);
    Then(w', if a.ok then DisableRun(reg, drivers, w', env) else DisableStop(w', env))
  }

  function DisableRun(reg: Registry, drivers: set<string>, w: World, env: ControlEnv): Call
    requires ConsistentRegistry(reg)
  {
    var r := Run(reg, drivers, w.engine, DEVICE_WATCH, Action.Disable, env.run);
    var w' := AfterRun(w, r, env);
    Then(w', if r.result.failure.None? then Ended(w', "applied", env, true) else DisableStop(w', env))
  }

  /** Durable intent stays disabled: a restart must not revive the runtime. */
  function DisableStop(w: World, env: ControlEnv): Call {
    var w' := EmergencyStop(w, env);
    Then(w', Ended(w', "failed", env, false))
  }

  // ----- Proofs, in the order the effects come last to first

  lemma EndedKeeps(reg: Registry, w: World, phase: string, env: ControlEnv, ok: bool)
    requires Quiet(reg, w)
    ensures Good(reg, w, Ended(w, phase, env, ok).steps)
            && Final(w, Ended(w, phase, env, ok).steps).durable == w.durable
  {
  }

  lemma RunKeeps(reg: Registry, drivers: set<string>, w: World, action: Action, env: ControlEnv)
    requires ConsistentRegistry(reg) && Quiet(reg, w)
    ensures var w' := AfterRun(w, Run(reg, drivers, w.engine, DEVICE_WATCH, action, env.run), env);
            Quiet(reg, w') && w'.durable == w.durable
  {
    RunKeepsEngine(reg, drivers, w.engine, DEVICE_WATCH, action, env.run);
  }

  lemma RollbackEngineKeeps(reg: Registry, w: World, previous: Option<Configuration>, env: ControlEnv)
    requires Safe(reg, w) && Agrees(w, DEVICE_WATCH) && Lookup(w.durable, DEVICE_WATCH) == previous
             && DEVICE_WATCH in reg
    ensures var call := RollbackEngine(reg, w, previous, env);
            Good(reg, w, call.steps) && Final(w, call.steps).durable == w.durable && !call.ok
  {
    MergeEntry(w.engine.configured, w.durable, DEVICE_WATCH);
    if previous.Some? { ApplyNeverFails(reg, w.engine, previous.value); }
    else { RemoveNeverFails(reg, w.engine, DEVICE_WATCH); }
    var a := if previous.Some? then ApplyConfiguration(reg, w.engine, previous.value)
        else RemoveConfiguration(reg, w.engine, DEVICE_WATCH);
    var w' := w.(engine := a.engine);
    EndedKeeps(reg, w', "failed", env, false);
    GoodThen(reg, w, w', Ended(w', "failed", env, false).steps);
  }

  /** The durable entry becomes the previous one if the rollback write succeeds and
      stays as it is otherwise; the engine follows in both cases. */
  lemma RollbackKeeps(reg: Registry, w: World, previous: Option<Configuration>, env: ControlEnv)
    requires Quiet(reg, w) && DEVICE_WATCH in reg
    requires previous.Some? ==> previous.value.id == DEVICE_WATCH && ValidConfiguration(reg, previous.value)
    ensures var call := Rollback(reg, w, previous, env);
            && Good(reg, w, call.steps) && !call.ok
            && Lookup(Final(w, call.steps).durable, DEVICE_WATCH) ==
               (if env.rollbackWrites then previous else Lookup(w.durable, DEVICE_WATCH))
            && Final(w, call.steps).durable - {DEVICE_WATCH} == w.durable - {DEVICE_WATCH}
  {
    IdsDiffer();
    ReplaceKeeps(reg, w, DEVICE_WATCH, previous, env.rollbackWrites);
    var r := Replace(reg, w.durable, DEVICE_WATCH, previous, env.rollbackWrites);
    var w' := w.(durable := r.durable);
    if r.ok {
      RollbackEngineKeeps(reg, w', previous, env);
      GoodThen(reg, w, w', RollbackEngine(reg, w', previous, env).steps);
    } else {
      EndedKeeps(reg, w', "failed", env, false);
      GoodThen(reg, w, w', Ended(w', "failed", env, false).steps);
    }
  }

  /** How an Enable that proposes an entry over `previous` ends: well with the proposed
      one, and otherwise with the previous one unless the proposed one `stays`. */
  ghost predicate EnableEnds(w: World, call: Call, proposed: Configuration, previous: Option<Configuration>,
                             stays: bool) {
    var last := Final(w, call.steps);
    && last.durable - {DEVICE_WATCH} == w.durable - {DEVICE_WATCH}
    && Lookup(last.durable, DEVICE_WATCH) == (if call.ok || stays then Some(proposed) else previous)
  }

  lemma EnableRunKeeps(reg: Registry, drivers: set<string>, w: World, proposed: Configuration,
                       previous: Option<Configuration>, env: ControlEnv)
    requires ConsistentRegistry(reg) && Quiet(reg, w) && DEVICE_WATCH in reg
             && Lookup(w.durable, DEVICE_WATCH) == Some(proposed)
    requires previous.Some? ==> previous.value.id == DEVICE_WATCH && ValidConfiguration(reg, previous.value)
    ensures var call := EnableRun(reg, drivers, w, previous, env);
            Good(reg, w, call.steps) && EnableEnds(w, call, proposed, previous, !env.rollbackWrites)
  {
    var r := Run(reg, drivers, w.engine, DEVICE_WATCH, Action.Enable, env.run);
    var w' := AfterRun(w, r, env);
    RunKeeps(reg, drivers, w, Action.Enable, env);
    if r.result.failure.None? {
      EndedKeeps(reg, w', "applied", env, true);
      GoodThen(reg, w, w', Ended(w', "applied", env, true).steps);
    } else {
      var s := EmergencyStop(w', env);
      RollbackKeeps(reg, s, previous, env);
      GoodThen(reg, w', s, Rollback(reg, s, previous, env).steps);
      GoodThen(reg, w, w', EnableStop(reg, w', previous, env).steps);
    }
  }

  lemma EnableApplyKeeps(reg: Registry, drivers: set<string>, w: World, proposed: Configuration,
                         previous: Option<Configuration>, env: ControlEnv)
    requires ConsistentRegistry(reg) && Safe(reg, w) && Agrees(w, DEVICE_WATCH)
             && Lookup(w.durable, DEVICE_WATCH) == Some(proposed)
    requires previous.Some? ==> previous.value.id == DEVICE_WATCH && ValidConfiguration(reg, previous.value)
    ensures var call := EnableApply(reg, drivers, w, proposed, previous, env);
            Good(reg, w, call.steps) && EnableEnds(w, call, proposed, previous, !env.rollbackWrites)
  {
    ApplyNeverFails(reg, w.engine, proposed);
    MergeEntry(w.engine.configured, w.durable, DEVICE_WATCH);
    var w' := w.(engine := ApplyConfiguration(reg, w.engine, proposed).engine);
    EnableRunKeeps(reg, drivers, w', proposed, previous, env);
    GoodThen(reg, w, w', EnableRun(reg, drivers, w', previous, env).steps);
  }

  lemma EnableWriteKeeps(reg: Registry, drivers: set<string>, w: World, proposed: Configuration, env: ControlEnv)
    requires ConsistentRegistry(reg) && Quiet(reg, w) && proposed.id == DEVICE_WATCH
             && ValidConfiguration(reg, proposed)
    ensures var call := EnableWrite(reg, drivers, w, proposed, env);
            && Good(reg, w, call.steps)
            && EnableEnds(w, call, proposed, Lookup(w.durable, DEVICE_WATCH), env.writes && !env.rollbackWrites)
  {
    IdsDiffer();
    ReplaceKeeps(reg, w, DEVICE_WATCH, Some(proposed), env.writes);
    var r := Replace(reg, w.durable, DEVICE_WATCH, Some(proposed), env.writes);
    var w' := w.(durable := r.durable);
    if r.ok {
      EnableApplyKeeps(reg, drivers, w', proposed, r.previous, env);
      GoodThen(reg, w, w', EnableApply(reg, drivers, w', proposed, r.previous, env).steps);
    } else {
      EndedKeeps(reg, w', "failed", env, false);
      GoodThen(reg, w, w', Ended(w', "failed", env, false).steps);
    }
  }

  lemma SameOutsideAndAt(a: Durable, b: Durable, id: string)
    requires a - {id} == b - {id} && Lookup(a, id) == Lookup(b, id)
    ensures a == b
  {
    MergeEntry(a, b, id);
    if id in b { assert a == a[id := b[id]]; } else { assert a - {id} == a; }
  }

  lemma EnableAgainKeeps(reg: Registry, drivers: set<string>, w: World, env: ControlEnv)
    requires ConsistentRegistry(reg) && Quiet(reg, w)
    ensures var call := EnableAgain(reg, drivers, w, env);
            Good(reg, w, call.steps) && Final(w, call.steps).durable == w.durable
  {
    RunKeeps(reg, drivers, w, Action.Enable, env);
    var r := Run(reg, drivers, w.engine, DEVICE_WATCH, Action.Enable, env.run);
    var w' := AfterRun(w, r, env);
    EnableAgainEndKeeps(reg, w', r.result.failure.Some?, env);
    GoodThen(reg, w, w', EnableAgainEnd(w', r.result.failure.Some?, env).steps);
  }

  lemma EnableAgainEndKeeps(reg: Registry, w: World, failed: bool, env: ControlEnv)
    requires Quiet(reg, w)
    ensures var call := EnableAgainEnd(w, failed, env);
            Good(reg, w, call.steps) && Final(w, call.steps).durable == w.durable
  {
  }

  /** The tests an Enable of an entry that is not enabled makes before its first effect. */
  predicate EnableAdmitted(reg: Registry, drivers: set<string>, env: ControlEnv) {
    && env.scopes.Some? && |env.scopes.value| == 1 && env.auditsRequest
    && Preflighted(reg, drivers, Proposed(env.scopes.value[0]), Action.Enable, env.preflight)
  }

  /** A failed Enable leaves intent changed: the entry was not enabled, the call was
      admitted and wrote the proposed entry, and the rollback could not write. */
  predicate IntentStays(reg: Registry, drivers: set<string>, w: World, env: ControlEnv) {
    && DesiredOf(w.durable, DEVICE_WATCH) == Disabled && EnableAdmitted(reg, drivers, env)
    && env.writes && !env.rollbackWrites
  }

  /** What an Enable has done to durable intent when it ends. */
  ghost predicate EnableOutcome(reg: Registry, drivers: set<string>, w: World, call: Call, env: ControlEnv) {
    var last := Final(w, call.steps);
    && (call.ok ==> DesiredOf(last.durable, DEVICE_WATCH) == Enabled)
    && (!call.ok ==>
          if IntentStays(reg, drivers, w, env)
          then last.durable == w.durable[DEVICE_WATCH := Proposed(env.scopes.value[0])] && last.durable != w.durable
          else last.durable == w.durable)
  }

  /** The one entry that may differ decides what changed. */
  lemma EntryDecides(a: Durable, b: Durable, proposed: Configuration, on: bool)
    requires a - {DEVICE_WATCH} == b - {DEVICE_WATCH}
    requires DesiredOf(b, DEVICE_WATCH) == Disabled && proposed.desired == Enabled
    requires Lookup(a, DEVICE_WATCH) == (if on then Some(proposed) else Lookup(b, DEVICE_WATCH))
    ensures if on then a == b[DEVICE_WATCH := proposed] && a != b else a == b
  {
    if on {
      assert b[DEVICE_WATCH := proposed] - {DEVICE_WATCH} == b - {DEVICE_WATCH};
      SameOutsideAndAt(a, b[DEVICE_WATCH := proposed], DEVICE_WATCH);
    } else {
      SameOutsideAndAt(a, b, DEVICE_WATCH);
    }
  }

  lemma EnableProposedKeeps(reg: Registry, drivers: set<string>, w: World, env: ControlEnv)
    requires ConsistentRegistry(reg) && Quiet(reg, w) && DesiredOf(w.durable, DEVICE_WATCH) == Disabled
    requires EnableAdmitted(reg, drivers, env)
    ensures var call := EnableProposed(reg, drivers, w, Proposed(env.scopes.value[0]), env);
            Good(reg, w, call.steps) && EnableOutcome(reg, drivers, w, call, env)
  {
    var proposed := Proposed(env.scopes.value[0]);
    var w' := Audited(w, DEVICE_WATCH, "requested", true);
    var rest := EnableWrite(reg, drivers, w', proposed, env);
    EnableWriteKeeps(reg, drivers, w', proposed, env);
    GoodThen(reg, w, w', rest.steps);
    var on := rest.ok || (env.writes && !env.rollbackWrites);
    EntryDecides(Final(w', rest.steps).durable, w.durable, proposed, on);
  }

  lemma EnableUnadmitted(reg: Registry, drivers: set<string>, w: World, env: ControlEnv)
    requires ConsistentRegistry(reg) && DesiredOf(w.durable, DEVICE_WATCH) == Disabled
    requires !EnableAdmitted(reg, drivers, env)
    ensures Enable(reg, drivers, w, env) == Call([], false)
  {
  }

  /** Enable from a quiet state: every step is safe and the end is quiet; success leaves
      Device Watch enabled; and a failure leaves durable intent, and with it the
      engine's, changed exactly when the entry was not enabled, the call was admitted and
      wrote, and the rollback could not write: then the proposed entry stays. */
  lemma EnableKeeps(reg: Registry, drivers: set<string>, w: World, env: ControlEnv)
    requires ConsistentRegistry(reg) && Quiet(reg, w)
    ensures var call := Enable(reg, drivers, w, env);
            Good(reg, w, call.steps) && EnableOutcome(reg, drivers, w, call, env)
  {
    if DesiredOf(w.durable, DEVICE_WATCH) == Enabled {
      EnableEnabledKeeps(reg, drivers, w, env);
    } else if EnableAdmitted(reg, drivers, env) {
      EnableIsProposed(reg, drivers, w, env);
      EnableProposedKeeps(reg, drivers, w, env);
    } else {
      EnableUnadmitted(reg, drivers, w, env);
    }
  }

  lemma EnableEnabledKeeps(reg: Registry, drivers: set<string>, w: World, env: ControlEnv)
    requires ConsistentRegistry(reg) && Quiet(reg, w) && DesiredOf(w.durable, DEVICE_WATCH) == Enabled
    ensures var call := Enable(reg, drivers, w, env);
            Good(reg, w, call.steps) && EnableOutcome(reg, drivers, w, call, env)
  {
    EnableAgainKeeps(reg, drivers, w, env);
  }

  lemma EnableIsProposed(reg: Registry, drivers: set<string>, w: World, env: ControlEnv)
    requires ConsistentRegistry(reg) && DesiredOf(w.durable, DEVICE_WATCH) == Disabled
    requires EnableAdmitted(reg, drivers, env)
    ensures Enable(reg, drivers, w, env) == EnableProposed(reg, drivers, w, Proposed(env.scopes.value[0]), env)
  {
  }

  lemma DisableStopKeeps(reg: Registry, w: World, env: ControlEnv)
    requires Quiet(reg, w)
    ensures Good(reg, w, DisableStop(w, env).steps) && Final(w, DisableStop(w, env).steps).durable == w.durable
  {
    var w' := EmergencyStop(w, env);
    EndedKeeps(reg, w', "failed", env, false);
    GoodThen(reg, w, w', Ended(w', "failed", env, false).steps);
  }

  lemma DisableRunKeeps(reg: Registry, drivers: set<string>, w: World, env: ControlEnv)
    requires ConsistentRegistry(reg) && Quiet(reg, w)
    ensures var call := DisableRun(reg, drivers, w, env);
            Good(reg, w, call.steps) && Final(w, call.steps).durable == w.durable
  {
    RunKeeps(reg, drivers, w, Action.Disable, env);
    var r := Run(reg, drivers, w.engine, DEVICE_WATCH, Action.Disable, env.run);
    var w' := AfterRun(w, r, env);
    if r.result.failure.None? {
      EndedKeeps(reg, w', "applied", env, true);
      GoodThen(reg, w, w', Ended(w', "applied", env, true).steps);
    } else {
      DisableStopKeeps(reg, w', env);
      GoodThen(reg, w, w', DisableStop(w', env).steps);
    }
  }

  lemma DisableWriteKeeps(reg: Registry, drivers: set<string>, w: World, c: Configuration, env: ControlEnv)
    requires ConsistentRegistry(reg) && Quiet(reg, w) && Lookup(w.durable, DEVICE_WATCH) == Some(c)
             && c.desired == Enabled
    ensures var proposed := c.(desired := Disabled);
            var call := DisableWrite(reg, drivers, w, proposed, env);
            && Good(reg, w, call.steps) && (call.ok ==> env.writes)
            && Final(w, call.steps).durable == (if env.writes then w.durable[DEVICE_WATCH := proposed] else w.durable)
  {
    IdsDiffer();
    var proposed := c.(desired := Disabled);
    DisabledStaysValid(reg, c);
    ReplaceKeeps(reg, w, DEVICE_WATCH, Some(proposed), env.writes);
    var r := Replace(reg, w.durable, DEVICE_WATCH, Some(proposed), env.writes);
    var w' := w.(durable := r.durable);
    if r.ok {
      ApplyNeverFails(reg, w'.engine, proposed);
      MergeEntry(w'.engine.configured, w'.durable, DEVICE_WATCH);
      var w'' := w'.(engine := ApplyConfiguration(reg, w'.engine, proposed).engine);
      DisableRunKeeps(reg, drivers, w'', env);
      GoodThen(reg, w', w'', DisableRun(reg, drivers, w'', env).steps);
      GoodThen(reg, w, w', DisableApply(reg, drivers, w', proposed, env).steps);
    } else {
      EndedKeeps(reg, w', "failed", env, false);
      GoodThen(reg, w, w', Ended(w', "failed", env, false).steps);
    }
  }

  /** Disable ends with durable intent untouched, or with exactly the one entry
      switched off; nothing after that write can revive it. */
  ghost predicate DisableOutcome(w: World, call: Call, env: ControlEnv) {
    var last := Final(w, call.steps);
    && (call.ok || (env.writes && |call.steps| > 0) ==> DesiredOf(last.durable, DEVICE_WATCH) == Disabled)
    && (last.durable == w.durable
        || (DEVICE_WATCH in w.durable
            && last.durable == w.durable[DEVICE_WATCH := w.durable[DEVICE_WATCH].(desired := Disabled)]))
  }

  /** Disable from a quiet state: every step is safe and the end is quiet. */
  lemma DisableKeeps(reg: Registry, drivers: set<string>, w: World, env: ControlEnv)
    requires ConsistentRegistry(reg) && Quiet(reg, w)
    ensures var call := Disable(reg, drivers, w, env);
            Good(reg, w, call.steps) && DisableOutcome(w, call, env)
  {
    var current := Lookup(w.durable, DEVICE_WATCH);
    var w' := Audited(w, DEVICE_WATCH, "requested", true);
    if current.None? || current.value.desired == Disabled {
      if w.active && env.auditsRequest {
        DisableRunKeeps(reg, drivers, w', env);
        GoodThen(reg, w, w', DisableRun(reg, drivers, w', env).steps);
      }
    } else {
      DisableEnabledKeeps(reg, drivers, w, current.value, env);
    }
  }

  lemma DisableEnabledKeeps(reg: Registry, drivers: set<string>, w: World, c: Configuration, env: ControlEnv)
    requires ConsistentRegistry(reg) && Quiet(reg, w) && Lookup(w.durable, DEVICE_WATCH) == Some(c)
             && c.desired == Enabled
    ensures var call := DisableEnabled(reg, drivers, w, c, env);
            Good(reg, w, call.steps) && DisableOutcome(w, call, env)
  {
    var w' := Audited(w, DEVICE_WATCH, "requested", true);
    DisableWriteKeeps(reg, drivers, w', c, env);
    GoodThen(reg, w, w', DisableWrite(reg, drivers, w', c.(desired := Disabled), env).steps);
  }
}
