/** How the calls of the two drivers end: what the audit log says last, and whether a
    runtime the call started may still be live. */
module ControllerOutcomes {
  import opened Ordering
  import opened Capability
  import opened Lifecycle
  import opened ConfigManager
  import opened ControllerWorld
  import A = AdGuardConnection
  import D = DeviceWatchControl

  /** The last audit record names the call's outcome. */
  predicate Closes(call: Call, id: string) {
    && |call.steps| > 0
    && var audit := call.steps[|call.steps| - 1].audit;
       |audit| > 0 && audit[|audit| - 1] == AuditEntry(id, if call.ok then "applied" else "failed")
  }

  lemma ClosesThen(w: World, rest: Call, id: string)
    requires Closes(rest, id)
    ensures Closes(Then(w, rest), id)
  {
  }

  // ----- Connect and its undo

  lemma UndoForgetCloses(reg: Registry, w: World, env: A.UndoEnv)
    requires env.audits
    ensures Closes(A.UndoForget(reg, w, env), ADGUARD) && !A.UndoForget(reg, w, env).ok
  {
  }

  lemma UndoRemoveCloses(reg: Registry, w: World, env: A.UndoEnv)
    requires env.audits
    ensures Closes(A.UndoRemove(reg, w, env), ADGUARD)
  {
    var r := Replace(reg, w.durable, ADGUARD, None, env.removeWrites);
    var w' := w.(durable := r.durable);
    UndoForgetCloses(reg, w', env);
    ClosesThen(w', if r.ok then A.UndoForget(reg, w', env) else A.UndoAudit(w', env), ADGUARD);
  }

  lemma UndoDeleteCloses(reg: Registry, w: World, ref: Option<string>, env: A.UndoEnv)
    requires env.audits
    ensures Closes(A.UndoDelete(reg, w, ref, env), ADGUARD)
  {
    if ref.None? {
      UndoRemoveCloses(reg, w, env);
    } else {
      var w' := w.(secrets := A.AfterDelete(w.secrets, ref.value, env.delete));
      UndoRemoveCloses(reg, w', env);
      ClosesThen(w', if env.delete == A.Done then A.UndoRemove(reg, w', env) else A.UndoAudit(w', env), ADGUARD);
    }
  }

  lemma UndoApplyCloses(reg: Registry, w: World, disabled: Configuration, ref: Option<string>, env: A.UndoEnv)
    requires env.audits
    ensures Closes(A.UndoApply(reg, w, disabled, ref, env), ADGUARD)
  {
    var a := ApplyConfiguration(reg, w.engine, disabled);
    var w' := w.(engine := a.engine);
    UndoDeleteCloses(reg, w', ref, env);
    ClosesThen(w', if a.ok then A.UndoDelete(reg, w', ref, env) else A.UndoAudit(w', env), ADGUARD);
  }

  lemma UndoCloses(reg: Registry, w: World, c: Configuration, ref: Option<string>, env: A.UndoEnv)
    requires env.audits
    ensures Closes(A.Undo(reg, w, c, ref, env), ADGUARD)
  {
    var disabled := c.(desired := Disabled);
    var r := Replace(reg, w.durable, ADGUARD, Some(disabled), env.disableWrites);
    var w' := w.(durable := r.durable);
    UndoApplyCloses(reg, w', disabled, ref, env);
    ClosesThen(w', if r.ok then A.UndoApply(reg, w', disabled, ref, env) else A.UndoAudit(w', env), ADGUARD);
  }

  lemma ConnectApplyCloses(reg: Registry, w: World, enabled: Configuration, ref: Option<string>, env: A.ConnectEnv)
    requires env.undo.audits
    ensures Closes(A.ConnectApply(reg, w, enabled, ref, env), ADGUARD)
  {
    var w' := w.(engine := ApplyConfiguration(reg, w.engine, enabled).engine);
    UndoCloses(reg, w', enabled, ref, env.undo);
    ClosesThen(w', A.Undo(reg, w', enabled, ref, env.undo), ADGUARD);
  }

  lemma ConnectEnableCloses(reg: Registry, w: World, c: Configuration, ref: Option<string>, env: A.ConnectEnv)
    requires env.undo.audits
    ensures Closes(A.ConnectEnable(reg, w, c, ref, env), ADGUARD)
  {
    var enabled := c.(desired := Enabled);
    var r := Replace(reg, w.durable, ADGUARD, Some(enabled), env.secondWrites);
    var w' := w.(durable := r.durable);
    ConnectApplyCloses(reg, w', enabled, ref, env);
    UndoCloses(reg, w', enabled, ref, env.undo);
    ClosesThen(w', if r.ok then A.ConnectApply(reg, w', enabled, ref, env)
               else A.Undo(reg, w', enabled, ref, env.undo), ADGUARD);
  }

  lemma ConnectPutCloses(reg: Registry, w: World, c: Configuration, ref: Option<string>, password: string,
                         env: A.ConnectEnv)
    requires env.undo.audits
    ensures Closes(A.ConnectPut(reg, w, c, ref, password, env), ADGUARD)
  {
    if ref.None? {
      ConnectEnableCloses(reg, w, c, ref, env);
    } else {
      var w' := w.(secrets := A.AfterPut(w.secrets, ref.value, password, env.put));
      ConnectEnableCloses(reg, w', c, ref, env);
      UndoCloses(reg, w', c, ref, env.undo);
      ClosesThen(w', if env.put == A.Done then A.ConnectEnable(reg, w', c, ref, env)
                 else A.Undo(reg, w', c, ref, env.undo), ADGUARD);
    }
  }

  lemma ConnectReserveCloses(reg: Registry, w: World, i: A.ConnectInput, ref: Option<string>, env: A.ConnectEnv)
    requires env.undo.audits && env.auditsFailure
    ensures Closes(A.ConnectReserve(reg, w, i, ref, env), ADGUARD)
  {
    var c := ConnectionConfiguration(i.endpoint, i.username, ref, Disabled);
    var r := Replace(reg, w.durable, ADGUARD, Some(c), env.firstWrites);
    var w' := w.(durable := r.durable);
    ConnectPutCloses(reg, w', c, ref, i.password, env);
    ClosesThen(w', if r.ok then A.ConnectPut(reg, w', c, ref, i.password, env) else A.ConnectFails(w', env), ADGUARD);
  }

  /** With a working audit log, a Connect that finds no entry and whose probe succeeds
      leaves its outcome as the last record, whatever else failed. */
  lemma ConnectClosesItsAudit(reg: Registry, w: World, i: A.ConnectInput, env: A.ConnectEnv)
    requires env.undo.audits && env.auditsFailure
    ensures var call := A.Connect(reg, w, i, env);
            if ADGUARD !in w.durable && env.probes && env.auditsRequest then Closes(call, ADGUARD)
            else call == Call([], false)
  {
    if ADGUARD !in w.durable && env.probes && env.auditsRequest {
      var w' := Audited(w, ADGUARD, "requested", true);
      var ref := if i.username == "" then None else Some(env.ref);
      ConnectReserveCloses(reg, w', i, ref, env);
      ClosesThen(w', if i.username != ""
                 && (!env.opensStore || !env.makesRef || !ValidReference(env.ref)) then A.ConnectFails(w', env)
                     else A.ConnectReserve(reg, w', i, ref, env), ADGUARD);
    }
  }

  // ----- Enable and Disable

  /** The outcome is on the audit log, and a failed call whose emergency stop works
      leaves no runtime live that was not live before. */
  predicate Settled(w: World, call: Call, env: D.ControlEnv) {
    && (env.auditsOutcome ==> Closes(call, D.DEVICE_WATCH))
    && (!call.ok && env.stops && Final(w, call.steps).active ==> w.active)
  }

  lemma SettledThen(w: World, next: World, rest: Call, env: D.ControlEnv)
    requires Settled(next, rest, env) && |rest.steps| > 0 && (next.active ==> w.active)
    ensures Settled(w, Then(next, rest), env)
  {
    assert Final(w, Then(next, rest).steps) == Final(next, rest.steps);
  }

  lemma EndedSettles(w: World, env: D.ControlEnv)
    ensures Settled(w, D.Ended(w, "failed", env, false), env) && Settled(w, D.Ended(w, "applied", env, true), env)
  {
  }

  lemma RollbackSettles(reg: Registry, w: World, previous: Option<Configuration>, env: D.ControlEnv)
    ensures Settled(w, D.Rollback(reg, w, previous, env), env) && |D.Rollback(reg, w, previous, env).steps| > 0
            && !D.Rollback(reg, w, previous, env).ok
  {
    var r := Replace(reg, w.durable, D.DEVICE_WATCH, previous, env.rollbackWrites);
    var w1 := w.(durable := r.durable);
    var a := if previous.Some? then ApplyConfiguration(reg, w1.engine, previous.value)
        else RemoveConfiguration(reg, w1.engine, D.DEVICE_WATCH);
    var w2 := w1.(engine := a.engine);
    EndedSettles(w1, env);
    EndedSettles(w2, env);
    SettledThen(w1, w2, D.Ended(w2, "failed", env, false), env);
    SettledThen(w, w1, if r.ok then D.RollbackEngine(reg, w1, previous, env)
                else D.Ended(w1, "failed", env, false), env);
  }

  lemma StopSettles(w: World, before: World, rest: Call, env: D.ControlEnv)
    requires Settled(D.EmergencyStop(w, env), rest, env) && |rest.steps| > 0 && !rest.ok
    ensures var call := Then(w, Then(D.EmergencyStop(w, env), rest)); Settled(before, call, env) && |call.steps| > 0
  {
    var s := D.EmergencyStop(w, env);
    var call := Then(w, Then(s, rest));
    assert Final(before, call.steps) == Final(s, rest.steps);
    if env.auditsOutcome {
      ClosesThen(s, rest, D.DEVICE_WATCH);
      ClosesThen(w, Then(s, rest), D.DEVICE_WATCH);
    }
  }

  lemma EnableRunSettles(reg: Registry, drivers: set<string>, w: World, previous: Option<Configuration>,
                         env: D.ControlEnv)
    requires ConsistentRegistry(reg)
    ensures var call := D.EnableRun(reg, drivers, w, previous, env); Settled(w, call, env) && |call.steps| > 0
  {
    var r := Run(reg, drivers, w.engine, D.DEVICE_WATCH, Action.Enable, env.run);
    var w' := D.AfterRun(w, r, env);
    if r.result.failure.None? {
      if env.auditsOutcome { ClosesThen(w', D.Ended(w', "applied", env, true), D.DEVICE_WATCH); }
    } else {
      var s := D.EmergencyStop(w', env);
      RollbackSettles(reg, s, previous, env);
      StopSettles(w', w, D.Rollback(reg, s, previous, env), env);
    }
  }

  lemma EnableWriteSettles(reg: Registry, drivers: set<string>, w: World, proposed: Configuration, env: D.ControlEnv)
    requires ConsistentRegistry(reg)
    ensures var call := D.EnableWrite(reg, drivers, w, proposed, env); Settled(w, call, env) && |call.steps| > 0
  {
    var r := Replace(reg, w.durable, D.DEVICE_WATCH, Some(proposed), env.writes);
    var w1 := w.(durable := r.durable);
    if r.ok {
      var a := ApplyConfiguration(reg, w1.engine, proposed);
      var w2 := w1.(engine := a.engine);
      EnableRunSettles(reg, drivers, w2, r.previous, env);
      RollbackSettles(reg, w2, r.previous, env);
      SettledThen(w1, w2, if a.ok then D.EnableRun(reg, drivers, w2, r.previous, env)
                  else D.Rollback(reg, w2, r.previous, env), env);
      SettledThen(w, w1, D.EnableApply(reg, drivers, w1, proposed, r.previous, env), env);
    } else {
      EndedSettles(w1, env);
      SettledThen(w, w1, D.Ended(w1, "failed", env, false), env);
    }
  }

  lemma EnableProposedSettles(reg: Registry, drivers: set<string>, w: World, env: D.ControlEnv)
    requires ConsistentRegistry(reg) && D.EnableAdmitted(reg, drivers, env)
    ensures Settled(w, D.EnableProposed(reg, drivers, w, D.Proposed(env.scopes.value[0]), env), env)
  {
    var w' := Audited(w, D.DEVICE_WATCH, "requested", true);
    var proposed := D.Proposed(env.scopes.value[0]);
    EnableWriteSettles(reg, drivers, w', proposed, env);
    SettledThen(w, w', D.EnableWrite(reg, drivers, w', proposed, env), env);
  }

  /** An Enable of an entry that is enabled already records nothing; failed, with a
      working emergency stop, it leaves no runtime live. */
  predicate Repeated(w: World, call: Call, env: D.ControlEnv) {
    var last := Final(w, call.steps);
    last.audit == w.audit && last.durable == w.durable && (!call.ok && env.stops ==> !last.active)
  }

  lemma EnableAgainSettles(reg: Registry, drivers: set<string>, w: World, env: D.ControlEnv)
    requires ConsistentRegistry(reg)
    ensures Repeated(w, D.EnableAgain(reg, drivers, w, env), env)
  {
    var r := Run(reg, drivers, w.engine, D.DEVICE_WATCH, Action.Enable, env.run);
    var w' := D.AfterRun(w, r, env);
    var rest := D.EnableAgainEnd(w', r.result.failure.Some?, env);
    assert Final(w, Then(w', rest).steps) == Final(w', rest.steps);
  }

  /** Enable of an enabled entry is a repeated one; otherwise it settles if it is
      admitted and fails without any effect if it is not. */
  lemma EnableSettles(reg: Registry, drivers: set<string>, w: World, env: D.ControlEnv)
    requires ConsistentRegistry(reg)
    ensures var call := D.Enable(reg, drivers, w, env);
            if DesiredOf(w.durable, D.DEVICE_WATCH) == Enabled
            then if D.ScopeOf(w.durable[D.DEVICE_WATCH]).Some? then Repeated(w, call, env) else call == Call([], false)
            else if D.EnableAdmitted(reg, drivers, env) then Settled(w, call, env)
            else call == Call([], false)
  {
    if DesiredOf(w.durable, D.DEVICE_WATCH) == Enabled {
      EnableAgainSettles(reg, drivers, w, env);
    } else if D.EnableAdmitted(reg, drivers, env) {
      EnableProposedSettles(reg, drivers, w, env);
    } else {
      D.EnableUnadmitted(reg, drivers, w, env);
    }
  }

  lemma DisableStopSettles(w: World, before: World, env: D.ControlEnv)
    ensures var call := Then(w, D.DisableStop(w, env)); Settled(before, call, env) && |call.steps| > 0
  {
    var s := D.EmergencyStop(w, env);
    EndedSettles(s, env);
    StopSettles(w, before, D.Ended(s, "failed", env, false), env);
  }

  /** A failed call whose emergency stop works leaves no runtime live. */
  predicate Halted(w: World, call: Call, env: D.ControlEnv) {
    !call.ok && env.stops ==> !Final(w, call.steps).active
  }

  lemma DisableRunHalts(reg: Registry, drivers: set<string>, w: World, env: D.ControlEnv)
    requires ConsistentRegistry(reg)
    ensures var call := D.DisableRun(reg, drivers, w, env);
            Halted(w, call, env) && |call.steps| > 0 && (env.auditsOutcome ==> Closes(call, D.DEVICE_WATCH))
  {
    var r := Run(reg, drivers, w.engine, D.DEVICE_WATCH, Action.Disable, env.run);
    var w' := D.AfterRun(w, r, env);
    if r.result.failure.None? {
      if env.auditsOutcome { ClosesThen(w', D.Ended(w', "applied", env, true), D.DEVICE_WATCH); }
    } else {
      DisableStopSettles(w', w, env);
      assert Final(w, D.DisableRun(reg, drivers, w, env).steps) == Final(w', D.DisableStop(w', env).steps);
    }
  }

  lemma DisableApplyHalts(reg: Registry, drivers: set<string>, w: World, proposed: Configuration, env: D.ControlEnv)
    requires ConsistentRegistry(reg)
    ensures var call := D.DisableApply(reg, drivers, w, proposed, env);
            Halted(w, call, env) && |call.steps| > 0 && (env.auditsOutcome ==> Closes(call, D.DEVICE_WATCH))
  {
    var a := ApplyConfiguration(reg, w.engine, proposed);
    var w' := w.(engine := a.engine);
    if a.ok {
      DisableRunHalts(reg, drivers, w', env);
      assert Final(w, D.DisableApply(reg, drivers, w, proposed, env).steps) == Final(w',
                                                                                     D.DisableRun(reg, drivers, w',
                                                                                                  env).steps);
      if env.auditsOutcome { ClosesThen(w', D.DisableRun(reg, drivers, w', env), D.DEVICE_WATCH); }
    } else {
      DisableStopSettles(w', w, env);
      assert Final(w, D.DisableApply(reg, drivers, w, proposed, env).steps) == Final(w', D.DisableStop(w', env).steps);
    }
  }

  /** The entry was enabled and could not be switched off on disk. */
  predicate WriteRefused(w: World, env: D.ControlEnv) { DesiredOf(w.durable, D.DEVICE_WATCH) == Enabled && !env.writes }

  /** How an admitted Disable ends: its outcome is the last record, and after a
      failure with a working emergency stop the runtime is live exactly when it was
      live before and the write was refused. */
  predicate DisableEnds(w: World, call: Call, env: D.ControlEnv) {
    && (env.auditsOutcome ==> Closes(call, D.DEVICE_WATCH))
    && (!call.ok && env.stops ==> (Final(w, call.steps).active <==> w.active && WriteRefused(w, env)))
  }

  lemma DisableWriteEnds(reg: Registry, drivers: set<string>, w: World, c: Configuration, env: D.ControlEnv)
    requires ConsistentRegistry(reg) && ValidConfigured(reg, w.durable)
    requires Lookup(w.durable, D.DEVICE_WATCH) == Some(c) && c.desired == Enabled
    ensures var call := D.DisableWrite(reg, drivers, w, c.(desired := Disabled), env);
            && DisableEnds(w, call, env) && |call.steps| > 0
            && (!env.writes ==> !call.ok && Final(w, call.steps).active == w.active)
  {
    var proposed := c.(desired := Disabled);
    DisabledStaysValid(reg, c);
    var r := Replace(reg, w.durable, D.DEVICE_WATCH, Some(proposed), env.writes);
    var w' := w.(durable := r.durable);
    var rest := if r.ok then D.DisableApply(reg, drivers, w', proposed, env) else D.Ended(w', "failed", env, false);
    assert r.ok == env.writes;
    DisableApplyHalts(reg, drivers, w', proposed, env);
    assert Final(w, Then(w', rest).steps) == Final(w', rest.steps);
    if env.auditsOutcome { ClosesThen(w', rest, D.DEVICE_WATCH); }
  }

  /** The tests Disable makes before its first effect. */
  predicate DisableAdmitted(reg: Registry, drivers: set<string>, w: World, env: D.ControlEnv) {
    && env.auditsRequest
    && if DesiredOf(w.durable, D.DEVICE_WATCH) == Disabled then w.active
       else
         var c := w.durable[D.DEVICE_WATCH];
         D.ScopeOf(c).Some? && D.Preflighted(reg, drivers, c.(desired := Disabled), Action.Disable, env.preflight)
  }

  lemma DisableEnabledEnds(reg: Registry, drivers: set<string>, w: World, c: Configuration, env: D.ControlEnv)
    requires ConsistentRegistry(reg) && ValidConfigured(reg, w.durable)
    requires Lookup(w.durable, D.DEVICE_WATCH) == Some(c) && c.desired == Enabled
    requires DisableAdmitted(reg, drivers, w, env)
    ensures var call := D.DisableEnabled(reg, drivers, w, c, env); call.steps != [] && DisableEnds(w, call, env)
  {
    var w' := Audited(w, D.DEVICE_WATCH, "requested", true);
    var rest := D.DisableWrite(reg, drivers, w', c.(desired := Disabled), env);
    DisableWriteEnds(reg, drivers, w', c, env);
    assert Final(w, Then(w', rest).steps) == Final(w', rest.steps);
    if env.auditsOutcome { ClosesThen(w', rest, D.DEVICE_WATCH); }
  }

  lemma DisableStrayEnds(reg: Registry, drivers: set<string>, w: World, env: D.ControlEnv)
    requires ConsistentRegistry(reg) && DesiredOf(w.durable, D.DEVICE_WATCH) == Disabled
    requires DisableAdmitted(reg, drivers, w, env)
    ensures var call := D.Disable(reg, drivers, w, env); call.steps != [] && DisableEnds(w, call, env)
  {
    var w' := Audited(w, D.DEVICE_WATCH, "requested", true);
    var rest := D.DisableRun(reg, drivers, w', env);
    DisableRunHalts(reg, drivers, w', env);
    assert Final(w, Then(w', rest).steps) == Final(w', rest.steps);
    if env.auditsOutcome { ClosesThen(w', rest, D.DEVICE_WATCH); }
  }

  /** Without its first record nothing is done, and only a Disable with nothing to do
      succeeds. */
  lemma DisableUnadmitted(reg: Registry, drivers: set<string>, w: World, env: D.ControlEnv)
    requires ConsistentRegistry(reg) && !DisableAdmitted(reg, drivers, w, env)
    ensures D.Disable(reg, drivers, w, env) == Call([], DesiredOf(w.durable, D.DEVICE_WATCH) == Disabled && !w.active)
  {
  }

  /** Disable has effects exactly when it is admitted, and then records its outcome. After
      a failure with a working emergency stop the runtime is live exactly when it was live
      before and the call was not admitted (its request could not be recorded, or the
      enabled entry has no scope or fails its preflight) or could not switch the enabled
      entry off on disk: these ways out never reach the emergency stop. */
  lemma DisableHaltsExactly(reg: Registry, drivers: set<string>, w: World, env: D.ControlEnv)
    requires ConsistentRegistry(reg) && ValidConfigured(reg, w.durable)
    ensures var call := D.Disable(reg, drivers, w, env);
            && (call.steps != [] <==> DisableAdmitted(reg, drivers, w, env))
            && (call.steps != [] && env.auditsOutcome ==> Closes(call, D.DEVICE_WATCH))
            && (!call.ok && env.stops ==>
                  (Final(w, call.steps).active
                   <==> w.active && (!DisableAdmitted(reg, drivers, w, env) || WriteRefused(w, env))))
  {
    if !DisableAdmitted(reg, drivers, w, env) {
      DisableUnadmitted(reg, drivers, w, env);
    } else if DesiredOf(w.durable, D.DEVICE_WATCH) == Disabled {
      DisableStrayEnds(reg, drivers, w, env);
    } else {
      DisableEnabledEnds(reg, drivers, w, w.durable[D.DEVICE_WATCH], env);
    }
  }

  /** A failing family of Disable: an enabled, live Device Watch whose Disable passes its
      preflight and its audit but cannot write ends failed and still live, although
      the emergency stop would work. */
  lemma RefusedWriteLeavesRuntimeLive(reg: Registry, drivers: set<string>, w: World, c: Configuration,
                                      env: D.ControlEnv)
    requires ConsistentRegistry(reg) && ValidConfigured(reg, w.durable) && w.active && env.auditsRequest && !env.writes
    requires Lookup(w.durable, D.DEVICE_WATCH) == Some(c) && c.desired == Enabled && D.ScopeOf(c).Some?
    requires D.Preflighted(reg, drivers, c.(desired := Disabled), Action.Disable, env.preflight)
    ensures var call := D.Disable(reg, drivers, w, env); call.steps != [] && !call.ok && Final(w, call.steps).active
  {
    var w' := Audited(w, D.DEVICE_WATCH, "requested", true);
    var rest := D.DisableWrite(reg, drivers, w', c.(desired := Disabled), env);
    DisableWriteEnds(reg, drivers, w', c, env);
    assert Final(w, Then(w', rest).steps) == Final(w', rest.steps);
  }

  /** The failing family of Enable: an admitted one over an entry that is not enabled,
      whose run fails and whose rollback cannot write, ends failed with the proposed entry
      enabled, on disk and in the engine alike. */
  lemma FailedRollbackLeavesEnabled(reg: Registry, drivers: set<string>, w: World, env: D.ControlEnv)
    requires ConsistentRegistry(reg) && Quiet(reg, w) && D.IntentStays(reg, drivers, w, env)
    requires forall e :: Run(reg, drivers, e, D.DEVICE_WATCH, Action.Enable, env.run).result.failure.Some?
    ensures var call := D.Enable(reg, drivers, w, env);
            var last := Final(w, call.steps);
            && !call.ok && DesiredOf(w.durable, D.DEVICE_WATCH) == Disabled
            && DesiredOf(last.durable, D.DEVICE_WATCH) == Enabled && last.engine.configured == last.durable
  {
    D.EnableKeeps(reg, drivers, w, env);
    var w' := Audited(w, D.DEVICE_WATCH, "requested", true);
    EnableWriteFails(reg, drivers, w', D.Proposed(env.scopes.value[0]), env);
  }

  lemma EnableWriteFails(reg: Registry, drivers: set<string>, w: World, proposed: Configuration, env: D.ControlEnv)
    requires ConsistentRegistry(reg)
    requires forall e :: Run(reg, drivers, e, D.DEVICE_WATCH, Action.Enable, env.run).result.failure.Some?
    ensures !D.EnableWrite(reg, drivers, w, proposed, env).ok
  {
    var r := Replace(reg, w.durable, D.DEVICE_WATCH, Some(proposed), env.writes);
    var w' := w.(engine := ApplyConfiguration(reg, w.engine, proposed).engine, durable := r.durable);
    EnableRunDecides(reg, drivers, w', r.previous, env);
    RollbackKeepsRuntime(reg, w', r.previous, env);
  }

  // ----- When the two succeed, and what they then leave

  /** The records of a call that wrote its request. */
  function Recorded(w: World, phase: string, env: D.ControlEnv): seq<AuditEntry> {
    w.audit + [AuditEntry(D.DEVICE_WATCH, "requested")]
      + (if env.auditsOutcome then [AuditEntry(D.DEVICE_WATCH, phase)] else [])
  }

  /** The driver's run once the configuration has been applied. */
  function RunWith(reg: Registry, drivers: set<string>, w: World, c: Configuration, action: Action,
                   env: D.ControlEnv): Ran
    requires ConsistentRegistry(reg)
  {
    Run(reg, drivers, ApplyConfiguration(reg, w.engine, c).engine, D.DEVICE_WATCH, action, env.run)
  }

  lemma RollbackKeepsRuntime(reg: Registry, w: World, previous: Option<Configuration>, env: D.ControlEnv)
    ensures var call := D.Rollback(reg, w, previous, env);
            !call.ok && |call.steps| > 0 && Final(w, call.steps).active == w.active
  {
  }

  lemma EnableRunDecides(reg: Registry, drivers: set<string>, w: World, previous: Option<Configuration>,
                         env: D.ControlEnv)
    requires ConsistentRegistry(reg)
    ensures var ran := Run(reg, drivers, w.engine, D.DEVICE_WATCH, Action.Enable, env.run);
            var call := D.EnableRun(reg, drivers, w, previous, env);
            var last := Final(w, call.steps);
            && |call.steps| > 0 && (call.ok <==> ran.result.failure.None?)
            && (call.ok ==> last == Audited(D.AfterRun(w, ran, env), D.DEVICE_WATCH, "applied", env.auditsOutcome))
            && (!call.ok ==> last.active == (env.activeAfterRun && !env.stops))
  {
    var ran := Run(reg, drivers, w.engine, D.DEVICE_WATCH, Action.Enable, env.run);
    var w' := D.AfterRun(w, ran, env);
    var s := D.EmergencyStop(w', env);
    RollbackKeepsRuntime(reg, s, previous, env);
    if ran.result.failure.Some? {
      assert Final(w, D.EnableRun(reg, drivers, w, previous, env).steps) ==
             Final(s, D.Rollback(reg, s, previous, env).steps);
    }
  }

  lemma EnableWriteDecides(reg: Registry, drivers: set<string>, w: World, c: Configuration, env: D.ControlEnv)
    requires ConsistentRegistry(reg) && StatesInv(reg, w.engine)
    requires c.id == D.DEVICE_WATCH && ValidConfiguration(reg, c) && Lookup(w.durable, D.DEVICE_WATCH) != Some(c)
    ensures var ran := RunWith(reg, drivers, w, c, Action.Enable, env);
            var call := D.EnableWrite(reg, drivers, w, c, env);
            var last := Final(w, call.steps);
            && |call.steps| > 0 && (call.ok <==> env.writes && ran.result.failure.None?)
            && (call.ok ==>
                  last == Audited(D.AfterRun(w.(durable := w.durable[D.DEVICE_WATCH := c]), ran, env), D.DEVICE_WATCH,
                                  "applied", env.auditsOutcome))
            && (!call.ok ==> last.active == (if env.writes then env.activeAfterRun && !env.stops else w.active))
  {
    var r := Replace(reg, w.durable, D.DEVICE_WATCH, Some(c), env.writes);
    var w1 := w.(durable := r.durable);
    if r.ok {
      ApplyNeverFails(reg, w1.engine, c);
      var w2 := w1.(engine := ApplyConfiguration(reg, w1.engine, c).engine);
      var rest := D.EnableRun(reg, drivers, w2, r.previous, env);
      EnableRunDecides(reg, drivers, w2, r.previous, env);
      assert D.EnableWrite(reg, drivers, w, c, env) == Then(w1, Then(w2, rest));
      assert Final(w, Then(w1, Then(w2, rest)).steps) == Final(w2, rest.steps);
    }
  }

  /** The runtime at the end of an Enable that proposed an entry: what the driver left,
      stopped after a failure if it can be, or as before if the driver was never asked. */
  function ActiveAfter(w: World, asked: bool, ok: bool, env: D.ControlEnv): bool {
    if !asked then w.active else if ok then env.activeAfterRun else env.activeAfterRun && !env.stops
  }

  /** Enable of an entry that is not enabled succeeds exactly when it is admitted, its
      entry can be written and the driver's Enable, run with that entry applied, succeeds.
      It then leaves that entry, the engine of that run and the runtime the driver left,
      and its two records; whatever fails, the runtime is as `ActiveAfter` says. */
  lemma EnableSucceedsExactly(reg: Registry, drivers: set<string>, w: World, env: D.ControlEnv)
    requires ConsistentRegistry(reg) && Quiet(reg, w) && DesiredOf(w.durable, D.DEVICE_WATCH) == Disabled
    ensures var call := D.Enable(reg, drivers, w, env);
            var last := Final(w, call.steps);
            && (call.ok ==> D.EnableAdmitted(reg, drivers, env))
            && (D.EnableAdmitted(reg, drivers, env) ==>
                  var c := D.Proposed(env.scopes.value[0]);
                  var ran := RunWith(reg, drivers, w, c, Action.Enable, env);
                  && (call.ok <==> env.writes && ran.result.failure.None?)
                  && (call.ok ==>
                        last == World(w.durable[D.DEVICE_WATCH := c], ran.engine, w.secrets,
                                      Recorded(w, "applied", env), env.activeAfterRun)))
            && last.active == ActiveAfter(w, D.EnableAdmitted(reg, drivers, env) && env.writes, call.ok, env)
  {
    if D.EnableAdmitted(reg, drivers, env) {
      var c := D.Proposed(env.scopes.value[0]);
      var w' := Audited(w, D.DEVICE_WATCH, "requested", true);
      var rest := D.EnableWrite(reg, drivers, w', c, env);
      D.EnableIsProposed(reg, drivers, w, env);
      EnableWriteDecides(reg, drivers, w', c, env);
      assert Final(w, Then(w', rest).steps) == Final(w', rest.steps);
    } else {
      D.EnableUnadmitted(reg, drivers, w, env);
    }
  }

  /** Enable of an enabled entry succeeds exactly when the entry has a scope and the
      driver's Enable succeeds; it changes the engine's state and the runtime only. */
  lemma EnableAgainSucceedsExactly(reg: Registry, drivers: set<string>, w: World, env: D.ControlEnv)
    requires ConsistentRegistry(reg) && DesiredOf(w.durable, D.DEVICE_WATCH) == Enabled
    ensures var call := D.Enable(reg, drivers, w, env);
            var ran := Run(reg, drivers, w.engine, D.DEVICE_WATCH, Action.Enable, env.run);
            var scoped := D.ScopeOf(w.durable[D.DEVICE_WATCH]).Some?;
            && (call.ok <==> scoped && ran.result.failure.None?)
            && Final(w, call.steps) ==
               (if scoped then w.(engine := ran.engine, active := ActiveAfter(w, true, call.ok, env)) else w)
  {
    if D.ScopeOf(w.durable[D.DEVICE_WATCH]).Some? {
      var ran := Run(reg, drivers, w.engine, D.DEVICE_WATCH, Action.Enable, env.run);
      var w' := D.AfterRun(w, ran, env);
      var rest := D.EnableAgainEnd(w', ran.result.failure.Some?, env);
      assert Final(w, Then(w', rest).steps) == Final(w', rest.steps);
    }
  }

  lemma DisableRunDecides(reg: Registry, drivers: set<string>, w: World, env: D.ControlEnv)
    requires ConsistentRegistry(reg)
    ensures var ran := Run(reg, drivers, w.engine, D.DEVICE_WATCH, Action.Disable, env.run);
            var call := D.DisableRun(reg, drivers, w, env);
            && |call.steps| > 0 && (call.ok <==> ran.result.failure.None?)
            && Final(w, call.steps) ==
               Audited(w.(engine := ran.engine, active := ActiveAfter(w, true, call.ok, env)), D.DEVICE_WATCH,
                       if call.ok then "applied" else "failed", env.auditsOutcome)
  {
    var ran := Run(reg, drivers, w.engine, D.DEVICE_WATCH, Action.Disable, env.run);
    var w' := D.AfterRun(w, ran, env);
    var s := D.EmergencyStop(w', env);
    if ran.result.failure.Some? {
      assert Final(w, D.DisableRun(reg, drivers, w, env).steps) == Final(s, D.Ended(s, "failed", env, false).steps);
    }
  }

  lemma DisableWriteDecides(reg: Registry, drivers: set<string>, w: World, c: Configuration, env: D.ControlEnv)
    requires ConsistentRegistry(reg) && StatesInv(reg, w.engine) && ValidConfigured(reg, w.durable)
    requires Lookup(w.durable, D.DEVICE_WATCH) == Some(c) && c.desired == Enabled
    ensures var off := c.(desired := Disabled);
            var ran := RunWith(reg, drivers, w, off, Action.Disable, env);
            var call := D.DisableWrite(reg, drivers, w, off, env);
            && |call.steps| > 0 && (call.ok <==> env.writes && ran.result.failure.None?)
            && Final(w, call.steps) ==
               Audited(if !env.writes then w
                       else w.(durable := w.durable[D.DEVICE_WATCH := off], engine := ran.engine,
                               active := ActiveAfter(w, true, call.ok, env)),
                       D.DEVICE_WATCH, if call.ok then "applied" else "failed", env.auditsOutcome)
  {
    var off := c.(desired := Disabled);
    DisabledStaysValid(reg, c);
    var r := Replace(reg, w.durable, D.DEVICE_WATCH, Some(off), env.writes);
    var w1 := w.(durable := r.durable);
    if r.ok {
      ApplyNeverFails(reg, w1.engine, off);
      var w2 := w1.(engine := ApplyConfiguration(reg, w1.engine, off).engine);
      var rest := D.DisableRun(reg, drivers, w2, env);
      DisableRunDecides(reg, drivers, w2, env);
      assert D.DisableWrite(reg, drivers, w, off, env) == Then(w1, Then(w2, rest));
      assert Final(w, Then(w1, Then(w2, rest)).steps) == Final(w2, rest.steps);
    }
  }

  lemma DisableIsWrite(reg: Registry, drivers: set<string>, w: World, env: D.ControlEnv)
    requires ConsistentRegistry(reg) && DesiredOf(w.durable, D.DEVICE_WATCH) == Enabled
    requires DisableAdmitted(reg, drivers, w, env)
    ensures var off, w' := w.durable[D.DEVICE_WATCH].(desired := Disabled),
                Audited(w, D.DEVICE_WATCH, "requested", true);
            D.Disable(reg, drivers, w, env) == Then(w', D.DisableWrite(reg, drivers, w', off, env))
  {
  }

  /** Disable of an enabled entry succeeds exactly when it is admitted, the entry can be
      switched off on disk, and the driver's Disable, run with the disabled entry applied,
      succeeds. In every case the end is exactly as stated: in particular a success has
      asked the driver, and the runtime is the one the driver left. */
  lemma DisableSucceedsExactly(reg: Registry, drivers: set<string>, w: World, env: D.ControlEnv)
    requires ConsistentRegistry(reg) && Quiet(reg, w) && DesiredOf(w.durable, D.DEVICE_WATCH) == Enabled
    ensures var off := w.durable[D.DEVICE_WATCH].(desired := Disabled);
            var ran := RunWith(reg, drivers, w, off, Action.Disable, env);
            var call := D.Disable(reg, drivers, w, env);
            var admitted := DisableAdmitted(reg, drivers, w, env);
            && (call.ok <==> admitted && env.writes && ran.result.failure.None?)
            && Final(w, call.steps) ==
               (if !admitted then w
                else if !env.writes then w.(audit := Recorded(w, "failed", env))
                else World(w.durable[D.DEVICE_WATCH := off], ran.engine, w.secrets,
                           Recorded(w, if call.ok then "applied" else "failed", env),
                           ActiveAfter(w, true, call.ok, env)))
  {
    if DisableAdmitted(reg, drivers, w, env) {
      var c := w.durable[D.DEVICE_WATCH];
      var w' := Audited(w, D.DEVICE_WATCH, "requested", true);
      var rest := D.DisableWrite(reg, drivers, w', c.(desired := Disabled), env);
      DisableIsWrite(reg, drivers, w, env);
      DisableWriteDecides(reg, drivers, w', c, env);
      assert Final(w, Then(w', rest).steps) == Final(w', rest.steps);
    } else {
      DisableUnadmitted(reg, drivers, w, env);
    }
  }

  /** Disable of an entry that is not enabled: with no runtime live there is nothing to
      do; with one, the driver's Disable decides, once the request is recorded. */
  lemma DisableStrayExactly(reg: Registry, drivers: set<string>, w: World, env: D.ControlEnv)
    requires ConsistentRegistry(reg) && DesiredOf(w.durable, D.DEVICE_WATCH) == Disabled
    ensures var ran := Run(reg, drivers, w.engine, D.DEVICE_WATCH, Action.Disable, env.run);
            var call := D.Disable(reg, drivers, w, env);
            && (call.ok <==> !w.active || (env.auditsRequest && ran.result.failure.None?))
            && Final(w, call.steps) ==
               (if !w.active || !env.auditsRequest then w
                else w.(engine := ran.engine, active := ActiveAfter(w, true, call.ok, env),
                        audit := Recorded(w, if call.ok then "applied" else "failed", env)))
  {
    if w.active && env.auditsRequest {
      var w' := Audited(w, D.DEVICE_WATCH, "requested", true);
      var rest := D.DisableRun(reg, drivers, w', env);
      DisableRunDecides(reg, drivers, w', env);
      assert Final(w, Then(w', rest).steps) == Final(w', rest.steps);
    } else {
      DisableUnadmitted(reg, drivers, w, env);
    }
  }

  // ----- Intent comes before the runtime

  /** Until the file asks for it, the runtime stays as it was. */
  ghost predicate Follows(active: bool, steps: seq<World>, desired: Desired) {
    forall i :: 0 <= i < |steps|
                && (forall j :: 0 <= j <= i ==> DesiredOf(steps[j].durable, D.DEVICE_WATCH) != desired) ==>
      steps[i].active == active
  }

  lemma FollowsThen(active: bool, next: World, rest: seq<World>, desired: Desired)
    requires next.active == active
    requires DesiredOf(next.durable, D.DEVICE_WATCH) == desired || Follows(active, rest, desired)
    ensures Follows(active, [next] + rest, desired)
  {
    var steps := [next] + rest;
    forall i | 0 <= i < |steps|
               && (forall j :: 0 <= j <= i ==> DesiredOf(steps[j].durable, D.DEVICE_WATCH) != desired)
      ensures steps[i].active == active
    {
      if i > 0 {
        assert DesiredOf(steps[0].durable, D.DEVICE_WATCH) != desired;
        forall j | 0 <= j <= i - 1 ensures DesiredOf(rest[j].durable, D.DEVICE_WATCH) != desired {
          assert steps[j + 1] == rest[j];
        }
        assert rest[i - 1] == steps[i];
      }
    }
  }

  lemma WriteComesFirst(reg: Registry, w: World, c: Configuration, env: D.ControlEnv, good: Call)
    ensures var r := Replace(reg, w.durable, D.DEVICE_WATCH, Some(c), env.writes);
            var w' := w.(durable := r.durable);
            var rest := if r.ok then good else D.Ended(w', "failed", env, false);
            Follows(w.active, [w'] + rest.steps, c.desired)
  {
    var r := Replace(reg, w.durable, D.DEVICE_WATCH, Some(c), env.writes);
    var w' := w.(durable := r.durable);
    ReplaceMeaning(reg, w.durable, D.DEVICE_WATCH, Some(c), env.writes);
    FollowsThen(w.active, w', (if r.ok then good else D.Ended(w', "failed", env, false)).steps, c.desired);
  }

  /** A stop at any step leaves a runtime that the file accounts for: no Enable touches
      the runtime before the enabled entry is on disk, and no Disable before the disabled
      one is. */
  lemma RuntimeFollowsIntent(reg: Registry, drivers: set<string>, w: World, env: D.ControlEnv)
    requires ConsistentRegistry(reg)
    ensures DesiredOf(w.durable, D.DEVICE_WATCH) == Disabled ==>
              Follows(w.active, D.Enable(reg, drivers, w, env).steps, Enabled)
    ensures DesiredOf(w.durable, D.DEVICE_WATCH) == Enabled ==>
              Follows(w.active, D.Disable(reg, drivers, w, env).steps, Disabled)
  {
    var w' := Audited(w, D.DEVICE_WATCH, "requested", true);
    if DesiredOf(w.durable, D.DEVICE_WATCH) == Disabled {
      if D.EnableAdmitted(reg, drivers, env) {
        var c := D.Proposed(env.scopes.value[0]);
        D.EnableIsProposed(reg, drivers, w, env);
        EnableWriteFollows(reg, drivers, w', c, env);
        FollowsThen(w.active, w', D.EnableWrite(reg, drivers, w', c, env).steps, Enabled);
      } else {
        D.EnableUnadmitted(reg, drivers, w, env);
      }
    } else if DisableAdmitted(reg, drivers, w, env) {
      var c := w.durable[D.DEVICE_WATCH].(desired := Disabled);
      DisableWriteFollows(reg, drivers, w', c, env);
      FollowsThen(w.active, w', D.DisableWrite(reg, drivers, w', c, env).steps, Disabled);
    } else {
      DisableUnadmitted(reg, drivers, w, env);
    }
  }

  lemma EnableWriteFollows(reg: Registry, drivers: set<string>, w: World, c: Configuration, env: D.ControlEnv)
    requires ConsistentRegistry(reg)
    ensures Follows(w.active, D.EnableWrite(reg, drivers, w, c, env).steps, c.desired)
  {
    var r := Replace(reg, w.durable, D.DEVICE_WATCH, Some(c), env.writes);
    WriteComesFirst(reg, w, c, env, D.EnableApply(reg, drivers, w.(durable := r.durable), c, r.previous, env));
  }

  lemma DisableWriteFollows(reg: Registry, drivers: set<string>, w: World, c: Configuration, env: D.ControlEnv)
    requires ConsistentRegistry(reg)
    ensures Follows(w.active, D.DisableWrite(reg, drivers, w, c, env).steps, c.desired)
  {
    var r := Replace(reg, w.durable, D.DEVICE_WATCH, Some(c), env.writes);
    WriteComesFirst(reg, w, c, env, D.DisableApply(reg, drivers, w.(durable := r.durable), c, env));
  }

  // ----- Concrete inputs of these families

  const SCOPE_FIELD := Field("network_scope_id", StringField, true, [])
  const MANIFEST := Manifest(D.DEVICE_WATCH, [Builtin], false, [], [SCOPE_FIELD], [Action.Enable, Action.Disable])
  const REGISTRY: Registry := map[D.DEVICE_WATCH := MANIFEST]
  const WATCHING := D.Proposed("home")

  /** A driver that passes every check and does what it is asked, or refuses it. */
  function ADriver(willing: bool): Driver {
    Driver((n: nat) => Attempt(true, Returned([]), true),
           (n: nat) => Attempt(true, if willing then Returned(Step(true, None)) else Refused(false), true),
           (n: nat) => Attempt(true, Returned([]), true))
  }

  function AWorld(durable: Durable, active: bool): World {
    World(durable, NewEngine(REGISTRY, durable), map[], [], active)
  }

  lemma WatchingIsValid()
    ensures ConsistentRegistry(REGISTRY) && ValidConfiguration(REGISTRY, WATCHING) && D.ScopeOf(WATCHING).Some?
  {
    D.IdsDiffer();
    assert FieldNamed(MANIFEST.fields, "network_scope_id") == Some(SCOPE_FIELD);
    assert ValidValue(SCOPE_FIELD, JString("home"));
  }

  lemma WatchingPasses(c: Configuration, action: Action)
    requires c == WATCHING.(desired := if action == Action.Enable then Enabled else Disabled)
    requires action == Action.Enable || action == Action.Disable
    ensures D.Preflighted(REGISTRY, {D.DEVICE_WATCH}, c, action, ADriver(true))
  {
    WatchingIsValid();
    DisabledStaysValid(REGISTRY, WATCHING);
    assert Retry(ADriver(true).preflight, MAX_ATTEMPTS, 1) == Retried(Some([]), 1);
  }

  /** Enabled and live: a Disable that cannot write, or cannot record its request, fails
      and leaves the runtime live. */
  lemma LiveAfterDisableExample(records: bool)
    ensures var w := AWorld(map[D.DEVICE_WATCH := WATCHING], true);
            var env := D.ControlEnv(None, ADriver(true), records, !records, ADriver(true), false, true, true, true);
            && ConsistentRegistry(REGISTRY) && Quiet(REGISTRY, w) && env.stops
            && var call := D.Disable(REGISTRY, {D.DEVICE_WATCH}, w, env); !call.ok && Final(w, call.steps).active
  {
    var w := AWorld(map[D.DEVICE_WATCH := WATCHING], true);
    var env := D.ControlEnv(None, ADriver(true), records, !records, ADriver(true), false, true, true, true);
    WatchingIsValid();
    WatchingPasses(WATCHING.(desired := Disabled), Action.Disable);
    D.IdsDiffer();
    NewEngineInv(REGISTRY, w.durable);
    if records { RefusedWriteLeavesRuntimeLive(REGISTRY, {D.DEVICE_WATCH}, w, WATCHING, env); }
    else { DisableUnadmitted(REGISTRY, {D.DEVICE_WATCH}, w, env); }
  }

  lemma RefusingFails(e: Engine)
    requires ConsistentRegistry(REGISTRY)
    ensures Run(REGISTRY, {D.DEVICE_WATCH}, e, D.DEVICE_WATCH, Action.Enable, ADriver(false)).result.failure.Some?
  {
    assert Retry(ADriver(false).execute, MAX_ATTEMPTS, 1) == Retried(None, 1);
  }

  /** Not configured: an Enable whose driver refuses and whose rollback cannot write fails
      and leaves Device Watch enabled. */
  lemma EnabledAfterEnableExample()
    ensures var w := AWorld(map[], false);
            var env := D.ControlEnv(Some(["home"]), ADriver(true), true, true, ADriver(false), false, true, false,
                                    true);
            && ConsistentRegistry(REGISTRY) && Quiet(REGISTRY, w)
            && var call := D.Enable(REGISTRY, {D.DEVICE_WATCH}, w, env);
               !call.ok && DesiredOf(Final(w, call.steps).durable, D.DEVICE_WATCH) == Enabled
  {
    var w := AWorld(map[], false);
    var env := D.ControlEnv(Some(["home"]), ADriver(true), true, true, ADriver(false), false, true, false, true);
    WatchingIsValid();
    WatchingPasses(WATCHING, Action.Enable);
    NewEngineInv(REGISTRY, w.durable);
    forall e ensures Run(REGISTRY, {D.DEVICE_WATCH}, e, D.DEVICE_WATCH, Action.Enable, env.run).result.failure.Some? {
      RefusingFails(e);
    }
    FailedRollbackLeavesEnabled(REGISTRY, {D.DEVICE_WATCH}, w, env);
  }
}
