/** The objects behind the two multi-step drivers: the stores they share, the
    AdGuard Home connections of internal/controller/adguard/connection.go and the
    Device Watch control of cmd/cozysoc/device_watch_control.go. Every method is
    shown to pass through exactly the states of the function that specifies it. */
module Controllers {
  import opened Ordering
  import opened Capability
  import opened Lifecycle
  import opened LifecycleObject
  import opened ConfigManager
  import opened ControllerWorld
  import A = AdGuardConnection
  import D = DeviceWatchControl

  /** What the drivers share; `history` records the state after each effect. */
  class Stores {
    const config: Manager
    const lifecycle: LifecycleEngine
    var secrets: map<string, string>
    var audit: seq<AuditEntry>
    var active: bool
    ghost var history: seq<World>

    ghost predicate Valid()
      reads this, config, lifecycle
    {
      config.Valid() && lifecycle.registry == config.registry
    }

    ghost function View(): World
      reads this, config, lifecycle
    { World(config.View(), lifecycle.View(), secrets, audit, active) }

    constructor (config: Manager, lifecycle: LifecycleEngine)
      requires config.Valid() && lifecycle.registry == config.registry
      ensures Valid() && this.config == config && this.lifecycle == lifecycle && history == []
      ensures View() == World(config.View(), lifecycle.View(), map[], [], false)
    {
      this.config, this.lifecycle, secrets, audit, active, history := config, lifecycle, map[], [], false, [];
    }

    method Record(id: string, phase: string, written: bool)
      requires Valid()
      modifies this`audit, this`history
      ensures Valid() && View() == Audited(old(View()), id, phase, written) && history == old(history) + [View()]
    {
      if written { audit := audit + [AuditEntry(id, phase)]; }
      history := history + [View()];
    }

    method Write(id: string, next: Option<Configuration>, writes: bool)
      returns (previous: Option<Configuration>, ok: bool)
      requires Valid()
      modifies this`history, config
      ensures Valid() && history == old(history) + [View()]
      ensures var r := Replace(config.registry, old(View()).durable, id, next, writes);
              View() == old(View()).(durable := r.durable) && previous == r.previous && ok == r.ok
    {
      var changed;
      previous, changed, ok := config.ReplaceCapability(id, next, writes);
      history := history + [View()];
    }

    method Apply(c: Configuration) returns (ok: bool)
      requires Valid()
      modifies this`history, lifecycle
      ensures Valid() && history == old(history) + [View()]
      ensures var a := ApplyConfiguration(config.registry, old(View()).engine, c);
              View() == old(View()).(engine := a.engine) && ok == a.ok
    {
      ok := lifecycle.ApplyConfiguration(c);
      history := history + [View()];
    }

    method Forget(id: string) returns (ok: bool)
      requires Valid()
      modifies this`history, lifecycle
      ensures Valid() && history == old(history) + [View()]
      ensures var a := RemoveConfiguration(config.registry, old(View()).engine, id);
              View() == old(View()).(engine := a.engine) && ok == a.ok
    {
      ok := lifecycle.RemoveConfiguration(id);
      history := history + [View()];
    }

    method Put(ref: string, password: string, call: A.SecretCall) returns (ok: bool)
      requires Valid()
      modifies this`secrets, this`history
      ensures Valid() && history == old(history) + [View()] && ok == call.Done?
      ensures View() == old(View()).(secrets := A.AfterPut(old(secrets), ref, password, call))
    {
      if !call.FailedBefore? { secrets := secrets[ref := password]; }
      ok := call.Done?;
      history := history + [View()];
    }

    method Delete(ref: string, call: A.SecretCall) returns (ok: bool)
      requires Valid()
      modifies this`secrets, this`history
      ensures Valid() && history == old(history) + [View()] && ok == call.Done?
      ensures View() == old(View()).(secrets := A.AfterDelete(old(secrets), ref, call))
    {
      if !call.FailedBefore? { secrets := secrets - {ref}; }
      ok := call.Done?;
      history := history + [View()];
    }

    /** A lifecycle action on Device Watch, which may start or stop the runtime. */
    method Act(action: Action, env: D.ControlEnv) returns (failed: bool)
      requires Valid()
      modifies this`active, this`history, lifecycle
      ensures Valid() && history == old(history) + [View()]
      ensures var r := Run(config.registry, lifecycle.drivers, old(View()).engine, D.DEVICE_WATCH, action, env.run);
              View() == D.AfterRun(old(View()), r, env) && failed == r.result.failure.Some?
    {
      var r := lifecycle.Run(D.DEVICE_WATCH, action, env.run);
      active := env.activeAfterRun;
      failed := r.failure.Some?;
      history := history + [View()];
    }

    method Halt(env: D.ControlEnv)
      requires Valid()
      modifies this`active, this`history
      ensures Valid() && history == old(history) + [View()] && View() == D.EmergencyStop(old(View()), env)
    {
      if env.stops { active := false; }
      history := history + [View()];
    }
  }

  /** The stores have gone through exactly the steps of `call` since `before`. */
  ghost predicate Followed(s: Stores, history: seq<World>, before: World, call: Call, ok: bool)
    reads s, s.config, s.lifecycle
  {
    s.Valid() && s.history == history + call.steps && s.View() == Final(before, call.steps) && ok == call.ok
  }

  /** One recorded effect and then the steps of the rest are the steps of the whole. */
  lemma FollowThen(s: Stores, history: seq<World>, before: World, next: World, rest: Call, ok: bool)
    requires Followed(s, history + [next], next, rest, ok)
    ensures Followed(s, history, before, Then(next, rest), ok)
  {
    assert history + [next] + rest.steps == history + ([next] + rest.steps);
  }

  lemma FollowedIsGood(reg: Registry, s: Stores, history: seq<World>, before: World, call: Call, ok: bool)
    requires Followed(s, history, before, call, ok) && Good(reg, before, call.steps)
    ensures Good(reg, before, s.history[|history|..])
  {
    assert s.history[|history|..] == call.steps;
  }

  class Connections {
    const stores: Stores

    constructor (stores: Stores)
      ensures this.stores == stores
    { this.stores := stores; }

    method UndoConnect(c: Configuration, ref: Option<string>, env: A.UndoEnv) returns (ok: bool)
      requires stores.Valid()
      modifies stores, stores.config, stores.lifecycle
      ensures Followed(stores, old(stores.history), old(stores.View()),
                       A.Undo(stores.config.registry, old(stores.View()), c, ref, env), ok)
    {
      ghost var reg := stores.config.registry;
      ghost var h0, w0 := stores.history, stores.View();
      var disabled := c.(desired := Disabled);
      var previous, written := stores.Write(ADGUARD, Some(disabled), env.disableWrites);
      ghost var h1, w1 := stores.history, stores.View();
      if written {
        ok := UndoRevoke(disabled, ref, env);
        FollowThen(stores, h0, w0, w1, A.UndoApply(reg, w1, disabled, ref, env), ok);
      } else {
        stores.Record(ADGUARD, "failed", env.audits);
        ok := false;
        FollowThen(stores, h0, w0, w1, A.UndoAudit(w1, env), ok);
      }
    }

    /** The part of `undoConnect` once the disabled entry is on disk. */
    method UndoRevoke(disabled: Configuration, ref: Option<string>, env: A.UndoEnv) returns (ok: bool)
      requires stores.Valid()
      modifies stores, stores.config, stores.lifecycle
      ensures Followed(stores, old(stores.history), old(stores.View()),
                       A.UndoApply(stores.config.registry, old(stores.View()), disabled, ref, env), ok)
    {
      ghost var reg := stores.config.registry;
      ghost var h0, w0 := stores.history, stores.View();
      var applied := stores.Apply(disabled);
      ghost var h1, w1 := stores.history, stores.View();
      if !applied {
        stores.Record(ADGUARD, "failed", env.audits);
        ok := false;
        FollowThen(stores, h0, w0, w1, A.UndoAudit(w1, env), ok);
      } else if ref.None? {
        ok := UndoEntry(env);
        FollowThen(stores, h0, w0, w1, A.UndoDelete(reg, w1, ref, env), ok);
      } else {
        var deleted := stores.Delete(ref.value, env.delete);
        ghost var w2 := stores.View();
        if deleted {
          ok := UndoEntry(env);
          FollowThen(stores, h1, w1, w2, A.UndoRemove(reg, w2, env), ok);
        } else {
          stores.Record(ADGUARD, "failed", env.audits);
          ok := false;
          FollowThen(stores, h1, w1, w2, A.UndoAudit(w2, env), ok);
        }
        FollowThen(stores, h0, w0, w1, A.UndoDelete(reg, w1, ref, env), ok);
      }
    }

    method UndoEntry(env: A.UndoEnv) returns (ok: bool)
      requires stores.Valid()
      modifies stores, stores.config, stores.lifecycle
      ensures Followed(stores, old(stores.history), old(stores.View()),
                       A.UndoRemove(stores.config.registry, old(stores.View()), env), ok)
    {
      ghost var reg := stores.config.registry;
      ghost var h0, w0 := stores.history, stores.View();
      var previous, written := stores.Write(ADGUARD, None, env.removeWrites);
      ghost var h1, w1 := stores.history, stores.View();
      ok := false;
      if written {
        var forgot := stores.Forget(ADGUARD);
        ghost var w2 := stores.View();
        stores.Record(ADGUARD, "failed", env.audits);
        FollowThen(stores, h1, w1, w2, A.UndoAudit(w2, env), ok);
        FollowThen(stores, h0, w0, w1, A.UndoForget(reg, w1, env), ok);
      } else {
        stores.Record(ADGUARD, "failed", env.audits);
        FollowThen(stores, h0, w0, w1, A.UndoAudit(w1, env), ok);
      }
    }

    /** `Connect`: from a quiet state every state passed through is safe and the last
        is quiet. */
    method Connect(i: A.ConnectInput, env: A.ConnectEnv) returns (ok: bool)
      requires stores.Valid()
      modifies stores, stores.config, stores.lifecycle
      ensures Followed(stores, old(stores.history), old(stores.View()),
                       A.Connect(stores.config.registry, old(stores.View()), i, env), ok)
      ensures old(Quiet(stores.config.registry, stores.View())) ==>
                Good(stores.config.registry, old(stores.View()), stores.history[|old(stores.history)|..])
    {
      ghost var reg := stores.config.registry;
      ghost var h0, w0 := stores.history, stores.View();
      var existing := stores.config.Capability(ADGUARD);
      if existing.Some? || !env.probes || !env.auditsRequest {
        ok := false;
      } else {
        stores.Record(ADGUARD, "requested", true);
        ghost var w1 := stores.View();
        if i.username != "" && (!env.opensStore || !env.makesRef || !ValidReference(env.ref)) {
          stores.Record(ADGUARD, "failed", env.auditsFailure);
          ok := false;
          FollowThen(stores, h0, w0, w1, A.ConnectFails(w1, env), ok);
        } else {
          var ref := if i.username == "" then None else Some(env.ref);
          ok := Reserve(i, ref, env);
          FollowThen(stores, h0, w0, w1, A.ConnectReserve(reg, w1, i, ref, env), ok);
        }
      }
      if Quiet(reg, w0) {
        A.ConnectKeeps(reg, w0, i, env);
        FollowedIsGood(reg, stores, h0, w0, A.Connect(reg, w0, i, env), ok);
      }
    }

    method Reserve(i: A.ConnectInput, ref: Option<string>, env: A.ConnectEnv) returns (ok: bool)
      requires stores.Valid()
      modifies stores, stores.config, stores.lifecycle
      ensures Followed(stores, old(stores.history), old(stores.View()),
                       A.ConnectReserve(stores.config.registry, old(stores.View()), i, ref, env), ok)
    {
      ghost var reg := stores.config.registry;
      ghost var h0, w0 := stores.history, stores.View();
      var c := ConnectionConfiguration(i.endpoint, i.username, ref, Disabled);
      var previous, written := stores.Write(ADGUARD, Some(c), env.firstWrites);
      ghost var h1, w1 := stores.history, stores.View();
      if !written {
        stores.Record(ADGUARD, "failed", env.auditsFailure);
        ok := false;
        FollowThen(stores, h0, w0, w1, A.ConnectFails(w1, env), ok);
      } else if ref.None? {
        ok := EnableEntry(c, ref, env);
        FollowThen(stores, h0, w0, w1, A.ConnectPut(reg, w1, c, ref, i.password, env), ok);
      } else {
        var stored := stores.Put(ref.value, i.password, env.put);
        ghost var w2 := stores.View();
        if stored {
          ok := EnableEntry(c, ref, env);
          FollowThen(stores, h1, w1, w2, A.ConnectEnable(reg, w2, c, ref, env), ok);
        } else {
          ok := UndoConnect(c, ref, env.undo);
          FollowThen(stores, h1, w1, w2, A.Undo(reg, w2, c, ref, env.undo), ok);
        }
        FollowThen(stores, h0, w0, w1, A.ConnectPut(reg, w1, c, ref, i.password, env), ok);
      }
    }

    method EnableEntry(c: Configuration, ref: Option<string>, env: A.ConnectEnv) returns (ok: bool)
      requires stores.Valid()
      modifies stores, stores.config, stores.lifecycle
      ensures Followed(stores, old(stores.history), old(stores.View()),
                       A.ConnectEnable(stores.config.registry, old(stores.View()), c, ref, env), ok)
    {
      ghost var reg := stores.config.registry;
      ghost var h0, w0 := stores.history, stores.View();
      var enabled := c.(desired := Enabled);
      var previous, written := stores.Write(ADGUARD, Some(enabled), env.secondWrites);
      ghost var h1, w1 := stores.history, stores.View();
      if written {
        ok := ApplyEntry(enabled, ref, env);
        FollowThen(stores, h0, w0, w1, A.ConnectApply(reg, w1, enabled, ref, env), ok);
      } else {
        ok := UndoConnect(enabled, ref, env.undo);
        FollowThen(stores, h0, w0, w1, A.Undo(reg, w1, enabled, ref, env.undo), ok);
      }
    }

    method ApplyEntry(enabled: Configuration, ref: Option<string>, env: A.ConnectEnv) returns (ok: bool)
      requires stores.Valid()
      modifies stores, stores.config, stores.lifecycle
      ensures Followed(stores, old(stores.history), old(stores.View()),
                       A.ConnectApply(stores.config.registry, old(stores.View()), enabled, ref, env), ok)
    {
      ghost var reg := stores.config.registry;
      ghost var h0, w0 := stores.history, stores.View();
      var applied := stores.Apply(enabled);
      ghost var w1 := stores.View();
      if applied && env.auditsApplied {
        stores.Record(ADGUARD, "applied", true);
        ok := true;
        FollowThen(stores, h0, w0, w1, Call([Audited(w1, ADGUARD, "applied", true)], true), ok);
      } else {
        ok := UndoConnect(enabled, ref, env.undo);
        FollowThen(stores, h0, w0, w1, A.Undo(reg, w1, enabled, ref, env.undo), ok);
      }
    }

    /** `Disconnect`: from a quiet state every state passed through is safe and the
        last is quiet; success means neither entry nor secret remains. */
    method Disconnect(env: A.DisconnectEnv) returns (ok: bool)
      requires stores.Valid()
      modifies stores, stores.config, stores.lifecycle
      ensures Followed(stores, old(stores.history), old(stores.View()),
                       A.Disconnect(stores.config.registry, old(stores.View()), env), ok)
      ensures old(Quiet(stores.config.registry, stores.View())) ==>
                && Good(stores.config.registry, old(stores.View()), stores.history[|old(stores.history)|..])
                && (ok ==> Gone(stores.View())) && (A.Flawless(env) ==> ok)
    {
      ghost var reg := stores.config.registry;
      ghost var h0, w0 := stores.history, stores.View();
      var existing := stores.config.Capability(ADGUARD);
      if existing.None? {
        ok := true;
      } else if !env.auditsRequest {
        ok := false;
      } else {
        stores.Record(ADGUARD, "disconnect-requested", true);
        ghost var h1, w1 := stores.history, stores.View();
        var c := existing.value;
        if c.desired == Disabled {
          ok := RevokeEntry(c, env);
          FollowThen(stores, h0, w0, w1, A.Revoke(reg, w1, c, env), ok);
        } else {
          ok := DisableEntry(c.(desired := Disabled), env);
          FollowThen(stores, h0, w0, w1, A.DisconnectDisable(reg, w1, c.(desired := Disabled), env), ok);
        }
      }
      if Quiet(reg, w0) {
        A.DisconnectKeeps(reg, w0, env);
        FollowedIsGood(reg, stores, h0, w0, A.Disconnect(reg, w0, env), ok);
      }
    }

    method DisableEntry(disabled: Configuration, env: A.DisconnectEnv) returns (ok: bool)
      requires stores.Valid()
      modifies stores, stores.config, stores.lifecycle
      ensures Followed(stores, old(stores.history), old(stores.View()),
                       A.DisconnectDisable(stores.config.registry, old(stores.View()), disabled, env), ok)
    {
      ghost var reg := stores.config.registry;
      ghost var h0, w0 := stores.history, stores.View();
      var previous, written := stores.Write(ADGUARD, Some(disabled), env.disableWrites);
      ghost var h1, w1 := stores.history, stores.View();
      if !written {
        ok := false;
        FollowThen(stores, h0, w0, w1, Call([], false), ok);
      } else {
        var applied := stores.Apply(disabled);
        ghost var w2 := stores.View();
        if applied {
          ok := RevokeEntry(disabled, env);
          FollowThen(stores, h1, w1, w2, A.Revoke(reg, w2, disabled, env), ok);
        } else {
          ok := false;
          FollowThen(stores, h1, w1, w2, Call([], false), ok);
        }
        FollowThen(stores, h0, w0, w1, A.DisconnectApply(reg, w1, disabled, env), ok);
      }
    }

    method RevokeEntry(c: Configuration, env: A.DisconnectEnv) returns (ok: bool)
      requires stores.Valid()
      modifies stores, stores.config, stores.lifecycle
      ensures Followed(stores, old(stores.history), old(stores.View()),
                       A.Revoke(stores.config.registry, old(stores.View()), c, env), ok)
    {
      ghost var reg := stores.config.registry;
      ghost var h0, w0 := stores.history, stores.View();
      var parsed := ParseConnection(c);
      if parsed.None? {
        ok := false;
      } else if parsed.value.ref.None? {
        ok := RemoveEntry(env);
      } else if !env.opensStore {
        ok := false;
      } else {
        var deleted := stores.Delete(parsed.value.ref.value, env.delete);
        ghost var w1 := stores.View();
        if deleted {
          ok := RemoveEntry(env);
          FollowThen(stores, h0, w0, w1, A.RevokeEntry(reg, w1, env), ok);
        } else {
          ok := false;
          FollowThen(stores, h0, w0, w1, Call([], false), ok);
        }
      }
    }

    method RemoveEntry(env: A.DisconnectEnv) returns (ok: bool)
      requires stores.Valid()
      modifies stores, stores.config, stores.lifecycle
      ensures Followed(stores, old(stores.history), old(stores.View()),
                       A.RevokeEntry(stores.config.registry, old(stores.View()), env), ok)
    {
      ghost var reg := stores.config.registry;
      ghost var h0, w0 := stores.history, stores.View();
      var previous, written := stores.Write(ADGUARD, None, env.removeWrites);
      ghost var h1, w1 := stores.history, stores.View();
      ok := false;
      if written {
        var forgot := stores.Forget(ADGUARD);
        ghost var w2 := stores.View();
        if forgot {
          stores.Record(ADGUARD, "disconnect-applied", env.auditsApplied);
          ok := env.auditsApplied;
          FollowThen(stores, h1, w1, w2,
                     Call([Audited(w2, ADGUARD, "disconnect-applied", env.auditsApplied)], env.auditsApplied), ok);
        } else {
          FollowThen(stores, h1, w1, w2, Call([], false), ok);
        }
        FollowThen(stores, h0, w0, w1, A.RevokeForget(reg, w1, env), ok);
      } else {
        FollowThen(stores, h0, w0, w1, Call([], false), ok);
      }
    }
  }

  class Control {
    const stores: Stores

    constructor (stores: Stores)
      ensures this.stores == stores
    { this.stores := stores; }

    method Enable(env: D.ControlEnv) returns (ok: bool)
      requires stores.Valid()
      modifies stores, stores.config, stores.lifecycle
      ensures Followed(stores, old(stores.history), old(stores.View()),
                       D.Enable(stores.config.registry, stores.lifecycle.drivers, old(stores.View()), env), ok)
      ensures old(Quiet(stores.config.registry, stores.View())) ==>
                Good(stores.config.registry, old(stores.View()), stores.history[|old(stores.history)|..])
    {
      ghost var reg := stores.config.registry;
      ghost var drivers := stores.lifecycle.drivers;
      ghost var h0, w0 := stores.history, stores.View();
      var current := stores.config.Capability(D.DEVICE_WATCH);
      if current.Some? && current.value.desired == Enabled {
        if D.ScopeOf(current.value).None? {
          ok := false;
        } else {
          ok := EnableAgain(env);
        }
      } else if env.scopes.None? || |env.scopes.value| != 1 {
        ok := false;
      } else {
        ok := EnableProposed(D.Proposed(env.scopes.value[0]), env);
      }
      if Quiet(reg, w0) {
        D.EnableKeeps(reg, drivers, w0, env);
        FollowedIsGood(reg, stores, h0, w0, D.Enable(reg, drivers, w0, env), ok);
      }
    }

    method EnableProposed(proposed: Configuration, env: D.ControlEnv) returns (ok: bool)
      requires stores.Valid()
      modifies stores, stores.config, stores.lifecycle
      ensures Followed(stores, old(stores.history), old(stores.View()),
                       D.EnableProposed(stores.config.registry, stores.lifecycle.drivers, old(stores.View()), proposed,
                                        env), ok)
    {
      ghost var h0, w0 := stores.history, stores.View();
      if !D.Preflighted(stores.config.registry, stores.lifecycle.drivers, proposed, Action.Enable, env.preflight)
          || !env.auditsRequest {
        return false;
      }
      stores.Record(D.DEVICE_WATCH, "requested", true);
      ghost var w1 := stores.View();
      ok := EnableEntry(proposed, env);
      FollowThen(stores, h0, w0, w1,
                 D.EnableWrite(stores.config.registry, stores.lifecycle.drivers, w1, proposed, env), ok);
    }

    method EnableAgain(env: D.ControlEnv) returns (ok: bool)
      requires stores.Valid()
      modifies stores, stores.lifecycle
      ensures Followed(stores, old(stores.history), old(stores.View()),
                       D.EnableAgain(stores.config.registry, stores.lifecycle.drivers, old(stores.View()), env), ok)
    {
      ghost var h0, w0 := stores.history, stores.View();
      var failed := stores.Act(Action.Enable, env);
      ghost var w1 := stores.View();
      ok := !failed;
      if failed { stores.Halt(env); }
      FollowThen(stores, h0, w0, w1, D.EnableAgainEnd(w1, failed, env), ok);
    }

    method EnableEntry(proposed: Configuration, env: D.ControlEnv) returns (ok: bool)
      requires stores.Valid()
      modifies stores, stores.config, stores.lifecycle
      ensures Followed(stores, old(stores.history), old(stores.View()),
                       D.EnableWrite(stores.config.registry, stores.lifecycle.drivers, old(stores.View()), proposed,
                                     env), ok)
    {
      ghost var reg := stores.config.registry;
      ghost var drivers := stores.lifecycle.drivers;
      ghost var h0, w0 := stores.history, stores.View();
      var previous, written := stores.Write(D.DEVICE_WATCH, Some(proposed), env.writes);
      ghost var h1, w1 := stores.history, stores.View();
      if !written {
        stores.Record(D.DEVICE_WATCH, "failed", env.auditsOutcome);
        ok := false;
        FollowThen(stores, h0, w0, w1, D.Ended(w1, "failed", env, false), ok);
      } else {
        var applied := stores.Apply(proposed);
        ghost var w2 := stores.View();
        if applied {
          ok := StartRuntime(previous, env);
          FollowThen(stores, h1, w1, w2, D.EnableRun(reg, drivers, w2, previous, env), ok);
        } else {
          ok := RestorePrevious(previous, env);
          FollowThen(stores, h1, w1, w2, D.Rollback(reg, w2, previous, env), ok);
        }
        FollowThen(stores, h0, w0, w1, D.EnableApply(reg, drivers, w1, proposed, previous, env), ok);
      }
    }

    method StartRuntime(previous: Option<Configuration>, env: D.ControlEnv) returns (ok: bool)
      requires stores.Valid()
      modifies stores, stores.config, stores.lifecycle
      ensures Followed(stores, old(stores.history), old(stores.View()),
                       D.EnableRun(stores.config.registry, stores.lifecycle.drivers, old(stores.View()), previous,
                                   env), ok)
    {
      ghost var reg := stores.config.registry;
      ghost var h0, w0 := stores.history, stores.View();
      var failed := stores.Act(Action.Enable, env);
      ghost var h1, w1 := stores.history, stores.View();
      if failed {
        stores.Halt(env);
        ghost var w2 := stores.View();
        ok := RestorePrevious(previous, env);
        FollowThen(stores, h1, w1, w2, D.Rollback(reg, w2, previous, env), ok);
        FollowThen(stores, h0, w0, w1, D.EnableStop(reg, w1, previous, env), ok);
      } else {
        stores.Record(D.DEVICE_WATCH, "applied", env.auditsOutcome);
        ok := true;
        FollowThen(stores, h0, w0, w1, D.Ended(w1, "applied", env, true), ok);
      }
    }

    method RestorePrevious(previous: Option<Configuration>, env: D.ControlEnv) returns (ok: bool)
      requires stores.Valid()
      modifies stores, stores.config, stores.lifecycle
      ensures Followed(stores, old(stores.history), old(stores.View()),
                       D.Rollback(stores.config.registry, old(stores.View()), previous, env), ok)
    {
      ghost var reg := stores.config.registry;
      ghost var h0, w0 := stores.history, stores.View();
      var _, written := stores.Write(D.DEVICE_WATCH, previous, env.rollbackWrites);
      ghost var h1, w1 := stores.history, stores.View();
      ok := false;
      if written {
        var restored;
        if previous.Some? { restored := stores.Apply(previous.value); }
          else { restored := stores.Forget(D.DEVICE_WATCH); }
        ghost var w2 := stores.View();
        stores.Record(D.DEVICE_WATCH, "failed", env.auditsOutcome);
        FollowThen(stores, h1, w1, w2, D.Ended(w2, "failed", env, false), ok);
        FollowThen(stores, h0, w0, w1, D.RollbackEngine(reg, w1, previous, env), ok);
      } else {
        stores.Record(D.DEVICE_WATCH, "failed", env.auditsOutcome);
        FollowThen(stores, h0, w0, w1, D.Ended(w1, "failed", env, false), ok);
      }
    }

    method Disable(env: D.ControlEnv) returns (ok: bool)
      requires stores.Valid()
      modifies stores, stores.config, stores.lifecycle
      ensures Followed(stores, old(stores.history), old(stores.View()),
                       D.Disable(stores.config.registry, stores.lifecycle.drivers, old(stores.View()), env), ok)
      ensures old(Quiet(stores.config.registry, stores.View())) ==>
                Good(stores.config.registry, old(stores.View()), stores.history[|old(stores.history)|..])
    {
      ghost var reg := stores.config.registry;
      ghost var drivers := stores.lifecycle.drivers;
      ghost var h0, w0 := stores.history, stores.View();
      var current := stores.config.Capability(D.DEVICE_WATCH);
      if current.None? || current.value.desired == Disabled {
        if !stores.active {
          ok := true;
        } else if !env.auditsRequest {
          ok := false;
        } else {
          stores.Record(D.DEVICE_WATCH, "requested", true);
          ghost var w1 := stores.View();
          ok := StopRuntime(env);
          FollowThen(stores, h0, w0, w1, D.DisableRun(reg, drivers, w1, env), ok);
        }
      } else {
        ok := DisableEnabled(current.value, env);
      }
      if Quiet(reg, w0) {
        D.DisableKeeps(reg, drivers, w0, env);
        FollowedIsGood(reg, stores, h0, w0, D.Disable(reg, drivers, w0, env), ok);
      }
    }

    method DisableEnabled(c: Configuration, env: D.ControlEnv) returns (ok: bool)
      requires stores.Valid()
      modifies stores, stores.config, stores.lifecycle
      ensures Followed(stores, old(stores.history), old(stores.View()),
                       D.DisableEnabled(stores.config.registry, stores.lifecycle.drivers, old(stores.View()), c, env),
                           ok)
    {
      ghost var h0, w0 := stores.history, stores.View();
      var proposed := c.(desired := Disabled);
      if D.ScopeOf(c).None?
          || !D.Preflighted(stores.config.registry, stores.lifecycle.drivers, proposed, Action.Disable, env.preflight)
             || !env.auditsRequest {
        return false;
      }
      stores.Record(D.DEVICE_WATCH, "requested", true);
      ghost var w1 := stores.View();
      ok := DisableEntry(proposed, env);
      FollowThen(stores, h0, w0, w1,
                 D.DisableWrite(stores.config.registry, stores.lifecycle.drivers, w1, proposed, env), ok);
    }

    method DisableEntry(proposed: Configuration, env: D.ControlEnv) returns (ok: bool)
      requires stores.Valid()
      modifies stores, stores.config, stores.lifecycle
      ensures Followed(stores, old(stores.history), old(stores.View()),
                       D.DisableWrite(stores.config.registry, stores.lifecycle.drivers, old(stores.View()), proposed,
                                      env), ok)
    {
      ghost var reg := stores.config.registry;
      ghost var drivers := stores.lifecycle.drivers;
      ghost var h0, w0 := stores.history, stores.View();
      var previous, written := stores.Write(D.DEVICE_WATCH, Some(proposed), env.writes);
      ghost var h1, w1 := stores.history, stores.View();
      if !written {
        stores.Record(D.DEVICE_WATCH, "failed", env.auditsOutcome);
        ok := false;
        FollowThen(stores, h0, w0, w1, D.Ended(w1, "failed", env, false), ok);
      } else {
        var applied := stores.Apply(proposed);
        ghost var w2 := stores.View();
        if applied {
          ok := StopRuntime(env);
          FollowThen(stores, h1, w1, w2, D.DisableRun(reg, drivers, w2, env), ok);
        } else {
          ok := StopHard(env);
          FollowThen(stores, h1, w1, w2, D.DisableStop(w2, env), ok);
        }
        FollowThen(stores, h0, w0, w1, D.DisableApply(reg, drivers, w1, proposed, env), ok);
      }
    }

    method StopRuntime(env: D.ControlEnv) returns (ok: bool)
      requires stores.Valid()
      modifies stores, stores.lifecycle
      ensures Followed(stores, old(stores.history), old(stores.View()),
                       D.DisableRun(stores.config.registry, stores.lifecycle.drivers, old(stores.View()), env), ok)
    {
      ghost var h0, w0 := stores.history, stores.View();
      var failed := stores.Act(Action.Disable, env);
      ghost var w1 := stores.View();
      if failed {
        ok := StopHard(env);
        FollowThen(stores, h0, w0, w1, D.DisableStop(w1, env), ok);
      } else {
        stores.Record(D.DEVICE_WATCH, "applied", env.auditsOutcome);
        ok := true;
        FollowThen(stores, h0, w0, w1, D.Ended(w1, "applied", env, true), ok);
      }
    }

    method StopHard(env: D.ControlEnv) returns (ok: bool)
      requires stores.Valid()
      modifies stores
      ensures Followed(stores, old(stores.history), old(stores.View()), D.DisableStop(old(stores.View()), env), ok)
    {
      ghost var h0, w0 := stores.history, stores.View();
      stores.Halt(env);
      ghost var w1 := stores.View();
      stores.Record(D.DEVICE_WATCH, "failed", env.auditsOutcome);
      ok := false;
      FollowThen(stores, h0, w0, w1, D.Ended(w1, "failed", env, false), ok);
    }
  }
}
