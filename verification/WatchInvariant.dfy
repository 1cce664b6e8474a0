/** What every turn of a Device Watch call keeps, whatever others do in between. */
module WatchInvariant {
  import opened Ordering
  import opened Capability
  import opened Lifecycle
  import opened ConfigManager
  import opened ControllerWorld
  import opened Turns
  import opened DeviceWatchTurns
  import opened SharedState
  import D = DeviceWatchControl

  predicate PreviousOk(reg: Registry, previous: Option<Configuration>) {
    && D.DEVICE_WATCH in reg
    && (previous.Some? ==> previous.value.id == D.DEVICE_WATCH && ValidConfiguration(reg, previous.value))
  }

  predicate DInv(reg: Registry, entry: Option<Configuration>, copy: Option<Configuration>, pc: DPc) {
    match pc
    case DApply(c, previous, _) => entry == Some(c) && PreviousOk(reg, previous)
    case DRestore(previous, _) => entry == previous && PreviousOk(reg, previous)
    case DDisableApply(c, _) => entry == Some(c)
    case DRun(previous, _) => entry == copy && PreviousOk(reg, previous)
    case DStop(previous, _) => entry == copy && PreviousOk(reg, previous)
    case DRollback(previous, _) => entry == copy && PreviousOk(reg, previous)
    case _ => entry == copy
  }

  ghost predicate WatchInv(reg: Registry, w: World, pc: DPc) {
    DInv(reg, Lookup(w.durable, D.DEVICE_WATCH), Lookup(w.engine.configured, D.DEVICE_WATCH), pc)
  }

  ghost predicate DKept(reg: Registry, w: World, t: Turn<DPc>) {
    && Shared(reg, t.world) && WatchInv(reg, t.world, t.next) && Frame(w, t.world, D.DEVICE_WATCH)
    && t.world.secrets == w.secrets
  }

  lemma WatchActed(reg: Registry, drivers: set<string>, w: World, action: Action, env: D.ControlEnv, good: DPc,
                   bad: DPc)
    requires Shared(reg, w) && WatchInv(reg, w, good) && WatchInv(reg, w, bad)
    ensures DKept(reg, w, DAct(reg, drivers, w, action, env, good, bad))
  {
    Acted(reg, drivers, w, D.DEVICE_WATCH, action, env.run, env.activeAfterRun);
  }

  lemma WatchUntouched(reg: Registry, w: World, t: Turn<DPc>)
    requires Shared(reg, w) && t.world.durable == w.durable && t.world.engine == w.engine
             && t.world.secrets == w.secrets
    requires WatchInv(reg, w, t.next)
    ensures DKept(reg, w, t)
  {
    Untouched(reg, w, t.world, D.DEVICE_WATCH);
  }

  lemma WatchEnableKeeps(reg: Registry, drivers: set<string>, w: World, env: D.ControlEnv)
    requires Shared(reg, w) && WatchInv(reg, w, DIdle(false))
    ensures DKept(reg, w, EnableTurn(reg, drivers, w, env))
  {
    var t, act := EnableTurn(reg, drivers, w, env),
        DAct(reg, drivers, w, Action.Enable, env, DIdle(true), DAgainStop(env));
    if t == act { WatchActed(reg, drivers, w, Action.Enable, env, DIdle(true), DAgainStop(env)); }
    else { WatchUntouched(reg, w, t); }
  }

  lemma WatchDisableKeeps(reg: Registry, drivers: set<string>, w: World, env: D.ControlEnv)
    requires Shared(reg, w) && WatchInv(reg, w, DIdle(false))
    ensures DKept(reg, w, DisableTurn(reg, drivers, w, env))
  {
    WatchUntouched(reg, w, DisableTurn(reg, drivers, w, env));
  }

  lemma WatchWriteKeeps(reg: Registry, drivers: set<string>, w: World, pc: DPc)
    requires Shared(reg, w) && WatchInv(reg, w, pc) && (pc.DWrite? || pc.DDisableWrite? || pc.DRollback?)
    ensures DKept(reg, w, DTurn(reg, drivers, w, pc))
  {
    if pc.DRollback? { Written(reg, w, D.DEVICE_WATCH, pc.previous, pc.env.rollbackWrites); }
    else { Written(reg, w, D.DEVICE_WATCH, Some(pc.c), pc.env.writes); }
  }

  lemma WatchInstallKeeps(reg: Registry, drivers: set<string>, w: World, pc: DPc)
    requires Shared(reg, w) && WatchInv(reg, w, pc) && (pc.DApply? || pc.DDisableApply? || pc.DRestore?)
    ensures DKept(reg, w, DTurn(reg, drivers, w, pc))
  {
    if D.DEVICE_WATCH in w.durable { Installed(reg, w, w.durable[D.DEVICE_WATCH]); }
    else { Erased(reg, w, D.DEVICE_WATCH); }
  }

  lemma WatchActKeeps(reg: Registry, drivers: set<string>, w: World, pc: DPc)
    requires Shared(reg, w) && WatchInv(reg, w, pc) && (pc.DRun? || pc.DDisableRun?)
    ensures DKept(reg, w, DTurn(reg, drivers, w, pc))
  {
    if pc.DRun? { WatchActed(reg, drivers, w, Action.Enable, pc.env, DEnd(pc.env, true), DStop(pc.previous, pc.env)); }
    else { WatchActed(reg, drivers, w, Action.Disable, pc.env, DEnd(pc.env, true), DDisableStop(pc.env)); }
  }

  lemma WatchStopKeeps(reg: Registry, drivers: set<string>, w: World, pc: DPc)
    requires Shared(reg, w) && WatchInv(reg, w, pc)
    requires pc.DIdle? || pc.DAgainStop? || pc.DStop? || pc.DEnd? || pc.DDisableStop?
    ensures DKept(reg, w, DTurn(reg, drivers, w, pc))
  {
    WatchUntouched(reg, w, DTurn(reg, drivers, w, pc));
  }

  lemma DTurnKeeps(reg: Registry, drivers: set<string>, w: World, pc: DPc)
    requires Shared(reg, w) && WatchInv(reg, w, pc)
    ensures DKept(reg, w, DTurn(reg, drivers, w, pc))
  {
    if pc.DEnable? { WatchEnableKeeps(reg, drivers, w, pc.env); }
    else if pc.DDisable? { WatchDisableKeeps(reg, drivers, w, pc.env); }
    else if pc.DWrite? || pc.DDisableWrite? || pc.DRollback? { WatchWriteKeeps(reg, drivers, w, pc); }
    else if pc.DApply? || pc.DDisableApply? || pc.DRestore? { WatchInstallKeeps(reg, drivers, w, pc); }
    else if pc.DRun? || pc.DDisableRun? { WatchActKeeps(reg, drivers, w, pc); }
    else { WatchStopKeeps(reg, drivers, w, pc); }
  }
}
