/** The Device Watch calls of cmd/cozysoc/device_watch_control.go taken effect by effect,
    so that others may act between any two effects. */
module DeviceWatchTurns {
  import opened Ordering
  import opened Capability
  import opened Lifecycle
  import opened ConfigManager
  import opened ControllerWorld
  import opened Turns
  import D = DeviceWatchControl

  datatype DPc =
    | DIdle(ok: bool)
    | DEnable(env: D.ControlEnv)
    | DAgainStop(env: D.ControlEnv)
    | DWrite(c: Configuration, env: D.ControlEnv)
    | DApply(c: Configuration, previous: Option<Configuration>, env: D.ControlEnv)
    | DRun(previous: Option<Configuration>, env: D.ControlEnv)
    | DStop(previous: Option<Configuration>, env: D.ControlEnv)
    | DRollback(previous: Option<Configuration>, env: D.ControlEnv)
    | DRestore(previous: Option<Configuration>, env: D.ControlEnv)
    | DEnd(env: D.ControlEnv, ok: bool)
    | DDisable(env: D.ControlEnv)
    | DDisableWrite(c: Configuration, env: D.ControlEnv)
    | DDisableApply(c: Configuration, env: D.ControlEnv)
    | DDisableRun(env: D.ControlEnv)
    | DDisableStop(env: D.ControlEnv)

  function DRest(reg: Registry, drivers: set<string>, w: World, pc: DPc): Call
    requires ConsistentRegistry(reg)
  {
    match pc
    case DIdle(ok) => Call([], ok)
    case DEnable(env) => D.Enable(reg, drivers, w, env)
    case DAgainStop(env) => D.EnableAgainEnd(w, true, env)
    case DWrite(c, env) => D.EnableWrite(reg, drivers, w, c, env)
    case DApply(c, previous, env) => D.EnableApply(reg, drivers, w, c, previous, env)
    case DRun(previous, env) => D.EnableRun(reg, drivers, w, previous, env)
    case DStop(previous, env) => D.EnableStop(reg, w, previous, env)
    case DRollback(previous, env) => D.Rollback(reg, w, previous, env)
    case DRestore(previous, env) => D.RollbackEngine(reg, w, previous, env)
    case DEnd(env, ok) => D.Ended(w, if ok then "applied" else "failed", env, ok)
    case DDisable(env) => D.Disable(reg, drivers, w, env)
    case DDisableWrite(c, env) => D.DisableWrite(reg, drivers, w, c, env)
    case DDisableApply(c, env) => D.DisableApply(reg, drivers, w, c, env)
    case DDisableRun(env) => D.DisableRun(reg, drivers, w, env)
    case DDisableStop(env) => D.DisableStop(w, env)
  }

  function DRequest(w: World, next: DPc): Turn<DPc> { RecordTurn(w, D.DEVICE_WATCH, "requested", true, next) }

  function DAct(reg: Registry, drivers: set<string>, w: World, action: Action, env: D.ControlEnv, good: DPc,
                bad: DPc): Turn<DPc>
    requires ConsistentRegistry(reg)
  {
    var r := Run(reg, drivers, w.engine, D.DEVICE_WATCH, action, env.run);
    Turn(D.AfterRun(w, r, env), if r.result.failure.None? then good else bad, true)
  }

  function EnableTurn(reg: Registry, drivers: set<string>, w: World, env: D.ControlEnv): Turn<DPc>
    requires ConsistentRegistry(reg)
  {
    var current := Lookup(w.durable, D.DEVICE_WATCH);
    if current.Some? && current.value.desired == Enabled then
      if D.ScopeOf(current.value).None? then Jump(w, DIdle(false))
      else DAct(reg, drivers, w, Action.Enable, env, DIdle(true), DAgainStop(env))
    else if env.scopes.None? || |env.scopes.value| != 1 then Jump(w, DIdle(false))
    else
      var proposed := D.Proposed(env.scopes.value[0]);
      if !D.Preflighted(reg, drivers, proposed, Action.Enable, env.preflight)
          || !env.auditsRequest then Jump(w, DIdle(false))
      else DRequest(w, DWrite(proposed, env))
  }

  function DisableTurn(reg: Registry, drivers: set<string>, w: World, env: D.ControlEnv): Turn<DPc> {
    var current := Lookup(w.durable, D.DEVICE_WATCH);
    if current.None? || current.value.desired == Disabled then
      if !w.active then Jump(w, DIdle(true))
      else if !env.auditsRequest then Jump(w, DIdle(false))
      else DRequest(w, DDisableRun(env))
    else
      var proposed := current.value.(desired := Disabled);
      if D.ScopeOf(current.value).None? || !D.Preflighted(reg, drivers, proposed, Action.Disable, env.preflight)
          || !env.auditsRequest
      then Jump(w, DIdle(false))
      else DRequest(w, DDisableWrite(proposed, env))
  }

  function DTurn(reg: Registry, drivers: set<string>, w: World, pc: DPc): Turn<DPc>
    requires ConsistentRegistry(reg)
  {
    match pc
    case DIdle(_) => Jump(w, pc)
    case DEnable(env) => EnableTurn(reg, drivers, w, env)
    case DAgainStop(env) => Turn(D.EmergencyStop(w, env), DIdle(false), true)
    case DWrite(c, env) =>
      WriteTurn(reg, w, D.DEVICE_WATCH, Some(c), env.writes, DApply(c, Lookup(w.durable, D.DEVICE_WATCH), env),
                DEnd(env, false))
    case DApply(c, previous, env) => InstallTurn(reg, w, c, DRun(previous, env), DRollback(previous, env))
    case DRun(previous, env) => DAct(reg, drivers, w, Action.Enable, env, DEnd(env, true), DStop(previous, env))
    case DStop(previous, env) => Turn(D.EmergencyStop(w, env), DRollback(previous, env), true)
    case DRollback(previous, env) =>
      WriteTurn(reg, w, D.DEVICE_WATCH, previous, env.rollbackWrites, DRestore(previous, env), DEnd(env, false))
    case DRestore(previous, env) =>
      if previous.Some? then InstallTurn(reg, w, previous.value, DEnd(env, false), DEnd(env, false))
      else EraseTurn(reg, w, D.DEVICE_WATCH, DEnd(env, false), DEnd(env, false))
    case DEnd(env, ok) =>
      RecordTurn(w, D.DEVICE_WATCH, if ok then "applied" else "failed", env.auditsOutcome, DIdle(ok))
    case DDisable(env) => DisableTurn(reg, drivers, w, env)
    case DDisableWrite(c, env) =>
      WriteTurn(reg, w, D.DEVICE_WATCH, Some(c), env.writes, DDisableApply(c, env), DEnd(env, false))
    case DDisableApply(c, env) => InstallTurn(reg, w, c, DDisableRun(env), DDisableStop(env))
    case DDisableRun(env) => DAct(reg, drivers, w, Action.Disable, env, DEnd(env, true), DDisableStop(env))
    case DDisableStop(env) => Turn(D.EmergencyStop(w, env), DEnd(env, false), true)
  }

  /** How many turns of its own a call may still need. */
  function TurnsLeft(pc: DPc): nat {
    match pc
    case DIdle(_) => 0
    case DEnable(_) => 8 case DWrite(_, _) => 7 case DApply(_, _, _) => 6 case DRun(_, _) => 5
    case DStop(_, _) => 4 case DRollback(_, _) => 3 case DRestore(_, _) => 2
    case DEnd(_, _) => 1 case DAgainStop(_) => 1
    case DDisable(_) => 6 case DDisableWrite(_, _) => 5 case DDisableApply(_, _) => 4 case DDisableRun(_) => 3
    case DDisableStop(_) => 2
  }

  /** Every turn brings the call closer to its end, whatever it meets. */
  lemma TurnsAreBounded(reg: Registry, drivers: set<string>, w: World, pc: DPc)
    requires ConsistentRegistry(reg) && !pc.DIdle?
    ensures TurnsLeft(DTurn(reg, drivers, w, pc).next) < TurnsLeft(pc)
  {
  }

  /** The turns of a call taken one after the other, with nobody else at work. */
  function Alone(reg: Registry, drivers: set<string>, w: World, pc: DPc): Call
    requires ConsistentRegistry(reg)
    decreases TurnsLeft(pc)
  {
    if pc.DIdle? then Call([], pc.ok)
    else
      var t := DTurn(reg, drivers, w, pc);
      TurnsAreBounded(reg, drivers, w, pc);
      Taken(t, Alone(reg, drivers, t.world, t.next))
  }

  // ----- The turns, alone, are the sequential call

  /** One turn of a call and then the rest of it. */
  ghost predicate Unfolds(reg: Registry, drivers: set<string>, w: World, pc: DPc)
    requires ConsistentRegistry(reg)
  {
    var t := DTurn(reg, drivers, w, pc);
    DRest(reg, drivers, w, pc) == Taken(t, DRest(reg, drivers, t.world, t.next))
  }

  lemma EnableUnfolds(reg: Registry, drivers: set<string>, w: World, env: D.ControlEnv)
    requires ConsistentRegistry(reg)
    ensures Unfolds(reg, drivers, w, DEnable(env))
  {
  }

  lemma DisableUnfolds(reg: Registry, drivers: set<string>, w: World, env: D.ControlEnv)
    requires ConsistentRegistry(reg)
    ensures Unfolds(reg, drivers, w, DDisable(env))
  {
  }

  lemma WritingUnfolds(reg: Registry, drivers: set<string>, w: World, pc: DPc)
    requires ConsistentRegistry(reg) && (pc.DWrite? || pc.DDisableWrite?)
    ensures Unfolds(reg, drivers, w, pc)
  {
  }

  lemma InstallingUnfolds(reg: Registry, drivers: set<string>, w: World, pc: DPc)
    requires ConsistentRegistry(reg) && (pc.DApply? || pc.DDisableApply?)
    ensures Unfolds(reg, drivers, w, pc)
  {
  }

  lemma ActingUnfolds(reg: Registry, drivers: set<string>, w: World, pc: DPc)
    requires ConsistentRegistry(reg) && (pc.DRun? || pc.DDisableRun?)
    ensures Unfolds(reg, drivers, w, pc)
  {
  }

  lemma StoppingUnfolds(reg: Registry, drivers: set<string>, w: World, pc: DPc)
    requires ConsistentRegistry(reg)
    requires pc.DAgainStop? || pc.DStop? || pc.DRollback? || pc.DRestore? || pc.DEnd? || pc.DDisableStop?
    ensures Unfolds(reg, drivers, w, pc)
  {
  }

  lemma TurnUnfolds(reg: Registry, drivers: set<string>, w: World, pc: DPc)
    requires ConsistentRegistry(reg) && !pc.DIdle?
    ensures Unfolds(reg, drivers, w, pc)
  {
    match pc
    case DEnable(env) => EnableUnfolds(reg, drivers, w, env);
    case DDisable(env) => DisableUnfolds(reg, drivers, w, env);
    case DWrite(_, _) => WritingUnfolds(reg, drivers, w, pc);
    case DDisableWrite(_, _) => WritingUnfolds(reg, drivers, w, pc);
    case DApply(_, _, _) => InstallingUnfolds(reg, drivers, w, pc);
    case DDisableApply(_, _) => InstallingUnfolds(reg, drivers, w, pc);
    case DRun(_, _) => ActingUnfolds(reg, drivers, w, pc);
    case DDisableRun(_) => ActingUnfolds(reg, drivers, w, pc);
    case _ => StoppingUnfolds(reg, drivers, w, pc);
  }

  /** From anywhere in a Device Watch call, its turns taken one after the other are
      exactly the rest of the sequential call. */
  lemma {:induction false} TurnsAreTheCall(reg: Registry, drivers: set<string>, w: World, pc: DPc)
    requires ConsistentRegistry(reg)
    ensures Alone(reg, drivers, w, pc) == DRest(reg, drivers, w, pc)
    decreases TurnsLeft(pc)
  {
    if !pc.DIdle? {
      var t := DTurn(reg, drivers, w, pc);
      TurnsAreBounded(reg, drivers, w, pc);
      TurnUnfolds(reg, drivers, w, pc);
      TurnsAreTheCall(reg, drivers, t.world, t.next);
    }
  }
}
