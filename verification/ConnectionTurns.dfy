/** The calls of the two external-service drivers taken effect by effect, so that others
    may act between any two effects. Alone, the turns of an AdGuard Home call are its
    sequential steps. */
module ConnectionTurns {
  import opened Ordering
  import opened Capability
  import opened ConfigManager
  import opened ControllerWorld
  import opened Turns
  import opened ExternalServices
  import A = AdGuardConnection

  datatype CPc =
    | CIdle(ok: bool)
    | CConnect(input: A.ConnectInput, connect: A.ConnectEnv)
    | CFails(connect: A.ConnectEnv)
    | CReserve(input: A.ConnectInput, ref: Option<string>, connect: A.ConnectEnv)
    | CPut(c: Configuration, ref: Option<string>, password: string, connect: A.ConnectEnv)
    | CEnable(c: Configuration, ref: Option<string>, connect: A.ConnectEnv)
    | CApply(c: Configuration, ref: Option<string>, connect: A.ConnectEnv)
    | CApplied(c: Configuration, ref: Option<string>, connect: A.ConnectEnv)
    | CUndo(c: Configuration, ref: Option<string>, undo: A.UndoEnv)
    | CUndoApply(c: Configuration, ref: Option<string>, undo: A.UndoEnv)
    | CUndoDelete(ref: Option<string>, undo: A.UndoEnv)
    | CUndoRemove(undo: A.UndoEnv)
    | CUndoForget(undo: A.UndoEnv)
    | CUndoAudit(undo: A.UndoEnv)
    | CDisconnect(disconnect: A.DisconnectEnv)
    | CDisable(c: Configuration, disconnect: A.DisconnectEnv)
    | CDisableApply(c: Configuration, disconnect: A.DisconnectEnv)
    | CRevoke(c: Configuration, disconnect: A.DisconnectEnv)
    | CRevokeEntry(disconnect: A.DisconnectEnv)
    | CRevokeForget(disconnect: A.DisconnectEnv)
    | CRevokeAudit(disconnect: A.DisconnectEnv)

  /** The rest of the call from there, were it alone. */
  function CRest(reg: Registry, w: World, pc: CPc): Call {
    match pc
    case CIdle(ok) => Call([], ok)
    case CConnect(i, env) => A.Connect(reg, w, i, env)
    case CFails(env) => A.ConnectFails(w, env)
    case CReserve(i, ref, env) => A.ConnectReserve(reg, w, i, ref, env)
    case CPut(c, ref, password, env) => A.ConnectPut(reg, w, c, ref, password, env)
    case CEnable(c, ref, env) => A.ConnectEnable(reg, w, c, ref, env)
    case CApply(c, ref, env) => A.ConnectApply(reg, w, c, ref, env)
    case CApplied(c, ref, env) =>
      if env.auditsApplied then Call([Audited(w, ADGUARD, "applied", true)], true) else A.Undo(reg, w, c, ref, env.undo)
    case CUndo(c, ref, env) => A.Undo(reg, w, c, ref, env)
    case CUndoApply(c, ref, env) => A.UndoApply(reg, w, c, ref, env)
    case CUndoDelete(ref, env) => A.UndoDelete(reg, w, ref, env)
    case CUndoRemove(env) => A.UndoRemove(reg, w, env)
    case CUndoForget(env) => A.UndoForget(reg, w, env)
    case CUndoAudit(env) => A.UndoAudit(w, env)
    case CDisconnect(env) => A.Disconnect(reg, w, env)
    case CDisable(c, env) => A.DisconnectDisable(reg, w, c, env)
    case CDisableApply(c, env) => A.DisconnectApply(reg, w, c, env)
    case CRevoke(c, env) => A.Revoke(reg, w, c, env)
    case CRevokeEntry(env) => A.RevokeEntry(reg, w, env)
    case CRevokeForget(env) => A.RevokeForget(reg, w, env)
    case CRevokeAudit(env) =>
      Call([Audited(w, ADGUARD, "disconnect-applied", env.auditsApplied)], env.auditsApplied)
  }

  predicate Connecting(pc: CPc) {
    pc.CConnect? || pc.CFails? || pc.CReserve? || pc.CPut? || pc.CEnable? || pc.CApply? || pc.CApplied?
  }

  predicate Undoing(pc: CPc) {
    pc.CUndo? || pc.CUndoApply? || pc.CUndoDelete? || pc.CUndoRemove? || pc.CUndoForget? || pc.CUndoAudit?
  }

  predicate Disconnecting(pc: CPc) { !Connecting(pc) && !Undoing(pc) && !pc.CIdle? }

  function ConnectTurn(reg: Registry, k: Service, w: World, pc: CPc): Turn<CPc>
    requires Connecting(pc)
  {
    match pc
    case CConnect(i, env) =>
      if ServiceId(k) in w.durable || !Begins(k, env) then Jump(w, CIdle(false))
      else
        RecordTurn(w, ServiceId(k), "requested", true,
                   if Refused(k, i, env) then CFails(env) else CReserve(i, Reference(k, i, env), env))
    case CFails(env) => RecordTurn(w, ServiceId(k), "failed", env.auditsFailure, CIdle(false))
    case CReserve(i, ref, env) =>
      var c := Stored(k, i, ref);
      WriteTurn(reg, w, ServiceId(k), Some(c), env.firstWrites, CPut(c, ref, i.password, env), CFails(env))
    case CPut(c, ref, password, env) =>
      if ref.None? then Jump(w, CEnable(c, ref, env))
      else Turn(w.(secrets := A.AfterPut(w.secrets, ref.value, password, env.put)),
                if env.put == A.Done then CEnable(c, ref, env) else CUndo(c, ref, env.undo), true)
    case CEnable(c, ref, env) =>
      var enabled := c.(desired := Enabled);
      WriteTurn(reg, w, ServiceId(k), Some(enabled), env.secondWrites, CApply(enabled, ref, env),
                CUndo(enabled, ref, env.undo))
    case CApply(c, ref, env) => InstallTurn(reg, w, c, CApplied(c, ref, env), CUndo(c, ref, env.undo))
    case CApplied(c, ref, env) =>
      if env.auditsApplied then RecordTurn(w, ServiceId(k), "applied", true, CIdle(true))
      else Jump(w, CUndo(c, ref, env.undo))
  }

  function UndoTurn(reg: Registry, k: Service, w: World, pc: CPc): Turn<CPc>
    requires Undoing(pc)
  {
    match pc
    case CUndo(c, ref, env) =>
      var disabled := c.(desired := Disabled);
      WriteTurn(reg, w, ServiceId(k), Some(disabled), env.disableWrites, CUndoApply(disabled, ref, env),
                CUndoAudit(env))
    case CUndoApply(c, ref, env) => InstallTurn(reg, w, c, CUndoDelete(ref, env), CUndoAudit(env))
    case CUndoDelete(ref, env) =>
      if ref.None? then Jump(w, CUndoRemove(env))
      else Turn(w.(secrets := A.AfterDelete(w.secrets, ref.value, env.delete)),
                if env.delete == A.Done then CUndoRemove(env) else CUndoAudit(env), true)
    case CUndoRemove(env) => WriteTurn(reg, w, ServiceId(k), None, env.removeWrites, CUndoForget(env), CUndoAudit(env))
    case CUndoForget(env) => EraseTurn(reg, w, ServiceId(k), CUndoAudit(env), CUndoAudit(env))
    case CUndoAudit(env) => RecordTurn(w, ServiceId(k), "failed", env.audits, CIdle(false))
  }

  function DisconnectTurn(reg: Registry, k: Service, w: World, pc: CPc): Turn<CPc>
    requires Disconnecting(pc)
  {
    match pc
    case CDisconnect(env) =>
      if ServiceId(k) !in w.durable then Jump(w, CIdle(true))
      else if !env.auditsRequest then Jump(w, CIdle(false))
      else
        var c := w.durable[ServiceId(k)];
        RecordTurn(w, ServiceId(k), "disconnect-requested", true,
                   if c.desired == Disabled then CRevoke(c, env) else CDisable(c.(desired := Disabled), env))
    case CDisable(c, env) =>
      WriteTurn(reg, w, ServiceId(k), Some(c), env.disableWrites, CDisableApply(c, env), CIdle(false))
    case CDisableApply(c, env) => InstallTurn(reg, w, c, CRevoke(c, env), CIdle(false))
    case CRevoke(c, env) =>
      var parsed := Parse(k, c);
      if parsed.None? then Jump(w, CIdle(false))
      else if parsed.value.ref.None? then Jump(w, CRevokeEntry(env))
      else if !env.opensStore then Jump(w, CIdle(false))
      else Turn(w.(secrets := A.AfterDelete(w.secrets, parsed.value.ref.value, env.delete)),
                if env.delete == A.Done then CRevokeEntry(env) else CIdle(false), true)
    case CRevokeEntry(env) => WriteTurn(reg, w, ServiceId(k), None, env.removeWrites, CRevokeForget(env), CIdle(false))
    case CRevokeForget(env) => EraseTurn(reg, w, ServiceId(k), CRevokeAudit(env), CIdle(false))
    case CRevokeAudit(env) =>
      RecordTurn(w, ServiceId(k), "disconnect-applied", env.auditsApplied, CIdle(env.auditsApplied))
  }

  function CTurn(reg: Registry, k: Service, w: World, pc: CPc): Turn<CPc> {
    if pc.CIdle? then Jump(w, pc)
    else if Connecting(pc) then ConnectTurn(reg, k, w, pc)
    else if Undoing(pc) then UndoTurn(reg, k, w, pc)
    else DisconnectTurn(reg, k, w, pc)
  }

  /** How many turns of its own a call may still need. */
  function TurnsLeft(pc: CPc): nat {
    match pc
    case CIdle(_) => 0
    case CConnect(_, _) => 14 case CReserve(_, _, _) => 13 case CFails(_) => 1
    case CPut(_, _, _, _) => 12 case CEnable(_, _, _) => 11 case CApply(_, _, _) => 10 case CApplied(_, _, _) => 9
    case CUndo(_, _, _) => 8 case CUndoApply(_, _, _) => 7 case CUndoDelete(_, _) => 6
    case CUndoRemove(_) => 5 case CUndoForget(_) => 4 case CUndoAudit(_) => 3
    case CDisconnect(_) => 7 case CDisable(_, _) => 6 case CDisableApply(_, _) => 5 case CRevoke(_, _) => 4
    case CRevokeEntry(_) => 3 case CRevokeForget(_) => 2 case CRevokeAudit(_) => 1
  }

  /** Every turn brings the call closer to its end, whatever it meets. */
  lemma TurnsAreBounded(reg: Registry, k: Service, w: World, pc: CPc)
    requires !pc.CIdle?
    ensures TurnsLeft(CTurn(reg, k, w, pc).next) < TurnsLeft(pc)
  {
    if Connecting(pc) { ConnectTurnsAreBounded(reg, k, w, pc); }
    else if Undoing(pc) { UndoTurnsAreBounded(reg, k, w, pc); }
    else { DisconnectTurnsAreBounded(reg, k, w, pc); }
  }

  lemma ConnectTurnsAreBounded(reg: Registry, k: Service, w: World, pc: CPc)
    requires Connecting(pc)
    ensures TurnsLeft(ConnectTurn(reg, k, w, pc).next) < TurnsLeft(pc)
  {
  }

  lemma UndoTurnsAreBounded(reg: Registry, k: Service, w: World, pc: CPc)
    requires Undoing(pc)
    ensures TurnsLeft(UndoTurn(reg, k, w, pc).next) < TurnsLeft(pc)
  {
  }

  lemma DisconnectTurnsAreBounded(reg: Registry, k: Service, w: World, pc: CPc)
    requires Disconnecting(pc)
    ensures TurnsLeft(DisconnectTurn(reg, k, w, pc).next) < TurnsLeft(pc)
  {
  }

  /** The turns of a call taken one after the other, with nobody else at work. */
  function Alone(reg: Registry, k: Service, w: World, pc: CPc): Call
    decreases TurnsLeft(pc)
  {
    if pc.CIdle? then Call([], pc.ok)
    else
      var t := CTurn(reg, k, w, pc);
      TurnsAreBounded(reg, k, w, pc);
      Taken(t, Alone(reg, k, t.world, t.next))
  }

  // ----- AdGuard Home's turns, alone, are its sequential call

  /** One turn of an AdGuard Home call and then the rest of it. */
  ghost predicate Unfolds(reg: Registry, w: World, pc: CPc) {
    var t := CTurn(reg, AdGuardHome, w, pc);
    CRest(reg, w, pc) == Taken(t, CRest(reg, t.world, t.next))
  }

  lemma ConnectUnfolds(reg: Registry, w: World, pc: CPc)
    requires Connecting(pc)
    ensures Unfolds(reg, w, pc)
  {
    if pc.CConnect? { ConnectStartUnfolds(reg, w, pc); }
    else if pc.CPut? || pc.CEnable? { ConnectMiddleUnfolds(reg, w, pc); }
    else if pc.CReserve? { ReserveUnfolds(reg, w, pc.input, pc.ref, pc.connect); }
    else if pc.CApply? { ApplyUnfolds(reg, w, pc.c, pc.ref, pc.connect); }
  }

  lemma ConnectStartUnfolds(reg: Registry, w: World, pc: CPc)
    requires pc.CConnect?
    ensures Unfolds(reg, w, pc)
  {
  }

  lemma ConnectMiddleUnfolds(reg: Registry, w: World, pc: CPc)
    requires pc.CPut? || pc.CEnable?
    ensures Unfolds(reg, w, pc)
  {
  }

  lemma ReserveUnfolds(reg: Registry, w: World, i: A.ConnectInput, ref: Option<string>, env: A.ConnectEnv)
    ensures Unfolds(reg, w, CReserve(i, ref, env))
  {
  }

  lemma ApplyUnfolds(reg: Registry, w: World, c: Configuration, ref: Option<string>, env: A.ConnectEnv)
    ensures Unfolds(reg, w, CApply(c, ref, env))
  {
  }

  lemma UndoUnfolds(reg: Registry, w: World, pc: CPc)
    requires Undoing(pc)
    ensures Unfolds(reg, w, pc)
  {
    if pc.CUndo? || pc.CUndoApply? { UndoStartUnfolds(reg, w, pc); }
    else if pc.CUndoDelete? { UndoDeleteUnfolds(reg, w, pc); }
  }

  lemma UndoStartUnfolds(reg: Registry, w: World, pc: CPc)
    requires pc.CUndo? || pc.CUndoApply?
    ensures Unfolds(reg, w, pc)
  {
  }

  lemma UndoDeleteUnfolds(reg: Registry, w: World, pc: CPc)
    requires pc.CUndoDelete?
    ensures Unfolds(reg, w, pc)
  {
  }

  lemma DisconnectUnfolds(reg: Registry, w: World, pc: CPc)
    requires Disconnecting(pc)
    ensures Unfolds(reg, w, pc)
  {
    if pc.CRevoke? { RevokeUnfolds(reg, w, pc.c, pc.disconnect); }
    else if pc.CDisconnect? { DisconnectStartUnfolds(reg, w, pc.disconnect); }
    else if pc.CDisable? { DisableUnfolds(reg, w, pc.c, pc.disconnect); }
    else if pc.CDisableApply? { DisableApplyUnfolds(reg, w, pc.c, pc.disconnect); }
    else if pc.CRevokeEntry? { RevokeEntryUnfolds(reg, w, pc.disconnect); }
  }

  lemma DisableUnfolds(reg: Registry, w: World, c: Configuration, env: A.DisconnectEnv)
    ensures Unfolds(reg, w, CDisable(c, env))
  {
  }

  lemma DisableApplyUnfolds(reg: Registry, w: World, c: Configuration, env: A.DisconnectEnv)
    ensures Unfolds(reg, w, CDisableApply(c, env))
  {
  }

  lemma RevokeEntryUnfolds(reg: Registry, w: World, env: A.DisconnectEnv)
    ensures Unfolds(reg, w, CRevokeEntry(env))
  {
  }

  lemma DisconnectStartUnfolds(reg: Registry, w: World, env: A.DisconnectEnv)
    ensures Unfolds(reg, w, CDisconnect(env))
  {
  }

  lemma RevokeUnfolds(reg: Registry, w: World, c: Configuration, env: A.DisconnectEnv)
    ensures Unfolds(reg, w, CRevoke(c, env))
  {
  }

  lemma TurnUnfolds(reg: Registry, w: World, pc: CPc)
    requires !pc.CIdle?
    ensures Unfolds(reg, w, pc)
  {
    if Connecting(pc) { ConnectUnfolds(reg, w, pc); }
    else if Undoing(pc) { UndoUnfolds(reg, w, pc); }
    else { DisconnectUnfolds(reg, w, pc); }
  }

  /** From anywhere in an AdGuard Home call, its turns taken one after the other are
      exactly the rest of the sequential call. */
  lemma {:induction false} TurnsAreTheCall(reg: Registry, w: World, pc: CPc)
    ensures Alone(reg, AdGuardHome, w, pc) == CRest(reg, w, pc)
    decreases TurnsLeft(pc)
  {
    if !pc.CIdle? {
      var t := CTurn(reg, AdGuardHome, w, pc);
      TurnsAreBounded(reg, AdGuardHome, w, pc);
      TurnUnfolds(reg, w, pc);
      TurnsAreTheCall(reg, t.world, t.next);
    }
  }
}
