/** How a call of an external-service driver ends, decided before its first turn and
    whatever others do in between: a Connect ends well or leaves nothing behind, and a
    Disconnect takes everything away, exactly under conditions on what may fail. */
module ConnectionOutcomes {
  import opened Ordering
  import opened Capability
  import opened ConfigManager
  import opened ControllerWorld
  import opened Turns
  import opened ExternalServices
  import opened ConnectionTurns
  import opened SharedState
  import opened ConnectionInvariant
  import A = AdGuardConnection

  /** Neither entry, copy nor secret. */
  const NOTHING := Part(None, None, map[])

  /** What is asked of a call: that a Connect succeeds, or succeeds with this entry and
      these secrets, or leaves nothing, or nothing enabled, unless it does; that a
      Disconnect takes everything away. */
  datatype Goal = Done | Holding(want: Configuration, secrets: map<string, string>)
                | NothingUnlessDone | DisabledUnlessDone | AllGone

  predicate Fits(goal: Goal, pc: CPc) {
    if goal == AllGone then Disconnecting(pc) else Connecting(pc) || Undoing(pc)
  }

  predicate SwitchedOff(entry: Option<Configuration>) { entry.Some? ==> entry.value.desired == Disabled }

  /** A call that has ended met its goal. */
  predicate Met(goal: Goal, p: Part, ok: bool) {
    match goal
    case Done => ok
    case Holding(want, secrets) => ok && p == Part(Some(want), Some(want), secrets)
    case NothingUnlessDone => ok || p == NOTHING
    case DisabledUnlessDone => ok || SwitchedOff(p.entry)
    case AllGone => ok && p == NOTHING
  }

  // ----- Connect

  /** Only success will do. */
  predicate Strict(goal: Goal) { goal.Done? || goal.Holding? }

  /** The undo of a Connect does what is asked; `off` says that the entry is disabled
      already, so that nothing needs to be written to disable it. */
  predicate CleansUp(goal: Goal, env: A.UndoEnv, ref: Option<string>, off: bool) {
    && !Strict(goal) && (off || env.disableWrites)
    && (goal == NothingUnlessDone ==> (ref.Some? ==> env.delete == A.Done) && env.removeWrites)
  }

  /** From the enabled entry on disk: the last record works, or its undo does. */
  predicate LastGood(goal: Goal, c: Configuration, ref: Option<string>, secrets: map<string, string>,
                     env: A.ConnectEnv) {
    if env.auditsApplied then goal.Holding? ==> c == goal.want && secrets == goal.secrets
    else CleansUp(goal, env.undo, ref, false)
  }

  predicate EnableGood(reg: Registry, goal: Goal, c: Configuration, ref: Option<string>, secrets: map<string, string>,
                       env: A.ConnectEnv) {
    if env.secondWrites && ValidConfiguration(reg, c.(desired := Enabled))
    then LastGood(goal, c.(desired := Enabled), ref, secrets, env)
    else CleansUp(goal, env.undo, ref, true)
  }

  predicate PutGood(reg: Registry, goal: Goal, c: Configuration, ref: Option<string>, password: string,
                    env: A.ConnectEnv) {
    if ref.Some? && env.put != A.Done then CleansUp(goal, env.undo, ref, true)
    else EnableGood(reg, goal, c, ref, Kept(ref, password), env)
  }

  /** The secret of a connection with this reference. */
  function Kept(ref: Option<string>, password: string): map<string, string> {
    if ref.Some? then map[ref.value := password] else map[]
  }

  predicate ReserveGood(reg: Registry, k: Service, goal: Goal, i: A.ConnectInput, ref: Option<string>,
                        env: A.ConnectEnv) {
    var c := Stored(k, i, ref);
    if env.firstWrites && ValidConfiguration(reg, c) then PutGood(reg, goal, c, ref, i.password, env)
    else !Strict(goal)
  }

  /** What a Connect that finds no entry meets its goal for: nothing fails, or, short of
      success, it does not get as far as reserving an entry or the undo of the step that
      fails works. */
  predicate ConnectGood(reg: Registry, k: Service, goal: Goal, i: A.ConnectInput, env: A.ConnectEnv) {
    if Begins(k, env) && !Refused(k, i, env) then ReserveGood(reg, k, goal, i, Reference(k, i, env), env)
    else !Strict(goal)
  }

  predicate ConnectPromise(reg: Registry, k: Service, goal: Goal, p: Part, pc: CPc)
    requires Connecting(pc) || Undoing(pc)
  {
    match pc
    case CConnect(i, env) => if p.entry.Some? then Met(goal, p, false) else ConnectGood(reg, k, goal, i, env)
    case CFails(_) => Met(goal, p, false)
    case CReserve(i, ref, env) => ReserveGood(reg, k, goal, i, ref, env)
    case CPut(c, ref, password, env) => PutGood(reg, goal, c, ref, password, env)
    case CEnable(c, ref, env) => EnableGood(reg, goal, c, ref, p.secrets, env)
    case CApply(c, ref, env) => LastGood(goal, c, ref, p.secrets, env)
    case CApplied(c, ref, env) => LastGood(goal, c, ref, p.secrets, env)
    case CUndo(c, ref, env) => CleansUp(goal, env, ref, p.entry == Some(c.(desired := Disabled)))
    case CUndoApply(_, ref, env) => CleansUp(goal, env, ref, true)
    case CUndoDelete(ref, env) => CleansUp(goal, env, ref, true)
    case CUndoRemove(env) => !Strict(goal) && (Met(goal, p, false) || env.removeWrites)
    case CUndoForget(env) => !Strict(goal)
    case CUndoAudit(env) => Met(goal, p, false)
  }

  // ----- Disconnect

  predicate RevokeGood(k: Service, c: Configuration, env: A.DisconnectEnv) {
    && Parse(k, c).Some? && (Parse(k, c).value.ref.Some? ==> env.opensStore && env.delete == A.Done)
    && env.removeWrites && env.auditsApplied
  }

  /** A Disconnect takes everything away: there is nothing, or every step that the entry
      needs works. */
  predicate DisconnectGood(k: Service, entry: Option<Configuration>, env: A.DisconnectEnv) {
    entry.Some? ==>
      env.auditsRequest && (entry.value.desired == Disabled || env.disableWrites) && RevokeGood(k, entry.value, env)
  }

  predicate DisconnectPromise(k: Service, p: Part, pc: CPc)
    requires Disconnecting(pc)
  {
    match pc
    case CDisconnect(env) => DisconnectGood(k, p.entry, env)
    case CDisable(c, env) => (p.entry == Some(c) || env.disableWrites) && RevokeGood(k, c, env)
    case CDisableApply(c, env) => RevokeGood(k, c, env)
    case CRevoke(c, env) => RevokeGood(k, c, env)
    case CRevokeEntry(env) => (p.entry.None? || env.removeWrites) && env.auditsApplied
    case CRevokeForget(env) => env.auditsApplied
    case CRevokeAudit(env) => env.auditsApplied
  }

  // ----- Every turn keeps the promise, and a broken one stays broken

  /** The goal will be met, or has been. */
  predicate Promised(reg: Registry, k: Service, goal: Goal, p: Part, pc: CPc)
    requires pc.CIdle? || Fits(goal, pc)
  {
    if pc.CIdle? then Met(goal, p, pc.ok)
    else if goal == AllGone then DisconnectPromise(k, p, pc)
    else ConnectPromise(reg, k, goal, p, pc)
  }

  /** What is promised at one place with one part is promised at the other with the other. */
  predicate As(reg: Registry, k: Service, goal: Goal, p: Part, pc: CPc, q: Part, next: CPc)
    requires Fits(goal, pc)
  {
    (next.CIdle? || Fits(goal, next)) && (Promised(reg, k, goal, q, next) <==> Promised(reg, k, goal, p, pc))
  }

  /** The promise after the turn is the one before. */
  predicate Same(reg: Registry, k: Service, goal: Goal, w: World, pc: CPc, t: Turn<CPc>)
    requires Fits(goal, pc)
  {
    As(reg, k, goal, PartOf(k, w), pc, PartOf(k, t.world), t.next)
  }

  // What each kind of effect does to the part decides the promise.

  /** A write succeeds exactly when it is valid and either changes nothing or is let
      through. */
  predicate Writes(reg: Registry, k: Service, p: Part, next: Option<Configuration>, writes: bool) {
    Storable(reg, k, next) && (next == p.entry || writes)
  }

  lemma WriteDecides(reg: Registry, k: Service, goal: Goal, w: World, pc: CPc, next: Option<Configuration>,
                     writes: bool, good: CPc, bad: CPc)
    requires Shared(reg, w) && Fits(goal, pc)
    requires var p := PartOf(k, w);
             if Writes(reg, k, p, next, writes) then As(reg, k, goal, p, pc, p.(entry := next), good)
             else As(reg, k, goal, p, pc, p, bad)
    ensures Same(reg, k, goal, w, pc, WriteTurn(reg, w, ServiceId(k), next, writes, good, bad))
  {
    WrittenPart(reg, k, w, next, writes);
  }

  lemma InstallDecides(reg: Registry, k: Service, goal: Goal, w: World, pc: CPc, c: Configuration, good: CPc, bad: CPc)
    requires Shared(reg, w) && Fits(goal, pc) && PartOf(k, w).entry == Some(c)
    requires As(reg, k, goal, PartOf(k, w), pc, PartOf(k, w).(copy := Some(c)), good)
    ensures Same(reg, k, goal, w, pc, InstallTurn(reg, w, c, good, bad))
  {
    assert ValidConfiguration(reg, w.durable[ServiceId(k)]);
    Installed(reg, w, c);
    assert PartOf(k, InstallTurn(reg, w, c, good, bad).world) == PartOf(k, w).(copy := Some(c));
  }

  lemma EraseDecides(reg: Registry, k: Service, goal: Goal, w: World, pc: CPc, good: CPc, bad: CPc)
    requires Shared(reg, w) && Fits(goal, pc) && ServiceId(k) in reg
    requires As(reg, k, goal, PartOf(k, w), pc, PartOf(k, w).(copy := None), good)
    ensures Same(reg, k, goal, w, pc, EraseTurn(reg, w, ServiceId(k), good, bad))
  {
    Erased(reg, w, ServiceId(k));
    assert PartOf(k, EraseTurn(reg, w, ServiceId(k), good, bad).world) == PartOf(k, w).(copy := None);
  }

  lemma ConnectStartDecides(reg: Registry, k: Service, goal: Goal, p: Part, i: A.ConnectInput, env: A.ConnectEnv)
    requires goal != AllGone && CInv(reg, k, p, CConnect(i, env))
    ensures As(reg, k, goal, p, CConnect(i, env), p,
               if p.entry.Some? || !Begins(k, env) then CIdle(false)
               else if Refused(k, i, env) then CFails(env) else CReserve(i, Reference(k, i, env), env))
  {
  }

  lemma ConnectStartSame(reg: Registry, k: Service, goal: Goal, w: World, i: A.ConnectInput, env: A.ConnectEnv)
    requires goal != AllGone && CInv(reg, k, PartOf(k, w), CConnect(i, env))
    ensures Same(reg, k, goal, w, CConnect(i, env), ConnectTurn(reg, k, w, CConnect(i, env)))
  {
    ConnectStartDecides(reg, k, goal, PartOf(k, w), i, env);
  }

  lemma ReserveDecides(reg: Registry, k: Service, goal: Goal, p: Part, i: A.ConnectInput, ref: Option<string>,
                       env: A.ConnectEnv)
    requires goal != AllGone && CInv(reg, k, p, CReserve(i, ref, env))
    ensures var c := Stored(k, i, ref);
            if Writes(reg, k, p, Some(c), env.firstWrites)
            then As(reg, k, goal, p, CReserve(i, ref, env), p.(entry := Some(c)), CPut(c, ref, i.password, env))
            else As(reg, k, goal, p, CReserve(i, ref, env), p, CFails(env))
  {
  }

  lemma ReserveSame(reg: Registry, k: Service, goal: Goal, w: World, i: A.ConnectInput, ref: Option<string>,
                    env: A.ConnectEnv)
    requires goal != AllGone && Shared(reg, w) && CInv(reg, k, PartOf(k, w), CReserve(i, ref, env))
    ensures Same(reg, k, goal, w, CReserve(i, ref, env),
                 ConnectTurn(reg, k, w, CReserve(i, ref, env)))
  {
    var c := Stored(k, i, ref);
    ReserveDecides(reg, k, goal, PartOf(k, w), i, ref, env);
    WriteDecides(reg, k, goal, w, CReserve(i, ref, env), Some(c), env.firstWrites,
                 CPut(c, ref, i.password, env), CFails(env));
  }

  lemma PutDecides(reg: Registry, k: Service, goal: Goal, p: Part, c: Configuration, ref: Option<string>,
                   password: string, env: A.ConnectEnv)
    requires goal != AllGone && CInv(reg, k, p, CPut(c, ref, password, env))
    ensures ref.None? ==> As(reg, k, goal, p, CPut(c, ref, password, env), p, CEnable(c, ref, env))
    ensures ref.Some? ==>
              As(reg, k, goal, p, CPut(c, ref, password, env),
                 p.(secrets := A.AfterPut(p.secrets, ref.value, password, env.put)),
                 if env.put == A.Done then CEnable(c, ref, env) else CUndo(c, ref, env.undo))
  {
    assert c.(desired := Disabled) == c;
  }

  lemma PutSame(reg: Registry, k: Service, goal: Goal, w: World, c: Configuration, ref: Option<string>,
                password: string, env: A.ConnectEnv)
    requires goal != AllGone && CInv(reg, k, PartOf(k, w), CPut(c, ref, password, env))
    ensures Same(reg, k, goal, w, CPut(c, ref, password, env),
                 ConnectTurn(reg, k, w, CPut(c, ref, password, env)))
  {
    PutDecides(reg, k, goal, PartOf(k, w), c, ref, password, env);
  }

  lemma EnableDecides(reg: Registry, k: Service, goal: Goal, p: Part, c: Configuration, ref: Option<string>,
                      env: A.ConnectEnv)
    requires goal != AllGone && CInv(reg, k, p, CEnable(c, ref, env))
    ensures var enabled := c.(desired := Enabled);
            if Writes(reg, k, p, Some(enabled), env.secondWrites)
            then As(reg, k, goal, p, CEnable(c, ref, env), p.(entry := Some(enabled)),
                    CApply(enabled, ref, env))
            else As(reg, k, goal, p, CEnable(c, ref, env), p, CUndo(enabled, ref, env.undo))
  {
    assert c.(desired := Enabled).(desired := Disabled) == c;
  }

  lemma EnableSame(reg: Registry, k: Service, goal: Goal, w: World, c: Configuration, ref: Option<string>,
                   env: A.ConnectEnv)
    requires goal != AllGone && Shared(reg, w) && CInv(reg, k, PartOf(k, w), CEnable(c, ref, env))
    ensures Same(reg, k, goal, w, CEnable(c, ref, env),
                 ConnectTurn(reg, k, w, CEnable(c, ref, env)))
  {
    var enabled := c.(desired := Enabled);
    EnableDecides(reg, k, goal, PartOf(k, w), c, ref, env);
    WriteDecides(reg, k, goal, w, CEnable(c, ref, env), Some(enabled), env.secondWrites,
                 CApply(enabled, ref, env), CUndo(enabled, ref, env.undo));
  }

  lemma ApplyDecides(reg: Registry, k: Service, goal: Goal, p: Part, c: Configuration, ref: Option<string>,
                     env: A.ConnectEnv)
    requires goal != AllGone && CInv(reg, k, p, CApply(c, ref, env))
    ensures As(reg, k, goal, p, CApply(c, ref, env), p.(copy := Some(c)), CApplied(c, ref, env))
  {
  }

  lemma ApplySame(reg: Registry, k: Service, goal: Goal, w: World, c: Configuration, ref: Option<string>,
                  env: A.ConnectEnv)
    requires goal != AllGone && Shared(reg, w) && CInv(reg, k, PartOf(k, w), CApply(c, ref, env))
    ensures Same(reg, k, goal, w, CApply(c, ref, env), ConnectTurn(reg, k, w, CApply(c, ref, env)))
  {
    ApplyDecides(reg, k, goal, PartOf(k, w), c, ref, env);
    InstallDecides(reg, k, goal, w, CApply(c, ref, env), c, CApplied(c, ref, env),
                   CUndo(c, ref, env.undo));
  }

  lemma ConnectEndSame(reg: Registry, k: Service, goal: Goal, w: World, pc: CPc)
    requires goal != AllGone && CInv(reg, k, PartOf(k, w), pc) && (pc.CApplied? || pc.CFails?)
    ensures Same(reg, k, goal, w, pc, ConnectTurn(reg, k, w, pc))
  {
  }

  lemma UndoDecides(reg: Registry, k: Service, goal: Goal, p: Part, c: Configuration, ref: Option<string>,
                    env: A.UndoEnv)
    requires goal != AllGone && CInv(reg, k, p, CUndo(c, ref, env))
    ensures var disabled := c.(desired := Disabled);
            if Writes(reg, k, p, Some(disabled), env.disableWrites)
            then As(reg, k, goal, p, CUndo(c, ref, env), p.(entry := Some(disabled)),
                    CUndoApply(disabled, ref, env))
            else As(reg, k, goal, p, CUndo(c, ref, env), p, CUndoAudit(env))
  {
  }

  lemma UndoStartSame(reg: Registry, k: Service, goal: Goal, w: World, c: Configuration, ref: Option<string>,
                      env: A.UndoEnv)
    requires goal != AllGone && Shared(reg, w) && CInv(reg, k, PartOf(k, w), CUndo(c, ref, env))
    ensures Same(reg, k, goal, w, CUndo(c, ref, env), UndoTurn(reg, k, w, CUndo(c, ref, env)))
  {
    var disabled := c.(desired := Disabled);
    UndoDecides(reg, k, goal, PartOf(k, w), c, ref, env);
    WriteDecides(reg, k, goal, w, CUndo(c, ref, env), Some(disabled), env.disableWrites,
                 CUndoApply(disabled, ref, env), CUndoAudit(env));
  }

  lemma UndoApplyDecides(reg: Registry, k: Service, goal: Goal, p: Part, c: Configuration, ref: Option<string>,
                         env: A.UndoEnv)
    requires goal != AllGone && CInv(reg, k, p, CUndoApply(c, ref, env))
    ensures As(reg, k, goal, p, CUndoApply(c, ref, env), p.(copy := Some(c)), CUndoDelete(ref, env))
  {
  }

  lemma UndoApplySame(reg: Registry, k: Service, goal: Goal, w: World, c: Configuration, ref: Option<string>,
                      env: A.UndoEnv)
    requires goal != AllGone && Shared(reg, w) && CInv(reg, k, PartOf(k, w), CUndoApply(c, ref, env))
    ensures Same(reg, k, goal, w, CUndoApply(c, ref, env),
                 UndoTurn(reg, k, w, CUndoApply(c, ref, env)))
  {
    UndoApplyDecides(reg, k, goal, PartOf(k, w), c, ref, env);
    InstallDecides(reg, k, goal, w, CUndoApply(c, ref, env), c, CUndoDelete(ref, env),
                   CUndoAudit(env));
  }

  lemma UndoDeleteDecides(reg: Registry, k: Service, goal: Goal, p: Part, ref: string, env: A.UndoEnv)
    requires goal != AllGone && CInv(reg, k, p, CUndoDelete(Some(ref), env))
    ensures As(reg, k, goal, p, CUndoDelete(Some(ref), env),
               p.(secrets := A.AfterDelete(p.secrets, ref, env.delete)),
               if env.delete == A.Done then CUndoRemove(env) else CUndoAudit(env))
  {
  }

  lemma UndoKeepDecides(reg: Registry, k: Service, goal: Goal, p: Part, env: A.UndoEnv)
    requires goal != AllGone && CInv(reg, k, p, CUndoDelete(None, env))
    ensures As(reg, k, goal, p, CUndoDelete(None, env), p, CUndoRemove(env))
  {
  }

  lemma UndoDeleteSame(reg: Registry, k: Service, goal: Goal, w: World, ref: Option<string>, env: A.UndoEnv)
    requires goal != AllGone && CInv(reg, k, PartOf(k, w), CUndoDelete(ref, env))
    ensures Same(reg, k, goal, w, CUndoDelete(ref, env),
                 UndoTurn(reg, k, w, CUndoDelete(ref, env)))
  {
    if ref.Some? { UndoDeleteDecides(reg, k, goal, PartOf(k, w), ref.value, env); }
    else { UndoKeepDecides(reg, k, goal, PartOf(k, w), env); }
  }

  lemma UndoRemoveDecides(reg: Registry, k: Service, goal: Goal, p: Part, env: A.UndoEnv)
    requires goal != AllGone && CInv(reg, k, p, CUndoRemove(env))
    ensures if Writes(reg, k, p, None, env.removeWrites)
            then As(reg, k, goal, p, CUndoRemove(env), p.(entry := None), CUndoForget(env))
            else As(reg, k, goal, p, CUndoRemove(env), p, CUndoAudit(env))
  {
  }

  lemma UndoRemoveSame(reg: Registry, k: Service, goal: Goal, w: World, env: A.UndoEnv)
    requires goal != AllGone && Shared(reg, w) && CInv(reg, k, PartOf(k, w), CUndoRemove(env))
    ensures Same(reg, k, goal, w, CUndoRemove(env), UndoTurn(reg, k, w, CUndoRemove(env)))
  {
    UndoRemoveDecides(reg, k, goal, PartOf(k, w), env);
    WriteDecides(reg, k, goal, w, CUndoRemove(env), None, env.removeWrites, CUndoForget(env),
                 CUndoAudit(env));
  }

  lemma UndoForgetSame(reg: Registry, k: Service, goal: Goal, w: World, env: A.UndoEnv)
    requires goal != AllGone && Shared(reg, w) && CInv(reg, k, PartOf(k, w), CUndoForget(env))
    ensures Same(reg, k, goal, w, CUndoForget(env), UndoTurn(reg, k, w, CUndoForget(env)))
  {
    EraseDecides(reg, k, goal, w, CUndoForget(env), CUndoAudit(env), CUndoAudit(env));
  }

  lemma DisconnectStartSame(reg: Registry, k: Service, w: World, env: A.DisconnectEnv)
    requires CInv(reg, k, PartOf(k, w), CDisconnect(env))
    ensures Same(reg, k, AllGone, w, CDisconnect(env), DisconnectTurn(reg, k, w, CDisconnect(env)))
  {
    if ServiceId(k) in w.durable { DesiredDoesNotParse(k, w.durable[ServiceId(k)], Disabled); }
  }

  lemma DisableDecides(reg: Registry, k: Service, p: Part, c: Configuration, env: A.DisconnectEnv)
    requires CInv(reg, k, p, CDisable(c, env)) && Storable(reg, k, Some(c))
    ensures if Writes(reg, k, p, Some(c), env.disableWrites)
            then As(reg, k, AllGone, p, CDisable(c, env), p.(entry := Some(c)), CDisableApply(c, env))
            else As(reg, k, AllGone, p, CDisable(c, env), p, CIdle(false))
  {
  }

  lemma DisableSame(reg: Registry, k: Service, w: World, c: Configuration, env: A.DisconnectEnv)
    requires Shared(reg, w) && CInv(reg, k, PartOf(k, w), CDisable(c, env))
    ensures Same(reg, k, AllGone, w, CDisable(c, env), DisconnectTurn(reg, k, w, CDisable(c, env)))
  {
    assert Storable(reg, k, Some(c)) by {
      assert ValidConfiguration(reg, w.durable[ServiceId(k)]);
      DisabledStaysValid(reg, w.durable[ServiceId(k)]);
    }
    DisableDecides(reg, k, PartOf(k, w), c, env);
    WriteDecides(reg, k, AllGone, w, CDisable(c, env), Some(c), env.disableWrites, CDisableApply(c, env),
                 CIdle(false));
  }

  lemma DisableApplyDecides(reg: Registry, k: Service, p: Part, c: Configuration, env: A.DisconnectEnv)
    requires CInv(reg, k, p, CDisableApply(c, env))
    ensures As(reg, k, AllGone, p, CDisableApply(c, env), p.(copy := Some(c)), CRevoke(c, env))
  {
  }

  lemma DisableApplySame(reg: Registry, k: Service, w: World, c: Configuration, env: A.DisconnectEnv)
    requires Shared(reg, w) && CInv(reg, k, PartOf(k, w), CDisableApply(c, env))
    ensures Same(reg, k, AllGone, w, CDisableApply(c, env), DisconnectTurn(reg, k, w, CDisableApply(c, env)))
  {
    DisableApplyDecides(reg, k, PartOf(k, w), c, env);
    InstallDecides(reg, k, AllGone, w, CDisableApply(c, env), c, CRevoke(c, env), CIdle(false));
  }

  lemma RevokeDecides(reg: Registry, k: Service, p: Part, c: Configuration, ref: string, env: A.DisconnectEnv)
    requires CInv(reg, k, p, CRevoke(c, env)) && Parse(k, c).value.ref == Some(ref) && env.opensStore
    ensures As(reg, k, AllGone, p, CRevoke(c, env), p.(secrets := A.AfterDelete(p.secrets, ref, env.delete)),
               if env.delete == A.Done then CRevokeEntry(env) else CIdle(false))
  {
  }

  lemma RevokeSame(reg: Registry, k: Service, w: World, c: Configuration, env: A.DisconnectEnv)
    requires CInv(reg, k, PartOf(k, w), CRevoke(c, env))
    ensures Same(reg, k, AllGone, w, CRevoke(c, env), DisconnectTurn(reg, k, w, CRevoke(c, env)))
  {
    var ref := Parse(k, c).value.ref;
    if ref.Some? && env.opensStore { RevokeDecides(reg, k, PartOf(k, w), c, ref.value, env); }
  }

  lemma RevokeEntrySame(reg: Registry, k: Service, w: World, env: A.DisconnectEnv)
    requires Shared(reg, w) && CInv(reg, k, PartOf(k, w), CRevokeEntry(env))
    ensures Same(reg, k, AllGone, w, CRevokeEntry(env), DisconnectTurn(reg, k, w, CRevokeEntry(env)))
  {
    WriteDecides(reg, k, AllGone, w, CRevokeEntry(env), None, env.removeWrites, CRevokeForget(env), CIdle(false));
  }

  lemma RevokeForgetSame(reg: Registry, k: Service, w: World, env: A.DisconnectEnv)
    requires Shared(reg, w) && CInv(reg, k, PartOf(k, w), CRevokeForget(env))
    ensures Same(reg, k, AllGone, w, CRevokeForget(env), DisconnectTurn(reg, k, w, CRevokeForget(env)))
  {
    EraseDecides(reg, k, AllGone, w, CRevokeForget(env), CRevokeAudit(env), CIdle(false));
  }

  lemma ConnectSame(reg: Registry, k: Service, goal: Goal, w: World, pc: CPc)
    requires goal != AllGone && Shared(reg, w) && CInv(reg, k, PartOf(k, w), pc) && Connecting(pc)
    ensures Same(reg, k, goal, w, pc, ConnectTurn(reg, k, w, pc))
  {
    match pc
    case CConnect(i, env) => ConnectStartSame(reg, k, goal, w, i, env);
    case CReserve(i, ref, env) => ReserveSame(reg, k, goal, w, i, ref, env);
    case CPut(c, ref, password, env) => PutSame(reg, k, goal, w, c, ref, password, env);
    case CEnable(c, ref, env) => EnableSame(reg, k, goal, w, c, ref, env);
    case CApply(c, ref, env) => ApplySame(reg, k, goal, w, c, ref, env);
    case _ => ConnectEndSame(reg, k, goal, w, pc);
  }

  lemma UndoSame(reg: Registry, k: Service, goal: Goal, w: World, pc: CPc)
    requires goal != AllGone && Shared(reg, w) && CInv(reg, k, PartOf(k, w), pc) && Undoing(pc)
    ensures Same(reg, k, goal, w, pc, UndoTurn(reg, k, w, pc))
  {
    match pc
    case CUndo(c, ref, env) => UndoStartSame(reg, k, goal, w, c, ref, env);
    case CUndoApply(c, ref, env) => UndoApplySame(reg, k, goal, w, c, ref, env);
    case CUndoDelete(ref, env) => UndoDeleteSame(reg, k, goal, w, ref, env);
    case CUndoRemove(env) => UndoRemoveSame(reg, k, goal, w, env);
    case CUndoForget(env) => UndoForgetSame(reg, k, goal, w, env);
    case CUndoAudit(_) =>
  }

  lemma DisconnectSame(reg: Registry, k: Service, w: World, pc: CPc)
    requires Shared(reg, w) && CInv(reg, k, PartOf(k, w), pc) && Disconnecting(pc)
    ensures Same(reg, k, AllGone, w, pc, DisconnectTurn(reg, k, w, pc))
  {
    match pc
    case CDisconnect(env) => DisconnectStartSame(reg, k, w, env);
    case CDisable(c, env) => DisableSame(reg, k, w, c, env);
    case CDisableApply(c, env) => DisableApplySame(reg, k, w, c, env);
    case CRevoke(c, env) => RevokeSame(reg, k, w, c, env);
    case CRevokeEntry(env) => RevokeEntrySame(reg, k, w, env);
    case CRevokeForget(env) => RevokeForgetSame(reg, k, w, env);
    case CRevokeAudit(_) =>
  }

  /** No turn of a call, whatever it meets, changes what the call will come to. */
  lemma TurnKeepsPromise(reg: Registry, k: Service, goal: Goal, w: World, pc: CPc)
    requires Shared(reg, w) && CInv(reg, k, PartOf(k, w), pc) && Fits(goal, pc)
    ensures Same(reg, k, goal, w, pc, CTurn(reg, k, w, pc))
  {
    if Connecting(pc) { ConnectSame(reg, k, goal, w, pc); }
    else if Undoing(pc) { UndoSame(reg, k, goal, w, pc); }
    else { DisconnectSame(reg, k, w, pc); }
  }

  // ----- What the last turn records

  /** The record that ends a call is let through by the audit log. */
  predicate LastRecorded(pc: CPc) {
    match pc
    case CFails(env) => env.auditsFailure
    case CApplied(_, _, env) => env.auditsApplied
    case CUndoAudit(env) => env.audits
    case CRevokeAudit(env) => env.auditsApplied
    case _ => false
  }

  /** A Connect of either service that got past its request, and a Disconnect that
      succeeds, end with a record of how they ended, if the log takes it. */
  lemma LastTurnRecords(reg: Registry, k: Service, w: World, pc: CPc)
    requires !pc.CIdle? && CTurn(reg, k, w, pc).next.CIdle?
    ensures var t := CTurn(reg, k, w, pc);
            && (Connecting(pc) || Undoing(pc) ==> pc.CConnect? || t.effect)
            && (LastRecorded(pc) ==>
                  t.world.audit == w.audit + [AuditEntry(ServiceId(k),
                                                         if Disconnecting(pc) then "disconnect-applied"
                                                         else if t.next.ok then "applied" else "failed")])
            && (Disconnecting(pc) && t.next.ok ==> pc.CRevokeAudit? || (pc.CDisconnect? && ServiceId(k) !in w.durable))
  {
  }

  // ----- With nobody else at work

  lemma {:induction false} AloneMeetsItsGoal(reg: Registry, k: Service, goal: Goal, w: World, pc: CPc)
    requires Shared(reg, w) && CInv(reg, k, PartOf(k, w), pc) && (pc.CIdle? || Fits(goal, pc))
    ensures var call := Alone(reg, k, w, pc);
            Met(goal, PartOf(k, Final(w, call.steps)), call.ok) <==> Promised(reg, k, goal, PartOf(k, w), pc)
    decreases TurnsLeft(pc)
  {
    if !pc.CIdle? {
      var t := CTurn(reg, k, w, pc);
      TurnsAreBounded(reg, k, w, pc);
      TurnKeepsPromise(reg, k, goal, w, pc);
      CTurnKeeps(reg, k, w, pc);
      AloneMeetsItsGoal(reg, k, goal, t.world, t.next);
      JumpStays(reg, k, w, pc);
      TakenEnds(w, t, Alone(reg, k, t.world, t.next));
    }
  }

  /** A turn without an effect leaves the world as it was. */
  lemma JumpStays(reg: Registry, k: Service, w: World, pc: CPc)
    ensures var t := CTurn(reg, k, w, pc); t.effect || t.world == w
  {
  }

  /** Success written out: the probe, both records, both writes and, where there is a
      secret to keep, the keychain work, and the entry is valid, disabled and enabled. It
      then holds what was asked for. */
  lemma DoneExactly(reg: Registry, k: Service, i: A.ConnectInput, env: A.ConnectEnv)
    ensures ConnectGood(reg, k, Done, i, env) <==>
            var ref := Reference(k, i, env);
            && env.probes && env.auditsRequest && env.firstWrites && env.secondWrites && env.auditsApplied
            && (k == Opnsense ==> i.endpoint != "")
            && (k == Opnsense || i.username != "" ==>
                  env.opensStore && env.makesRef && ValidReference(env.ref) && env.put == A.Done
                      && ref == Some(env.ref))
            && ValidConfiguration(reg, Stored(k, i, ref))
            && ValidConfiguration(reg, Stored(k, i, ref).(desired := Enabled))
    ensures ConnectGood(reg, k, Done, i, env) <==>
            var ref := Reference(k, i, env);
            ConnectGood(reg, k, Holding(Stored(k, i, ref).(desired := Enabled), Kept(ref, i.password)), i, env)
  {
  }

  lemma QuietIsShared(reg: Registry, w: World)
    requires ConsistentRegistry(reg) && Quiet(reg, w)
    ensures Shared(reg, w) && PartOf(AdGuardHome, w).entry == PartOf(AdGuardHome, w).copy
            && AccountedBy(AdGuardHome, PartOf(AdGuardHome, w).entry, w.secrets)
  {
  }

  /** From a quiet state without an entry, an AdGuard Home Connect succeeds, succeeds or
      leaves neither entry, copy nor secret, and succeeds or leaves no enabled entry, each
      exactly when `ConnectGood` holds for that goal. */
  lemma ConnectExactly(reg: Registry, w: World, i: A.ConnectInput, env: A.ConnectEnv)
    requires ConsistentRegistry(reg) && Quiet(reg, w) && ADGUARD !in w.durable
    ensures var call := A.Connect(reg, w, i, env);
            var last := PartOf(AdGuardHome, Final(w, call.steps));
            && (call.ok <==> ConnectGood(reg, AdGuardHome, Done, i, env))
            && (call.ok ==>
                  var ref := Reference(AdGuardHome, i, env);
                  var want := Stored(AdGuardHome, i, ref).(desired := Enabled);
                  last == Part(Some(want), Some(want), Kept(ref, i.password)))
            && (call.ok || last == NOTHING <==> ConnectGood(reg, AdGuardHome, NothingUnlessDone, i, env))
            && (call.ok || SwitchedOff(last.entry) <==> ConnectGood(reg, AdGuardHome, DisabledUnlessDone, i, env))
  {
    QuietIsShared(reg, w);
    TurnsAreTheCall(reg, w, CConnect(i, env));
    var ref := Reference(AdGuardHome, i, env);
    var holding := Holding(Stored(AdGuardHome, i, ref).(desired := Enabled), Kept(ref, i.password));
    DoneExactly(reg, AdGuardHome, i, env);
    AloneMeetsItsGoal(reg, AdGuardHome, Done, w, CConnect(i, env));
    AloneMeetsItsGoal(reg, AdGuardHome, holding, w, CConnect(i, env));
    AloneMeetsItsGoal(reg, AdGuardHome, NothingUnlessDone, w, CConnect(i, env));
    AloneMeetsItsGoal(reg, AdGuardHome, DisabledUnlessDone, w, CConnect(i, env));
  }

  /** From a quiet state an AdGuard Home Disconnect succeeds and leaves neither entry,
      copy nor secret exactly when `DisconnectGood` holds. */
  lemma DisconnectExactly(reg: Registry, w: World, env: A.DisconnectEnv)
    requires ConsistentRegistry(reg) && Quiet(reg, w)
    ensures var call := A.Disconnect(reg, w, env);
            call.ok && PartOf(AdGuardHome, Final(w, call.steps)) == NOTHING
            <==> DisconnectGood(AdGuardHome, Lookup(w.durable, ADGUARD), env)
  {
    QuietIsShared(reg, w);
    TurnsAreTheCall(reg, w, CDisconnect(env));
    AloneMeetsItsGoal(reg, AdGuardHome, AllGone, w, CDisconnect(env));
  }

  // ----- A failed Connect that leaves an enabled entry

  const ENDPOINT := Field("endpoint", StringField, true, [])
  const REGISTRY: Registry := map[ADGUARD := Manifest(ADGUARD, [External], false, [], [ENDPOINT], [])]
  const INPUT := A.ConnectInput("http://10.0.0.2", "", "")

  /** Everything works but the last record and, after it, the write that disables. */
  const UNLUCKY := A.ConnectEnv(true, true, true, true, "", true, true, A.Done, true, false,
                                A.UndoEnv(false, A.Done, true, true))

  lemma ConnectionIsValid()
    ensures ConsistentRegistry(REGISTRY)
    ensures var c := Stored(AdGuardHome, INPUT, None);
            ValidConfiguration(REGISTRY, c) && ValidConfiguration(REGISTRY, c.(desired := Enabled))
  {
    var c := Stored(AdGuardHome, INPUT, None);
    assert FieldNamed(REGISTRY[ADGUARD].fields, "endpoint") == Some(ENDPOINT);
    assert ValidValue(ENDPOINT, JString(INPUT.endpoint));
    assert c.values == map["endpoint" := JString(INPUT.endpoint)];
  }

  lemma EnabledAfterConnectExample()
    ensures var w := World(map[], NewEngine(REGISTRY, map[]), map[], [], false);
            && ConsistentRegistry(REGISTRY) && Quiet(REGISTRY, w)
            && var call := A.Connect(REGISTRY, w, INPUT, UNLUCKY);
               !call.ok && DesiredOf(Final(w, call.steps).durable, ADGUARD) == Enabled
  {
    var w := World(map[], NewEngine(REGISTRY, map[]), map[], [], false);
    ConnectionIsValid();
    NewEngineInv(REGISTRY, map[]);
    ConnectExactly(REGISTRY, w, INPUT, UNLUCKY);
  }
}
