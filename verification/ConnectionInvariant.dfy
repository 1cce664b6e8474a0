/** What every turn of an external service's call keeps, whatever others do in between:
    the file's entry, the engine's copy of it and the secrets of that service. */
module ConnectionInvariant {
  import opened Ordering
  import opened Capability
  import opened ConfigManager
  import opened ControllerWorld
  import opened Turns
  import opened ExternalServices
  import opened ConnectionTurns
  import opened SharedState
  import A = AdGuardConnection

  /** The durable entry, the engine's copy of it, and the keychain. */
  datatype Part = Part(entry: Option<Configuration>, copy: Option<Configuration>, secrets: map<string, string>)

  function PartOf(k: Service, w: World): Part {
    Part(Lookup(w.durable, ServiceId(k)), Lookup(w.engine.configured, ServiceId(k)), w.secrets)
  }

  /** A valid entry of the connection with this reference, its desired field aside. */
  predicate Own(reg: Registry, k: Service, c: Configuration, ref: Option<string>) {
    c.id == ServiceId(k) && ValidConfiguration(reg, c.(desired := Disabled)) && Parses(k, c, ref)
  }

  predicate ConnectInv(reg: Registry, k: Service, p: Part, pc: CPc)
    requires Connecting(pc)
  {
    match pc
    case CConnect(_, _) | CFails(_) => p.entry == p.copy
    case CReserve(i, ref, _) => p.entry == p.copy == None && Storing(k, i, ref)
    case CPut(c, ref, _, _) => p.entry == Some(c) && c.desired == Disabled && Own(reg, k, c, ref) && p.secrets == map[]
    case CEnable(c, ref, _) =>
      p.entry == Some(c) && c.desired == Disabled && Own(reg, k, c, ref) && (ref.Some? ==> ref.value in p.secrets)
    case CApply(c, ref, _) => p.entry == Some(c) && c.desired == Enabled && Own(reg, k, c, ref)
    case CApplied(c, ref, _) => p.entry == p.copy == Some(c) && c.desired == Enabled && Own(reg, k, c, ref)
  }

  predicate UndoInv(reg: Registry, k: Service, p: Part, pc: CPc)
    requires Undoing(pc)
  {
    match pc
    case CUndo(c, ref, _) =>
      && Own(reg, k, c, ref) && (p.entry == Some(c) || p.entry == Some(c.(desired := Disabled)))
      && (p.entry.value.desired == Enabled ==> p.copy == p.entry)
    case CUndoApply(c, ref, _) => p.entry == Some(c) && c.desired == Disabled && Own(reg, k, c, ref)
    case CUndoDelete(ref, _) =>
      p.entry == p.copy && p.entry.Some? && p.entry.value.desired == Disabled && Own(reg, k, p.entry.value, ref)
    case CUndoRemove(_) => p.entry == p.copy && p.secrets == map[] && ServiceId(k) in reg
    case CUndoForget(_) => p.entry.None? && ServiceId(k) in reg
    case CUndoAudit(_) => p.entry == p.copy
  }

  predicate DisconnectInv(reg: Registry, k: Service, p: Part, pc: CPc)
    requires Disconnecting(pc)
  {
    match pc
    case CDisconnect(_) => p.entry == p.copy
    case CDisable(c, _) => p.entry == p.copy && p.entry.Some? && c == p.entry.value.(desired := Disabled)
    case CDisableApply(c, _) => p.entry == Some(c) && c.desired == Disabled
    case CRevoke(c, _) => p.entry == p.copy == Some(c) && c.desired == Disabled
    case CRevokeEntry(_) => p.entry == p.copy && p.secrets == map[] && ServiceId(k) in reg
    case CRevokeForget(_) => p.entry.None? && ServiceId(k) in reg
    case CRevokeAudit(_) => p.entry == p.copy == None
  }

  ghost predicate CInv(reg: Registry, k: Service, p: Part, pc: CPc) {
    && AccountedBy(k, p.entry, p.secrets)
    && (if pc.CIdle? then p.entry == p.copy
        else if Connecting(pc) then ConnectInv(reg, k, p, pc)
        else if Undoing(pc) then UndoInv(reg, k, p, pc)
        else DisconnectInv(reg, k, p, pc))
  }

  ghost predicate CKept(reg: Registry, k: Service, w: World, t: Turn<CPc>) {
    Shared(reg, t.world) && CInv(reg, k, PartOf(k, t.world), t.next) && Frame(w, t.world, ServiceId(k))
  }

  // Each kind of effect keeps what is shared; what it does to the part is left to show.

  predicate Storable(reg: Registry, k: Service, next: Option<Configuration>) {
    next.Some? ==> next.value.id == ServiceId(k) && ValidConfiguration(reg, next.value)
  }

  lemma WriteKept(reg: Registry, k: Service, w: World, next: Option<Configuration>, writes: bool, good: CPc, bad: CPc)
    requires Shared(reg, w)
    requires Storable(reg, k, next) ==> CInv(reg, k, PartOf(k, w).(entry := next), good)
    requires next != PartOf(k, w).entry ==> CInv(reg, k, PartOf(k, w), bad)
    ensures CKept(reg, k, w, WriteTurn(reg, w, ServiceId(k), next, writes, good, bad))
  {
    var t := WriteTurn(reg, w, ServiceId(k), next, writes, good, bad);
    WrittenPart(reg, k, w, next, writes);
    if Replace(reg, w.durable, ServiceId(k), next, writes).ok {
      assert t.next == good && PartOf(k, t.world) == PartOf(k, w).(entry := next);
    } else {
      assert t.next == bad && PartOf(k, t.world) == PartOf(k, w);
    }
  }

  lemma WrittenPart(reg: Registry, k: Service, w: World, next: Option<Configuration>, writes: bool)
    requires Shared(reg, w)
    ensures var r := Replace(reg, w.durable, ServiceId(k), next, writes);
            var t := w.(durable := r.durable);
            && Shared(reg, t) && Frame(w, t, ServiceId(k))
            && (if r.ok then Storable(reg, k, next) && PartOf(k, t) == PartOf(k, w).(entry := next)
                else next != PartOf(k, w).entry && PartOf(k, t) == PartOf(k, w))
  {
    Written(reg, w, ServiceId(k), next, writes);
  }

  lemma InstallKept(reg: Registry, k: Service, w: World, c: Configuration, good: CPc, bad: CPc)
    requires Shared(reg, w) && c.id == ServiceId(k) && ValidConfiguration(reg, c)
    requires CInv(reg, k, PartOf(k, w).(copy := Some(c)), good)
    ensures CKept(reg, k, w, InstallTurn(reg, w, c, good, bad))
  {
    Installed(reg, w, c);
    assert PartOf(k, InstallTurn(reg, w, c, good, bad).world) == PartOf(k, w).(copy := Some(c));
  }

  lemma EraseKept(reg: Registry, k: Service, w: World, good: CPc, bad: CPc)
    requires Shared(reg, w) && ServiceId(k) in reg && CInv(reg, k, PartOf(k, w).(copy := None), good)
    ensures CKept(reg, k, w, EraseTurn(reg, w, ServiceId(k), good, bad))
  {
    Erased(reg, w, ServiceId(k));
    assert PartOf(k, EraseTurn(reg, w, ServiceId(k), good, bad).world) == PartOf(k, w).(copy := None);
  }

  lemma OtherKept(reg: Registry, k: Service, w: World, t: Turn<CPc>)
    requires Shared(reg, w) && t.world.durable == w.durable && t.world.engine == w.engine
    requires CInv(reg, k, PartOf(k, w).(secrets := t.world.secrets), t.next)
    ensures CKept(reg, k, w, t)
  {
    Untouched(reg, w, t.world, ServiceId(k));
    assert PartOf(k, t.world) == PartOf(k, w).(secrets := t.world.secrets);
  }

  lemma ConnectStartPart(reg: Registry, k: Service, p: Part, i: A.ConnectInput, env: A.ConnectEnv)
    requires CInv(reg, k, p, CConnect(i, env))
    ensures CInv(reg, k, p, CIdle(false)) && CInv(reg, k, p, CFails(env))
    ensures p.entry.None? && !Refused(k, i, env) ==> CInv(reg, k, p, CReserve(i, Reference(k, i, env), env))
  {
  }

  lemma ConnectStartKeeps(reg: Registry, k: Service, w: World, i: A.ConnectInput, env: A.ConnectEnv)
    requires Shared(reg, w) && CInv(reg, k, PartOf(k, w), CConnect(i, env))
    ensures CKept(reg, k, w, ConnectTurn(reg, k, w, CConnect(i, env)))
  {
    ConnectStartPart(reg, k, PartOf(k, w), i, env);
    OtherKept(reg, k, w, ConnectTurn(reg, k, w, CConnect(i, env)));
  }

  lemma FailsKeeps(reg: Registry, k: Service, w: World, env: A.ConnectEnv)
    requires Shared(reg, w) && CInv(reg, k, PartOf(k, w), CFails(env))
    ensures CKept(reg, k, w, RecordTurn(w, ServiceId(k), "failed", env.auditsFailure, CIdle(false)))
  {
    OtherKept(reg, k, w, RecordTurn(w, ServiceId(k), "failed", env.auditsFailure, CIdle(false)));
  }

  lemma AppliedKeeps(reg: Registry, k: Service, w: World, c: Configuration, ref: Option<string>, env: A.ConnectEnv)
    requires Shared(reg, w) && CInv(reg, k, PartOf(k, w), CApplied(c, ref, env))
    ensures CKept(reg, k, w, ConnectTurn(reg, k, w, CApplied(c, ref, env)))
  {
    OtherKept(reg, k, w, ConnectTurn(reg, k, w, CApplied(c, ref, env)));
  }

  lemma ReserveKeeps(reg: Registry, k: Service, w: World, i: A.ConnectInput, ref: Option<string>, env: A.ConnectEnv)
    requires Shared(reg, w) && CInv(reg, k, PartOf(k, w), CReserve(i, ref, env))
    ensures CKept(reg, k, w, ConnectTurn(reg, k, w, CReserve(i, ref, env)))
  {
    var c := Stored(k, i, ref);
    StoredParses(k, i, ref);
    assert c.(desired := Disabled) == c;
    WriteKept(reg, k, w, Some(c), env.firstWrites, CPut(c, ref, i.password, env), CFails(env));
  }

  lemma PutPart(reg: Registry, k: Service, p: Part, c: Configuration, ref: string, password: string, env: A.ConnectEnv)
    requires CInv(reg, k, p, CPut(c, Some(ref), password, env))
    ensures var q := p.(secrets := A.AfterPut(p.secrets, ref, password, env.put));
            if env.put == A.Done then CInv(reg, k, q, CEnable(c, Some(ref), env))
              else CInv(reg, k, q, CUndo(c, Some(ref), env.undo))
  {
  }

  lemma PutKeeps(reg: Registry, k: Service, w: World, c: Configuration, ref: Option<string>, password: string,
                 env: A.ConnectEnv)
    requires Shared(reg, w) && CInv(reg, k, PartOf(k, w), CPut(c, ref, password, env))
    ensures CKept(reg, k, w, ConnectTurn(reg, k, w, CPut(c, ref, password, env)))
  {
    if ref.Some? { PutPart(reg, k, PartOf(k, w), c, ref.value, password, env); }
    OtherKept(reg, k, w, ConnectTurn(reg, k, w, CPut(c, ref, password, env)));
  }

  lemma EnablePart(reg: Registry, k: Service, p: Part, c: Configuration, ref: Option<string>, env: A.ConnectEnv)
    requires CInv(reg, k, p, CEnable(c, ref, env))
    ensures var enabled := c.(desired := Enabled);
            && CInv(reg, k, p.(entry := Some(enabled)), CApply(enabled, ref, env))
            && CInv(reg, k, p, CUndo(enabled, ref, env.undo))
  {
    var enabled := c.(desired := Enabled);
    DesiredDoesNotParse(k, c, Enabled);
    assert enabled.(desired := Disabled) == c.(desired := Disabled) == c;
  }

  lemma EnableKeeps(reg: Registry, k: Service, w: World, c: Configuration, ref: Option<string>, env: A.ConnectEnv)
    requires Shared(reg, w) && CInv(reg, k, PartOf(k, w), CEnable(c, ref, env))
    ensures CKept(reg, k, w, ConnectTurn(reg, k, w, CEnable(c, ref, env)))
  {
    var enabled := c.(desired := Enabled);
    EnablePart(reg, k, PartOf(k, w), c, ref, env);
    WriteKept(reg, k, w, Some(enabled), env.secondWrites, CApply(enabled, ref, env), CUndo(enabled, ref, env.undo));
  }

  lemma ApplyKeeps(reg: Registry, k: Service, w: World, c: Configuration, ref: Option<string>, env: A.ConnectEnv)
    requires Shared(reg, w) && CInv(reg, k, PartOf(k, w), CApply(c, ref, env))
    ensures CKept(reg, k, w, InstallTurn(reg, w, c, CApplied(c, ref, env), CUndo(c, ref, env.undo)))
  {
    assert ValidConfiguration(reg, w.durable[ServiceId(k)]);
    InstallKept(reg, k, w, c, CApplied(c, ref, env), CUndo(c, ref, env.undo));
  }

  lemma UndoPart(reg: Registry, k: Service, p: Part, c: Configuration, ref: Option<string>, env: A.UndoEnv)
    requires CInv(reg, k, p, CUndo(c, ref, env))
    ensures var disabled := c.(desired := Disabled);
            && CInv(reg, k, p.(entry := Some(disabled)), CUndoApply(disabled, ref, env))
            && (Some(disabled) != p.entry ==> CInv(reg, k, p, CUndoAudit(env)))
  {
    DesiredDoesNotParse(k, c, Disabled);
  }

  lemma UndoStartKeeps(reg: Registry, k: Service, w: World, c: Configuration, ref: Option<string>, env: A.UndoEnv)
    requires Shared(reg, w) && CInv(reg, k, PartOf(k, w), CUndo(c, ref, env))
    ensures CKept(reg, k, w, UndoTurn(reg, k, w, CUndo(c, ref, env)))
  {
    var disabled := c.(desired := Disabled);
    UndoPart(reg, k, PartOf(k, w), c, ref, env);
    WriteKept(reg, k, w, Some(disabled), env.disableWrites, CUndoApply(disabled, ref, env), CUndoAudit(env));
  }

  lemma UndoApplyKeeps(reg: Registry, k: Service, w: World, c: Configuration, ref: Option<string>, env: A.UndoEnv)
    requires Shared(reg, w) && CInv(reg, k, PartOf(k, w), CUndoApply(c, ref, env))
    ensures CKept(reg, k, w, InstallTurn(reg, w, c, CUndoDelete(ref, env), CUndoAudit(env)))
  {
    assert c.(desired := Disabled) == c;
    InstallKept(reg, k, w, c, CUndoDelete(ref, env), CUndoAudit(env));
  }

  lemma UndoDeletePart(reg: Registry, k: Service, p: Part, ref: Option<string>, env: A.UndoEnv)
    requires CInv(reg, k, p, CUndoDelete(ref, env))
    ensures ref.None? ==> CInv(reg, k, p, CUndoRemove(env))
    ensures ref.Some? ==>
              var q := p.(secrets := A.AfterDelete(p.secrets, ref.value, env.delete));
              CInv(reg, k, q, CUndoAudit(env)) && (env.delete == A.Done ==> CInv(reg, k, q, CUndoRemove(env)))
  {
    OneSecret(k, p.entry.value, p.secrets);
    if ref.Some? { DeletedKeeps(k, p.entry.value, ref.value, p.secrets, env.delete); }
  }

  lemma UndoDeleteKeeps(reg: Registry, k: Service, w: World, ref: Option<string>, env: A.UndoEnv)
    requires Shared(reg, w) && CInv(reg, k, PartOf(k, w), CUndoDelete(ref, env))
    ensures CKept(reg, k, w, UndoTurn(reg, k, w, CUndoDelete(ref, env)))
  {
    UndoDeletePart(reg, k, PartOf(k, w), ref, env);
    OtherKept(reg, k, w, UndoTurn(reg, k, w, CUndoDelete(ref, env)));
  }

  lemma UndoRemovePart(reg: Registry, k: Service, p: Part, env: A.UndoEnv)
    requires CInv(reg, k, p, CUndoRemove(env))
    ensures CInv(reg, k, p.(entry := None), CUndoForget(env)) && CInv(reg, k, p, CUndoAudit(env))
  {
  }

  lemma UndoRemoveKeeps(reg: Registry, k: Service, w: World, env: A.UndoEnv)
    requires Shared(reg, w) && CInv(reg, k, PartOf(k, w), CUndoRemove(env))
    ensures CKept(reg, k, w, WriteTurn(reg, w, ServiceId(k), None, env.removeWrites, CUndoForget(env), CUndoAudit(env)))
  {
    UndoRemovePart(reg, k, PartOf(k, w), env);
    WriteKept(reg, k, w, None, env.removeWrites, CUndoForget(env), CUndoAudit(env));
  }

  lemma UndoForgetKeeps(reg: Registry, k: Service, w: World, env: A.UndoEnv)
    requires Shared(reg, w) && CInv(reg, k, PartOf(k, w), CUndoForget(env))
    ensures CKept(reg, k, w, EraseTurn(reg, w, ServiceId(k), CUndoAudit(env), CUndoAudit(env)))
  {
    EraseKept(reg, k, w, CUndoAudit(env), CUndoAudit(env));
  }

  lemma UndoAuditKeeps(reg: Registry, k: Service, w: World, env: A.UndoEnv)
    requires Shared(reg, w) && CInv(reg, k, PartOf(k, w), CUndoAudit(env))
    ensures CKept(reg, k, w, RecordTurn(w, ServiceId(k), "failed", env.audits, CIdle(false)))
  {
    OtherKept(reg, k, w, RecordTurn(w, ServiceId(k), "failed", env.audits, CIdle(false)));
  }

  lemma DisconnectStartKeeps(reg: Registry, k: Service, w: World, env: A.DisconnectEnv)
    requires Shared(reg, w) && CInv(reg, k, PartOf(k, w), CDisconnect(env))
    ensures CKept(reg, k, w, DisconnectTurn(reg, k, w, CDisconnect(env)))
  {
    OtherKept(reg, k, w, DisconnectTurn(reg, k, w, CDisconnect(env)));
  }

  lemma DisablePart(reg: Registry, k: Service, p: Part, c: Configuration, env: A.DisconnectEnv)
    requires CInv(reg, k, p, CDisable(c, env))
    ensures CInv(reg, k, p.(entry := Some(c)), CDisableApply(c, env)) && CInv(reg, k, p, CIdle(false))
  {
    DesiredDoesNotParse(k, p.entry.value, Disabled);
  }

  lemma DisableKeeps(reg: Registry, k: Service, w: World, c: Configuration, env: A.DisconnectEnv)
    requires Shared(reg, w) && CInv(reg, k, PartOf(k, w), CDisable(c, env))
    ensures CKept(reg, k, w,
                  WriteTurn(reg, w, ServiceId(k), Some(c), env.disableWrites, CDisableApply(c, env), CIdle(false)))
  {
    DisablePart(reg, k, PartOf(k, w), c, env);
    WriteKept(reg, k, w, Some(c), env.disableWrites, CDisableApply(c, env), CIdle(false));
  }

  lemma DisableApplyKeeps(reg: Registry, k: Service, w: World, c: Configuration, env: A.DisconnectEnv)
    requires Shared(reg, w) && CInv(reg, k, PartOf(k, w), CDisableApply(c, env))
    ensures CKept(reg, k, w, InstallTurn(reg, w, c, CRevoke(c, env), CIdle(false)))
  {
    assert ValidConfiguration(reg, w.durable[ServiceId(k)]);
    InstallKept(reg, k, w, c, CRevoke(c, env), CIdle(false));
  }

  lemma RevokePart(reg: Registry, k: Service, p: Part, c: Configuration, env: A.DisconnectEnv)
    requires CInv(reg, k, p, CRevoke(c, env)) && ServiceId(k) in reg
    ensures CInv(reg, k, p, CIdle(false))
    ensures Parse(k, c).value.ref.None? ==> CInv(reg, k, p, CRevokeEntry(env))
    ensures Parse(k, c).value.ref.Some? ==>
              var q := p.(secrets := A.AfterDelete(p.secrets, Parse(k, c).value.ref.value, env.delete));
              CInv(reg, k, q, CIdle(false)) && (env.delete == A.Done ==> CInv(reg, k, q, CRevokeEntry(env)))
  {
    OneSecret(k, c, p.secrets);
    var ref := Parse(k, c).value.ref;
    if ref.Some? { DeletedKeeps(k, c, ref.value, p.secrets, env.delete); }
  }

  lemma RevokeKeeps(reg: Registry, k: Service, w: World, c: Configuration, env: A.DisconnectEnv)
    requires Shared(reg, w) && CInv(reg, k, PartOf(k, w), CRevoke(c, env))
    ensures CKept(reg, k, w, DisconnectTurn(reg, k, w, CRevoke(c, env)))
  {
    assert ServiceId(k) in reg by { assert ValidConfiguration(reg, w.durable[ServiceId(k)]); }
    RevokePart(reg, k, PartOf(k, w), c, env);
    OtherKept(reg, k, w, DisconnectTurn(reg, k, w, CRevoke(c, env)));
  }

  lemma RevokeEntryPart(reg: Registry, k: Service, p: Part, env: A.DisconnectEnv)
    requires CInv(reg, k, p, CRevokeEntry(env))
    ensures CInv(reg, k, p.(entry := None), CRevokeForget(env)) && CInv(reg, k, p, CIdle(false))
  {
  }

  lemma RevokeEntryKeeps(reg: Registry, k: Service, w: World, env: A.DisconnectEnv)
    requires Shared(reg, w) && CInv(reg, k, PartOf(k, w), CRevokeEntry(env))
    ensures CKept(reg, k, w, WriteTurn(reg, w, ServiceId(k), None, env.removeWrites, CRevokeForget(env), CIdle(false)))
  {
    RevokeEntryPart(reg, k, PartOf(k, w), env);
    WriteKept(reg, k, w, None, env.removeWrites, CRevokeForget(env), CIdle(false));
  }

  lemma RevokeForgetKeeps(reg: Registry, k: Service, w: World, env: A.DisconnectEnv)
    requires Shared(reg, w) && CInv(reg, k, PartOf(k, w), CRevokeForget(env))
    ensures CKept(reg, k, w, EraseTurn(reg, w, ServiceId(k), CRevokeAudit(env), CIdle(false)))
  {
    EraseKept(reg, k, w, CRevokeAudit(env), CIdle(false));
  }

  lemma RevokeAuditKeeps(reg: Registry, k: Service, w: World, env: A.DisconnectEnv)
    requires Shared(reg, w) && CInv(reg, k, PartOf(k, w), CRevokeAudit(env))
    ensures CKept(reg, k, w,
                  RecordTurn(w, ServiceId(k), "disconnect-applied", env.auditsApplied, CIdle(env.auditsApplied)))
  {
    OtherKept(reg, k, w,
              RecordTurn(w, ServiceId(k), "disconnect-applied", env.auditsApplied, CIdle(env.auditsApplied)));
  }

  lemma ConnectKeeps(reg: Registry, k: Service, w: World, pc: CPc)
    requires Shared(reg, w) && CInv(reg, k, PartOf(k, w), pc) && Connecting(pc)
    ensures CKept(reg, k, w, ConnectTurn(reg, k, w, pc))
  {
    match pc
    case CConnect(i, env) => ConnectStartKeeps(reg, k, w, i, env);
    case CFails(env) => FailsKeeps(reg, k, w, env);
    case CReserve(i, ref, env) => ReserveKeeps(reg, k, w, i, ref, env);
    case CPut(c, ref, password, env) => PutKeeps(reg, k, w, c, ref, password, env);
    case CEnable(c, ref, env) => EnableKeeps(reg, k, w, c, ref, env);
    case CApply(c, ref, env) => ApplyKeeps(reg, k, w, c, ref, env);
    case CApplied(c, ref, env) => AppliedKeeps(reg, k, w, c, ref, env);
  }

  lemma UndoKeeps(reg: Registry, k: Service, w: World, pc: CPc)
    requires Shared(reg, w) && CInv(reg, k, PartOf(k, w), pc) && Undoing(pc)
    ensures CKept(reg, k, w, UndoTurn(reg, k, w, pc))
  {
    match pc
    case CUndo(c, ref, env) => UndoStartKeeps(reg, k, w, c, ref, env);
    case CUndoApply(c, ref, env) => UndoApplyKeeps(reg, k, w, c, ref, env);
    case CUndoDelete(ref, env) => UndoDeleteKeeps(reg, k, w, ref, env);
    case CUndoRemove(env) => UndoRemoveKeeps(reg, k, w, env);
    case CUndoForget(env) => UndoForgetKeeps(reg, k, w, env);
    case CUndoAudit(env) => UndoAuditKeeps(reg, k, w, env);
  }

  lemma DisconnectKeeps(reg: Registry, k: Service, w: World, pc: CPc)
    requires Shared(reg, w) && CInv(reg, k, PartOf(k, w), pc) && Disconnecting(pc)
    ensures CKept(reg, k, w, DisconnectTurn(reg, k, w, pc))
  {
    match pc
    case CDisconnect(env) => DisconnectStartKeeps(reg, k, w, env);
    case CDisable(c, env) => DisableKeeps(reg, k, w, c, env);
    case CDisableApply(c, env) => DisableApplyKeeps(reg, k, w, c, env);
    case CRevoke(c, env) => RevokeKeeps(reg, k, w, c, env);
    case CRevokeEntry(env) => RevokeEntryKeeps(reg, k, w, env);
    case CRevokeForget(env) => RevokeForgetKeeps(reg, k, w, env);
    case CRevokeAudit(env) => RevokeAuditKeeps(reg, k, w, env);
  }

  lemma CTurnKeeps(reg: Registry, k: Service, w: World, pc: CPc)
    requires Shared(reg, w) && CInv(reg, k, PartOf(k, w), pc)
    ensures CKept(reg, k, w, CTurn(reg, k, w, pc))
  {
    if pc.CIdle? { Untouched(reg, w, w, ServiceId(k)); }
    else if Connecting(pc) { ConnectKeeps(reg, k, w, pc); }
    else if Undoing(pc) { UndoKeeps(reg, k, w, pc); }
    else { DisconnectKeeps(reg, k, w, pc); }
  }
}
