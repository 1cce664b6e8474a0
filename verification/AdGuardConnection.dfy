/** Model of internal/controller/adguard/connection.go: Connect with its undo, and
    Disconnect. Every file write, audit and keychain call may fail; a keychain call
    may fail before or after its effect. */
module AdGuardConnection {
  import opened Ordering
  import opened Capability
  import opened ConfigManager
  import opened ControllerWorld

  /** A keychain call that succeeds, or fails before or after its effect. */
  datatype SecretCall = Done | FailedBefore | FailedAfter

  function AfterPut(secrets: map<string, string>, ref: string, password: string,
                    call: SecretCall): map<string, string> {
    if call == FailedBefore then secrets else secrets[ref := password]
  }

  function AfterDelete(secrets: map<string, string>, ref: string, call: SecretCall): map<string, string> {
    if call == FailedBefore then secrets else secrets - {ref}
  }

  datatype UndoEnv = UndoEnv(disableWrites: bool, delete: SecretCall, removeWrites: bool, audits: bool)

  function Undo(reg: Registry, w: World, c: Configuration, ref: Option<string>, env: UndoEnv): Call {
    var disabled := c.(desired := Disabled);
    var r := Replace(reg, w.durable, ADGUARD, Some(disabled), env.disableWrites);
    var w' := w.(durable := r.durable);
    Then(w', if r.ok then UndoApply(reg, w', disabled, ref, env) else UndoAudit(w', env))
  }

  function UndoApply(reg: Registry, w: World, disabled: Configuration, ref: Option<string>, env: UndoEnv): Call {
    var a := ApplyConfiguration(reg, w.engine, disabled);
    var w' := w.(engine := a.engine);
    Then(w', if a.ok then UndoDelete(reg, w', ref, env) else UndoAudit(w', env))
  }

  function UndoDelete(reg: Registry, w: World, ref: Option<string>, env: UndoEnv): Call {
    if ref.None? then UndoRemove(reg, w, env)
    else
      var w' := w.(secrets := AfterDelete(w.secrets, ref.value, env.delete));
      Then(w', if env.delete == Done then UndoRemove(reg, w', env) else UndoAudit(w', env))
  }

  function UndoRemove(reg: Registry, w: World, env: UndoEnv): Call {
    var r := Replace(reg, w.durable, ADGUARD, None, env.removeWrites);
    var w' := w.(durable := r.durable);
    Then(w', if r.ok then UndoForget(reg, w', env) else UndoAudit(w', env))
  }

  function UndoForget(reg: Registry, w: World, env: UndoEnv): Call {
    var w' := w.(engine := RemoveConfiguration(reg, w.engine, ADGUARD).engine);
    Then(w', UndoAudit(w', env))
  }

  function UndoAudit(w: World, env: UndoEnv): Call {
    Call([Audited(w, ADGUARD, "failed", env.audits)], false)
  }

  /** `probes` covers the client, its probe, a running service and a live context. */
  datatype ConnectEnv = ConnectEnv(probes: bool, auditsRequest: bool, opensStore: bool, makesRef: bool, ref: string,
                                   auditsFailure: bool,
                                   firstWrites: bool, put: SecretCall, secondWrites: bool, auditsApplied: bool,
                                       undo: UndoEnv)

  datatype ConnectInput = ConnectInput(endpoint: string, username: string, password: string)

  function Connect(reg: Registry, w: World, i: ConnectInput, env: ConnectEnv): Call {
    if ADGUARD in w.durable || !env.probes || !env.auditsRequest then Call([], false)
    else
      var w' := Audited(w, ADGUARD, "requested", true);
      Then(w', if i.username != ""
           && (!env.opensStore || !env.makesRef || !ValidReference(env.ref)) then ConnectFails(w', env)
               else ConnectReserve(reg, w', i, if i.username == "" then None else Some(env.ref), env))
  }

  function ConnectFails(w: World, env: ConnectEnv): Call {
    Call([Audited(w, ADGUARD, "failed", env.auditsFailure)], false)
  }

  /** Persist a disabled reference before touching the keychain. */
  function ConnectReserve(reg: Registry, w: World, i: ConnectInput, ref: Option<string>, env: ConnectEnv): Call {
    var c := ConnectionConfiguration(i.endpoint, i.username, ref, Disabled);
    var r := Replace(reg, w.durable, ADGUARD, Some(c), env.firstWrites);
    var w' := w.(durable := r.durable);
    Then(w', if r.ok then ConnectPut(reg, w', c, ref, i.password, env) else ConnectFails(w', env))
  }

  function ConnectPut(reg: Registry, w: World, c: Configuration, ref: Option<string>, password: string,
                      env: ConnectEnv): Call {
    if ref.None? then ConnectEnable(reg, w, c, ref, env)
    else
      var w' := w.(secrets := AfterPut(w.secrets, ref.value, password, env.put));
      Then(w', if env.put == Done then ConnectEnable(reg, w', c, ref, env) else Undo(reg, w', c, ref, env.undo))
  }

  function ConnectEnable(reg: Registry, w: World, c: Configuration, ref: Option<string>, env: ConnectEnv): Call {
    var enabled := c.(desired := Enabled);
    var r := Replace(reg, w.durable, ADGUARD, Some(enabled), env.secondWrites);
    var w' := w.(durable := r.durable);
    Then(w', if r.ok then ConnectApply(reg, w', enabled, ref, env) else Undo(reg, w', enabled, ref, env.undo))
  }

  function ConnectApply(reg: Registry, w: World, enabled: Configuration, ref: Option<string>, env: ConnectEnv): Call {
    var a := ApplyConfiguration(reg, w.engine, enabled);
    var w' := w.(engine := a.engine);
    Then(w', if !a.ok then Undo(reg, w', enabled, ref, env.undo)
             else if env.auditsApplied then Call([Audited(w', ADGUARD, "applied", true)], true)
             else Undo(reg, w', enabled, ref, env.undo))
  }

  datatype DisconnectEnv = DisconnectEnv(auditsRequest: bool, disableWrites: bool, opensStore: bool, delete: SecretCall,
                                         removeWrites: bool, auditsApplied: bool)

  function Disconnect(reg: Registry, w: World, env: DisconnectEnv): Call {
    if ADGUARD !in w.durable then Call([], true)
    else if !env.auditsRequest then Call([], false)
    else
      var w' := Audited(w, ADGUARD, "disconnect-requested", true);
      var c := w.durable[ADGUARD];
      Then(w', if c.desired == Disabled then Revoke(reg, w', c, env)
           else DisconnectDisable(reg, w', c.(desired := Disabled), env))
  }

  function DisconnectDisable(reg: Registry, w: World, disabled: Configuration, env: DisconnectEnv): Call {
    var r := Replace(reg, w.durable, ADGUARD, Some(disabled), env.disableWrites);
    var w' := w.(durable := r.durable);
    Then(w', if r.ok then DisconnectApply(reg, w', disabled, env) else Call([], false))
  }

  function DisconnectApply(reg: Registry, w: World, disabled: Configuration, env: DisconnectEnv): Call {
    var a := ApplyConfiguration(reg, w.engine, disabled);
    var w' := w.(engine := a.engine);
    Then(w', if a.ok then Revoke(reg, w', disabled, env) else Call([], false))
  }

  /** Delete the secret, then the entry. */
  function Revoke(reg: Registry, w: World, c: Configuration, env: DisconnectEnv): Call {
    var parsed := ParseConnection(c);
    if parsed.None? then Call([], false)
    else if parsed.value.ref.None? then RevokeEntry(reg, w, env)
    else if !env.opensStore then Call([], false)
    else
      var w' := w.(secrets := AfterDelete(w.secrets, parsed.value.ref.value, env.delete));
      Then(w', if env.delete == Done then RevokeEntry(reg, w', env) else Call([], false))
  }

  function RevokeEntry(reg: Registry, w: World, env: DisconnectEnv): Call {
    var r := Replace(reg, w.durable, ADGUARD, None, env.removeWrites);
    var w' := w.(durable := r.durable);
    Then(w', if r.ok then RevokeForget(reg, w', env) else Call([], false))
  }

  function RevokeForget(reg: Registry, w: World, env: DisconnectEnv): Call {
    var a := RemoveConfiguration(reg, w.engine, ADGUARD);
    var w' := w.(engine := a.engine);
    Then(w', if a.ok then Call([Audited(w', ADGUARD, "disconnect-applied", env.auditsApplied)], env.auditsApplied)
         else Call([], false))
  }

  // ----- Proofs, in the order the effects come last to first

  lemma UndoAuditKeeps(reg: Registry, w: World, env: UndoEnv)
    requires Quiet(reg, w)
    ensures Good(reg, w, UndoAudit(w, env).steps)
    ensures Gone(w) ==> Gone(Final(w, UndoAudit(w, env).steps))
  {
  }

  lemma UndoForgetKeeps(reg: Registry, w: World, env: UndoEnv)
    requires Safe(reg, w) && Agrees(w, ADGUARD) && ADGUARD !in w.durable && ADGUARD in reg
    ensures Good(reg, w, UndoForget(reg, w, env).steps) && Gone(Final(w, UndoForget(reg, w, env).steps))
  {
    RemoveNeverFails(reg, w.engine, ADGUARD);
    MergeEntry(w.engine.configured, w.durable, ADGUARD);
    var w' := w.(engine := RemoveConfiguration(reg, w.engine, ADGUARD).engine);
    UndoAuditKeeps(reg, w', env);
    GoodThen(reg, w, w', UndoAudit(w', env).steps);
  }

  lemma UndoRemoveKeeps(reg: Registry, w: World, env: UndoEnv)
    requires Quiet(reg, w) && w.secrets == map[] && ADGUARD in reg
    ensures Good(reg, w, UndoRemove(reg, w, env).steps)
    ensures env.removeWrites ==> Gone(Final(w, UndoRemove(reg, w, env).steps))
  {
    ReplaceKeeps(reg, w, ADGUARD, None, env.removeWrites);
    var r := Replace(reg, w.durable, ADGUARD, None, env.removeWrites);
    var w' := w.(durable := r.durable);
    if r.ok {
      UndoForgetKeeps(reg, w', env);
      GoodThen(reg, w, w', UndoForget(reg, w', env).steps);
    } else {
      UndoAuditKeeps(reg, w', env);
      GoodThen(reg, w, w', UndoAudit(w', env).steps);
    }
  }

  lemma UndoDeleteKeeps(reg: Registry, w: World, ref: Option<string>, env: UndoEnv)
    requires Quiet(reg, w) && ADGUARD in w.durable && ADGUARD in reg && w.durable[ADGUARD].desired == Disabled
    requires ParseConnection(w.durable[ADGUARD]).value.ref == ref
    ensures Good(reg, w, UndoDelete(reg, w, ref, env).steps)
    ensures env.delete == Done && env.removeWrites ==> Gone(Final(w, UndoDelete(reg, w, ref, env).steps))
  {
    if ref.None? {
      assert w.secrets == map[];
      UndoRemoveKeeps(reg, w, env);
    } else {
      var w' := w.(secrets := AfterDelete(w.secrets, ref.value, env.delete));
      if env.delete == Done {
        assert w'.secrets == map[];
        UndoRemoveKeeps(reg, w', env);
        GoodThen(reg, w, w', UndoRemove(reg, w', env).steps);
      } else {
        UndoAuditKeeps(reg, w', env);
        GoodThen(reg, w, w', UndoAudit(w', env).steps);
      }
    }
  }

  lemma UndoApplyKeeps(reg: Registry, w: World, disabled: Configuration, ref: Option<string>, env: UndoEnv)
    requires Safe(reg, w) && Agrees(w, ADGUARD) && Lookup(w.durable, ADGUARD) == Some(disabled)
             && disabled.desired == Disabled
    requires ParseConnection(disabled).value.ref == ref
    ensures Good(reg, w, UndoApply(reg, w, disabled, ref, env).steps)
    ensures env.delete == Done && env.removeWrites ==> Gone(Final(w, UndoApply(reg, w, disabled, ref, env).steps))
  {
    ApplyNeverFails(reg, w.engine, disabled);
    MergeEntry(w.engine.configured, w.durable, ADGUARD);
    var w' := w.(engine := ApplyConfiguration(reg, w.engine, disabled).engine);
    UndoDeleteKeeps(reg, w', ref, env);
    GoodThen(reg, w, w', UndoDelete(reg, w', ref, env).steps);
  }

  lemma DesiredDoesNotParse(c: Configuration, d: Desired)
    ensures ParseConnection(c.(desired := d)) == ParseConnection(c)
  {
  }

  /** Where `undoConnect` may be entered: the entry is the given one, or still its
      disabled form, and an enabled entry is already known to the engine. */
  ghost predicate Undoable(reg: Registry, w: World, c: Configuration, ref: Option<string>) {
    && Safe(reg, w) && Agrees(w, ADGUARD) && ADGUARD in w.durable
    && (w.durable[ADGUARD] == c || w.durable[ADGUARD] == c.(desired := Disabled))
    && (w.durable[ADGUARD].desired == Enabled ==> w.engine.configured == w.durable)
    && c.id == ADGUARD && ValidConfiguration(reg, c.(desired := Disabled))
    && ParseConnection(c).Some? && ParseConnection(c).value.ref == ref
  }

  predicate Cleans(env: UndoEnv) { env.disableWrites && env.delete == Done && env.removeWrites }

  /** Undo passes only through safe states, ends quiet, and leaves neither entry nor
      secret when its own writes and its deletion succeed. */
  lemma UndoKeeps(reg: Registry, w: World, c: Configuration, ref: Option<string>, env: UndoEnv)
    requires Undoable(reg, w, c, ref)
    ensures Good(reg, w, Undo(reg, w, c, ref, env).steps)
    ensures Cleans(env) ==> Gone(Final(w, Undo(reg, w, c, ref, env).steps))
  {
    var disabled := c.(desired := Disabled);
    DesiredDoesNotParse(c, Disabled);
    ReplaceKeeps(reg, w, ADGUARD, Some(disabled), env.disableWrites);
    var r := Replace(reg, w.durable, ADGUARD, Some(disabled), env.disableWrites);
    var w' := w.(durable := r.durable);
    if r.ok {
      UndoApplyKeeps(reg, w', disabled, ref, env);
      GoodThen(reg, w, w', UndoApply(reg, w', disabled, ref, env).steps);
    } else {
      UndoAuditKeeps(reg, w', env);
      GoodThen(reg, w, w', UndoAudit(w', env).steps);
    }
  }

  /** A reserved entry: disabled, valid, holding at most its own secret. */
  ghost predicate Reserved(reg: Registry, w: World, c: Configuration, ref: Option<string>) {
    && Safe(reg, w) && Agrees(w, ADGUARD) && Lookup(w.durable, ADGUARD) == Some(c) && c.desired == Disabled
    && ValidConfiguration(reg, c) && c.id == ADGUARD
    && ParseConnection(c).Some? && ParseConnection(c).value.ref == ref
  }

  /** A Connect that ends well leaves the given entry and secrets, durable and in the
      engine; one whose clean-up works leaves nothing. */
  ghost predicate ConnectOutcome(w: World, call: Call, undo: UndoEnv, want: Configuration,
                                 secrets: map<string, string>) {
    var last := Final(w, call.steps);
    && (call.ok ==> Lookup(last.durable, ADGUARD) == Some(want) && last.secrets == secrets)
    && (!call.ok && Cleans(undo) ==> Gone(last))
  }

  lemma ConnectApplyKeeps(reg: Registry, w: World, enabled: Configuration, ref: Option<string>, env: ConnectEnv)
    requires Safe(reg, w) && Agrees(w, ADGUARD) && Lookup(w.durable, ADGUARD) == Some(enabled)
             && enabled.desired == Enabled
    requires enabled.id == ADGUARD && ValidConfiguration(reg, enabled)
    requires ParseConnection(enabled).value.ref == ref
    ensures Good(reg, w, ConnectApply(reg, w, enabled, ref, env).steps)
    ensures ConnectOutcome(w, ConnectApply(reg, w, enabled, ref, env), env.undo, enabled, w.secrets)
  {
    ApplyNeverFails(reg, w.engine, enabled);
    MergeEntry(w.engine.configured, w.durable, ADGUARD);
    var w' := w.(engine := ApplyConfiguration(reg, w.engine, enabled).engine);
    assert Quiet(reg, w');
    ConnectAppliedKeeps(reg, w, w', enabled, ref, env);
  }

  lemma ConnectAppliedKeeps(reg: Registry, w: World, w': World, enabled: Configuration, ref: Option<string>,
                            env: ConnectEnv)
    requires Quiet(reg, w') && Lookup(w'.durable, ADGUARD) == Some(enabled) && enabled.desired == Enabled
             && enabled.id == ADGUARD
    requires ParseConnection(enabled).value.ref == ref && w'.secrets == w.secrets
    ensures var rest := if env.auditsApplied then Call([Audited(w', ADGUARD, "applied", true)], true)
            else Undo(reg, w', enabled, ref, env.undo);
            Good(reg, w, Then(w', rest).steps) && ConnectOutcome(w, Then(w', rest), env.undo, enabled, w.secrets)
  {
    if env.auditsApplied {
      GoodThen(reg, w, w', [Audited(w', ADGUARD, "applied", true)]);
    } else {
      assert ValidConfiguration(reg, enabled);
      DisabledStaysValid(reg, enabled);
      UndoKeeps(reg, w', enabled, ref, env.undo);
      GoodThen(reg, w, w', Undo(reg, w', enabled, ref, env.undo).steps);
      UndoFails(reg, w', enabled, ref, env.undo);
    }
  }

  lemma UndoFails(reg: Registry, w: World, c: Configuration, ref: Option<string>, env: UndoEnv)
    ensures !Undo(reg, w, c, ref, env).ok
  {
  }

  lemma ConnectEnableKeeps(reg: Registry, w: World, c: Configuration, ref: Option<string>, env: ConnectEnv)
    requires Reserved(reg, w, c, ref) && (ref.Some? ==> ref.value in w.secrets)
    ensures Good(reg, w, ConnectEnable(reg, w, c, ref, env).steps)
    ensures ConnectOutcome(w, ConnectEnable(reg, w, c, ref, env), env.undo, c.(desired := Enabled), w.secrets)
  {
    var enabled := c.(desired := Enabled);
    DesiredDoesNotParse(c, Enabled);
    ReplaceKeeps(reg, w, ADGUARD, Some(enabled), env.secondWrites);
    var r := Replace(reg, w.durable, ADGUARD, Some(enabled), env.secondWrites);
    var w' := w.(durable := r.durable);
    assert enabled.(desired := Disabled) == c;
    if r.ok {
      ConnectApplyKeeps(reg, w', enabled, ref, env);
      GoodThen(reg, w, w', ConnectApply(reg, w', enabled, ref, env).steps);
    } else {
      UndoKeeps(reg, w', enabled, ref, env.undo);
      UndoFails(reg, w', enabled, ref, env.undo);
      GoodThen(reg, w, w', Undo(reg, w', enabled, ref, env.undo).steps);
    }
  }

  function Stored(ref: Option<string>, password: string): map<string, string> {
    if ref.Some? then map[ref.value := password] else map[]
  }

  lemma ConnectPutKeeps(reg: Registry, w: World, c: Configuration, ref: Option<string>, password: string,
                        env: ConnectEnv)
    requires Reserved(reg, w, c, ref) && w.secrets == map[]
    ensures Good(reg, w, ConnectPut(reg, w, c, ref, password, env).steps)
    ensures ConnectOutcome(w, ConnectPut(reg, w, c, ref, password, env), env.undo, c.(desired := Enabled),
                           Stored(ref, password))
  {
    if ref.None? {
      ConnectEnableKeeps(reg, w, c, ref, env);
    } else {
      var w' := w.(secrets := AfterPut(w.secrets, ref.value, password, env.put));
      if env.put == Done {
        ConnectEnableKeeps(reg, w', c, ref, env);
        GoodThen(reg, w, w', ConnectEnable(reg, w', c, ref, env).steps);
      } else {
        UndoKeeps(reg, w', c, ref, env.undo);
        UndoFails(reg, w', c, ref, env.undo);
        GoodThen(reg, w, w', Undo(reg, w', c, ref, env.undo).steps);
      }
    }
  }

  lemma ConnectReserveKeeps(reg: Registry, w: World, i: ConnectInput, ref: Option<string>, env: ConnectEnv)
    requires Quiet(reg, w) && ADGUARD !in w.durable
    requires (i.username == "" <==> ref.None?) && (ref.Some? ==> ValidReference(ref.value))
    ensures Good(reg, w, ConnectReserve(reg, w, i, ref, env).steps)
    ensures ConnectOutcome(w, ConnectReserve(reg, w, i, ref, env), env.undo,
                           ConnectionConfiguration(i.endpoint, i.username, ref, Enabled), Stored(ref, i.password))
  {
    var c := ConnectionConfiguration(i.endpoint, i.username, ref, Disabled);
    ConnectionRoundTrip(i.endpoint, i.username, ref, Disabled);
    ReplaceKeeps(reg, w, ADGUARD, Some(c), env.firstWrites);
    var r := Replace(reg, w.durable, ADGUARD, Some(c), env.firstWrites);
    var w' := w.(durable := r.durable);
    if r.ok {
      ConnectPutKeeps(reg, w', c, ref, i.password, env);
      GoodThen(reg, w, w', ConnectPut(reg, w', c, ref, i.password, env).steps);
    } else {
      GoodThen(reg, w, w', ConnectFails(w', env).steps);
    }
  }

  /** Connect from a quiet state: every step is safe, the end is quiet, success means
      an enabled entry, and a failed Connect over an unconnected controller whose
      own clean-up works restores the empty state. */
  lemma ConnectKeeps(reg: Registry, w: World, i: ConnectInput, env: ConnectEnv)
    requires Quiet(reg, w)
    ensures Good(reg, w, Connect(reg, w, i, env).steps)
    ensures ADGUARD in w.durable ==> Connect(reg, w, i, env) == Call([], false)
    ensures ADGUARD !in w.durable ==>
              var ref := if i.username == "" then None else Some(env.ref);
              ConnectOutcome(w, Connect(reg, w, i, env), env.undo,
                             ConnectionConfiguration(i.endpoint, i.username, ref, Enabled), Stored(ref, i.password))
  {
    if ADGUARD !in w.durable && env.probes && env.auditsRequest {
      var w' := Audited(w, ADGUARD, "requested", true);
      if i.username != "" && (!env.opensStore || !env.makesRef || !ValidReference(env.ref)) {
        GoodThen(reg, w, w', ConnectFails(w', env).steps);
      } else {
        var ref := if i.username == "" then None else Some(env.ref);
        ConnectReserveKeeps(reg, w', i, ref, env);
        GoodThen(reg, w, w', ConnectReserve(reg, w', i, ref, env).steps);
      }
    }
  }

  predicate Flawless(env: DisconnectEnv) {
    env.auditsRequest && env.disableWrites && env.opensStore && env.delete == Done && env.removeWrites
        && env.auditsApplied
  }

  lemma RevokeForgetKeeps(reg: Registry, w: World, env: DisconnectEnv)
    requires Safe(reg, w) && Agrees(w, ADGUARD) && ADGUARD !in w.durable && ADGUARD in reg
    ensures var call := RevokeForget(reg, w, env);
            Good(reg, w, call.steps) && Gone(Final(w, call.steps)) && (env.auditsApplied ==> call.ok)
  {
    RemoveNeverFails(reg, w.engine, ADGUARD);
    MergeEntry(w.engine.configured, w.durable, ADGUARD);
    var w' := w.(engine := RemoveConfiguration(reg, w.engine, ADGUARD).engine);
    GoodThen(reg, w, w', [Audited(w', ADGUARD, "disconnect-applied", env.auditsApplied)]);
  }

  lemma RevokeEntryKeeps(reg: Registry, w: World, env: DisconnectEnv)
    requires Quiet(reg, w) && w.secrets == map[] && ADGUARD in reg
    ensures var call := RevokeEntry(reg, w, env);
            && Good(reg, w, call.steps) && (call.ok ==> Gone(Final(w, call.steps)))
            && (Flawless(env) ==> call.ok)
  {
    ReplaceKeeps(reg, w, ADGUARD, None, env.removeWrites);
    var r := Replace(reg, w.durable, ADGUARD, None, env.removeWrites);
    var w' := w.(durable := r.durable);
    if r.ok {
      RevokeForgetKeeps(reg, w', env);
      GoodThen(reg, w, w', RevokeForget(reg, w', env).steps);
    } else {
      GoodThen(reg, w, w', []);
    }
  }

  lemma RevokeKeeps(reg: Registry, w: World, c: Configuration, env: DisconnectEnv)
    requires Quiet(reg, w) && Lookup(w.durable, ADGUARD) == Some(c) && c.desired == Disabled && ADGUARD in reg
    ensures var call := Revoke(reg, w, c, env);
            && Good(reg, w, call.steps) && (call.ok ==> Gone(Final(w, call.steps)))
            && (Flawless(env) ==> call.ok)
  {
    var ref := ParseConnection(c).value.ref;
    if ref.None? {
      assert w.secrets == map[];
      RevokeEntryKeeps(reg, w, env);
    } else if env.opensStore {
      var w' := w.(secrets := AfterDelete(w.secrets, ref.value, env.delete));
      if env.delete == Done {
        assert w'.secrets == map[];
        RevokeEntryKeeps(reg, w', env);
        GoodThen(reg, w, w', RevokeEntry(reg, w', env).steps);
      } else {
        GoodThen(reg, w, w', []);
      }
    }
  }

  lemma DisconnectApplyKeeps(reg: Registry, w: World, disabled: Configuration, env: DisconnectEnv)
    requires Safe(reg, w) && Agrees(w, ADGUARD) && Lookup(w.durable, ADGUARD) == Some(disabled)
             && disabled.desired == Disabled
    ensures var call := DisconnectApply(reg, w, disabled, env);
            && Good(reg, w, call.steps) && (call.ok ==> Gone(Final(w, call.steps)))
            && (Flawless(env) ==> call.ok)
  {
    ApplyNeverFails(reg, w.engine, disabled);
    MergeEntry(w.engine.configured, w.durable, ADGUARD);
    var w' := w.(engine := ApplyConfiguration(reg, w.engine, disabled).engine);
    RevokeKeeps(reg, w', disabled, env);
    GoodThen(reg, w, w', Revoke(reg, w', disabled, env).steps);
  }

  lemma DisconnectDisableKeeps(reg: Registry, w: World, c: Configuration, env: DisconnectEnv)
    requires Quiet(reg, w) && Lookup(w.durable, ADGUARD) == Some(c)
    ensures var call := DisconnectDisable(reg, w, c.(desired := Disabled), env);
            && Good(reg, w, call.steps) && (call.ok ==> Gone(Final(w, call.steps)))
            && (Flawless(env) ==> call.ok)
  {
    var disabled := c.(desired := Disabled);
    DesiredDoesNotParse(c, Disabled);
    DisabledStaysValid(reg, c);
    ReplaceKeeps(reg, w, ADGUARD, Some(disabled), env.disableWrites);
    var r := Replace(reg, w.durable, ADGUARD, Some(disabled), env.disableWrites);
    var w' := w.(durable := r.durable);
    if r.ok {
      DisconnectApplyKeeps(reg, w', disabled, env);
      GoodThen(reg, w, w', DisconnectApply(reg, w', disabled, env).steps);
    } else {
      GoodThen(reg, w, w', []);
    }
  }

  /** Disconnect from a quiet state: every step is safe, the end is quiet, success
      leaves neither entry nor secret, and nothing but a failing dependency can make
      it fail. */
  lemma DisconnectKeeps(reg: Registry, w: World, env: DisconnectEnv)
    requires Quiet(reg, w)
    ensures var call := Disconnect(reg, w, env);
            && Good(reg, w, call.steps) && (call.ok ==> Gone(Final(w, call.steps)))
            && (Flawless(env) ==> call.ok)
  {
    if ADGUARD in w.durable && env.auditsRequest {
      var w' := Audited(w, ADGUARD, "disconnect-requested", true);
      var c := w.durable[ADGUARD];
      if c.desired == Disabled {
        RevokeKeeps(reg, w', c, env);
        GoodThen(reg, w, w', Revoke(reg, w', c, env).steps);
      } else {
        DisconnectDisableKeeps(reg, w', c, env);
        GoodThen(reg, w, w', DisconnectDisable(reg, w', c.(desired := Disabled), env).steps);
      }
    }
  }
}
