/** Whole runs of the controller: any sequence of Device Watch and AdGuard Home
    calls and lifecycle actions, each with any failures, and each possibly cut
    short by a process stop after any of its steps and followed by a restart. */
module ControllerRuns {
  import opened Ordering
  import opened Capability
  import opened Lifecycle
  import opened ConfigManager
  import opened ControllerWorld
  import AdGuardConnection
  import DeviceWatchControl

  datatype Request = Connecting(input: AdGuardConnection.ConnectInput, connect: AdGuardConnection.ConnectEnv)
                   | Disconnecting(disconnect: AdGuardConnection.DisconnectEnv)
                   | Enabling(control: DeviceWatchControl.ControlEnv)
                   | Disabling(control: DeviceWatchControl.ControlEnv)
                   | Acting(id: string, action: Action, driver: Driver, activeAfter: bool)

  /** A request, and after how many of its steps the process stopped, if it did. */
  datatype Event = Event(request: Request, stop: Option<nat>)

  function Serve(reg: Registry, drivers: set<string>, w: World, r: Request): Call
    requires ConsistentRegistry(reg)
  {
    match r
    case Connecting(input, env) => AdGuardConnection.Connect(reg, w, input, env)
    case Disconnecting(env) => AdGuardConnection.Disconnect(reg, w, env)
    case Enabling(env) => DeviceWatchControl.Enable(reg, drivers, w, env)
    case Disabling(env) => DeviceWatchControl.Disable(reg, drivers, w, env)
    case Acting(id, action, driver, activeAfter) =>
      var ran := Run(reg, drivers, w.engine, id, action, driver);
      Call([w.(engine := ran.engine, active := activeAfter)], ran.result.failure.None?)
  }

  /** A new process: the engine is rebuilt from config.json and nothing runs yet. */
  function Restart(reg: Registry, w: World): World {
    w.(engine := NewEngine(reg, w.durable), active := false)
  }

  function StateAfter(w: World, steps: seq<World>, n: nat): World {
    Final(w, if n <= |steps| then steps[..n] else steps)
  }

  function After(reg: Registry, drivers: set<string>, w: World, e: Event): World
    requires ConsistentRegistry(reg)
  {
    var steps := Serve(reg, drivers, w, e.request).steps;
    match e.stop case None => Final(w, steps) case Some(n) => Restart(reg, StateAfter(w, steps, n))
  }

  function Reached(reg: Registry, drivers: set<string>, w: World, events: seq<Event>): World
    requires ConsistentRegistry(reg)
  {
    if |events| == 0 then w
    else After(reg, drivers, Reached(reg, drivers, w, events[..|events| - 1]), events[|events| - 1])
  }

  lemma ActingKeeps(reg: Registry, drivers: set<string>, w: World, r: Request)
    requires ConsistentRegistry(reg) && Quiet(reg, w) && r.Acting?
    ensures Good(reg, w, Serve(reg, drivers, w, r).steps)
  {
    RunKeepsEngine(reg, drivers, w.engine, r.id, r.action, r.driver);
  }

  /** Every call keeps every step safe and ends quiet. */
  lemma ServeKeeps(reg: Registry, drivers: set<string>, w: World, r: Request)
    requires ConsistentRegistry(reg) && Quiet(reg, w)
    ensures Good(reg, w, Serve(reg, drivers, w, r).steps)
  {
    match r
    case Connecting(input, env) => AdGuardConnection.ConnectKeeps(reg, w, input, env);
    case Disconnecting(env) => AdGuardConnection.DisconnectKeeps(reg, w, env);
    case Enabling(env) => DeviceWatchControl.EnableKeeps(reg, drivers, w, env);
    case Disabling(env) => DeviceWatchControl.DisableKeeps(reg, drivers, w, env);
    case Acting(_, _, _, _) => ActingKeeps(reg, drivers, w, r);
  }

  /** A restart from any safe state, however far apart the engine and the file were,
      gives a quiet one. */
  lemma RestartIsQuiet(reg: Registry, w: World)
    requires ConsistentRegistry(reg) && Safe(reg, w)
    ensures Quiet(reg, Restart(reg, w))
  {
    NewEngineInv(reg, w.durable);
  }

  lemma AfterIsQuiet(reg: Registry, drivers: set<string>, w: World, e: Event)
    requires ConsistentRegistry(reg) && Quiet(reg, w)
    ensures Quiet(reg, After(reg, drivers, w, e))
  {
    ServeKeeps(reg, drivers, w, e.request);
    if e.stop.Some? {
      RestartIsQuiet(reg, StateAfter(w, Serve(reg, drivers, w, e.request).steps, e.stop.value));
    }
  }

  /** Between calls of any run from a quiet state, the state is quiet. */
  lemma {:induction false} RunsStayQuiet(reg: Registry, drivers: set<string>, w: World, events: seq<Event>)
    requires ConsistentRegistry(reg) && Quiet(reg, w)
    ensures Quiet(reg, Reached(reg, drivers, w, events))
  {
    if |events| != 0 {
      var n := |events| - 1;
      RunsStayQuiet(reg, drivers, w, events[..n]);
      AfterIsQuiet(reg, drivers, Reached(reg, drivers, w, events[..n]), events[n]);
    }
  }

  function FreshWorld(reg: Registry): World { World(map[], NewEngine(reg, map[]), map[], [], false) }

  lemma FreshIsQuiet(reg: Registry)
    requires ConsistentRegistry(reg)
    ensures Quiet(reg, FreshWorld(reg))
  {
    NewEngineInv(reg, map[]);
  }

  /** No step of any call in any run strands a secret or leaves an enabled connection
      without one. */
  predicate SecretsMatchIntent(w: World) {
    && (forall k :: k in w.secrets ==>
          ADGUARD in w.durable && ParseConnection(w.durable[ADGUARD]).Some?
              && ParseConnection(w.durable[ADGUARD]).value.ref == Some(k))
    && (ADGUARD in w.durable && w.durable[ADGUARD].desired == Enabled ==>
          ParseConnection(w.durable[ADGUARD]).Some?
          && var ref := ParseConnection(w.durable[ADGUARD]).value.ref; ref.Some? ==> ref.value in w.secrets)
  }

  lemma SecretsMatchIntentAlways(reg: Registry, drivers: set<string>, events: seq<Event>, last: Request, n: nat)
    requires ConsistentRegistry(reg)
    ensures var w := Reached(reg, drivers, FreshWorld(reg), events);
            SecretsMatchIntent(StateAfter(w, Serve(reg, drivers, w, last).steps, n))
  {
    FreshIsQuiet(reg);
    RunsStayQuiet(reg, drivers, FreshWorld(reg), events);
    var w := Reached(reg, drivers, FreshWorld(reg), events);
    ServeKeeps(reg, drivers, w, last);
    SafeMatchesIntent(reg, StateAfter(w, Serve(reg, drivers, w, last).steps, n));
  }

  lemma SafeMatchesIntent(reg: Registry, w: World)
    requires Safe(reg, w)
    ensures SecretsMatchIntent(w)
  {
  }

  /** After every call of every run the file and the engine hold the same intent for
      every capability, absent counting as disabled; every stored state validates,
      and only an enabled capability carries a verdict. */
  lemma IntentAgreesAlways(reg: Registry, drivers: set<string>, events: seq<Event>)
    requires ConsistentRegistry(reg)
    ensures var w := Reached(reg, drivers, FreshWorld(reg), events);
            && w.engine.configured == w.durable
            && (forall id :: id in reg ==>
                  && id in w.engine.states && w.engine.states[id].desired == DesiredOf(w.durable, id)
                  && ValidState(reg[id], w.engine.states[id])
                  && (Judged(w.engine.states[id].verification) ==> DesiredOf(w.durable, id) == Enabled))
  {
    FreshIsQuiet(reg);
    RunsStayQuiet(reg, drivers, FreshWorld(reg), events);
    var w := Reached(reg, drivers, FreshWorld(reg), events);
    forall id | id in reg ensures StateOk(reg, w.engine, id) { }
  }

  /** From every reachable state, a Disconnect in which nothing fails succeeds and
      leaves no entry on disk or in the engine, and no secret. */
  lemma DisconnectAlwaysRecovers(reg: Registry, drivers: set<string>, events: seq<Event>,
                                 env: AdGuardConnection.DisconnectEnv)
    requires ConsistentRegistry(reg) && AdGuardConnection.Flawless(env)
    ensures var w := Reached(reg, drivers, FreshWorld(reg), events);
            var call := AdGuardConnection.Disconnect(reg, w, env);
            var last := Final(w, call.steps);
            call.ok && Gone(last) && ADGUARD !in last.engine.configured
  {
    FreshIsQuiet(reg);
    RunsStayQuiet(reg, drivers, FreshWorld(reg), events);
    AdGuardConnection.DisconnectKeeps(reg, Reached(reg, drivers, FreshWorld(reg), events), env);
  }

  /** From every reachable state without a connection, a Connect that fails but whose
      own clean-up works ends where it began: no entry anywhere and no secret. */
  lemma FailedConnectRestores(reg: Registry, drivers: set<string>, events: seq<Event>,
                              i: AdGuardConnection.ConnectInput, env: AdGuardConnection.ConnectEnv)
    requires ConsistentRegistry(reg) && AdGuardConnection.Cleans(env.undo)
    ensures var w := Reached(reg, drivers, FreshWorld(reg), events);
            var call := AdGuardConnection.Connect(reg, w, i, env);
            var last := Final(w, call.steps);
            ADGUARD !in w.durable && !call.ok ==> Gone(last) && ADGUARD !in last.engine.configured
  {
    FreshIsQuiet(reg);
    RunsStayQuiet(reg, drivers, FreshWorld(reg), events);
    AdGuardConnection.ConnectKeeps(reg, Reached(reg, drivers, FreshWorld(reg), events), i, env);
  }

  function Requested(r: Request): Option<AuditEntry> {
    match r
    case Connecting(_, _) => Some(AuditEntry(ADGUARD, "requested"))
    case Disconnecting(_) => Some(AuditEntry(ADGUARD, "disconnect-requested"))
    case Enabling(_) | Disabling(_) => Some(AuditEntry(DeviceWatchControl.DEVICE_WATCH, "requested"))
    case Acting(_, _, _, _) => None
  }

  /** No call touches durable intent or the keychain before its request is on the
      audit log: either no step changes them, or the first effect is the record. */
  lemma AuditComesFirst(reg: Registry, drivers: set<string>, w: World, r: Request)
    requires ConsistentRegistry(reg)
    ensures var steps := Serve(reg, drivers, w, r).steps;
            || (forall i :: 0 <= i < |steps| ==> steps[i].durable == w.durable && steps[i].secrets == w.secrets)
            || (Requested(r).Some? && steps[0] == w.(audit := w.audit + [Requested(r).value]))
  {
  }
}
