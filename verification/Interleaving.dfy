/** The drivers at work at the same time. Each serialises its own calls with its own
    mutex, and lifecycle actions run beside them, so what may be interleaved is one
    AdGuard Home call, one OPNsense call, one Device Watch call and any number of
    actions, effect by effect, with a process stop between any two of them. */
module Interleaving {
  import opened Ordering
  import opened Capability
  import opened Lifecycle
  import opened ConfigManager
  import opened ControllerWorld
  import opened ExternalServices
  import opened ConnectionTurns
  import opened ConnectionInvariant
  import opened ConnectionOutcomes
  import opened SharedState
  import opened WatchInvariant
  import R = ControllerRuns
  import A = AdGuardConnection
  import D = DeviceWatchControl
  import W = DeviceWatchTurns

  /** `vault` holds the keychain items of the OPNsense driver; their references and
      those of AdGuard Home have different prefixes. */
  datatype Concurrent = Concurrent(world: World, vault: map<string, string>, adguard: CPc, router: CPc, watch: W.DPc)

  /** A call begins, one that is under way takes a turn, a lifecycle action happens, or
      the process stops and a new one starts. */
  datatype Event =
    | BeginConnect(service: Service, input: A.ConnectInput, connect: A.ConnectEnv)
    | BeginDisconnect(service: Service, disconnect: A.DisconnectEnv)
    | BeginEnable(control: D.ControlEnv)
    | BeginDisable(control: D.ControlEnv)
    | ConnectionTurn(service: Service)
    | WatchTurn
    | Act(id: string, action: Action, driver: Driver, activeAfter: bool)
    | Crash

  function CallOf(s: Concurrent, k: Service): CPc { if k == AdGuardHome then s.adguard else s.router }

  /** The world as the service's driver sees it, with its own keychain items. */
  function Seen(s: Concurrent, k: Service): World {
    if k == AdGuardHome then s.world else s.world.(secrets := s.vault)
  }

  function OwnPart(s: Concurrent, k: Service): Part { PartOf(k, Seen(s, k)) }

  function Begun(s: Concurrent, k: Service, pc: CPc): Concurrent {
    if !CallOf(s, k).CIdle? then s else if k == AdGuardHome then s.(adguard := pc) else s.(router := pc)
  }

  function Turned(reg: Registry, s: Concurrent, k: Service): Concurrent {
    var t := CTurn(reg, k, Seen(s, k), CallOf(s, k));
    if k == AdGuardHome then s.(world := t.world, adguard := t.next)
    else s.(world := t.world.(secrets := s.world.secrets), vault := t.world.secrets, router := t.next)
  }

  /** A call that begins while its driver is busy waits for the mutex. */
  function Next(reg: Registry, drivers: set<string>, s: Concurrent, e: Event): Concurrent
    requires ConsistentRegistry(reg)
  {
    match e
    case BeginConnect(k, i, env) => Begun(s, k, CConnect(i, env))
    case BeginDisconnect(k, env) => Begun(s, k, CDisconnect(env))
    case BeginEnable(env) => if s.watch.DIdle? then s.(watch := W.DEnable(env)) else s
    case BeginDisable(env) => if s.watch.DIdle? then s.(watch := W.DDisable(env)) else s
    case ConnectionTurn(k) => Turned(reg, s, k)
    case WatchTurn => var t := W.DTurn(reg, drivers, s.world, s.watch); s.(world := t.world, watch := t.next)
    case Act(id, action, driver, activeAfter) =>
      var ran := Run(reg, drivers, s.world.engine, id, action, driver);
      s.(world := s.world.(engine := ran.engine, active := activeAfter))
    case Crash => Concurrent(R.Restart(reg, s.world), s.vault, CIdle(false), CIdle(false), W.DIdle(false))
  }

  function Start(reg: Registry): Concurrent {
    Concurrent(R.FreshWorld(reg), map[], CIdle(true), CIdle(true), W.DIdle(true))
  }

  function Reached(reg: Registry, drivers: set<string>, events: seq<Event>): Concurrent
    requires ConsistentRegistry(reg)
  {
    if |events| == 0 then Start(reg)
    else Next(reg, drivers, Reached(reg, drivers, events[..|events| - 1]), events[|events| - 1])
  }

  // ----- Every interleaving

  ghost predicate CallInv(reg: Registry, s: Concurrent, k: Service) { CInv(reg, k, OwnPart(s, k), CallOf(s, k)) }

  ghost predicate Inv(reg: Registry, s: Concurrent) {
    && Shared(reg, s.world) && CallInv(reg, s, AdGuardHome) && CallInv(reg, s, Opnsense)
    && WatchInv(reg, s.world, s.watch)
  }

  lemma CrashKeeps(reg: Registry, drivers: set<string>, s: Concurrent)
    requires Inv(reg, s)
    ensures Inv(reg, Next(reg, drivers, s, Crash))
  {
    NewEngineInv(reg, s.world.durable);
  }

  /** Who else may be affected by a change of one capability's entry and copy. */
  lemma ElsewhereKept(reg: Registry, s: Concurrent, t: Concurrent, id: string)
    requires Frame(s.world, t.world, id)
    ensures id != ADGUARD && t.world.secrets == s.world.secrets ==> OwnPart(t, AdGuardHome) == OwnPart(s, AdGuardHome)
    ensures id != OPNSENSE && t.vault == s.vault ==> OwnPart(t, Opnsense) == OwnPart(s, Opnsense)
    ensures id != D.DEVICE_WATCH && t.watch == s.watch && WatchInv(reg, s.world, s.watch) ==>
              WatchInv(reg, t.world, t.watch)
  {
  }

  lemma ConnectionTurnKeeps(reg: Registry, drivers: set<string>, s: Concurrent, k: Service)
    requires Inv(reg, s)
    ensures var t := Next(reg, drivers, s, ConnectionTurn(k));
            Inv(reg, t) && OwnPart(t, Other(k)) == OwnPart(s, Other(k))
  {
    ServicesDiffer();
    var t := Turned(reg, s, k);
    CTurnKeeps(reg, k, Seen(s, k), CallOf(s, k));
    ElsewhereKept(reg, s, t, ServiceId(k));
  }

  function Other(k: Service): Service { if k == AdGuardHome then Opnsense else AdGuardHome }

  predicate PartsKept(s: Concurrent, t: Concurrent) {
    OwnPart(t, AdGuardHome) == OwnPart(s, AdGuardHome) && OwnPart(t, Opnsense) == OwnPart(s, Opnsense)
  }

  lemma WatchTurnKeeps(reg: Registry, drivers: set<string>, s: Concurrent)
    requires Inv(reg, s)
    ensures var t := Next(reg, drivers, s, WatchTurn);
            Inv(reg, t) && PartsKept(s, t)
  {
    ServicesDiffer();
    DTurnKeeps(reg, drivers, s.world, s.watch);
    ElsewhereKept(reg, s, Next(reg, drivers, s, WatchTurn), D.DEVICE_WATCH);
  }

  lemma ActKeeps(reg: Registry, drivers: set<string>, s: Concurrent, e: Event)
    requires Inv(reg, s) && e.Act?
    ensures var t := Next(reg, drivers, s, e);
            Inv(reg, t) && PartsKept(s, t)
  {
    Acted(reg, drivers, s.world, e.id, e.action, e.driver, e.activeAfter);
  }

  lemma BegunKeeps(reg: Registry, s: Concurrent, k: Service, pc: CPc)
    requires Inv(reg, s) && (pc.CConnect? || pc.CDisconnect?)
    ensures Inv(reg, Begun(s, k, pc)) && Begun(s, k, pc).world == s.world && Begun(s, k, pc).vault == s.vault
  {
    if CallOf(s, k).CIdle? { assert CInv(reg, k, OwnPart(s, k), pc); }
  }

  lemma BeginKeeps(reg: Registry, drivers: set<string>, s: Concurrent, e: Event)
    requires Inv(reg, s) && (e.BeginConnect? || e.BeginDisconnect? || e.BeginEnable? || e.BeginDisable?)
    ensures var t := Next(reg, drivers, s, e); Inv(reg, t) && t.world == s.world && t.vault == s.vault
  {
    match e
    case BeginConnect(k, i, env) => BegunKeeps(reg, s, k, CConnect(i, env));
    case BeginDisconnect(k, env) => BegunKeeps(reg, s, k, CDisconnect(env));
    case _ =>
  }

  lemma NextKeeps(reg: Registry, drivers: set<string>, s: Concurrent, e: Event)
    requires Inv(reg, s)
    ensures Inv(reg, Next(reg, drivers, s, e))
  {
    match e
    case Crash => CrashKeeps(reg, drivers, s);
    case ConnectionTurn(k) => ConnectionTurnKeeps(reg, drivers, s, k);
    case WatchTurn => WatchTurnKeeps(reg, drivers, s);
    case Act(_, _, _, _) => ActKeeps(reg, drivers, s, e);
    case _ => BeginKeeps(reg, drivers, s, e);
  }

  lemma StartInv(reg: Registry)
    requires ConsistentRegistry(reg)
    ensures Inv(reg, Start(reg))
  {
    NewEngineInv(reg, map[]);
  }

  lemma {:induction false} ReachedInv(reg: Registry, drivers: set<string>, events: seq<Event>)
    requires ConsistentRegistry(reg)
    ensures Inv(reg, Reached(reg, drivers, events))
  {
    StartInv(reg);
    if |events| != 0 {
      ReachedInv(reg, drivers, events[..|events| - 1]);
      NextKeeps(reg, drivers, Reached(reg, drivers, events[..|events| - 1]), events[|events| - 1]);
    }
  }

  /** File and engine hold the same intent for a capability, and its stored state shows
      it. */
  ghost predicate AgreesOn(reg: Registry, w: World, id: string) {
    && Lookup(w.durable, id) == Lookup(w.engine.configured, id)
    && (id in reg ==> id in w.engine.states && w.engine.states[id].desired == DesiredOf(w.durable, id))
  }

  lemma LookupsAgree(reg: Registry, w: World, id: string)
    requires StatesInv(reg, w.engine) && Lookup(w.durable, id) == Lookup(w.engine.configured, id)
    ensures AgreesOn(reg, w, id)
  {
    if id in reg { assert StateOk(reg, w.engine, id); }
  }

  /** In every state of every interleaving: every stored state and entry is valid, each
      secret is referenced and each enabled reference has its secret, for either service;
      and file and engine agree on every capability except, while it is in the middle of
      a call, a driver's own. So each call ends with its own capability agreeing, and when
      no driver is at work they agree on all. */
  lemma EveryInterleavingIsSafe(reg: Registry, drivers: set<string>, events: seq<Event>)
    requires ConsistentRegistry(reg)
    ensures var s := Reached(reg, drivers, events);
            && Safe(reg, s.world) && R.SecretsMatchIntent(s.world)
            && AccountedBy(Opnsense, Lookup(s.world.durable, OPNSENSE), s.vault)
            && (s.adguard.CIdle? ==> AgreesOn(reg, s.world, ADGUARD))
            && (s.router.CIdle? ==> AgreesOn(reg, s.world, OPNSENSE))
            && (s.watch.DIdle? ==> AgreesOn(reg, s.world, D.DEVICE_WATCH))
            && (forall id :: !Owned(id) ==> AgreesOn(reg, s.world, id))
            && (s.adguard.CIdle? && s.router.CIdle? && s.watch.DIdle? ==> s.world.engine.configured == s.world.durable)
  {
    var s := Reached(reg, drivers, events);
    ReachedInv(reg, drivers, events);
    InvIsSafe(reg, s);
    R.SafeMatchesIntent(reg, s.world);
    InvAgrees(reg, s);
  }

  lemma InvIsSafe(reg: Registry, s: Concurrent)
    requires Inv(reg, s)
    ensures Safe(reg, s.world) && AccountedBy(Opnsense, Lookup(s.world.durable, OPNSENSE), s.vault)
  {
    AccountedByAdGuard(Lookup(s.world.durable, ADGUARD), s.world.secrets);
  }

  lemma InvAgrees(reg: Registry, s: Concurrent)
    requires Inv(reg, s)
    ensures s.adguard.CIdle? ==> AgreesOn(reg, s.world, ADGUARD)
    ensures s.router.CIdle? ==> AgreesOn(reg, s.world, OPNSENSE)
    ensures s.watch.DIdle? ==> AgreesOn(reg, s.world, D.DEVICE_WATCH)
    ensures forall id :: !Owned(id) ==> AgreesOn(reg, s.world, id)
    ensures s.adguard.CIdle? && s.router.CIdle? && s.watch.DIdle? ==> s.world.engine.configured == s.world.durable
  {
    forall id | Lookup(s.world.durable, id) == Lookup(s.world.engine.configured, id)
      ensures AgreesOn(reg, s.world, id)
    {
      LookupsAgree(reg, s.world, id);
    }
    if s.adguard.CIdle? && s.router.CIdle? && s.watch.DIdle? {
      SameLookups(s.world.engine.configured, s.world.durable);
    }
  }

  lemma SameLookups(a: Durable, b: Durable)
    requires forall id :: Lookup(a, id) == Lookup(b, id)
    ensures a == b
  {
    forall id ensures (id in a <==> id in b) && (id in a ==> a[id] == b[id]) { assert Lookup(a, id) == Lookup(b, id); }
  }

  // ----- One call among any other events

  /** What others do leaves a call where it is and its part untouched. */
  lemma OthersLeaveTheCall(reg: Registry, drivers: set<string>, s: Concurrent, k: Service, e: Event)
    requires Inv(reg, s) && e != ConnectionTurn(k) && !e.Crash? && !CallOf(s, k).CIdle?
    ensures var t := Next(reg, drivers, s, e); CallOf(t, k) == CallOf(s, k) && OwnPart(t, k) == OwnPart(s, k)
  {
    match e
    case ConnectionTurn(other) => ConnectionTurnKeeps(reg, drivers, s, other);
    case WatchTurn => WatchTurnKeeps(reg, drivers, s);
    case Act(_, _, _, _) => ActKeeps(reg, drivers, s, e);
    case _ => BeginKeeps(reg, drivers, s, e);
  }

  /** The state after events taken one after the other from s. */
  function Drive(reg: Registry, drivers: set<string>, s: Concurrent, events: seq<Event>): Concurrent
    requires ConsistentRegistry(reg)
    decreases |events|
  {
    if |events| == 0 then s else Drive(reg, drivers, Next(reg, drivers, s, events[0]), events[1..])
  }

  function TurnsOf(k: Service, events: seq<Event>): nat {
    if |events| == 0 then 0 else (if events[0] == ConnectionTurn(k) then 1 else 0) + TurnsOf(k, events[1..])
  }

  /** What a call is promised to come to. */
  predicate WillMeet(reg: Registry, s: Concurrent, k: Service, goal: Goal)
    requires CallOf(s, k).CIdle? || Fits(goal, CallOf(s, k))
  {
    Promised(reg, k, goal, OwnPart(s, k), CallOf(s, k))
  }

  lemma OwnTurnAdvances(reg: Registry, s: Concurrent, k: Service, goal: Goal)
    requires Inv(reg, s) && Fits(goal, CallOf(s, k))
    ensures var t := Turned(reg, s, k);
            && (CallOf(t, k).CIdle? || Fits(goal, CallOf(t, k)))
            && (WillMeet(reg, t, k, goal) <==> WillMeet(reg, s, k, goal))
            && TurnsLeft(CallOf(t, k)) < TurnsLeft(CallOf(s, k))
  {
    var t := CTurn(reg, k, Seen(s, k), CallOf(s, k));
    TurnKeepsPromise(reg, k, goal, Seen(s, k), CallOf(s, k));
    TurnsAreBounded(reg, k, Seen(s, k), CallOf(s, k));
    assert OwnPart(Turned(reg, s, k), k) == PartOf(k, t.world) && CallOf(Turned(reg, s, k), k) == t.next;
  }

  lemma OtherEventAdvances(reg: Registry, drivers: set<string>, s: Concurrent, k: Service, goal: Goal, e: Event)
    requires Inv(reg, s) && Fits(goal, CallOf(s, k)) && !e.Crash? && e != ConnectionTurn(k)
    ensures var t := Next(reg, drivers, s, e);
            CallOf(t, k) == CallOf(s, k) && (WillMeet(reg, t, k, goal) <==> WillMeet(reg, s, k, goal))
  {
    OthersLeaveTheCall(reg, drivers, s, k, e);
  }

  /** One event beside a call, or its own turn. */
  lemma EventAdvances(reg: Registry, drivers: set<string>, s: Concurrent, k: Service, goal: Goal, e: Event)
    requires Inv(reg, s) && Fits(goal, CallOf(s, k)) && !e.Crash?
    ensures var t := Next(reg, drivers, s, e);
            && Inv(reg, t) && (CallOf(t, k).CIdle? || Fits(goal, CallOf(t, k)))
            && (WillMeet(reg, t, k, goal) <==> WillMeet(reg, s, k, goal))
            && TurnsLeft(CallOf(t, k)) + (if e == ConnectionTurn(k) then 1 else 0) <= TurnsLeft(CallOf(s, k))
  {
    NextKeeps(reg, drivers, s, e);
    if e == ConnectionTurn(k) {
      OwnTurnAdvances(reg, s, k, goal);
    } else {
      OtherEventAdvances(reg, drivers, s, k, goal, e);
    }
  }

  lemma DriveOneMore(reg: Registry, drivers: set<string>, s: Concurrent, events: seq<Event>, n: nat)
    requires ConsistentRegistry(reg) && n < |events|
    ensures Drive(reg, drivers, s, events[..n + 1]) ==
            Drive(reg, drivers, Next(reg, drivers, s, events[0]), events[1..][..n])
  {
    assert events[..n + 1][0] == events[0] && events[..n + 1][1..] == events[1..][..n];
  }

  /** Once a call has had its turns, and unless the process stops first, it has ended,
      and it has met its goal exactly when that was promised at the beginning, whatever
      other calls and lifecycle actions came between its turns. */
  lemma {:induction false} CallEndsAsPromised(reg: Registry, drivers: set<string>, s: Concurrent, k: Service,
                                              goal: Goal, events: seq<Event>)
    returns (n: nat)
    requires Inv(reg, s) && Fits(goal, CallOf(s, k)) && TurnsLeft(CallOf(s, k)) <= TurnsOf(k, events)
    requires forall i :: 0 <= i < |events| ==> !events[i].Crash?
    ensures n <= |events|
    ensures var t := Drive(reg, drivers, s, events[..n]);
            && CallOf(t, k).CIdle?
            && (Met(goal, OwnPart(t, k), CallOf(t, k).ok) <==> WillMeet(reg, s, k, goal))
    decreases |events|
  {
    var t := Next(reg, drivers, s, events[0]);
    EventAdvances(reg, drivers, s, k, goal, events[0]);
    var m := 0;
    if !CallOf(t, k).CIdle? { m := CallEndsAsPromised(reg, drivers, t, k, goal, events[1..]); }
    DriveOneMore(reg, drivers, s, events, m);
    n := m + 1;
  }

  /** Beside any other events, a Disconnect ends well, with neither entry, copy nor
      secret, exactly when every step that the entry needs works. */
  lemma DisconnectBesideOthers(reg: Registry, drivers: set<string>, s: Concurrent, k: Service, env: A.DisconnectEnv,
                               events: seq<Event>)
    returns (n: nat)
    requires Inv(reg, s) && CallOf(s, k) == CDisconnect(env) && TurnsOf(k, events) >= 7
    requires forall i :: 0 <= i < |events| ==> !events[i].Crash?
    ensures n <= |events|
    ensures var t := Drive(reg, drivers, s, events[..n]);
            && CallOf(t, k).CIdle?
            && (CallOf(t, k).ok && OwnPart(t, k) == NOTHING <==> DisconnectGood(k, OwnPart(s, k).entry, env))
  {
    n := CallEndsAsPromised(reg, drivers, s, k, AllGone, events);
  }

  /** Beside any other events, a Connect that finds no entry succeeds, succeeds with a
      given entry and secrets, or else leaves nothing, or nothing enabled, each exactly
      when `ConnectGood` holds for that goal. */
  lemma ConnectBesideOthers(reg: Registry, drivers: set<string>, s: Concurrent, k: Service, goal: Goal,
                            i: A.ConnectInput, env: A.ConnectEnv, events: seq<Event>)
    returns (n: nat)
    requires Inv(reg, s) && CallOf(s, k) == CConnect(i, env) && OwnPart(s, k).entry.None? && TurnsOf(k, events) >= 14
    requires goal != AllGone && forall j :: 0 <= j < |events| ==> !events[j].Crash?
    ensures n <= |events|
    ensures var t := Drive(reg, drivers, s, events[..n]);
            && CallOf(t, k).CIdle?
            && (Met(goal, OwnPart(t, k), CallOf(t, k).ok) <==> ConnectGood(reg, k, goal, i, env))
  {
    n := CallEndsAsPromised(reg, drivers, s, k, goal, events);
  }
}
