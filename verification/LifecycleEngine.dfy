/** The engine of internal/controller/capability/lifecycle.go and lifecycle_config.go
    as the object the controller shares, method by method against the functions that
    specify it. */
module LifecycleObject {
  import opened Ordering
  import opened Capability
  import opened Lifecycle

  class LifecycleEngine {
    const registry: Registry
    const drivers: set<string>
    var configured: map<string, Configuration>
    var states: map<string, InstanceState>

    function View(): Engine
      reads this
    { Engine(configured, states) }

    constructor (reg: Registry, drivers: set<string>, configured: map<string, Configuration>)
      ensures registry == reg && this.drivers == drivers && View() == NewEngine(reg, configured)
    {
      registry, this.drivers, this.configured := reg, drivers, configured;
      states := map id | id in reg :: InitialState(reg[id], DesiredOf(configured, id));
    }

    method ApplyConfiguration(c: Configuration) returns (ok: bool)
      modifies this
      ensures Applied(View(), ok) == Capability.ApplyConfiguration(registry, old(View()), c)
    {
      if !ValidConfiguration(registry, c) { return false; }
      var next := Current(registry, View(), c.id);
      if next.desired != c.desired { next := next.(verification := Unverified); }
      configured := configured[c.id := c];
      next := next.(desired := c.desired);
      if !ValidState(registry[c.id], next) { return false; }
      states := states[c.id := next];
      return true;
    }

    method RemoveConfiguration(id: string) returns (ok: bool)
      modifies this
      ensures Applied(View(), ok) == Capability.RemoveConfiguration(registry, old(View()), id)
    {
      if id !in registry { return false; }
      var next := Current(registry, View(), id).(desired := Disabled, verification := Unverified);
      configured := configured - {id};
      if !ValidState(registry[id], next) { return false; }
      states := states[id := next];
      return true;
    }

    method StoreState(id: string, next: InstanceState) returns (failure: Option<Failure>)
      requires id in registry
      modifies this`states
      ensures (View(), failure) == SetState(registry, old(View()), id, next)
    {
      if !ValidState(registry[id], next) { return Some(InvalidState); }
      if id in states && states[id].desired != next.desired { return Some(ChangedDesired); }
      states := states[id := next];
      return None;
    }

    method Verify(id: string, d: Driver) returns (r: Result)
      requires id in registry
      modifies this`states
      ensures Ran(View(), r) == RunVerify(registry, old(View()), id, d)
    {
      var v, _ := RetryCall(MAX_ATTEMPTS, d.verify);
      if v.value.None? { return Result(v.attempts, 0, false, Some(CallFailed)); }
      var report := v.value.value;
      if !Distinct(Ids(report)) { return Result(v.attempts, 0, false, Some(InvalidReport)); }
      var verdict := EvaluateVerification(registry[id].signals, report);
      if verdict.None? { return Result(v.attempts, 0, false, Some(InvalidReport)); }
      var failure := StoreState(id, Current(registry, View(), id).(verification := verdict.value));
      return Result(v.attempts, 0, false, failure);
    }

    method Execute(id: string, d: Driver) returns (r: Result)
      requires id in registry
      modifies this`states
      ensures Ran(View(), r) == RunStep(registry, old(View()), id, d)
    {
      var p, _ := RetryCall(MAX_ATTEMPTS, d.preflight);
      if p.value.None? || !ValidPreflight(p.value.value) { return Result(0, p.attempts, false, Some(CallFailed)); }
      if !Ready(p.value.value) { return Result(0, p.attempts, false, Some(Blocked)); }
      var x, _ := RetryCall(MAX_ATTEMPTS, d.execute);
      if x.value.None? { return Result(x.attempts, p.attempts, false, Some(CallFailed)); }
      var next := Current(registry, View(), id).(verification := Unverified);
      if x.value.value.process.Some? { next := next.(process := x.value.value.process.value); }
      var failure := StoreState(id, next);
      return Result(x.attempts, p.attempts, failure.None? && x.value.value.changed, failure);
    }

    /** One lifecycle action; from a consistent engine it keeps the engine consistent
        and changes at most this capability's stored state. */
    method Run(id: string, action: Action, d: Driver) returns (r: Result)
      requires ConsistentRegistry(registry)
      modifies this`states
      ensures Ran(View(), r) == Lifecycle.Run(registry, drivers, old(View()), id, action, d)
      ensures old(StatesInv(registry, View())) ==> Keeps(registry, old(View()), id, View())
    {
      ghost var before := View();
      var guard := Guard(registry, drivers, View(), id, action);
      if guard.Some? {
        r := Result(0, 0, false, guard);
      } else if action == Preflight {
        var p, _ := RetryCall(MAX_ATTEMPTS, d.preflight);
        r := Result(p.attempts, 0, false, if p.value.Some? && ValidPreflight(p.value.value) then None
                    else Some(CallFailed));
      } else if action == Action.Verify {
        r := Verify(id, d);
      } else {
        r := Execute(id, d);
      }
      if StatesInv(registry, before) { RunKeepsEngine(registry, drivers, before, id, action, d); }
    }
  }
}
