/** What every turn of every driver keeps of the state they share. */
module SharedState {
  import opened Ordering
  import opened Capability
  import opened Lifecycle
  import opened ConfigManager
  import opened ControllerWorld
  import opened ExternalServices
  import D = DeviceWatchControl

  /** The two maps agree apart from one capability. */
  ghost predicate Apart(a: Durable, b: Durable, id: string) { forall k :: k != id ==> Lookup(a, k) == Lookup(b, k) }

  ghost predicate Frame(w: World, t: World, id: string) {
    Apart(w.durable, t.durable, id) && Apart(w.engine.configured, t.engine.configured, id)
  }

  /** The capabilities whose entries a driver writes. */
  predicate Owned(id: string) { id == ADGUARD || id == OPNSENSE || id == D.DEVICE_WATCH }

  /** Everything but the drivers' own entries. */
  ghost predicate Shared(reg: Registry, w: World) {
    && ConsistentRegistry(reg) && ValidConfigured(reg, w.durable) && StatesInv(reg, w.engine)
    && forall id :: !Owned(id) ==> Lookup(w.durable, id) == Lookup(w.engine.configured, id)
  }

  lemma SharedKeeps(reg: Registry, w: World, t: World, id: string)
    requires Shared(reg, w) && Frame(w, t, id) && Owned(id)
    requires ValidConfigured(reg, t.durable) && StatesInv(reg, t.engine)
    ensures Shared(reg, t)
  {
    forall k | !Owned(k) ensures Lookup(t.durable, k) == Lookup(t.engine.configured, k) {
      assert Lookup(w.durable, k) == Lookup(t.durable, k);
      assert Lookup(w.engine.configured, k) == Lookup(t.engine.configured, k);
    }
  }

  lemma Written(reg: Registry, w: World, id: string, next: Option<Configuration>, writes: bool)
    requires Shared(reg, w) && Owned(id)
    ensures var r := Replace(reg, w.durable, id, next, writes);
            var t := w.(durable := r.durable);
            && Shared(reg, t) && Frame(w, t, id)
            && Lookup(t.durable, id) == (if r.ok then next else Lookup(w.durable, id))
            && (r.ok && next.Some? ==> next.value.id == id && ValidConfiguration(reg, next.value))
            && (r.previous.Some? ==> r.ok ==> r.previous.value.id == id && ValidConfiguration(reg, r.previous.value))
            && (writes && (next.Some? ==> next.value.id == id && ValidConfiguration(reg, next.value)) ==> r.ok)
            && (next == Lookup(w.durable, id) ==> r.ok)
  {
    var r := Replace(reg, w.durable, id, next, writes);
    var t := w.(durable := r.durable);
    ReplaceMeaning(reg, w.durable, id, next, writes);
    SharedKeeps(reg, w, t, id);
  }

  /** An effect that changes neither file nor engine. */
  lemma Untouched(reg: Registry, w: World, t: World, id: string)
    requires Shared(reg, w) && t.durable == w.durable && t.engine == w.engine
    ensures Shared(reg, t) && Frame(w, t, id)
  {
  }

  lemma Installed(reg: Registry, w: World, c: Configuration)
    requires Shared(reg, w) && ValidConfiguration(reg, c) && Owned(c.id)
    ensures var a := ApplyConfiguration(reg, w.engine, c);
            var t := w.(engine := a.engine);
            a.ok && Shared(reg, t) && Frame(w, t, c.id) && Lookup(t.engine.configured, c.id) == Some(c)
  {
    ApplyNeverFails(reg, w.engine, c);
    var t := w.(engine := ApplyConfiguration(reg, w.engine, c).engine);
    SharedKeeps(reg, w, t, c.id);
  }

  lemma Erased(reg: Registry, w: World, id: string)
    requires Shared(reg, w) && id in reg && Owned(id)
    ensures var a := RemoveConfiguration(reg, w.engine, id);
            var t := w.(engine := a.engine);
            a.ok && Shared(reg, t) && Frame(w, t, id) && Lookup(t.engine.configured, id).None?
  {
    RemoveNeverFails(reg, w.engine, id);
    var t := w.(engine := RemoveConfiguration(reg, w.engine, id).engine);
    SharedKeeps(reg, w, t, id);
  }

  /** A lifecycle action changes neither entry nor copy of any capability. */
  lemma Acted(reg: Registry, drivers: set<string>, w: World, id: string, action: Action, d: Driver, active: bool)
    requires Shared(reg, w)
    ensures var t := w.(engine := Run(reg, drivers, w.engine, id, action, d).engine, active := active);
            Shared(reg, t) && t.durable == w.durable && t.engine.configured == w.engine.configured
  {
    RunKeepsEngine(reg, drivers, w.engine, id, action, d);
  }
}
