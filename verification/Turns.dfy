/** Calls taken effect by effect, so that others may act between any two effects: one
    turn, and how a call is the sequence of its turns. */
module Turns {
  import opened Ordering
  import opened Capability
  import opened ConfigManager
  import opened ControllerWorld

  /** What one turn of a call does: its effect, if any, and where it goes next. */
  datatype Turn<P> = Turn(world: World, next: P, effect: bool)

  function Jump<P>(w: World, next: P): Turn<P> { Turn(w, next, false) }

  function RecordTurn<P>(w: World, id: string, phase: string, written: bool, next: P): Turn<P> {
    Turn(Audited(w, id, phase, written), next, true)
  }

  function WriteTurn<P>(reg: Registry, w: World, id: string, entry: Option<Configuration>, writes: bool, good: P,
                        bad: P): Turn<P> {
    var r := Replace(reg, w.durable, id, entry, writes);
    Turn(w.(durable := r.durable), if r.ok then good else bad, true)
  }

  function InstallTurn<P>(reg: Registry, w: World, c: Configuration, good: P, bad: P): Turn<P> {
    var a := ApplyConfiguration(reg, w.engine, c);
    Turn(w.(engine := a.engine), if a.ok then good else bad, true)
  }

  function EraseTurn<P>(reg: Registry, w: World, id: string, good: P, bad: P): Turn<P> {
    var a := RemoveConfiguration(reg, w.engine, id);
    Turn(w.(engine := a.engine), if a.ok then good else bad, true)
  }

  /** The steps of a call that begins with this turn and goes on as `rest`. */
  function Taken<P>(t: Turn<P>, rest: Call): Call { if t.effect then Then(t.world, rest) else rest }

  /** A turn and the rest end where the rest ends. */
  lemma TakenEnds<P>(w: World, t: Turn<P>, rest: Call)
    requires t.effect || t.world == w
    ensures Final(w, Taken(t, rest).steps) == Final(t.world, rest.steps) && Taken(t, rest).ok == rest.ok
  {
  }
}
