/** Model of internal/controller/devicewatch/runtime.go: Start, Stop and the
    background goroutine as interleavings of the sections that hold the lock. A
    generation is one goroutine with its `done` channel and its cancel function. */
module DeviceWatchRuntime {
  import opened Ordering

  /** The fields behind the lock; `owner` and `recordedBy` say which generation the
      state's scope and its last collection result belong to. */
  datatype Shared = Shared(started: bool, cancel: Option<nat>, done: Option<nat>, running: bool, owner: Option<nat>,
                           recordedBy: Option<nat>)

  /** Where a goroutine is: in its loop, past the loop, past the clean-up, finished. */
  datatype Phase = Looping | Exited | CleanedUp | Finished
  datatype Generation = Generation(phase: Phase, cancelled: bool, closes: nat)

  datatype Outcome = Started(generation: nat) | AlreadyStarted | StartRejected
                   | NothingToStop | NoChannel | Stopped(generation: nat) | TimedOut(generation: nat)

  /** Where one call of Start or Stop is. */
  datatype Caller = Outside | Checked | Read(cancel: Option<nat>,
                                             done: Option<nat>) | Waiting(channel: nat) | Returned(outcome: Outcome)

  datatype State = State(shared: Shared, generations: seq<Generation>, callers: map<nat, Caller>)

  datatype Action = StartCheck(caller: nat) | StartReject(caller: nat) | StartPublish(caller: nat)
                  | Collect(generation: nat) | LoopExit(generation: nat) | CleanUp(generation: nat)
                  | Close(generation: nat) | StopRead(caller: nat) | StopCancel(caller: nat) | StopReceive(caller: nat)
                  | StopTimeout(caller: nat)

  const INITIAL: State := State(Shared(false, None, None, false, None, None), [], map[])

  function CallerAt(s: State, c: nat): Caller { if c in s.callers then s.callers[c] else Outside }

  function At(s: State, c: nat, next: Caller): State { s.(callers := s.callers[c := next]) }

  predicate InPhase(s: State, g: nat, p: Phase) { g < |s.generations| && s.generations[g].phase == p }

  function Move(s: State, g: nat, p: Phase): State
    requires g < |s.generations|
  { s.(generations := s.generations[g := s.generations[g].(phase := p)]) }

  // ----- The sections that hold the lock, on the shared fields alone

  function Publish(g: nat): Shared
  { Shared(true, Some(g), Some(g), true, Some(g), None) }

  function Cleaned(f: Shared, g: nat): Shared {
    if f.done == Some(g) then f.(started := false, cancel := None, done := None, running := false) else f
  }

  function Recorded(f: Shared, g: nat): Shared { f.(recordedBy := Some(g)) }

  // ----- Steps

  predicate Idle(c: Caller) { c.Outside? || c.Returned? }

  /** The step, or None where the action is not possible. */
  function Step(s: State, a: Action): Option<State> {
    match a
    case StartCheck(c) =>
      if !Idle(CallerAt(s, c)) then None
      else Some(At(s, c, if s.shared.started then Returned(AlreadyStarted) else Checked))
    case StartReject(c) =>
      if CallerAt(s, c) != Checked then None else Some(At(s, c, Returned(StartRejected)))
    case StartPublish(c) =>
      if CallerAt(s, c) != Checked then None
      else if s.shared.started then Some(At(s, c, Returned(AlreadyStarted)))
      else
        var g := |s.generations|;
        Some(At(State(Publish(g), s.generations + [Generation(Looping, false, 0)], s.callers), c, Returned(Started(g))))
    case Collect(g) =>
      if !InPhase(s, g, Looping) then None else Some(s.(shared := Recorded(s.shared, g)))
    case LoopExit(g) =>
      if !InPhase(s, g, Looping) || !s.generations[g].cancelled then None else Some(Move(s, g, Exited))
    case CleanUp(g) =>
      if !InPhase(s, g, Exited) then None else Some(Move(s, g, CleanedUp).(shared := Cleaned(s.shared, g)))
    case Close(g) =>
      if !InPhase(s, g, CleanedUp) then None
      else Some(s.(generations := s.generations[g := Generation(Finished, s.generations[g].cancelled,
                                                                s.generations[g].closes + 1)]))
    case StopRead(c) =>
      if !Idle(CallerAt(s, c)) then None
      else Some(At(s, c, if s.shared.started then Read(s.shared.cancel, s.shared.done) else Returned(NothingToStop)))
    case StopCancel(c) =>
      if !CallerAt(s, c).Read? then None else Some(Cancelled(s, c, CallerAt(s, c).cancel, CallerAt(s, c).done))
    case StopReceive(c) =>
      if !CallerAt(s, c).Waiting? then None
      else
        var g := CallerAt(s, c).channel;
        if g < |s.generations| && s.generations[g].closes > 0 then Some(At(s, c, Returned(Stopped(g)))) else None
    case StopTimeout(c) =>
      if !CallerAt(s, c).Waiting? then None else Some(At(s, c, Returned(TimedOut(CallerAt(s, c).channel))))
  }

  /** Cancelling what was read under the lock; a missing channel ends the call. */
  function Cancelled(s: State, c: nat, cancel: Option<nat>, done: Option<nat>): State {
    var s' := if cancel.Some? && cancel.value < |s.generations|
              then s.(generations := s.generations[cancel.value := s.generations[cancel.value].(cancelled := true)])
                else s;
    At(s', c, if done.Some? then Waiting(done.value) else Returned(NoChannel))
  }

  /** The state after a run of actions, or None when one of them was not possible. */
  function After(s: State, run: seq<Action>): Option<State> {
    if |run| == 0 then Some(s)
    else
      var before := After(s, run[..|run| - 1]);
      if before.None? then None else Step(before.value, run[|run| - 1])
  }

  // ----- The invariant

  predicate Live(g: Generation) { g.phase == Looping || g.phase == Exited }

  ghost predicate SharedOk(s: State) {
    var f := s.shared;
    && (f.started <==> f.done.Some?) && f.cancel == f.done && f.running == f.started
    && (f.done.Some? ==> f.done.value < |s.generations| && Live(s.generations[f.done.value]) && f.owner == f.done)
    && (f.recordedBy.Some? ==> f.recordedBy == f.owner)
  }

  /** Every goroutine that has not cleaned up is the published one. */
  ghost predicate GenerationsOk(s: State) {
    forall g :: 0 <= g < |s.generations| ==>
      && (Live(s.generations[g]) ==> s.shared.done == Some(g))
      && (s.generations[g].phase != Looping ==> s.generations[g].cancelled)
      && s.generations[g].closes == (if s.generations[g].phase == Finished then 1 else 0)
  }

  ghost predicate CallerOk(s: State, c: Caller) {
    match c
    case Read(cancel, done) => cancel == done && done.Some? && done.value < |s.generations|
    case Waiting(g) => g < |s.generations| && s.generations[g].cancelled
    case Returned(Stopped(g)) => InPhase(s, g, Finished)
    case Returned(Started(g)) => g < |s.generations|
    case Returned(NoChannel) => false
    case _ => true
  }

  ghost predicate Inv(s: State) {
    SharedOk(s) && GenerationsOk(s) && forall c :: c in s.callers ==> CallerOk(s, s.callers[c])
  }

  /** Nothing a goroutine has passed is undone. */
  ghost predicate Grows(s: State, t: State) {
    && |s.generations| <= |t.generations|
    && forall g :: 0 <= g < |s.generations| ==>
         && (s.generations[g].cancelled ==> t.generations[g].cancelled)
         && (s.generations[g].phase == Finished ==> t.generations[g].phase == Finished)
  }

  lemma CallersKeep(s: State, t: State, changed: nat)
    requires Inv(s) && Grows(s, t) && changed in t.callers && CallerOk(t, t.callers[changed])
    requires forall c :: c in t.callers && c != changed ==> c in s.callers && t.callers[c] == s.callers[c]
    ensures forall c :: c in t.callers ==> CallerOk(t, t.callers[c])
  {
    forall c | c in t.callers ensures CallerOk(t, t.callers[c]) {
      if c != changed { assert CallerOk(s, s.callers[c]); }
    }
  }

  lemma SameCallersKeep(s: State, t: State)
    requires Inv(s) && Grows(s, t) && t.callers == s.callers
    ensures forall c :: c in t.callers ==> CallerOk(t, t.callers[c])
  {
    forall c | c in t.callers ensures CallerOk(t, t.callers[c]) { assert CallerOk(s, s.callers[c]); }
  }

  lemma LoopStepKeeps(s: State, a: Action)
    requires Inv(s) && (a.Collect? || a.LoopExit? || a.CleanUp? || a.Close?) && Step(s, a).Some?
    ensures Inv(Step(s, a).value)
  {
    SameCallersKeep(s, Step(s, a).value);
  }

  lemma StartStepKeeps(s: State, a: Action)
    requires Inv(s) && (a.StartCheck? || a.StartReject? || a.StartPublish?) && Step(s, a).Some?
    ensures Inv(Step(s, a).value)
  {
    CallersKeep(s, Step(s, a).value, a.caller);
  }

  lemma StopStepKeeps(s: State, a: Action)
    requires Inv(s) && (a.StopRead? || a.StopCancel? || a.StopReceive? || a.StopTimeout?) && Step(s, a).Some?
    ensures Inv(Step(s, a).value)
  {
    assert CallerOk(s, CallerAt(s, a.caller));
    CallersKeep(s, Step(s, a).value, a.caller);
  }

  lemma StepKeeps(s: State, a: Action)
    requires Inv(s) && Step(s, a).Some?
    ensures Inv(Step(s, a).value)
  {
    if a.Collect? || a.LoopExit? || a.CleanUp? || a.Close? { LoopStepKeeps(s, a); }
    else if a.StartCheck? || a.StartReject? || a.StartPublish? { StartStepKeeps(s, a); }
    else { StopStepKeeps(s, a); }
  }

  lemma {:induction false} ReachableInv(run: seq<Action>)
    requires After(INITIAL, run).Some?
    ensures Inv(After(INITIAL, run).value)
  {
    if |run| != 0 {
      ReachableInv(run[..|run| - 1]);
      StepKeeps(After(INITIAL, run[..|run| - 1]).value, run[|run| - 1]);
    }
  }

  // ----- What holds under every interleaving

  /** At most one goroutine is in its loop or has yet to clean up, it is the published
      one, no channel closes twice, `started`, `done` and the reported state agree,
      and the reported state never mixes two generations. */
  lemma OneLoopAtATime(run: seq<Action>)
    requires After(INITIAL, run).Some?
    ensures var s := After(INITIAL, run).value;
            && (forall g, h :: 0 <= g < h < |s.generations| ==> !(Live(s.generations[g]) && Live(s.generations[h])))
            && (forall g :: 0 <= g < |s.generations| ==> s.generations[g].closes <= 1)
            && (s.shared.started <==> exists g :: 0 <= g < |s.generations| && Live(s.generations[g]))
            && s.shared.running == s.shared.started && s.shared.cancel == s.shared.done
            && (s.shared.started <==> s.shared.done.Some?)
            && (s.shared.recordedBy.Some? ==> s.shared.recordedBy == s.shared.owner)
  {
    ReachableInv(run);
  }

  /** The goroutine's own test `r.done == done` succeeds whenever it is made. */
  lemma GenerationTestAlwaysTrue(run: seq<Action>, g: nat)
    requires After(INITIAL, run).Some? && Step(After(INITIAL, run).value, CleanUp(g)).Some?
    ensures After(INITIAL, run).value.shared.done == Some(g)
    ensures !Step(After(INITIAL, run).value, CleanUp(g)).value.shared.started
  {
    ReachableInv(run);
  }

  /** A Stop that returned without error read a generation whose goroutine has left
      its loop, cleaned up and closed its channel; it never finds a started runtime
      without a channel. */
  lemma StopMeansEnded(run: seq<Action>, c: nat, g: nat)
    requires After(INITIAL, run).Some?
    ensures CallerAt(After(INITIAL, run).value, c) != Returned(NoChannel)
    ensures CallerAt(After(INITIAL, run).value, c) == Returned(Stopped(g)) ==>
              InPhase(After(INITIAL, run).value, g, Finished) && After(INITIAL, run).value.shared.done != Some(g)
  {
    ReachableInv(run);
    assert CallerOk(After(INITIAL, run).value, CallerAt(After(INITIAL, run).value, c));
  }

  // ----- Progress

  /** The next step of a goroutine on its way out. */
  function NextAction(p: Phase, g: nat): Action
    requires p != Finished
  {
    match p case Looping => LoopExit(g) case Exited => CleanUp(g) case CleanedUp => Close(g)
  }

  function NextPhase(p: Phase): Phase { match p case Looping => Exited case Exited => CleanedUp case _ => Finished }

  function Left(p: Phase): nat { match p case Looping => 3 case Exited => 2 case CleanedUp => 1 case Finished => 0 }

  /** A goroutine that has been cancelled. */
  predicate Leaving(s: State, g: nat) {
    && g < |s.generations| && s.generations[g].cancelled
    && s.generations[g].closes == (if s.generations[g].phase == Finished then 1 else 0)
  }

  /** Its next step is always possible, whatever everyone else has done. */
  lemma NextActionIsPossible(s: State, g: nat)
    requires Leaving(s, g) && s.generations[g].phase != Finished
    ensures var t := Step(s, NextAction(s.generations[g].phase, g));
            && t.Some? && Leaving(t.value, g) && t.value.generations[g].phase == NextPhase(s.generations[g].phase)
            && t.value.callers == s.callers
  {
  }

  /** And no other step undoes it or moves it: it stays cancelled, and its phase
      changes only by its own next action. */
  lemma OthersLeaveItAlone(s: State, a: Action, g: nat)
    requires Leaving(s, g) && Step(s, a).Some?
    requires s.generations[g].phase == Finished || a != NextAction(s.generations[g].phase, g)
    ensures var t := Step(s, a).value; Leaving(t, g) && t.generations[g].phase == s.generations[g].phase
  {
  }

  function Remaining(p: Phase, g: nat): seq<Action>
    decreases Left(p)
  {
    if p == Finished then [] else [NextAction(p, g)] + Remaining(NextPhase(p), g)
  }

  /** The state after actions taken one after the other from s. */
  function Drive(s: State, run: seq<Action>): Option<State>
    decreases |run|
  {
    if |run| == 0 then Some(s)
    else
      var t := Step(s, run[0]);
      if t.None? then None else Drive(t.value, run[1..])
  }

  /** The goroutine's own remaining steps are possible one after the other, and end
      with its channel closed and every caller where it was. */
  lemma {:induction false} LoopFinishes(s: State, g: nat)
    requires Leaving(s, g)
    ensures var t := Drive(s, Remaining(s.generations[g].phase, g));
            t.Some? && InPhase(t.value, g, Finished) && t.value.generations[g].closes == 1
                && t.value.callers == s.callers
    decreases Left(s.generations[g].phase)
  {
    var p := s.generations[g].phase;
    if p != Finished {
      NextActionIsPossible(s, g);
      assert Remaining(p, g)[0] == NextAction(p, g) && Remaining(p, g)[1..] == Remaining(NextPhase(p), g);
      LoopFinishes(Step(s, NextAction(p, g)).value, g);
    }
  }

  lemma WaitingIsLeaving(run: seq<Action>, c: nat)
    requires After(INITIAL, run).Some? && CallerAt(After(INITIAL, run).value, c).Waiting?
    ensures Leaving(After(INITIAL, run).value, CallerAt(After(INITIAL, run).value, c).channel)
  {
    ReachableInv(run);
    assert CallerOk(After(INITIAL, run).value, CallerAt(After(INITIAL, run).value, c));
  }

  /** A waiting Stop is never stuck: the goroutine can run to its end from there, and
      then the wait is over. */
  lemma StopCanAlwaysFinish(run: seq<Action>, c: nat)
    requires After(INITIAL, run).Some? && CallerAt(After(INITIAL, run).value, c).Waiting?
    ensures var s := After(INITIAL, run).value;
            var g := CallerAt(s, c).channel;
            && g < |s.generations|
            && var t := Drive(s, Remaining(s.generations[g].phase, g));
               && t.Some? && Step(t.value, StopReceive(c)).Some?
               && CallerAt(Step(t.value, StopReceive(c)).value, c) == Returned(Stopped(g))
  {
    WaitingIsLeaving(run, c);
    LoopFinishes(After(INITIAL, run).value, CallerAt(After(INITIAL, run).value, c).channel);
  }

  /** A Start that finds nothing live takes effect: it publishes a new generation, which
      loops and is the one the runtime shows as running. One that finds a live generation
      changes nothing. */
  lemma StartTakesEffect(run: seq<Action>, c: nat)
    requires After(INITIAL, run).Some? && Idle(CallerAt(After(INITIAL, run).value, c))
    ensures var s := After(INITIAL, run).value;
            var g, live := |s.generations|, exists h :: 0 <= h < |s.generations| && Live(s.generations[h]);
            if live then Step(s, StartCheck(c)) == Some(At(s, c, Returned(AlreadyStarted)))
            else
              var t := Drive(s, [StartCheck(c), StartPublish(c)]);
              && t.Some? && CallerAt(t.value, c) == Returned(Started(g)) && InPhase(t.value, g, Looping)
              && t.value.generations[..g] == s.generations && |t.value.generations| == g + 1
              && !t.value.generations[g].cancelled && t.value.shared.running && t.value.shared.owner == Some(g)
  {
    OneLoopAtATime(run);
    var s := After(INITIAL, run).value;
    if !s.shared.started {
      var t := Step(s, StartCheck(c)).value;
      var actions := [StartCheck(c), StartPublish(c)];
      assert actions[1..] == [StartPublish(c)] && [StartPublish(c)][1..] == [];
      assert Drive(t, [StartPublish(c)]) == Some(Step(t, StartPublish(c)).value);
    }
  }

  /** A Stop that finds a live generation cancels that one and waits for its channel; one
      that finds none has nothing to do. */
  lemma StopTakesEffect(run: seq<Action>, c: nat)
    requires After(INITIAL, run).Some? && Idle(CallerAt(After(INITIAL, run).value, c))
    ensures var s := After(INITIAL, run).value;
            if forall h :: 0 <= h < |s.generations| ==> !Live(s.generations[h])
            then Step(s, StopRead(c)) == Some(At(s, c, Returned(NothingToStop)))
            else
              var t := Drive(s, [StopRead(c), StopCancel(c)]);
              && t.Some? && CallerAt(t.value, c).Waiting? && CallerAt(t.value, c).channel < |s.generations|
              && var g := CallerAt(t.value, c).channel;
                 && Live(s.generations[g])
                 && t.value.generations == s.generations[g := s.generations[g].(cancelled := true)]
  {
    OneLoopAtATime(run);
    ReachableInv(run);
    var s := After(INITIAL, run).value;
    if s.shared.started {
      var t := Step(s, StopRead(c)).value;
      var actions := [StopRead(c), StopCancel(c)];
      assert actions[1..] == [StopCancel(c)] && [StopCancel(c)][1..] == [];
      assert Drive(t, [StopCancel(c)]) == Some(Step(t, StopCancel(c)).value);
    }
  }

  // ----- Infinite runs with a fair scheduler

  ghost predicate Execution(states: nat -> State, actions: nat -> Action) {
    states(0) == INITIAL && forall k: nat :: Step(states(k), actions(k)) == Some(states(k + 1))
  }

  /** A goroutine whose way out stays open is not passed over for ever. */
  ghost predicate Scheduled(states: nat -> State, actions: nat -> Action, g: nat, k: nat) {
    exists m: nat :: k <= m && g < |states(m).generations| && states(m).generations[g].phase != Finished
                     && actions(m) == NextAction(states(m).generations[g].phase, g)
  }

  ghost predicate Fair(states: nat -> State, actions: nat -> Action) {
    forall g: nat, k: nat :: Leaving(states(k), g) && states(k).generations[g].phase != Finished ==>
          Scheduled(states, actions, g, k)
  }

  lemma {:induction false} ExecutionInv(states: nat -> State, actions: nat -> Action, k: nat)
    requires Execution(states, actions)
    ensures Inv(states(k))
  {
    if k != 0 {
      ExecutionInv(states, actions, k - 1);
      assert Step(states(k - 1), actions(k - 1)) == Some(states(k - 1 + 1));
      StepKeeps(states(k - 1), actions(k - 1));
    }
  }

  /** Until its next action is taken, a leaving goroutine stays where it is. */
  lemma {:induction false} StaysUntilScheduled(states: nat -> State, actions: nat -> Action, g: nat, k: nat, m: nat)
    requires Execution(states, actions) && k <= m && Leaving(states(k), g) && states(k).generations[g].phase != Finished
    requires forall i: nat :: k <= i < m ==> actions(i) != NextAction(states(k).generations[g].phase, g)
    ensures Leaving(states(m), g) && states(m).generations[g].phase == states(k).generations[g].phase
    decreases m - k
  {
    if k < m {
      StaysUntilScheduled(states, actions, g, k, m - 1);
      assert Step(states(m - 1), actions(m - 1)) == Some(states(m - 1 + 1));
      OthersLeaveItAlone(states(m - 1), actions(m - 1), g);
    }
  }

  /** The first time from k at which the goroutine's next action is taken. */
  lemma {:induction false} FirstTaken(actions: nat -> Action, a: Action, k: nat, m: nat) returns (n: nat)
    requires k <= m && actions(m) == a
    ensures k <= n <= m && actions(n) == a && forall i: nat :: k <= i < n ==> actions(i) != a
    decreases m - k
  {
    n := k;
    if actions(k) != a { n := FirstTaken(actions, a, k + 1, m); }
  }

  lemma SomeTaken(states: nat -> State, actions: nat -> Action, g: nat, k: nat) returns (n: nat)
    requires Execution(states, actions) && Fair(states, actions) && Leaving(states(k), g)
             && states(k).generations[g].phase != Finished
    ensures k <= n && actions(n) == NextAction(states(k).generations[g].phase, g)
    ensures Leaving(states(n), g) && states(n).generations[g].phase == states(k).generations[g].phase
  {
    var a := NextAction(states(k).generations[g].phase, g);
    assert Scheduled(states, actions, g, k);
    var m: nat :| k <= m && g < |states(m).generations| && states(m).generations[g].phase != Finished
                  && actions(m) == NextAction(states(m).generations[g].phase, g);
    if forall i: nat :: k <= i < m ==> actions(i) != a {
      StaysUntilScheduled(states, actions, g, k, m);
      n := m;
    } else {
      var i: nat :| k <= i < m && actions(i) == a;
      n := FirstTaken(actions, a, k, i);
      StaysUntilScheduled(states, actions, g, k, n);
    }
  }

  /** Under a fair scheduler every cancelled goroutine ends, so every Stop that waits
      for its channel will find it closed. */
  lemma {:induction false} CancelledEventuallyEnds(states: nat -> State, actions: nat -> Action, g: nat, k: nat)
    returns (n: nat)
    requires Execution(states, actions) && Fair(states, actions) && Leaving(states(k), g)
    ensures k <= n && InPhase(states(n), g, Finished) && states(n).generations[g].closes == 1
    decreases Left(states(k).generations[g].phase)
  {
    n := k;
    if states(k).generations[g].phase != Finished {
      var m := SomeTaken(states, actions, g, k);
      assert Step(states(m), actions(m)) == Some(states(m + 1));
      NextActionIsPossible(states(m), g);
      n := CancelledEventuallyEnds(states, actions, g, m + 1);
    }
  }

  lemma {:induction false} EndedStaysEnded(states: nat -> State, actions: nat -> Action, g: nat, k: nat, m: nat)
    requires Execution(states, actions) && k <= m && Leaving(states(k), g) && InPhase(states(k), g, Finished)
    ensures Leaving(states(m), g) && InPhase(states(m), g, Finished)
    decreases m - k
  {
    if k < m {
      EndedStaysEnded(states, actions, g, k, m - 1);
      assert Step(states(m - 1), actions(m - 1)) == Some(states(m - 1 + 1));
      OthersLeaveItAlone(states(m - 1), actions(m - 1), g);
    }
  }

  /** In every fair infinite run, from some time on a Stop that is still waiting can
      return without error whenever it is scheduled. */
  lemma StopFinishesUnderFairness(states: nat -> State, actions: nat -> Action, c: nat, k: nat) returns (n: nat)
    requires Execution(states, actions) && Fair(states, actions) && CallerAt(states(k), c).Waiting?
    ensures k <= n
    ensures forall m: nat :: n <= m && CallerAt(states(m), c) == CallerAt(states(k), c) ==>
              Step(states(m), StopReceive(c)).Some?
  {
    ExecutionInv(states, actions, k);
    assert CallerOk(states(k), CallerAt(states(k), c));
    var g := CallerAt(states(k), c).channel;
    n := CancelledEventuallyEnds(states, actions, g, k);
    ExecutionInv(states, actions, n);
    forall m: nat | n <= m
        && CallerAt(states(m), c) == CallerAt(states(k), c) ensures Step(states(m), StopReceive(c)).Some? {
      EndedStaysEnded(states, actions, g, n, m);
    }
  }

  // ----- The object's critical sections

  /** The runtime's fields. The ghost machine state says where every goroutine and
      caller is; each locked section is one step of it. */
  class Runtime {
    var started: bool
    var cancel: Option<nat>
    var done: Option<nat>
    var running: bool
    var owner: Option<nat>
    var recordedBy: Option<nat>
    var channels: nat
    ghost var world: State

    function View(): Shared
      reads this
    { Shared(started, cancel, done, running, owner, recordedBy) }

    ghost predicate Valid()
      reads this
    { world.shared == View() && channels == |world.generations| && Inv(world) }

    constructor ()
      ensures Valid() && world == INITIAL
    {
      started, cancel, done, running, owner, recordedBy := false, None, None, false, None, None;
      channels, world := 0, INITIAL;
    }

    /** The locked section of Start: with the channel and the cancel function it made,
        the caller publishes a generation, unless another one is live. */
    method PublishUnlessStarted(c: nat) returns (ok: bool)
      requires Valid() && CallerAt(world, c) == Checked
      modifies this
      ensures Valid() && Some(world) == Step(old(world), StartPublish(c))
      ensures ok <==> forall g :: 0 <= g < |old(world).generations| ==> !Live(old(world).generations[g])
    {
      StepKeeps(world, StartPublish(c));
      if started {
        world := Step(world, StartPublish(c)).value;
        return false;
      }
      started, cancel, done := true, Some(channels), Some(channels);
      running, owner, recordedBy := true, Some(channels), None;
      channels := channels + 1;
      world := Step(world, StartPublish(c)).value;
      return true;
    }

    /** The locked section at the end of the goroutine: it finds its own channel, so
        afterwards nothing is started and a new Start may publish. */
    method CleanUpGeneration(g: nat)
      requires Valid() && InPhase(world, g, Exited)
      modifies this
      ensures Valid() && Some(world) == Step(old(world), CleanUp(g))
      ensures old(done) == Some(g) && !started && !running && done.None?
    {
      StepKeeps(world, CleanUp(g));
      if done == Some(g) {
        started, cancel, done, running := false, None, None, false;
      }
      world := Step(world, CleanUp(g)).value;
    }

    /** The locked section of `collect`: the result recorded belongs to the generation
        whose scope the state shows, and that one is live. */
    method RecordCollection(g: nat)
      requires Valid() && InPhase(world, g, Looping)
      modifies this
      ensures Valid() && Some(world) == Step(old(world), Collect(g))
      ensures recordedBy == owner == done && running
    {
      StepKeeps(world, Collect(g));
      recordedBy := Some(g);
      world := Step(world, Collect(g)).value;
    }

    /** The locked read of Stop: what it will cancel and wait for is the live
        generation, if there is one. */
    method ReadForStop(c: nat) returns (generation: Option<nat>)
      requires Valid() && Idle(CallerAt(world, c))
      modifies this`world
      ensures Valid() && Some(world) == Step(old(world), StopRead(c))
      ensures generation.Some? ==> generation.value < channels && Live(world.generations[generation.value])
      ensures generation.None? ==> forall g :: 0 <= g < |world.generations| ==> !Live(world.generations[g])
    {
      StepKeeps(world, StopRead(c));
      world := Step(world, StopRead(c)).value;
      return done;
    }
  }
}
