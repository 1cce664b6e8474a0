/** Model of internal/controller/capability/lifecycle.go: retried driver calls,
    the verdict over verification signals, and one lifecycle action. */
module Lifecycle {
  import opened Ordering
  import opened Capability

  // ----- Retried calls

  datatype Outcome<T> = Returned(value: T) | Refused(retryable: bool)

  /** What the k-th attempt meets: whether the context is live before the call,
      the call's outcome, and whether the wait before the next attempt completes. */
  datatype Attempt<T> = Attempt(live: bool, outcome: Outcome<T>, waits: bool)

  datatype Retried<T> = Retried(value: Option<T>, attempts: nat)

  function Limit(maxAttempts: int): nat { if maxAttempts < 1 then 1 else maxAttempts }

  function Retry<T>(script: nat -> Attempt<T>, limit: nat, attempt: nat): Retried<T>
    requires 1 <= attempt <= limit
    decreases limit - attempt
  {
    var a := script(attempt);
    if !a.live then Retried(None, attempt - 1)
    else match a.outcome
      case Returned(v) => Retried(Some(v), attempt)
      case Refused(retryable) =>
        if !retryable || attempt == limit || !a.waits then Retried(None, attempt)
        else Retry(script, limit, attempt + 1)
  }

  predicate WorthRetrying<T>(a: Attempt<T>) {
    a.live && a.outcome == Refused(true) && a.waits
  }

  /** Every attempt but the last is a retryable failure, the count stays within the
      limit, success is that of the last call, and failure has one of the four
      causes the loop tests. */
  lemma {:induction false} RetryMeaning<T>(script: nat -> Attempt<T>, limit: nat, attempt: nat)
    requires 1 <= attempt <= limit
    ensures var r := Retry(script, limit, attempt);
            && attempt - 1 <= r.attempts <= limit
            && (forall k :: attempt <= k < r.attempts ==> WorthRetrying(script(k)))
            && (r.value.Some? ==>
                  && r.attempts >= attempt && script(r.attempts).live
                  && script(r.attempts).outcome == Returned(r.value.value))
            && (r.value.None? ==>
                  || (r.attempts < limit && !script(r.attempts + 1).live
                      && (r.attempts >= attempt ==> WorthRetrying(script(r.attempts))))
                  || (r.attempts >= attempt && script(r.attempts).outcome.Refused?
                      && (!script(r.attempts).outcome.retryable || r.attempts == limit || !script(r.attempts).waits)))
    decreases limit - attempt
  {
    var a := script(attempt);
    if a.live && a.outcome == Refused(true) && attempt != limit && a.waits {
      RetryMeaning(script, limit, attempt + 1);
    }
  }

  /** `retryCall`; `calls` counts the calls actually made. */
  method RetryCall<T>(maxAttempts: int, script: nat -> Attempt<T>) returns (r: Retried<T>, calls: nat)
    ensures r == Retry(script, Limit(maxAttempts), 1)
    ensures calls == r.attempts
  {
    var limit := Limit(maxAttempts);
    calls := 0;
    var attempt := 1;
    while attempt <= limit
      invariant 1 <= attempt <= limit
      invariant calls == attempt - 1
      invariant Retry(script, limit, 1) == Retry(script, limit, attempt)
      decreases limit - attempt
    {
      var a := script(attempt);
      if !a.live {
        return Retried(None, attempt - 1), calls;
      }
      calls := calls + 1;
      match a.outcome {
        case Returned(v) => return Retried(Some(v), attempt), calls;
        case Refused(retryable) =>
          if !retryable || attempt == limit || !a.waits {
            return Retried(None, attempt), calls;
          }
      }
      attempt := attempt + 1;
    }
  }

  // ----- Verification verdict

  datatype Signal = Fresh | Missing | StaleSignal | FailedSignal
  datatype Reported = Reported(id: string, status: Signal)

  /** How bad a signal is; one that was not reported counts as missing. */
  function Severity(s: Signal): nat {
    match s case Fresh => 0 case Missing => 1 case StaleSignal => 2 case FailedSignal => 3
  }

  function VerdictSeverity(v: Verification): nat
    requires v != Verifying
  {
    match v case Verified => 0 case Unverified => 1 case Stale => 2 case Degraded => 3
  }

  /** The status last reported for an id. */
  function Observed(report: seq<Reported>, id: string): Signal {
    if |report| == 0 then Missing
    else if report[|report| - 1].id == id then report[|report| - 1].status
    else Observed(report[..|report| - 1], id)
  }

  function Max(a: nat, b: nat): nat { if a < b then b else a }

  function Worst(signals: seq<string>, report: seq<Reported>): nat {
    if |signals| == 0 then 0
    else Max(Worst(signals[..|signals| - 1], report), Severity(Observed(report, signals[|signals| - 1])))
  }

  /** `Worst` is a maximum, so it depends only on the set of declared signals. */
  lemma {:induction false} WorstIsMaximum(signals: seq<string>, report: seq<Reported>)
    ensures forall id :: id in signals ==> Severity(Observed(report, id)) <= Worst(signals, report)
    ensures Worst(signals, report) == 0 || exists id :: id in signals
                                                        && Severity(Observed(report, id)) == Worst(signals, report)
  {
    if |signals| != 0 {
      var n := |signals| - 1;
      WorstIsMaximum(signals[..n], report);
      assert signals == signals[..n] + [signals[n]];
      if Worst(signals[..n], report) != 0 {
        var id :| id in signals[..n] && Severity(Observed(report, id)) == Worst(signals[..n], report);
        assert id in signals;
      }
      assert signals[n] in signals;
    }
  }

  predicate AllDeclared(signals: seq<string>, report: seq<Reported>) {
    forall i :: 0 <= i < |report| ==> report[i].id in signals
  }

  /** `evaluateVerification`: the two loops of the source, against the maximum. */
  method EvaluateVerification(signals: seq<string>, report: seq<Reported>) returns (r: Option<Verification>)
    ensures r.Some? <==> AllDeclared(signals, report)
    ensures r.Some? ==> r.value != Verifying && VerdictSeverity(r.value) == Worst(signals, report)
  {
    var observed: map<string, Signal> := map[];
    for i := 0 to |report|
      invariant AllDeclared(signals, report[..i])
      invariant forall id :: Observed(report[..i], id) == if id in observed then observed[id] else Missing
    {
      if report[i].id !in signals {
        return None;
      }
      observed := observed[report[i].id := report[i].status];
      assert report[..i + 1][..i] == report[..i];
    }
    assert report[..|report|] == report;
    var state := Verified;
    for i := 0 to |signals|
      invariant state != Verifying && VerdictSeverity(state) == Worst(signals[..i], report)
    {
      var id := signals[i];
      assert signals[..i + 1][..i] == signals[..i];
      if id !in observed || observed[id] == Missing {
        if state == Verified { state := Unverified; }
      } else if observed[id] == FailedSignal {
        state := Degraded;
      } else if observed[id] == StaleSignal {
        if state != Degraded { state := Stale; }
      }
    }
    assert signals[..|signals|] == signals;
    r := Some(state);
  }

  function VerdictOf(n: nat): Verification
    requires n <= 3
  {
    if n == 0 then Verified else if n == 1 then Unverified else if n == 2 then Stale else Degraded
  }

  lemma {:induction false} WorstBound(signals: seq<string>, report: seq<Reported>)
    ensures Worst(signals, report) <= 3
  {
    if |signals| != 0 { WorstBound(signals[..|signals| - 1], report); }
  }

  function Evaluate(signals: seq<string>, report: seq<Reported>): (r: Option<Verification>)
    ensures r.Some? ==> r.value != Verifying && VerdictSeverity(r.value) == Worst(signals, report)
  {
    WorstBound(signals, report);
    if AllDeclared(signals, report) then Some(VerdictOf(Worst(signals, report))) else None
  }

  function Ids(report: seq<Reported>): seq<string> {
    seq(|report|, i requires 0 <= i < |report| => report[i].id)
  }

  lemma {:induction false} ObservedIsReported(report: seq<Reported>, i: nat)
    requires i < |report| && Distinct(Ids(report))
    ensures Observed(report, report[i].id) == report[i].status
  {
    var n := |report| - 1;
    if i != n {
      assert Ids(report)[i] != Ids(report)[n];
      forall j, k | 0 <= j < k < n ensures Ids(report[..n])[j] != Ids(report[..n])[k] {
        assert Ids(report)[j] != Ids(report)[k];
      }
      ObservedIsReported(report[..n], i);
    }
  }

  lemma {:induction false} UnreportedIsMissing(report: seq<Reported>, id: string)
    requires forall i :: 0 <= i < |report| ==> report[i].id != id
    ensures Observed(report, id) == Missing
  {
    if |report| != 0 { UnreportedIsMissing(report[..|report| - 1], id); }
  }

  lemma ObservedIgnoresOrder(a: seq<Reported>, b: seq<Reported>, id: string)
    requires multiset(a) == multiset(b) && Distinct(Ids(a)) && Distinct(Ids(b))
    ensures Observed(a, id) == Observed(b, id)
  {
    PermutationKeepsDistinct(a, b);
    if i :| 0 <= i < |a| && a[i].id == id {
      ObservedIsReported(a, i);
      assert a[i] in b;
      var j :| 0 <= j < |b| && b[j] == a[i];
      ObservedIsReported(b, j);
    } else {
      UnreportedIsMissing(a, id);
      forall j | 0 <= j < |b| ensures b[j].id != id { assert b[j] in a; }
      UnreportedIsMissing(b, id);
    }
  }

  /** The verdict is the same for every order of the declared signals and of the
      reported ones (whose ids the engine has checked to be distinct). */
  lemma VerdictIgnoresOrder(s1: seq<string>, s2: seq<string>, a: seq<Reported>, b: seq<Reported>)
    requires multiset(s1) == multiset(s2) && multiset(a) == multiset(b)
    requires Distinct(Ids(a)) && Distinct(Ids(b))
    ensures Evaluate(s1, a) == Evaluate(s2, b)
  {
    PermutationKeepsDistinct(s1, s2);
    PermutationKeepsDistinct(a, b);
    forall id ensures Observed(a, id) == Observed(b, id) { ObservedIgnoresOrder(a, b, id); }
    WorstIsMaximum(s1, a);
    WorstIsMaximum(s2, b);
    assert AllDeclared(s1, a) == AllDeclared(s2, b) by {
      if AllDeclared(s1, a) { forall i | 0 <= i < |b| ensures b[i].id in s2 { assert b[i] in a; } }
      if AllDeclared(s2, b) { forall i | 0 <= i < |a| ensures a[i].id in s1 { assert a[i] in b; } }
    }
  }

  // ----- One lifecycle action

  datatype CheckStatus = Pass | Fail | Unknown
  datatype Check = Check(id: string, status: CheckStatus, blocking: bool)
  type PreflightReport = seq<Check>
  datatype Step = Step(changed: bool, process: Option<Process>)

  /** A driver's behaviour during one action, attempt by attempt. */
  datatype Driver = Driver(preflight: nat -> Attempt<PreflightReport>, execute: nat -> Attempt<Step>,
                           verify: nat -> Attempt<seq<Reported>>)

  datatype Failure = UnknownCapability | ActionNotDeclared | OwnershipForbids | DesiredForbids | NoDriver
                   | CallFailed | InvalidReport | Blocked | InvalidState | ChangedDesired

  datatype Result = Result(attempts: nat, preflightAttempts: nat, changed: bool, failure: Option<Failure>)
  datatype Ran = Ran(engine: Engine, result: Result)

  const MAX_ATTEMPTS: nat := 3

  predicate OwnershipAllows(o: Ownership, a: Action) {
    match o
    case Builtin => a == Preflight || a == Enable || a == Verify || a == Disable
    case External => a == Preflight || a == Connect || a == Enable || a == Verify || a == Disable || a == Disconnect
    case _ => true
  }

  predicate DesiredAllows(d: Desired, a: Action) {
    match a
    case Preflight => true
    case Install | Connect | Start | Enable | Verify | Upgrade => d == Enabled
    case Disable | Stop | Disconnect | Uninstall => d == Disabled
  }

  predicate Ready(r: PreflightReport) {
    forall i :: 0 <= i < |r| && r[i].blocking ==> r[i].status == Pass
  }

  predicate ValidPreflight(r: PreflightReport) {
    forall i, j :: 0 <= i < j < |r| ==> r[i].id != r[j].id
  }

  function OwnershipOf(reg: Registry, e: Engine, id: string): Ownership
    requires id in reg && |reg[id].ownership| > 0
  {
    if id in e.configured then e.configured[id].ownership else reg[id].ownership[0]
  }

  /** The tests before any driver call. */
  function Guard(reg: Registry, drivers: set<string>, e: Engine, id: string, action: Action): Option<Failure>
    requires ConsistentRegistry(reg)
  {
    if id !in reg then Some(UnknownCapability)
    else if action !in reg[id].lifecycle then Some(ActionNotDeclared)
    else if !OwnershipAllows(OwnershipOf(reg, e, id), action) then Some(OwnershipForbids)
    else if !DesiredAllows(DesiredOf(e.configured, id), action) then Some(DesiredForbids)
    else if id !in drivers then Some(NoDriver)
    else None
  }

  /** `setState`: refuses an invalid state and any change of the desired field. */
  function SetState(reg: Registry, e: Engine, id: string, next: InstanceState): (Engine, Option<Failure>)
    requires id in reg
  {
    if !ValidState(reg[id], next) then (e, Some(InvalidState))
    else if id in e.states && e.states[id].desired != next.desired then (e, Some(ChangedDesired))
    else (e.(states := e.states[id := next]), None)
  }

  function Current(reg: Registry, e: Engine, id: string): InstanceState
    requires id in reg
  {
    if id in e.states then e.states[id] else InitialState(reg[id], DesiredOf(e.configured, id))
  }

  function RunVerify(reg: Registry, e: Engine, id: string, d: Driver): Ran
    requires id in reg
  {
    var v := Retry(d.verify, MAX_ATTEMPTS, 1);
    if v.value.None? then Ran(e, Result(v.attempts, 0, false, Some(CallFailed)))
    else if !Distinct(Ids(v.value.value)) then Ran(e, Result(v.attempts, 0, false, Some(InvalidReport)))
    else
      var verdict := Evaluate(reg[id].signals, v.value.value);
      if verdict.None? then Ran(e, Result(v.attempts, 0, false, Some(InvalidReport)))
      else
        var stored := SetState(reg, e, id, Current(reg, e, id).(verification := verdict.value));
        Ran(stored.0, Result(v.attempts, 0, false, stored.1))
  }

  function RunPreflight(e: Engine, d: Driver): Ran {
    var p := Retry(d.preflight, MAX_ATTEMPTS, 1);
    Ran(e, Result(p.attempts, 0, false, if p.value.Some? && ValidPreflight(p.value.value) then None
                  else Some(CallFailed)))
  }

  function RunStep(reg: Registry, e: Engine, id: string, d: Driver): Ran
    requires id in reg
  {
    var p := Retry(d.preflight, MAX_ATTEMPTS, 1);
    if p.value.None? || !ValidPreflight(p.value.value) then Ran(e, Result(0, p.attempts, false, Some(CallFailed)))
    else if !Ready(p.value.value) then Ran(e, Result(0, p.attempts, false, Some(Blocked)))
    else RunExecute(reg, e, id, d, p.attempts)
  }

  function RunExecute(reg: Registry, e: Engine, id: string, d: Driver, preflights: nat): Ran
    requires id in reg
  {
    var x := Retry(d.execute, MAX_ATTEMPTS, 1);
    if x.value.None? then Ran(e, Result(x.attempts, preflights, false, Some(CallFailed)))
    else
      var current := Current(reg, e, id);
      var process := if x.value.value.process.Some? then x.value.value.process.value else current.process;
      var stored := SetState(reg, e, id, InstanceState(current.desired, process, Unverified));
      Ran(stored.0, Result(x.attempts, preflights, stored.1.None? && x.value.value.changed, stored.1))
  }

  function Run(reg: Registry, drivers: set<string>, e: Engine, id: string, action: Action, d: Driver): Ran
    requires ConsistentRegistry(reg)
  {
    var guard := Guard(reg, drivers, e, id, action);
    if guard.Some? then Ran(e, Result(0, 0, false, guard))
    else if action == Preflight then RunPreflight(e, d)
    else if action == Verify then RunVerify(reg, e, id, d)
    else RunStep(reg, e, id, d)
  }

  /** Nothing but one capability's stored state has changed, and the states are
      still consistent. */
  ghost predicate Keeps(reg: Registry, e: Engine, id: string, after: Engine)
    requires StatesInv(reg, e)
  {
    && StatesInv(reg, after) && after.configured == e.configured
    && forall other :: other in reg && other != id ==> after.states[other] == e.states[other]
  }

  /** `setState` with the current desired field and no verdict while disabled
      keeps the invariant and never trips the desired-state guard. */
  lemma SetStateKeepsEngine(reg: Registry, e: Engine, id: string, next: InstanceState)
    requires StatesInv(reg, e) && id in reg
    requires next.desired == e.states[id].desired
    requires Judged(next.verification) ==> next.desired == Enabled
    ensures var stored := SetState(reg, e, id, next);
            && Keeps(reg, e, id, stored.0)
            && stored.1 != Some(ChangedDesired) && (stored.1.Some? ==> stored.0 == e)
  {
    var stored := SetState(reg, e, id, next);
    forall other | other in reg ensures StateOk(reg, stored.0, other) {
      assert StateOk(reg, e, other);
    }
  }

  lemma RunVerifyKeeps(reg: Registry, e: Engine, id: string, d: Driver)
    requires StatesInv(reg, e) && id in reg && DesiredOf(e.configured, id) == Enabled
    ensures var r := RunVerify(reg, e, id, d);
            && Keeps(reg, e, id, r.engine)
            && r.result.failure != Some(ChangedDesired) && (r.result.failure.Some? ==> r.engine == e)
            && r.result.attempts <= MAX_ATTEMPTS && r.result.preflightAttempts == 0
  {
    RetryMeaning(d.verify, MAX_ATTEMPTS, 1);
    assert StateOk(reg, e, id);
    var v := Retry(d.verify, MAX_ATTEMPTS, 1);
    if v.value.Some? && Evaluate(reg[id].signals, v.value.value).Some? {
      SetStateKeepsEngine(reg, e, id, e.states[id].(verification := Evaluate(reg[id].signals, v.value.value).value));
    }
  }

  lemma RunStepKeeps(reg: Registry, e: Engine, id: string, d: Driver)
    requires StatesInv(reg, e) && id in reg
    ensures var r := RunStep(reg, e, id, d);
            && Keeps(reg, e, id, r.engine)
            && r.result.failure != Some(ChangedDesired) && (r.result.failure.Some? ==> r.engine == e)
            && r.result.attempts <= MAX_ATTEMPTS && r.result.preflightAttempts <= MAX_ATTEMPTS
  {
    RetryMeaning(d.preflight, MAX_ATTEMPTS, 1);
    RunExecuteKeeps(reg, e, id, d, Retry(d.preflight, MAX_ATTEMPTS, 1).attempts);
  }

  lemma RunExecuteKeeps(reg: Registry, e: Engine, id: string, d: Driver, preflights: nat)
    requires StatesInv(reg, e) && id in reg
    ensures var r := RunExecute(reg, e, id, d, preflights);
            && Keeps(reg, e, id, r.engine)
            && r.result.failure != Some(ChangedDesired) && (r.result.failure.Some? ==> r.engine == e)
            && r.result.attempts <= MAX_ATTEMPTS && r.result.preflightAttempts == preflights
  {
    RetryMeaning(d.execute, MAX_ATTEMPTS, 1);
    var x := Retry(d.execute, MAX_ATTEMPTS, 1);
    if x.value.Some? {
      var process := if x.value.value.process.Some? then x.value.value.process.value else e.states[id].process;
      SetStateKeepsEngine(reg, e, id, InstanceState(e.states[id].desired, process, Unverified));
    }
  }

  /** In every engine state that satisfies the invariant, any action with any
      driver behaviour keeps it, never trips the desired-state guard of `setState`,
      leaves the configuration and every other capability alone, changes nothing
      when it fails, and makes at most three calls of each kind. */
  lemma RunKeepsEngine(reg: Registry, drivers: set<string>, e: Engine, id: string, action: Action, d: Driver)
    requires ConsistentRegistry(reg) && StatesInv(reg, e)
    ensures var r := Run(reg, drivers, e, id, action, d);
            && Keeps(reg, e, id, r.engine)
            && r.result.failure != Some(ChangedDesired) && (r.result.failure.Some? ==> r.engine == e)
            && r.result.attempts <= MAX_ATTEMPTS && r.result.preflightAttempts <= MAX_ATTEMPTS
  {
    if Guard(reg, drivers, e, id, action).None? {
      if action == Preflight {
        RetryMeaning(d.preflight, MAX_ATTEMPTS, 1);
      } else if action == Verify {
        RunVerifyKeeps(reg, e, id, d);
      } else {
        RunStepKeeps(reg, e, id, d);
      }
    }
  }

  /** The driver is asked to act only after a preflight whose blocking checks all
      passed; a blocked action has made preflight calls and nothing else. */
  lemma ActsOnlyWhenReady(reg: Registry, drivers: set<string>, e: Engine, id: string, action: Action, d: Driver)
    requires ConsistentRegistry(reg) && action != Preflight && action != Verify
    ensures var r := Run(reg, drivers, e, id, action, d).result;
            && (r.attempts > 0 ==>
                  && id in reg && action in reg[id].lifecycle && OwnershipAllows(OwnershipOf(reg, e, id), action)
                  && DesiredAllows(DesiredOf(e.configured, id), action)
                  && 1 <= r.preflightAttempts <= MAX_ATTEMPTS
                  && d.preflight(r.preflightAttempts).outcome.Returned?
                     && Ready(d.preflight(r.preflightAttempts).outcome.value))
            && (r.failure == Some(Blocked) ==> r.attempts == 0)
  {
    RetryMeaning(d.preflight, MAX_ATTEMPTS, 1);
  }

  lemma ZeroWorstMeansFresh(signals: seq<string>, report: seq<Reported>, id: string)
    requires Worst(signals, report) == 0 && id in signals
    ensures Observed(report, id) == Fresh
  {
    WorstIsMaximum(signals, report);
  }

  /** A Verify that ends with the capability verified rests on a report, returned by
      the last call made, in which every declared signal is fresh. */
  lemma VerifiedMeansAllFresh(reg: Registry, drivers: set<string>, e: Engine, id: string, d: Driver)
    requires ConsistentRegistry(reg) && StatesInv(reg, e)
    requires Run(reg, drivers, e, id, Verify, d).result.failure.None?
             && Run(reg, drivers, e, id, Verify, d).engine.states[id].verification == Verified
    ensures var n := Run(reg, drivers, e, id, Verify, d).result.attempts;
            && 1 <= n && d.verify(n).outcome.Returned?
            && forall signal :: signal in reg[id].signals ==> Observed(d.verify(n).outcome.value, signal) == Fresh
  {
    RetryMeaning(d.verify, MAX_ATTEMPTS, 1);
    var report := Retry(d.verify, MAX_ATTEMPTS, 1).value.value;
    assert Evaluate(reg[id].signals, report) == Some(Verified);
    forall signal | signal in reg[id].signals ensures Observed(report, signal) == Fresh {
      ZeroWorstMeansFresh(reg[id].signals, report, signal);
    }
  }

  /** Who may do what: a built-in capability is never installed or started, an external
      one may also be connected, and only Preflight ignores intent. */
  lemma AllowedExactly(o: Ownership, desired: Desired, a: Action)
    ensures OwnershipAllows(o, a) <==>
            (o == Builtin ==> a in {Preflight, Enable, Verify, Disable})
            && (o == External ==> a in {Preflight, Connect, Enable, Verify, Disable, Disconnect})
    ensures DesiredAllows(desired, a) <==>
            a == Preflight || (desired == Disabled <==> a in {Disable, Stop, Disconnect, Uninstall})
  {
  }

  // ----- When each action succeeds, and what it then stores

  /** The capability declares the action, its owner and its intent allow it, and it has a
      driver. */
  predicate Admissible(reg: Registry, drivers: set<string>, e: Engine, id: string, action: Action)
    requires ConsistentRegistry(reg)
  {
    && id in reg && action in reg[id].lifecycle && OwnershipAllows(OwnershipOf(reg, e, id), action)
    && DesiredAllows(DesiredOf(e.configured, id), action) && id in drivers
  }

  /** Verify succeeds exactly when it is admissible and its last call returns a report
      that names each declared signal at most once and nothing else. It then stores the
      verdict on that report, and nothing else changes. */
  lemma VerifySucceedsExactly(reg: Registry, drivers: set<string>, e: Engine, id: string, d: Driver)
    requires ConsistentRegistry(reg) && StatesInv(reg, e)
    ensures var r := Run(reg, drivers, e, id, Verify, d);
            var report := Retry(d.verify, MAX_ATTEMPTS, 1);
            && (r.result.failure.None? <==>
                && Admissible(reg, drivers, e, id, Verify) && report.value.Some?
                && Distinct(Ids(report.value.value)) && AllDeclared(reg[id].signals, report.value.value))
            && (r.result.failure.None? ==>
                  && r.result == Result(report.attempts, 0, false, None)
                  && id in r.engine.states && r.engine.states[id].verification != Verifying
                  && VerdictSeverity(r.engine.states[id].verification) == Worst(reg[id].signals, report.value.value)
                  && r.engine == e.(states := e.states[id := e.states[id].(verification :=
                                                              r.engine.states[id].verification)]))
  {
    if Admissible(reg, drivers, e, id, Verify) { assert StateOk(reg, e, id); }
  }

  /** Preflight stores nothing, and succeeds exactly when it is admissible and returns a
      report without repeated checks. */
  lemma PreflightSucceedsExactly(reg: Registry, drivers: set<string>, e: Engine, id: string, d: Driver)
    requires ConsistentRegistry(reg)
    ensures var r := Run(reg, drivers, e, id, Preflight, d);
            var report := Retry(d.preflight, MAX_ATTEMPTS, 1);
            && r.engine == e
            && (r.result.failure.None? <==>
                && Admissible(reg, drivers, e, id, Preflight) && report.value.Some?
                   && ValidPreflight(report.value.value))
  {
  }

  /** What a step may leave: built-in capabilities have no process of their own. */
  predicate ProcessAllowed(m: Manifest, process: Option<Process>) {
    Builtin in m.ownership && process.Some? ==> process.value == NotApplicable
  }

  /** Every other action succeeds exactly when it is admissible, its preflight passes, the
      driver's step returns, and the process it reports is one the capability may have. It
      then stores that process, or keeps the old one, and forgets the verdict; the result
      carries the step's own change flag and both counts of calls. */
  lemma StepSucceedsExactly(reg: Registry, drivers: set<string>, e: Engine, id: string, action: Action, d: Driver)
    requires ConsistentRegistry(reg) && StatesInv(reg, e) && action != Verify && action != Preflight
    ensures var r := Run(reg, drivers, e, id, action, d);
            var checks, step := Retry(d.preflight, MAX_ATTEMPTS, 1), Retry(d.execute, MAX_ATTEMPTS, 1);
            && (r.result.failure.None? <==>
                && Admissible(reg, drivers, e, id, action) && checks.value.Some? && ValidPreflight(checks.value.value)
                && Ready(checks.value.value) && step.value.Some? && ProcessAllowed(reg[id], step.value.value.process))
            && (r.result.failure.None? ==>
                  && r.result == Result(step.attempts, checks.attempts, step.value.value.changed, None)
                  && r.engine ==
                     e.(states := e.states[id := InstanceState(
                                                   e.states[id].desired,
                                                   if step.value.value.process.Some? then step.value.value.process.value
                                                   else e.states[id].process, Unverified)]))
  {
    if Admissible(reg, drivers, e, id, action) { assert StateOk(reg, e, id); }
  }
}
