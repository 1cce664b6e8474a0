/** Model of internal/controller/devicewatch: what a stored coverage sample says
    (coverage_report.go), what the runtime, the ingestion queue and the database say
    (operational_health.go), and the two verdicts derived from the same facts: the
    coverage state (coverage_operational.go) and the verification signals
    (coverage.go, lifecycle.go). */
module DeviceWatchCoverage {
  import opened Ordering
  import P = Capability
  import L = Lifecycle
  import C = Coverage

  const SECOND: int := 1_000_000_000
  const FRESHNESS: int := 180 * SECOND
  const FUTURE_TOLERANCE: int := 60 * SECOND
  const MAX_NEIGHBORS: int := 4096
  const ARP: string := "arp-cache"
  const NDP: string := "ndp-cache"

  // ----- Stored evidence

  datatype EvidenceSource = EvidenceSource(sourceMethod: string, available: bool, permissionRequired: bool)
  datatype Evidence = Evidence(schema: int, interfaceName: string, sources: seq<EvidenceSource>, neighbors: int,
                               inserted: int,
                               deduplicated: int, wholeNetworkVisible: bool, limitations: seq<string>)

  /** A retained sample; `evidence` is None where the JSON does not decode. */
  datatype Sample = Sample(sensor: string, status: string, endedAt: int, schema: int, evidence: Option<Evidence>)

  predicate InterfaceChar(c: char) {
    'a' <= c <= 'z' || 'A' <= c <= 'Z' || '0' <= c <= '9' || c == '.' || c == '_' || c == '-' || c == ':'
  }

  predicate ValidInterfaceName(s: string) {
    && 1 <= |s| <= 64 && (forall i :: 0 <= i < |s| ==> InterfaceChar(s[i]))
    && !(s[0] == '.' || s[0] == '_' || s[0] == '-' || s[0] == ':')
  }

  lemma InterfaceNameIsValue(s: string)
    requires ValidInterfaceName(s)
    ensures C.ValidValue(s)
  {
    assert InterfaceChar(s[0]) && InterfaceChar(s[|s| - 1]);
  }

  predicate ValidCounters(e: Evidence) {
    && 0 <= e.neighbors <= MAX_NEIGHBORS && 0 <= e.inserted <= MAX_NEIGHBORS && 0 <= e.deduplicated <= MAX_NEIGHBORS
    && e.inserted + e.deduplicated == e.neighbors
  }

  predicate ValidLimitation(s: string) { 1 <= |s| <= 512 && !C.Space(s[0]) && !C.Space(s[|s| - 1]) }

  predicate ValidEvidenceSource(schema: int, s: EvidenceSource) {
    (s.sourceMethod == ARP || s.sourceMethod == NDP) && !(s.permissionRequired && (schema == 1 || s.available))
  }

  /** What `decodeCoverageEvidence` accepts. */
  predicate ValidEvidence(e: Evidence) {
    && (e.schema == 1 || e.schema == 2) && ValidInterfaceName(e.interfaceName) && ValidCounters(e)
       && !e.wholeNetworkVisible
    && 1 <= |e.limitations| <= 8 && (forall i :: 0 <= i < |e.limitations| ==> ValidLimitation(e.limitations[i]))
    && |e.sources| == 2 && ValidEvidenceSource(e.schema, e.sources[0]) && ValidEvidenceSource(e.schema, e.sources[1])
    && e.sources[0].sourceMethod != e.sources[1].sourceMethod
  }

  method DecodeSources(schema: int, sources: seq<EvidenceSource>) returns (ok: bool)
    requires |sources| == 2
    ensures ok <==> && ValidEvidenceSource(schema, sources[0]) && ValidEvidenceSource(schema, sources[1])
                    && sources[0].sourceMethod != sources[1].sourceMethod
  {
    var seen: set<string> := {};
    for i := 0 to |sources|
      invariant forall j :: 0 <= j < i ==> ValidEvidenceSource(schema, sources[j])
      invariant seen == set j | 0 <= j < i :: sources[j].sourceMethod
      invariant i == 2 ==> sources[0].sourceMethod != sources[1].sourceMethod
    {
      var s := sources[i];
      if s.sourceMethod != ARP && s.sourceMethod != NDP { return false; }
      if s.sourceMethod in seen { return false; }
      if s.permissionRequired && (schema == 1 || s.available) { return false; }
      seen := seen + {s.sourceMethod};
    }
    return ARP in seen && NDP in seen;
  }

  method DecodeCoverageEvidence(e: Evidence) returns (ok: bool)
    ensures ok <==> ValidEvidence(e)
  {
    if e.schema != 1 && e.schema != 2 { return false; }
    if !ValidInterfaceName(e.interfaceName) || !ValidCounters(e) || e.wholeNetworkVisible { return false; }
    if |e.limitations| == 0 || |e.limitations| > 8 { return false; }
    for i := 0 to |e.limitations|
      invariant forall j :: 0 <= j < i ==> ValidLimitation(e.limitations[j])
    {
      if !ValidLimitation(e.limitations[i]) { return false; }
    }
    if |e.sources| != 2 { return false; }
    ok := DecodeSources(e.schema, e.sources);
  }

  predicate StatusConsistent(status: string, sources: seq<EvidenceSource>) {
    || (status == "partial" && exists i :: 0 <= i < |sources| && sources[i].available)
    || (status == "unavailable" && forall i :: 0 <= i < |sources| ==> !sources[i].available)
  }

  method CoverageStatusConsistent(status: string, sources: seq<EvidenceSource>) returns (ok: bool)
    ensures ok <==> StatusConsistent(status, sources)
  {
    var available := 0;
    for i := 0 to |sources|
      invariant available >= 0
      invariant available > 0 <==> exists j :: 0 <= j < i && sources[j].available
    {
      if sources[i].available { available := available + 1; }
    }
    if status == "partial" { return available > 0; }
    if status == "unavailable" { return available == 0; }
    return false;
  }

  // ----- The coverage report

  /** Guidance by topic. */
  type Say = string -> C.Step

  datatype SourceHealth = Current | Permission | Gone | OutOfDate | Missing | Unknown
  datatype Detail = Detail(id: string, family: string, state: SourceHealth, observed: bool, available: bool,
                           nextStep: string)

  datatype Report = Report(scope: string, sensor: string, interfaceName: string, state: C.State, reason: string,
                           hasEvidence: bool,
                           evidenceAt: int, freshUntil: int, neighbors: int, sources: seq<Detail>, nextStep: string)

  function Both(say: Say, state: SourceHealth, topic: string): seq<Detail> {
    [Detail(ARP, "ipv4", state, false, false, say(topic)), Detail(NDP, "ipv6", state, false, false, say(topic))]
  }

  function SourceFor(sources: seq<EvidenceSource>, name: string): EvidenceSource {
    if |sources| == 0 then EvidenceSource("", false, false)
    else if sources[|sources| - 1].sourceMethod == name then sources[|sources| - 1]
    else SourceFor(sources[..|sources| - 1], name)
  }

  function DetailOf(say: Say, name: string, family: string, s: EvidenceSource): Detail {
    if s.available then Detail(name, family, Current, true, true, "")
    else if s.permissionRequired then Detail(name, family, Permission, true, false, say("review-permission"))
    else Detail(name, family, Gone, true, false, say(if name == ARP then "check-arp" else "check-ndp"))
  }

  function CurrentSources(say: Say, sources: seq<EvidenceSource>): seq<Detail> {
    [DetailOf(say, ARP, "ipv4", SourceFor(sources, ARP)), DetailOf(say, NDP, "ipv6", SourceFor(sources, NDP))]
  }

  function Marked(say: Say, sources: seq<Detail>, state: SourceHealth, topic: string): seq<Detail> {
    seq(|sources|, i requires 0 <= i < |sources| => sources[i].(state := state, nextStep := say(topic)))
  }

  predicate AnyIn(sources: seq<Detail>, states: set<SourceHealth>) {
    exists i :: 0 <= i < |sources| && sources[i].state in states
  }

  predicate Usable(s: Sample) {
    s.evidence.Some? && ValidEvidence(s.evidence.value) && s.schema == s.evidence.value.schema
        && StatusConsistent(s.status, s.evidence.value.sources)
  }

  function NoEvidence(say: Say, scope: string): Report {
    Report(scope, "", "", C.Unverified, "no-evidence", false, 0, 0, 0, Both(say, Missing, "wait-for-collection"),
           say("wait-first-collection"))
  }

  /** The report for a sample, before its evidence has been looked at. */
  function WithEvidence(say: Say, scope: string, s: Sample): Report {
    NoEvidence(say, scope).(hasEvidence := true, sensor := s.sensor, evidenceAt := s.endedAt,
                            freshUntil := s.endedAt + FRESHNESS)
  }

  function Judged(say: Say, r: Report, status: string): Report {
    if status == "partial" && !AnyIn(r.sources, {Gone, Permission})
      then r.(state := C.ActiveLimited, reason := "fresh-limited", nextStep := say("use-traffic-watch"))
    else
      r.(state := C.Degraded, reason := if status == "partial" then "source-partial" else "source-unavailable",
         nextStep := say(if AnyIn(r.sources, {Permission}) then "review-permissions"
                         else if status == "partial" then "restore-source" else "check-access"))
  }

  /** `CurrentCoverage`. */
  function CurrentReport(say: Say, scope: string, sample: Option<Sample>, now: int): Report {
    if sample.None? then NoEvidence(say, scope)
    else
      var s := sample.value;
      var r := WithEvidence(say, scope, s);
      if !Usable(s)
        then r.(state := C.Degraded, reason := "invalid-evidence", sources := Both(say, Unknown, "do-not-rely"),
                nextStep := say("restart"))
      else
        var e := s.evidence.value;
        var known := r.(interfaceName := e.interfaceName, neighbors := e.neighbors,
                        sources := CurrentSources(say, e.sources));
        if s.endedAt > now + FUTURE_TOLERANCE then
          known.(state := C.Degraded, reason := "clock-skew",
                 sources := Marked(say, known.sources, Unknown, "correct-clock"), nextStep := say("correct-clock"))
        else if now - s.endedAt > FRESHNESS then
          known.(state := C.Stale, reason := "stale-evidence",
                 sources := Marked(say, known.sources, OutOfDate, "wake"), nextStep := say("wake"))
        else Judged(say, known, s.status)
  }

  /** The loops of `CurrentCoverage` that rewrite the sources in place. */
  method RewriteSources(say: Say, sources: array<Detail>, state: SourceHealth, topic: string)
    modifies sources
    ensures sources[..] == Marked(say, old(sources[..]), state, topic)
  {
    for i := 0 to sources.Length
      invariant forall j :: 0 <= j < i ==> sources[j] == old(sources[j]).(state := state, nextStep := say(topic))
      invariant forall j :: i <= j < sources.Length ==> sources[j] == old(sources[j])
    {
      sources[i] := sources[i].(state := state);
      sources[i] := sources[i].(nextStep := say(topic));
    }
  }

  /** `CurrentCoverage`, step by step: decode, check, date, and judge. */
  method CurrentCoverage(say: Say, scope: string, sample: Option<Sample>, now: int) returns (r: Report)
    ensures r == CurrentReport(say, scope, sample, now)
  {
    r := NoEvidence(say, scope);
    if sample.None? { return; }
    var s := sample.value;
    r := r.(hasEvidence := true, sensor := s.sensor, evidenceAt := s.endedAt, freshUntil := s.endedAt + FRESHNESS);
    var usable := s.evidence.Some?;
    if usable { usable := DecodeCoverageEvidence(s.evidence.value); }
    if usable && s.schema == s.evidence.value.schema {
      usable := CoverageStatusConsistent(s.status, s.evidence.value.sources);
    } else {
      usable := false;
    }
    if !usable {
      return r.(state := C.Degraded, reason := "invalid-evidence", sources := Both(say, Unknown, "do-not-rely"),
                nextStep := say("restart"));
    }
    var e := s.evidence.value;
    r := r.(interfaceName := e.interfaceName, neighbors := e.neighbors, sources := CurrentSources(say, e.sources));
    var rewritten := new Detail[2](i requires 0 <= i < 2 => r.sources[i]);
    assert rewritten[..] == r.sources;
    if s.endedAt > now + FUTURE_TOLERANCE {
      RewriteSources(say, rewritten, Unknown, "correct-clock");
      return r.(state := C.Degraded, reason := "clock-skew", sources := rewritten[..],
                nextStep := say("correct-clock"));
    }
    if now - s.endedAt > FRESHNESS {
      RewriteSources(say, rewritten, OutOfDate, "wake");
      return r.(state := C.Stale, reason := "stale-evidence", sources := rewritten[..], nextStep := say("wake"));
    }
    r := Judged(say, r, s.status);
  }

  // ----- Operational health

  datatype Operational = OpCurrent | OpStarting | OpDegraded | OpStale | OpDisconnected | OpUnavailable
  datatype SensorHealth = SensorHealth(state: Operational, nextStep: string)
  datatype PartHealth = PartHealth(state: Operational, reason: string, nextStep: string)
  datatype Health = Health(sensor: SensorHealth, pipeline: PartHealth, database: PartHealth)

  datatype RuntimeState = RuntimeState(running: bool, lastAttemptAt: int, lastSuccessfulAt: int, errorClass: string)
  datatype Ingestion = IngestionCurrent(pressure: bool) | Lagging | Backpressure | StorageFull | WriteFailed | Closing
                     | Closed | IngestionOther
  datatype Storage = StorageCurrent(filesystemSupported: bool,
                                    filesystemUnavailable: bool) | QuotaPressure | AtQuota | FilesystemPressure
                   | FilesystemFull | StorageOther

  function SensorHealthOf(say: Say, runtime: Option<RuntimeState>, now: int): SensorHealth {
    if runtime.None? then SensorHealth(OpUnavailable, say("unsupported-platform"))
    else
      var s := runtime.value;
      if !s.running then SensorHealth(OpDisconnected, say("restart-device-watch"))
      else if s.errorClass != "" then SensorHealth(OpDegraded, say(s.errorClass))
      else if s.lastAttemptAt == 0
          || s.lastSuccessfulAt == 0 then SensorHealth(OpStarting, say("wait-first-collection"))
      else if s.lastSuccessfulAt > now + FUTURE_TOLERANCE then SensorHealth(OpDegraded, say("correct-clock"))
      else if now - s.lastSuccessfulAt > FRESHNESS then SensorHealth(OpStale, say("wake"))
      else SensorHealth(OpCurrent, "")
  }

  function Bad(say: Say, state: Operational, reason: string): PartHealth { PartHealth(state, reason, say(reason)) }

  function PipelineHealthOf(say: Say, h: Ingestion): PartHealth {
    match h
    case IngestionCurrent(pressure) => if pressure then Bad(say, OpCurrent, "queue-pressure")
      else PartHealth(OpCurrent, "", "")
    case Lagging => Bad(say, OpDegraded, "latency")
    case Backpressure => Bad(say, OpDegraded, "backpressure")
    case StorageFull => Bad(say, OpDegraded, "sqlite-full")
    case WriteFailed => Bad(say, OpDegraded, "write-failed")
    case Closing => Bad(say, OpDegraded, "closing")
    case Closed => Bad(say, OpDisconnected, "closed")
    case IngestionOther => Bad(say, OpDegraded, "unknown")
  }

  /** `databaseHealth`; None is a driver without a store. */
  function DatabaseHealthOf(say: Say, h: Option<Storage>): PartHealth {
    match h
    case None => Bad(say, OpUnavailable, "storage-unavailable")
    case Some(StorageCurrent(supported, unavailable)) =>
      if supported && unavailable then Bad(say, OpDegraded, "filesystem-unknown") else PartHealth(OpCurrent, "", "")
    case Some(QuotaPressure) => Bad(say, OpDegraded, "quota-pressure")
    case Some(AtQuota) => Bad(say, OpDegraded, "quota-reached")
    case Some(FilesystemPressure) => Bad(say, OpDegraded, "filesystem-pressure")
    case Some(FilesystemFull) => Bad(say, OpDegraded, "filesystem-full")
    case Some(StorageOther) => Bad(say, OpDegraded, "unknown")
  }

  // ----- Facts, and the two derivations from them

  /** Whether the configured scope is stored, and then whether it matches the
      current interface. */
  datatype ScopeFact = NotConfigured | NotFound | Found(current: bool)

  datatype Facts = Facts(wording: C.Wording, scope: ScopeFact, scopeId: string, sample: Option<Sample>,
                         runtime: Option<RuntimeState>, ingestion: Ingestion,
                         storage: Option<Storage>, now: int)

  function ReportOf(f: Facts): Report { CurrentReport(f.wording.step, f.scopeId, f.sample, f.now) }

  function HealthOf(f: Facts): Health {
    var say := f.wording.step;
    Health(SensorHealthOf(say, f.runtime, f.now), PipelineHealthOf(say, f.ingestion), DatabaseHealthOf(say, f.storage))
  }

  datatype Effective = Effective(state: C.State, reason: string, nextStep: string)

  function EffectiveCoverage(r: Report, h: Health): Effective {
    if h.sensor.state == OpDisconnected then Effective(C.Disconnected, "sensor-disconnected", h.sensor.nextStep)
    else if h.sensor.state == OpStale then Effective(C.Stale, "sensor-stale", h.sensor.nextStep)
    else if h.sensor.state == OpDegraded
        || h.sensor.state == OpUnavailable then Effective(C.Degraded, "sensor-degraded", h.sensor.nextStep)
    else if h.sensor.state == OpStarting then Effective(C.Unverified, "sensor-starting", h.sensor.nextStep)
    else if h.pipeline.state != OpCurrent then
      if h.pipeline.reason == "sqlite-full"
          && h.database.state != OpCurrent
             then Effective(C.Degraded, "storage-" + h.database.reason, h.database.nextStep)
      else Effective(C.Degraded, "ingestion-" + h.pipeline.reason, h.pipeline.nextStep)
    else if h.database.state != OpCurrent
      then Effective(C.Degraded, "storage-" + h.database.reason, h.database.nextStep)
    else Effective(r.state, r.reason, r.nextStep)
  }

  const SCOPE_SIGNAL := "network-scope-enrolled"
  const OBSERVATION_SIGNAL := "observation-freshness"
  const SENSOR_SIGNAL := "sensor-operational"
  const INGESTION_SIGNAL := "ingestion-health"
  const STORAGE_SIGNAL := "storage-health"
  const SIGNALS: seq<string> := [SCOPE_SIGNAL, OBSERVATION_SIGNAL, SENSOR_SIGNAL, INGESTION_SIGNAL, STORAGE_SIGNAL]

  function ObservationSignal(s: C.State): L.Signal {
    if s == C.ActiveLimited then L.Fresh else if s == C.Stale then L.StaleSignal
      else if s == C.Degraded then L.FailedSignal else L.Missing
  }

  function SensorSignal(s: Operational): L.Signal {
    if s == OpCurrent then L.Fresh else if s == OpStarting then L.Missing else if s == OpStale then L.StaleSignal
      else L.FailedSignal
  }

  function PartSignal(s: Operational): L.Signal { if s == OpCurrent then L.Fresh else L.FailedSignal }

  function Signals(scope: ScopeFact, state: C.State, h: Health): seq<L.Reported> {
    [L.Reported(SCOPE_SIGNAL, if scope == Found(true) then L.Fresh else L.Missing),
     L.Reported(OBSERVATION_SIGNAL, if scope.Found? then ObservationSignal(state) else L.Missing),
     L.Reported(SENSOR_SIGNAL, SensorSignal(h.sensor.state)),
     L.Reported(INGESTION_SIGNAL, PartSignal(h.pipeline.state)),
     L.Reported(STORAGE_SIGNAL, PartSignal(h.database.state))]
  }

  /** `Verify`, once every store read has succeeded. */
  function Verify(f: Facts): seq<L.Reported> { Signals(f.scope, ReportOf(f).state, HealthOf(f)) }

  lemma SignalIdsDistinct()
    ensures Distinct(SIGNALS)
  {
    assert SCOPE_SIGNAL[0] == 'n' && OBSERVATION_SIGNAL[0] == 'o' && INGESTION_SIGNAL[0] == 'i';
    assert SENSOR_SIGNAL[0] == 's' && SENSOR_SIGNAL[1] == 'e' && STORAGE_SIGNAL[0] == 's' && STORAGE_SIGNAL[1] == 't';
  }

  lemma SignalsAreDeclared(report: seq<L.Reported>)
    requires L.Ids(report) == SIGNALS
    ensures |report| == 5 && Distinct(L.Ids(report)) && L.AllDeclared(SIGNALS, report)
  {
    SignalIdsDistinct();
    forall i | 0 <= i < |report| ensures report[i].id in SIGNALS {
      assert report[i].id == L.Ids(report)[i] == SIGNALS[i];
    }
  }

  lemma ObservedSignal(report: seq<L.Reported>, i: nat)
    requires L.Ids(report) == SIGNALS && i < 5
    ensures |report| == 5 && L.Observed(report, SIGNALS[i]) == report[i].status
  {
    SignalsAreDeclared(report);
    assert L.Ids(report)[i] == report[i].id;
    L.ObservedIsReported(report, i);
  }

  /** The verdict over the five declared signals is as bad as the worst of them. */
  lemma VerdictIsWorst(report: seq<L.Reported>)
    requires L.Ids(report) == SIGNALS
    ensures |report| == 5
    ensures var v := L.Evaluate(SIGNALS, report);
            && v.Some? && v.value != P.Verifying
            && (forall i :: 0 <= i < 5 ==> L.Severity(report[i].status) <= L.VerdictSeverity(v.value))
            && (|| L.VerdictSeverity(v.value) == 0
                || exists i :: 0 <= i < 5 && L.Severity(report[i].status) == L.VerdictSeverity(v.value))
  {
    SignalsAreDeclared(report);
    L.WorstIsMaximum(SIGNALS, report);
    forall i | 0 <= i < 5 ensures L.Severity(report[i].status) <= L.Worst(SIGNALS, report) {
      ObservedSignal(report, i);
      assert SIGNALS[i] in SIGNALS;
    }
    if L.Worst(SIGNALS, report) != 0 {
      var id :| id in SIGNALS && L.Severity(L.Observed(report, id)) == L.Worst(SIGNALS, report);
      var i :| 0 <= i < 5 && SIGNALS[i] == id;
      ObservedSignal(report, i);
    }
  }

  lemma AllFreshExactly(scope: ScopeFact, r: Report, h: Health)
    ensures (forall i :: 0 <= i < 5 ==> Signals(scope, r.state, h)[i].status == L.Fresh) <==>
            scope == Found(true) && EffectiveCoverage(r, h).state == C.ActiveLimited
  {
    var s := Signals(scope, r.state, h);
    assert (forall i :: 0 <= i < 5 ==> s[i].status == L.Fresh) <==>
           s[0].status == L.Fresh && s[1].status == L.Fresh && s[2].status == L.Fresh && s[3].status == L.Fresh
               && s[4].status == L.Fresh;
  }

  /** Device Watch is verified exactly when its scope is current and its effective
      coverage is active. */
  lemma VerifiedExactlyWhenActive(f: Facts)
    ensures L.Evaluate(SIGNALS, Verify(f)) == Some(P.Verified) <==>
            f.scope == Found(true) && EffectiveCoverage(ReportOf(f), HealthOf(f)).state == C.ActiveLimited
  {
    var r, h := ReportOf(f), HealthOf(f);
    VerifiedWhenActive(f.scope, r, h);
  }

  lemma VerifiedWhenActive(scope: ScopeFact, r: Report, h: Health)
    ensures L.Evaluate(SIGNALS, Signals(scope, r.state, h)) == Some(P.Verified) <==>
            scope == Found(true) && EffectiveCoverage(r, h).state == C.ActiveLimited
  {
    var s := Signals(scope, r.state, h);
    VerdictIsWorst(s);
    AllFreshExactly(scope, r, h);
  }

  function CoverageSeverity(s: C.State): nat {
    if s == C.ActiveLimited then 0 else if s == C.Unverified then 1 else if s == C.Stale then 2 else 3
  }

  lemma ReportStates(say: Say, scope: string, sample: Option<Sample>, now: int)
    ensures CurrentReport(say, scope, sample, now).state in {C.Unverified, C.ActiveLimited, C.Degraded, C.Stale}
  {
  }

  lemma EffectiveIsSomeSignal(r: Report, h: Health, current: bool)
    requires r.state in {C.Unverified, C.ActiveLimited, C.Degraded, C.Stale}
    ensures exists i :: 0 <= i < 5
                        && CoverageSeverity(EffectiveCoverage(r, h).state) <= L.Severity(Signals(Found(current),
                                                                                                 r.state, h)[i].status)
  {
    var s := Signals(Found(current), r.state, h);
    var i := if h.sensor.state != OpCurrent then 2 else if h.pipeline.state != OpCurrent then 3
        else if h.database.state != OpCurrent then 4 else 1;
    assert CoverageSeverity(EffectiveCoverage(r, h).state) <= L.Severity(s[i].status);
  }

  /** The coverage shown to the user never looks worse than the verdict, for a scope
      that is stored. */
  lemma CoverageNeverWorseThanVerdict(f: Facts)
    requires f.scope.Found?
    ensures var v := L.Evaluate(SIGNALS, Verify(f));
            v.Some? && CoverageSeverity(EffectiveCoverage(ReportOf(f), HealthOf(f)).state) <= L.VerdictSeverity(v.value)
  {
    ReportStates(f.wording.step, f.scopeId, f.sample, f.now);
    NeverWorse(f.scope.current, ReportOf(f), HealthOf(f));
  }

  lemma NeverWorse(current: bool, r: Report, h: Health)
    requires r.state in {C.Unverified, C.ActiveLimited, C.Degraded, C.Stale}
    ensures var v := L.Evaluate(SIGNALS, Signals(Found(current), r.state, h));
            v.Some? && CoverageSeverity(EffectiveCoverage(r, h).state) <= L.VerdictSeverity(v.value)
  {
    EffectiveIsSomeSignal(r, h, current);
    VerdictIsWorst(Signals(Found(current), r.state, h));
  }

  // ----- What active coverage rests on

  predicate Dated(at: int, now: int) { now - FRESHNESS <= at <= now + FUTURE_TOLERANCE }

  predicate SensorWorks(f: Facts) {
    && f.runtime.Some? && f.runtime.value.running && f.runtime.value.errorClass == ""
    && f.runtime.value.lastAttemptAt != 0 && f.runtime.value.lastSuccessfulAt != 0
       && Dated(f.runtime.value.lastSuccessfulAt, f.now)
  }

  predicate StoresWork(f: Facts) {
    && f.ingestion.IngestionCurrent? && f.storage.Some? && f.storage.value.StorageCurrent?
    && !(f.storage.value.filesystemSupported && f.storage.value.filesystemUnavailable)
  }

  predicate EvidenceFresh(f: Facts) {
    && f.sample.Some? && Usable(f.sample.value) && Dated(f.sample.value.endedAt, f.now)
    && f.sample.value.evidence.value.sources[0].available && f.sample.value.evidence.value.sources[1].available
  }

  lemma BothSourcesCurrent(say: Say, sources: seq<EvidenceSource>)
    requires |sources| == 2 && (sources[0].sourceMethod == ARP || sources[0].sourceMethod == NDP)
             && (sources[1].sourceMethod == ARP || sources[1].sourceMethod == NDP)
    requires sources[0].sourceMethod != sources[1].sourceMethod
    ensures !AnyIn(CurrentSources(say, sources), {Gone, Permission}) <==> sources[0].available && sources[1].available
  {
    assert sources[..1] == [sources[0]] && sources[..1][..0] == [];
    var other := if sources[1].sourceMethod == ARP then NDP else ARP;
    assert SourceFor(sources, sources[1].sourceMethod) == sources[1];
    assert SourceFor(sources, other) == SourceFor([sources[0]], other) == sources[0];
    var details := CurrentSources(say, sources);
    assert AnyIn(details, {Gone, Permission}) <==>
             details[0].state in {Gone, Permission} || details[1].state in {Gone, Permission};
  }

  lemma ReportActiveExactly(f: Facts)
    ensures ReportOf(f).state == C.ActiveLimited <==> EvidenceFresh(f)
  {
    if f.sample.Some?
        && Usable(f.sample.value) { BothSourcesCurrent(f.wording.step, f.sample.value.evidence.value.sources); }
  }

  lemma SensorCurrentExactly(f: Facts)
    ensures HealthOf(f).sensor.state == OpCurrent <==> SensorWorks(f)
    ensures HealthOf(f).pipeline.state == OpCurrent && HealthOf(f).database.state == OpCurrent <==> StoresWork(f)
  {
  }

  lemma EffectiveActiveExactly(r: Report, h: Health)
    ensures EffectiveCoverage(r, h).state == C.ActiveLimited <==>
            h.sensor.state == OpCurrent && h.pipeline.state == OpCurrent && h.database.state == OpCurrent
                && r.state == C.ActiveLimited
  {
  }

  /** Coverage is active exactly when the runtime runs without error and succeeded in
      the last three minutes, ingestion and storage are current, and a usable sample of
      the last three minutes saw both neighbour tables. */
  lemma ActiveExactly(f: Facts)
    ensures EffectiveCoverage(ReportOf(f), HealthOf(f)).state == C.ActiveLimited <==>
              SensorWorks(f) && StoresWork(f) && EvidenceFresh(f)
  {
    ReportActiveExactly(f);
    SensorCurrentExactly(f);
    EffectiveActiveExactly(ReportOf(f), HealthOf(f));
  }
}
