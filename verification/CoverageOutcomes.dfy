/** What the coverage report, the effective coverage, the verdict and the contract say,
    each as a condition on the stored facts: the sample, the runtime, the ingestion queue,
    the database and the clock. */
module CoverageOutcomes {
  import opened Ordering
  import P = Capability
  import L = Lifecycle
  import C = Coverage
  import opened DeviceWatchCoverage
  import T = CoverageContract

  // ----- The sample

  /** A usable sample from too far ahead, from too long ago, or in time. */
  predicate Ahead(s: Sample, now: int) { Usable(s) && s.endedAt > now + FUTURE_TOLERANCE }
  predicate Behind(s: Sample, now: int) { Usable(s) && s.endedAt < now - FRESHNESS }
  predicate InTime(s: Sample, now: int) { Usable(s) && Dated(s.endedAt, now) }

  predicate Available(s: Sample, i: nat)
    requires Usable(s) && i < 2
  { s.evidence.value.sources[i].available }

  predicate NeedsPermission(s: Sample)
    requires Usable(s)
  { s.evidence.value.sources[0].permissionRequired || s.evidence.value.sources[1].permissionRequired }

  lemma ReasonsDiffer()
    ensures |"no-evidence"| == 11 && |"invalid-evidence"| == 16 && |"clock-skew"| == 10 && |"fresh-limited"| == 13
    ensures |"source-unavailable"| == 18 && |"stale-evidence"| == 14 && |"source-partial"| == 14
    ensures "stale-evidence" != "source-partial"
  {
    assert "stale-evidence"[1] != "source-partial"[1];
  }

  /** Which evidence source a detail of the report is about. */
  function SlotOf(e: EvidenceSource): nat { if e.sourceMethod == ARP then 0 else 1 }

  lemma SlotsOf(say: Say, sources: seq<EvidenceSource>)
    requires |sources| == 2 && ValidEvidenceSource(2, sources[0].(permissionRequired := false))
             && ValidEvidenceSource(2, sources[1].(permissionRequired := false))
             && sources[0].sourceMethod != sources[1].sourceMethod
    ensures forall i :: 0 <= i < 2 ==>
              CurrentSources(say, sources)[SlotOf(sources[i])] ==
              DetailOf(say, sources[i].sourceMethod, if SlotOf(sources[i]) == 0 then "ipv4" else "ipv6", sources[i])
  {
    assert sources[..1] == [sources[0]] && sources[..1][..0] == [];
    assert SourceFor(sources, sources[1].sourceMethod) == sources[1];
    assert SourceFor(sources, sources[0].sourceMethod) == SourceFor([sources[0]],
                                                                    sources[0].sourceMethod) == sources[0];
  }

  /** The state of one source as a flag pair, and once the sample is misdated. */
  function StateFor(e: EvidenceSource, ahead: bool, behind: bool): SourceHealth {
    if ahead then Unknown else if behind then OutOfDate
    else if e.available then Current else if e.permissionRequired then Permission else Gone
  }

  lemma KnownSources(say: Say, s: Sample)
    requires Usable(s)
    ensures var e := s.evidence.value.sources;
            var d := CurrentSources(say, e);
            && |d| == 2 && d[0].id == ARP && d[0].family == "ipv4" && d[1].id == NDP && d[1].family == "ipv6"
            && (forall i :: 0 <= i < 2 ==>
                  var x := d[SlotOf(e[i])];
                  x.observed && x.available == e[i].available && x.state == StateFor(e[i], false, false))
            && (AnyIn(d, {Gone, Permission}) <==> !Available(s, 0) || !Available(s, 1))
            && (AnyIn(d, {Permission}) <==> NeedsPermission(s))
  {
    var e := s.evidence.value.sources;
    var d := CurrentSources(say, e);
    SlotsOf(say, e);
    BothSourcesCurrent(say, e);
    assert SlotOf(e[0]) + SlotOf(e[1]) == 1;
    assert AnyIn(d, {Permission}) <==> d[0].state == Permission || d[1].state == Permission;
  }

  lemma StatusSays(s: Sample)
    requires Usable(s)
    ensures s.status == "partial" <==> Available(s, 0) || Available(s, 1)
    ensures s.status == "unavailable" <==> !Available(s, 0) && !Available(s, 1)
  {
    assert |"partial"| != |"unavailable"|;
  }

  /** What the whole report says of a usable sample in time. */
  lemma InTimeExactly(say: Say, scope: string, s: Sample, now: int)
    requires InTime(s, now)
    ensures var r := CurrentReport(say, scope, Some(s), now);
            && (r.reason == "fresh-limited" <==> Available(s, 0) && Available(s, 1))
            && (r.reason == "source-unavailable" <==> !Available(s, 0) && !Available(s, 1))
            && (r.reason == "source-partial" <==> Available(s, 0) != Available(s, 1))
            && r.state == (if Available(s, 0) && Available(s, 1) then C.ActiveLimited else C.Degraded)
            && r.nextStep == say(if Available(s, 0) && Available(s, 1) then "use-traffic-watch"
                                 else if NeedsPermission(s) then "review-permissions"
                                 else if Available(s, 0) != Available(s, 1) then "restore-source" else "check-access")
  {
    KnownSources(say, s);
    StatusSays(s);
    ReasonsDiffer();
  }

  /** Every reason of the report, exactly. */
  lemma ReportExactly(say: Say, scope: string, sample: Option<Sample>, now: int)
    ensures var reason := CurrentReport(say, scope, sample, now).reason;
            && (reason == "no-evidence" <==> sample.None?)
            && (reason == "invalid-evidence" <==> sample.Some? && !Usable(sample.value))
            && (reason == "clock-skew" <==> sample.Some? && Ahead(sample.value, now))
            && (reason == "stale-evidence" <==> sample.Some? && Behind(sample.value, now))
            && (reason == "fresh-limited" <==>
                sample.Some? && InTime(sample.value, now) && Available(sample.value, 0) && Available(sample.value, 1))
            && (reason == "source-partial" <==>
                sample.Some? && InTime(sample.value, now) && Available(sample.value, 0) != Available(sample.value, 1))
            && (reason == "source-unavailable" <==>
                sample.Some? && InTime(sample.value, now) && !Available(sample.value, 0) && !Available(sample.value, 1))
  {
    ReasonsDiffer();
    if sample.Some? && InTime(sample.value, now) { InTimeExactly(say, scope, sample.value, now); }
  }

  /** One ARP and one NDP source. */
  predicate OneOfEach(sources: seq<EvidenceSource>) {
    && |sources| == 2
    && ((sources[0].sourceMethod == ARP && sources[1].sourceMethod == NDP)
        || (sources[0].sourceMethod == NDP && sources[1].sourceMethod == ARP))
  }

  /** What makes a sample unusable: evidence that does not decode or is of another schema,
      counters out of range or that do not add up, a claim to see the whole network, no
      stated limitation, not one source of each kind, a permission asked of an available
      source, or a status that does not fit the sources. */
  predicate Defective(s: Sample) {
    || s.evidence.None?
    || (var e := s.evidence.value;
        || e.schema < 1 || e.schema > 2 || s.schema != e.schema || !ValidInterfaceName(e.interfaceName)
        || e.inserted + e.deduplicated != e.neighbors || e.inserted < 0 || e.deduplicated < 0 || e.neighbors > 4096
        || e.wholeNetworkVisible || |e.limitations| == 0 || |e.limitations| > 8
        || (exists t :: t in e.limitations && !ValidLimitation(t))
        || !OneOfEach(e.sources)
        || (exists x :: x in e.sources && x.permissionRequired && (e.schema == 1 || x.available))
        || (s.status != "partial" && s.status != "unavailable")
        || ((s.status == "partial") != exists x :: x in e.sources && x.available))
  }

  /** Exactly the defective samples are unusable, and so reported as invalid evidence. */
  lemma UsableExactly(s: Sample)
    ensures Usable(s) <==> !Defective(s)
  {
    assert |"partial"| != |"unavailable"| && ARP[0] != NDP[0];
    if s.evidence.Some? {
      var e := s.evidence.value;
      LimitationsExactly(e.limitations);
      if |e.sources| == 2 { PairExactly(e); }
      AvailableExactly(e.sources);
    }
  }

  lemma LimitationsExactly(s: seq<string>)
    ensures (forall i :: 0 <= i < |s| ==> ValidLimitation(s[i])) <==> forall t :: t in s ==> ValidLimitation(t)
  {
  }

  lemma AvailableExactly(s: seq<EvidenceSource>)
    ensures (exists i :: 0 <= i < |s| && s[i].available) <==> exists x :: x in s && x.available
  {
    if i :| 0 <= i < |s| && s[i].available { assert s[i] in s; }
  }

  lemma PairExactly(e: Evidence)
    requires |e.sources| == 2
    ensures (&& ValidEvidenceSource(e.schema, e.sources[0]) && ValidEvidenceSource(e.schema, e.sources[1])
             && e.sources[0].sourceMethod != e.sources[1].sourceMethod) <==>
            && OneOfEach(e.sources)
            && !(exists x :: x in e.sources && x.permissionRequired && (e.schema == 1 || x.available))
  {
    assert ARP[0] != NDP[0];
    assert e.sources[0] in e.sources && e.sources[1] in e.sources;
  }

  /** Every state of the report, exactly, and the guidance that goes with it. */
  lemma ReportStateExactly(say: Say, scope: string, sample: Option<Sample>, now: int)
    ensures var r := CurrentReport(say, scope, sample, now);
            && (r.state == C.Unverified <==> sample.None?)
            && (r.state == C.Stale <==> sample.Some? && Behind(sample.value, now))
            && (r.state == C.ActiveLimited <==>
                sample.Some? && InTime(sample.value, now) && Available(sample.value, 0) && Available(sample.value, 1))
            && (r.state == C.Degraded <==>
                sample.Some?
                && (|| !Usable(sample.value) || Ahead(sample.value, now)
                    || (InTime(sample.value, now) && !(Available(sample.value, 0) && Available(sample.value, 1)))))
            && (sample.None? ==> r.nextStep == say("wait-first-collection"))
            && (sample.Some? && !Usable(sample.value) ==> r.nextStep == say("restart"))
            && (sample.Some? && Ahead(sample.value, now) ==> r.nextStep == say("correct-clock"))
            && (sample.Some? && Behind(sample.value, now) ==> r.nextStep == say("wake"))
  {
    if sample.Some? && InTime(sample.value, now) { InTimeExactly(say, scope, sample.value, now); }
  }

  /** Each neighbour table in the report: missing without a sample, unknown with an
      unusable one or one from ahead, out of date after three minutes, and otherwise as
      its own flags say. */
  lemma SourcesExactly(say: Say, scope: string, sample: Option<Sample>, now: int)
    ensures var d := CurrentReport(say, scope, sample, now).sources;
            && |d| == 2 && d[0].id == ARP && d[0].family == "ipv4" && d[1].id == NDP && d[1].family == "ipv6"
            && (sample.None? ==> forall i :: 0 <= i < 2 ==> d[i].state == Missing && !d[i].observed)
            && (sample.Some? && !Usable(sample.value) ==>
                  forall i :: 0 <= i < 2 ==> d[i].state == Unknown && !d[i].observed)
            && (sample.Some? && Usable(sample.value) ==>
                  var s := sample.value;
                  var e := s.evidence.value.sources;
                  forall i :: 0 <= i < 2 ==>
                    var x := d[SlotOf(e[i])];
                    && x.observed && x.available == e[i].available
                    && x.state == StateFor(e[i], Ahead(s, now), Behind(s, now)))
  {
    if sample.Some? && Usable(sample.value) { UsableSourcesExactly(say, scope, sample.value, now); }
  }

  lemma UsableSourcesExactly(say: Say, scope: string, s: Sample, now: int)
    requires Usable(s)
    ensures var d, e := CurrentReport(say, scope, Some(s), now).sources, s.evidence.value.sources;
            && |d| == 2 && d[0].id == ARP && d[0].family == "ipv4" && d[1].id == NDP && d[1].family == "ipv6"
            && forall i :: 0 <= i < 2 ==>
                 var x := d[SlotOf(e[i])];
                 && x.observed && x.available == e[i].available
                 && x.state == StateFor(e[i], Ahead(s, now), Behind(s, now))
  {
    KnownSources(say, s);
  }

  // ----- The health of the three parts

  predicate Runs(f: Facts) { f.runtime.Some? && f.runtime.value.running }
  predicate RunsWell(f: Facts) { Runs(f) && f.runtime.value.errorClass == "" }
  predicate HasSucceeded(f: Facts)
    requires RunsWell(f)
  { f.runtime.value.lastAttemptAt != 0 && f.runtime.value.lastSuccessfulAt != 0 }

  predicate SensorStopped(f: Facts) { f.runtime.Some? && !f.runtime.value.running }
  predicate SensorStarting(f: Facts) { RunsWell(f) && !HasSucceeded(f) }

  predicate SensorStale(f: Facts) {
    RunsWell(f) && HasSucceeded(f) && f.runtime.value.lastSuccessfulAt < f.now - FRESHNESS
  }

  predicate SensorFails(f: Facts) {
    || f.runtime.None? || (Runs(f) && f.runtime.value.errorClass != "")
    || (RunsWell(f) && HasSucceeded(f) && f.runtime.value.lastSuccessfulAt > f.now + FUTURE_TOLERANCE)
  }

  lemma SensorExactly(f: Facts)
    ensures var s := HealthOf(f).sensor.state;
            && (s == OpDisconnected <==> SensorStopped(f)) && (s == OpStarting <==> SensorStarting(f))
            && (s == OpStale <==> SensorStale(f))
            && (s == OpDegraded || s == OpUnavailable <==> SensorFails(f)) && (s == OpCurrent <==> SensorWorks(f))
            && (s == OpUnavailable <==> f.runtime.None?)
  {
  }

  /** The guidance each state of the sensor comes with. */
  lemma SensorGuidance(f: Facts)
    ensures var step, say := HealthOf(f).sensor.nextStep, f.wording.step;
            && (f.runtime.None? ==> step == say("unsupported-platform"))
            && (SensorStopped(f) ==> step == say("restart-device-watch"))
            && (Runs(f) && f.runtime.value.errorClass != "" ==> step == say(f.runtime.value.errorClass))
            && (SensorStarting(f) ==> step == say("wait-first-collection")) && (SensorStale(f) ==> step == say("wake"))
            && (SensorFails(f) && RunsWell(f) ==> step == say("correct-clock")) && (SensorWorks(f) ==> step == "")
  {
  }

  predicate DatabaseWorks(f: Facts) {
    && f.storage.Some? && f.storage.value.StorageCurrent?
    && !(f.storage.value.filesystemSupported && f.storage.value.filesystemUnavailable)
  }

  lemma PipelineExactly(say: Say, i: Ingestion)
    ensures var h := PipelineHealthOf(say, i);
            && (h.state == OpCurrent <==> i.IngestionCurrent?) && (h.state == OpDisconnected <==> i == Closed)
            && (h.reason == "sqlite-full" <==> i == StorageFull)
  {
    assert |"sqlite-full"| == 11 && |"queue-pressure"| == 14 && |"latency"| == 7 && |"backpressure"| == 12;
    assert |"write-failed"| == 12 && |"closing"| == 7 && |"closed"| == 6 && |"unknown"| == 7;
  }

  lemma PartsExactly(f: Facts)
    ensures var h := HealthOf(f);
            && (h.pipeline.state == OpCurrent <==> f.ingestion.IngestionCurrent?)
            && (h.pipeline.state == OpDisconnected <==> f.ingestion == Closed)
            && (h.pipeline.reason == "sqlite-full" <==> f.ingestion == StorageFull)
            && (h.database.state == OpCurrent <==> DatabaseWorks(f))
            && (h.database.state == OpUnavailable <==> f.storage.None?)
  {
    PipelineExactly(f.wording.step, f.ingestion);
  }

  /** The reason each part gives. */
  lemma PartReasonsExactly(f: Facts)
    ensures var p, d := HealthOf(f).pipeline.reason, HealthOf(f).database.reason;
            && (f.ingestion == IngestionCurrent(false) ==> p == "")
            && (f.ingestion == IngestionCurrent(true) ==> p == "queue-pressure")
            && (f.ingestion == Lagging ==> p == "latency") && (f.ingestion == Backpressure ==> p == "backpressure")
            && (f.ingestion == StorageFull ==> p == "sqlite-full")
               && (f.ingestion == WriteFailed ==> p == "write-failed")
            && (f.ingestion == Closing ==> p == "closing") && (f.ingestion == Closed ==> p == "closed")
            && (f.storage.None? ==> d == "storage-unavailable") && (DatabaseWorks(f) ==> d == "")
            && (f.storage.Some? && f.storage.value.StorageCurrent? && !DatabaseWorks(f) ==> d == "filesystem-unknown")
            && (f.storage == Some(QuotaPressure) ==> d == "quota-pressure")
            && (f.storage == Some(AtQuota) ==> d == "quota-reached")
            && (f.storage == Some(FilesystemPressure) ==> d == "filesystem-pressure")
            && (f.storage == Some(FilesystemFull) ==> d == "filesystem-full")
  {
  }

  // ----- Effective coverage

  /** Every state of the effective coverage, exactly. The sensor comes first, then the
      ingestion queue and the database, then what the sample says. */
  lemma EffectiveStateExactly(f: Facts)
    ensures var state := EffectiveCoverage(ReportOf(f), HealthOf(f)).state;
            && (state == C.Disconnected <==> SensorStopped(f))
            && (state == C.Stale <==>
                || SensorStale(f)
                || (SensorWorks(f) && StoresWork(f) && f.sample.Some? && Behind(f.sample.value, f.now)))
            && (state == C.Unverified <==>
                SensorStarting(f) || (SensorWorks(f) && StoresWork(f) && f.sample.None?))
            && (state == C.ActiveLimited <==> SensorWorks(f) && StoresWork(f) && EvidenceFresh(f))
            && (state == C.Degraded <==>
                || SensorFails(f) || (SensorWorks(f) && !StoresWork(f))
                || (SensorWorks(f) && StoresWork(f) && ReportOf(f).state == C.Degraded))
  {
    SensorExactly(f);
    PartsExactly(f);
    ReportStateExactly(f.wording.step, f.scopeId, f.sample, f.now);
  }

  /** The reason given, in the same order: a full database explains a refused write. */
  lemma EffectiveReasonExactly(f: Facts)
    ensures var e := EffectiveCoverage(ReportOf(f), HealthOf(f));
            var h := HealthOf(f);
            && (SensorStopped(f) ==> e.reason == "sensor-disconnected" && e.nextStep == h.sensor.nextStep)
            && (SensorStale(f) ==> e.reason == "sensor-stale" && e.nextStep == h.sensor.nextStep)
            && (SensorFails(f) ==> e.reason == "sensor-degraded" && e.nextStep == h.sensor.nextStep)
            && (SensorStarting(f) ==> e.reason == "sensor-starting" && e.nextStep == h.sensor.nextStep)
            && (SensorWorks(f) && !f.ingestion.IngestionCurrent? && (f.ingestion != StorageFull || DatabaseWorks(f)) ==>
                  e.reason == "ingestion-" + h.pipeline.reason && e.nextStep == h.pipeline.nextStep)
            && (SensorWorks(f) && !DatabaseWorks(f) && (f.ingestion.IngestionCurrent? || f.ingestion == StorageFull) ==>
                  e.reason == "storage-" + h.database.reason && e.nextStep == h.database.nextStep)
            && (SensorWorks(f) && StoresWork(f) ==>
                  e.reason == ReportOf(f).reason && e.nextStep == ReportOf(f).nextStep)
  {
    SensorExactly(f);
    PartsExactly(f);
  }

  // ----- The verdict

  /** The sample cannot be used, comes from ahead, or lacks a neighbour table. */
  predicate Broken(f: Facts) {
    && f.sample.Some?
    && (|| !Usable(f.sample.value) || Ahead(f.sample.value, f.now)
        || (InTime(f.sample.value, f.now) && !(Available(f.sample.value, 0) && Available(f.sample.value, 1))))
  }

  /** Something the verdict rests on has failed. */
  predicate Failing(f: Facts) {
    SensorStopped(f) || SensorFails(f) || !StoresWork(f) || (f.scope.Found? && Broken(f))
  }

  /** Something is out of date. */
  predicate Aging(f: Facts) {
    SensorStale(f) || (f.scope.Found? && f.sample.Some? && Behind(f.sample.value, f.now))
  }

  /** Something has not been shown yet. */
  predicate Waiting(f: Facts) { f.scope != Found(true) || SensorStarting(f) || f.sample.None? }

  lemma SignalsAre(scope: ScopeFact, state: C.State, h: Health)
    ensures var s := Signals(scope, state, h);
            && L.Ids(s) == SIGNALS && |s| == 5 && s[0].status == (if scope == Found(true) then L.Fresh else L.Missing)
            && s[1].status == (if scope.Found? then ObservationSignal(state) else L.Missing)
            && s[2].status == SensorSignal(h.sensor.state) && s[3].status == PartSignal(h.pipeline.state)
            && s[4].status == PartSignal(h.database.state)
  {
  }

  /** Each of the five signals, from the facts. */
  lemma EachSignalExactly(f: Facts)
    ensures var s := Verify(f);
            && L.Ids(s) == SIGNALS && |s| == 5
            && s[0].status == (if f.scope == Found(true) then L.Fresh else L.Missing)
            && s[1].status == (if f.scope.Found? then ObservationSignal(ReportOf(f).state) else L.Missing)
            && s[2].status == (if SensorWorks(f) then L.Fresh else if SensorStarting(f) then L.Missing
                               else if SensorStale(f) then L.StaleSignal else L.FailedSignal)
            && s[3].status == (if f.ingestion.IngestionCurrent? then L.Fresh else L.FailedSignal)
            && s[4].status == (if DatabaseWorks(f) then L.Fresh else L.FailedSignal)
  {
    SignalsAre(f.scope, ReportOf(f).state, HealthOf(f));
    SensorExactly(f);
    PartsExactly(f);
  }

  /** What the sample says, as a signal. */
  lemma ObservationExactly(f: Facts)
    ensures var o := ObservationSignal(ReportOf(f).state);
            && (o == L.Missing <==> f.sample.None?)
            && (o == L.StaleSignal <==> f.sample.Some? && Behind(f.sample.value, f.now))
            && (o == L.FailedSignal <==> Broken(f))
  {
    ReportStateExactly(f.wording.step, f.scopeId, f.sample, f.now);
  }

  lemma SignalsExactly(f: Facts)
    ensures var s := Verify(f);
            && L.Ids(s) == SIGNALS && |s| == 5
            && ((exists i :: 0 <= i < 5 && s[i].status == L.FailedSignal) <==> Failing(f))
            && ((exists i :: 0 <= i < 5 && s[i].status == L.StaleSignal) <==> Aging(f))
            && ((exists i :: 0 <= i < 5 && s[i].status == L.Missing) <==> Waiting(f))
  {
    var s := Verify(f);
    EachSignalExactly(f);
    ObservationExactly(f);
    SomeOfFive(s, L.FailedSignal);
    SomeOfFive(s, L.StaleSignal);
    SomeOfFive(s, L.Missing);
  }

  lemma SomeOfFive(s: seq<L.Reported>, status: L.Signal)
    requires |s| == 5
    ensures (exists i :: 0 <= i < 5 && s[i].status == status) <==>
            || s[0].status == status || s[1].status == status || s[2].status == status || s[3].status == status
            || s[4].status == status
  {
  }

  /** The verdict from the facts: degraded when something fails, else stale when
      something is out of date, else unverified while something is missing, else verified. */
  lemma VerdictExactly(f: Facts)
    ensures L.Evaluate(SIGNALS, Verify(f)) ==
            Some(if Failing(f) then P.Degraded else if Aging(f) then P.Stale else if Waiting(f) then P.Unverified
                 else P.Verified)
  {
    SignalsExactly(f);
    VerdictIsWorst(Verify(f));
    WorstOfFive(Verify(f), L.Evaluate(SIGNALS, Verify(f)).value);
  }

  lemma WorstOfFive(s: seq<L.Reported>, v: P.Verification)
    requires |s| == 5 && v != P.Verifying
    requires forall i :: 0 <= i < 5 ==> L.Severity(s[i].status) <= L.VerdictSeverity(v)
    requires L.VerdictSeverity(v) == 0 || exists i :: 0 <= i < 5 && L.Severity(s[i].status) == L.VerdictSeverity(v)
    ensures v == if exists i :: 0 <= i < 5 && s[i].status == L.FailedSignal then P.Degraded
                 else if exists i :: 0 <= i < 5 && s[i].status == L.StaleSignal then P.Stale
                 else if exists i :: 0 <= i < 5 && s[i].status == L.Missing then P.Unverified else P.Verified
  {
  }

  // ----- The contract

  /** A neighbour table that was available in a usable sample in time. */
  predicate TableCurrent(f: Facts, name: string) {
    f.sample.Some? && InTime(f.sample.value, f.now)
    && exists i :: 0 <= i < 2 && f.sample.value.evidence.value.sources[i].sourceMethod == name
                   && Available(f.sample.value, i)
  }

  lemma TablesExactly(f: Facts)
    ensures var d := ReportOf(f).sources;
            |d| == 2 && (d[0].state == Current <==> TableCurrent(f, ARP))
                && (d[1].state == Current <==> TableCurrent(f, NDP))
  {
    SourcesExactly(f.wording.step, f.scopeId, f.sample, f.now);
    assert ARP != NDP by { assert ARP[0] != NDP[0]; }
    if f.sample.Some? && Usable(f.sample.value) {
      var e := f.sample.value.evidence.value.sources;
      assert SlotOf(e[0]) + SlotOf(e[1]) == 1;
    }
  }

  /** What the contract claims as verified: each address family whose neighbour table is
      current, and the network and interface when either is; the rest is expected. */
  lemma ContractScopeExactly(f: Facts)
    ensures var r := ReportOf(f);
            var s := T.ContractOf(f.wording, r, HealthOf(f)).points[0].scope;
            && (T.IPV4 in s.verified <==> TableCurrent(f, ARP)) && (T.IPV6 in s.verified <==> TableCurrent(f, NDP))
            && (T.Network(r) in s.verified <==> TableCurrent(f, ARP) || TableCurrent(f, NDP))
            && (forall d :: d in s.configured <==> d in s.verified || d in s.expectedUnverified)
            && (forall d :: d in s.verified ==> d !in s.expectedUnverified)
  {
    var r := ReportOf(f);
    T.CurrentReportOk(f.wording.step, f.scopeId, f.sample, f.now);
    T.ScopeShape(r);
    T.ScopeIsPartitioned(r);
    TablesExactly(f);
    assert T.IPV4 != T.IPV6 by { assert "ipv4"[3] != "ipv6"[3]; }
  }

  /** The rest of the contract, for any report: state, reason and guidance are the
      effective ones and each source is passed on. */
  lemma ContractPasses(w: C.Wording, r: Report, h: Health)
    ensures var e, c := EffectiveCoverage(r, h), T.ContractOf(w, r, h);
            && c.state == e.state && c.reason == e.reason && c.nextStep == e.nextStep && c.configured && |c.points| == 1
            && var p := c.points[0];
               && p.state == e.state && p.reason == e.reason && p.nextStep == e.nextStep && p.sensor == r.sensor
               && |p.sources| == |r.sources| && forall i :: 0 <= i < |r.sources| ==>
                    PassedOn(r.sources[i], p.sources[i])
  {
  }

  /** The window of the contract is the sample's own instant. */
  lemma ContractWindowExactly(f: Facts)
    ensures var w := T.ContractOf(f.wording, ReportOf(f), HealthOf(f)).points[0].window;
            && w.hasEvidence == f.sample.Some?
            && (f.sample.Some? ==>
                  && w.startedAt == w.endedAt == f.sample.value.endedAt
                  && w.freshUntil == f.sample.value.endedAt + FRESHNESS)
  {
    T.ReportKeepsIdentity(f.wording.step, f.scopeId, f.sample, f.now);
  }

  predicate PassedOn(d: Detail, s: C.Source) {
    && s.id == d.id && s.expected && s.observed == d.observed && s.nextStep == d.nextStep
    && (s.state == C.SourceCurrent <==> d.state == Current) && (s.state == C.SourceStale <==> d.state == OutOfDate)
    && (s.state == C.SourceUnavailable <==> d.state == Gone)
       && (s.state == C.SourcePermission <==> d.state == Permission)
    && (s.state == C.ExpectedUnverified <==> d.state == Missing) && (s.state == C.SourceUnknown <==> d.state == Unknown)
  }
}
