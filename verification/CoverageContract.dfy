/** Model of internal/controller/devicewatch/coverage_contract.go: the shared report
    built from Device Watch's own coverage, and exactly when it validates. */
module CoverageContract {
  import opened Ordering
  import C = Coverage
  import D = DeviceWatchCoverage
  import opened CoverageTokens

  const COLLECTION_INTERVAL: int := 60 * D.SECOND

  // ----- Scope

  const IPV4 := C.Dimension(C.AddressFamily, "ipv4")
  const IPV6 := C.Dimension(C.AddressFamily, "ipv6")

  function Network(r: D.Report): C.Dimension { C.Dimension(C.Network, r.scope) }

  function Interfaces(r: D.Report): seq<C.Dimension> {
    if r.interfaceName == "" then [] else [C.Dimension(C.Interface, r.interfaceName)]
  }

  /** The address families whose source is, or is not, current. */
  function Families(sources: seq<D.Detail>, current: bool): seq<C.Dimension> {
    if |sources| == 0 then []
    else
      var n := |sources| - 1;
      var s := sources[n];
      Families(sources[..n], current) +
      (if (s.family == "ipv4" || s.family == "ipv6")
       && (s.state == D.Current) == current then [C.Dimension(C.AddressFamily, s.family)] else [])
  }

  function ScopeOf(r: D.Report): C.Scope {
    var local := [Network(r)] + Interfaces(r);
    var any := |Families(r.sources, true)| > 0;
    C.Scope([Network(r), IPV4, IPV6] + Interfaces(r),
            Families(r.sources, true) + (if any then local else []),
            Families(r.sources, false) + (if any then [] else local))
  }

  method SplitFamilies(sources: seq<D.Detail>) returns (verified: seq<C.Dimension>, expected: seq<C.Dimension>)
    ensures verified == Families(sources, true) && expected == Families(sources, false)
  {
    verified, expected := [], [];
    for i := 0 to |sources|
      invariant verified == Families(sources[..i], true) && expected == Families(sources[..i], false)
    {
      assert sources[..i + 1][..i] == sources[..i];
      var source := sources[i];
      if source.family == "ipv4" || source.family == "ipv6" {
        if source.state == D.Current {
          verified := verified + [C.Dimension(C.AddressFamily, source.family)];
        } else {
          expected := expected + [C.Dimension(C.AddressFamily, source.family)];
        }
      }
    }
    assert sources[..|sources|] == sources;
  }

  /** `deviceWatchCoverageScope`. */
  method CoverageScope(r: D.Report) returns (s: C.Scope)
    ensures s == ScopeOf(r)
  {
    var configured := [Network(r), IPV4, IPV6] + Interfaces(r);
    var verified, expected := SplitFamilies(r.sources);
    if |verified| > 0 {
      verified := verified + ([Network(r)] + Interfaces(r));
    } else {
      expected := expected + ([Network(r)] + Interfaces(r));
    }
    s := C.Scope(configured, verified, expected);
  }

  // ----- Sources, gaps and the whole report

  function SharedState(s: D.SourceHealth): C.SourceState {
    match s
    case Current => C.SourceCurrent
    case Gone => C.SourceUnavailable
    case Permission => C.SourcePermission
    case OutOfDate => C.SourceStale
    case Missing => C.ExpectedUnverified
    case Unknown => C.SourceUnknown
  }

  function SharedSource(s: D.Detail): C.Source {
    C.Source(s.id, "neighbor-cache", SharedState(s.state), true, s.observed, s.nextStep)
  }

  function SharedSources(sources: seq<D.Detail>): seq<C.Source> {
    seq(|sources|, i requires 0 <= i < |sources| => SharedSource(sources[i]))
  }

  function GapOf(w: C.Wording, id: string, kind: string, directions: seq<C.Direction>): C.Gap {
    C.Gap(id, kind, w.summary(id), w.detail(id), w.step(id), [], directions)
  }

  function Gaps(w: C.Wording): seq<C.Gap> {
    [GapOf(w, "host-neighbor-cache-only", "observation-point-limited", []),
     GapOf(w, "isolated-segments-not-observed", "scope-not-observed", []),
     GapOf(w, "no-traffic-monitoring", "direction-not-observed", [C.Ingress, C.Egress, C.EastWest])]
  }

  function WindowOf(r: D.Report): C.Window {
    if r.hasEvidence then C.Window(true, r.evidenceAt, r.evidenceAt, r.freshUntil) else C.Window(false, 0, 0, 0)
  }

  function PointOf(w: C.Wording, r: D.Report, e: D.Effective): C.Point {
    C.Point("device-watch.local-neighbor-cache", "host-neighbor-cache", r.sensor, e.state, e.reason, ScopeOf(r),
            SharedSources(r.sources),
            [], WindowOf(r), C.Cadence(C.Periodic, COLLECTION_INTERVAL, 0), Gaps(w), e.nextStep)
  }

  function ContractOf(w: C.Wording, r: D.Report, h: D.Health): C.Report {
    var e := D.EffectiveCoverage(r, h);
    C.Report("device-watch", true, e.state, e.reason, [PointOf(w, r, e)], e.nextStep)
  }

  /** `CoverageContract`: the report, or None when it does not validate. */
  method CoverageContract(w: C.Wording, r: D.Report, h: D.Health) returns (contract: Option<C.Report>)
    ensures contract == if C.ValidSinglePoint(ContractOf(w, r, h)) then Some(ContractOf(w, r, h)) else None
  {
    var e := D.EffectiveCoverage(r, h);
    var scope := CoverageScope(r);
    var sources: seq<C.Source> := [];
    for i := 0 to |r.sources|
      invariant |sources| == i && forall j :: 0 <= j < i ==> sources[j] == SharedSource(r.sources[j])
    {
      sources := sources + [SharedSource(r.sources[i])];
    }
    assert sources == SharedSources(r.sources);
    var point := C.Point("device-watch.local-neighbor-cache", "host-neighbor-cache", r.sensor, e.state, e.reason,
                         scope, sources,
                         [], WindowOf(r), C.Cadence(C.Periodic, COLLECTION_INTERVAL, 0), Gaps(w), e.nextStep);
    var report := C.Report("device-watch", true, e.state, e.reason, [point], e.nextStep);
    var valid := C.ValidateSinglePointReport(report);
    contract := if valid then Some(report) else None;
  }

  // ----- What a Device Watch report and its health always satisfy

  predicate DetailOk(d: D.Detail) {
    if d.state == D.Current then d.observed && d.nextStep == "" else C.ValidText(d.nextStep, C.MAX_NEXT_STEP)
  }

  predicate PairOk(sources: seq<D.Detail>) {
    && |sources| == 2 && DetailOk(sources[0]) && DetailOk(sources[1])
    && sources[0].id == D.ARP && sources[0].family == "ipv4" && sources[1].id == D.NDP && sources[1].family == "ipv6"
  }

  predicate SourcesOk(r: D.Report) {
    && PairOk(r.sources)
    && (!r.hasEvidence ==> forall i :: 0 <= i < 2 ==> r.sources[i].state != D.Current && !r.sources[i].observed)
  }

  predicate HeadOk(r: D.Report) {
    ReportReason(r.reason) && C.ValidText(r.nextStep, C.MAX_NEXT_STEP) && r.state != C.Unconfigured
  }

  predicate ReportOk(r: D.Report) {
    && SourcesOk(r) && HeadOk(r)
    && (r.interfaceName == "" || D.ValidInterfaceName(r.interfaceName))
    && (if r.hasEvidence then r.freshUntil == r.evidenceAt + D.FRESHNESS else r.sensor == "")
  }

  lemma CurrentReportOk(say: D.Say, scope: string, sample: Option<D.Sample>, now: int)
    ensures ReportOk(D.CurrentReport(say, scope, sample, now))
  {
    CurrentSourcesOk(say, scope, sample, now);
    CurrentHeadOk(say, scope, sample, now);
  }

  lemma CurrentSourcesOk(say: D.Say, scope: string, sample: Option<D.Sample>, now: int)
    ensures SourcesOk(D.CurrentReport(say, scope, sample, now))
  {
    assert PairOk(D.Both(say, D.Missing, "wait-for-collection")) && PairOk(D.Both(say, D.Unknown, "do-not-rely"));
    if sample.Some? && D.Usable(sample.value) { UsableSourcesOk(say, scope, sample.value, now); }
  }

  lemma UsableSourcesOk(say: D.Say, scope: string, s: D.Sample, now: int)
    requires D.Usable(s)
    ensures SourcesOk(D.CurrentReport(say, scope, Some(s), now))
  {
    var sources := D.CurrentSources(say, s.evidence.value.sources);
    CurrentPairOk(say, s.evidence.value.sources);
    MarkedPairOk(say, sources, D.Unknown, "correct-clock");
    MarkedPairOk(say, sources, D.OutOfDate, "wake");
  }

  lemma CurrentPairOk(say: D.Say, sources: seq<D.EvidenceSource>)
    ensures PairOk(D.CurrentSources(say, sources))
  {
  }

  lemma MarkedPairOk(say: D.Say, sources: seq<D.Detail>, state: D.SourceHealth, topic: string)
    requires PairOk(sources) && state != D.Current
    ensures PairOk(D.Marked(say, sources, state, topic))
  {
  }

  lemma CurrentHeadOk(say: D.Say, scope: string, sample: Option<D.Sample>, now: int)
    ensures HeadOk(D.CurrentReport(say, scope, sample, now))
  {
    if sample.Some? && D.Usable(sample.value) { UsableHeadOk(say, scope, sample.value, now); }
  }

  lemma UsableHeadOk(say: D.Say, scope: string, s: D.Sample, now: int)
    requires D.Usable(s)
    ensures HeadOk(D.CurrentReport(say, scope, Some(s), now))
  {
    var e := s.evidence.value;
    var known := D.WithEvidence(say, scope, s)
                   .(interfaceName := e.interfaceName, neighbors := e.neighbors,
                     sources := D.CurrentSources(say, e.sources));
    JudgedHeadOk(say, known, s.status);
    var r := D.CurrentReport(say, scope, Some(s), now);
    if D.Dated(s.endedAt, now) { assert r == D.Judged(say, known, s.status); }
    else { assert r.reason == "clock-skew" || r.reason == "stale-evidence"; }
  }

  lemma JudgedHeadOk(say: D.Say, r: D.Report, status: string)
    ensures HeadOk(D.Judged(say, r, status))
  {
  }

  predicate SensorOk(h: D.SensorHealth) { h.state != D.OpCurrent ==> C.ValidText(h.nextStep, C.MAX_NEXT_STEP) }

  predicate PipelineOk(h: D.PartHealth) {
    h.state != D.OpCurrent ==> PipelineReason(h.reason) && C.ValidText(h.nextStep, C.MAX_NEXT_STEP)
  }

  predicate DatabaseOk(h: D.PartHealth) {
    h.state != D.OpCurrent ==> DatabaseReason(h.reason) && C.ValidText(h.nextStep, C.MAX_NEXT_STEP)
  }

  predicate HealthOk(h: D.Health) { SensorOk(h.sensor) && PipelineOk(h.pipeline) && DatabaseOk(h.database) }

  lemma SensorIsOk(say: D.Say, runtime: Option<D.RuntimeState>, now: int)
    ensures SensorOk(D.SensorHealthOf(say, runtime, now))
  {
  }

  lemma PipelineIsOk(say: D.Say, h: D.Ingestion)
    ensures PipelineOk(D.PipelineHealthOf(say, h))
  {
  }

  lemma DatabaseIsOk(say: D.Say, h: Option<D.Storage>)
    ensures DatabaseOk(D.DatabaseHealthOf(say, h))
  {
  }

  lemma HealthOfOk(f: D.Facts)
    ensures HealthOk(D.HealthOf(f))
  {
    SensorIsOk(f.wording.step, f.runtime, f.now);
    PipelineIsOk(f.wording.step, f.ingestion);
    DatabaseIsOk(f.wording.step, f.storage);
  }

  /** The reason and the guidance shown are always present, whichever component they
      come from. */
  lemma EffectiveIsPresentable(r: D.Report, h: D.Health)
    requires ReportOk(r) && HealthOk(h)
    ensures var e := D.EffectiveCoverage(r, h);
            C.ValidToken(e.reason) && C.ValidText(e.nextStep, C.MAX_NEXT_STEP) && e.state != C.Unconfigured
  {
    if h.sensor.state != D.OpCurrent {
      SensorReasonIsToken(D.EffectiveCoverage(r, h).reason);
    } else {
      if h.pipeline.state != D.OpCurrent {
        PipelineReasonIsToken(h.pipeline.reason);
        PrefixedIsToken(h.pipeline.reason);
      }
      if h.database.state != D.OpCurrent {
        DatabaseReasonIsToken(h.database.reason);
        PrefixedIsToken(h.database.reason);
      }
      ReportReasonIsToken(r.reason);
    }
  }

  // ----- Scope

  lemma FamiliesOfTwo(a: D.Detail, b: D.Detail, current: bool)
    requires a.family == "ipv4" && b.family == "ipv6"
    ensures Families([a, b], current) == (if (a.state == D.Current) == current then [IPV4]
                                          else []) + (if (b.state == D.Current) == current then [IPV6] else [])
  {
    assert [a, b][..1] == [a] && [a][..0] == [];
    assert Families([a], current) == if (a.state == D.Current) == current then [IPV4] else [];
  }

  lemma SplitKeepsAll<T>(a: seq<T>, b: seq<T>, c: seq<T>, first: bool, second: bool, both: bool)
    ensures multiset((if first then a else []) + (if second then b else []) + (if both then c else [])) +
            multiset((if first then [] else a) + (if second then [] else b) + (if both then [] else c)) ==
            multiset(a) + multiset(b) + multiset(c)
  {
  }

  lemma ConfiguredIsDistinct(r: D.Report)
    ensures Distinct(ScopeOf(r).configured)
  {
    assert IPV4 != IPV6 by { assert "ipv4"[3] != "ipv6"[3]; }
  }

  /** The parts of a repetition-free whole are repetition-free and disjoint. */
  lemma PartsAreDistinct<T>(whole: seq<T>, a: seq<T>, b: seq<T>)
    requires multiset(a) + multiset(b) == multiset(whole) && Distinct(whole)
    ensures Distinct(a) && Distinct(b) && (forall x :: x in a ==> x !in b)
    ensures forall x :: x in whole <==> x in a || x in b
    ensures |a| + |b| == |whole|
  {
    DistinctIsMultiplicityOne(whole);
    DistinctIsMultiplicityOne(a);
    DistinctIsMultiplicityOne(b);
    forall x ensures multiset(a)[x] + multiset(b)[x] == multiset(whole)[x] { }
    forall x | x in a ensures x !in b { assert x in multiset(a) && multiset(whole)[x] == 1; }
    forall x ensures x in whole <==> x in a || x in b {
      assert (x in whole <==> x in multiset(whole)) && (x in a <==> x in multiset(a)) && (x in b <==> x in multiset(b));
    }
    assert |multiset(a) + multiset(b)| == |multiset(whole)|;
  }

  /** The verified and the expected-unverified dimensions are together exactly the
      configured ones, each once: the two lists partition the configured scope. */
  lemma ScopeIsPartitioned(r: D.Report)
    requires SourcesOk(r)
    ensures var s := ScopeOf(r);
            && multiset(s.verified) + multiset(s.expectedUnverified) == multiset(s.configured)
            && Distinct(s.configured) && Distinct(s.verified) && Distinct(s.expectedUnverified)
            && (forall d :: d in s.verified ==> d !in s.expectedUnverified)
            && (forall d :: d in s.configured <==> d in s.verified || d in s.expectedUnverified)
  {
    ScopeKeepsAll(r);
    ConfiguredIsDistinct(r);
    PartsAreDistinct(ScopeOf(r).configured, ScopeOf(r).verified, ScopeOf(r).expectedUnverified);
  }

  lemma ScopeKeepsAll(r: D.Report)
    requires SourcesOk(r)
    ensures var s := ScopeOf(r); multiset(s.verified) + multiset(s.expectedUnverified) == multiset(s.configured)
  {
    var s := ScopeOf(r);
    var local := [Network(r)] + Interfaces(r);
    var first, second := r.sources[0].state == D.Current, r.sources[1].state == D.Current;
    ScopeShape(r);
    SplitKeepsAll([IPV4], [IPV6], local, first, second, first || second);
    ConfiguredShape(Network(r), IPV4, IPV6, Interfaces(r));
  }

  lemma ConfiguredShape<T>(a: T, b: T, c: T, rest: seq<T>)
    ensures multiset([a, b, c] + rest) == multiset([b]) + multiset([c]) + multiset([a] + rest)
  {
  }

  lemma ScopeShape(r: D.Report)
    requires SourcesOk(r)
    ensures var s := ScopeOf(r);
            var local := [Network(r)] + Interfaces(r);
            var first, second := r.sources[0].state == D.Current, r.sources[1].state == D.Current;
            && s.verified == (if first then [IPV4] else []) + (if second then [IPV6] else []) +
                             (if first || second then local else [])
            && s.expectedUnverified == (if first then [] else [IPV4]) + (if second then [] else [IPV6]) +
                                       (if first || second then [] else local)
  {
    var a, b := r.sources[0], r.sources[1];
    assert r.sources == [a, b];
    FamiliesOfTwo(a, b, true);
    FamiliesOfTwo(a, b, false);
  }

  lemma FamiliesAreValues()
    ensures C.ValidValue("ipv4") && C.ValidValue("ipv6")
  {
  }

  lemma ConfiguredValues(r: D.Report)
    requires r.interfaceName == "" || D.ValidInterfaceName(r.interfaceName)
    ensures forall d :: d in ScopeOf(r).configured ==> d == Network(r) || C.ValidValue(d.value)
  {
    FamiliesAreValues();
    if r.interfaceName != "" { D.InterfaceNameIsValue(r.interfaceName); }
  }

  lemma ScopeValidates(r: D.Report)
    requires ReportOk(r)
    ensures C.ValidScope(ScopeOf(r)) <==> C.ValidValue(r.scope)
  {
    ScopeIsPartitioned(r);
    ConfiguredValues(r);
    var s := ScopeOf(r);
    assert s.configured[0] == Network(r);
    PartsAreDistinct(s.configured, s.verified, s.expectedUnverified);
    PartitionValidates(s, Network(r));
  }

  lemma PartitionValidates(s: C.Scope, network: C.Dimension)
    requires |s.configured| <= C.MAX_DIMENSIONS && |s.verified| + |s.expectedUnverified| == |s.configured|
    requires Distinct(s.configured) && Distinct(s.verified) && Distinct(s.expectedUnverified) && network in s.configured
    requires forall d :: d in s.verified ==> d !in s.expectedUnverified
    requires forall d :: d in s.configured <==> d in s.verified || d in s.expectedUnverified
    requires forall d :: d in s.configured ==> d == network || C.ValidValue(d.value)
    ensures C.ValidScope(s) <==> C.ValidValue(network.value)
  {
    if C.ValidScope(s) {
      var i :| 0 <= i < |s.configured| && s.configured[i] == network;
    }
  }

  // ----- Sources and gaps

  lemma SourcesValidate(r: D.Report)
    requires SourcesOk(r)
    ensures C.ValidSources(SharedSources(r.sources))
  {
    SourceTokens();
    assert D.ARP[0] != D.NDP[0];
  }

  lemma GapsValidate(w: C.Wording)
    ensures C.ValidGaps(Gaps(w))
  {
    GapTokens();
    GapKindTokens();
    GapValidates(w, "host-neighbor-cache-only", "observation-point-limited", []);
    GapValidates(w, "isolated-segments-not-observed", "scope-not-observed", []);
    GapValidates(w, "no-traffic-monitoring", "direction-not-observed", [C.Ingress, C.Egress, C.EastWest]);
    assert Gaps(w)[0].id[0] == 'h' && Gaps(w)[1].id[0] == 'i' && Gaps(w)[2].id[0] == 'n';
  }

  lemma GapValidates(w: C.Wording, id: string, kind: string, directions: seq<C.Direction>)
    requires C.ValidToken(id) && C.ValidToken(kind) && C.ValidDirections(directions)
    ensures C.ValidGap(GapOf(w, id, kind, directions))
  {
  }

  // ----- The whole contract

  /** What a caller can check beforehand: a presentable scope id and sensor id, and a
      sample that is dated. */
  predicate Presentable(scope: string, sample: Option<D.Sample>) {
    && C.ValidValue(scope)
    && (sample.Some? ==>
          && (sample.value.sensor == "" || C.ValidToken(sample.value.sensor))
          && sample.value.endedAt != 0 && sample.value.endedAt + D.FRESHNESS != 0)
  }

  lemma PointValidates(w: C.Wording, r: D.Report, e: D.Effective)
    requires ReportOk(r) && C.ValidToken(e.reason) && C.ValidText(e.nextStep, C.MAX_NEXT_STEP)
             && e.state != C.Unconfigured
    ensures C.ValidPoint(PointOf(w, r, e)) <==>
            && C.ValidValue(r.scope) && (r.sensor == "" || C.ValidToken(r.sensor))
            && (r.hasEvidence ==> r.evidenceAt != 0 && r.freshUntil != 0)
  {
    PointTokens();
    ScopeValidates(r);
    SourcesValidate(r);
    GapsValidate(w);
    PointIsBacked(w, r, e);
  }

  lemma PointIsBacked(w: C.Wording, r: D.Report, e: D.Effective)
    requires SourcesOk(r)
    ensures C.EvidenceBacked(PointOf(w, r, e))
  {
    if !r.hasEvidence {
      FamiliesOfTwo(r.sources[0], r.sources[1], true);
      assert r.sources == [r.sources[0], r.sources[1]];
    }
  }

  /** For every stored sample, well-formed or not, every clock and every health, the
      contract passes the whole validation exactly when the scope id, the sensor id
      and the sample's time are presentable. */
  lemma ContractValidatesExactly(f: D.Facts)
    ensures C.ValidSinglePoint(ContractOf(f.wording, D.ReportOf(f), D.HealthOf(f))) <==>
              Presentable(f.scopeId, f.sample)
  {
    var w, r, h := f.wording, D.ReportOf(f), D.HealthOf(f);
    CurrentReportOk(f.wording.step, f.scopeId, f.sample, f.now);
    HealthOfOk(f);
    EffectiveIsPresentable(r, h);
    PointValidates(w, r, D.EffectiveCoverage(r, h));
    PointTokens();
    ReportKeepsIdentity(f.wording.step, f.scopeId, f.sample, f.now);
    OnePointReport(ContractOf(w, r, h));
  }

  lemma OnePointReport(r: C.Report)
    requires |r.points| == 1 && r.configured && C.ValidToken(r.capability)
    requires r.state == r.points[0].state && r.reason == r.points[0].reason && r.nextStep == r.points[0].nextStep
    ensures C.ValidSinglePoint(r) <==> C.ValidPoint(r.points[0])
  {
  }

  lemma ReportKeepsIdentity(say: D.Say, scope: string, sample: Option<D.Sample>, now: int)
    ensures var r := D.CurrentReport(say, scope, sample, now);
            && r.scope == scope && r.hasEvidence == sample.Some?
            && (sample.Some? ==>
                  && r.sensor == sample.value.sensor && r.evidenceAt == sample.value.endedAt
                  && r.freshUntil == sample.value.endedAt + D.FRESHNESS)
            && (sample.None? ==> r.sensor == "")
  {
  }

  // ----- Which identifiers are presentable

  predicate IdChar(c: char) { 'a' <= c <= 'z' || '0' <= c <= '9' || c == '.' || c == '_' || c == ':' || c == '-' }

  /** What the store accepts as an id (internal/controller/domain/validate.go). */
  predicate StoredId(s: string) {
    1 <= |s| <= 128 && 'a' <= s[0] <= 'z' && forall i :: 0 <= i < |s| ==> IdChar(s[i])
  }

  /** A stored scope id is always presentable; a stored sensor id exactly when it has
      no colon, no doubled separator and no separator at its end. */
  lemma StoredIdsPresentable(s: string)
    requires StoredId(s)
    ensures C.ValidValue(s)
    ensures C.ValidToken(s) <==>
            && (forall i :: 0 <= i < |s| ==> s[i] != ':') && C.Alphanumeric(s[|s| - 1])
            && (forall i :: 0 <= i < |s| - 1 ==> C.Alphanumeric(s[i]) || C.Alphanumeric(s[i + 1]))
  {
    assert IdChar(s[|s| - 1]);
    if C.ValidToken(s) {
      assert C.TokenAt(s, |s| - 1);
      forall i | 0 <= i < |s| ensures s[i] != ':' { assert C.TokenAt(s, i); }
      forall i | 0 <= i < |s| - 1 ensures C.Alphanumeric(s[i])
          || C.Alphanumeric(s[i + 1]) { assert C.TokenAt(s, i + 1); }
    } else {
      var i :| 0 <= i < |s| && !C.TokenAt(s, i);
      assert IdChar(s[i]) && (i > 0 ==> IdChar(s[i - 1]));
      if i > 0 { assert s[i - 1 + 1] == s[i]; }
    }
  }

  /** A sensor id the store accepts and the contract refuses: a sample that names it has
      no coverage contract, whatever else holds. */
  lemma StoredSensorIsRefused(f: D.Facts)
    requires f.sample.Some? && f.sample.value.sensor == "sensor:1"
    ensures StoredId("sensor:1") && !C.ValidSinglePoint(ContractOf(f.wording, D.ReportOf(f), D.HealthOf(f)))
  {
    var s := "sensor:1";
    assert s[6] == ':';
    StoredIdsPresentable(s);
    ContractValidatesExactly(f);
  }

  predicate Hexadecimal(c: char) { 'a' <= c <= 'f' || '0' <= c <= '9' }

  /** The sensor ids the runtime makes are always presentable. */
  lemma RuntimeSensorIsPresentable(digest: string)
    requires |digest| == 32 && forall i :: 0 <= i < |digest| ==> Hexadecimal(digest[i])
    ensures C.ValidToken("sensor.dw." + digest)
  {
    assert C.ValidToken("sensor.dw");
    forall i | 0 <= i < |digest| ensures C.TokenAt(digest, i) { assert Hexadecimal(digest[i]); }
    C.JoinedTokens("sensor.dw", digest, '.');
    assert "sensor.dw" + ['.'] == "sensor.dw.";
  }
}
