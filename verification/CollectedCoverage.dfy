/** From collection to coverage contract: what internal/controller/devicewatch stores is
    what it can later present. */
module CollectedCoverage {
  import opened Ordering
  import C = Coverage
  import D = DeviceWatchCoverage
  import K = Collector
  import T = CoverageContract

  /** The sensor ids the runtime makes: a fixed head and a 32-digit digest. */
  function SensorId(digest: string): string { "sensor.dw." + digest }

  predicate Digest(s: string) { |s| == 32 && forall i :: 0 <= i < |s| ==> T.Hexadecimal(s[i]) }

  /** A sample of the runtime's sensor, taken after Go's zero time, has a valid contract
      at every clock and with every health, whatever its evidence says. */
  lemma RuntimeSampleHasContract(f: D.Facts, digest: string)
    requires Digest(digest) && T.StoredId(f.scopeId)
    requires f.sample.Some? && f.sample.value.sensor == SensorId(digest) && f.sample.value.endedAt > 0
    ensures C.ValidSinglePoint(T.ContractOf(f.wording, D.ReportOf(f), D.HealthOf(f)))
  {
    T.RuntimeSensorIsPresentable(digest);
    T.StoredIdsPresentable(f.scopeId);
    T.ContractValidatesExactly(f);
  }

  /** The clock and the snapshot's own time are past the zero time. */
  predicate Dated(env: K.Env) { env.now > 0 && (env.attempt.Taken? ==> env.attempt.snapshot.capturedAt >= 0) }

  /** One collection, and the contract built from the stored sample at any later clock and
      health. A sample is stored by every successful collection and by a failed snapshot;
      its contract always validates. After a success over one ARP and one NDP source it is
      not classed as invalid evidence and reports the neighbours that were visible. */
  method CollectThenPresent(sink: K.Sink, digest: string, interfaceName: string, env: K.Env, later: D.Facts)
    returns (ok: bool, report: D.Report, contract: Option<C.Report>)
    requires Digest(digest) && T.StoredId(later.scopeId) && D.ValidInterfaceName(interfaceName) && Dated(env)
    modifies sink
    ensures sink.samples != old(sink.samples) ==> contract.Some? && C.ValidSinglePoint(contract.value)
    ensures ok ==> env.attempt.Taken? && sink.samples != old(sink.samples)
    ensures ok && K.OneOfEach(env.attempt.snapshot.sources) ==>
              && report.reason != "invalid-evidence" && report.interfaceName == interfaceName
              && report.neighbors == |K.Visible(env.attempt.snapshot, interfaceName, env.inScope)|
  {
    var before := |sink.samples|;
    var counts;
    counts, ok := sink.CollectOnce(later.scopeId, SensorId(digest), interfaceName, env);
    if |sink.samples| == before {
      report := D.CurrentCoverage(later.wording.step, later.scopeId, None, later.now);
      return ok, report, None;
    }
    var sample := sink.samples[|sink.samples| - 1];
    var facts := later.(sample := Some(sample));
    report := D.CurrentCoverage(facts.wording.step, facts.scopeId, facts.sample, facts.now);
    contract := T.CoverageContract(facts.wording, report, D.HealthOf(facts));
    RuntimeSampleHasContract(facts, digest);
    if ok && K.OneOfEach(env.attempt.snapshot.sources) {
      K.UsableIsNotInvalid(facts.wording.step, facts.scopeId, sample, facts.now);
    }
  }
}
