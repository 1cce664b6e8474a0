/** Every fixed identifier and reason Device Watch puts into a coverage report is a token
    of internal/controller/coverage/model.go, checked letter by letter. */
module CoverageTokens {
  import C = Coverage

  lemma PointTokens()
    ensures C.ValidToken("device-watch") && C.ValidToken("device-watch.local-neighbor-cache")
    ensures C.ValidToken("host-neighbor-cache")
  {
  }

  lemma SourceTokens()
    ensures C.ValidToken("neighbor-cache") && C.ValidToken("arp-cache") && C.ValidToken("ndp-cache")
  {
  }

  lemma GapTokens()
    ensures C.ValidToken("host-neighbor-cache-only") && C.ValidToken("isolated-segments-not-observed")
    ensures C.ValidToken("no-traffic-monitoring")
  {
  }

  lemma GapKindTokens()
    ensures C.ValidToken("observation-point-limited") && C.ValidToken("scope-not-observed")
    ensures C.ValidToken("direction-not-observed")
  {
  }

  /** The reasons a report carries of its own. */
  predicate ReportReason(r: string) {
    || r == "no-evidence" || r == "invalid-evidence" || r == "clock-skew" || r == "stale-evidence"
    || r == "source-partial" || r == "fresh-limited" || r == "source-unavailable"
  }

  lemma EvidenceReasons()
    ensures C.ValidToken("no-evidence") && C.ValidToken("invalid-evidence") && C.ValidToken("stale-evidence")
  {
  }

  lemma SourceReasons()
    ensures C.ValidToken("clock-skew") && C.ValidToken("source-partial") && C.ValidToken("fresh-limited")
    ensures C.ValidToken("source-unavailable")
  {
  }

  lemma ReportReasonIsToken(r: string)
    requires ReportReason(r)
    ensures C.ValidToken(r) && |r| <= 20
  {
    EvidenceReasons();
    SourceReasons();
  }

  /** The reasons the sensor gives. */
  predicate SensorReason(r: string) {
    r == "sensor-disconnected" || r == "sensor-stale" || r == "sensor-degraded" || r == "sensor-starting"
  }

  lemma SensorGone()
    ensures C.ValidToken("sensor-disconnected") && C.ValidToken("sensor-stale")
  {
  }

  lemma SensorPresent()
    ensures C.ValidToken("sensor-degraded") && C.ValidToken("sensor-starting")
  {
  }

  lemma SensorReasonIsToken(r: string)
    requires SensorReason(r)
    ensures C.ValidToken(r) && |r| <= 20
  {
    SensorGone();
    SensorPresent();
  }

  /** What may follow "ingestion-". */
  predicate PipelineReason(r: string) {
    || r == "latency" || r == "backpressure" || r == "sqlite-full" || r == "write-failed"
    || r == "closing" || r == "closed" || r == "unknown"
  }

  lemma PipelineReasons()
    ensures C.ValidToken("latency") && C.ValidToken("backpressure") && C.ValidToken("sqlite-full")
    ensures C.ValidToken("write-failed") && C.ValidToken("closing") && C.ValidToken("closed")
    ensures C.ValidToken("unknown")
  {
  }

  lemma PipelineReasonIsToken(r: string)
    requires PipelineReason(r)
    ensures C.ValidToken(r) && |r| <= 20
  {
    PipelineReasons();
  }

  /** What may follow "storage-". */
  predicate DatabaseReason(r: string) {
    || r == "filesystem-unknown" || r == "filesystem-pressure" || r == "filesystem-full" || r == "quota-pressure"
    || r == "quota-reached" || r == "storage-unavailable" || r == "unknown"
  }

  lemma FilesystemUnknown()
    ensures C.ValidToken("filesystem-unknown")
  {
  }

  lemma FilesystemReasons()
    ensures C.ValidToken("filesystem-pressure") && C.ValidToken("filesystem-full")
  {
  }

  lemma QuotaReasons()
    ensures C.ValidToken("quota-pressure") && C.ValidToken("quota-reached") && C.ValidToken("storage-unavailable")
    ensures C.ValidToken("unknown")
  {
  }

  lemma DatabaseReasonIsToken(r: string)
    requires DatabaseReason(r)
    ensures C.ValidToken(r) && |r| <= 20
  {
    FilesystemUnknown();
    FilesystemReasons();
    QuotaReasons();
  }

  /** A reason built from a component's name and its own reason is a token too. */
  lemma PrefixedIsToken(r: string)
    requires C.ValidToken(r) && |r| <= 20
    ensures C.ValidToken("storage-" + r) && C.ValidToken("ingestion-" + r)
  {
    assert C.ValidToken("storage") && C.ValidToken("ingestion");
    C.JoinedTokens("storage", r, '-');
    C.JoinedTokens("ingestion", r, '-');
    assert "storage" + ['-'] == "storage-" && "ingestion" + ['-'] == "ingestion-";
  }
}
