/** Model of internal/controller/coverage: the shared coverage report and its
    validators, each loop shown to decide exactly the condition it stands for.
    Instants are nanoseconds since Go's zero time, which is therefore 0. */
module Coverage {
  import opened Ordering

  datatype State = Unconfigured | Unavailable | PermissionRequired | Unverified | ActiveLimited | Degraded | Stale
                 | Disconnected
  datatype SourceState = ExpectedUnverified | SourceCurrent | SourcePermission | SourceUnavailable | SourceDegraded
                       | SourceStale | SourceDisconnected | SourceUnknown
  datatype DimensionKind = Network | Interface | Vlan | Device | AddressFamily | WirelessBand | WirelessChannel
  datatype Direction = Ingress | Egress | EastWest | ClientToService | ServiceToClient
  datatype CadenceMode = CadenceUnknown | Continuous | Periodic | EventDriven | Hopping

  datatype Dimension = Dimension(kind: DimensionKind, value: string)
  datatype Scope = Scope(configured: seq<Dimension>, verified: seq<Dimension>, expectedUnverified: seq<Dimension>)
  datatype Source = Source(id: string, kind: string, state: SourceState, expected: bool, observed: bool,
                           nextStep: string)
  datatype Window = Window(hasEvidence: bool, startedAt: int, endedAt: int, freshUntil: int)
  datatype Cadence = Cadence(mode: CadenceMode, interval: int, dwell: int)
  datatype Gap = Gap(id: string, kind: string, summary: string, detail: string, nextStep: string,
                     dimensions: seq<Dimension>, directions: seq<Direction>)
  datatype Point = Point(id: string, kind: string, sensor: string, state: State, reason: string, scope: Scope,
                         sources: seq<Source>,
                         directions: seq<Direction>, window: Window, cadence: Cadence, gaps: seq<Gap>, nextStep: string)
  datatype Report = Report(capability: string, configured: bool, state: State, reason: string, points: seq<Point>,
                           nextStep: string)

  const MAX_POINTS: nat := 32
  const MAX_DIMENSIONS: nat := 128
  const MAX_SOURCES: nat := 32
  const MAX_DIRECTIONS: nat := 8
  const MAX_GAPS: nat := 32
  const MAX_VALUE: nat := 256
  const MAX_SUMMARY: nat := 256
  const MAX_DETAIL: nat := 1024
  const MAX_NEXT_STEP: nat := 512

  // ----- Strings

  predicate Space(c: char) {
    || '\t' <= c <= '\r' || c == ' ' || c == '\U{85}' || c == '\U{a0}' || c == '\U{1680}'
       || '\U{2000}' <= c <= '\U{200a}'
    || c == '\U{2028}' || c == '\U{2029}' || c == '\U{202f}' || c == '\U{205f}' || c == '\U{3000}'
  }

  predicate Alphanumeric(c: char) { 'a' <= c <= 'z' || '0' <= c <= '9' }
  predicate Separator(c: char) { c == '.' || c == '_' || c == '-' }

  /** A letter or digit, or a separator between two of them. */
  predicate TokenAt(s: string, i: nat)
    requires i < |s|
  {
    Alphanumeric(s[i]) || (Separator(s[i]) && 0 < i < |s| - 1 && Alphanumeric(s[i - 1]))
  }

  /** Lower-case alphanumeric runs joined by single separators. */
  predicate ValidToken(s: string) { 1 <= |s| <= MAX_VALUE && forall i :: 0 <= i < |s| ==> TokenAt(s, i) }

  predicate ValidValue(s: string) {
    && 1 <= |s| <= MAX_VALUE && !Space(s[0]) && !Space(s[|s| - 1])
    && forall i :: 0 <= i < |s| ==> s[i] != '\r' && s[i] != '\n' && s[i] != '\0'
  }

  predicate ValidOptionalText(s: string, max: nat) {
    |s| <= max && (s != "" ==> !Space(s[0]) && !Space(s[|s| - 1])) && forall i :: 0 <= i < |s| ==> s[i] != '\0'
  }

  predicate ValidText(s: string, max: nat) { s != "" && ValidOptionalText(s, max) }

  /** User-facing text that a report may carry. */
  type Step = s: string | ValidText(s, MAX_NEXT_STEP) witness "."
  type Summary = s: string | ValidText(s, MAX_SUMMARY) witness "."
  type Detail = s: string | ValidText(s, MAX_DETAIL) witness "."

  /** How the components put their guidance into words, topic by topic. */
  datatype Wording = Wording(step: string -> Step, summary: string -> Summary, detail: string -> Detail)

  /** Tokens joined by a separator make a token. */
  lemma JoinedTokens(a: string, b: string, c: char)
    requires ValidToken(a) && ValidToken(b) && Separator(c) && |a| + |b| < MAX_VALUE
    ensures ValidToken(a + [c] + b)
  {
    var s := a + [c] + b;
    assert TokenAt(a, |a| - 1) && TokenAt(b, 0);
    forall i | 0 <= i < |s| ensures TokenAt(s, i) {
      if i < |a| { assert TokenAt(a, i); }
      else if i > |a| { assert TokenAt(b, i - |a| - 1); }
    }
  }

  // ----- Declarative conditions

  predicate ValidDimensions(ds: seq<Dimension>) {
    |ds| <= MAX_DIMENSIONS && (forall i :: 0 <= i < |ds| ==> ValidValue(ds[i].value)) && Distinct(ds)
  }

  predicate ValidScope(s: Scope) {
    && ValidDimensions(s.configured) && ValidDimensions(s.verified) && ValidDimensions(s.expectedUnverified)
    && forall d :: d in s.expectedUnverified ==> d in s.configured && d !in s.verified
  }

  predicate ValidSource(s: Source) {
    && ValidToken(s.id) && ValidToken(s.kind)
    && (if s.state == SourceCurrent then s.observed && ValidOptionalText(s.nextStep, MAX_NEXT_STEP)
        else ValidText(s.nextStep, MAX_NEXT_STEP))
  }

  predicate ValidSources(ss: seq<Source>) {
    |ss| <= MAX_SOURCES && (forall i :: 0 <= i < |ss| ==> ValidSource(ss[i]))
        && (forall i, j :: 0 <= i < j < |ss| ==> ss[i].id != ss[j].id)
  }

  predicate ValidDirections(ds: seq<Direction>) { |ds| <= MAX_DIRECTIONS && Distinct(ds) }

  predicate ValidWindow(w: Window) {
    if w.hasEvidence then w.startedAt != 0 && w.endedAt != 0 && w.freshUntil != 0
        && w.startedAt <= w.endedAt <= w.freshUntil
    else w.startedAt == 0 && w.endedAt == 0 && w.freshUntil == 0
  }

  predicate ValidCadence(c: Cadence) {
    && c.interval >= 0 && c.dwell >= 0
    && match c.mode
       case CadenceUnknown | Continuous | EventDriven => c.interval == 0 && c.dwell == 0
       case Periodic => c.interval > 0 && c.dwell == 0
       case Hopping => c.dwell > 0 && !(c.interval > 0 && c.interval < c.dwell)
  }

  predicate ValidGap(g: Gap) {
    && ValidToken(g.id) && ValidToken(g.kind) && ValidText(g.summary, MAX_SUMMARY) && ValidText(g.detail, MAX_DETAIL)
    && ValidText(g.nextStep, MAX_NEXT_STEP)
    && ValidDimensions(g.dimensions) && ValidDirections(g.directions)
  }

  predicate ValidGaps(gs: seq<Gap>) {
    |gs| <= MAX_GAPS && (forall i :: 0 <= i < |gs| ==> ValidGap(gs[i]))
        && (forall i, j :: 0 <= i < j < |gs| ==> gs[i].id != gs[j].id)
  }

  /** Nothing is verified, directed, current or observed without evidence. */
  predicate EvidenceBacked(p: Point) {
    p.window.hasEvidence
    || (p.scope.verified == [] && p.directions == [] && forall i :: 0 <= i < |p.sources| ==>
          p.sources[i].state != SourceCurrent && !p.sources[i].observed)
  }

  predicate ValidPoint(p: Point) {
    && ValidToken(p.id) && ValidToken(p.kind) && (p.sensor == "" || ValidToken(p.sensor))
    && p.state != Unconfigured && ValidToken(p.reason) && ValidText(p.nextStep, MAX_NEXT_STEP)
    && ValidScope(p.scope) && ValidSources(p.sources) && ValidDirections(p.directions) && ValidWindow(p.window)
    && EvidenceBacked(p) && ValidCadence(p.cadence) && ValidGaps(p.gaps)
  }

  predicate ValidPoints(ps: seq<Point>) {
    (forall i :: 0 <= i < |ps| ==> ValidPoint(ps[i])) && (forall i, j :: 0 <= i < j < |ps| ==> ps[i].id != ps[j].id)
  }

  predicate ValidReport(r: Report) {
    && ValidToken(r.capability) && ValidToken(r.reason) && ValidText(r.nextStep, MAX_NEXT_STEP)
    && if !r.configured then r.state == Unconfigured && r.points == []
       else
         && r.state != Unconfigured && 1 <= |r.points| <= MAX_POINTS
         && ValidPoints(r.points)
  }

  /** One observation point, whose state, reason and guidance are the report's. */
  predicate ValidSinglePoint(r: Report) {
    && ValidReport(r)
    && (r.configured ==>
          && |r.points| == 1 && r.state == r.points[0].state && r.reason == r.points[0].reason
          && r.nextStep == r.points[0].nextStep)
  }

  // ----- The validators

  method ValidateDimensionList(ds: seq<Dimension>) returns (r: Option<set<Dimension>>)
    ensures r.Some? <==> ValidDimensions(ds)
    ensures r.Some? ==> forall d :: d in r.value <==> d in ds
  {
    if |ds| > MAX_DIMENSIONS { return None; }
    var seen: set<Dimension> := {};
    for i := 0 to |ds|
      invariant forall j :: 0 <= j < i ==> ValidValue(ds[j].value)
      invariant Distinct(ds[..i])
      invariant forall d :: d in seen <==> d in ds[..i]
    {
      if !ValidValue(ds[i].value) { return None; }
      if ds[i] in seen { return None; }
      seen := seen + {ds[i]};
    }
    assert ds[..|ds|] == ds;
    return Some(seen);
  }

  method ValidateScope(s: Scope) returns (ok: bool)
    ensures ok <==> ValidScope(s)
  {
    var configured := ValidateDimensionList(s.configured);
    var verified := ValidateDimensionList(s.verified);
    var expected := ValidateDimensionList(s.expectedUnverified);
    if configured.None? || verified.None? || expected.None? { return false; }
    for i := 0 to |s.expectedUnverified|
      invariant forall j :: 0 <= j < i ==>
                  s.expectedUnverified[j] in s.configured && s.expectedUnverified[j] !in s.verified
    {
      if s.expectedUnverified[i] !in configured.value || s.expectedUnverified[i] in verified.value { return false; }
    }
    return true;
  }

  method ValidateSources(ss: seq<Source>) returns (ok: bool)
    ensures ok <==> ValidSources(ss)
  {
    if |ss| > MAX_SOURCES { return false; }
    var seen: set<string> := {};
    for i := 0 to |ss|
      invariant forall j :: 0 <= j < i ==> ValidSource(ss[j])
      invariant seen == set j | 0 <= j < i :: ss[j].id
      invariant forall j, k :: 0 <= j < k < i ==> ss[j].id != ss[k].id
    {
      if !ValidToken(ss[i].id) || !ValidToken(ss[i].kind) || ss[i].id in seen { return false; }
      seen := seen + {ss[i].id};
      if ss[i].state == SourceCurrent && !ss[i].observed { return false; }
      if ss[i].state != SourceCurrent {
        if !ValidText(ss[i].nextStep, MAX_NEXT_STEP) { return false; }
      } else if ss[i].nextStep != "" {
        if !ValidOptionalText(ss[i].nextStep, MAX_NEXT_STEP) { return false; }
      }
    }
    return true;
  }

  method ValidateDirections(ds: seq<Direction>) returns (ok: bool)
    ensures ok <==> ValidDirections(ds)
  {
    if |ds| > MAX_DIRECTIONS { return false; }
    var seen: set<Direction> := {};
    for i := 0 to |ds|
      invariant Distinct(ds[..i])
      invariant forall d :: d in seen <==> d in ds[..i]
    {
      if ds[i] in seen { return false; }
      seen := seen + {ds[i]};
    }
    assert ds[..|ds|] == ds;
    return true;
  }

  method ValidateGaps(gs: seq<Gap>) returns (ok: bool)
    ensures ok <==> ValidGaps(gs)
  {
    if |gs| > MAX_GAPS { return false; }
    var seen: set<string> := {};
    for i := 0 to |gs|
      invariant forall j :: 0 <= j < i ==> ValidGap(gs[j])
      invariant seen == set j | 0 <= j < i :: gs[j].id
      invariant forall j, k :: 0 <= j < k < i ==> gs[j].id != gs[k].id
    {
      var g := gs[i];
      if !ValidToken(g.id) || !ValidToken(g.kind) || !ValidText(g.summary, MAX_SUMMARY) { return false; }
      if !ValidText(g.detail, MAX_DETAIL) || !ValidText(g.nextStep, MAX_NEXT_STEP) { return false; }
      var dimensions := ValidateDimensionList(g.dimensions);
      if dimensions.None? { return false; }
      var directed := ValidateDirections(g.directions);
      if !directed || g.id in seen { return false; }
      seen := seen + {g.id};
    }
    return true;
  }

  method ValidateEvidenceBacked(p: Point) returns (ok: bool)
    ensures ok <==> EvidenceBacked(p)
  {
    if !p.window.hasEvidence {
      if |p.scope.verified| != 0 || |p.directions| != 0 { return false; }
      for i := 0 to |p.sources|
        invariant forall j :: 0 <= j < i ==> p.sources[j].state != SourceCurrent && !p.sources[j].observed
      {
        if p.sources[i].state == SourceCurrent || p.sources[i].observed { return false; }
      }
    }
    return true;
  }

  method ValidateObservationPoint(p: Point) returns (ok: bool)
    ensures ok <==> ValidPoint(p)
  {
    if !ValidToken(p.id) || !ValidToken(p.kind) || (p.sensor != "" && !ValidToken(p.sensor)) { return false; }
    if p.state == Unconfigured || !ValidToken(p.reason) || !ValidText(p.nextStep, MAX_NEXT_STEP) { return false; }
    var scoped := ValidateScope(p.scope);
    if !scoped { return false; }
    var sourced := ValidateSources(p.sources);
    if !sourced { return false; }
    var directed := ValidateDirections(p.directions);
    if !directed || !ValidWindow(p.window) { return false; }
    var backed := ValidateEvidenceBacked(p);
    if !backed || !ValidCadence(p.cadence) { return false; }
    ok := ValidateGaps(p.gaps);
  }

  /** `ValidateReport` decides exactly the declarative condition on the whole report. */
  method ValidateReport(r: Report) returns (ok: bool)
    ensures ok <==> ValidReport(r)
  {
    if !ValidToken(r.capability) || !ValidToken(r.reason) || !ValidText(r.nextStep, MAX_NEXT_STEP) { return false; }
    if !r.configured { return r.state == Unconfigured && |r.points| == 0; }
    if r.state == Unconfigured || |r.points| == 0 || |r.points| > MAX_POINTS { return false; }
    ok := ValidatePoints(r.points);
  }

  method ValidatePoints(ps: seq<Point>) returns (ok: bool)
    ensures ok <==> ValidPoints(ps)
  {
    var seen: set<string> := {};
    for i := 0 to |ps|
      invariant forall j :: 0 <= j < i ==> ValidPoint(ps[j])
      invariant seen == set j | 0 <= j < i :: ps[j].id
      invariant forall j, k :: 0 <= j < k < i ==> ps[j].id != ps[k].id
    {
      var valid := ValidateObservationPoint(ps[i]);
      if !valid || ps[i].id in seen { return false; }
      seen := seen + {ps[i].id};
    }
    return true;
  }

  method ValidateSinglePointReport(r: Report) returns (ok: bool)
    ensures ok <==> ValidSinglePoint(r)
  {
    var valid := ValidateReport(r);
    if !valid || !r.configured { return valid; }
    if |r.points| != 1 { return false; }
    return r.state == r.points[0].state && r.reason == r.points[0].reason && r.nextStep == r.points[0].nextStep;
  }

  /** What a reader of a valid configured report may rely on: every point claims only what
      evidence backs, no dimension is both verified and expected, whatever is expected was
      configured, a current source was observed and any other one comes with guidance. */
  lemma ValidMeans(r: Report, i: nat)
    requires ValidReport(r) && r.configured && i < |r.points|
    ensures var p := r.points[i];
            && p.state != Unconfigured && p.nextStep != "" && p.reason != ""
            && (forall d :: d in p.scope.expectedUnverified ==> d in p.scope.configured && d !in p.scope.verified)
            && (forall s :: s in p.sources && s.state == SourceCurrent ==> s.observed && p.window.hasEvidence)
            && (forall s :: s in p.sources && s.state != SourceCurrent ==> s.nextStep != "")
            && (!p.window.hasEvidence ==>
                  && p.scope.verified == [] && p.directions == [] && forall s :: s in p.sources ==> !s.observed)
            && (p.window.hasEvidence ==> 0 != p.window.startedAt <= p.window.endedAt <= p.window.freshUntil)
            && (forall g :: g in p.gaps ==> g.summary != "" && g.nextStep != "")
            && (forall j :: 0 <= j < |r.points| && j != i ==> r.points[j].id != p.id)
  {
    var p := r.points[i];
    assert ValidPoint(p);
    forall s | s in p.sources ensures ValidSource(s) { }
    forall g | g in p.gaps ensures ValidGap(g) { }
  }
}
