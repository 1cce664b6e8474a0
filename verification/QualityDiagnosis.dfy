/** Model of cmd/cozysoc/quality_diagnosis.go: which retained runs are compared, and
    when. The corroboration itself and the run validators are parameters. */
module QualityDiagnosis {
  import opened Ordering

  const SECOND: int := 1_000_000_000
  const MAX_WINDOW: int := 86_400 * SECOND
  const FRESHNESS: int := 30 * SECOND
  const MAX_RUNS: nat := 20

  datatype Layer = Gateway | Resolver | Https

  /** What a run recorded: no terminal event, no measurement, an incomplete one, or a
      sample with its times. */
  datatype Sample = MissingTerminal | NoMeasurement | Incomplete | Recorded(startedAt: int, completedAt: int)

  /** A retained run. `validId` is the id pattern, `exactTime` whether its audit time
      survives the nanosecond clock; a zero time is 0. */
  datatype Run = Run(id: string, validId: bool, scope: string, auditedAt: int, exactTime: bool, interfaceName: string,
                     interfaceIndex: int, family: string, sample: Sample)

  datatype Page = Page(gateway: seq<Run>, resolver: seq<Run>, https: seq<Run>, truncated: bool)

  datatype Bounds = Bounds(scope: string, since: int, readAt: int)

  // ----- The latest run of a layer

  predicate ValidRun(b: Bounds, r: Run) {
    r.validId && r.scope == b.scope && r.auditedAt != 0 && r.exactTime && b.since <= r.auditedAt <= b.readAt
  }

  predicate DistinctIds(runs: seq<Run>) { forall i, j :: 0 <= i < j < |runs| ==> runs[i].id != runs[j].id }

  predicate ValidLayer(b: Bounds, runs: seq<Run>) {
    |runs| <= MAX_RUNS && (forall i :: 0 <= i < |runs| ==> ValidRun(b, runs[i])) && DistinctIds(runs)
  }

  /** Later than every other run of the layer. */
  predicate UniqueLatest(runs: seq<Run>, r: Run) {
    r in runs && forall q :: q in runs && q != r ==> q.auditedAt < r.auditedAt
  }

  lemma LatestIsUnique(runs: seq<Run>, a: Run, b: Run)
    requires UniqueLatest(runs, a) && UniqueLatest(runs, b)
    ensures a == b
  {
  }

  /** The layer is refused, has no run, or gives its one latest run. */
  datatype Choice = Refused | Nothing | Latest(run: Run)

  ghost function Choose(b: Bounds, runs: seq<Run>): Choice {
    if !ValidLayer(b, runs) then Refused
    else if |runs| == 0 then Nothing
    else if r :| UniqueLatest(runs, r) then Latest(r)
    else Refused
  }

  lemma ChooseLatest(b: Bounds, runs: seq<Run>, r: Run)
    requires ValidLayer(b, runs) && UniqueLatest(runs, r)
    ensures Choose(b, runs) == Latest(r)
  {
    var c := Choose(b, runs);
    if c.Latest? { LatestIsUnique(runs, c.run, r); }
  }

  /** Two runs that share the latest time refuse the layer, whatever their order. */
  lemma TiesRefuse(b: Bounds, runs: seq<Run>, i: nat, j: nat)
    requires i < j < |runs| && runs[i].auditedAt == runs[j].auditedAt
    requires forall k :: 0 <= k < |runs| ==> runs[k].auditedAt <= runs[i].auditedAt
    ensures Choose(b, runs) == Refused
  {
    if ValidLayer(b, runs) {
      assert runs[i] != runs[j] by { assert runs[i].id != runs[j].id; }
      assert runs[i] in runs && runs[j] in runs;
    }
  }

  lemma PermutedIdsDistinct(a: seq<Run>, c: seq<Run>)
    requires multiset(a) == multiset(c) && DistinctIds(a)
    ensures DistinctIds(c)
  {
    assert Distinct(a) by {
      forall i, j | 0 <= i < j < |a| ensures a[i] != a[j] { assert a[i].id != a[j].id; }
    }
    PermutationKeepsDistinct(a, c);
    forall i, j | 0 <= i < j < |c| ensures c[i].id != c[j].id {
      assert c[i] in a && c[j] in a && c[i] != c[j];
      var k :| 0 <= k < |a| && a[k] == c[i];
      var m :| 0 <= m < |a| && a[m] == c[j];
      if k < m { assert a[k].id != a[m].id; } else { assert a[m].id != a[k].id; }
    }
  }

  lemma PermutedLayerValid(b: Bounds, a: seq<Run>, c: seq<Run>)
    requires multiset(a) == multiset(c) && ValidLayer(b, a)
    ensures ValidLayer(b, c)
  {
    PermutationKeepsDistinct(a, c);
    PermutedIdsDistinct(a, c);
    forall i | 0 <= i < |c| ensures ValidRun(b, c[i]) { assert c[i] in a; }
  }

  /** The choice does not depend on the order of the runs. */
  lemma ChoiceIgnoresOrder(b: Bounds, a: seq<Run>, c: seq<Run>)
    requires multiset(a) == multiset(c)
    ensures Choose(b, a) == Choose(b, c)
  {
    PermutationKeepsDistinct(a, c);
    if ValidLayer(b, a) { PermutedLayerValid(b, a, c); }
    if ValidLayer(b, c) { PermutedLayerValid(b, c, a); }
    if ValidLayer(b, a) && |a| != 0 {
      assert forall r :: UniqueLatest(a, r) <==> UniqueLatest(c, r);
      if r :| UniqueLatest(a, r) {
        ChooseLatest(b, a, r);
        ChooseLatest(b, c, r);
      }
    }
  }

  /** The two loops over one layer: check every run and keep the latest seen, then
      look for a tie. */
  method SelectLatest(b: Bounds, runs: seq<Run>) returns (c: Choice)
    ensures c == Choose(b, runs)
  {
    if |runs| > MAX_RUNS { return Refused; }
    var seen: set<string> := {};
    var latest: Choice := Nothing;
    for i := 0 to |runs|
      invariant forall j :: 0 <= j < i ==> ValidRun(b, runs[j])
      invariant seen == set j | 0 <= j < i :: runs[j].id
      invariant DistinctIds(runs[..i])
      invariant latest != Refused && (latest == Nothing <==> i == 0)
      invariant latest.Latest? ==> latest.run in runs[..i] && forall j :: 0 <= j < i ==>
                  runs[j].auditedAt <= latest.run.auditedAt
    {
      var r := runs[i];
      if !ValidRun(b, r) || r.id in seen { return Refused; }
      seen := seen + {r.id};
      assert runs[..i + 1] == runs[..i] + [r];
      if latest == Nothing || r.auditedAt > latest.run.auditedAt { latest := Latest(r); }
    }
    assert runs[..|runs|] == runs;
    if latest == Nothing { return Nothing; }
    var tied := HasTie(runs, latest.run);
    if tied {
      var i :| 0 <= i < |runs| && runs[i] == latest.run;
      var j :| 0 <= j < |runs| && runs[j].id != latest.run.id && runs[j].auditedAt == latest.run.auditedAt;
      if i < j { TiesRefuse(b, runs, i, j); } else { TiesRefuse(b, runs, j, i); }
      return Refused;
    }
    SoleLatest(runs, latest.run);
    ChooseLatest(b, runs, latest.run);
    return latest;
  }

  method HasTie(runs: seq<Run>, latest: Run) returns (tied: bool)
    ensures tied <==> exists j :: 0 <= j < |runs| && runs[j].id != latest.id && runs[j].auditedAt == latest.auditedAt
  {
    for i := 0 to |runs|
      invariant forall j :: 0 <= j < i ==> !(runs[j].id != latest.id && runs[j].auditedAt == latest.auditedAt)
    {
      if runs[i].id != latest.id && runs[i].auditedAt == latest.auditedAt { return true; }
    }
    return false;
  }

  lemma SoleLatest(runs: seq<Run>, r: Run)
    requires DistinctIds(runs) && r in runs && forall j :: 0 <= j < |runs| ==> runs[j].auditedAt <= r.auditedAt
    requires forall j :: 0 <= j < |runs| ==> runs[j].id == r.id || runs[j].auditedAt != r.auditedAt
    ensures UniqueLatest(runs, r)
  {
    var i :| 0 <= i < |runs| && runs[i] == r;
    forall q | q in runs && q != r ensures q.auditedAt < r.auditedAt {
      var j :| 0 <= j < |runs| && runs[j] == q;
      if i < j { assert runs[i].id != runs[j].id; } else { assert runs[j].id != runs[i].id; }
    }
  }

  // ----- The comparison

  datatype Item = Item(layer: Layer, run: Run)

  function AddItem(layer: Layer, c: Choice): seq<Item> { if c.Latest? then [Item(layer, c.run)] else [] }

  function Items(g: Choice, d: Choice, h: Choice): seq<Item> {
    AddItem(Gateway, g) + AddItem(Resolver, d) + AddItem(Https, h)
  }

  function Anchor(items: seq<Item>): int {
    if |items| == 0 then 0
    else
      var a := Anchor(items[..|items| - 1]);
      if items[|items| - 1].run.auditedAt > a then items[|items| - 1].run.auditedAt else a
  }

  predicate SameContext(a: Run, b: Run) {
    a.interfaceName == b.interfaceName && a.interfaceIndex == b.interfaceIndex && a.family == b.family
  }

  predicate AllRecorded(items: seq<Item>) { forall i :: 0 <= i < |items| ==> items[i].run.sample.Recorded? }

  predicate OneContext(items: seq<Item>) {
    forall i, j :: 0 <= i < |items| && 0 <= j < |items| ==> SameContext(items[i].run, items[j].run)
  }

  predicate InWindow(items: seq<Item>, anchor: int)
    requires AllRecorded(items)
  { forall i :: 0 <= i < |items| ==> anchor - items[i].run.sample.startedAt <= MAX_WINDOW }

  predicate AllFresh(items: seq<Item>, anchor: int)
    requires AllRecorded(items)
  { forall i :: 0 <= i < |items| ==> anchor - items[i].run.sample.completedAt < FRESHNESS }

  /** What has to hold of every selected layer before anything is compared. */
  predicate Comparable(items: seq<Item>, anchor: int) {
    |items| >= 2 && AllRecorded(items) && OneContext(items) && InWindow(items, anchor) && AllFresh(items, anchor)
  }

  datatype Code = InsufficientEvidence | Unmeasured | ContextMismatch | TooFarApart | HistoryIncomplete | Fit

  function Precondition(items: seq<Item>, anchor: int): Code {
    if |items| < 2 then InsufficientEvidence
    else if !AllRecorded(items) then Unmeasured
    else if !OneContext(items) then ContextMismatch
    else if !InWindow(items, anchor) then TooFarApart
    else if !AllFresh(items, anchor) then InsufficientEvidence
    else Fit
  }

  method AllMeasured(items: seq<Item>) returns (ok: bool)
    ensures ok <==> AllRecorded(items)
  {
    for i := 0 to |items|
      invariant forall j :: 0 <= j < i ==> items[j].run.sample.Recorded?
    {
      if !items[i].run.sample.Recorded? { return false; }
    }
    return true;
  }

  method AllAlike(items: seq<Item>) returns (ok: bool)
    requires |items| > 0
    ensures ok <==> OneContext(items)
  {
    var first := items[0].run;
    for i := 0 to |items|
      invariant forall j :: 0 <= j < i ==> SameContext(items[j].run, first)
    {
      if !SameContext(items[i].run, first) { return false; }
    }
    return true;
  }

  /** `qualityDiagnosisPrecondition`, its four loops in order. */
  method DiagnosisPrecondition(items: seq<Item>, anchor: int) returns (code: Code)
    ensures code == Precondition(items, anchor)
  {
    if |items| < 2 { return InsufficientEvidence; }
    var measured := AllMeasured(items);
    if !measured { return Unmeasured; }
    var alike := AllAlike(items);
    if !alike { return ContextMismatch; }
    for i := 0 to |items|
      invariant forall j :: 0 <= j < i ==> anchor - items[j].run.sample.startedAt <= MAX_WINDOW
    {
      if anchor - items[i].run.sample.startedAt > MAX_WINDOW { return TooFarApart; }
    }
    for i := 0 to |items|
      invariant forall j :: 0 <= j < i ==> anchor - items[j].run.sample.completedAt < FRESHNESS
    {
      if anchor - items[i].run.sample.completedAt >= FRESHNESS { return InsufficientEvidence; }
    }
    return Fit;
  }

  /** What a corroboration answers: which selected runs it compared, as layer and id. */
  datatype Reference = Reference(layer: Layer, id: string)
  datatype Verdict = Verdict(conclusion: string, compared: seq<Reference>)

  /** `shown` validates a run before it is shown, `measured` before it is compared. */
  datatype Rules = Rules(shown: Item -> bool, measured: Item -> bool, corroborate: (seq<Item>, int) -> Option<Verdict>)

  datatype Outcome = Rejected | Unknown(code: Code, selected: seq<Item>) | Compared(selected: seq<Item>,
                                                                                    verdict: Verdict)

  function RefOf(i: Item): Reference { Reference(i.layer, i.run.id) }

  predicate Cited(items: seq<Item>, r: Reference) { exists j :: 0 <= j < |items| && RefOf(items[j]) == r }

  predicate AllKnown(items: seq<Item>, compared: seq<Reference>) {
    forall i :: 0 <= i < |compared| ==> Cited(items, compared[i])
  }

  predicate All(items: seq<Item>, p: Item -> bool) { forall i :: 0 <= i < |items| ==> p(items[i]) }

  /** The comparison of the selected runs, if it may be made at all. */
  function Conclude(rules: Rules, items: seq<Item>, truncated: bool): Outcome {
    var anchor := Anchor(items);
    var code := Precondition(items, anchor);
    if !All(items, rules.shown) then Rejected
    else if truncated then Unknown(HistoryIncomplete, items)
    else if code != Fit then Unknown(code, items)
    else if !All(items, rules.measured) then Rejected
    else
      var verdict := rules.corroborate(items, anchor);
      if verdict.None? || !AllKnown(items, verdict.value.compared) then Rejected else Compared(items, verdict.value)
  }

  ghost function Diagnose(rules: Rules, b: Bounds, p: Page): Outcome {
    var g, d, h := Choose(b, p.gateway), Choose(b, p.resolver), Choose(b, p.https);
    if g == Refused || d == Refused || h == Refused then Rejected else Conclude(rules, Items(g, d, h), p.truncated)
  }

  method IsSelected(items: seq<Item>, r: Reference) returns (found: bool)
    ensures found <==> Cited(items, r)
  {
    for j := 0 to |items|
      invariant forall k :: 0 <= k < j ==> RefOf(items[k]) != r
    {
      if RefOf(items[j]) == r { return true; }
    }
    return false;
  }

  method CheckKnown(items: seq<Item>, compared: seq<Reference>) returns (ok: bool)
    ensures ok <==> AllKnown(items, compared)
  {
    for i := 0 to |compared|
      invariant forall k :: 0 <= k < i ==> Cited(items, compared[k])
    {
      var found := IsSelected(items, compared[i]);
      if !found { return false; }
    }
    return true;
  }

  method AnchorOf(items: seq<Item>) returns (anchor: int)
    ensures anchor == Anchor(items)
  {
    anchor := 0;
    for i := 0 to |items|
      invariant anchor == Anchor(items[..i])
    {
      assert items[..i + 1][..i] == items[..i];
      if items[i].run.auditedAt > anchor { anchor := items[i].run.auditedAt; }
    }
    assert items[..|items|] == items;
  }

  /** `diagnoseRetainedQuality`; `asked` records what the corroboration was asked. */
  method DiagnoseRetainedQuality(rules: Rules, b: Bounds, p: Page) returns (out: Outcome, asked: Option<seq<Item>>)
    ensures out == Diagnose(rules, b, p)
    ensures asked.Some? ==> Comparable(asked.value, Anchor(asked.value)) && !p.truncated
    ensures out.Compared? ==> asked == Some(out.selected)
  {
    asked := None;
    var g := SelectLatest(b, p.gateway);
    var d := SelectLatest(b, p.resolver);
    var h := SelectLatest(b, p.https);
    if g == Refused || d == Refused || h == Refused { return Rejected, None; }
    var items := Items(g, d, h);
    if !All(items, rules.shown) { return Rejected, None; }
    if p.truncated { return Unknown(HistoryIncomplete, items), None; }
    var anchor := AnchorOf(items);
    var code := DiagnosisPrecondition(items, anchor);
    if code != Fit { return Unknown(code, items), None; }
    if !All(items, rules.measured) { return Rejected, None; }
    asked := Some(items);
    var verdict := rules.corroborate(items, anchor);
    if verdict.None? { return Rejected, asked; }
    var known := CheckKnown(items, verdict.value.compared);
    if !known { return Rejected, asked; }
    out := Compared(items, verdict.value);
  }

  /** The whole diagnosis is the same for every order of each layer's runs. */
  lemma DiagnosisIgnoresOrder(rules: Rules, b: Bounds, p: Page, q: Page)
    requires multiset(p.gateway) == multiset(q.gateway) && multiset(p.resolver) == multiset(q.resolver)
             && multiset(p.https) == multiset(q.https)
    requires p.truncated == q.truncated
    ensures Diagnose(rules, b, p) == Diagnose(rules, b, q)
  {
    ChoiceIgnoresOrder(b, p.gateway, q.gateway);
    ChoiceIgnoresOrder(b, p.resolver, q.resolver);
    ChoiceIgnoresOrder(b, p.https, q.https);
  }

  function RunsOf(p: Page, layer: Layer): seq<Run> {
    match layer case Gateway => p.gateway case Resolver => p.resolver case Https => p.https
  }

  lemma ChosenIsLatest(b: Bounds, runs: seq<Run>)
    ensures Choose(b, runs).Latest? ==> UniqueLatest(runs, Choose(b, runs).run)
  {
  }

  /** Each selected run is its own layer's sole latest one. */
  ghost predicate EachLatest(p: Page, items: seq<Item>) {
    forall i :: 0 <= i < |items| ==> UniqueLatest(RunsOf(p, items[i].layer), items[i].run)
  }

  lemma LayerIsLatest(b: Bounds, p: Page, layer: Layer)
    ensures EachLatest(p, AddItem(layer, Choose(b, RunsOf(p, layer))))
  {
    ChosenIsLatest(b, RunsOf(p, layer));
  }

  lemma LatestTogether(p: Page, a: seq<Item>, b: seq<Item>)
    requires EachLatest(p, a) && EachLatest(p, b)
    ensures EachLatest(p, a + b)
  {
  }

  lemma SelectedAreLatest(b: Bounds, p: Page)
    ensures EachLatest(p, Items(Choose(b, p.gateway), Choose(b, p.resolver), Choose(b, p.https)))
  {
    LayerIsLatest(b, p, Gateway);
    LayerIsLatest(b, p, Resolver);
    LayerIsLatest(b, p, Https);
    var g, d := AddItem(Gateway, Choose(b, p.gateway)), AddItem(Resolver, Choose(b, p.resolver));
    LatestTogether(p, g, d);
    LatestTogether(p, g + d, AddItem(Https, Choose(b, p.https)));
  }

  lemma ConcludedIsComparable(rules: Rules, items: seq<Item>, truncated: bool)
    requires Conclude(rules, items, truncated).Compared?
    ensures var out := Conclude(rules, items, truncated);
            && out.selected == items && Comparable(items, Anchor(items)) && !truncated
            && AllKnown(items, out.verdict.compared)
  {
  }

  /** A comparison means that at least two layers were selected, that each one's sole
      latest run was recorded in the same context and in the window, that nothing was
      truncated, and that only selected runs are cited. */
  lemma ComparedOnlyWhenUsable(rules: Rules, b: Bounds, p: Page)
    requires Diagnose(rules, b, p).Compared?
    ensures var out := Diagnose(rules, b, p);
            && Comparable(out.selected, Anchor(out.selected)) && !p.truncated
            && AllKnown(out.selected, out.verdict.compared) && EachLatest(p, out.selected)
  {
    SelectedAreLatest(b, p);
    ConcludedIsComparable(rules, Items(Choose(b, p.gateway), Choose(b, p.resolver), Choose(b, p.https)), p.truncated);
  }

  /** Two latest runs at the same time. */
  predicate TiedAt(runs: seq<Run>, i: nat, j: nat) {
    i < j < |runs| && runs[i].auditedAt == runs[j].auditedAt && forall k :: 0 <= k < |runs| ==>
          runs[k].auditedAt <= runs[i].auditedAt
  }

  /** A tie in any one layer rejects the whole diagnosis. */
  lemma TieRejectsDiagnosis(rules: Rules, b: Bounds, p: Page, i: nat, j: nat)
    requires TiedAt(p.gateway, i, j) || TiedAt(p.resolver, i, j) || TiedAt(p.https, i, j)
    ensures Diagnose(rules, b, p) == Rejected
  {
    if TiedAt(p.gateway, i, j) { TiesRefuse(b, p.gateway, i, j); }
    else if TiedAt(p.resolver, i, j) { TiesRefuse(b, p.resolver, i, j); }
    else { TiesRefuse(b, p.https, i, j); }
  }

  // ----- Every outcome, exactly

  lemma {:induction false} LatestExists(runs: seq<Run>) returns (i: nat)
    requires |runs| > 0
    ensures i < |runs| && forall k :: 0 <= k < |runs| ==> runs[k].auditedAt <= runs[i].auditedAt
  {
    var n := |runs| - 1;
    if n == 0 { return 0; }
    i := LatestExists(runs[..n]);
    assert forall k :: 0 <= k < n ==> runs[..n][k] == runs[k];
    if runs[n].auditedAt > runs[i].auditedAt { i := n; }
  }

  /** A layer is refused exactly when it is invalid or two runs tie for the latest; a
      valid one without a tie gives nothing exactly when it is empty. */
  lemma ChoiceExactly(b: Bounds, runs: seq<Run>)
    ensures Choose(b, runs) == Refused <==> !ValidLayer(b, runs) || exists i: nat, j: nat :: TiedAt(runs, i, j)
    ensures Choose(b, runs) == Nothing <==> |runs| == 0
    ensures Choose(b, runs).Latest? ==> UniqueLatest(runs, Choose(b, runs).run)
  {
    if ValidLayer(b, runs) && |runs| > 0 {
      var i := LatestExists(runs);
      if j: nat :| j < |runs| && j != i && runs[j].auditedAt == runs[i].auditedAt {
        assert TiedAt(runs, if i < j then i else j, if i < j then j else i);
        TiesRefuse(b, runs, if i < j then i else j, if i < j then j else i);
      } else {
        forall k | 0 <= k < |runs| ensures runs[k].id == runs[i].id || runs[k].auditedAt != runs[i].auditedAt { }
        SoleLatest(runs, runs[i]);
        ChooseLatest(b, runs, runs[i]);
      }
    }
  }

  /** The layers that take part: those with a run. */
  lemma ItemsExactly(g: Choice, d: Choice, h: Choice)
    ensures var items := Items(g, d, h);
            && |items| == (if g.Latest? then 1 else 0) + (if d.Latest? then 1 else 0) + (if h.Latest? then 1 else 0)
            && (forall r :: Item(Gateway, r) in items <==> g == Latest(r))
            && (forall r :: Item(Resolver, r) in items <==> d == Latest(r))
            && (forall r :: Item(Https, r) in items <==> h == Latest(r))
  {
  }

  /** Nothing is refused, every item can be shown and no history is missing. */
  ghost predicate Considered(rules: Rules, b: Bounds, p: Page) {
    && Choose(b, p.gateway) != Refused && Choose(b, p.resolver) != Refused && Choose(b, p.https) != Refused
    && All(Considers(b, p), rules.shown)
  }

  ghost function Considers(b: Bounds, p: Page): seq<Item> {
    Items(Choose(b, p.gateway), Choose(b, p.resolver), Choose(b, p.https))
  }

  /** A comparison is made exactly when the layers can be compared, all are measured, and
      the corroboration answers and cites only selected runs; it is then that answer. */
  lemma ComparedExactly(rules: Rules, b: Bounds, p: Page)
    ensures var items := Considers(b, p);
            var verdict := rules.corroborate(items, Anchor(items));
            var out := Diagnose(rules, b, p);
            && (out.Compared? <==>
                && Considered(rules, b, p) && !p.truncated && Comparable(items, Anchor(items))
                && All(items, rules.measured) && verdict.Some? && AllKnown(items, verdict.value.compared))
            && (out.Compared? ==> out == Compared(items, verdict.value))
  {
    CodeExactly(Considers(b, p), Anchor(Considers(b, p)));
  }

  /** The first condition that fails, in the order of the source. */
  lemma CodeExactly(items: seq<Item>, anchor: int)
    ensures var code := Precondition(items, anchor);
            && (code == Fit <==> Comparable(items, anchor)) && code != HistoryIncomplete
            && (code == Unmeasured <==>
                |items| >= 2 && exists i :: 0 <= i < |items| && !items[i].run.sample.Recorded?)
            && (code == ContextMismatch <==>
                && |items| >= 2 && AllRecorded(items)
                && exists i, j :: 0 <= i < |items| && 0 <= j < |items| && !SameContext(items[i].run, items[j].run))
            && (code == TooFarApart <==>
                && |items| >= 2 && AllRecorded(items) && OneContext(items)
                && exists i :: 0 <= i < |items| && anchor - items[i].run.sample.startedAt > MAX_WINDOW)
            && (code == InsufficientEvidence <==>
                || |items| < 2
                || (&& AllRecorded(items) && OneContext(items) && InWindow(items, anchor)
                    && exists i :: 0 <= i < |items| && anchor - items[i].run.sample.completedAt >= FRESHNESS))
  {
  }

  /** Without a comparison: what is unknown, and why, and what is rejected. */
  lemma UnknownExactly(rules: Rules, b: Bounds, p: Page)
    ensures var items := Considers(b, p);
            var out := Diagnose(rules, b, p);
            && (out.Unknown? <==> Considered(rules, b, p) && (p.truncated || !Comparable(items, Anchor(items))))
            && (out.Unknown? ==>
                  out == Unknown(if p.truncated then HistoryIncomplete else Precondition(items, Anchor(items)), items))
            && (out == Rejected <==> !Considered(rules, b, p) || (!out.Unknown? && !out.Compared?))
  {
    CodeExactly(Considers(b, p), Anchor(Considers(b, p)));
  }

  /** A run recorded in this context, not too long before and fresh at the anchor. */
  predicate FitAt(r: Run, context: Run, anchor: int) {
    && r.sample.Recorded? && SameContext(r, context)
    && anchor - r.sample.startedAt <= MAX_WINDOW && anchor - r.sample.completedAt < FRESHNESS
  }

  /** Two layers can be compared, and so can three, exactly when each fits. */
  lemma AllThatFitAreComparable(g: Run, d: Run, h: Run, anchor: int)
    ensures Comparable([Item(Gateway, g), Item(Resolver, d)], anchor) <==> FitAt(g, g, anchor) && FitAt(d, g, anchor)
    ensures Comparable([Item(Gateway, g), Item(Resolver, d), Item(Https, h)], anchor) <==>
            FitAt(g, g, anchor) && FitAt(d, g, anchor) && FitAt(h, g, anchor)
    ensures !Comparable([Item(Gateway, g)], anchor)
  {
    var two, three := [Item(Gateway, g), Item(Resolver, d)], [Item(Gateway, g), Item(Resolver, d), Item(Https, h)];
    assert two[0].run == g && two[1].run == d && three[0].run == g && three[1].run == d && three[2].run == h;
  }

  /** The anchor is the time of the latest selected run. */
  lemma {:induction false} AnchorIsLatest(items: seq<Item>)
    requires forall i :: 0 <= i < |items| ==> items[i].run.auditedAt > 0
    ensures forall i :: 0 <= i < |items| ==> items[i].run.auditedAt <= Anchor(items)
    ensures |items| > 0 ==> exists i :: 0 <= i < |items| && items[i].run.auditedAt == Anchor(items)
  {
    if |items| != 0 {
      var n := |items| - 1;
      AnchorIsLatest(items[..n]);
      if Anchor(items) != items[n].run.auditedAt && n > 0 {
        var i :| 0 <= i < n && items[..n][i].run.auditedAt == Anchor(items[..n]);
        assert items[i].run.auditedAt == Anchor(items);
      }
    }
  }
}
