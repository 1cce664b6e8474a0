/** Model of the AdGuard Home query accounting: selection of queries
    (internal/controller/adguard/observation.go), one collection with its audit
    (collector.go), the projection of its counters (cmd/cozysoc/adguard_control.go)
    and the check the browser session makes on them
    (cmd/cozysoc/web_adguard_collection.go). */
module AdGuardCollection {
  import opened Ordering
  import opened NetIP
  import opened Storing

  const MAX_QUERIES: nat := 100
  const MAX_PREFIXES: nat := 32
  const HOUR: int := 3_600_000_000_000
  const AGE_WINDOW: int := 24 * HOUR

  /** A query-log entry. `wellFormed` stands for its name, type, status, client id and
      filtering reason; `address` is the parsed client IP. A zero time is 0. */
  datatype Query = Query(time: int, name: string, kind: string, clientIp: string, address: Option<Addr>,
                         clientId: string,
                         status: string, reason: string, wellFormed: bool)

  /** What is hashed into the source key, besides the one sensor. */
  datatype SourceKey = SourceKey(time: int, name: string, kind: string, clientIp: string, clientId: string,
                                 status: string, reason: string)

  function KeyOf(q: Query): SourceKey { SourceKey(q.time, q.name, q.kind, q.clientIp, q.clientId, q.status, q.reason) }

  /** The key tells two queries apart exactly when they differ in what is hashed. */
  lemma KeyExactly(a: Query, b: Query)
    ensures KeyOf(a) == KeyOf(b) <==>
            && a.time == b.time && a.name == b.name && a.kind == b.kind && a.clientIp == b.clientIp
            && a.clientId == b.clientId && a.status == b.status && a.reason == b.reason
  {
  }

  datatype Snapshot = Snapshot(queries: seq<Query>, logEnabled: bool, anonymized: bool)
  datatype Context = Context(snapshot: Snapshot, contains: Addr -> bool, now: int)

  // ----- What becomes of one query

  datatype Fate = NoClientIp | Unreadable | OutOfScope | OutOfWindow | Eligible

  predicate InScope(prefixes: seq<Prefix>, a: Addr) { exists i :: 0 <= i < |prefixes| && prefixes[i].Contains(a) }

  /** Membership in the enrolled prefixes, as the selection uses it. */
  function ContextOf(s: Snapshot, prefixes: seq<Prefix>, now: int): Context {
    Context(s, (a: Addr) => InScope(prefixes, a), now)
  }

  function FateOf(c: Context, q: Query): Fate {
    if q.clientIp == "" || c.snapshot.anonymized then NoClientIp
    else if q.address.None? then Unreadable
    else if !c.contains(q.address.value) then OutOfScope
    else if q.time == 0 || q.time > c.now || q.time < c.now - AGE_WINDOW then OutOfWindow
    else Eligible
  }

  /** The keys already taken by the first n queries. */
  function Taken(c: Context, n: nat): set<SourceKey>
    requires n <= |c.snapshot.queries|
  {
    set i | 0 <= i < n && FateOf(c, c.snapshot.queries[i]) == Eligible :: KeyOf(c.snapshot.queries[i])
  }

  predicate Fresh(c: Context, i: nat)
    requires i < |c.snapshot.queries|
  {
    FateOf(c, c.snapshot.queries[i]) == Eligible && KeyOf(c.snapshot.queries[i]) !in Taken(c, i)
  }

  /** The queries selected from the first n: the first eligible one of each key. */
  function Selected(c: Context, n: nat): seq<Query>
    requires n <= |c.snapshot.queries|
  {
    if n == 0 then [] else Selected(c, n - 1) + if Fresh(c, n - 1) then [c.snapshot.queries[n - 1]] else []
  }

  datatype Stats = Stats(selected: nat, duplicate: nat, outsideScope: nat, withoutClientIp: nat, outsideWindow: nat)

  function Bumped(s: Stats, fate: Fate, first: bool): Stats {
    match fate
    case NoClientIp => s.(withoutClientIp := s.withoutClientIp + 1)
    case Unreadable => s
    case OutOfScope => s.(outsideScope := s.outsideScope + 1)
    case OutOfWindow => s.(outsideWindow := s.outsideWindow + 1)
    case Eligible => if first then s.(selected := s.selected + 1) else s.(duplicate := s.duplicate + 1)
  }

  /** What became of a query, and whether it was the first of its key. */
  datatype Mark = Mark(fate: Fate, first: bool)

  function Marks(c: Context, n: nat): (m: seq<Mark>)
    requires n <= |c.snapshot.queries|
    ensures |m| == n
  {
    if n == 0 then [] else Marks(c, n - 1) + [Mark(FateOf(c, c.snapshot.queries[n - 1]), Fresh(c, n - 1))]
  }

  function Tally(m: seq<Mark>): Stats {
    if |m| == 0 then Stats(0, 0, 0, 0, 0) else Bumped(Tally(m[..|m| - 1]), m[|m| - 1].fate, m[|m| - 1].first)
  }

  function StatsOf(c: Context, n: nat): Stats
    requires n <= |c.snapshot.queries|
  { Tally(Marks(c, n)) }

  lemma StatsOfOneMore(c: Context, n: nat)
    requires 0 < n <= |c.snapshot.queries|
    ensures StatsOf(c, n) == Bumped(StatsOf(c, n - 1), FateOf(c, c.snapshot.queries[n - 1]), Fresh(c, n - 1))
  {
    assert Marks(c, n)[..n - 1] == Marks(c, n - 1);
  }

  function Total(s: Stats): nat { s.selected + s.duplicate + s.outsideScope + s.withoutClientIp + s.outsideWindow }

  // ----- What the counts and the selection mean

  predicate Readable(c: Context, n: nat)
    requires n <= |c.snapshot.queries|
  {
    forall i :: 0 <= i < n ==> FateOf(c, c.snapshot.queries[i]) != Unreadable
  }

  predicate Proper(m: seq<Mark>) {
    forall i :: 0 <= i < |m| ==> m[i].fate != Unreadable && (m[i].first ==> m[i].fate == Eligible)
  }

  lemma {:induction false} TallyCounts(m: seq<Mark>)
    requires Proper(m)
    ensures Total(Tally(m)) == |m|
  {
    if |m| != 0 {
      TallyCounts(m[..|m| - 1]);
      BumpedCountsOne(Tally(m[..|m| - 1]), m[|m| - 1].fate, m[|m| - 1].first);
    }
  }

  lemma {:induction false} MarksProper(c: Context, n: nat)
    requires n <= |c.snapshot.queries| && Readable(c, n)
    ensures Proper(Marks(c, n))
  {
    if n != 0 { MarksProper(c, n - 1); }
  }

  lemma {:induction false} SelectedIsCounted(c: Context, n: nat)
    requires n <= |c.snapshot.queries| && Proper(Marks(c, n))
    ensures StatsOf(c, n).selected == |Selected(c, n)|
  {
    if n != 0 {
      assert Marks(c, n)[..n - 1] == Marks(c, n - 1);
      SelectedIsCounted(c, n - 1);
      BumpedCountsOne(StatsOf(c, n - 1), Marks(c, n)[n - 1].fate, Marks(c, n)[n - 1].first);
    }
  }

  predicate Met(m: Mark, fate: Fate, first: bool) { m.fate == fate && (fate == Eligible ==> m.first == first) }

  /** The positions of the queries with a fate. */
  function Where(m: seq<Mark>, fate: Fate, first: bool): set<nat> { set i: nat | i < |m| && Met(m[i], fate, first) }

  lemma WhereOneMore(m: seq<Mark>, k: Mark, fate: Fate, first: bool)
    ensures |Where(m + [k], fate, first)| == |Where(m, fate, first)| + if Met(k, fate, first) then 1 else 0
  {
    var before, after := Where(m, fate, first), Where(m + [k], fate, first);
    forall i: nat ensures i in after <==> i in before || (i == |m| && Met(k, fate, first)) { }
    assert after == if Met(k, fate, first) then before + {|m|} else before;
  }

  /** Each counter is the number of queries that met that fate. */
  lemma {:induction false} TallyMeaning(m: seq<Mark>)
    ensures var s := Tally(m);
            && s.withoutClientIp == |Where(m, NoClientIp, true)| && s.outsideScope == |Where(m, OutOfScope, true)|
            && s.outsideWindow == |Where(m, OutOfWindow, true)|
            && s.selected == |Where(m, Eligible, true)| && s.duplicate == |Where(m, Eligible, false)|
  {
    if |m| != 0 {
      var rest, last := m[..|m| - 1], m[|m| - 1];
      assert m == rest + [last];
      TallyMeaning(rest);
      WhereOneMore(rest, last, NoClientIp, true);
      WhereOneMore(rest, last, OutOfScope, true);
      WhereOneMore(rest, last, OutOfWindow, true);
      WhereOneMore(rest, last, Eligible, true);
      WhereOneMore(rest, last, Eligible, false);
    }
  }

  /** Every query is counted exactly once, and the selected ones are those counted as
      selected. */
  lemma EveryQueryIsCounted(c: Context, n: nat)
    requires n <= |c.snapshot.queries| && Readable(c, n)
    ensures Total(StatsOf(c, n)) == n && StatsOf(c, n).selected == |Selected(c, n)|
  {
    MarksProper(c, n);
    TallyCounts(Marks(c, n));
    SelectedIsCounted(c, n);
  }

  lemma BumpedCountsOne(s: Stats, fate: Fate, first: bool)
    requires fate != Unreadable && (first ==> fate == Eligible)
    ensures Total(Bumped(s, fate, first)) == Total(s) + 1
    ensures Bumped(s, fate, first).selected == s.selected + if first then 1 else 0
  {
  }

  function KeysOf(s: seq<Query>): set<SourceKey> { set i | 0 <= i < |s| :: KeyOf(s[i]) }

  lemma KeysOfOneMore(s: seq<Query>, q: Query)
    ensures KeysOf(s + [q]) == KeysOf(s) + {KeyOf(q)}
  {
    var t := s + [q];
    assert t[|s|] == q;
    forall k | k in KeysOf(s) ensures k in KeysOf(t) {
      var i :| 0 <= i < |s| && KeyOf(s[i]) == k;
      assert KeyOf(t[i]) == k;
    }
    assert KeyOf(t[|s|]) in KeysOf(t);
  }

  lemma TakenByOneMore(c: Context, n: nat)
    requires 0 < n <= |c.snapshot.queries|
    ensures var q := c.snapshot.queries[n - 1];
            Taken(c, n) == Taken(c, n - 1) + if FateOf(c, q) == Eligible then {KeyOf(q)} else {}
  {
  }

  /** The selection has exactly the eligible keys, each once, and only queries that
      are in scope, in the window and carry a client address. */
  lemma {:induction false} SelectionMeaning(c: Context, n: nat)
    requires n <= |c.snapshot.queries|
    ensures KeysOf(Selected(c, n)) == Taken(c, n)
    ensures forall i, j :: 0 <= i < j < |Selected(c, n)| ==> KeyOf(Selected(c, n)[i]) != KeyOf(Selected(c, n)[j])
    ensures forall i :: 0 <= i < |Selected(c, n)| ==> FateOf(c, Selected(c, n)[i]) == Eligible
  {
    if n != 0 {
      SelectionMeaning(c, n - 1);
      TakenByOneMore(c, n);
      var s, q := Selected(c, n - 1), c.snapshot.queries[n - 1];
      forall i | 0 <= i < |s| ensures KeyOf(s[i]) in Taken(c, n - 1) { assert KeyOf(s[i]) in KeysOf(s); }
      if Fresh(c, n - 1) {
        KeysOfOneMore(s, q);
      } else {
        assert Selected(c, n) == s;
        assert Taken(c, n) == Taken(c, n - 1);
      }
    }
  }

  // ----- The same, condition by condition

  /** The client's address is missing, or hidden by the service. */
  predicate Hidden(x: Context, q: Query) { q.clientIp == "" || x.snapshot.anonymized }

  /** The client has an address that can be read, or none that is shown. */
  predicate Legible(x: Context, q: Query) { Hidden(x, q) || q.address.Some? }

  /** The client shows an address in one of the enrolled prefixes, as `EnrolledExactly`
      says. */
  predicate Enrolled(x: Context, q: Query) { !Hidden(x, q) && q.address.Some? && x.contains(q.address.value) }

  lemma EnrolledExactly(s: Snapshot, prefixes: seq<Prefix>, now: int, q: Query)
    ensures Enrolled(ContextOf(s, prefixes, now), q) <==>
            && q.clientIp != "" && !s.anonymized && q.address.Some?
            && exists i :: 0 <= i < |prefixes| && prefixes[i].Contains(q.address.value)
  {
  }

  predicate Recent(x: Context, q: Query) { q.time != 0 && x.now - AGE_WINDOW <= q.time <= x.now }

  /** An enrolled client asked within the last day. */
  predicate Chosen(x: Context, q: Query) { Enrolled(x, q) && Recent(x, q) }

  /** No earlier query of its key was chosen. */
  predicate FirstOfKey(x: Context, i: nat)
    requires i < |x.snapshot.queries|
  {
    var qs := x.snapshot.queries;
    Chosen(x, qs[i]) && forall j :: 0 <= j < i && Chosen(x, qs[j]) ==> KeyOf(qs[j]) != KeyOf(qs[i])
  }

  lemma FateExactly(x: Context, q: Query)
    ensures var fate := FateOf(x, q);
            && (fate == NoClientIp <==> Hidden(x, q)) && (fate == Unreadable <==> !Legible(x, q))
            && (fate == OutOfScope <==> !Hidden(x, q) && Legible(x, q) && !Enrolled(x, q))
            && (fate == OutOfWindow <==> Enrolled(x, q) && !Recent(x, q))
            && (fate == Eligible <==> Chosen(x, q))
  {
  }

  lemma FreshExactly(x: Context, i: nat)
    requires i < |x.snapshot.queries|
    ensures Fresh(x, i) <==> FirstOfKey(x, i)
  {
    var qs := x.snapshot.queries;
    forall j | 0 <= j <= i ensures FateOf(x, qs[j]) == Eligible <==> Chosen(x, qs[j]) {
      FateExactly(x, qs[j]);
    }
    if KeyOf(qs[i]) in Taken(x, i) {
      var j :| 0 <= j < i && FateOf(x, qs[j]) == Eligible && KeyOf(qs[j]) == KeyOf(qs[i]);
    }
  }

  lemma {:induction false} MarksAt(c: Context, n: nat, i: nat)
    requires i < n <= |c.snapshot.queries|
    ensures Marks(c, n)[i] == Mark(FateOf(c, c.snapshot.queries[i]), Fresh(c, i))
  {
    if i < n - 1 { MarksAt(c, n - 1, i); }
  }

  /** The five counts, each the number of queries that meet its own condition. */
  ghost function ExactCounts(x: Context): Stats {
    var qs := x.snapshot.queries;
    Stats(|set i: nat | i < |qs| && FirstOfKey(x, i)|,
          |set i: nat | i < |qs| && Chosen(x, qs[i]) && !FirstOfKey(x, i)|,
          |set i: nat | i < |qs| && !Hidden(x, qs[i]) && Legible(x, qs[i]) && !Enrolled(x, qs[i])|,
          |set i: nat | i < |qs| && Hidden(x, qs[i])|,
          |set i: nat | i < |qs| && Enrolled(x, qs[i]) && !Recent(x, qs[i])|)
  }

  lemma CountsExactly(x: Context)
    ensures StatsOf(x, |x.snapshot.queries|) == ExactCounts(x)
  {
    var qs, m := x.snapshot.queries, Marks(x, |x.snapshot.queries|);
    forall i: nat | i < |qs|
      ensures m[i] == Mark(FateOf(x, qs[i]), FirstOfKey(x, i))
    {
      MarksAt(x, |qs|, i);
      FreshExactly(x, i);
    }
    TallyMeaning(m);
    WhereExactly(x, m);
  }

  lemma WhereExactly(x: Context, m: seq<Mark>)
    requires |m| == |x.snapshot.queries|
    requires forall i: nat :: i < |m| ==>
               m[i] == Mark(FateOf(x, x.snapshot.queries[i]), FirstOfKey(x, i))
    ensures var qs := x.snapshot.queries;
            && Where(m, NoClientIp, true) == (set i: nat | i < |qs| && Hidden(x, qs[i]))
            && Where(m, OutOfScope, true) ==
               (set i: nat | i < |qs| && !Hidden(x, qs[i]) && Legible(x, qs[i]) && !Enrolled(x, qs[i]))
            && Where(m, OutOfWindow, true) == (set i: nat | i < |qs| && Enrolled(x, qs[i]) && !Recent(x, qs[i]))
            && Where(m, Eligible, true) == (set i: nat | i < |qs| && FirstOfKey(x, i))
            && Where(m, Eligible, false) == (set i: nat | i < |qs| && Chosen(x, qs[i]) && !FirstOfKey(x, i))
  {
    forall i: nat | i < |m|
      ensures m[i].fate == FateOf(x, x.snapshot.queries[i]) && m[i].first == FirstOfKey(x, i)
      ensures var q := x.snapshot.queries[i];
              && (m[i].fate == NoClientIp <==> Hidden(x, q))
              && (m[i].fate == OutOfScope <==> !Hidden(x, q) && Legible(x, q) && !Enrolled(x, q))
              && (m[i].fate == OutOfWindow <==> Enrolled(x, q) && !Recent(x, q))
              && (m[i].fate == Eligible <==> Chosen(x, q))
    {
      FateExactly(x, x.snapshot.queries[i]);
    }
  }

  /** The selection: chosen queries only, a key of every chosen query, and each key once. */
  ghost predicate SelectedExactly(selected: seq<Query>, x: Context) {
    && (forall q :: q in selected ==> q in x.snapshot.queries && Chosen(x, q))
    && (forall q :: q in x.snapshot.queries && Chosen(x, q) ==> KeyOf(q) in KeysOf(selected))
    && (forall i, j :: 0 <= i < j < |selected| ==> KeyOf(selected[i]) != KeyOf(selected[j]))
  }

  lemma {:induction false} SelectedAreRead(c: Context, n: nat)
    requires n <= |c.snapshot.queries|
    ensures forall q :: q in Selected(c, n) ==> q in c.snapshot.queries
  {
    if n != 0 { SelectedAreRead(c, n - 1); }
  }

  lemma SelectionExactly(x: Context)
    ensures SelectedExactly(Selected(x, |x.snapshot.queries|), x)
  {
    var c, n := x, |x.snapshot.queries|;
    var selected := Selected(c, n);
    SelectionMeaning(c, n);
    SelectedAreRead(c, n);
    forall q | q in selected ensures Chosen(x, q) { FateExactly(x, q); }
    forall q | q in x.snapshot.queries && Chosen(x, q) ensures KeyOf(q) in KeysOf(selected) {
      FateExactly(x, q);
      var i :| 0 <= i < n && x.snapshot.queries[i] == q;
      assert KeyOf(q) in Taken(c, n);
    }
  }

  /** Every query can be read, and the first of each chosen key makes a valid
      observation, as `accepts` says. */
  ghost predicate AllWelcome(x: Context, accepts: Query -> bool) {
    var qs := x.snapshot.queries;
    forall i: nat :: i < |qs| ==> qs[i].wellFormed && Legible(x, qs[i]) && (FirstOfKey(x, i) ==> accepts(qs[i]))
  }

  ghost predicate FirstsAccepted(x: Context, n: nat, accepts: Query -> bool)
    requires n <= |x.snapshot.queries|
  {
    forall i: nat :: i < n && FirstOfKey(x, i) ==> accepts(x.snapshot.queries[i])
  }

  lemma AcceptedOneMore(s: seq<Query>, q: Query, accepts: Query -> bool)
    ensures AllAccepted(s + [q], accepts) <==> AllAccepted(s, accepts) && accepts(q)
  {
    var t := s + [q];
    assert t[|s|] == q && forall i :: 0 <= i < |s| ==> t[i] == s[i];
    if AllAccepted(t, accepts) { forall i | 0 <= i < |s| ensures accepts(s[i]) { assert accepts(t[i]); } }
  }

  lemma {:induction false} SelectedAreFirst(x: Context, n: nat, accepts: Query -> bool)
    requires n <= |x.snapshot.queries|
    ensures AllAccepted(Selected(x, n), accepts) <==> FirstsAccepted(x, n, accepts)
  {
    if n != 0 {
      SelectedAreFirst(x, n - 1, accepts);
      FreshExactly(x, n - 1);
      var s, q := Selected(x, n - 1), x.snapshot.queries[n - 1];
      if Fresh(x, n - 1) { AcceptedOneMore(s, q, accepts); } else { assert Selected(x, n) == s; }
      assert FirstsAccepted(x, n, accepts) <==>
             FirstsAccepted(x, n - 1, accepts) && (FirstOfKey(x, n - 1) ==> accepts(q));
    }
  }

  lemma WelcomeExactly(x: Context, accepts: Query -> bool)
    ensures AllAdmitted(x, |x.snapshot.queries|, accepts) <==> AllWelcome(x, accepts)
  {
    var qs := x.snapshot.queries;
    SelectedAreFirst(x, |qs|, accepts);
    forall i: nat | i < |qs| ensures FateOf(x, qs[i]) != Unreadable <==> Legible(x, qs[i]) {
      FateExactly(x, qs[i]);
    }
  }

  // ----- BuildObservations

  predicate ScopeAccepted(s: Snapshot, prefixes: seq<Prefix>, now: int, scope: string, sensor: string) {
    && scope != "" && sensor != "" && now != 0 && 1 <= |prefixes| <= MAX_PREFIXES && |s.queries| <= MAX_QUERIES
    && (s.logEnabled || |s.queries| == 0)
    && forall i :: 0 <= i < |prefixes| ==> prefixes[i].IsValid() && prefixes[i].IsMasked()
  }

  predicate AllReadable(c: Context, n: nat)
    requires n <= |c.snapshot.queries|
  { forall i :: 0 <= i < n ==> c.snapshot.queries[i].wellFormed && FateOf(c, c.snapshot.queries[i]) != Unreadable }

  predicate AllAccepted(s: seq<Query>, accepts: Query -> bool) { forall i :: 0 <= i < |s| ==> accepts(s[i]) }

  /** Every query can be read, and every selected one makes a valid observation, as
      `accepts` says. */
  predicate AllAdmitted(c: Context, n: nat, accepts: Query -> bool)
    requires n <= |c.snapshot.queries|
  { AllReadable(c, n) && AllAccepted(Selected(c, n), accepts) }

  lemma {:induction false} SelectionGrows(c: Context, m: nat, n: nat)
    requires m <= n <= |c.snapshot.queries|
    ensures Selected(c, m) <= Selected(c, n)
    decreases n
  {
    if m < n { SelectionGrows(c, m, n - 1); }
  }

  datatype Built = Built(selected: seq<Query>, stats: Stats)

  method CheckPrefixes(prefixes: seq<Prefix>) returns (ok: bool)
    ensures ok <==> forall i :: 0 <= i < |prefixes| ==> prefixes[i].IsValid() && prefixes[i].IsMasked()
  {
    for i := 0 to |prefixes|
      invariant forall j :: 0 <= j < i ==> prefixes[j].IsValid() && prefixes[j].IsMasked()
    {
      if !prefixes[i].IsValid() || !prefixes[i].IsMasked() { return false; }
    }
    return true;
  }

  /** Fails exactly when the scope is refused, some query cannot be read, or the first of
      some chosen key makes no valid observation; otherwise gives the selection with its
      counts. */
  method BuildObservations(s: Snapshot, prefixes: seq<Prefix>, now: int, scope: string, sensor: string,
                           accepts: Query -> bool) returns (r: Option<Built>)
    ensures r.Some? <==>
            ScopeAccepted(s, prefixes, now, scope, sensor) && AllWelcome(ContextOf(s, prefixes, now), accepts)
    ensures r.Some? ==>
              var x := ContextOf(s, prefixes, now);
              && r.value == Built(Selected(x, |s.queries|), StatsOf(x, |s.queries|))
              && SelectedExactly(r.value.selected, x) && r.value.stats == ExactCounts(x)
  {
    if scope == "" || sensor == "" || now == 0 || |prefixes| == 0 || |prefixes| > MAX_PREFIXES
        || |s.queries| > MAX_QUERIES { return None; }
    if !s.logEnabled && |s.queries| != 0 { return None; }
    var masked := CheckPrefixes(prefixes);
    if !masked { return None; }
    var x := ContextOf(s, prefixes, now);
    r := SelectQueries(x, accepts);
    WelcomeExactly(x, accepts);
    SelectionExactly(x);
    CountsExactly(x);
  }

  /** The loop over the query log. */
  method SelectQueries(c: Context, accepts: Query -> bool) returns (r: Option<Built>)
    ensures r.Some? <==> AllAdmitted(c, |c.snapshot.queries|, accepts)
    ensures r.Some? ==> var n := |c.snapshot.queries|; r.value == Built(Selected(c, n), StatsOf(c, n))
  {
    var qs := c.snapshot.queries;
    var p := Progress({}, Stats(0, 0, 0, 0, 0), []);
    for i := 0 to |qs|
      invariant p == Folded(c, i) && AllReadable(c, i) && AllAccepted(p.result, accepts)
    {
      var q := qs[i];
      if !q.wellFormed { return None; }
      var fate := FateOf(c, q);
      if fate == Unreadable { return None; }
      if fate == Eligible && KeyOf(q) !in p.seen && !accepts(q) {
        RefusedForGood(c, i, accepts);
        return None;
      }
      p := Advance(p, fate, q);
    }
    FoldedMeaning(c, |qs|);
    return Some(Built(p.result, p.stats));
  }

  /** What the loop carries: the keys seen, the counts, and the selection. */
  datatype Progress = Progress(seen: set<SourceKey>, stats: Stats, result: seq<Query>)

  function Advance(p: Progress, fate: Fate, q: Query): Progress {
    if fate == Eligible && KeyOf(q) !in p.seen
      then Progress(p.seen + {KeyOf(q)}, Bumped(p.stats, fate, true), p.result + [q])
    else p.(stats := Bumped(p.stats, fate, false))
  }

  function Folded(c: Context, n: nat): Progress
    requires n <= |c.snapshot.queries|
  {
    if n == 0 then Progress({}, Stats(0, 0, 0, 0, 0), [])
    else Advance(Folded(c, n - 1), FateOf(c, c.snapshot.queries[n - 1]), c.snapshot.queries[n - 1])
  }

  lemma {:induction false} FoldedMeaning(c: Context, n: nat)
    requires n <= |c.snapshot.queries|
    ensures Folded(c, n) == Progress(Taken(c, n), StatsOf(c, n), Selected(c, n))
  {
    if n != 0 {
      FoldedMeaning(c, n - 1);
      SelectionStep(c, n - 1);
    }
  }

  lemma RefusedForGood(c: Context, i: nat, accepts: Query -> bool)
    requires i < |c.snapshot.queries| && FateOf(c, c.snapshot.queries[i]) == Eligible
    requires KeyOf(c.snapshot.queries[i]) !in Folded(c, i).seen && !accepts(c.snapshot.queries[i])
    ensures !AllAccepted(Selected(c, |c.snapshot.queries|), accepts)
  {
    FoldedMeaning(c, i);
    SelectionStep(c, i);
    SelectionGrows(c, i + 1, |c.snapshot.queries|);
    assert !accepts(Selected(c, |c.snapshot.queries|)[|Selected(c, i)|]);
  }

  lemma SelectionStep(c: Context, i: nat)
    requires i < |c.snapshot.queries|
    ensures var q := c.snapshot.queries[i];
            var first := FateOf(c, q) == Eligible && KeyOf(q) !in Taken(c, i);
            && StatsOf(c, i + 1) == Bumped(StatsOf(c, i), FateOf(c, q), first)
            && Taken(c, i + 1) == (if first then Taken(c, i) + {KeyOf(q)} else Taken(c, i))
            && Selected(c, i + 1) == (if first then Selected(c, i) + [q] else Selected(c, i))
  {
    TakenByOneMore(c, i + 1);
    StatsOfOneMore(c, i + 1);
  }

  // ----- One collection

  /** What a collection meets. `ready` covers the scope, the review and the interface
      before the read; `sameScope` the same tests after it. */
  datatype Env = Env(ready: bool, auditsRequest: bool, prefixes: seq<Prefix>, now: int, read: Option<Snapshot>,
                     sameScope: bool, accepts: Query -> bool, ensuresSensor: bool, put: nat -> Put, auditsOutcome: bool)

  datatype Result = Result(scope: string, logEnabled: bool, read: nat, limitReached: bool, inserted: nat,
                           deduplicated: nat, skipped: Stats)

  const EMPTY_RESULT: Result := Result("", false, 0, false, 0, 0, Stats(0, 0, 0, 0, 0))

  /** Every query read is inserted, already stored, or skipped for one reason. */
  predicate Accounted(r: Result, scope: string, s: Snapshot) {
    && r.scope == scope && r.read == |s.queries| <= MAX_QUERIES && (r.limitReached <==> r.read == MAX_QUERIES)
    && r.logEnabled == s.logEnabled
    && r.inserted + r.deduplicated == r.skipped.selected && Total(r.skipped) == r.read
  }

  /** A stored observation: one for each sensor and source key. */
  datatype Row = Row(sensor: string, key: SourceKey)

  function RowsOf(sensor: string, selected: seq<Query>): seq<Row> {
    seq(|selected|, i requires 0 <= i < |selected| => Row(sensor, KeyOf(selected[i])))
  }

  /** The rows a successful collection leaves. */
  function Wanted(sensor: string, s: Snapshot, prefixes: seq<Prefix>, now: int): seq<Row> {
    RowsOf(sensor, Selected(ContextOf(s, prefixes, now), |s.queries|))
  }

  /** The rows of all chosen queries. */
  function ChosenRows(sensor: string, x: Context): set<Row> {
    set q | q in x.snapshot.queries && Chosen(x, q) :: Row(sensor, KeyOf(q))
  }

  lemma WantedAreChosen(sensor: string, x: Context)
    ensures var wanted := RowsOf(sensor, Selected(x, |x.snapshot.queries|));
            Elements(wanted, |wanted|) == ChosenRows(sensor, x)
  {
    var selected := Selected(x, |x.snapshot.queries|);
    var wanted := RowsOf(sensor, selected);
    SelectionExactly(x);
    forall row | row in Elements(wanted, |wanted|) ensures row in ChosenRows(sensor, x) {
      ElementsMember(wanted, |wanted|, row);
      var i :| 0 <= i < |wanted| && wanted[i] == row;
      assert selected[i] in selected;
    }
    forall q | q in x.snapshot.queries && Chosen(x, q) ensures Row(sensor, KeyOf(q)) in Elements(wanted, |wanted|) {
      ChosenIsWanted(sensor, selected, q);
    }
  }

  lemma ChosenIsWanted(sensor: string, selected: seq<Query>, q: Query)
    requires KeyOf(q) in KeysOf(selected)
    ensures var wanted := RowsOf(sensor, selected); Row(sensor, KeyOf(q)) in Elements(wanted, |wanted|)
  {
    var i :| 0 <= i < |selected| && KeyOf(selected[i]) == KeyOf(q);
    var wanted := RowsOf(sensor, selected);
    assert wanted[i] == Row(sensor, KeyOf(q));
    ElementsMember(wanted, |wanted|, Row(sensor, KeyOf(q)));
  }

  lemma WantedOnce(sensor: string, s: Snapshot, prefixes: seq<Prefix>, now: int)
    ensures Distinct(Wanted(sensor, s, prefixes, now))
  {
    SelectionMeaning(ContextOf(s, prefixes, now), |s.queries|);
  }

  /** The counts before anything is submitted. */
  function Counted(scope: string, s: Snapshot, stats: Stats): Result {
    Result(scope, s.logEnabled, |s.queries|, |s.queries| == MAX_QUERIES, 0, 0, stats)
  }

  /** The selection of the snapshot, with counts that account for every query. */
  ghost predicate BuiltOf(b: Built, s: Snapshot, prefixes: seq<Prefix>, now: int) {
    && |s.queries| <= MAX_QUERIES && b.selected == Selected(ContextOf(s, prefixes, now), |s.queries|)
    && Total(b.stats) == |s.queries| && b.stats.selected == |b.selected|
    && b.stats == ExactCounts(ContextOf(s, prefixes, now))
  }

  method BuildCounted(s: Snapshot, scope: string, sensor: string, env: Env) returns (r: Option<Built>)
    ensures r.Some? <==>
            && ScopeAccepted(s, env.prefixes, env.now, scope, sensor)
            && AllWelcome(ContextOf(s, env.prefixes, env.now), env.accepts)
    ensures r.Some? ==> BuiltOf(r.value, s, env.prefixes, env.now)
  {
    r := BuildObservations(s, env.prefixes, env.now, scope, sensor, env.accepts);
    if r.Some? { EveryQueryIsCounted(ContextOf(s, env.prefixes, env.now), |s.queries|); }
  }

  datatype Phase = Requested | Completed | Failed

  /** A successful collection accounts for every query, each count is the number of
      queries that meet its condition, the rows of all chosen queries are stored, and
      the result says how many of them were and were not stored before. */
  ghost predicate Collected(r: Result, scope: string, sensor: string, env: Env, before: set<Row>, after: set<Row>) {
    && env.read.Some? && Accounted(r, scope, env.read.value)
    && var x := ContextOf(env.read.value, env.prefixes, env.now);
       var rows := ChosenRows(sensor, x);
       && r.skipped == ExactCounts(x)
       && after == before + rows && r.inserted == |rows - before| && r.deduplicated == |rows * before|
  }

  /** The first of each chosen key is submitted, in order. */
  ghost function Submitted(env: Env): nat
    requires env.read.Some?
  {
    |Selected(ContextOf(env.read.value, env.prefixes, env.now), |env.read.value.queries|)|
  }

  /** The read succeeds and its queries are welcome. */
  ghost predicate Welcomed(scope: string, sensor: string, env: Env) {
    && env.read.Some? && env.sameScope && ScopeAccepted(env.read.value, env.prefixes, env.now, scope, sensor)
    && AllWelcome(ContextOf(env.read.value, env.prefixes, env.now), env.accepts)
  }

  /** Every one of n submissions works. */
  ghost predicate Delivers(n: nat, env: Env) {
    n > 0 ==> env.ensuresSensor && forall i :: 0 <= i < n ==> env.put(i) == Works
  }

  ghost predicate Stores(scope: string, sensor: string, env: Env) {
    Welcomed(scope, sensor, env) && Delivers(Submitted(env), env)
  }

  predicate Audits(env: Env) { env.ready && env.auditsRequest && env.auditsOutcome }

  lemma StoresExactly(scope: string, sensor: string, env: Env, built: Option<Built>, ok: bool)
    requires env.read.Some? && env.sameScope
    requires built.Some? <==>
             && ScopeAccepted(env.read.value, env.prefixes, env.now, scope, sensor)
             && AllWelcome(ContextOf(env.read.value, env.prefixes, env.now), env.accepts)
    requires built.Some? ==> |built.value.selected| == Submitted(env) && (ok <==> Delivers(|built.value.selected|, env))
    ensures Stores(scope, sensor, env) <==> built.Some? && ok
  {
  }

  lemma NothingToSubmit(r: Result, scope: string, sensor: string, env: Env, before: set<Row>)
    requires env.read.Some? && Accounted(r, scope, env.read.value) && r.inserted == r.deduplicated == 0
    requires r.skipped == ExactCounts(ContextOf(env.read.value, env.prefixes, env.now))
    requires Wanted(sensor, env.read.value, env.prefixes, env.now) == []
    ensures Collected(r, scope, sensor, env, before, before)
  {
    var none: set<Row> := {};
    WantedAreChosen(sensor, ContextOf(env.read.value, env.prefixes, env.now));
    assert none - before == {} && none * before == {};
  }

  class Collector {
    var stored: set<Row>
    var audit: seq<Phase>

    constructor ()
      ensures stored == {} && audit == []
    { stored, audit := {}, []; }

    /** The submission loop, over selected queries with their counts. */
    method Submit(scope: string, sensor: string, built: Built, env: Env) returns (r: Result, ok: bool)
      requires env.read.Some? && BuiltOf(built, env.read.value, env.prefixes, env.now)
      modifies this`stored
      ensures ok <==> forall i :: 0 <= i < |built.selected| ==> env.put(i) == Works
      ensures ok ==> Collected(r, scope, sensor, env, old(stored), stored)
      ensures old(stored) <= stored
    {
      var s := env.read.value;
      var wanted := RowsOf(sensor, built.selected);
      var offered := OfferAll(stored, wanted, env.put);
      WantedOnce(sensor, s, env.prefixes, env.now);
      WantedAreChosen(sensor, ContextOf(s, env.prefixes, env.now));
      if offered.ok { OfferedOnce(stored, wanted, offered); }
      stored := offered.rows;
      r := Counted(scope, s, built.stats).(inserted := offered.inserted, deduplicated := offered.deduplicated);
      ok := offered.ok;
    }

    /** What was selected is stored, if there is any. */
    method Deliver(scope: string, sensor: string, built: Built, env: Env) returns (r: Result, ok: bool)
      requires env.read.Some? && BuiltOf(built, env.read.value, env.prefixes, env.now)
      modifies this`stored
      ensures ok <==> Delivers(|built.selected|, env)
      ensures ok ==> Collected(r, scope, sensor, env, old(stored), stored)
      ensures old(stored) <= stored
    {
      if |built.selected| == 0 {
        r := Counted(scope, env.read.value, built.stats);
        NothingToSubmit(r, scope, sensor, env, stored);
        return r, true;
      }
      if !env.ensuresSensor { return EMPTY_RESULT, false; }
      r, ok := Submit(scope, sensor, built, env);
    }

    /** The collection once its request is on the audit log. */
    method Read(scope: string, sensor: string, env: Env) returns (r: Result, ok: bool)
      modifies this`stored
      ensures ok == Stores(scope, sensor, env)
      ensures ok ==> Collected(r, scope, sensor, env, old(stored), stored)
      ensures old(stored) <= stored
    {
      if env.read.None? || !env.sameScope { return EMPTY_RESULT, false; }
      var built := BuildCounted(env.read.value, scope, sensor, env);
      if built.None? {
        StoresExactly(scope, sensor, env, built, false);
        return EMPTY_RESULT, false;
      }
      r, ok := Deliver(scope, sensor, built.value, env);
      StoresExactly(scope, sensor, env, built, ok);
    }

    /** The deferred record of the outcome; without it a success is none. */
    method Record(done: bool, audits: bool) returns (ok: bool)
      modifies this`audit
      ensures ok <==> done && audits
      ensures audit == old(audit) + if audits then [if done then Completed else Failed] else []
    {
      if audits { audit := audit + [if done then Completed else Failed]; }
      ok := done && audits;
    }

    /** `collect`: nothing is stored before the request is audited, the outcome follows,
        and a success, which comes exactly when every step works, accounts for every
        query. */
    method Collect(scope: string, sensor: string, env: Env) returns (r: Result, ok: bool)
      modifies this
      ensures ok == (Audits(env) && Stores(scope, sensor, env))
      ensures !ok || Collected(r, scope, sensor, env, old(stored), stored)
      ensures ok ==> audit == old(audit) + [Requested, Completed]
      ensures old(stored) <= stored
      ensures stored != old(stored) ==> |audit| > |old(audit)| && audit[|old(audit)|] == Requested
      ensures Audits(env) && !ok ==> audit == old(audit) + [Requested, Failed]
    {
      if !env.ready || !env.auditsRequest { return EMPTY_RESULT, false; }
      audit := audit + [Requested];
      var done;
      r, done := Read(scope, sensor, env);
      ok := Record(done, env.auditsOutcome);
    }
  }

  // ----- The projection and the browser's check

  datatype Projected = Projected(scope: string, logEnabled: bool, read: int, inserted: int, deduplicated: int,
                                 outsideScope: int,
                                 withoutClientIp: int, outsideWindow: int, limitReached: bool)

  /** `CollectAdGuard`: in-batch duplicates count as deduplicated. */
  function Project(r: Result): Projected {
    Projected(r.scope, r.logEnabled, r.read, r.inserted, r.deduplicated + r.skipped.duplicate, r.skipped.outsideScope,
              r.skipped.withoutClientIp, r.skipped.outsideWindow, r.limitReached)
  }

  predicate BrowserAccepts(p: Projected, reviewed: string) {
    && p.scope == reviewed && 0 <= p.read <= MAX_QUERIES && p.inserted >= 0 && p.deduplicated >= 0
    && p.outsideScope >= 0 && p.outsideWindow >= 0 && p.withoutClientIp >= 0
    && p.limitReached == (p.read == MAX_QUERIES)
    && p.inserted + p.deduplicated + p.outsideScope + p.outsideWindow + p.withoutClientIp == p.read
  }

  /** The accounting survives the projection, so the browser accepts the result of
      every successful collection. */
  lemma AccountingSurvives(r: Result, scope: string, s: Snapshot)
    requires Accounted(r, scope, s)
    ensures BrowserAccepts(Project(r), scope)
  {
  }

  /** What the browser is shown says of every query what became of it: stored now,
      stored before or repeated in the log, and skipped for each of the three reasons. */
  ghost predicate ShownExactly(p: Projected, sensor: string, env: Env, before: set<Row>)
    requires env.read.Some?
  {
    var x := ContextOf(env.read.value, env.prefixes, env.now);
    var rows, counts := ChosenRows(sensor, x), ExactCounts(x);
    && p.read == |x.snapshot.queries| && p.inserted == |rows - before|
    && p.deduplicated == |rows * before| + counts.duplicate && p.withoutClientIp == counts.withoutClientIp
    && p.outsideScope == counts.outsideScope && p.outsideWindow == counts.outsideWindow
  }

  /** Through every layer: a collection that succeeds gives counters the browser's
      check accepts, and each of them is what it says. */
  method CollectForBrowser(collector: Collector, scope: string, sensor: string, env: Env) returns (p: Option<Projected>)
    modifies collector
    ensures p.Some? <==> Audits(env) && Stores(scope, sensor, env)
    ensures p.Some? ==> BrowserAccepts(p.value, scope) && env.read.Some?
                        && ShownExactly(p.value, sensor, env, old(collector.stored))
  {
    var r, ok := collector.Collect(scope, sensor, env);
    if !ok { return None; }
    AccountingSurvives(r, scope, env.read.value);
    return Some(Project(r));
  }
}
