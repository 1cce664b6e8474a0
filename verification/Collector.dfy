/** Model of internal/controller/devicewatch/neighbor.go (deduplication in place) and
    collector.go (one collection and the coverage sample it leaves). */
module Collector {
  import opened Ordering
  import opened Storing
  import D = DeviceWatchCoverage

  // ----- Neighbours and their deduplication

  /** `address` and `hardware` are the canonical texts the key is made of. */
  datatype Neighbor = Neighbor(sourceMethod: string, interfaceName: string, address: string, hardware: string,
                               state: string)

  function Key(n: Neighbor): string {
    n.sourceMethod + ['\0'] + n.interfaceName + ['\0'] + n.address + ['\0'] + n.hardware
  }

  predicate Clean(s: string) { '\0' !in s }

  lemma SplitAtZero(a: string, b: string, c: string, d: string)
    requires Clean(a) && Clean(c) && a + ['\0'] + b == c + ['\0'] + d
    ensures a == c && b == d
  {
    var left, right := a + ['\0'] + b, c + ['\0'] + d;
    assert left[|a|] == '\0' && right[|c|] == '\0';
    assert forall i :: 0 <= i < |a| ==> left[i] == a[i] != '\0';
    assert forall i :: 0 <= i < |c| ==> right[i] == c[i] != '\0';
    assert left[..|a|] == a && right[..|c|] == c && left[|a| + 1..] == b && right[|c| + 1..] == d;
  }

  /** The key tells two neighbours apart exactly when they differ in source, interface,
      address or hardware address. */
  lemma KeyExactly(a: Neighbor, b: Neighbor)
    requires Clean(a.sourceMethod) && Clean(a.interfaceName) && Clean(a.address)
             && Clean(b.sourceMethod) && Clean(b.interfaceName) && Clean(b.address)
    ensures Key(a) == Key(b) <==>
            && a.sourceMethod == b.sourceMethod && a.interfaceName == b.interfaceName && a.address == b.address
            && a.hardware == b.hardware
  {
    if Key(a) == Key(b) {
      var a2, b2 := a.address + ['\0'] + a.hardware, b.address + ['\0'] + b.hardware;
      var a1, b1 := a.interfaceName + ['\0'] + a2, b.interfaceName + ['\0'] + b2;
      assert Key(a) == a.sourceMethod + ['\0'] + a1 && Key(b) == b.sourceMethod + ['\0'] + b1;
      SplitAtZero(a.sourceMethod, a1, b.sourceMethod, b1);
      SplitAtZero(a.interfaceName, a2, b.interfaceName, b2);
      SplitAtZero(a.address, a.hardware, b.address, b.hardware);
    }
  }

  /** Of each run of equal keys, the first. */
  function Compact<T>(s: seq<T>, key: T -> string): seq<T> {
    if |s| == 0 then []
    else
      var r := Compact(s[..|s| - 1], key);
      if |r| > 0 && key(r[|r| - 1]) == key(s[|s| - 1]) then r else r + [s[|s| - 1]]
  }

  predicate Ascending<T>(s: seq<T>, key: T -> string) {
    forall i, j :: 0 <= i < j < |s| ==> StrLe(key(s[i]), key(s[j])) && key(s[i]) != key(s[j])
  }

  function Keys<T>(s: seq<T>, key: T -> string): set<string> { set i | 0 <= i < |s| :: key(s[i]) }

  lemma KeysOfAppended<T>(s: seq<T>, x: T, key: T -> string)
    ensures Keys(s + [x], key) == Keys(s, key) + {key(x)}
  {
    assert (s + [x])[|s|] == x;
    forall i | 0 <= i < |s| ensures (s + [x])[i] == s[i] { }
    assert forall k :: k in Keys(s, key) ==> k in Keys(s + [x], key) by {
      forall k | k in Keys(s, key) ensures k in Keys(s + [x], key) {
        var i :| 0 <= i < |s| && key(s[i]) == k;
        assert key((s + [x])[i]) == k;
      }
    }
    assert key((s + [x])[|s|]) in Keys(s + [x], key);
  }

  /** Nothing new, no key lost, and the last key is the last. */
  lemma {:induction false} CompactKeepsKeys<T>(s: seq<T>, key: T -> string)
    ensures |Compact(s, key)| <= |s|
    ensures |s| > 0 ==> |Compact(s, key)| > 0 && key(Compact(s, key)[|Compact(s, key)| - 1]) == key(s[|s| - 1])
    ensures Keys(Compact(s, key), key) == Keys(s, key)
  {
    if |s| != 0 {
      var n := |s| - 1;
      CompactKeepsKeys(s[..n], key);
      assert s == s[..n] + [s[n]];
      KeysOfAppended(s[..n], s[n], key);
      var r := Compact(s[..n], key);
      KeysOfAppended(r, s[n], key);
      if Compact(s, key) == r { assert key(r[|r| - 1]) in Keys(r, key); }
    }
  }

  lemma {:induction false} CompactInventsNothing<T>(s: seq<T>, key: T -> string)
    ensures forall x :: x in Compact(s, key) ==> x in s
  {
    if |s| != 0 {
      CompactInventsNothing(s[..|s| - 1], key);
      assert s == s[..|s| - 1] + [s[|s| - 1]];
    }
  }

  lemma {:induction false} CompactAscends<T>(s: seq<T>, key: T -> string)
    requires SortedBy(s, key)
    ensures Ascending(Compact(s, key), key)
  {
    if |s| != 0 {
      var n := |s| - 1;
      CompactAscends(s[..n], key);
      var r := Compact(s[..n], key);
      if Compact(s, key) != r {
        forall i | 0 <= i < |r| ensures StrLe(key(r[i]), key(s[n])) && key(r[i]) != key(s[n]) {
          LastIsGreatest(s, r, i, key);
        }
      }
    }
  }

  lemma KeptIsBelow<T>(s: seq<T>, n: nat, k: string, key: T -> string)
    requires n < |s| && SortedBy(s, key) && k in Keys(s[..n], key)
    ensures StrLe(k, key(s[n]))
  {
    var i :| 0 <= i < n && key(s[..n][i]) == k;
    assert s[i] == s[..n][i];
  }

  /** An element kept earlier is below a new key at the end. */
  lemma LastIsGreatest<T>(s: seq<T>, r: seq<T>, i: nat, key: T -> string)
    requires |s| > 0 && SortedBy(s, key) && r == Compact(s[..|s| - 1], key) && Ascending(r, key) && i < |r|
    requires key(r[|r| - 1]) != key(s[|s| - 1])
    ensures StrLe(key(r[i]), key(s[|s| - 1])) && key(r[i]) != key(s[|s| - 1])
  {
    var n := |s| - 1;
    CompactKeepsKeys(s[..n], key);
    assert key(r[i]) in Keys(r, key) && key(r[|r| - 1]) in Keys(r, key);
    KeptIsBelow(s, n, key(r[i]), key);
    KeptIsBelow(s, n, key(r[|r| - 1]), key);
    if key(r[i]) == key(s[n]) && i < |r| - 1 {
      StrLeAntisymmetric(key(r[|r| - 1]), key(s[n]));
    }
  }

  /** Deduplication as a function: sort by key, keep one of each. */
  function Deduplicated(s: seq<Neighbor>): seq<Neighbor> { Compact(SortBy(s, Key), Key) }

  lemma KeysOfPermutation<T>(a: seq<T>, b: seq<T>, key: T -> string)
    requires multiset(a) == multiset(b)
    ensures Keys(a, key) <= Keys(b, key)
  {
    PermutationKeepsDistinct(a, b);
    forall k | k in Keys(a, key) ensures k in Keys(b, key) {
      var i :| 0 <= i < |a| && key(a[i]) == k;
      assert a[i] in b;
      var j :| 0 <= j < |b| && b[j] == a[i];
      assert key(b[j]) == k;
    }
  }

  /** What remains is strictly ascending by key, so each key occurs once; its keys are
      exactly those there were; and every element was there before. */
  lemma DeduplicatedMeaning(s: seq<Neighbor>)
    ensures var r := Deduplicated(s);
            && Ascending(r, Key) && Keys(r, Key) == Keys(s, Key) && |r| <= |s| && (forall x :: x in r ==> x in s)
  {
    DeduplicatedBy(s, Key);
  }

  lemma DeduplicatedBy<T>(s: seq<T>, key: T -> string)
    ensures var r := Compact(SortBy(s, key), key);
            && Ascending(r, key) && Keys(r, key) == Keys(s, key) && |r| <= |s| && (forall x :: x in r ==> x in s)
  {
    var t := SortBy(s, key);
    SortBySorts(s, key);
    CompactAscends(t, key);
    CompactKeepsKeys(t, key);
    KeysOfPermutation(s, t, key);
    KeysOfPermutation(t, s, key);
    SortedInventsNothing(s, t, key);
  }

  lemma SortedInventsNothing<T>(s: seq<T>, t: seq<T>, key: T -> string)
    requires multiset(s) == multiset(t)
    ensures forall x :: x in Compact(t, key) ==> x in s
  {
    CompactInventsNothing(t, key);
    PermutationKeepsDistinct(s, t);
  }

  /** `deduplicateNeighbors`: the array is sorted and compacted in place. */
  method DeduplicateNeighbors(a: array<Neighbor>) returns (n: nat)
    modifies a
    ensures n <= a.Length && a[..n] == Deduplicated(old(a[..]))
  {
    var sorted := SortBy(a[..], Key);
    for i := 0 to a.Length
      invariant a[..i] == sorted[..i]
    {
      a[i] := sorted[i];
    }
    assert a[..] == sorted;
    n := Compacted(a, Key);
  }

  /** The compaction loop: what is read is never behind what is written. */
  method Compacted<T>(a: array<T>, key: T -> string) returns (n: nat)
    modifies a
    ensures n <= a.Length && a[..n] == Compact(old(a[..]), key)
  {
    ghost var s := a[..];
    n := 0;
    for i := 0 to a.Length
      invariant n <= i && a[..n] == Compact(s[..i], key)
      invariant forall j :: i <= j < a.Length ==> a[j] == s[j]
    {
      assert s[..i + 1][..i] == s[..i];
      var x := a[i];
      if n == 0 || key(x) != key(a[n - 1]) {
        a[n] := x;
        n := n + 1;
      }
    }
    assert s[..a.Length] == s;
  }

  // ----- One collection

  datatype SourceStatus = SourceStatus(sourceMethod: string, available: bool, permissionRequired: bool)
  datatype Snapshot = Snapshot(capturedAt: int, interfaceName: string, neighbors: seq<Neighbor>,
                               sources: seq<SourceStatus>)

  /** A failed snapshot carries per-source health, or only its cause. */
  datatype Attempt = Taken(snapshot: Snapshot) | NotTaken(permission: bool, sources: Option<seq<SourceStatus>>)

  /** What the collector meets: whether the scope still matches, the snapshot, which
      neighbours are in scope, whether each observation is accepted and stored, the
      clock, and whether the sample is stored. */
  datatype Env = Env(scopeMatches: bool, attempt: Attempt, inScope: Neighbor -> bool, put: nat -> Put, now: int,
                     storesSample: bool)

  const MINUTE: int := 60 * D.SECOND

  /** What is hashed into the source key: a neighbour is stored once a minute. */
  datatype Observation = Observation(scope: string, sensor: string, interfaceName: string, sourceMethod: string,
                                     address: string, hardware: string, minute: int)

  /** Where and when a batch of neighbours was seen. */
  datatype Place = Place(scope: string, sensor: string, at: int)

  function ObservationOf(p: Place, n: Neighbor): Observation {
    Observation(p.scope, p.sensor, n.interfaceName, n.sourceMethod, n.address, n.hardware, p.at / MINUTE)
  }

  /** Two sightings are one observation exactly when they are of one neighbour, by one
      sensor in one scope, in one minute. */
  lemma ObservationExactly(p: Place, q: Place, a: Neighbor, b: Neighbor)
    ensures ObservationOf(p, a) == ObservationOf(q, b) <==>
            && p.scope == q.scope && p.sensor == q.sensor && p.at / (60 * D.SECOND) == q.at / (60 * D.SECOND)
            && a.sourceMethod == b.sourceMethod && a.interfaceName == b.interfaceName && a.address == b.address
            && a.hardware == b.hardware
  {
  }

  function ObservationsOf(p: Place, neighbors: seq<Neighbor>): seq<Observation> {
    seq(|neighbors|, i requires 0 <= i < |neighbors| => ObservationOf(p, neighbors[i]))
  }

  function Observed(p: Place, neighbors: seq<Neighbor>): set<Observation> {
    Elements(ObservationsOf(p, neighbors), |neighbors|)
  }

  /** Deduplicated neighbours give one observation each. */
  lemma OneObservationEach(p: Place, neighbors: seq<Neighbor>)
    requires Ascending(neighbors, Key)
    ensures Distinct(ObservationsOf(p, neighbors))
  {
    var s := ObservationsOf(p, neighbors);
    forall i, j | 0 <= i < j < |s| ensures s[i] != s[j] {
      assert Key(neighbors[i]) != Key(neighbors[j]);
    }
  }

  datatype Counts = Counts(visible: nat, inserted: nat, deduplicated: nat)

  function MethodOf(s: SourceStatus): string { s.sourceMethod }

  const LIMITATIONS: seq<string> :=
    ["recent-peers-only", "segments-absent", "no-traffic"]

  function EvidenceSources(sources: seq<SourceStatus>): seq<D.EvidenceSource> {
    var sorted := SortBy(sources, MethodOf);
    seq(|sorted|, i requires 0 <= i < |sorted| => EvidenceSourceOf(sorted[i]))
  }

  /** The sample `putCoverage` writes. */
  function SampleFor(sensor: string, interfaceName: string, capturedAt: int, sources: seq<SourceStatus>, c: Counts,
                     status: string): D.Sample {
    D.Sample(sensor, status, capturedAt, 2,
             Some(D.Evidence(2, interfaceName, EvidenceSources(sources), c.visible, c.inserted, c.deduplicated, false,
                             LIMITATIONS)))
  }

  predicate AnyAvailable(sources: seq<SourceStatus>) { exists i :: 0 <= i < |sources| && sources[i].available }

  function StatusFor(sources: seq<SourceStatus>): string { if AnyAvailable(sources) then "partial" else "unavailable" }

  /** One ARP and one NDP source, in either order. */
  predicate OneOfEach(sources: seq<SourceStatus>) {
    && |sources| == 2
    && ((sources[0].sourceMethod == D.ARP && sources[1].sourceMethod == D.NDP)
        || (sources[0].sourceMethod == D.NDP && sources[1].sourceMethod == D.ARP))
  }

  function Filtered(s: seq<Neighbor>, keep: Neighbor -> bool): seq<Neighbor> {
    if |s| == 0 then [] else Filtered(s[..|s| - 1], keep) + if keep(s[|s| - 1]) then [s[|s| - 1]] else []
  }

  lemma {:induction false} FilteredIsShorter(s: seq<Neighbor>, keep: Neighbor -> bool)
    ensures |Filtered(s, keep)| <= |s|
  {
    if |s| != 0 { FilteredIsShorter(s[..|s| - 1], keep); }
  }

  function Visible(snapshot: Snapshot, interfaceName: string, inScope: Neighbor -> bool): seq<Neighbor> {
    Deduplicated(Filtered(snapshot.neighbors, (n: Neighbor) => n.interfaceName == interfaceName && inScope(n)))
  }

  lemma {:induction false} FilteredExactly(s: seq<Neighbor>, keep: Neighbor -> bool)
    ensures forall n :: n in Filtered(s, keep) <==> n in s && keep(n)
  {
    if |s| != 0 {
      FilteredExactly(s[..|s| - 1], keep);
      assert s == s[..|s| - 1] + [s[|s| - 1]];
    }
  }

  /** What is visible: only neighbours of the snapshot that are on the interface and in
      scope, and one for the key of each of those. */
  lemma VisibleExactly(snapshot: Snapshot, interfaceName: string, inScope: Neighbor -> bool)
    ensures var seen := Visible(snapshot, interfaceName, inScope);
            && (forall n :: n in seen ==> n in snapshot.neighbors && n.interfaceName == interfaceName && inScope(n))
            && (forall n :: n in snapshot.neighbors && n.interfaceName == interfaceName && inScope(n) ==>
                  exists i :: 0 <= i < |seen| && Key(seen[i]) == Key(n))
            && Ascending(seen, Key)
  {
    var keep := (n: Neighbor) => n.interfaceName == interfaceName && inScope(n);
    var kept, seen := Filtered(snapshot.neighbors, keep), Visible(snapshot, interfaceName, inScope);
    FilteredExactly(snapshot.neighbors, keep);
    DeduplicatedMeaning(kept);
    forall n | n in snapshot.neighbors && n.interfaceName == interfaceName && inScope(n)
      ensures exists i :: 0 <= i < |seen| && Key(seen[i]) == Key(n)
    {
      var j :| 0 <= j < |kept| && kept[j] == n;
      assert Key(n) in Keys(kept, Key);
      assert Key(n) in Keys(seen, Key);
    }
  }

  /** The sources of a sample are the snapshot's own, and a permission is missing only
      where the source was not available. */
  lemma EvidenceSourcesExactly(sources: seq<SourceStatus>)
    ensures |EvidenceSources(sources)| == |sources|
    ensures forall s :: s in sources ==>
              D.EvidenceSource(s.sourceMethod, s.available, s.permissionRequired && !s.available)
              in EvidenceSources(sources)
  {
    var sorted := SortBy(sources, MethodOf);
    PermutationKeepsDistinct(sources, sorted);
    forall s | s in sources
      ensures D.EvidenceSource(s.sourceMethod, s.available, s.permissionRequired && !s.available)
              in EvidenceSources(sources)
    {
      assert s in sorted;
      var i :| 0 <= i < |sorted| && sorted[i] == s;
      assert EvidenceSources(sources)[i] == EvidenceSourceOf(s);
    }
  }

  /** The sample of a success: taken when the snapshot was, or now if that is not known,
      with its counts and sources, and partial exactly when a source was available. The
      sample of a failed snapshot: taken now, of nothing, and unavailable. */
  lemma SamplesExactly(sensor: string, interfaceName: string, env: Env, c: Counts)
    ensures env.attempt.Taken? ==>
              var s, snapshot := SuccessSample(sensor, interfaceName, env, c), env.attempt.snapshot;
              && s.sensor == sensor && s.schema == 2 && s.evidence.Some?
              && s.endedAt == (if snapshot.capturedAt == 0 then env.now else snapshot.capturedAt)
              && s.status == (if exists i :: 0 <= i < |snapshot.sources| && snapshot.sources[i].available
                              then "partial" else "unavailable")
              && var e := s.evidence.value;
                 && e.schema == 2 && e.interfaceName == interfaceName && !e.wholeNetworkVisible
                 && e.neighbors == c.visible && e.inserted == c.inserted && e.deduplicated == c.deduplicated
                 && e.sources == EvidenceSources(snapshot.sources)
    ensures env.attempt.NotTaken? ==>
              var s := FailureSample(sensor, interfaceName, env);
              && s.sensor == sensor && s.schema == 2 && s.endedAt == env.now && s.status == "unavailable"
              && s.evidence.Some?
              && var e := s.evidence.value;
                 && e.interfaceName == interfaceName && e.neighbors == e.inserted == e.deduplicated == 0
                 && e.sources == EvidenceSources(FailedSources(env.attempt))
  {
  }

  /** Everything a collection needs: the enrolled scope, a snapshot of the interface that
      is not too long, and every write. */
  ghost predicate Completes(interfaceName: string, env: Env) {
    && env.scopeMatches && env.attempt.Taken? && env.attempt.snapshot.interfaceName == interfaceName
    && |env.attempt.snapshot.neighbors| <= D.MAX_NEIGHBORS && env.storesSample
    && forall i :: 0 <= i < |Visible(env.attempt.snapshot, interfaceName, env.inScope)| ==> env.put(i) == Works
  }

  /** The sample of a failed snapshot, and of a successful collection. */
  function FailureSample(sensor: string, interfaceName: string, env: Env): D.Sample
    requires env.attempt.NotTaken?
  { SampleFor(sensor, interfaceName, env.now, FailedSources(env.attempt), Counts(0, 0, 0), "unavailable") }

  function CapturedAt(env: Env): int
    requires env.attempt.Taken?
  { if env.attempt.snapshot.capturedAt == 0 then env.now else env.attempt.snapshot.capturedAt }

  function SuccessSample(sensor: string, interfaceName: string, env: Env, c: Counts): D.Sample
    requires env.attempt.Taken?
  {
    var sources := env.attempt.snapshot.sources;
    SampleFor(sensor, interfaceName, CapturedAt(env), sources, c, StatusFor(sources))
  }

  class Sink {
    var observations: set<Observation>
    var samples: seq<D.Sample>

    constructor ()
      ensures observations == {} && samples == []
    { observations, samples := {}, []; }

    method PutCoverage(sample: D.Sample, stores: bool) returns (ok: bool)
      modifies this`samples
      ensures ok == stores && samples == if stores then old(samples) + [sample] else old(samples)
    {
      if stores { samples := samples + [sample]; }
      return stores;
    }

    /** `CollectOnce`: success, which comes exactly when `Completes` holds, stores every
        visible neighbour not stored before and one sample whose counts say how many were
        and were not; with one ARP and one NDP source that sample is usable. A failed
        snapshot may leave a sample that says so, usable exactly when no source was
        available; any other failure leaves none. */
    method CollectOnce(scope: string, sensor: string, interfaceName: string, env: Env)
      returns (counts: Counts, ok: bool)
      modifies this
      ensures ok == Completes(interfaceName, env)
      ensures ok ==> env.attempt.Taken? && env.attempt.snapshot.interfaceName == interfaceName
      ensures ok ==> var seen := Visible(env.attempt.snapshot, interfaceName, env.inScope);
                     var all := Observed(Place(scope, sensor, CapturedAt(env)), seen);
                     && observations == old(observations) + all && counts.visible == |seen| <= D.MAX_NEIGHBORS
                     && counts.inserted == |all - old(observations)| && counts.deduplicated == |all * old(observations)|
                     && counts.inserted + counts.deduplicated == counts.visible
      ensures ok ==> samples == old(samples) + [SuccessSample(sensor, interfaceName, env, counts)]
      ensures ok && D.ValidInterfaceName(interfaceName) && OneOfEach(env.attempt.snapshot.sources) ==>
                D.Usable(samples[|samples| - 1])
      ensures env.scopeMatches && env.attempt.NotTaken? && env.storesSample ==> samples != old(samples)
      ensures !ok && samples != old(samples) ==>
                env.attempt.NotTaken? && samples == old(samples) + [FailureSample(sensor, interfaceName, env)]
      ensures !ok && samples != old(samples) && D.ValidInterfaceName(interfaceName)
              && OneOfEach(FailedSources(env.attempt)) ==>
                (D.Usable(samples[|samples| - 1]) <==> !AnyAvailable(FailedSources(env.attempt)))
    {
      counts := Counts(0, 0, 0);
      if !env.scopeMatches { return counts, false; }
      if env.attempt.NotTaken? {
        if D.ValidInterfaceName(interfaceName) && OneOfEach(FailedSources(env.attempt)) {
          SampleUsableExactly(sensor, interfaceName, env.now, FailedSources(env.attempt), counts, "unavailable");
        }
        var _ := PutCoverage(FailureSample(sensor, interfaceName, env), env.storesSample);
        return counts, false;
      }
      if env.attempt.snapshot.interfaceName != interfaceName { return counts, false; }
      if |env.attempt.snapshot.neighbors| > D.MAX_NEIGHBORS { return counts, false; }
      counts, ok := StoreAll(scope, sensor, interfaceName, env);
      if !ok { return; }
      if D.ValidInterfaceName(interfaceName) && OneOfEach(env.attempt.snapshot.sources) {
        var sources := env.attempt.snapshot.sources;
        SampleUsableExactly(sensor, interfaceName, CapturedAt(env), sources, counts, StatusFor(sources));
      }
      ok := PutCoverage(SuccessSample(sensor, interfaceName, env, counts), env.storesSample);
    }

    /** Filter, deduplicate and store the snapshot's neighbours. */
    method StoreAll(scope: string, sensor: string, interfaceName: string, env: Env) returns (counts: Counts, ok: bool)
      requires env.attempt.Taken? && |env.attempt.snapshot.neighbors| <= D.MAX_NEIGHBORS
      modifies this`observations
      ensures ok == forall i :: 0 <= i < |Visible(env.attempt.snapshot, interfaceName, env.inScope)| ==>
                      env.put(i) == Works
      ensures ok ==> var seen := Visible(env.attempt.snapshot, interfaceName, env.inScope);
                     var all := Observed(Place(scope, sensor, CapturedAt(env)), seen);
                     && observations == old(observations) + all && counts.visible == |seen| <= D.MAX_NEIGHBORS
                     && counts.inserted == |all - old(observations)| && counts.deduplicated == |all * old(observations)|
                     && counts.inserted + counts.deduplicated == counts.visible
    {
      var p := Place(scope, sensor, CapturedAt(env));
      var neighbors := Keep(env.attempt.snapshot, interfaceName, env.inScope);
      var wanted := ObservationsOf(p, neighbors);
      var stored := OfferAll(observations, wanted, env.put);
      OneObservationEach(p, neighbors);
      if stored.ok { OfferedOnce(observations, wanted, stored); }
      observations := stored.rows;
      counts := Counts(|neighbors|, stored.inserted, stored.deduplicated);
      ok := stored.ok;
    }
  }

  /** The filtering loop, then deduplication in place. */
  method Keep(snapshot: Snapshot, interfaceName: string, inScope: Neighbor -> bool) returns (kept: seq<Neighbor>)
    ensures kept == Visible(snapshot, interfaceName, inScope) && |kept| <= |snapshot.neighbors| && Ascending(kept, Key)
  {
    var keep := (n: Neighbor) => n.interfaceName == interfaceName && inScope(n);
    kept := [];
    for i := 0 to |snapshot.neighbors|
      invariant kept == Filtered(snapshot.neighbors[..i], keep)
    {
      assert snapshot.neighbors[..i + 1][..i] == snapshot.neighbors[..i];
      var n := snapshot.neighbors[i];
      if n.interfaceName == interfaceName && inScope(n) { kept := kept + [n]; }
    }
    assert snapshot.neighbors[..|snapshot.neighbors|] == snapshot.neighbors;
    FilteredIsShorter(snapshot.neighbors, keep);
    DeduplicatedMeaning(kept);
    var a := new Neighbor[|kept|](i requires 0 <= i < |kept| => kept[i]);
    assert a[..] == kept;
    var n := DeduplicateNeighbors(a);
    kept := a[..n];
  }

  function FailedSources(attempt: Attempt): seq<SourceStatus>
    requires attempt.NotTaken?
  {
    if attempt.sources.Some? then attempt.sources.value
    else [SourceStatus(D.ARP, false, attempt.permission), SourceStatus(D.NDP, false, attempt.permission)]
  }

  // ----- The written sample is never classed as invalid

  lemma EvidenceSourcesValid(sources: seq<SourceStatus>)
    requires OneOfEach(sources)
    ensures var e := EvidenceSources(sources);
            && |e| == 2 && D.ValidEvidenceSource(2, e[0]) && D.ValidEvidenceSource(2, e[1])
               && e[0].sourceMethod != e[1].sourceMethod
            && (e[0].available || e[1].available <==> AnyAvailable(sources))
  {
    var t := SortBy(sources, MethodOf);
    PairPermuted(sources, t);
    PairValid(t);
  }

  function EvidenceSourceOf(s: SourceStatus): D.EvidenceSource {
    D.EvidenceSource(s.sourceMethod, s.available, s.permissionRequired && !s.available)
  }

  lemma PairValid(t: seq<SourceStatus>)
    requires OneOfEach(t)
    ensures forall i :: 0 <= i < 2 ==> D.ValidEvidenceSource(2, EvidenceSourceOf(t[i]))
    ensures AnyAvailable(t) <==> t[0].available || t[1].available
  {
  }

  lemma PairPermuted(s: seq<SourceStatus>, t: seq<SourceStatus>)
    requires OneOfEach(s) && multiset(s) == multiset(t)
    ensures OneOfEach(t) && t[0].sourceMethod != t[1].sourceMethod && (AnyAvailable(t) <==> AnyAvailable(s))
  {
    PermutationKeepsDistinct(s, t);
    assert D.ARP[0] != D.NDP[0];
    assert Distinct(s);
    assert t[0] != t[1] && t[0] in s && t[1] in s;
    assert t == s || t == [s[1], s[0]];
  }

  lemma LimitationsValid()
    ensures |LIMITATIONS| == 3 && D.ValidLimitation(LIMITATIONS[0]) && D.ValidLimitation(LIMITATIONS[1])
            && D.ValidLimitation(LIMITATIONS[2])
  {
  }

  /** A sample written for one ARP and one NDP source, with counts that add up, is
      usable exactly when its status says whether a source was available. */
  lemma SampleUsableExactly(sensor: string, interfaceName: string, at: int, sources: seq<SourceStatus>, c: Counts,
                            status: string)
    requires D.ValidInterfaceName(interfaceName) && OneOfEach(sources)
             && c.inserted + c.deduplicated == c.visible <= D.MAX_NEIGHBORS
    ensures D.Usable(SampleFor(sensor, interfaceName, at, sources, c, status)) <==>
            (status == "partial" && AnyAvailable(sources)) || (status == "unavailable" && !AnyAvailable(sources))
  {
    EvidenceSourcesValid(sources);
    LimitationsValid();
    StatusOfPair(status, EvidenceSources(sources));
  }

  lemma StatusOfPair(status: string, e: seq<D.EvidenceSource>)
    requires |e| == 2
    ensures D.StatusConsistent(status, e) <==>
            (status == "partial" && (e[0].available || e[1].available))
                || (status == "unavailable" && !(e[0].available || e[1].available))
  {
  }

  /** Whatever the clock says later, the sample of a successful collection is never
      classed as invalid evidence. */
  lemma CollectedSampleIsNeverInvalid(say: D.Say, sensor: string, interfaceName: string, at: int,
                                      sources: seq<SourceStatus>, c: Counts, scope: string, now: int)
    requires D.ValidInterfaceName(interfaceName) && OneOfEach(sources)
             && c.inserted + c.deduplicated == c.visible <= D.MAX_NEIGHBORS
    ensures var r := D.CurrentReport(say, scope,
                                     Some(SampleFor(sensor, interfaceName, at, sources, c, StatusFor(sources))), now);
            r.reason != "invalid-evidence" && r.neighbors == c.visible && r.interfaceName == interfaceName
  {
    SampleUsableExactly(sensor, interfaceName, at, sources, c, StatusFor(sources));
    UsableIsNotInvalid(say, scope, SampleFor(sensor, interfaceName, at, sources, c, StatusFor(sources)), now);
  }

  lemma UsableIsNotInvalid(say: D.Say, scope: string, s: D.Sample, now: int)
    requires D.Usable(s)
    ensures var r := D.CurrentReport(say, scope, Some(s), now);
            r.reason != "invalid-evidence" && r.neighbors == s.evidence.value.neighbors
                && r.interfaceName == s.evidence.value.interfaceName
  {
    assert "invalid-evidence"[0] == 'i';
  }
}
