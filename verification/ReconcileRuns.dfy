/** What the rule for single choices means for whole runs: sightings in order of
    observation, and the families of runs in which order or clock break continuity. */
module ReconcileRuns {
  import opened Ordering
  import opened Reconcile
  import opened ReconcileTraces

  // ----- The rule over a whole trace

  /** The device a sighting is linked to, if any. */
  function Device(trace: seq<Sighting>, ch: seq<Choice>, i: nat): Option<DeviceId>
    requires |ch| == |trace| && i < |trace|
  { Carried(trace[i], ch[i]) }

  /** An earlier sighting of the identity, linked, in the window and retained. */
  predicate Visible(trace: seq<Sighting>, ch: seq<Choice>, i: nat, n: nat)
    requires |ch| == |trace| && n < |trace|
  { i < n && InWindow(trace[i], trace[n]) && Device(trace, ch, i).Some? }

  ghost predicate FollowsAt(trace: seq<Sighting>, ch: seq<Choice>, n: nat)
    requires |ch| == |trace| && n < |trace|
  {
    match ch[n]
    case Ambiguous =>
      exists i: nat, j: nat :: i < j && Visible(trace, ch, i, n) && Visible(trace, ch, j, n)
                               && Device(trace, ch, i) != Device(trace, ch, j)
    case Continues(device) =>
      && (exists i: nat :: Visible(trace, ch, i, n))
      && (forall i: nat :: Visible(trace, ch, i, n) ==> Device(trace, ch, i) == Some(device))
    case Creates(device) =>
      device == NewDevice(trace[n]) && forall i: nat :: !Visible(trace, ch, i, n)
  }

  ghost predicate Follows(trace: seq<Sighting>, ch: seq<Choice>) {
    |ch| == |trace| && forall n :: 0 <= n < |trace| ==> FollowsAt(trace, ch, n)
  }

  lemma DecidedFollows(trace: seq<Sighting>, ch: seq<Choice>, n: nat)
    requires |ch| == |trace| && n < |trace| && Decided(trace, ch[..n], trace[n], ch[n])
    ensures FollowsAt(trace, ch, n)
  {
    var x, before := trace[n], ch[..n];
    forall i: nat | Visible(trace, ch, i, n) ensures Shows(trace, before, x, i, Device(trace, ch, i).value) { }
    match ch[n]
    case Ambiguous =>
      var i: nat, j: nat, d, e :| Shows(trace, before, x, i, d) && Shows(trace, before, x, j, e) && d != e;
      assert Visible(trace, ch, i, n) && Visible(trace, ch, j, n);
      if i < j { assert Device(trace, ch, i) != Device(trace, ch, j); }
      else { assert j < i && Device(trace, ch, j) != Device(trace, ch, i); }
    case Continues(device) =>
      var i: nat :| Shows(trace, before, x, i, device);
      assert Visible(trace, ch, i, n);
    case Creates(_) =>
  }

  /** The code's own choices follow the rule, on every trace with distinct ids. */
  lemma ChoicesFollow(trace: seq<Sighting>)
    requires DistinctObservations(trace)
    ensures Follows(trace, Choices(trace, |trace|))
  {
    var ch := Choices(trace, |trace|);
    forall n | 0 <= n < |trace| ensures FollowsAt(trace, ch, n) {
      EveryChoiceIsDecided(trace, n);
      assert ch[..n] == Choices(trace, n);
      DecidedFollows(trace, ch, n);
    }
  }

  // ----- Sightings in order

  /** Ingested no earlier than observed and less than 23 days later, so that 30 days'
      retention covers the horizon. */
  predicate Prompt(x: Sighting) { x.at <= x.now < x.at + RETENTION - HORIZON }

  ghost predicate AllPrompt(trace: seq<Sighting>) { forall i :: 0 <= i < |trace| ==> Prompt(trace[i]) }

  ghost predicate ClockForward(trace: seq<Sighting>) {
    forall i, j :: 0 <= i < j < |trace| ==> trace[i].now <= trace[j].now
  }

  /** Non-decreasing observed time; and either every sighting arrives promptly, or the
      store's clock never runs backwards. */
  ghost predicate Ordered(trace: seq<Sighting>) {
    && (forall i, j :: 0 <= i < j < |trace| ==> trace[i].at <= trace[j].at)
    && (AllPrompt(trace) || ClockForward(trace))
  }

  /** Evidence that lasts over a short stretch lasts between any two points of it. */
  lemma RetainedBetween(trace: seq<Sighting>, i: nat, p: nat, m: nat, j: nat)
    requires Ordered(trace) && i <= p < m <= j < |trace| && trace[j].at - trace[i].at <= HORIZON
    requires Retained(trace[i], trace[j])
    ensures Retained(trace[p], trace[m])
  {
    if AllPrompt(trace) {
      assert Prompt(trace[m]) && Prompt(trace[p]);
      assert trace[m].at <= trace[j].at && trace[i].at <= trace[p].at;
    } else {
      assert trace[m].now <= trace[j].now && trace[i].now <= trace[p].now;
    }
  }

  lemma {:induction false} NoAmbiguity(trace: seq<Sighting>, ch: seq<Choice>, j: nat)
    requires Follows(trace, ch) && Ordered(trace) && j < |trace|
    ensures !ch[j].Ambiguous?
    decreases j, 0
  {
    assert FollowsAt(trace, ch, j);
    if ch[j].Ambiguous? {
      var a: nat, b: nat :| a < b && Visible(trace, ch, a, j) && Visible(trace, ch, b, j)
                            && Device(trace, ch, a) != Device(trace, ch, b);
      RetainedBetween(trace, a, a, b, j);
      VisibleIsContinued(trace, ch, a, b);
    }
  }

  /** A sighting continues the device of every visible earlier one. */
  lemma {:induction false} VisibleIsContinued(trace: seq<Sighting>, ch: seq<Choice>, i: nat, j: nat)
    requires Follows(trace, ch) && Ordered(trace) && j < |trace| && Visible(trace, ch, i, j)
    ensures ch[j] == Continues(Device(trace, ch, i).value)
    decreases j, 1
  {
    NoAmbiguity(trace, ch, j);
    assert FollowsAt(trace, ch, j);
  }

  // ----- Unbroken runs

  /** The latest linked sighting of the same identity among the first n, or -1. */
  function PreviousFrom(trace: seq<Sighting>, ch: seq<Choice>, k: nat, n: nat): (p: int)
    requires |ch| == |trace| && n <= k < |trace|
    ensures -1 <= p < n
    ensures p >= 0 ==> SameIdentity(trace[p], trace[k]) && Device(trace, ch, p).Some?
    ensures forall i :: p < i < n && SameIdentity(trace[i], trace[k]) ==> Device(trace, ch, i).None?
  {
    if n == 0 then -1
    else if SameIdentity(trace[n - 1], trace[k]) && Device(trace, ch, n - 1).Some? then n - 1
    else PreviousFrom(trace, ch, k, n - 1)
  }

  function Previous(trace: seq<Sighting>, ch: seq<Choice>, k: nat): int
    requires |ch| == |trace| && k < |trace|
  { PreviousFrom(trace, ch, k, k) }

  /** The gap since the previous linked sighting of this identity is within the horizon,
      and that sighting's evidence has not expired. */
  predicate Joined(trace: seq<Sighting>, ch: seq<Choice>, k: nat)
    requires |ch| == |trace| && k < |trace|
  {
    var p := Previous(trace, ch, k);
    p >= 0 && trace[k].at - trace[p].at <= HORIZON && Retained(trace[p], trace[k])
  }

  lemma VisibleMeansJoined(trace: seq<Sighting>, ch: seq<Choice>, i: nat, k: nat)
    requires |ch| == |trace| && Ordered(trace) && k < |trace| && Visible(trace, ch, i, k)
    ensures Joined(trace, ch, k)
  {
    var p := Previous(trace, ch, k);
    assert p >= i;
    RetainedBetween(trace, i, p, k, k);
  }

  /** In order, a sighting continues the device of the one before exactly when it is
      joined to it, and creates its own otherwise. */
  lemma ChoiceIsJoined(trace: seq<Sighting>, ch: seq<Choice>, k: nat)
    requires Follows(trace, ch) && Ordered(trace) && k < |trace|
    ensures ch[k] == if Joined(trace, ch, k) then Continues(Device(trace, ch, Previous(trace, ch, k)).value)
                     else Creates(NewDevice(trace[k]))
  {
    assert FollowsAt(trace, ch, k);
    if Joined(trace, ch, k) {
      VisibleIsContinued(trace, ch, Previous(trace, ch, k), k);
    } else {
      NoAmbiguity(trace, ch, k);
      forall i: nat ensures !Visible(trace, ch, i, k) {
        if Visible(trace, ch, i, k) { VisibleMeansJoined(trace, ch, i, k); }
      }
    }
  }

  /** The sighting that began the unbroken run k belongs to. */
  function Root(trace: seq<Sighting>, ch: seq<Choice>, k: nat): (r: nat)
    requires |ch| == |trace| && k < |trace|
    ensures r <= k && SameIdentity(trace[r], trace[k])
  {
    if Joined(trace, ch, k) then Root(trace, ch, Previous(trace, ch, k)) else k
  }

  lemma {:induction false} DeviceIsRoot(trace: seq<Sighting>, ch: seq<Choice>, k: nat)
    requires Follows(trace, ch) && Ordered(trace) && k < |trace| && Device(trace, ch, k).Some?
    ensures Device(trace, ch, k) == Some(NewDevice(trace[Root(trace, ch, k)]))
  {
    ChoiceIsJoined(trace, ch, k);
    if Joined(trace, ch, k) { DeviceIsRoot(trace, ch, Previous(trace, ch, k)); }
  }

  /** From i to j every linked sighting of the identity is joined to the one before. */
  ghost predicate Continuous(trace: seq<Sighting>, ch: seq<Choice>, i: nat, j: nat)
    requires |ch| == |trace| && i <= j < |trace|
  {
    forall m :: i < m <= j && SameIdentity(trace[m], trace[i]) && Device(trace, ch, m).Some? ==> Joined(trace, ch, m)
  }

  lemma {:induction false} RootsAgree(trace: seq<Sighting>, ch: seq<Choice>, i: nat, j: nat)
    requires |ch| == |trace| && i <= j < |trace| && SameIdentity(trace[i], trace[j])
    requires Device(trace, ch, i).Some? && Device(trace, ch, j).Some?
    ensures Root(trace, ch, i) == Root(trace, ch, j) <==> Continuous(trace, ch, i, j)
    decreases j
  {
    if i < j {
      var p := Previous(trace, ch, j);
      ContinuousStep(trace, ch, i, j);
      RootsAgree(trace, ch, i, p);
    }
  }

  lemma ContinuousStep(trace: seq<Sighting>, ch: seq<Choice>, i: nat, j: nat)
    requires |ch| == |trace| && i < j < |trace| && SameIdentity(trace[i], trace[j])
    requires Device(trace, ch, i).Some? && Device(trace, ch, j).Some?
    ensures Previous(trace, ch, j) >= i
    ensures Continuous(trace, ch, i, j) <==> Joined(trace, ch, j) && Continuous(trace, ch, i, Previous(trace, ch, j))
  {
    var p := Previous(trace, ch, j);
    assert p >= i;
    if Joined(trace, ch, j) && Continuous(trace, ch, i, p) {
      forall m | i < m <= j && SameIdentity(trace[m], trace[i])
          && Device(trace, ch, m).Some? ensures Joined(trace, ch, m) {
        assert m <= p || m == j;
      }
    }
  }

  lemma SameDeviceSameRoot(trace: seq<Sighting>, ch: seq<Choice>, i: nat, j: nat)
    requires Follows(trace, ch) && Ordered(trace) && DistinctObservations(trace) && i < |trace| && j < |trace|
    requires Device(trace, ch, i).Some? && Device(trace, ch, j).Some?
    ensures Device(trace, ch, i) == Device(trace, ch, j) <==> Root(trace, ch, i) == Root(trace, ch, j)
    ensures Root(trace, ch, i) == Root(trace, ch, j) ==> SameIdentity(trace[i], trace[j])
  {
    DeviceIsRoot(trace, ch, i);
    DeviceIsRoot(trace, ch, j);
    var a, b := Root(trace, ch, i), Root(trace, ch, j);
    if a < b { assert trace[a].obs != trace[b].obs; }
    if b < a { assert trace[b].obs != trace[a].obs; }
  }

  // ----- Main results for ordered runs

  /** In order no sighting is ever ambiguous, whatever writes fail; one whose writes work
      succeeds, and it gets a new device exactly at the first sighting of an identity,
      after a gap beyond the horizon, and when the evidence before it has expired. */
  lemma NeverAmbiguous(trace: seq<Sighting>, k: nat)
    requires DistinctObservations(trace) && Ordered(trace) && k < |trace|
    ensures var ch := Choices(trace, |trace|);
            var r := ResultAt(trace, k);
            && !r.ambiguous && !ch[k].Ambiguous? && (ch[k].Creates? <==> !Joined(trace, ch, k))
            && (trace[k].writes == SOUND ==> r.ok && r.device == Device(trace, ch, k) && r.created == ch[k].Creates?)
  {
    ChoicesFollow(trace);
    ChoiceIsJoined(trace, Choices(trace, |trace|), k);
    EveryResultIsReported(trace, k);
  }

  /** Two linked sightings carry the same device exactly when they are of one scope and
      MAC and from one to the other each linked sighting is within the horizon of the one
      before and finds its evidence still retained. */
  lemma SameDeviceExactlyWhenContinuous(trace: seq<Sighting>, i: nat, j: nat)
    requires DistinctObservations(trace) && Ordered(trace) && i <= j < |trace|
    requires var ch := Choices(trace, |trace|); Device(trace, ch, i).Some? && Device(trace, ch, j).Some?
    ensures var ch := Choices(trace, |trace|);
            Device(trace, ch, i) == Device(trace, ch, j) <==>
            SameIdentity(trace[i], trace[j]) && Continuous(trace, ch, i, j)
  {
    var ch := Choices(trace, |trace|);
    ChoicesFollow(trace);
    SameDeviceSameRoot(trace, ch, i, j);
    if SameIdentity(trace[i], trace[j]) { RootsAgree(trace, ch, i, j); }
  }

  /** Two consecutive sightings of one identity. */
  predicate Consecutive(trace: seq<Sighting>, p: nat, m: nat)
    requires p < m < |trace|
  {
    SameIdentity(trace[p], trace[m]) && forall q :: p < q < m ==> !SameIdentity(trace[q], trace[m])
  }

  /** From i to j no gap between consecutive sightings of the identity exceeds the
      horizon. */
  ghost predicate NoLongGap(trace: seq<Sighting>, i: nat, j: nat)
    requires i <= j < |trace|
  {
    forall p, m :: i <= p < m <= j && SameIdentity(trace[m], trace[i]) && Consecutive(trace, p, m) ==>
      trace[m].at - trace[p].at <= HORIZON
  }

  ghost predicate AllSound(trace: seq<Sighting>) { forall i :: 0 <= i < |trace| ==> trace[i].writes == SOUND }

  lemma AllCarried(trace: seq<Sighting>, i: nat)
    requires DistinctObservations(trace) && Ordered(trace) && AllSound(trace) && i < |trace|
    ensures Device(trace, Choices(trace, |trace|), i).Some?
            && ResultAt(trace, i).device == Device(trace, Choices(trace, |trace|), i)
  {
    NeverAmbiguous(trace, i);
  }

  lemma PromptIsJoined(trace: seq<Sighting>, ch: seq<Choice>, m: nat)
    requires |ch| == |trace| && AllPrompt(trace) && m < |trace|
    ensures Joined(trace, ch, m) <==>
            Previous(trace, ch, m) >= 0 && trace[m].at - trace[Previous(trace, ch, m)].at <= HORIZON
  {
    var p := Previous(trace, ch, m);
    if p >= 0 { assert Prompt(trace[p]) && Prompt(trace[m]); }
  }

  lemma ContinuousIsNoLongGap(trace: seq<Sighting>, ch: seq<Choice>, i: nat, j: nat)
    requires |ch| == |trace| && AllPrompt(trace) && i <= j < |trace| && SameIdentity(trace[i], trace[j])
    requires forall k :: 0 <= k < |trace| ==> Device(trace, ch, k).Some?
    ensures Continuous(trace, ch, i, j) <==> NoLongGap(trace, i, j)
  {
    forall m | i < m <= j && SameIdentity(trace[m], trace[i])
      ensures Previous(trace, ch, m) >= i && Consecutive(trace, Previous(trace, ch, m), m)
      ensures forall p :: i <= p < m && Consecutive(trace, p, m) ==> p == Previous(trace, ch, m)
    {
      assert Device(trace, ch, i).Some?;
    }
    forall m | 0 <= m < |trace|
      ensures Joined(trace, ch, m) <==>
                Previous(trace, ch, m) >= 0 && trace[m].at - trace[Previous(trace, ch, m)].at <= HORIZON
    {
      PromptIsJoined(trace, ch, m);
    }
  }

  /** When every sighting arrives promptly and is stored, two of them get the same
      device exactly when they are of one scope and MAC and no gap between consecutive
      sightings from one to the other exceeds seven days. */
  lemma SameDeviceExactlyWithoutGaps(trace: seq<Sighting>, i: nat, j: nat)
    requires DistinctObservations(trace) && Ordered(trace) && AllPrompt(trace) && AllSound(trace) && i <= j < |trace|
    ensures ResultAt(trace, i).device == ResultAt(trace, j).device <==>
            SameIdentity(trace[i], trace[j]) && NoLongGap(trace, i, j)
  {
    var ch := Choices(trace, |trace|);
    forall k | 0 <= k < |trace| ensures Device(trace, ch, k).Some?
        && ResultAt(trace, k).device == Device(trace, ch, k) {
      AllCarried(trace, k);
    }
    SameDeviceExactlyWhenContinuous(trace, i, j);
    if SameIdentity(trace[i], trace[j]) { ContinuousIsNoLongGap(trace, ch, i, j); }
  }

  /** Delivering any earlier sighting of an ordered run again later, while its evidence is
      still retained, changes nothing and names the same device. */
  lemma ReplayChangesNothing(trace: seq<Sighting>, n: nat, i: nat, now: int)
    requires DistinctObservations(trace) && Ordered(trace) && i < n <= |trace| && trace[i].writes == SOUND
    requires now < trace[i].now + RETENTION && forall j :: 0 <= j < n ==> trace[j].now <= now
    ensures !ChoiceAt(trace, i).Ambiguous?
    ensures ReconcileOne(After(trace, n), Again(trace[i], now)) ==
            Reconciled(After(trace, n), Some(ChoiceAt(trace, i).device), false, false, true)
  {
    var all, ch := Choices(trace, |trace|), Choices(trace, n);
    var y := Again(trace[i], now);
    ChoicesFollow(trace);
    NoAmbiguity(trace, all, i);
    assert Shows(trace, ch, y, i, ch[i].device);
    forall j: nat, d | Shows(trace, ch, y, j, d) ensures d == ch[i].device {
      assert all[j] == ch[j] && all[i] == ch[i];
      if j < i { VisibleIsContinued(trace, all, j, i); }
      else if i < j { VisibleIsContinued(trace, all, i, j); }
    }
    ReplayExactly(trace, n, i, now);
  }

  // ----- Where order or clock break continuity

  /** Sightings of one identity that are all stored. */
  predicate Alike(a: Sighting, b: Sighting) {
    SameIdentity(a, b) && a.obs != b.obs && a.writes == SOUND && b.writes == SOUND
  }

  lemma FirstCreates(trace: seq<Sighting>, ch: seq<Choice>)
    requires Follows(trace, ch) && |trace| > 0
    ensures ch[0] == Creates(NewDevice(trace[0]))
  {
    assert FollowsAt(trace, ch, 0);
  }

  /** A short gap in observed time splits an identity once the earlier evidence has
      expired, and only then. */
  lemma ExpiredEvidenceSplits(a: Sighting, b: Sighting)
    requires Alike(a, b) && a.at <= b.at <= a.at + HORIZON
    ensures ResultAt([a, b], 0).device != ResultAt([a, b], 1).device <==> !Retained(a, b)
  {
    var trace := [a, b];
    var ch := Choices(trace, 2);
    ChoicesFollow(trace);
    FirstCreates(trace, ch);
    assert FollowsAt(trace, ch, 1);
    assert Visible(trace, ch, 0, 1) <==> Retained(a, b);
    EveryResultIsReported(trace, 0);
    EveryResultIsReported(trace, 1);
  }

  /** Three sightings in order of observation, within the horizon. The second arrives
      when the first has expired; then the store's clock steps back and the third
      arrives while both are retained. */
  predicate ClockSteppedBack(a: Sighting, b: Sighting, c: Sighting) {
    && Alike(a, b) && Alike(a, c) && Alike(b, c) && a.at <= b.at <= c.at <= a.at + HORIZON
    && !Retained(a, b) && Retained(a, c) && Retained(b, c)
  }

  /** Order of observation alone is not enough: then the third is ambiguous. */
  lemma ClockSteppedBackIsAmbiguous(a: Sighting, b: Sighting, c: Sighting)
    requires ClockSteppedBack(a, b, c)
    ensures ResultAt([a, b, c], 2).ambiguous && ResultAt([a, b, c], 2).device.None?
  {
    var trace := [a, b, c];
    var ch := Choices(trace, 3);
    ChoicesFollow(trace);
    FirstCreates(trace, ch);
    assert FollowsAt(trace, ch, 1) && FollowsAt(trace, ch, 2);
    assert !Visible(trace, ch, 0, 1);
    assert Visible(trace, ch, 0, 2) && Visible(trace, ch, 1, 2);
    EveryResultIsReported(trace, 2);
  }

  /** A first sighting, a second one beyond the horizon, and a third one that arrives
      late from the time between them. */
  predicate Late(a: Sighting, b: Sighting, c: Sighting, d: Sighting) {
    && Alike(a, b) && Alike(a, c) && Alike(a, d) && Alike(b, c) && Alike(b, d) && Alike(c, d)
    && Prompt(a) && Prompt(b) && Prompt(c) && Prompt(d)
    && a.at + HORIZON < b.at <= d.at && a.at <= c.at <= a.at + HORIZON && d.at - HORIZON <= c.at
  }

  /** Prompt arrival alone is not enough either: then the next one is ambiguous. */
  lemma LateSightingIsAmbiguous(a: Sighting, b: Sighting, c: Sighting, d: Sighting)
    requires Late(a, b, c, d)
    ensures ResultAt([a, b, c, d], 3).ambiguous && ResultAt([a, b, c, d], 3).device.None?
  {
    var trace := [a, b, c, d];
    ChoicesFollow(trace);
    LateChoices(a, b, c, d, Choices(trace, 4));
    EveryResultIsReported(trace, 3);
  }

  lemma LateChoices(a: Sighting, b: Sighting, c: Sighting, d: Sighting, ch: seq<Choice>)
    requires Late(a, b, c, d) && Follows([a, b, c, d], ch)
    ensures ch[3].Ambiguous?
  {
    var trace := [a, b, c, d];
    FirstCreates(trace, ch);
    LateSecond(a, b, c, d, ch);
    assert FollowsAt(trace, ch, 3);
    assert Visible(trace, ch, 1, 3) && Visible(trace, ch, 2, 3);
  }

  lemma LateSecond(a: Sighting, b: Sighting, c: Sighting, d: Sighting, ch: seq<Choice>)
    requires Late(a, b, c, d) && Follows([a, b, c, d], ch) && ch[0] == Creates(NewDevice(a))
    ensures ch[1] == Creates(NewDevice(b)) && ch[2] == Continues(NewDevice(a))
  {
    var trace := [a, b, c, d];
    assert FollowsAt(trace, ch, 1) && FollowsAt(trace, ch, 2);
    assert !Visible(trace, ch, 0, 1);
    assert Visible(trace, ch, 0, 2) && !Visible(trace, ch, 1, 2);
  }

  /** An ambiguous sighting leaves its claims but no device and no link. */
  lemma AmbiguousLeavesClaims(trace: seq<Sighting>, n: nat)
    requires DistinctObservations(trace) && n < |trace| && ResultAt(trace, n).ambiguous
    ensures var s, x := After(trace, n), trace[n];
            ResultAt(trace, n) ==
            Reconciled(s.(claims := s.claims[MacKey(x) := MacRow(x)][IpKey(x) := IpRow(x)]), None, false, true, true)
  {
    EveryResultIsReported(trace, n);
  }

  function Seen(obs: string, observedDay: int, storedDay: int): Sighting {
    Sighting(obs, "scope.home", "sensor.one", "02:00:00:00:00:01", true, "192.0.2.7", true, observedDay * DAY,
             storedDay * DAY, SOUND)
  }

  /** Each family has an input: observed on days 0 and 5, stored on days 0 and 31;
      observed on days 0, 5 and 6, stored on days 0, 31 and 10; observed on days 0, 10, 5
      and 11, all stored on day 12. */
  lemma FamiliesExist()
    ensures Alike(Seen("a", 0, 0), Seen("b", 5, 31)) && !Retained(Seen("a", 0, 0), Seen("b", 5, 31))
    ensures ClockSteppedBack(Seen("a", 0, 0), Seen("b", 5, 31), Seen("c", 6, 10))
    ensures Late(Seen("a", 0, 12), Seen("b", 10, 12), Seen("c", 5, 12), Seen("d", 11, 12))
  {
  }
}
