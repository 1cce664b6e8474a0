/** Any trace of sightings with distinct observation ids, in any order of observation
    and of arrival, with any failed writes: what the identity tables hold, and how
    every single choice is made. */
module ReconcileTraces {
  import opened Ordering
  import opened Reconcile

  ghost predicate DistinctObservations(trace: seq<Sighting>) {
    forall i, j :: 0 <= i < j < |trace| ==> trace[i].obs != trace[j].obs
  }

  /** The store after the first n sightings, from an empty one. */
  function After(trace: seq<Sighting>, n: nat): Store
    requires n <= |trace|
  {
    if n == 0 then EMPTY else ReconcileOne(After(trace, n - 1), trace[n - 1]).store
  }

  function ResultAt(trace: seq<Sighting>, n: nat): Reconciled
    requires n < |trace|
  { ReconcileOne(After(trace, n), trace[n]) }

  function ChoiceAt(trace: seq<Sighting>, n: nat): Choice
    requires n < |trace|
  { Choose(After(trace, n), trace[n]) }

  /** The choices made for the first n sightings. */
  function Choices(trace: seq<Sighting>, n: nat): seq<Choice>
    requires n <= |trace|
  { seq(n, i requires 0 <= i < n => ChoiceAt(trace, i)) }

  // ----- What the tables hold

  predicate ClaimFrom(x: Sighting, k: ClaimKey, c: Claim) {
    (k == MacKey(x) && c == MacRow(x)) || (k == IpKey(x) && c == IpRow(x))
  }

  predicate LinkFrom(x: Sighting, c: Choice, id: LinkId, l: Link) {
    && Carried(x, c) == Some(id.device) && l.device == id.device && l.claim == id.claim
    && (id.claim == MacRow(x).id || id.claim == IpRow(x).id)
  }

  /** A sighting that carries a device has left its claims, its MAC link and the device;
      and its other link, if that write worked. */
  predicate Recorded(s: Store, x: Sighting, c: Choice) {
    Carried(x, c).Some? ==>
      && MacKey(x) in s.claims && s.claims[MacKey(x)] == MacRow(x)
      && IpKey(x) in s.claims && s.claims[IpKey(x)] == IpRow(x)
      && LinkId(c.device, MacRow(x).id) in s.links && c.device in s.devices
      && (x.writes == SOUND ==> LinkId(c.device, IpRow(x).id) in s.links)
  }

  ghost predicate ClaimSourced(trace: seq<Sighting>, n: nat, k: ClaimKey, c: Claim)
    requires n <= |trace|
  { exists i :: 0 <= i < n && ClaimFrom(trace[i], k, c) }

  ghost predicate LinkSourced(trace: seq<Sighting>, ch: seq<Choice>, id: LinkId, l: Link)
    requires |ch| <= |trace|
  { exists i :: 0 <= i < |ch| && LinkFrom(trace[i], ch[i], id, l) }

  ghost predicate DeviceSourced(trace: seq<Sighting>, n: nat, d: DeviceId)
    requires n <= |trace|
  { exists i :: 0 <= i < n && d == NewDevice(trace[i]) }

  // The triggers below keep the two directions from setting each other off.

  ghost predicate ClaimsSourced(trace: seq<Sighting>, n: nat, s: Store)
    requires n <= |trace|
  {
    forall k {:trigger ClaimSourced(trace, n, k, s.claims[k])} ::
      k in s.claims ==> ClaimSourced(trace, n, k, s.claims[k])
  }

  ghost predicate LinksSourced(trace: seq<Sighting>, ch: seq<Choice>, s: Store)
    requires |ch| <= |trace|
  {
    forall l {:trigger LinkSourced(trace, ch, l, s.links[l])} ::
      l in s.links ==> LinkSourced(trace, ch, l, s.links[l])
  }

  ghost predicate DevicesSourced(trace: seq<Sighting>, n: nat, s: Store)
    requires n <= |trace|
  {
    forall d {:trigger DeviceSourced(trace, n, d)} :: d in s.devices ==> DeviceSourced(trace, n, d)
  }

  ghost predicate AllRecorded(trace: seq<Sighting>, ch: seq<Choice>, s: Store)
    requires |ch| <= |trace|
  {
    forall i {:trigger Recorded(s, trace[i], ch[i])} :: 0 <= i < |ch| ==> Recorded(s, trace[i], ch[i])
  }

  ghost predicate Tables(trace: seq<Sighting>, ch: seq<Choice>, s: Store)
    requires |ch| <= |trace|
  {
    && ClaimsSourced(trace, |ch|, s) && LinksSourced(trace, ch, s) && DevicesSourced(trace, |ch|, s)
    && AllRecorded(trace, ch, s)
  }

  // ----- The query

  predicate SameIdentity(a: Sighting, b: Sighting) { a.scope == b.scope && a.mac == b.mac }

  /** The evidence of one sighting is still kept when another arrives. */
  predicate Retained(x: Sighting, y: Sighting) { y.now < x.now + RETENTION }

  predicate InWindow(y: Sighting, x: Sighting) {
    SameIdentity(y, x) && x.at - HORIZON <= y.at <= x.at && Retained(y, x)
  }

  /** The i-th sighting is linked to this device and visible to a query for x. */
  predicate Shows(trace: seq<Sighting>, ch: seq<Choice>, x: Sighting, i: nat, d: DeviceId)
    requires |ch| <= |trace|
  {
    i < |ch| && InWindow(trace[i], x) && Carried(trace[i], ch[i]) == Some(d)
  }

  predicate RecentFor(s: Store, x: Sighting, l: Link) { Recent(s, l, x.scope, x.mac, x.at - HORIZON, x.at, x.now) }

  lemma RecentLinkIsShown(trace: seq<Sighting>, ch: seq<Choice>, s: Store, x: Sighting, l: LinkId)
    requires DistinctObservations(trace) && |ch| <= |trace|
    requires ClaimsSourced(trace, |ch|, s) && LinksSourced(trace, ch, s)
    requires l in s.links && RecentFor(s, x, s.links[l])
    ensures exists i: nat :: Shows(trace, ch, x, i, s.links[l].device)
  {
    var k :| k in s.claims && s.claims[k].id == s.links[l].claim && k.kind == Mac && k.value == x.mac
             && Within(s.claims[k], x.scope, x.at - HORIZON, x.at, x.now);
    assert ClaimSourced(trace, |ch|, k, s.claims[k]) && LinkSourced(trace, ch, l, s.links[l]);
    var j :| 0 <= j < |ch| && ClaimFrom(trace[j], k, s.claims[k]);
    var i: nat :| 0 <= i < |ch| && LinkFrom(trace[i], ch[i], l, s.links[l]);
    assert trace[i].obs == trace[j].obs;
    assert i == j;
    assert Shows(trace, ch, x, i, s.links[l].device);
  }

  lemma ShownIsCandidate(trace: seq<Sighting>, ch: seq<Choice>, s: Store, x: Sighting, i: nat, d: DeviceId)
    requires |ch| <= |trace| && Tables(trace, ch, s) && Shows(trace, ch, x, i, d)
    ensures d in Candidates(s, x)
  {
    assert Recorded(s, trace[i], ch[i]);
    var l := LinkId(d, MacRow(trace[i]).id);
    LinkIsWellFormed(trace, ch, s, l);
    assert Within(s.claims[MacKey(trace[i])], x.scope, x.at - HORIZON, x.at, x.now);
    assert RecentFor(s, x, s.links[l]);
  }

  lemma LinkIsWellFormed(trace: seq<Sighting>, ch: seq<Choice>, s: Store, l: LinkId)
    requires |ch| <= |trace| && LinksSourced(trace, ch, s) && l in s.links
    ensures s.links[l].device == l.device && s.links[l].claim == l.claim
  {
    assert LinkSourced(trace, ch, l, s.links[l]);
  }

  /** The query returns the device of every linked sighting of the identity that is in
      the window and retained, and nothing else. */
  lemma CandidatesAreShown(trace: seq<Sighting>, ch: seq<Choice>, s: Store, x: Sighting, d: DeviceId)
    requires DistinctObservations(trace) && |ch| <= |trace| && Tables(trace, ch, s)
    ensures d in Candidates(s, x) <==> exists i: nat :: Shows(trace, ch, x, i, d)
  {
    if d in Candidates(s, x) {
      var l :| l in s.links && RecentFor(s, x, s.links[l]) && s.links[l].device == d;
      RecentLinkIsShown(trace, ch, s, x, l);
    }
    if i: nat :| Shows(trace, ch, x, i, d) {
      ShownIsCandidate(trace, ch, s, x, i, d);
    }
  }

  // ----- The rule

  /** Ambiguous means two shown devices; continuing means exactly one; creating means
      none. The three cases exclude one another, so each holds exactly then. */
  ghost predicate Decided(trace: seq<Sighting>, ch: seq<Choice>, x: Sighting, c: Choice)
    requires |ch| <= |trace|
  {
    match c
    case Ambiguous =>
      exists i: nat, j: nat, d, e :: Shows(trace, ch, x, i, d) && Shows(trace, ch, x, j, e) && d != e
    case Continues(device) =>
      && (exists i: nat :: Shows(trace, ch, x, i, device))
      && (forall i: nat, d :: Shows(trace, ch, x, i, d) ==> d == device)
    case Creates(device) =>
      device == NewDevice(x) && forall i: nat, d :: !Shows(trace, ch, x, i, d)
  }

  lemma ChoiceIsDecided(trace: seq<Sighting>, ch: seq<Choice>, s: Store, x: Sighting)
    requires DistinctObservations(trace) && |ch| <= |trace| && Tables(trace, ch, s)
    ensures Decided(trace, ch, x, Choose(s, x))
  {
    var candidates := Candidates(s, x);
    forall d ensures d in candidates <==> exists i: nat :: Shows(trace, ch, x, i, d) {
      CandidatesAreShown(trace, ch, s, x, d);
    }
    forall i: nat, d | Shows(trace, ch, x, i, d) ensures d in candidates { }
    match Choose(s, x)
    case Ambiguous =>
      var d, e := TwoOf(candidates);
      var i: nat :| Shows(trace, ch, x, i, d);
      var j: nat :| Shows(trace, ch, x, j, e);
    case Continues(device) =>
      assert candidates == {device};
    case Creates(_) =>
      assert candidates == {};
  }

  lemma TwoOf<T>(s: set<T>) returns (a: T, b: T)
    requires |s| > 1
    ensures a in s && b in s && a != b
  {
    a :| a in s;
    assert |s - {a}| >= 1;
    b :| b in s - {a};
  }

  // ----- One more sighting

  lemma NextIsUnseen(trace: seq<Sighting>, ch: seq<Choice>, s: Store)
    requires DistinctObservations(trace) && |ch| < |trace| && Tables(trace, ch, s)
    ensures Unseen(s, trace[|ch|])
  {
    var x := trace[|ch|];
    forall k | k in s.claims
      ensures k.obs != x.obs && s.claims[k].id != MacRow(x).id && s.claims[k].id != IpRow(x).id
    {
      assert ClaimSourced(trace, |ch|, k, s.claims[k]);
      var i :| 0 <= i < |ch| && ClaimFrom(trace[i], k, s.claims[k]);
    }
    assert !DeviceSourced(trace, |ch|, NewDevice(x));
    forall l | l in s.links ensures l.claim != MacRow(x).id && l.claim != IpRow(x).id {
      assert LinkSourced(trace, ch, l, s.links[l]);
      var i :| 0 <= i < |ch| && LinkFrom(trace[i], ch[i], l, s.links[l]);
    }
  }

  lemma ChosenIsKnown(s: Store, x: Sighting)
    ensures Choose(s, x).Continues? ==> Choose(s, x).device in s.devices
    ensures Choose(s, x).Creates? ==> Choose(s, x).device == NewDevice(x)
  {
    if Choose(s, x).Continues? { assert Choose(s, x).device in Candidates(s, x); }
  }

  lemma AddedIsRecorded(trace: seq<Sighting>, ch: seq<Choice>, s: Store, c: Choice)
    requires DistinctObservations(trace) && |ch| < |trace| && AllRecorded(trace, ch, s)
    requires c.Continues? ==> c.device in s.devices
    ensures AllRecorded(trace, ch + [c], Added(s, trace[|ch|], c))
  {
    var x := trace[|ch|];
    var t := Added(s, x, c);
    forall i | 0 <= i < |ch| ensures Recorded(t, trace[i], ch[i]) {
      assert Recorded(s, trace[i], ch[i]);
      assert trace[i].obs != x.obs;
      KeepsRows(s, x, c, trace[i], ch[i]);
    }
    assert Recorded(t, x, c);
  }

  lemma KeepsRows(s: Store, x: Sighting, c: Choice, y: Sighting, e: Choice)
    requires Recorded(s, y, e) && x.obs != y.obs
    ensures Recorded(Added(s, x, c), y, e)
  {
  }

  lemma AddedClaimsSourced(trace: seq<Sighting>, n: nat, s: Store, c: Choice)
    requires n < |trace| && ClaimsSourced(trace, n, s)
    ensures ClaimsSourced(trace, n + 1, Added(s, trace[n], c))
  {
    var x := trace[n];
    var t := Added(s, x, c);
    forall k | k in t.claims ensures ClaimSourced(trace, n + 1, k, t.claims[k]) {
      if k in s.claims && t.claims[k] == s.claims[k] {
        assert ClaimSourced(trace, n, k, s.claims[k]);
        var i :| 0 <= i < n && ClaimFrom(trace[i], k, s.claims[k]);
      } else {
        assert ClaimFrom(trace[n], k, t.claims[k]);
      }
    }
  }

  lemma AddedLinksSourced(trace: seq<Sighting>, ch: seq<Choice>, s: Store, c: Choice)
    requires |ch| < |trace| && LinksSourced(trace, ch, s)
    ensures LinksSourced(trace, ch + [c], Added(s, trace[|ch|], c))
  {
    var x := trace[|ch|];
    var t, next := Added(s, x, c), ch + [c];
    forall l | l in t.links ensures LinkSourced(trace, next, l, t.links[l]) {
      if l in s.links && t.links[l] == s.links[l] {
        assert LinkSourced(trace, ch, l, s.links[l]);
        var i :| 0 <= i < |ch| && LinkFrom(trace[i], ch[i], l, s.links[l]);
        assert next[i] == ch[i];
      } else {
        assert LinkFrom(trace[|ch|], next[|ch|], l, t.links[l]);
      }
    }
  }

  lemma AddedDevicesSourced(trace: seq<Sighting>, n: nat, s: Store, c: Choice)
    requires n < |trace| && DevicesSourced(trace, n, s) && (c.Creates? ==> c.device == NewDevice(trace[n]))
    ensures DevicesSourced(trace, n + 1, Added(s, trace[n], c))
  {
    var t := Added(s, trace[n], c);
    forall d | d in t.devices ensures DeviceSourced(trace, n + 1, d) {
      if d in s.devices {
        assert DeviceSourced(trace, n, d);
        var i :| 0 <= i < n && d == NewDevice(trace[i]);
      } else {
        assert d == NewDevice(trace[n]);
      }
    }
  }

  /** One sighting more: the result is as reported, and the tables hold it too. */
  lemma StepTables(trace: seq<Sighting>, ch: seq<Choice>, s: Store)
    requires DistinctObservations(trace) && |ch| < |trace| && Tables(trace, ch, s)
    ensures var x := trace[|ch|];
            var c := Choose(s, x);
            ReconcileOne(s, x) == Reported(s, x, c) && Tables(trace, ch + [c], Added(s, x, c))
  {
    var x := trace[|ch|];
    var c := Choose(s, x);
    NextIsUnseen(trace, ch, s);
    ReconcileAdds(s, x);
    ChosenIsKnown(s, x);
    AddedIsRecorded(trace, ch, s, c);
    AddedClaimsSourced(trace, |ch|, s, c);
    AddedLinksSourced(trace, ch, s, c);
    AddedDevicesSourced(trace, |ch|, s, c);
  }

  lemma {:induction false} AfterTables(trace: seq<Sighting>, n: nat)
    requires DistinctObservations(trace) && n <= |trace|
    ensures Tables(trace, Choices(trace, n), After(trace, n))
  {
    if n != 0 {
      AfterTables(trace, n - 1);
      StepTables(trace, Choices(trace, n - 1), After(trace, n - 1));
      assert Choices(trace, n) == Choices(trace, n - 1) + [ChoiceAt(trace, n - 1)];
    }
  }

  // ----- Main results

  /** Every choice of every trace follows the rule: the n-th sighting is ambiguous
      exactly when two earlier linked sightings of its identity, in its window and
      retained, carry different devices; it continues a device exactly when they carry
      that one and no other; and it creates its own exactly when there is none. */
  lemma EveryChoiceIsDecided(trace: seq<Sighting>, n: nat)
    requires DistinctObservations(trace) && n < |trace|
    ensures Decided(trace, Choices(trace, n), trace[n], ChoiceAt(trace, n))
  {
    AfterTables(trace, n);
    ChoiceIsDecided(trace, Choices(trace, n), After(trace, n), trace[n]);
  }

  /** And the call reports that choice, with exactly the rows its writes let through. */
  lemma EveryResultIsReported(trace: seq<Sighting>, n: nat)
    requires DistinctObservations(trace) && n < |trace|
    ensures ResultAt(trace, n) == Reported(After(trace, n), trace[n], ChoiceAt(trace, n))
  {
    AfterTables(trace, n);
    StepTables(trace, Choices(trace, n), After(trace, n));
  }

  /** The three cases of the rule exclude one another. */
  lemma RuleIsExclusive(trace: seq<Sighting>, ch: seq<Choice>, x: Sighting, a: Choice, b: Choice)
    requires |ch| <= |trace| && Decided(trace, ch, x, a) && Decided(trace, ch, x, b)
    ensures a == b
  {
  }

  // ----- Replaying a sighting

  /** The i-th sighting delivered again at another time. */
  function Again(x: Sighting, now: int): Sighting { x.(now := now, writes := SOUND) }

  lemma AgainFindsItsRows(trace: seq<Sighting>, ch: seq<Choice>, s: Store, i: nat, now: int)
    requires |ch| <= |trace| && Tables(trace, ch, s) && i < |ch| && trace[i].writes == SOUND && !ch[i].Ambiguous?
    ensures var y := Again(trace[i], now);
            var c := Choose(s, y);
            ReconcileOne(s, y) == Attach(s, y, c, MacRow(y).id, IpRow(y).id)
    ensures var y := Again(trace[i], now);
            Attach(s, y, Continues(ch[i].device), MacRow(y).id, IpRow(y).id) == Reconciled(s, Some(ch[i].device),
                                                                                           false, false, true)
  {
    assert Recorded(s, trace[i], ch[i]);
    LinkIsWellFormed(trace, ch, s, LinkId(ch[i].device, MacRow(trace[i]).id));
    LinkIsWellFormed(trace, ch, s, LinkId(ch[i].device, IpRow(trace[i]).id));
  }

  /** A replay of a stored sighting, at any time and after any trace, changes nothing
      and names its device exactly when that device is shown to it and no other. */
  lemma ReplayExactly(trace: seq<Sighting>, n: nat, i: nat, now: int)
    requires DistinctObservations(trace) && i < n <= |trace| && trace[i].writes == SOUND
    requires !ChoiceAt(trace, i).Ambiguous?
    ensures var device := ChoiceAt(trace, i).device;
            var y := Again(trace[i], now);
            ReconcileOne(After(trace, n), y) == Reconciled(After(trace, n), Some(device), false, false, true)
            <==> Decided(trace, Choices(trace, n), y, Continues(device))
  {
    var s, ch, y := After(trace, n), Choices(trace, n), Again(trace[i], now);
    AfterTables(trace, n);
    AgainFindsItsRows(trace, ch, s, i, now);
    ChoiceIsDecided(trace, ch, s, y);
    if Decided(trace, ch, y,
               Continues(ch[i].device)) { RuleIsExclusive(trace, ch, y, Choose(s, y), Continues(ch[i].device)); }
  }
}
