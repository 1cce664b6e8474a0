/** Model of internal/controller/checkroute: one bounded inspection of interface
    and route metadata, read before and after the route lookup. */
module CheckRoute {
  import opened Ordering
  import opened NetIP
  import opened CheckBinding

  const FRESHNESS: int := 30_000_000_000
  const INSPECTION_TIMEOUT: int := 2_000_000_000
  const MAX_INTERFACE_ADDRESSES: nat := 128

  datatype Enrollment = Enrollment(name: string, index: int, prefixes: seq<string>)

  datatype Interface = Interface(name: string, index: int, up: bool, loopback: bool, pointToPoint: bool,
                                 addresses: seq<Prefix>)

  datatype Route = Route(destination: Prefix, source: Addr, name: string, index: int, gateway: Addr, gatewayZone: int,
                         linkIndex: int)

  // ----- Enrollment

  predicate Routable(p: Prefix) {
    p.addr.IsGlobalUnicast() && !p.addr.IsLoopback() && !p.addr.IsLinkLocalUnicast()
  }

  /** The masked routable prefixes of the interface, as text. */
  function LivePrefixes(t: Text, addresses: seq<Prefix>): set<string> {
    set p | p in addresses && p.IsValid() && Routable(p) :: t.show(p.Masked())
  }

  predicate Usable(e: Enrollment, l: Interface) {
    && l.name == e.name && l.index == e.index && l.up && !l.loopback && !l.pointToPoint
    && 1 <= |l.addresses| <= MAX_INTERFACE_ADDRESSES
    && forall p :: p in l.addresses ==> p.IsValid() && !p.addr.Is4In6()
  }

  /** The enrolled list enumerates the live prefixes without repetition. */
  ghost predicate Enumerates(prefixes: seq<string>, live: set<string>) {
    Distinct(prefixes) && forall s :: s in prefixes <==> s in live
  }

  lemma {:induction false} DistinctCount(s: seq<string>, live: set<string>)
    requires Enumerates(s, live)
    ensures |live| == |s|
  {
    if |s| == 0 {
      assert live == {};
    } else {
      var n := |s| - 1;
      forall x ensures x in s[..n] <==> x in live - {s[n]} {
        if x in s[..n] { var i :| 0 <= i < n && s[i] == x; }
        if x in live && x != s[n] { var i :| 0 <= i < |s| && s[i] == x; assert s[..n][i] == x; }
      }
      DistinctCount(s[..n], live - {s[n]});
    }
  }

  method CollectLive(t: Text, addresses: seq<Prefix>) returns (ok: bool, live: set<string>)
    ensures ok <==> forall p :: p in addresses ==> p.IsValid() && !p.addr.Is4In6()
    ensures ok ==> live == LivePrefixes(t, addresses)
  {
    live := {};
    for i := 0 to |addresses|
      invariant forall p :: p in addresses[..i] ==> p.IsValid() && !p.addr.Is4In6()
      invariant live == LivePrefixes(t, addresses[..i])
    {
      var p := addresses[i];
      if !p.IsValid() || p.addr.Is4In6() {
        assert p in addresses;
        return false, {};
      }
      assert addresses[..i + 1] == addresses[..i] + [p];
      if Routable(p) {
        live := live + {t.show(p.Masked())};
      }
    }
    assert addresses[..|addresses|] == addresses;
    ok := true;
  }

  /** Filling a set and deleting the enrolled prefixes from it decides equality
      with the live prefixes, repetition included. */
  method MatchesEnrollment(t: Text, e: Enrollment, l: Interface) returns (ok: bool)
    ensures ok <==> Usable(e, l) && Enumerates(e.prefixes, LivePrefixes(t, l.addresses))
  {
    if l.name != e.name || l.index != e.index || !l.up || l.loopback || l.pointToPoint
       || |l.addresses| == 0 || |l.addresses| > MAX_INTERFACE_ADDRESSES {
      return false;
    }
    var valid, live := CollectLive(t, l.addresses);
    if !valid {
      return false;
    }
    if |live| != |e.prefixes| {
      if Enumerates(e.prefixes, live) { DistinctCount(e.prefixes, live); }
      return false;
    }
    var rest := live;
    for i := 0 to |e.prefixes|
      invariant Distinct(e.prefixes[..i])
      invariant forall s :: s in e.prefixes[..i] ==> s in live
      invariant forall s :: s in rest <==> s in live && s !in e.prefixes[..i]
    {
      var p := e.prefixes[i];
      assert e.prefixes[..i + 1] == e.prefixes[..i] + [p];
      if p !in rest {
        if p in e.prefixes[..i] {
          var j :| 0 <= j < i && e.prefixes[..i][j] == p;
          assert e.prefixes[j] == e.prefixes[i];
        }
        assert p in e.prefixes;
        return false;
      }
      rest := rest - {p};
    }
    assert e.prefixes[..|e.prefixes|] == e.prefixes;
    ok := |rest| == 0;
    if ok {
      forall s | s in live ensures s in e.prefixes { assert s !in rest; }
    } else {
      var s :| s in rest;
      assert s in live && s !in e.prefixes;
    }
  }

  // ----- Route

  predicate GatewayOk(target: Addr, r: Route) {
    if r.gateway.NoAddr? then r.linkIndex == r.index
    else
      && r.linkIndex == 0 && r.gateway.Is4() == target.Is4() && !r.gateway.IsUnspecified() && !r.gateway.IsLoopback()
      && !r.gateway.IsMulticast() && !r.gateway.Is4In6() && r.gateway != r.source && r.gateway != target
      && if r.gateway.IsLinkLocalUnicast() then !r.gateway.Is4() && r.gatewayZone == r.index
         else r.gateway.IsGlobalUnicast() && r.gatewayZone == 0
  }

  predicate RouteShape(e: Enrollment, target: Addr, r: Route) {
    && r.name == e.name && r.index == e.index
    && r.destination.IsValid() && r.destination.IsMasked() && r.destination.Contains(target)
    && !r.source.NoAddr? && r.source.Is4() == target.Is4()
    && GatewayOk(target, r)
  }

  /** An address of the interface can be the source: it equals it, and covers the
      target when there is no gateway. */
  predicate OwnsSource(target: Addr, r: Route, p: Prefix) {
    p.addr == r.source && (!r.gateway.NoAddr? || p.Contains(target))
  }

  /** What one read of the interface must show. */
  predicate OwnershipOk(target: Addr, r: Route, addresses: seq<Prefix>) {
    && (forall p :: p in addresses ==> p.addr != target && (r.gateway.NoAddr? || p.addr != r.gateway))
    && (exists p :: p in addresses && OwnsSource(target, r, p))
    && (r.gateway.NoAddr? || exists p :: p in addresses && p.Contains(r.gateway))
  }

  method CheckOwnership(target: Addr, r: Route, addresses: seq<Prefix>) returns (ok: bool)
    ensures ok <==> OwnershipOk(target, r, addresses)
  {
    var source, gateway := false, false;
    for i := 0 to |addresses|
      invariant forall p :: p in addresses[..i] ==> p.addr != target && (r.gateway.NoAddr? || p.addr != r.gateway)
      invariant source <==> exists p :: p in addresses[..i] && OwnsSource(target, r, p)
      invariant gateway <==> !r.gateway.NoAddr? && exists p :: p in addresses[..i] && p.Contains(r.gateway)
    {
      var p := addresses[i];
      if p.addr == target || (!r.gateway.NoAddr? && p.addr == r.gateway) {
        assert p in addresses;
        return false;
      }
      assert addresses[..i + 1] == addresses[..i] + [p];
      if OwnsSource(target, r, p) { source := true; }
      if !r.gateway.NoAddr? && p.Contains(r.gateway) { gateway := true; }
    }
    assert addresses[..|addresses|] == addresses;
    ok := source && (r.gateway.NoAddr? || gateway);
  }

  predicate RouteOk(e: Enrollment, target: Addr, r: Route, before: Interface, after: Interface) {
    RouteShape(e, target, r) && OwnershipOk(target, r, before.addresses) && OwnershipOk(target, r, after.addresses)
  }

  method MatchesRoute(e: Enrollment, target: Addr, r: Route, before: Interface, after: Interface) returns (ok: bool)
    ensures ok <==> RouteOk(e, target, r, before, after)
  {
    if !RouteShape(e, target, r) {
      return false;
    }
    ok := CheckOwnership(target, r, before.addresses);
    if ok {
      ok := CheckOwnership(target, r, after.addresses);
    }
  }

  // ----- Inspection

  /** What the environment answers during one inspection; `live[k]` says the
      context was still live at the k-th test. */
  datatype World = World(start: int, observerValid: bool, before: Option<Interface>, route: Option<Route>,
                         observed: int, after: Option<Interface>, now: int,
                         live0: bool, live1: bool, live2: bool, live3: bool)

  datatype Evidence = Evidence(source: Addr, observedAt: int, freshUntil: int, completedAt: int)

  /** Nanoseconds since the Unix epoch that fit 64 bits. */
  predicate ValidTime(t: int) { -0x8000_0000_0000_0000 <= t < 0x8000_0000_0000_0000 }

  predicate ClockOk(w: World) {
    && ValidTime(w.start) && ValidTime(w.start + FRESHNESS)
    && ValidTime(w.observed) && ValidTime(w.observed + FRESHNESS) && ValidTime(w.now)
    && w.start <= w.observed <= w.now < w.start + INSPECTION_TIMEOUT
  }

  predicate RequestOk(e: Enrollment, target: Addr) {
    EligibleHost(target) && 1 <= |e.prefixes| <= 32 && forall s :: s in e.prefixes ==> |s| <= 64
  }

  predicate Answered(w: World) {
    w.live0 && w.live1 && w.live2 && w.live3 && w.observerValid && w.before.Some? && w.route.Some? && w.after.Some?
  }

  /** The enrollment is the same in both reads, and the route agrees with both. */
  ghost predicate Consistent(t: Text, e: Enrollment, target: Addr, w: World)
    requires Answered(w)
  {
    && Usable(e, w.before.value) && Enumerates(e.prefixes, LivePrefixes(t, w.before.value.addresses))
    && Usable(e, w.after.value) && Enumerates(e.prefixes, LivePrefixes(t, w.after.value.addresses))
    && RouteOk(e, target, w.route.value, w.before.value, w.after.value)
    && Binds(t, w.route.value.source, target, e.prefixes)
  }

  method Inspect(t: Text, e: Enrollment, target: Addr, w: World) returns (r: Option<Evidence>)
    ensures r.Some? <==> Answered(w) && RequestOk(e, target) && ClockOk(w) && Consistent(t, e, target, w)
    ensures r.Some? ==> r.value == Evidence(w.route.value.source, w.observed, w.observed + FRESHNESS, w.now)
  {
    r := None;
    if !w.live0 || !ValidTime(w.start) || !ValidTime(w.start + FRESHNESS) || !w.observerValid || !RequestOk(e, target)
        || w.before.None? {
      return;
    }
    var enrolled := MatchesEnrollment(t, e, w.before.value);
    if !enrolled || !w.live1 || w.route.None? || !w.live2 || w.after.None? || !w.live3 || !ClockOk(w) {
      return;
    }
    enrolled := MatchesEnrollment(t, e, w.after.value);
    if !enrolled {
      return;
    }
    var routed := MatchesRoute(e, target, w.route.value, w.before.value, w.after.value);
    if !routed {
      return;
    }
    var bound := Validate(t, w.route.value.source, target, e.prefixes);
    if bound.Some? {
      r := Some(Evidence(w.route.value.source, w.observed, w.observed + FRESHNESS, w.now));
    }
  }

  predicate Owns(l: Interface, a: Addr) {
    exists p :: p in l.addresses && p.addr == a
  }

  /** The text of a prefix can be read back. */
  ghost predicate ReadsBack(t: Text) {
    forall p: ValidPrefix :: t.parse(t.show(p)) == Some(p)
  }

  /** What a caller may conclude from evidence: the source is an eligible host of
      the target's family, owned by the interface in both reads and covered by one
      of the interface's own live prefixes; the target is owned in neither read. */
  lemma EvidenceMeaning(t: Text, e: Enrollment, target: Addr, w: World)
    requires ReadsBack(t) && Answered(w) && Consistent(t, e, target, w)
    ensures var source := w.route.value.source;
            && EligibleHost(source) && source.Is4() == target.Is4() && source != target
            && Owns(w.before.value, source) && Owns(w.after.value, source)
            && !Owns(w.before.value, target) && !Owns(w.after.value, target)
            && (exists p :: p in w.before.value.addresses && p.IsValid() && Routable(p) && p.Masked().Contains(source))
            && (exists p :: p in w.after.value.addresses && p.IsValid() && Routable(p) && p.Masked().Contains(source))
  {
    var source := w.route.value.source;
    var raw :| raw in e.prefixes && HasMember(t, raw, source);
    LivePrefixCovers(t, e, w.before.value, raw, source);
    LivePrefixCovers(t, e, w.after.value, raw, source);
    var p :| p in w.before.value.addresses && OwnsSource(target, w.route.value, p);
    var q :| q in w.after.value.addresses && OwnsSource(target, w.route.value, q);
  }

  lemma LivePrefixCovers(t: Text, e: Enrollment, l: Interface, raw: string, a: Addr)
    requires ReadsBack(t) && Enumerates(e.prefixes, LivePrefixes(t, l.addresses))
    requires raw in e.prefixes && HasMember(t, raw, a)
    ensures exists p :: p in l.addresses && p.IsValid() && Routable(p) && p.Masked().Contains(a)
  {
    assert raw in LivePrefixes(t, l.addresses);
    var p :| p in l.addresses && p.IsValid() && Routable(p) && t.show(p.Masked()) == raw;
    var m: ValidPrefix := p.Masked();
    assert t.parse(t.show(m)) == Some(m);
  }

  // ----- The two shapes of a route that are accepted

  /** What either shape must show: the enrolled interface, a destination that covers the
      target, and a source of the target's family that the interface owns in both reads,
      while the target is its own in neither. */
  ghost predicate OwnSource(e: Enrollment, target: Addr, r: Route, before: Interface, after: Interface) {
    && r.name == e.name && r.index == e.index
    && r.destination.IsValid() && r.destination.IsMasked() && r.destination.Contains(target)
    && !r.source.NoAddr? && r.source.Is4() == target.Is4()
    && Owns(before, r.source) && Owns(after, r.source) && !Owns(before, target) && !Owns(after, target)
  }

  /** An on-link answer is accepted exactly when it names the interface's own link and,
      in both reads, an address of the interface that is the source covers the target. */
  lemma OnLinkExactly(e: Enrollment, target: Addr, r: Route, before: Interface, after: Interface)
    requires r.gateway.NoAddr?
    ensures RouteOk(e, target, r, before, after) <==>
            && OwnSource(e, target, r, before, after) && r.linkIndex == r.index
            && (exists p :: p in before.addresses && p.addr == r.source && p.Contains(target))
            && (exists p :: p in after.addresses && p.addr == r.source && p.Contains(target))
  {
    if OwnershipOk(target, r, before.addresses) {
      var p :| p in before.addresses && OwnsSource(target, r, p);
      assert p.addr == r.source && p.Contains(target);
    }
    if OwnershipOk(target, r, after.addresses) {
      var p :| p in after.addresses && OwnsSource(target, r, p);
      assert p.addr == r.source && p.Contains(target);
    }
    if q :| q in before.addresses && q.addr == r.source && q.Contains(target) { assert OwnsSource(target, r, q); }
    if q :| q in after.addresses && q.addr == r.source && q.Contains(target) { assert OwnsSource(target, r, q); }
  }

  /** A next hop other than the two ends: of the target's family and either a global
      address without a zone or an IPv6 link-local one in the interface's zone. */
  predicate NextHop(target: Addr, r: Route) {
    && r.gateway.Is4() == target.Is4() && r.gateway != r.source && r.gateway != target && !r.gateway.Is4In6()
    && !r.gateway.IsUnspecified() && !r.gateway.IsLoopback() && !r.gateway.IsMulticast()
    && (|| (r.gateway.IsLinkLocalUnicast() && !r.gateway.Is4() && r.gatewayZone == r.index)
        || (!r.gateway.IsLinkLocalUnicast() && r.gateway.IsGlobalUnicast() && r.gatewayZone == 0))
  }

  /** A routed answer is accepted exactly when it has such a next hop and, in both reads,
      the interface does not own it but has a prefix that covers it. */
  lemma RoutedExactly(e: Enrollment, target: Addr, r: Route, before: Interface, after: Interface)
    requires !r.gateway.NoAddr?
    ensures RouteOk(e, target, r, before, after) <==>
            && OwnSource(e, target, r, before, after) && r.linkIndex == 0 && NextHop(target, r)
            && !Owns(before, r.gateway) && !Owns(after, r.gateway)
            && (exists p :: p in before.addresses && p.Contains(r.gateway))
            && (exists p :: p in after.addresses && p.Contains(r.gateway))
  {
    RoutedOwnership(target, r, before);
    RoutedOwnership(target, r, after);
  }

  lemma RoutedOwnership(target: Addr, r: Route, l: Interface)
    requires !r.gateway.NoAddr?
    ensures OwnershipOk(target, r, l.addresses) <==>
            && !Owns(l, target) && !Owns(l, r.gateway) && Owns(l, r.source)
            && exists p :: p in l.addresses && p.Contains(r.gateway)
  {
    if p :| p in l.addresses && p.addr == r.source { assert OwnsSource(target, r, p); }
    if p :| p in l.addresses && OwnsSource(target, r, p) { assert p.addr == r.source; }
  }
}
