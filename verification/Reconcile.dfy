/** Model of internal/controller/devicewatch/reconcile.go over the identity tables of
    internal/controller/storage/devicewatch.go: one observation. Digests are modelled
    as structured identifiers, which makes them injective. */
module Reconcile {
  import opened Ordering

  const SECOND: int := 1_000_000_000
  const DAY: int := 86_400 * SECOND
  const HORIZON: int := 7 * DAY
  const CLAIM_VALIDITY: int := 600 * SECOND
  const RETENTION: int := 30 * DAY

  datatype ClaimKind = Mac | Ipv4 | Ipv6
  datatype ClaimId = MacClaim(obs: string, mac: string) | IpClaim(obs: string, ip: string) | LegacyClaim(name: string)
  datatype DeviceId = DeviceId(scope: string, obs: string, mac: string)
  datatype LinkId = LinkId(device: DeviceId, claim: ClaimId)

  datatype ClaimKey = ClaimKey(obs: string, kind: ClaimKind, value: string)
  datatype Claim = Claim(id: ClaimId, scope: string, observedAt: int, validUntil: int, confidence: real,
                         sensor: string, expires: int)
  datatype Link = Link(device: DeviceId, claim: ClaimId, validFrom: int, validUntil: int, confidence: real,
                       continuity: bool, obs: string)

  /** The three tables: claims are unique by source observation, kind and value. */
  datatype Store = Store(claims: map<ClaimKey, Claim>, devices: map<DeviceId, int>, links: map<LinkId, Link>)

  const EMPTY: Store := Store(map[], map[], map[])

  /** A write that works, or that reports an error before or after its effect: each is
      an insert followed by a read, and either may fail. */
  datatype Write = Stores | FailsBefore | FailsAfter

  datatype Writes = Writes(mac: Write, ip: Write, device: Write, macLink: Write, ipLink: Write)

  const SOUND: Writes := Writes(Stores, Stores, Stores, Stores, Stores)

  /** One decoded neighbour observation: when it was observed, the store's clock when it
      arrives, and what its writes meet. */
  datatype Sighting = Sighting(obs: string, scope: string, sensor: string, mac: string, locallyAdministered: bool,
                               ip: string, ipv4: bool, at: int, now: int, writes: Writes)

  // ----- The store's operations

  predicate Within(c: Claim, scope: string, since: int, until: int, now: int) {
    c.scope == scope && since <= c.observedAt <= until && c.expires > now
  }

  predicate Recent(s: Store, l: Link, scope: string, mac: string, since: int, until: int, now: int) {
    && l.device in s.devices
    && exists k :: k in s.claims && s.claims[k].id == l.claim && k.kind == Mac && k.value == mac
                   && Within(s.claims[k], scope, since, until, now)
  }

  /** `FindRecentDevicesByClaim` for a MAC claim. */
  function RecentDevices(s: Store, scope: string, mac: string, since: int, until: int, now: int): set<DeviceId> {
    set i | i in s.links && Recent(s, s.links[i], scope, mac, since, until, now) :: s.links[i].device
  }

  datatype Ensured = Ensured(store: Store, id: Option<ClaimId>)
  datatype Wrote = Wrote(store: Store, ok: bool)

  /** Insert unless it conflicts, then read back by the source key. */
  function ClaimStored(s: Store, k: ClaimKey, c: Claim): Ensured {
    if k in s.claims then
      Ensured(s, if s.claims[k].scope == c.scope && s.claims[k].sensor == c.sensor then Some(s.claims[k].id) else None)
    else if exists j :: j in s.claims && s.claims[j].id == c.id then Ensured(s, None)
    else Ensured(s.(claims := s.claims[k := c]), Some(c.id))
  }

  function EnsureClaim(s: Store, k: ClaimKey, c: Claim, w: Write): Ensured {
    match w
    case Stores => ClaimStored(s, k, c)
    case FailsBefore => Ensured(s, None)
    case FailsAfter => Ensured(ClaimStored(s, k, c).store, None)
  }

  function EnsureDevice(s: Store, d: DeviceId, created: int, w: Write): Wrote {
    if w == FailsBefore then Wrote(s, false)
    else if d in s.devices then Wrote(s, s.devices[d] == created && w == Stores)
    else Wrote(s.(devices := s.devices[d := created]), w == Stores)
  }

  function EnsureLink(s: Store, l: Link, w: Write): Wrote {
    var id := LinkId(l.device, l.claim);
    if w == FailsBefore then Wrote(s, false)
    else if id in s.links then Wrote(s, s.links[id].device == l.device && s.links[id].claim == l.claim && w == Stores)
    else Wrote(s.(links := s.links[id := l]), w == Stores)
  }

  // ----- The plan

  function MacKey(x: Sighting): ClaimKey { ClaimKey(x.obs, Mac, x.mac) }
  function IpKey(x: Sighting): ClaimKey { ClaimKey(x.obs, if x.ipv4 then Ipv4 else Ipv6, x.ip) }
  function MacConfidence(x: Sighting): real { if x.locallyAdministered then 0.75 else 0.90 }

  function MacRow(x: Sighting): Claim {
    Claim(MacClaim(x.obs, x.mac), x.scope, x.at, x.at + CLAIM_VALIDITY, MacConfidence(x), x.sensor, x.now + RETENTION)
  }

  function IpRow(x: Sighting): Claim {
    Claim(IpClaim(x.obs, x.ip), x.scope, x.at, x.at + CLAIM_VALIDITY, 0.65, x.sensor, x.now + RETENTION)
  }

  function NewDevice(x: Sighting): DeviceId { DeviceId(x.scope, x.obs, x.mac) }

  datatype Choice = Ambiguous | Continues(device: DeviceId) | Creates(device: DeviceId)

  function Only<T>(s: set<T>): (x: T)
    requires |s| == 1
    ensures s == {x}
  {
    assert forall a, b :: a in s && b in s ==> a == b by {
      forall a, b | a in s && b in s ensures a == b {
        if a != b { assert {a, b} <= s; SubsetSize({a, b}, s); }
      }
    }
    var x :| x in s;
    x
  }

  lemma SubsetSize<T>(a: set<T>, b: set<T>)
    requires a <= b
    ensures |a| <= |b|
  {
    assert b == a + (b - a);
  }

  function Candidates(s: Store, x: Sighting): set<DeviceId> {
    RecentDevices(s, x.scope, x.mac, x.at - HORIZON, x.at, x.now)
  }

  function Decide(candidates: set<DeviceId>, x: Sighting): Choice {
    if |candidates| > 1 then Ambiguous
    else if |candidates| == 1 then Continues(Only(candidates))
    else Creates(NewDevice(x))
  }

  function Choose(s: Store, x: Sighting): Choice { Decide(Candidates(s, x), x) }

  function LinkFor(x: Sighting, choice: Choice, claim: ClaimId, confidence: real): Link
    requires !choice.Ambiguous?
  {
    Link(choice.device, claim, x.at, x.at + CLAIM_VALIDITY, confidence, choice.Continues?, x.obs)
  }

  // ----- Reconciling one observation

  datatype Reconciled = Reconciled(store: Store, device: Option<DeviceId>, created: bool, ambiguous: bool, ok: bool)

  /** The links, once the claims and the device are there. */
  function LinkBoth(s: Store, x: Sighting, choice: Choice, mac: ClaimId, ip: ClaimId): Reconciled
    requires !choice.Ambiguous?
  {
    var first := EnsureLink(s, LinkFor(x, choice, mac, MacConfidence(x)), x.writes.macLink);
    if !first.ok then Reconciled(first.store, Some(choice.device), choice.Creates?, false, false)
    else
      var second := EnsureLink(first.store, LinkFor(x, choice, ip, 0.65), x.writes.ipLink);
      Reconciled(second.store, Some(choice.device), choice.Creates?, false, second.ok)
  }

  /** The device and the links, once the claims are there. */
  function Attach(s: Store, x: Sighting, choice: Choice, mac: ClaimId, ip: ClaimId): Reconciled {
    if choice.Ambiguous? then Reconciled(s, None, false, true, true)
    else if choice.Continues? then LinkBoth(s, x, choice, mac, ip)
    else
      var made := EnsureDevice(s, choice.device, x.at, x.writes.device);
      if !made.ok then Reconciled(made.store, None, false, false, false) else LinkBoth(made.store, x, choice, mac, ip)
  }

  function ReconcileOne(s: Store, x: Sighting): Reconciled {
    var choice := Choose(s, x);
    var mac := EnsureClaim(s, MacKey(x), MacRow(x), x.writes.mac);
    if mac.id.None? then Reconciled(mac.store, None, false, false, false)
    else
      var ip := EnsureClaim(mac.store, IpKey(x), IpRow(x), x.writes.ip);
      if ip.id.None? then Reconciled(ip.store, None, false, false, false)
      else Attach(ip.store, x, choice, mac.id.value, ip.id.value)
  }

  // ----- What one observation with new identifiers leaves

  /** The rows a sighting's own identifiers would meet are not there yet. */
  predicate Unseen(s: Store, x: Sighting) {
    && (forall k :: k in s.claims ==>
          k.obs != x.obs && s.claims[k].id != MacRow(x).id && s.claims[k].id != IpRow(x).id)
    && NewDevice(x) !in s.devices
    && (forall l :: l in s.links ==> l.claim != MacRow(x).id && l.claim != IpRow(x).id)
  }

  predicate ClaimsWritten(x: Sighting) { x.writes.mac == Stores && x.writes.ip == Stores }

  /** The links are attempted, to a device that is there. */
  predicate Attached(x: Sighting, c: Choice) {
    ClaimsWritten(x) && !c.Ambiguous? && (c.Creates? ==> x.writes.device == Stores)
  }

  /** The device the sighting's MAC claim ends up linked to, if any, whether or not the
      call reported success. */
  function Carried(x: Sighting, c: Choice): Option<DeviceId> {
    if Attached(x, c) && x.writes.macLink != FailsBefore then Some(c.device) else None
  }

  function ClaimsAfter(s: Store, x: Sighting): map<ClaimKey, Claim> {
    var first := if x.writes.mac == FailsBefore then s.claims else s.claims[MacKey(x) := MacRow(x)];
    if x.writes.mac == Stores && x.writes.ip != FailsBefore then first[IpKey(x) := IpRow(x)] else first
  }

  function DevicesAfter(s: Store, x: Sighting, c: Choice): map<DeviceId, int> {
    if ClaimsWritten(x) && c.Creates? && x.writes.device != FailsBefore then s.devices[c.device := x.at] else s.devices
  }

  function LinksAfter(s: Store, x: Sighting, c: Choice): map<LinkId, Link> {
    if Carried(x, c).None? then s.links
    else
      var first := s.links[LinkId(c.device, MacRow(x).id) := LinkFor(x, c, MacRow(x).id, MacConfidence(x))];
      if x.writes.macLink == Stores && x.writes.ipLink != FailsBefore
      then first[LinkId(c.device, IpRow(x).id) := LinkFor(x, c, IpRow(x).id, 0.65)] else first
  }

  function Added(s: Store, x: Sighting, c: Choice): Store {
    Store(ClaimsAfter(s, x), DevicesAfter(s, x, c), LinksAfter(s, x, c))
  }

  /** What the call reports. */
  function Reported(s: Store, x: Sighting, c: Choice): Reconciled {
    var ambiguous := ClaimsWritten(x) && c.Ambiguous?;
    Reconciled(Added(s, x, c), if Attached(x, c) then Some(c.device) else None, Attached(x, c) && c.Creates?, ambiguous,
               ambiguous || (Attached(x, c) && x.writes.macLink == Stores && x.writes.ipLink == Stores))
  }

  lemma ClaimsLeft(s: Store, x: Sighting)
    requires Unseen(s, x)
    ensures var mac := EnsureClaim(s, MacKey(x), MacRow(x), x.writes.mac);
            && (mac.id == if x.writes.mac == Stores then Some(MacRow(x).id) else None)
            && (mac.id.None? ==> mac.store == s.(claims := ClaimsAfter(s, x)))
            && (mac.id.Some? ==>
                  var ip := EnsureClaim(mac.store, IpKey(x), IpRow(x), x.writes.ip);
                  && ip.store == s.(claims := ClaimsAfter(s, x))
                  && ip.id == if x.writes.ip == Stores then Some(IpRow(x).id) else None)
  {
  }

  lemma LinksLeft(s: Store, x: Sighting, c: Choice)
    requires !c.Ambiguous? && Attached(x, c)
    requires forall l :: l in s.links ==> l.claim != MacRow(x).id && l.claim != IpRow(x).id
    ensures LinkBoth(s, x, c, MacRow(x).id, IpRow(x).id) ==
            Reconciled(s.(links := LinksAfter(s, x, c)), Some(c.device), c.Creates?, false,
                       x.writes.macLink == Stores && x.writes.ipLink == Stores)
  {
  }

  lemma AttachedLeft(s: Store, x: Sighting, c: Choice)
    requires ClaimsWritten(x) && (c.Creates? ==> c.device !in s.devices)
    requires forall l :: l in s.links ==> l.claim != MacRow(x).id && l.claim != IpRow(x).id
    ensures var t := s.(devices := DevicesAfter(s, x, c), links := LinksAfter(s, x, c));
            Attach(s, x, c, MacRow(x).id, IpRow(x).id) == Reported(s, x, c).(store := t)
  {
    var t := s.(devices := DevicesAfter(s, x, c));
    if Attached(x, c) { LinksLeft(t, x, c); }
  }

  /** The whole effect and result of an observation whose identifiers are new, whatever
      its writes meet. */
  lemma ReconcileAdds(s: Store, x: Sighting)
    requires Unseen(s, x)
    ensures ReconcileOne(s, x) == Reported(s, x, Choose(s, x))
  {
    var c := Choose(s, x);
    ClaimsLeft(s, x);
    if ClaimsWritten(x) { AttachedLeft(s.(claims := ClaimsAfter(s, x)), x, c); }
  }

  // ----- The rows of one observation, field by field

  predicate MacClaimOf(c: Claim, x: Sighting) {
    && c.scope == x.scope && c.sensor == x.sensor && c.observedAt == x.at && c.validUntil == x.at + 600 * SECOND
    && c.expires == x.now + 30 * DAY && c.confidence == (if x.locallyAdministered then 0.75 else 0.90)
  }

  predicate IpClaimOf(c: Claim, x: Sighting) {
    && c.scope == x.scope && c.sensor == x.sensor && c.observedAt == x.at && c.validUntil == x.at + 600 * SECOND
    && c.expires == x.now + 30 * DAY && c.confidence == 0.65
  }

  /** The link of a claim to a device, marked as continuity or as a new candidate. */
  predicate LinkOf(l: Link, c: Claim, device: DeviceId, x: Sighting, continuity: bool) {
    && l.device == device && l.claim == c.id && l.confidence == c.confidence && l.obs == x.obs
    && l.validFrom == x.at && l.validUntil == x.at + 600 * SECOND && l.continuity == continuity
  }

  /** What an observation with new identifiers leaves when every write works: a claim of
      the hardware address and one of the IP address, of the kind of its family; a device
      created now exactly when none was found; and, unless the identity is ambiguous, a
      link of each claim to that device. Nothing that was there is touched. */
  lemma RowsExactly(s: Store, x: Sighting)
    requires Unseen(s, x) && x.writes == SOUND
    ensures var r, found := ReconcileOne(s, x), Candidates(s, x);
            var mac, ip := ClaimKey(x.obs, Mac, x.mac), ClaimKey(x.obs, if x.ipv4 then Ipv4 else Ipv6, x.ip);
            && r.ok && (r.ambiguous <==> |found| > 1) && (r.created <==> |found| == 0)
            && (r.device.None? <==> |found| > 1) && (|found| == 1 ==> found == {r.device.value})
            && r.store.claims.Keys == s.claims.Keys + {mac, ip}
               && (forall k :: k in s.claims ==> r.store.claims[k] == s.claims[k])
            && MacClaimOf(r.store.claims[mac], x) && IpClaimOf(r.store.claims[ip], x)
            && r.store.devices == (if |found| == 0 then s.devices[r.device.value := x.at] else s.devices)
            && (|found| > 1 ==> r.store.links == s.links)
            && (|found| <= 1 ==>
                  var d := r.device.value;
                  var a, b := LinkId(d, r.store.claims[mac].id), LinkId(d, r.store.claims[ip].id);
                  && r.store.links.Keys == s.links.Keys + {a, b}
                  && (forall k :: k in s.links ==> r.store.links[k] == s.links[k])
                  && LinkOf(r.store.links[a], r.store.claims[mac], d, x, |found| == 1)
                  && LinkOf(r.store.links[b], r.store.claims[ip], d, x, |found| == 1))
  {
    ReconcileAdds(s, x);
    ClaimsExactly(s, x);
    var c := Choose(s, x);
    if !c.Ambiguous? { LinksExactly(s, x, c); }
  }

  lemma ClaimsExactly(s: Store, x: Sighting)
    requires Unseen(s, x) && x.writes == SOUND
    ensures var claims := ClaimsAfter(s, x);
            var mac, ip := ClaimKey(x.obs, Mac, x.mac), ClaimKey(x.obs, if x.ipv4 then Ipv4 else Ipv6, x.ip);
            && claims.Keys == s.claims.Keys + {mac, ip} && (forall k :: k in s.claims ==> claims[k] == s.claims[k])
            && claims[mac] == MacRow(x) && claims[ip] == IpRow(x)
            && MacClaimOf(claims[mac], x) && IpClaimOf(claims[ip], x)
  {
  }

  lemma LinksExactly(s: Store, x: Sighting, c: Choice)
    requires Unseen(s, x) && x.writes == SOUND && !c.Ambiguous?
    ensures var links := LinksAfter(s, x, c);
            var a, b := LinkId(c.device, MacRow(x).id), LinkId(c.device, IpRow(x).id);
            && links.Keys == s.links.Keys + {a, b} && (forall k :: k in s.links ==> links[k] == s.links[k])
            && LinkOf(links[a], MacRow(x), c.device, x, c.Continues?)
            && LinkOf(links[b], IpRow(x), c.device, x, c.Continues?)
  {
  }

  // ----- The reconciler object

  class IdentityStore {
    var claims: map<ClaimKey, Claim>
    var devices: map<DeviceId, int>
    var links: map<LinkId, Link>

    function View(): Store
      reads this
    { Store(claims, devices, links) }

    constructor ()
      ensures View() == EMPTY
    { claims, devices, links := map[], map[], map[]; }

    method PutClaim(k: ClaimKey, c: Claim, w: Write) returns (id: Option<ClaimId>)
      modifies this`claims
      ensures Ensured(View(), id) == EnsureClaim(old(View()), k, c, w)
    {
      if w == FailsBefore { return None; }
      if k !in claims && !(exists j :: j in claims && claims[j].id == c.id) {
        claims := claims[k := c];
      }
      if w == FailsAfter || k !in claims || claims[k].scope != c.scope || claims[k].sensor != c.sensor { return None; }
      return Some(claims[k].id);
    }

    method PutDevice(d: DeviceId, created: int, w: Write) returns (ok: bool)
      modifies this`devices
      ensures Wrote(View(), ok) == EnsureDevice(old(View()), d, created, w)
    {
      if w == FailsBefore { return false; }
      if d !in devices { devices := devices[d := created]; }
      return devices[d] == created && w == Stores;
    }

    method PutLink(l: Link, w: Write) returns (ok: bool)
      modifies this`links
      ensures Wrote(View(), ok) == EnsureLink(old(View()), l, w)
    {
      if w == FailsBefore { return false; }
      var id := LinkId(l.device, l.claim);
      if id !in links { links := links[id := l]; }
      return links[id].device == l.device && links[id].claim == l.claim && w == Stores;
    }

    /** `ReconcileObservation`: plan, ensure the claims, then the device, then the
        links to the claims as they were resolved. */
    method ReconcileObservation(x: Sighting)
      returns (device: Option<DeviceId>, created: bool, ambiguous: bool, ok: bool)
      modifies this
      ensures Reconciled(View(), device, created, ambiguous, ok) == ReconcileOne(old(View()), x)
    {
      ghost var before := View();
      var choice := Choose(View(), x);
      var items := [(MacKey(x), MacRow(x), x.writes.mac), (IpKey(x), IpRow(x), x.writes.ip)];
      ghost var first := EnsureClaim(before, MacKey(x), MacRow(x), x.writes.mac);
      ghost var second := EnsureClaim(first.store, IpKey(x), IpRow(x), x.writes.ip);
      var resolved: map<ClaimId, ClaimId> := map[];
      for i := 0 to |items|
        invariant i == 0 ==> View() == before
        invariant i >= 1 ==> first.id.Some? && MacRow(x).id in resolved && resolved[MacRow(x).id] == first.id.value
        invariant i == 1 ==> View() == first.store
        invariant i == 2 ==> View() == second.store && second.id.Some?
        invariant i == 2 ==> IpRow(x).id in resolved && resolved[IpRow(x).id] == second.id.value
      {
        var id := PutClaim(items[i].0, items[i].1, items[i].2);
        if id.None? { return None, false, false, false; }
        resolved := resolved[items[i].1.id := id.value];
      }
      device, created, ambiguous, ok := PutDeviceAndLinks(x, choice, resolved[MacRow(x).id], resolved[IpRow(x).id]);
    }

    method PutDeviceAndLinks(x: Sighting, choice: Choice, mac: ClaimId, ip: ClaimId)
      returns (device: Option<DeviceId>, created: bool, ambiguous: bool, ok: bool)
      modifies this`devices, this`links
      ensures Reconciled(View(), device, created, ambiguous, ok) == Attach(old(View()), x, choice, mac, ip)
    {
      if choice.Ambiguous? { return None, false, true, true; }
      if choice.Creates? {
        var made := PutDevice(choice.device, x.at, x.writes.device);
        if !made { return None, false, false, false; }
      }
      device, created, ambiguous := Some(choice.device), choice.Creates?, false;
      ghost var before := View();
      var wanted := [(LinkFor(x, choice, mac, MacConfidence(x)), x.writes.macLink),
                     (LinkFor(x, choice, ip, 0.65), x.writes.ipLink)];
      ghost var first := EnsureLink(before, wanted[0].0, wanted[0].1);
      for i := 0 to |wanted|
        invariant claims == old(claims)
        invariant i == 0 ==> View() == before
        invariant i == 1 ==> first == Wrote(View(), true)
        invariant i == 2 ==> first.ok && EnsureLink(first.store, wanted[1].0, wanted[1].1) == Wrote(View(), true)
      {
        ok := PutLink(wanted[i].0, wanted[i].1);
        if !ok { return; }
      }
      ok := true;
    }
  }
}
