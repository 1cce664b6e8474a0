/** Durable intent under failure: what the controller and its stores hold, and
    what every step of a multi-step call must keep. A call is the sequence of
    states it passes through, one for each effect, so that a stop after any step
    is one of them. */
module ControllerWorld {
  import opened Ordering
  import opened Capability
  import opened ConfigManager

  datatype AuditEntry = AuditEntry(capability: string, phase: string)

  /** What the controller and its stores hold. `secrets` are the keychain items the
      connection owns; `active` says whether the Device Watch runtime is live. */
  datatype World = World(durable: Durable, engine: Engine, secrets: map<string, string>, audit: seq<AuditEntry>,
                         active: bool)

  /** The states a call passes through, one for each effect, and its success. */
  datatype Call = Call(steps: seq<World>, ok: bool)

  function Final(w: World, steps: seq<World>): World {
    if |steps| == 0 then w else steps[|steps| - 1]
  }

  /** One effect followed by the rest of the call. */
  function Then(w: World, rest: Call): Call { Call([w] + rest.steps, rest.ok) }

  /** An audit record that may fail to be written. */
  function Audited(w: World, id: string, phase: string, written: bool): World {
    if written then w.(audit := w.audit + [AuditEntry(id, phase)]) else w
  }

  // ----- AdGuard Home connection

  const ADGUARD: string := "adguard-home"

  datatype Parsed = Parsed(endpoint: string, username: string, ref: Option<string>)

  function ConnectionConfiguration(endpoint: string, username: string, ref: Option<string>,
                                   desired: Desired): Configuration {
    var values := map["endpoint" := JString(endpoint)];
    var named := if username == "" then values else values["username" := JString(username)];
    Configuration(ADGUARD, External, desired, if ref.Some? then named["credential_ref" := JString(ref.value)]
                  else named)
  }

  /** Decoding a JSON string; null leaves the Go string empty. */
  function Decoded(values: map<string, Json>, name: string): Option<string> {
    if name !in values then Some("")
    else match values[name] case JString(s) => Some(s) case JNull => Some("") case _ => None
  }

  function ParseConnection(c: Configuration): Option<Parsed> {
    var endpoint := Decoded(c.values, "endpoint");
    var username := Decoded(c.values, "username");
    var ref := Decoded(c.values, "credential_ref");
    if "endpoint" !in c.values || endpoint.None? || username.None? || ref.None? then None
    else if (username.value == "") != (ref.value == "") then None
    else if ref.value == "" then Some(Parsed(endpoint.value, username.value, None))
    else if !ValidReference(ref.value) then None
    else Some(Parsed(endpoint.value, username.value, Some(ref.value)))
  }

  /** What is stored can be read back, exactly when a reference accompanies a
      username and parses. */
  lemma ConnectionRoundTrip(endpoint: string, username: string, ref: Option<string>, desired: Desired)
    ensures ParseConnection(ConnectionConfiguration(endpoint, username, ref, desired)) == Some(Parsed(endpoint,
                                                                                                      username, ref))
            <==> (username == "" <==> ref.None?) && (ref.Some? ==> ValidReference(ref.value))
  {
    var c := ConnectionConfiguration(endpoint, username, ref, desired);
    assert c.values["endpoint"] == JString(endpoint);
    assert "username" in c.values <==> username != "";
    assert username != "" ==> c.values["username"] == JString(username);
    assert "credential_ref" in c.values <==> ref.Some?;
    assert ref.Some? ==> c.values["credential_ref"] == JString(ref.value);
  }

  // ----- What every step keeps

  /** The secrets a configuration entry accounts for: none without an entry; at most
      the referenced one with it, and that one for certain while enabled. */
  predicate Accounted(entry: Option<Configuration>, secrets: map<string, string>) {
    match entry
    case None => secrets == map[]
    case Some(c) =>
      && ParseConnection(c).Some?
      && var ref := ParseConnection(c).value.ref;
         && (forall k :: k in secrets ==> ref == Some(k))
         && (c.desired == Enabled && ref.Some? ==> ref.value in secrets)
  }

  /** Holds after every single step. */
  ghost predicate Safe(reg: Registry, w: World) {
    ValidConfigured(reg, w.durable) && StatesInv(reg, w.engine) && Accounted(Lookup(w.durable, ADGUARD), w.secrets)
  }

  /** The engine agrees with durable intent about every capability but one. */
  ghost predicate Agrees(w: World, except: string) {
    w.engine.configured - {except} == w.durable - {except}
  }

  /** Holds between calls: the engine's view is the durable one. */
  ghost predicate Quiet(reg: Registry, w: World) {
    Safe(reg, w) && w.engine.configured == w.durable
  }

  /** Every step is safe and the last one is quiet. */
  ghost predicate Good(reg: Registry, w: World, steps: seq<World>) {
    (forall i :: 0 <= i < |steps| ==> Safe(reg, steps[i])) && Quiet(reg, Final(w, steps))
  }

  lemma GoodThen(reg: Registry, w: World, next: World, rest: seq<World>)
    requires Safe(reg, next) && Good(reg, next, rest)
    ensures Good(reg, w, [next] + rest) && Final(w, [next] + rest) == Final(next, rest)
  {
    assert Final(w, [next] + rest) == Final(next, rest);
  }

  predicate Gone(w: World) { ADGUARD !in w.durable && w.secrets == map[] }

  lemma MergeEntry(m: Durable, d: Durable, id: string)
    requires m - {id} == d - {id}
    ensures id in d ==> m[id := d[id]] == d
    ensures id !in d ==> m - {id} == d
  {
    forall k | k != id ensures (k in m <==> k in d) && (k in m ==> m[k] == d[k]) {
      assert k in m <==> k in m - {id};
      assert k in d <==> k in d - {id};
      assert k in m ==> (m - {id})[k] == m[k];
      assert k in d ==> (d - {id})[k] == d[k];
    }
  }

  lemma ReplaceKeeps(reg: Registry, w: World, id: string, next: Option<Configuration>, writes: bool)
    requires ValidConfigured(reg, w.durable)
    ensures var r := Replace(reg, w.durable, id, next, writes);
            && ValidConfigured(reg, r.durable) && r.durable - {id} == w.durable - {id}
            && Lookup(r.durable, id) == (if r.ok then next else Lookup(w.durable, id))
            && (id != ADGUARD ==> Lookup(r.durable, ADGUARD) == Lookup(w.durable, ADGUARD))
            && (r.ok && next.Some? ==> next.value.id == id && ValidConfiguration(reg, next.value))
            && (writes && (next.Some? ==> next.value.id == id && ValidConfiguration(reg, next.value)) ==> r.ok)
  {
    ReplaceMeaning(reg, w.durable, id, next, writes);
  }

  lemma DisabledStaysValid(reg: Registry, c: Configuration)
    requires ValidConfiguration(reg, c)
    ensures ValidConfiguration(reg, c.(desired := Disabled))
  {
  }
}
