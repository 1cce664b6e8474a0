/** The two services the controller connects to without owning them. Their drivers,
    internal/controller/adguard/connection.go and internal/controller/opnsense/connection.go,
    go through the same effects; they differ in what they store, what they read back and
    how a Connect is admitted. */
module ExternalServices {
  import opened Ordering
  import opened Capability
  import opened ConfigManager
  import opened ControllerWorld
  import A = AdGuardConnection
  import D = DeviceWatchControl

  datatype Service = AdGuardHome | Opnsense

  const OPNSENSE: string := "opnsense"

  function ServiceId(k: Service): string { if k == AdGuardHome then ADGUARD else OPNSENSE }

  lemma ServicesDiffer()
    ensures ADGUARD != OPNSENSE && D.DEVICE_WATCH != OPNSENSE && D.DEVICE_WATCH != ADGUARD
  {
    assert OPNSENSE[0] != ADGUARD[0] && OPNSENSE[0] != D.DEVICE_WATCH[0] && D.DEVICE_WATCH[0] != ADGUARD[0];
  }

  // ----- What the router's driver stores and reads back

  function RouterConfiguration(endpoint: string, ref: string, desired: Desired): Configuration {
    Configuration(OPNSENSE, External, desired, map["endpoint" := JString(endpoint), "credential_ref" := JString(ref)])
  }

  function ParseRouter(c: Configuration): Option<Parsed> {
    var endpoint := Decoded(c.values, "endpoint");
    var ref := Decoded(c.values, "credential_ref");
    if "endpoint" !in c.values || endpoint.None? || endpoint.value == "" then None
    else if "credential_ref" !in c.values || ref.None? || !ValidReference(ref.value) then None
    else Some(Parsed(endpoint.value, "", Some(ref.value)))
  }

  /** What is stored can be read back exactly when there is an endpoint and the
      reference parses. */
  lemma RouterRoundTrip(endpoint: string, ref: string, desired: Desired)
    ensures ParseRouter(RouterConfiguration(endpoint, ref, desired)) == Some(Parsed(endpoint, "", Some(ref)))
            <==> endpoint != "" && ValidReference(ref)
  {
    var c := RouterConfiguration(endpoint, ref, desired);
    assert c.values["endpoint"] == JString(endpoint) && c.values["credential_ref"] == JString(ref);
  }

  // ----- Either service

  /** A Connect that gets past the probe names a reference if it has a secret to keep.
      The router always has one. */
  function Stored(k: Service, i: A.ConnectInput, ref: Option<string>): Configuration {
    if k == AdGuardHome then ConnectionConfiguration(i.endpoint, i.username, ref, Disabled)
    else RouterConfiguration(i.endpoint, if ref.Some? then ref.value else "", Disabled)
  }

  function Parse(k: Service, c: Configuration): Option<Parsed> {
    if k == AdGuardHome then ParseConnection(c) else ParseRouter(c)
  }

  predicate Parses(k: Service, c: Configuration, ref: Option<string>) {
    Parse(k, c).Some? && Parse(k, c).value.ref == ref
  }

  lemma DesiredDoesNotParse(k: Service, c: Configuration, d: Desired)
    ensures Parse(k, c.(desired := d)) == Parse(k, c)
  {
  }

  /** The reference a Connect makes, if it has a secret to keep. */
  function Reference(k: Service, i: A.ConnectInput, env: A.ConnectEnv): Option<string> {
    if k == AdGuardHome && i.username == "" then None else Some(env.ref)
  }

  predicate Referable(env: A.ConnectEnv) { env.opensStore && env.makesRef && ValidReference(env.ref) }

  /** Connect records its request: AdGuard Home only after the probe, the router before. */
  predicate Begins(k: Service, env: A.ConnectEnv) { env.auditsRequest && (k == AdGuardHome ==> env.probes) }

  /** What the request is then refused for. No client is made for an empty endpoint. */
  predicate Refused(k: Service, i: A.ConnectInput, env: A.ConnectEnv) {
    if k == AdGuardHome then i.username != "" && !Referable(env)
    else !env.probes || i.endpoint == "" || !Referable(env)
  }

  /** What a Connect may store: it can be read back with its reference. */
  predicate Storing(k: Service, i: A.ConnectInput, ref: Option<string>) {
    && (ref.Some? ==> ValidReference(ref.value))
    && (if k == AdGuardHome then i.username == "" <==> ref.None? else ref.Some? && i.endpoint != "")
  }

  lemma StoredParses(k: Service, i: A.ConnectInput, ref: Option<string>)
    requires Storing(k, i, ref)
    ensures Parses(k, Stored(k, i, ref), ref)
  {
    ConnectionRoundTrip(i.endpoint, i.username, ref, Disabled);
    if k == Opnsense { RouterRoundTrip(i.endpoint, ref.value, Disabled); }
  }

  /** The secrets an entry accounts for, read as the service's driver reads it: none
      without an entry; at most the referenced one with it, and that one for certain
      while enabled. */
  predicate AccountedBy(k: Service, entry: Option<Configuration>, secrets: map<string, string>) {
    match entry
    case None => secrets == map[]
    case Some(c) =>
      && Parse(k, c).Some?
      && var ref := Parse(k, c).value.ref;
         && (forall n :: n in secrets ==> ref == Some(n))
         && (c.desired == Enabled && ref.Some? ==> ref.value in secrets)
  }

  lemma AccountedByAdGuard(entry: Option<Configuration>, secrets: map<string, string>)
    ensures AccountedBy(AdGuardHome, entry, secrets) <==> Accounted(entry, secrets)
  {
  }

  /** An entry accounts for at most one secret. */
  lemma OneSecret(k: Service, c: Configuration, secrets: map<string, string>)
    requires AccountedBy(k, Some(c), secrets)
    ensures Parse(k, c).value.ref.None? ==> secrets == map[]
    ensures Parse(k, c).value.ref.Some? ==> secrets - {Parse(k, c).value.ref.value} == map[]
  {
  }

  /** Deleting from the keychain beside a disabled entry. */
  lemma DeletedKeeps(k: Service, c: Configuration, ref: string, secrets: map<string, string>, call: A.SecretCall)
    requires AccountedBy(k, Some(c), secrets) && c.desired == Disabled && Parse(k, c).value.ref == Some(ref)
    ensures AccountedBy(k, Some(c), A.AfterDelete(secrets, ref, call))
    ensures call == A.Done ==> A.AfterDelete(secrets, ref, call) == map[]
  {
    OneSecret(k, c, secrets);
  }
}
