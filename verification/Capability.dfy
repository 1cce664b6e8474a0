/** Model of internal/controller/capability: manifests, durable configuration,
    instance state, and the engine's in-memory view of them. */
module Capability {
  import opened Ordering

  datatype Ownership = Builtin | External | ManagedLocal | ManagedRemote
  datatype Desired = Disabled | Enabled
  datatype Process = NotApplicable | Stopped | Starting | Running | Failed
  datatype Verification = Unverified | Verifying | Verified | Degraded | Stale
  datatype Action = Preflight | Install | Connect | Start | Enable | Verify | Disable | Stop | Disconnect | Upgrade
                  | Uninstall
  datatype FieldType = StringField | BooleanField | IntegerField | EnumField | SecretRefField

  /** A configured JSON value, decoded. */
  datatype Json = JNull | JString(text: string) | JBool(flag: bool) | JInt(number: int) | JCompound

  datatype Field = Field(name: string, kind: FieldType, required: bool, options: seq<string>)

  datatype Manifest = Manifest(id: string, ownership: seq<Ownership>, processRequired: bool, signals: seq<string>,
                               fields: seq<Field>, lifecycle: seq<Action>)

  type Registry = map<string, Manifest>

  datatype Configuration = Configuration(id: string, ownership: Ownership, desired: Desired, values: map<string, Json>)

  datatype InstanceState = InstanceState(desired: Desired, process: Process, verification: Verification)

  // ----- Validation

  predicate SafeText(s: string) {
    forall i :: 0 <= i < |s| ==> !(s[i] < ' ' || '\U{7f}' <= s[i] <= '\U{9f}')
  }

  predicate ReferenceChar(c: char) {
    'a' <= c <= 'z' || '0' <= c <= '9' || c == '.' || c == '_' || c == '-' || c == '/'
  }

  /** `secretstore.ParseReference` accepts the text. */
  predicate ValidReference(s: string) {
    && 1 <= |s| <= 128 && (forall i :: 0 <= i < |s| ==> ReferenceChar(s[i]))
    && ('a' <= s[0] <= 'z' || '0' <= s[0] <= '9')
  }

  predicate ValidValue(f: Field, v: Json) {
    match f.kind
    case StringField => v.JString? && |v.text| <= 2048 && SafeText(v.text) && !(f.required && v.text == "")
    case BooleanField => v.JBool?
    case IntegerField => v.JInt? && -0x8000_0000_0000_0000 <= v.number < 0x8000_0000_0000_0000
    case EnumField => v.JString? && v.text in f.options
    case SecretRefField => v.JString? && ValidReference(v.text)
  }

  /** The field of that name; a later declaration replaces an earlier one. */
  function FieldNamed(fields: seq<Field>, name: string): Option<Field> {
    if |fields| == 0 then None
    else if fields[|fields| - 1].name == name then Some(fields[|fields| - 1])
    else FieldNamed(fields[..|fields| - 1], name)
  }

  predicate ValidConfiguration(reg: Registry, c: Configuration) {
    && c.id in reg
    && var m := reg[c.id];
       && c.ownership in m.ownership
       && (forall name :: name in c.values ==>
             FieldNamed(m.fields, name).Some? && ValidValue(FieldNamed(m.fields, name).value, c.values[name]))
       && (c.desired == Enabled ==> forall f :: f in m.fields && f.required ==> f.name in c.values)
  }

  predicate ValidState(m: Manifest, s: InstanceState) {
    Builtin in m.ownership ==> s.process == NotApplicable
  }

  /** A built-in capability never requires a process of its own. */
  predicate ConsistentManifest(m: Manifest) {
    |m.ownership| > 0 && !(Builtin in m.ownership && m.processRequired)
  }

  predicate ConsistentRegistry(reg: Registry) {
    forall id :: id in reg ==> id != "" && reg[id].id == id && ConsistentManifest(reg[id])
  }

  // ----- The engine's view

  datatype Engine = Engine(configured: map<string, Configuration>, states: map<string, InstanceState>)

  function DesiredOf(configured: map<string, Configuration>, id: string): Desired {
    if id in configured then configured[id].desired else Disabled
  }

  function InitialState(m: Manifest, desired: Desired): InstanceState {
    InstanceState(desired, if m.processRequired then Stopped else NotApplicable, Unverified)
  }

  /** `NewInstances` followed by `NewLifecycleEngine`. */
  function NewEngine(reg: Registry, configured: map<string, Configuration>): Engine {
    Engine(configured, map id | id in reg :: InitialState(reg[id], DesiredOf(configured, id)))
  }

  ghost predicate ValidConfigured(reg: Registry, configured: map<string, Configuration>) {
    forall id :: id in configured ==> configured[id].id == id && ValidConfiguration(reg, configured[id])
  }

  predicate Judged(v: Verification) { v == Verified || v == Degraded || v == Stale }

  /** What one stored state promises. */
  ghost predicate StateOk(reg: Registry, e: Engine, id: string)
    requires id in reg && id in e.states
  {
    && ValidState(reg[id], e.states[id])
    && e.states[id].desired == DesiredOf(e.configured, id)
    && (Judged(e.states[id].verification) ==> e.states[id].desired == Enabled)
  }

  ghost predicate StatesInv(reg: Registry, e: Engine) {
    e.states.Keys == reg.Keys && forall id :: id in reg ==> StateOk(reg, e, id)
  }

  /** What every reachable engine state satisfies. */
  ghost predicate EngineInv(reg: Registry, e: Engine) {
    ConsistentRegistry(reg) && ValidConfigured(reg, e.configured) && StatesInv(reg, e)
  }

  /** The initial states validate exactly when no built-in manifest requires a
      process. */
  lemma InitialStatesValidate(reg: Registry, configured: map<string, Configuration>)
    ensures (forall id :: id in reg ==> ValidState(reg[id], NewEngine(reg, configured).states[id])) <==>
            (forall id :: id in reg ==> !(Builtin in reg[id].ownership && reg[id].processRequired))
  {
    var e := NewEngine(reg, configured);
    forall id | id in reg
      ensures ValidState(reg[id], e.states[id]) <==> !(Builtin in reg[id].ownership && reg[id].processRequired)
    {
    }
  }

  /** A fresh engine holds the given configurations and has verified nothing. */
  lemma NewEngineInv(reg: Registry, configured: map<string, Configuration>)
    requires ConsistentRegistry(reg) && ValidConfigured(reg, configured)
    ensures EngineInv(reg, NewEngine(reg, configured)) && NewEngine(reg, configured).configured == configured
    ensures forall id :: id in reg ==>
              var state := NewEngine(reg, configured).states[id];
              state.verification == Unverified && (state.process == Stopped <==> reg[id].processRequired)
  {
  }

  datatype Applied = Applied(engine: Engine, ok: bool)

  function ApplyConfiguration(reg: Registry, e: Engine, c: Configuration): Applied {
    if !ValidConfiguration(reg, c) then Applied(e, false)
    else
      var previous := if c.id in e.states then e.states[c.id]
          else InitialState(reg[c.id], DesiredOf(e.configured, c.id));
      var configured := e.configured[c.id := c];
      var next := InstanceState(c.desired, previous.process,
                                if previous.desired != c.desired then Unverified else previous.verification);
      if !ValidState(reg[c.id], next) then Applied(e.(configured := configured), false)
      else Applied(Engine(configured, e.states[c.id := next]), true)
  }

  function RemoveConfiguration(reg: Registry, e: Engine, id: string): Applied {
    if id !in reg then Applied(e, false)
    else
      var previous := if id in e.states then e.states[id] else InitialState(reg[id], DesiredOf(e.configured, id));
      var configured := e.configured - {id};
      var next := InstanceState(Disabled, previous.process, Unverified);
      if !ValidState(reg[id], next) then Applied(e.(configured := configured), false)
      else Applied(Engine(configured, e.states[id := next]), true)
  }

  /** Applying a configuration that validates cannot fail, and keeps the stored states;
      the process stays, a change of intent forgets the verdict, and nothing happens to
      any other capability. */
  lemma ApplyNeverFails(reg: Registry, e: Engine, c: Configuration)
    requires StatesInv(reg, e) && ValidConfiguration(reg, c)
    ensures var a := ApplyConfiguration(reg, e, c);
            && a.ok && StatesInv(reg, a.engine) && a.engine.configured == e.configured[c.id := c]
            && (forall id :: id in reg && id != c.id ==> a.engine.states[id] == e.states[id])
            && a.engine.states[c.id].process == e.states[c.id].process
            && a.engine.states[c.id].verification ==
               (if DesiredOf(e.configured, c.id) == c.desired then e.states[c.id].verification else Unverified)
  {
    var a := ApplyConfiguration(reg, e, c);
    assert ValidState(reg[c.id], e.states[c.id]) by { assert StateOk(reg, e, c.id); }
    forall id | id in reg ensures StateOk(reg, a.engine, id) {
      assert StateOk(reg, e, id);
    }
  }

  /** Removing a known configuration cannot fail; the process stays and the verdict is
      forgotten. */
  lemma RemoveNeverFails(reg: Registry, e: Engine, id: string)
    requires StatesInv(reg, e) && id in reg
    ensures var a := RemoveConfiguration(reg, e, id);
            && a.ok && StatesInv(reg, a.engine) && a.engine.configured == e.configured - {id}
            && (forall other :: other in reg && other != id ==> a.engine.states[other] == e.states[other])
            && a.engine.states[id] == InstanceState(Disabled, e.states[id].process, Unverified)
  {
    var a := RemoveConfiguration(reg, e, id);
    assert ValidState(reg[id], e.states[id]) by { assert StateOk(reg, e, id); }
    forall other | other in reg ensures StateOk(reg, a.engine, other) {
      assert StateOk(reg, e, other);
    }
  }
}
