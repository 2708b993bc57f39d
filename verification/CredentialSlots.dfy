/**
 Which stored credential a context refers to. Two references that share a physical slot would
 overwrite each other, so every command that writes a configuration checks that none do.
 */
module CredentialSlots {
  import opened Common

  /** A credential field of a context: absent, the redaction marker, a literal, or a reference into a store. */
  datatype Secret = Empty | Redacted | Literal(value: string) | Ref(backendName: string)

  datatype Item = Item(
    password: Secret,
    schemaPassword: Secret,
    credentialBackend: string,
    vaultAddr: string,
    vaultNamespace: string,
    vaultPath: string,
    otlpEndpointSource: string,
    otlpMetricsSource: string,
    roles: Option<map<string, string>>,
    lists: seq<Option<seq<string>>>,
    settings: string)

  type Config = map<string, Item>

  datatype Slot = Slot(backendName: string, key: string, vaultAddr: string, vaultNamespace: string, vaultPath: string)

  /** How Vault coordinates are normalised; an address may have no safe identity. */
  datatype Vault = Vault(addr: string -> Option<string>, namespace: string -> string, path: string -> string)

  const VAULT := "vault"
  const PLAIN_YAML := "plain-yaml"
  const SCHEMA_SUFFIX := "/schema-registry"

  datatype CredentialKind = Primary | SchemaRegistry

  datatype Reference = Reference(name: string, kind: CredentialKind)

  function KeyOf(r: Reference): string {
    match r.kind
    case Primary => r.name
    case SchemaRegistry => r.name + SCHEMA_SUFFIX
  }

  function OwnerOf(r: Reference): string {
    match r.kind
    case Primary => r.name + "\0primary"
    case SchemaRegistry => r.name + "\0schema-registry"
  }

  lemma OwnersAreDistinct(r: Reference, s: Reference)
    ensures OwnerOf(r) == OwnerOf(s) <==> r == s
  {
    var a, b := OwnerOf(r), OwnerOf(s);
    var n := |"\0primary"|;
    if a == b {
      assert r.kind == Primary ==> a[|a| - n] == '\0';
      assert r.kind == SchemaRegistry ==> a[|a| - n] == 'r';
      assert s.kind == Primary ==> b[|b| - n] == '\0';
      assert s.kind == SchemaRegistry ==> b[|b| - n] == 'r';
      assert r.kind == s.kind;
      assert r.name == a[..|r.name|] && s.name == b[..|s.name|];
    }
  }

  function PhysicalSlot(v: Vault, item: Item, backendName: string, key: string): Option<Slot> {
    if backendName == VAULT then
      var addr := v.addr(item.vaultAddr);
      if addr.None? then None
      else Some(Slot(backendName, "", addr.value, v.namespace(item.vaultNamespace), v.path(item.vaultPath)))
    else Some(Slot(backendName, key, "", "", ""))
  }

  function SecretOf(item: Item, kind: CredentialKind): Secret {
    match kind
    case Primary => item.password
    case SchemaRegistry => item.schemaPassword
  }

  predicate Refers(contexts: Config, r: Reference) {
    r.name in contexts && SecretOf(contexts[r.name], r.kind).Ref?
  }

  function SlotOf(v: Vault, contexts: Config, r: Reference): Option<Slot>
    requires Refers(contexts, r)
  {
    PhysicalSlot(v, contexts[r.name], SecretOf(contexts[r.name], r.kind).backendName, KeyOf(r))
  }

  function Held(cells: map<Slot, string>, slot: Option<Slot>): Option<string> {
    if slot.Some? && slot.value in cells then Some(cells[slot.value]) else None
  }

  /** The secret that a command finds for a context: its literal, or what the store holds for its reference. */
  function Resolve(v: Vault, contexts: Config, cells: map<Slot, string>, r: Reference): Option<string> {
    if r.name !in contexts then None
    else match SecretOf(contexts[r.name], r.kind)
      case Literal(value) => Some(value)
      case Ref(_) => Held(cells, SlotOf(v, contexts, r))
      case _ => None
  }

  function LiteralOf(secret: Secret): string {
    if secret.Literal? then secret.value else ""
  }

  // ---- The property every configuration keeps ------------------------------

  ghost predicate AllLocated(v: Vault, contexts: Config) {
    forall r :: Refers(contexts, r) ==> SlotOf(v, contexts, r).Some?
  }

  /** No two references share a physical slot. */
  ghost predicate SlotInjective(v: Vault, contexts: Config) {
    forall r, s ::
      (Refers(contexts, r) && Refers(contexts, s) && SlotOf(v, contexts, r).Some? && SlotOf(v, contexts, r) == SlotOf(v, contexts, s))
      ==> r == s
  }

  /** Every slot that is referred to, with its one owner. */
  ghost predicate OwnerMap(v: Vault, contexts: Config, owners: map<Slot, string>) {
    && (forall r :: Refers(contexts, r) && SlotOf(v, contexts, r).Some? ==>
          SlotOf(v, contexts, r).value in owners && owners[SlotOf(v, contexts, r).value] == OwnerOf(r))
    && (forall slot :: slot in owners ==>
          exists r :: Refers(contexts, r) && SlotOf(v, contexts, r) == Some(slot) && owners[slot] == OwnerOf(r))
  }

  /** Adding an owner fails exactly when another one has the slot. */
  function AddOwner(owners: map<Slot, string>, slot: Slot, owner: string): Option<map<Slot, string>> {
    if slot in owners && owners[slot] != owner then None else Some(owners[slot := owner])
  }

  function AddReference(v: Vault, contexts: Config, owners: map<Slot, string>, r: Reference): Option<map<Slot, string>>
    requires r.name in contexts
  {
    if !Refers(contexts, r) then Some(owners)
    else
      var slot := SlotOf(v, contexts, r);
      if slot.None? then None else AddOwner(owners, slot.value, OwnerOf(r))
  }

  ghost predicate PartialOwners(v: Vault, contexts: Config, seen: set<Reference>, owners: map<Slot, string>) {
    && (forall r :: r in seen && Refers(contexts, r) ==>
          SlotOf(v, contexts, r).Some? && SlotOf(v, contexts, r).value in owners
          && owners[SlotOf(v, contexts, r).value] == OwnerOf(r))
    && (forall slot :: slot in owners ==>
          exists r :: r in seen && Refers(contexts, r) && SlotOf(v, contexts, r) == Some(slot) && owners[slot] == OwnerOf(r))
  }

  lemma AddReferenceStep(v: Vault, contexts: Config, seen: set<Reference>, owners: map<Slot, string>, r: Reference)
    requires r.name in contexts && PartialOwners(v, contexts, seen, owners)
    ensures var added := AddReference(v, contexts, owners, r);
            if added.Some? then PartialOwners(v, contexts, seen + {r}, added.value)
            else !(AllLocated(v, contexts) && SlotInjective(v, contexts))
  {
    var added := AddReference(v, contexts, owners, r);
    if Refers(contexts, r) && SlotOf(v, contexts, r).Some? {
      var slot := SlotOf(v, contexts, r).value;
      if slot in owners {
        var s :| s in seen && Refers(contexts, s) && SlotOf(v, contexts, s) == Some(slot) && owners[slot] == OwnerOf(s);
        OwnersAreDistinct(r, s);
      } else {
        forall s | s in seen + {r} && Refers(contexts, s)
          ensures SlotOf(v, contexts, s).Some? && SlotOf(v, contexts, s).value in added.value
          ensures added.value[SlotOf(v, contexts, s).value] == OwnerOf(s)
        {
        }
      }
    }
  }

  /**
   Build the owner of every slot, whatever order the contexts are visited in. It succeeds exactly
   when every reference has a slot and no two references share one.
   */
  method ContextSlotOwners(v: Vault, contexts: Config) returns (owners: Option<map<Slot, string>>)
    ensures owners.Some? <==> AllLocated(v, contexts) && SlotInjective(v, contexts)
    ensures owners.Some? ==> OwnerMap(v, contexts, owners.value)
  {
    var found: map<Slot, string> := map[];
    var rest := contexts.Keys;
    ghost var seen: set<Reference> := {};
    while rest != {}
      invariant rest <= contexts.Keys
      invariant PartialOwners(v, contexts, seen, found)
      invariant forall r: Reference :: r in seen <==> r.name in contexts.Keys - rest
      decreases rest
    {
      var name :| name in rest;
      AddReferenceStep(v, contexts, seen, found, Reference(name, Primary));
      var withPrimary := AddReference(v, contexts, found, Reference(name, Primary));
      if withPrimary.None? {
        return None;
      }
      seen := seen + {Reference(name, Primary)};
      AddReferenceStep(v, contexts, seen, withPrimary.value, Reference(name, SchemaRegistry));
      var withSchema := AddReference(v, contexts, withPrimary.value, Reference(name, SchemaRegistry));
      if withSchema.None? {
        return None;
      }
      seen := seen + {Reference(name, SchemaRegistry)};
      assert forall r: Reference :: r.name == name ==> r == Reference(name, Primary) || r == Reference(name, SchemaRegistry);
      found, rest := withSchema.value, rest - {name};
    }
    CompleteOwners(v, contexts, seen, found);
    return Some(found);
  }

  lemma CompleteOwners(v: Vault, contexts: Config, seen: set<Reference>, owners: map<Slot, string>)
    requires PartialOwners(v, contexts, seen, owners)
    requires forall r: Reference :: r.name in contexts ==> r in seen
    ensures OwnerMap(v, contexts, owners) && AllLocated(v, contexts) && SlotInjective(v, contexts)
  {
    forall r, s | Refers(contexts, r) && Refers(contexts, s) && SlotOf(v, contexts, r).Some? &&
                  SlotOf(v, contexts, r) == SlotOf(v, contexts, s)
      ensures r == s
    {
      assert r in seen && s in seen;
      OwnersAreDistinct(r, s);
    }
  }

  // ---- The commands that write a configuration ------------------------------

  ghost predicate Sound(v: Vault, contexts: Config) {
    AllLocated(v, contexts) && SlotInjective(v, contexts)
  }

  datatype MigrationCandidate = MigrationCandidate(name: string, context: Item, password: string, schemaPassword: string)

  function MigratedItem(candidate: MigrationCandidate, backendName: string): Item {
    candidate.context.(
      password := if candidate.password != "" then Ref(backendName) else candidate.context.password,
      schemaPassword := if candidate.schemaPassword != "" then Ref(backendName) else candidate.context.schemaPassword,
      credentialBackend := backendName)
  }

  function MigratedConfig(contexts: Config, candidates: seq<MigrationCandidate>, backendName: string): Config {
    if candidates == [] then contexts
    else
      var last := Last(candidates);
      MigratedConfig(contexts, candidates[..|candidates| - 1], backendName)[last.name := MigratedItem(last, backendName)]
  }

  /** The check of set and import: the stored contexts with the planned ones in their place. */
  method ValidateKeySet(v: Vault, stored: Config, expected: Config) returns (ok: bool)
    ensures ok <==> Sound(v, stored + expected)
  {
    var owners := ContextSlotOwners(v, stored + expected);
    return owners.Some?;
  }

  method ValidateMigrationKeySet(v: Vault, stored: Config, candidates: seq<MigrationCandidate>, backendName: string)
    returns (ok: bool)
    ensures ok <==> Sound(v, MigratedConfig(stored, candidates, backendName))
  {
    var contexts := stored;
    for k := 0 to |candidates|
      invariant contexts == MigratedConfig(stored, candidates[..k], backendName)
    {
      assert candidates[..k + 1][..k] == candidates[..k];
      contexts := contexts[candidates[k].name := MigratedItem(candidates[k], backendName)];
    }
    assert candidates[..|candidates|] == candidates;
    var owners := ContextSlotOwners(v, contexts);
    return owners.Some?;
  }

  /** Set and import put contexts, migration replaces literals by references, the rest delete or edit roles. */
  datatype Command =
    | Put(items: Config)
    | Migrate(candidates: seq<MigrationCandidate>, backendName: string)
    | Delete(name: string)
    | SetRoles(name: string, newRoles: Option<map<string, string>>)

  /** What a command stores if its checks pass and its update commits. */
  ghost function Stored(v: Vault, contexts: Config, command: Command): Config {
    match command
    case Put(items) => if Sound(v, contexts + items) then contexts + items else contexts
    case Migrate(candidates, backendName) =>
      var migrated := MigratedConfig(contexts, candidates, backendName);
      if (forall c :: c in candidates ==> c.name in contexts && contexts[c.name] == c.context) && Sound(v, migrated)
      then migrated else contexts
    case Delete(name) => contexts - {name}
    case SetRoles(name, newRoles) =>
      if name in contexts then contexts[name := contexts[name].(roles := newRoles)] else contexts
  }

  lemma SameReferencesStaySound(v: Vault, contexts: Config, contexts': Config)
    requires Sound(v, contexts)
    requires forall r :: Refers(contexts', r) ==> Refers(contexts, r) && SlotOf(v, contexts', r) == SlotOf(v, contexts, r)
    ensures Sound(v, contexts')
  {
  }

  lemma CommandKeepsSound(v: Vault, contexts: Config, command: Command)
    requires Sound(v, contexts)
    ensures Sound(v, Stored(v, contexts, command))
  {
    if command.Delete? || command.SetRoles? {
      SameReferencesStaySound(v, contexts, Stored(v, contexts, command));
    }
  }

  /** A command leaves the configuration as it was or stores its result; each command's flow is proved to be such a step. */
  ghost predicate CommandStep(v: Vault, before: Config, after: Config, command: Command) {
    after == before || after == Stored(v, before, command)
  }

  ghost predicate CommandRun(v: Vault, configs: seq<Config>, commands: seq<Command>) {
    && |configs| == |commands| + 1
    && forall i :: 0 <= i < |commands| ==> CommandStep(v, configs[i], configs[i + 1], commands[i])
  }

  /** No sequence of set, import, migrate, delete and role commands makes two references share a slot. */
  lemma {:induction false} SlotsStayInjective(v: Vault, configs: seq<Config>, commands: seq<Command>, j: nat)
    requires CommandRun(v, configs, commands) && Sound(v, configs[0]) && j < |configs|
    ensures Sound(v, configs[j])
  {
    if j > 0 {
      SlotsStayInjective(v, configs, commands, j - 1);
      CommandKeepsSound(v, configs[j - 1], commands[j - 1]);
    }
  }

  /** The primary credential of foo/schema-registry and the schema credential of foo share a key, so they are refused. */
  lemma NestedNameIsRefused(v: Vault, contexts: Config, name: string, backendName: string, items: Config)
    requires backendName != VAULT
    requires name in contexts && contexts[name].schemaPassword == Ref(backendName) && name !in items
    requires name + SCHEMA_SUFFIX in items && items[name + SCHEMA_SUFFIX].password == Ref(backendName)
    ensures Stored(v, contexts, Put(items)) == contexts
  {
    var merged := contexts + items;
    var r, s := Reference(name, SchemaRegistry), Reference(name + SCHEMA_SUFFIX, Primary);
    assert Refers(merged, r) && Refers(merged, s);
    assert SlotOf(v, merged, r) == SlotOf(v, merged, s);
  }

  /** One Vault path holds one secret: a context cannot keep both of its credentials there. */
  lemma VaultHoldsOneCredential(v: Vault, contexts: Config, name: string, item: Item)
    requires item.password == Ref(VAULT) && item.schemaPassword == Ref(VAULT)
    ensures Stored(v, contexts, Put(map[name := item])) == contexts
  {
    var merged := contexts + map[name := item];
    var r, s := Reference(name, Primary), Reference(name, SchemaRegistry);
    assert Refers(merged, r) && Refers(merged, s);
    assert SlotOf(v, merged, r) == SlotOf(v, merged, s);
  }
}
