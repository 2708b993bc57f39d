/**
 Importing a document of contexts: which back end each credential goes to, and where every secret of
 the document is when the import reports that it is done.
 */
module CredentialImport {
  import opened Common
  import opened OutcomeRecords
  import opened CredentialSlots
  import opened CredentialTransactions
  import opened CredentialSaga

  datatype PlannedContext = PlannedContext(candidate: Candidate, item: Item)

  /** Without a credential back end of its own, a context gets that of its references, the second one first. */
  function ChosenBackend(item: Item): string {
    if item.credentialBackend != "" then item.credentialBackend
    else if item.schemaPassword.Ref? then item.schemaPassword.backendName
    else if item.password.Ref? then item.password.backendName
    else ""
  }

  predicate KeepsLiterals(backendName: string) {
    backendName == "" || backendName == PLAIN_YAML
  }

  function Referred(secret: Secret, backendName: string): Secret {
    if LiteralOf(secret) != "" then Ref(backendName) else secret
  }

  /** A redaction marker in an imported document stands for no credential. */
  function Cleared(item: Item): Item {
    item.(password := if item.password.Redacted? then Empty else item.password,
          schemaPassword := if item.schemaPassword.Redacted? then Empty else item.schemaPassword)
  }

  /** The credentials to store for a context, and the context with references in their place. */
  function PlanCredential(v: Vault, supported: string -> bool, name: string, item: Item): Option<PlannedContext> {
    var backendName := ChosenBackend(item);
    var primary := PhysicalSlot(v, item, backendName, KeyOf(Reference(name, Primary)));
    var schema := PhysicalSlot(v, item, backendName, KeyOf(Reference(name, SchemaRegistry)));
    if primary.None? || schema.None? then None
    else if KeepsLiterals(backendName) then
      Some(PlannedContext(Candidate(name, "", "", primary.value, schema.value), item.(credentialBackend := backendName)))
    else if !supported(backendName) then None
    else
      Some(PlannedContext(
             Candidate(name, LiteralOf(item.password), LiteralOf(item.schemaPassword), primary.value, schema.value),
             item.(credentialBackend := backendName,
                   password := Referred(item.password, backendName),
                   schemaPassword := Referred(item.schemaPassword, backendName))))
  }

  /** The candidates and the contexts planned for a document, name by name. */
  ghost predicate Plans(v: Vault, supported: string -> bool, doc: Config, names: seq<string>, candidates: seq<Candidate>, expected: Config) {
    && |candidates| == |names| && (forall name :: name in expected <==> name in names)
    && forall i :: 0 <= i < |names| ==>
         && names[i] in doc && names[i] in expected
         && PlanCredential(v, supported, names[i], Cleared(doc[names[i]])) == Some(PlannedContext(candidates[i], expected[names[i]]))
  }

  method PlanImport(v: Vault, supported: string -> bool, doc: Config, names: seq<string>)
    returns (ok: bool, candidates: seq<Candidate>, expected: Config)
    requires forall n :: n in names ==> n in doc
    requires forall i, j :: 0 <= i < j < |names| ==> names[i] != names[j]
    ensures ok <==> forall n :: n in names ==> PlanCredential(v, supported, n, Cleared(doc[n])).Some?
    ensures ok ==> Plans(v, supported, doc, names, candidates, expected)
  {
    hide PlanCredential;
    candidates, expected := [], map[];
    for k := 0 to |names|
      invariant Plans(v, supported, doc, names[..k], candidates, expected)
    {
      var planned := PlanCredential(v, supported, names[k], Cleared(doc[names[k]]));
      if planned.None? {
        return false, [], map[];
      }
      candidates, expected := candidates + [planned.value.candidate], expected[names[k] := planned.value.item];
      assert names[..k + 1] == names[..k] + [names[k]];
    }
    assert names[..|names|] == names;
    assert forall n :: n in names ==> exists i :: 0 <= i < |names| && names[i] == n;
    return true, candidates, expected;
  }

  /** A planned context refers to the slots that its candidate writes. */
  lemma PlannedIsLinked(v: Vault, supported: string -> bool, name: string, item: Item, p: PlannedContext, expected: Config, kind: CredentialKind)
    requires PlanCredential(v, supported, name, item) == Some(p) && name in expected && expected[name] == p.item
    requires ValueOf(p.candidate, kind) != ""
    ensures Refers(expected, Reference(p.candidate.name, kind))
    ensures SlotOf(v, expected, Reference(p.candidate.name, kind)) == Some(PlannedSlot(p.candidate, kind))
  {
    hide KeyOf;
  }

  lemma PlansAreLinked(v: Vault, supported: string -> bool, doc: Config, names: seq<string>, candidates: seq<Candidate>, expected: Config)
    requires Plans(v, supported, doc, names, candidates, expected)
    ensures Linked(v, expected, candidates)
  {
    hide PlanCredential, Cleared, SlotOf;
    forall c, kind | c in candidates && ValueOf(c, kind) != ""
      ensures Refers(expected, Reference(c.name, kind)) && SlotOf(v, expected, Reference(c.name, kind)) == Some(PlannedSlot(c, kind))
    {
      var i :| 0 <= i < |candidates| && candidates[i] == c;
      PlannedIsLinked(v, supported, names[i], Cleared(doc[names[i]]), PlannedContext(c, expected[names[i]]), expected, kind);
    }
  }

  /** An imported literal is what its context finds afterwards, and only a back end for literals leaves it in the file. */
  ghost predicate Imported(v: Vault, doc: Config, names: seq<string>, contexts: Config, cells: map<Slot, string>) {
    forall r: Reference :: r.name in names && r.name in doc && LiteralOf(SecretOf(doc[r.name], r.kind)) != "" ==>
      && Resolve(v, contexts, cells, r) == Some(LiteralOf(SecretOf(doc[r.name], r.kind)))
  }

  /** A literal stays where it is, or becomes the value of the candidate with a reference in its place. */
  lemma PlannedSecret(v: Vault, supported: string -> bool, name: string, item: Item, p: PlannedContext, kind: CredentialKind)
    requires PlanCredential(v, supported, name, Cleared(item)) == Some(p) && LiteralOf(SecretOf(item, kind)) != ""
    ensures p.candidate.name == name
    ensures KeepsLiterals(ChosenBackend(item)) ==> SecretOf(p.item, kind) == SecretOf(item, kind)
    ensures !KeepsLiterals(ChosenBackend(item)) ==>
              ValueOf(p.candidate, kind) == LiteralOf(SecretOf(item, kind)) && SecretOf(p.item, kind).Ref?
  {
    hide PhysicalSlot;
    assert ChosenBackend(Cleared(item)) == ChosenBackend(item);
  }

  lemma SecretsAreImported(v: Vault, supported: string -> bool, doc: Config, names: seq<string>, candidates: seq<Candidate>, expected: Config,
                           contexts: Config, cells: map<Slot, string>)
    requires Plans(v, supported, doc, names, candidates, expected)
    requires SecretsResolve(v, contexts, cells, candidates) && Committed(contexts, expected)
    ensures Imported(v, doc, names, contexts, cells)
  {
    hide Committed, SlotOf, PlanCredential, Cleared, ChosenBackend, KeepsLiterals;
    forall r: Reference | r.name in names && r.name in doc && LiteralOf(SecretOf(doc[r.name], r.kind)) != ""
      ensures Resolve(v, contexts, cells, r) == Some(LiteralOf(SecretOf(doc[r.name], r.kind)))
      ensures r.name in contexts && (SecretOf(contexts[r.name], r.kind).Literal? ==> KeepsLiterals(ChosenBackend(doc[r.name])))
    {
      var i :| 0 <= i < |names| && names[i] == r.name;
      PlannedSecret(v, supported, r.name, doc[r.name], PlannedContext(candidates[i], expected[r.name]), r.kind);
      SameSecrets(v, contexts, expected, r);
      assert candidates[i] in candidates && r == Reference(candidates[i].name, r.kind);
    }
  }

  // ---- Where each secret of the document ends up ----------------------------------

  /** A literal goes to this back end: its context's own or, without one, that of the reference in its other field. */
  ghost predicate Stores(item: Item, before: Secret, other: Secret, backendName: string) {
    && before.Literal? && before.value != "" && backendName != "" && backendName != "plain-yaml"
    && (item.credentialBackend == backendName || (item.credentialBackend == "" && other == Ref(backendName)))
  }

  /** The cell of a back end under a key; Vault has one for the coordinates of the context. */
  ghost function CellOf(v: Vault, item: Item, backendName: string, key: string): Option<Slot> {
    if backendName != "vault" then Some(Slot(backendName, key, "", "", ""))
    else if v.addr(item.vaultAddr).None? then None
    else Some(Slot("vault", "", v.addr(item.vaultAddr).value, v.namespace(item.vaultNamespace), v.path(item.vaultPath)))
  }

  /** A stored literal leaves a reference and is in its cell; anything else stays, but for a redaction marker. */
  ghost predicate SecretPlaced(v: Vault, item: Item, before: Secret, other: Secret, key: string, after: Secret, cells: map<Slot, string>) {
    && (forall b :: Stores(item, before, other, b) ==>
          && after == Ref(b) && CellOf(v, item, b, key).Some?
          && CellOf(v, item, b, key).value in cells && cells[CellOf(v, item, b, key).value] == before.value)
    && ((forall b :: !Stores(item, before, other, b)) ==> after == if before.Redacted? then Empty else before)
  }

  ghost predicate Placed(v: Vault, doc: Config, names: seq<string>, contexts: Config, cells: map<Slot, string>) {
    forall n :: n in names && n in doc ==>
      && n in contexts
      && SecretPlaced(v, doc[n], doc[n].password, doc[n].schemaPassword, n, contexts[n].password, cells)
      && SecretPlaced(v, doc[n], doc[n].schemaPassword, doc[n].password, n + "/schema-registry", contexts[n].schemaPassword, cells)
  }

  ghost predicate CellFor(v: Vault, doc: Config, n: string, slot: Slot) {
    n in doc && exists b ::
      || (Stores(doc[n], doc[n].password, doc[n].schemaPassword, b) && CellOf(v, doc[n], b, n) == Some(slot))
      || (Stores(doc[n], doc[n].schemaPassword, doc[n].password, b) && CellOf(v, doc[n], b, n + "/schema-registry") == Some(slot))
  }

  /** No cell has changed but for such a literal. */
  ghost predicate OnlyPlaced(v: Vault, doc: Config, names: seq<string>, cells0: map<Slot, string>, cells: map<Slot, string>) {
    forall slot :: (forall n :: n in names ==> !CellFor(v, doc, n, slot)) ==> SameCell(cells, cells0, slot)
  }

  /** Everything but the secrets and the back end is as the document has it, and every other context as it was. */
  ghost predicate OnlyNamed(doc: Config, names: seq<string>, contexts0: Config, contexts: Config) {
    && (forall n :: n in names && n in doc ==>
          && n in contexts
          && contexts[n] == doc[n].(password := contexts[n].password, schemaPassword := contexts[n].schemaPassword,
                                    credentialBackend := contexts[n].credentialBackend)
          && (doc[n].credentialBackend != "" ==> contexts[n].credentialBackend == doc[n].credentialBackend)
          && (doc[n].credentialBackend == "" && doc[n].schemaPassword.Ref? ==>
                contexts[n].credentialBackend == doc[n].schemaPassword.backendName)
          && (doc[n].credentialBackend == "" && !doc[n].schemaPassword.Ref? && doc[n].password.Ref? ==>
                contexts[n].credentialBackend == doc[n].password.backendName))
    && (forall n :: n !in names ==> (n in contexts <==> n in contexts0) && (n in contexts ==> contexts[n] == contexts0[n]))
  }

  /** A context cannot be planned when its back end is unknown, or is Vault without a usable address. */
  ghost predicate CannotPlan(v: Vault, supported: string -> bool, item: Item) {
    exists b :: Names(item, b) && ((b == "vault" && v.addr(item.vaultAddr).None?) || (b != "" && b != "plain-yaml" && !supported(b)))
  }

  /** The context names this back end itself or, without one, in its references; the second one goes first. */
  ghost predicate Names(item: Item, backendName: string) {
    if item.credentialBackend != "" then item.credentialBackend == backendName
    else if item.schemaPassword.Ref? then item.schemaPassword == Ref(backendName)
    else item.password == Ref(backendName)
  }

  lemma RefusedPlan(v: Vault, supported: string -> bool, name: string, item: Item)
    ensures PlanCredential(v, supported, name, Cleared(item)).None? <==> CannotPlan(v, supported, item)
  {
    var b := ChosenBackend(item);
    assert ChosenBackend(Cleared(item)) == b;
    assert b != "" ==> Names(item, b);
  }

  /** The plan of one context, in these terms. */
  lemma PlannedPlace(v: Vault, supported: string -> bool, name: string, item: Item, p: PlannedContext)
    requires PlanCredential(v, supported, name, Cleared(item)) == Some(p)
    ensures forall b :: Stores(item, item.password, item.schemaPassword, b) ==>
              && p.item.password == Ref(b) && p.candidate.password == LiteralOf(item.password)
              && CellOf(v, item, b, name) == Some(p.candidate.primarySlot)
    ensures (forall b :: !Stores(item, item.password, item.schemaPassword, b)) ==>
              p.candidate.password == "" && p.item.password == if item.password.Redacted? then Empty else item.password
    ensures forall b :: Stores(item, item.schemaPassword, item.password, b) ==>
              && p.item.schemaPassword == Ref(b) && p.candidate.schemaPassword == LiteralOf(item.schemaPassword)
              && CellOf(v, item, b, name + "/schema-registry") == Some(p.candidate.schemaSlot)
    ensures (forall b :: !Stores(item, item.schemaPassword, item.password, b)) ==>
              p.candidate.schemaPassword == "" && p.item.schemaPassword == if item.schemaPassword.Redacted? then Empty else item.schemaPassword
  {
    var b := ChosenBackend(item);
    assert ChosenBackend(Cleared(item)) == b;
    if !KeepsLiterals(b) {
      assert LiteralOf(item.password) != "" ==> Stores(item, item.password, item.schemaPassword, b);
      assert LiteralOf(item.schemaPassword) != "" ==> Stores(item, item.schemaPassword, item.password, b);
    }
  }

  lemma PlannedRest(v: Vault, supported: string -> bool, name: string, item: Item, p: PlannedContext)
    requires PlanCredential(v, supported, name, Cleared(item)) == Some(p)
    ensures p.candidate.name == name
    ensures p.item == item.(password := p.item.password, schemaPassword := p.item.schemaPassword, credentialBackend := p.item.credentialBackend)
    ensures item.credentialBackend != "" ==> p.item.credentialBackend == item.credentialBackend
    ensures item.credentialBackend == "" && item.schemaPassword.Ref? ==> p.item.credentialBackend == item.schemaPassword.backendName
    ensures item.credentialBackend == "" && !item.schemaPassword.Ref? && item.password.Ref? ==>
              p.item.credentialBackend == item.password.backendName
  {
    hide PhysicalSlot;
  }

  lemma SecretsArePlaced(v: Vault, supported: string -> bool, doc: Config, names: seq<string>, candidates: seq<Candidate>, expected: Config,
                         contexts: Config, cells0: map<Slot, string>, cells: map<Slot, string>)
    requires Plans(v, supported, doc, names, candidates, expected)
    requires Committed(contexts, expected) && Written(cells0, cells, Plan(candidates))
    ensures Placed(v, doc, names, contexts, cells) && OnlyPlaced(v, doc, names, cells0, cells)
  {
    hide Plan, PlanCredential, Committed, Stores, CellOf, LiteralOf, SecretPlaced;
    forall n | n in names && n in doc
      ensures n in contexts
      ensures SecretPlaced(v, doc[n], doc[n].password, doc[n].schemaPassword, n, contexts[n].password, cells)
      ensures SecretPlaced(v, doc[n], doc[n].schemaPassword, doc[n].password, n + "/schema-registry", contexts[n].schemaPassword, cells)
    {
      var i :| 0 <= i < |names| && names[i] == n;
      SameSecrets(v, contexts, expected, Reference(n, Primary));
      SameSecrets(v, contexts, expected, Reference(n, SchemaRegistry));
      OnePlaced(v, supported, n, doc[n], PlannedContext(candidates[i], expected[n]), candidates, cells0, cells);
    }
    forall slot | forall n :: n in names ==> !CellFor(v, doc, n, slot) ensures SameCell(cells, cells0, slot) {
      if InPlan(Plan(candidates), slot) {
        PlannedCell(v, supported, doc, names, candidates, expected, slot);
      }
    }
  }

  lemma OnePlaced(v: Vault, supported: string -> bool, name: string, item: Item, p: PlannedContext, candidates: seq<Candidate>,
                  cells0: map<Slot, string>, cells: map<Slot, string>)
    requires PlanCredential(v, supported, name, Cleared(item)) == Some(p) && p.candidate in candidates
    requires Written(cells0, cells, Plan(candidates))
    ensures SecretPlaced(v, item, item.password, item.schemaPassword, name, p.item.password, cells)
    ensures SecretPlaced(v, item, item.schemaPassword, item.password, name + "/schema-registry", p.item.schemaPassword, cells)
  {
    PlannedPlace(v, supported, name, item, p);
    hide PlanCredential, CellOf, Plan, Stores, SecretPlaced, LiteralOf, Cleared, OwnerOf;
    var c := p.candidate;
    if c.password != "" {
      PlanHas(candidates, c, Primary);
    }
    if c.schemaPassword != "" {
      PlanHas(candidates, c, SchemaRegistry);
    }
    SecretIsPlaced(v, item, item.password, item.schemaPassword, name, p.item.password, c.password, c.primarySlot, cells);
    SecretIsPlaced(v, item, item.schemaPassword, item.password, name + "/schema-registry", p.item.schemaPassword,
                   c.schemaPassword, c.schemaSlot, cells);
  }

  lemma SecretIsPlaced(v: Vault, item: Item, before: Secret, other: Secret, key: string, after: Secret, value: string, slot: Slot,
                       cells: map<Slot, string>)
    requires forall b :: Stores(item, before, other, b) ==> after == Ref(b) && value == LiteralOf(before) && CellOf(v, item, b, key) == Some(slot)
    requires (forall b :: !Stores(item, before, other, b)) ==> after == if before.Redacted? then Empty else before
    requires value != "" ==> slot in cells && cells[slot] == value
    ensures SecretPlaced(v, item, before, other, key, after, cells)
  {
    hide CellOf;
  }

  /** A planned slot is the cell of some literal of the document. */
  lemma PlannedCell(v: Vault, supported: string -> bool, doc: Config, names: seq<string>, candidates: seq<Candidate>, expected: Config, slot: Slot)
    requires Plans(v, supported, doc, names, candidates, expected) && InPlan(Plan(candidates), slot)
    ensures exists n :: n in names && CellFor(v, doc, n, slot)
  {
    hide Plan, PlanCredential, CellOf, Stores;
    var k :| 0 <= k < |Plan(candidates)| && Plan(candidates)[k].slot == slot;
    PlanComes(candidates, Plan(candidates)[k]);
    var c, kind :| c in candidates && ValueOf(c, kind) != "" && slot == PlannedSlot(c, kind);
    var i :| 0 <= i < |candidates| && candidates[i] == c;
    PlannedPlace(v, supported, names[i], doc[names[i]], PlannedContext(c, expected[names[i]]));
    assert names[i] in names && CellFor(v, doc, names[i], slot);
  }

  /** What a command that passes its checks may still run into. */
  ghost predicate Clashes(v: Vault, supported: string -> bool, available: Candidate -> bool, doc: Config, names: seq<string>, contexts: Config) {
    exists candidates, expected ::
      && Plans(v, supported, doc, names, candidates, expected)
      && (!Sound(v, contexts + expected) || !DistinctPlan(Plan(candidates))
          || exists c :: c in candidates && PlanOf(c) != [] && !available(c))
  }

  lemma StoredIsNamed(v: Vault, supported: string -> bool, doc: Config, names: seq<string>, candidates: seq<Candidate>, expected: Config, contexts: Config)
    requires Plans(v, supported, doc, names, candidates, expected)
    ensures OnlyNamed(doc, names, contexts, contexts + expected)
  {
    hide PlanCredential;
    forall n | n in names && n in doc
      ensures n in expected
      ensures expected[n] == doc[n].(password := expected[n].password, schemaPassword := expected[n].schemaPassword,
                                     credentialBackend := expected[n].credentialBackend)
      ensures doc[n].credentialBackend != "" ==> expected[n].credentialBackend == doc[n].credentialBackend
      ensures doc[n].credentialBackend == "" && doc[n].schemaPassword.Ref? ==>
                expected[n].credentialBackend == doc[n].schemaPassword.backendName
      ensures doc[n].credentialBackend == "" && !doc[n].schemaPassword.Ref? && doc[n].password.Ref? ==>
                expected[n].credentialBackend == doc[n].password.backendName
    {
      var i :| 0 <= i < |names| && names[i] == n;
      PlannedRest(v, supported, n, doc[n], PlannedContext(candidates[i], expected[n]));
    }
  }

  /**
   A whole import: what it reports as done, its contexts find, secret by secret. Each literal of the document went
   where its back end says and nowhere else, and the import fails only for a reason.
   */
  method ImportContexts(v: Vault, configs: ContextStore, tx: Transaction, supported: string -> bool, available: Candidate -> bool,
                        doc: Config, names: seq<string>, cause: OperationError)
    returns (report: Option<Outcome>, failed: bool)
    requires names != [] && (forall n :: n in names ==> n in doc)
    requires forall i, j :: 0 <= i < j < |names| ==> names[i] != names[j]
    requires tx.writes == [] && WellFormedError(Some(cause))
    modifies configs, tx, tx.store
    ensures !failed ==> report.Some? && ReportsDone(report.value, |names|) && configs.foreign == old(configs.foreign)
    ensures report.Some? && ReportsDone(report.value, |names|) && configs.foreign == old(configs.foreign) ==>
              && Imported(v, doc, names, configs.contexts, tx.store.cells)
              && Placed(v, doc, names, configs.contexts, tx.store.cells)
              && OnlyPlaced(v, doc, names, old(tx.store.cells), tx.store.cells)
    ensures !failed ==> Failures(tx.store, configs) == old(Failures(tx.store, configs))
    ensures !failed ==> OnlyNamed(doc, names, old(configs.contexts), configs.contexts)
    ensures failed ==>
              || Failures(tx.store, configs) > old(Failures(tx.store, configs))
              || (exists n :: n in names && CannotPlan(v, supported, doc[n]))
              || Clashes(v, supported, available, doc, names, old(configs.contexts))
    ensures report.None? ==> failed && configs.contexts == old(configs.contexts) && tx.store.cells == old(tx.store.cells)
    ensures report.Some? ==> AcceptsOutcome(report.value, |names|) && OwnOutcome(report.value, |names|)
    ensures configs.foreign == old(configs.foreign) ==>
              && (Sound(v, old(configs.contexts)) ==> Sound(v, configs.contexts))
              && forall r: Reference :: r.name !in names ==>
                   Resolve(v, configs.contexts, tx.store.cells, r) == Resolve(v, old(configs.contexts), old(tx.store.cells), r)
  {
    hide AcceptsOutcome, OwnOutcome, Plan, PlanOf, DistinctPlan, Sound, Linked, Entangled, AllUndone, CommandStep, Resolve, Imported,
         SecretsResolve, Plans, Committed, Written, Placed, OnlyPlaced, OnlyNamed, CannotPlan, PlanCredential, Cleared;
    var ok, candidates, expected := PlanImport(v, supported, doc, names);
    if !ok {
      var n :| n in names && PlanCredential(v, supported, n, Cleared(doc[n])).None?;
      RefusedPlan(v, supported, n, doc[n]);
      return None, true;
    }
    ghost var cells0, contexts0 := tx.store.cells, configs.contexts;
    PlansAreLinked(v, supported, doc, names, candidates, expected);
    PlannedNames(v, supported, doc, names, candidates, expected);
    report, failed := ApplyImport(v, configs, tx, candidates, available, expected, cause);
    if report.Some? && ReportsDone(report.value, |names|) && configs.foreign == old(configs.foreign) {
      SecretsAreImported(v, supported, doc, names, candidates, expected, configs.contexts, tx.store.cells);
      SecretsArePlaced(v, supported, doc, names, candidates, expected, configs.contexts, cells0, tx.store.cells);
    }
    if !failed {
      StoredIsNamed(v, supported, doc, names, candidates, expected, contexts0);
    }
  }

  lemma PlannedNames(v: Vault, supported: string -> bool, doc: Config, names: seq<string>, candidates: seq<Candidate>, expected: Config)
    requires Plans(v, supported, doc, names, candidates, expected)
    requires forall i, j :: 0 <= i < j < |names| ==> names[i] != names[j]
    ensures |expected| == |names| && forall name :: name in expected <==> name in names
    ensures names != [] ==> expected != map[]
  {
    SizeOfNames(names, expected.Keys);
  }

  lemma {:induction false} SizeOfNames(names: seq<string>, keys: set<string>)
    requires forall i, j :: 0 <= i < j < |names| ==> names[i] != names[j]
    requires forall name :: name in keys <==> name in names
    ensures |keys| == |names|
  {
    if names == [] {
      assert keys == {};
    } else {
      var front := names[..|names| - 1];
      assert names == front + [Last(names)];
      SizeOfNames(front, keys - {Last(names)});
    }
  }
}
