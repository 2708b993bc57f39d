/**
 Moving the literal credentials of stored contexts into a credential store. The flow is that of an
 import, with every credential accounted for and no Vault among the targets.
 */
module CredentialMigration {
  import opened Common
  import opened OutcomeRecords
  import opened CredentialSlots
  import opened CredentialTransactions
  import opened CredentialSaga

  function CandidateOf(name: string, item: Item): MigrationCandidate {
    MigrationCandidate(name, item, LiteralOf(item.password), LiteralOf(item.schemaPassword))
  }

  predicate HasWrites(c: MigrationCandidate) {
    c.password != "" || c.schemaPassword != ""
  }

  /** The contexts with a literal credential, in the order of their names. */
  function Discover(contexts: Config, names: seq<string>): seq<MigrationCandidate>
    requires forall n :: n in names ==> n in contexts
  {
    if names == [] then []
    else
      var name := Last(names);
      var c := CandidateOf(name, contexts[name]);
      Discover(contexts, names[..|names| - 1]) + if HasWrites(c) then [c] else []
  }

  predicate DistinctNames(candidates: seq<MigrationCandidate>) {
    forall i, j :: 0 <= i < j < |candidates| ==> candidates[i].name != candidates[j].name
  }

  /** The candidates carry exactly the literals of their contexts. */
  predicate Exact(candidates: seq<MigrationCandidate>) {
    forall c :: c in candidates ==> c == CandidateOf(c.name, c.context)
  }

  predicate IsLiteral(secret: Secret) {
    secret.Literal? && secret.value != ""
  }

  predicate HasLiteral(item: Item) {
    IsLiteral(item.password) || IsLiteral(item.schemaPassword)
  }

  /** Discovery finds every context with a literal in either field, once, with its literals, and no other context. */
  lemma {:induction false} DiscoveredAreDistinct(contexts: Config, names: seq<string>)
    requires forall n :: n in names ==> n in contexts
    requires forall i, j :: 0 <= i < j < |names| ==> names[i] != names[j]
    ensures DistinctNames(Discover(contexts, names))
    ensures forall c :: c in Discover(contexts, names) ==> c.name in names && HasWrites(c) && c.context == contexts[c.name]
    ensures Exact(Discover(contexts, names))
    ensures forall n :: n in names && HasLiteral(contexts[n]) ==> CandidateOf(n, contexts[n]) in Discover(contexts, names)
    ensures forall c :: c in Discover(contexts, names) ==>
              && (IsLiteral(contexts[c.name].password) ==> contexts[c.name].password == Literal(c.password))
              && (IsLiteral(contexts[c.name].schemaPassword) ==> contexts[c.name].schemaPassword == Literal(c.schemaPassword))
              && (!IsLiteral(contexts[c.name].password) ==> c.password == "")
              && (!IsLiteral(contexts[c.name].schemaPassword) ==> c.schemaPassword == "")
              && HasLiteral(contexts[c.name])
  {
    if names != [] {
      var front := names[..|names| - 1];
      assert names == front + [Last(names)];
      DiscoveredAreDistinct(contexts, front);
      var found := Discover(contexts, front);
      assert forall i :: 0 <= i < |found| ==> found[i] in found;
    }
  }

  function StoreSlot(backendName: string, key: string): Slot {
    Slot(backendName, key, "", "", "")
  }

  function AsCandidate(c: MigrationCandidate, backendName: string): Candidate {
    Candidate(c.name, c.password, c.schemaPassword,
              StoreSlot(backendName, KeyOf(Reference(c.name, Primary))),
              StoreSlot(backendName, KeyOf(Reference(c.name, SchemaRegistry))))
  }

  function AsCandidates(candidates: seq<MigrationCandidate>, backendName: string): seq<Candidate> {
    seq(|candidates|, i requires 0 <= i < |candidates| => AsCandidate(candidates[i], backendName))
  }

  // ---- The key set check makes the plan unambiguous -------------------------

  predicate Moves(c: MigrationCandidate, kind: CredentialKind) {
    match kind
    case Primary => c.password != ""
    case SchemaRegistry => c.schemaPassword != ""
  }

  lemma {:induction false} MigratedLookup(contexts: Config, candidates: seq<MigrationCandidate>, backendName: string, k: nat)
    requires k < |candidates| && DistinctNames(candidates)
    ensures candidates[k].name in MigratedConfig(contexts, candidates, backendName)
    ensures MigratedConfig(contexts, candidates, backendName)[candidates[k].name] == MigratedItem(candidates[k], backendName)
    decreases |candidates|
  {
    if k < |candidates| - 1 {
      MigratedLookup(contexts, candidates[..|candidates| - 1], backendName, k);
    }
  }

  lemma MovedReference(v: Vault, contexts: Config, candidates: seq<MigrationCandidate>, backendName: string, k: nat, kind: CredentialKind)
    requires k < |candidates| && DistinctNames(candidates) && Moves(candidates[k], kind) && backendName != VAULT
    ensures var merged, r := MigratedConfig(contexts, candidates, backendName), Reference(candidates[k].name, kind);
            Refers(merged, r) && SlotOf(v, merged, r) == Some(StoreSlot(backendName, KeyOf(r)))
  {
    MigratedLookup(contexts, candidates, backendName, k);
  }

  /** The place of one credential in the plan: two per candidate. */
  function Position(j: nat, kind: CredentialKind): nat {
    2 * j + if kind == Primary then 0 else 1
  }

  ghost predicate MovedBefore(candidates: seq<MigrationCandidate>, backendName: string, bound: nat, slot: Slot) {
    exists j: nat, kind :: j < |candidates| && Position(j, kind) < bound && Moves(candidates[j], kind)
                           && slot == StoreSlot(backendName, KeyOf(Reference(candidates[j].name, kind)))
  }

  /** The planned slots are distinct and belong to credentials that are moved before the bound. */
  ghost predicate PlanCovered(candidates: seq<MigrationCandidate>, backendName: string, bound: nat, plan: seq<Planned>) {
    DistinctPlan(plan) && forall slot :: InPlan(plan, slot) ==> MovedBefore(candidates, backendName, bound, slot)
  }

  lemma AddMove(v: Vault, contexts: Config, candidates: seq<MigrationCandidate>, backendName: string, k: nat, kind: CredentialKind, plan: seq<Planned>, p: Planned)
    requires k < |candidates| && DistinctNames(candidates) && backendName != VAULT
    requires Sound(v, MigratedConfig(contexts, candidates, backendName))
    requires Moves(candidates[k], kind) && p.slot == StoreSlot(backendName, KeyOf(Reference(candidates[k].name, kind)))
    requires PlanCovered(candidates, backendName, Position(k, kind), plan)
    ensures PlanCovered(candidates, backendName, Position(k, kind) + 1, plan + [p])
  {
    ExtendPlan(plan, p);
    if InPlan(plan, p.slot) {
      var j: nat, d :| j < |candidates| && Position(j, d) < Position(k, kind) && Moves(candidates[j], d)
                       && p.slot == StoreSlot(backendName, KeyOf(Reference(candidates[j].name, d)));
      MovedReference(v, contexts, candidates, backendName, j, d);
      MovedReference(v, contexts, candidates, backendName, k, kind);
      assert false;
    }
    forall slot | InPlan(plan + [p], slot) ensures MovedBefore(candidates, backendName, Position(k, kind) + 1, slot) {
      if InPlan(plan, slot) {
        assert MovedBefore(candidates, backendName, Position(k, kind), slot);
      }
    }
  }

  lemma CoveredLater(candidates: seq<MigrationCandidate>, backendName: string, bound: nat, later: nat, plan: seq<Planned>)
    requires PlanCovered(candidates, backendName, bound, plan) && bound <= later
    ensures PlanCovered(candidates, backendName, later, plan)
  {
    forall slot | InPlan(plan, slot) ensures MovedBefore(candidates, backendName, later, slot) {
      assert MovedBefore(candidates, backendName, bound, slot);
    }
  }

  lemma AddCandidate(v: Vault, contexts: Config, candidates: seq<MigrationCandidate>, backendName: string, k: nat, plan: seq<Planned>)
    requires k < |candidates| && DistinctNames(candidates) && backendName != VAULT
    requires Sound(v, MigratedConfig(contexts, candidates, backendName))
    requires PlanCovered(candidates, backendName, 2 * k, plan)
    ensures PlanCovered(candidates, backendName, 2 * k + 2, plan + PlanOf(AsCandidate(candidates[k], backendName)))
  {
    hide PlanCovered, Sound, MigratedConfig, DistinctNames, KeyOf, OwnerOf, StoreSlot;
    var c := AsCandidate(candidates[k], backendName);
    var p := plan;
    if c.password != "" {
      var primary := Planned(c.primarySlot, OwnerOf(Reference(c.name, Primary)), c.password);
      AddMove(v, contexts, candidates, backendName, k, Primary, p, primary);
      p := p + [primary];
    } else {
      CoveredLater(candidates, backendName, 2 * k, 2 * k + 1, p);
    }
    if c.schemaPassword != "" {
      var schema := Planned(c.schemaSlot, OwnerOf(Reference(c.name, SchemaRegistry)), c.schemaPassword);
      AddMove(v, contexts, candidates, backendName, k, SchemaRegistry, p, schema);
      p := p + [schema];
    } else {
      CoveredLater(candidates, backendName, 2 * k + 1, 2 * k + 2, p);
    }
    assert p == plan + PlanOf(c);
  }

  /** The check of the migrated configuration leaves no two credentials of the plan in one slot. */
  lemma {:induction false} MigrationPlanDistinct(v: Vault, contexts: Config, candidates: seq<MigrationCandidate>, backendName: string, k: nat)
    requires k <= |candidates| && DistinctNames(candidates) && backendName != VAULT
    requires Sound(v, MigratedConfig(contexts, candidates, backendName))
    ensures PlanCovered(candidates, backendName, 2 * k, Plan(AsCandidates(candidates, backendName)[..k]))
  {
    hide Sound, MigratedConfig, DistinctNames, KeyOf, OwnerOf, StoreSlot, PlanOf, MovedBefore;
    if k > 0 {
      MigrationPlanDistinct(v, contexts, candidates, backendName, k - 1);
      PlanPrefix(AsCandidates(candidates, backendName), k - 1);
      AddCandidate(v, contexts, candidates, backendName, k - 1, Plan(AsCandidates(candidates, backendName)[..k - 1]));
    }
  }

  // ---- What the contexts find afterwards ---------------------------------------

  lemma {:induction false} MigratedElsewhere(contexts: Config, candidates: seq<MigrationCandidate>, backendName: string, name: string)
    requires forall c :: c in candidates ==> c.name != name
    ensures name in MigratedConfig(contexts, candidates, backendName) <==> name in contexts
    ensures name in contexts ==> MigratedConfig(contexts, candidates, backendName)[name] == contexts[name]
  {
    if candidates != [] {
      MigratedElsewhere(contexts, candidates[..|candidates| - 1], backendName, name);
      assert Last(candidates) in candidates;
    }
  }

  /** The item of a context is as it was, or is migrated. */
  lemma ItemAfterMigration(contexts: Config, candidates: seq<MigrationCandidate>, backendName: string, name: string)
    requires DistinctNames(candidates) && Exact(candidates) && MigrationUntouched(contexts, candidates)
    ensures name in MigratedConfig(contexts, candidates, backendName) <==> name in contexts
    ensures name in contexts ==>
              || MigratedConfig(contexts, candidates, backendName)[name] == contexts[name]
              || (CandidateOf(name, contexts[name]) in candidates
                  && MigratedConfig(contexts, candidates, backendName)[name] == MigratedItem(CandidateOf(name, contexts[name]), backendName))
  {
    if c :| c in candidates && c.name == name {
      var k :| 0 <= k < |candidates| && candidates[k] == c;
      MigratedLookup(contexts, candidates, backendName, k);
    } else {
      MigratedElsewhere(contexts, candidates, backendName, name);
    }
  }

  /** A reference stays as it was and keeps its slot; only literals move. */
  lemma KeptReference(v: Vault, contexts: Config, candidates: seq<MigrationCandidate>, backendName: string, r: Reference)
    requires DistinctNames(candidates) && Exact(candidates) && MigrationUntouched(contexts, candidates)
    requires Refers(contexts, r)
    ensures var merged := MigratedConfig(contexts, candidates, backendName);
            Refers(merged, r) && SlotOf(v, merged, r) == SlotOf(v, contexts, r)
  {
    hide MigratedConfig;
    ItemAfterMigration(contexts, candidates, backendName, r.name);
  }

  /** No reference of the configuration before leads to a planned slot. */
  lemma PlanIsFree(v: Vault, contexts: Config, candidates: seq<MigrationCandidate>, backendName: string, r: Reference)
    requires DistinctNames(candidates) && Exact(candidates) && MigrationUntouched(contexts, candidates) && backendName != VAULT
    requires Sound(v, MigratedConfig(contexts, candidates, backendName)) && Refers(contexts, r)
    ensures SlotOf(v, contexts, r).Some? && !InPlan(Plan(AsCandidates(candidates, backendName)), SlotOf(v, contexts, r).value)
  {
    hide MigratedConfig, DistinctNames, Plan;
    KeptReference(v, contexts, candidates, backendName, r);
    var plan := Plan(AsCandidates(candidates, backendName));
    if InPlan(plan, SlotOf(v, contexts, r).value) {
      var i :| 0 <= i < |plan| && plan[i].slot == SlotOf(v, contexts, r).value;
      PlanComes(AsCandidates(candidates, backendName), plan[i]);
      MovedOwner(v, contexts, candidates, backendName, plan[i].slot);
    }
  }

  /** A planned slot belongs to a reference of the migrated configuration that was a literal before. */
  lemma MovedOwner(v: Vault, contexts: Config, candidates: seq<MigrationCandidate>, backendName: string, slot: Slot)
    requires DistinctNames(candidates) && Exact(candidates) && MigrationUntouched(contexts, candidates) && backendName != VAULT
    requires exists c, kind :: c in AsCandidates(candidates, backendName) && ValueOf(c, kind) != "" && slot == PlannedSlot(c, kind)
    ensures exists s: Reference :: Refers(MigratedConfig(contexts, candidates, backendName), s) && !Refers(contexts, s)
                                   && SlotOf(v, MigratedConfig(contexts, candidates, backendName), s) == Some(slot)
  {
    hide MigratedConfig, DistinctNames;
    var c, kind :| c in AsCandidates(candidates, backendName) && ValueOf(c, kind) != "" && slot == PlannedSlot(c, kind);
    var k :| 0 <= k < |candidates| && AsCandidate(candidates[k], backendName) == c;
    assert candidates[k] in candidates;
    MovedReference(v, contexts, candidates, backendName, k, kind);
    assert !Refers(contexts, Reference(candidates[k].name, kind));
  }

  /** So the slots of a migration belong to nobody else, and it may always undo its own writes. */
  lemma MigrationOwnsItsSlots(v: Vault, contexts: Config, candidates: seq<MigrationCandidate>, backendName: string, writes: seq<Write>)
    requires DistinctNames(candidates) && Exact(candidates) && MigrationUntouched(contexts, candidates) && backendName != VAULT
    requires Sound(v, MigratedConfig(contexts, candidates, backendName))
    requires Follows(writes, Plan(AsCandidates(candidates, backendName)))
    ensures OwnersUnchanged(v, contexts, writes)
  {
    var merged := MigratedConfig(contexts, candidates, backendName);
    var plan := Plan(AsCandidates(candidates, backendName));
    hide MigratedConfig, DistinctNames, Exact, MigrationUntouched, Plan, AsCandidates;
    forall r | Refers(contexts, r) ensures Refers(merged, r) && SlotOf(v, contexts, r) == SlotOf(v, merged, r) {
      KeptReference(v, contexts, candidates, backendName, r);
    }
    SameReferencesStaySound(v, merged, contexts);
    forall i, r | 0 <= i < |writes| && Refers(contexts, r) ensures SlotOf(v, contexts, r) != Some(writes[i].slot) {
      PlanIsFree(v, contexts, candidates, backendName, r);
      assert plan[i].slot == writes[i].slot;
    }
  }

  /** Every context finds what it found before. */
  ghost predicate MeaningKept(v: Vault, contexts0: Config, cells0: map<Slot, string>, contexts: Config, cells: map<Slot, string>) {
    forall r :: Resolve(v, contexts, cells, r) == Resolve(v, contexts0, cells0, r)
  }

  /** As long as the old configuration stands, whatever was put or undone does not matter to it. */
  lemma OldMeaningKept(v: Vault, contexts: Config, candidates: seq<MigrationCandidate>, backendName: string,
                       cells0: map<Slot, string>, cells: map<Slot, string>)
    requires DistinctNames(candidates) && Exact(candidates) && MigrationUntouched(contexts, candidates) && backendName != VAULT
    requires Sound(v, MigratedConfig(contexts, candidates, backendName))
    requires Elsewhere(cells0, cells, Plan(AsCandidates(candidates, backendName)))
    ensures MeaningKept(v, contexts, cells0, contexts, cells)
  {
    hide MigratedConfig, DistinctNames, Exact, MigrationUntouched, Plan, AsCandidates, Sound, InPlan;
    forall r ensures Resolve(v, contexts, cells, r) == Resolve(v, contexts, cells0, r) {
      if Refers(contexts, r) {
        PlanIsFree(v, contexts, candidates, backendName, r);
        assert SameCell(cells, cells0, SlotOf(v, contexts, r).value);
      }
    }
  }

  /** With the new one every moved literal is found in its slot, and everything else where it was. */
  lemma NewMeaningKept(v: Vault, contexts: Config, candidates: seq<MigrationCandidate>, backendName: string,
                       cells0: map<Slot, string>, cells: map<Slot, string>)
    requires DistinctNames(candidates) && Exact(candidates) && MigrationUntouched(contexts, candidates) && backendName != VAULT
    requires Sound(v, MigratedConfig(contexts, candidates, backendName))
    requires Written(cells0, cells, Plan(AsCandidates(candidates, backendName)))
    ensures MeaningKept(v, contexts, cells0, MigratedConfig(contexts, candidates, backendName), cells)
  {
    hide MigratedConfig, DistinctNames, Exact, MigrationUntouched, Plan, AsCandidates, Sound, MigratedItem, CandidateOf;
    var merged := MigratedConfig(contexts, candidates, backendName);
    OldMeaningKept(v, contexts, candidates, backendName, cells0, cells);
    forall r ensures Resolve(v, merged, cells, r) == Resolve(v, contexts, cells0, r) {
      assert Resolve(v, contexts, cells, r) == Resolve(v, contexts, cells0, r);
      MovedOrKept(v, contexts, candidates, backendName, cells0, cells, r);
    }
  }

  lemma MovedOrKept(v: Vault, contexts: Config, candidates: seq<MigrationCandidate>, backendName: string,
                    cells0: map<Slot, string>, cells: map<Slot, string>, r: Reference)
    requires DistinctNames(candidates) && Exact(candidates) && MigrationUntouched(contexts, candidates) && backendName != VAULT
    requires Written(cells0, cells, Plan(AsCandidates(candidates, backendName)))
    ensures Resolve(v, MigratedConfig(contexts, candidates, backendName), cells, r) == Resolve(v, contexts, cells, r)
  {
    hide MigratedConfig, DistinctNames, MigrationUntouched, Plan;
    ItemAfterMigration(contexts, candidates, backendName, r.name);
    if Refers(contexts, r) {
      KeptReference(v, contexts, candidates, backendName, r);
    } else if r.name in contexts && CandidateOf(r.name, contexts[r.name]) in candidates {
      var c := CandidateOf(r.name, contexts[r.name]);
      var k :| 0 <= k < |candidates| && candidates[k] == c;
      if Moves(c, r.kind) {
        MovedReference(v, contexts, candidates, backendName, k, r.kind);
        assert AsCandidates(candidates, backendName)[k] == AsCandidate(c, backendName);
        PlanHas(AsCandidates(candidates, backendName), AsCandidate(c, backendName), r.kind);
      }
    }
  }

  // ---- The flow ---------------------------------------------------------------

  predicate MigrationCommitted(contexts: Config, candidates: seq<MigrationCandidate>, backendName: string) {
    forall i :: 0 <= i < |candidates| ==>
      candidates[i].name in contexts && contexts[candidates[i].name] == MigratedItem(candidates[i], backendName)
  }

  predicate MigrationUntouched(contexts: Config, candidates: seq<MigrationCandidate>) {
    forall i :: 0 <= i < |candidates| ==>
      candidates[i].name in contexts && contexts[candidates[i].name] == candidates[i].context
  }

  method MigrationState(contexts: Config, candidates: seq<MigrationCandidate>, backendName: string)
    returns (committed: bool, untouched: bool)
    ensures committed <==> MigrationCommitted(contexts, candidates, backendName)
    ensures untouched <==> MigrationUntouched(contexts, candidates)
  {
    committed, untouched := true, true;
    for k := 0 to |candidates|
      invariant forall i :: 0 <= i < k ==> candidates[i].name in contexts
      invariant committed <==> forall i :: 0 <= i < k ==> contexts[candidates[i].name] == MigratedItem(candidates[i], backendName)
      invariant untouched <==> forall i :: 0 <= i < k ==> contexts[candidates[i].name] == candidates[i].context
    {
      if candidates[k].name !in contexts {
        return false, false;
      }
      var current := contexts[candidates[k].name];
      committed := committed && current == MigratedItem(candidates[k], backendName);
      untouched := untouched && current == candidates[k].context;
    }
  }

  /** Store every credential, counting each one that certainly succeeded and the one that failed. */
  method StoreMigration(tx: Transaction, candidates: seq<Candidate>) returns (ok: bool, progress: Progress)
    requires tx.writes == [] && DistinctPlan(Plan(candidates))
    modifies tx, tx.store
    ensures Faithful(old(tx.store.cells), tx.store.cells, tx.writes) && Follows(tx.writes, Plan(candidates))
    ensures ok ==> AllPut(tx.writes) && |tx.writes| == |Plan(candidates)| && progress == Progress(|Plan(candidates)|, 0, 0)
    ensures !ok ==> progress.failed == 1 && progress.uncertain == 0 && 0 <= progress.succeeded < |Plan(candidates)|
    ensures progress.succeeded == Certain(tx.writes) && |tx.writes| <= Certain(tx.writes) + 1
    ensures ok ==> tx.store.failures == old(tx.store.failures)
    ensures !ok ==> tx.store.failures == old(tx.store.failures) + 1
  {
    progress := Progress(0, 0, 0);
    ghost var before, plan := tx.store.cells, Plan(candidates);
    NothingStored(before, plan);
    hide Faithful, Follows, DistinctPlan, PlanOf, PartOf, Certain;
    for k := 0 to |candidates|
      invariant Faithful(before, tx.store.cells, tx.writes) && Follows(tx.writes, plan)
      invariant AllPut(tx.writes) && |tx.writes| == |Plan(candidates[..k])| && progress == Progress(|tx.writes|, 0, 0)
      invariant tx.store.failures == old(tx.store.failures)
    {
      NextPart(candidates, k);
      var stored, puts := StoreCandidate(tx, candidates[k], before, plan);
      progress := progress.(succeeded := progress.succeeded + puts);
      if !stored {
        return false, progress.(failed := 1);
      }
    }
    assert candidates[..|candidates|] == candidates;
    AllPutIsCertain(tx.writes);
    return true, progress;
  }

  method ReconcileMigration(v: Vault, configs: ContextStore, tx: Transaction, progress: Progress,
                            candidates: seq<MigrationCandidate>, backendName: string)
    returns (result: Progress, status: Compensation)
    requires DistinctSlots(tx.writes) && tx.writes != [] && progress == Progress(|tx.writes|, 0, 0)
    modifies tx.store, configs`failures
    ensures Failures(tx.store, configs) >= old(Failures(tx.store, configs))
    ensures result == progress.AfterIncompleteCompensation() ==>
              || Failures(tx.store, configs) > old(Failures(tx.store, configs))
              || (!MigrationCommitted(configs.contexts, candidates, backendName)
                  && (!MigrationUntouched(configs.contexts, candidates) || !old(tx.MayCompensate(v, configs.contexts, false))))
    ensures MigrationCommitted(configs.contexts, candidates, backendName) ==> tx.store.cells == old(tx.store.cells)
    ensures forall slot :: !Touches(tx.writes, slot) ==> SameCell(tx.store.cells, old(tx.store.cells), slot)
    ensures result == progress || result == progress.AfterSuccessfulCompensation() || result == progress.AfterIncompleteCompensation()
    ensures result == progress ==>
              && status == NotSafe && MigrationCommitted(configs.contexts, candidates, backendName)
              && tx.store.cells == old(tx.store.cells)
    ensures result == progress.AfterSuccessfulCompensation() ==>
              && status == Succeeded && MigrationUntouched(configs.contexts, candidates)
              && !MigrationCommitted(configs.contexts, candidates, backendName)
              && (forall i :: 0 <= i < |tx.writes| ==> HoldsPrior(tx.store.cells, tx.writes[i]))
    ensures result == progress.AfterIncompleteCompensation() ==> status == NotSafe || status == Incomplete
  {
    hide MigrationCommitted, MigrationUntouched, OwnersUnchanged;
    result, status := progress, NoCompensation;
    var entered := configs.Call();
    if !entered {
      return progress.AfterIncompleteCompensation(), NotSafe;
    }
    var committed, untouched := MigrationState(configs.contexts, candidates, backendName);
    if committed {
      status := NotSafe;
    } else if !untouched {
      result, status := progress.AfterIncompleteCompensation(), NotSafe;
    } else {
      status := tx.CompensateLocked(v, configs.contexts, false);
      match status {
        case Succeeded => result := progress.AfterSuccessfulCompensation();
        case Incomplete => result := progress.AfterIncompleteCompensation();
        case NotSafe => result := progress.AfterIncompleteCompensation();
        case NoCompensation =>
      }
    }
    var released := configs.Call();
    if !released && status == NoCompensation {
      result, status := progress.AfterIncompleteCompensation(), NotSafe;
    }
  }

  ghost predicate MigrationDone(o: Outcome, total: int) {
    o.succeeded == total && o.failed == 0 && o.uncertain == 0 && o.skipped == 0
  }

  /** The migrated configuration with all secrets. */
  ghost predicate AllMigrated(candidates: seq<MigrationCandidate>, backendName: string, contexts0: Config, contexts: Config,
                              cells0: map<Slot, string>, cells: map<Slot, string>, writes: seq<Write>, plan: seq<Planned>, quiet: bool)
  {
    && MigrationCommitted(contexts, candidates, backendName) && AllPut(writes) && |writes| == |plan|
    && (quiet ==> Written(cells0, cells, plan)
                  && (contexts == contexts0 || contexts == MigratedConfig(contexts0, candidates, backendName)))
  }

  /** The old configuration with its literals, and every attempted slot as it was. */
  ghost predicate NothingMigrated(candidates: seq<MigrationCandidate>, contexts0: Config, contexts: Config,
                                  cells0: map<Slot, string>, cells: map<Slot, string>, writes: seq<Write>, quiet: bool)
  {
    && MigrationUntouched(contexts, candidates)
    && RolledBack(cells0, cells, writes)
    && (quiet ==> contexts == contexts0 && SameCells(cells, cells0))
  }

  /** Every credential is accounted for, and what is reported is true of both stores. */
  ghost predicate MigrationHolds(o: Outcome, total: int, candidates: seq<MigrationCandidate>, backendName: string,
                                 contexts0: Config, contexts: Config, cells0: map<Slot, string>, cells: map<Slot, string>,
                                 writes: seq<Write>, plan: seq<Planned>, quiet: bool)
  {
    && o.succeeded + o.failed + o.skipped + o.uncertain == total
    && (o.succeeded == 0 || MigrationDone(o, total))
    && (MigrationDone(o, total) ==> AllMigrated(candidates, backendName, contexts0, contexts, cells0, cells, writes, plan, quiet))
    && (o.succeeded == 0 && o.uncertain == 0 ==> NothingMigrated(candidates, contexts0, contexts, cells0, cells, writes, quiet))
  }

  datatype MigrationApplied =
    | NotStarted
    | TakenBack(status: Compensation, progress: Progress)
    | StoreNotSaved(progress: Progress)
    | Migrated(progress: Progress)

  /** Outside Vault a truthful transaction may be undone while its slots have their owners. */
  lemma UndoableByOwner(v: Vault, contexts: Config, tx: Transaction, cells0: map<Slot, string>)
    requires Faithful(cells0, tx.store.cells, tx.writes) && OwnersUnchanged(v, contexts, tx.writes)
    ensures tx.MayCompensate(v, contexts, false)
  {
  }

  /** Undo the puts of an incomplete migration, and count all of them as what that came to. */
  method TakeBack(v: Vault, contexts: Config, tx: Transaction, progress: Progress, ghost cells0: map<Slot, string>)
    returns (result: MigrationApplied)
    requires Faithful(cells0, tx.store.cells, tx.writes)
    requires progress.failed == 1 && progress.uncertain == 0 && progress.succeeded == Certain(tx.writes)
    modifies tx.store
    ensures result.TakenBack? && result.progress.succeeded == 0
    ensures result.progress.failed + result.progress.uncertain == progress.succeeded + 1
    ensures if result.status == NotSafe || result.status == Incomplete then result.progress.failed == 0 else result.progress.uncertain == 0
    ensures if result.status == NotSafe || result.status == Incomplete
            then result.progress == progress.AfterIncompleteCompensation()
            else && result.progress == progress.AfterSuccessfulCompensation()
                 && (result.status == Succeeded || result.status == NoCompensation)
                 && SameCells(tx.store.cells, cells0)
    ensures tx.store.failures >= old(tx.store.failures)
    ensures result.status == NotSafe || result.status == Incomplete ==>
              tx.store.failures > old(tx.store.failures) || !OwnersUnchanged(v, contexts, tx.writes)
    ensures forall slot :: !Touches(tx.writes, slot) ==> SameCell(tx.store.cells, old(tx.store.cells), slot)
  {
    if OwnersUnchanged(v, contexts, tx.writes) {
      UndoableByOwner(v, contexts, tx, cells0);
    }
    assert DistinctSlots(tx.writes);
    hide Faithful, SameCells, DistinctSlots;
    ghost var cells1 := tx.store.cells;
    var status := tx.CompensateLocked(v, contexts, false);
    UndoingIsComplete(cells0, cells1, tx.store.cells, tx.writes, status);
    if status == NotSafe || status == Incomplete {
      return TakenBack(status, progress.AfterIncompleteCompensation());
    }
    return TakenBack(status, if status == Succeeded then progress.AfterSuccessfulCompensation() else progress);
  }

  /** The roles are checked once more before the configuration is saved. */
  method SaveMigrated(configs: ContextStore, migrated: Config, progress: Progress) returns (result: MigrationApplied)
    modifies configs`contexts, configs`failures
    ensures (result.Migrated? || result.StoreNotSaved?) && result.progress == progress
    ensures result.Migrated? ==> configs.contexts == migrated && configs.failures == old(configs.failures)
    ensures result.StoreNotSaved? ==>
              (configs.contexts == old(configs.contexts) || configs.contexts == migrated) && configs.failures > old(configs.failures)
  {
    var rolesValid := configs.Call();
    if !rolesValid {
      return StoreNotSaved(progress);
    }
    var saved := configs.Save(migrated);
    return if saved then Migrated(progress) else StoreNotSaved(progress);
  }

  /** The puts, undone again unless all of them succeed. */
  method StoreOrTakeBack(v: Vault, contexts: Config, tx: Transaction, planned: seq<Candidate>)
    returns (stored: bool, result: MigrationApplied, progress: Progress)
    requires tx.writes == [] && DistinctPlan(Plan(planned))
    modifies tx, tx.store
    ensures Elsewhere(old(tx.store.cells), tx.store.cells, Plan(planned)) && Follows(tx.writes, Plan(planned)) && DistinctSlots(tx.writes)
    ensures stored ==>
              && Faithful(old(tx.store.cells), tx.store.cells, tx.writes) && AllPut(tx.writes)
              && |tx.writes| == |Plan(planned)| && progress == Progress(|tx.writes|, 0, 0)
              && tx.store.failures == old(tx.store.failures)
    ensures !stored ==>
              && result.TakenBack? && result.progress.succeeded == 0 && tx.store.failures > old(tx.store.failures)
              && result.progress.failed + result.progress.uncertain >= |tx.writes|
    ensures !stored && (result.status == NotSafe || result.status == Incomplete) ==>
              && result.progress.failed == 0 && 0 < result.progress.uncertain <= |Plan(planned)|
              && (tx.store.failures >= old(tx.store.failures) + 2 || !OwnersUnchanged(v, contexts, tx.writes))
    ensures !stored && result.status != NotSafe && result.status != Incomplete ==>
              && result.progress.uncertain == 0 && 0 < result.progress.failed <= |Plan(planned)|
              && SameCells(tx.store.cells, old(tx.store.cells))
  {
    ghost var cells0 := tx.store.cells;
    result := NotStarted;
    stored, progress := StoreMigration(tx, planned);
    assert DistinctSlots(tx.writes);
    hide Plan, Follows, Faithful, SameCells, Certain, DistinctSlots, Elsewhere, OwnersUnchanged, AllPut, Touches, SameCell,
         Progress.AfterIncompleteCompensation, Progress.AfterSuccessfulCompensation;
    ghost var cells1 := tx.store.cells;
    if stored {
      StoredElsewhere(cells0, cells1, tx.writes, Plan(planned));
      return;
    }
    result := TakeBack(v, contexts, tx, progress, cells0);
    TouchesOnlyThePlan(cells0, cells1, tx.store.cells, tx.writes, Plan(planned));
  }

  lemma StoredElsewhere(before: map<Slot, string>, cells: map<Slot, string>, writes: seq<Write>, plan: seq<Planned>)
    requires Faithful(before, cells, writes) && Follows(writes, plan)
    ensures Elsewhere(before, cells, plan)
  {
    TouchesOnlyThePlan(before, cells, cells, writes, plan);
  }

  /** The puts, and then the new configuration. */
  method StoreAndSave(configs: ContextStore, v: Vault, tx: Transaction, planned: seq<Candidate>, migrated: Config)
    returns (result: MigrationApplied)
    requires tx.writes == [] && DistinctPlan(Plan(planned))
    modifies configs`contexts, configs`failures, tx, tx.store
    ensures Elsewhere(old(tx.store.cells), tx.store.cells, Plan(planned))
    ensures !result.Migrated? ==> Failures(tx.store, configs) > old(Failures(tx.store, configs))
    ensures result.Migrated? ==> Failures(tx.store, configs) == old(Failures(tx.store, configs))
    ensures result.TakenBack? && (result.status == NotSafe || result.status == Incomplete) ==>
              Failures(tx.store, configs) >= old(Failures(tx.store, configs)) + 2 || !OwnersUnchanged(v, old(configs.contexts), tx.writes)
    ensures result.TakenBack? ==> Follows(tx.writes, Plan(planned))
    ensures result.TakenBack? ==> result.progress.failed + result.progress.uncertain >= |tx.writes|
    ensures !result.NotStarted? && DistinctSlots(tx.writes)
    ensures result.StoreNotSaved? || result.Migrated? ==>
              && Faithful(old(tx.store.cells), tx.store.cells, tx.writes) && Follows(tx.writes, Plan(planned)) && AllPut(tx.writes)
              && |tx.writes| == |Plan(planned)| && result.progress == Progress(|tx.writes|, 0, 0)
    ensures result.Migrated? ==> configs.contexts == migrated
    ensures result.StoreNotSaved? ==> configs.contexts == old(configs.contexts) || configs.contexts == migrated
    ensures result.TakenBack? ==> configs.contexts == old(configs.contexts) && result.progress.succeeded == 0
    ensures result.TakenBack? && (result.status == NotSafe || result.status == Incomplete) ==>
              result.progress.failed == 0 && 0 < result.progress.uncertain <= |Plan(planned)|
    ensures result.TakenBack? && result.status != NotSafe && result.status != Incomplete ==>
              && result.progress.uncertain == 0 && 0 < result.progress.failed <= |Plan(planned)|
              && SameCells(tx.store.cells, old(tx.store.cells))
  {
    var stored, progress;
    stored, result, progress := StoreOrTakeBack(v, configs.contexts, tx, planned);
    hide Plan, Follows, Faithful, SameCells, DistinctSlots, Elsewhere, OwnersUnchanged, AllPut;
    if stored {
      result := SaveMigrated(configs, migrated, progress);
    }
  }

  /** What the checks establish: a plan without clashes, for the configuration that is to be stored. */
  lemma CheckedMigration(v: Vault, contexts: Config, candidates: seq<MigrationCandidate>, backendName: string)
    requires DistinctNames(candidates) && Exact(candidates) && MigrationUntouched(contexts, candidates) && backendName != VAULT
    requires Sound(v, MigratedConfig(contexts, candidates, backendName))
    ensures DistinctPlan(Plan(AsCandidates(candidates, backendName)))
    ensures Stored(v, contexts, Migrate(candidates, backendName)) == MigratedConfig(contexts, candidates, backendName)
  {
    MigrationPlanDistinct(v, contexts, candidates, backendName, |candidates|);
    hide Sound, MigratedConfig, Plan;
    assert AsCandidates(candidates, backendName)[..|candidates|] == AsCandidates(candidates, backendName);
  }

  /** The section under the configuration lock. */
  method MigrateLocked(v: Vault, configs: ContextStore, tx: Transaction, candidates: seq<MigrationCandidate>, backendName: string)
    returns (result: MigrationApplied)
    requires tx.writes == [] && DistinctNames(candidates) && Exact(candidates) && backendName != VAULT
    modifies configs, tx, tx.store
    ensures if result.NotStarted?
            then Failures(tx.store, configs) > old(Failures(tx.store, configs)) || !MigrationUntouched(old(configs.contexts), candidates)
                 || !Sound(v, MigratedConfig(old(configs.contexts), candidates, backendName))
            else Sound(v, MigratedConfig(old(configs.contexts), candidates, backendName))
                 && Elsewhere(old(tx.store.cells), tx.store.cells, Plan(AsCandidates(candidates, backendName)))
    ensures result.TakenBack? ==> result.progress.failed + result.progress.uncertain >= |tx.writes|
    ensures result.StoreNotSaved? || result.TakenBack? ==> Failures(tx.store, configs) > old(Failures(tx.store, configs))
    ensures result.Migrated? ==> Failures(tx.store, configs) == old(Failures(tx.store, configs))
    ensures result.TakenBack? && (result.status == NotSafe || result.status == Incomplete) ==>
              Failures(tx.store, configs) >= old(Failures(tx.store, configs)) + 2
    ensures result.NotStarted? ==> tx.writes == [] && configs.contexts == old(configs.contexts) && tx.store.cells == old(tx.store.cells)
    ensures !result.NotStarted? ==> MigrationUntouched(old(configs.contexts), candidates) && DistinctSlots(tx.writes)
    ensures result.StoreNotSaved? || result.Migrated? ==>
              && Faithful(old(tx.store.cells), tx.store.cells, tx.writes)
              && Follows(tx.writes, Plan(AsCandidates(candidates, backendName))) && AllPut(tx.writes)
              && |tx.writes| == |Plan(AsCandidates(candidates, backendName))|
              && result.progress == Progress(|tx.writes|, 0, 0)
    ensures result.Migrated? ==> configs.contexts == MigratedConfig(old(configs.contexts), candidates, backendName)
    ensures result.StoreNotSaved? ==>
              configs.contexts == old(configs.contexts) || configs.contexts == MigratedConfig(old(configs.contexts), candidates, backendName)
    ensures configs.foreign == old(configs.foreign)
    ensures CommandStep(v, old(configs.contexts), configs.contexts, Migrate(candidates, backendName))
    ensures result.TakenBack? ==>
              && configs.contexts == old(configs.contexts)
              && result.progress.succeeded == 0
              && (if result.status == NotSafe || result.status == Incomplete
                  then result.progress.failed == 0 && 0 < result.progress.uncertain <= |Plan(AsCandidates(candidates, backendName))|
                  else && result.progress.uncertain == 0
                       && 0 < result.progress.failed <= |Plan(AsCandidates(candidates, backendName))|
                       && SameCells(tx.store.cells, old(tx.store.cells)))
  {
    hide Plan, AsCandidates, Sound, MigratedConfig, DistinctNames, Follows, Stored, Faithful, SameCells, MigrationUntouched, Elsewhere,
         OwnersUnchanged, Exact, DistinctPlan, DistinctSlots, AllPut;
    var entered := configs.Call();
    if !entered {
      return NotStarted;
    }
    var samePolicy := configs.Call();
    if !samePolicy {
      return NotStarted;
    }
    var committed, untouched := MigrationState(configs.contexts, candidates, backendName);
    if !untouched {
      return NotStarted;
    }
    var keysOk := ValidateMigrationKeySet(v, configs.contexts, candidates, backendName);
    if !keysOk {
      return NotStarted;
    }
    var begun := configs.Call();
    if !begun {
      return NotStarted;
    }
    CheckedMigration(v, configs.contexts, candidates, backendName);
    ghost var contexts0 := configs.contexts;
    result := StoreAndSave(configs, v, tx, AsCandidates(candidates, backendName), MigratedConfig(configs.contexts, candidates, backendName));
    if result.TakenBack? {
      MigrationOwnsItsSlots(v, contexts0, candidates, backendName, tx.writes);
    }
  }

  lemma MigratedIsCommitted(contexts: Config, candidates: seq<MigrationCandidate>, backendName: string)
    requires DistinctNames(candidates)
    ensures MigrationCommitted(MigratedConfig(contexts, candidates, backendName), candidates, backendName)
  {
    forall i | 0 <= i < |candidates|
      ensures candidates[i].name in MigratedConfig(contexts, candidates, backendName)
      ensures MigratedConfig(contexts, candidates, backendName)[candidates[i].name] == MigratedItem(candidates[i], backendName)
    {
      MigratedLookup(contexts, candidates, backendName, i);
    }
  }

  /** The report of each way a migration can end, and that the replay validator accepts it. */
  lemma MigrationReport(total: int, p: Progress, status: Compensation, err: Option<OperationError>)
    requires WellFormedError(err) && total >= 1 && MigrationEnding(total, p, status, err)
    ensures var o := Normalize(MigrationOutcome(total, p, status, err), err);
            && AcceptsOutcome(o, total) && OwnOutcome(o, total)
            && o.succeeded == p.succeeded && o.failed == p.failed && o.uncertain == p.uncertain
            && o.skipped == total - p.succeeded - p.failed - p.uncertain
  {
    var source := Migration(p, status, err);
    assert CallerBound(source, total) && Normalize(MigrationOutcome(total, p, status, err), err) == OutcomeOf(source, total);
  }

  /** After a save that failed, with whatever other programs did meanwhile. */
  method SettleMigration(v: Vault, configs: ContextStore, tx: Transaction, candidates: seq<MigrationCandidate>, backendName: string,
                         ghost contexts0: Config, ghost cells0: map<Slot, string>)
    returns (progress: Progress, status: Compensation)
    requires Faithful(cells0, tx.store.cells, tx.writes) && Follows(tx.writes, Plan(AsCandidates(candidates, backendName))) && tx.writes != []
    requires MigrationUntouched(contexts0, candidates) && OwnersUnchanged(v, contexts0, tx.writes)
    requires configs.contexts == contexts0 || configs.contexts == MigratedConfig(contexts0, candidates, backendName)
    requires DistinctNames(candidates)
    modifies configs, tx.store
    ensures configs.foreign == old(configs.foreign) ==>
              && configs.contexts == old(configs.contexts)
              && Elsewhere(cells0, tx.store.cells, Plan(AsCandidates(candidates, backendName)))
              && (configs.contexts == contexts0 || tx.store.cells == old(tx.store.cells))
    ensures Failures(tx.store, configs) >= old(Failures(tx.store, configs))
    ensures progress == Progress(0, 0, |tx.writes|) && configs.foreign == old(configs.foreign) ==>
              Failures(tx.store, configs) > old(Failures(tx.store, configs))
    ensures progress == Progress(|tx.writes|, 0, 0) || progress == Progress(0, |tx.writes|, 0) || progress == Progress(0, 0, |tx.writes|)
    ensures progress == Progress(|tx.writes|, 0, 0) ==>
              && status == NotSafe && MigrationCommitted(configs.contexts, candidates, backendName)
              && (configs.foreign == old(configs.foreign) ==> tx.store.cells == old(tx.store.cells) && configs.contexts == old(configs.contexts))
    ensures progress == Progress(0, |tx.writes|, 0) ==>
              && status == Succeeded && MigrationUntouched(configs.contexts, candidates)
              && RolledBack(cells0, tx.store.cells, tx.writes)
              && (configs.foreign == old(configs.foreign) ==> configs.contexts == contexts0 && SameCells(tx.store.cells, cells0))
    ensures progress == Progress(0, 0, |tx.writes|) ==> status == NotSafe || status == Incomplete
  {
    hide Faithful, Follows, Elsewhere, MigrationCommitted, MigrationUntouched, SameCells, RolledBack, OwnersUnchanged, MigratedConfig,
         DistinctNames, Plan, AsCandidates;
    ghost var cells1 := tx.store.cells;
    MigratedIsCommitted(contexts0, candidates, backendName);
    TruthfulIsDistinct(cells0, cells1, tx.writes);
    OtherWriters(tx.store, configs);
    if configs.foreign == old(configs.foreign) {
      UndoableByOwner(v, contexts0, tx, cells0);
    }
    hide DistinctSlots;
    progress, status := ReconcileMigration(v, configs, tx, Progress(|tx.writes|, 0, 0), candidates, backendName);
    if progress == Progress(0, |tx.writes|, 0) {
      RestoredIsRolledBack(cells0, cells1, tx.store.cells, tx.writes);
    }
    if configs.foreign == old(configs.foreign) {
      TouchesOnlyThePlan(cells0, cells1, tx.store.cells, tx.writes, Plan(AsCandidates(candidates, backendName)));
      if progress == Progress(0, |tx.writes|, 0) {
        UndoingIsComplete(cells0, cells1, tx.store.cells, tx.writes, Succeeded);
      }
    }
  }

  /** The locked section and what follows a failure of it: how the migration ends, and what that end means. */
  method MigrateAndSettle(v: Vault, configs: ContextStore, tx: Transaction, candidates: seq<MigrationCandidate>, backendName: string, total: nat)
    returns (started: bool, failed: bool, progress: Progress, status: Compensation)
    requires tx.writes == [] && DistinctNames(candidates) && Exact(candidates) && backendName != VAULT
    requires total == |Plan(AsCandidates(candidates, backendName))| && total > 0
    modifies configs, tx, tx.store
    ensures !started ==> failed && configs.contexts == old(configs.contexts) && tx.store.cells == old(tx.store.cells)
    ensures started && !failed ==> progress == Progress(total, 0, 0) && status == NoCompensation
    ensures started && failed ==> forall err: Option<OperationError> :: err.Some? ==> MigrationEnding(total, progress, status, err)
    ensures !failed ==> configs.foreign == old(configs.foreign) && Failures(tx.store, configs) == old(Failures(tx.store, configs))
    ensures started ==> progress.succeeded + progress.failed + progress.uncertain >= |tx.writes|
    ensures started && progress == Progress(total, 0, 0) ==>
              AllMigrated(candidates, backendName, old(configs.contexts), configs.contexts, old(tx.store.cells), tx.store.cells,
                          tx.writes, Plan(AsCandidates(candidates, backendName)), configs.foreign == old(configs.foreign))
    ensures started && progress.succeeded == 0 && progress.uncertain == 0 ==>
              NothingMigrated(candidates, old(configs.contexts), configs.contexts, old(tx.store.cells), tx.store.cells,
                              tx.writes, configs.foreign == old(configs.foreign))
    ensures failed ==>
              || Failures(tx.store, configs) > old(Failures(tx.store, configs)) || !MigrationUntouched(old(configs.contexts), candidates)
              || !Sound(v, MigratedConfig(old(configs.contexts), candidates, backendName))
    ensures configs.foreign == old(configs.foreign) ==>
              && CommandStep(v, old(configs.contexts), configs.contexts, Migrate(candidates, backendName))
              && MeaningKept(v, old(configs.contexts), old(tx.store.cells), configs.contexts, tx.store.cells)
              && (started && progress.uncertain > 0 ==> Failures(tx.store, configs) >= old(Failures(tx.store, configs)) + 2)
  {
    hide Faithful, Follows, Written, Plan, AsCandidates, SameCells, RolledBack, MigrationUntouched, MigrationCommitted, AllPut,
         DistinctSlots, DistinctNames, MigratedConfig, Stored, Sound, Exact, MeaningKept, Elsewhere, OwnersUnchanged;
    ghost var cells0, contexts0 := tx.store.cells, configs.contexts;
    ghost var planned := AsCandidates(candidates, backendName);
    SameMeaning(v, contexts0, cells0);
    var applied := MigrateLocked(v, configs, tx, candidates, backendName);
    started, failed, status, progress := !applied.NotStarted?, !applied.Migrated?, NoCompensation, Progress(0, 0, 0);
    if applied.NotStarted? {
      return;
    }
    progress := applied.progress;
    if applied.TakenBack? {
      status := applied.status;
      OldMeaningKept(v, contexts0, candidates, backendName, cells0, tx.store.cells);
      if status == Succeeded || status == NoCompensation {
        TakenBackHolds(cells0, tx.store.cells, tx.writes);
      }
    } else {
      AllPutsWrite(cells0, tx.store.cells, tx.writes, Plan(planned));
      MigratedIsCommitted(contexts0, candidates, backendName);
      NewMeaningKept(v, contexts0, candidates, backendName, cells0, tx.store.cells);
      if applied.StoreNotSaved? {
        MigrationOwnsItsSlots(v, contexts0, candidates, backendName, tx.writes);
        progress, status := SettleMigration(v, configs, tx, candidates, backendName, contexts0, cells0);
        if configs.foreign == old(configs.foreign) && configs.contexts == contexts0 {
          OldMeaningKept(v, contexts0, candidates, backendName, cells0, tx.store.cells);
        }
      }
    }
  }

  /** What a context with a literal becomes: a reference in the place of each literal, and the new back end. */
  ghost predicate MovedItem(before: Item, after: Item, backendName: string) {
    && before == after.(password := before.password, schemaPassword := before.schemaPassword, credentialBackend := before.credentialBackend)
    && after.credentialBackend == backendName
    && after.password == (if IsLiteral(before.password) then Ref(backendName) else before.password)
    && after.schemaPassword == (if IsLiteral(before.schemaPassword) then Ref(backendName) else before.schemaPassword)
  }

  ghost predicate HeldIn(cells: map<Slot, string>, backendName: string, key: string, value: string) {
    var slot := Slot(backendName, key, "", "", "");
    slot in cells && cells[slot] == value
  }

  /** Every literal of the named contexts is in the store under the key of its context, with a reference to it in the file. */
  ghost predicate LiteralsMoved(loaded: Config, names: seq<string>, backendName: string, contexts: Config, cells: map<Slot, string>) {
    forall n :: n in names && n in loaded && HasLiteral(loaded[n]) ==>
      && n in contexts && MovedItem(loaded[n], contexts[n], backendName)
      && (IsLiteral(loaded[n].password) ==> HeldIn(cells, backendName, n, loaded[n].password.value))
      && (IsLiteral(loaded[n].schemaPassword) ==> HeldIn(cells, backendName, n + "/schema-registry", loaded[n].schemaPassword.value))
  }

  /** All other contexts are as they were. */
  ghost predicate OthersStay(loaded: Config, names: seq<string>, contexts0: Config, contexts: Config) {
    forall n :: !(n in names && n in loaded && HasLiteral(loaded[n])) ==>
      (n in contexts <==> n in contexts0) && (n in contexts ==> contexts[n] == contexts0[n])
  }

  lemma DoneMovesLiterals(loaded: Config, names: seq<string>, backendName: string, contexts0: Config, contexts: Config,
                          cells0: map<Slot, string>, cells: map<Slot, string>)
    requires forall n :: n in names ==> n in loaded
    requires forall i, j :: 0 <= i < j < |names| ==> names[i] != names[j]
    requires MigrationCommitted(contexts, Discover(loaded, names), backendName)
    requires Written(cells0, cells, Plan(AsCandidates(Discover(loaded, names), backendName)))
    ensures LiteralsMoved(loaded, names, backendName, contexts, cells)
  {
    DiscoveredAreDistinct(loaded, names);
    var candidates := Discover(loaded, names);
    hide Discover, Plan, IsLiteral;
    forall n | n in names && n in loaded && HasLiteral(loaded[n])
      ensures n in contexts && MovedItem(loaded[n], contexts[n], backendName)
      ensures IsLiteral(loaded[n].password) ==> HeldIn(cells, backendName, n, loaded[n].password.value)
      ensures IsLiteral(loaded[n].schemaPassword) ==> HeldIn(cells, backendName, n + "/schema-registry", loaded[n].schemaPassword.value)
    {
      var k :| 0 <= k < |candidates| && candidates[k] == CandidateOf(n, loaded[n]);
      CandidateMoves(candidates, k, loaded[n], backendName, contexts, cells0, cells);
    }
  }

  lemma CandidateMoves(candidates: seq<MigrationCandidate>, k: nat, item: Item, backendName: string, contexts: Config,
                       cells0: map<Slot, string>, cells: map<Slot, string>)
    requires k < |candidates| && candidates[k] == CandidateOf(candidates[k].name, item)
    requires MigrationCommitted(contexts, candidates, backendName)
    requires Written(cells0, cells, Plan(AsCandidates(candidates, backendName)))
    ensures var n := candidates[k].name;
            && n in contexts && MovedItem(item, contexts[n], backendName)
            && (IsLiteral(item.password) ==> HeldIn(cells, backendName, n, item.password.value))
            && (IsLiteral(item.schemaPassword) ==> HeldIn(cells, backendName, n + "/schema-registry", item.schemaPassword.value))
  {
    hide Plan;
    var planned := AsCandidates(candidates, backendName);
    assert planned[k] in planned;
    if IsLiteral(item.password) {
      PlanHas(planned, planned[k], Primary);
    }
    if IsLiteral(item.schemaPassword) {
      PlanHas(planned, planned[k], SchemaRegistry);
    }
  }

  lemma DoneKeepsOthers(loaded: Config, names: seq<string>, backendName: string, contexts0: Config, contexts: Config)
    requires forall n :: n in names ==> n in loaded
    requires forall i, j :: 0 <= i < j < |names| ==> names[i] != names[j]
    requires contexts == contexts0 || contexts == MigratedConfig(contexts0, Discover(loaded, names), backendName)
    ensures OthersStay(loaded, names, contexts0, contexts)
  {
    DiscoveredAreDistinct(loaded, names);
    var candidates := Discover(loaded, names);
    hide Discover, MigratedConfig, IsLiteral;
    forall n | !(n in names && n in loaded && HasLiteral(loaded[n]))
      ensures (n in contexts <==> n in contexts0) && (n in contexts ==> contexts[n] == contexts0[n])
    {
      MigratedElsewhere(contexts0, candidates, backendName, n);
    }
  }

  lemma AllMigratedMoves(loaded: Config, names: seq<string>, backendName: string, contexts0: Config, contexts: Config,
                         cells0: map<Slot, string>, cells: map<Slot, string>, writes: seq<Write>)
    requires forall n :: n in names ==> n in loaded
    requires forall i, j :: 0 <= i < j < |names| ==> names[i] != names[j]
    requires AllMigrated(Discover(loaded, names), backendName, contexts0, contexts, cells0, cells, writes,
                         Plan(AsCandidates(Discover(loaded, names), backendName)), true)
    ensures LiteralsMoved(loaded, names, backendName, contexts, cells) && OthersStay(loaded, names, contexts0, contexts)
  {
    hide Discover, Plan, MigrationCommitted, Written, LiteralsMoved, OthersStay;
    DoneMovesLiterals(loaded, names, backendName, contexts0, contexts, cells0, cells);
    DoneKeepsOthers(loaded, names, backendName, contexts0, contexts);
  }

  /** A discovered context that is not as it was loaded is one with a literal that changed meanwhile. */
  lemma ChangedSince(loaded: Config, names: seq<string>, contexts: Config)
    requires forall n :: n in names ==> n in loaded
    requires forall i, j :: 0 <= i < j < |names| ==> names[i] != names[j]
    requires !MigrationUntouched(contexts, Discover(loaded, names))
    ensures exists n :: n in names && HasLiteral(loaded[n]) && !(n in contexts && contexts[n] == loaded[n])
  {
    DiscoveredAreDistinct(loaded, names);
    var candidates := Discover(loaded, names);
    hide Discover, HasLiteral;
    var i :| 0 <= i < |candidates| && !(candidates[i].name in contexts && contexts[candidates[i].name] == candidates[i].context);
    assert candidates[i] in candidates;
  }

  lemma SameMeaning(v: Vault, contexts: Config, cells: map<Slot, string>)
    ensures MeaningKept(v, contexts, cells, contexts, cells)
  {
  }

  /**
   Migration of the credentials found in the contexts `names` of a configuration loaded earlier. The report of
   a begun migration is accepted by the replay validator, accounts for every credential, and is true of both
   stores. Unless other programs interfere, every context finds the secrets that it found before, however the
   migration ends, and one failed call never leaves the end uncertain.
   */
  method ApplyMigration(v: Vault, configs: ContextStore, tx: Transaction, loaded: Config, names: seq<string>, backendName: string, cause: OperationError)
    returns (report: Option<Outcome>, failed: bool)
    requires forall n :: n in names ==> n in loaded
    requires forall i, j :: 0 <= i < j < |names| ==> names[i] != names[j]
    requires backendName != VAULT && tx.writes == [] && WellFormedError(Some(cause))
    modifies configs, tx, tx.store
    ensures var candidates := Discover(loaded, names);
            var plan := Plan(AsCandidates(candidates, backendName));
            && (report.Some? ==>
                  && MigrationHolds(report.value, |plan|, candidates, backendName, old(configs.contexts), configs.contexts,
                                    old(tx.store.cells), tx.store.cells, tx.writes, plan,
                                    configs.foreign == old(configs.foreign))
                  && AcceptsOutcome(report.value, |plan|) && OwnOutcome(report.value, |plan|)
                  && report.value.succeeded + report.value.failed + report.value.uncertain >= |tx.writes|
                  && (!failed ==> MigrationDone(report.value, |plan|) && configs.foreign == old(configs.foreign)))
            && (configs.foreign == old(configs.foreign) ==>
                  && CommandStep(v, old(configs.contexts), configs.contexts, Migrate(candidates, backendName))
                  && (Sound(v, old(configs.contexts)) ==> Sound(v, configs.contexts))
                  && MeaningKept(v, old(configs.contexts), old(tx.store.cells), configs.contexts, tx.store.cells)
                  && (report.Some? && report.value.uncertain > 0 ==> Failures(tx.store, configs) >= old(Failures(tx.store, configs)) + 2))
            && (!failed ==> Failures(tx.store, configs) == old(Failures(tx.store, configs)))
            && (report.None? ==> configs.contexts == old(configs.contexts) && tx.store.cells == old(tx.store.cells))
            && (failed ==>
                  || Failures(tx.store, configs) > old(Failures(tx.store, configs))
                  || (exists n :: n in names && HasLiteral(loaded[n]) && !(n in old(configs.contexts) && old(configs.contexts)[n] == loaded[n]))
                  || !Sound(v, MigratedConfig(old(configs.contexts), candidates, backendName)))
            && (report.Some? && MigrationDone(report.value, |plan|) && configs.foreign == old(configs.foreign) ==>
                  && LiteralsMoved(loaded, names, backendName, configs.contexts, tx.store.cells)
                  && OthersStay(loaded, names, old(configs.contexts), configs.contexts))
    ensures report.None? && !failed <==> forall n :: n in names ==> !HasLiteral(loaded[n])
  {
    hide Normalize, MigrationOutcome, AcceptsOutcome, OwnOutcome, Plan, AsCandidates, AllMigrated, NothingMigrated, MigrationUntouched,
         DistinctNames, MigratedConfig, Discover, Stored, Sound, Exact, MeaningKept, WellFormedError,
         HasLiteral, LiteralsMoved, OthersStay;
    DiscoveredAreDistinct(loaded, names);
    SameMeaning(v, configs.contexts, tx.store.cells);
    var candidates := Discover(loaded, names);
    if candidates == [] {
      return None, false;
    }
    assert candidates[0] in candidates && HasLiteral(loaded[candidates[0].name]);
    ghost var contexts0 := configs.contexts;
    ghost var cells0 := tx.store.cells;
    var total := CredentialCount(candidates, backendName);
    var started, progress, status;
    started, failed, progress, status := MigrateAndSettle(v, configs, tx, candidates, backendName, total);
    if Sound(v, contexts0) {
      CommandKeepsSound(v, contexts0, Migrate(candidates, backendName));
    }
    if !MigrationUntouched(contexts0, candidates) {
      ChangedSince(loaded, names, contexts0);
    }
    if !started {
      return None, true;
    }
    if progress == Progress(total, 0, 0) && configs.foreign == old(configs.foreign) {
      AllMigratedMoves(loaded, names, backendName, contexts0, configs.contexts, cells0, tx.store.cells, tx.writes);
    }
    var err := if failed then Some(cause) else None;
    MigrationReport(total, progress, status, err);
    return Some(Normalize(MigrationOutcome(total, progress, status, err), err)), failed;
  }

  lemma TakenBackHolds(cells0: map<Slot, string>, cells: map<Slot, string>, writes: seq<Write>)
    requires SameCells(cells, cells0)
    ensures RolledBack(cells0, cells, writes)
  {
  }

  lemma NoPlan(candidates: seq<Candidate>)
    requires candidates == []
    ensures Plan(candidates) == []
  {
  }

  lemma PlanOfLength(c: Candidate)
    ensures |PlanOf(c)| == (if c.password != "" then 1 else 0) + (if c.schemaPassword != "" then 1 else 0)
  {
  }

  lemma CountOneMore(candidates: seq<MigrationCandidate>, backendName: string, k: nat)
    requires k < |candidates|
    ensures |AsCandidates(candidates, backendName)| == |candidates|
    ensures |Plan(AsCandidates(candidates, backendName)[..k + 1])| == |Plan(AsCandidates(candidates, backendName)[..k])|
              + (if candidates[k].password != "" then 1 else 0) + (if candidates[k].schemaPassword != "" then 1 else 0)
  {
    hide Plan, PlanOf, KeyOf, OwnerOf, StoreSlot;
    PlanPrefix(AsCandidates(candidates, backendName), k);
    PlanOfLength(AsCandidates(candidates, backendName)[k]);
  }

  lemma CountAll(candidates: seq<MigrationCandidate>, backendName: string)
    ensures |AsCandidates(candidates, backendName)| == |candidates|
    ensures |Plan(AsCandidates(candidates, backendName)[..0])| == 0
    ensures AsCandidates(candidates, backendName)[..|candidates|] == AsCandidates(candidates, backendName)
  {
    hide AsCandidate;
    NoPlan(AsCandidates(candidates, backendName)[..0]);
  }

  /** The number of credentials to move is the length of the plan, and not zero for discovered candidates. */
  method CredentialCount(candidates: seq<MigrationCandidate>, backendName: string) returns (count: nat)
    ensures count == |Plan(AsCandidates(candidates, backendName))|
    ensures candidates != [] && (forall c :: c in candidates ==> HasWrites(c)) ==> count > 0
  {
    hide Plan, AsCandidates;
    count := 0;
    CountAll(candidates, backendName);
    for k := 0 to |candidates|
      invariant count == |Plan(AsCandidates(candidates, backendName)[..k])|
      invariant k > 0 && HasWrites(candidates[0]) ==> count > 0
    {
      CountOneMore(candidates, backendName, k);
      if candidates[k].password != "" {
        count := count + 1;
      }
      if candidates[k].schemaPassword != "" {
        count := count + 1;
      }
    }
    assert candidates != [] ==> candidates[0] in candidates;
  }
}
