/**
 Context set and import as one transaction over two stores: write the credentials, commit the
 configuration, and on failure find out which of the two happened and undo the credentials or
 report what is uncertain.
 */
module CredentialSaga {
  import opened Common
  import opened OutcomeRecords
  import opened CredentialSlots
  import opened CredentialTransactions

  datatype Candidate = Candidate(name: string, password: string, schemaPassword: string, primarySlot: Slot, schemaSlot: Slot)

  function PlanOf(c: Candidate): seq<Planned> {
    (if c.password != "" then [Planned(c.primarySlot, OwnerOf(Reference(c.name, Primary)), c.password)] else [])
    + (if c.schemaPassword != "" then [Planned(c.schemaSlot, OwnerOf(Reference(c.name, SchemaRegistry)), c.schemaPassword)] else [])
  }

  function ValueOf(c: Candidate, kind: CredentialKind): string {
    match kind
    case Primary => c.password
    case SchemaRegistry => c.schemaPassword
  }

  function PlannedSlot(c: Candidate, kind: CredentialKind): Slot {
    match kind
    case Primary => c.primarySlot
    case SchemaRegistry => c.schemaSlot
  }

  function Plan(candidates: seq<Candidate>): seq<Planned> {
    if candidates == [] then [] else Plan(candidates[..|candidates| - 1]) + PlanOf(Last(candidates))
  }

  lemma {:induction false} PlanPrefix(candidates: seq<Candidate>, k: nat)
    requires k <= |candidates|
    ensures Plan(candidates[..k]) <= Plan(candidates)
    ensures k < |candidates| ==> Plan(candidates[..k + 1]) == Plan(candidates[..k]) + PlanOf(candidates[k])
    decreases |candidates| - k
  {
    if k < |candidates| {
      assert candidates[..k + 1][..k] == candidates[..k];
      PlanPrefix(candidates, k + 1);
    } else {
      assert candidates[..k] == candidates;
    }
  }

  /** The writes of a candidate stand in the plan from this place on. */
  ghost predicate PartOf(plan: seq<Planned>, n: nat, c: Candidate) {
    n + |PlanOf(c)| <= |plan| && plan[n..n + |PlanOf(c)|] == PlanOf(c)
  }

  lemma NextPart(candidates: seq<Candidate>, k: nat)
    requires k < |candidates|
    ensures PartOf(Plan(candidates), |Plan(candidates[..k])|, candidates[k])
    ensures |Plan(candidates[..k + 1])| == |Plan(candidates[..k])| + |PlanOf(candidates[k])|
  {
    hide PlanOf;
    PlanPrefix(candidates, k);
    PlanPrefix(candidates, k + 1);
  }

  lemma PartWrites(plan: seq<Planned>, n: nat, c: Candidate)
    requires PartOf(plan, n, c)
    ensures n + |PlanOf(c)| <= |plan|
    ensures |PlanOf(c)| == (if c.password != "" then 1 else 0) + (if c.schemaPassword != "" then 1 else 0)
    ensures c.password != "" ==> plan[n] == Planned(c.primarySlot, OwnerOf(Reference(c.name, Primary)), c.password)
    ensures c.schemaPassword != "" ==>
              plan[n + |PlanOf(c)| - 1] == Planned(c.schemaSlot, OwnerOf(Reference(c.name, SchemaRegistry)), c.schemaPassword)
  {
    var part := PlanOf(c);
    assert forall i :: 0 <= i < |part| ==> plan[n + i] == part[i];
  }

  /** Every credential of every candidate is in the plan. */
  lemma PlanHas(candidates: seq<Candidate>, c: Candidate, kind: CredentialKind)
    requires c in candidates && ValueOf(c, kind) != ""
    ensures Planned(PlannedSlot(c, kind), OwnerOf(Reference(c.name, kind)), ValueOf(c, kind)) in Plan(candidates)
  {
    var k :| 0 <= k < |candidates| && candidates[k] == c;
    NextPart(candidates, k);
    PartWrites(Plan(candidates), |Plan(candidates[..k])|, c);
  }

  /** And nothing else is. */
  lemma {:induction false} PlanComes(candidates: seq<Candidate>, p: Planned)
    requires p in Plan(candidates)
    ensures exists c, kind :: c in candidates && ValueOf(c, kind) != "" && p.slot == PlannedSlot(c, kind)
  {
    var front := candidates[..|candidates| - 1];
    assert candidates == front + [Last(candidates)];
    if p in Plan(front) {
      PlanComes(front, p);
      var c, kind :| c in front && ValueOf(c, kind) != "" && p.slot == PlannedSlot(c, kind);
      assert c in candidates;
    } else {
      var c := Last(candidates);
      assert p in PlanOf(c) && c in candidates;
      assert ValueOf(c, Primary) == c.password && ValueOf(c, SchemaRegistry) == c.schemaPassword;
      assert p.slot == PlannedSlot(c, if c.password != "" && p == PlanOf(c)[0] then Primary else SchemaRegistry);
    }
  }

  predicate InPlan(plan: seq<Planned>, slot: Slot) {
    exists i :: 0 <= i < |plan| && plan[i].slot == slot
  }

  lemma ExtendPlan(plan: seq<Planned>, p: Planned)
    requires DistinctPlan(plan)
    ensures DistinctPlan(plan + [p]) <==> !InPlan(plan, p.slot)
    ensures forall slot :: InPlan(plan + [p], slot) <==> InPlan(plan, slot) || slot == p.slot
  {
    assert (plan + [p])[|plan|] == p;
    forall slot | InPlan(plan, slot) ensures InPlan(plan + [p], slot) {
      var i :| 0 <= i < |plan| && plan[i].slot == slot;
      assert (plan + [p])[i].slot == slot;
    }
    if InPlan(plan, p.slot) {
      var i :| 0 <= i < |plan| && plan[i].slot == p.slot;
      assert (plan + [p])[i].slot == (plan + [p])[|plan|].slot;
    }
  }

  /** The slots of one candidate join those already planned, unless one is taken. */
  method AddSlots(planned: set<Slot>, c: Candidate, ghost earlier: seq<Planned>) returns (joined: Option<set<Slot>>)
    requires DistinctPlan(earlier) && forall slot :: slot in planned <==> InPlan(earlier, slot)
    ensures joined.Some? <==> DistinctPlan(earlier + PlanOf(c))
    ensures joined.Some? ==> forall slot :: slot in joined.value <==> InPlan(earlier + PlanOf(c), slot)
  {
    var slots: set<Slot> := planned;
    ghost var plan := earlier;
    if c.password != "" {
      ghost var p := Planned(c.primarySlot, OwnerOf(Reference(c.name, Primary)), c.password);
      ExtendPlan(plan, p);
      plan := plan + [p];
      assert plan <= earlier + PlanOf(c);
      if c.primarySlot in slots {
        return None;
      }
      slots := slots + {c.primarySlot};
    }
    if c.schemaPassword != "" {
      ghost var p := Planned(c.schemaSlot, OwnerOf(Reference(c.name, SchemaRegistry)), c.schemaPassword);
      ExtendPlan(plan, p);
      plan := plan + [p];
      assert plan == earlier + PlanOf(c);
      if c.schemaSlot in slots {
        return None;
      }
      slots := slots + {c.schemaSlot};
    }
    assert plan == earlier + PlanOf(c);
    return Some(slots);
  }

  lemma NoClash(candidates: seq<Candidate>)
    requires candidates == []
    ensures DistinctPlan(Plan(candidates))
  {
  }

  lemma ClashStays(plan: seq<Planned>, whole: seq<Planned>)
    requires plan <= whole && !DistinctPlan(plan)
    ensures !DistinctPlan(whole)
  {
    var i, j :| 0 <= i < j < |plan| && plan[i].slot == plan[j].slot;
    assert whole[i] == plan[i] && whole[j] == plan[j];
  }

  /** The check before anything is written: it passes exactly when every back end that is needed is available and no two planned writes share a slot. */
  method ValidateCandidates(candidates: seq<Candidate>, available: Candidate -> bool) returns (ok: bool)
    ensures ok <==>
              && DistinctPlan(Plan(candidates))
              && forall c :: c in candidates && PlanOf(c) != [] ==> available(c)
  {
    var planned: set<Slot> := {};
    assert forall slot :: !InPlan(Plan(candidates[..0]), slot);
    hide DistinctPlan, InPlan, Plan, PlanOf;
    NoClash(candidates[..0]);
    for k := 0 to |candidates|
      invariant DistinctPlan(Plan(candidates[..k]))
      invariant forall slot :: slot in planned <==> InPlan(Plan(candidates[..k]), slot)
      invariant forall i :: 0 <= i < k && PlanOf(candidates[i]) != [] ==> available(candidates[i])
    {
      PlanPrefix(candidates, k);
      PlanPrefix(candidates, k + 1);
      if PlanOf(candidates[k]) != [] && !available(candidates[k]) {
        return false;
      }
      var joined := AddSlots(planned, candidates[k], Plan(candidates[..k]));
      if joined.None? {
        ClashStays(Plan(candidates[..k + 1]), Plan(candidates));
        return false;
      }
      planned := joined.value;
    }
    assert candidates[..|candidates|] == candidates;
    return true;
  }

  // ---- Configurations ---------------------------------------------------------

  function DefaultSource(source: string): string {
    if source == "" then "auto" else source
  }

  function NoneIfEmpty<T>(list: Option<seq<T>>): Option<seq<T>> {
    if list == Some([]) then None else list
  }

  /** Two contexts are the same if they differ only in what a save and a load do not preserve. */
  function NormalizeItem(item: Item): Item {
    item.(otlpEndpointSource := DefaultSource(item.otlpEndpointSource),
          otlpMetricsSource := DefaultSource(item.otlpMetricsSource),
          roles := if item.roles.Some? && |item.roles.value| == 0 then None else item.roles,
          lists := seq(|item.lists|, i requires 0 <= i < |item.lists| => NoneIfEmpty(item.lists[i])))
  }

  predicate ItemsEqual(a: Item, b: Item) {
    NormalizeItem(a) == NormalizeItem(b)
  }

  /** Sources are the same up to the default, maps and lists up to whether an empty one is written. */
  lemma ItemsEqualIff(a: Item, b: Item)
    ensures ItemsEqual(a, b) <==>
              && a.password == b.password && a.schemaPassword == b.schemaPassword
              && a.credentialBackend == b.credentialBackend && a.settings == b.settings
              && a.vaultAddr == b.vaultAddr && a.vaultNamespace == b.vaultNamespace && a.vaultPath == b.vaultPath
              && SameSource(a.otlpEndpointSource, b.otlpEndpointSource) && SameSource(a.otlpMetricsSource, b.otlpMetricsSource)
              && (a.roles == b.roles || (a.roles in {None, Some(map[])} && b.roles in {None, Some(map[])}))
              && |a.lists| == |b.lists|
              && forall i :: 0 <= i < |a.lists| ==>
                   a.lists[i] == b.lists[i] || (a.lists[i] in {None, Some([])} && b.lists[i] in {None, Some([])})
  {
    var x, y := NormalizeItem(a), NormalizeItem(b);
    forall i | 0 <= i < |a.lists| && |a.lists| == |b.lists|
      ensures x.lists[i] == y.lists[i] <==>
                a.lists[i] == b.lists[i] || (a.lists[i] in {None, Some([])} && b.lists[i] in {None, Some([])})
    {
    }
    assert |x.lists| == |a.lists| && |y.lists| == |b.lists|;
    assert x.lists == y.lists <==> |a.lists| == |b.lists| && forall i :: 0 <= i < |a.lists| ==> x.lists[i] == y.lists[i];
  }

  ghost predicate SameSource(a: string, b: string) {
    a == b || (a in {"", "auto"} && b in {"", "auto"})
  }

  type Targets = map<string, Option<Item>>

  function CaptureTargets(contexts: Config, expected: Config): Targets {
    map name | name in expected :: if name in contexts then Some(contexts[name]) else None
  }

  predicate Committed(contexts: Config, expected: Config) {
    forall name :: name in expected ==> name in contexts && ItemsEqual(contexts[name], expected[name])
  }

  predicate Unchanged(contexts: Config, original: Targets) {
    forall name :: name in original ==>
      && (name in contexts <==> original[name].Some?)
      && (name in contexts ==> ItemsEqual(contexts[name], original[name].value))
  }

  method ConfigState(contexts: Config, original: Targets, expected: Config) returns (committed: bool, untouched: bool)
    requires original.Keys == expected.Keys
    ensures committed <==> Committed(contexts, expected)
    ensures untouched <==> Unchanged(contexts, original)
  {
    committed, untouched := true, true;
    var rest := expected.Keys;
    while rest != {}
      invariant rest <= expected.Keys
      invariant committed <==> forall name :: name in expected && name !in rest ==>
                  name in contexts && ItemsEqual(contexts[name], expected[name])
      invariant untouched <==> forall name :: name in original && name !in rest ==>
                  && (name in contexts <==> original[name].Some?)
                  && (name in contexts ==> ItemsEqual(contexts[name], original[name].value))
      decreases rest
    {
      var name :| name in rest;
      var present := name in contexts;
      committed := committed && present && ItemsEqual(contexts[name], expected[name]);
      var before := original[name];
      untouched := untouched && present == before.Some? && (!present || ItemsEqual(contexts[name], before.value));
      rest := rest - {name};
    }
  }

  /** The stored configuration; a save that fails may have replaced the file all the same. */
  class ContextStore {
    var contexts: Config
    ghost var failures: nat // how many steps of an update were refused; only Call and Save add to it
    ghost var foreign: nat  // how often other programs wrote to this or the credential store; only OtherWriters adds to it

    constructor (contexts: Config)
      ensures this.contexts == contexts
    {
      this.contexts := contexts;
      foreign, failures := 0, 0;
    }

    /** One step of an update that is decided elsewhere: the lock, the policy, the audit, the roles. */
    method Call() returns (ok: bool)
      modifies `failures
      ensures ok ==> failures == old(failures)
      ensures !ok ==> failures == old(failures) + 1
    {
      ok := *;
      failures := if ok then failures else failures + 1;
    }

    method Save(next: Config) returns (ok: bool)
      modifies `contexts, `failures
      ensures contexts == next || (!ok && contexts == old(contexts))
      ensures ok ==> failures == old(failures)
      ensures !ok ==> failures == old(failures) + 1
    {
      ok := Call();
      var replaced: bool := *;
      if ok || replaced {
        contexts := next;
      }
    }
  }

  /** Between two lock sections other programs may change anything; that they did is counted. */
  method OtherWriters(store: SecretStore, configs: ContextStore)
    modifies store`cells, configs`contexts, configs`foreign
    ensures configs.foreign == old(configs.foreign) ==> store.cells == old(store.cells) && configs.contexts == old(configs.contexts)
    ensures configs.foreign >= old(configs.foreign)
  {
    var interfered: bool := *;
    if interfered {
      store.cells := *;
      configs.contexts := *;
      configs.foreign := configs.foreign + 1;
    }
  }

  // ---- The transaction ----------------------------------------------------------

  /** How many calls to the two stores have failed. */
  ghost function Failures(store: SecretStore, configs: ContextStore): nat
    reads store, configs
  {
    store.failures + configs.failures
  }

  /** Nothing but planned slots has changed. */
  ghost predicate Elsewhere(before: map<Slot, string>, cells: map<Slot, string>, plan: seq<Planned>) {
    forall slot :: !InPlan(plan, slot) ==> SameCell(cells, before, slot)
  }

  /** Every planned credential is in its slot and nothing else has changed. */
  ghost predicate Written(before: map<Slot, string>, cells: map<Slot, string>, plan: seq<Planned>) {
    && (forall i :: 0 <= i < |plan| ==> plan[i].slot in cells && cells[plan[i].slot] == plan[i].value)
    && Elsewhere(before, cells, plan)
  }

  /** Whatever was undone of a transaction, only planned slots have changed. */
  lemma TouchesOnlyThePlan(before: map<Slot, string>, written: map<Slot, string>, cells: map<Slot, string>, writes: seq<Write>, plan: seq<Planned>)
    requires Faithful(before, written, writes) && Follows(writes, plan)
    requires forall slot :: !Touches(writes, slot) ==> SameCell(cells, written, slot)
    ensures Elsewhere(before, cells, plan)
  {
    forall slot | !InPlan(plan, slot) ensures SameCell(cells, before, slot) {
      assert forall i :: 0 <= i < |writes| ==> plan[i].slot == writes[i].slot;
      assert !Touches(writes, slot);
    }
  }

  /** The transaction cannot be undone safely: one of its slots belongs to another reference, or is in Vault. */
  ghost predicate Entangled(v: Vault, contexts: Config, writes: seq<Write>) {
    !OwnersUnchanged(v, contexts, writes) || exists i :: 0 <= i < |writes| && writes[i].slot.backendName == VAULT
  }

  // ---- What the commands of a context find afterwards ------------------------

  /** Every planned slot is that of its own reference in the contexts to be stored. */
  ghost predicate Linked(v: Vault, expected: Config, candidates: seq<Candidate>) {
    forall c, kind :: c in candidates && ValueOf(c, kind) != "" ==>
      && Refers(expected, Reference(c.name, kind))
      && SlotOf(v, expected, Reference(c.name, kind)) == Some(PlannedSlot(c, kind))
  }

  /** The context of every candidate finds the secret that was given for it. */
  ghost predicate SecretsResolve(v: Vault, contexts: Config, cells: map<Slot, string>, candidates: seq<Candidate>) {
    forall c, kind :: c in candidates && ValueOf(c, kind) != "" ==>
      Resolve(v, contexts, cells, Reference(c.name, kind)) == Some(ValueOf(c, kind))
  }

  /** Every other context finds what it found before. */
  ghost predicate OthersKept(v: Vault, contexts0: Config, cells0: map<Slot, string>, contexts: Config, cells: map<Slot, string>, expected: Config) {
    forall r: Reference :: r.name !in expected ==> Resolve(v, contexts, cells, r) == Resolve(v, contexts0, cells0, r)
  }

  lemma StoredSecretsResolve(v: Vault, expected: Config, contexts: Config, cells0: map<Slot, string>, cells: map<Slot, string>, candidates: seq<Candidate>)
    requires Linked(v, expected, candidates) && Committed(contexts, expected) && Written(cells0, cells, Plan(candidates))
    ensures SecretsResolve(v, contexts, cells, candidates)
  {
    forall c, kind | c in candidates && ValueOf(c, kind) != ""
      ensures Resolve(v, contexts, cells, Reference(c.name, kind)) == Some(ValueOf(c, kind))
    {
      var r := Reference(c.name, kind);
      PlanHas(candidates, c, kind);
      SameSecrets(v, contexts, expected, r);
    }
  }

  /** A committed context has the secrets and the slots that were expected. */
  lemma SameSecrets(v: Vault, contexts: Config, expected: Config, r: Reference)
    requires Committed(contexts, expected) && r.name in expected
    ensures r.name in contexts && SecretOf(contexts[r.name], r.kind) == SecretOf(expected[r.name], r.kind)
    ensures Refers(expected, r) ==> Refers(contexts, r) && SlotOf(v, contexts, r) == SlotOf(v, expected, r)
  {
    var a, b := NormalizeItem(contexts[r.name]), NormalizeItem(expected[r.name]);
    assert a.password == b.password && a.schemaPassword == b.schemaPassword;
    assert a.vaultAddr == b.vaultAddr && a.vaultNamespace == b.vaultNamespace && a.vaultPath == b.vaultPath;
  }

  lemma PlanOwner(v: Vault, contexts: Config, expected: Config, candidates: seq<Candidate>, slot: Slot)
    requires Linked(v, expected, candidates) && InPlan(Plan(candidates), slot)
    ensures exists s: Reference ::
              s.name in expected && Refers(contexts + expected, s) && SlotOf(v, contexts + expected, s) == Some(slot)
  {
    var i :| 0 <= i < |Plan(candidates)| && Plan(candidates)[i].slot == slot;
    PlanComes(candidates, Plan(candidates)[i]);
    var c, kind :| c in candidates && ValueOf(c, kind) != "" && slot == PlannedSlot(c, kind);
    var s := Reference(c.name, kind);
    assert Refers(contexts + expected, s) && SlotOf(v, contexts + expected, s) == SlotOf(v, expected, s);
  }

  /** No reference of another context leads to a planned slot, because the key-set check saw both. */
  lemma PlanIsOwn(v: Vault, contexts: Config, expected: Config, candidates: seq<Candidate>, r: Reference)
    requires Linked(v, expected, candidates) && Sound(v, contexts + expected)
    requires r.name !in expected && Refers(contexts, r)
    ensures SlotOf(v, contexts, r).Some? && !InPlan(Plan(candidates), SlotOf(v, contexts, r).value)
  {
    var merged := contexts + expected;
    assert Refers(merged, r) && SlotOf(v, merged, r) == SlotOf(v, contexts, r);
    if InPlan(Plan(candidates), SlotOf(v, merged, r).value) {
      PlanOwner(v, contexts, expected, candidates, SlotOf(v, merged, r).value);
    }
  }

  lemma OthersKeepTheirSecrets(v: Vault, contexts0: Config, cells0: map<Slot, string>, contexts: Config, cells: map<Slot, string>,
                               expected: Config, candidates: seq<Candidate>)
    requires Linked(v, expected, candidates) && Sound(v, contexts0 + expected)
    requires contexts == contexts0 || contexts == contexts0 + expected
    requires Elsewhere(cells0, cells, Plan(candidates))
    ensures OthersKept(v, contexts0, cells0, contexts, cells, expected)
  {
    hide Linked, Sound, Plan, InPlan;
    forall r: Reference | r.name !in expected ensures Resolve(v, contexts, cells, r) == Resolve(v, contexts0, cells0, r) {
      if Refers(contexts0, r) {
        PlanIsOwn(v, contexts0, expected, candidates, r);
        assert SlotOf(v, contexts, r) == SlotOf(v, contexts0, r);
        assert SameCell(cells, cells0, SlotOf(v, contexts0, r).value);
      }
    }
  }

  lemma NothingMoves(v: Vault, contexts: Config, cells: map<Slot, string>, expected: Config)
    ensures OthersKept(v, contexts, cells, contexts, cells, expected)
  {
  }

  // ---- The writes ---------------------------------------------------------------

  lemma AllPutsWrite(before: map<Slot, string>, cells: map<Slot, string>, writes: seq<Write>, plan: seq<Planned>)
    requires Faithful(before, cells, writes) && Follows(writes, plan) && |writes| == |plan|
    requires AllPut(writes)
    ensures Written(before, cells, plan)
  {
    forall i | 0 <= i < |plan| ensures plan[i].slot in cells && cells[plan[i].slot] == plan[i].value {
      assert NeedOf(cells, writes[i]) != Refuse;
    }
    forall slot | !InPlan(plan, slot) ensures SameCell(cells, before, slot) {
      assert forall i :: 0 <= i < |writes| ==> plan[i].slot == writes[i].slot;
      assert !Touches(writes, slot);
    }
  }

  /** Everything attempted so far took effect for certain. */
  predicate AllPut(writes: seq<Write>) {
    forall i :: 0 <= i < |writes| ==> writes[i].putSucceeded
  }

  /** How many writes certainly took effect. */
  function Certain(writes: seq<Write>): nat {
    if writes == [] then 0 else Certain(writes[..|writes| - 1]) + if Last(writes).putSucceeded then 1 else 0
  }

  lemma {:induction false} AllPutIsCertain(writes: seq<Write>)
    requires AllPut(writes)
    ensures Certain(writes) == |writes|
  {
    if writes != [] {
      AllPutIsCertain(writes[..|writes| - 1]);
    }
  }

  /** A put that failed after all earlier ones succeeded is the one write that is not certain. */
  lemma OneUncertain(earlier: seq<Write>, writes: seq<Write>)
    requires AllPut(earlier) && earlier <= writes && |writes| <= |earlier| + 1
    requires |writes| > |earlier| ==> !writes[|earlier|].putSucceeded
    ensures Certain(writes) == |earlier|
  {
    AllPutIsCertain(earlier);
    if |writes| > |earlier| {
      assert writes[..|writes| - 1] == earlier;
    } else {
      assert writes == earlier;
    }
  }

  lemma OneUncertainOrAll(earlier: seq<Write>, writes: seq<Write>, ok: bool)
    requires AllPut(earlier) && earlier <= writes && |writes| <= |earlier| + 1
    requires if ok then AllPut(writes) else |writes| > |earlier| ==> !writes[|earlier|].putSucceeded
    ensures Certain(writes) == if ok then |writes| else |earlier|
  {
    if ok {
      AllPutIsCertain(writes);
    } else {
      OneUncertain(earlier, writes);
    }
  }

  /** The next write of the plan. */
  method PutNext(tx: Transaction, p: Planned, ghost before: map<Slot, string>, ghost plan: seq<Planned>) returns (ok: bool)
    requires Faithful(before, tx.store.cells, tx.writes) && Follows(tx.writes, plan) && DistinctPlan(plan) && AllPut(tx.writes)
    requires |tx.writes| < |plan| && p == plan[|tx.writes|]
    modifies tx, tx.store
    ensures Faithful(before, tx.store.cells, tx.writes) && Follows(tx.writes, plan)
    ensures ok ==> AllPut(tx.writes) && |tx.writes| == Certain(tx.writes) == |old(tx.writes)| + 1
    ensures !ok ==> Certain(tx.writes) == |old(tx.writes)| <= |tx.writes|
    ensures |tx.writes| <= Certain(tx.writes) + 1
    ensures ok ==> tx.store.failures == old(tx.store.failures)
    ensures !ok ==> tx.store.failures == old(tx.store.failures) + 1
  {
    hide Faithful, Follows, DistinctPlan, Certain;
    ghost var earlier := tx.writes;
    ok := tx.Put(p, before, plan);
    OneUncertainOrAll(earlier, tx.writes, ok);
  }

  /** The one or two writes of a candidate, as the next part of the plan; `puts` of them succeeded. */
  method StoreCandidate(tx: Transaction, c: Candidate, ghost before: map<Slot, string>, ghost plan: seq<Planned>)
    returns (ok: bool, puts: nat)
    requires Faithful(before, tx.store.cells, tx.writes) && Follows(tx.writes, plan) && DistinctPlan(plan) && AllPut(tx.writes)
    requires PartOf(plan, |tx.writes|, c)
    modifies tx, tx.store
    ensures Faithful(before, tx.store.cells, tx.writes) && Follows(tx.writes, plan)
    ensures ok ==> AllPut(tx.writes) && |tx.writes| == |old(tx.writes)| + |PlanOf(c)|
    ensures if ok then puts == |PlanOf(c)| else puts < |PlanOf(c)|
    ensures Certain(tx.writes) == |old(tx.writes)| + puts
    ensures |tx.writes| <= Certain(tx.writes) + 1
    ensures ok ==> tx.store.failures == old(tx.store.failures)
    ensures !ok ==> tx.store.failures == old(tx.store.failures) + 1
  {
    puts := 0;
    AllPutIsCertain(tx.writes);
    PartWrites(plan, |tx.writes|, c);
    hide Faithful, Follows, DistinctPlan, Certain, AllPut, PlanOf, PartOf, OwnerOf;
    if c.password != "" {
      var put := PutNext(tx, Planned(c.primarySlot, OwnerOf(Reference(c.name, Primary)), c.password), before, plan);
      if !put {
        return false, puts;
      }
      puts := puts + 1;
    }
    if c.schemaPassword != "" {
      var put := PutNext(tx, Planned(c.schemaSlot, OwnerOf(Reference(c.name, SchemaRegistry)), c.schemaPassword), before, plan);
      if !put {
        return false, puts;
      }
      puts := puts + 1;
    }
    return true, puts;
  }

  lemma NothingStored(cells: map<Slot, string>, plan: seq<Planned>)
    ensures Faithful(cells, cells, []) && Follows([], plan)
  {
  }

  method StoreCredentials(tx: Transaction, candidates: seq<Candidate>) returns (ok: bool)
    requires tx.writes == [] && DistinctPlan(Plan(candidates))
    modifies tx, tx.store
    ensures Faithful(old(tx.store.cells), tx.store.cells, tx.writes) && Follows(tx.writes, Plan(candidates))
    ensures ok ==> AllPut(tx.writes) && |tx.writes| == |Plan(candidates)|
    ensures ok ==> tx.store.failures == old(tx.store.failures)
    ensures !ok ==> tx.store.failures == old(tx.store.failures) + 1
  {
    ghost var before, plan := tx.store.cells, Plan(candidates);
    NothingStored(before, plan);
    hide Faithful, Follows, DistinctPlan, PlanOf, PartOf, Certain;
    for k := 0 to |candidates|
      invariant Faithful(before, tx.store.cells, tx.writes) && Follows(tx.writes, plan)
      invariant AllPut(tx.writes) && |tx.writes| == |Plan(candidates[..k])| && tx.store.failures == old(tx.store.failures)
    {
      NextPart(candidates, k);
      var stored, puts := StoreCandidate(tx, candidates[k], before, plan);
      if !stored {
        return false;
      }
    }
    assert candidates[..|candidates|] == candidates;
    return true;
  }

  ghost predicate SameCells(a: map<Slot, string>, b: map<Slot, string>) {
    forall slot :: SameCell(a, b, slot)
  }

  /** Every attempted slot holds what it held at first. */
  ghost predicate RolledBack(before: map<Slot, string>, cells: map<Slot, string>, writes: seq<Write>) {
    forall i :: 0 <= i < |writes| ==> SameCell(cells, before, writes[i].slot)
  }

  /**
   After a failed update: decide from the stored configuration whether it was committed, undo the
   credentials if it was not, and say so if neither can be established.
   */
  method Reconcile(v: Vault, configs: ContextStore, tx: Transaction, original: Targets, expected: Config)
    returns (status: Compensation, uncertain: bool, ok: bool)
    requires original.Keys == expected.Keys && DistinctSlots(tx.writes)
    modifies tx.store, configs`failures
    ensures Failures(tx.store, configs) >= old(Failures(tx.store, configs))
    ensures uncertain ==>
              || Failures(tx.store, configs) > old(Failures(tx.store, configs))
              || (!Committed(configs.contexts, expected)
                  && (!Unchanged(configs.contexts, original) || !old(tx.MayCompensate(v, configs.contexts, true))))
    ensures ok ==> Failures(tx.store, configs) == old(Failures(tx.store, configs)) && !uncertain
    ensures !uncertain && status != Succeeded ==> ok
    ensures Committed(configs.contexts, expected) ==> tx.store.cells == old(tx.store.cells)
    ensures forall slot :: !Touches(tx.writes, slot) ==> SameCell(tx.store.cells, old(tx.store.cells), slot)
    ensures uncertain ==> status != Succeeded && status != NoCompensation
    ensures !uncertain && status == NotSafe ==> Committed(configs.contexts, expected) && tx.store.cells == old(tx.store.cells)
    ensures !uncertain ==> status != Incomplete
    ensures !uncertain && status != NotSafe ==>
              && Unchanged(configs.contexts, original) && !Committed(configs.contexts, expected)
              && (forall i :: 0 <= i < |tx.writes| ==> HoldsPrior(tx.store.cells, tx.writes[i]))
  {
    hide Committed, Unchanged, OwnersUnchanged;
    status := NoCompensation;
    var entered := configs.Call();
    if !entered {
      return NotSafe, true, false;
    }
    var committed, untouched := ConfigState(configs.contexts, original, expected);
    var failed := false;
    if committed {
      status := NotSafe;
    } else if !untouched {
      status, failed := NotSafe, true;
    } else if tx.writes != [] {
      status := tx.CompensateLocked(v, configs.contexts, true);
      failed := status == NotSafe || status == Incomplete;
    }
    var released := configs.Call();
    if failed || !released {
      status := if status == NoCompensation then NotSafe else status;
      return status, status != Succeeded, false;
    }
    if committed {
      return NotSafe, false, true;
    }
    return if tx.writes == [] then NoCompensation else status, false, true;
  }

  /** The three things a report can say. */
  predicate ReportsDone(o: Outcome, total: int) {
    o.succeeded == total && o.failed == 0 && o.uncertain == 0
  }

  predicate ReportsUndone(o: Outcome, total: int) {
    o.succeeded == 0 && o.failed == 1 && o.uncertain == 0
  }

  predicate ReportsUncertain(o: Outcome, total: int) {
    o.succeeded == 0 && o.failed == 0 && o.uncertain == total
  }

  /** The new configuration with all secrets. `quiet` stands for no other program having written in between. */
  ghost predicate AllDone(expected: Config, contexts0: Config, contexts: Config,
                          cells0: map<Slot, string>, cells: map<Slot, string>, writes: seq<Write>, plan: seq<Planned>, quiet: bool)
  {
    && Committed(contexts, expected) && AllPut(writes) && |writes| == |plan|
    && (quiet ==> Written(cells0, cells, plan) && (contexts == contexts0 || contexts == contexts0 + expected))
  }

  /** The old configuration with all secrets at their prior values. */
  ghost predicate AllUndone(expected: Config, contexts0: Config, contexts: Config,
                            cells0: map<Slot, string>, cells: map<Slot, string>, writes: seq<Write>, quiet: bool)
  {
    && Unchanged(contexts, CaptureTargets(contexts0, expected))
    && RolledBack(cells0, cells, writes)
    && (quiet ==> contexts == contexts0 && SameCells(cells, cells0))
  }

  /** What a report means: done, undone, or anything. */
  ghost predicate ReportHolds(o: Outcome, total: int, expected: Config, contexts0: Config, contexts: Config,
                              cells0: map<Slot, string>, cells: map<Slot, string>, writes: seq<Write>, plan: seq<Planned>, quiet: bool)
  {
    && (ReportsDone(o, total) || ReportsUndone(o, total) || ReportsUncertain(o, total))
    && (ReportsDone(o, total) ==> AllDone(expected, contexts0, contexts, cells0, cells, writes, plan, quiet))
    && (ReportsUndone(o, total) ==> AllUndone(expected, contexts0, contexts, cells0, cells, writes, quiet))
  }

  /** The section under the configuration lock: what the update's own callback and its save come to. */
  datatype Applied =
    | NotBegun
    | Undone(status: Compensation, uncertain: bool)
    | SaveFailed
    | Saved

  method ApplyLocked(v: Vault, configs: ContextStore, tx: Transaction, candidates: seq<Candidate>, expected: Config)
    returns (result: Applied)
    requires tx.writes == [] && DistinctPlan(Plan(candidates))
    modifies configs, tx, tx.store
    ensures DistinctSlots(tx.writes) && (!result.Undone? ==> Faithful(old(tx.store.cells), tx.store.cells, tx.writes))
    ensures result.NotBegun? ==> tx.writes == [] && configs.contexts == old(configs.contexts) && tx.store.cells == old(tx.store.cells)
    ensures result.Saved? || result.SaveFailed? ==>
              Follows(tx.writes, Plan(candidates)) && AllPut(tx.writes) && |tx.writes| == |Plan(candidates)|
    ensures result.Saved? ==> configs.contexts == old(configs.contexts) + expected
    ensures result.SaveFailed? ==>
              configs.contexts == old(configs.contexts) || configs.contexts == old(configs.contexts) + expected
    ensures configs.foreign == old(configs.foreign)
    ensures CommandStep(v, old(configs.contexts), configs.contexts, Put(expected))
    ensures result.Undone? ==>
              && configs.contexts == old(configs.contexts)
              && (result.uncertain ==> result.status == NotSafe || result.status == Incomplete)
              && (!result.uncertain ==> result.status == Succeeded || result.status == NoCompensation)
              && (!result.uncertain ==> SameCells(tx.store.cells, old(tx.store.cells)))
    ensures if result.NotBegun? then Failures(tx.store, configs) > old(Failures(tx.store, configs)) || !Sound(v, old(configs.contexts) + expected)
            else Sound(v, old(configs.contexts) + expected) && Elsewhere(old(tx.store.cells), tx.store.cells, Plan(candidates))
    ensures result.SaveFailed? || result.Undone? ==> Failures(tx.store, configs) > old(Failures(tx.store, configs))
    ensures result.Saved? ==> Failures(tx.store, configs) == old(Failures(tx.store, configs))
    ensures result.Undone? && result.uncertain ==>
              Failures(tx.store, configs) >= old(Failures(tx.store, configs)) + 2 || Entangled(v, old(configs.contexts), tx.writes)
  {
    var entered := configs.Call();
    if !entered {
      return NotBegun;
    }
    var samePolicy := configs.Call();
    if !samePolicy {
      return NotBegun;
    }
    var keysOk := ValidateKeySet(v, configs.contexts, expected);
    if !keysOk {
      return NotBegun;
    }
    var begun := configs.Call();
    if !begun {
      return NotBegun;
    }
    hide Sound, Plan, DistinctPlan;
    result := StoreAndCommit(v, configs, tx, candidates, expected);
  }

  /** The writes and then the save, in an update whose checks have passed. */
  method StoreAndCommit(v: Vault, configs: ContextStore, tx: Transaction, candidates: seq<Candidate>, expected: Config)
    returns (result: Applied)
    requires tx.writes == [] && DistinctPlan(Plan(candidates))
    modifies configs`contexts, configs`failures, tx, tx.store
    ensures !result.NotBegun?
    ensures DistinctSlots(tx.writes) && (!result.Undone? ==> Faithful(old(tx.store.cells), tx.store.cells, tx.writes))
    ensures result.Saved? || result.SaveFailed? ==>
              Follows(tx.writes, Plan(candidates)) && AllPut(tx.writes) && |tx.writes| == |Plan(candidates)|
    ensures result.Saved? ==> configs.contexts == old(configs.contexts) + expected
    ensures result.SaveFailed? ==>
              configs.contexts == old(configs.contexts) || configs.contexts == old(configs.contexts) + expected
    ensures result.Undone? ==>
              && configs.contexts == old(configs.contexts)
              && (result.uncertain ==> result.status == NotSafe || result.status == Incomplete)
              && (!result.uncertain ==> result.status == Succeeded || result.status == NoCompensation)
              && (!result.uncertain ==> SameCells(tx.store.cells, old(tx.store.cells)))
    ensures Elsewhere(old(tx.store.cells), tx.store.cells, Plan(candidates))
    ensures result.SaveFailed? || result.Undone? ==> Failures(tx.store, configs) > old(Failures(tx.store, configs))
    ensures result.Saved? ==> Failures(tx.store, configs) == old(Failures(tx.store, configs))
    ensures result.Undone? && result.uncertain ==>
              Failures(tx.store, configs) >= old(Failures(tx.store, configs)) + 2 || Entangled(v, old(configs.contexts), tx.writes)
  {
    ghost var cells0 := tx.store.cells;
    var stored := StoreCredentials(tx, candidates);
    if !stored {
      ghost var cells1 := tx.store.cells;
      var status := tx.CompensateLocked(v, configs.contexts, true);
      UndoingIsComplete(cells0, cells1, tx.store.cells, tx.writes, status);
      TouchesOnlyThePlan(cells0, cells1, tx.store.cells, tx.writes, Plan(candidates));
      return Undone(status, status == NotSafe || status == Incomplete);
    }
    TouchesOnlyThePlan(cells0, tx.store.cells, tx.store.cells, tx.writes, Plan(candidates));
    var rolesValid := configs.Call();
    if !rolesValid {
      return SaveFailed;
    }
    var saved := configs.Save(configs.contexts + expected);
    return if saved then Saved else SaveFailed;
  }

  lemma UndoingIsComplete(cells0: map<Slot, string>, cells1: map<Slot, string>, cells: map<Slot, string>, writes: seq<Write>, status: Compensation)
    requires Faithful(cells0, cells1, writes)
    requires status == NoCompensation ==> writes == [] && cells == cells1
    requires forall slot :: !Touches(writes, slot) ==> SameCell(cells, cells1, slot)
    requires status == Succeeded ==> forall i :: 0 <= i < |writes| ==> HoldsPrior(cells, writes[i])
    ensures status == NoCompensation || status == Succeeded ==> SameCells(cells, cells0)
  {
    if status == NoCompensation || status == Succeeded {
      forall slot ensures SameCell(cells, cells0, slot) {
        if Touches(writes, slot) {
          var i :| 0 <= i < |writes| && writes[i].slot == slot;
          assert HoldsPrior(cells0, writes[i]) && HoldsPrior(cells, writes[i]);
        } else {
          assert SameCell(cells1, cells0, slot);
        }
      }
    }
  }

  lemma SavedIsCommitted(contexts: Config, expected: Config)
    ensures Committed(contexts + expected, expected)
  {
  }

  lemma NothingChanged(contexts: Config, expected: Config, cells0: map<Slot, string>)
    ensures Unchanged(contexts, CaptureTargets(contexts, expected))
    ensures forall cells, writes :: SameCells(cells, cells0) ==> RolledBack(cells0, cells, writes)
  {
  }

  /** Which report follows from how the operation ended. */
  lemma ReportOf(total: int, status: Compensation, uncertain: bool, err: Option<OperationError>)
    requires total >= 1 && WellFormedError(err)
    requires err.None? ==> status == NoCompensation && !uncertain
    requires err.Some? && uncertain ==> status == NotSafe || status == Incomplete
    requires err.Some? && !uncertain ==> status != Incomplete
    ensures var o := Normalize(ImportOutcome(total, status, uncertain, err), err);
            && AcceptsOutcome(o, total) && OwnOutcome(o, total)
            && (err.None? || (!uncertain && status == NotSafe) ==> ReportsDone(o, total))
            && (err.Some? && !uncertain && status != NotSafe ==> ReportsUndone(o, total))
            && (err.Some? && uncertain ==> ReportsUncertain(o, total))
  {
    var source := Import(status, uncertain, err);
    assert CallerBound(source, total) && Normalize(ImportOutcome(total, status, uncertain, err), err) == OutcomeOf(source, total);
  }

  /** A truthful transaction may be undone unless it is entangled. */
  lemma UndoableUnlessEntangled(v: Vault, contexts: Config, tx: Transaction, cells0: map<Slot, string>)
    requires Faithful(cells0, tx.store.cells, tx.writes) && !Entangled(v, contexts, tx.writes)
    ensures tx.MayCompensate(v, contexts, true)
  {
  }

  /** After a save that failed, with whatever other programs did meanwhile. */
  method Settle(v: Vault, configs: ContextStore, tx: Transaction, expected: Config, ghost plan: seq<Planned>,
                ghost contexts0: Config, original: Targets, ghost cells0: map<Slot, string>)
    returns (status: Compensation, uncertain: bool)
    requires Faithful(cells0, tx.store.cells, tx.writes) && Follows(tx.writes, plan) && Written(cells0, tx.store.cells, plan)
    requires configs.contexts == contexts0 || configs.contexts == contexts0 + expected
    requires original == CaptureTargets(contexts0, expected)
    modifies configs, tx.store
    ensures configs.foreign == old(configs.foreign) ==>
              configs.contexts == old(configs.contexts) && Elsewhere(cells0, tx.store.cells, plan)
    ensures Failures(tx.store, configs) >= old(Failures(tx.store, configs))
    ensures uncertain && configs.foreign == old(configs.foreign) ==>
              Failures(tx.store, configs) > old(Failures(tx.store, configs)) || Entangled(v, contexts0, tx.writes)
    ensures uncertain ==> status == NotSafe || status == Incomplete
    ensures !uncertain ==> status != Incomplete
    ensures !uncertain && status == NotSafe ==>
              && Committed(configs.contexts, expected)
              && (configs.foreign == old(configs.foreign) ==> Written(cells0, tx.store.cells, plan) && (configs.contexts == contexts0 || configs.contexts == contexts0 + expected))
    ensures !uncertain && status != NotSafe ==>
              && Unchanged(configs.contexts, original) && RolledBack(cells0, tx.store.cells, tx.writes)
              && (configs.foreign == old(configs.foreign) ==> configs.contexts == contexts0 && SameCells(tx.store.cells, cells0))
  {
    hide Faithful, Follows, Written, Elsewhere, Committed, Unchanged, RolledBack, SameCells, Entangled, OwnersUnchanged;
    ghost var cells1 := tx.store.cells;
    SavedIsCommitted(contexts0, expected);
    NothingChanged(contexts0, expected, cells1);
    OtherWriters(tx.store, configs);
    if configs.foreign == old(configs.foreign) && !Entangled(v, contexts0, tx.writes) {
      UndoableUnlessEntangled(v, contexts0, tx, cells0);
    }
    assert DistinctSlots(tx.writes) by { TruthfulIsDistinct(cells0, cells1, tx.writes); }
    hide DistinctSlots;
    var ok;
    status, uncertain, ok := Reconcile(v, configs, tx, original, expected);
    if !uncertain && status != NotSafe {
      RestoredIsRolledBack(cells0, cells1, tx.store.cells, tx.writes);
    }
    if configs.foreign == old(configs.foreign) {
      TouchesOnlyThePlan(cells0, cells1, tx.store.cells, tx.writes, plan);
      if !uncertain && status != NotSafe {
        UndoingIsComplete(cells0, cells1, tx.store.cells, tx.writes, Succeeded);
      }
    }
  }

  lemma TruthfulIsDistinct(before: map<Slot, string>, cells: map<Slot, string>, writes: seq<Write>)
    requires Faithful(before, cells, writes)
    ensures DistinctSlots(writes)
  {
  }

  lemma RestoredIsRolledBack(before: map<Slot, string>, written: map<Slot, string>, cells: map<Slot, string>, writes: seq<Write>)
    requires Faithful(before, written, writes) && forall i :: 0 <= i < |writes| ==> HoldsPrior(cells, writes[i])
    ensures RolledBack(before, cells, writes)
  {
    forall i | 0 <= i < |writes| ensures SameCell(cells, before, writes[i].slot) {
      assert HoldsPrior(before, writes[i]) && HoldsPrior(cells, writes[i]);
    }
  }

  /** The locked section and what follows a failure of it: how the operation ends, and what that end means. */
  method ApplyAndSettle(v: Vault, configs: ContextStore, tx: Transaction, candidates: seq<Candidate>, expected: Config)
    returns (begun: bool, failed: bool, status: Compensation, uncertain: bool)
    requires tx.writes == [] && DistinctPlan(Plan(candidates))
    modifies configs, tx, tx.store
    ensures !begun ==> failed && configs.contexts == old(configs.contexts) && tx.store.cells == old(tx.store.cells)
    ensures if !failed then status == NoCompensation && !uncertain
            else if uncertain then status == NotSafe || status == Incomplete
            else status != Incomplete
    ensures !failed ==> configs.foreign == old(configs.foreign) && configs.contexts == old(configs.contexts) + expected
    ensures configs.foreign == old(configs.foreign) ==> CommandStep(v, old(configs.contexts), configs.contexts, Put(expected))
    ensures begun ==>
              && Sound(v, old(configs.contexts) + expected)
              && (configs.foreign == old(configs.foreign) ==> Elsewhere(old(tx.store.cells), tx.store.cells, Plan(candidates)))
    ensures failed ==> Failures(tx.store, configs) > old(Failures(tx.store, configs)) || !Sound(v, old(configs.contexts) + expected)
    ensures !failed ==> Failures(tx.store, configs) == old(Failures(tx.store, configs))
    ensures uncertain && configs.foreign == old(configs.foreign) ==>
              Failures(tx.store, configs) >= old(Failures(tx.store, configs)) + 2 || Entangled(v, old(configs.contexts), tx.writes)
    ensures begun && (!failed || (!uncertain && status == NotSafe)) ==>
              AllDone(expected, old(configs.contexts), configs.contexts, old(tx.store.cells), tx.store.cells, tx.writes,
                      Plan(candidates), configs.foreign == old(configs.foreign))
    ensures begun && (!failed || (!uncertain && status == NotSafe)) && configs.foreign == old(configs.foreign) ==>
              Committed(configs.contexts, expected) && Written(old(tx.store.cells), tx.store.cells, Plan(candidates))
    ensures begun && failed && !uncertain && status != NotSafe ==>
              AllUndone(expected, old(configs.contexts), configs.contexts, old(tx.store.cells), tx.store.cells, tx.writes,
                        configs.foreign == old(configs.foreign))
  {
    hide Faithful, Follows, Written, Plan, DistinctPlan, SameCells, RolledBack, Committed, Unchanged, AllPut, DistinctSlots,
         CaptureTargets, Stored, Sound, Elsewhere, Entangled;
    ghost var cells0, contexts0 := tx.store.cells, configs.contexts;
    var original := CaptureTargets(configs.contexts, expected);
    var applied := ApplyLocked(v, configs, tx, candidates, expected);
    begun, failed, status, uncertain := !applied.NotBegun?, !applied.Saved?, NoCompensation, false;
    if applied.Undone? {
      status, uncertain := applied.status, applied.uncertain;
      if !uncertain {
        NothingChanged(contexts0, expected, cells0);
      }
    } else if !applied.NotBegun? {
      SavedIsCommitted(contexts0, expected);
      AllPutsWrite(cells0, tx.store.cells, tx.writes, Plan(candidates));
      if applied.SaveFailed? {
        status, uncertain := Settle(v, configs, tx, expected, Plan(candidates), contexts0, original, cells0);
      }
    }
  }

  /** What the contexts find afterwards, however the operation ends, if no other program interfered. */
  method ApplyResolved(v: Vault, configs: ContextStore, tx: Transaction, candidates: seq<Candidate>, expected: Config)
    returns (begun: bool, failed: bool, status: Compensation, uncertain: bool)
    requires tx.writes == [] && DistinctPlan(Plan(candidates)) && Linked(v, expected, candidates)
    modifies configs, tx, tx.store
    ensures !begun ==> failed && configs.contexts == old(configs.contexts) && tx.store.cells == old(tx.store.cells)
    ensures if !failed then status == NoCompensation && !uncertain
            else if uncertain then status == NotSafe || status == Incomplete
            else status != Incomplete
    ensures !failed ==> configs.foreign == old(configs.foreign) && configs.contexts == old(configs.contexts) + expected
    ensures begun && (!failed || (!uncertain && status == NotSafe)) ==>
              AllDone(expected, old(configs.contexts), configs.contexts, old(tx.store.cells), tx.store.cells, tx.writes,
                      Plan(candidates), configs.foreign == old(configs.foreign))
    ensures begun && failed && !uncertain && status != NotSafe ==>
              AllUndone(expected, old(configs.contexts), configs.contexts, old(tx.store.cells), tx.store.cells, tx.writes,
                        configs.foreign == old(configs.foreign))
    ensures failed ==> Failures(tx.store, configs) > old(Failures(tx.store, configs)) || !Sound(v, old(configs.contexts) + expected)
    ensures !failed ==> Failures(tx.store, configs) == old(Failures(tx.store, configs))
    ensures configs.foreign == old(configs.foreign) ==>
              && CommandStep(v, old(configs.contexts), configs.contexts, Put(expected))
              && (Sound(v, old(configs.contexts)) ==> Sound(v, configs.contexts))
              && OthersKept(v, old(configs.contexts), old(tx.store.cells), configs.contexts, tx.store.cells, expected)
              && (begun && (!failed || (!uncertain && status == NotSafe)) ==>
                    SecretsResolve(v, configs.contexts, tx.store.cells, candidates))
              && (uncertain ==>
                    Failures(tx.store, configs) >= old(Failures(tx.store, configs)) + 2 || Entangled(v, old(configs.contexts), tx.writes))
  {
    hide AllDone, AllUndone, Plan, DistinctPlan, Sound, Linked, OthersKept, SecretsResolve, Elsewhere, Entangled, Committed, Written;
    ghost var contexts0, cells0 := configs.contexts, tx.store.cells;
    begun, failed, status, uncertain := ApplyAndSettle(v, configs, tx, candidates, expected);
    if Sound(v, contexts0) {
      CommandKeepsSound(v, contexts0, Put(expected));
    }
    if !begun {
      NothingMoves(v, contexts0, cells0, expected);
    } else if configs.foreign == old(configs.foreign) {
      OthersKeepTheirSecrets(v, contexts0, cells0, configs.contexts, tx.store.cells, expected, candidates);
      if !failed || (!uncertain && status == NotSafe) {
        StoredSecretsResolve(v, expected, configs.contexts, cells0, tx.store.cells, candidates);
      }
    }
  }

  /**
   Set and import: the report of a begun operation is accepted by the replay validator and true of both stores.
   Nothing is written when no report is made, and no two references ever come to share a slot. Unless other
   programs interfere, the contexts that are not named find what they found before, and one failed call never
   leaves the end uncertain, but for slots that cannot be undone safely.
   */
  method ApplyImport(v: Vault, configs: ContextStore, tx: Transaction, candidates: seq<Candidate>, available: Candidate -> bool,
                     expected: Config, cause: OperationError)
    returns (report: Option<Outcome>, failed: bool)
    requires expected != map[] && tx.writes == [] && WellFormedError(Some(cause)) && Linked(v, expected, candidates)
    modifies configs, tx, tx.store
    ensures report.Some? ==>
              && ReportHolds(report.value, |expected|, expected, old(configs.contexts), configs.contexts,
                             old(tx.store.cells), tx.store.cells, tx.writes, Plan(candidates),
                             configs.foreign == old(configs.foreign))
              && AcceptsOutcome(report.value, |expected|) && OwnOutcome(report.value, |expected|)
    ensures !failed ==>
              && report.Some? && ReportsDone(report.value, |expected|)
              && configs.foreign == old(configs.foreign) && configs.contexts == old(configs.contexts) + expected
    ensures !(DistinctPlan(Plan(candidates)) && forall c :: c in candidates && PlanOf(c) != [] ==> available(c)) ==> report.None?
    ensures report.None? ==> failed && configs.contexts == old(configs.contexts) && tx.store.cells == old(tx.store.cells)
    ensures !failed ==> Failures(tx.store, configs) == old(Failures(tx.store, configs))
    ensures failed ==>
              || Failures(tx.store, configs) > old(Failures(tx.store, configs))
              || !Sound(v, old(configs.contexts) + expected) || !DistinctPlan(Plan(candidates))
              || exists c :: c in candidates && PlanOf(c) != [] && !available(c)
    ensures configs.foreign == old(configs.foreign) ==>
              && CommandStep(v, old(configs.contexts), configs.contexts, Put(expected))
              && (Sound(v, old(configs.contexts)) ==> Sound(v, configs.contexts))
              && OthersKept(v, old(configs.contexts), old(tx.store.cells), configs.contexts, tx.store.cells, expected)
              && (report.Some? && ReportsDone(report.value, |expected|) ==> SecretsResolve(v, configs.contexts, tx.store.cells, candidates))
              && (report.Some? && ReportsUncertain(report.value, |expected|) ==>
                    Failures(tx.store, configs) >= old(Failures(tx.store, configs)) + 2 || Entangled(v, old(configs.contexts), tx.writes))
  {
    hide Normalize, ImportOutcome, AcceptsOutcome, OwnOutcome, AllDone, AllUndone, Plan, PlanOf, DistinctPlan, Stored, Sound, Linked,
         OthersKept, SecretsResolve, Entangled;
    NothingMoves(v, configs.contexts, tx.store.cells, expected);
    var valid := ValidateCandidates(candidates, available);
    if !valid {
      return None, true;
    }
    var begun, status, uncertain;
    begun, failed, status, uncertain := ApplyResolved(v, configs, tx, candidates, expected);
    if !begun {
      return None, true;
    }
    var err := if failed then Some(cause) else None;
    ReportOf(|expected|, status, uncertain, err);
    return Some(Normalize(ImportOutcome(|expected|, status, uncertain, err), err)), failed;
  }

  // ---- The commands that write no credentials ---------------------------------

  /** Delete a context, if it is still there under the lock. */
  method DeleteContext(v: Vault, configs: ContextStore, name: string) returns (ok: bool)
    modifies configs`contexts, configs`failures
    ensures CommandStep(v, old(configs.contexts), configs.contexts, Delete(name))
    ensures ok ==> name in old(configs.contexts) && configs.contexts == old(configs.contexts) - {name}
    ensures name !in old(configs.contexts) ==> !ok && configs.contexts == old(configs.contexts)
    ensures !ok ==> name !in old(configs.contexts) || configs.failures > old(configs.failures)
    ensures Sound(v, old(configs.contexts)) ==> Sound(v, configs.contexts)
  {
    ghost var before := configs.contexts;
    var entered := configs.Call();
    if !entered || name !in configs.contexts {
      return false;
    }
    ok := configs.Call();
    if ok {
      ok := configs.Save(configs.contexts - {name});
    }
    if Sound(v, before) {
      CommandKeepsSound(v, before, Delete(name));
    }
  }

  function WithRole(roles: Option<map<string, string>>, operator: string, role: string): map<string, string> {
    (if roles.Some? then roles.value else map[])[operator := role]
  }

  /** Roles without one operator; no roles at all are stored as none. */
  function WithoutRole(roles: Option<map<string, string>>, operator: string): Option<map<string, string>> {
    if roles.None? || roles.value - {operator} == map[] then None else Some(roles.value - {operator})
  }

  /** An operator has the same role before and after, or none. */
  ghost predicate SameRole(before: Option<map<string, string>>, after: Option<map<string, string>>, operator: string) {
    && (before.Some? && operator in before.value <==> after.Some? && operator in after.value)
    && (before.Some? && operator in before.value && after.Some? && operator in after.value ==>
          before.value[operator] == after.value[operator])
  }

  lemma OneRoleChanged(before: Option<map<string, string>>, operator: string, role: Option<string>)
    ensures var after := if role.Some? then Some(WithRole(before, operator, role.value)) else WithoutRole(before, operator);
            && after != Some(map[]) && (role.Some? <==> after.Some? && operator in after.value)
            && (role.Some? ==> after.value[operator] == role.value)
            && forall other :: other != operator ==> SameRole(before, after, other)
  {
    if role.Some? {
      assert operator in WithRole(before, operator, role.value);
    } else if before.Some? {
      var rest := before.value - {operator};
      forall other | other != operator ensures other in before.value <==> other in rest {
      }
    }
  }

  /** Assign a role, or take it away when there is none to assign. */
  method ChangeRole(v: Vault, configs: ContextStore, name: string, operator: string, role: Option<string>)
    returns (ok: bool, ghost roles: Option<map<string, string>>)
    modifies configs`contexts, configs`failures
    ensures CommandStep(v, old(configs.contexts), configs.contexts, SetRoles(name, roles))
    ensures name in old(configs.contexts) ==>
              && roles != Some(map[])
              && (role.Some? <==> roles.Some? && operator in roles.value)
              && (role.Some? ==> roles.value[operator] == role.value)
              && forall other :: other != operator ==> SameRole(old(configs.contexts)[name].roles, roles, other)
    ensures ok ==> name in old(configs.contexts) && configs.contexts == old(configs.contexts)[name := old(configs.contexts)[name].(roles := roles)]
    ensures name !in old(configs.contexts) ==> !ok && configs.contexts == old(configs.contexts)
    ensures !ok ==> name !in old(configs.contexts) || configs.failures > old(configs.failures)
    ensures Sound(v, old(configs.contexts)) ==> Sound(v, configs.contexts)
  {
    ghost var before := configs.contexts;
    roles := None;
    if name !in configs.contexts {
      return false, None;
    }
    var item := configs.contexts[name];
    var changed := if role.Some? then Some(WithRole(item.roles, operator, role.value)) else WithoutRole(item.roles, operator);
    roles := changed;
    OneRoleChanged(item.roles, operator, role);
    ok := configs.Call();
    if ok {
      ok := configs.Save(configs.contexts[name := item.(roles := changed)]);
    }
    if Sound(v, before) {
      CommandKeepsSound(v, before, SetRoles(name, roles));
    }
  }
}
