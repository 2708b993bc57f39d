/**
 Credential writes that can be undone. A store operation that fails may have taken effect all
 the same, so undoing first looks at every cell, refuses as a whole if any of them is not what
 the transaction left there, and only then restores, last write first.
 */
module CredentialTransactions {
  import opened Common
  import opened CredentialSlots
  import opened OutcomeRecords

  datatype GetResult = Found(value: string) | NotFound | GetFailed

  /** All credential back ends together: one cell per physical slot. */
  class SecretStore {
    var cells: map<Slot, string>
    ghost var issued: nat    // how many Put and Delete calls were made
    ghost var failures: nat  // how many calls failed; only Get, Put and Delete add to it

    constructor (cells: map<Slot, string>)
      ensures this.cells == cells
    {
      this.cells := cells;
      issued, failures := 0, 0;
    }

    method Get(slot: Slot) returns (result: GetResult)
      modifies `failures
      ensures result.GetFailed? ==> failures == old(failures) + 1
      ensures !result.GetFailed? ==> failures == old(failures)
      ensures result.Found? ==> slot in cells && cells[slot] == result.value
      ensures result.NotFound? ==> slot !in cells
    {
      var reachable: bool := *;
      if !reachable {
        failures := failures + 1;
        return GetFailed;
      }
      return if slot in cells then Found(cells[slot]) else NotFound;
    }

    method Put(slot: Slot, value: string) returns (ok: bool)
      modifies this
      ensures issued == old(issued) + 1
      ensures ok ==> failures == old(failures)
      ensures !ok ==> failures == old(failures) + 1
      ensures cells == old(cells)[slot := value] || (!ok && cells == old(cells))
    {
      issued := issued + 1;
      ok := *;
      failures := if ok then failures else failures + 1;
      var effective: bool := *;
      if ok || effective {
        cells := cells[slot := value];
      }
    }

    method Delete(slot: Slot) returns (ok: bool)
      modifies this
      ensures issued == old(issued) + 1
      ensures ok ==> failures == old(failures)
      ensures !ok ==> failures == old(failures) + 1
      ensures cells == old(cells) - {slot} || (!ok && cells == old(cells))
    {
      issued := issued + 1;
      ok := *;
      failures := if ok then failures else failures + 1;
      var effective: bool := *;
      if ok || effective {
        cells := cells - {slot};
      }
    }
  }

  datatype Planned = Planned(slot: Slot, owner: string, value: string)

  datatype Write = Write(slot: Slot, owner: string, previous: string, written: string, existed: bool, putSucceeded: bool)

  predicate DistinctSlots(writes: seq<Write>) {
    forall i, j :: 0 <= i < j < |writes| ==> writes[i].slot != writes[j].slot
  }

  /** The cell holds what the write found there. */
  predicate HoldsPrior(cells: map<Slot, string>, w: Write) {
    (w.slot in cells <==> w.existed) && (w.existed ==> cells[w.slot] == w.previous)
  }

  predicate HoldsWritten(cells: map<Slot, string>, w: Write) {
    w.slot in cells && cells[w.slot] == w.written
  }

  /** What has to happen to one cell to undo a write: put the prior value back, nothing, or refuse. */
  datatype Need = Restore | Keep | Refuse

  function NeedOf(cells: map<Slot, string>, w: Write): Need {
    if HoldsWritten(cells, w) then Restore
    else if !w.putSucceeded && HoldsPrior(cells, w) then Keep
    else Refuse
  }

  predicate Touches(writes: seq<Write>, slot: Slot) {
    exists i :: 0 <= i < |writes| && writes[i].slot == slot
  }

  predicate SameCell(a: map<Slot, string>, b: map<Slot, string>, slot: Slot) {
    (slot in a <==> slot in b) && (slot in a ==> a[slot] == b[slot])
  }

  /** One of the writes from the index on is chosen and goes to this slot. */
  predicate Chosen(writes: seq<Write>, restore: seq<bool>, index: nat, slot: Slot) {
    exists i :: index <= i < |writes| && i < |restore| && restore[i] && writes[i].slot == slot
  }

  /** Chosen, with no earlier chosen write from the index on to the same slot. */
  predicate FirstChosen(writes: seq<Write>, restore: seq<bool>, index: nat, i: int) {
    && index <= i < |writes| && i < |restore| && restore[i]
    && forall j :: index <= j < i && restore[j] ==> writes[j].slot != writes[i].slot
  }

  /** The transaction remembers truthfully what it found, and its cells are as it left them. */
  ghost predicate Faithful(before: map<Slot, string>, cells: map<Slot, string>, writes: seq<Write>) {
    && DistinctSlots(writes)
    && (forall i :: 0 <= i < |writes| ==> HoldsPrior(before, writes[i]))
    && (forall i :: 0 <= i < |writes| ==> NeedOf(cells, writes[i]) != Refuse)
    && (forall slot :: !Touches(writes, slot) ==> SameCell(cells, before, slot))
  }

  /** The writes carry out the plan in order; only the last of an unfinished plan can have failed. */
  predicate Follows(writes: seq<Write>, plan: seq<Planned>) {
    && |writes| <= |plan|
    && (forall i :: 0 <= i < |writes| ==>
          writes[i].slot == plan[i].slot && writes[i].owner == plan[i].owner && writes[i].written == plan[i].value)
  }

  predicate DistinctPlan(plan: seq<Planned>) {
    forall i, j :: 0 <= i < j < |plan| ==> plan[i].slot != plan[j].slot
  }

  ghost predicate OwnersUnchanged(v: Vault, contexts: Config, writes: seq<Write>) {
    && Sound(v, contexts)
    && forall i, r :: 0 <= i < |writes| && Refers(contexts, r) && SlotOf(v, contexts, r) == Some(writes[i].slot) ==>
         OwnerOf(r) == writes[i].owner
  }

  /** One cell was put back, or the attempt failed and left it; every other cell is untouched. */
  ghost predicate CellRestored(before: map<Slot, string>, after: map<Slot, string>, w: Write, done: bool) {
    && (HoldsPrior(after, w) || (!done && after == before))
    && forall slot :: slot != w.slot ==> SameCell(after, before, slot)
  }

  /** What undoing the chosen writes from the index on has done to the cells. */
  ghost predicate Undone(writes: seq<Write>, restore: seq<bool>, index: nat, before: map<Slot, string>, after: map<Slot, string>, ok: bool) {
    && (forall slot :: !Chosen(writes, restore, index, slot) ==> SameCell(after, before, slot))
    && (ok ==> forall i :: FirstChosen(writes, restore, index, i) ==> HoldsPrior(after, writes[i]))
    && (DistinctSlots(writes) ==> forall i :: FirstChosen(writes, restore, index, i) ==>
          HoldsPrior(after, writes[i]) || SameCell(after, before, writes[i].slot))
  }

  lemma UndoneSkip(writes: seq<Write>, restore: seq<bool>, index: nat, before: map<Slot, string>, after: map<Slot, string>, ok: bool)
    requires index < |writes| && !(index < |restore| && restore[index])
    requires Undone(writes, restore, index + 1, before, after, ok)
    ensures Undone(writes, restore, index, before, after, ok)
  {
    assert forall i :: FirstChosen(writes, restore, index, i) ==> FirstChosen(writes, restore, index + 1, i);
    assert forall slot :: Chosen(writes, restore, index + 1, slot) ==> Chosen(writes, restore, index, slot);
  }

  lemma UndoneStep(writes: seq<Write>, restore: seq<bool>, index: nat, before: map<Slot, string>, mid: map<Slot, string>, after: map<Slot, string>, ok: bool, done: bool)
    requires index < |writes| && index < |restore| && restore[index]
    requires Undone(writes, restore, index + 1, before, mid, ok) && CellRestored(mid, after, writes[index], done)
    ensures Undone(writes, restore, index, before, after, ok && done)
  {
    var w := writes[index];
    assert Chosen(writes, restore, index, w.slot);
    forall slot | !Chosen(writes, restore, index, slot) ensures SameCell(after, before, slot) {
      assert !Chosen(writes, restore, index + 1, slot);
      assert SameCell(after, mid, slot) && SameCell(mid, before, slot);
    }
    forall i | FirstChosen(writes, restore, index, i)
      ensures ok && done ==> HoldsPrior(after, writes[i])
      ensures DistinctSlots(writes) ==> HoldsPrior(after, writes[i]) || SameCell(after, before, writes[i].slot)
    {
      if i > index {
        assert FirstChosen(writes, restore, index + 1, i) && writes[i].slot != w.slot;
        assert SameCell(after, mid, writes[i].slot);
      } else if DistinctSlots(writes) {
        assert !Chosen(writes, restore, index + 1, w.slot);
      }
    }
  }

  class Transaction {
    const store: SecretStore
    var writes: seq<Write>

    constructor (store: SecretStore)
      ensures this.store == store && writes == []
    {
      this.store := store;
      writes := [];
    }

    /** Read the prior value, remember the write, then put. A failed read leaves no write behind. */
    method Put(p: Planned, ghost before: map<Slot, string>, ghost plan: seq<Planned>) returns (ok: bool)
      requires Faithful(before, store.cells, writes) && Follows(writes, plan) && DistinctPlan(plan)
      requires |writes| < |plan| && p == plan[|writes|]
      requires forall i :: 0 <= i < |writes| ==> writes[i].putSucceeded
      modifies this, store
      ensures Faithful(before, store.cells, writes) && Follows(writes, plan)
      ensures old(writes) <= writes && |writes| <= |old(writes)| + 1
      ensures ok ==> |writes| == |old(writes)| + 1 && forall i :: 0 <= i < |writes| ==> writes[i].putSucceeded
      ensures !ok && |writes| > |old(writes)| ==> !writes[|old(writes)|].putSucceeded
      ensures ok ==> store.failures == old(store.failures)
      ensures !ok ==> store.failures == old(store.failures) + 1
    {
      ghost var earlier, cells0 := writes, store.cells;
      var found := store.Get(p.slot);
      if found.GetFailed? {
        return false;
      }
      var existed := found.Found?;
      var write := Write(p.slot, p.owner, if existed then found.value else "", p.value, existed, false);
      ok := store.Put(p.slot, p.value);
      writes := writes + [write.(putSucceeded := ok)];
      ExtendsFaithfully(before, cells0, store.cells, earlier, write.(putSucceeded := ok));
    }

    method NeedsRestore(w: Write) returns (needs: Option<bool>)
      modifies store`failures
      ensures store.failures >= old(store.failures)
      ensures needs.Some? ==> NeedOf(store.cells, w) == if needs.value then Restore else Keep
      ensures needs.Some? ==> store.failures == old(store.failures)
      ensures needs.None? ==> store.failures > old(store.failures) || NeedOf(store.cells, w) == Refuse
    {
      var current := store.Get(w.slot);
      if current.GetFailed? {
        return None;
      }
      if current.Found? && current.value == w.written {
        return Some(true);
      }
      if !w.putSucceeded && current.Found? == w.existed && (!current.Found? || current.value == w.previous) {
        return Some(false);
      }
      return None;
    }

    /** Which writes to undo; nothing at all if one cell cannot be read or is not what the transaction left. */
    method CompensationPlan() returns (restore: Option<seq<bool>>)
      modifies store`failures
      ensures store.failures >= old(store.failures)
      ensures restore.Some? ==> store.failures == old(store.failures)
      ensures restore.Some? ==>
                && |restore.value| == |writes|
                && forall i :: 0 <= i < |writes| ==> NeedOf(store.cells, writes[i]) == if restore.value[i] then Restore else Keep
      ensures restore.None? ==>
                store.failures > old(store.failures) || exists i :: 0 <= i < |writes| && NeedOf(store.cells, writes[i]) == Refuse
    {
      var plan: seq<bool> := [];
      for k := 0 to |writes|
        invariant |plan| == k && store.failures == old(store.failures)
        invariant forall i :: 0 <= i < k ==> NeedOf(store.cells, writes[i]) == if plan[i] then Restore else Keep
      {
        var needs := NeedsRestore(writes[k]);
        if needs.None? {
          return None;
        }
        plan := plan + [needs.value];
      }
      return Some(plan);
    }

    /** Put one cell back to what the write found there. */
    method RestoreOne(w: Write) returns (done: bool)
      modifies store
      ensures CellRestored(old(store.cells), store.cells, w, done)
      ensures done ==> store.failures == old(store.failures)
      ensures !done ==> store.failures == old(store.failures) + 1
    {
      if w.existed {
        done := store.Put(w.slot, w.previous);
      } else {
        done := store.Delete(w.slot);
      }
    }

    /**
     Undo the chosen writes from the last to the first, going on after a failure. Where several go to
     one slot, the value found by the first of them is the one that stays.
     */
    method Compensate(restore: seq<bool>) returns (ok: bool)
      modifies store
      ensures Undone(writes, restore, 0, old(store.cells), store.cells, ok)
      ensures store.failures >= old(store.failures) && (ok <==> store.failures == old(store.failures))
    {
      ok := true;
      var index := |writes|;
      while index > 0
        invariant 0 <= index <= |writes|
        invariant Undone(writes, restore, index, old(store.cells), store.cells, ok)
        invariant store.failures >= old(store.failures) && (ok <==> store.failures == old(store.failures))
      {
        index := index - 1;
        ghost var cells0 := store.cells;
        if index < |restore| && restore[index] {
          var done := RestoreOne(writes[index]);
          UndoneStep(writes, restore, index, old(store.cells), cells0, store.cells, ok, done);
          ok := ok && done;
        } else {
          UndoneSkip(writes, restore, index, old(store.cells), cells0, ok);
        }
      }
    }

    /** Whether every slot still belongs to the write that filled it, as the stored configuration has it. */
    method OwnersIntact(v: Vault, contexts: Config) returns (ok: bool)
      ensures ok <==> OwnersUnchanged(v, contexts, writes)
    {
      var owners := ContextSlotOwners(v, contexts);
      if owners.None? {
        return false;
      }
      for k := 0 to |writes|
        invariant forall i, r ::
          0 <= i < k && Refers(contexts, r) && SlotOf(v, contexts, r) == Some(writes[i].slot) ==> OwnerOf(r) == writes[i].owner
      {
        if writes[k].slot in owners.value && owners.value[writes[k].slot] != writes[k].owner {
          return false;
        }
      }
      return true;
    }

    method RestoresNoVault(restore: seq<bool>) returns (ok: bool)
      ensures ok <==> forall i :: 0 <= i < |writes| && i < |restore| && restore[i] ==> writes[i].slot.backendName != VAULT
    {
      for k := 0 to |writes|
        invariant forall i :: 0 <= i < k && i < |restore| && restore[i] ==> writes[i].slot.backendName != VAULT
      {
        if k < |restore| && restore[k] && writes[k].slot.backendName == VAULT {
          return false;
        }
      }
      return true;
    }

    /** Undoing is allowed: owners unchanged, no cell taken over, nothing to restore in Vault (if that is guarded). */
    ghost predicate MayCompensate(v: Vault, contexts: Config, guardVault: bool)
      reads this, store
    {
      && OwnersUnchanged(v, contexts, writes)
      && forall i :: 0 <= i < |writes| ==>
           var need := NeedOf(store.cells, writes[i]);
           need != Refuse && (need == Restore && guardVault ==> writes[i].slot.backendName != VAULT)
    }

    /**
     Undo the whole transaction, or refuse without a single Put or Delete. Success means that every
     touched cell holds its prior value again.
     */
    method CompensateLocked(v: Vault, contexts: Config, guardVault: bool) returns (status: Compensation)
      modifies store
      ensures writes == [] <==> status == NoCompensation
      ensures status == NotSafe || status == NoCompensation ==> store.issued == old(store.issued) && store.cells == old(store.cells)
      ensures writes != [] && !old(MayCompensate(v, contexts, guardVault)) ==> status == NotSafe
      ensures store.failures >= old(store.failures)
      ensures status == NotSafe && old(MayCompensate(v, contexts, guardVault)) ==> store.failures > old(store.failures)
      ensures status == Incomplete ==> store.failures > old(store.failures)
      ensures status == Succeeded ==> store.failures == old(store.failures)
      ensures forall slot :: !Touches(writes, slot) ==> SameCell(store.cells, old(store.cells), slot)
      ensures status == Succeeded && DistinctSlots(writes) ==> forall i :: 0 <= i < |writes| ==> HoldsPrior(store.cells, writes[i])
      ensures status == Incomplete && DistinctSlots(writes) ==> forall i :: 0 <= i < |writes| ==>
                HoldsPrior(store.cells, writes[i]) || SameCell(store.cells, old(store.cells), writes[i].slot)
    {
      if writes == [] {
        return NoCompensation;
      }
      var intact := OwnersIntact(v, contexts);
      if !intact {
        return NotSafe;
      }
      var restore := CompensationPlan();
      if restore.None? {
        return NotSafe;
      }
      var capable := RestoresNoVault(restore.value);
      if guardVault && !capable {
        return NotSafe;
      }
      ghost var cells0 := store.cells;
      var ok := Compensate(restore.value);
      forall slot | !Touches(writes, slot) ensures SameCell(store.cells, cells0, slot) {
        assert !Chosen(writes, restore.value, 0, slot);
      }
      forall i | 0 <= i < |writes| && DistinctSlots(writes)
        ensures HoldsPrior(store.cells, writes[i]) || (!ok && SameCell(store.cells, cells0, writes[i].slot))
      {
        assert restore.value[i] ==> FirstChosen(writes, restore.value, 0, i);
        assert !restore.value[i] ==> !Chosen(writes, restore.value, 0, writes[i].slot) && NeedOf(cells0, writes[i]) == Keep;
      }
      return if ok then Succeeded else Incomplete;
    }

  }

  lemma ExtendsFaithfully(before: map<Slot, string>, cells0: map<Slot, string>, cells: map<Slot, string>, writes: seq<Write>, w: Write)
    requires Faithful(before, cells0, writes) && !Touches(writes, w.slot) && HoldsPrior(cells0, w)
    requires cells == cells0[w.slot := w.written] || (!w.putSucceeded && cells == cells0)
    ensures Faithful(before, cells, writes + [w])
  {
    var all := writes + [w];
    forall i | 0 <= i < |writes| ensures NeedOf(cells, writes[i]) != Refuse && writes[i].slot != w.slot {
      assert NeedOf(cells0, writes[i]) != Refuse;
    }
    assert HoldsPrior(before, w);
    forall slot | !Touches(all, slot)
      ensures SameCell(cells, before, slot)
    {
      assert all[|writes|].slot == w.slot;
      assert forall i :: 0 <= i < |writes| ==> all[i].slot == writes[i].slot;
      assert !Touches(writes, slot);
    }
  }
}
