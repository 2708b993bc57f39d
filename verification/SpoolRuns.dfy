/**
 What holds over every run of the queue: any processes, any append results, a crash
 between any two file operations.
 */
module SpoolRuns {
  import opened Common
  import opened SpoolNames
  import opened OutcomeRecords
  import opened SpoolProtocol

  // ---- One step -------------------------------------------------------

  lemma PairedGrows(q: Queue, q': Queue, id: string)
    requires q.log <= q'.log && q.unlanded <= q'.unlanded && Paired(q, id)
    ensures Paired(q', id)
  {
    if id !in q.unlanded {
      var i :| 0 <= i < |q.log| && IsIntentOf(q.log[i], id);
      assert IsIntentOf(q'.log[i], id);
    }
  }

  lemma AppendedKeepsPairing(q: Queue, q': Queue, e: LogEntry)
    requires OutcomesPaired(q) && q'.log == q.log + [e] && q.unlanded <= q'.unlanded
    requires e.record.phase == OutcomePhase ==> Paired(q, RecordId(e.record))
    ensures OutcomesPaired(q')
  {
    forall i | 0 <= i < |q'.log| && q'.log[i].record.phase == OutcomePhase
      ensures RecordId(q'.log[i].record) in q'.unlanded || HasIntent(q'.log[..i], RecordId(q'.log[i].record))
    {
      assert q'.log[..i] == q.log[..i];
      if i == |q.log| {
        assert q.log[..i] == q.log;
      }
    }
  }

  lemma SameFilesStaySound(q: Queue, q': Queue)
    requires q.log <= q'.log && q.unlanded <= q'.unlanded && q'.sequence == q.sequence
    requires forall f :: f in Spool(q') ==> f in Spool(q)
    requires forall f :: f in Spool(q) ==> SoundFile(q, f)
    ensures forall f :: f in Spool(q') ==> SoundFile(q', f)
  {
    forall f | f in Spool(q') ensures SoundFile(q', f) {
      PairedGrows(q, q', RecordId(f.record));
    }
  }

  lemma DirectAppendKeepsInv(q: Queue, op: Op)
    requires Inv(q) && Enabled(q, op) && (op.AppendIntent? || op.AppendOutcome? || op.AppendEvent?)
    ensures Inv(Effect(q, op))
  {
    var q' := Effect(q, op);
    assert Spool(q') == Spool(q) == [];
    if q'.log != q.log {
      AppendedKeepsPairing(q, q', LogEntry(op.record, Direct));
    } 
  }

  /** The next copy to enter the log is that of the file with the least number. */
  lemma CopyEntersInOrder(q: Queue, q': Queue)
    requires q.pending != [] && q.quarantined == [] && Increasing(q.pending)
    requires (forall f :: f in Spool(q) ==> SoundFile(q, f)) && ReplayedInOrder(q)
    requires q' == q.(log := q.log + [q.pending[0].Copy()])
    ensures ReplayedInOrder(q')
  {
    var file := q.pending[0];
    assert Spool(q') == Spool(q) == q.pending;
    assert file in Spool(q);
    assert forall f :: f in q.pending ==> file.sequence <= f.sequence;
  }

  lemma ReplayKeepsInv(q: Queue)
    requires Inv(q) && Enabled(q, AppendReplay)
    ensures Inv(Effect(q, AppendReplay))
  {
    hide Accepts;
    var q' := Effect(q, AppendReplay);
    var file := q.pending[0];
    assert file in Spool(q);
    assert q.quarantined + q.pending == q.pending;
    AppendedKeepsPairing(q, q', file.Copy());
    SameFilesStaySound(q, q');
    CopyEntersInOrder(q, q');
  }

  /** Moving or removing spool files alone leaves everything the invariant says about the log. */
  lemma SameLogStaysInOrder(q: Queue, q': Queue)
    requires q'.log == q.log && q'.sequence == q.sequence && q'.unlanded == q.unlanded
    requires forall f :: f in Spool(q') ==> f in Spool(q)
    requires ReplayedInOrder(q) && OutcomesPaired(q)
    ensures ReplayedInOrder(q') && OutcomesPaired(q')
  {
  }

  lemma RemoveKeepsInv(q: Queue)
    requires Inv(q) && Enabled(q, RemoveReplayed)
    ensures Inv(Effect(q, RemoveReplayed))
  {
    hide ReplayedInOrder, OutcomesPaired, SoundFile;
    var q' := Effect(q, RemoveReplayed);
    assert q.quarantined + q.pending == q.pending && q'.quarantined + q'.pending == q.pending[1..];
    assert forall f :: f in Spool(q') ==> f in Spool(q);
    SameFilesStaySound(q, q');
    SameLogStaysInOrder(q, q');
  }

  lemma QuarantineKeepsInv(q: Queue)
    requires Inv(q) && Enabled(q, Quarantine)
    ensures Inv(Effect(q, Quarantine))
  {
    hide ReplayedInOrder, OutcomesPaired, SoundFile, Paired, Accepts;
    var q' := Effect(q, Quarantine);
    assert q'.quarantined == [q.pending[0]] && q'.pending == q.pending[1..];
    assert q.quarantined + q.pending == q.pending && q'.quarantined + q'.pending == q.pending;
    assert forall f :: f in Spool(q') ==> f in Spool(q);
    SameFilesStaySound(q, q');
    SameLogStaysInOrder(q, q');
  }

  lemma {:induction false} MaxSequenceBounds(files: seq<SpoolFile>)
    ensures forall f :: f in files ==> f.sequence <= MaxSequence(files)
    ensures MaxSequence(files) == 0 || exists f :: f in files && f.sequence == MaxSequence(files)
  {
    if files != [] {
      MaxSequenceBounds(files[..|files| - 1]);
      assert files == files[..|files| - 1] + [Last(files)];
    }
  }

  lemma CommitSequenceKeepsInv(q: Queue)
    requires Inv(q) && Enabled(q, CommitSequence)
    ensures Inv(Effect(q, CommitSequence))
    ensures Fresh(Effect(q, CommitSequence), NextSequence(q))
  {
    var q' := Effect(q, CommitSequence);
    assert Spool(q') == Spool(q);
    forall f | f in Spool(q') ensures SoundFile(q', f) && f.sequence < NextSequence(q) {
      assert SoundFile(q, f);
      PairedGrows(q, q', RecordId(f.record));
    }
  }

  /** A file whose number is above all others appears last in the listing. */
  lemma {:induction false} FreshGoesLast(files: seq<SpoolFile>, file: SpoolFile)
    requires forall f :: f in files ==> f.sequence < file.sequence && ValidId(RecordId(f.record))
    requires file.sequence <= MAX_UINT64 && ValidId(RecordId(file.record))
    ensures InsertByName(files, file) == files + [file]
  {
    if files != [] {
      NamesSortBySequence(file.sequence, RecordId(file.record), files[0].sequence, RecordId(files[0].record));
      FreshGoesLast(files[1..], file);
    }
  }

  lemma CommittedFilesSound(q: Queue, q': Queue, file: SpoolFile)
    requires forall f :: f in Spool(q) ==> SoundFile(q, f)
    requires q'.log == q.log && q'.unlanded == q.unlanded && q'.sequence == q.sequence
    requires forall f :: f in Spool(q') ==> f in Spool(q) || f == file
    requires SoundFile(q, file)
    ensures forall f :: f in Spool(q') ==> SoundFile(q', f)
  {
    forall f | f in Spool(q') ensures SoundFile(q', f) {
      PairedGrows(q, q', RecordId(f.record));
    }
  }

  lemma FreshFileInOrder(q: Queue, q': Queue, file: SpoolFile)
    requires ReplayedInOrder(q) && OutcomesPaired(q) && Fresh(q, file.sequence)
    requires q'.log == q.log && q'.unlanded == q.unlanded && q'.sequence == q.sequence
    requires forall f :: f in Spool(q') ==> f in Spool(q) || f == file
    ensures ReplayedInOrder(q') && OutcomesPaired(q')
  {
  }

  lemma FreshFileIncreases(files: seq<SpoolFile>, file: SpoolFile)
    requires Increasing(files) && forall f :: f in files ==> f.sequence < file.sequence
    ensures Increasing(files + [file])
  {
  }

  lemma CommittedGoesLast(q: Queue, op: Op)
    requires Inv(q) && op.CommitRecord? && Enabled(q, op)
    ensures var file := SpoolFile(q.sequence.value, op.record);
            InsertByName(q.pending, file) == q.pending + [file] && SoundFile(q, file)
  {
    hide ReplayedInOrder, OutcomesPaired, Increasing, Paired;
    assert forall f :: f in q.pending ==> f in Spool(q);
    FreshGoesLast(q.pending, SpoolFile(q.sequence.value, op.record));
  }

  lemma CommitRecordKeepsInv(q: Queue, op: Op)
    requires Inv(q) && op.CommitRecord? && Enabled(q, op)
    ensures Inv(Effect(q, op))
    ensures Effect(q, op).pending == q.pending + [SpoolFile(q.sequence.value, op.record)]
  {
    var q' := Effect(q, op);
    var file := SpoolFile(q.sequence.value, op.record);
    CommittedGoesLast(q, op);
    hide ReplayedInOrder, OutcomesPaired, SoundFile, Increasing, InsertByName, SpoolName, ValidId;
    assert q'.pending == q.pending + [file] && q'.quarantined == q.quarantined;
    assert forall f :: f in Spool(q') ==> f in Spool(q) || f == file;
    CommittedFilesSound(q, q', file);
    FreshFileInOrder(q, q', file);
    assert forall f :: f in q.quarantined + q.pending ==> f in Spool(q);
    FreshFileIncreases(q.quarantined + q.pending, file);
    assert q'.quarantined + q'.pending == (q.quarantined + q.pending) + [file];
  }

  lemma StepKeepsInv(q: Queue, op: Op, q': Queue)
    requires Inv(q) && Step(q, op, q')
    ensures Inv(q')
  {
    match op
    case AppendIntent(_, _) => DirectAppendKeepsInv(q, op);
    case AppendOutcome(_) => DirectAppendKeepsInv(q, op);
    case AppendEvent(_) => DirectAppendKeepsInv(q, op);
    case AppendReplay => ReplayKeepsInv(q);
    case RemoveReplayed => RemoveKeepsInv(q);
    case Quarantine => QuarantineKeepsInv(q);
    case CommitSequence => CommitSequenceKeepsInv(q);
    case CommitRecord(_) => CommitRecordKeepsInv(q, op);
    case CreateTemp(_) => SameFilesStaySound(q, q');
    case RemoveTemp => SameFilesStaySound(q, q');
    case Crash => SameFilesStaySound(q, q');
  }

  // ---- Runs -----------------------------------------------------------

  ghost predicate Run(states: seq<Queue>, ops: seq<Op>) {
    && |states| == |ops| + 1
    && forall i :: 0 <= i < |ops| ==> Step(states[i], ops[i], states[i + 1])
  }

  /** A run from any state that satisfies the invariant, such as the empty queue. */
  ghost predicate SoundRun(states: seq<Queue>, ops: seq<Op>) {
    Run(states, ops) && Inv(states[0])
  }

  lemma {:induction false} RunKeepsInv(states: seq<Queue>, ops: seq<Op>, j: nat)
    requires SoundRun(states, ops) && j < |states|
    ensures Inv(states[j])
  {
    if j > 0 {
      RunKeepsInv(states, ops, j - 1);
      StepKeepsInv(states[j - 1], ops[j - 1], states[j]);
    }
  }

  /** Logs are only ever appended to, along any run. */
  lemma {:induction false} LogOnlyGrows(states: seq<Queue>, ops: seq<Op>, i: nat, j: nat)
    requires Run(states, ops) && i <= j < |states|
    ensures states[i].log <= states[j].log && states[i].unlanded <= states[j].unlanded
  {
    hide Enabled;
    if i < j {
      LogOnlyGrows(states, ops, i, j - 1);
      assert Step(states[j - 1], ops[j - 1], states[j]);
    }
  }

  // ---- No silent loss -------------------------------------------------

  /** The outcome is still spooled, or a copy of it is in the log. */
  ghost predicate Survives(f: SpoolFile, q: Queue) {
    f in Spool(q) || f.Copy() in q.log
  }

  lemma StepKeepsFile(q: Queue, op: Op, q': Queue, f: SpoolFile)
    requires Inv(q) && Step(q, op, q') && Survives(f, q)
    ensures Survives(f, q')
  {
    hide Accepts, Inv;
    if f in Spool(q) {
      if op.CommitRecord? {
        CommitRecordKeepsInv(q, op);
      } else if op.RemoveReplayed? || op.Quarantine? {
        assert q.pending == [q.pending[0]] + q.pending[1..];
      }
    }
  }

  /**
   Whatever appends report and wherever processes crash, an outcome that was once
   committed to the spool is pending, quarantined, or copied into the log.
   */
  lemma {:induction false} NoSilentLoss(states: seq<Queue>, ops: seq<Op>, i: nat, j: nat, f: SpoolFile)
    requires SoundRun(states, ops) && i <= j < |states|
    requires f in Spool(states[i])
    ensures Survives(f, states[j])
  {
    if i < j {
      NoSilentLoss(states, ops, i, j - 1, f);
      RunKeepsInv(states, ops, j - 1);
      StepKeepsFile(states[j - 1], ops[j - 1], states[j], f);
    }
  }

  lemma CommittedFileIsSpooled(q: Queue, op: Op, q': Queue)
    requires Inv(q) && op.CommitRecord? && Step(q, op, q')
    ensures SpoolFile(q.sequence.value, op.record) in Spool(q')
  {
    CommitRecordKeepsInv(q, op);
  }

  /** Sequence numbers strictly increase over all the outcomes a run ever spools. */
  lemma SequencesIncreaseOverRuns(states: seq<Queue>, ops: seq<Op>, i: nat, j: nat)
    requires SoundRun(states, ops) && i < j < |ops| && ops[i].CommitRecord? && ops[j].CommitRecord?
    ensures states[i].sequence.Some? && states[j].sequence.Some?
    ensures states[i].sequence.value < states[j].sequence.value
  {
    hide Accepts, Inv;
    RunKeepsInv(states, ops, i);
    assert Step(states[i], ops[i], states[i + 1]) && Step(states[j], ops[j], states[j + 1]);
    var f := SpoolFile(states[i].sequence.value, ops[i].record);
    CommittedFileIsSpooled(states[i], ops[i], states[i + 1]);
    NoSilentLoss(states, ops, i + 1, j, f);
  }

  // ---- Gate and quarantine ---------------------------------------------

  /** An intent enters the log only after every outcome that was spooled at any earlier time. */
  lemma IntentFollowsEverySpooledOutcome(states: seq<Queue>, ops: seq<Op>, m: nat, i: nat, f: SpoolFile)
    requires SoundRun(states, ops) && m <= i < |ops| && ops[i].AppendIntent?
    requires f in Spool(states[m])
    ensures f.Copy() in states[i].log && states[i].log <= states[i + 1].log
  {
    hide Accepts, Inv;
    assert Step(states[i], ops[i], states[i + 1]);
    NoSilentLoss(states, ops, m, i, f);
  }

  /** Once a file is quarantined the log never changes again: no intent, no outcome, no replay, in any run. */
  lemma {:induction false} QuarantineIsAbsorbing(states: seq<Queue>, ops: seq<Op>, i: nat, j: nat)
    requires Run(states, ops) && i <= j < |states| && states[i].quarantined != []
    ensures states[j].log == states[i].log && states[j].quarantined == states[i].quarantined
    ensures states[j].unlanded == states[i].unlanded
  {
    hide Accepts;
    if i < j {
      QuarantineIsAbsorbing(states, ops, i, j - 1);
      assert Step(states[j - 1], ops[j - 1], states[j]);
    }
  }

  /** A temporary file orphaned by a crash blocks everything: no step of any process changes the queue again. */
  lemma {:induction false} OrphanBlocksForever(states: seq<Queue>, ops: seq<Op>, i: nat, j: nat)
    requires Run(states, ops) && i <= j < |states|
    requires states[i].temps != {} && states[i].writing.None?
    ensures states[j] == states[i]
  {
    hide Accepts;
    if i < j {
      OrphanBlocksForever(states, ops, i, j - 1);
      assert Step(states[j - 1], ops[j - 1], states[j]);
    }
  }

  // ---- Duplicates -------------------------------------------------------

  lemma StepKeepsRemoved(q: Queue, op: Op, q': Queue, f: SpoolFile)
    requires Inv(q) && Step(q, op, q') && f !in q.pending && f.Copy() in q.log
    ensures f !in q'.pending && f.Copy() in q'.log
  {
    hide Accepts, Inv;
    if op.CommitRecord? {
      CommitRecordKeepsInv(q, op);
    }
  }

  /** A file that was copied and left the pending spool is never pending again. */
  lemma {:induction false} RemovedStaysRemoved(states: seq<Queue>, ops: seq<Op>, i: nat, j: nat, f: SpoolFile)
    requires SoundRun(states, ops) && i <= j < |states|
    requires f !in states[i].pending && f.Copy() in states[i].log
    ensures f !in states[j].pending
    ensures f.Copy() in states[j].log
  {
    hide Accepts, Inv, Enabled, Effect;
    if i < j {
      RemovedStaysRemoved(states, ops, i, j - 1, f);
      assert Step(states[j - 1], ops[j - 1], states[j]);
      RunKeepsInv(states, ops, j - 1);
      StepKeepsRemoved(states[j - 1], ops[j - 1], states[j], f);
    }
  }

  /** Two replays of one file mean that it stayed pending in between: its removal did not happen. */
  lemma DuplicateMeansNotRemoved(states: seq<Queue>, ops: seq<Op>, i: nat, k: nat, j: nat)
    requires SoundRun(states, ops) && i < k <= j < |ops|
    requires ops[i].AppendReplay? && ops[j].AppendReplay? && states[i].pending != [] && states[j].pending != []
    requires states[i].pending[0] == states[j].pending[0]
    ensures states[i].pending[0] in states[k].pending
  {
    hide Accepts, Inv;
    var f := states[i].pending[0];
    assert Step(states[i], ops[i], states[i + 1]);
    LogOnlyGrows(states, ops, i + 1, k);
    assert states[k].log[|states[i].log|] == f.Copy();
    if f !in states[k].pending {
      RemovedStaysRemoved(states, ops, k, j, f);
      assert false;
    }
  }

  // ---- Every reachable state ---------------------------------------------

  /** Reached from the empty queue by some run. */
  ghost predicate Reachable(q: Queue) {
    exists states, ops :: Run(states, ops) && states[0] == EMPTY_QUEUE && Last(states) == q
  }

  lemma ReachableInv(q: Queue)
    requires Reachable(q)
    ensures Inv(q)
  {
    var states, ops :| Run(states, ops) && states[0] == EMPTY_QUEUE && Last(states) == q;
    InitialInv();
    RunKeepsInv(states, ops, |states| - 1);
  }

  /** Replayed copies carry nondecreasing sequence numbers, whatever crashes and restarts lie between them. */
  lemma ReplayOrder(q: Queue, i: nat, j: nat)
    requires Reachable(q) && i < j < |q.log|
    requires q.log[i].origin.Replayed? && q.log[j].origin.Replayed?
    ensures q.log[i].origin.sequence <= q.log[j].origin.sequence
  {
    ReachableInv(q);
  }

  /** The numbers in the spool are distinct and none exceeds the sequence file. */
  lemma SpoolNumbersAreSound(q: Queue, i: nat, j: nat)
    requires Reachable(q) && i < j < |Spool(q)|
    ensures Spool(q)[i].sequence != Spool(q)[j].sequence
    ensures q.sequence.Some? && Spool(q)[i].sequence <= q.sequence.value && Spool(q)[j].sequence <= q.sequence.value
  {
    ReachableInv(q);
    var all := q.quarantined + q.pending;
    var n := |q.quarantined|;
    assert Spool(q)[i] in Spool(q) && Spool(q)[j] in Spool(q);
    assert Spool(q)[i] == all[if i < |q.pending| then i + n else i - |q.pending|];
    assert Spool(q)[j] == all[if j < |q.pending| then j + n else j - |q.pending|];
  }

  /**
   Every outcome in the log comes after an intent with its id, and every spooled outcome has such an
   intent in the log; the one exception is an intent whose own append was left indeterminate.
   */
  lemma OutcomesHaveIntents(q: Queue, id: string)
    requires Reachable(q) && id !in q.unlanded
    ensures forall i :: 0 <= i < |q.log| && q.log[i].record.phase == OutcomePhase && RecordId(q.log[i].record) == id ==>
              exists k :: 0 <= k < i && q.log[k].record.phase == Intent && RecordId(q.log[k].record) == id
    ensures forall f :: f in Spool(q) && RecordId(f.record) == id ==>
              exists k :: 0 <= k < |q.log| && q.log[k].record.phase == Intent && RecordId(q.log[k].record) == id
  {
    ReachableInv(q);
    assert forall f :: f in Spool(q) ==> SoundFile(q, f);
    forall i | 0 <= i < |q.log| && q.log[i].record.phase == OutcomePhase && RecordId(q.log[i].record) == id
      ensures exists k :: 0 <= k < i && q.log[k].record.phase == Intent && RecordId(q.log[k].record) == id
    {
      var k :| 0 <= k < i && IsIntentOf(q.log[..i][k], id);
      assert q.log[k].record.phase == Intent && RecordId(q.log[k].record) == id;
    }
  }

  // ---- The queue accepts its own records ----------------------------------

  /** Every spool file of the run was written with a record its own name and the validator accept. */
  ghost predicate CommitsAccepted(states: seq<Queue>, ops: seq<Op>) {
    forall i :: 0 <= i < |ops| && i < |states| && ops[i].CommitRecord? && states[i].sequence.Some? ==>
      Accepts(ops[i].record, SpoolName(states[i].sequence.value, RecordId(ops[i].record)))
  }

  ghost predicate AllAccepted(files: seq<SpoolFile>) {
    forall f :: f in files ==> Accepts(f.record, f.Name())
  }

  lemma StepKeepsAccepted(q: Queue, op: Op, q': Queue)
    requires Inv(q) && Step(q, op, q') && AllAccepted(q.pending)
    requires op.CommitRecord? ==> Accepts(op.record, SpoolName(q.sequence.value, RecordId(op.record)))
    ensures AllAccepted(q'.pending)
  {
    hide Accepts, Inv;
    if op.CommitRecord? {
      CommitRecordKeepsInv(q, op);
    }
  }

  lemma {:induction false} PendingAccepted(states: seq<Queue>, ops: seq<Op>, j: nat)
    requires SoundRun(states, ops) && CommitsAccepted(states, ops) && Spool(states[0]) == [] && j < |states|
    ensures AllAccepted(states[j].pending)
  {
    hide Accepts, Inv, Effect;
    if j > 0 {
      PendingAccepted(states, ops, j - 1);
      RunKeepsInv(states, ops, j - 1);
      assert Step(states[j - 1], ops[j - 1], states[j]);
      StepKeepsAccepted(states[j - 1], ops[j - 1], states[j]);
    }
  }

  /**
   If the commands spool only outcomes the validator accepts, the queue never wedges on its own records:
   whatever happened before, its next pending file can be replayed unless a quarantined or temporary file blocks it.
   */
  lemma NeverWedgesOnOwnRecords(states: seq<Queue>, ops: seq<Op>, j: nat)
    requires Run(states, ops) && states[0] == EMPTY_QUEUE && CommitsAccepted(states, ops) && j < |states|
    requires states[j].pending != [] && states[j].quarantined == [] && states[j].temps == {}
    ensures Enabled(states[j], AppendReplay)
  {
    hide Accepts, Inv;
    InitialInv();
    PendingAccepted(states, ops, j);
    assert states[j].pending[0] in states[j].pending;
  }

  /** A record a command can spool: built from its own handle by one of the builders, within its caller's bound. */
  ghost predicate OwnRecord(record: Record) {
    exists handle, source, now :: RecordedBy(record, handle, source, now)
  }

  predicate RecordedBy(record: Record, handle: Handle, source: Source, now: Timestamp) {
    && ValidId(handle.id) && WellFormedSpec(handle.spec) && UtcNow(now)
    && CallerBound(source, handle.spec.metadata.items)
    && record == RecordOf(handle, OutcomePhase, Some(OutcomeOf(source, handle.spec.metadata.items)), now)
  }

  lemma OwnRecordAccepted(record: Record, sequence: nat)
    requires OwnRecord(record) && sequence <= MAX_UINT64
    ensures Accepts(record, SpoolName(sequence, RecordId(record)))
  {
    hide Accepts, CallerBound, OutcomeOf, WellFormedSpec, UtcNow;
    var handle, source, now :| RecordedBy(record, handle, source, now);
    SourceReplays(handle, source, now, sequence);
  }

  /** A run whose processes spool only their own outcomes never gets stuck on a file it could not replay. */
  lemma OwnOutcomesNeverWedge(states: seq<Queue>, ops: seq<Op>, j: nat)
    requires Run(states, ops) && states[0] == EMPTY_QUEUE && j < |states|
    requires forall i :: 0 <= i < |ops| && ops[i].CommitRecord? ==> OwnRecord(ops[i].record)
    requires states[j].pending != [] && states[j].quarantined == [] && states[j].temps == {}
    ensures Enabled(states[j], AppendReplay)
  {
    hide Accepts, OwnRecord, Enabled, Effect;
    InitialInv();
    forall i | 0 <= i < |ops| && ops[i].CommitRecord? && states[i].sequence.Some?
      ensures Accepts(ops[i].record, SpoolName(states[i].sequence.value, RecordId(ops[i].record)))
    {
      RunKeepsInv(states, ops, i);
      OwnRecordAccepted(ops[i].record, states[i].sequence.value);
    }
    NeverWedgesOnOwnRecords(states, ops, j);
  }

  /** Everything that waits for replay was written by a command. */
  ghost predicate AllOwn(q: Queue) {
    forall f :: f in q.pending ==> OwnRecord(f.record)
  }

  /** So the next file can be replayed unless the queue is blocked. */
  lemma OwnPendingReplays(q: Queue)
    requires Inv(q) && AllOwn(q) && q.pending != [] && q.quarantined == [] && q.temps == {}
    ensures Enabled(q, AppendReplay)
  {
    hide Accepts, OwnRecord, ReplayedInOrder, OutcomesPaired;
    var f := q.pending[0];
    assert f in Spool(q);
    assert SoundFile(q, f);
    OwnRecordAccepted(f.record, f.sequence);
  }
}
