/**
 The audit queue as the commands drive it. Files, appends and locks fail in every way
 they can: the choices written `*` are the environment's. Every method records the file
 operations it performs as steps of SpoolProtocol, so each contract also says that the
 call is a run of the protocol, and a crash inside a call is a prefix of that run.
 */
module AuditQueues {
  import opened Common
  import opened SpoolNames
  import opened OutcomeRecords
  import opened SpoolProtocol
  import opened SpoolRuns

  /**
   What an append reports. Accepted is a nil error; Refused an error that never reached the
   log and carries no commit state; the others are errors with a commit state.
   */
  datatype AppendState = Accepted | Refused | NotCommitted | Committed | PostCommitError | Indeterminate {
    predicate MayExist() {
      Committed? || PostCommitError? || Indeterminate?
    }

    predicate Landed() {
      Accepted? || Committed? || PostCommitError?
    }
  }

  datatype ReplayResult =
    | Drained
    | ListFailed
    | Blocked
    | SequenceUnreadable
    | ReadFailed
    | Rejected
    | AppendFailed(state: AppendState)
    | CleanupFailed
    | QuarantineFailed
  {
    /** The replay stopped at one file, rather than before looking at any. */
    predicate FileTrouble() {
      ReadFailed? || Rejected? || AppendFailed? || CleanupFailed? || QuarantineFailed?
    }
  }

  /** The results of opening an audited operation; only Opened hands out a handle. */
  datatype BeginResult =
    | Opened(handle: Handle)
    | BlankAction
    | PathUnresolved
    | NotEntered
    | QueueIncomplete
    | NoRandomId
    | IntentIncomplete(id: string, spoolFailed: bool)
    | IntentFailed
    | BeginReleaseFailed

  /** The errors of closing one; OperationResult is the operation's own error, or nil. */
  datatype FinishResult =
    | OperationResult(err: Option<OperationError>)
    | HandleRequired
    | AuditIncomplete(spoolFailed: bool)
    | FinishReleaseFailed

  /** One direct append: what it was given, what it reported, and whether the entry is in the log. */
  datatype Attempt = Attempt(entry: LogEntry, state: AppendState, landed: bool)

  /** Where a call has left an outcome record. */
  datatype Fate = InLog | Spooled | Absent

  /** White space, as Unicode has it. */
  predicate IsSpace(c: char) {
    var n := c as int;
    9 <= n <= 13 || n == 0x20 || n == 0x85 || n == 0xA0 || n == 0x1680 || 0x2000 <= n <= 0x200A
    || n == 0x2028 || n == 0x2029 || n == 0x202F || n == 0x205F || n == 0x3000
  }

  predicate Blank(s: string) {
    forall i :: 0 <= i < |s| ==> IsSpace(s[i])
  }

  // ---- Sequence checks --------------------------------------------------

  function Names(files: seq<SpoolFile>): seq<string> {
    seq(|files|, i requires 0 <= i < |files| => files[i].Name())
  }

  /** What the replay demands of the pending names and the sequence file. */
  ghost predicate SequencesConsistent(names: seq<string>, current: Option<nat>) {
    && (forall i :: 0 <= i < |names| ==> NameSequence(names[i]).Some? && NameSequence(names[i]).value > 0)
    && (forall i, j :: 0 <= i < j < |names| ==> NameSequence(names[i]) != NameSequence(names[j]))
    && (current.None? ==> names == [])
    && (current.Some? ==> forall i :: 0 <= i < |names| ==> NameSequence(names[i]).value <= current.value)
  }

  method ValidateSequence(names: seq<string>, current: Option<nat>) returns (ok: bool)
    ensures ok <==> SequencesConsistent(names, current)
  {
    hide NameSequence;
    var maxRecord: nat := 0;
    var seen: set<nat> := {};
    for k := 0 to |names|
      invariant forall i :: 0 <= i < k ==> NameSequence(names[i]).Some? && NameSequence(names[i]).value > 0
      invariant forall i, j :: 0 <= i < j < k ==> NameSequence(names[i]) != NameSequence(names[j])
      invariant forall n :: n in seen <==> exists i :: 0 <= i < k && NameSequence(names[i]) == Some(n)
      invariant forall i :: 0 <= i < k ==> NameSequence(names[i]).value <= maxRecord
      invariant maxRecord == 0 || maxRecord in seen
    {
      var sequence := NameSequence(names[k]);
      if sequence.None? || sequence.value == 0 || sequence.value in seen {
        return false;
      }
      seen := seen + {sequence.value};
      maxRecord := Max(maxRecord, sequence.value);
    }
    if current.None? {
      return names == [];
    }
    return current.value >= maxRecord;
  }

  /** The largest number in a listing, or nothing if some entry is not a spool file. */
  method LargestSequence(names: seq<string>) returns (largest: Option<nat>)
    ensures largest.Some? <==>
              forall i :: 0 <= i < |names| ==> ValidSpoolName(names[i]) && NameSequence(names[i]).Some?
    ensures largest.Some? ==>
              && (forall i :: 0 <= i < |names| ==> NameSequence(names[i]).value <= largest.value)
              && (largest.value == 0 || exists i :: 0 <= i < |names| && NameSequence(names[i]) == Some(largest.value))
  {
    var maxRecord: nat := 0;
    for k := 0 to |names|
      invariant forall i :: 0 <= i < k ==> ValidSpoolName(names[i]) && NameSequence(names[i]).Some?
      invariant forall i :: 0 <= i < k ==> NameSequence(names[i]).value <= maxRecord
      invariant maxRecord == 0 || exists i :: 0 <= i < k && NameSequence(names[i]) == Some(maxRecord)
    {
      var sequence := NameSequence(names[k]);
      if !ValidSpoolName(names[k]) || sequence.None? {
        return None;
      }
      maxRecord := Max(maxRecord, sequence.value);
    }
    return Some(maxRecord);
  }

  lemma SoundNames(q: Queue, files: seq<SpoolFile>)
    requires Inv(q) && forall f :: f in files ==> f in Spool(q)
    ensures forall i :: 0 <= i < |files| ==>
              ValidSpoolName(Names(files)[i]) && NameSequence(Names(files)[i]) == Some(files[i].sequence)
  {
    forall i | 0 <= i < |files|
      ensures ValidSpoolName(Names(files)[i]) && NameSequence(Names(files)[i]) == Some(files[i].sequence)
    {
      assert files[i] in Spool(q);
      assert SoundFile(q, files[i]);
      NameRoundTrip(files[i].sequence, RecordId(files[i].record));
    }
  }

  lemma ConsistentWhenIncreasing(names: seq<string>, files: seq<SpoolFile>, current: Option<nat>)
    requires |names| == |files| && Increasing(files)
    requires forall i :: 0 <= i < |names| ==> NameSequence(names[i]) == Some(files[i].sequence)
    requires forall f :: f in files ==> current.Some? && 0 < f.sequence <= current.value
    ensures SequencesConsistent(names, current)
  {
    hide NameSequence;
    forall i, j | 0 <= i < j < |names| ensures NameSequence(names[i]) != NameSequence(names[j]) {
      assert files[i].sequence < files[j].sequence;
    }
    forall i | 0 <= i < |names|
      ensures current.Some? && NameSequence(names[i]).Some? && 0 < NameSequence(names[i]).value <= current.value
    {
      assert files[i] in files;
    }
    if names != [] {
      assert files[0] in files;
    }
  }

  /** The queue's own files never fail the replay's sequence check. */
  lemma OwnSequencesConsistent(q: Queue)
    requires Inv(q) && q.quarantined == []
    ensures SequencesConsistent(Names(q.pending), q.sequence)
  {
    hide SequencesConsistent, NameSequence, ValidSpoolName, SpoolName, Paired, ReplayedInOrder, OutcomesPaired;
    SoundNames(q, q.pending);
    assert q.quarantined + q.pending == q.pending;
    forall f | f in q.pending ensures q.sequence.Some? && 0 < f.sequence <= q.sequence.value {
      assert f in Spool(q);
    }
    ConsistentWhenIncreasing(Names(q.pending), q.pending, q.sequence);
  }

  // ---- What a replay does to the queue -----------------------------------

  function Copies(files: seq<SpoolFile>): seq<LogEntry> {
    seq(|files|, i requires 0 <= i < |files| => files[i].Copy())
  }

  /** The queue after its first k pending files were replayed. */
  function ReplayedPrefix(q: Queue, k: nat): Queue
    requires k <= |q.pending|
  {
    q.(log := q.log + Copies(q.pending[..k]), pending := q.pending[k..])
  }

  /** Every result of a replay, with what it tells about the log and the spool. */
  ghost predicate ReplayEffect(before: Queue, after: Queue, done: nat, result: ReplayResult) {
    && done <= |before.pending|
    && match result
       case Drained =>
         done == |before.pending| && before.quarantined == [] && before.temps == {} && after == ReplayedPrefix(before, done)
       case ListFailed => after == before
       case Blocked => (before.quarantined != [] || before.temps != {}) && after == before
       case SequenceUnreadable => after == before
       case ReadFailed => done < |before.pending| && after == ReplayedPrefix(before, done)
       case Rejected =>
         && done < |before.pending| && after == ReplayedPrefix(before, done)
         && !Accepts(before.pending[done].record, before.pending[done].Name())
       case AppendFailed(state) =>
         && done < |before.pending|
         && (match state
             case Accepted => false
             case Refused => after == ReplayedPrefix(before, done)
             case NotCommitted => after == ReplayedPrefix(before, done)
             case Committed => after == ReplayedPrefix(before, done + 1)
             case PostCommitError => after == ReplayedPrefix(before, done + 1)
             case Indeterminate => QuarantinedAt(before, after, done))
       case CleanupFailed =>
         && done < |before.pending|
         && (after == ReplayedPrefix(before, done + 1) || CopiedButPending(before, after, done))
       case QuarantineFailed =>
         && done < |before.pending|
         && (QuarantinedAt(before, after, done) || CopiedButPending(before, after, done)
             || after == ReplayedPrefix(before, done))
  }

  /** A copy of the first pending file has entered the log. */
  function CopiedFirst(q: Queue): Queue
    requires q.pending != []
  {
    q.(log := q.log + [q.pending[0].Copy()])
  }

  ghost predicate QuarantinedAt(before: Queue, after: Queue, k: nat)
    requires k < |before.pending|
  {
    var moved := ReplayedPrefix(before, k).(
      pending := before.pending[k + 1..], quarantined := before.quarantined + [before.pending[k]]);
    after == moved || after == moved.(log := moved.log + [before.pending[k].Copy()])
  }

  ghost predicate CopiedButPending(before: Queue, after: Queue, k: nat)
    requires k < |before.pending|
  {
    after == ReplayedPrefix(before, k + 1).(pending := before.pending[k..])
  }

  /** Every result of writing an outcome to the spool. */
  ghost predicate SpoolEffect(before: Queue, after: Queue, record: Record, ok: bool) {
    var file := SpoolFile(NextSequence(before), record);
    && after.log == before.log && after.quarantined == before.quarantined && after.unlanded == before.unlanded
    && (after.pending == before.pending || (after.pending == before.pending + [file] && after.sequence == Some(file.sequence)))
    && (ok ==> before.temps == {} && after.temps == {} && after.pending == before.pending + [file])
    && (before.temps != {} ==> !ok && after == before)
  }

  /** A replay that did not get through. */
  ghost predicate ReplayStopped(before: Queue, after: Queue) {
    exists done: nat, result: ReplayResult :: !result.Drained? && ReplayEffect(before, after, done, result)
  }

  /** The queue with everything that was spooled replayed. */
  function AllReplayed(q: Queue): Queue {
    ReplayedPrefix(q, |q.pending|)
  }

  ghost predicate Empty(q: Queue) {
    q.quarantined == [] && q.temps == {}
  }

  /** Nothing in the queue itself stands in the way of a replay. */
  ghost predicate Unhindered(q: Queue) {
    Empty(q) && forall f :: f in q.pending ==> Accepts(f.record, f.Name())
  }

  /** The queue takes no more outcomes: a temporary file is in the way, or the last number is used up. */
  ghost predicate CannotSpool(q: Queue) {
    q.temps != {} || q.sequence == Some(MAX_UINT64)
  }

  /**
   Every way to close an operation. `middle` is the queue when the outcome was appended or spooled, and
   `attempt` its append, if it came to that.
   */
  ghost predicate FinishEffect(before: Queue, middle: Queue, after: Queue, record: Record, attempt: Option<Attempt>,
                               err: Option<OperationError>, result: FinishResult)
  {
    match attempt
    case None =>
      && (middle == before || ReplayStopped(before, middle))
      && result.AuditIncomplete?
      && (SpoolEffect(middle, after, record, !result.spoolFailed) || (result.spoolFailed && after == middle))
    case Some(a) =>
      && Empty(before) && middle == AllReplayed(before)
      && AppendOutcomeEffect(middle, after, a, record, err, result)
  }

  /** What its append made of an outcome, behind everything that was spooled. */
  ghost predicate AppendOutcomeEffect(middle: Queue, after: Queue, a: Attempt, record: Record, err: Option<OperationError>, result: FinishResult) {
    && a.entry == LogEntry(record, Direct)
    && (a.state.Landed() ==> a.landed) && (a.landed ==> a.state.Landed() || a.state.Indeterminate?)
    && match a.state
       case Accepted =>
         after == middle.(log := middle.log + [a.entry]) && (result == OperationResult(err) || result == FinishReleaseFailed)
       case Refused => result.AuditIncomplete? && SpoolEffect(middle, after, record, !result.spoolFailed)
       case NotCommitted => result.AuditIncomplete? && SpoolEffect(middle, after, record, !result.spoolFailed)
       case _ =>
         && result == AuditIncomplete(false)
         && after == if a.landed then middle.(log := middle.log + [a.entry]) else middle
  }

  /** The outcome of an operation that did not run, because its intent is uncertain. */
  function SkippedRecord(handle: Handle, now: Timestamp): Record {
    RecordOf(handle, OutcomePhase, Some(FailedBeginOutcome(handle.spec.metadata.items)), now)
  }

  /** The queue after an operation was begun: everything spooled is in the log, and the intent behind it. */
  ghost predicate Begun(before: Queue, after: Queue, handle: Handle, now: Timestamp) {
    && Empty(before)
    && after == AllReplayed(before).(
                  log := before.log + Copies(before.pending) + [LogEntry(RecordOf(handle, Intent, None, now), Direct)])
  }

  /** Every way to begin an operation. */
  ghost predicate BeginEffect(before: Queue, after: Queue, spec: Spec, now: Timestamp, random: Option<string>, result: BeginResult) {
    match result
    case Opened(handle) => random.Some? && handle == Handle(random.value, spec) && Begun(before, after, handle, now)
    case BeginReleaseFailed => random.Some? && Begun(before, after, Handle(random.value, spec), now)
    case QueueIncomplete => ReplayStopped(before, after)
    case IntentIncomplete(id, spoolFailed) =>
      && before.quarantined == [] && random == Some(id) && Paired(after, id)
      && (!spoolFailed ==> |after.pending| == 1 && after.pending[0].record == SkippedRecord(Handle(id, spec), now))
    case IntentFailed => after == AllReplayed(before)
    case NoRandomId => after == AllReplayed(before)
    case _ => after == before
  }

  /**
   Where nothing hinders the replay and no call fails, an operation is begun if it has an id. And for
   an outcome that could not be spooled either, a second call failed or the queue takes no more.
   */
  ghost predicate BeginExplained(before: Queue, spec: Spec, random: Option<string>, result: BeginResult, failed: int) {
    && (result.NoRandomId? ==> random.None?)
    && (result.Opened? ==> failed == 0)
    && (failed == 0 && Unhindered(before) && random.Some? ==> result == Opened(Handle(random.value, spec)))
    && (failed == 0 && Unhindered(before) && random.None? ==> result == NoRandomId)
    && (result.IntentIncomplete? && result.spoolFailed ==> failed >= 2 || CannotSpool(before))
  }

  ghost predicate FinishExplained(before: Queue, result: FinishResult, failed: int) {
    && (result.AuditIncomplete? || result.FinishReleaseFailed? ==> failed > 0 || !Unhindered(before))
    && (result.OperationResult? ==> failed == 0)
    && (result == AuditIncomplete(true) ==> failed >= 2 || CannotSpool(before) || (failed > 0 && !Unhindered(before)))
  }

  /** Where the record is, of what a call added to the queue. */
  ghost function FateOf(before: Queue, after: Queue, record: Record): Fate {
    if |before.log| <= |after.log| && LogEntry(record, Direct) in after.log[|before.log|..] then InLog
    else if exists f :: f in after.pending && f !in Spool(before) && f.record == record then Spooled
    else Absent
  }

  class AuditQueue {
    var log: seq<LogEntry>
    var pending: seq<SpoolFile>
    var quarantined: seq<SpoolFile>
    var sequence: Option<nat>
    var temps: set<TempFile>

    ghost var writing: Option<TempFile>
    ghost var unlanded: set<string>
    ghost var states: seq<Queue>
    ghost var ops: seq<Op>
    ghost var attempts: seq<Attempt>  // all direct appends; only Append adds to it
    ghost var failures: nat           // how many calls to the system or the log failed; only Call and Append add to it

    ghost function Snapshot(): Queue
      reads `log, `pending, `quarantined, `sequence, `temps, `writing, `unlanded
    {
      Queue(log, pending, quarantined, sequence, temps, writing, unlanded)
    }

    /** The history is a run of the protocol that ends in the present state. */
    ghost predicate Valid()
      reads `log, `pending, `quarantined, `sequence, `temps, `writing, `unlanded, `states, `ops
    {
      SoundRun(states, ops) && Last(states) == Snapshot() && Inv(Snapshot())
    }

    /** No process is in the middle of writing a file: nobody holds the queue lock. */
    ghost predicate Idle()
      reads `log, `pending, `quarantined, `sequence, `temps, `writing, `unlanded, `states, `ops
    {
      Valid() && writing.None?
    }

    constructor ()
      ensures Idle() && Snapshot() == EMPTY_QUEUE
    {
      log, pending, quarantined, sequence, temps := [], [], [], None, {};
      writing, unlanded := None, {};
      states, ops, attempts, failures := [EMPTY_QUEUE], [], [], 0;
      new;
      InitialInv();
    }

    ghost method Advance(op: Op)
      requires SoundRun(states, ops) && Inv(Last(states)) && Step(Last(states), op, Snapshot())
      modifies this`states, this`ops
      ensures Valid() && states == old(states) + [Snapshot()] && ops == old(ops) + [op]
    {
      hide Enabled, Effect, Inv;
      StepKeepsInv(Last(states), op, Snapshot());
      states, ops := states + [Snapshot()], ops + [op];
    }

    /** A crash, between any two file operations. */
    method CrashHere()
      requires Valid()
      modifies this
      ensures Idle() && Snapshot() == old(Snapshot()).(writing := None)
      ensures old(states) <= states && old(ops) <= ops && attempts == old(attempts) && failures >= old(failures)
    {
      writing := None;
      Advance(Crash);
    }

    /** One call to the system: to take or release the lock, to list, read, write, rename, remove or sync. */
    method Call() returns (ok: bool)
      modifies `failures
      ensures ok ==> failures == old(failures)
      ensures !ok ==> failures == old(failures) + 1
    {
      ok := *;
      if !ok {
        failures := failures + 1;
      }
    }

    // ---- File operations -------------------------------------------------

    ghost function AppendOp(entry: LogEntry, landed: bool): Op {
      if entry.origin.Replayed? then AppendReplay
      else match entry.record.phase
        case Intent => AppendIntent(entry.record, landed)
        case OutcomePhase => AppendOutcome(entry.record)
        case NoPhase => AppendEvent(entry.record)
    }

    /** One append to the log. Its report is honest about the commit, except that Indeterminate says nothing. */
    method Append(entry: LogEntry) returns (state: AppendState)
      requires Valid() && Enabled(Snapshot(), AppendOp(entry, true))
      requires entry.origin.Replayed? ==> entry == pending[0].Copy()
      modifies this
      ensures Valid() && old(states) <= states && old(ops) <= ops
      ensures entry.origin.Direct? ==> attempts == old(attempts) + [Attempt(entry, state, log != old(log))]
      ensures entry.origin.Replayed? ==> attempts == old(attempts)
      ensures state.Accepted? ==> failures == old(failures)
      ensures !state.Accepted? ==> failures == old(failures) + 1
      ensures Snapshot() == old(Snapshot()).(log := log, unlanded := unlanded)
      ensures log == old(log) || log == old(log) + [entry]
      ensures state.Landed() ==> log == old(log) + [entry]
      ensures state.Refused? || state.NotCommitted? ==> log == old(log)
      ensures entry.origin.Direct? && entry.record.phase == Intent && state.MayExist() ==> Paired(Snapshot(), RecordId(entry.record))
      ensures unlanded == old(unlanded)
           || (state.Indeterminate? && entry.origin.Direct? && entry.record.phase == Intent && unlanded == old(unlanded) + {RecordId(entry.record)})
    {
      hide Accepts, Inv;
      state := *;
      var landed: bool := *;
      failures := if state.Accepted? then failures else failures + 1;
      if state.Landed() || (state.Indeterminate? && landed) {
        log := log + [entry];
        Advance(AppendOp(entry, true));
        assert entry.record.phase == Intent ==> IsIntentOf(log[|log| - 1], RecordId(entry.record));
      } else if state.Indeterminate? && entry.record.phase == Intent && entry.origin.Direct? {
        unlanded := unlanded + {RecordId(entry.record)};
        Advance(AppendOp(entry, false));
      }
      if entry.origin.Direct? {
        attempts := attempts + [Attempt(entry, state, log != old(log))];
      }
    }

    /** Remove the first pending file, whose copy is in the log, and sync the directory. */
    method RemoveReplayedFile() returns (clean: bool)
      requires Idle() && Enabled(Snapshot(), RemoveReplayed)
      modifies this
      ensures Idle() && old(states) <= states && old(ops) <= ops && attempts == old(attempts) && failures >= old(failures)
      ensures Snapshot() == old(Snapshot()) || Snapshot() == old(Snapshot()).(pending := old(pending)[1..])
      ensures clean ==> Snapshot() == old(Snapshot()).(pending := old(pending)[1..])
      ensures !clean ==> failures > old(failures)
      ensures clean ==> failures == old(failures)
    {
      var removed := Call();
      if !removed {
        return false;
      }
      pending := pending[1..];
      Advance(RemoveReplayed);
      clean := Call();
    }

    /** Rename the first pending file so that it is never replayed again. */
    method MarkIndeterminate() returns (marked: bool)
      requires Idle() && Enabled(Snapshot(), Quarantine)
      modifies this
      ensures Idle() && old(states) <= states && old(ops) <= ops && attempts == old(attempts) && failures >= old(failures)
      ensures Snapshot() == old(Snapshot()) || Snapshot() == Effect(old(Snapshot()), Quarantine)
      ensures marked ==> Snapshot() == Effect(old(Snapshot()), Quarantine)
    {
      var renamed := Call();
      if !renamed {
        return false;
      }
      pending, quarantined := pending[1..], quarantined + [pending[0]];
      Advance(Quarantine);
      marked := Call();
    }

    // ---- Replay ------------------------------------------------------------

    /** Validate, append and remove the first pending file. Drained means: go on with the next one. */
    method ReplayFirst() returns (result: ReplayResult)
      requires Idle() && pending != [] && quarantined == [] && temps == {}
      modifies this
      ensures Idle() && old(states) <= states && old(ops) <= ops && attempts == old(attempts) && failures >= old(failures)
      ensures result.Drained? ==> Snapshot() == ReplayedPrefix(old(Snapshot()), 1)
      ensures !result.Drained? ==> result.FileTrouble() && ReplayEffect(old(Snapshot()), Snapshot(), 0, result)
      ensures !result.Drained? ==> failures > old(failures) || result.Rejected?
      ensures result.Drained? ==> failures == old(failures)
    {
      hide Valid, Inv, SoundRun, Accepts, ReplayedPrefix, ReplayEffect;
      ghost var before := Snapshot();
      var file := pending[0];
      var readable := Call();
      if !readable {
        TroubleBefore(before, ReadFailed);
        return ReadFailed;
      }
      if !Accepts(file.record, file.Name()) {
        TroubleBefore(before, Rejected);
        return Rejected;
      }
      var state := Append(file.Copy());
      result := SettleReplayed(state, before);
    }

    /** Remove, keep or quarantine the first pending file, as its append reported. */
    method SettleReplayed(state: AppendState, ghost before: Queue) returns (result: ReplayResult)
      requires Idle() && pending != [] && quarantined == [] && temps == {}
      requires before.quarantined == [] && before.temps == {} && before.pending == pending
      requires Snapshot() == before || Snapshot() == CopiedFirst(before)
      requires state.Landed() ==> Snapshot() == CopiedFirst(before)
      requires state.Refused? || state.NotCommitted? ==> Snapshot() == before
      modifies this
      ensures Idle() && old(states) <= states && old(ops) <= ops && attempts == old(attempts) && failures >= old(failures)
      ensures result.Drained? ==> Snapshot() == ReplayedPrefix(before, 1)
      ensures !result.Drained? ==> result.FileTrouble() && ReplayEffect(before, Snapshot(), 0, result)
      ensures !result.Drained? && state.Accepted? ==> failures > old(failures)
      ensures result.Drained? ==> state.Accepted? && failures == old(failures)
    {
      FirstReplayed(before);
      hide Valid, Inv, SoundRun, Accepts, ReplayedPrefix, ReplayEffect, Effect, CopiedButPending;
      ghost var appended := Snapshot();
      if state.Indeterminate? {
        var marked := MarkIndeterminate();
        result := if marked then AppendFailed(state) else QuarantineFailed;
        TroubleInDoubt(before, appended, Snapshot(), result);
      } else if !state.Accepted? && !state.MayExist() {
        result := AppendFailed(state);
        TroubleBefore(before, result);
      } else {
        var clean := RemoveReplayedFile();
        if !clean {
          result := CleanupFailed;
          TroubleAfter(before, Snapshot(), result);
        } else if state.Accepted? {
          result := ReplayResult.Drained;
        } else {
          result := AppendFailed(state);
          TroubleAfter(before, Snapshot(), result);
        }
      }
    }

    /**
     Replay the whole spool in order, stopping at the first trouble. `done` counts the files
     that were copied and removed before it.
     */
    method Replay() returns (result: ReplayResult, ghost done: nat)
      requires Idle()
      modifies this
      ensures Idle() && old(states) <= states && old(ops) <= ops && attempts == old(attempts) && failures >= old(failures)
      ensures ReplayEffect(old(Snapshot()), Snapshot(), done, result)
      ensures old(log) <= log && unlanded == old(unlanded)
      ensures old(quarantined) != [] || old(temps) != {} ==> !result.Drained? && Snapshot() == old(Snapshot())
      ensures !result.Drained? ==> failures > old(failures) || !Unhindered(old(Snapshot()))
      ensures result.Drained? ==> failures == old(failures)
    {
      hide Accepts, SoundRun, ReplayEffect;
      ghost var before := Snapshot();
      NothingReplayedYet(before);
      NothingDone(before);
      done := 0;
      var listed := Call();
      if !listed {
        return ListFailed, 0;
      }
      if quarantined != [] || temps != {} {
        return Blocked, 0;
      }
      OwnSequencesConsistent(before);
      var sequenceRead := Call();
      var consistent := ValidateSequence(Names(pending), sequence);
      if !sequenceRead || !consistent {
        return SequenceUnreadable, 0;
      }
      var count := |pending|;
      hide Inv;
      for i := 0 to count
        invariant Idle() && old(states) <= states && old(ops) <= ops && attempts == old(attempts) && failures == old(failures)
        invariant done == i && Snapshot() == ReplayedPrefix(before, i)
      {
        ghost var mid := Snapshot();
        var step := ReplayFirst();
        if !step.Drained? {
          ShiftEffect(before, i, Snapshot(), step);
          EffectGrows(before, Snapshot(), i, step);
          if step.Rejected? {
            RejectionHinders(before, Snapshot(), i, step);
          }
          return step, i;
        }
        PrefixOfRest(before, i);
        done := done + 1;
      }
      AllDone(before);
      EffectGrows(before, Snapshot(), count, Drained);
      return Drained, count;
    }

    // ---- Writing an outcome to the spool -------------------------------------

    method CreateTempFile(temp: TempFile) returns (created: bool)
      requires Idle() && temps == {}
      modifies this
      ensures Valid() && old(states) <= states && old(ops) <= ops && attempts == old(attempts) && failures >= old(failures)
      ensures created ==> Snapshot() == Effect(old(Snapshot()), CreateTemp(temp))
      ensures !created ==> Snapshot() == old(Snapshot()) && failures > old(failures)
      ensures created ==> failures == old(failures)
    {
      hide Inv, SoundRun;
      created := Call();
      if created {
        temps, writing := temps + {temp}, Some(temp);
        Advance(CreateTemp(temp));
      }
    }

    /** The deferred clean-up of a file that was not completed; its own failure is ignored. */
    method DiscardTempFile(temp: TempFile)
      requires Valid() && writing == Some(temp)
      modifies this
      ensures Idle() && old(states) <= states && old(ops) <= ops && attempts == old(attempts) && failures >= old(failures)
      ensures Snapshot() == old(Snapshot()).(writing := None) || Snapshot() == Effect(old(Snapshot()), RemoveTemp)
    {
      hide Inv, SoundRun;
      var removed := Call();
      if removed {
        temps, writing := temps - {temp}, None;
        Advance(RemoveTemp);
      } else {
        CrashHere();
      }
    }

    /** The number the next file will get, if the listing and the sequence file allow one. */
    method PlanSequence() returns (next: Option<nat>)
      requires Idle()
      modifies `failures
      ensures failures >= old(failures)
      ensures next.Some? ==> temps == {} && next == Some(NextSequence(Snapshot())) && next.value <= MAX_UINT64
      ensures next.None? ==> failures > old(failures) || CannotSpool(Snapshot())
      ensures next.Some? ==> failures == old(failures)
    {
      hide SoundRun, NameSequence, ValidSpoolName;
      var listed := Call();
      if !listed || temps != {} {
        return None;
      }
      var sequenceRead := Call();
      if !sequenceRead {
        return None;
      }
      var names := Names(pending + quarantined);
      SoundNames(Snapshot(), pending + quarantined);
      var largest := LargestSequence(names);
      if largest.None? {
        return None;
      }
      NamesBoundSequences(Snapshot(), names, largest.value);
      var current := if sequence.None? then largest.value else sequence.value;
      return if current < largest.value || current == MAX_UINT64 then None else Some(current + 1);
    }

    /** Replace the sequence file by the temporary one. */
    method CommitSequenceFile(next: nat)
      requires Valid() && Enabled(Snapshot(), CommitSequence) && next == NextSequence(Snapshot())
      modifies this
      ensures Idle() && old(states) <= states && old(ops) <= ops && attempts == old(attempts) && failures == old(failures)
      ensures Snapshot() == Effect(old(Snapshot()), CommitSequence) && Fresh(Snapshot(), next)
    {
      ghost var before := Snapshot();
      hide Inv, SoundRun, Fresh, Enabled, Effect, Step, NextSequence;
      sequence, temps, writing := Some(next), temps - {SequenceTemp}, None;
      SequenceStep(before, Snapshot(), next);
      Advance(CommitSequence);
    }

    /** Allocate the next sequence number and make it durable before it is used. */
    method NextSpoolSequence() returns (next: Option<nat>)
      requires Idle()
      modifies this
      ensures Idle() && old(states) <= states && old(ops) <= ops && attempts == old(attempts) && failures >= old(failures)
      ensures Snapshot() == old(Snapshot()).(sequence := sequence, temps := temps)
      ensures sequence == old(sequence) || sequence == Some(NextSequence(old(Snapshot())))
      ensures next.Some? ==> next == sequence == Some(NextSequence(old(Snapshot()))) && temps == {} && Fresh(Snapshot(), next.value)
      ensures old(temps) != {} ==> next.None? && Snapshot() == old(Snapshot())
      ensures next.None? ==> failures > old(failures) || CannotSpool(old(Snapshot()))
      ensures next.Some? ==> failures == old(failures)
    {
      hide Valid, Inv, SoundRun, Fresh;
      var planned := PlanSequence();
      if planned.None? {
        return None;
      }
      var created := CreateTempFile(SequenceTemp);
      if !created {
        return None;
      }
      var replaced := Call();
      if !replaced {
        DiscardTempFile(SequenceTemp);
        return None;
      }
      CommitSequenceFile(planned.value);
      var verified := Call();
      return if verified then planned else None;
    }

    /** Write one outcome record under a new number: temporary file, then rename. */
    method WriteSpoolRecord(record: Record) returns (ok: bool)
      requires Idle() && record.phase == OutcomePhase && ValidId(RecordId(record)) && Paired(Snapshot(), RecordId(record))
      modifies this
      ensures Idle() && old(states) <= states && old(ops) <= ops && attempts == old(attempts) && failures >= old(failures)
      ensures SpoolEffect(old(Snapshot()), Snapshot(), record, ok)
      ensures !ok ==> failures > old(failures) || CannotSpool(old(Snapshot()))
      ensures ok ==> failures == old(failures)
    {
      hide Valid, Inv, SoundRun, Accepts, SpoolName, ValidId, Fresh;
      var encoded := Call();
      if !encoded {
        return false;
      }
      var next := NextSpoolSequence();
      if next.None? {
        return false;
      }
      ok := StoreRecordFile(record, next.value);
    }

    /** The file of one record under its number. */
    method StoreRecordFile(record: Record, number: nat) returns (ok: bool)
      requires Idle() && record.phase == OutcomePhase && ValidId(RecordId(record)) && Paired(Snapshot(), RecordId(record))
      requires temps == {} && sequence == Some(number) && Fresh(Snapshot(), number)
      modifies this
      ensures Idle() && old(states) <= states && old(ops) <= ops && attempts == old(attempts) && failures >= old(failures)
      ensures Snapshot() == old(Snapshot()).(pending := pending, temps := temps)
      ensures pending == old(pending) || pending == old(pending) + [SpoolFile(number, record)]
      ensures ok ==> temps == {} && pending == old(pending) + [SpoolFile(number, record)] && failures == old(failures)
      ensures !ok ==> failures > old(failures)
    {
      hide Valid, Inv, SoundRun, Accepts, SpoolName, ValidId;
      var temp := RecordTemp(SpoolName(number, RecordId(record)));
      var created := CreateTempFile(temp);
      if !created {
        return false;
      }
      var renamed := Call();
      if !renamed {
        DiscardTempFile(temp);
        return false;
      }
      CommitRecordFile(record, number);
      ok := Call();
    }

    /** Rename the temporary record file into the listing. */
    method CommitRecordFile(record: Record, number: nat)
      requires Valid() && Enabled(Snapshot(), CommitRecord(record)) && sequence == Some(number)
      modifies this
      ensures Idle() && old(states) <= states && old(ops) <= ops && attempts == old(attempts) && failures == old(failures)
      ensures Snapshot() == old(Snapshot()).(pending := old(pending) + [SpoolFile(number, record)], temps := temps, writing := None)
      ensures temps == old(temps) - {RecordTemp(SpoolName(number, RecordId(record)))}
    {
      CommitRecordKeepsInv(Snapshot(), CommitRecord(record));
      hide Inv, SoundRun, Accepts, Fresh, SpoolName, ValidId;
      pending := InsertByName(pending, SpoolFile(number, record));
      temps, writing := temps - {RecordTemp(SpoolName(number, RecordId(record)))}, None;
      Advance(CommitRecord(record));
    }

    // ---- Commands -----------------------------------------------------------

    /** Anything other processes do between two of our lock sections: some run of the protocol. */
    method OtherProcesses()
      requires Idle()
      modifies this
      ensures Idle() && old(states) <= states && old(ops) <= ops && attempts == old(attempts) && failures == old(failures)
      ensures old(log) <= log && old(unlanded) <= unlanded
    {
      // Callers know only the contract.
    }

    /**
     Replay what is spooled, then append the intent. A handle is returned only when nothing was
     left pending or quarantined and the intent is in the log behind every replayed outcome.
     */
    method Begin(spec: Spec, now: Timestamp, path: bool, random: Option<string>) returns (result: BeginResult)
      requires Idle() && (random.Some? ==> ValidId(random.value))
      modifies this
      ensures Idle() && old(states) <= states && old(ops) <= ops && failures >= old(failures)
      ensures BeginEffect(old(Snapshot()), Snapshot(), spec, now, random, result)
      ensures result.BlankAction? || result.PathUnresolved? || BeginExplained(old(Snapshot()), spec, random, result, failures - old(failures))
      ensures result.BlankAction? <==> forall i :: 0 <= i < |spec.action| ==> IsSpace(spec.action[i])
      ensures forall i :: 0 <= i < |spec.action| && '!' <= spec.action[i] <= '~' ==> !result.BlankAction?
      ensures result.PathUnresolved? <==> !result.BlankAction? && !path
      ensures !old(Empty(Snapshot())) ==> Snapshot() == old(Snapshot())
      ensures old(AllOwn(Snapshot())) && WellFormedSpec(spec) && UtcNow(now) ==> AllOwn(Snapshot())
    {
      hide Valid, Inv, SoundRun, BeginEffect, AllOwn, WellFormedSpec, UtcNow;
      ghost var before := Snapshot();
      NotBegun(before, spec, now, random);
      if Blank(spec.action) {
        return BlankAction;
      }
      if !path {
        return PathUnresolved;
      }
      var entered := Call();
      if !entered {
        return NotEntered;
      }
      result := BeginEntered(spec, now, random);
      var released := Call();
      if result.Opened? && !released {
        ReleaseFails(before, Snapshot(), spec, now, random, result);
        result := BeginReleaseFailed;
      }
    }

    /** The part of it under the queue lock. */
    method BeginEntered(spec: Spec, now: Timestamp, random: Option<string>) returns (result: BeginResult)
      requires Idle() && (random.Some? ==> ValidId(random.value))
      modifies this
      ensures Idle() && old(states) <= states && old(ops) <= ops && failures >= old(failures)
      ensures BeginEffect(old(Snapshot()), Snapshot(), spec, now, random, result)
      ensures BeginExplained(old(Snapshot()), spec, random, result, failures - old(failures))
      ensures !result.BlankAction? && !result.PathUnresolved?
      ensures !old(Empty(Snapshot())) ==> Snapshot() == old(Snapshot())
      ensures old(AllOwn(Snapshot())) && WellFormedSpec(spec) && UtcNow(now) ==> AllOwn(Snapshot())
    {
      hide Valid, Inv, SoundRun, Accepts, OwnRecord, ReplayStopped, WellFormedSpec, UtcNow, Paired, SkippedRecord, Unhindered;
      if random.Some? && WellFormedSpec(spec) && UtcNow(now) {
        SkippedIsOwn(Handle(random.value, spec), now);
      }
      ghost var before := Snapshot();
      var replay := ReplayAll();
      if !replay.Drained? {
        StoppedGrows(before, Snapshot());
        return QueueIncomplete;
      }
      if random.None? {
        return NoRandomId;
      }
      assert before.pending[..|before.pending|] == before.pending;
      result := AppendIntentRecord(Handle(random.value, spec), now);
    }

    /** Append the intent; if it failed but may be in the log, spool the skipped outcome. */
    method AppendIntentRecord(handle: Handle, now: Timestamp) returns (result: BeginResult)
      requires Idle() && Clean(Snapshot()) && ValidId(handle.id)
      modifies this
      ensures Idle() && old(states) <= states && old(ops) <= ops && failures >= old(failures)
      ensures !result.Opened? <==> failures > old(failures)
      ensures result.IntentIncomplete? && result.spoolFailed ==> failures >= old(failures) + 2 || CannotSpool(old(Snapshot()))
      ensures result == Opened(handle) || result.IntentIncomplete? || result == IntentFailed
      ensures result.Opened? ==> Snapshot() == old(Snapshot()).(log := old(log) + [LogEntry(RecordOf(handle, Intent, None, now), Direct)])
      ensures result.IntentIncomplete? ==>
                && result.id == handle.id && Paired(Snapshot(), handle.id)
                && (!result.spoolFailed ==>
                      |pending| == 1 && pending[0].record == SkippedRecord(handle, now))
      ensures result.IntentFailed? ==> Snapshot() == old(Snapshot())
      ensures forall f :: f in pending ==> f.record == SkippedRecord(handle, now)
    {
      hide Valid, Inv, SoundRun, Accepts;
      var state := Append(LogEntry(RecordOf(handle, Intent, None, now), Direct));
      if state.MayExist() {
        ghost var middle := Snapshot();
        var ok := WriteSpoolRecord(SkippedRecord(handle, now));
        PairedGrows(middle, Snapshot(), handle.id);
        return IntentIncomplete(handle.id, !ok);
      }
      return if state.Accepted? then Opened(handle) else IntentFailed;
    }

    /**
     Close an operation, in one of the ways FinishEffect lists. The operation's own error (or nil) comes back
     only if its outcome is in the log.
     */
    method Finish(handle: Option<Handle>, outcome: Outcome, err: Option<OperationError>, now: Timestamp)
      returns (result: FinishResult, ghost middle: Queue, ghost attempt: Option<Attempt>)
      requires Idle()
      requires handle.Some? ==> ValidId(handle.value.id) && Paired(Snapshot(), handle.value.id)
      modifies this
      ensures Idle() && old(states) <= states && old(ops) <= ops && old(log) <= log && failures >= old(failures)
      ensures FinishExplained(old(Snapshot()), result, failures - old(failures))
      ensures result.HandleRequired? <==> handle.None?
      ensures handle.None? ==> Snapshot() == old(Snapshot())
      ensures attempts == old(attempts) + if attempt.Some? then [attempt.value] else []
      ensures handle.Some? ==>
                FinishEffect(old(Snapshot()), middle, Snapshot(),
                             RecordOf(handle.value, OutcomePhase, Some(Normalize(outcome, err)), now), attempt, err, result)
    {
      hide Valid, Inv, SoundRun, FinishEffect, CannotSpool, Unhindered;
      middle, attempt := Snapshot(), None;
      if handle.None? {
        return HandleRequired, middle, None;
      }
      var record := RecordOf(handle.value, OutcomePhase, Some(Normalize(outcome, err)), now);
      ghost var before := Snapshot();
      var entered := Call();
      if !entered {
        var spoolFailed := SpoolEmergency(record);
        NotFinished(before, Snapshot(), record, err, spoolFailed, failures - old(failures));
        return AuditIncomplete(spoolFailed), middle, None;
      }
      result, middle, attempt := FinishEntered(record, err);
      assert !result.HandleRequired? by { EffectNamesNoHandle(before, middle, Snapshot(), record, attempt, err, result); }
      var released := Call();
      if result.OperationResult? && !released {
        FinishNotReleased(before, middle, Snapshot(), record, attempt, err, result, failures - old(failures));
        result := FinishReleaseFailed;
      }
    }

    /** The part of it under the queue lock. */
    method FinishEntered(record: Record, err: Option<OperationError>)
      returns (result: FinishResult, ghost middle: Queue, ghost attempt: Option<Attempt>)
      requires Idle() && record.phase == OutcomePhase && ValidId(RecordId(record)) && Paired(Snapshot(), RecordId(record))
      modifies this
      ensures Idle() && old(states) <= states && old(ops) <= ops && old(log) <= log && failures >= old(failures)
      ensures FinishExplained(old(Snapshot()), result, failures - old(failures))
      ensures attempts == old(attempts) + if attempt.Some? then [attempt.value] else []
      ensures FinishEffect(old(Snapshot()), middle, Snapshot(), record, attempt, err, result)
    {
      hide Valid, Inv, SoundRun, Accepts, ReplayEffect, SpoolEffect, ReplayStopped, Unhindered;
      ghost var before := Snapshot();
      var replay := ReplayAll();
      middle, attempt := Snapshot(), None;
      PairedGrows(before, middle, RecordId(record));
      if !replay.Drained? {
        var ok := WriteSpoolRecord(record);
        SpoolGrows(middle, Snapshot(), record, ok);
        return AuditIncomplete(!ok), middle, None;
      }
      result, attempt := AppendOutcomeRecord(record, err);
    }

    /** Append the outcome behind the replayed spool, and spool it if it certainly is not in the log. */
    method AppendOutcomeRecord(record: Record, err: Option<OperationError>) returns (result: FinishResult, ghost attempt: Option<Attempt>)
      requires Idle() && Clean(Snapshot()) && record.phase == OutcomePhase && ValidId(RecordId(record)) && Paired(Snapshot(), RecordId(record))
      modifies this
      ensures Idle() && old(states) <= states && old(ops) <= ops && old(log) <= log && failures >= old(failures)
      ensures attempt.Some? && attempts == old(attempts) + [attempt.value]
      ensures AppendOutcomeEffect(old(Snapshot()), Snapshot(), attempt.value, record, err, result)
      ensures !result.OperationResult? <==> failures > old(failures)
      ensures result == AuditIncomplete(true) ==> failures >= old(failures) + 2 || CannotSpool(old(Snapshot()))
    {
      hide Valid, Inv, SoundRun, Accepts, SpoolEffect;
      var entry := LogEntry(record, Direct);
      ghost var middle := Snapshot();
      var state := Append(entry);
      attempt := Some(Attempt(entry, state, log != middle.log));
      if state.MayExist() {
        return AuditIncomplete(false), attempt;
      }
      if !state.Accepted? {
        var ok := WriteSpoolRecord(record);
        SpoolGrows(middle, Snapshot(), record, ok);
        return AuditIncomplete(!ok), attempt;
      }
      return OperationResult(err), attempt;
    }

    /** A replay, with what its two ends mean. */
    method ReplayAll() returns (result: ReplayResult)
      requires Idle()
      modifies this
      ensures Idle() && old(states) <= states && old(ops) <= ops && attempts == old(attempts) && failures >= old(failures)
      ensures old(log) <= log && unlanded == old(unlanded) && sequence == old(sequence) && temps == old(temps)
      ensures result.Drained? ==> old(Empty(Snapshot())) && Snapshot() == AllReplayed(old(Snapshot()))
      ensures !result.Drained? ==> ReplayStopped(old(Snapshot()), Snapshot())
      ensures !old(Empty(Snapshot())) ==> !result.Drained? && Snapshot() == old(Snapshot())
      ensures !result.Drained? ==> failures > old(failures) || !Unhindered(old(Snapshot()))
      ensures result.Drained? ==> failures == old(failures)
    {
      hide ReplayEffect, Inv, SoundRun, Unhindered;
      ghost var done, before := 0, Snapshot();
      result, done := Replay();
      EffectCopies(before, Snapshot(), done, result);
      EffectDrains(before, Snapshot(), done, result);
    }

    /** Spool without replaying, when the queue could not be entered. */
    method SpoolEmergency(record: Record) returns (failed: bool)
      requires Idle() && record.phase == OutcomePhase && ValidId(RecordId(record)) && Paired(Snapshot(), RecordId(record))
      modifies this
      ensures Idle() && old(states) <= states && old(ops) <= ops && attempts == old(attempts) && failures >= old(failures) && log == old(log)
      ensures SpoolEffect(old(Snapshot()), Snapshot(), record, !failed) || (failed && Snapshot() == old(Snapshot()))
      ensures failed ==> failures > old(failures) || CannotSpool(old(Snapshot()))
      ensures !failed ==> failures == old(failures)
    {
      hide Valid, Inv, SoundRun;
      var entered := Call();
      if !entered {
        return true;
      }
      var ok := WriteSpoolRecord(record);
      var released := Call();
      return !ok || !released;
    }

    /** Events that are not operations go through the same queue, behind everything spooled. */
    method AppendEventRecord(record: Record) returns (recorded: bool)
      requires Idle() && record.phase == NoPhase
      modifies this
      ensures Idle() && old(states) <= states && old(ops) <= ops && failures >= old(failures)
      ensures !recorded ==> failures > old(failures) || !Unhindered(old(Snapshot()))
      ensures recorded ==> failures == old(failures)
      ensures recorded ==>
                && old(quarantined) == [] && old(temps) == {}
                && log == old(log) + Copies(old(pending)) + [LogEntry(record, Direct)] && pending == []
      ensures old(quarantined) != [] || old(temps) != {} ==> !recorded && Snapshot() == old(Snapshot())
    {
      hide Valid, Inv, SoundRun, Accepts;
      var entered := Call();
      if !entered {
        return false;
      }
      var replay := ReplayAll();
      if !replay.Drained? {
        return false;
      }
      assert old(pending)[..|old(pending)|] == old(pending);
      var state := Append(LogEntry(record, Direct));
      var released := Call();
      return state.Accepted? && released;
    }

  }

  /** The largest number found in the listing is the one the next allocation starts from. */
  lemma NamesBoundSequences(q: Queue, names: seq<string>, largest: nat)
    requires Inv(q) && names == Names(Spool(q))
    requires forall i :: 0 <= i < |names| ==> NameSequence(names[i]).Some? && NameSequence(names[i]).value <= largest
    requires largest == 0 || exists i :: 0 <= i < |names| && NameSequence(names[i]) == Some(largest)
    ensures q.sequence.Some? ==> largest <= q.sequence.value
    ensures q.sequence.None? ==> largest == 0 && Spool(q) == []
  {
    hide NameSequence, ValidSpoolName, SpoolName, Paired, ReplayedInOrder, OutcomesPaired;
    var files := Spool(q);
    SoundNames(q, files);
    assert files != [] ==> files[0] in files;
    if largest != 0 {
      var i :| 0 <= i < |names| && NameSequence(names[i]) == Some(largest);
      assert files[i] in files;
    }
  }

  /** Trouble before the first file's copy could enter the log. */
  lemma TroubleBefore(q: Queue, result: ReplayResult)
    requires q.pending != []
    requires || result == ReadFailed || result == AppendFailed(Refused) || result == AppendFailed(NotCommitted)
             || (result == Rejected && !Accepts(q.pending[0].record, q.pending[0].Name()))
    ensures ReplayEffect(q, q, 0, result)
  {
    NothingReplayedYet(q);
  }

  /** Trouble after the copy certainly entered it. */
  lemma TroubleAfter(q: Queue, after: Queue, result: ReplayResult)
    requires q.pending != []
    requires || (after == q.(log := q.log + [q.pending[0].Copy()], pending := q.pending[1..])
                 && (result == AppendFailed(Committed) || result == AppendFailed(PostCommitError)))
             || ((after == CopiedFirst(q) || after == CopiedFirst(q).(pending := q.pending[1..])) && result == CleanupFailed)
    ensures ReplayEffect(q, after, 0, result)
  {
    FirstReplayed(q);
  }

  /** Trouble when nobody knows whether it did. */
  lemma TroubleInDoubt(q: Queue, appended: Queue, after: Queue, result: ReplayResult)
    requires q.pending != [] && (appended == q || appended == CopiedFirst(q))
    requires || (after == Effect(appended, Quarantine) && (result == AppendFailed(Indeterminate) || result == QuarantineFailed))
             || (after == appended && result == QuarantineFailed)
    ensures ReplayEffect(q, after, 0, result)
  {
    NothingReplayedYet(q);
    FirstReplayed(q);
  }

  /** A rejected file was in the way from the beginning. */
  lemma RejectionHinders(before: Queue, after: Queue, done: nat, result: ReplayResult)
    requires ReplayEffect(before, after, done, result) && result.Rejected?
    ensures !Unhindered(before)
  {
    assert before.pending[done] in before.pending;
  }

  lemma SpoolGrows(before: Queue, after: Queue, record: Record, ok: bool)
    requires SpoolEffect(before, after, record, ok)
    ensures before.log == after.log && before.unlanded == after.unlanded
  {
  }

  // ---- Where an outcome is when its operation is closed ---------------------

  /** A stopped replay has only appended copies to the log, and spooled nothing. */
  lemma StoppedGrows(before: Queue, after: Queue)
    requires ReplayStopped(before, after)
    ensures before.log <= after.log && after.sequence == before.sequence && after.temps == before.temps
    ensures forall e: LogEntry :: e in after.log[|before.log|..] ==> e.origin.Replayed?
    ensures forall f :: f in after.pending ==> f in before.pending
  {
    hide Accepts;
    var done: nat, result: ReplayResult :| !result.Drained? && ReplayEffect(before, after, done, result);
    EffectGrows(before, after, done, result);
    EffectCopies(before, after, done, result);
  }

  lemma EffectDrains(before: Queue, after: Queue, done: nat, result: ReplayResult)
    requires ReplayEffect(before, after, done, result)
    ensures result.Drained? ==> Empty(before) && after == AllReplayed(before)
    ensures !result.Drained? ==> ReplayStopped(before, after)
  {
  }

  lemma CopiesAreReplayed(before: seq<LogEntry>, files: seq<SpoolFile>, more: seq<LogEntry>)
    requires forall e: LogEntry :: e in more ==> e.origin.Replayed?
    ensures forall e: LogEntry :: e in (before + Copies(files) + more)[|before|..] ==> e.origin.Replayed?
  {
    assert (before + Copies(files) + more)[|before|..] == Copies(files) + more;
  }

  lemma EffectCopies(before: Queue, after: Queue, done: nat, result: ReplayResult)
    requires ReplayEffect(before, after, done, result)
    ensures before.log <= after.log && after.sequence == before.sequence && after.temps == before.temps
    ensures forall e: LogEntry :: e in after.log[|before.log|..] ==> e.origin.Replayed?
    ensures forall f :: f in after.pending ==> f in before.pending
  {
    hide Accepts;
    CopiesAreReplayed(before.log, [], []);
    assert before.log + Copies([]) + [] == before.log;
    CopiesAreReplayed(before.log, before.pending[..done], []);
    if done < |before.pending| {
      assert Copies(before.pending[..done + 1]) == Copies(before.pending[..done]) + [before.pending[done].Copy()];
      CopiesAreReplayed(before.log, before.pending[..done], [before.pending[done].Copy()]);
    }
  }

  lemma FreshFile(before: Queue, middle: Queue, record: Record)
    requires Inv(before) && middle.sequence == before.sequence
    ensures SpoolFile(NextSequence(middle), record) !in Spool(before)
  {
    var file := SpoolFile(NextSequence(middle), record);
    forall f | f in Spool(before) ensures f != file {
      assert SoundFile(before, f);
    }
  }

  /** A successful spooling is seen from the state before the whole call. */
  lemma SpooledIsNew(before: Queue, middle: Queue, after: Queue, record: Record)
    requires Inv(before) && SpoolEffect(middle, after, record, true) && middle.sequence == before.sequence
    requires before.log <= middle.log && forall e: LogEntry :: e in middle.log[|before.log|..] ==> e.origin.Replayed?
    ensures FateOf(before, after, record) == Spooled
  {
    hide Inv;
    FreshFile(before, middle, record);
    assert SpoolFile(NextSequence(middle), record) in after.pending;
  }

  lemma AllReplayedGrows(q: Queue)
    ensures q.log <= AllReplayed(q).log && AllReplayed(q).pending == [] && AllReplayed(q).sequence == q.sequence
    ensures forall e: LogEntry :: e in AllReplayed(q).log[|q.log|..] ==> e.origin.Replayed?
  {
    assert q.pending[..|q.pending|] == q.pending;
    CopiesAreReplayed(q.log, q.pending, []);
    assert q.log + Copies(q.pending) + [] == q.log + Copies(q.pending);
  }

  /**
   An outcome whose spooling was not reported as failed is nowhere exactly when its own append was
   indeterminate and did not land. Nothing tells the caller: this is the one way to lose an outcome.
   */
  lemma AbsentExactly(before: Queue, middle: Queue, after: Queue, record: Record, attempt: Option<Attempt>, err: Option<OperationError>)
    requires Inv(before) && FinishEffect(before, middle, after, record, attempt, err, AuditIncomplete(false))
    ensures FateOf(before, after, record) == Absent
       <==> attempt == Some(Attempt(LogEntry(record, Direct), Indeterminate, false))
  {
    hide Inv, SpoolEffect, ReplayStopped;
    AllReplayedGrows(before);
    match attempt
    case None =>
      if middle != before {
        StoppedGrows(before, middle);
      }
      SpooledIsNew(before, middle, after, record);
    case Some(a) =>
      if a.state.Refused? || a.state.NotCommitted? {
        SpooledIsNew(before, middle, after, record);
      } else if a.landed {
        LandedIsInLog(before, record);
      }
  }

  lemma LandedIsInLog(before: Queue, record: Record)
    ensures var entry := LogEntry(record, Direct);
            var after := AllReplayed(before).(log := AllReplayed(before).log + [entry]);
            before.log <= after.log && entry in after.log[|before.log|..] && FateOf(before, after, record) == InLog
  {
    AllReplayedGrows(before);
    var entry := LogEntry(record, Direct);
    var log := AllReplayed(before).log + [entry];
    assert log[|before.log|..][|log| - 1 - |before.log|] == entry;
  }

  /** The operation's own error means that its outcome is in the log. */
  lemma OwnErrorMeansRecorded(before: Queue, middle: Queue, after: Queue, record: Record, attempt: Option<Attempt>,
                              err: Option<OperationError>, result: FinishResult)
    requires FinishEffect(before, middle, after, record, attempt, err, result)
    requires result.OperationResult? || result.FinishReleaseFailed?
    ensures FateOf(before, after, record) == InLog && (result.OperationResult? ==> result.err == err)
    ensures Empty(before) && after == AllReplayed(before).(log := AllReplayed(before).log + [LogEntry(record, Direct)])
  {
    LandedIsInLog(before, record);
  }

  /** An outcome that is nowhere is reported as a failed spooling, but for that one input. */
  lemma AbsenceIsReported(before: Queue, middle: Queue, after: Queue, record: Record, attempt: Option<Attempt>,
                          err: Option<OperationError>, result: FinishResult)
    requires Inv(before) && FinishEffect(before, middle, after, record, attempt, err, result)
    requires FateOf(before, after, record) == Absent
    ensures result == AuditIncomplete(true)
         || (result == AuditIncomplete(false) && attempt == Some(Attempt(LogEntry(record, Direct), Indeterminate, false)))
  {
    hide Inv, SpoolEffect, ReplayStopped;
    if result.OperationResult? || result.FinishReleaseFailed? {
      OwnErrorMeansRecorded(before, middle, after, record, attempt, err, result);
      assert false;
    } else if result == AuditIncomplete(false) {
      AbsentExactly(before, middle, after, record, attempt, err);
    }
  }

  /** Closing an operation with one of the commands' outcomes leaves only such outcomes to replay. */
  lemma FinishKeepsOwn(before: Queue, middle: Queue, after: Queue, record: Record, attempt: Option<Attempt>,
                       err: Option<OperationError>, result: FinishResult)
    requires FinishEffect(before, middle, after, record, attempt, err, result)
    requires AllOwn(before) && OwnRecord(record)
    ensures AllOwn(after)
  {
    hide ReplayStopped, OwnRecord;
    AllReplayedGrows(before);
    if middle != before && attempt.None? {
      StoppedGrows(before, middle);
    }
  }

  lemma SequenceStep(before: Queue, after: Queue, next: nat)
    requires Inv(before) && Enabled(before, CommitSequence) && next == NextSequence(before)
    requires after == before.(sequence := Some(next), temps := before.temps - {SequenceTemp}, writing := None)
    ensures Step(before, CommitSequence, after) && after == Effect(before, CommitSequence) && Fresh(after, next)
  {
    CommitSequenceKeepsInv(before);
  }

  lemma NotFinished(before: Queue, after: Queue, record: Record, err: Option<OperationError>, spoolFailed: bool, failed: int)
    requires SpoolEffect(before, after, record, !spoolFailed) || (spoolFailed && after == before)
    requires failed >= 1 && (spoolFailed ==> failed >= 2 || CannotSpool(before))
    ensures FinishEffect(before, before, after, record, None, err, AuditIncomplete(spoolFailed))
    ensures FinishExplained(before, AuditIncomplete(spoolFailed), failed)
  {
  }

  lemma EffectNamesNoHandle(before: Queue, middle: Queue, after: Queue, record: Record, attempt: Option<Attempt>,
                            err: Option<OperationError>, result: FinishResult)
    requires FinishEffect(before, middle, after, record, attempt, err, result)
    ensures !result.HandleRequired?
  {
  }

  lemma FinishNotReleased(before: Queue, middle: Queue, after: Queue, record: Record, attempt: Option<Attempt>,
                          err: Option<OperationError>, result: FinishResult, failed: int)
    requires FinishEffect(before, middle, after, record, attempt, err, result) && result.OperationResult? && failed >= 1
    ensures FinishEffect(before, middle, after, record, attempt, err, FinishReleaseFailed)
    ensures FinishExplained(before, FinishReleaseFailed, failed)
  {
  }

  lemma NotBegun(q: Queue, spec: Spec, now: Timestamp, random: Option<string>)
    ensures forall result: BeginResult :: result.BlankAction? || result.PathUnresolved? || result.NotEntered? ==>
              BeginEffect(q, q, spec, now, random, result)
  {
  }

  /** A release that fails leaves the queue as if the operation had been begun. */
  lemma ReleaseFails(before: Queue, after: Queue, spec: Spec, now: Timestamp, random: Option<string>, result: BeginResult)
    requires BeginEffect(before, after, spec, now, random, result) && result.Opened?
    ensures BeginEffect(before, after, spec, now, random, BeginReleaseFailed)
  {
  }

  /** A queue that holds only the commands' own outcomes hinders nothing, unless it is blocked. */
  lemma OwnQueueIsUnhindered(q: Queue)
    requires Inv(q) && AllOwn(q) && Empty(q)
    ensures Unhindered(q)
  {
    hide Accepts, OwnRecord, ReplayedInOrder, OutcomesPaired;
    forall f | f in q.pending ensures Accepts(f.record, f.Name()) {
      assert f in Spool(q);
      assert SoundFile(q, f);
      OwnRecordAccepted(f.record, f.sequence);
    }
  }

  /** The outcome of an uncertain intent is one of the commands' outcomes. */
  lemma SkippedIsOwn(handle: Handle, now: Timestamp)
    requires ValidId(handle.id) && WellFormedSpec(handle.spec) && UtcNow(now)
    ensures OwnRecord(SkippedRecord(handle, now))
  {
    assert RecordedBy(SkippedRecord(handle, now), handle, FailedBegin, now);
  }

  /**
   The losing inputs: whatever waits in the spool, once it is replayed an append of the outcome can report
   Indeterminate and not land. The outcome is then nowhere, and the command does not say that it is lost.
   */
  lemma OutcomeCanBeLost(q: Queue, record: Record, err: Option<OperationError>)
    requires Inv(q) && Empty(q) && record.phase == OutcomePhase && Paired(q, RecordId(record))
    ensures var attempt := Attempt(LogEntry(record, Direct), Indeterminate, false);
            && FinishEffect(q, AllReplayed(q), AllReplayed(q), record, Some(attempt), err, AuditIncomplete(false))
            && FateOf(q, AllReplayed(q), record) == Absent
  {
    hide Inv, Paired;
    AllReplayedGrows(q);
  }

  /** The handle of an operation that was just begun is such an input, in any clean queue. */
  lemma BegunOutcomeCanBeLost(q: Queue, handle: Handle, outcome: Outcome, err: Option<OperationError>, begun: Timestamp, now: Timestamp)
    requires Inv(q) && Clean(q) && ValidId(handle.id)
    ensures var open := q.(log := q.log + [LogEntry(RecordOf(handle, Intent, None, begun), Direct)]);
            var record := RecordOf(handle, OutcomePhase, Some(Normalize(outcome, err)), now);
            && Inv(open) && Paired(open, handle.id)
            && FinishEffect(open, open, open, record, Some(Attempt(LogEntry(record, Direct), Indeterminate, false)), err, AuditIncomplete(false))
            && FateOf(open, open, record) == Absent
  {
    var intent := RecordOf(handle, Intent, None, begun);
    var open := q.(log := q.log + [LogEntry(intent, Direct)]);
    var record := RecordOf(handle, OutcomePhase, Some(Normalize(outcome, err)), now);
    assert IsIntentOf(open.log[|q.log|], handle.id);
    StepKeepsInv(q, AppendIntent(intent, true), open);
    hide Inv;
    OutcomeCanBeLost(open, record, err);
    NothingReplayedYet(open);
  }

  lemma NothingDone(q: Queue)
    ensures ReplayEffect(q, q, 0, ListFailed) && ReplayEffect(q, q, 0, SequenceUnreadable)
    ensures q.quarantined != [] || q.temps != {} ==> ReplayEffect(q, q, 0, Blocked)
  {
  }

  lemma AllDone(q: Queue)
    requires q.quarantined == [] && q.temps == {}
    ensures ReplayEffect(q, ReplayedPrefix(q, |q.pending|), |q.pending|, Drained)
  {
  }

  /** However a replay ends, the log has only grown. */
  lemma EffectGrows(before: Queue, after: Queue, done: nat, result: ReplayResult)
    requires ReplayEffect(before, after, done, result)
    ensures before.log <= after.log && after.unlanded == before.unlanded
  {
    hide Accepts;
    if done < |before.pending| {
      assert Copies(before.pending[..done + 1]) == Copies(before.pending[..done]) + [before.pending[done].Copy()];
    }
  }

  lemma PrefixOfRest(q: Queue, k: nat)
    requires k < |q.pending|
    ensures ReplayedPrefix(ReplayedPrefix(q, k), 1) == ReplayedPrefix(q, k + 1)
  {
    var r := ReplayedPrefix(q, k);
    FirstReplayed(r);
    assert Copies(q.pending[..k + 1]) == Copies(q.pending[..k]) + [q.pending[k].Copy()];
  }

  /** Trouble with the first file that is left is trouble with file k of the spool as it was. */
  lemma ShiftEffect(q: Queue, k: nat, after: Queue, result: ReplayResult)
    requires k < |q.pending| && q.quarantined == []
    requires result.FileTrouble()
    requires ReplayEffect(ReplayedPrefix(q, k), after, 0, result)
    ensures ReplayEffect(q, after, k, result)
  {
    hide Accepts;
    PrefixOfRest(q, k);
    NothingReplayedYet(ReplayedPrefix(q, k));
  }

  lemma NothingReplayedYet(q: Queue)
    ensures ReplayedPrefix(q, 0) == q
  {
    assert q.log + Copies(q.pending[..0]) == q.log;
  }

  lemma FirstReplayed(q: Queue)
    requires q.pending != []
    ensures ReplayedPrefix(q, 1) == q.(log := q.log + [q.pending[0].Copy()], pending := q.pending[1..])
  {
    assert Copies(q.pending[..1]) == [q.pending[0].Copy()];
  }
}
