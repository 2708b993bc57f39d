/**
 The durable state of the audit queue and the file operations that change it.
 A step is one file operation of whichever process holds the queue lock; a crash
 may come between any two of them and forgets only which temporary file was being
 written. The theorems speak of whole runs, over any number of processes and crashes.
 */
module SpoolProtocol {
  import opened Common
  import opened SpoolNames
  import opened OutcomeRecords

  /** How an entry came into the log: appended directly, or replayed from a spool file. */
  datatype Origin = Direct | Replayed(sequence: nat)

  datatype LogEntry = LogEntry(record: Record, origin: Origin)

  datatype SpoolFile = SpoolFile(sequence: nat, record: Record) {
    function Name(): string {
      SpoolName(sequence, RecordId(record))
    }

    function Copy(): LogEntry {
      LogEntry(record, Replayed(sequence))
    }
  }

  datatype TempFile = SequenceTemp | RecordTemp(name: string)

  /**
   `pending` and `quarantined` are directory listings in name order. `writing` is the
   temporary file of the running process, lost in a crash. `unlanded` remembers the
   intents whose append may exist for all its caller knows, but is not in the log.
   */
  datatype Queue = Queue(
    log: seq<LogEntry>,
    pending: seq<SpoolFile>,
    quarantined: seq<SpoolFile>,
    sequence: Option<nat>,
    temps: set<TempFile>,
    writing: Option<TempFile>,
    unlanded: set<string>)

  const EMPTY_QUEUE := Queue([], [], [], None, {}, None, {})

  function Spool(q: Queue): seq<SpoolFile> {
    q.pending + q.quarantined
  }

  /** Where a new file appears in a listing. */
  function InsertByName(files: seq<SpoolFile>, file: SpoolFile): seq<SpoolFile> {
    if files == [] || LexLess(file.Name(), files[0].Name()) then [file] + files
    else [files[0]] + InsertByName(files[1..], file)
  }

  /** The number the next spool file will carry. */
  function NextSequence(q: Queue): nat {
    (if q.sequence.Some? then q.sequence.value else MaxSequence(Spool(q))) + 1
  }

  function MaxSequence(files: seq<SpoolFile>): nat {
    if files == [] then 0
    else Max(MaxSequence(files[..|files| - 1]), Last(files).sequence)
  }

  function IsIntentOf(entry: LogEntry, id: string): bool {
    entry.record.phase == Intent && RecordId(entry.record) == id
  }

  ghost predicate HasIntent(log: seq<LogEntry>, id: string) {
    exists i :: 0 <= i < |log| && IsIntentOf(log[i], id)
  }

  ghost predicate Paired(q: Queue, id: string) {
    id in q.unlanded || HasIntent(q.log, id)
  }

  /** Nothing waits for replay and nothing blocks it. */
  predicate Clean(q: Queue) {
    q.pending == [] && q.quarantined == [] && q.temps == {}
  }

  // ---- Steps ----------------------------------------------------------

  datatype Op =
    | AppendIntent(record: Record, landed: bool)
    | AppendOutcome(record: Record)
    | AppendEvent(record: Record)
    | AppendReplay
    | RemoveReplayed
    | Quarantine
    | CreateTemp(temp: TempFile)
    | RemoveTemp
    | CommitSequence
    | CommitRecord(record: Record)
    | Crash

  ghost predicate Enabled(q: Queue, op: Op) {
    match op
    case AppendIntent(r, _) => Clean(q) && r.phase == Intent
    case AppendOutcome(r) => Clean(q) && r.phase == OutcomePhase && Paired(q, RecordId(r))
    case AppendEvent(r) => Clean(q) && r.phase == NoPhase
    case AppendReplay =>
      && q.pending != [] && q.quarantined == [] && q.temps == {}
      && Accepts(q.pending[0].record, q.pending[0].Name())
    case RemoveReplayed =>
      q.pending != [] && q.quarantined == [] && q.temps == {} && q.pending[0].Copy() in q.log
    case Quarantine => q.pending != [] && q.quarantined == [] && q.temps == {}
    case CreateTemp(_) => q.temps == {}
    case RemoveTemp => q.writing.Some?
    case CommitSequence => q.writing == Some(SequenceTemp) && NextSequence(q) <= MAX_UINT64
    case CommitRecord(r) =>
      && r.phase == OutcomePhase && ValidId(RecordId(r)) && Paired(q, RecordId(r))
      && q.sequence.Some? && Fresh(q, q.sequence.value)
      && q.writing == Some(RecordTemp(SpoolName(q.sequence.value, RecordId(r))))
    case Crash => true
  }

  /** A sequence number above everything that ever carried one. */
  ghost predicate Fresh(q: Queue, n: nat) {
    && (forall f :: f in Spool(q) ==> f.sequence < n)
    && (forall e :: e in q.log && e.origin.Replayed? ==> e.origin.sequence < n)
  }

  function Effect(q: Queue, op: Op): Queue {
    match op
    case AppendIntent(r, landed) =>
      if landed then q.(log := q.log + [LogEntry(r, Direct)]) else q.(unlanded := q.unlanded + {RecordId(r)})
    case AppendOutcome(r) => q.(log := q.log + [LogEntry(r, Direct)])
    case AppendEvent(r) => q.(log := q.log + [LogEntry(r, Direct)])
    case AppendReplay => if q.pending == [] then q else q.(log := q.log + [q.pending[0].Copy()])
    case RemoveReplayed => if q.pending == [] then q else q.(pending := q.pending[1..])
    case Quarantine =>
      if q.pending == [] then q else q.(pending := q.pending[1..], quarantined := q.quarantined + [q.pending[0]])
    case CreateTemp(t) => q.(temps := q.temps + {t}, writing := Some(t))
    case RemoveTemp => if q.writing.None? then q else q.(temps := q.temps - {q.writing.value}, writing := None)
    case CommitSequence => q.(sequence := Some(NextSequence(q)), temps := q.temps - {SequenceTemp}, writing := None)
    case CommitRecord(r) =>
      if q.sequence.None? || q.writing.None? then q
      else q.(pending := InsertByName(q.pending, SpoolFile(q.sequence.value, r)),
              temps := q.temps - {q.writing.value}, writing := None)
    case Crash => q.(writing := None)
  }

  ghost predicate Step(q: Queue, op: Op, q': Queue) {
    Enabled(q, op) && q' == Effect(q, op)
  }

  // ---- What every step keeps ------------------------------------------

  predicate Increasing(files: seq<SpoolFile>) {
    forall i, j :: 0 <= i < j < |files| ==> files[i].sequence < files[j].sequence
  }

  /** A spool file the queue can have written. */
  ghost predicate SoundFile(q: Queue, f: SpoolFile) {
    && 0 < f.sequence && q.sequence.Some? && f.sequence <= q.sequence.value
    && f.record.phase == OutcomePhase && ValidId(RecordId(f.record)) && Paired(q, RecordId(f.record))
  }

  /** Copies enter the log in the order of their sequences, before anything still spooled. */
  ghost predicate ReplayedInOrder(q: Queue) {
    && (forall i, j :: 0 <= i < j < |q.log| && q.log[i].origin.Replayed? && q.log[j].origin.Replayed? ==>
          q.log[i].origin.sequence <= q.log[j].origin.sequence)
    && (forall e, f :: e in q.log && e.origin.Replayed? && f in Spool(q) ==> e.origin.sequence <= f.sequence)
    && (forall e :: e in q.log && e.origin.Replayed? ==>
          q.sequence.Some? && e.origin.sequence <= q.sequence.value && e.record.phase == OutcomePhase)
  }

  /** Every outcome in the log follows an intent with its id, unless that intent's append was indeterminate. */
  ghost predicate OutcomesPaired(q: Queue) {
    forall i :: 0 <= i < |q.log| && q.log[i].record.phase == OutcomePhase ==>
      RecordId(q.log[i].record) in q.unlanded || HasIntent(q.log[..i], RecordId(q.log[i].record))
  }

  ghost predicate Inv(q: Queue) {
    && (forall f :: f in Spool(q) ==> SoundFile(q, f))
    && Increasing(q.quarantined + q.pending)
    && |q.quarantined| <= 1
    && (q.sequence.Some? ==> 0 < q.sequence.value <= MAX_UINT64)
    && ReplayedInOrder(q)
    && OutcomesPaired(q)
    && (q.writing.Some? ==> q.temps == {q.writing.value})
  }

  lemma InitialInv()
    ensures Inv(EMPTY_QUEUE)
  {
  }
}
