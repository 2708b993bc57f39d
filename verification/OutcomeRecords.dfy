/**
 Audit records, the outcomes the commands build, and the validator every spooled
 outcome must pass before it is replayed. A record the validator rejects blocks
 the queue for good, so the results here say for which inputs each builder's
 outcome is accepted.
 */
module OutcomeRecords {
  import opened Common
  import opened SpoolNames

  datatype Kind = MutationRecord | ReadRecord | SafeRecord

  datatype Phase = NoPhase | Intent | OutcomePhase

  datatype Status = Unset | Pending | Success | Failed | PartialFailed

  datatype Compensation = NoCompensation | Succeeded | Incomplete | NotSafe

  /** A fingerprint of a sensitive value and the length of that value. */
  datatype Print = Print(value: string, bytes: int)

  const NO_PRINT := Print("", 0)

  datatype Outcome = Outcome(
    status: Status,
    errorCode: string,
    errorPrint: Print,
    succeeded: int,
    failed: int,
    skipped: int,
    uncertain: int,
    resultCount: int,
    compensation: Compensation,
    counted: bool)

  datatype Metadata = Metadata(items: int, creates: int, updates: int, deletes: int, prints: seq<Print>)

  datatype Timestamp = Timestamp(isZero: bool, offset: int)

  /** The prints are those of ticket, reason, detail and error. */
  datatype Record = Record(
    kind: Kind,
    mutationId: string,
    operationId: string,
    phase: Phase,
    action: string,
    eventType: string,
    status: Status,
    prints: seq<Print>,
    metadata: Metadata,
    timestamp: Timestamp,
    outcome: Option<Outcome>)

  datatype Spec = Spec(action: string, metadata: Metadata, prints: seq<Print>, read: bool)

  datatype Handle = Handle(id: string, spec: Spec)

  /** What an error contributes to a record: its code, and the fingerprint of its text. */
  datatype OperationError = OperationError(code: string, fingerprint: Print)

  const EMPTY_OUTCOME := Outcome(Unset, "", NO_PRINT, 0, 0, 0, 0, 0, NoCompensation, false)
  const AUDIT_INCOMPLETE := "AUDIT_INCOMPLETE"
  const PARTIAL_FAILURE := "PARTIAL_FAILURE"

  // ---- Records --------------------------------------------------------

  function PhaseName(phase: Phase): string {
    match phase
    case NoPhase => ""
    case Intent => "intent"
    case OutcomePhase => "outcome"
  }

  function RecordOf(handle: Handle, phase: Phase, outcome: Option<Outcome>, now: Timestamp): Record {
    Record(
      if handle.spec.read then ReadRecord else MutationRecord,
      if handle.spec.read then "" else handle.id,
      if handle.spec.read then handle.id else "",
      phase,
      handle.spec.action,
      handle.spec.action + "." + PhaseName(phase),
      if outcome.Some? then outcome.value.status else Pending,
      handle.spec.prints,
      handle.spec.metadata,
      now,
      outcome)
  }

  function RecordId(record: Record): string {
    if record.kind == ReadRecord then record.operationId else record.mutationId
  }

  // ---- Outcome builders -----------------------------------------------

  function StatusOf(err: Option<OperationError>): Status {
    if err.Some? then Failed else Success
  }

  function WithError(outcome: Outcome, err: OperationError): Outcome {
    var coded := if outcome.errorCode == "" then outcome.(errorCode := err.code) else outcome;
    if coded.errorPrint.value == "" then coded.(errorPrint := err.fingerprint) else coded
  }

  predicate CountsEmpty(outcome: Outcome) {
    outcome.succeeded == 0 && outcome.failed == 0 && outcome.skipped == 0 && outcome.uncertain == 0
  }

  function Normalize(outcome: Outcome, err: Option<OperationError>): Outcome {
    var o1 := if outcome.status == Unset then outcome.(status := StatusOf(err)) else outcome;
    var o2 := if err.Some? then WithError(o1, err.value) else o1;
    if o2.counted || !CountsEmpty(o2) then o2
    else if err.None? then o2.(succeeded := 1)
    else o2.(failed := 1)
  }

  function Counted(status: Status, succeeded: int, failed: int, skipped: int, uncertain: int): Outcome {
    EMPTY_OUTCOME.(status := status, succeeded := succeeded, failed := failed, skipped := skipped,
                   uncertain := uncertain, counted := true)
  }

  function BatchResult(total: int, batch: BatchOutcome, err: Option<OperationError>): Outcome {
    var skipped := Max(total - batch.Count(), 0);
    var status :=
      if batch.failed > 0 || batch.uncertain > 0 || err.Some? then
        if batch.succeeded > 0 then PartialFailed else Failed
      else Success;
    Counted(status, batch.succeeded, batch.failed, skipped, batch.uncertain)
  }

  /** The outcome spooled when the intent's own append failed but may be in the log. */
  function FailedBeginOutcome(items: int): Outcome {
    Counted(Failed, 0, 0, if items > 0 then items else 1, 0).(errorCode := AUDIT_INCOMPLETE)
  }

  function TopicCreateOutcome(err: Option<OperationError>): Outcome {
    if err.Some? && err.value.code == PARTIAL_FAILURE then Counted(Unset, 0, 0, 0, 1) else EMPTY_OUTCOME
  }

  function PruneOutcome(total: int, deleted: int, err: Option<OperationError>, durability: bool): Outcome {
    var t := Max(total, 0);
    var d := if Max(deleted, 0) > t then t else Max(deleted, 0);
    if err.None? then Counted(Success, d, 0, t - d, 0)
    else
      var failed := if d < t then 1 else 0;
      var skipped := if d < t then Max(t - d - 1, 0) else t - d;
      if durability then Counted(Failed, 0, failed, skipped, d)
      else Counted(if d > 0 then PartialFailed else Failed, d, failed, skipped, 0)
  }

  function ImportOutcome(total: int, compensation: Compensation, uncertain: bool, err: Option<OperationError>): Outcome {
    var o :=
      if err.None? then Counted(Success, total, 0, 0, 0)
      else if uncertain then Counted(Failed, 0, 0, 0, total)
      else if compensation == NotSafe then Counted(PartialFailed, total, 0, 0, 0)
      else if compensation == Incomplete then Counted(Failed, 0, 0, 0, total)
      else Counted(Failed, 0, 1, Max(total - 1, 0), 0);
    o.(compensation := compensation)
  }

  datatype Progress = Progress(succeeded: int, failed: int, uncertain: int) {
    function AfterSuccessfulCompensation(): Progress {
      Progress(0, failed + succeeded, uncertain)
    }

    function AfterIncompleteCompensation(): Progress {
      Progress(0, 0, uncertain + succeeded + failed)
    }
  }

  function MigrationOutcome(total: int, progress: Progress, compensation: Compensation, err: Option<OperationError>): Outcome {
    var skipped := Max(total - progress.succeeded - progress.failed - progress.uncertain, 0);
    var status := if err.None? then Success else if progress.succeeded > 0 then PartialFailed else Failed;
    Counted(status, progress.succeeded, progress.failed, skipped, progress.uncertain).(compensation := compensation)
  }

  /** A read plans one item unless it says otherwise. */
  function ReadItems(items: int): int {
    if items == 0 then 1 else items
  }

  function SingleReadOutcome(resultCount: int, err: Option<OperationError>): Outcome {
    var o := if err.None? then Counted(Unset, 1, 0, 0, 0) else Counted(Unset, 0, 1, 0, 0);
    o.(resultCount := resultCount)
  }

  function ReadBatchOutcome(items: int, succeeded: int, failed: int, resultCount: int, err: Option<OperationError>): Outcome {
    var status :=
      if failed > 0 || err.Some? then if succeeded > 0 then PartialFailed else Failed
      else Success;
    Counted(status, succeeded, failed, Max(items - succeeded - failed, 0), 0).(resultCount := resultCount)
  }

  // ---- The replay validator -------------------------------------------

  const FINGERPRINT_PREFIX := "sha256:"
  const SHA256_HEX_LENGTH := 64

  predicate ValidFingerprint(value: string) {
    && |value| == |FINGERPRINT_PREFIX| + SHA256_HEX_LENGTH
    && value[..|FINGERPRINT_PREFIX|] == FINGERPRINT_PREFIX
    && IsCanonicalHex(value[|FINGERPRINT_PREFIX|..])
  }

  predicate ValidPrint(p: Print) {
    && p.bytes >= 0
    && (p.value == "" ==> p.bytes == 0)
    && (p.value != "" ==> ValidFingerprint(p.value))
  }

  predicate ValidPrints(prints: seq<Print>) {
    forall p :: p in prints ==> ValidPrint(p)
  }

  predicate SanitizedMetadata(record: Record) {
    && ValidPrints(record.prints)
    && ValidPrints(record.metadata.prints)
    && (record.outcome.Some? ==> ValidPrint(record.outcome.value.errorPrint))
    && record.metadata.items >= 0 && record.metadata.creates >= 0
    && record.metadata.updates >= 0 && record.metadata.deletes >= 0
    && (record.outcome.Some? ==>
          && record.outcome.value.succeeded >= 0
          && record.outcome.value.failed >= 0
          && record.outcome.value.skipped >= 0
          && record.outcome.value.uncertain >= 0
          && record.outcome.value.resultCount >= 0)
  }

  predicate ValidActionChar(c: char) {
    'a' <= c <= 'z' || '0' <= c <= '9' || c == '.' || c == '-' || c == '_'
  }

  predicate ValidAction(action: string) {
    action != "" && forall i :: 0 <= i < |action| ==> ValidActionChar(action[i])
  }

  predicate ValidIdentity(record: Record) {
    var id := RecordId(record);
    && (record.kind == MutationRecord || record.kind == ReadRecord)
    && record.phase == OutcomePhase
    && ValidAction(record.action)
    && |id| == ID_WIDTH
    && (forall i :: 0 <= i < |id| ==> ToLower(id[i]) == id[i])
    && (record.kind == MutationRecord ==> record.mutationId != "" && record.operationId == "")
    && (record.kind == ReadRecord ==> record.operationId != "" && record.mutationId == "")
    && !record.timestamp.isZero
    && record.outcome.Some?
  }

  predicate ValidStatusShape(o: Outcome) {
    match o.status
    case Success =>
      && o.failed == 0 && o.uncertain == 0
      && o.errorCode == "" && o.errorPrint == NO_PRINT && o.compensation == NoCompensation
    case Failed => o.succeeded == 0
    case PartialFailed => o.succeeded > 0 && (o.failed > 0 || o.uncertain > 0 || o.errorCode != "")
    case _ => true
  }

  predicate ValidCompensationShape(o: Outcome) {
    match o.compensation
    case Succeeded => o.uncertain == 0
    case Incomplete => o.uncertain != 0
    case NotSafe => o.succeeded != 0 || o.uncertain != 0
    case NoCompensation => true
  }

  predicate NameMatches(id: string, name: string) {
    ValidSpoolName(name) && HasSuffix(TrimSuffix(name, JSON_SUFFIX), "-" + id)
  }

  /** The validation of a spool file: its record against its name. */
  predicate Accepts(record: Record, name: string) {
    && ValidIdentity(record)
    && SanitizedMetadata(record)
    && IsCanonicalHex(RecordId(record))
    && NameMatches(RecordId(record), name)
    && var o := record.outcome.value;
    && record.eventType == record.action + "." + PhaseName(OutcomePhase)
    && record.status == o.status
    && (o.status == Success || o.status == Failed || o.status == PartialFailed)
    && (record.metadata.items > 0 ==>
          o.succeeded + o.failed + o.skipped + o.uncertain == record.metadata.items)
    && record.timestamp.offset == 0
    && ValidStatusShape(o)
    && ValidCompensationShape(o)
  }

  // ---- What acceptance comes to for the tool's own records -------------

  predicate WellFormedError(err: Option<OperationError>) {
    err.Some? ==> err.value.code != "" && ValidPrint(err.value.fingerprint)
  }

  predicate WellFormedSpec(spec: Spec) {
    && ValidAction(spec.action)
    && ValidPrints(spec.prints)
    && ValidPrints(spec.metadata.prints)
    && spec.metadata.items >= 0 && spec.metadata.creates >= 0
    && spec.metadata.updates >= 0 && spec.metadata.deletes >= 0
  }

  predicate UtcNow(now: Timestamp) {
    !now.isZero && now.offset == 0
  }

  /** The part of the validation that looks at the outcome and the number of planned items only. */
  predicate AcceptsOutcome(o: Outcome, items: int) {
    && ValidPrint(o.errorPrint)
    && o.succeeded >= 0 && o.failed >= 0 && o.skipped >= 0 && o.uncertain >= 0 && o.resultCount >= 0
    && (o.status == Success || o.status == Failed || o.status == PartialFailed)
    && (items > 0 ==> o.succeeded + o.failed + o.skipped + o.uncertain == items)
    && ValidStatusShape(o)
    && ValidCompensationShape(o)
  }

  /** A handle the tool itself can hold, at a time its clock gives, with a sequence its queue gives. */
  predicate Ready(handle: Handle, now: Timestamp, sequence: nat) {
    ValidId(handle.id) && WellFormedSpec(handle.spec) && UtcNow(now) && sequence <= MAX_UINT64
  }

  /** The spool file written for this outcome under this sequence passes the replay's validation. */
  predicate Replays(handle: Handle, o: Outcome, now: Timestamp, sequence: nat) {
    Accepts(RecordOf(handle, OutcomePhase, Some(o), now), SpoolName(sequence, handle.id))
  }

  /** What an outcome tells: how it went, how many units ended how, what was undone, and the error with its fingerprint. */
  ghost predicate Tells(o: Outcome, status: Status, succeeded: int, failed: int, skipped: int, uncertain: int,
                        compensation: Compensation, resultCount: int, err: Option<OperationError>)
  {
    && o.status == status && o.succeeded == succeeded && o.failed == failed && o.skipped == skipped && o.uncertain == uncertain
    && o.compensation == compensation && o.resultCount == resultCount
    && (err.None? ==> o.errorCode == "" && o.errorPrint == Print("", 0))
    && (err.Some? ==> o.errorCode == err.value.code)
    && (err.Some? && err.value.fingerprint.value != "" ==> o.errorPrint == err.value.fingerprint)
  }

  ghost function Clamp(x: int, low: int, high: int): int {
    if x < low || high < low then low else if x > high then high else x
  }

  /** A record keeps everything it is made of: two that are equal come from equal operations at equal times. */
  lemma RecordsKeepEverything(h: Handle, p: Phase, o: Option<Outcome>, t: Timestamp, h': Handle, p': Phase, o': Option<Outcome>, t': Timestamp)
    requires RecordOf(h, p, o, t) == RecordOf(h', p', o', t')
    ensures h == h' && p == p' && o == o' && t == t'
    ensures RecordId(RecordOf(h, p, o, t)) == h.id
    ensures RecordOf(h, p, o, t).kind == if h.spec.read then ReadRecord else MutationRecord
    ensures RecordOf(h, p, o, t).status == if o.Some? then o.value.status else Pending
    ensures p == Intent ==> RecordOf(h, p, o, t).eventType == h.spec.action + ".intent"
    ensures p == OutcomePhase ==> RecordOf(h, p, o, t).eventType == h.spec.action + ".outcome"
  {
  }

  ghost predicate LowerHex(s: string) {
    forall i :: 0 <= i < |s| ==> '0' <= s[i] <= '9' || 'a' <= s[i] <= 'f'
  }

  ghost predicate Printed(p: Print) {
    && p.bytes >= 0 && (p.value == "" ==> p.bytes == 0)
    && (p.value != "" ==> |p.value| == 71 && p.value[..7] == "sha256:" && LowerHex(p.value[7..]))
  }

  /** Whatever record passes the validation, under whatever name, is the outcome of a named operation in its final form. */
  lemma AcceptedMeans(record: Record, name: string)
    requires Accepts(record, name)
    ensures record.kind != SafeRecord && record.phase == OutcomePhase && record.outcome.Some?
    ensures if record.kind == ReadRecord then record.mutationId == "" && RecordId(record) == record.operationId
            else record.operationId == "" && RecordId(record) == record.mutationId
    ensures |RecordId(record)| == 32 && LowerHex(RecordId(record))
    ensures |name| == 58 && name[20..53] == "-" + RecordId(record) && name[53..] == ".json"
    ensures record.action != "" && record.eventType == record.action + ".outcome"
    ensures forall c :: c in record.action ==> 'a' <= c <= 'z' || '0' <= c <= '9' || c in {'.', '-', '_'}
    ensures !record.timestamp.isZero && record.timestamp.offset == 0
    ensures forall p :: p in record.prints || p in record.metadata.prints || p == record.outcome.value.errorPrint ==> Printed(p)
    ensures record.metadata.items >= 0 && record.metadata.creates >= 0 && record.metadata.updates >= 0 && record.metadata.deletes >= 0
    ensures var o := record.outcome.value;
            && record.status == o.status
            && o.succeeded >= 0 && o.failed >= 0 && o.skipped >= 0 && o.uncertain >= 0 && o.resultCount >= 0
            && (record.metadata.items > 0 ==> o.succeeded + o.failed + o.skipped + o.uncertain == record.metadata.items)
            && (o.status == Success || o.status == Failed || o.status == PartialFailed)
            && (o.status == Success ==>
                  && o.failed == 0 && o.uncertain == 0 && o.errorCode == "" && o.errorPrint == Print("", 0) && o.compensation == NoCompensation)
            && (o.status == Failed ==> o.succeeded == 0)
            && (o.status == PartialFailed ==> o.succeeded > 0 && (o.failed > 0 || o.uncertain > 0 || o.errorCode != ""))
            && (o.compensation == Succeeded ==> o.uncertain == 0)
            && (o.compensation == Incomplete ==> o.uncertain > 0)
            && (o.compensation == NotSafe ==> o.succeeded > 0 || o.uncertain > 0)
  {
    NamedById(RecordId(record), name);
    hide NameMatches;
    CanonicalIsLower(RecordId(record));
    forall p | p in record.prints || p in record.metadata.prints || p == record.outcome.value.errorPrint ensures Printed(p) {
      assert ValidPrint(p);
      if p.value != "" {
        CanonicalIsLower(p.value[|FINGERPRINT_PREFIX|..]);
      }
    }
  }

  lemma CanonicalIsLower(s: string)
    requires IsCanonicalHex(s)
    ensures LowerHex(s)
  {
    forall i | 0 <= i < |s| ensures '0' <= s[i] <= '9' || 'a' <= s[i] <= 'f' {
      assert ToLower(s[i]) == s[i] && IsHex(s[i]);
    }
  }

  lemma NamedById(id: string, name: string)
    requires NameMatches(id, name) && |id| == 32
    ensures |name| == 58 && name[20..53] == "-" + id && name[53..] == ".json"
  {
    var stem := TrimSuffix(name, JSON_SUFFIX);
    assert name == stem + JSON_SUFFIX;
    var k := IndexOf(stem, '-');
    var parts := Split(stem, '-');
    assert k < |stem| ==> stem == stem[..k] + ['-'] + stem[k + 1..];
    assert parts[0] == stem[..k];
    var rest := stem[k + 1..];
    assert Split(rest, '-') == [rest];
    assert |stem| == 53;
    assert stem[20..] == "-" + id;
    assert name[20..53] == stem[20..];
  }

  lemma OwnNameMatches(sequence: nat, id: string)
    requires sequence <= MAX_UINT64 && ValidId(id)
    ensures NameMatches(id, SpoolName(sequence, id))
  {
    NameRoundTrip(sequence, id);
    var stem := PadSequence(sequence) + "-" + id;
    assert SpoolName(sequence, id) == stem + JSON_SUFFIX;
    assert TrimSuffix(SpoolName(sequence, id), JSON_SUFFIX) == stem;
    assert stem == PadSequence(sequence) + ("-" + id);
  }

  /** Whatever its other fields, such a file replays exactly when its outcome suits the planned number of items. */
  lemma ReplaysIff(handle: Handle, o: Outcome, now: Timestamp, sequence: nat)
    requires Ready(handle, now, sequence)
    ensures Replays(handle, o, now, sequence) <==> AcceptsOutcome(o, handle.spec.metadata.items)
  {
    OwnNameMatches(sequence, handle.id);
    hide NameMatches, SpoolName;
  }

  /** One unit of work: replays when at most one item was planned. */
  lemma SingleReplays(handle: Handle, now: Timestamp, sequence: nat, err: Option<OperationError>)
    requires Ready(handle, now, sequence) && WellFormedError(err)
    ensures Replays(handle, Normalize(EMPTY_OUTCOME, err), now, sequence)
       <==> handle.spec.metadata.items <= 1
    ensures Tells(Normalize(EMPTY_OUTCOME, err), if err.None? then Success else Failed, if err.None? then 1 else 0,
                  if err.None? then 0 else 1, 0, 0, NoCompensation, 0, err)
  {
    hide Accepts;
    ReplaysIff(handle, Normalize(EMPTY_OUTCOME, err), now, sequence);
  }

  /** A batch replays exactly when the counted units fit the plan that was recorded. */
  lemma BatchReplays(handle: Handle, now: Timestamp, sequence: nat, total: int, batch: BatchOutcome, err: Option<OperationError>)
    requires Ready(handle, now, sequence) && batch.NonNegative() && WellFormedError(err)
    ensures Replays(handle, Normalize(BatchResult(total, batch, err), err), now, sequence)
       <==> handle.spec.metadata.items == 0 || handle.spec.metadata.items == Max(total, batch.Count())
    ensures Tells(Normalize(BatchResult(total, batch, err), err),
                  if err.None? && batch.failed == 0 && batch.uncertain == 0 then Success
                  else if batch.succeeded > 0 then PartialFailed else Failed,
                  batch.succeeded, batch.failed, if total > batch.Count() then total - batch.Count() else 0, batch.uncertain,
                  NoCompensation, 0, err)
  {
    hide Accepts;
    ReplaysIff(handle, Normalize(BatchResult(total, batch, err), err), now, sequence);
  }

  /** With the plan as the total, the caller's bound is what matters: nothing beyond the planned items was counted. */
  lemma PlannedBatchReplays(handle: Handle, now: Timestamp, sequence: nat, batch: BatchOutcome, err: Option<OperationError>)
    requires Ready(handle, now, sequence) && batch.NonNegative() && handle.spec.metadata.items > 0 && WellFormedError(err)
    ensures Replays(handle, Normalize(BatchResult(handle.spec.metadata.items, batch, err), err), now, sequence)
       <==> batch.Count() <= handle.spec.metadata.items
  {
    hide Accepts;
    ReplaysIff(handle, Normalize(BatchResult(handle.spec.metadata.items, batch, err), err), now, sequence);
  }

  /** The skipped outcome of an intent that may or may not be in the log always replays. */
  lemma FailedBeginReplays(handle: Handle, now: Timestamp, sequence: nat)
    requires Ready(handle, now, sequence)
    ensures Replays(handle, FailedBeginOutcome(handle.spec.metadata.items), now, sequence)
    ensures Tells(FailedBeginOutcome(handle.spec.metadata.items), Failed, 0, 0,
                  if handle.spec.metadata.items == 0 then 1 else handle.spec.metadata.items, 0, NoCompensation, 0,
                  Some(OperationError("AUDIT_INCOMPLETE", NO_PRINT)))
  {
    hide Accepts;
    ReplaysIff(handle, FailedBeginOutcome(handle.spec.metadata.items), now, sequence);
  }

  /** Topic creation, whose partial failure is one uncertain unit. */
  lemma TopicCreateReplays(handle: Handle, now: Timestamp, sequence: nat, err: Option<OperationError>)
    requires Ready(handle, now, sequence) && WellFormedError(err)
    ensures Replays(handle, Normalize(TopicCreateOutcome(err), err), now, sequence)
       <==> handle.spec.metadata.items <= 1
    ensures err.Some? && err.value.code == "PARTIAL_FAILURE" ==>
              Tells(Normalize(TopicCreateOutcome(err), err), Failed, 0, 0, 0, 1, NoCompensation, 0, err)
    ensures err.Some? && err.value.code != "PARTIAL_FAILURE" ==>
              Tells(Normalize(TopicCreateOutcome(err), err), Failed, 0, 1, 0, 0, NoCompensation, 0, err)
    ensures err.None? ==> Tells(Normalize(TopicCreateOutcome(err), err), Success, 1, 0, 0, 0, NoCompensation, 0, err)
  {
    hide Accepts;
    ReplaysIff(handle, Normalize(TopicCreateOutcome(err), err), now, sequence);
  }

  /** Pruning: any reported deletion count, however wrong, replays as long as the plan was recorded. */
  lemma PruneReplays(handle: Handle, now: Timestamp, sequence: nat, total: int, deleted: int, err: Option<OperationError>, durability: bool)
    requires Ready(handle, now, sequence) && WellFormedError(err)
    ensures Replays(handle, Normalize(PruneOutcome(total, deleted, err, durability), err), now, sequence)
       <==> handle.spec.metadata.items == 0 || handle.spec.metadata.items == Max(total, 0)
    ensures var t := Clamp(total, 0, total);
            var d := Clamp(deleted, 0, t);
            var o := Normalize(PruneOutcome(total, deleted, err, durability), err);
            && (err.None? ==> Tells(o, Success, d, 0, t - d, 0, NoCompensation, 0, err))
            && (err.Some? && durability ==> Tells(o, Failed, 0, if d < t then 1 else 0, if d < t then t - d - 1 else 0, d, NoCompensation, 0, err))
            && (err.Some? && !durability ==>
                    Tells(o, if d > 0 then PartialFailed else Failed, d, if d < t then 1 else 0, if d < t then t - d - 1 else 0, 0,
                          NoCompensation, 0, err))
  {
    hide Accepts;
    ReplaysIff(handle, Normalize(PruneOutcome(total, deleted, err, durability), err), now, sequence);
  }

  /** Context set and import: the combinations of compensation status and certainty that replay. */
  lemma ImportReplays(handle: Handle, now: Timestamp, sequence: nat, total: int, compensation: Compensation, uncertain: bool, err: Option<OperationError>)
    requires Ready(handle, now, sequence) && total >= 1 && WellFormedError(err)
    ensures Replays(handle, Normalize(ImportOutcome(total, compensation, uncertain, err), err), now, sequence)
       <==> && (err.None? ==> compensation == NoCompensation)
            && (err.Some? && uncertain ==> compensation != Succeeded)
            && (handle.spec.metadata.items == 0 || handle.spec.metadata.items == total)
    ensures var o := Normalize(ImportOutcome(total, compensation, uncertain, err), err);
            && (err.None? ==> Tells(o, Success, total, 0, 0, 0, compensation, 0, err))
            && (err.Some? && (uncertain || compensation == Incomplete) ==> Tells(o, Failed, 0, 0, 0, total, compensation, 0, err))
            && (err.Some? && !uncertain && compensation == NotSafe ==> Tells(o, PartialFailed, total, 0, 0, 0, compensation, 0, err))
            && (err.Some? && !uncertain && (compensation == Succeeded || compensation == NoCompensation) ==>
                  Tells(o, Failed, 0, 1, total - 1, 0, compensation, 0, err))
  {
    hide Accepts;
    ReplaysIff(handle, Normalize(ImportOutcome(total, compensation, uncertain, err), err), now, sequence);
  }

  /** Credential migration, with its progress per credential. */
  lemma MigrationReplays(handle: Handle, now: Timestamp, sequence: nat, total: int, p: Progress, compensation: Compensation, err: Option<OperationError>)
    requires Ready(handle, now, sequence) && p.succeeded >= 0 && p.failed >= 0 && p.uncertain >= 0 && WellFormedError(err)
    ensures Replays(handle, Normalize(MigrationOutcome(total, p, compensation, err), err), now, sequence)
       <==> && (err.None? ==> p.failed == 0 && p.uncertain == 0 && compensation == NoCompensation)
            && (compensation == Succeeded ==> p.uncertain == 0)
            && (compensation == Incomplete ==> p.uncertain > 0)
            && (compensation == NotSafe ==> p.succeeded + p.uncertain > 0)
            && (handle.spec.metadata.items == 0 || handle.spec.metadata.items == Max(total, p.succeeded + p.failed + p.uncertain))
    ensures Tells(Normalize(MigrationOutcome(total, p, compensation, err), err),
                  if err.None? then Success else if p.succeeded > 0 then PartialFailed else Failed, p.succeeded, p.failed,
                  Clamp(total - p.succeeded - p.failed - p.uncertain, 0, total), p.uncertain, compensation, 0, err)
  {
    hide Accepts;
    ReplaysIff(handle, Normalize(MigrationOutcome(total, p, compensation, err), err), now, sequence);
  }

  /** A read, whose handle carries the defaulted number of items. */
  lemma SingleReadReplays(handle: Handle, now: Timestamp, sequence: nat, resultCount: nat, err: Option<OperationError>)
    requires Ready(handle, now, sequence) && WellFormedError(err)
    ensures Replays(handle, Normalize(SingleReadOutcome(resultCount, err), err), now, sequence)
       <==> handle.spec.metadata.items <= 1
    ensures Tells(Normalize(SingleReadOutcome(resultCount, err), err), if err.None? then Success else Failed,
                  if err.None? then 1 else 0, if err.None? then 0 else 1, 0, 0, NoCompensation, resultCount, err)
  {
    hide Accepts;
    ReplaysIff(handle, Normalize(SingleReadOutcome(resultCount, err), err), now, sequence);
  }

  /** A read over several contexts. */
  lemma ReadBatchReplays(handle: Handle, now: Timestamp, sequence: nat, succeeded: nat, failed: nat, resultCount: nat, err: Option<OperationError>)
    requires Ready(handle, now, sequence) && handle.spec.metadata.items > 0 && WellFormedError(err)
    ensures Replays(handle, Normalize(ReadBatchOutcome(handle.spec.metadata.items, succeeded, failed, resultCount, err), err), now, sequence)
       <==> succeeded + failed <= handle.spec.metadata.items
    ensures Tells(Normalize(ReadBatchOutcome(handle.spec.metadata.items, succeeded, failed, resultCount, err), err),
                  if err.None? && failed == 0 then Success else if succeeded > 0 then PartialFailed else Failed, succeeded, failed,
                  Clamp(handle.spec.metadata.items - succeeded - failed, 0, handle.spec.metadata.items), 0, NoCompensation, resultCount, err)
  {
    hide Accepts;
    ReplaysIff(handle, Normalize(ReadBatchOutcome(handle.spec.metadata.items, succeeded, failed, resultCount, err), err), now, sequence);
  }

  // ---- What the commands close their operations with ------------------------

  /** The builder a command uses, with what it passes to it. */
  datatype Source =
    | Single(err: Option<OperationError>)
    | Batch(total: int, batch: BatchOutcome, err: Option<OperationError>)
    | TopicCreation(err: Option<OperationError>)
    | Prune(deleted: int, err: Option<OperationError>, durability: bool)
    | Import(compensation: Compensation, uncertain: bool, err: Option<OperationError>)
    | Migration(progress: Progress, compensation: Compensation, err: Option<OperationError>)
    | Read(resultCount: nat, err: Option<OperationError>)
    | ReadBatch(succeeded: nat, failed: nat, resultCount: nat, err: Option<OperationError>)
    | FailedBegin

  /** The outcome a command builds when `items` items were planned. */
  function OutcomeOf(source: Source, items: int): Outcome {
    match source
    case Single(err) => Normalize(EMPTY_OUTCOME, err)
    case Batch(total, batch, err) => Normalize(BatchResult(total, batch, err), err)
    case TopicCreation(err) => Normalize(TopicCreateOutcome(err), err)
    case Prune(deleted, err, durability) => Normalize(PruneOutcome(items, deleted, err, durability), err)
    case Import(compensation, uncertain, err) => Normalize(ImportOutcome(items, compensation, uncertain, err), err)
    case Migration(progress, compensation, err) => Normalize(MigrationOutcome(items, progress, compensation, err), err)
    case Read(resultCount, err) => Normalize(SingleReadOutcome(resultCount, err), err)
    case ReadBatch(succeeded, failed, resultCount, err) =>
      Normalize(ReadBatchOutcome(items, succeeded, failed, resultCount, err), err)
    case FailedBegin => FailedBeginOutcome(items)
  }

  function ErrorOf(source: Source): Option<OperationError> {
    if source.FailedBegin? then None else source.err
  }

  /** The ways set and import end: done, uncertain, or known to be kept or undone after an error. */
  predicate ImportEnding(compensation: Compensation, uncertain: bool, err: Option<OperationError>) {
    if err.None? then compensation == NoCompensation && !uncertain
    else if uncertain then compensation == NotSafe || compensation == Incomplete
    else compensation != Incomplete
  }

  /** The ways a migration ends: everything kept, everything uncertain, or everything taken back. */
  predicate MigrationEnding(total: int, p: Progress, compensation: Compensation, err: Option<OperationError>) {
    if err.None? then p == Progress(total, 0, 0) && compensation == NoCompensation
    else
      || (p == Progress(total, 0, 0) && compensation == NotSafe)
      || (p == Progress(0, 0, p.uncertain) && 0 < p.uncertain <= total && (compensation == NotSafe || compensation == Incomplete))
      || (p == Progress(0, p.failed, 0) && 0 < p.failed <= total && (compensation == Succeeded || compensation == NoCompensation))
  }

  /**
   What each caller guarantees. A batch either records no plan with its intent, or passes the recorded plan
   as its total and counts no more than that; the flows of import and migration end in one of their endings.
   */
  predicate CallerBound(source: Source, items: int) {
    && items >= 0 && WellFormedError(ErrorOf(source))
    && match source
       case Single(_) => items <= 1
       case Batch(total, batch, _) => batch.NonNegative() && (items == 0 || (total == items && batch.Count() <= items))
       case TopicCreation(_) => items <= 1
       case Prune(_, _, _) => true
       case Import(compensation, uncertain, err) => items >= 1 && ImportEnding(compensation, uncertain, err)
       case Migration(progress, compensation, err) => items >= 1 && MigrationEnding(items, progress, compensation, err)
       case Read(_, _) => items <= 1
       case ReadBatch(succeeded, failed, _, _) => items >= 1 && succeeded + failed <= items
       case FailedBegin => true
  }

  /** An outcome some command can close an operation with. */
  ghost predicate OwnOutcome(o: Outcome, items: int) {
    exists source :: CallerBound(source, items) && o == OutcomeOf(source, items)
  }

  /** Whatever a command closes its operation with passes the replay validation. */
  lemma SourceReplays(handle: Handle, source: Source, now: Timestamp, sequence: nat)
    requires Ready(handle, now, sequence) && CallerBound(source, handle.spec.metadata.items)
    ensures Replays(handle, OutcomeOf(source, handle.spec.metadata.items), now, sequence)
  {
    hide Replays, Ready, Normalize, BatchResult, TopicCreateOutcome, PruneOutcome, ImportOutcome, MigrationOutcome,
         SingleReadOutcome, ReadBatchOutcome, FailedBeginOutcome;
    var items := handle.spec.metadata.items;
    match source
    case Single(err) => SingleReplays(handle, now, sequence, err);
    case Batch(total, batch, err) => BatchReplays(handle, now, sequence, total, batch, err);
    case TopicCreation(err) => TopicCreateReplays(handle, now, sequence, err);
    case Prune(deleted, err, durability) => PruneReplays(handle, now, sequence, items, deleted, err, durability);
    case Import(compensation, uncertain, err) => ImportReplays(handle, now, sequence, items, compensation, uncertain, err);
    case Migration(progress, compensation, err) => MigrationReplays(handle, now, sequence, items, progress, compensation, err);
    case Read(resultCount, err) => SingleReadReplays(handle, now, sequence, resultCount, err);
    case ReadBatch(succeeded, failed, resultCount, err) =>
      ReadBatchReplays(handle, now, sequence, succeeded, failed, resultCount, err);
    case FailedBegin => FailedBeginReplays(handle, now, sequence);
  }
}
