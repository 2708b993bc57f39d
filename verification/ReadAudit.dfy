/**
 Mandatory read auditing: a read returns a result, and a preflight hands out a broker, only
 between an intent and an outcome that are both in the log.
 */
module ReadAudit {
  import opened Common
  import opened SpoolNames
  import opened OutcomeRecords
  import opened SpoolProtocol
  import opened SpoolRuns
  import opened AuditQueues

  const MAX_DIAGNOSTIC_BYTES := 64 * 1024
  const OVERFLOW_NOTICE := "warning: additional backend diagnostics were suppressed\n"

  /** Diagnostics of one read, held back until its outcome is durable. */
  class DiagnosticBuffer {
    var text: string
    var dropped: bool
    var done: bool

    constructor ()
      ensures text == "" && !dropped && !done
    {
      text, dropped, done := "", false, false;
    }

    /** Buffer a value in its redacted form, unless either form exceeds what is left of the buffer. */
    method Append(value: string, redacted: string)
      modifies this
      ensures done == old(done) && (old(done) ==> text == old(text) && dropped == old(dropped))
      ensures |old(text)| <= MAX_DIAGNOSTIC_BYTES ==> |text| <= MAX_DIAGNOSTIC_BYTES
      ensures !old(done) ==>
                var fits := |old(text)| + |value| <= 65_536 && |old(text)| + |redacted| <= 65_536;
                text == (if fits then old(text) + redacted else old(text)) && dropped == (old(dropped) || !fits)
    {
      if done {
        return;
      }
      if |value| > MAX_DIAGNOSTIC_BYTES - |text| {
        dropped := true;
        return;
      }
      if |redacted| > MAX_DIAGNOSTIC_BYTES - |text| {
        dropped := true;
        return;
      }
      text := text + redacted;
    }

    /** What is released: the text if it may be flushed, at most once. */
    method Complete(flush: bool) returns (written: string)
      modifies this
      ensures done && (!old(done) ==> text == "")
      ensures old(done) || !flush ==> written == ""
      ensures !old(done) && flush ==> written == old(text) + if old(dropped) then "warning: additional backend diagnostics were suppressed\n" else ""
    {
      if done {
        return "";
      }
      done := true;
      var data := text;
      text := "";
      return if flush then data + (if dropped then OVERFLOW_NOTICE else "") else "";
    }
  }

  /** The part of the command's flags a read changes: where diagnostics go, and what reached the terminal. */
  class Flags {
    var readDiagnostics: DiagnosticBuffer?
    var terminal: string

    constructor ()
      ensures readDiagnostics == null && terminal == ""
    {
      readDiagnostics, terminal := null, "";
    }
  }

  class Broker {
    var open: bool

    constructor ()
      ensures open
    {
      open := true;
    }

    method Close()
      modifies this
      ensures !open
    {
      open := false;
    }
  }

  datatype ReadError =
    | IntentNotPersisted(begin: BeginResult)
    | OutcomeNotPersisted(finish: FinishResult, cause: Option<OperationError>)
    | OperationFailed(operation: OperationError)
    | ContextUnresolved

  datatype ReadResult<T> = Value(value: T) | Error(error: ReadError)

  datatype ReadHandle = ReadHandle(mutation: Handle, diagnostics: DiagnosticBuffer, previous: DiagnosticBuffer?)

  /** Where in the log a read left its traces. */
  datatype Trace = Trace(intent: nat, outcome: nat)

  /** One run of an operation: the length of the log when it began and when it ended, the queue it left, and what it gave. */
  datatype Span = Span(from: nat, to: nat, left: Queue, err: Option<OperationError>, count: nat)

  function ReadSpec(spec: Spec): Spec {
    spec.(read := true, metadata := spec.metadata.(items := ReadItems(spec.metadata.items)))
  }

  /** The intent and then the outcome of one and the same read, with how the outcome says that it went. */
  ghost predicate Traced(log: seq<LogEntry>, start: nat, t: Trace, id: string, status: Status) {
    && start <= t.intent < t.outcome < |log|
    && log[t.intent].record.kind == ReadRecord && log[t.outcome].record.kind == ReadRecord
    && IsIntentOf(log[t.intent], id)
    && log[t.outcome].record.phase == OutcomePhase && RecordId(log[t.outcome].record) == id
    && log[t.outcome].record.status == status
  }

  /** Nothing that a caller could see beforehand keeps an operation from beginning. */
  ghost predicate MayBegin(before: Queue, spec: Spec, path: bool, random: Option<string>) {
    && Unhindered(before) && path && random.Some?
    && exists i :: 0 <= i < |spec.action| && !IsSpace(spec.action[i])
  }

  /** The operation ran after the intent and before the outcome entered the log. */
  predicate Around(t: Trace, span: Span) {
    t.intent < span.from <= span.to <= t.outcome
  }

  /** The operation that is read under audit, as arbitrary code. Each run is noted with the log around it. */
  class Operation {
    ghost var runs: seq<Span>

    constructor ()
      ensures runs == []
    {
      runs := [];
    }

    /** It may run while other processes use the queue, and may write diagnostics. */
    method Run<T(0)>(queue: AuditQueue, diagnostics: DiagnosticBuffer) returns (value: T, err: Option<OperationError>, count: nat)
      requires queue.Idle() && !diagnostics.done
      modifies this, queue, diagnostics
      ensures queue.Idle() && old(queue.states) <= queue.states && old(queue.ops) <= queue.ops
      ensures old(queue.log) <= queue.log && old(queue.unlanded) <= queue.unlanded
      ensures !diagnostics.done
      ensures runs == old(runs) + [Span(|old(queue.log)|, |queue.log|, queue.Snapshot(), err, count)]
      ensures queue.failures == old(queue.failures)
    {
      queue.OtherProcesses();
      value, err := *, *;
      var items: int := *;
      count := if items < 0 then 0 else items;
      runs := runs + [Span(|old(queue.log)|, |queue.log|, queue.Snapshot(), err, count)];
    }
  }

  method BeginRead(queue: AuditQueue, flags: Flags, spec: Spec, now: Timestamp, path: bool, random: Option<string>)
    returns (result: BeginResult, handle: Option<ReadHandle>)
    requires queue.Idle() && (random.Some? ==> ValidId(random.value))
    modifies queue, flags`readDiagnostics
    ensures queue.Idle() && old(queue.states) <= queue.states && old(queue.ops) <= queue.ops && old(queue.log) <= queue.log
    ensures handle.Some? <==> result.Opened?
    ensures queue.failures >= old(queue.failures)
    ensures queue.failures == old(queue.failures) && MayBegin(old(queue.Snapshot()), spec, path, random) ==> handle.Some?
    ensures handle.Some? ==> queue.failures == old(queue.failures)
    ensures handle.None? ==> flags.readDiagnostics == old(flags.readDiagnostics)
    ensures handle.Some? ==>
              && random == Some(result.handle.id) && handle.value.mutation == result.handle && result.handle.spec == ReadSpec(spec) && ValidId(result.handle.id)
              && result.handle.spec == Spec(spec.action, spec.metadata.(items := if spec.metadata.items == 0 then 1 else spec.metadata.items), spec.prints, true)
              && fresh(handle.value.diagnostics) && !handle.value.diagnostics.done && handle.value.diagnostics.text == ""
              && flags.readDiagnostics == handle.value.diagnostics && handle.value.previous == old(flags.readDiagnostics)
              && queue.log != [] && |old(queue.log)| < |queue.log|
              && Last(queue.log) == LogEntry(RecordOf(result.handle, Intent, None, now), Direct)
  {
    hide Inv, Accepts, ReplayedPrefix, AllReplayed, WellFormedSpec, UtcNow, AllOwn, ReplayStopped, Unhindered;
    ghost var from := |queue.states| - 1;
    assert ReadSpec(spec).action == spec.action;
    result := queue.Begin(ReadSpec(spec), now, path, random);
    LogOnlyGrows(queue.states, queue.ops, from, |queue.states| - 1);
    if !result.Opened? {
      return result, None;
    }
    var diagnostics := new DiagnosticBuffer();
    handle := Some(ReadHandle(result.handle, diagnostics, flags.readDiagnostics));
    flags.readDiagnostics := diagnostics;
  }

  /** Persist the outcome, put the diagnostics back, and flush them only if the outcome is durable. */
  method FinishRead(queue: AuditQueue, flags: Flags, handle: ReadHandle, outcome: Outcome, err: Option<OperationError>, now: Timestamp)
    returns (failure: Option<ReadError>)
    requires queue.Idle() && ValidId(handle.mutation.id) && Paired(queue.Snapshot(), handle.mutation.id)
    requires !handle.diagnostics.done && flags.readDiagnostics == handle.diagnostics
    modifies queue, flags, handle.diagnostics
    ensures queue.Idle() && old(queue.states) <= queue.states && old(queue.ops) <= queue.ops && old(queue.log) <= queue.log
    ensures flags.readDiagnostics == handle.previous && handle.diagnostics.done
    ensures queue.failures >= old(queue.failures)
    ensures failure.Some? ==> queue.failures > old(queue.failures) || !Unhindered(old(queue.Snapshot()))
    ensures failure.None? ==> queue.failures == old(queue.failures)
    ensures failure.None? ==>
              && |old(queue.log)| < |queue.log|
              && Last(queue.log) == LogEntry(RecordOf(handle.mutation, OutcomePhase, Some(Normalize(outcome, err)), now), Direct)
    ensures failure.Some? ==> failure.value.OutcomeNotPersisted? && flags.terminal == old(flags.terminal)
    ensures failure.None? ==>
              flags.terminal == old(flags.terminal) + old(handle.diagnostics.text)
                                + if old(handle.diagnostics.dropped) then OVERFLOW_NOTICE else ""
  {
    hide AuditQueue.Valid, Inv, SoundRun, Accepts, Normalize, ReplayedPrefix, Paired, FinishEffect, Unhindered, CannotSpool, FateOf, AllReplayed;
    ghost var before := queue.Snapshot();
    ghost var middle, attempt;
    var result;
    result, middle, attempt := queue.Finish(Some(handle.mutation), outcome, err, now);
    var durable := result.OperationResult?;
    if durable {
      var record := RecordOf(handle.mutation, OutcomePhase, Some(Normalize(outcome, err)), now);
      OwnErrorMeansRecorded(before, middle, queue.Snapshot(), record, attempt, err, result);
      AllReplayedGrows(before);
    }
    flags.readDiagnostics := handle.previous;
    var written := handle.diagnostics.Complete(durable);
    flags.terminal := flags.terminal + written;
    failure := if durable then None else Some(OutcomeNotPersisted(result, err));
  }

  /** Close a read whose intent stands at a place of the log known to the caller. */
  method FinishReadAudit(queue: AuditQueue, flags: Flags, handle: ReadHandle, count: nat, err: Option<OperationError>, now: Timestamp,
                         ghost start: nat, ghost intent: nat)
    returns (failure: Option<ReadError>, ghost trace: Trace)
    requires queue.Idle() && ValidId(handle.mutation.id) && handle.mutation.spec.read
    requires start <= intent < |queue.log| && IsIntentOf(queue.log[intent], handle.mutation.id) && queue.log[intent].record.kind == ReadRecord
    requires !handle.diagnostics.done && flags.readDiagnostics == handle.diagnostics
    modifies queue, flags, handle.diagnostics
    ensures queue.Idle() && old(queue.states) <= queue.states && old(queue.log) <= queue.log
    ensures flags.readDiagnostics == handle.previous
    ensures failure.None? ==>
              && Traced(queue.log, start, trace, handle.mutation.id, StatusOf(err))
              && trace.intent == intent && |old(queue.log)| <= trace.outcome
    ensures failure.None? ==>
              queue.log[trace.outcome].record.outcome.Some? && queue.log[trace.outcome].record.outcome.value.resultCount == count
    ensures failure.Some? ==> failure.value.OutcomeNotPersisted? && flags.terminal == old(flags.terminal)
    ensures queue.failures >= old(queue.failures)
    ensures failure.Some? ==> queue.failures > old(queue.failures) || !Unhindered(old(queue.Snapshot()))
    ensures failure.None? ==> queue.failures == old(queue.failures)
  {
    hide Inv, SoundRun, Accepts, Unhindered;
    failure := FinishRead(queue, flags, handle, SingleReadOutcome(count, err), err, now);
    trace := Trace(intent, |queue.log| - 1);
  }

  /**
   A result comes back only if the intent and the outcome of this very read are both in the log, in that order,
   around the one run of the operation; without an intent the operation does not run at all.
   */
  method RunMandatoryRead<T(0)>(queue: AuditQueue, flags: Flags, operation: Operation, spec: Spec, now: Timestamp, later: Timestamp,
                                path: bool, random: Option<string>)
    returns (result: ReadResult<T>, ghost trace: Trace)
    requires queue.Idle() && (random.Some? ==> ValidId(random.value))
    modifies queue, flags, operation
    ensures queue.Idle() && old(queue.states) <= queue.states && old(queue.log) <= queue.log
    ensures flags.readDiagnostics == old(flags.readDiagnostics)
    ensures result.Error? && result.error.IntentNotPersisted? ==> operation.runs == old(operation.runs)
    ensures !(result.Error? && result.error.IntentNotPersisted?) ==>
              operation.runs != [] && operation.runs == old(operation.runs) + [Last(operation.runs)]
    ensures result.Value? || result.error.OperationFailed? ==>
              && random.Some? && operation.runs != []
              && Traced(queue.log, |old(queue.log)|, trace, random.value, if result.Value? then Success else Failed)
              && Around(trace, Last(operation.runs))
    ensures result.Value? ==> Last(operation.runs).err.None?
    ensures result.Value? || result.error.OperationFailed? ==> queue.failures == old(queue.failures)
    ensures result.Error? && result.error.OperationFailed? ==> Last(operation.runs).err == Some(result.error.operation)
    ensures result.Value? || result.error.OperationFailed? ==>
              && queue.log[trace.outcome].record.outcome.Some?
              && queue.log[trace.outcome].record.outcome.value.resultCount == Last(operation.runs).count
    ensures result.Error? && !result.error.OperationFailed? ==> flags.terminal == old(flags.terminal)
    ensures queue.failures == old(queue.failures) && MayBegin(old(queue.Snapshot()), spec, path, random) ==>
              && operation.runs != []
              && (Unhindered(Last(operation.runs).left) ==> result.Value? || result.error.OperationFailed?)
  {
    hide AuditQueue.Valid, Inv, SoundRun, Accepts, ReplayedPrefix, Traced, Normalize, Unhindered, MayBegin;
    trace := Trace(0, 0);
    var begun, handle := BeginRead(queue, flags, spec, now, path, random);
    if handle.None? {
      return Error(IntentNotPersisted(begun)), trace;
    }
    var id := handle.value.mutation.id;
    ghost var intent := |queue.log| - 1;
    assert IsIntentOf(queue.log[intent], id);
    var value: T, err, count;
    value, err, count := operation.Run(queue, handle.value.diagnostics);
    assert IsIntentOf(queue.log[intent], id);
    var failure;
    failure, trace := FinishReadAudit(queue, flags, handle.value, count, err, later, |old(queue.log)|, intent);
    if failure.Some? {
      return Error(failure.value), trace;
    }
    return if err.Some? then Error(OperationFailed(err.value)) else Value(value), trace;
  }

  /** A broker handed out by a preflight is open, and the preflight's read is traced; on any error it is closed. */
  method RunMandatoryPreflight(queue: AuditQueue, flags: Flags, operation: Operation, spec: Spec, now: Timestamp, later: Timestamp,
                               path: bool, random: Option<string>,
                               resolved: bool, authorized: Option<OperationError>, built: Option<OperationError>)
    returns (result: ReadResult<Broker>, ghost trace: Trace, backend: Broker?)
    requires queue.Idle() && (random.Some? ==> ValidId(random.value))
    modifies queue, flags, operation
    ensures queue.Idle() && old(queue.states) <= queue.states && old(queue.log) <= queue.log
    ensures backend != null ==> fresh(backend) && resolved && authorized.None? && built.None?
    ensures backend != null <==> operation.runs != old(operation.runs)
    ensures result.Error? && result.error.ContextUnresolved? <==> !resolved
    ensures result.Error? && result.error.OperationFailed? ==>
              Some(result.error.operation) == if backend != null && operation.runs != [] then Last(operation.runs).err else if authorized.Some? then authorized else built
    ensures resolved && authorized.None? && built.None? && backend == null ==> result.Error? && result.error.IntentNotPersisted?
    ensures queue.failures == old(queue.failures) && MayBegin(old(queue.Snapshot()), spec, path, random) && resolved
            && authorized.None? && built.None? ==>
              && operation.runs != []
              && (Unhindered(Last(operation.runs).left) ==> result.Value? || result.error.OperationFailed?)
    ensures backend != null ==> operation.runs != [] && operation.runs == old(operation.runs) + [Last(operation.runs)]
    ensures result.Value? ==>
              && backend == result.value && backend.open
              && random.Some? && Traced(queue.log, |old(queue.log)|, trace, random.value, Success)
              && operation.runs != [] && Around(trace, Last(operation.runs))
    ensures result.Error? ==> backend == null || !backend.open
    ensures result.Error? && result.error.IntentNotPersisted? ==> backend == null
  {
    hide AuditQueue.Valid, Inv, SoundRun, Accepts, ReplayedPrefix, Traced, Normalize, Unhindered, MayBegin;
    trace, backend := Trace(0, 0), null;
    if !resolved {
      return Error(ContextUnresolved), trace, null;
    }
    var begun, handle := BeginRead(queue, flags, spec, now, path, random);
    if handle.None? {
      return Error(IntentNotPersisted(begun)), trace, null;
    }
    var id := handle.value.mutation.id;
    ghost var intent := |queue.log| - 1;
    assert IsIntentOf(queue.log[intent], id);
    var err, count := authorized, 0;
    if err.None? {
      err := built;
    }
    if err.None? {
      backend := new Broker();
      var value: int;
      value, err, count := operation.Run(queue, handle.value.diagnostics);
    }
    assert IsIntentOf(queue.log[intent], id);
    var failure;
    failure, trace := FinishReadAudit(queue, flags, handle.value, count, err, later, |old(queue.log)|, intent);
    if failure.Some? || err.Some? {
      if backend != null {
        backend.Close();
      }
      return Error(if failure.Some? then failure.value else OperationFailed(err.value)), trace, backend;
    }
    return Value(backend), trace, backend;
  }

  /** The mutation a preflight clears the way for: its intent comes after the preflight's whole trace. */
  method MutateAfterPreflight(queue: AuditQueue, flags: Flags, operation: Operation, readSpec: Spec, mutationSpec: Spec, now: Timestamp, path: bool,
                              readId: Option<string>, mutationId: Option<string>)
    returns (begun: Option<BeginResult>, ghost trace: Trace)
    requires queue.Idle() && (readId.Some? ==> ValidId(readId.value)) && (mutationId.Some? ==> ValidId(mutationId.value))
    requires !mutationSpec.read
    modifies queue, flags, operation
    ensures queue.Idle() && old(queue.states) <= queue.states && old(queue.log) <= queue.log
    ensures begun.Some? && begun.value.Opened? ==>
              && readId.Some? && mutationId.Some?
              && Traced(queue.log, |old(queue.log)|, trace, readId.value, Success)
              && operation.runs != [] && operation.runs == old(operation.runs) + [Last(operation.runs)]
              && Around(trace, Last(operation.runs))
              && trace.outcome < |queue.log| - 1
              && IsIntentOf(Last(queue.log), mutationId.value) && Last(queue.log).record.kind == MutationRecord
  {
    hide Inv, Accepts, ReplayedPrefix, AllReplayed, WellFormedSpec, UtcNow, AllOwn, ReplayStopped;
    var authorized: Option<OperationError>, built: Option<OperationError> := *, *;
    var preflight, t, backend := RunMandatoryPreflight(queue, flags, operation, readSpec, now, now, path, readId, true, authorized, built);
    trace := t;
    if preflight.Error? {
      return None, trace;
    }
    ghost var before, from := queue.log, |queue.states| - 1;
    var result := queue.Begin(mutationSpec, now, path, mutationId);
    LogOnlyGrows(queue.states, queue.ops, from, |queue.states| - 1);
    backend.Close();
    return Some(result), trace;
  }
}
