/**
 Moving messages from a dead-letter queue to a live one: fetch, publish with a confirm,
 acknowledge. The broker may fail, or leave a call undecided, at every point.
 */
module Redrive {
  import opened Common

  /** What a redrive copies. A message's other properties are not carried over. */
  datatype Payload = Payload(headers: string, body: string)

  datatype Message = Message(payload: Payload, properties: string)

  const MAX_BATCH := 10_000
  const DEFAULT_COUNT := 100

  datatype PublishResult = Confirmed | PublishFailed | NoConfirmMode | Unroutable | Refused | TimedOut

  datatype Cause =
    | BadRequest
    | Unreachable
    | ChannelFailed
    | ConfirmModeFailed
    | GetFailed
    | PublishError(result: PublishResult)
    | RequeueError(result: PublishResult)
    | AckFailed

  datatype Failure = Failure(cause: Cause, partial: bool)

  /** The publish failed, but the copy may have reached the target after all. */
  predicate IsUncertain(r: PublishResult) {
    r.PublishFailed? || r.TimedOut?
  }

  function Payloads(messages: seq<Message>): (r: seq<Payload>) {
    seq(|messages|, i requires 0 <= i < |messages| => messages[i].payload)
  }

  lemma PayloadsExtend(messages: seq<Message>, m: Message)
    ensures Payloads(messages + [m]) == Payloads(messages) + [m.payload]
  {
  }

  /** The target went from one state to another by copies of `moved` in order, followed by a stray copy if there is one. */
  ghost predicate Copied(before: seq<Payload>, moved: seq<Message>, stray: seq<Payload>, after: seq<Payload>) {
    after == before + Payloads(moved) + stray
  }

  lemma CopiedNothing(before: seq<Payload>)
    ensures Copied(before, [], [], before)
  {
  }

  lemma CopiedOne(before: seq<Payload>, m: Message)
    ensures Copied(before, [m], [], before + [m.payload])
  {
    assert Payloads([m]) == [m.payload];
  }

  lemma CopiedStray(before: seq<Payload>, stray: seq<Payload>)
    ensures Copied(before, [], stray, before + stray)
  {
    assert Payloads([]) == [];
  }

  lemma CopiedThen(before: seq<Payload>, moved: seq<Message>, middle: seq<Payload>, more: seq<Message>, stray: seq<Payload>, after: seq<Payload>)
    requires Copied(before, moved, [], middle) && Copied(middle, more, stray, after)
    ensures Copied(before, moved + more, stray, after)
  {
    assert Payloads(moved + more) == Payloads(moved) + Payloads(more);
  }

  /** Exactly the messages in `moved` left the dead-letter queue. */
  ghost predicate Gone(before: multiset<Message>, moved: seq<Message>, after: multiset<Message>) {
    after == before + multiset(moved)
  }

  lemma GoneNothing(before: multiset<Message>)
    ensures Gone(before, [], before)
  {
  }

  lemma GoneOne(before: multiset<Message>, m: Message)
    ensures Gone(before, [m], before + multiset{m})
  {
  }

  lemma GoneThen(before: multiset<Message>, moved: seq<Message>, middle: multiset<Message>, more: seq<Message>, after: multiset<Message>)
    requires Gone(before, moved, middle) && Gone(middle, more, after)
    ensures Gone(before, moved + more, after)
  {
  }

  /** One more removal of the message is covered by its confirms. */
  ghost predicate Removable(m: Message, removed: multiset<Message>, confirmed: seq<Message>) {
    removed + multiset{m} <= multiset(confirmed)
  }

  /** The dead-letter queue's messages are ready, unacknowledged (at most one) or removed. */
  ghost predicate Accounted(ready: seq<Message>, inFlight: seq<Message>, removed: multiset<Message>, original: multiset<Message>) {
    |inFlight| <= 1 && multiset(ready) + multiset(inFlight) + removed == original
  }

  /** What was removed had been confirmed, and what was confirmed is in the target. */
  ghost predicate Backed(removed: multiset<Message>, confirmed: seq<Message>, copies: seq<Payload>) {
    removed <= multiset(confirmed) && multiset(Payloads(confirmed)) <= multiset(copies)
  }

  lemma Arriving(ready: seq<Message>, removed: multiset<Message>, original: multiset<Message>, arrived: seq<Message>)
    requires Accounted(ready, [], removed, original)
    ensures Accounted(ready + arrived, [], removed, original + multiset(arrived))
  {
  }

  lemma Taking(ready: seq<Message>, removed: multiset<Message>, original: multiset<Message>)
    requires ready != [] && Accounted(ready, [], removed, original)
    ensures Accounted(ready[1..], [ready[0]], removed, original)
  {
    assert ready == [ready[0]] + ready[1..];
  }

  lemma PuttingBack(front: seq<Message>, back: seq<Message>, m: Message, removed: multiset<Message>, original: multiset<Message>)
    requires Accounted(front + back, [m], removed, original)
    ensures Accounted(front + [m] + back, [], removed, original)
  {
  }

  lemma Dropping(ready: seq<Message>, m: Message, removed: multiset<Message>, original: multiset<Message>)
    requires Accounted(ready, [m], removed, original)
    ensures Accounted(ready, [], removed + multiset{m}, original)
  {
  }

  /** The failures after which the target may hold one copy that was not confirmed. */
  predicate StrayCause(err: Option<Cause>) {
    err.Some? && (err.value.PublishError? || err.value.RequeueError?) && !err.value.result.Unroutable?
  }

  /** The failures that leave one message in doubt: it may have been copied, or may be left unacknowledged. */
  predicate Doubtful(err: Option<Cause>) {
    err.Some? && match err.value
                 case AckFailed => true
                 case RequeueError(_) => true
                 case PublishError(result) => IsUncertain(result)
                 case _ => false
  }

  /** How the unit that failed is counted, and whether the failure is reported as partial. */
  ghost predicate CountedAs(cause: Cause, outcome: BatchOutcome) {
    match cause
    case PublishError(TimedOut) => outcome.failed == 0 && outcome.uncertain == 1
    case PublishError(PublishFailed) => outcome.failed == 0 && outcome.uncertain == 1
    case PublishError(Refused) => outcome.failed == 1 && outcome.uncertain == 0
    case PublishError(NoConfirmMode) => outcome.failed == 1 && outcome.uncertain == 0
    case PublishError(Unroutable) => outcome.failed == 1 && outcome.uncertain == 0
    case PublishError(Confirmed) => false
    case RequeueError(_) => outcome.failed == 0 && outcome.uncertain == 1
    case AckFailed => outcome.failed == 0 && outcome.uncertain == 1
    case GetFailed => outcome.failed == 1 && outcome.uncertain == 0
    case _ => outcome == BatchOutcome(0, 0, 0)
  }

  function CauseOf(failure: Option<Failure>): Option<Cause> {
    if failure.Some? then Some(failure.value.cause) else None
  }

  /** A failure is counted by its cause, reported as partial if something may have happened, and not without a failed call. */
  ghost predicate Explained(failure: Failure, outcome: BatchOutcome, before: nat, after: nat) {
    && CountedAs(failure.cause, outcome)
    && (failure.partial <==> outcome.succeeded > 0 || outcome.uncertain > 0)
    && (failure.cause.PublishError? || failure.cause.BadRequest? || after > before)
  }

  lemma PartialWhen(outcome: BatchOutcome, cause: Cause)
    requires outcome.NonNegative()
    ensures FailureOf(outcome, cause).cause == cause
    ensures FailureOf(outcome, cause).partial <==> outcome.succeeded > 0 || outcome.uncertain > 0
  {
  }

  lemma FailureExplained(outcome: BatchOutcome, cause: Cause, before: nat, after: nat)
    requires CountedAs(cause, outcome) && outcome.NonNegative() && (cause.PublishError? || after > before)
    ensures Explained(FailureOf(outcome, cause), outcome, before, after)
  {
  }

  lemma NothingCounted(cause: Cause, before: nat, after: nat)
    requires cause.BadRequest? || ((cause.Unreachable? || cause.ChannelFailed?) && after > before)
    ensures Explained(Failure(cause, false), BatchOutcome(0, 0, 0), before, after)
  {
  }

  lemma ExplainedEarlier(failure: Failure, outcome: BatchOutcome, earlier: nat, before: nat, after: nat)
    requires Explained(failure, outcome, before, after) && earlier <= before
    ensures Explained(failure, outcome, earlier, after)
  {
  }

  lemma NoReplies(replies: seq<Reply>, err: Option<Cause>)
    requires err.Some? ==> !err.value.PublishError? && !err.value.RequeueError?
    ensures Replied(replies, 0, err, replies)
  {
  }

  datatype Event = ReturnSeen | ConfirmSeen | ContextDone

  /**
   What came of one publish: whether it was sent over a channel that confirms, what was seen first, whether
   the confirm was positive, and whether the message came back.
   */
  datatype Reply = Reply(sent: bool, confirming: bool, event: Event, acked: bool, returned: bool)

  /** A publish is confirmed only by a positive confirm with nothing returned, and times out only without any answer. */
  ghost predicate Answers(reply: Reply, result: PublishResult) {
    && (result.PublishFailed? <==> !reply.sent)
    && (result.NoConfirmMode? <==> reply.sent && !reply.confirming)
    && (reply.sent && reply.confirming ==>
          && (result.TimedOut? <==> reply.event.ContextDone?)
          && (result.Refused? <==> reply.event.ConfirmSeen? && !reply.acked)
          && (result.Confirmed? <==> reply.event.ConfirmSeen? && reply.acked && !reply.returned)
          && (result.Unroutable? <==> reply.event.ReturnSeen? || (reply.event.ConfirmSeen? && reply.acked && reply.returned)))
  }

  /** What the wait for a confirm makes of the reply. */
  function Verdict(reply: Reply): PublishResult {
    if !reply.sent then PublishFailed
    else if !reply.confirming then NoConfirmMode
    else match reply.event
      case ReturnSeen => Unroutable
      case ContextDone => TimedOut
      case ConfirmSeen => if !reply.acked then Refused else if reply.returned then Unroutable else Confirmed
  }

  lemma VerdictAnswers(reply: Reply)
    ensures Answers(reply, Verdict(reply))
    ensures Verdict(reply).Confirmed? ==> reply.event.ConfirmSeen? && reply.acked && !reply.returned
    ensures Verdict(reply).Unroutable? ==> reply.event.ReturnSeen? || reply.returned
  {
  }

  /** The replies of a run: one confirm for each message moved, and one more for a publish that failed. */
  ghost predicate Replied(before: seq<Reply>, moved: nat, err: Option<Cause>, after: seq<Reply>) {
    var failed := err.Some? && (err.value.PublishError? || err.value.RequeueError?);
    && before <= after
    && |after| == |before| + moved + (if failed then 1 else 0)
    && (forall i :: |before| <= i < |before| + moved ==> Answers(after[i], Confirmed))
    && (failed ==> Answers(after[|after| - 1], err.value.result))
  }

  lemma RepliedThen(before: seq<Reply>, n: nat, middle: seq<Reply>, m: nat, err: Option<Cause>, after: seq<Reply>)
    requires Replied(before, n, None, middle) && Replied(middle, m, err, after)
    ensures Replied(before, n + m, err, after)
  {
  }

  /**
   The dead-letter queue as the broker holds it, and the copies redrives have put in the target.
   `original` is every message that ever was in the dead-letter queue, `confirmed` those whose copy
   was confirmed, one entry per confirm, and `removed` those gone from the dead-letter queue.
   */
  class Broker {
    var ready: seq<Message>
    var inFlight: seq<Message>
    var copies: seq<Payload>
    ghost var original: multiset<Message>
    ghost var confirmed: seq<Message>
    ghost var removed: multiset<Message>
    ghost var replies: seq<Reply>  // what came of each publish; only Deliver adds to it
    ghost var failures: nat        // how many other calls failed; only Call adds to it

    /** Every message is still in the queue, ready or unacknowledged, or its copy in the target was confirmed. */
    ghost predicate Conserved()
      reads `ready, `inFlight, `copies, `original, `confirmed, `removed
    {
      && Accounted(ready, inFlight, removed, original)
      && Backed(removed, confirmed, copies)
    }

    constructor (messages: seq<Message>)
      ensures Conserved() && ready == messages && inFlight == [] && copies == [] && confirmed == []
    {
      ready, inFlight, copies := messages, [], [];
      original, confirmed, removed := multiset(messages), [], multiset{};
      replies, failures := [], 0;
    }

    /** One call other than a publish: to connect, open, inspect, fetch, acknowledge or give back. */
    method Call() returns (ok: bool)
      modifies `failures
      ensures ok ==> failures == old(failures)
      ensures !ok ==> failures == old(failures) + 1
    {
      ok := *;
      failures := if ok then failures else failures + 1;
    }

    /** Other programs put more messages into the queue. */
    method Arrive()
      requires Conserved() && inFlight == []
      modifies `ready, `original
      ensures Conserved() && old(original) <= original
    {
      var arrived: seq<Message> := *;
      Arriving(ready, removed, original, arrived);
      hide Accounted, Backed;
      ready, original := ready + arrived, original + multiset(arrived);
    }

    /** Hand out the first ready message. */
    method Take()
      requires Conserved() && inFlight == [] && ready != []
      modifies `ready, `inFlight
      ensures Conserved() && inFlight == [old(ready)[0]]
    {
      Taking(ready, removed, original);
      hide Accounted, Backed;
      ready, inFlight := ready[1..], [ready[0]];
    }

    /** Fetch the first ready message without acknowledging it; others may have arrived meanwhile. */
    method Get() returns (ok: bool, message: Option<Message>)
      requires Conserved() && inFlight == []
      modifies `ready, `inFlight, `original, `failures
      ensures Conserved() && old(original) <= original
      ensures ok ==> failures == old(failures)
      ensures !ok ==> failures == old(failures) + 1
      ensures ok && message.Some? ==> inFlight == [message.value]
      ensures !ok || message.None? ==> inFlight == []
      ensures ok && message.None? ==> ready == []
    {
      hide Conserved;
      Arrive();
      ok := Call();
      if !ok || ready == [] {
        return ok, None;
      }
      message := Some(ready[0]);
      Take();
    }

    /** What the broker makes of a publish: a mandatory message that it cannot route comes back before its confirm. */
    method Deliver(message: Message) returns (reply: Reply, ghost stray: seq<Payload>)
      requires Conserved()
      modifies `copies, `replies
      ensures Conserved() && replies == old(replies) + [reply]
      ensures copies == old(copies) + stray && (stray == [] || stray == [message.payload])
      ensures reply.event.ConfirmSeen? && reply.acked && !reply.returned ==> stray == [message.payload]
      ensures stray != [] ==> Covered(message)
      ensures reply.returned ==> stray == []
      ensures reply.event.ReturnSeen? ==> reply.returned
    {
      var sent: bool, confirming: bool, delivered: bool, routed: bool, stored: bool, acked: bool, event: Event := *, *, *, *, *, *, *;
      stray := [];
      if delivered && routed && (stored || acked) {
        PayloadsExtend(confirmed, message);
        copies, stray := copies + [message.payload], [message.payload];
      }
      var returned := delivered && !routed;
      if (event.ConfirmSeen? && !delivered) || (event.ReturnSeen? && !returned) {
        event := ContextDone;
      }
      reply := Reply(sent, confirming, event, acked, returned);
      replies := replies + [reply];
    }

    /** The target holds a copy of the message beyond those already confirmed. */
    ghost predicate Covered(message: Message)
      reads this
    {
      multiset(Payloads(confirmed + [message])) <= multiset(copies)
    }

    ghost method Confirm(message: Message)
      requires Conserved() && Covered(message)
      modifies `confirmed
      ensures Conserved() && confirmed == old(confirmed) + [message] && Removable(message, removed, confirmed)
    {
      confirmed := confirmed + [message];
    }

    /** Publish and wait. A confirm is trusted only when no return came before it; without one the copy is a stray. */
    method PublishConfirmed(message: Message)
        returns (result: PublishResult, ghost moved: seq<Message>, ghost stray: seq<Payload>)
      requires Conserved()
      modifies `copies, `replies, `confirmed
      ensures Conserved()
      ensures |replies| == |old(replies)| + 1 && old(replies) <= replies && Answers(replies[|old(replies)|], result)
      ensures moved == if result.Confirmed? then [message] else []
      ensures Copied(old(copies), moved, stray, copies) && |stray| <= 1
      ensures stray != [] ==> !result.Confirmed? && !result.Unroutable?
      ensures confirmed == old(confirmed) + moved
      ensures result.Confirmed? ==> Removable(message, removed, confirmed)
    {
      assert confirmed + [] == confirmed;
      var reply;
      reply, stray := Deliver(message);
      CopiedStray(old(copies), stray);
      hide Conserved, Copied, Removable;
      moved, result := [], Verdict(reply);
      VerdictAnswers(reply);
      hide Verdict, Answers;
      if result.Confirmed? {
        CopiedOne(old(copies), message);
        Confirm(message);
        moved, stray := [message], [];
      }
    }

    /** Acknowledge: on an error the broker may or may not have dropped the message. */
    method Ack(message: Message) returns (ok: bool)
      requires Conserved() && inFlight == [message] && Removable(message, removed, confirmed)
      modifies `inFlight, `removed, `failures
      ensures Conserved()
      ensures ok ==> failures == old(failures)
      ensures !ok ==> failures == old(failures) + 1
      ensures (inFlight == [] && Gone(old(removed), [message], removed))
           || (!ok && inFlight == old(inFlight) && removed == old(removed))
    {
      ok := Call();
      Dropping(ready, message, removed, original);
      GoneOne(removed, message);
      hide Accounted, Gone;
      var applied: bool := *;
      if ok || applied {
        removed := removed + multiset{message};
        inFlight := [];
      }
    }

    /** Put the unacknowledged message back, at a place the broker chooses. */
    method Requeue()
      requires Conserved() && |inFlight| == 1
      modifies `ready, `inFlight
      ensures Conserved() && inFlight == []
    {
      hide Accounted, Backed;
      var at: int := *;
      var i := if 0 <= at <= |ready| then at else 0;
      assert ready[..i] + ready[i..] == ready && [inFlight[0]] == inFlight;
      PuttingBack(ready[..i], ready[i..], inFlight[0], removed, original);
      ready, inFlight := ready[..i] + [inFlight[0]] + ready[i..], [];
    }

    /** Negative acknowledgement with requeue; on an error the message may stay unacknowledged. */
    method Nack() returns (ok: bool)
      requires Conserved() && |inFlight| == 1
      modifies `ready, `inFlight, `failures
      ensures Conserved()
      ensures ok ==> inFlight == [] && failures == old(failures)
      ensures !ok ==> failures == old(failures) + 1
    {
      ok := Call();
      var applied: bool := *;
      if ok || applied {
        Requeue();
      }
    }

    /** When the channel goes away the broker requeues what was not acknowledged. */
    method CloseChannel()
      requires Conserved()
      modifies `ready, `inFlight
      ensures Conserved() && inFlight == [] && (old(inFlight) == [] ==> ready == old(ready))
    {
      if inFlight != [] {
        Requeue();
      }
    }

    /** After a failed publish the message goes back, and a copy that got through all the same is a stray one. */
    method GiveBack(result: PublishResult) returns (err: Option<Cause>)
      requires Conserved() && |inFlight| == 1 && !result.Confirmed?
      modifies `ready, `inFlight, `failures
      ensures Conserved() && failures >= old(failures)
      ensures err == Some(PublishError(result)) || (err == Some(RequeueError(result)) && failures > old(failures))
      ensures !Doubtful(err) ==> inFlight == []
      ensures result.Unroutable? || StrayCause(err)
    {
      hide Conserved;
      var requeued := Nack();
      err := Some(if requeued then PublishError(result) else RequeueError(result));
    }

    /** Publish the fetched message and settle it, one way or the other. */
    method Settle(message: Message) returns (err: Option<Cause>, ghost moved: seq<Message>, ghost stray: seq<Payload>)
      requires Conserved() && inFlight == [message]
      modifies this
      ensures Conserved() && old(original) == original && failures >= old(failures)
      ensures err.Some? && !err.value.PublishError? ==> failures > old(failures)
      ensures Replied(old(replies), |moved|, err, replies)
      ensures moved == if err.None? || err.value.AckFailed? then [message] else []
      ensures confirmed == old(confirmed) + moved
      ensures Copied(old(copies), moved, stray, copies) && |stray| <= 1 && (stray != [] ==> StrayCause(err))
      ensures !Doubtful(err) ==> inFlight == [] && Gone(old(removed), moved, removed)
      ensures err.Some? ==> err.value.AckFailed? || err.value.PublishError? || err.value.RequeueError?
      ensures err.Some? && err.value.PublishError? ==> !err.value.result.Confirmed?
    {
      hide Conserved, Copied, Gone, Removable;
      GoneNothing(removed);
      var result;
      result, moved, stray := PublishConfirmed(message);
      if result.Confirmed? {
        var acked := Ack(message);
        err := if acked then None else Some(AckFailed);
      } else {
        err := GiveBack(result);
      }
    }

    /**
     One message. `moved` holds it once its copy was confirmed, and `stray` a copy that was not.
     With AckFailed the message was confirmed but perhaps not removed.
     */
    method RedriveOne() returns (err: Option<Cause>, ghost moved: seq<Message>, ghost stray: seq<Payload>, drained: bool)
      requires Conserved() && inFlight == []
      modifies this
      ensures Conserved() && old(original) <= original && failures >= old(failures)
      ensures err.Some? && !err.value.PublishError? ==> failures > old(failures)
      ensures Replied(old(replies), |moved|, err, replies)
      ensures |moved| == (if drained || (err.Some? && !err.value.AckFailed?) then 0 else 1)
      ensures confirmed == old(confirmed) + moved
      ensures Copied(old(copies), moved, stray, copies) && |stray| <= 1 && (stray != [] ==> StrayCause(err))
      ensures drained ==> ready == [] && err.None?
      ensures !Doubtful(err) ==> inFlight == [] && Gone(old(removed), moved, removed)
      ensures err.Some? ==> err.value.GetFailed? || err.value.AckFailed? || err.value.PublishError? || err.value.RequeueError?
      ensures err.Some? && err.value.PublishError? ==> !err.value.result.Confirmed?
    {
      hide Conserved, Copied, Gone;
      CopiedNothing(copies);
      GoneNothing(removed);
      err, moved, stray, drained := None, [], [], false;
      var ok, message := Get();
      if !ok {
        err := Some(GetFailed);
      } else if message.None? {
        drained := true;
      } else {
        err, moved, stray := Settle(message.value);
      }
    }

    /**
     The batch counts as succeeded exactly the messages it copied and removed. What it copied is what it confirmed,
     in order, and at most one payload more, after a publish that the broker did not return.
     */
    method RedriveBatch(count: nat)
        returns (total: nat, outcome: BatchOutcome, err: Option<Cause>, ghost moved: seq<Message>, ghost stray: seq<Payload>)
      requires Conserved() && inFlight == []
      modifies this
      ensures Conserved() && old(original) <= original && failures >= old(failures)
      ensures total == outcome.succeeded && outcome.NonNegative() && outcome.Count() <= count
      ensures err.None? ==> outcome == BatchOutcome(total, 0, 0) && stray == [] && inFlight == []
      ensures err.Some? ==> CountedAs(err.value, outcome)
      ensures err.Some? && !err.value.PublishError? ==> failures > old(failures)
      ensures Replied(old(replies), |moved|, err, replies)
      ensures stray != [] && outcome.uncertain == 0 ==> err == Some(PublishError(Refused)) || err == Some(PublishError(NoConfirmMode))
      ensures err.None? ==> total == count || ready == []
      ensures err == Some(ConfirmModeFailed) ==> total == 0
      ensures err != Some(BadRequest)
      ensures confirmed == old(confirmed) + moved && |moved| == total + if err == Some(AckFailed) then 1 else 0
      ensures Copied(old(copies), moved, stray, copies) && |stray| <= 1 && (stray != [] ==> err.Some?)
      ensures outcome.uncertain == 0 ==> Gone(old(removed), moved, removed) && inFlight == [] && |moved| == total
    {
      hide Conserved, Copied, Gone;
      CopiedNothing(copies);
      GoneNothing(removed);
      total, outcome, err, moved, stray := 0, BatchOutcome(0, 0, 0), None, [], [];
      var confirming := Call();
      if !confirming {
        err := Some(ConfirmModeFailed);
        return;
      }
      while total < count
        invariant total <= count && outcome == BatchOutcome(total, 0, 0)
        invariant Conserved() && inFlight == [] && old(original) <= original && failures >= old(failures)
        invariant Replied(old(replies), total, None, replies)
        invariant |moved| == total && stray == [] && err.None?
        invariant confirmed == old(confirmed) + moved
        invariant Copied(old(copies), moved, [], copies)
        invariant Gone(old(removed), moved, removed)
        decreases count - total
      {
        ghost var more;
        var drained;
        ghost var before, wasRemoved, answered := copies, removed, replies;
        err, more, stray, drained := RedriveOne();
        CopiedThen(old(copies), moved, before, more, stray, copies);
        RepliedThen(old(replies), |moved|, answered, |more|, err, replies);
        if !Doubtful(err) {
          GoneThen(old(removed), moved, wasRemoved, more, removed);
        }
        moved := moved + more;
        if drained {
          return;
        }
        if err.Some? {
          if Doubtful(err) {
            outcome := outcome.(uncertain := outcome.uncertain + 1);
          } else {
            outcome := outcome.(failed := outcome.failed + 1);
          }
          return;
        }
        total := total + 1;
        outcome := outcome.(succeeded := outcome.succeeded + 1);
      }
    }

    /** A connection, a channel on it, and a context that is not done yet. */
    method Connect() returns (err: Option<Cause>)
      modifies `failures
      ensures err.None? ==> failures == old(failures)
      ensures err.Some? ==> (err.value.Unreachable? || err.value.ChannelFailed?) && failures == old(failures) + 1
    {
      var dialled := Call();
      if !dialled {
        return Some(Unreachable);
      }
      var alive := Call();
      return if alive then None else Some(ChannelFailed);
    }

    /** The batch on an open channel, and the broker requeues whatever is unacknowledged when that goes away. */
    method RedriveOnChannel(count: nat)
        returns (total: int, outcome: BatchOutcome, failure: Option<Failure>, ghost moved: seq<Message>, ghost stray: seq<Payload>)
      requires Conserved() && inFlight == []
      modifies this
      ensures Conserved() && inFlight == [] && old(original) <= original && failures >= old(failures)
      ensures total == outcome.succeeded && outcome.NonNegative() && outcome.Count() <= count
      ensures failure.Some? ==> Explained(failure.value, outcome, old(failures), failures)
      ensures failure.Some? ==> !failure.value.cause.BadRequest?
      ensures Replied(old(replies), |moved|, CauseOf(failure), replies)
      ensures stray != [] && outcome.uncertain == 0 ==>
                failure.Some? && (failure.value.cause == PublishError(Refused) || failure.value.cause == PublishError(NoConfirmMode))
      ensures confirmed == old(confirmed) + moved && |moved| >= outcome.succeeded
      ensures Copied(old(copies), moved, stray, copies) && |stray| <= 1
      ensures outcome.uncertain == 0 ==> Gone(old(removed), moved, removed) && |moved| == outcome.succeeded
      ensures failure.None? ==> outcome.failed == outcome.uncertain == 0 && stray == [] && (total == count || ready == [])
    {
      hide Conserved, Copied, Gone, Replied, CountedAs, FailureOf, Explained;
      var err;
      total, outcome, err, moved, stray := RedriveBatch(count);
      ghost var left := ready;
      CloseChannel();
      if err.None? {
        assert ready == left && stray == [];
        return total, outcome, None, moved, stray;
      }
      FailureExplained(outcome, err.value, old(failures), failures);
      PartialWhen(outcome, err.value);
      failure := Some(FailureOf(outcome, err.value));
    }

    /** The batch over a connection of its own. */
    method RedriveOverChannel(count: nat)
        returns (total: int, outcome: BatchOutcome, failure: Option<Failure>, ghost moved: seq<Message>, ghost stray: seq<Payload>)
      requires Conserved() && inFlight == []
      modifies this
      ensures Conserved() && inFlight == [] && old(original) <= original && failures >= old(failures)
      ensures total == outcome.succeeded && outcome.NonNegative() && outcome.Count() <= count
      ensures failure.Some? ==> Explained(failure.value, outcome, old(failures), failures)
      ensures failure.Some? ==> !failure.value.cause.BadRequest?
      ensures Replied(old(replies), |moved|, CauseOf(failure), replies)
      ensures stray != [] && outcome.uncertain == 0 ==>
                failure.Some? && (failure.value.cause == PublishError(Refused) || failure.value.cause == PublishError(NoConfirmMode))
      ensures confirmed == old(confirmed) + moved && |moved| >= outcome.succeeded
      ensures Copied(old(copies), moved, stray, copies) && |stray| <= 1
      ensures outcome.uncertain == 0 ==> Gone(old(removed), moved, removed) && |moved| == outcome.succeeded
      ensures failure.None? ==> outcome.failed == outcome.uncertain == 0 && stray == [] && (total == count || ready == [])
    {
      NoReplies(replies, Some(Unreachable));
      NoReplies(replies, Some(ChannelFailed));
      CopiedNothing(copies);
      GoneNothing(removed);
      hide Conserved, Copied, Gone, Replied, CountedAs, Explained;
      var err := Connect();
      if err.Some? {
        NothingCounted(err.value, old(failures), failures);
        assert confirmed + [] == confirmed;
        return 0, BatchOutcome(0, 0, 0), Some(Failure(err.value, false)), [], [];
      }
      total, outcome, failure, moved, stray := RedriveOnChannel(count);
      if failure.Some? {
        ExplainedEarlier(failure.value, outcome, old(failures), old(failures), failures);
      }
    }

    /** How many messages would be moved. */
    method Preview(limit: nat) returns (total: int, failure: Option<Failure>)
      modifies `failures
      ensures failure.None? ==> total <= |ready| && total <= limit && (total == |ready| || total == limit)
      ensures failure.None? ==> failures == old(failures)
      ensures failure.Some? ==> failure == Some(Failure(ChannelFailed, false)) && total == 0 && failures > old(failures)
    {
      var connected := Connect();
      if connected.Some? {
        return 0, Some(Failure(ChannelFailed, false));
      }
      var inspected := Call();
      if !inspected {
        return 0, Some(Failure(ChannelFailed, false));
      }
      return Min(|ready|, limit), None;
    }

    /** What every exit that moves nothing has in common. */
    lemma NothingDone()
      ensures Replied(replies, 0, None, replies)
      ensures Replied(replies, 0, Some(BadRequest), replies) && Replied(replies, 0, Some(ChannelFailed), replies)
      ensures Copied(copies, [], [], copies) && Gone(removed, [], removed) && confirmed == confirmed + []
    {
      NoReplies(replies, None);
      NoReplies(replies, Some(BadRequest));
      NoReplies(replies, Some(ChannelFailed));
      CopiedNothing(copies);
      GoneNothing(removed);
    }

    /** The whole operation: at every exit all messages are accounted for and none is held. */
    method RedriveDLQ(count: int, sameTopic: bool, dryRun: bool)
        returns (total: int, outcome: BatchOutcome, failure: Option<Failure>, ghost moved: seq<Message>, ghost stray: seq<Payload>)
      requires Conserved() && inFlight == []
      modifies this
      ensures Conserved() && inFlight == [] && old(original) <= original
      ensures sameTopic || dryRun || count > 10_000 ==>
                && ready == old(ready) && removed == old(removed) && moved == [] && stray == []
                && outcome == BatchOutcome(0, 0, 0)
      ensures sameTopic || count > 10_000 <==> failure == Some(Failure(BadRequest, false))
      ensures dryRun && failure.None? ==> total <= |ready| && (count > 0 ==> total <= count) && (count <= 0 ==> total <= 100)
      ensures dryRun && failure.None? ==> total == |ready| || total == count || (count <= 0 && total == 100)
      ensures !dryRun ==> total == outcome.succeeded && outcome.NonNegative()
      ensures count <= 0 ==> outcome.Count() <= 100
      ensures count > 0 ==> outcome.Count() <= count
      ensures failure.Some? ==> Explained(failure.value, outcome, old(failures), failures)
      ensures Replied(old(replies), |moved|, CauseOf(failure), replies)
      ensures stray != [] && outcome.uncertain == 0 ==>
                failure.Some? && (failure.value.cause == PublishError(Refused) || failure.value.cause == PublishError(NoConfirmMode))
      ensures confirmed == old(confirmed) + moved && |moved| >= outcome.succeeded
      ensures Copied(old(copies), moved, stray, copies) && |stray| <= 1
      ensures outcome.uncertain == 0 ==> Gone(old(removed), moved, removed) && |moved| == outcome.succeeded
      ensures !dryRun && failure.None? ==>
                && outcome.failed == outcome.uncertain == 0 && stray == []
                && (total == (if count <= 0 then 100 else count) || ready == [])
    {
      hide Conserved, Copied, Gone, Replied, EffectiveCount, CountedAs, Explained;
      EffectiveCountIs(count);
      NothingDone();
      var limit := EffectiveCount(count);
      if limit > MAX_BATCH || sameTopic {
        NothingCounted(BadRequest, failures, failures);
        return 0, BatchOutcome(0, 0, 0), Some(Failure(BadRequest, false)), [], [];
      }
      if dryRun {
        var messages, refusal := Preview(limit);
        if refusal.Some? {
          NothingCounted(ChannelFailed, old(failures), failures);
          return 0, BatchOutcome(0, 0, 0), refusal, [], [];
        }
        return messages, BatchOutcome(0, 0, 0), None, [], [];
      }
      total, outcome, failure, moved, stray := RedriveOverChannel(limit);
    }
  }

  function Min(a: int, b: int): int {
    if a > b then b else a
  }

  lemma EffectiveCountIs(count: int)
    ensures EffectiveCount(count) == if count <= 0 then 100 else count
  {
  }

  function EffectiveCount(count: int): (n: nat)
    ensures n > 0
  {
    if count <= 0 then DEFAULT_COUNT else count
  }

  /** A failure is partial once something may have happened. */
  function FailureOf(outcome: BatchOutcome, cause: Cause): Failure {
    Failure(cause, outcome.succeeded != 0 || outcome.uncertain != 0)
  }
}

/** The audit record of a redrive. */
module RedriveAudit {
  import opened Common
  import opened OutcomeRecords

  /** What the command records when the operation counted nothing. */
  function CommandBatch(outcome: BatchOutcome, total: int, failed: bool): BatchOutcome {
    if outcome.Count() == 0 then BatchOutcome(total, outcome.failed, if failed then 1 else outcome.uncertain) else outcome
  }

  /** The audit outcome of a redrive always passes the replay validation, and it reports no success that did not happen. */
  lemma RedriveReplays(handle: Handle, now: Timestamp, sequence: nat, count: nat, total: int, outcome: BatchOutcome, err: Option<OperationError>)
    requires Ready(handle, now, sequence) && WellFormedError(err)
    requires 0 < count && handle.spec.metadata.items == count
    requires outcome.NonNegative() && outcome.Count() <= count && total == outcome.succeeded
    ensures Replays(handle, Normalize(BatchResult(count, CommandBatch(outcome, total, err.Some?), err), err), now, sequence)
    ensures OwnOutcome(Normalize(BatchResult(count, CommandBatch(outcome, total, err.Some?), err), err), count)
    ensures CommandBatch(outcome, total, err.Some?).succeeded == total
    ensures outcome.Count() > 0 ==> CommandBatch(outcome, total, err.Some?) == outcome
    ensures outcome.Count() == 0 ==> CommandBatch(outcome, total, err.Some?) == BatchOutcome(0, 0, if err.Some? then 1 else 0)
  {
    hide Replays, Normalize, BatchResult;
    var batch := CommandBatch(outcome, total, err.Some?);
    assert batch.NonNegative() && batch.Count() <= count;
    PlannedBatchReplays(handle, now, sequence, batch, err);
    var source := Batch(count, batch, err);
    assert CallerBound(source, count) && OutcomeOf(source, count) == Normalize(BatchResult(count, batch, err), err);
  }
}
