/**
 Reading a topic up to a snapshot of its end offsets: the tail and mirror loops. Both keep
 the records they counted, a range per partition, and the set of partitions known to be done.
 */
module KafkaReads {
  import opened Common
  import opened Impacts

  const MAX_TAIL := 10_000
  const MAX_MIRROR := 1_000

  /** What one poll of the client gives; a fetch without records is the empty fetch. */
  datatype Poll = Fetched(records: seq<Option<Record>>) | Cancelled | Broken

  datatype ReadError = BadLimit | BackendError | EmitError

  /** The end of a partition in the snapshot; a partition the snapshot does not list counts as ending at 0. */
  function EndOf(ends: map<int, int>, p: int): int {
    if p in ends then ends[p] else 0
  }

  predicate PastEnd(ends: map<int, int>, r: Record) {
    EndOf(ends, r.partition) >= 0 && r.offset >= EndOf(ends, r.partition)
  }

  predicate ReachedEnd(ends: map<int, int>, r: Record) {
    EndOf(ends, r.partition) >= 0 && r.offset + 1 >= EndOf(ends, r.partition)
  }

  predicate StartsDone(starts: map<int, int>, ends: map<int, int>, p: int) {
    p in starts && EndOf(ends, p) >= 0 && starts[p] >= EndOf(ends, p)
  }

  /** The records of a stream that a read counts, in their order. */
  function Counted(ends: map<int, int>, follow: bool, s: seq<Record>): (r: seq<Record>) {
    if s == [] then []
    else Counted(ends, follow, s[..|s| - 1]) + if follow || !PastEnd(ends, Last(s)) then [Last(s)] else []
  }

  /** A record is counted exactly when it is in range. */
  lemma {:induction false} CountedExactly(ends: map<int, int>, follow: bool, s: seq<Record>, r: Record)
    ensures r in Counted(ends, follow, s) <==> r in s && (follow || !PastEnd(ends, r))
  {
    if s != [] {
      CountedExactly(ends, follow, s[..|s| - 1], r);
      assert s == s[..|s| - 1] + [Last(s)];
    }
  }

  /**
   Of the records consumed, those before the end of their partition are handed out and no others; a
   negative end excludes nothing, and of a partition that the snapshot does not list nothing is handed out.
   */
  ghost predicate HandedOut(ends: map<int, int>, consumed: seq<Record>, out: seq<Record>) {
    && (forall r :: r in out ==> r in consumed)
    && forall r :: r in consumed ==>
         && (r.partition in ends && ends[r.partition] >= 0 ==> (r in out <==> r.offset < ends[r.partition]))
         && (r.partition in ends && ends[r.partition] < 0 ==> r in out)
         && (r.partition !in ends ==> (r in out <==> r.offset < 0))
  }

  lemma CountedInRange(ends: map<int, int>, s: seq<Record>)
    ensures HandedOut(ends, s, Counted(ends, false, s))
  {
    forall r ensures r in Counted(ends, false, s) <==> r in s && !PastEnd(ends, r) {
      CountedExactly(ends, false, s, r);
    }
  }

  /** A read that follows hands out everything. */
  lemma {:induction false} FollowingCountsAll(ends: map<int, int>, s: seq<Record>)
    ensures Counted(ends, true, s) == s
  {
    if s != [] {
      FollowingCountsAll(ends, s[..|s| - 1]);
    }
  }

  lemma CountedPlainly(ends: map<int, int>, follow: bool, s: seq<Record>)
    ensures !follow ==> HandedOut(ends, s, Counted(ends, follow, s))
    ensures follow ==> Counted(ends, follow, s) == s
  {
    CountedInRange(ends, s);
    FollowingCountsAll(ends, s);
  }

  lemma CountedOneMore(ends: map<int, int>, follow: bool, s: seq<Record>, r: Record)
    ensures follow || !PastEnd(ends, r) ==> Counted(ends, follow, s + [r]) == Counted(ends, follow, s) + [r]
    ensures !follow && PastEnd(ends, r) ==> Counted(ends, follow, s + [r]) == Counted(ends, follow, s)
  {
    assert (s + [r])[..|s|] == s;
  }

  function Present(records: seq<Option<Record>>): (r: seq<Record>) {
    if records == [] then []
    else Present(records[..|records| - 1]) + if Last(records).Some? then [Last(records).value] else []
  }

  function SumSizes(s: seq<Record>): int {
    if s == [] then 0 else SumSizes(s[..|s| - 1]) + Last(s).size
  }

  lemma SizesOneMore(s: seq<Record>, r: Record)
    ensures SumSizes(s + [r]) == SumSizes(s) + r.size
  {
    assert (s + [r])[..|s|] == s;
  }

  /** The client fetches from the partitions it was given only; an offset has a successor. */
  ghost predicate Delivers(starts: map<int, int>, poll: Poll) {
    poll.Fetched? ==> forall r :: Some(r) in poll.records ==> r.partition in starts && 0 <= r.offset < MAX_INT64
  }

  /** A partition needs no more reading: it had nothing to read, or its last record before the end, or a later one, was seen. */
  ghost predicate DoneAfter(starts: map<int, int>, ends: map<int, int>, follow: bool, s: seq<Record>, p: int) {
    StartsDone(starts, ends, p) || (!follow && exists r :: r in s && r.partition == p && ReachedEnd(ends, r))
  }

  /** Nothing is left to read before the end of a partition: it began there, or its last record or a later one was consumed. */
  ghost predicate Finished(starts: map<int, int>, ends: map<int, int>, consumed: seq<Record>, p: int)
    requires p in starts
  {
    && (p in ends ==> ends[p] >= 0)
    && var end := if p in ends then ends[p] else 0;
    starts[p] >= end || exists r :: r in consumed && r.partition == p && r.offset + 1 >= end
  }

  ghost predicate AllFinished(starts: map<int, int>, ends: map<int, int>, consumed: seq<Record>) {
    forall p :: p in starts ==> Finished(starts, ends, consumed, p)
  }

  lemma DoneIsFinished(starts: map<int, int>, ends: map<int, int>, consumed: seq<Record>, done: set<int>)
    requires DoneSet(starts, ends, false, consumed, done) && done <= starts.Keys
    ensures done == starts.Keys <==> AllFinished(starts, ends, consumed)
  {
    forall p | p in starts ensures p in done <==> Finished(starts, ends, consumed, p) {
      assert p in done <==> DoneAfter(starts, ends, false, consumed, p);
    }
    if AllFinished(starts, ends, consumed) {
      assert starts.Keys <= done by {
        forall p | p in starts.Keys ensures p in done {
          assert Finished(starts, ends, consumed, p);
        }
      }
    }
  }

  ghost predicate DoneSet(starts: map<int, int>, ends: map<int, int>, follow: bool, s: seq<Record>, done: set<int>) {
    forall p :: p in done <==> DoneAfter(starts, ends, follow, s, p)
  }

  lemma DoneOneMore(starts: map<int, int>, ends: map<int, int>, follow: bool, s: seq<Record>, done: set<int>, r: Record)
    requires DoneSet(starts, ends, follow, s, done)
    ensures !follow && ReachedEnd(ends, r) ==> DoneSet(starts, ends, follow, s + [r], done + {r.partition})
    ensures follow || !ReachedEnd(ends, r) ==> DoneSet(starts, ends, follow, s + [r], done)
  {
    assert forall x :: x in s + [r] <==> x in s || x == r;
  }

  /** What a read keeps after consuming some records. */
  ghost predicate Keeps(starts: map<int, int>, ends: map<int, int>, follow: bool, consumed: seq<Record>,
                        counted: seq<Record>, count: int, impact: map<int, PartitionImpact>, done: set<int>)
  {
    && counted == Counted(ends, follow, consumed)
    && count == |counted|
    && ImpactOf(impact, counted)
    && DoneSet(starts, ends, follow, consumed, done)
  }

  lemma SkippingKeeps(starts: map<int, int>, ends: map<int, int>, follow: bool, consumed: seq<Record>,
                      counted: seq<Record>, count: int, impact: map<int, PartitionImpact>, done: set<int>, r: Record)
    requires Keeps(starts, ends, follow, consumed, counted, count, impact, done) && !follow && PastEnd(ends, r)
    ensures Keeps(starts, ends, follow, consumed + [r], counted, count, impact, done + {r.partition})
  {
    CountedOneMore(ends, follow, consumed, r);
    DoneOneMore(starts, ends, follow, consumed, done, r);
    hide Counted, ImpactOf, DoneSet;
  }

  lemma CountingKeeps(starts: map<int, int>, ends: map<int, int>, follow: bool, consumed: seq<Record>,
                      counted: seq<Record>, count: int, impact: map<int, PartitionImpact>, done: set<int>, r: Record, done': set<int>)
    requires Keeps(starts, ends, follow, consumed, counted, count, impact, done) && (follow || !PastEnd(ends, r))
    requires done' == if !follow && ReachedEnd(ends, r) then done + {r.partition} else done
    ensures Keeps(starts, ends, follow, consumed + [r], counted + [r], count + 1, Updated(impact, r.partition, r.offset), done')
  {
    CountedOneMore(ends, follow, consumed, r);
    DoneOneMore(starts, ends, follow, consumed, done, r);
    UpdateSummarises(impact, counted, r);
    hide Counted, ImpactOf, DoneSet, Updated;
  }

  /** Consuming the first `i` entries of a fetch took the stream from one prefix to another. */
  ghost predicate Advanced(before: seq<Record>, records: seq<Option<Record>>, i: nat, after: seq<Record>)
    requires i <= |records|
  {
    after == before + Present(records[..i])
  }

  lemma AdvancedNone(before: seq<Record>, records: seq<Option<Record>>)
    ensures Advanced(before, records, 0, before)
  {
  }

  lemma AdvancedOneMore(before: seq<Record>, records: seq<Option<Record>>, i: nat, after: seq<Record>)
    requires i < |records| && Advanced(before, records, i, after)
    ensures records[i].Some? ==> Advanced(before, records, i + 1, after + [records[i].value])
    ensures records[i].None? ==> Advanced(before, records, i + 1, after)
  {
    assert records[..i + 1][..i] == records[..i];
  }

  // ---- The stream of a whole read ---------------------------------------

  function RecordsOf(poll: Poll): seq<Record> {
    if poll.Fetched? then Present(poll.records) else []
  }

  function Stream(polls: seq<Poll>): seq<Record> {
    if polls == [] then [] else Stream(polls[..|polls| - 1]) + RecordsOf(Last(polls))
  }

  lemma {:induction false} StreamPrefix(polls: seq<Poll>, j: nat)
    requires j <= |polls|
    ensures Stream(polls[..j]) <= Stream(polls)
  {
    if j == |polls| {
      assert polls[..j] == polls;
    } else {
      StreamPrefix(polls[..|polls| - 1], j);
      assert polls[..|polls| - 1][..j] == polls[..j];
    }
  }

  lemma {:induction false} PresentPrefix(records: seq<Option<Record>>, n: nat)
    requires n <= |records|
    ensures Present(records[..n]) <= Present(records)
  {
    if n == |records| {
      assert records[..n] == records;
    } else {
      PresentPrefix(records[..|records| - 1], n);
      assert records[..|records| - 1][..n] == records[..n];
    }
  }

  /** Consuming part of one more fetch stays within the stream. */
  lemma StreamAdvances(polls: seq<Poll>, j: nat, n: nat, after: seq<Record>)
    requires j < |polls| && polls[j].Fetched? && n <= |polls[j].records|
    requires Advanced(Stream(polls[..j]), polls[j].records, n, after)
    ensures after <= Stream(polls[..j + 1]) <= Stream(polls)
    ensures n == |polls[j].records| ==> after == Stream(polls[..j + 1])
  {
    assert polls[..j + 1][..j] == polls[..j];
    PresentPrefix(polls[j].records, n);
    assert polls[j].records[..|polls[j].records|] == polls[j].records;
    StreamPrefix(polls, j + 1);
  }

  lemma {:induction false} PresentIn(records: seq<Option<Record>>, r: Record)
    ensures r in Present(records) ==> Some(r) in records
  {
    if records != [] {
      PresentIn(records[..|records| - 1], r);
    }
  }

  lemma {:induction false} StreamWithin(starts: map<int, int>, polls: seq<Poll>, r: Record)
    requires forall poll :: poll in polls ==> Delivers(starts, poll)
    requires r in Stream(polls)
    ensures r.partition in starts
  {
    if r in Stream(polls[..|polls| - 1]) {
      StreamWithin(starts, polls[..|polls| - 1], r);
    } else {
      PresentIn(Last(polls).records, r);
      assert Delivers(starts, Last(polls));
    }
  }

  /** Only selected partitions are ever done, so comparing the two sizes tells whether all of them are. */
  lemma AllDoneBySize(starts: map<int, int>, ends: map<int, int>, follow: bool, consumed: seq<Record>, done: set<int>, polls: seq<Poll>, j: nat)
    requires DoneSet(starts, ends, follow, consumed, done)
    requires Within(polls, j, consumed, false) && forall poll :: poll in polls ==> Delivers(starts, poll)
    ensures done <= starts.Keys
    ensures |done| == |starts| <==> done == starts.Keys
  {
    StreamPrefix(polls, j);
    forall r | r in consumed ensures r.partition in starts {
      StreamWithin(starts, polls, r);
    }
    forall p | p in done ensures p in starts {
      assert DoneAfter(starts, ends, follow, consumed, p);
    }
    if |done| == |starts| {
      SameSizeSameSet(done, starts.Keys);
    }
  }

  lemma SameSizeSameSet(a: set<int>, b: set<int>)
    requires a <= b && |a| == |b|
    ensures a == b
  {
    assert b == a + (b - a);
    assert |b| == |a| + |b - a|;
    assert b - a == {};
    forall x | x in b ensures x in a {
      assert x in a || x in b - a;
    }
  }

  /** Each partition is delivered in the order of its log. */
  ghost predicate InOrder(s: seq<Record>) {
    forall i, j :: 0 <= i < j < |s| && s[i].partition == s[j].partition ==> s[i].offset < s[j].offset
  }

  /** The records that can still arrive behind those consumed: from the selected partitions, in the order of their logs. */
  ghost predicate CanFollow(starts: map<int, int>, consumed: seq<Record>, rest: seq<Record>) {
    InOrder(consumed + rest) && forall r :: r in rest ==> r.partition in starts && r.offset >= starts[r.partition]
  }

  /** Reading on, however far, would count nothing more. */
  ghost predicate NothingMissed(starts: map<int, int>, ends: map<int, int>, consumed: seq<Record>) {
    forall rest :: CanFollow(starts, consumed, rest) ==> Counted(ends, false, consumed + rest) == Counted(ends, false, consumed)
  }

  /** Stopping once every partition is done loses nothing. */
  lemma StoppingLosesNothing(starts: map<int, int>, ends: map<int, int>, consumed: seq<Record>)
    requires DoneSet(starts, ends, false, consumed, starts.Keys)
    ensures NothingMissed(starts, ends, consumed)
  {
    forall rest | CanFollow(starts, consumed, rest)
      ensures Counted(ends, false, consumed + rest) == Counted(ends, false, consumed)
    {
      OnlyLaterRecords(starts, ends, consumed, rest);
      NothingMoreCounted(ends, consumed, rest);
    }
  }

  lemma OnlyLaterRecords(starts: map<int, int>, ends: map<int, int>, consumed: seq<Record>, rest: seq<Record>)
    requires DoneSet(starts, ends, false, consumed, starts.Keys) && CanFollow(starts, consumed, rest)
    ensures forall x :: x in rest ==> PastEnd(ends, x)
  {
    forall x | x in rest ensures PastEnd(ends, x) {
      assert DoneAfter(starts, ends, false, consumed, x.partition);
      var k :| 0 <= k < |rest| && rest[k] == x;
      if !StartsDone(starts, ends, x.partition) {
        var r :| r in consumed && r.partition == x.partition && ReachedEnd(ends, r);
        var i :| 0 <= i < |consumed| && consumed[i] == r;
        assert (consumed + rest)[i] == r && (consumed + rest)[|consumed| + k] == x;
      }
    }
  }

  lemma {:induction false} NothingMoreCounted(ends: map<int, int>, consumed: seq<Record>, rest: seq<Record>)
    requires forall x :: x in rest ==> PastEnd(ends, x)
    ensures Counted(ends, false, consumed + rest) == Counted(ends, false, consumed)
  {
    if rest == [] {
      assert consumed + rest == consumed;
    } else {
      var front := rest[..|rest| - 1];
      NothingMoreCounted(ends, consumed, front);
      assert consumed + rest == (consumed + front) + [Last(rest)];
      CountedOneMore(ends, false, consumed + front, Last(rest));
    }
  }

  datatype Stop = Going | Refused | LimitReached | EveryPartitionDone | Interrupted | NothingFetched | Failing

  /** A read stops by itself when every partition is finished, and not before: where it had to stop, one was not. */
  ghost predicate EndsFinished(starts: map<int, int>, ends: map<int, int>, consumed: seq<Record>, stop: Stop) {
    && (stop == EveryPartitionDone ==> AllFinished(starts, ends, consumed))
    && (stop == Interrupted || stop == NothingFetched ==> !AllFinished(starts, ends, consumed))
  }

  lemma NotEndedYet(starts: map<int, int>, ends: map<int, int>)
    ensures forall stop :: stop == Going || stop == Refused ==> EndsFinished(starts, ends, [], stop)
    ensures forall consumed :: EndsFinished(starts, ends, consumed, Going) ==> EndsFinished(starts, ends, consumed, LimitReached)
  {
  }

  /** Why a read ended after `used` polls. Only the limit and a failure leave fetched records unconsumed. */
  ghost predicate Ended(polls: seq<Poll>, used: nat, stop: Stop, consumed: seq<Record>) {
    && used <= |polls| && consumed <= Stream(polls[..used])
    && match stop
       case EveryPartitionDone => consumed == Stream(polls[..used])
       case Interrupted => consumed == Stream(polls[..used]) && (used == |polls| || (used > 0 && polls[used - 1].Cancelled?))
       case NothingFetched => consumed == Stream(polls[..used]) && used > 0 && polls[used - 1] == Fetched([])
       case _ => true
  }

  /** What was consumed lies within the first `j` polls, and is all of them when `complete`. */
  ghost predicate Within(polls: seq<Poll>, j: nat, consumed: seq<Record>, complete: bool) {
    j <= |polls| && consumed <= Stream(polls[..j]) && (complete ==> consumed == Stream(polls[..j]))
  }

  /** A poll that brings no records. */
  lemma EmptyPoll(polls: seq<Poll>, j: nat, consumed: seq<Record>)
    requires j < |polls| && (!polls[j].Fetched? || polls[j].records == [])
    requires Within(polls, j, consumed, true)
    ensures Within(polls, j + 1, consumed, true)
  {
    assert polls[..j + 1][..j] == polls[..j];
  }

  /** A fetch that was consumed, or the part of it that was. */
  lemma FullPoll(polls: seq<Poll>, j: nat, n: nat, before: seq<Record>, after: seq<Record>)
    requires j < |polls| && polls[j].Fetched? && n <= |polls[j].records|
    requires Within(polls, j, before, true) && Advanced(before, polls[j].records, n, after)
    ensures Within(polls, j + 1, after, n == |polls[j].records|)
  {
    StreamAdvances(polls, j, n, after);
  }

  /** A read after `j` polls: still going, or at an end that the polls explain. Both read loops keep this. */
  ghost predicate Reading(polls: seq<Poll>, j: nat, stop: Stop, err: Option<ReadError>, consumed: seq<Record>, complete: bool) {
    && Within(polls, j, consumed, complete)
    && stop != Refused && stop != LimitReached
    && (stop == EveryPartitionDone || stop == Interrupted || stop == NothingFetched ==> complete)
    && (stop == Interrupted ==> j == |polls| || (j > 0 && polls[j - 1].Cancelled?))
    && (stop == NothingFetched ==> j > 0 && polls[j - 1] == Fetched([]))
    && (err.Some? <==> stop == Failing)
    && (err == Some(BackendError) ==> j > 0 && polls[j - 1].Broken?)
    && err != Some(BadLimit)
  }

  lemma StartsReading(polls: seq<Poll>)
    ensures Reading(polls, 0, Going, None, [], true) && Ended(polls, 0, Refused, [])
  {
  }

  /** Two ends that need no further poll. */
  lemma StopsReading(polls: seq<Poll>, j: nat, err: Option<ReadError>, consumed: seq<Record>)
    requires Reading(polls, j, Going, err, consumed, true)
    ensures Reading(polls, j, EveryPartitionDone, err, consumed, true)
    ensures j == |polls| ==> Reading(polls, j, Interrupted, err, consumed, true)
    ensures j <= |polls| && Within(polls, j, consumed, false)
  {
  }

  /** The four things a poll can bring. */
  lemma PollReads(polls: seq<Poll>, j: nat, consumed: seq<Record>)
    requires j < |polls| && Reading(polls, j, Going, None, consumed, true)
    ensures polls[j].Cancelled? ==> Reading(polls, j + 1, Interrupted, None, consumed, true)
    ensures polls[j].Broken? ==> Reading(polls, j + 1, Failing, Some(BackendError), consumed, true)
    ensures polls[j] == Fetched([]) ==> Reading(polls, j + 1, NothingFetched, None, consumed, true)
    ensures polls[j] == Fetched([]) ==> Reading(polls, j + 1, Going, None, consumed, true)
  {
    if !polls[j].Fetched? || polls[j].records == [] {
      EmptyPoll(polls, j, consumed);
    }
  }

  lemma FetchReads(polls: seq<Poll>, j: nat, n: nat, before: seq<Record>, after: seq<Record>)
    requires j < |polls| && polls[j].Fetched? && n <= |polls[j].records|
    requires Reading(polls, j, Going, None, before, true) && Advanced(before, polls[j].records, n, after)
    ensures Reading(polls, j + 1, Going, None, after, n == |polls[j].records|)
    ensures Reading(polls, j + 1, Failing, Some(EmitError), after, n == |polls[j].records|)
  {
    FullPoll(polls, j, n, before, after);
  }

  lemma GoingIsFine(polls: seq<Poll>, j: nat, stop: Stop, err: Option<ReadError>, consumed: seq<Record>, complete: bool)
    requires Reading(polls, j, stop, err, consumed, complete)
    ensures j <= |polls| && Within(polls, j, consumed, false)
    ensures stop == Going ==> err.None?
  {
  }

  lemma EndsThere(polls: seq<Poll>, used: nat, stop: Stop, err: Option<ReadError>, consumed: seq<Record>, complete: bool)
    requires Reading(polls, used, stop, err, consumed, complete)
    ensures Ended(polls, used, if stop == Going then LimitReached else stop, consumed)
    ensures err.None? ==> stop == Going || stop == EveryPartitionDone || stop == Interrupted || stop == NothingFetched
    ensures (err == Some(BackendError) ==> used > 0 && polls[used - 1].Broken?) && err != Some(BadLimit)
  {
  }

  class Reader {
    const starts: map<int, int>
    const ends: map<int, int>
    const follow: bool
    var done: set<int>
    var impact: map<int, PartitionImpact>
    var count: int
    var totalSize: int
    var emitted: seq<Record>
    ghost var refusals: nat // how often the receiver of the records failed
    ghost var consumed: seq<Record>
    ghost var counted: seq<Record>

    /** Everything the read keeps is determined by the records it has consumed. */
    ghost predicate Valid()
      reads `done, `impact, `count, `consumed, `counted
    {
      Keeps(starts, ends, follow, consumed, counted, count, impact, done)
    }

    /** The partitions with nothing to read at all are done from the beginning. */
    constructor (starts: map<int, int>, ends: map<int, int>, follow: bool)
      ensures this.starts == starts && this.ends == ends && this.follow == follow
      ensures Valid() && consumed == [] && counted == [] && emitted == [] && totalSize == 0
    {
      this.starts, this.ends, this.follow := starts, ends, follow;
      done := set p | p in starts && EndOf(ends, p) >= 0 && starts[p] >= EndOf(ends, p);
      impact, count, totalSize, emitted, refusals := map[], 0, 0, [], 0;
      consumed, counted := [], [];
    }

    method UpdateTailImpact(p: int, offset: int)
      modifies `impact
      ensures impact == Updated(old(impact), p, offset)
    {
      if p !in impact {
        impact := impact[p := PartitionImpact(p, offset, offset + 1, 1)];
        return;
      }
      var item := impact[p];
      if offset < item.from {
        item := item.(from := offset);
      }
      if offset + 1 > item.to {
        item := item.(to := offset + 1);
      }
      impact := impact[p := item.(count := item.count + 1)];
    }

    /** A record past the end is skipped, and its partition is done. */
    method Skip(r: Record)
      requires Valid() && !follow && PastEnd(ends, r)
      modifies `done, `consumed
      ensures Valid() && consumed == old(consumed) + [r]
    {
      SkippingKeeps(starts, ends, follow, consumed, counted, count, impact, done, r);
      hide Keeps;
      done := done + {r.partition};
      consumed := consumed + [r];
    }

    /** A record within the range is counted; the last one before the end makes its partition done. */
    method Count(r: Record)
      requires Valid() && (follow || !PastEnd(ends, r))
      modifies `done, `impact, `count, `consumed, `counted
      ensures Valid() && consumed == old(consumed) + [r] && counted == old(counted) + [r] && count == old(count) + 1
    {
      ghost var done', next := if !follow && ReachedEnd(ends, r) then done + {r.partition} else done, Updated(impact, r.partition, r.offset);
      CountingKeeps(starts, ends, follow, consumed, counted, count, impact, done, r, done');
      hide Keeps, Updated, ReachedEnd, PastEnd;
      count := count + 1;
      UpdateTailImpact(r.partition, r.offset);
      if !follow && ReachedEnd(ends, r) {
        done := done + {r.partition};
      }
      assert done == done' && impact == next;
      consumed, counted := consumed + [r], counted + [r];
    }

    /** A tail emits what it counts, and adds up its size. */
    ghost predicate Tailing()
      reads this
    {
      Valid() && emitted == counted && totalSize == SumSizes(counted)
    }

    method EmitAndCount(r: Record) returns (ok: bool)
      requires Tailing() && (follow || !PastEnd(ends, r))
      modifies this
      ensures Tailing()
      ensures ok ==> consumed == old(consumed) + [r] && count == old(count) + 1 && refusals == old(refusals)
      ensures !ok ==> consumed == old(consumed) && count == old(count) && refusals == old(refusals) + 1
    {
      SizesOneMore(counted, r);
      hide Keeps, SumSizes, PastEnd, Valid;
      ok := *;
      if !ok {
        refusals := refusals + 1;
      } else {
        emitted := emitted + [r];
        totalSize := totalSize + r.size;
        Count(r);
      }
    }

    /** One fetch of a tail. `n` is how many of its entries were consumed. */
    method ProcessTailFetches(records: seq<Option<Record>>, max: int) returns (ok: bool, ghost n: nat)
      requires Tailing() && count <= max
      modifies this
      ensures Tailing() && count <= max
      ensures n <= |records| && Advanced(old(consumed), records, n, consumed)
      ensures ok ==> (n == |records| || count == max) && refusals == old(refusals)
      ensures !ok ==> refusals == old(refusals) + 1
    {
      hide Valid, Tailing, Advanced;
      AdvancedNone(consumed, records);
      var i := 0;
      while i < |records| && count < max
        invariant i <= |records|
        invariant Tailing() && count <= max && refusals == old(refusals)
        invariant Advanced(old(consumed), records, i, consumed)
      {
        var next := records[i];
        AdvancedOneMore(old(consumed), records, i, consumed);
        n := i;
        i := i + 1;
        if next.None? {
          continue;
        }
        var r := next.value;
        if !follow && PastEnd(ends, r) {
          SkipInTail(r);
          continue;
        }
        var emitting := EmitAndCount(r);
        if !emitting {
          return false, n;
        }
      }
      return true, i;
    }

    method SkipInTail(r: Record)
      requires Tailing() && !follow && PastEnd(ends, r)
      modifies `done, `consumed
      ensures Tailing() && consumed == old(consumed) + [r]
    {
      Skip(r);
    }

    /** What a finished read reports. */
    ghost predicate Reported(out: seq<PartitionImpact>)
      reads this
    {
      && Ascending(out)
      && SumCounts(out) == count
      && forall item :: item in out ==> Summarises(item, counted, item.partition)
    }

    /** Comparing the sizes decides whether every partition is done. */
    lemma AllDone(polls: seq<Poll>, j: nat)
      requires Valid() && Within(polls, j, consumed, false) && forall poll :: poll in polls ==> Delivers(starts, poll)
      ensures |done| == |starts| ==> DoneSet(starts, ends, follow, consumed, starts.Keys)
      ensures |done| == |starts| && !follow ==> NothingMissed(starts, ends, consumed)
      ensures !follow && |done| == |starts| ==> EndsFinished(starts, ends, consumed, EveryPartitionDone)
      ensures !follow && |done| != |starts| ==> !AllFinished(starts, ends, consumed) && EndsFinished(starts, ends, consumed, Interrupted)
    {
      AllDoneBySize(starts, ends, follow, consumed, done, polls, j);
      if !follow {
        DoneIsFinished(starts, ends, consumed, done);
        if |done| == |starts| {
          StoppingLosesNothing(starts, ends, consumed);
        }
      }
    }

    /** What was counted is what the consumed records ask for. */
    lemma CountedIs()
      requires Valid()
      ensures counted == Counted(ends, follow, consumed) && count == |counted|
    {
    }

    method Report() returns (out: seq<PartitionImpact>)
      requires Valid()
      ensures Reported(out)
    {
      forall p | p in impact ensures impact[p].partition == p {
        assert Summarises(impact[p], counted, p);
      }
      out := TailImpactSlice(impact);
      CountsAddUp(impact, out, counted);
    }

    /** One poll of a tail. Going means that nothing speaks against another one. */
    method TailPoll(polls: seq<Poll>, j: nat, max: int)
        returns (stop: Stop, err: Option<ReadError>, ghost complete: bool)
      requires Tailing() && count < max && j < |polls| && Reading(polls, j, Going, None, consumed, true)
      modifies this
      ensures Tailing() && count <= max && Reading(polls, j + 1, stop, err, consumed, complete)
      ensures stop != EveryPartitionDone && (stop == Going && count < max ==> complete)
      ensures stop == NothingFetched ==> !follow
      ensures !old(AllFinished(starts, ends, consumed)) ==> EndsFinished(starts, ends, consumed, stop)
      ensures err == Some(EmitError) <==> refusals > old(refusals)
      ensures refusals >= old(refusals)
    {
      PollReads(polls, j, consumed);
      hide Reading, Valid, Tailing, AllFinished;
      stop, err, complete := Going, None, true;
      match polls[j] {
        case Cancelled =>
          stop := Interrupted;
        case Broken =>
          stop, err := Failing, Some(BackendError);
        case Fetched(records) =>
          if records == [] {
            stop := if follow then Going else NothingFetched;
          } else {
            ghost var before, n := consumed, 0;
            var ok;
            ok, n := ProcessTailFetches(records, max);
            FetchReads(polls, j, n, before, consumed);
            complete := n == |records|;
            if !ok {
              stop, err := Failing, Some(EmitError);
            }
          }
      }
    }

    /**
     The tail, over any series of polls: it emits, in order, the records within the range of a prefix of what
     the client delivers, never more than `max`, and stops early only when nothing more could be emitted.
     */
    method Tail(max: int, polls: seq<Poll>) returns (err: Option<ReadError>, out: seq<PartitionImpact>, stop: Stop, ghost used: nat)
      requires Tailing() && consumed == []
      requires forall poll :: poll in polls ==> Delivers(starts, poll)
      modifies this
      ensures err == Some(BadLimit) <==> max <= 0 || max > 10_000
      ensures err == Some(EmitError) <==> refusals > old(refusals)
      ensures err == Some(BadLimit) ==> consumed == []
      ensures Ended(polls, used, stop, consumed) && (err == Some(BackendError) ==> used > 0 && polls[used - 1].Broken?)
      ensures emitted == Counted(ends, follow, consumed) && totalSize == SumSizes(emitted)
      ensures count == |emitted| && count <= Max(max, 0)
      ensures !follow ==> HandedOut(ends, consumed, emitted)
      ensures follow ==> emitted == consumed
      ensures !follow ==> EndsFinished(starts, ends, consumed, stop)
      ensures err.None? ==> Reported(out)
      ensures err.Some? ==> out == []
      ensures stop == LimitReached ==> count == max
      ensures stop == EveryPartitionDone ==> !follow && DoneSet(starts, ends, follow, consumed, starts.Keys) && NothingMissed(starts, ends, consumed)
      ensures err.None? ==> stop == LimitReached || stop == EveryPartitionDone || stop == Interrupted || (stop == NothingFetched && !follow)
    {
      err, out, used, stop := None, [], 0, Refused;
      StartsReading(polls);
      NotEndedYet(starts, ends);
      if max <= 0 || max > MAX_TAIL {
        return Some(BadLimit), [], Refused, 0;
      }
      hide Reading, Ended, Delivers, Stream, Counted, ImpactOf, SumSizes, DoneSet, NothingMissed, AllFinished, HandedOut, Valid, EndsFinished;
      var j: nat := 0;
      ghost var complete := true;
      stop := Going;
      while stop == Going && count < max
        invariant Tailing() && count <= max && Reading(polls, j, stop, err, consumed, complete) && j <= |polls|
        invariant stop == Going ==> err.None? && (count < max ==> complete)
        invariant stop == EveryPartitionDone ==> DoneSet(starts, ends, follow, consumed, starts.Keys) && NothingMissed(starts, ends, consumed)
        invariant stop == NothingFetched || stop == EveryPartitionDone ==> !follow
        invariant !follow ==> EndsFinished(starts, ends, consumed, stop)
        invariant refusals >= old(refusals) && (err == Some(EmitError) <==> refusals > old(refusals))
        decreases |polls| - j, if stop == Going then 1 else 0
      {
        StopsReading(polls, j, err, consumed);
        AllDone(polls, j);
        if !follow && |done| == |starts| {
          stop := EveryPartitionDone;
        } else if j == |polls| {
          stop := Interrupted;
        } else {
          stop, err, complete := TailPoll(polls, j, max);
          j := j + 1;
          GoingIsFine(polls, j, stop, err, consumed, complete);
        }
      }
      EndsThere(polls, j, stop, err, consumed, complete);
      CountedIs();
      used := j;
      if stop == Going {
        stop := LimitReached;
      }
      if err.None? {
        out := Report();
      }
      CountedPlainly(ends, follow, consumed);
    }

    // ---- The mirror ----------------------------------------------------

    /** A mirror hands out what it counts, if anyone asks for it, and always stops at the snapshot. */
    ghost predicate Mirroring(emitting: bool)
      reads this
    {
      Valid() && !follow && (emitting ==> emitted == counted) && (!emitting ==> emitted == [])
    }

    method HandOutAndCount(r: Record, emitting: bool) returns (ok: bool)
      requires Mirroring(emitting) && !PastEnd(ends, r)
      modifies this
      ensures Mirroring(emitting)
      ensures ok ==> consumed == old(consumed) + [r] && count == old(count) + 1 && refusals == old(refusals)
      ensures !ok ==> emitting && consumed == old(consumed) && count == old(count) && refusals == old(refusals) + 1
    {
      if emitting {
        var accepted: bool := *;
        if !accepted {
          refusals := refusals + 1;
          return false;
        }
        emitted := emitted + [r];
      }
      Count(r);
      return true;
    }

    method SkipInMirror(r: Record, emitting: bool)
      requires Mirroring(emitting) && PastEnd(ends, r)
      modifies `done, `consumed
      ensures Mirroring(emitting) && consumed == old(consumed) + [r]
    {
      Skip(r);
    }

    /** One fetch of a mirror. `n` is how many of its entries were consumed. */
    method ProcessMirrorFetches(records: seq<Option<Record>>, limit: int, emitting: bool) returns (ok: bool, ghost n: nat)
      requires Mirroring(emitting) && count <= limit
      modifies this
      ensures Mirroring(emitting) && count <= limit
      ensures n <= |records| && Advanced(old(consumed), records, n, consumed)
      ensures ok ==> (n == |records| || count == limit) && refusals == old(refusals)
      ensures !ok ==> emitting && refusals == old(refusals) + 1
    {
      hide Valid, Mirroring, Advanced;
      AdvancedNone(consumed, records);
      var i := 0;
      while i < |records| && count < limit
        invariant i <= |records|
        invariant Mirroring(emitting) && count <= limit && refusals == old(refusals)
        invariant Advanced(old(consumed), records, i, consumed)
      {
        var next := records[i];
        AdvancedOneMore(old(consumed), records, i, consumed);
        n := i;
        i := i + 1;
        if next.None? {
          continue;
        }
        var r := next.value;
        if PastEnd(ends, r) {
          SkipInMirror(r, emitting);
          continue;
        }
        var handed := HandOutAndCount(r, emitting);
        if !handed {
          return false, n;
        }
      }
      return true, i;
    }

    /** One poll of a mirror. */
    method MirrorPoll(polls: seq<Poll>, j: nat, limit: int, emitting: bool)
        returns (stop: Stop, err: Option<ReadError>, ghost complete: bool)
      requires Mirroring(emitting) && count < limit && j < |polls| && Reading(polls, j, Going, None, consumed, true)
      modifies this
      ensures Mirroring(emitting) && count <= limit && Reading(polls, j + 1, stop, err, consumed, complete)
      ensures stop != EveryPartitionDone && (stop == Going && count < limit ==> complete)
      ensures err == Some(EmitError) ==> emitting
      ensures !old(AllFinished(starts, ends, consumed)) ==> EndsFinished(starts, ends, consumed, stop)
      ensures err == Some(EmitError) <==> refusals > old(refusals)
      ensures refusals >= old(refusals)
    {
      PollReads(polls, j, consumed);
      hide Reading, Valid, Mirroring, AllFinished;
      stop, err, complete := Going, None, true;
      match polls[j] {
        case Cancelled =>
          stop := Interrupted;
        case Broken =>
          stop, err := Failing, Some(BackendError);
        case Fetched(records) =>
          if records == [] {
            stop := NothingFetched;
          } else {
            ghost var before, n := consumed, 0;
            var ok;
            ok, n := ProcessMirrorFetches(records, limit, emitting);
            FetchReads(polls, j, n, before, consumed);
            complete := n == |records|;
            if !ok {
              stop, err := Failing, Some(EmitError);
            }
          }
      }
    }

    /** The mirror, over any series of polls. */
    method MirrorMessages(limit: int, polls: seq<Poll>, emitting: bool) returns (err: Option<ReadError>, out: seq<PartitionImpact>, stop: Stop, ghost used: nat)
      requires Mirroring(emitting) && consumed == []
      requires forall poll :: poll in polls ==> Delivers(starts, poll)
      modifies this
      ensures err == Some(BadLimit) <==> limit <= 0 || limit > 1_000
      ensures err == Some(EmitError) <==> refusals > old(refusals)
      ensures err == Some(BadLimit) ==> consumed == []
      ensures Ended(polls, used, stop, consumed) && (err == Some(BackendError) ==> used > 0 && polls[used - 1].Broken?)
      ensures (emitting ==> emitted == Counted(ends, follow, consumed)) && (!emitting ==> emitted == [])
      ensures count == |Counted(ends, follow, consumed)| && count <= Max(limit, 0)
      ensures HandedOut(ends, consumed, Counted(ends, follow, consumed))
      ensures EndsFinished(starts, ends, consumed, stop)
      ensures err.None? ==> Reported(out)
      ensures err.Some? ==> out == []
      ensures err == Some(EmitError) ==> emitting
      ensures stop == LimitReached ==> count == limit
      ensures stop == EveryPartitionDone ==> DoneSet(starts, ends, follow, consumed, starts.Keys) && NothingMissed(starts, ends, consumed)
      ensures err.None? ==> stop == LimitReached || stop == EveryPartitionDone || stop == Interrupted || stop == NothingFetched
    {
      err, out, used, stop := None, [], 0, Refused;
      StartsReading(polls);
      NotEndedYet(starts, ends);
      if limit <= 0 || limit > MAX_MIRROR {
        return Some(BadLimit), [], Refused, 0;
      }
      hide Reading, Ended, Delivers, Stream, Counted, ImpactOf, SumSizes, DoneSet, NothingMissed, AllFinished, HandedOut, Valid, EndsFinished;
      var j: nat := 0;
      ghost var complete := true;
      stop := Going;
      while stop == Going && count < limit
        invariant Mirroring(emitting) && count <= limit && Reading(polls, j, stop, err, consumed, complete) && j <= |polls|
        invariant stop == Going ==> err.None? && (count < limit ==> complete)
        invariant stop == EveryPartitionDone ==> DoneSet(starts, ends, follow, consumed, starts.Keys) && NothingMissed(starts, ends, consumed)
        invariant err == Some(EmitError) ==> emitting
        invariant EndsFinished(starts, ends, consumed, stop)
        invariant refusals >= old(refusals) && (err == Some(EmitError) <==> refusals > old(refusals))
        decreases |polls| - j, if stop == Going then 1 else 0
      {
        StopsReading(polls, j, err, consumed);
        AllDone(polls, j);
        if |done| == |starts| {
          stop := EveryPartitionDone;
        } else if j == |polls| {
          stop := Interrupted;
        } else {
          stop, err, complete := MirrorPoll(polls, j, limit, emitting);
          j := j + 1;
          GoingIsFine(polls, j, stop, err, consumed, complete);
        }
      }
      EndsThere(polls, j, stop, err, consumed, complete);
      CountedIs();
      used := j;
      if stop == Going {
        stop := LimitReached;
      }
      if err.None? {
        out := Report();
      }
      CountedInRange(ends, consumed);
    }
  }
}
