/** Planning and committing consumer-group offsets, and counting what became of each partition. */
module KafkaOffsets {
  import opened Common
  import opened Impacts
  import Sorting

  /** One entry of the broker's answer about committed offsets: -1 stands for none. */
  datatype Committed = Committed(at: int, failed: bool)

  datatype Plan = Plan(impact: seq<PartitionImpact>, total: int)

  /** Where to move to: positions the broker listed, a shift over the partitions it listed, or nothing usable. */
  datatype Target = Listed(offsets: map<int, int>) | Shift(amount: int, ends: map<int, int>) | ListingFailed | BadTarget

  datatype Cause = GroupActive | FetchFailed | TargetFailed | OutOfRange | CommitFailed | PartitionsFailed

  datatype Failure = Failure(cause: Cause, partial: bool)

  const MAX_INT32 := 0x7FFF_FFFF

  function Abs64(x: int): int {
    if x < 0 then Wrap64(-x) else x
  }

  predicate Matches(requested: int, p: int) {
    requested < 0 || requested == p
  }

  /** Where the group is in a partition, for the plan: a failed entry has no position, a missing or negative one is 0. */
  function CommittedOffset(committed: map<int, Committed>, p: int): Option<int> {
    if p !in committed then Some(0)
    else if committed[p].failed then None
    else if committed[p].at < 0 then Some(0)
    else Some(committed[p].at)
  }

  /** A partition the plan covers, and the whole of what it plans there. */
  ghost predicate Covers(committed: map<int, Committed>, targets: map<int, int>, requested: int, item: PartitionImpact) {
    && item.partition in targets && Matches(requested, item.partition)
    && CommittedOffset(committed, item.partition) == Some(item.from)
    && item.to == (if targets[item.partition] < 0 then item.from else targets[item.partition])
    && (item.count == item.to - item.from || item.count == item.from - item.to) && item.count >= 0
  }

  ghost predicate MachineIntegers(committed: map<int, Committed>, targets: map<int, int>) {
    && (forall p :: p in committed ==> Int64(committed[p].at))
    && (forall p :: p in targets ==> Int64(targets[p]))
  }

  lemma {:induction false} SumInsert(x: PartitionImpact, s: seq<PartitionImpact>)
    ensures SumCounts(Sorting.Insert(ByPartition, x, s)) == x.count + SumCounts(s)
  {
    if s == [] || !ByPartition(s[0], x) {
      assert ([x] + s)[1..] == s;
    } else {
      SumInsert(x, s[1..]);
      var rest := Sorting.Insert(ByPartition, x, s[1..]);
      assert ([s[0]] + rest)[1..] == rest;
    }
  }

  lemma {:induction false} SumSort(s: seq<PartitionImpact>)
    ensures SumCounts(Sorting.Sort(ByPartition, s)) == SumCounts(s)
  {
    if s != [] {
      SumSort(s[1..]);
      SumInsert(s[0], Sorting.Sort(ByPartition, s[1..]));
    }
  }

  lemma {:induction false} SumOneMore(s: seq<PartitionImpact>, x: PartitionImpact)
    ensures SumCounts(s + [x]) == SumCounts(s) + x.count
  {
    if s == [] {
      assert s + [x] == [x];
    } else {
      SumOneMore(s[1..], x);
      assert (s + [x])[1..] == s[1..] + [x];
    }
  }

  /** All targets but those still in `rest` are planned, each once. */
  ghost predicate PlannedSoFar(committed: map<int, Committed>, targets: map<int, int>, requested: int,
                               impact: seq<PartitionImpact>, rest: set<(int, int)>)
  {
    && (forall item :: item in impact ==>
          Covers(committed, targets, requested, item) && (item.partition, targets[item.partition]) !in rest)
    && (forall p :: p in targets && Matches(requested, p) && (p, targets[p]) !in rest ==> HasPartition(impact, p))
    && (forall i, j :: 0 <= i < j < |impact| ==> impact[i].partition != impact[j].partition)
  }

  ghost predicate HasPartition(impact: seq<PartitionImpact>, p: int) {
    exists item :: item in impact && item.partition == p
  }

  lemma PlannedSkip(committed: map<int, Committed>, targets: map<int, int>, requested: int,
                    impact: seq<PartitionImpact>, rest: set<(int, int)>, p: int, target: int)
    requires PlannedSoFar(committed, targets, requested, impact, rest)
    requires p in targets && targets[p] == target && !Matches(requested, p)
    ensures PlannedSoFar(committed, targets, requested, impact, rest - {(p, target)})
  {
  }

  lemma PlannedStep(committed: map<int, Committed>, targets: map<int, int>, requested: int,
                    impact: seq<PartitionImpact>, rest: set<(int, int)>, item: PartitionImpact)
    requires PlannedSoFar(committed, targets, requested, impact, rest)
    requires Covers(committed, targets, requested, item) && (item.partition, targets[item.partition]) in rest
    ensures PlannedSoFar(committed, targets, requested, impact + [item], rest - {(item.partition, targets[item.partition])})
  {
    var more := impact + [item];
    var left := rest - {(item.partition, targets[item.partition])};
    assert item in more;
    forall p | p in targets && Matches(requested, p) && (p, targets[p]) !in left ensures HasPartition(more, p) {
      if p != item.partition {
        assert HasPartition(impact, p);
        var known :| known in impact && known.partition == p;
        assert known in more;
      }
    }
  }

  /** With nothing left, the sorted list holds exactly the items the plan covers. */
  lemma PlannedAll(committed: map<int, Committed>, targets: map<int, int>, requested: int, impact: seq<PartitionImpact>)
    requires PlannedSoFar(committed, targets, requested, impact, {})
    ensures var sorted := Sorting.Sort(ByPartition, impact);
            && Ascending(sorted)
            && forall item :: item in sorted <==> Covers(committed, targets, requested, item)
  {
    AscendingWhenDistinct(impact);
    hide Ascending;
    forall item | Covers(committed, targets, requested, item) ensures item in impact {
      CoveredIsPlanned(committed, targets, requested, impact, item);
    }
  }

  lemma CoveredIsPlanned(committed: map<int, Committed>, targets: map<int, int>, requested: int, impact: seq<PartitionImpact>, item: PartitionImpact)
    requires PlannedSoFar(committed, targets, requested, impact, {})
    requires Covers(committed, targets, requested, item)
    ensures item in impact
  {
    assert HasPartition(impact, item.partition);
    var known :| known in impact && known.partition == item.partition;
    assert Covers(committed, targets, requested, known);
  }

  function PlanItem(p: int, from: int, target: int): PartitionImpact {
    var to := if target < 0 then from else target;
    PartitionImpact(p, from, to, Abs64(to - from))
  }

  lemma PlanItemCovers(committed: map<int, Committed>, targets: map<int, int>, requested: int, p: int, from: int)
    requires MachineIntegers(committed, targets) && p in targets && Matches(requested, p)
    requires CommittedOffset(committed, p) == Some(from)
    ensures Covers(committed, targets, requested, PlanItem(p, from, targets[p]))
  {
  }

  lemma PlanIsComplete(committed: map<int, Committed>, targets: map<int, int>, requested: int, plan: Plan)
    requires MachineIntegers(committed, targets)
    requires forall item :: item in plan.impact <==> Covers(committed, targets, requested, item)
    requires !exists p :: p in targets && Matches(requested, p) && CommittedOffset(committed, p).None?
    ensures forall p :: p in targets && Matches(requested, p) ==> HasPartition(plan.impact, p)
  {
    forall p | p in targets && Matches(requested, p) ensures HasPartition(plan.impact, p) {
      var from := CommittedOffset(committed, p).value;
      PlanItemCovers(committed, targets, requested, p, from);
      assert PlanItem(p, from, targets[p]) in plan.impact;
    }
  }

  /**
   The plan covers each matching partition once, in order, whatever order the partitions were walked in,
   and it exists exactly when the group's position is known in all of them. Its total is a machine sum.
   */
  method OffsetPlan(committed: map<int, Committed>, targets: map<int, int>, requested: int) returns (plan: Option<Plan>)
    requires MachineIntegers(committed, targets)
    ensures plan.None? <==> exists p :: p in targets && Matches(requested, p) && CommittedOffset(committed, p).None?
    ensures plan.Some? ==> PlanFor(committed, targets, requested, plan.value)
  {
    hide Ascending, PlannedSoFar, MachineIntegers, Wrap64, Covers, Abs64;
    var impact: seq<PartitionImpact> := [];
    var total := 0;
    var rest := targets.Items;
    PlannedNothing(committed, targets, requested);
    while rest != {}
      invariant rest <= targets.Items
      invariant PlannedSoFar(committed, targets, requested, impact, rest)
      invariant total == Wrap64(SumCounts(impact))
      invariant forall p :: p in targets && Matches(requested, p) && (p, targets[p]) !in rest ==> CommittedOffset(committed, p).Some?
      decreases |rest|
    {
      var pair :| pair in rest;
      var (p, target) := pair;
      assert (p, target) in targets.Items;
      assert p in targets && targets[p] == target;
      if !Matches(requested, p) {
        PlannedSkip(committed, targets, requested, impact, rest, p, target);
        rest := rest - {pair};
        continue;
      }
      var from := CommittedOffset(committed, p);
      if from.None? {
        return None;
      }
      var item := PlanItem(p, from.value, target);
      PlanItemCovers(committed, targets, requested, p, from.value);
      PlannedStep(committed, targets, requested, impact, rest, item);
      WrapOfSum(SumCounts(impact), item.count);
      SumOneMore(impact, item);
      total := Wrap64(total + item.count);
      impact := impact + [item];
      rest := rest - {pair};
    }
    PlannedAll(committed, targets, requested, impact);
    SumSort(impact);
    plan := Some(Plan(Sorting.Sort(ByPartition, impact), total));
  }

  lemma PlannedNothing(committed: map<int, Committed>, targets: map<int, int>, requested: int)
    ensures PlannedSoFar(committed, targets, requested, [], targets.Items)
  {
    forall p | p in targets ensures (p, targets[p]) in targets.Items {
    }
  }

  lemma {:induction false} SumNonNegative(s: seq<PartitionImpact>)
    requires forall item :: item in s ==> item.count >= 0
    ensures SumCounts(s) >= 0
  {
    if s != [] {
      SumNonNegative(s[1..]);
    }
  }

  /** How far the group moves in one partition: nowhere if it is not asked for or its position is unknown. */
  function Distance(committed: map<int, Committed>, targets: map<int, int>, requested: int, p: int): int {
    if p !in targets || !Matches(requested, p) || CommittedOffset(committed, p).None? then 0
    else
      var from := CommittedOffset(committed, p).value;
      var to := if targets[p] < 0 then from else targets[p];
      if to < from then from - to else to - from
  }

  /** The sum of the distances over the partitions from `lo` up to `hi`. */
  function Distances(committed: map<int, Committed>, targets: map<int, int>, requested: int, lo: int, hi: int): int
    decreases hi - lo
  {
    if hi <= lo then 0
    else Distances(committed, targets, requested, lo, hi - 1) + Distance(committed, targets, requested, hi - 1)
  }

  ghost predicate CoversRange(committed: map<int, Committed>, targets: map<int, int>, requested: int,
                              impact: seq<PartitionImpact>, lo: int, hi: int)
  {
    forall item :: item in impact <==> Covers(committed, targets, requested, item) && lo <= item.partition < hi
  }

  lemma CoveredDistance(committed: map<int, Committed>, targets: map<int, int>, requested: int, item: PartitionImpact)
    requires Covers(committed, targets, requested, item)
    ensures item.count == Distance(committed, targets, requested, item.partition)
  {
  }

  /** Without the highest partition, the list covers the range below it. */
  lemma DropHighest(committed: map<int, Committed>, targets: map<int, int>, requested: int,
                    impact: seq<PartitionImpact>, lo: int, hi: int)
    requires Ascending(impact) && CoversRange(committed, targets, requested, impact, lo, hi)
    requires impact != [] && Last(impact).partition == hi - 1
    ensures Ascending(impact[..|impact| - 1])
    ensures CoversRange(committed, targets, requested, impact[..|impact| - 1], lo, hi - 1)
  {
    hide Covers;
    var front := impact[..|impact| - 1];
    assert impact == front + [Last(impact)];
    forall item ensures item in front <==> Covers(committed, targets, requested, item) && lo <= item.partition < hi - 1 {
      if item in front {
        assert item in impact;
        var i :| 0 <= i < |front| && front[i] == item;
        assert impact[i].partition < impact[|impact| - 1].partition;
      }
    }
  }

  lemma {:induction false} PlanSum(committed: map<int, Committed>, targets: map<int, int>, requested: int,
                                   impact: seq<PartitionImpact>, lo: int, hi: int)
    requires MachineIntegers(committed, targets)
    requires Ascending(impact) && CoversRange(committed, targets, requested, impact, lo, hi)
    ensures SumCounts(impact) == Distances(committed, targets, requested, lo, hi)
    decreases hi - lo
  {
    hide Covers, MachineIntegers, Ascending, Distance;
    if hi <= lo {
      NothingInRange(committed, targets, requested, impact, lo, hi);
    } else if impact != [] && Last(impact).partition == hi - 1 {
      var front := impact[..|impact| - 1];
      DropHighest(committed, targets, requested, impact, lo, hi);
      PlanSum(committed, targets, requested, front, lo, hi - 1);
      assert Last(impact) in impact;
      CoveredDistance(committed, targets, requested, Last(impact));
      assert impact == front + [Last(impact)];
      SumOneMore(front, Last(impact));
    } else {
      HighestAbsent(committed, targets, requested, impact, lo, hi);
      PlanSum(committed, targets, requested, impact, lo, hi - 1);
    }
  }

  lemma SomeItem(impact: seq<PartitionImpact>)
    requires impact != []
    ensures exists item :: item in impact
  {
    assert impact[0] in impact;
  }

  lemma NothingInRange(committed: map<int, Committed>, targets: map<int, int>, requested: int,
                       impact: seq<PartitionImpact>, lo: int, hi: int)
    requires CoversRange(committed, targets, requested, impact, lo, hi) && hi <= lo
    ensures impact == []
  {
    hide Covers;
    if impact != [] {
      SomeItem(impact);
    }
  }

  lemma HighestAbsent(committed: map<int, Committed>, targets: map<int, int>, requested: int,
                      impact: seq<PartitionImpact>, lo: int, hi: int)
    requires MachineIntegers(committed, targets) && lo < hi
    requires Ascending(impact) && CoversRange(committed, targets, requested, impact, lo, hi)
    requires impact != [] ==> Last(impact).partition != hi - 1
    ensures Distance(committed, targets, requested, hi - 1) == 0
    ensures CoversRange(committed, targets, requested, impact, lo, hi - 1)
  {
    var p := hi - 1;
    forall item | item in impact ensures item.partition != p {
      var i :| 0 <= i < |impact| && impact[i] == item;
      assert Last(impact) in impact;
      assert i < |impact| - 1 ==> impact[i].partition < Last(impact).partition;
    }
    if p in targets && Matches(requested, p) && CommittedOffset(committed, p).Some? {
      var from := CommittedOffset(committed, p).value;
      PlanItemCovers(committed, targets, requested, p, from);
    }
  }

  /** What OffsetPlan promises of a plan. */
  ghost predicate PlanFor(committed: map<int, Committed>, targets: map<int, int>, requested: int, plan: Plan) {
    && Ascending(plan.impact)
    && (forall item :: item in plan.impact <==> Covers(committed, targets, requested, item))
    && plan.total == Wrap64(SumCounts(plan.impact))
  }

  /** The reported total is the distance the group moves in all asked-for partitions, exactly while that fits a machine integer. */
  lemma TotalIsExact(committed: map<int, Committed>, targets: map<int, int>, requested: int, plan: Plan, lo: int, hi: int)
    requires MachineIntegers(committed, targets) && PlanFor(committed, targets, requested, plan)
    requires forall p :: p in targets ==> lo <= p < hi
    ensures plan.total == Wrap64(Distances(committed, targets, requested, lo, hi))
    ensures plan.total == Distances(committed, targets, requested, lo, hi)
       <==> Distances(committed, targets, requested, lo, hi) <= MAX_INT64
  {
    PlanSum(committed, targets, requested, plan.impact, lo, hi);
    SumNonNegative(plan.impact);
  }

  /** Whoever resets two partitions of a new group to the largest offset is told a total of -2. */
  lemma TotalCanWrap(plan: Plan)
    requires PlanFor(map[], map[0 := MAX_INT64, 1 := MAX_INT64], -1, plan)
    ensures plan.total == -2
  {
    var targets := map[0 := MAX_INT64, 1 := MAX_INT64];
    TotalIsExact(map[], targets, -1, plan, 0, 2);
    assert Distances(map[], targets, -1, 0, 1) == MAX_INT64;
    assert Distances(map[], targets, -1, 0, 2) == 2 * MAX_INT64;
  }

  // ---- Shifting ----------------------------------------------------------

  /** The position a shift starts from, which is not clamped here. */
  function RawOffset(committed: map<int, Committed>, p: int): int {
    if p in committed then committed[p].at else 0
  }

  function ShiftTarget(at: int, shift: int): int {
    var to := Wrap64(at + shift);
    if to < 0 then 0 else to
  }

  method ShiftOffsets(committed: map<int, Committed>, ends: map<int, int>, shift: int) returns (targets: Option<map<int, int>>)
    ensures targets.None? <==> exists p :: p in ends && p in committed && committed[p].failed
    ensures targets.Some? ==> forall p :: p in targets.value <==> p in ends
    ensures targets.Some? ==> forall p :: p in ends && p in committed ==> targets.value[p] == ShiftTarget(committed[p].at, shift)
    ensures targets.Some? ==> forall p :: p in ends && p !in committed ==> targets.value[p] == ShiftTarget(0, shift)
  {
    var shifted: map<int, int> := map[];
    var rest := ends.Items;
    while rest != {}
      invariant rest <= ends.Items
      invariant forall p :: p in shifted ==> p in ends
      invariant forall p :: p in ends && (p, ends[p]) !in rest ==> p in shifted && !(p in committed && committed[p].failed)
      invariant forall p :: p in shifted ==> shifted[p] == ShiftTarget(RawOffset(committed, p), shift)
      decreases |rest|
    {
      var pair :| pair in rest;
      var (p, end) := pair;
      assert (p, end) in ends.Items;
      assert p in ends && ends[p] == end;
      if p in committed && committed[p].failed {
        return None;
      }
      shifted := shifted[p := ShiftTarget(RawOffset(committed, p), shift)];
      rest := rest - {pair};
    }
    forall p | p in ends ensures p in shifted {
      assert (p, ends[p]) !in rest;
    }
    targets := Some(shifted);
  }

  /** No machine wrap-around, and a group that has a position, or one that is not shifted forward. */
  predicate ShiftsAsAsked(at: int, shift: int) {
    if at >= 0 then at + shift <= MAX_INT64
    else shift <= 0 && (at + shift >= MIN_INT64 || at == shift == MIN_INT64)
  }

  /** A shift moves the planned position by what was asked, stopping at 0, exactly under that condition. */
  lemma ShiftIsExact(at: int, shift: int)
    requires Int64(at) && Int64(shift)
    ensures ShiftTarget(at, shift) == Max(Max(at, 0) + shift, 0) <==> ShiftsAsAsked(at, shift)
  {
  }

  /** Shifting far forward lands at the beginning, and a group without a position is shifted by one less than asked. */
  lemma ShiftSurprises(at: int)
    requires 0 < at <= MAX_INT64
    ensures ShiftTarget(at, MAX_INT64) == 0 && !ShiftsAsAsked(at, MAX_INT64)
    ensures ShiftTarget(-1, 5) == 4 && !ShiftsAsAsked(-1, 5)
  {
  }

  // ---- What became of each partition -------------------------------------

  datatype Answer = Accepted | Rejected | Silent

  function Tallied(outcome: BatchOutcome, answer: Answer): BatchOutcome {
    match answer
    case Accepted => outcome.(succeeded := outcome.succeeded + 1)
    case Rejected => outcome.(failed := outcome.failed + 1)
    case Silent => outcome.(uncertain := outcome.uncertain + 1)
  }

  predicate FitsInt32(p: int) {
    0 <= p <= MAX_INT32
  }

  function AnswerFor(responses: map<int, bool>, p: int): Answer {
    if !FitsInt32(p) then Rejected
    else if p !in responses then Silent
    else if responses[p] then Accepted else Rejected
  }

  /** What the broker's answer says about a partition; a number that is none of the protocol's counts as rejected. */
  ghost predicate Says(responses: map<int, bool>, p: int, answer: Answer) {
    match answer
    case Accepted => 0 <= p <= 2_147_483_647 && p in responses && responses[p]
    case Rejected => p < 0 || p > 2_147_483_647 || (p in responses && !responses[p])
    case Silent => 0 <= p <= 2_147_483_647 && p !in responses
  }

  /** The positions among the first `n` items that were answered so. */
  ghost function Answered(impact: seq<PartitionImpact>, n: nat, responses: map<int, bool>, answer: Answer): set<int>
    requires n <= |impact|
  {
    set i | 0 <= i < n && Says(responses, impact[i].partition, answer)
  }

  lemma AnsweredOneMore(impact: seq<PartitionImpact>, n: nat, responses: map<int, bool>, answer: Answer)
    requires n < |impact|
    ensures AnswerFor(responses, impact[n].partition) == answer ==>
              |Answered(impact, n + 1, responses, answer)| == |Answered(impact, n, responses, answer)| + 1
    ensures AnswerFor(responses, impact[n].partition) != answer ==>
              Answered(impact, n + 1, responses, answer) == Answered(impact, n, responses, answer)
  {
    assert AnswerFor(responses, impact[n].partition) == answer <==> Says(responses, impact[n].partition, answer);
    if AnswerFor(responses, impact[n].partition) == answer {
      assert Answered(impact, n + 1, responses, answer) == Answered(impact, n, responses, answer) + {n};
    }
  }

  /** Each of the first `n` items is counted exactly once, as what its answer says. */
  ghost predicate Counts(outcome: BatchOutcome, impact: seq<PartitionImpact>, n: nat, responses: map<int, bool>)
    requires n <= |impact|
  {
    && outcome.succeeded == |Answered(impact, n, responses, Accepted)|
    && outcome.failed == |Answered(impact, n, responses, Rejected)|
    && outcome.uncertain == |Answered(impact, n, responses, Silent)|
    && outcome.Count() == n
  }

  lemma CountsNothing(impact: seq<PartitionImpact>, responses: map<int, bool>)
    ensures Counts(BatchOutcome(0, 0, 0), impact, 0, responses)
  {
    assert forall answer :: Answered(impact, 0, responses, answer) == {};
  }

  lemma CountsOneMore(outcome: BatchOutcome, impact: seq<PartitionImpact>, n: nat, responses: map<int, bool>)
    requires n < |impact| && Counts(outcome, impact, n, responses)
    ensures Counts(Tallied(outcome, AnswerFor(responses, impact[n].partition)), impact, n + 1, responses)
  {
    hide AnswerFor;
    AnsweredOneMore(impact, n, responses, Accepted);
    AnsweredOneMore(impact, n, responses, Rejected);
    AnsweredOneMore(impact, n, responses, Silent);
  }

  method CommitOutcome(impact: seq<PartitionImpact>, responses: map<int, bool>) returns (outcome: BatchOutcome, failing: bool)
    ensures Counts(outcome, impact, |impact|, responses)
    ensures failing <==> outcome.failed > 0 || outcome.uncertain > 0
  {
    hide AnswerFor, Counts;
    outcome, failing := BatchOutcome(0, 0, 0), false;
    CountsNothing(impact, responses);
    var i := 0;
    while i < |impact|
      invariant i <= |impact| && Counts(outcome, impact, i, responses)
      invariant outcome.NonNegative() && (failing <==> outcome.failed > 0 || outcome.uncertain > 0)
    {
      CountsOneMore(outcome, impact, i, responses);
      match AnswerFor(responses, impact[i].partition) {
        case Rejected => outcome, failing := outcome.(failed := outcome.failed + 1), true;
        case Silent => outcome, failing := outcome.(uncertain := outcome.uncertain + 1), true;
        case Accepted => outcome := outcome.(succeeded := outcome.succeeded + 1);
      }
      i := i + 1;
    }
  }

  type TopicPartition = (string, int)

  function Pairs(requested: map<string, map<int, int>>): set<TopicPartition> {
    set topic, p | topic in requested && p in requested[topic] :: (topic, p)
  }

  function DeleteAnswer(responses: map<TopicPartition, bool>, at: TopicPartition): Answer {
    if at !in responses then Silent else if responses[at] then Accepted else Rejected
  }

  function DeletesAnswered(visited: set<TopicPartition>, responses: map<TopicPartition, bool>, answer: Answer): set<TopicPartition> {
    set at | at in visited &&
      match answer
      case Accepted => at in responses && responses[at]
      case Rejected => at in responses && !responses[at]
      case Silent => at !in responses
  }

  ghost predicate Tallies(outcome: BatchOutcome, visited: set<TopicPartition>, responses: map<TopicPartition, bool>) {
    && outcome.succeeded == |DeletesAnswered(visited, responses, Accepted)|
    && outcome.failed == |DeletesAnswered(visited, responses, Rejected)|
    && outcome.uncertain == |DeletesAnswered(visited, responses, Silent)|
    && outcome.Count() == |visited|
  }

  lemma DeletesOneMore(visited: set<TopicPartition>, responses: map<TopicPartition, bool>, at: TopicPartition, answer: Answer)
    requires at !in visited
    ensures DeleteAnswer(responses, at) == answer ==>
              |DeletesAnswered(visited + {at}, responses, answer)| == |DeletesAnswered(visited, responses, answer)| + 1
    ensures DeleteAnswer(responses, at) != answer ==>
              DeletesAnswered(visited + {at}, responses, answer) == DeletesAnswered(visited, responses, answer)
  {
    if DeleteAnswer(responses, at) == answer {
      assert DeletesAnswered(visited + {at}, responses, answer) == DeletesAnswered(visited, responses, answer) + {at};
    }
  }

  lemma TallyOneMore(outcome: BatchOutcome, visited: set<TopicPartition>, responses: map<TopicPartition, bool>, at: TopicPartition)
    requires Tallies(outcome, visited, responses) && at !in visited
    ensures Tallies(Tallied(outcome, DeleteAnswer(responses, at)), visited + {at}, responses)
  {
    DeletesOneMore(visited, responses, at, Accepted);
    DeletesOneMore(visited, responses, at, Rejected);
    DeletesOneMore(visited, responses, at, Silent);
    assert |visited + {at}| == |visited| + 1;
  }

  /** The requested pairs of all topics but those left, and of `topic` all but the partitions left. */
  ghost predicate Visited(requested: map<string, map<int, int>>, topics: set<string>, topic: string, rest: set<(int, int)>,
                          visited: set<TopicPartition>)
    requires topic in requested
  {
    forall at :: at in visited <==>
      at in Pairs(requested) && (at.0 !in topics || (at.0 == topic && (at.1, requested[topic][at.1]) !in rest))
  }

  /** The requested pairs of all topics but those left. */
  ghost predicate VisitedTopics(requested: map<string, map<int, int>>, topics: set<string>, visited: set<TopicPartition>) {
    forall at :: at in visited <==> at in Pairs(requested) && at.0 !in topics
  }

  lemma VisitedAll(requested: map<string, map<int, int>>, visited: set<TopicPartition>)
    requires VisitedTopics(requested, {}, visited)
    ensures visited == Pairs(requested)
  {
  }

  lemma VisitedNone(requested: map<string, map<int, int>>, responses: map<TopicPartition, bool>)
    ensures VisitedTopics(requested, requested.Keys, {}) && Tallies(BatchOutcome(0, 0, 0), {}, responses)
  {
    assert forall answer :: DeletesAnswered({}, responses, answer) == {};
  }

  lemma VisitedOneMore(requested: map<string, map<int, int>>, topics: set<string>, topic: string, rest: set<(int, int)>,
                       visited: set<TopicPartition>, p: int)
    requires topic in requested && topic in topics && p in requested[topic] && (p, requested[topic][p]) in rest
    requires Visited(requested, topics, topic, rest, visited)
    ensures (topic, p) !in visited
    ensures Visited(requested, topics, topic, rest - {(p, requested[topic][p])}, visited + {(topic, p)})
  {
  }

  lemma VisitedTopic(requested: map<string, map<int, int>>, topics: set<string>, topic: string, visited: set<TopicPartition>)
    requires topic in requested && topic in topics && Visited(requested, topics, topic, {}, visited)
    ensures VisitedTopics(requested, topics - {topic}, visited)
  {
  }

  lemma VisitedNext(requested: map<string, map<int, int>>, topics: set<string>, topic: string, visited: set<TopicPartition>)
    requires topic in requested && topic in topics
    requires VisitedTopics(requested, topics, visited)
    ensures Visited(requested, topics, topic, requested[topic].Items, visited)
  {
    forall at: TopicPartition | at in Pairs(requested) && at.0 == topic ensures (at.1, requested[topic][at.1]) in requested[topic].Items {
    }
  }

  ghost predicate Failing(outcome: BatchOutcome, failing: bool) {
    outcome.NonNegative() && (failing <==> outcome.failed > 0 || outcome.uncertain > 0)
  }

  /** The partitions of one topic, in any order. */
  method DeleteOutcomeOfTopic(requested: map<string, map<int, int>>, topic: string, responses: map<TopicPartition, bool>,
                              before: BatchOutcome, failed: bool, ghost topics: set<string>, ghost seen: set<TopicPartition>)
      returns (outcome: BatchOutcome, failing: bool, ghost visited: set<TopicPartition>)
    requires topic in requested && topic in topics
    requires Tallies(before, seen, responses) && Failing(before, failed)
    requires Visited(requested, topics, topic, requested[topic].Items, seen)
    ensures Tallies(outcome, visited, responses) && Failing(outcome, failing)
    ensures Visited(requested, topics, topic, {}, visited)
  {
    hide Tallies, DeleteAnswer, Visited;
    outcome, failing, visited := before, failed, seen;
    var rest := requested[topic].Items;
    while rest != {}
      invariant rest <= requested[topic].Items
      invariant Tallies(outcome, visited, responses) && Failing(outcome, failing)
      invariant Visited(requested, topics, topic, rest, visited)
      decreases |rest|
    {
      var pair :| pair in rest;
      var (p, offset) := pair;
      assert (p, offset) in requested[topic].Items;
      VisitedOneMore(requested, topics, topic, rest, visited, p);
      TallyOneMore(outcome, visited, responses, (topic, p));
      visited, rest := visited + {(topic, p)}, rest - {pair};
      match DeleteAnswer(responses, (topic, p)) {
        case Silent => outcome, failing := outcome.(uncertain := outcome.uncertain + 1), true;
        case Rejected => outcome, failing := outcome.(failed := outcome.failed + 1), true;
        case Accepted => outcome := outcome.(succeeded := outcome.succeeded + 1);
      }
    }
  }

  /** Deleting records: over all topics and partitions requested, in any order, each is counted exactly once. */
  method DeleteRecordsOutcome(requested: map<string, map<int, int>>, responses: map<TopicPartition, bool>)
      returns (outcome: BatchOutcome, failing: bool)
    ensures Tallies(outcome, Pairs(requested), responses)
    ensures failing <==> outcome.failed > 0 || outcome.uncertain > 0
  {
    outcome, failing := BatchOutcome(0, 0, 0), false;
    ghost var visited: set<TopicPartition> := {};
    var topics := requested.Keys;
    VisitedNone(requested, responses);
    hide Tallies, Visited, VisitedTopics;
    while topics != {}
      invariant topics <= requested.Keys
      invariant Tallies(outcome, visited, responses) && Failing(outcome, failing)
      invariant VisitedTopics(requested, topics, visited)
      decreases |topics|
    {
      var topic :| topic in topics;
      VisitedNext(requested, topics, topic, visited);
      outcome, failing, visited := DeleteOutcomeOfTopic(requested, topic, responses, outcome, failing, topics, visited);
      VisitedTopic(requested, topics, topic, visited);
      topics := topics - {topic};
    }
    VisitedAll(requested, visited);
  }

  // ---- The group ---------------------------------------------------------

  ghost predicate MachineTarget(target: Target) {
    match target
    case Listed(offsets) => forall p :: p in offsets ==> Int64(offsets[p])
    case Shift(amount, _) => Int64(amount)
    case _ => true
  }

  /** The partitions a target speaks of. */
  function TargetPartitions(target: Target): set<int> {
    match target
    case Listed(offsets) => offsets.Keys
    case Shift(_, ends) => ends.Keys
    case _ => {}
  }

  function PositionIn(committed: map<int, int>, p: int): int {
    if p in committed then committed[p] else 0
  }

  ghost predicate SameIn(before: map<int, int>, after: map<int, int>, p: int) {
    (p in before <==> p in after) && (p in before ==> before[p] == after[p])
  }

  ghost predicate AtIn(committed: map<int, int>, p: int, offset: int) {
    p in committed && committed[p] == offset
  }

  /** A commit touches nothing but the given partitions, and each of these either moves to its offset or stays. */
  ghost predicate CommitEffect(before: map<int, int>, after: map<int, int>, offsets: map<int, int>) {
    && (forall p :: p !in offsets ==> SameIn(before, after, p))
    && (forall p :: p in offsets ==> SameIn(before, after, p) || AtIn(after, p, offsets[p]))
  }

  /** An accepted partition moved and a rejected one did not; of one without an answer nothing is known. */
  ghost predicate Answers(before: map<int, int>, after: map<int, int>, offsets: map<int, int>, responses: map<int, bool>) {
    forall p :: p in offsets && p in responses ==>
      if responses[p] then AtIn(after, p, offsets[p]) else SameIn(before, after, p)
  }

  /** The offsets to commit are those of the plan. */
  ghost predicate Requests(offsets: map<int, int>, impact: seq<PartitionImpact>) {
    && (forall item :: item in impact ==> AtIn(offsets, item.partition, item.to))
    && (forall p :: p in offsets ==> HasPartition(impact, p))
  }

  /** Where a planned partition ended up, given its answer. */
  ghost predicate Resolved(before: map<int, int>, after: map<int, int>, item: PartitionImpact, responses: map<int, bool>) {
    && (SameIn(before, after, item.partition) || AtIn(after, item.partition, item.to))
    && (item.partition in responses && responses[item.partition] ==> AtIn(after, item.partition, item.to))
    && (item.partition in responses && !responses[item.partition] ==> SameIn(before, after, item.partition))
  }

  lemma {:induction false} NoAnswers(impact: seq<PartitionImpact>, n: nat)
    requires n <= |impact| && forall item :: item in impact ==> FitsInt32(item.partition)
    ensures Counts(BatchOutcome(0, 0, n), impact, n, map[])
  {
    if n == 0 {
      CountsNothing(impact, map[]);
    } else {
      NoAnswers(impact, n - 1);
      assert impact[n - 1] in impact;
      CountsOneMore(BatchOutcome(0, 0, n - 1), impact, n - 1, map[]);
    }
  }

  lemma AllAccepted(outcome: BatchOutcome, impact: seq<PartitionImpact>, responses: map<int, bool>, item: PartitionImpact)
    requires Counts(outcome, impact, |impact|, responses) && outcome.failed == outcome.uncertain == 0 && item in impact
    ensures item.partition in responses && responses[item.partition]
  {
    var i :| 0 <= i < |impact| && impact[i] == item;
    assert i !in Answered(impact, |impact|, responses, Rejected);
    assert i !in Answered(impact, |impact|, responses, Silent);
  }

  /** An item that is not counted as succeeded was not answered, or rejected. */
  lemma SomeUnanswered(outcome: BatchOutcome, impact: seq<PartitionImpact>, responses: map<int, bool>)
    requires Counts(outcome, impact, |impact|, responses) && (outcome.failed > 0 || outcome.uncertain > 0)
    ensures exists item :: item in impact
              && !(0 <= item.partition <= 2_147_483_647 && item.partition in responses && responses[item.partition])
  {
    var answer := if outcome.failed > 0 then Rejected else Silent;
    var i :| i in Answered(impact, |impact|, responses, answer);
    assert impact[i] in impact;
  }

  lemma NothingAnswered(before: map<int, int>, after: map<int, int>, offsets: map<int, int>)
    ensures Answers(before, after, offsets, map[])
  {
  }

  /** What committing a plan does to the group: each planned partition ends as its answer says, and no other moves. */
  ghost predicate Moved(before: map<int, int>, after: map<int, int>, plan: Plan, responses: map<int, bool>) {
    && (forall p :: !HasPartition(plan.impact, p) ==> SameIn(before, after, p))
    && (forall item :: item in plan.impact ==> Resolved(before, after, item, responses))
  }

  /** The plan is for exactly the partitions that were asked for. */
  ghost predicate Selects(plan: Plan, target: Target, requested: int) {
    forall p :: HasPartition(plan.impact, p) <==> p in TargetPartitions(target) && (requested < 0 || p == requested)
  }

  lemma StaysValid(before: map<int, int>, after: map<int, int>, offsets: map<int, int>, impact: seq<PartitionImpact>)
    requires CommitEffect(before, after, offsets) && Requests(offsets, impact)
    requires forall p :: p in before ==> 0 <= before[p] <= MAX_INT64
    requires forall item :: item in impact ==> 0 <= item.to <= MAX_INT64
    ensures forall p :: p in after ==> 0 <= after[p] <= MAX_INT64
  {
    forall p | p in after ensures 0 <= after[p] <= MAX_INT64 {
      if p in offsets {
        assert HasPartition(impact, p);
        var item :| item in impact && item.partition == p;
        assert AtIn(offsets, item.partition, item.to);
      }
    }
  }

  lemma AllResolved(before: map<int, int>, after: map<int, int>, offsets: map<int, int>, impact: seq<PartitionImpact>, responses: map<int, bool>)
    requires CommitEffect(before, after, offsets) && Requests(offsets, impact) && Answers(before, after, offsets, responses)
    ensures forall item :: item in impact ==> Resolved(before, after, item, responses)
    ensures forall p :: !HasPartition(impact, p) ==> SameIn(before, after, p)
  {
    forall item | item in impact ensures Resolved(before, after, item, responses) {
      assert AtIn(offsets, item.partition, item.to);
    }
  }

  class ConsumerGroup {
    var committed: map<int, int>
    var active: bool
    ghost var failures: nat // how many calls to the broker failed or answered with an error or not in full

    ghost predicate Valid()
      reads `committed
    {
      forall p :: p in committed ==> 0 <= committed[p] <= MAX_INT64
    }

    constructor (committed: map<int, int>, active: bool)
      requires forall p :: p in committed ==> 0 <= committed[p] <= MAX_INT64
      ensures Valid() && this.committed == committed && this.active == active
    {
      this.committed, this.active, failures := committed, active, 0;
    }

    /** One call to the broker. */
    method Call() returns (ok: bool)
      modifies `failures
      ensures ok ==> failures == old(failures)
      ensures !ok ==> failures == old(failures) + 1
    {
      ok := *;
      failures := if ok then failures else failures + 1;
    }

    ghost predicate Fetches(answer: map<int, Committed>)
      reads `committed
    {
      && (forall p :: p in committed ==> p in answer)
      && (forall p :: p in answer ==> answer[p].at == if p in committed then committed[p] else -1)
    }

    method FetchOffsets() returns (answer: Option<map<int, Committed>>)
      modifies `failures
      ensures failures >= old(failures)
      ensures answer.Some? ==> Fetches(answer.value)
      ensures answer.None? ==> failures > old(failures)
      ensures answer.Some? && failures == old(failures) ==> forall p :: p in answer.value ==> !answer.value[p].failed
    {
      var ok := Call();
      if !ok {
        return None;
      }
      var failing: set<int>, others: set<int> := *, *;
      failures := if failing == {} then failures else failures + 1;
      answer := Some(map p | p in committed.Keys + others :: Committed(if p in committed then committed[p] else -1, p in failing));
    }

    method CommitOffsets(offsets: map<int, int>) returns (ok: bool, responses: map<int, bool>)
      modifies `committed, `failures
      ensures failures >= old(failures)
      ensures CommitEffect(old(committed), committed, offsets)
      ensures ok ==> Answers(old(committed), committed, offsets, responses)
      ensures !ok ==> failures > old(failures)
      ensures ok && failures == old(failures) ==> forall p :: p in offsets ==> p in responses && responses[p]
    {
      var applied: set<int>, answered: set<int> := *, *;
      ok := Call();
      committed := map p | p in committed.Keys + offsets.Keys && (p in committed || p in applied) ::
        if p in offsets && p in applied then offsets[p] else committed[p];
      responses := if ok then map p | p in answered && p in offsets :: p in applied else map[];
      failures := if ok && offsets.Keys <= applied * answered then failures else failures + 1;
    }

    /** The targets of a shift; a partition without a position is shifted from 0 or from -1, as the broker answered. */
    ghost predicate Shifted(targets: map<int, int>, ends: map<int, int>, amount: int)
      reads `committed
    {
      && (forall p :: p in targets <==> p in ends)
      && (forall p :: p in targets && p in committed ==> targets[p] == ShiftTarget(committed[p], amount))
      && (forall p :: p in targets && p !in committed ==> targets[p] == ShiftTarget(0, amount) || targets[p] == ShiftTarget(-1, amount))
    }

    method TargetOffsets(target: Target) returns (targets: Option<map<int, int>>, failed: bool)
      requires Valid() && MachineTarget(target)
      modifies `failures
      ensures failures >= old(failures)
      ensures targets.None? ==> failed && (failures > old(failures) || target.ListingFailed? || target.BadTarget?)
      ensures target.Listed? ==> targets == Some(target.offsets)
      ensures targets.Some? ==> forall p :: p in targets.value ==> Int64(targets.value[p])
      ensures targets.Some? ==> target.Listed? || target.Shift?
      ensures targets.Some? && target.Shift? ==> Shifted(targets.value, target.ends, target.amount)
    {
      match target {
        case Listed(offsets) => return Some(offsets), false;
        case Shift(amount, ends) =>
          var fetched := FetchOffsets();
          if fetched.None? {
            return None, true;
          }
          targets := ShiftOffsets(fetched.value, ends, amount);
          failed := targets.None?;
        case _ => return None, true;
      }
    }

    /** Exactly the plan as offsets, unless a partition number does not fit. */
    method OffsetsOf(impact: seq<PartitionImpact>) returns (offsets: Option<map<int, int>>)
      requires Ascending(impact)
      ensures offsets.None? <==> exists item :: item in impact && !(0 <= item.partition <= 2_147_483_647)
      ensures offsets.Some? ==> Requests(offsets.value, impact)
    {
      var built: map<int, int> := map[];
      var i := 0;
      while i < |impact|
        invariant i <= |impact|
        invariant forall k :: 0 <= k < i ==> FitsInt32(impact[k].partition) && AtIn(built, impact[k].partition, impact[k].to)
        invariant forall p :: p in built ==> exists k :: 0 <= k < i && impact[k].partition == p
      {
        if !FitsInt32(impact[i].partition) {
          return None;
        }
        built := built[impact[i].partition := impact[i].to];
        i := i + 1;
      }
      forall p | p in built ensures HasPartition(impact, p) {
        var k :| 0 <= k < |impact| && impact[k].partition == p;
        assert impact[k] in impact;
      }
      offsets := Some(built);
    }

    /** What a plan says about the group it was made for. */
    ghost predicate Describes(plan: Plan, target: Target)
      reads `committed
    {
      && Ascending(plan.impact)
      && plan.total == Wrap64(SumCounts(plan.impact))
      && forall item :: item in plan.impact ==>
           && item.from == PositionIn(committed, item.partition)
           && 0 <= item.to <= MAX_INT64
           && item.count >= 0 && (item.count == item.to - item.from || item.count == item.from - item.to)
           && Targets(target, item)
    }

    /** Where the plan moves a partition: to the listed position, or by the shift; a negative position stands for staying. */
    ghost predicate Targets(target: Target, item: PartitionImpact)
      reads `committed
    {
      match target
      case Listed(offsets) =>
        item.partition in offsets && item.to == if offsets[item.partition] < 0 then item.from else offsets[item.partition]
      case Shift(amount, ends) =>
        && item.partition in ends
        && if item.partition in committed then item.to == ShiftTarget(item.from, amount)
           else item.to == ShiftTarget(0, amount) || item.to == ShiftTarget(-1, amount)
      case _ => false
    }

    method MakePlan(target: Target, requested: int) returns (plan: Option<Plan>, cause: Cause)
      requires Valid() && MachineTarget(target)
      modifies `failures
      ensures failures >= old(failures)
      ensures plan.None? ==> failures > old(failures) || target.ListingFailed? || target.BadTarget?
      ensures plan.Some? ==> Describes(plan.value, target)
      ensures plan.Some? ==> Selects(plan.value, target, requested)
    {
      cause := FetchFailed;
      var fetched := FetchOffsets();
      if fetched.None? {
        return None, FetchFailed;
      }
      var targets, failed := TargetOffsets(target);
      if targets.None? {
        return None, TargetFailed;
      }
      plan := OffsetPlan(fetched.value, targets.value, requested);
      if plan.Some? {
        PlanIsComplete(fetched.value, targets.value, requested, plan.value);
        DescribesGroup(fetched.value, targets.value, requested, plan.value, target);
      }
    }

    lemma DescribesGroup(fetched: map<int, Committed>, targets: map<int, int>, requested: int, plan: Plan, target: Target)
      requires Valid() && Fetches(fetched) && Ascending(plan.impact) && plan.total == Wrap64(SumCounts(plan.impact))
      requires forall p :: p in targets ==> Int64(targets[p])
      requires target.Listed? || target.Shift?
      requires target.Listed? ==> targets == target.offsets
      requires target.Shift? ==> Shifted(targets, target.ends, target.amount)
      requires forall item :: item in plan.impact <==> Covers(fetched, targets, requested, item)
      ensures Describes(plan, target)
    {
    }

    /** The commit and its outcome: an item counted as succeeded moved, one counted as failed did not. */
    method CommitOffsetPlan(plan: Plan, offsets: map<int, int>)
        returns (outcome: BatchOutcome, failure: Option<Failure>, ghost responses: map<int, bool>)
      requires Valid() && Requests(offsets, plan.impact) && forall item :: item in plan.impact ==> FitsInt32(item.partition)
      modifies `committed, `failures
      ensures failures >= old(failures) && (failure.Some? ==> failures > old(failures))
      ensures CommitEffect(old(committed), committed, offsets)
      ensures Answers(old(committed), committed, offsets, responses)
      ensures Counts(outcome, plan.impact, |plan.impact|, responses)
      ensures failure.Some? <==> outcome.failed > 0 || outcome.uncertain > 0 || failure == Some(Failure(CommitFailed, true))
      ensures failure.Some? ==> failure.value.cause == CommitFailed || failure.value.cause == PartitionsFailed
      ensures failure.Some? && failure.value.cause == PartitionsFailed ==>
                (failure.value.partial <==> outcome.succeeded > 0 || outcome.uncertain > 0)
    {
      hide Counts, CommitEffect, Answers;
      var ok, answers := CommitOffsets(offsets);
      if !ok {
        NoAnswers(plan.impact, |plan.impact|);
        NothingAnswered(old(committed), committed, offsets);
        return BatchOutcome(0, 0, |plan.impact|), Some(Failure(CommitFailed, true)), map[];
      }
      var failing;
      outcome, failing := CommitOutcome(plan.impact, answers);
      responses := answers;
      if failing {
        SomeUnanswered(outcome, plan.impact, answers);
      }
      failure := if failing then Some(Failure(PartitionsFailed, outcome.succeeded > 0 || outcome.uncertain > 0)) else None;
    }

    /** Commit exactly the planned targets, or nothing when a partition number does not fit. */
    method CommitPlan(plan: Plan)
        returns (attempted: bool, outcome: BatchOutcome, failure: Option<Failure>, ghost responses: map<int, bool>)
      requires Valid() && Ascending(plan.impact) && forall item :: item in plan.impact ==> 0 <= item.to <= MAX_INT64
      modifies `committed, `failures
      ensures failures >= old(failures) && (attempted && failure.Some? ==> failures > old(failures))
      ensures Valid()
      ensures attempted <==> forall item :: item in plan.impact ==> 0 <= item.partition <= 2_147_483_647
      ensures !attempted ==> committed == old(committed) && failure.Some?
      ensures attempted ==> Counts(outcome, plan.impact, |plan.impact|, responses) && Moved(old(committed), committed, plan, responses)
      ensures attempted && failure.None? ==> outcome == BatchOutcome(|plan.impact|, 0, 0)
      ensures attempted && failure.None? ==> forall item :: item in plan.impact ==> AtIn(committed, item.partition, item.to)
    {
      outcome, responses, attempted := BatchOutcome(0, 0, 0), map[], false;
      var offsets := OffsetsOf(plan.impact);
      if offsets.None? {
        return false, outcome, Some(Failure(OutOfRange, false)), responses;
      }
      attempted := true;
      outcome, failure, responses := CommitOffsetPlan(plan, offsets.value);
      ghost var before := old(committed);
      StaysValid(before, committed, offsets.value, plan.impact);
      AllResolved(before, committed, offsets.value, plan.impact, responses);
      if failure.None? {
        forall item | item in plan.impact ensures AtIn(committed, item.partition, item.to) {
          AllAccepted(outcome, plan.impact, responses, item);
        }
      }
    }

    /** Resetting: the plan is made for where the group is, and the group moves by nothing but the plan. */
    method ResetOffset(target: Target, requested: int, dryRun: bool)
        returns (plan: Option<Plan>, outcome: BatchOutcome, failure: Option<Failure>, ghost responses: map<int, bool>)
      requires Valid() && MachineTarget(target)
      modifies `committed, `failures
      ensures Valid()
      ensures failure.Some? ==>
                || failures > old(failures) || active || target.ListingFailed? || target.BadTarget?
                || exists p :: p in TargetPartitions(target) && (requested < 0 || p == requested) && !(0 <= p <= 2_147_483_647)
      ensures active ==> failure.Some? && plan.None?
      ensures failure.None? ==> plan.Some?
      ensures plan.None? || dryRun ==> committed == old(committed)
      ensures plan.Some? ==> old(Describes(plan.value, target)) && Selects(plan.value, target, requested)
      ensures plan.Some? && !dryRun ==> Counts(outcome, plan.value.impact, |plan.value.impact|, responses) && Moved(old(committed), committed, plan.value, responses)
      ensures plan.Some? && !dryRun && failure.None? ==> outcome == BatchOutcome(|plan.value.impact|, 0, 0)
      ensures plan.Some? && !dryRun && failure.None? ==>
                forall item :: item in plan.value.impact ==> AtIn(committed, item.partition, item.to)
    {
      hide Describes, Moved, Counts;
      plan, outcome, responses := None, BatchOutcome(0, 0, 0), map[];
      var described := Call();
      if !described || active {
        failure := Some(Failure(if described then GroupActive else FetchFailed, false));
        return;
      }
      var cause;
      plan, cause := MakePlan(target, requested);
      if plan.None? {
        failure := Some(Failure(cause, false));
        return;
      }
      failure := None;
      if !dryRun {
        DescribedPlan(plan.value, target);
        var attempted;
        attempted, outcome, failure, responses := CommitPlan(plan.value);
        if !attempted {
          ghost var item :| item in plan.value.impact && !(0 <= item.partition <= 2_147_483_647);
          assert HasPartition(plan.value.impact, item.partition);
          plan := None;
        }
      }
    }

    lemma DescribedPlan(plan: Plan, target: Target)
      requires Describes(plan, target)
      ensures Ascending(plan.impact) && forall item :: item in plan.impact ==> 0 <= item.to <= MAX_INT64
    {
    }
  }
}
