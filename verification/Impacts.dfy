/** Per-partition ranges, kept up to date one record at a time and reported sorted by partition. */
module Impacts {
  import opened Common
  import Sorting

  datatype Record = Record(partition: int, offset: int, size: int, content: string)

  datatype PartitionImpact = PartitionImpact(partition: int, from: int, to: int, count: int)

  function CountOf(s: seq<Record>, p: int): (n: nat)
    ensures n == 0 <==> forall r :: r in s ==> r.partition != p
  {
    if s == [] then 0 else
      assert s == s[..|s| - 1] + [Last(s)];
      CountOf(s[..|s| - 1], p) + if Last(s).partition == p then 1 else 0
  }

  /** The item tells how many records of its partition there are, and the tightest range of offsets around them. */
  ghost predicate Summarises(item: PartitionImpact, s: seq<Record>, p: int) {
    && item.partition == p
    && item.count == CountOf(s, p)
    && (forall r :: r in s && r.partition == p ==> item.from <= r.offset < item.to)
    && (exists r :: r in s && r.partition == p && r.offset == item.from)
    && (exists r :: r in s && r.partition == p && r.offset + 1 == item.to)
  }

  ghost predicate ImpactOf(impact: map<int, PartitionImpact>, s: seq<Record>) {
    forall p :: if p in impact then Summarises(impact[p], s, p) else CountOf(s, p) == 0
  }

  function Updated(impact: map<int, PartitionImpact>, p: int, offset: int): map<int, PartitionImpact> {
    if p !in impact then impact[p := PartitionImpact(p, offset, offset + 1, 1)]
    else
      var item := impact[p];
      impact[p := PartitionImpact(item.partition,
                                  if offset < item.from then offset else item.from,
                                  if offset + 1 > item.to then offset + 1 else item.to,
                                  item.count + 1)]
  }

  lemma CountOfOneMore(s: seq<Record>, r: Record, p: int)
    ensures CountOf(s + [r], p) == CountOf(s, p) + if r.partition == p then 1 else 0
  {
    assert (s + [r])[..|s|] == s;
  }

  lemma SummarisesOneMore(impact: map<int, PartitionImpact>, s: seq<Record>, r: Record, p: int)
    requires ImpactOf(impact, s)
    ensures var later := Updated(impact, r.partition, r.offset);
            if p in later then Summarises(later[p], s + [r], p) else CountOf(s + [r], p) == 0
  {
    CountOfOneMore(s, r, p);
    var later := Updated(impact, r.partition, r.offset);
    assert r in s + [r];
    assert forall x :: x in s + [r] <==> x in s || x == r;
    if p in impact {
      assert Summarises(impact[p], s, p);
    }
  }

  /** One more record: the update keeps the summary exact. */
  lemma UpdateSummarises(impact: map<int, PartitionImpact>, s: seq<Record>, r: Record)
    requires ImpactOf(impact, s)
    ensures ImpactOf(Updated(impact, r.partition, r.offset), s + [r])
  {
    forall p ensures var later := Updated(impact, r.partition, r.offset);
                     if p in later then Summarises(later[p], s + [r], p) else CountOf(s + [r], p) == 0
    {
      SummarisesOneMore(impact, s, r, p);
    }
  }

  // ---- The reported slice -----------------------------------------------

  function ByPartition(a: PartitionImpact, b: PartitionImpact): bool {
    a.partition < b.partition
  }

  lemma PartitionOrder()
    ensures Sorting.Ordering(ByPartition)
  {
  }

  ghost predicate Ascending(items: seq<PartitionImpact>) {
    forall i, j :: 0 <= i < j < |items| ==> items[i].partition < items[j].partition
  }

  function SumCounts(items: seq<PartitionImpact>): int {
    if items == [] then 0 else items[0].count + SumCounts(items[1..])
  }

  lemma AscendingWhenDistinct(before: seq<PartitionImpact>)
    requires forall i, j :: 0 <= i < j < |before| ==> before[i].partition != before[j].partition
    ensures Ascending(Sorting.Sort(ByPartition, before))
    ensures forall item :: item in Sorting.Sort(ByPartition, before) <==> item in before
  {
    PartitionOrder();
    var sorted := Sorting.Sort(ByPartition, before);
    Sorting.SortSorts(ByPartition, before);
    Sorting.SameElements(sorted, before);
    forall i, j | 0 <= i < j < |sorted| ensures sorted[i].partition < sorted[j].partition {
      assert !ByPartition(sorted[j], sorted[i]);
      if sorted[i].partition == sorted[j].partition {
        SamePartitionSameItem(before, sorted[i], sorted[j]);
        TwiceInOne(sorted, before, i, j);
      }
    }
  }

  lemma SamePartitionSameItem(s: seq<PartitionImpact>, a: PartitionImpact, b: PartitionImpact)
    requires forall i, j :: 0 <= i < j < |s| ==> s[i].partition != s[j].partition
    requires a in s && b in s && a.partition == b.partition
    ensures a == b
  {
  }

  lemma {:induction false} OnceWhenDistinct(s: seq<PartitionImpact>, a: PartitionImpact)
    requires forall i, j :: 0 <= i < j < |s| ==> s[i].partition != s[j].partition
    ensures multiset(s)[a] <= 1
  {
    if s != [] {
      assert s == [s[0]] + s[1..];
      OnceWhenDistinct(s[1..], a);
      if a == s[0] {
        assert forall x :: x in s[1..] ==> x.partition != a.partition;
        assert a !in s[1..];
      }
    }
  }

  lemma TwiceInOne(s: seq<PartitionImpact>, before: seq<PartitionImpact>, i: int, j: int)
    requires forall i, j :: 0 <= i < j < |before| ==> before[i].partition != before[j].partition
    requires multiset(s) == multiset(before) && 0 <= i < j < |s|
    ensures s[i] != s[j]
  {
    OnceWhenDistinct(before, s[i]);
    if s[i] == s[j] {
      CountedTwice(s, i, j);
    }
  }

  lemma CountedTwice(s: seq<PartitionImpact>, i: int, j: int)
    requires 0 <= i < j < |s| && s[i] == s[j]
    ensures multiset(s)[s[i]] >= 2
  {
    assert s == s[..j] + [s[j]] + s[j + 1..];
    assert s[i] in s[..j];
  }

  ghost predicate Keyed(impact: map<int, PartitionImpact>, item: PartitionImpact) {
    item.partition in impact && impact[item.partition] == item
  }

  /** The map as a slice in the order of its partitions, whatever order the map was walked in. */
  method TailImpactSlice(impact: map<int, PartitionImpact>) returns (out: seq<PartitionImpact>)
    requires forall p :: p in impact ==> impact[p].partition == p
    ensures Ascending(out)
    ensures forall item :: item in out <==> Keyed(impact, item)
  {
    out := [];
    var rest := impact.Items;
    while rest != {}
      invariant rest <= impact.Items
      invariant forall item :: item in out <==> Keyed(impact, item) && (item.partition, item) !in rest
      invariant forall i, j :: 0 <= i < j < |out| ==> out[i].partition != out[j].partition
      decreases |rest|
    {
      var pair :| pair in rest;
      var (p, item) := pair;
      assert (p, item) in impact.Items;
      assert Keyed(impact, item) && item.partition == p;
      rest := rest - {pair};
      out := out + [item];
    }
    AscendingWhenDistinct(out);
    out := Sorting.Sort(ByPartition, out);
  }

  // ---- The counts add up -------------------------------------------------

  function SumOver(parts: seq<int>, s: seq<Record>): int {
    if parts == [] then 0 else CountOf(s, parts[0]) + SumOver(parts[1..], s)
  }

  lemma {:induction false} SumOverOneMore(parts: seq<int>, s: seq<Record>, r: Record)
    requires forall i, j :: 0 <= i < j < |parts| ==> parts[i] != parts[j]
    ensures SumOver(parts, s + [r]) == SumOver(parts, s) + if r.partition in parts then 1 else 0
  {
    if parts != [] {
      CountOfOneMore(s, r, parts[0]);
      SumOverOneMore(parts[1..], s, r);
      assert parts[0] !in parts[1..];
    }
  }

  lemma {:induction false} SumOverIsLength(parts: seq<int>, s: seq<Record>)
    requires forall i, j :: 0 <= i < j < |parts| ==> parts[i] != parts[j]
    requires forall r :: r in s ==> r.partition in parts
    ensures SumOver(parts, s) == |s|
  {
    if s == [] {
      SumOverNothing(parts);
    } else {
      assert s == s[..|s| - 1] + [Last(s)];
      SumOverIsLength(parts, s[..|s| - 1]);
      SumOverOneMore(parts, s[..|s| - 1], Last(s));
    }
  }

  lemma {:induction false} SumOverNothing(parts: seq<int>)
    ensures SumOver(parts, []) == 0
  {
    if parts != [] {
      SumOverNothing(parts[1..]);
    }
  }

  function PartitionsOf(items: seq<PartitionImpact>): seq<int> {
    seq(|items|, i requires 0 <= i < |items| => items[i].partition)
  }

  lemma {:induction false} SumCountsIsSumOver(items: seq<PartitionImpact>, s: seq<Record>)
    requires forall item :: item in items ==> item.count == CountOf(s, item.partition)
    ensures SumCounts(items) == SumOver(PartitionsOf(items), s)
  {
    if items != [] {
      SumCountsIsSumOver(items[1..], s);
      assert PartitionsOf(items)[1..] == PartitionsOf(items[1..]);
    }
  }

  /** The counts of the reported slice sum to the number of records summarised. */
  lemma CountsAddUp(impact: map<int, PartitionImpact>, out: seq<PartitionImpact>, s: seq<Record>)
    requires ImpactOf(impact, s) && Ascending(out)
    requires forall item :: item in out <==> Keyed(impact, item)
    ensures SumCounts(out) == |s|
    ensures forall item :: item in out ==> Summarises(item, s, item.partition)
  {
    SumCountsIsSumOver(out, s);
    var parts := PartitionsOf(out);
    forall r | r in s ensures r.partition in parts {
      assert CountOf(s, r.partition) > 0;
      var item := impact[r.partition];
      assert Summarises(item, s, r.partition);
      assert item in out;
      var i :| 0 <= i < |out| && out[i] == item;
      assert parts[i] == r.partition;
    }
    SumOverIsLength(parts, s);
  }
}
