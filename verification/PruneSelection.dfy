/** Which rotated audit logs a prune may delete: the oldest ones first, always. */
module PruneSelection {
  import opened Common
  import opened SpoolNames
  import Sorting

  const LOG_SUFFIX := ".log"

  /** A rotated log as the directory lists it; `regular` tells a real file that could be inspected. */
  datatype Entry = Entry(name: string, regular: bool)

  datatype Rotation = Rotation(name: string, timestamp: int, ordinal: nat)

  /** Reading the timestamp part of a name, left open. */
  type Clock = string -> Option<int>

  // ---- Names -------------------------------------------------------------

  predicate HasPrefix(s: string, prefix: string) {
    |prefix| <= |s| && s[..|prefix|] == prefix
  }

  /** A name the listing looks at. */
  predicate IsRotated(active: string, name: string) {
    HasPrefix(name, active + ".") && HasSuffix(name, LOG_SUFFIX)
  }

  /** The middle of the name: what follows the active log's name, without the suffix. */
  function Stem(active: string, name: string): string
    requires IsRotated(active, name)
  {
    TrimSuffix(name[|active| + 1..], LOG_SUFFIX)
  }

  /** An ordinal: positive, without leading zeros, within 64 bits. */
  function ParseOrdinal(s: string): Option<nat> {
    if s == "" || (|s| > 1 && s[0] == '0') then None
    else
      var n := ParseUint64(s);
      if n == Some(0) then None else n
  }

  function StrictOrder(clock: Clock, active: string, name: string): Option<Rotation> {
    if !IsRotated(active, name) then None
    else
      var parts := Split(Stem(active, name), '.');
      if |parts| < 1 || |parts| > 2 then None
      else if clock(parts[0]).None? then None
      else if |parts| == 1 then Some(Rotation(name, clock(parts[0]).value, 0))
      else if ParseOrdinal(parts[1]).None? then None
      else Some(Rotation(name, clock(parts[0]).value, ParseOrdinal(parts[1]).value))
  }

  lemma {:induction false} DecimalIsCanonical(n: nat)
    ensures Decimal(n) != "" && AllDigits(Decimal(n)) && Value(Decimal(n)) == n
    ensures |Decimal(n)| > 1 ==> Decimal(n)[0] != '0'
  {
    if n >= 10 {
      DecimalIsCanonical(n / 10);
      var s := Decimal(n);
      assert s[..|s| - 1] == Decimal(n / 10);
      if |Decimal(n / 10)| == 1 {
        assert n / 10 < 10;
      }
    } else {
      assert Decimal(n)[..0] == "";
    }
  }

  lemma {:induction false} CanonicalIsDecimal(s: string)
    requires s != "" && AllDigits(s) && (|s| > 1 ==> s[0] != '0')
    ensures Decimal(Value(s)) == s
  {
    var front := s[..|s| - 1];
    if |s| > 1 {
      CanonicalIsDecimal(front);
      FrontIsPositive(front);
      assert s == front + [s[|s| - 1]];
    } else {
      assert front == "";
    }
  }

  lemma {:induction false} FrontIsPositive(s: string)
    requires s != "" && AllDigits(s) && s[0] != '0'
    ensures Value(s) > 0
  {
    if |s| > 1 {
      FrontIsPositive(s[..|s| - 1]);
    } else {
      assert s[..0] == "";
    }
  }

  /** Exactly the numerals of 1 up to the largest 64-bit number are ordinals, and each denotes its own number. */
  lemma OrdinalsAreNumerals(s: string, n: nat)
    ensures ParseOrdinal(s) == Some(n) <==> 0 < n <= 18_446_744_073_709_551_615 && s == Decimal(n)
  {
    DecimalIsCanonical(n);
    if ParseOrdinal(s) == Some(n) {
      CanonicalIsDecimal(s);
    }
  }

  // ---- Which names are rotations ------------------------------------------

  ghost predicate Lacks(s: string, separator: char) {
    forall i :: 0 <= i < |s| ==> s[i] != separator
  }

  lemma SplitNowhere(s: string, separator: char)
    requires Lacks(s, separator)
    ensures Split(s, separator) == [s]
  {
  }

  lemma SplitOnce(a: string, b: string, separator: char)
    requires Lacks(a, separator) && Lacks(b, separator)
    ensures Split(a + [separator] + b, separator) == [a, b]
  {
    var s := a + [separator] + b;
    IndexOfIs(s, separator, |a|);
    assert s[..|a|] == a && s[|a| + 1..] == b;
    SplitNowhere(b, separator);
  }

  lemma SplitBack(s: string, separator: char)
    ensures |Split(s, separator)| == 1 ==> Split(s, separator) == [s] && Lacks(s, separator)
    ensures |Split(s, separator)| == 2 ==>
              var parts := Split(s, separator);
              s == parts[0] + [separator] + parts[1] && Lacks(parts[0], separator) && Lacks(parts[1], separator)
  {
    var k := IndexOf(s, separator);
    if k < |s| {
      var rest := s[k + 1..];
      var m := IndexOf(rest, separator);
      assert s == s[..k] + [separator] + rest;
      if m < |rest| {
        assert |Split(rest[m + 1..], separator)| >= 1;
      }
    }
  }

  /** The timestamp alone, or the timestamp and an ordinal. */
  ghost predicate NamedAs(clock: Clock, active: string, r: Rotation, t: string) {
    && Lacks(t, '.') && clock(t) == Some(r.timestamp)
    && ((r.ordinal == 0 && r.name == active + "." + t + ".log")
        || (0 < r.ordinal <= 18_446_744_073_709_551_615 && r.name == active + "." + t + "." + Decimal(r.ordinal) + ".log"))
  }

  lemma MiddleOf(active: string, middle: string)
    ensures IsRotated(active, active + "." + middle + ".log") && Stem(active, active + "." + middle + ".log") == middle
  {
    var name := active + "." + middle + ".log";
    assert name == (active + ".") + (middle + ".log");
    assert name[|active| + 1..] == middle + ".log";
    assert name == (active + "." + middle) + ".log";
  }

  lemma {:induction false} DecimalLacksDots(n: nat)
    ensures Lacks(Decimal(n), '.')
  {
    DecimalIsCanonical(n);
  }

  lemma NameOf(active: string, name: string)
    requires IsRotated(active, name)
    ensures name == active + "." + Stem(active, name) + ".log" || Stem(active, name) == "log"
  {
    var rest := name[|active| + 1..];
    assert name == (active + ".") + rest;
    if HasSuffix(rest, LOG_SUFFIX) {
      assert rest == Stem(active, name) + LOG_SUFFIX;
      assert name == active + "." + Stem(active, name) + ".log";
    } else {
      assert |rest| < 4;
      assert name[|name| - 4] == '.' && name[|name| - 3] == 'l' && name[|name| - 2] == 'o' && name[|name| - 1] == 'g';
      assert name[|active|] == '.';
      assert |rest| == 3 && rest == "log";
    }
  }

  /** Exactly these names are rotations of the active log, each with its own timestamp and ordinal. */
  lemma RotationNames(clock: Clock, active: string, name: string, r: Rotation)
    requires clock("log").None?
    ensures StrictOrder(clock, active, name) == Some(r) <==> name == r.name && exists t :: NamedAs(clock, active, r, t)
  {
    if StrictOrder(clock, active, name) == Some(r) {
      FoundIsNamed(clock, active, name, r);
    }
    hide StrictOrder;
    if name == r.name && exists t :: NamedAs(clock, active, r, t) {
      var t :| NamedAs(clock, active, r, t);
      NamedIsFound(clock, active, r, t);
    }
  }

  lemma FoundIsNamed(clock: Clock, active: string, name: string, r: Rotation)
    requires clock("log").None? && StrictOrder(clock, active, name) == Some(r)
    ensures name == r.name && NamedAs(clock, active, r, Split(Stem(active, name), '.')[0])
  {
    var stem := Stem(active, name);
    var parts := Split(stem, '.');
    SplitBack(stem, '.');
    NameOf(active, name);
    hide Split, Stem, Lacks, Decimal, ParseUint64;
    if |parts| == 2 {
      OrdinalsAreNumerals(parts[1], r.ordinal);
      TwoPartName(active, name, stem, parts[0], Decimal(r.ordinal));
    }
  }

  lemma TwoPartName(active: string, name: string, stem: string, t: string, numeral: string)
    requires stem == t + ['.'] + numeral && (name == active + "." + stem + ".log" || stem == "log")
    ensures name == active + "." + t + "." + numeral + ".log"
  {
    assert stem[|t|] == '.';
    assert stem != "log";
    assert active + "." + (t + ['.'] + numeral) + ".log" == active + "." + t + "." + numeral + ".log";
  }

  lemma NamedIsFound(clock: Clock, active: string, r: Rotation, t: string)
    requires NamedAs(clock, active, r, t)
    ensures StrictOrder(clock, active, r.name) == Some(r)
  {
    var numeral := Decimal(r.ordinal);
    if r.ordinal == 0 {
      MiddleOf(active, t);
      SplitNowhere(t, '.');
    } else {
      DecimalLacksDots(r.ordinal);
      OrdinalsAreNumerals(numeral, r.ordinal);
      NameOfTwo(active, t, numeral);
      MiddleOf(active, t + ['.'] + numeral);
      SplitOnce(t, numeral, '.');
    }
    hide Split, Stem, Lacks, Decimal, ParseOrdinal, IsRotated;
  }

  lemma NameOfTwo(active: string, t: string, numeral: string)
    ensures active + "." + (t + ['.'] + numeral) + ".log" == active + "." + t + "." + numeral + ".log"
  {
  }

  // ---- The order of rotations ---------------------------------------------

  /** The earlier timestamp first, of one timestamp the smaller ordinal. */
  ghost predicate InOrder(a: Rotation, b: Rotation) {
    a.timestamp < b.timestamp || (a.timestamp == b.timestamp && a.ordinal <= b.ordinal)
  }

  function Older(a: Rotation, b: Rotation): bool {
    if a.timestamp != b.timestamp then a.timestamp < b.timestamp
    else if a.ordinal != b.ordinal then a.ordinal < b.ordinal
    else LexLess(a.name, b.name)
  }

  lemma {:induction false} LexAsymmetric(a: string, b: string)
    ensures !(LexLess(a, b) && LexLess(b, a))
    ensures LexLess(a, b) || LexLess(b, a) || a == b
  {
    if a != [] && b != [] {
      LexAsymmetric(a[1..], b[1..]);
      assert a == [a[0]] + a[1..] && b == [b[0]] + b[1..];
    }
  }

  lemma {:induction false} LexTransitive(a: string, b: string, c: string)
    requires LexLess(a, b) && LexLess(b, c)
    ensures LexLess(a, c)
  {
    if a != [] && a[0] == b[0] && b[0] == c[0] {
      LexTransitive(a[1..], b[1..], c[1..]);
    }
  }

  lemma OlderOrders(x: Rotation, y: Rotation, z: Rotation)
    ensures Older(x, y) ==> !Older(y, x)
    ensures !Older(y, x) && !Older(z, y) ==> !Older(z, x)
    ensures !Older(x, y) && !Older(y, x) ==> x == y
  {
    LexAsymmetric(x.name, y.name);
    LexAsymmetric(y.name, z.name);
    LexAsymmetric(x.name, z.name);
    if LexLess(x.name, y.name) && LexLess(y.name, z.name) {
      LexTransitive(x.name, y.name, z.name);
    }
  }

  /** Any two different rotations are ordered, so sorting has one result only. */
  lemma OlderIsTotal()
    ensures Sorting.Ordering(Older)
    ensures forall s: seq<Rotation> :: Sorting.Separates(Older, s)
  {
    forall x, y ensures (Older(x, y) ==> !Older(y, x)) && (!Older(x, y) && !Older(y, x) ==> x == y) {
      OlderOrders(x, y, y);
    }
    forall x, y, z | !Older(y, x) && !Older(z, y) ensures !Older(z, x) {
      OlderOrders(x, y, z);
    }
  }

  // ---- The listing ---------------------------------------------------------

  /** The rotations of a listing, in its own order. */
  function RotationsOf(clock: Clock, active: string, entries: seq<Entry>): seq<Rotation> {
    if entries == [] then []
    else
      var r := StrictOrder(clock, active, Last(entries).name);
      RotationsOf(clock, active, entries[..|entries| - 1]) + if r.Some? then [r.value] else []
  }

  predicate Unexpected(clock: Clock, active: string, entry: Entry) {
    IsRotated(active, entry.name) && (StrictOrder(clock, active, entry.name).None? || !entry.regular)
  }

  /** The prune refuses a directory with anything unexpected in it; otherwise the rotations come sorted. */
  method StrictAuditRotatedFiles(clock: Clock, active: string, entries: seq<Entry>) returns (out: Option<seq<Rotation>>)
    ensures out.None? <==> exists entry :: entry in entries && Unexpected(clock, active, entry)
    ensures out.Some? ==> Sorting.IsSorted(Older, out.value)
    ensures out.Some? ==> forall i, j :: 0 <= i < j < |out.value| ==> InOrder(out.value[i], out.value[j])
    ensures out.Some? ==> multiset(out.value) == multiset(RotationsOf(clock, active, entries))
  {
    var rotated: seq<Rotation> := [];
    var i := 0;
    assert entries[..0] == [];
    while i < |entries|
      invariant i <= |entries|
      invariant forall entry :: entry in entries[..i] ==> !Unexpected(clock, active, entry)
      invariant rotated == RotationsOf(clock, active, entries[..i])
    {
      var entry := entries[i];
      assert entries[..i + 1] == entries[..i] + [entry];
      assert entries[..i + 1][..i] == entries[..i];
      i := i + 1;
      if !IsRotated(active, entry.name) {
        continue;
      }
      var rotation := StrictOrder(clock, active, entry.name);
      if rotation.None? || !entry.regular {
        assert Unexpected(clock, active, entry);
        return None;
      }
      rotated := rotated + [rotation.value];
    }
    assert entries[..|entries|] == entries;
    OlderIsTotal();
    Sorting.SortSorts(Older, rotated);
    InOrderWhenSorted(Sorting.Sort(Older, rotated));
    out := Some(Sorting.Sort(Older, rotated));
  }

  lemma InOrderWhenSorted(s: seq<Rotation>)
    requires Sorting.IsSorted(Older, s)
    ensures forall i, j :: 0 <= i < j < |s| ==> InOrder(s[i], s[j])
  {
    forall i, j | 0 <= i < j < |s| ensures InOrder(s[i], s[j]) {
      assert !Older(s[j], s[i]);
    }
  }

  /** Two listings of the same directory, in whatever order, give the same sorted list. */
  lemma ListingOrderIsIrrelevant(a: seq<Rotation>, b: seq<Rotation>)
    requires Sorting.IsSorted(Older, a) && Sorting.IsSorted(Older, b) && multiset(a) == multiset(b)
    ensures a == b
  {
    OlderIsTotal();
    Sorting.SortedIsUnique(Older, a, b);
  }

  // ---- The selection --------------------------------------------------------

  datatype Selector = KeepLast(keep: nat) | Before(cutoff: Option<int>)

  /**
   What is selected is always the oldest part of the list: nothing kept is older than anything selected.
   Keeping the last n keeps exactly n, or all there are; a cutoff selects exactly what is before it.
   */
  method SelectAuditPruneCandidates(rotated: seq<Rotation>, selector: Selector) returns (out: Option<seq<Rotation>>)
    requires Sorting.IsSorted(Older, rotated)
    ensures out.None? <==> selector.Before? && selector.cutoff.None?
    ensures out.Some? ==> out.value <= rotated
    ensures selector.KeepLast? ==> |rotated| - |out.value| == if selector.keep <= |rotated| then selector.keep else |rotated|
    ensures selector.Before? && out.Some? ==> forall r :: r in out.value <==> r in rotated && r.timestamp < selector.cutoff.value
    ensures selector.Before? && out.Some? ==> forall r :: r in rotated[|out.value|..] ==> r.timestamp >= selector.cutoff.value
    ensures out.Some? ==> forall kept, gone :: kept in rotated[|out.value|..] && gone in out.value ==> InOrder(gone, kept)
  {
    InOrderWhenSorted(rotated);
    match selector {
      case KeepLast(keep) =>
        if keep >= |rotated| {
          out := Some([]);
        } else {
          out := Some(rotated[..|rotated| - keep]);
        }
      case Before(cutoff) =>
        if cutoff.None? {
          return None;
        }
        forall j, k | 0 <= j < k < |rotated| ensures rotated[j].timestamp <= rotated[k].timestamp {
          assert !Older(rotated[k], rotated[j]);
        }
        var selected: seq<Rotation> := [];
        for i := 0 to |rotated|
          invariant |selected| <= i && selected == rotated[..|selected|]
          invariant forall k :: 0 <= k < |selected| ==> rotated[k].timestamp < cutoff.value
          invariant forall k :: |selected| <= k < i ==> rotated[k].timestamp >= cutoff.value
        {
          ghost var first := rotated[|selected|];
          if rotated[i].timestamp < cutoff.value {
            selected := selected + [rotated[i]];
          }
        }
        out := Some(selected);
    }
  }
}
