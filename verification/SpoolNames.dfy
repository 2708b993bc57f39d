/**
 Names of the files in the outcome spool: twenty decimal digits of a 64-bit
 sequence number, a dash, the 32 hexadecimal digits of the record id, ".json".
 The replay sorts the names as strings, so what matters is that the names
 round-trip and that their string order is the numeric order of the sequences.
 */
module SpoolNames {
  import opened Common

  const SEQUENCE_WIDTH := 20
  const ID_WIDTH := 32
  const JSON_SUFFIX := ".json"

  // ---- Decimal digits -------------------------------------------------

  predicate IsDigit(c: char) {
    '0' <= c <= '9'
  }

  function DigitOf(d: nat): char
    requires d < 10
  {
    '0' + d as char
  }

  function DigitValue(c: char): (d: nat)
    requires IsDigit(c)
  {
    c as int - '0' as int
  }

  function Pow10(k: nat): nat {
    if k == 0 then 1 else 10 * Pow10(k - 1)
  }

  /** The shortest decimal numeral of n. */
  function Decimal(n: nat): string {
    if n < 10 then [DigitOf(n)] else Decimal(n / 10) + [DigitOf(n % 10)]
  }

  function Zeros(k: nat): string {
    seq(k, _ => '0')
  }

  /** The verb %020d: the numeral padded with zeros on the left to twenty characters. */
  function PadSequence(n: nat): string {
    var digits := Decimal(n);
    if |digits| < SEQUENCE_WIDTH then Zeros(SEQUENCE_WIDTH - |digits|) + digits else digits
  }

  /** The value a string of digits denotes. */
  function Value(s: string): nat
    requires AllDigits(s)
  {
    if s == [] then 0 else 10 * Value(s[..|s| - 1]) + DigitValue(s[|s| - 1])
  }

  predicate AllDigits(s: string) {
    forall i :: 0 <= i < |s| ==> IsDigit(s[i])
  }

  /** Unsigned 64-bit decimal parsing: digits only, at least one, no overflow. */
  function ParseUint64(s: string): Option<nat> {
    if s == [] || !AllDigits(s) || Value(s) > MAX_UINT64 then None else Some(Value(s))
  }

  // ---- Names ----------------------------------------------------------

  predicate IsLowerHex(c: char) {
    IsDigit(c) || 'a' <= c <= 'f'
  }

  predicate IsHex(c: char) {
    IsLowerHex(c) || 'A' <= c <= 'F'
  }

  function ToLower(c: char): char {
    if 'A' <= c <= 'Z' then c - 'A' + 'a' else c
  }

  /** Equal to its lower-case form, and accepted by the hexadecimal decoder (an even number of hex digits). */
  predicate IsCanonicalHex(s: string) {
    && (forall i :: 0 <= i < |s| ==> ToLower(s[i]) == s[i])
    && |s| % 2 == 0
    && (forall i :: 0 <= i < |s| ==> IsHex(s[i]))
  }

  predicate ValidId(id: string) {
    |id| == ID_WIDTH && IsCanonicalHex(id)
  }

  function SpoolName(sequence: nat, id: string): string {
    PadSequence(sequence) + "-" + id + JSON_SUFFIX
  }

  predicate HasSuffix(s: string, suffix: string) {
    |suffix| <= |s| && s[|s| - |suffix|..] == suffix
  }

  function TrimSuffix(s: string, suffix: string): string {
    if HasSuffix(s, suffix) then s[..|s| - |suffix|] else s
  }

  /** The index of the first separator, or the length when there is none. */
  function IndexOf(s: string, separator: char): (k: nat)
    ensures k <= |s|
    ensures forall i :: 0 <= i < k ==> s[i] != separator
    ensures k < |s| ==> s[k] == separator
  {
    if s == [] then 0
    else if s[0] == separator then 0
    else 1 + IndexOf(s[1..], separator)
  }

  function Split(s: string, separator: char): seq<string> {
    var k := IndexOf(s, separator);
    if k == |s| then [s] else [s[..k]] + Split(s[k + 1..], separator)
  }

  predicate ValidSpoolName(name: string) {
    && HasSuffix(name, JSON_SUFFIX)
    && var parts := Split(TrimSuffix(name, JSON_SUFFIX), '-');
    && |parts| == 2
    && |parts[0]| == SEQUENCE_WIDTH
    && |parts[1]| == ID_WIDTH
    && AllDigits(parts[0])
    && IsCanonicalHex(parts[1])
  }

  function NameSequence(name: string): Option<nat> {
    var separator := IndexOf(name, '-');
    if separator != SEQUENCE_WIDTH || separator == |name| then None else ParseUint64(name[..separator])
  }

  function LastIndexOf(s: string, separator: char): (k: int)
    ensures -1 <= k < |s|
    ensures k >= 0 ==> s[k] == separator
    ensures forall i :: k < i < |s| ==> s[i] != separator
  {
    if s == [] then -1
    else if s[|s| - 1] == separator then |s| - 1
    else LastIndexOf(s[..|s| - 1], separator)
  }

  function IdOfName(name: string): string {
    if !ValidSpoolName(name) then ""
    else
      var stem := TrimSuffix(name, JSON_SUFFIX);
      stem[LastIndexOf(stem, '-') + 1..]
  }

  /** String order as sort.Strings uses it. */
  predicate LexLess(a: string, b: string) {
    if a == [] then b != []
    else if b == [] then false
    else a[0] < b[0] || (a[0] == b[0] && LexLess(a[1..], b[1..]))
  }

  // ---- Digits round-trip ----------------------------------------------

  /** Exactly `width` digits of n, most significant first. */
  function FixedDigits(n: nat, width: nat): (s: string)
    ensures |s| == width && AllDigits(s)
  {
    if width == 0 then "" else FixedDigits(n / 10, width - 1) + [DigitOf(n % 10)]
  }

  lemma {:induction false} FixedDigitsValue(n: nat, width: nat)
    requires n < Pow10(width)
    ensures Value(FixedDigits(n, width)) == n
  {
    if width > 0 {
      FixedDigitsValue(n / 10, width - 1);
      var s := FixedDigits(n, width);
      assert s[..|s| - 1] == FixedDigits(n / 10, width - 1);
    }
  }

  lemma {:induction false} ValueFixedDigits(s: string)
    requires AllDigits(s)
    ensures Value(s) < Pow10(|s|) && FixedDigits(Value(s), |s|) == s
  {
    if s != [] {
      var front := s[..|s| - 1];
      ValueFixedDigits(front);
      assert Value(s) / 10 == Value(front);
      assert s == front + [s[|s| - 1]];
    }
  }

  lemma {:induction false} FixedDigitsPad(n: nat, width: nat)
    requires n < Pow10(width)
    ensures |Decimal(n)| <= Max(width, 1)
    ensures width > 0 ==> FixedDigits(n, width) == Zeros(width - |Decimal(n)|) + Decimal(n)
  {
    if width > 0 {
      if n < 10 {
        FixedZero(width - 1);
        assert n / 10 == 0;
      } else {
        assert Pow10(1) == 10;
        FixedDigitsPad(n / 10, width - 1);
      }
    }
  }

  lemma {:induction false} FixedZero(width: nat)
    ensures FixedDigits(0, width) == Zeros(width)
  {
    if width > 0 {
      FixedZero(width - 1);
    }
  }

  lemma Uint64FitsTwentyDigits()
    ensures MAX_UINT64 == 18_446_744_073_709_551_615 < Pow10(SEQUENCE_WIDTH)
  {
    assert Pow10(4) == 10_000;
    assert Pow10(8) == 1_0000_0000 by { assert Pow10(6) == 1_000_000; }
    assert Pow10(12) == 1_0000_0000_0000 by { assert Pow10(10) == 100_0000_0000; }
    assert Pow10(16) == 1_0000_0000_0000_0000 by { assert Pow10(14) == 100_0000_0000_0000; }
    assert Pow10(20) == 1_0000_0000_0000_0000_0000 by { assert Pow10(18) == 100_0000_0000_0000_0000; }
  }

  lemma PadIsFixed(sequence: nat)
    requires sequence <= MAX_UINT64
    ensures PadSequence(sequence) == FixedDigits(sequence, SEQUENCE_WIDTH)
  {
    Uint64FitsTwentyDigits();
    FixedDigitsPad(sequence, SEQUENCE_WIDTH);
  }

  /** An id is 32 lower-case hexadecimal digits. */
  lemma ValidIdIff(id: string)
    ensures ValidId(id) <==> |id| == 32 && forall i :: 0 <= i < |id| ==> '0' <= id[i] <= '9' || 'a' <= id[i] <= 'f'
  {
    if ValidId(id) {
      forall i | 0 <= i < |id| ensures '0' <= id[i] <= '9' || 'a' <= id[i] <= 'f' {
        assert ToLower(id[i]) == id[i] && IsHex(id[i]);
      }
    }
  }

  // ---- Names round-trip -----------------------------------------------

  lemma {:induction false} IndexOfIs(s: string, separator: char, k: nat)
    requires k < |s| && s[k] == separator
    requires forall i :: 0 <= i < k ==> s[i] != separator
    ensures IndexOf(s, separator) == k
  {
    if k > 0 {
      IndexOfIs(s[1..], separator, k - 1);
    }
  }

  lemma {:induction false} LastIndexOfIs(s: string, separator: char, k: nat)
    requires k < |s| && s[k] == separator
    requires forall i :: k < i < |s| ==> s[i] != separator
    ensures LastIndexOf(s, separator) == k
  {
    if k < |s| - 1 {
      LastIndexOfIs(s[..|s| - 1], separator, k);
    }
  }

  lemma SplitStem(digits: string, id: string)
    requires forall i :: 0 <= i < |digits| ==> digits[i] != '-'
    requires forall i :: 0 <= i < |id| ==> id[i] != '-'
    ensures Split(digits + "-" + id, '-') == [digits, id]
    ensures IndexOf(digits + "-" + id, '-') == |digits|
    ensures LastIndexOf(digits + "-" + id, '-') == |digits|
  {
    var stem := digits + "-" + id;
    IndexOfIs(stem, '-', |digits|);
    LastIndexOfIs(stem, '-', |digits|);
    assert stem[..|digits|] == digits && stem[|digits| + 1..] == id;
    assert IndexOf(id, '-') == |id|;
  }

  /** Every name the writer prints is accepted by the reader and parses back to the same sequence and id. */
  lemma NameRoundTrip(sequence: nat, id: string)
    requires sequence <= MAX_UINT64 && ValidId(id)
    ensures ValidSpoolName(SpoolName(sequence, id))
    ensures NameSequence(SpoolName(sequence, id)) == Some(sequence)
    ensures IdOfName(SpoolName(sequence, id)) == id
  {
    Uint64FitsTwentyDigits();
    PadIsFixed(sequence);
    FixedDigitsValue(sequence, SEQUENCE_WIDTH);
    var digits := PadSequence(sequence);
    SplitStem(digits, id);
    var name := SpoolName(sequence, id);
    var stem := digits + "-" + id;
    assert name == stem + JSON_SUFFIX;
    assert TrimSuffix(name, JSON_SUFFIX) == stem;
    assert stem[|digits| + 1..] == id;
    IndexOfIs(name, '-', SEQUENCE_WIDTH);
    assert name[..SEQUENCE_WIDTH] == digits;
  }

  /** Twenty digits, a dash, the id and the suffix. */
  lemma NameLayout(sequence: nat, id: string)
    requires sequence <= MAX_UINT64 && ValidId(id)
    ensures |SpoolName(sequence, id)| == 58 && SpoolName(sequence, id)[20..] == "-" + id + ".json"
    ensures forall i :: 0 <= i < 20 ==> '0' <= SpoolName(sequence, id)[i] <= '9'
  {
    PadIsFixed(sequence);
    hide PadSequence, ValidId;
    var digits, tail := PadSequence(sequence), "-" + id + JSON_SUFFIX;
    assert |id| == 32 by { ValidIdIff(id); }
    assert SpoolName(sequence, id) == digits + tail;
  }

  /** Conversely, an accepted name with a 64-bit sequence is the one the writer prints for it. */
  lemma AcceptedNameIsPrinted(name: string)
    requires ValidSpoolName(name) && NameSequence(name).Some?
    ensures ValidId(IdOfName(name)) && NameSequence(name).value <= MAX_UINT64
    ensures name == SpoolName(NameSequence(name).value, IdOfName(name))
  {
    var stem := TrimSuffix(name, JSON_SUFFIX);
    var parts := Split(stem, '-');
    var k := IndexOf(stem, '-');
    assert k < |stem|;
    var rest := stem[k + 1..];
    assert parts == [stem[..k]] + Split(rest, '-');
    assert Split(rest, '-') == [rest];
    var digits := parts[0];
    assert stem == digits + "-" + rest;
    assert name == stem + JSON_SUFFIX;
    SplitStem(digits, rest);
    assert IdOfName(name) == rest;
    assert name[..SEQUENCE_WIDTH] == digits;
    ValueFixedDigits(digits);
    PadIsFixed(Value(digits));
  }

  // ---- Names sort like sequences --------------------------------------

  lemma {:induction false} LexLessAppend(prefix: string, a: string, b: string)
    ensures LexLess(prefix + a, prefix + b) == LexLess(a, b)
  {
    if prefix == [] {
      assert prefix + a == a && prefix + b == b;
    } else {
      LexLessAppend(prefix[1..], a, b);
      assert (prefix + a)[1..] == prefix[1..] + a && (prefix + b)[1..] == prefix[1..] + b;
    }
  }

  /** Two strings of one length that differ are ordered by what comes first; what follows is irrelevant. */
  lemma {:induction false} LexLessEqualLength(a: string, b: string, x: string, y: string)
    requires |a| == |b| && a != b
    ensures LexLess(a + x, b + y) == LexLess(a, b)
  {
    assert a != [];
    assert (a + x)[1..] == a[1..] + x && (b + y)[1..] == b[1..] + y;
    if a[0] == b[0] {
      assert a == [a[0]] + a[1..] && b == [b[0]] + b[1..];
      LexLessEqualLength(a[1..], b[1..], x, y);
    }
  }

  lemma {:induction false} FixedDigitsOrder(m: nat, n: nat, width: nat)
    requires m < Pow10(width) && n < Pow10(width)
    ensures LexLess(FixedDigits(m, width), FixedDigits(n, width)) <==> m < n
  {
    if width > 0 {
      FixedDigitsOrder(m / 10, n / 10, width - 1);
      var a, b := FixedDigits(m / 10, width - 1), FixedDigits(n / 10, width - 1);
      if m / 10 == n / 10 {
        LexLessAppend(a, [DigitOf(m % 10)], [DigitOf(n % 10)]);
      } else {
        FixedDigitsValue(m / 10, width - 1);
        FixedDigitsValue(n / 10, width - 1);
        LexLessEqualLength(a, b, [DigitOf(m % 10)], [DigitOf(n % 10)]);
      }
    }
  }

  lemma TailOrder(x: string, y: string)
    requires |x| == |y|
    ensures LexLess("-" + x + JSON_SUFFIX, "-" + y + JSON_SUFFIX) == LexLess(x, y)
  {
    var s, t := x + JSON_SUFFIX, y + JSON_SUFFIX;
    assert "-" + x + JSON_SUFFIX == "-" + s && "-" + y + JSON_SUFFIX == "-" + t;
    LexLessAppend("-", s, t);
    if x != y {
      LexLessEqualLength(x, y, JSON_SUFFIX, JSON_SUFFIX);
    } else {
      LexIrreflexive(s);
      LexIrreflexive(x);
    }
  }

  lemma DifferentSequencesDecide(m: nat, s: string, n: nat, t: string)
    requires m <= MAX_UINT64 && n <= MAX_UINT64 && m != n
    ensures LexLess(PadSequence(m) + s, PadSequence(n) + t) <==> m < n
  {
    Uint64FitsTwentyDigits();
    PadIsFixed(m);
    PadIsFixed(n);
    hide PadSequence;
    FixedDigitsValue(m, SEQUENCE_WIDTH);
    FixedDigitsValue(n, SEQUENCE_WIDTH);
    FixedDigitsOrder(m, n, SEQUENCE_WIDTH);
    LexLessEqualLength(PadSequence(m), PadSequence(n), s, t);
  }

  /** The string order of two spool names is the numeric order of their sequences, then the order of their ids. */
  lemma NamesSortBySequence(m: nat, x: string, n: nat, y: string)
    requires m <= MAX_UINT64 && n <= MAX_UINT64 && ValidId(x) && ValidId(y)
    ensures LexLess(SpoolName(m, x), SpoolName(n, y)) <==> m < n || (m == n && LexLess(x, y))
  {
    hide PadSequence;
    var s, t := "-" + x + JSON_SUFFIX, "-" + y + JSON_SUFFIX;
    assert SpoolName(m, x) == PadSequence(m) + s && SpoolName(n, y) == PadSequence(n) + t;
    if m == n {
      LexLessAppend(PadSequence(m), s, t);
      TailOrder(x, y);
    } else {
      DifferentSequencesDecide(m, s, n, t);
    }
  }

  /** Two names are one file exactly when sequence and id agree. */
  lemma NamesAreInjective(m: nat, x: string, n: nat, y: string)
    requires m <= MAX_UINT64 && n <= MAX_UINT64 && ValidId(x) && ValidId(y)
    ensures SpoolName(m, x) == SpoolName(n, y) <==> m == n && x == y
  {
    NameRoundTrip(m, x);
    NameRoundTrip(n, y);
  }

  lemma {:induction false} LexIrreflexive(a: string)
    ensures !LexLess(a, a)
  {
    if a != [] {
      LexIrreflexive(a[1..]);
    }
  }
}
